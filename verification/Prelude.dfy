/** Small datatypes and sequence facts shared by the models. */
module Prelude {

  datatype Option<+T> = None | Some(value: T)

  /** Identifiers and texts are only compared and tested for emptiness, so a number stands
      for each of them; 0 is the empty string, which the program treats as false. */
  type Id = nat

  const EMPTY: Id := 0

  /** An optional identifier counts as present when it is neither missing nor empty. */
  predicate Truthy(id: Option<Id>) {
    id.Some? && id.value != EMPTY
  }

  /** The elements of `xs` that satisfy `p`, in order. */
  function Filter<T>(xs: seq<T>, p: T -> bool): seq<T> {
    if xs == [] then []
    else Filter(xs[..|xs| - 1], p) + if p(xs[|xs| - 1]) then [xs[|xs| - 1]] else []
  }

  lemma FilterSnoc<T>(xs: seq<T>, p: T -> bool)
    requires xs != []
    ensures var front, last := xs[..|xs| - 1], xs[|xs| - 1];
            Filter(xs, p) == if p(last) then Filter(front, p) + [last] else Filter(front, p)
  {
  }

  lemma FilterAppend<T>(xs: seq<T>, x: T, p: T -> bool)
    ensures Filter(xs + [x], p) == if p(x) then Filter(xs, p) + [x] else Filter(xs, p)
  {
    assert (xs + [x])[..|xs|] == xs;
    FilterSnoc(xs + [x], p);
  }

  lemma {:induction false} FilterConcat<T>(xs: seq<T>, ys: seq<T>, p: T -> bool)
    ensures Filter(xs + ys, p) == Filter(xs, p) + Filter(ys, p)
  {
    if ys == [] {
      assert xs + ys == xs;
    } else {
      var front := ys[..|ys| - 1];
      assert (xs + ys)[..|xs + ys| - 1] == xs + front;
      FilterConcat(xs, front, p);
    }
  }

  lemma {:induction false} FilterMember<T>(xs: seq<T>, p: T -> bool, x: T)
    ensures x in Filter(xs, p) <==> x in xs && p(x)
  {
    if xs != [] {
      var front := xs[..|xs| - 1];
      assert xs == front + [xs[|xs| - 1]];
      FilterMember(front, p, x);
    }
  }

  lemma {:induction false} FilterFilter<T>(xs: seq<T>, p: T -> bool, q: T -> bool)
    requires forall x :: x in xs && q(x) ==> p(x)
    ensures Filter(Filter(xs, p), q) == Filter(xs, q)
  {
    if xs != [] {
      var front := xs[..|xs| - 1];
      var last := xs[|xs| - 1];
      assert last in xs;
      FilterFilter(front, p, q);
      if p(last) {
        FilterConcat(Filter(front, p), [last], q);
        assert [last][..0] == [];
        assert Filter([last], q) == if q(last) then [last] else [];
      } else {
        assert !q(last);
        assert Filter(xs, p) == Filter(front, p);
        assert Filter(xs, q) == Filter(front, q);
      }
    }
  }

  lemma InConcat<T>(xs: seq<T>, ys: seq<T>, x: T)
    ensures x in xs + ys <==> x in xs || x in ys
  {
  }

  lemma FilterNone<T>(xs: seq<T>, p: T -> bool)
    requires forall x :: x in xs ==> !p(x)
    ensures Filter(xs, p) == []
  {
    if Filter(xs, p) != [] {
      FilterMember(xs, p, Filter(xs, p)[0]);
    }
  }

  lemma {:induction false} FilterAll<T>(xs: seq<T>, p: T -> bool)
    requires forall x :: x in xs ==> p(x)
    ensures Filter(xs, p) == xs
  {
    if xs != [] {
      hide Filter;
      var front, last := xs[..|xs| - 1], xs[|xs| - 1];
      assert last in xs && forall x :: x in front ==> x in xs;
      FilterAll(front, p);
      FilterSnoc(xs, p);
    } else {
      assert Filter(xs, p) == [];
    }
  }

  lemma {:induction false} FilterCommutes<T>(xs: seq<T>, p: T -> bool, q: T -> bool)
    ensures Filter(Filter(xs, p), q) == Filter(Filter(xs, q), p)
  {
    if xs != [] {
      hide Filter;
      var front, last := xs[..|xs| - 1], xs[|xs| - 1];
      FilterCommutes(front, p, q);
      FilterSnoc(xs, p);
      FilterSnoc(xs, q);
      FilterAppend(Filter(front, p), last, q);
      FilterAppend(Filter(front, q), last, p);
    }
  }

  /** The number of elements that satisfy `p`. */
  ghost function Count<T>(xs: seq<T>, p: T -> bool): nat {
    |Filter(xs, p)|
  }

  lemma CountConcat<T>(xs: seq<T>, ys: seq<T>, p: T -> bool)
    ensures Count(xs + ys, p) == Count(xs, p) + Count(ys, p)
  {
    FilterConcat(xs, ys, p);
  }

  lemma CountOne<T>(x: T, p: T -> bool)
    ensures Count([x], p) == if p(x) then 1 else 0
    ensures Count<T>([], p) == 0
  {
    assert [x][..0] == [];
    FilterSnoc([x], p);
  }

  /** `xs` is obtained from `ys` by deleting elements. */
  ghost predicate Subsequence<T>(xs: seq<T>, ys: seq<T>) {
    if xs == [] then true
    else if ys == [] then false
    else
      (xs[|xs| - 1] == ys[|ys| - 1] && Subsequence(xs[..|xs| - 1], ys[..|ys| - 1]))
      || Subsequence(xs, ys[..|ys| - 1])
  }

  lemma {:induction false} SubsequenceRefl<T>(xs: seq<T>)
    ensures Subsequence(xs, xs)
  {
    if xs != [] {
      SubsequenceRefl(xs[..|xs| - 1]);
    }
  }

  lemma {:induction false} SubsequenceSnoc<T>(xs: seq<T>, ys: seq<T>, y: T)
    requires Subsequence(xs, ys)
    ensures Subsequence(xs, ys + [y])
    ensures Subsequence(xs + [y], ys + [y])
  {
    assert (ys + [y])[..|ys + [y]| - 1] == ys;
    assert (xs + [y])[..|xs + [y]| - 1] == xs;
  }

  lemma SubsequenceLast<T>(xs: seq<T>, ys: seq<T>)
    requires Subsequence(xs, ys) && xs != []
    ensures ys != []
    ensures Subsequence(xs, ys[..|ys| - 1])
            || (xs[|xs| - 1] == ys[|ys| - 1] && Subsequence(xs[..|xs| - 1], ys[..|ys| - 1]))
  {
  }

  /** Deleting one more element keeps a subsequence. */
  lemma {:induction false} SubsequenceDrop<T>(xs: seq<T>, k: nat, ys: seq<T>)
    requires k < |xs| && Subsequence(xs, ys)
    ensures Subsequence(xs[..k] + xs[k + 1..], ys)
    decreases |ys|
  {
    hide Subsequence;
    SubsequenceLast(xs, ys);
    var front, last := ys[..|ys| - 1], ys[|ys| - 1];
    assert ys == front + [last];
    if Subsequence(xs, front) {
      SubsequenceDrop(xs, k, front);
      SubsequenceSnoc(xs[..k] + xs[k + 1..], front, last);
    } else if k == |xs| - 1 {
      assert xs[..k] + xs[k + 1..] == xs[..|xs| - 1];
      SubsequenceSnoc(xs[..|xs| - 1], front, last);
    } else {
      var pre := xs[..|xs| - 1];
      SubsequenceDrop(pre, k, front);
      SubsequenceSnoc(pre[..k] + pre[k + 1..], front, last);
      assert pre[..k] + pre[k + 1..] + [last] == xs[..k] + xs[k + 1..];
    }
  }

  lemma {:induction false} SubsequencePrefix<T>(xs: seq<T>, ys: seq<T>)
    ensures Subsequence(xs, xs + ys)
  {
    if ys == [] {
      assert xs + ys == xs;
      SubsequenceRefl(xs);
    } else {
      var front := ys[..|ys| - 1];
      SubsequencePrefix(xs, front);
      assert xs + ys == (xs + front) + [ys[|ys| - 1]];
      SubsequenceSnoc(xs, xs + front, ys[|ys| - 1]);
    }
  }

  lemma {:induction false} SubsequenceMember<T>(xs: seq<T>, ys: seq<T>, x: T)
    requires Subsequence(xs, ys) && x in xs
    ensures x in ys
    decreases |ys|
  {
    if Subsequence(xs, ys[..|ys| - 1]) {
      SubsequenceMember(xs, ys[..|ys| - 1], x);
    } else if x != xs[|xs| - 1] {
      SubsequenceMember(xs[..|xs| - 1], ys[..|ys| - 1], x);
    }
  }

  lemma {:induction false} SubsequenceTrans<T>(xs: seq<T>, ys: seq<T>, zs: seq<T>)
    requires Subsequence(xs, ys) && Subsequence(ys, zs)
    ensures Subsequence(xs, zs)
    decreases |ys| + |zs|
  {
    if xs != [] {
      var zf := zs[..|zs| - 1];
      if Subsequence(ys, zf) {
        SubsequenceTrans(xs, ys, zf);
      } else if Subsequence(xs, ys[..|ys| - 1]) {
        SubsequenceTrans(xs, ys[..|ys| - 1], zf);
      } else {
        SubsequenceTrans(xs[..|xs| - 1], ys[..|ys| - 1], zf);
      }
    }
  }
}
