/** The sliding one-second throttle on orders and cancels (polytrader/execution/throttle.py). */
module Throttle {
  import opened Prelude

  /** One throttle check: the key it is for and the monotonic time it reads. */
  datatype Call = Call(key: Id, now: real)

  function Recent(now: real): real -> bool {
    ts => now - ts < 1.0
  }

  /** The list a defaultdict yields for a key. */
  function Stamps(table: map<Id, seq<real>>, key: Id): seq<real> {
    if key in table then table[key] else []
  }

  predicate Allowed(history: seq<real>, now: real, limit: real) {
    |Filter(history, Recent(now))| as real < limit
  }

  /** Reference throttle: remembers every acceptance of a key and never prunes. */
  function Accepted(calls: seq<Call>, limit: real, key: Id): seq<real> {
    if calls == [] then [] else
    var before := Accepted(calls[..|calls| - 1], limit, key);
    var call := calls[|calls| - 1];
    if call.key == key && Allowed(before, call.now, limit) then before + [call.now] else before
  }

  ghost predicate Monotone(calls: seq<Call>) {
    forall i, j :: 0 <= i < j < |calls| ==> calls[i].now <= calls[j].now
  }

  /** From time `from` on, `stamps` decides every check as `history` would. */
  ghost predicate DecidesAs(stamps: seq<real>, history: seq<real>, from: real) {
    forall t :: t >= from ==> Filter(stamps, Recent(t)) == Filter(history, Recent(t))
  }

  lemma PruneDecidesAs(stamps: seq<real>, history: seq<real>, from: real, now: real)
    requires DecidesAs(stamps, history, from) && now >= from
    ensures DecidesAs(Filter(stamps, Recent(now)), history, now)
    ensures DecidesAs(Filter(stamps, Recent(now)) + [now], history + [now], now)
  {
    var pruned := Filter(stamps, Recent(now));
    forall t | t >= now
      ensures Filter(pruned, Recent(t)) == Filter(history, Recent(t))
      ensures Filter(pruned + [now], Recent(t)) == Filter(history + [now], Recent(t))
    {
      FilterFilter(stamps, Recent(now), Recent(t));
      FilterConcat(pruned, [now], Recent(t));
      FilterConcat(history, [now], Recent(t));
    }
  }

  lemma LaterDecidesAs(stamps: seq<real>, history: seq<real>, from: real, now: real)
    requires DecidesAs(stamps, history, from) && now >= from
    ensures DecidesAs(stamps, history, now)
  {
  }

  /** The pruned lists of all keys stand for the full acceptance histories. */
  ghost predicate Represents(table: map<Id, seq<real>>, calls: seq<Call>, limit: real, clock: real) {
    forall key :: DecidesAs(Stamps(table, key), Accepted(calls, limit, key), clock)
  }

  lemma CheckRepresents(table: map<Id, seq<real>>, calls: seq<Call>, limit: real, clock: real, id: Id, now: real,
                        after: map<Id, seq<real>>)
    requires Represents(table, calls, limit, clock) && now >= clock
    requires var pruned := Filter(Stamps(table, id), Recent(now));
             after == table[id := if |pruned| as real >= limit then pruned else pruned + [now]]
    ensures Represents(after, calls + [Call(id, now)], limit, now)
    ensures Allowed(Accepted(calls, limit, id), now, limit) <==>
            |Filter(Stamps(table, id), Recent(now))| as real < limit
  {
    hide Filter;
    var calls' := calls + [Call(id, now)];
    assert calls'[..|calls'| - 1] == calls;
    assert DecidesAs(Stamps(table, id), Accepted(calls, limit, id), clock);
    forall key ensures DecidesAs(Stamps(after, key), Accepted(calls', limit, key), now) {
      assert DecidesAs(Stamps(table, key), Accepted(calls, limit, key), clock);
      if key == id {
        PruneDecidesAs(Stamps(table, id), Accepted(calls, limit, id), clock, now);
      } else {
        LaterDecidesAs(Stamps(table, key), Accepted(calls, limit, key), clock, now);
      }
    }
  }

  class ExecutionThrottle {
    const maxOrders: real
    const maxCancels: real
    var orders: map<Id, seq<real>>
    var cancels: map<Id, seq<real>>
    ghost var clock: real
    ghost var orderCalls: seq<Call>
    ghost var cancelCalls: seq<Call>

    ghost predicate Valid()
      reads this
    {
      && Represents(orders, orderCalls, maxOrders, clock)
      && Represents(cancels, cancelCalls, maxCancels, clock)
    }

    constructor (maxOrdersPerSecond: real, maxCancelsPerSecond: real)
      ensures Valid() && orderCalls == [] && cancelCalls == []
      ensures maxOrders == maxOrdersPerSecond && maxCancels == maxCancelsPerSecond
    {
      maxOrders, maxCancels := maxOrdersPerSecond, maxCancelsPerSecond;
      orders, cancels := map[], map[];
      orderCalls, cancelCalls := [], [];
    }

    /** Decides exactly as a throttle that forgot nothing. */
    method CheckOrderThrottle(id: Id, now: real) returns (ok: bool)
      requires Valid() && now >= clock
      modifies this
      ensures Valid() && clock == now
      ensures ok == Allowed(Accepted(old(orderCalls), maxOrders, id), now, maxOrders)
      ensures orderCalls == old(orderCalls) + [Call(id, now)] && cancelCalls == old(cancelCalls)
      ensures cancels == old(cancels) && forall key :: key != id ==> Stamps(orders, key) == Stamps(old(orders), key)
    {
      var stamps := Filter(Stamps(orders, id), Recent(now));
      ok := |stamps| as real < maxOrders;
      if ok {
        stamps := stamps + [now];
      }
      CheckRepresents(orders, orderCalls, maxOrders, clock, id, now, orders[id := stamps]);
      CancelsLater(now);
      orders := orders[id := stamps];
      orderCalls := orderCalls + [Call(id, now)];
      clock := now;
    }

    method CheckCancelThrottle(id: Id, now: real) returns (ok: bool)
      requires Valid() && now >= clock
      modifies this
      ensures Valid() && clock == now
      ensures ok == Allowed(Accepted(old(cancelCalls), maxCancels, id), now, maxCancels)
      ensures cancelCalls == old(cancelCalls) + [Call(id, now)] && orderCalls == old(orderCalls)
      ensures orders == old(orders) && forall key :: key != id ==> Stamps(cancels, key) == Stamps(old(cancels), key)
    {
      var stamps := Filter(Stamps(cancels, id), Recent(now));
      ok := |stamps| as real < maxCancels;
      if ok {
        stamps := stamps + [now];
      }
      CheckRepresents(cancels, cancelCalls, maxCancels, clock, id, now, cancels[id := stamps]);
      OrdersLater(now);
      cancels := cancels[id := stamps];
      cancelCalls := cancelCalls + [Call(id, now)];
      clock := now;
    }

    method Reset()
      requires Valid()
      modifies this
      ensures Valid() && clock == old(clock) && orderCalls == [] && cancelCalls == []
    {
      orders, cancels := map[], map[];
      orderCalls, cancelCalls := [], [];
    }

    lemma CancelsLater(now: real)
      requires Valid() && now >= clock
      ensures Represents(cancels, cancelCalls, maxCancels, now)
    {
      forall key ensures DecidesAs(Stamps(cancels, key), Accepted(cancelCalls, maxCancels, key), now) {
        LaterDecidesAs(Stamps(cancels, key), Accepted(cancelCalls, maxCancels, key), clock, now);
      }
    }

    lemma OrdersLater(now: real)
      requires Valid() && now >= clock
      ensures Represents(orders, orderCalls, maxOrders, now)
    {
      forall key ensures DecidesAs(Stamps(orders, key), Accepted(orderCalls, maxOrders, key), now) {
        LaterDecidesAs(Stamps(orders, key), Accepted(orderCalls, maxOrders, key), clock, now);
      }
    }
  }

  // ---- The rate bound ----------------------------------------------------------------

  /** The limit rounded up; a limit of zero or less lets nothing through. */
  function Ceiling(limit: real): nat {
    if limit <= 0.0 then 0 else -(-limit).Floor
  }

  function Within(t: real): real -> bool {
    ts => t <= ts < t + 1.0
  }

  lemma {:induction false} FilterWeaker(xs: seq<real>, p: real -> bool, q: real -> bool)
    requires forall x :: x in xs && p(x) ==> q(x)
    ensures |Filter(xs, p)| <= |Filter(xs, q)|
  {
    if xs != [] {
      hide Filter;
      var front, last := xs[..|xs| - 1], xs[|xs| - 1];
      assert last in xs && forall x :: x in front ==> x in xs;
      FilterWeaker(front, p, q);
      FilterSnoc(xs, p);
      FilterSnoc(xs, q);
    }
  }

  lemma {:induction false} AcceptedEarlier(calls: seq<Call>, limit: real, key: Id, ts: real)
    requires ts in Accepted(calls, limit, key)
    ensures exists i :: 0 <= i < |calls| && calls[i] == Call(key, ts)
  {
    var front := calls[..|calls| - 1];
    if ts in Accepted(front, limit, key) {
      AcceptedEarlier(front, limit, key, ts);
      var i :| 0 <= i < |front| && front[i] == Call(key, ts);
      assert calls[i] == Call(key, ts);
    } else {
      assert calls[|calls| - 1] == Call(key, ts);
    }
  }

  /** With a monotone clock no half-open second, wherever it starts, holds more accepted calls of
      a key than the limit rounded up. */
  lemma {:induction false} SlidingLimit(calls: seq<Call>, limit: real, key: Id, t: real)
    requires Monotone(calls)
    ensures |Filter(Accepted(calls, limit, key), Within(t))| <= Ceiling(limit)
  {
    if calls != [] {
      var front, call := calls[..|calls| - 1], calls[|calls| - 1];
      var before := Accepted(front, limit, key);
      SlidingLimit(front, limit, key, t);
      if call.key == key && Allowed(before, call.now, limit) {
        FilterSnoc(before + [call.now], Within(t));
        assert (before + [call.now])[..|before|] == before;
        if Within(t)(call.now) {
          forall ts | ts in before && Within(t)(ts) ensures Recent(call.now)(ts) {
            AcceptedEarlier(front, limit, key, ts);
          }
          FilterWeaker(before, Within(t), Recent(call.now));
        }
      }
    }
  }

  /** A call is refused exactly when, of the accepted calls of its key, as many as the limit rounded
      up are less than a second old. */
  lemma RefusedIff(calls: seq<Call>, limit: real, key: Id, now: real)
    ensures var accepted := Accepted(calls, limit, key);
            !Allowed(accepted, now, limit) <==> Count(accepted, (ts: real) => now - ts < 1.0) >= Ceiling(limit)
  {
    var accepted := Accepted(calls, limit, key);
    SameFilter(accepted, Recent(now), (ts: real) => now - ts < 1.0);
  }

  lemma {:induction false} SameFilter(xs: seq<real>, p: real -> bool, q: real -> bool)
    requires forall x :: p(x) == q(x)
    ensures Filter(xs, p) == Filter(xs, q)
  {
    if xs != [] {
      SameFilter(xs[..|xs| - 1], p, q);
    }
  }

  /** So nothing is held back for longer than a second: a call passes once the last accepted call of
      its key is a second old. */
  lemma LaterPasses(calls: seq<Call>, limit: real, key: Id, now: real)
    requires limit > 0.0 && forall ts :: ts in Accepted(calls, limit, key) ==> now >= ts + 1.0
    ensures Allowed(Accepted(calls, limit, key), now, limit)
  {
    FilterNone(Accepted(calls, limit, key), Recent(now));
  }

  function Burst(key: Id, now: real, n: nat): seq<Call> {
    if n == 0 then [] else Burst(key, now, n - 1) + [Call(key, now)]
  }

  /** The bound is tight: of any burst at one instant exactly that many calls pass. */
  lemma {:induction false} BurstAccepted(key: Id, now: real, n: nat, limit: real)
    ensures var accepted := Accepted(Burst(key, now, n), limit, key);
            && |accepted| == (if n <= Ceiling(limit) then n else Ceiling(limit))
            && forall ts :: ts in accepted ==> ts == now
  {
    if n > 0 {
      BurstAccepted(key, now, n - 1, limit);
      var calls := Burst(key, now, n);
      assert calls[..|calls| - 1] == Burst(key, now, n - 1);
      FilterAll(Accepted(Burst(key, now, n - 1), limit, key), Recent(now));
    }
  }

  lemma {:induction false} OtherKeysAccept(calls: seq<Call>, limit: real, key: Id)
    requires forall i :: 0 <= i < |calls| ==> calls[i].key != key
    ensures Accepted(calls, limit, key) == []
  {
    if calls != [] {
      OtherKeysAccept(calls[..|calls| - 1], limit, key);
    }
  }

  /** The key is the client order id, so the limit does not bound distinct orders taken together:
      a burst of any size with pairwise different keys passes whole as soon as the limit is positive. */
  lemma LimitIsPerKey(calls: seq<Call>, limit: real, k: nat)
    requires limit > 0.0 && k < |calls|
    requires forall i, j :: 0 <= i < j < |calls| ==> calls[i].key != calls[j].key
    ensures Allowed(Accepted(calls[..k], limit, calls[k].key), calls[k].now, limit)
  {
    OtherKeysAccept(calls[..k], limit, calls[k].key);
  }

  /** All acceptances, whatever their key. */
  function AllAccepted(calls: seq<Call>, limit: real): seq<Call> {
    if calls == [] then [] else
    var front, call := calls[..|calls| - 1], calls[|calls| - 1];
    AllAccepted(front, limit) + if Allowed(Accepted(front, limit, call.key), call.now, limit) then [call] else []
  }

  function Keys(calls: seq<Call>): set<Id> {
    set c <- calls :: c.key
  }

  function InSecond(keys: set<Id>, t: real): Call -> bool {
    (c: Call) => c.key in keys && t <= c.now < t + 1.0
  }

  lemma {:induction false} CountOfKey(calls: seq<Call>, limit: real, key: Id, t: real)
    ensures Count(AllAccepted(calls, limit), InSecond({key}, t)) == Count(Accepted(calls, limit, key), Within(t))
  {
    if calls == [] {
      CountOne(Call(key, t), InSecond({key}, t));
      CountOne(t, Within(t));
    } else {
      hide Count, Allowed;
      var front, call := calls[..|calls| - 1], calls[|calls| - 1];
      CountOfKey(front, limit, key, t);
      CountConcat(AllAccepted(front, limit), [call], InSecond({key}, t));
      CountOne(call, InSecond({key}, t));
      CountConcat(Accepted(front, limit, key), [call.now], Within(t));
      CountOne(call.now, Within(t));
      assert AllAccepted(front, limit) + [] == AllAccepted(front, limit);
    }
  }

  lemma {:induction false} CountSplits(xs: seq<Call>, keys: set<Id>, key: Id, t: real)
    requires key in keys
    ensures Count(xs, InSecond(keys, t)) == Count(xs, InSecond(keys - {key}, t)) + Count(xs, InSecond({key}, t))
  {
    if xs != [] {
      var front, last := xs[..|xs| - 1], xs[|xs| - 1];
      CountSplits(front, keys, key, t);
      FilterSnoc(xs, InSecond(keys, t));
      FilterSnoc(xs, InSecond(keys - {key}, t));
      FilterSnoc(xs, InSecond({key}, t));
    }
  }

  lemma {:induction false} CountNoKeys(xs: seq<Call>, t: real)
    ensures Count(xs, InSecond({}, t)) == 0
  {
    if xs != [] {
      CountNoKeys(xs[..|xs| - 1], t);
      FilterSnoc(xs, InSecond({}, t));
    }
  }

  lemma ProductStep(m: nat, n: nat)
    requires m > 0
    ensures m * n == (m - 1) * n + n
  {
  }

  lemma NoProduct(keys: set<Id>, n: nat)
    requires keys == {}
    ensures |keys| * n == 0
  {
  }

  /** The rate of some keys together, from the rate of each. */
  lemma {:induction false} CountOfKeys(calls: seq<Call>, limit: real, keys: set<Id>, t: real, n: nat)
    ensures (forall k :: k in keys ==> Count(Accepted(calls, limit, k), Within(t)) <= n)
            ==> Count(AllAccepted(calls, limit), InSecond(keys, t)) <= |keys| * n
    ensures (forall k :: k in keys ==> Count(Accepted(calls, limit, k), Within(t)) == n)
            ==> Count(AllAccepted(calls, limit), InSecond(keys, t)) == |keys| * n
    decreases |keys|
  {
    hide *;
    var all := AllAccepted(calls, limit);
    if keys == {} {
      CountNoKeys(all, t);
      NoProduct(keys, n);
    } else {
      var key :| key in keys;
      CountOfKeys(calls, limit, keys - {key}, t, n);
      CountSplits(all, keys, key, t);
      CountOfKey(calls, limit, key, t);
      ProductStep(|keys|, n);
    }
  }

  lemma {:induction false} AcceptedKeys(calls: seq<Call>, limit: real)
    ensures forall c :: c in AllAccepted(calls, limit) ==> c.key in Keys(calls)
  {
    if calls != [] {
      hide Allowed, Accepted;
      var front, last := calls[..|calls| - 1], calls[|calls| - 1];
      assert forall c :: c in calls <==> c in front || c == last;
      AcceptedKeys(front, limit);
    }
  }

  function WithinSecond(t: real): Call -> bool {
    (c: Call) => t <= c.now < t + 1.0
  }

  lemma {:induction false} CountAnyKey(xs: seq<Call>, keys: set<Id>, t: real)
    requires forall c :: c in xs ==> c.key in keys
    ensures Count(xs, WithinSecond(t)) == Count(xs, InSecond(keys, t))
  {
    if xs != [] {
      var front, last := xs[..|xs| - 1], xs[|xs| - 1];
      assert last in xs && forall c :: c in front ==> c in xs;
      CountAnyKey(front, keys, t);
      FilterSnoc(xs, WithinSecond(t));
      FilterSnoc(xs, InSecond(keys, t));
    }
  }

  /** Over all keys together, no half-open second holds more accepted calls than the number of
      distinct keys times the limit rounded up. */
  lemma TotalLimit(calls: seq<Call>, limit: real, t: real)
    requires Monotone(calls)
    ensures Count(AllAccepted(calls, limit), WithinSecond(t)) <= |Keys(calls)| * Ceiling(limit)
  {
    hide Count, AllAccepted;
    forall k | k in Keys(calls) ensures Count(Accepted(calls, limit, k), Within(t)) <= Ceiling(limit) {
      WithinLimit(calls, limit, k, t);
    }
    CountOfKeys(calls, limit, Keys(calls), t, Ceiling(limit));
    AcceptedKeys(calls, limit);
    CountAnyKey(AllAccepted(calls, limit), Keys(calls), t);
  }

  lemma WithinLimit(calls: seq<Call>, limit: real, key: Id, t: real)
    requires Monotone(calls)
    ensures Count(Accepted(calls, limit, key), Within(t)) <= Ceiling(limit)
  {
    SlidingLimit(calls, limit, key, t);
  }

  /** `n` calls at one instant for each of the keys below `m`. */
  function Bursts(m: nat, now: real, n: nat): seq<Call> {
    if m == 0 then [] else Bursts(m - 1, now, n) + Burst(m - 1, now, n)
  }

  lemma {:induction false} BurstCalls(key: Id, now: real, n: nat)
    ensures |Burst(key, now, n)| == n && forall c :: c in Burst(key, now, n) ==> c == Call(key, now)
  {
    if n > 0 {
      BurstCalls(key, now, n - 1);
    }
  }

  lemma BurstsStep(m: nat, now: real, n: nat)
    requires m > 0
    ensures Bursts(m, now, n) == Bursts(m - 1, now, n) + Burst(m - 1, now, n)
  {
  }

  lemma {:induction false} BurstsCalls(m: nat, now: real, n: nat)
    ensures forall c :: c in Bursts(m, now, n) ==> c.key < m && c.now == now
  {
    if m > 0 {
      BurstsStep(m, now, n);
      hide Burst, Bursts;
      BurstsCalls(m - 1, now, n);
      BurstCalls(m - 1, now, n);
      var front, last := Bursts(m - 1, now, n), Burst(m - 1, now, n);
      forall c | c in Bursts(m, now, n) ensures c.key < m && c.now == now {
        InConcat(front, last, c);
      }
    }
  }

  lemma {:induction false} AcceptedAfterOthers(xs: seq<Call>, ys: seq<Call>, limit: real, key: Id)
    requires forall c :: c in xs ==> c.key != key
    ensures Accepted(xs + ys, limit, key) == Accepted(ys, limit, key)
  {
    hide Allowed;
    if ys == [] {
      assert xs + ys == xs;
      OtherKeysAccept(xs, limit, key);
    } else {
      var front := ys[..|ys| - 1];
      assert (xs + ys)[..|xs + ys| - 1] == xs + front;
      AcceptedAfterOthers(xs, front, limit, key);
    }
  }

  lemma {:induction false} AcceptedBeforeOthers(xs: seq<Call>, ys: seq<Call>, limit: real, key: Id)
    requires forall c :: c in ys ==> c.key != key
    ensures Accepted(xs + ys, limit, key) == Accepted(xs, limit, key)
  {
    hide Allowed;
    if ys == [] {
      assert xs + ys == xs;
    } else {
      var front := ys[..|ys| - 1];
      assert (xs + ys)[..|xs + ys| - 1] == xs + front;
      assert forall c :: c in front ==> c in ys;
      assert ys[|ys| - 1] in ys;
      AcceptedBeforeOthers(xs, front, limit, key);
    }
  }

  lemma {:induction false} BurstsAccepted(m: nat, now: real, limit: real, key: Id)
    requires key < m
    ensures Count(Accepted(Bursts(m, now, Ceiling(limit)), limit, key), Within(now)) == Ceiling(limit)
  {
    hide Allowed, Accepted, Ceiling, Burst;
    var n := Ceiling(limit);
    var before, burst := Bursts(m - 1, now, n), Burst(m - 1, now, n);
    BurstsCalls(m - 1, now, n);
    BurstCalls(m - 1, now, n);
    assert Bursts(m, now, n) == before + burst;
    hide Bursts;
    if key == m - 1 {
      AcceptedAfterOthers(before, burst, limit, key);
      BurstAccepted(key, now, n, limit);
      FilterAll(Accepted(burst, limit, key), Within(now));
    } else {
      AcceptedBeforeOthers(before, burst, limit, key);
      BurstsAccepted(m - 1, now, limit, key);
    }
  }

  lemma KeysConcat(xs: seq<Call>, ys: seq<Call>)
    ensures Keys(xs + ys) == Keys(xs) + Keys(ys)
  {
  }

  lemma KeysOfBurst(key: Id, now: real, n: nat)
    requires n > 0
    ensures Keys(Burst(key, now, n)) == {key}
  {
    BurstCalls(key, now, n);
    assert Burst(key, now, n)[0] in Burst(key, now, n);
  }

  lemma KeysStep(m: nat, now: real, n: nat)
    requires n > 0
    ensures Keys(Bursts(m + 1, now, n)) == Keys(Bursts(m, now, n)) + {m}
  {
    hide Keys;
    KeysConcat(Bursts(m, now, n), Burst(m, now, n));
    KeysOfBurst(m, now, n);
  }

  lemma NoBursts(now: real, n: nat)
    ensures Keys(Bursts(0, now, n)) == {}
  {
  }

  lemma SetGrows(s: set<Id>, x: Id)
    requires x !in s
    ensures |s + {x}| == |s| + 1
  {
  }

  lemma {:induction false} KeysOfBursts(m: nat, now: real, n: nat)
    requires n > 0
    ensures |Keys(Bursts(m, now, n))| == m
  {
    hide *;
    if m == 0 {
      NoBursts(now, n);
    } else {
      KeysOfBursts(m - 1, now, n);
      KeysStep(m - 1, now, n);
      KeysSmall(m - 1, now, n);
      SetGrows(Keys(Bursts(m - 1, now, n)), m - 1);
    }
  }

  lemma KeysSmall(m: nat, now: real, n: nat)
    ensures m !in Keys(Bursts(m, now, n))
  {
    BurstsCalls(m, now, n);
  }

  /** That bound is reached too: with enough calls at one instant for each of `m` keys. */
  lemma TotalReached(m: nat, now: real, limit: real)
    requires limit > 0.0
    ensures var calls := Bursts(m, now, Ceiling(limit));
            && Monotone(calls) && |Keys(calls)| == m
            && Count(AllAccepted(calls, limit), WithinSecond(now)) == m * Ceiling(limit)
  {
    hide Count, Bursts, AllAccepted;
    var n := Ceiling(limit);
    var calls := Bursts(m, now, n);
    BurstsCalls(m, now, n);
    forall k | k in Keys(calls) ensures Count(Accepted(calls, limit, k), Within(now)) == n {
      BurstsAccepted(m, now, limit, k);
    }
    CountOfKeys(calls, limit, Keys(calls), now, n);
    AcceptedKeys(calls, limit);
    CountAnyKey(AllAccepted(calls, limit), Keys(calls), now);
    KeysOfBursts(m, now, n);
  }
}
