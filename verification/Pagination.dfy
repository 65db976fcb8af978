/** Keyset pagination over the append-only event table (polytrader/db/repository.py). */
module Pagination {
  import opened Prelude

  datatype EventType = SignalType | OrderCreatedType | ClosedTradeType | OtherType

  /** One row; the strategy columns stand for the JSON paths the readers filter on. */
  datatype Record = Record(
    id: nat,
    ts: real,
    eventType: EventType,
    modelId: Id,
    intentStrategyId: Id,
    strategyId: Id,
    executionMode: Id)

  datatype Query =
    | Signals(strategy: Id)
    | Orders(strategy: Id)
    | ClosedTrades(strategy: Id, from: Option<real>, to: Option<real>, mode: Option<Id>)

  predicate Matches(q: Query, r: Record) {
    match q
    case Signals(strategy) => r.eventType == SignalType && r.modelId == strategy
    case Orders(strategy) => r.eventType == OrderCreatedType && r.intentStrategyId == strategy
    case ClosedTrades(strategy, from, to, mode) =>
      && r.eventType == ClosedTradeType && r.strategyId == strategy
      && (from.Some? ==> r.ts >= from.value)
      && (to.Some? ==> r.ts <= to.value)
      && (mode.Some? ==> r.executionMode == mode.value)
  }

  /** The decoded cursor: timestamp and id of the last record returned. */
  datatype Cursor = Cursor(ts: real, id: nat)

  /** Newest first; ids break ties. */
  predicate Above(r: Record, s: Record) {
    r.ts > s.ts || (r.ts == s.ts && r.id > s.id)
  }

  predicate BelowCursor(r: Record, cursor: Option<Cursor>) {
    cursor.None? || r.ts < cursor.value.ts || (r.ts == cursor.value.ts && r.id < cursor.value.id)
  }

  function CursorAt(r: Record): Cursor {
    Cursor(r.ts, r.id)
  }

  // ---- The table ---------------------------------------------------------------------

  ghost predicate UniqueIds(table: set<Record>) {
    forall r, s :: r in table && s in table && r.id == s.id ==> r == s
  }

  /** INSERT ... ON CONFLICT DO NOTHING. */
  function Inserted(table: set<Record>, r: Record): set<Record> {
    if exists s :: s in table && s.id == r.id then table else table + {r}
  }

  lemma InsertKeepsUnique(table: set<Record>, r: Record)
    requires UniqueIds(table)
    ensures UniqueIds(Inserted(table, r)) && table <= Inserted(table, r)
    ensures Inserted(Inserted(table, r), r) == Inserted(table, r)
  {
    if !exists s :: s in table && s.id == r.id {
      assert r in Inserted(table, r);
    }
  }

  ghost function Candidates(table: set<Record>, q: Query, cursor: Option<Cursor>): set<Record> {
    set r <- table | Matches(q, r) && BelowCursor(r, cursor)
  }

  ghost predicate Descending(rows: seq<Record>) {
    forall i, j :: 0 <= i < j < |rows| ==> Above(rows[i], rows[j])
  }

  /** The answer to ORDER BY ts_mono DESC, event_id DESC LIMIT n over the candidates. */
  ghost predicate TopRows(rows: seq<Record>, candidates: set<Record>, n: nat) {
    && Descending(rows)
    && (forall r :: r in rows ==> r in candidates)
    && |rows| == (if |candidates| < n then |candidates| else n)
    && (forall r, s :: r in rows && s in candidates && s !in rows ==> Above(r, s))
  }

  function Cap(limit: int): nat {
    var atLeastOne := if limit < 1 then 1 else limit;
    if atLeastOne < 500 then atLeastOne else 500
  }

  class EventRepository {
    var table: set<Record>

    constructor ()
      ensures table == {} && UniqueIds(table)
    {
      table := {};
    }

    method CreateEvent(r: Record)
      modifies this
      ensures table == Inserted(old(table), r)
    {
      if !exists s :: s in table && s.id == r.id {
        table := table + {r};
      }
    }

    /** The database: selects the greatest remaining candidate until the limit is reached. */
    method Select(q: Query, cursor: Option<Cursor>, n: nat) returns (rows: seq<Record>)
      requires UniqueIds(table)
      ensures TopRows(rows, Candidates(table, q, cursor), n)
    {
      var candidates := set r <- table | Matches(q, r) && BelowCursor(r, cursor);
      var rest := candidates;
      rows := [];
      while rest != {} && |rows| < n
        invariant rest <= candidates && |rows| <= n
        invariant forall r :: r in rows <==> r in candidates && r !in rest
        invariant Descending(rows)
        invariant forall r, s :: r in rows && s in rest ==> Above(r, s)
        invariant |rows| + |rest| == |candidates|
        decreases rest
      {
        var top := Greatest(rest);
        rows := rows + [top];
        rest := rest - {top};
      }
    }

    method Greatest(s: set<Record>) returns (top: Record)
      requires s != {} && s <= table && UniqueIds(table)
      ensures top in s && forall r :: r in s && r != top ==> Above(top, r)
    {
      top :| top in s;
      var rest := s - {top};
      while rest != {}
        invariant rest <= s && top in s && top !in rest
        invariant forall r :: r in s && r !in rest && r != top ==> Above(top, r)
        decreases rest
      {
        var r :| r in rest;
        rest := rest - {r};
        if Above(r, top) {
          top := r;
        }
      }
    }

    /** One page and, if more rows follow, the cursor of its last row. */
    method ReadPage(q: Query, limit: int, cursor: Option<Cursor>) returns (rows: seq<Record>, next: Option<Cursor>)
      requires UniqueIds(table)
      ensures PageOf(table, q, limit, cursor, rows, next)
    {
      var cap := Cap(limit);
      rows := Select(q, cursor, cap + 1);
      next := None;
      ghost var all := rows;
      if |rows| > cap {
        rows := rows[..cap];
        next := Some(CursorAt(rows[cap - 1]));
      }
      PageFromTop(table, q, limit, cursor, all, rows, next);
    }
  }

  /** What a caller may rely on: the page holds the greatest candidates in descending order; it
      names a cursor exactly when candidates are left, and those are the ones below the cursor. */
  ghost predicate PageOf(table: set<Record>, q: Query, limit: int, cursor: Option<Cursor>, rows: seq<Record>,
                         next: Option<Cursor>) {
    && Descending(rows)
    && |rows| <= Cap(limit)
    && (forall r :: r in rows ==> r in Candidates(table, q, cursor))
    && (next.None? ==> forall r :: r in Candidates(table, q, cursor) ==> r in rows)
    && (next.Some? ==>
          && |rows| == Cap(limit)
          && next == Some(CursorAt(rows[|rows| - 1]))
          && (forall r :: r in Candidates(table, q, cursor) ==> (r in rows || BelowCursor(r, next)))
          && (exists r :: r in Candidates(table, q, next)))
  }

  lemma AboveTrans(a: Record, b: Record, c: Record)
    requires Above(a, b) && Above(b, c)
    ensures Above(a, c)
  {
  }

  lemma PageFromTop(table: set<Record>, q: Query, limit: int, cursor: Option<Cursor>, all: seq<Record>,
                    rows: seq<Record>, next: Option<Cursor>)
    requires TopRows(all, Candidates(table, q, cursor), Cap(limit) + 1)
    requires rows == if |all| > Cap(limit) then all[..Cap(limit)] else all
    requires next == if |all| > Cap(limit) then Some(CursorAt(rows[|rows| - 1])) else None
    ensures PageOf(table, q, limit, cursor, rows, next)
  {
    var candidates := Candidates(table, q, cursor);
    if next.None? {
      AllListed(all, candidates);
    } else {
      var extra := all[|rows|];
      assert extra in all && extra in candidates;
      assert all[|rows| - 1] == rows[|rows| - 1] && Above(all[|rows| - 1], extra);
      forall r | r in candidates ensures r in rows || BelowCursor(r, next) {
        if r in all {
          var i :| 0 <= i < |all| && all[i] == r;
          assert i < |rows| ==> rows[i] == r;
        } else {
          assert all[|rows| - 1] in all;
        }
      }
      assert extra in Candidates(table, q, next);
    }
  }

  lemma AllListed(rows: seq<Record>, candidates: set<Record>)
    requires Descending(rows) && (forall r :: r in rows ==> r in candidates) && |rows| >= |candidates|
    ensures forall r :: r in candidates ==> r in rows
  {
    var listed := set r <- rows;
    DistinctCount(rows);
    SubsetSameSize(listed, candidates);
  }

  lemma {:induction false} DistinctCount(rows: seq<Record>)
    requires Descending(rows)
    ensures |(set r <- rows)| == |rows|
  {
    if rows != [] {
      var front, last := rows[..|rows| - 1], rows[|rows| - 1];
      DistinctCount(front);
      assert last !in front;
      assert (set r <- rows) == (set r <- front) + {last};
    }
  }

  lemma SubsetSameSize(a: set<Record>, b: set<Record>)
    requires a <= b && |a| >= |b|
    ensures a == b
  {
    assert b == a + (b - a);
    assert |b| == |a| + |b - a|;
  }

  // ---- Following the cursor ----------------------------------------------------------

  /** One fetch: the table at that moment, the limit asked for, and what came back. */
  datatype Fetch = Fetch(table: set<Record>, limit: int, rows: seq<Record>, next: Option<Cursor>)

  /** A client following next_cursor, starting from `cursor`, while rows may be added between
      its fetches. */
  ghost predicate Follows(fs: seq<Fetch>, q: Query, cursor: Option<Cursor>) {
    fs != [] ==>
      && PageOf(fs[0].table, q, fs[0].limit, cursor, fs[0].rows, fs[0].next)
      && (|fs| > 1 ==>
            && fs[0].next.Some?
            && fs[0].table <= fs[1].table
            && Follows(fs[1..], q, fs[0].next))
  }

  function AllRows(fs: seq<Fetch>): seq<Record> {
    if fs == [] then [] else fs[0].rows + AllRows(fs[1..])
  }

  ghost predicate Complete(fs: seq<Fetch>) {
    fs != [] && fs[|fs| - 1].next.None?
  }

  /** Every row comes from some fetch's table, matches, and lies below the starting cursor. */
  lemma {:induction false} RowsBelow(fs: seq<Fetch>, q: Query, cursor: Option<Cursor>, r: Record)
    requires Follows(fs, q, cursor) && r in AllRows(fs)
    ensures Matches(q, r) && BelowCursor(r, cursor)
    ensures exists i :: 0 <= i < |fs| && r in fs[i].table
  {
    if r in fs[0].rows {
      assert r in fs[0].table;
    } else {
      RowsBelow(fs[1..], q, fs[0].next, r);
      var i :| 0 <= i < |fs[1..]| && r in fs[1..][i].table;
      assert r in fs[i + 1].table;
      var last := fs[0].rows[|fs[0].rows| - 1];
      assert last in fs[0].rows && BelowCursor(last, cursor);
    }
  }

  lemma RowsAboveCursor(rows: seq<Record>, a: Record, b: Record)
    requires Descending(rows) && a in rows && BelowCursor(b, Some(CursorAt(rows[|rows| - 1])))
    ensures Above(a, b)
  {
    var i :| 0 <= i < |rows| && rows[i] == a;
    if i < |rows| - 1 {
      AboveTrans(a, rows[|rows| - 1], b);
    }
  }

  lemma DescendingConcat(xs: seq<Record>, ys: seq<Record>)
    requires Descending(xs) && Descending(ys) && forall x, y :: x in xs && y in ys ==> Above(x, y)
    ensures Descending(xs + ys)
  {
  }

  /** Across all pages, with rows inserted between fetches, rows come in strictly descending
      order, so none is returned twice. */
  lemma {:induction false} PagesDescend(fs: seq<Fetch>, q: Query, cursor: Option<Cursor>)
    requires Follows(fs, q, cursor)
    ensures Descending(AllRows(fs))
  {
    if |fs| > 1 {
      var rest := AllRows(fs[1..]);
      PagesDescend(fs[1..], q, fs[0].next);
      forall x, y | x in fs[0].rows && y in rest ensures Above(x, y) {
        RowsBelow(fs[1..], q, fs[0].next, y);
        RowsAboveCursor(fs[0].rows, x, y);
      }
      DescendingConcat(fs[0].rows, rest);
    } else if |fs| == 1 {
      assert fs[1..] == [];
      assert AllRows(fs) == fs[0].rows;
    }
  }

  /** A client that reaches the last page has seen every record that was there at the start. */
  lemma {:induction false} PagesCover(fs: seq<Fetch>, q: Query, cursor: Option<Cursor>, r: Record)
    requires Follows(fs, q, cursor) && Complete(fs)
    requires r in Candidates(fs[0].table, q, cursor)
    ensures r in AllRows(fs)
  {
    if |fs| > 1 && r !in fs[0].rows {
      assert r in Candidates(fs[1].table, q, fs[0].next);
      PagesCover(fs[1..], q, fs[0].next, r);
    }
  }

  /** Exactly once: in a complete walk each record present at the start and matching the query is
      returned at exactly one position, for any limits and any insertions in between. */
  lemma ExactlyOnce(fs: seq<Fetch>, q: Query, r: Record)
    requires Follows(fs, q, None) && Complete(fs)
    requires r in fs[0].table && Matches(q, r)
    ensures exists i :: 0 <= i < |AllRows(fs)| && AllRows(fs)[i] == r &&
                        forall j :: 0 <= j < |AllRows(fs)| && AllRows(fs)[j] == r ==> j == i
  {
    PagesDescend(fs, q, None);
    assert r in Candidates(fs[0].table, q, None);
    PagesCover(fs, q, None, r);
    var i :| 0 <= i < |AllRows(fs)| && AllRows(fs)[i] == r;
    forall j | 0 <= j < |AllRows(fs)| && AllRows(fs)[j] == r ensures j == i {
      assert !Above(r, r);
    }
  }

  ghost predicate FixedTable(fs: seq<Fetch>, table: set<Record>) {
    forall i :: 0 <= i < |fs| ==> fs[i].table == table
  }

  lemma CandidatesShrink(table: set<Record>, q: Query, limit: int, cursor: Option<Cursor>, rows: seq<Record>,
                         next: Option<Cursor>)
    requires PageOf(table, q, limit, cursor, rows, next) && next.Some?
    ensures |Candidates(table, q, next)| + Cap(limit) <= |Candidates(table, q, cursor)|
  {
    var listed := set r <- rows;
    DistinctCount(rows);
    var left := Candidates(table, q, next);
    var last := rows[|rows| - 1];
    assert last in rows;
    forall r | r in left ensures r in Candidates(table, q, cursor) && r !in listed {
      if r in listed {
        RowsAboveCursor(rows, r, r);
      }
    }
    assert listed !! left && listed + left <= Candidates(table, q, cursor);
    SetSizeAtMost(listed + left, Candidates(table, q, cursor));
    assert |listed + left| == |listed| + |left|;
  }

  lemma SetSizeAtMost(a: set<Record>, b: set<Record>)
    requires a <= b
    ensures |a| <= |b|
  {
    assert |b| == |a| + |b - a|;
  }

  /** On a fixed table the walk ends: each further page uses up at least one matching record, so
      there are no more pages than matching records, plus one. */
  lemma {:induction false} WalkEnds(fs: seq<Fetch>, q: Query, cursor: Option<Cursor>, table: set<Record>)
    requires Follows(fs, q, cursor) && FixedTable(fs, table) && fs != []
    ensures |fs| - 1 <= |Candidates(table, q, cursor)|
    ensures |fs| - 1 == |Candidates(table, q, cursor)| ==> Complete(fs)
  {
    var f := fs[0];
    if f.next.Some? {
      CandidatesShrink(table, q, f.limit, cursor, f.rows, f.next);
      if |fs| > 1 {
        WalkEnds(fs[1..], q, f.next, table);
      }
    }
  }

  /** On a fixed table a complete walk returns exactly the matching records. */
  lemma WalkIsExact(fs: seq<Fetch>, q: Query, table: set<Record>)
    requires Follows(fs, q, None) && FixedTable(fs, table) && Complete(fs)
    ensures Descending(AllRows(fs))
    ensures (set r <- AllRows(fs)) == Candidates(table, q, None)
  {
    PagesDescend(fs, q, None);
    forall r | r in AllRows(fs) ensures r in Candidates(table, q, None) {
      RowsBelow(fs, q, None, r);
    }
    forall r | r in Candidates(table, q, None) ensures r in AllRows(fs) {
      PagesCover(fs, q, None, r);
    }
  }

  // ---- In terms of the columns -----------------------------------------------------------

  /** A page has at most as many rows as asked for, at least one being granted and at most 500; they
      are of the type and strategy asked for and within the period and mode; newest come first,
      greater ids first at one timestamp; and a next cursor names the last of them. */
  lemma PageReads(table: set<Record>, q: Query, limit: int, cursor: Option<Cursor>, rows: seq<Record>,
                  next: Option<Cursor>)
    requires PageOf(table, q, limit, cursor, rows, next)
    ensures |rows| <= (if limit < 1 then 1 else if limit > 500 then 500 else limit)
    ensures next.Some? ==> |rows| == (if limit < 1 then 1 else if limit > 500 then 500 else limit)
    ensures next.Some? ==> next.value.ts == rows[|rows| - 1].ts && next.value.id == rows[|rows| - 1].id
    ensures forall r :: r in rows ==> r in table && Wanted(q, r)
    ensures forall r :: r in rows && cursor.Some? ==>
                          r.ts < cursor.value.ts || (r.ts == cursor.value.ts && r.id < cursor.value.id)
    ensures forall i, j :: 0 <= i < j < |rows| ==>
                             rows[i].ts > rows[j].ts || (rows[i].ts == rows[j].ts && rows[i].id > rows[j].id)
  {
    forall i, j | 0 <= i < j < |rows|
      ensures rows[i].ts > rows[j].ts || (rows[i].ts == rows[j].ts && rows[i].id > rows[j].id)
    {
      assert Above(rows[i], rows[j]);
    }
    forall r | r in rows ensures Wanted(q, r) {
      WantedMatches(q, r);
    }
  }

  /** What a reader asks for, column by column. */
  ghost predicate Wanted(q: Query, r: Record) {
    && (q.Signals? ==> r.eventType == SignalType && r.modelId == q.strategy)
    && (q.Orders? ==> r.eventType == OrderCreatedType && r.intentStrategyId == q.strategy)
    && (q.ClosedTrades? ==>
          && r.eventType == ClosedTradeType && r.strategyId == q.strategy
          && (q.from == None || q.from.value <= r.ts) && (q.to == None || r.ts <= q.to.value)
          && (q.mode == None || q.mode.value == r.executionMode))
  }

  lemma WantedMatches(q: Query, r: Record)
    ensures Matches(q, r) <==> Wanted(q, r)
  {
  }

  /** On a fixed table a complete walk returns exactly the rows of the table that were asked for. */
  lemma WalkReturnsWanted(fs: seq<Fetch>, q: Query, table: set<Record>, r: Record)
    requires Follows(fs, q, None) && FixedTable(fs, table) && Complete(fs)
    ensures r in AllRows(fs) <==> r in table && Wanted(q, r)
  {
    WalkIsExact(fs, q, table);
    WantedMatches(q, r);
    assert r in (set x <- AllRows(fs)) <==> r in Candidates(table, q, None);
  }
}
