/** Bounded tick histories keyed by slug and by pattern (polytrader/store.py). */
module MarketViews {
  import opened Prelude

  datatype Outcome = Up | Down

  /** A market data event; `payload` stands for its prices and stamps. */
  datatype Tick = Tick(slug: string, outcome: Outcome, payload: nat)

  datatype Key = Key(name: string, outcome: Outcome)

  // ---- Slugs and patterns ------------------------------------------------------------

  predicate IsDigit(c: char) {
    '0' <= c <= '9'
  }

  function TrailingDigits(s: string): (n: nat)
    ensures n <= |s| && forall i :: |s| - n <= i < |s| ==> IsDigit(s[i])
    ensures n < |s| ==> !IsDigit(s[|s| - n - 1])
  {
    if s != "" && IsDigit(s[|s| - 1]) then 1 + TrailingDigits(s[..|s| - 1]) else 0
  }

  /** The regular expression ^(.+)-\d+$ : its end anchor also matches before a final newline,
      and its dot does not match a newline. */
  function SlugToPattern(slug: string): string {
    var body := if slug != "" && slug[|slug| - 1] == '\n' then slug[..|slug| - 1] else slug;
    var n := TrailingDigits(body);
    var k := |body| - n - 1;
    if n > 0 && k > 0 && body[k] == '-' && '\n' !in body[..k] then body[..k] else slug
  }

  /** `slug` is `pattern`, a dash and a number, possibly followed by one newline. */
  ghost predicate Stamped(slug: string, pattern: string, number: string) {
    && pattern != "" && number != ""
    && '\n' !in pattern && (forall c :: c in number ==> IsDigit(c))
    && (slug == pattern + "-" + number || slug == pattern + "-" + number + "\n")
  }

  lemma DigitsCounted(s: string, n: nat)
    requires n < |s| && !IsDigit(s[|s| - n - 1]) && forall i :: |s| - n <= i < |s| ==> IsDigit(s[i])
    ensures TrailingDigits(s) == n
  {
    var m := TrailingDigits(s);
    assert m < |s| ==> !IsDigit(s[|s| - m - 1]);
  }

  /** A stamped slug maps to its pattern, so all windows of a market share one key; */
  lemma StampedMapsToPattern(slug: string, pattern: string, number: string)
    requires Stamped(slug, pattern, number)
    ensures SlugToPattern(slug) == pattern
  {
    hide TrailingDigits;
    var body := pattern + "-" + number;
    assert number[|number| - 1] in number;
    assert body[|body| - 1] == number[|number| - 1];
    assert slug == body || slug[..|slug| - 1] == body;
    forall i | |body| - |number| <= i < |body| ensures IsDigit(body[i]) {
      assert body[i] == number[i - (|body| - |number|)];
    }
    DigitsCounted(body, |number|);
    assert body[..|pattern|] == pattern;
  }

  /** and a slug that maps to anything but itself is a stamped one. */
  lemma OnlyStampedMapAway(slug: string)
    ensures SlugToPattern(slug) != slug ==> exists number :: Stamped(slug, SlugToPattern(slug), number)
  {
    hide TrailingDigits;
    if SlugToPattern(slug) != slug {
      var body := if slug != "" && slug[|slug| - 1] == '\n' then slug[..|slug| - 1] else slug;
      var k := |body| - TrailingDigits(body) - 1;
      assert body == body[..k] + "-" + body[k + 1..];
      assert Stamped(slug, SlugToPattern(slug), body[k + 1..]);
    }
  }

  // ---- Bounded histories -------------------------------------------------------------

  /** The newest `n` elements. */
  function Newest<T>(n: nat, xs: seq<T>): (r: seq<T>)
    ensures |r| == if |xs| <= n then |xs| else n
  {
    if |xs| <= n then xs else xs[|xs| - n..]
  }

  ghost predicate Suffix<T>(xs: seq<T>, ys: seq<T>) {
    |xs| <= |ys| && xs == ys[|ys| - |xs|..]
  }

  function SlugKey(tick: Tick): Key {
    Key(tick.slug, tick.outcome)
  }

  function PatternKey(tick: Tick): Key {
    Key(SlugToPattern(tick.slug), tick.outcome)
  }

  function Keyed(keyOf: Tick -> Key, key: Key): Tick -> bool {
    tick => keyOf(tick) == key
  }

  function Get(events: map<Key, seq<Tick>>, key: Key): seq<Tick> {
    if key in events then events[key] else []
  }

  /** deque(maxlen=n).append */
  function Push(n: nat, ticks: seq<Tick>, tick: Tick): seq<Tick> {
    if |ticks| < n then ticks + [tick]
    else if n == 0 then []
    else ticks[1..] + [tick]
  }

  lemma PushNewest(n: nat, xs: seq<Tick>, x: Tick)
    ensures Push(n, Newest(n, xs), x) == Newest(n, xs + [x])
  {
    if |xs| >= n > 0 {
      var ticks := Newest(n, xs);
      assert ticks[1..] + [x] == Newest(n, xs + [x]);
    }
  }

  /** What a reader of one key relies on: its deque holds the newest `window` ticks of that key,
      and the key is listed once a tick of it has come in. */
  ghost predicate BoundedAt(events: map<Key, seq<Tick>>, stream: seq<Tick>, keyOf: Tick -> Key, window: nat, key: Key) {
    var all := Filter(stream, Keyed(keyOf, key));
    && Get(events, key) == Newest(window, all)
    && (key in events <==> all != [])
  }

  ghost predicate Bounded(events: map<Key, seq<Tick>>, stream: seq<Tick>, keyOf: Tick -> Key, window: nat) {
    forall key :: BoundedAt(events, stream, keyOf, window, key)
  }

  lemma FilterAdd(stream: seq<Tick>, tick: Tick, keyOf: Tick -> Key, key: Key)
    ensures Filter(stream + [tick], Keyed(keyOf, key))
         == Filter(stream, Keyed(keyOf, key)) + if keyOf(tick) == key then [tick] else []
  {
    FilterSnoc(stream + [tick], Keyed(keyOf, key));
    assert (stream + [tick])[..|stream|] == stream;
  }

  function Added(events: map<Key, seq<Tick>>, window: nat, key: Key, tick: Tick): map<Key, seq<Tick>> {
    events[key := Push(window, Get(events, key), tick)]
  }

  lemma AddAt(events: map<Key, seq<Tick>>, stream: seq<Tick>, keyOf: Tick -> Key, window: nat, tick: Tick, key: Key)
    requires BoundedAt(events, stream, keyOf, window, key)
    ensures BoundedAt(Added(events, window, keyOf(tick), tick), stream + [tick], keyOf, window, key)
  {
    FilterAdd(stream, tick, keyOf, key);
    if key == keyOf(tick) {
      PushNewest(window, Filter(stream, Keyed(keyOf, key)), tick);
    }
  }

  lemma AddKeepsBounded(events: map<Key, seq<Tick>>, stream: seq<Tick>, keyOf: Tick -> Key, window: nat, tick: Tick)
    requires Bounded(events, stream, keyOf, window)
    ensures Bounded(Added(events, window, keyOf(tick), tick), stream + [tick], keyOf, window)
  {
    forall key ensures BoundedAt(Added(events, window, keyOf(tick), tick), stream + [tick], keyOf, window, key) {
      assert BoundedAt(events, stream, keyOf, window, key);
      AddAt(events, stream, keyOf, window, tick, key);
    }
  }

  lemma ListedKeys(events: map<Key, seq<Tick>>, stream: seq<Tick>, keyOf: Tick -> Key, window: nat, key: Key)
    requires Bounded(events, stream, keyOf, window)
    ensures key in events <==> exists tick :: tick in stream && keyOf(tick) == key
  {
    assert BoundedAt(events, stream, keyOf, window, key);
    var all := Filter(stream, Keyed(keyOf, key));
    if all != [] {
      FilterMember(stream, Keyed(keyOf, key), all[0]);
    }
    if tick :| tick in stream && keyOf(tick) == key {
      FilterMember(stream, Keyed(keyOf, key), tick);
    }
  }

  /** The newest tick of a key; a store of window 0 keeps none. */
  function NewestTick(window: nat, ticks: seq<Tick>): Option<Tick> {
    if window == 0 || ticks == [] then None else Some(ticks[|ticks| - 1])
  }

  lemma LastKept(window: nat, front: seq<Tick>, last: Tick)
    requires window > 0
    ensures front + [last] + [] == front + [last] && NewestTick(window, front + [last]) == Some(last)
  {
  }

  /** It is the last tick that has the key, if there is one and any is kept. */
  lemma NewestTickIff(window: nat, stream: seq<Tick>, keyOf: Tick -> Key, key: Key, k: nat)
    requires window > 0 && k < |stream| && keyOf(stream[k]) == key
    requires forall j :: k < j < |stream| ==> keyOf(stream[j]) != key
    ensures NewestTick(window, Filter(stream, Keyed(keyOf, key))) == Some(stream[k])
  {
    hide Filter, NewestTick;
    var before, after := stream[..k], stream[k + 1..];
    assert stream == before + [stream[k]] + after;
    forall tick | tick in after ensures !Keyed(keyOf, key)(tick) {
      var j :| 0 <= j < |after| && after[j] == tick;
      assert stream[k + 1 + j] == tick;
    }
    FilterConcat(before + [stream[k]], after, Keyed(keyOf, key));
    FilterAppend(before, stream[k], Keyed(keyOf, key));
    FilterNone(after, Keyed(keyOf, key));
    LastKept(window, Filter(before, Keyed(keyOf, key)), stream[k]);
  }

  class MemoryMarketDataStore {
    const window: nat
    var events: map<Key, seq<Tick>>
    ghost var stream: seq<Tick>

    ghost predicate Valid()
      reads this
    {
      Bounded(events, stream, SlugKey, window)
    }

    constructor (window: nat)
      ensures Valid() && this.window == window && stream == []
    {
      this.window := window;
      events, stream := map[], [];
    }

    method Add(tick: Tick)
      requires Valid()
      modifies this
      ensures Valid() && stream == old(stream) + [tick]
    {
      AddKeepsBounded(events, stream, SlugKey, window, tick);
      var key := SlugKey(tick);
      events := events[key := Push(window, Get(events, key), tick)];
      stream := stream + [tick];
    }

    method History(slug: string, outcome: Outcome) returns (ticks: seq<Tick>)
      requires Valid()
      ensures ticks == Newest(window, Filter(stream, Keyed(SlugKey, Key(slug, outcome))))
    {
      assert BoundedAt(events, stream, SlugKey, window, Key(slug, outcome));
      ticks := Get(events, Key(slug, outcome));
    }

    method Latest(slug: string, outcome: Outcome) returns (tick: Option<Tick>)
      requires Valid()
      ensures tick == NewestTick(window, Filter(stream, Keyed(SlugKey, Key(slug, outcome))))
    {
      assert BoundedAt(events, stream, SlugKey, window, Key(slug, outcome));
      var ticks := Get(events, Key(slug, outcome));
      tick := if ticks == [] then None else Some(ticks[|ticks| - 1]);
    }

    method GetAllMarkets() returns (keys: set<Key>)
      requires Valid()
      ensures forall key :: key in keys <==> exists tick :: tick in stream && SlugKey(tick) == key
    {
      keys := events.Keys;
      forall key ensures key in events <==> exists tick :: tick in stream && SlugKey(tick) == key {
        ListedKeys(events, stream, SlugKey, window, key);
      }
    }
  }

  class PatternKeyedMarketDataStore {
    const window: nat
    var events: map<Key, seq<Tick>>
    ghost var stream: seq<Tick>

    ghost predicate Valid()
      reads this
    {
      Bounded(events, stream, PatternKey, window)
    }

    constructor (window: nat)
      ensures Valid() && this.window == window && stream == []
    {
      this.window := window;
      events, stream := map[], [];
    }

    method Add(tick: Tick)
      requires Valid()
      modifies this
      ensures Valid() && stream == old(stream) + [tick]
    {
      AddKeepsBounded(events, stream, PatternKey, window, tick);
      var key := PatternKey(tick);
      events := events[key := Push(window, Get(events, key), tick)];
      stream := stream + [tick];
    }

    method History(slug: string, outcome: Outcome) returns (ticks: seq<Tick>)
      requires Valid()
      ensures ticks == Newest(window, Filter(stream, Keyed(PatternKey, Key(SlugToPattern(slug), outcome))))
    {
      assert BoundedAt(events, stream, PatternKey, window, Key(SlugToPattern(slug), outcome));
      ticks := Get(events, Key(SlugToPattern(slug), outcome));
    }

    method Latest(slug: string, outcome: Outcome) returns (tick: Option<Tick>)
      requires Valid()
      ensures tick == NewestTick(window, Filter(stream, Keyed(PatternKey, Key(SlugToPattern(slug), outcome))))
    {
      assert BoundedAt(events, stream, PatternKey, window, Key(SlugToPattern(slug), outcome));
      var ticks := Get(events, Key(SlugToPattern(slug), outcome));
      tick := if ticks == [] then None else Some(ticks[|ticks| - 1]);
    }

    method GetAllMarkets() returns (keys: set<Key>)
      requires Valid()
      ensures forall key :: key in keys <==> exists tick :: tick in stream && PatternKey(tick) == key
    {
      keys := events.Keys;
      forall key ensures key in events <==> exists tick :: tick in stream && PatternKey(tick) == key {
        ListedKeys(events, stream, PatternKey, window, key);
      }
    }
  }

  class DualViewMarketDataStore {
    const slugStore: MemoryMarketDataStore
    const patternStore: PatternKeyedMarketDataStore

    ghost predicate Valid()
      reads this, slugStore, patternStore
    {
      && slugStore.Valid() && patternStore.Valid()
      && slugStore.window == patternStore.window
      && slugStore.stream == patternStore.stream
    }

    constructor (window: nat)
      ensures Valid() && fresh(slugStore) && fresh(patternStore)
      ensures slugStore.window == window && slugStore.stream == []
    {
      slugStore := new MemoryMarketDataStore(window);
      patternStore := new PatternKeyedMarketDataStore(window);
    }

    /** Both views take in the same stream. */
    method Add(tick: Tick)
      requires Valid()
      modifies slugStore, patternStore
      ensures Valid() && slugStore.stream == old(slugStore.stream) + [tick]
    {
      slugStore.Add(tick);
      patternStore.Add(tick);
    }

    /** Reads the current market only, unless the caller asks for the warm-start view. */
    method HistoryOf(slug: string, outcome: Outcome, usePatternHistory: bool) returns (ticks: seq<Tick>)
      requires Valid()
      ensures var pattern := Key(SlugToPattern(slug), outcome);
              ticks == Newest(slugStore.window,
                              if usePatternHistory then Filter(slugStore.stream, Keyed(PatternKey, pattern))
                              else Filter(slugStore.stream, Keyed(SlugKey, Key(slug, outcome))))
    {
      if usePatternHistory {
        ticks := patternStore.History(slug, outcome);
      } else {
        ticks := slugStore.History(slug, outcome);
      }
    }
  }

  // ---- The two views agree -----------------------------------------------------------

  /** Filtering a suffix yields a suffix of the filtered whole. */
  lemma FilterSuffix(xs: seq<Tick>, ys: seq<Tick>, p: Tick -> bool)
    requires Suffix(xs, ys)
    ensures Suffix(Filter(xs, p), Filter(ys, p))
  {
    var front := ys[..|ys| - |xs|];
    assert ys == front + xs;
    FilterConcat(front, xs, p);
  }

  lemma {:induction false} FilterLength(xs: seq<Tick>, p: Tick -> bool)
    ensures |Filter(xs, p)| <= |xs|
  {
    if xs != [] {
      FilterLength(xs[..|xs| - 1], p);
    }
  }

  lemma SlugWithinPattern(stream: seq<Tick>, slug: string, outcome: Outcome)
    ensures Filter(Filter(stream, Keyed(PatternKey, Key(SlugToPattern(slug), outcome))),
                   Keyed(SlugKey, Key(slug, outcome)))
         == Filter(stream, Keyed(SlugKey, Key(slug, outcome)))
  {
    FilterFilter(stream, Keyed(PatternKey, Key(SlugToPattern(slug), outcome)), Keyed(SlugKey, Key(slug, outcome)));
  }

  /** The newest part of a history, filtered, is a suffix of the newest part of the filtered one. */
  lemma NewestFiltered(xs: seq<Tick>, n: nat, p: Tick -> bool)
    ensures Suffix(Filter(Newest(n, xs), p), Newest(n, Filter(xs, p)))
  {
    FilterSuffix(Newest(n, xs), xs, p);
    FilterLength(Newest(n, xs), p);
  }

  /** It is all of it exactly when the dropped elements hold none of the newest `n` that pass. */
  lemma NewestFilteredAll(xs: seq<Tick>, n: nat, p: Tick -> bool)
    ensures var dropped := |xs| - |Newest(n, xs)|;
            Filter(Newest(n, xs), p) == Newest(n, Filter(xs, p))
            <==> Filter(xs[..dropped], p) == [] || |Filter(xs[dropped..], p)| == n
  {
    var dropped := |xs| - |Newest(n, xs)|;
    NewestFiltered(xs, n, p);
    assert xs == xs[..dropped] + xs[dropped..];
    assert Newest(n, xs) == xs[dropped..];
    FilterConcat(xs[..dropped], xs[dropped..], p);
    FilterLength(xs[dropped..], p);
  }

  /** The pattern history restricted to one slug is a suffix of that slug's own history; */
  lemma ViewsAgree(stream: seq<Tick>, window: nat, slug: string, outcome: Outcome)
    ensures var key := Key(slug, outcome);
            var pattern := Key(SlugToPattern(slug), outcome);
            Suffix(Filter(Newest(window, Filter(stream, Keyed(PatternKey, pattern))), Keyed(SlugKey, key)),
                   Newest(window, Filter(stream, Keyed(SlugKey, key))))
  {
    SlugWithinPattern(stream, slug, outcome);
    NewestFiltered(Filter(stream, Keyed(PatternKey, Key(SlugToPattern(slug), outcome))), window,
                   Keyed(SlugKey, Key(slug, outcome)));
  }

  /** and it is the whole of it exactly when the ticks it dropped hold none of the slug's newest
      `window`. */
  lemma ViewsCoincide(stream: seq<Tick>, window: nat, slug: string, outcome: Outcome)
    ensures var key := Key(slug, outcome);
            var shared := Filter(stream, Keyed(PatternKey, Key(SlugToPattern(slug), outcome)));
            var dropped := |shared| - |Newest(window, shared)|;
            Filter(Newest(window, shared), Keyed(SlugKey, key)) == Newest(window, Filter(stream, Keyed(SlugKey, key)))
            <==> Filter(shared[..dropped], Keyed(SlugKey, key)) == []
                 || |Filter(shared[dropped..], Keyed(SlugKey, key))| == window
  {
    SlugWithinPattern(stream, slug, outcome);
    NewestFilteredAll(Filter(stream, Keyed(PatternKey, Key(SlugToPattern(slug), outcome))), window,
                      Keyed(SlugKey, Key(slug, outcome)));
  }
}
