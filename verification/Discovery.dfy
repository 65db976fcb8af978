/** The search for the market to trade now (polytrader/market_discovery/service.py). */
module Discovery {
  import opened Prelude

  /** What asking for a market's state yields: a state, of which only ACTIVE matters, or one of
      the two discovery errors. */
  datatype Probe = Active | Inactive | Retryable | Fatal

  datatype Window = Window(start: int, end: int)

  /** A pattern and the interval that parsing it yields; None when parsing raises. */
  datatype Pattern = Pattern(name: Id, interval: Option<nat>)

  /** One search: the clock, and what the exchange answers. The k-th probe may see another state
      than an earlier probe of the same slug. A slug stands for its start timestamp. */
  datatype World = World(
    now: nat,
    interval: nat,
    state: (nat, int) -> Probe,
    dates: int -> Option<Window>)

  datatype Answer = Found(start: int) | NotFound | ZeroInterval

  const PRIORITY_WINDOWS := 10
  const BACKWARD_WINDOWS := 3
  const FAR_SECONDS := 7200
  const CACHE_TTL := 30.0

  predicate Sane(w: World) {
    w.interval > 0
  }

  function CurrentStart(now: nat, interval: nat): (start: int)
    requires interval > 0
    ensures 0 <= start <= now < start + interval
    ensures start == now - now % interval
  {
    now / interval * interval
  }

  function At(w: World, offset: int): int
    requires Sane(w)
  {
    CurrentStart(w.now, w.interval) + offset * w.interval
  }

  predicate Hit(w: World, k: nat, offset: int)
    requires Sane(w)
  {
    w.state(k, At(w, offset)).Active?
  }

  function Max(a: int, b: int): int {
    if a < b then b else a
  }

  function Min(a: int, b: int): int {
    if a < b then a else b
  }

  // ---- What the forward phase is to choose ---------------------------------------------

  function Calculated(w: World, i: int): Window
    requires Sane(w)
  {
    Window(At(w, i), At(w, i) + w.interval)
  }

  predicate Contains(window: Window, now: int) {
    window.start <= now < window.end
  }

  /** The window a future slug is judged by: the metadata's dates when it has them, unless they
      contain now although the slug's own window is more than two hours away. */
  function Effective(w: World, i: int): Window
    requires Sane(w)
  {
    var given := w.dates(At(w, i));
    if given.None? || (Contains(given.value, w.now) && At(w, i) - w.now > FAR_SECONDS) then Calculated(w, i)
    else given.value
  }

  datatype Phase = Running | Upcoming

  /** The forward probe of offset i is the (4 + i)-th, after one previous, one current and three
      backward probes. */
  predicate Offers(w: World, phase: Phase, i: int)
    requires Sane(w) && i >= 1
  {
    && Hit(w, 4 + i, i)
    && match phase
       case Running => Contains(Effective(w, i), w.now)
       case Upcoming => w.now < Effective(w, i).start && w.now < Effective(w, i).end
  }

  /** The earliest-starting market on offer among offsets 1..n, ties to the smallest offset. */
  ghost predicate Earliest(w: World, phase: Phase, n: int, choice: Option<int>)
    requires Sane(w)
  {
    match choice
    case None => forall j :: 1 <= j <= n ==> !Offers(w, phase, j)
    case Some(i) =>
      && 1 <= i <= n && Offers(w, phase, i)
      && forall j :: 1 <= j <= n && Offers(w, phase, j) ==>
                       || Effective(w, i).start < Effective(w, j).start
                       || (Effective(w, i).start == Effective(w, j).start && i <= j)
  }

  predicate Improves(w: World, i: int, choice: Option<int>)
    requires Sane(w)
  {
    choice.None? || Effective(w, i).start < Effective(w, choice.value).start
  }

  /** One more offset replaces the best so far only when it starts strictly earlier. */
  lemma EarliestStep(w: World, phase: Phase, n: int, before: Option<int>, after: Option<int>)
    requires Sane(w) && n >= 1 && Earliest(w, phase, n - 1, before)
    requires after == if Offers(w, phase, n) && Improves(w, n, before) then Some(n) else before
    ensures Earliest(w, phase, n, after)
  {
  }

  ghost predicate First(w: World, n: int, choice: Option<int>)
    requires Sane(w)
  {
    match choice
    case None => forall j :: 1 <= j <= n ==> !Offers(w, Running, j)
    case Some(i) => 1 <= i <= n && Offers(w, Running, i) && forall j :: 1 <= j < i ==> !Offers(w, Running, j)
  }

  lemma NothingOffered(w: World, i: int)
    requires Sane(w) && i >= 1 && !Hit(w, 4 + i, i)
    ensures !Offers(w, Running, i) && !Offers(w, Upcoming, i)
  {
  }

  lemma FirstStep(w: World, limit: int, n: int)
    requires Sane(w) && n >= 1 && First(w, Min(limit, n - 1), None)
    ensures if n <= limit && Offers(w, Running, n) then First(w, limit, Some(n)) else First(w, Min(limit, n), None)
  {
  }

  /** The first running market within the priority windows; else the earliest-starting running
      one; else the one that starts soonest. */
  ghost predicate ForwardChoice(w: World, ahead: int, choice: Option<int>)
    requires Sane(w)
  {
    if choice.Some? && First(w, Min(PRIORITY_WINDOWS, ahead), choice) then true
    else
      && First(w, Min(PRIORITY_WINDOWS, ahead), None)
      && if choice.Some? && Earliest(w, Running, ahead, choice) then true
         else Earliest(w, Running, ahead, None) && Earliest(w, Upcoming, ahead, choice)
  }

  // ---- What the whole search is to answer ----------------------------------------------

  ghost predicate PastAnswer(w: World, ahead: int, behind: int, answer: Answer)
    requires Sane(w)
  {
    var k := 5 + Max(0, ahead);
    if behind >= 1 && Hit(w, k, 0) then answer == Found(At(w, 0))
    else if behind >= 2 && w.now == At(w, 0) && Hit(w, k + 1, -1) then answer == Found(At(w, -1))
    else answer == NotFound
  }

  /** Backward window b is seen by probe 1 + b. */
  predicate HitBehind(w: World, b: int)
    requires Sane(w) && b >= 0
  {
    Hit(w, 1 + b, -b)
  }

  ghost predicate BackwardHit(w: World, b: int)
    requires Sane(w)
  {
    1 <= b <= BACKWARD_WINDOWS && HitBehind(w, b) && forall c :: 1 <= c < b ==> !HitBehind(w, c)
  }

  ghost predicate NearMiss(w: World)
    requires Sane(w)
  {
    && !Hit(w, 0, -1) && !Hit(w, 1, 0) && !w.state(1, At(w, 0)).Fatal?
    && forall c :: 1 <= c <= BACKWARD_WINDOWS ==> !HitBehind(w, c)
  }

  ghost predicate Discovered(w: World, ahead: int, behind: int, answer: Answer)
    requires Sane(w)
  {
    || (Hit(w, 0, -1) && answer == Found(At(w, -1)))
    || (!Hit(w, 0, -1) && w.state(1, At(w, 0)).Fatal? && answer == NotFound)
    || (!Hit(w, 0, -1) && Hit(w, 1, 0) && answer == Found(At(w, 0)))
    || (!Hit(w, 0, -1) && !Hit(w, 1, 0) && !w.state(1, At(w, 0)).Fatal?
        && exists b :: BackwardHit(w, b) && answer == Found(At(w, -b)))
    || (NearMiss(w) && exists i :: ForwardChoice(w, ahead, Some(i)) && answer == Found(At(w, i)))
    || (NearMiss(w) && ForwardChoice(w, ahead, None) && PastAnswer(w, ahead, behind, answer))
  }

  // ---- The service ---------------------------------------------------------------------

  datatype Entry = Entry(start: int, expiry: real)

  function Seconds(clock: real): (now: nat)
    requires clock >= 0.0
    ensures now as real <= clock < now as real + 1.0
  {
    clock.Floor
  }

  /** The number after the last dash of a slug: a minus sign reads as a dash. */
  function StampOf(start: int): nat {
    if start < 0 then -start else start
  }

  /** The cached market, while it is fresh and of the current or the previous window. */
  function Served(cache: map<Pattern, Entry>, pattern: Pattern, clock: real): Option<int>
    requires clock >= 0.0
    requires pattern in cache ==> pattern.interval.Some? && pattern.interval.value > 0
  {
    if pattern !in cache || clock >= cache[pattern].expiry then None
    else
      var current := CurrentStart(Seconds(clock), pattern.interval.value);
      var stamp := StampOf(cache[pattern].start);
      if stamp == current || stamp == current - pattern.interval.value then Some(cache[pattern].start) else None
  }

  class MarketDiscoveryService {
    const maxWindowsAhead: int
    const maxWindowsBehind: int
    var cache: map<Pattern, Entry>

    ghost predicate Valid()
      reads this
    {
      forall pattern :: pattern in cache ==> pattern.interval.Some? && pattern.interval.value > 0
    }

    constructor (ahead: int, behind: int)
      ensures Valid() && cache == map[] && maxWindowsAhead == ahead && maxWindowsBehind == behind
    {
      maxWindowsAhead, maxWindowsBehind := ahead, behind;
      cache := map[];
    }

    method GetFromCache(pattern: Pattern, clock: real) returns (start: Option<int>)
      requires Valid() && clock >= 0.0
      modifies this
      ensures Valid() && start == Served(old(cache), pattern, clock)
      ensures cache == if start.Some? then old(cache) else old(cache) - {pattern}
    {
      if pattern !in cache {
        assert cache - {pattern} == cache;
        return None;
      }
      var entry := cache[pattern];
      if clock >= entry.expiry {
        cache := cache - {pattern};
        return None;
      }
      var current := CurrentStart(Seconds(clock), pattern.interval.value);
      if StampOf(entry.start) != current && StampOf(entry.start) != current - pattern.interval.value {
        cache := cache - {pattern};
        return None;
      }
      return Some(entry.start);
    }

    /** The grace-period loop: three windows back, nearest first, errors skipped. */
    method SearchBackward(w: World) returns (found: Option<int>, checked: nat)
      requires Sane(w)
      ensures found.Some? ==> BackwardHit(w, found.value)
      ensures found.None? ==> forall c :: 1 <= c <= BACKWARD_WINDOWS ==> !HitBehind(w, c)
      ensures found.None? <==> !HitBehind(w, 1) && !HitBehind(w, 2) && !HitBehind(w, 3)
      ensures checked == if found.Some? then found.value else 3
    {
      checked := 0;
      var i := 1;
      while i <= BACKWARD_WINDOWS
        invariant 1 <= i <= BACKWARD_WINDOWS + 1 && checked == i - 1
        invariant forall c :: 1 <= c < i ==> !HitBehind(w, c)
      {
        checked := checked + 1;
        if w.state(1 + i, At(w, -i)).Active? {
          return Some(i), checked;
        }
        i := i + 1;
      }
      return None, checked;
    }

    /** The dates a future market is judged by, and whether its window contains now. */
    method Judge(w: World, i: int) returns (window: Window, active: bool)
      requires Sane(w) && i >= 1 && Hit(w, 4 + i, i)
      ensures window == Effective(w, i)
      ensures active <==> Offers(w, Running, i)
      ensures !active && w.now < window.end <==> Offers(w, Upcoming, i)
      ensures Offers(w, Upcoming, i) ==> window.start > 0
    {
      var calculated := Window(At(w, i), At(w, i) + w.interval);
      var dates := w.dates(At(w, i));
      window := if dates.Some? then dates.value else calculated;
      active := window.start <= w.now < window.end;
      if active && At(w, i) - w.now > FAR_SECONDS {
        window := calculated;
        active := window.start <= w.now < window.end;
      }
    }

    /** The forward loop, with its best-so-far variables and its early exit. */
    method SearchForward(w: World) returns (choice: Option<int>, checked: nat)
      requires Sane(w)
      ensures ForwardChoice(w, maxWindowsAhead, choice)
      ensures checked <= Max(0, maxWindowsAhead)
      ensures choice.None? ==> checked == Max(0, maxWindowsAhead)
    {
      hide Offers, Effective, Contains;
      var limit := Min(PRIORITY_WINDOWS, maxWindowsAhead);
      var started, startedAt := None, 0;
      var notStarted, notStartedAt := None, 0;
      checked := 0;
      var i := 1;
      while i <= maxWindowsAhead
        invariant 1 <= i <= Max(1, maxWindowsAhead + 1) && checked == i - 1
        invariant First(w, Min(limit, i - 1), None)
        invariant Earliest(w, Running, i - 1, started) && Earliest(w, Upcoming, i - 1, notStarted)
        invariant started.Some? ==> startedAt == Effective(w, started.value).start
        invariant notStarted.Some? ==> notStartedAt == Effective(w, notStarted.value).start > 0
      {
        checked := checked + 1;
        ghost var best, next := started, notStarted;
        FirstStep(w, limit, i);
        if w.state(4 + i, At(w, i)).Active? {
          var window, active := Judge(w, i);
          if active {
            if started.None? || window.start < startedAt {
              started, startedAt := Some(i), window.start;
              if i <= limit {
                return started, checked;
              }
            }
          } else if w.now < window.end {
            // A best start of zero would read as missing.
            if notStarted.None? || notStartedAt == 0 || window.start - w.now < notStartedAt - w.now {
              notStarted, notStartedAt := Some(i), window.start;
            }
          }
        } else {
          NothingOffered(w, i);
        }
        EarliestStep(w, Running, i, best, started);
        EarliestStep(w, Upcoming, i, next, notStarted);
        i := i + 1;
      }
      choice := if started.Some? then started else notStarted;
    }

    /** The last loop: it names each window by its end, so it probes one window later than it
        says, and it skips all but the current and, on a window boundary, the previous one. */
    method SearchPast(w: World) returns (answer: Answer, checked: nat)
      requires Sane(w)
      ensures PastAnswer(w, maxWindowsAhead, maxWindowsBehind, answer)
      ensures checked <= Min(2, Max(0, maxWindowsBehind))
      ensures answer.NotFound? ==> checked == (if maxWindowsBehind >= 1 then 1 else 0)
                                              + (if maxWindowsBehind >= 2 && w.now == At(w, 0) then 1 else 0)
    {
      var first := 5 + Max(0, maxWindowsAhead);
      checked := 0;
      var i := 1;
      while i <= maxWindowsBehind
        invariant 1 <= i <= Max(1, maxWindowsBehind + 1)
        invariant checked == (if i > 1 then 1 else 0) + (if i > 2 && w.now == At(w, 0) then 1 else 0)
        invariant i > 1 ==> !Hit(w, first, 0)
        invariant i > 2 && w.now == At(w, 0) ==> !Hit(w, first + 1, -1)
      {
        var pastEnd := At(w, 0) + w.interval - i * w.interval;
        PastEndSkipped(w, i);
        if pastEnd + w.interval >= w.now {
          checked := checked + 1;
          if w.state(first + checked - 1, pastEnd).Active? {
            return Found(pastEnd), checked;
          }
        }
        i := i + 1;
      }
      answer := NotFound;
    }

    /** Answers from the cache, or searches and remembers what it finds. */
    method GetCurrentMarket(pattern: Pattern, clock: real, state: (nat, int) -> Probe, dates: int -> Option<Window>)
      returns (answer: Answer, checked: nat)
      requires Valid() && clock >= 0.0
      modifies this
      ensures Valid()
      ensures var served := Served(old(cache), pattern, clock);
              if served.Some? then answer == Found(served.value) && checked == 0 && cache == old(cache)
              else if pattern.interval.None? then answer == NotFound && checked == 0 && cache == old(cache) - {pattern}
              else if pattern.interval.value == 0 then
                answer == ZeroInterval && checked == 0 && cache == old(cache) - {pattern}
              else
                var w := World(Seconds(clock), pattern.interval.value, state, dates);
                && Discovered(w, maxWindowsAhead, maxWindowsBehind, answer)
                && checked <= 5 + Max(0, maxWindowsAhead) + Min(2, Max(0, maxWindowsBehind))
                && var kept := old(cache) - {pattern};
                cache == if answer.Found? then kept[pattern := Entry(answer.start, clock + 30.0)] else kept
    {
      var cached := GetFromCache(pattern, clock);
      if cached.Some? {
        return Found(cached.value), 0;
      }
      if pattern.interval.None? {
        return NotFound, 0;
      }
      if pattern.interval.value == 0 {
        return ZeroInterval, 0;
      }
      var w := World(Seconds(clock), pattern.interval.value, state, dates);
      answer, checked := Search(w);
      if answer.Found? {
        cache := cache[pattern := Entry(answer.start, clock + CACHE_TTL)];
      }
    }

    method Search(w: World) returns (answer: Answer, checked: nat)
      requires Sane(w)
      ensures Discovered(w, maxWindowsAhead, maxWindowsBehind, answer)
      ensures checked <= 5 + Max(0, maxWindowsAhead) + Min(2, Max(0, maxWindowsBehind))
      ensures !answer.ZeroInterval?
    {
      if w.state(0, At(w, -1)).Active? {
        return Found(At(w, -1)), 1;
      }
      var current := w.state(1, At(w, 0));
      if current.Fatal? {
        return NotFound, 2;
      }
      if current.Active? {
        return Found(At(w, 0)), 2;
      }
      var found, back := SearchBackward(w);
      if found.Some? {
        return Found(At(w, -found.value)), 2 + back;
      }
      var choice, forward := SearchForward(w);
      if choice.Some? {
        return Found(At(w, choice.value)), 2 + back + forward;
      }
      var past;
      answer, past := SearchPast(w);
      checked := 2 + back + forward + past;
    }
  }

  lemma AtLeastIntervals(interval: nat, n: nat, least: nat)
    requires interval >= least
    ensures n * interval >= n * least
  {
  }

  lemma PastEndSkipped(w: World, i: int)
    requires Sane(w) && i >= 1
    ensures var pastEnd := At(w, 0) + w.interval - i * w.interval;
            pastEnd + w.interval >= w.now <==> i == 1 || (i == 2 && w.now == At(w, 0))
    ensures i == 1 ==> At(w, 0) + w.interval - i * w.interval == At(w, 0)
    ensures i == 2 ==> At(w, 0) + w.interval - i * w.interval == At(w, -1)
  {
    if i >= 3 {
      AtLeastIntervals(w.interval, i - 2, 1);
      assert (i - 2) * w.interval == i * w.interval - 2 * w.interval;
      assert (i - 2) * w.interval > 0;
    }
  }

  // ---- What the specification amounts to -----------------------------------------------

  /** The forward choice is determined by what the exchange answers. */
  lemma ForwardChoiceUnique(w: World, ahead: int, a: Option<int>, b: Option<int>)
    requires Sane(w) && ForwardChoice(w, ahead, a) && ForwardChoice(w, ahead, b)
    ensures a == b
  {
    var limit := Min(PRIORITY_WINDOWS, ahead);
    if a.Some? && First(w, limit, a) {
      assert Offers(w, Running, a.value);
      if b.Some? && First(w, limit, b) {
        assert Offers(w, Running, b.value);
      }
    }
  }

  /** Beyond the priority windows the metadata of a market with a window of at least twelve
      minutes can never make it run now: its own window is more than two hours away. */
  lemma FarMarketsNeverRun(w: World, i: int)
    requires w.interval >= 720 && i > PRIORITY_WINDOWS
    ensures !Offers(w, Running, i)
  {
    AtLeastIntervals(w.interval, i - 1, 720);
    assert i * w.interval == (i - 1) * w.interval + w.interval;
  }

  lemma OfferedNotNone(w: World, n: int, choice: Option<int>)
    requires Sane(w)
    ensures choice.Some? && First(w, n, choice) ==> !First(w, n, None)
    ensures choice.Some? && Earliest(w, Running, n, choice) ==> !Earliest(w, Running, n, None)
  {
    if choice.Some? && choice.value >= 1 && Offers(w, Running, choice.value) && choice.value <= n {
      assert !First(w, n, None);
    }
  }

  /** So for such intervals the forward phase has only two cases: the first running market within
      the priority windows, or the market that starts soonest. */
  lemma MiddleCaseUnreachable(w: World, ahead: int, choice: Option<int>)
    requires w.interval >= 720
    ensures ForwardChoice(w, ahead, choice)
       <==> if First(w, Min(PRIORITY_WINDOWS, ahead), None) then Earliest(w, Upcoming, ahead, choice)
            else choice.Some? && First(w, Min(PRIORITY_WINDOWS, ahead), choice)
  {
    var limit := Min(PRIORITY_WINDOWS, ahead);
    if First(w, limit, None) {
      forall j | 1 <= j <= ahead ensures !Offers(w, Running, j) {
        if j > limit {
          FarMarketsNeverRun(w, j);
        }
      }
      OfferedNotNone(w, limit, choice);
      OfferedNotNone(w, ahead, choice);
    }
  }

  /** With every shorter interval the middle case does occur: in the last second of a window, when
      only the eleventh market ahead is active and its metadata says that it is running. */
  lemma MiddleCaseReached(interval: nat)
    requires 0 < interval < 720
    ensures exists w: World :: w.interval == interval && First(w, PRIORITY_WINDOWS, None) && Offers(w, Running, 11)
                               && ForwardChoice(w, 48, Some(11))
  {
    var state := (k: nat, start: int) => if start == 11 * interval then Active else Inactive;
    var dates := (start: int) => Some(Window(0, interval));
    var w := World(interval - 1, interval, state, dates);
    assert CurrentStart(w.now, interval) == 0 by {
      MultipleBelow(w.now / interval, interval);
    }
    forall j | 1 <= j && j != 11 ensures At(w, j) != 11 * interval {
      DifferentMultiples(j, 11, interval);
    }
  }

  lemma MultipleBelow(q: nat, n: nat)
    requires n > 0 && q * n < n
    ensures q == 0
  {
    assert q > 0 ==> q * n == (q - 1) * n + n && (q - 1) * n >= 0;
  }

  lemma DifferentMultiples(i: int, j: int, n: nat)
    requires n > 0 && i != j
    ensures i * n != j * n
  {
    assert (i - j) * n != 0;
  }

  /** A market beyond the priority windows can be running now exactly with windows shorter than
      twelve minutes. */
  lemma FarMarketsRunIff(interval: nat)
    requires interval > 0
    ensures (exists w: World, i :: w.interval == interval && i > PRIORITY_WINDOWS && Offers(w, Running, i))
       <==> interval < 720
  {
    if interval < 720 {
      MiddleCaseReached(interval);
      var w: World :| w.interval == interval && Offers(w, Running, 11);
    } else {
      forall w: World, i | w.interval == interval && i > PRIORITY_WINDOWS ensures !Offers(w, Running, i) {
        FarMarketsNeverRun(w, i);
      }
    }
  }

  /** Nothing usable at a forward offset: the probe was not ACTIVE, raised, or the market ended. */
  predicate Useless(w: World, i: int)
    requires Sane(w) && i >= 1
  {
    !Hit(w, 4 + i, i) || w.now >= Effective(w, i).end
  }

  lemma UselessOffers(w: World, i: int)
    requires Sane(w) && i >= 1
    ensures Useless(w, i) <==> !Offers(w, Running, i) && !Offers(w, Upcoming, i)
  {
  }

  lemma NothingForward(w: World, ahead: int)
    requires Sane(w)
    ensures ForwardChoice(w, ahead, None) <==> forall i :: 1 <= i <= ahead ==> Useless(w, i)
  {
    forall i | 1 <= i <= ahead ensures Useless(w, i) <==> !Offers(w, Running, i) && !Offers(w, Upcoming, i) {
      UselessOffers(w, i);
    }
  }

  // ---- The same in plain numbers ---------------------------------------------------------

  /** The start of the window at an offset from the current one. */
  function StartAt(w: World, offset: int): int
    requires Sane(w)
  {
    w.now - w.now % w.interval + offset * w.interval
  }

  /** The k-th probe of a search finds the market at the offset active. */
  predicate ActiveAt(w: World, k: nat, offset: int)
    requires Sane(w)
  {
    w.state(k, StartAt(w, offset)) == Active
  }

  /** No probe up to the third window back has found an active market or a fatal error. */
  predicate NothingNear(w: World)
    requires Sane(w)
  {
    && !ActiveAt(w, 0, -1) && !ActiveAt(w, 1, 0) && w.state(1, StartAt(w, 0)) != Fatal
    && !ActiveAt(w, 2, -1) && !ActiveAt(w, 3, -2) && !ActiveAt(w, 4, -3)
  }

  lemma NearMissIs(w: World)
    requires Sane(w)
    ensures NearMiss(w) <==> NothingNear(w)
  {
    assert HitBehind(w, 1) <==> ActiveAt(w, 2, -1);
    assert HitBehind(w, 2) <==> ActiveAt(w, 3, -2);
    assert HitBehind(w, 3) <==> ActiveAt(w, 4, -3);
  }

  /** What is found near now: the previous window, unless the current one raises a fatal error the
      current one, and else the nearest of three windows back. */
  lemma NearAnswer(w: World, ahead: int, behind: int, answer: Answer)
    requires Sane(w) && Discovered(w, ahead, behind, answer)
    ensures ActiveAt(w, 0, -1) ==> answer == Found(StartAt(w, -1))
    ensures !ActiveAt(w, 0, -1) && w.state(1, StartAt(w, 0)) == Fatal ==> answer == NotFound
    ensures !ActiveAt(w, 0, -1) && ActiveAt(w, 1, 0) ==> answer == Found(StartAt(w, 0))
    ensures !ActiveAt(w, 0, -1) && !ActiveAt(w, 1, 0) && w.state(1, StartAt(w, 0)) != Fatal && !NothingNear(w) ==>
              answer == Found(if ActiveAt(w, 2, -1) then StartAt(w, -1)
                              else if ActiveAt(w, 3, -2) then StartAt(w, -2) else StartAt(w, -3))
  {
    NearMissIs(w);
    assert HitBehind(w, 1) <==> ActiveAt(w, 2, -1);
    assert HitBehind(w, 2) <==> ActiveAt(w, 3, -2);
    assert HitBehind(w, 3) <==> ActiveAt(w, 4, -3);
    assert At(w, -1) == StartAt(w, -1) && At(w, -2) == StartAt(w, -2) && At(w, -3) == StartAt(w, -3);
  }

  lemma AheadOfNow(w: World, i: int)
    requires Sane(w) && i >= 1
    ensures At(w, i) == StartAt(w, i) > w.now
  {
    AtLeastIntervals(w.interval, i, 1);
    assert i * w.interval >= w.interval;
  }

  /** A market ahead runs now exactly if it is active and its metadata says so, unless its slug is
      more than two hours away; it is still to start exactly if it is active and its metadata says
      so, or has no say. */
  lemma OffersIff(w: World, i: int)
    requires Sane(w) && i >= 1
    ensures var dates, away := w.dates(StartAt(w, i)), StartAt(w, i) - w.now > 7200;
            var running := dates.Some? && dates.value.start <= w.now < dates.value.end;
            && (Offers(w, Running, i) <==> ActiveAt(w, 4 + i, i) && running && !away)
            && (Offers(w, Upcoming, i) <==>
                ActiveAt(w, 4 + i, i) &&
                (dates.None? || (running && away)
                 || (w.now < dates.value.start && w.now < dates.value.end)))
  {
    AheadOfNow(w, i);
  }

  /** With nothing near, the first of the ten windows ahead, as far as the search looks, whose market
      runs now is the answer. */
  lemma FirstRunningAnswers(w: World, ahead: int, behind: int, answer: Answer, i: int)
    requires Sane(w) && Discovered(w, ahead, behind, answer) && NothingNear(w)
    requires 1 <= i <= ahead && i <= 10 && Offers(w, Running, i) && forall j :: 1 <= j < i ==> !Offers(w, Running, j)
    ensures answer == Found(StartAt(w, i))
  {
    NearMissIs(w);
    assert First(w, Min(PRIORITY_WINDOWS, ahead), Some(i));
    assert ForwardChoice(w, ahead, Some(i));
    forall b | ForwardChoice(w, ahead, b) ensures b == Some(i) {
      ForwardChoiceUnique(w, ahead, Some(i), b);
    }
    assert At(w, i) == StartAt(w, i);
  }

  /** The start a market ahead is ranked by: its metadata's, unless it has none or claims to run now
      although its slug is more than two hours away. */
  function RankedStart(w: World, i: int): int
    requires Sane(w) && i >= 1
  {
    var dates, away := w.dates(StartAt(w, i)), StartAt(w, i) - w.now > 7200;
    if dates.None? || (dates.value.start <= w.now < dates.value.end && away) then StartAt(w, i) else dates.value.start
  }

  /** No market offered in this phase is ranked before `i`: none starts earlier, and of those that
      start with it none is nearer. */
  ghost predicate Foremost(w: World, phase: Phase, ahead: int, i: int)
    requires Sane(w)
  {
    && 1 <= i <= ahead && Offers(w, phase, i)
    && forall j :: 1 <= j <= ahead && Offers(w, phase, j) ==>
                     RankedStart(w, i) < RankedStart(w, j) || (RankedStart(w, i) == RankedStart(w, j) && i <= j)
  }

  lemma ForemostIsEarliest(w: World, phase: Phase, ahead: int, i: int)
    requires Sane(w) && Foremost(w, phase, ahead, i)
    ensures Earliest(w, phase, ahead, Some(i))
  {
    forall j | 1 <= j <= ahead ensures Effective(w, j).start == RankedStart(w, j) {
      AheadOfNow(w, j);
    }
  }

  /** With no market running among the first ten, the running one that starts first is the answer, and
      with none running at all the one that will start first. */
  lemma ForemostAnswers(w: World, ahead: int, behind: int, answer: Answer, i: int)
    requires Sane(w) && Discovered(w, ahead, behind, answer) && NothingNear(w)
    requires forall j :: 1 <= j <= ahead && j <= 10 ==> !Offers(w, Running, j)
    requires || Foremost(w, Running, ahead, i)
             || ((forall j :: 1 <= j <= ahead ==> !Offers(w, Running, j)) && Foremost(w, Upcoming, ahead, i))
    ensures answer == Found(StartAt(w, i))
  {
    hide Offers, Effective;
    NearMissIs(w);
    assert First(w, Min(PRIORITY_WINDOWS, ahead), None);
    if Foremost(w, Running, ahead, i) {
      ForemostIsEarliest(w, Running, ahead, i);
    } else {
      ForemostIsEarliest(w, Upcoming, ahead, i);
      assert Earliest(w, Running, ahead, None);
    }
    assert ForwardChoice(w, ahead, Some(i));
    forall b | ForwardChoice(w, ahead, b) ensures b == Some(i) {
      ForwardChoiceUnique(w, ahead, Some(i), b);
    }
    assert At(w, i) == StartAt(w, i);
  }

  /** Useless is a market that is not active, or whose metadata says that it has ended. */
  lemma UselessIff(w: World, i: int)
    requires Sane(w) && i >= 1
    ensures var dates := w.dates(StartAt(w, i));
            Useless(w, i) <==> !ActiveAt(w, 4 + i, i) || (dates.Some? && dates.value.end <= w.now)
  {
    AheadOfNow(w, i);
  }

  /** When everything ahead is of no use either, the last loop probes the current window once more,
      if allowed to look behind at all, and, exactly on a window boundary, the previous one, if
      allowed to look two windows behind. */
  lemma LastLoopAnswers(w: World, ahead: int, behind: int, answer: Answer)
    requires Sane(w) && Discovered(w, ahead, behind, answer) && NothingNear(w)
    requires forall i :: 1 <= i <= ahead ==> Useless(w, i)
    ensures var k := if ahead > 0 then 5 + ahead else 5;
            answer ==
            if behind >= 1 && ActiveAt(w, k, 0) then Found(StartAt(w, 0))
            else if behind >= 2 && w.now % w.interval == 0 && ActiveAt(w, k + 1, -1) then Found(StartAt(w, -1))
            else NotFound
  {
    NearMissIs(w);
    NothingForward(w, ahead);
    forall i ensures !ForwardChoice(w, ahead, Some(i)) {
      if ForwardChoice(w, ahead, Some(i)) {
        ForwardChoiceUnique(w, ahead, Some(i), None);
      }
    }
    assert At(w, -1) == StartAt(w, -1);
  }

  /** A search gives up exactly when the current window raised a fatal error (and the previous one
      was not active), or none of the offsets -3 to 0 was ACTIVE, every offset 1 to `ahead` was
      useless, and so were the repeated probes of the last loop. */
  lemma GivesUpIff(w: World, ahead: int, behind: int)
    requires Sane(w)
    ensures var k := if ahead > 0 then 5 + ahead else 5;
            Discovered(w, ahead, behind, NotFound) <==>
            || (!ActiveAt(w, 0, -1) && w.state(1, StartAt(w, 0)) == Fatal)
            || (&& !ActiveAt(w, 0, -1) && !ActiveAt(w, 1, 0)
                && !ActiveAt(w, 2, -1) && !ActiveAt(w, 3, -2) && !ActiveAt(w, 4, -3)
                && (forall i :: 1 <= i <= ahead ==> Useless(w, i))
                && (behind >= 1 ==> !ActiveAt(w, k, 0))
                && (behind >= 2 && w.now % w.interval == 0 ==> !ActiveAt(w, k + 1, -1)))
  {
    NothingForward(w, ahead);
    NearMissIs(w);
    assert At(w, -1) == StartAt(w, -1);
  }

  /** Some answer always fits, and only one does. */
  lemma AnswerUnique(w: World, ahead: int, behind: int, a: Answer, b: Answer)
    requires Sane(w) && Discovered(w, ahead, behind, a) && Discovered(w, ahead, behind, b)
    ensures a == b
  {
    forall i, j | ForwardChoice(w, ahead, Some(i)) && ForwardChoice(w, ahead, Some(j)) ensures i == j {
      ForwardChoiceUnique(w, ahead, Some(i), Some(j));
    }
    forall i | ForwardChoice(w, ahead, Some(i)) ensures !ForwardChoice(w, ahead, None) {
      if ForwardChoice(w, ahead, None) {
        ForwardChoiceUnique(w, ahead, Some(i), None);
      }
    }
    forall x, y | BackwardHit(w, x) && BackwardHit(w, y) ensures x == y {
      assert HitBehind(w, x) && HitBehind(w, y);
    }
  }

  ghost predicate Steady(w: World) {
    forall j: nat, k: nat, start: int :: w.state(j, start) == w.state(k, start)
  }

  /** If the exchange answers alike throughout one search, the last loop cannot find anything. */
  lemma LastLoopIsDead(w: World, ahead: int, behind: int, answer: Answer)
    requires Sane(w) && Steady(w) && NearMiss(w) && PastAnswer(w, ahead, behind, answer)
    ensures answer == NotFound
  {
    var k := 5 + Max(0, ahead);
    assert w.state(k, At(w, 0)) == w.state(1, At(w, 0));
    assert w.state(k + 1, At(w, -1)) == w.state(0, At(w, -1));
  }

  // ---- The cache -------------------------------------------------------------------------

  /** A cached market is served while it is younger than its expiry and its slug's number, read without
      a sign, is the start of the current or the previous window. */
  lemma ServedIff(cache: map<Pattern, Entry>, pattern: Pattern, clock: real)
    requires clock >= 0.0 && pattern in cache && pattern.interval.Some? && pattern.interval.value > 0
    ensures var start, now := cache[pattern].start, clock.Floor;
            var current := now - now % pattern.interval.value;
            var number := if start < 0 then -start else start;
            Served(cache, pattern, clock) ==
            if clock < cache[pattern].expiry && (number == current || number == current - pattern.interval.value)
            then Some(start) else None
  {
  }

  lemma OffsetsDistinct(interval: nat, a: int, b: int)
    requires interval > 0 && a * interval == b * interval
    ensures a == b
  {
    assert (a - b) * interval == 0;
  }

  /** Whatever was cached at offset k is served again within the same window exactly while it is
      younger than 30 seconds and k is 0 or -1: a market found ahead of the current window, or
      further back, is searched for anew on every call. */
  lemma CachedAgainIff(cache: map<Pattern, Entry>, pattern: Pattern, found: real, later: real, k: int)
    requires 0.0 <= found <= later && pattern.interval.Some? && pattern.interval.value > 0
    requires CurrentStart(Seconds(later), pattern.interval.value) ==
             CurrentStart(Seconds(found), pattern.interval.value)
    requires var start := CurrentStart(Seconds(found), pattern.interval.value) + k * pattern.interval.value;
             pattern in cache && start >= 0 && cache[pattern] == Entry(start, found + 30.0)
    ensures Served(cache, pattern, later).Some? <==> later - found < 30.0 && (k == 0 || k == -1)
    ensures Served(cache, pattern, later).Some? ==> Served(cache, pattern, later).value == cache[pattern].start
  {
    var interval: int := pattern.interval.value;
    if k * interval == 0 {
      OffsetsDistinct(interval, k, 0);
    }
    if k * interval == -interval {
      OffsetsDistinct(interval, k, -1);
    }
  }
}
