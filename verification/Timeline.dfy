/** The event timeline of the canonical backtest, and which candles are closed at an event. */
module Timeline {
  import opened Sorting
  import opened Candles

  datatype Frame = Min1 | Min5 | Min15 | Hour1 | Hour4

  const MINUTE := 60_000

  /** The length of a timeframe in milliseconds; a name without an entry counts as 15 minutes. */
  function FrameMs(tf: Frame): (ms: int) {
    match tf
    case Min5 => 5 * MINUTE
    case Min15 => 15 * MINUTE
    case Hour1 => 60 * MINUTE
    case Hour4 => 240 * MINUTE
    case Min1 => 900_000
  }

  /** The rank of a timeframe among the names "15m", "1h", "1m", "4h", "5m" in locale order. */
  function NameRank(tf: Frame): int {
    match tf case Min15 => 0 case Hour1 => 1 case Min1 => 2 case Hour4 => 3 case Min5 => 4
  }

  datatype CandleSet = CandleSet(tf: Frame, candles: seq<Candle>)

  function CloseTime(c: Candle, tf: Frame): int { c.ts + FrameMs(tf) }

  predicate Earlier(a: Candle, b: Candle) { a.ts <= b.ts }

  function ClosedBy(tf: Frame, t: int): Candle -> bool {
    (c: Candle) => CloseTime(c, tf) <= t
  }

  // ---- the candles closed at a time ----

  /** Binary search for the first value beyond the target. */
  method UpperBound(values: seq<int>, target: int) returns (lo: nat)
    requires forall i, j :: 0 <= i < j < |values| ==> values[i] <= values[j]
    ensures lo <= |values|
    ensures forall i :: 0 <= i < lo ==> values[i] <= target
    ensures forall i :: lo <= i < |values| ==> values[i] > target
  {
    lo := 0;
    var hi: nat := |values|;
    while lo < hi
      invariant lo <= hi <= |values|
      invariant forall i :: 0 <= i < lo ==> values[i] <= target
      invariant forall i :: hi <= i < |values| ==> values[i] > target
    {
      var mid := (lo + hi) / 2;
      if values[mid] <= target {
        lo := mid + 1;
      } else {
        hi := mid;
      }
    }
  }

  /** The binary search over close times returns exactly the candles that are closed at `t`. */
  method ClosedCandlesAtTime(candles: seq<Candle>, t: int, tf: Frame) returns (closed: seq<Candle>)
    requires Sorted(candles, Earlier)
    ensures closed == Filter(candles, ClosedBy(tf, t))
    ensures forall c :: c in closed <==> c in candles && CloseTime(c, tf) <= t
  {
    if candles == [] {
      return [];
    }
    var closeTimes := seq(|candles|, i requires 0 <= i < |candles| => CloseTime(candles[i], tf));
    forall i, j | 0 <= i < j < |closeTimes| ensures closeTimes[i] <= closeTimes[j] {
      assert Earlier(candles[i], candles[j]);
    }
    var n := UpperBound(closeTimes, t);
    assert forall i :: 0 <= i < |candles| ==> closeTimes[i] == CloseTime(candles[i], tf);
    FilterPrefix(candles, ClosedBy(tf, t), n);
    FilterMember(candles, ClosedBy(tf, t));
    closed := candles[..n];
  }

  // ---- candles by timeframe ----

  /** The timeframes of the input in the order of their first appearance. */
  function FrameOrder(sets: seq<CandleSet>): seq<Frame> {
    if sets == [] then []
    else
      var order, last := FrameOrder(sets[..|sets| - 1]), sets[|sets| - 1];
      if last.tf in order then order else order + [last.tf]
  }

  /** The candles of a timeframe in time order; a later set of the same timeframe replaces an earlier one. */
  function CandlesOf(sets: seq<CandleSet>, tf: Frame): seq<Candle> {
    if sets == [] then []
    else if sets[|sets| - 1].tf == tf then StableSort(sets[|sets| - 1].candles, Earlier)
    else CandlesOf(sets[..|sets| - 1], tf)
  }

  function GetOr(byTf: map<Frame, seq<Candle>>, tf: Frame): seq<Candle> {
    if tf in byTf then byTf[tf] else []
  }

  method Organize(sets: seq<CandleSet>) returns (order: seq<Frame>, byTf: map<Frame, seq<Candle>>)
    ensures order == FrameOrder(sets)
    ensures forall tf :: tf in byTf <==> tf in order
    ensures forall tf :: GetOr(byTf, tf) == CandlesOf(sets, tf)
  {
    order, byTf := [], map[];
    for i := 0 to |sets|
      invariant order == FrameOrder(sets[..i])
      invariant forall tf :: tf in byTf <==> tf in order
      invariant forall tf :: GetOr(byTf, tf) == CandlesOf(sets[..i], tf)
    {
      assert sets[..i + 1][..i] == sets[..i];
      if sets[i].tf !in order {
        order := order + [sets[i].tf];
      }
      byTf := byTf[sets[i].tf := StableSort(sets[i].candles, Earlier)];
    }
    assert sets[..|sets|] == sets;
  }

  lemma EarlierIsPreorder()
    ensures TotalPreorder(Earlier)
  {
  }

  lemma {:induction false} CandlesAreSorted(sets: seq<CandleSet>, tf: Frame)
    ensures Sorted(CandlesOf(sets, tf), Earlier)
  {
    if sets != [] {
      if sets[|sets| - 1].tf == tf {
        EarlierIsPreorder();
        SortSorts(sets[|sets| - 1].candles, Earlier);
      } else {
        CandlesAreSorted(sets[..|sets| - 1], tf);
      }
    }
  }

  // ---- the timeline ----

  /** The close of one candle. */
  datatype Event = Event(ts: int, tf: Frame, index: nat, price: real)

  predicate Before(a: Event, b: Event) {
    a.ts < b.ts || (a.ts == b.ts && NameRank(a.tf) <= NameRank(b.tf))
  }

  /** The event of one candle, when it closes within the run. */
  function CloseEvent(c: Candle, tf: Frame, index: nat, from: int, to: int): seq<Event> {
    if from <= CloseTime(c, tf) <= to then [Event(CloseTime(c, tf), tf, index, c.close)] else []
  }

  /** The events of the first `n` candles of a timeframe that close within the run. */
  function EventsOf(candles: seq<Candle>, tf: Frame, n: nat, from: int, to: int): seq<Event>
    requires n <= |candles|
  {
    if n == 0 then []
    else EventsOf(candles, tf, n - 1, from, to) + CloseEvent(candles[n - 1], tf, n - 1, from, to)
  }

  function AllEvents(sets: seq<CandleSet>, order: seq<Frame>, from: int, to: int): seq<Event> {
    if order == [] then []
    else
      var tf := order[|order| - 1];
      AllEvents(sets, order[..|order| - 1], from, to)
         + EventsOf(CandlesOf(sets, tf), tf, |CandlesOf(sets, tf)|, from, to)
  }

  function TimelineOf(sets: seq<CandleSet>, from: int, to: int): seq<Event> {
    StableSort(AllEvents(sets, FrameOrder(sets), from, to), Before)
  }

  /** Pushes the closes of one timeframe that fall within the run. */
  method PushFrame(start: seq<Event>, candles: seq<Candle>, tf: Frame, from: int, to: int)
    returns (timeline: seq<Event>)
    ensures timeline == start + EventsOf(candles, tf, |candles|, from, to)
  {
    timeline := start;
    for i := 0 to |candles|
      invariant timeline == start + EventsOf(candles, tf, i, from, to)
    {
      var closeMs := CloseTime(candles[i], tf);
      ghost var before := EventsOf(candles, tf, i, from, to);
      if closeMs >= from && closeMs <= to {
        timeline := timeline + [Event(closeMs, tf, i, candles[i].close)];
      }
      assert timeline == start + (before + CloseEvent(candles[i], tf, i, from, to));
    }
  }

  lemma NoEvents(sets: seq<CandleSet>, from: int, to: int)
    ensures AllEvents(sets, [], from, to) == []
  {
  }

  lemma AllEventsGrow(sets: seq<CandleSet>, order: seq<Frame>, k: nat, from: int, to: int)
    requires k < |order|
    ensures AllEvents(sets, order[..k + 1], from, to)
         == AllEvents(sets, order[..k], from, to)
            + EventsOf(CandlesOf(sets, order[k]), order[k], |CandlesOf(sets, order[k])|, from, to)
  {
    assert order[..k + 1][..k] == order[..k];
    hide EventsOf, CandlesOf;
  }

  method BuildTimeline(ghost sets: seq<CandleSet>, order: seq<Frame>, byTf: map<Frame, seq<Candle>>, from: int, to: int)
    returns (timeline: seq<Event>)
    requires order == FrameOrder(sets)
    requires forall tf :: tf in byTf <==> tf in order
    requires forall tf :: GetOr(byTf, tf) == CandlesOf(sets, tf)
    ensures timeline == TimelineOf(sets, from, to)
  {
    hide AllEvents, EventsOf, CandlesOf, StableSort;
    timeline := [];
    NoEvents(sets, from, to);
    assert order[..0] == [];
    for k := 0 to |order|
      invariant timeline == AllEvents(sets, order[..k], from, to)
    {
      AllEventsGrow(sets, order, k, from, to);
      assert byTf[order[k]] == GetOr(byTf, order[k]);
      timeline := PushFrame(timeline, byTf[order[k]], order[k], from, to);
    }
    assert order[..|order|] == order;
    timeline := StableSort(timeline, Before);
  }

  lemma BeforeIsPreorder()
    ensures TotalPreorder(Before)
  {
  }

  // ---- what the timeline holds ----

  ghost predicate IsEvent(sets: seq<CandleSet>, from: int, to: int, e: Event) {
    && e.index < |CandlesOf(sets, e.tf)|
    && e.ts == CloseTime(CandlesOf(sets, e.tf)[e.index], e.tf)
    && e.price == CandlesOf(sets, e.tf)[e.index].close
    && from <= e.ts <= to
  }

  lemma {:induction false} EventsOfMember(candles: seq<Candle>, tf: Frame, n: nat, from: int, to: int, e: Event)
    requires n <= |candles|
    ensures e in EventsOf(candles, tf, n, from, to)
         <==> (&& e.tf == tf && e.index < n && from <= e.ts <= to
               && e.ts == CloseTime(candles[e.index], tf) && e.price == candles[e.index].close)
  {
    if n > 0 {
      EventsOfMember(candles, tf, n - 1, from, to, e);
    }
  }

  lemma {:induction false} AllEventsMember(sets: seq<CandleSet>, order: seq<Frame>, from: int, to: int, e: Event)
    ensures e in AllEvents(sets, order, from, to) <==> e.tf in order && IsEvent(sets, from, to, e)
  {
    if order != [] {
      var tf := order[|order| - 1];
      AllEventsMember(sets, order[..|order| - 1], from, to, e);
      EventsOfMember(CandlesOf(sets, tf), tf, |CandlesOf(sets, tf)|, from, to, e);
      assert order == order[..|order| - 1] + [tf];
    }
  }

  lemma {:induction false} OrderIsComplete(sets: seq<CandleSet>, tf: Frame)
    ensures CandlesOf(sets, tf) != [] ==> tf in FrameOrder(sets)
  {
    if sets != [] {
      OrderIsComplete(sets[..|sets| - 1], tf);
    }
  }

  /** The timeline is in time order and holds exactly the candle closes within the run. */
  lemma TimelineIsExact(sets: seq<CandleSet>, from: int, to: int, e: Event)
    ensures Sorted(TimelineOf(sets, from, to), Before)
    ensures e in TimelineOf(sets, from, to) <==> IsEvent(sets, from, to, e)
  {
    BeforeIsPreorder();
    SortSorts(AllEvents(sets, FrameOrder(sets), from, to), Before);
    SortMember(AllEvents(sets, FrameOrder(sets), from, to), Before, e);
    AllEventsMember(sets, FrameOrder(sets), from, to, e);
    OrderIsComplete(sets, e.tf);
  }

  // ---- agreement of two inputs up to a time ----

  /** The candles of a timeframe that are closed at `t`. */
  function ClosedAt(sets: seq<CandleSet>, tf: Frame, t: int): seq<Candle> {
    Filter(CandlesOf(sets, tf), ClosedBy(tf, t))
  }

  /** Two inputs bring the same timeframes and the same candles closing at or before `t`. */
  ghost predicate AgreeUpTo(a: seq<CandleSet>, b: seq<CandleSet>, t: int) {
    && |a| == |b|
    && forall k :: 0 <= k < |a| ==>
         && a[k].tf == b[k].tf
         && Filter(a[k].candles, ClosedBy(a[k].tf, t)) == Filter(b[k].candles, ClosedBy(b[k].tf, t))
  }

  lemma {:induction false} SameFrames(a: seq<CandleSet>, b: seq<CandleSet>, t: int)
    requires AgreeUpTo(a, b, t)
    ensures FrameOrder(a) == FrameOrder(b)
  {
    if a != [] {
      SameFrames(a[..|a| - 1], b[..|b| - 1], t);
    }
  }

  lemma {:induction false} SameClosed(a: seq<CandleSet>, b: seq<CandleSet>, t: int, tf: Frame)
    requires AgreeUpTo(a, b, t)
    ensures ClosedAt(a, tf, t) == ClosedAt(b, tf, t)
  {
    if a != [] {
      var m := |a| - 1;
      if a[m].tf == tf {
        EarlierIsPreorder();
        SortFilter(a[m].candles, Earlier, ClosedBy(tf, t));
        SortFilter(b[m].candles, Earlier, ClosedBy(tf, t));
      } else {
        SameClosed(a[..m], b[..m], t, tf);
      }
    }
  }

  lemma {:induction false} FilterTwice(s: seq<Candle>, tf: Frame, t: int, u: int)
    requires u <= t
    ensures Filter(Filter(s, ClosedBy(tf, t)), ClosedBy(tf, u)) == Filter(s, ClosedBy(tf, u))
  {
    if s != [] {
      FilterTwice(s[1..], tf, t, u);
      FilterCons(s[0], Filter(s[1..], ClosedBy(tf, t)), ClosedBy(tf, u));
    }
  }

  lemma SameClosedBefore(a: seq<CandleSet>, b: seq<CandleSet>, t: int, tf: Frame, u: int)
    requires AgreeUpTo(a, b, t) && u <= t
    ensures ClosedAt(a, tf, u) == ClosedAt(b, tf, u)
  {
    SameClosed(a, b, t, tf);
    FilterTwice(CandlesOf(a, tf), tf, t, u);
    FilterTwice(CandlesOf(b, tf), tf, t, u);
  }

  /** The number of leading candles closed at `t`, in a list in time order. */
  function ClosedCount(candles: seq<Candle>, tf: Frame, t: int): (n: nat)
    ensures n <= |candles|
    ensures forall i :: 0 <= i < n ==> CloseTime(candles[i], tf) <= t
    ensures n < |candles| ==> CloseTime(candles[n], tf) > t
  {
    Leading(candles, ClosedBy(tf, t))
  }

  lemma ClosedIsPrefix(candles: seq<Candle>, tf: Frame, t: int)
    requires Sorted(candles, Earlier)
    ensures Filter(candles, ClosedBy(tf, t)) == candles[..ClosedCount(candles, tf, t)]
    ensures forall i :: 0 <= i < |candles| ==> (CloseTime(candles[i], tf) <= t <==> i < ClosedCount(candles, tf, t))
  {
    var n := ClosedCount(candles, tf, t);
    forall i | n <= i < |candles| ensures CloseTime(candles[i], tf) > t {
      assert i == n || Earlier(candles[n], candles[i]);
    }
    FilterPrefix(candles, ClosedBy(tf, t), n);
  }

  function Until(t: int): Event -> bool {
    (e: Event) => e.ts <= t
  }

  /** A truncated run sees the event of a candle exactly when the candle closes by `t`. */
  lemma CloseEventUntil(c: Candle, tf: Frame, index: nat, from: int, to: int, t: int)
    requires t <= to
    ensures Filter(CloseEvent(c, tf, index, from, to), Until(t)) == CloseEvent(c, tf, index, from, t)
  {
  }

  lemma EventsOfNext(candles: seq<Candle>, k: nat, tf: Frame, n: nat, from: int, to: int)
    requires 0 < n <= k <= |candles|
    ensures EventsOf(candles[..k], tf, n, from, to)
         == EventsOf(candles[..k], tf, n - 1, from, to) + CloseEvent(candles[n - 1], tf, n - 1, from, to)
  {
  }

  lemma NotYetClosed(c: Candle, tf: Frame, index: nat, from: int, t: int)
    requires CloseTime(c, tf) > t
    ensures CloseEvent(c, tf, index, from, t) == []
  {
  }

  lemma {:induction false} EventsUntil(candles: seq<Candle>, tf: Frame, n: nat, from: int, to: int, t: int)
    requires Sorted(candles, Earlier) && n <= |candles| && t <= to
    ensures var k := ClosedCount(candles, tf, t);
      Filter(EventsOf(candles, tf, n, from, to), Until(t))
         == EventsOf(candles[..k], tf, if n < k then n else k, from, t)
  {
    if n > 0 {
      var k := ClosedCount(candles, tf, t);
      ClosedIsPrefix(candles, tf, t);
      EventsUntil(candles, tf, n - 1, from, to, t);
      assert CloseTime(candles[n - 1], tf) <= t <==> n - 1 < k;
      hide Sorted, Filter, ClosedCount, CloseTime, EventsOf, CloseEvent, Until;
      EventsOfNext(candles, |candles|, tf, n, from, to);
      assert candles[..|candles|] == candles;
      FilterConcat(EventsOf(candles, tf, n - 1, from, to), CloseEvent(candles[n - 1], tf, n - 1, from, to), Until(t));
      CloseEventUntil(candles[n - 1], tf, n - 1, from, to, t);
      if n <= k {
        EventsOfNext(candles, k, tf, n, from, t);
      } else {
        NotYetClosed(candles[n - 1], tf, n - 1, from, t);
      }
    }
  }

  lemma {:induction false} SameEvents(a: seq<CandleSet>, b: seq<CandleSet>, order: seq<Frame>, from: int, toA: int,
                                      toB: int, t: int)
    requires AgreeUpTo(a, b, t) && t <= toA && t <= toB
    ensures Filter(AllEvents(a, order, from, toA), Until(t)) == Filter(AllEvents(b, order, from, toB), Until(t))
  {
    if order != [] {
      var tf := order[|order| - 1];
      var ca, cb := CandlesOf(a, tf), CandlesOf(b, tf);
      SameEvents(a, b, order[..|order| - 1], from, toA, toB, t);
      FilterConcat(AllEvents(a, order[..|order| - 1], from, toA), EventsOf(ca, tf, |ca|, from, toA), Until(t));
      FilterConcat(AllEvents(b, order[..|order| - 1], from, toB), EventsOf(cb, tf, |cb|, from, toB), Until(t));
      CandlesAreSorted(a, tf);
      CandlesAreSorted(b, tf);
      EventsUntil(ca, tf, |ca|, from, toA, t);
      EventsUntil(cb, tf, |cb|, from, toB, t);
      SameClosed(a, b, t, tf);
      ClosedIsPrefix(ca, tf, t);
      ClosedIsPrefix(cb, tf, t);
    }
  }

  /** The number of leading events up to `t`. */
  function EventCount(events: seq<Event>, t: int): (n: nat)
    ensures n <= |events|
    ensures forall i :: 0 <= i < n ==> events[i].ts <= t
    ensures n < |events| ==> events[n].ts > t
  {
    Leading(events, Until(t))
  }

  lemma UntilIsPrefix(events: seq<Event>, t: int)
    requires Sorted(events, Before)
    ensures Filter(events, Until(t)) == events[..EventCount(events, t)]
    ensures forall i :: 0 <= i < |events| ==> (events[i].ts <= t <==> i < EventCount(events, t))
  {
    var n := EventCount(events, t);
    forall i | n <= i < |events| ensures events[i].ts > t {
      assert i == n || Before(events[n], events[i]);
    }
    FilterPrefix(events, Until(t), n);
  }

  /** Inputs that agree up to `t` have the same events up to `t`. */
  lemma SameTimeline(a: seq<CandleSet>, b: seq<CandleSet>, from: int, toA: int, toB: int, t: int)
    requires AgreeUpTo(a, b, t) && t <= toA && t <= toB
    ensures var n := EventCount(TimelineOf(a, from, toA), t);
      && n == EventCount(TimelineOf(b, from, toB), t)
      && TimelineOf(a, from, toA)[..n] == TimelineOf(b, from, toB)[..n]
  {
    var ea, eb := AllEvents(a, FrameOrder(a), from, toA), AllEvents(b, FrameOrder(b), from, toB);
    SameFrames(a, b, t);
    SameEvents(a, b, FrameOrder(a), from, toA, toB, t);
    BeforeIsPreorder();
    SortFilter(ea, Before, Until(t));
    SortFilter(eb, Before, Until(t));
    SortSorts(ea, Before);
    SortSorts(eb, Before);
    UntilIsPrefix(TimelineOf(a, from, toA), t);
    UntilIsPrefix(TimelineOf(b, from, toB), t);
  }

  // ---- what can be seen at an event ----

  /** The candles closed at an event, by timeframe. */
  datatype Known = Known(min1: seq<Candle>, min5: seq<Candle>, min15: seq<Candle>, hour1: seq<Candle>,
                         hour4: seq<Candle>)

  function Of(k: Known, tf: Frame): seq<Candle> {
    match tf case Min1 => k.min1 case Min5 => k.min5 case Min15 => k.min15 case Hour1 => k.hour1 case Hour4 => k.hour4
  }

  /** All the data that an event may look at: its own candles so far, and what is closed by then. */
  datatype Sight = Sight(own: seq<Candle>, known: Known)

  function SightAt(sets: seq<CandleSet>, e: Event): Sight
    requires e.index < |CandlesOf(sets, e.tf)|
  {
    Sight(CandlesOf(sets, e.tf)[..e.index + 1],
          Known(ClosedAt(sets, Min1, e.ts), ClosedAt(sets, Min5, e.ts), ClosedAt(sets, Min15, e.ts),
                ClosedAt(sets, Hour1, e.ts), ClosedAt(sets, Hour4, e.ts)))
  }

  /** At an event up to `t`, inputs that agree up to `t` show the same. */
  lemma SameSight(a: seq<CandleSet>, b: seq<CandleSet>, from: int, toA: int, toB: int, t: int, e: Event)
    requires AgreeUpTo(a, b, t) && e.ts <= t && IsEvent(a, from, toA, e) && IsEvent(b, from, toB, e)
    ensures SightAt(a, e) == SightAt(b, e)
  {
    var ca, cb := CandlesOf(a, e.tf), CandlesOf(b, e.tf);
    CandlesAreSorted(a, e.tf);
    CandlesAreSorted(b, e.tf);
    ClosedIsPrefix(ca, e.tf, t);
    ClosedIsPrefix(cb, e.tf, t);
    SameClosed(a, b, t, e.tf);
    assert ca[..e.index + 1] == ca[..ClosedCount(ca, e.tf, t)][..e.index + 1];
    assert cb[..e.index + 1] == cb[..ClosedCount(cb, e.tf, t)][..e.index + 1];
    SameClosedBefore(a, b, t, Min1, e.ts);
    SameClosedBefore(a, b, t, Min5, e.ts);
    SameClosedBefore(a, b, t, Min15, e.ts);
    SameClosedBefore(a, b, t, Hour1, e.ts);
    SameClosedBefore(a, b, t, Hour4, e.ts);
  }
}
