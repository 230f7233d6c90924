/** The timeline told from the candle sets: which closes it holds, in which order, and what an event sees. */
module TimelineAudit {
  import opened Prelude
  import opened Sorting
  import opened Candles
  import opened Timeline

  /** The names of the timeframes, as the feeds write them. */
  function Name(tf: Frame): string {
    match tf case Min1 => "1m" case Min5 => "5m" case Min15 => "15m" case Hour1 => "1h" case Hour4 => "4h"
  }

  /** The order of names, character by character. */
  predicate ComesBefore(a: string, b: string) {
    b != [] && (a == [] || a[0] < b[0] || (a[0] == b[0] && ComesBefore(a[1..], b[1..])))
  }

  /** How long a candle of a timeframe lasts; the one-minute feed has no entry and counts as a quarter of an hour. */
  predicate Lasts(tf: Frame, ms: int) {
    match tf
    case Min5 => ms == 300_000
    case Min15 => ms == 900_000
    case Hour1 => ms == 3_600_000
    case Hour4 => ms == 14_400_000
    case Min1 => ms == 900_000
  }

  /** The set that counts for a timeframe: the last one the input brings. */
  ghost predicate Latest(sets: seq<CandleSet>, tf: Frame, k: nat) {
    && k < |sets| && sets[k].tf == tf
    && forall j :: k < j < |sets| ==> sets[j].tf != tf
  }

  /** The candles of a timeframe are those of its last set in time order; without a set there are none. */
  ghost predicate CandlesTold(sets: seq<CandleSet>, tf: Frame, candles: seq<Candle>) {
    && (forall k: nat :: Latest(sets, tf, k) ==> multiset(candles) == multiset(sets[k].candles))
    && ((forall k :: 0 <= k < |sets| ==> sets[k].tf != tf) ==> candles == [])
    && forall i, j :: 0 <= i < j < |candles| ==> candles[i].ts <= candles[j].ts
  }

  lemma CandlesInOrder(sets: seq<CandleSet>, tf: Frame, i: nat, j: nat)
    requires i < j < |CandlesOf(sets, tf)|
    ensures CandlesOf(sets, tf)[i].ts <= CandlesOf(sets, tf)[j].ts
  {
    CandlesAreSorted(sets, tf);
    hide CandlesOf;
    assert Earlier(CandlesOf(sets, tf)[i], CandlesOf(sets, tf)[j]);
  }

  /** A set of another timeframe at the end changes nothing. */
  lemma LatestBefore(sets: seq<CandleSet>, tf: Frame, k: nat)
    requires sets != [] && sets[|sets| - 1].tf != tf && Latest(sets, tf, k)
    ensures Latest(sets[..|sets| - 1], tf, k) && sets[..|sets| - 1][k] == sets[k]
  {
  }

  lemma {:induction false} CandlesAreFrom(sets: seq<CandleSet>, tf: Frame, k: nat)
    requires Latest(sets, tf, k)
    ensures multiset(CandlesOf(sets, tf)) == multiset(sets[k].candles)
  {
    var m := |sets| - 1;
    if sets[m].tf == tf {
      SortPermutes(sets[m].candles, Earlier);
      hide StableSort, Earlier;
    } else {
      LatestBefore(sets, tf, k);
      CandlesAreFrom(sets[..m], tf, k);
      hide StableSort, Latest;
    }
  }

  lemma {:induction false} NoCandles(sets: seq<CandleSet>, tf: Frame)
    requires forall k :: 0 <= k < |sets| ==> sets[k].tf != tf
    ensures CandlesOf(sets, tf) == []
  {
    if sets != [] {
      NoCandles(sets[..|sets| - 1], tf);
    }
  }

  lemma CandlesAreTold(sets: seq<CandleSet>, tf: Frame)
    ensures CandlesTold(sets, tf, CandlesOf(sets, tf))
  {
    hide CandlesOf, Latest;
    forall k: nat | Latest(sets, tf, k)
      ensures k < |sets| && multiset(CandlesOf(sets, tf)) == multiset(sets[k].candles)
    {
      LatestInRange(sets, tf, k);
      CandlesAreFrom(sets, tf, k);
    }
    if forall k :: 0 <= k < |sets| ==> sets[k].tf != tf {
      NoCandles(sets, tf);
    }
    forall i, j | 0 <= i < j < |CandlesOf(sets, tf)| ensures CandlesOf(sets, tf)[i].ts <= CandlesOf(sets, tf)[j].ts {
      CandlesInOrder(sets, tf, i, j);
    }
  }

  lemma LatestInRange(sets: seq<CandleSet>, tf: Frame, k: nat)
    requires Latest(sets, tf, k)
    ensures k < |sets|
  {
  }

  /** The close of the candle at `e.index` of its timeframe, if it falls within the run. */
  ghost predicate Marks(sets: seq<CandleSet>, from: int, to: int, e: Event) {
    && e.index < |CandlesOf(sets, e.tf)|
    && Lasts(e.tf, e.ts - CandlesOf(sets, e.tf)[e.index].ts)
    && e.price == CandlesOf(sets, e.tf)[e.index].close
    && from <= e.ts <= to
  }

  /** Events by time, and at the same time by the names of their timeframes. */
  ghost predicate InOrder(events: seq<Event>) {
    forall i, j :: 0 <= i < j < |events| ==>
      events[i].ts < events[j].ts
      || (events[i].ts == events[j].ts && !ComesBefore(Name(events[j].tf), Name(events[i].tf)))
  }

  lemma RanksAreNames(a: Frame, b: Frame)
    ensures NameRank(a) <= NameRank(b) <==> !ComesBefore(Name(b), Name(a))
  {
    assert "15m"[1..] == "5m" && "1h"[1..] == "h" && "1m"[1..] == "m" && "4h"[1..] == "h" && "5m"[1..] == "m";
    assert "h"[1..] == [] && "m"[1..] == [];
  }

  /** The timeline holds the candle closes that fall within the run, and nothing else, in order. */
  lemma TimelineIsTold(sets: seq<CandleSet>, from: int, to: int)
    ensures forall e :: e in TimelineOf(sets, from, to) <==> Marks(sets, from, to, e)
    ensures InOrder(TimelineOf(sets, from, to))
  {
    hide TimelineOf, CandlesOf;
    var events := TimelineOf(sets, from, to);
    forall e ensures e in events <==> Marks(sets, from, to, e) {
      TimelineIsExact(sets, from, to, e);
    }
    forall i, j | 0 <= i < j < |events|
      ensures events[i].ts < events[j].ts
              || (events[i].ts == events[j].ts && !ComesBefore(Name(events[j].tf), Name(events[i].tf)))
    {
      TimelineIsExact(sets, from, to, events[i]);
      assert Before(events[i], events[j]);
      RanksAreNames(events[i].tf, events[j].tf);
    }
  }

  /** No event sees a candle that closes later: of every timeframe it knows the leading candles that are closed. */
  lemma SightIsTold(sets: seq<CandleSet>, e: Event, f: Frame, c: Candle)
    requires e.index < |CandlesOf(sets, e.tf)|
    ensures SightAt(sets, e).own == CandlesOf(sets, e.tf)[..e.index + 1]
    ensures Of(SightAt(sets, e).known, f) <= CandlesOf(sets, f)
    ensures c in Of(SightAt(sets, e).known, f)
       <==> c in CandlesOf(sets, f) && exists ms :: Lasts(f, ms) && c.ts + ms <= e.ts
  {
    CandlesAreSorted(sets, f);
    ClosedIsPrefix(CandlesOf(sets, f), f, e.ts);
    FilterMember(CandlesOf(sets, f), ClosedBy(f, e.ts));
    assert Lasts(f, FrameMs(f));
    hide CandlesOf;
  }
}
