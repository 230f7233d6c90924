/** What the search keeps of every candidate, told from the candidates and the stored rows. */
module TrialAudit {
  import opened Prelude
  import opened Sorting
  import opened TrialRetention

  /** A row of the run. */
  predicate Mine(scope: Scope, t: Trial) {
    t.experimentId == scope.experimentId || t.optimizationId == Some(scope.optimizationId)
  }

  /** The number of rows the run may keep: what is configured, but at least 25. */
  function Limit(scope: Scope): nat { if scope.maxTrials <= 25 then 25 else scope.maxTrials }

  ghost function MineIds(rows: seq<Trial>, scope: Scope): set<int> {
    set t | t in rows && Mine(scope, t) :: t.id
  }

  /** The time of a row; an unreadable one counts as the beginning of time. */
  function When(t: Trial): int { match t.stamp case None => 0 case Some(ms) => ms }

  predicate IsPinned(id: int, best: Option<int>, candidate: Option<int>) { best == Some(id) || candidate == Some(id) }

  /** Row `i` goes after row `j`: it is newer, or as new and stored in front of it. */
  predicate Outlasts(rows: seq<Trial>, i: nat, j: nat)
    requires i < |rows| && j < |rows|
  {
    When(rows[i]) > When(rows[j]) || (When(rows[i]) == When(rows[j]) && i < j)
  }

  /** The ids that survive: as many as allowed, the pinned ones, and of the run's others those that outlast the rest. */
  ghost predicate Survive(kept: set<int>, rows: seq<Trial>, best: Option<int>, candidate: Option<int>, scope: Scope) {
    && |kept| == Limit(scope)
    && (forall id :: IsPinned(id, best, candidate) ==> id in kept)
    && (forall id :: id in kept ==> IsPinned(id, best, candidate) || id in MineIds(rows, scope))
    && forall i, j :: (0 <= i < |rows| && 0 <= j < |rows| && Mine(scope, rows[i]) && Mine(scope, rows[j])
                       && rows[i].id in kept && !IsPinned(rows[i].id, best, candidate) && rows[j].id !in kept
                       ==> Outlasts(rows, i, j))
  }

  function Stays(scope: Scope, kept: set<int>): Trial -> bool { (t: Trial) => !Mine(scope, t) || t.id in kept }

  function IsIn(kept: set<int>): int -> bool { (id: int) => id in kept }

  /** Beyond the limit, rows of the run and listed ids survive or go together; the rows of other runs stay. */
  ghost predicate CompactionTold(k: Kept, m: Kept, scope: Scope) {
    && m.bestId == k.bestId && m.objective == k.objective && m.candidateId == k.candidateId
    && if |MineIds(k.rows, scope)| <= Limit(scope) then m == k
       else exists kept: set<int> :: (
         && Survive(kept, k.rows, k.bestId, k.candidateId, scope)
         && m.rows == Filter(k.rows, Stays(scope, kept))
         && m.listed == Filter(k.listed, IsIn(kept)) && m.ids == Filter(k.ids, IsIn(kept)))
  }

  /** A row takes the place of the one with its id; a new one goes to the front. */
  ghost predicate PlacedIn(all: seq<Trial>, rows: seq<Trial>, row: Trial) {
    if forall t :: t in rows ==> t.id != row.id then all == [row] + rows
    else |all| == |rows| && forall i :: 0 <= i < |rows| ==> all[i] == if rows[i].id == row.id then row else rows[i]
  }

  /** A row is placed, its id goes to the end of the lists that lack it, and the store is compacted. */
  ghost predicate StoreTold(k: Kept, m: Kept, row: Trial, scope: Scope) {
    exists all: seq<Trial> :: PlacedIn(all, k.rows, row) && CompactionTold(Listing(k, all, row.id), m, scope)
  }

  function Listing(k: Kept, all: seq<Trial>, id: int): Kept {
    k.(rows := all, listed := if id in k.listed then k.listed else k.listed + [id],
       ids := if id in k.ids then k.ids else k.ids + [id])
  }

  function RowOf(e: Evaluation, scope: Scope, full: bool): Trial {
    Trial(e.id, scope.experimentId, Some(scope.optimizationId), e.status, e.objective, Some(e.finishedAt), full)
  }

  /**
   A completed candidate that beats the best so far becomes the best and the
   experiment's candidate, and is stored in full; of the others every
   `sampleEvery`-th and the last are stored without their bulky parts.
   */
  ghost predicate CandidateTold(k: Kept, m: Kept, e: Evaluation, number: nat, last: bool, sampleEvery: nat,
                                scope: Scope)
    requires sampleEvery >= 1
  {
    if e.status == Completed && e.objective.Some? && (k.objective == None || k.objective.value < e.objective.value) then
      StoreTold(k.(bestId := Some(e.id), objective := e.objective, candidateId := Some(e.id)), m,
                RowOf(e, scope, true), scope)
    else if (number + 1) % sampleEvery == 0 || last then StoreTold(k, m, RowOf(e, scope, false), scope)
    else m == k
  }

  predicate Completes(e: Evaluation) { e.status == Completed && e.objective.Some? }

  /** Completed, and beaten by no other; those before it fall short of it. */
  ghost predicate IsFirstBest(i: nat, evaluations: seq<Evaluation>) {
    && i < |evaluations| && Completes(evaluations[i])
    && (forall j :: 0 <= j < |evaluations| && Completes(evaluations[j]) ==>
          evaluations[j].objective.value <= evaluations[i].objective.value)
    && (forall j :: 0 <= j < i && Completes(evaluations[j]) ==>
          evaluations[j].objective.value < evaluations[i].objective.value)
  }

  /** The best of a search is its first completed candidate that no other beats. */
  ghost predicate BestTold(k: Kept, evaluations: seq<Evaluation>) {
    match k.objective
    case None => k.bestId == None && forall i :: 0 <= i < |evaluations| ==> !Completes(evaluations[i])
    case Some(best) => exists i: nat ::
      IsFirstBest(i, evaluations) && evaluations[i].objective == Some(best) && k.bestId == Some(evaluations[i].id)
  }

  // ---- the proof ----

  lemma MineCount(rows: seq<Trial>, scope: Scope)
    requires DistinctIds(rows)
    ensures |MineIds(rows, scope)| == |Filter(rows, RelatedTo(scope))|
  {
    var mine := Filter(rows, RelatedTo(scope));
    FilterMember(rows, RelatedTo(scope));
    FilterKeepsDistinct(rows, RelatedTo(scope));
    IdCount(mine);
    assert MineIds(rows, scope) == set t | t in mine :: t.id;
  }

  lemma {:induction false} IdCount(rows: seq<Trial>)
    requires DistinctIds(rows)
    ensures |set t | t in rows :: t.id| == |rows|
  {
    if rows != [] {
      var n := |rows| - 1;
      IdCount(rows[..n]);
      assert rows == rows[..n] + [rows[n]];
      var all, front := set t | t in rows :: t.id, set t | t in rows[..n] :: t.id;
      assert all == front + {rows[n].id};
      assert rows[n].id !in front;
    } else {
      assert (set t | t in rows :: t.id) == {};
    }
  }

  ghost function Ids(rows: seq<Trial>): set<int> { set t | t in rows :: t.id }

  /** With enough ids to choose from, the cap is used up. */
  lemma {:induction false} AddNewestFills(ids: set<int>, newest: seq<Trial>, cap: nat)
    requires |ids| <= cap <= |ids + Ids(newest)|
    ensures |AddNewest(ids, newest, cap)| == cap
    decreases |newest|
  {
    if newest == [] {
      assert ids + Ids(newest) == ids;
    } else if |ids| < cap {
      assert newest == [newest[0]] + newest[1..];
      assert ids + {newest[0].id} + Ids(newest[1..]) == ids + Ids(newest);
      AddNewestFills(ids + {newest[0].id}, newest[1..], cap);
    }
  }

  lemma SplitTwice(s: seq<Trial>, i: nat, j: nat)
    requires i < j < |s|
    ensures s == s[..i] + ([s[i]] + (s[i + 1..j] + ([s[j]] + s[j + 1..])))
  {
    assert s[i + 1..] == s[i + 1..j] + s[j..];
    assert s[j..] == [s[j]] + s[j + 1..];
  }

  /** Filtering keeps the order of what it keeps. */
  lemma FilterOrder(s: seq<Trial>, keep: Trial -> bool, i: nat, j: nat) returns (p: nat, q: nat)
    requires i < j < |s| && keep(s[i]) && keep(s[j])
    ensures p < q < |Filter(s, keep)| && Filter(s, keep)[p] == s[i] && Filter(s, keep)[q] == s[j]
  {
    hide Filter;
    var first, between, last := s[..i], s[i + 1..j], s[j + 1..];
    p := |Filter(first, keep)|;
    q := p + 1 + |Filter(between, keep)|;
    SplitTwice(s, i, j);
    FilterConcat(first, [s[i]] + (between + ([s[j]] + last)), keep);
    FilterCons(s[i], between + ([s[j]] + last), keep);
    FilterConcat(between, [s[j]] + last, keep);
    FilterCons(s[j], last, keep);
  }

  lemma SamePlace(rows: seq<Trial>, a: nat, b: nat)
    requires DistinctIds(rows) && a < |rows| && b < |rows| && rows[a] == rows[b]
    ensures a == b
  {
  }

  /** Rows with the same time keep their order in the list of the newest. */
  lemma SameTimeOrder(rows: seq<Trial>, scope: Scope, a: nat, b: nat, i: nat, j: nat)
    requires DistinctIds(rows) && i < |rows| && j < |rows| && Related(scope, rows[i]) && Related(scope, rows[j])
    requires a < b < |NewestFirst(rows, scope)| && Stamp(rows[i]) == Stamp(rows[j])
    requires NewestFirst(rows, scope)[a] == rows[i] && NewestFirst(rows, scope)[b] == rows[j]
    ensures i < j
  {
    var at := Stamp(rows[i]);
    var same := (t: Trial) => Stamp(t) == at;
    var mine := Filter(rows, RelatedTo(scope));
    var tied := Filter(mine, same);
    NewerIsPreorder();
    SortFilter(mine, Newer, same);
    FilterMember(mine, same);
    forall x, y | 0 <= x < y < |tied| ensures Newer(tied[x], tied[y]) {
      assert tied[x] in tied && tied[y] in tied;
    }
    SortIdentity(tied, Newer);
    FilterKeepsDistinct(rows, RelatedTo(scope));
    FilterKeepsDistinct(mine, same);
    var p, q := FilterOrder(NewestFirst(rows, scope), same, a, b);
    hide Filter, StableSort;
    if j < i {
      var p1, q1 := FilterOrder(rows, RelatedTo(scope), j, i);
      var p2, q2 := FilterOrder(mine, same, p1, q1);
      SamePlace(tied, p, q2);
      SamePlace(tied, q, p2);
    } else if j == i {
      SamePlace(tied, p, q);
    }
  }

  lemma NewestOutlast(rows: seq<Trial>, scope: Scope, a: nat, b: nat, i: nat, j: nat)
    requires DistinctIds(rows) && i < |rows| && j < |rows| && Related(scope, rows[i]) && Related(scope, rows[j])
    requires a < b < |NewestFirst(rows, scope)|
    requires NewestFirst(rows, scope)[a] == rows[i] && NewestFirst(rows, scope)[b] == rows[j]
    ensures Outlasts(rows, i, j)
  {
    NewerIsPreorder();
    SortSorts(Filter(rows, RelatedTo(scope)), Newer);
    assert Newer(NewestFirst(rows, scope)[a], NewestFirst(rows, scope)[b]);
    if Stamp(rows[i]) == Stamp(rows[j]) {
      SameTimeOrder(rows, scope, a, b, i, j);
    }
    hide NewestFirst;
  }

  lemma NewestMember(rows: seq<Trial>, scope: Scope, t: Trial)
    ensures t in NewestFirst(rows, scope) <==> t in rows && Related(scope, t)
  {
    FilterMember(rows, RelatedTo(scope));
    SortMember(Filter(rows, RelatedTo(scope)), Newer, t);
  }

  lemma KeptOutlast(rows: seq<Trial>, best: Option<int>, candidate: Option<int>, scope: Scope, m: nat, i: nat, j: nat)
    requires DistinctIds(rows) && i < |rows| && j < |rows| && Related(scope, rows[i]) && Related(scope, rows[j])
    requires m <= |NewestFirst(rows, scope)|
    requires IdAmong(NewestFirst(rows, scope), m, rows[i].id) && !IdAmong(NewestFirst(rows, scope), m, rows[j].id)
    ensures Outlasts(rows, i, j)
  {
    var newest := NewestFirst(rows, scope);
    hide NewestFirst, Related, Outlasts;
    var a :| 0 <= a < m && newest[a].id == rows[i].id;
    NewestMember(rows, scope, newest[a]);
    SameRow(rows, newest[a], rows[i]);
    NewestMember(rows, scope, rows[j]);
    var b :| 0 <= b < |newest| && newest[b] == rows[j];
    AmongAt(newest, m, b);
    NewestOutlast(rows, scope, a, b, i, j);
  }

  lemma PinnedAre(best: Option<int>, candidate: Option<int>, id: int)
    ensures id in Pinned(best, candidate) <==> IsPinned(id, best, candidate)
  {
  }

  lemma KeptSurvive(rows: seq<Trial>, best: Option<int>, candidate: Option<int>, scope: Scope)
    requires DistinctIds(rows) && !Fits(rows, scope)
    ensures Survive(KeptIds(rows, best, candidate, scope), rows, best, candidate, scope)
  {
    var kept, newest := KeptIds(rows, best, candidate, scope), NewestFirst(rows, scope);
    PinnedIsSmall(best, candidate);
    var m := AddNewestIs(Pinned(best, candidate), newest, Cap(scope));
    KeptFill(rows, best, candidate, scope);
    hide KeptIds, NewestFirst, AddNewest, Fits, Outlasts, Pinned;
    forall id ensures id in Pinned(best, candidate) <==> IsPinned(id, best, candidate) {
      PinnedAre(best, candidate, id);
    }
    forall id | id in kept ensures IsPinned(id, best, candidate) || id in MineIds(rows, scope) {
      if !IsPinned(id, best, candidate) {
        var a :| 0 <= a < m && newest[a].id == id;
        NewestMember(rows, scope, newest[a]);
      }
    }
    forall i, j | 0 <= i < |rows| && 0 <= j < |rows| && Mine(scope, rows[i]) && Mine(scope, rows[j])
                  && rows[i].id in kept && !IsPinned(rows[i].id, best, candidate) && rows[j].id !in kept
      ensures Outlasts(rows, i, j)
    {
      KeptOutlast(rows, best, candidate, scope, m, i, j);
    }
  }

  lemma KeptFill(rows: seq<Trial>, best: Option<int>, candidate: Option<int>, scope: Scope)
    requires DistinctIds(rows) && !Fits(rows, scope)
    ensures |KeptIds(rows, best, candidate, scope)| == Limit(scope)
  {
    var newest, pinned := NewestFirst(rows, scope), Pinned(best, candidate);
    PinnedIsSmall(best, candidate);
    MineCount(rows, scope);
    forall t ensures t in newest <==> t in rows && Mine(scope, t) {
      NewestMember(rows, scope, t);
    }
    assert Ids(newest) == MineIds(rows, scope);
    SubsetSize(Ids(newest), pinned + Ids(newest));
    AddNewestFills(pinned, newest, Cap(scope));
    hide NewestFirst, AddNewest, Pinned, MineIds;
  }

  lemma {:induction false} SameFilter<T>(s: seq<T>, f: T -> bool, g: T -> bool)
    requires forall x :: x in s ==> f(x) == g(x)
    ensures Filter(s, f) == Filter(s, g)
  {
    if s != [] {
      assert s[0] in s;
      SameFilter(s[1..], f, g);
    }
  }

  lemma CompactionIsTold(k: Kept, scope: Scope)
    requires DistinctIds(k.rows)
    ensures CompactionTold(k, k.(rows := CompactRows(k.rows, k.bestId, k.candidateId, scope),
                                 listed := CompactIds(k.listed, k.rows, k.bestId, k.candidateId, scope),
                                 ids := CompactIds(k.ids, k.rows, k.bestId, k.candidateId, scope)), scope)
  {
    var kept := KeptIds(k.rows, k.bestId, k.candidateId, scope);
    MineCount(k.rows, scope);
    if !Fits(k.rows, scope) {
      KeptSurvive(k.rows, k.bestId, k.candidateId, scope);
      SameFilter(k.rows, KeepRow(scope, kept), Stays(scope, kept));
      SameFilter(k.listed, KeepId(kept), IsIn(kept));
      SameFilter(k.ids, KeepId(kept), IsIn(kept));
      hide Survive, KeptIds, Filter, Fits;
      assert Survive(kept, k.rows, k.bestId, k.candidateId, scope);
    }
    hide Filter;
  }

  lemma PutPlaces(rows: seq<Trial>, row: Trial)
    requires DistinctIds(rows)
    ensures PlacedIn(Put(rows, row), rows, row) && DistinctIds(Put(rows, row))
    ensures forall t :: t in Put(rows, row) ==> t == row || t in rows
  {
    var found := FindId(rows, row.id, 0);
    FoundIsStored(rows, row.id);
    match found
    case None => DistinctFront(row, rows);
    case Some(i) =>
      var all := rows[i := row];
      assert rows[i] in rows;
      forall t | t in all ensures t == row || t in rows {
        var j :| 0 <= j < |all| && all[j] == t;
      }
  }

  lemma StoringIsTold(k: Kept, row: Trial, scope: Scope)
    requires DistinctIds(k.rows)
    ensures StoreTold(k, Storing(k, row, scope), row, scope)
    ensures DistinctIds(Storing(k, row, scope).rows)
    ensures forall t :: t in Storing(k, row, scope).rows ==> t == row || t in k.rows
  {
    PutPlaces(k.rows, row);
    var all := Listing(k, Put(k.rows, row), row.id);
    CompactionIsTold(all, scope);
    CompactFits(all.rows, k.bestId, k.candidateId, scope);
    CompactOnlyDrops(all.rows, k.bestId, k.candidateId, scope);
    hide CompactionTold, CompactRows, CompactIds, Put, Fits, PlacedIn;
    assert PlacedIn(all.rows, k.rows, row) && CompactionTold(all, Storing(k, row, scope), scope);
  }

  lemma CandidateIsTold(k: Kept, e: Evaluation, number: nat, last: bool, sampleEvery: nat, scope: Scope)
    requires sampleEvery >= 1 && DistinctIds(k.rows) && forall t :: t in k.rows ==> t.id != e.id
    ensures var m := Recorded(k, e, number, last, sampleEvery, scope);
      && CandidateTold(k, m, e, number, last, sampleEvery, scope)
      && DistinctIds(m.rows) && forall t :: t in m.rows ==> t.id == e.id || t in k.rows
  {
    var better := k.(bestId := Some(e.id), objective := e.objective, candidateId := Some(e.id));
    StoringIsTold(better, RowOf(e, scope, true), scope);
    StoringIsTold(k, RowOf(e, scope, false), scope);
    hide StoreTold, Storing, DistinctIds;
  }

  /** No row has the id of a candidate from the `n`-th on. */
  ghost predicate Unseen(rows: seq<Trial>, evaluations: seq<Evaluation>, n: nat) {
    forall t, i :: t in rows && n <= i < |evaluations| ==> t.id != evaluations[i].id
  }

  ghost predicate OwnIds(evaluations: seq<Evaluation>) {
    forall i, j :: 0 <= i < j < |evaluations| ==> evaluations[i].id != evaluations[j].id
  }

  /** Fresh candidates: no row has the id of one, and no two share an id. */
  ghost predicate FreshIds(rows: seq<Trial>, evaluations: seq<Evaluation>) {
    Unseen(rows, evaluations, 0) && OwnIds(evaluations)
  }

  lemma StillUnseen(rows: seq<Trial>, more: seq<Trial>, evaluations: seq<Evaluation>, n: nat)
    requires n < |evaluations| && Unseen(rows, evaluations, n) && OwnIds(evaluations)
    requires forall t :: t in more ==> t.id == evaluations[n].id || t in rows
    ensures Unseen(more, evaluations, n + 1)
  {
  }

  lemma OneMore(start: Kept, evaluations: seq<Evaluation>, n: nat, sampleEvery: nat, scope: Scope)
    requires n < |evaluations| && sampleEvery >= 1
    ensures RecordedAll(start, evaluations, n + 1, sampleEvery, scope)
         == Recorded(RecordedAll(start, evaluations, n, sampleEvery, scope), evaluations[n], n, n + 1 == |evaluations|,
                     sampleEvery, scope)
  {
    hide Recorded;
  }

  lemma NextIsFresh(k: Kept, evaluations: seq<Evaluation>, n: nat)
    requires n < |evaluations| && Unseen(k.rows, evaluations, n)
    ensures forall t :: t in k.rows ==> t.id != evaluations[n].id
  {
  }

  lemma RowsStep(k: Kept, evaluations: seq<Evaluation>, n: nat, sampleEvery: nat, scope: Scope)
    requires n < |evaluations| && sampleEvery >= 1
    requires DistinctIds(k.rows) && Unseen(k.rows, evaluations, n) && OwnIds(evaluations)
    ensures var m := Recorded(k, evaluations[n], n, n + 1 == |evaluations|, sampleEvery, scope);
      DistinctIds(m.rows) && Unseen(m.rows, evaluations, n + 1)
  {
    hide DistinctIds, Recorded, Unseen, CandidateTold, OwnIds;
    var last := n + 1 == |evaluations|;
    NextIsFresh(k, evaluations, n);
    CandidateIsTold(k, evaluations[n], n, last, sampleEvery, scope);
    StillUnseen(k.rows, Recorded(k, evaluations[n], n, last, sampleEvery, scope).rows, evaluations, n);
  }

  lemma {:induction false} RowsSoFar(start: Kept, evaluations: seq<Evaluation>, n: nat, sampleEvery: nat, scope: Scope)
    requires n <= |evaluations| && sampleEvery >= 1 && DistinctIds(start.rows) && FreshIds(start.rows, evaluations)
    ensures DistinctIds(RecordedAll(start, evaluations, n, sampleEvery, scope).rows)
    ensures Unseen(RecordedAll(start, evaluations, n, sampleEvery, scope).rows, evaluations, n)
  {
    hide DistinctIds, Recorded, Unseen, OwnIds;
    if n > 0 {
      RowsSoFar(start, evaluations, n - 1, sampleEvery, scope);
      RowsStep(RecordedAll(start, evaluations, n - 1, sampleEvery, scope), evaluations, n - 1, sampleEvery, scope);
    }
  }

  lemma BestStep(k: Kept, m: Kept, before: seq<Evaluation>, e: Evaluation)
    requires BestTold(k, before)
    requires if Improves(k.objective, e) then m.objective == e.objective && m.bestId == Some(e.id)
             else m.objective == k.objective && m.bestId == k.bestId
    ensures BestTold(m, before + [e])
  {
    var now := before + [e];
    if Improves(k.objective, e) {
      if k.objective.Some? {
        var i: nat :| IsFirstBest(i, before) && before[i].objective == k.objective && k.bestId == Some(before[i].id);
      }
      assert IsFirstBest(|before|, now);
    } else if k.objective.Some? {
      var i: nat :| IsFirstBest(i, before) && before[i].objective == k.objective && k.bestId == Some(before[i].id);
      assert IsFirstBest(i, now);
    }
  }

  lemma {:induction false} BestSoFar(start: Kept, evaluations: seq<Evaluation>, n: nat, sampleEvery: nat, scope: Scope)
    requires n <= |evaluations| && sampleEvery >= 1 && start.objective == None && start.bestId == None
    ensures BestTold(RecordedAll(start, evaluations, n, sampleEvery, scope), evaluations[..n])
  {
    hide BestTold, Recorded, Improves;
    if n == 0 {
      BestStarts(start);
      assert evaluations[..0] == [];
    } else {
      BestSoFar(start, evaluations, n - 1, sampleEvery, scope);
      var k, e := RecordedAll(start, evaluations, n - 1, sampleEvery, scope), evaluations[n - 1];
      assert evaluations[..n] == evaluations[..n - 1] + [e];
      RecordedBest(k, e, n - 1, n == |evaluations|, sampleEvery, scope);
      BestStep(k, Recorded(k, e, n - 1, n == |evaluations|, sampleEvery, scope), evaluations[..n - 1], e);
    }
  }

  lemma BestStarts(start: Kept)
    requires start.objective == None && start.bestId == None
    ensures BestTold(start, [])
  {
  }

  lemma RecordedBest(k: Kept, e: Evaluation, number: nat, last: bool, sampleEvery: nat, scope: Scope)
    requires sampleEvery >= 1
    ensures var m := Recorded(k, e, number, last, sampleEvery, scope);
      if Improves(k.objective, e) then m.objective == e.objective && m.bestId == Some(e.id)
      else m.objective == k.objective && m.bestId == k.bestId
  {
    hide Put, CompactRows, CompactIds, AddId, Improves;
  }

  /** Every candidate of a search is kept as told, and the best is the first that no other beats. */
  lemma SearchIsTold(start: Kept, evaluations: seq<Evaluation>, n: nat, sampleEvery: nat, scope: Scope)
    requires n < |evaluations| && sampleEvery >= 1 && DistinctIds(start.rows) && FreshIds(start.rows, evaluations)
    ensures CandidateTold(RecordedAll(start, evaluations, n, sampleEvery, scope),
                          RecordedAll(start, evaluations, n + 1, sampleEvery, scope), evaluations[n], n,
                          n + 1 == |evaluations|, sampleEvery, scope)
    ensures start.objective == None && start.bestId == None ==>
      BestTold(RecordedAll(start, evaluations, n + 1, sampleEvery, scope), evaluations[..n + 1])
  {
    hide CandidateTold, BestTold, Recorded, RecordedAll, DistinctIds, FreshIds, Unseen;
    OneMore(start, evaluations, n, sampleEvery, scope);
    RowsSoFar(start, evaluations, n, sampleEvery, scope);
    NextIsFresh(RecordedAll(start, evaluations, n, sampleEvery, scope), evaluations, n);
    CandidateIsTold(RecordedAll(start, evaluations, n, sampleEvery, scope), evaluations[n], n, n + 1 == |evaluations|,
                    sampleEvery, scope);
    if start.objective == None && start.bestId == None {
      BestSoFar(start, evaluations, n + 1, sampleEvery, scope);
    }
  }
}
