/** The optimizer's bounded store of trials: the best trial found so far is never lost. */
module TrialRetention {
  import opened Prelude
  import opened Sorting

  datatype Status = Queued | Running | Completed | Failed | Pruned | Skipped

  /** A stored trial; `full` says that its bulky parts are kept, `stamp` is its latest readable time. */
  datatype Trial = Trial(
    id: int,
    experimentId: int,
    optimizationId: Option<int>,
    status: Status,
    objective: Option<real>,
    stamp: Option<int>,
    full: bool)

  /** The run that owns the trials, and the configured number of trials it may keep. */
  datatype Scope = Scope(experimentId: int, optimizationId: int, maxTrials: int)

  function Cap(scope: Scope): (cap: nat)
    ensures cap >= 25
  {
    if scope.maxTrials > 25 then scope.maxTrials else 25
  }

  predicate Related(scope: Scope, t: Trial) {
    t.experimentId == scope.experimentId || t.optimizationId == Some(scope.optimizationId)
  }

  function RelatedTo(scope: Scope): Trial -> bool { (t: Trial) => Related(scope, t) }

  function UnrelatedTo(scope: Scope): Trial -> bool { (t: Trial) => !Related(scope, t) }

  function Stamp(t: Trial): int {
    match t.stamp case None => 0 case Some(ms) => ms
  }

  predicate Newer(a: Trial, b: Trial) { Stamp(a) >= Stamp(b) }

  // ---- compaction ----

  function Pinned(best: Option<int>, candidate: Option<int>): set<int> {
    (if best.Some? then {best.value} else {}) + (if candidate.Some? then {candidate.value} else {})
  }

  /** Adds ids, newest first, until the cap is reached. */
  function AddNewest(ids: set<int>, newest: seq<Trial>, cap: nat): set<int>
    decreases |newest|
  {
    if newest == [] || |ids| >= cap then ids else AddNewest(ids + {newest[0].id}, newest[1..], cap)
  }

  function NewestFirst(rows: seq<Trial>, scope: Scope): seq<Trial> {
    StableSort(Filter(rows, RelatedTo(scope)), Newer)
  }

  function KeptIds(rows: seq<Trial>, best: Option<int>, candidate: Option<int>, scope: Scope): set<int> {
    AddNewest(Pinned(best, candidate), NewestFirst(rows, scope), Cap(scope))
  }

  predicate Fits(rows: seq<Trial>, scope: Scope) {
    |Filter(rows, RelatedTo(scope))| <= Cap(scope)
  }

  function KeepRow(scope: Scope, kept: set<int>): Trial -> bool {
    (t: Trial) => !Related(scope, t) || t.id in kept
  }

  function KeepId(kept: set<int>): int -> bool { (id: int) => id in kept }

  function CompactRows(rows: seq<Trial>, best: Option<int>, candidate: Option<int>, scope: Scope): seq<Trial> {
    if Fits(rows, scope) then rows else Filter(rows, KeepRow(scope, KeptIds(rows, best, candidate, scope)))
  }

  function CompactIds(ids: seq<int>, rows: seq<Trial>, best: Option<int>, candidate: Option<int>,
                      scope: Scope): seq<int> {
    if Fits(rows, scope) then ids else Filter(ids, KeepId(KeptIds(rows, best, candidate, scope)))
  }

  ghost predicate DistinctIds(rows: seq<Trial>) {
    forall i, j :: 0 <= i < j < |rows| ==> rows[i].id != rows[j].id
  }

  /** Some trial among the first `m` has this id. */
  ghost predicate IdAmong(newest: seq<Trial>, m: nat, id: int)
    requires m <= |newest|
  {
    exists k :: 0 <= k < m && newest[k].id == id
  }

  lemma AmongAt(newest: seq<Trial>, m: nat, j: nat)
    requires m <= |newest| && j < |newest|
    ensures j < m ==> IdAmong(newest, m, newest[j].id)
  {
  }

  lemma IdAmongRest(newest: seq<Trial>, m: nat, id: int)
    requires 0 < m <= |newest|
    ensures IdAmong(newest, m, id) <==> newest[0].id == id || IdAmong(newest[1..], m - 1, id)
  {
    if IdAmong(newest, m, id) {
      var k :| 0 <= k < m && newest[k].id == id;
      assert k > 0 ==> newest[1..][k - 1].id == id;
    }
    if IdAmong(newest[1..], m - 1, id) {
      var k :| 0 <= k < m - 1 && newest[1..][k].id == id;
      assert newest[k + 1].id == id;
    }
  }

  /** The ids kept are the pinned ones and those of a first segment of the newest trials, within the cap. */
  lemma {:induction false} AddNewestIs(ids: set<int>, newest: seq<Trial>, cap: nat) returns (m: nat)
    requires |ids| <= cap
    ensures m <= |newest| && |AddNewest(ids, newest, cap)| <= cap
    ensures forall id :: id in AddNewest(ids, newest, cap) <==> id in ids || IdAmong(newest, m, id)
    decreases |newest|
  {
    if newest == [] || |ids| >= cap {
      m := 0;
    } else {
      var rest := AddNewestIs(ids + {newest[0].id}, newest[1..], cap);
      m := rest + 1;
      forall id ensures IdAmong(newest, m, id) <==> newest[0].id == id || IdAmong(newest[1..], rest, id) {
        IdAmongRest(newest, m, id);
      }
    }
  }

  lemma PinnedIsSmall(best: Option<int>, candidate: Option<int>)
    ensures |Pinned(best, candidate)| <= 2
  {
  }

  /** Compaction does not touch the trials of other runs, and keeps their order. */
  lemma UnrelatedStay(rows: seq<Trial>, best: Option<int>, candidate: Option<int>, scope: Scope)
    ensures Filter(CompactRows(rows, best, candidate, scope), UnrelatedTo(scope)) == Filter(rows, UnrelatedTo(scope))
  {
    FilterStronger(rows, KeepRow(scope, KeptIds(rows, best, candidate, scope)), UnrelatedTo(scope));
    hide Filter, KeptIds, Fits;
  }

  /** A row survives exactly when it belongs to another run, its id is kept, or nothing had to go. */
  lemma Survivors(rows: seq<Trial>, best: Option<int>, candidate: Option<int>, scope: Scope, t: Trial)
    ensures t in CompactRows(rows, best, candidate, scope)
         <==> t in rows && (Fits(rows, scope) || !Related(scope, t) || t.id in KeptIds(rows, best, candidate, scope))
  {
    FilterMember(rows, KeepRow(scope, KeptIds(rows, best, candidate, scope)));
    hide Filter, KeptIds, Fits, Related;
  }

  lemma CompactOnlyDrops(rows: seq<Trial>, best: Option<int>, candidate: Option<int>, scope: Scope)
    ensures forall t :: t in CompactRows(rows, best, candidate, scope) ==> t in rows
  {
    forall t | t in CompactRows(rows, best, candidate, scope) ensures t in rows {
      Survivors(rows, best, candidate, scope, t);
    }
  }

  /** The best and the candidate trial are never dropped. */
  lemma PinnedStay(rows: seq<Trial>, best: Option<int>, candidate: Option<int>, scope: Scope, t: Trial)
    requires t in rows && (best == Some(t.id) || candidate == Some(t.id))
    ensures t in CompactRows(rows, best, candidate, scope)
  {
    Survivors(rows, best, candidate, scope, t);
    PinnedIsSmall(best, candidate);
    var m := AddNewestIs(Pinned(best, candidate), NewestFirst(rows, scope), Cap(scope));
  }

  lemma SameRow(rows: seq<Trial>, s: Trial, t: Trial)
    requires DistinctIds(rows) && s in rows && t in rows && s.id == t.id
    ensures s == t
  {
    var i :| 0 <= i < |rows| && rows[i] == s;
    var j :| 0 <= j < |rows| && rows[j] == t;
  }

  lemma NewerIsPreorder()
    ensures TotalPreorder(Newer)
  {
  }

  /** What is dropped is no newer than anything that is kept without being pinned. */
  lemma OldestGo(rows: seq<Trial>, best: Option<int>, candidate: Option<int>, scope: Scope, kept: Trial, dropped: Trial)
    requires DistinctIds(rows) && kept in rows && dropped in rows && Related(scope, kept)
    requires best != Some(kept.id) && candidate != Some(kept.id)
    requires kept in CompactRows(rows, best, candidate, scope) && dropped !in CompactRows(rows, best, candidate, scope)
    ensures Related(scope, dropped) && Stamp(kept) >= Stamp(dropped)
  {
    var newest := NewestFirst(rows, scope);
    Survivors(rows, best, candidate, scope, kept);
    Survivors(rows, best, candidate, scope, dropped);
    PinnedIsSmall(best, candidate);
    var m := AddNewestIs(Pinned(best, candidate), newest, Cap(scope));
    var i :| 0 <= i < m && newest[i].id == kept.id;
    FilterMember(rows, RelatedTo(scope));
    SortMember(Filter(rows, RelatedTo(scope)), Newer, newest[i]);
    SortMember(Filter(rows, RelatedTo(scope)), Newer, dropped);
    SameRow(rows, newest[i], kept);
    var j :| 0 <= j < |newest| && newest[j] == dropped;
    AmongAt(newest, m, j);
    NewerIsPreorder();
    SortSorts(Filter(rows, RelatedTo(scope)), Newer);
    assert Newer(newest[i], newest[j]);
  }

  lemma {:induction false} FilterKeepsDistinct(rows: seq<Trial>, keep: Trial -> bool)
    requires DistinctIds(rows)
    ensures DistinctIds(Filter(rows, keep))
  {
    if rows != [] {
      FilterKeepsDistinct(rows[1..], keep);
      FilterMember(rows[1..], keep);
      var rest := Filter(rows[1..], keep);
      forall i | 0 <= i < |rest| ensures rest[i].id != rows[0].id {
        assert rest[i] in rows[1..];
        var j :| 0 <= j < |rows[1..]| && rows[1..][j] == rest[i];
        assert rows[j + 1] == rest[i];
      }
    }
  }

  lemma {:induction false} IdsBound(rows: seq<Trial>, ids: set<int>)
    requires DistinctIds(rows) && forall t :: t in rows ==> t.id in ids
    ensures |rows| <= |ids|
  {
    if rows != [] {
      var n := |rows| - 1;
      assert rows[n] in rows;
      forall t | t in rows[..n] ensures t.id in ids - {rows[n].id} {
        var j :| 0 <= j < n && rows[..n][j] == t;
        assert rows[j] == t;
      }
      IdsBound(rows[..n], ids - {rows[n].id});
    }
  }

  /** After compaction the run keeps no more trials than the cap, and no id occurs twice. */
  lemma CompactFits(rows: seq<Trial>, best: Option<int>, candidate: Option<int>, scope: Scope)
    requires DistinctIds(rows)
    ensures Fits(CompactRows(rows, best, candidate, scope), scope)
    ensures DistinctIds(CompactRows(rows, best, candidate, scope))
  {
    if !Fits(rows, scope) {
      var kept := KeptIds(rows, best, candidate, scope);
      var left := Filter(rows, KeepRow(scope, kept));
      PinnedIsSmall(best, candidate);
      var m := AddNewestIs(Pinned(best, candidate), NewestFirst(rows, scope), Cap(scope));
      FilterKeepsDistinct(rows, KeepRow(scope, kept));
      FilterKeepsDistinct(left, RelatedTo(scope));
      FilterMember(rows, KeepRow(scope, kept));
      FilterMember(left, RelatedTo(scope));
      IdsBound(Filter(left, RelatedTo(scope)), kept);
    }
  }

  // ---- persisting one trial ----

  function FindId(rows: seq<Trial>, id: int, i: nat): (r: Option<nat>)
    requires i <= |rows|
    ensures r.Some? ==> r.value < |rows| && rows[r.value].id == id
    ensures r == None ==> forall j :: i <= j < |rows| ==> rows[j].id != id
    decreases |rows| - i
  {
    if i == |rows| then None else if rows[i].id == id then Some(i) else FindId(rows, id, i + 1)
  }

  /** A trial replaces the stored one with its id, or becomes the first row. */
  function Put(rows: seq<Trial>, row: Trial): seq<Trial> {
    match FindId(rows, row.id, 0)
    case Some(i) => rows[i := row]
    case None => [row] + rows
  }

  function AddId(ids: seq<int>, id: int): seq<int> {
    if id in ids then ids else ids + [id]
  }

  // ---- choosing the best ----

  predicate Comparable(t: Trial) { t.status == Completed && t.objective.Some? }

  const COMPARABLE: Trial -> bool := (t: Trial) => Comparable(t)

  function Objective(t: Trial): real {
    match t.objective case None => 0.0 case Some(v) => v
  }

  predicate Better(a: Trial, b: Trial) { Objective(a) >= Objective(b) }

  function PickBest(trials: seq<Trial>): Option<Trial> {
    var ranked := StableSort(Filter(trials, COMPARABLE), Better);
    if ranked == [] then None else Some(ranked[0])
  }

  /** The picked trial is completed, has an objective, and none of the trials beats it. */
  lemma PickIsMaximal(trials: seq<Trial>)
    ensures match PickBest(trials)
      case None => forall t :: t in trials ==> !Comparable(t)
      case Some(best) =>
        && best in trials && Comparable(best)
        && forall t :: t in trials && Comparable(t) ==> t.objective.value <= best.objective.value
  {
    var comparable := Filter(trials, COMPARABLE);
    var ranked := StableSort(comparable, Better);
    FilterMember(trials, COMPARABLE);
    forall t ensures t in ranked <==> t in comparable {
      SortMember(comparable, Better, t);
    }
    BetterIsPreorder();
    SortSorts(comparable, Better);
    if ranked == [] {
      forall t | t in trials ensures !Comparable(t) {
        assert t !in ranked;
      }
    } else {
      assert ranked[0] in ranked;
      forall t | t in trials && Comparable(t) ensures t.objective.value <= ranked[0].objective.value {
        assert t in ranked;
        var j :| 0 <= j < |ranked| && ranked[j] == t;
        assert j == 0 || Better(ranked[0], ranked[j]);
      }
    }
  }

  lemma BetterIsPreorder()
    ensures TotalPreorder(Better)
  {
  }

  // ---- the search ----

  /** How the evaluation of one candidate ended. */
  datatype Evaluation = Evaluation(id: int, status: Status, objective: Option<real>, finishedAt: int)

  /** The best objective among the completed evaluations. */
  function BestOf(evaluations: seq<Evaluation>): Option<real> {
    if evaluations == [] then None
    else
      var best, last := BestOf(evaluations[..|evaluations| - 1]), evaluations[|evaluations| - 1];
      if last.status == Completed && last.objective.Some? && (best == None || last.objective.value > best.value)
      then last.objective else best
  }

  predicate Scored(e: Evaluation) { e.status == Completed && e.objective.Some? }

  /** The best objective is the maximum over the completed evaluations that have one. */
  lemma {:induction false} BestIsMaximum(evaluations: seq<Evaluation>)
    ensures match BestOf(evaluations)
      case None => forall e :: e in evaluations ==> !Scored(e)
      case Some(best) =>
        && (exists e :: e in evaluations && Scored(e) && e.objective.value == best)
        && forall e :: e in evaluations && Scored(e) ==> e.objective.value <= best
  {
    if evaluations != [] {
      var n := |evaluations| - 1;
      BestIsMaximum(evaluations[..n]);
      var last := evaluations[n];
      assert evaluations == evaluations[..n] + [last];
      assert last in evaluations;
      if BestOf(evaluations[..n]).Some? {
        var e :| e in evaluations[..n] && Scored(e) && e.objective.value == BestOf(evaluations[..n]).value;
        assert e in evaluations;
      }
    }
  }

  function TrialOf(e: Evaluation, scope: Scope, full: bool): Trial {
    Trial(e.id, scope.experimentId, Some(scope.optimizationId), e.status, e.objective, Some(e.finishedAt), full)
  }

  /** Adds the ids of the newest trials until the cap is reached. */
  method FillUp(pinned: set<int>, byNewest: seq<Trial>, cap: nat) returns (keep: set<int>)
    ensures keep == AddNewest(pinned, byNewest, cap)
  {
    keep := pinned;
    for i := 0 to |byNewest|
      invariant AddNewest(keep, byNewest[i..], cap) == AddNewest(pinned, byNewest, cap)
    {
      if |keep| >= cap {
        break;
      }
      assert byNewest[i..][1..] == byNewest[i + 1..];
      keep := keep + {byNewest[i].id};
    }
  }

  predicate Improves(best: Option<real>, e: Evaluation) {
    Scored(e) && (best == None || e.objective.value > best.value)
  }

  /** The id of a row at the start or of an evaluated candidate. */
  ghost predicate Known(others: seq<Trial>, evaluated: seq<Evaluation>, id: int) {
    (exists t :: t in others && t.id == id) || (exists e :: e in evaluated && e.id == id)
  }

  /** The stored trial of this run that achieved the best objective, in full. */
  ghost predicate IsBest(t: Trial, bestId: int, objective: Option<real>, scope: Scope) {
    t.id == bestId && Related(scope, t) && Comparable(t) && t.objective == objective && t.full
  }

  /** The best trial is stored in full, and no stored trial of the run beats it. */
  ghost predicate Retains(rows: seq<Trial>, bestId: Option<int>, objective: Option<real>, scope: Scope) {
    && bestId.Some? == objective.Some?
    && (bestId.Some? ==> exists t :: t in rows && IsBest(t, bestId.value, objective, scope))
    && (forall t :: t in rows && Related(scope, t) && Comparable(t) ==>
        objective.Some? && t.objective.value <= objective.value)
  }

  /** Bounded retention: the run stays within its cap and the trials of other runs are what they were. */
  ghost predicate Bounded(rows: seq<Trial>, others: seq<Trial>, scope: Scope) {
    DistinctIds(rows) && Fits(rows, scope) && Filter(rows, UnrelatedTo(scope)) == others
  }

  ghost predicate AllKnown(rows: seq<Trial>, others: seq<Trial>, evaluated: seq<Evaluation>) {
    forall t :: t in rows ==> Known(others, evaluated, t.id)
  }

  /** The list of ids of the run names exactly its stored trials. */
  ghost predicate Indexed(ids: seq<int>, rows: seq<Trial>, scope: Scope) {
    forall id :: id in ids <==> HasRow(rows, id, scope)
  }

  ghost predicate HasRow(rows: seq<Trial>, id: int, scope: Scope) {
    exists t :: t in rows && Related(scope, t) && t.id == id
  }

  lemma FoundIsStored(rows: seq<Trial>, id: int)
    ensures FindId(rows, id, 0).Some? ==> exists t :: t in rows && t.id == id
  {
    var found := FindId(rows, id, 0);
    if found.Some? {
      assert rows[found.value] in rows;
    }
  }

  lemma PutFront(rows: seq<Trial>, row: Trial)
    requires forall t :: t in rows ==> t.id != row.id
    ensures Put(rows, row) == [row] + rows
    ensures forall t :: t in Put(rows, row) <==> t == row || t in rows
  {
    FoundIsStored(rows, row.id);
  }

  /** Storing a new trial of the run and compacting keeps the store bounded. */
  lemma StoreKeepsBounded(rows: seq<Trial>, row: Trial, best: Option<int>, candidate: Option<int>, others: seq<Trial>,
                          scope: Scope)
    requires Bounded(rows, others, scope) && Related(scope, row) && forall t :: t in rows ==> t.id != row.id
    ensures Bounded(CompactRows(Put(rows, row), best, candidate, scope), others, scope)
    ensures forall t :: t in CompactRows(Put(rows, row), best, candidate, scope) ==> t == row || t in rows
  {
    hide CompactRows, Fits, DistinctIds, Filter, Related, Put;
    PutFront(rows, row);
    var all := [row] + rows;
    DistinctFront(row, rows);
    FilterCons(row, rows, UnrelatedTo(scope));
    CompactFits(all, best, candidate, scope);
    UnrelatedStay(all, best, candidate, scope);
    forall t | t in CompactRows(all, best, candidate, scope) ensures t in all {
      Survivors(all, best, candidate, scope, t);
    }
  }

  lemma DistinctFront(row: Trial, rows: seq<Trial>)
    requires DistinctIds(rows) && forall t :: t in rows ==> t.id != row.id
    ensures DistinctIds([row] + rows)
  {
    var all := [row] + rows;
    forall i, j | 0 <= i < j < |all| ensures all[i].id != all[j].id {
      assert all[j] == rows[j - 1];
      assert i > 0 ==> all[i] == rows[i - 1];
    }
  }

  /** A new best is stored in full, and nothing stored beats it. */
  lemma BestIsRetained(rows: seq<Trial>, e: Evaluation, oldBest: Option<int>, objective: Option<real>, scope: Scope)
    requires Retains(rows, oldBest, objective, scope) && Improves(objective, e) && forall t :: t in rows ==>
      t.id != e.id
    ensures Retains(Stored(rows, e, true, Some(e.id), Some(e.id), scope), Some(e.id), e.objective, scope)
  {
    var row := TrialOf(e, scope, true);
    PutFront(rows, row);
    PinnedStay(Put(rows, row), Some(e.id), Some(e.id), scope, row);
    CompactOnlyDrops(Put(rows, row), Some(e.id), Some(e.id), scope);
    assert IsBest(row, e.id, e.objective, scope);
    hide CompactRows, Put;
  }

  /** A sample never pushes the best trial out. */
  lemma SampleRetainsBest(rows: seq<Trial>, e: Evaluation, best: Option<int>, candidate: Option<int>,
                          objective: Option<real>, scope: Scope)
    requires Retains(rows, best, objective, scope) && !Improves(objective, e) && forall t :: t in rows ==> t.id != e.id
    ensures Retains(Stored(rows, e, false, best, candidate, scope), best, objective, scope)
  {
    var row := TrialOf(e, scope, false);
    PutFront(rows, row);
    CompactOnlyDrops(Put(rows, row), best, candidate, scope);
    if best.Some? {
      var t :| t in rows && IsBest(t, best.value, objective, scope);
      PinnedStay(Put(rows, row), best, candidate, scope, t);
    }
    hide CompactRows, Put;
  }

  lemma StoreKeepsIndex(ids: seq<int>, rows: seq<Trial>, row: Trial, best: Option<int>, candidate: Option<int>,
                        scope: Scope)
    requires Indexed(ids, rows, scope) && Related(scope, row) && forall t :: t in rows ==> t.id != row.id
    ensures Indexed(CompactIds(AddId(ids, row.id), Put(rows, row), best, candidate, scope),
                    CompactRows(Put(rows, row), best, candidate, scope), scope)
  {
    PutFront(rows, row);
    var all, kept := Put(rows, row), KeptIds(Put(rows, row), best, candidate, scope);
    FilterMember(AddId(ids, row.id), KeepId(kept));
    forall id
      ensures id in CompactIds(AddId(ids, row.id), all, best, candidate, scope)
         <==> HasRow(CompactRows(all, best, candidate, scope), id, scope)
    {
      RowSurvives(all, best, candidate, scope, id);
      assert HasRow(all, id, scope) <==> id == row.id || HasRow(rows, id, scope);
    }
  }

  lemma RowSurvives(rows: seq<Trial>, best: Option<int>, candidate: Option<int>, scope: Scope, id: int)
    ensures HasRow(CompactRows(rows, best, candidate, scope), id, scope)
         <==> HasRow(rows, id, scope) && (Fits(rows, scope) || id in KeptIds(rows, best, candidate, scope))
  {
    forall t ensures t in CompactRows(rows, best, candidate, scope)
      <==> t in rows && (Fits(rows, scope) || !Related(scope, t) || t.id in KeptIds(rows, best, candidate, scope))
    {
      Survivors(rows, best, candidate, scope, t);
    }
    hide CompactRows, KeptIds, Fits, Related;
  }

  lemma NewId(rows: seq<Trial>, others: seq<Trial>, evaluated: seq<Evaluation>, e: Evaluation)
    requires AllKnown(rows, others, evaluated) && !Known(others, evaluated, e.id)
    ensures forall t :: t in rows ==> t.id != e.id
    ensures forall more: seq<Trial>, row: Trial ::
      row.id == e.id && (forall t :: t in more ==> t == row || t in rows) ==> AllKnown(more, others, evaluated + [e])
  {
    KnownGrows(rows, others, evaluated, e);
    assert e in evaluated + [e];
    assert Known(others, evaluated + [e], e.id);
    hide Known;
  }

  lemma KnownGrows(rows: seq<Trial>, others: seq<Trial>, evaluated: seq<Evaluation>, e: Evaluation)
    ensures AllKnown(rows, others, evaluated) ==> AllKnown(rows, others, evaluated + [e])
  {
    assert forall d :: d in evaluated ==> d in evaluated + [e];
  }

  /** The best trial has been evaluated, so no new candidate carries its id. */
  lemma BestIsOld(rows: seq<Trial>, others: seq<Trial>, evaluated: seq<Evaluation>, best: Option<int>,
                  objective: Option<real>, scope: Scope, id: int)
    requires Retains(rows, best, objective, scope) && AllKnown(rows, others, evaluated) && !Known(others, evaluated, id)
    ensures best != Some(id)
  {
    if best.Some? {
      var t :| t in rows && IsBest(t, best.value, objective, scope);
      assert Known(others, evaluated, t.id);
    }
  }

  /** The store after one evaluated candidate. */
  function Stored(rows: seq<Trial>, e: Evaluation, full: bool, best: Option<int>, candidate: Option<int>,
                  scope: Scope): seq<Trial> {
    CompactRows(Put(rows, TrialOf(e, scope, full)), best, candidate, scope)
  }

  lemma BestOfNext(evaluated: seq<Evaluation>, e: Evaluation)
    ensures BestOf(evaluated + [e]) == if Improves(BestOf(evaluated), e) then e.objective else BestOf(evaluated)
  {
    assert (evaluated + [e])[..|evaluated|] == evaluated;
  }

  /** Everything that a search keeps: rows, the two id lists, its best and the experiment's candidate. */
  datatype Kept = Kept(rows: seq<Trial>, listed: seq<int>, ids: seq<int>, bestId: Option<int>, objective: Option<real>,
                       candidateId: Option<int>)

  /** After storing a trial: its row, its id on both lists, and the compaction of all three. */
  function Storing(k: Kept, row: Trial, scope: Scope): Kept {
    var all := Put(k.rows, row);
    k.(rows := CompactRows(all, k.bestId, k.candidateId, scope),
       listed := CompactIds(AddId(k.listed, row.id), all, k.bestId, k.candidateId, scope),
       ids := CompactIds(AddId(k.ids, row.id), all, k.bestId, k.candidateId, scope))
  }

  /** After one candidate: a new best is stored in full at once, other trials only as samples. */
  function Recorded(k: Kept, e: Evaluation, number: nat, last: bool, sampleEvery: nat, scope: Scope): Kept
    requires sampleEvery >= 1
  {
    if Improves(k.objective, e) then
      Storing(k.(bestId := Some(e.id), objective := e.objective, candidateId := Some(e.id)), TrialOf(e, scope, true),
              scope)
    else if (number + 1) % sampleEvery == 0 || last then Storing(k, TrialOf(e, scope, false), scope)
    else k
  }

  /** After the first `n` candidates. */
  function RecordedAll(start: Kept, evaluations: seq<Evaluation>, n: nat, sampleEvery: nat, scope: Scope): Kept
    requires n <= |evaluations| && sampleEvery >= 1
  {
    if n == 0 then start
    else
      Recorded(RecordedAll(start, evaluations, n - 1, sampleEvery, scope), evaluations[n - 1], n - 1,
               n == |evaluations|, sampleEvery, scope)
  }

  /**
   The stored trials, the experiment and the optimization result that a search
   updates in place. `others` and `evaluated` are history that no code reads:
   the trials of other runs when the search began, and the evaluations so far.
   */
  class Search {
    const scope: Scope
    const sampleEvery: nat
    var trials: seq<Trial>
    var experimentTrialIds: seq<int>
    var resultTrialIds: seq<int>
    var candidateTrialId: Option<int>
    var bestTrialId: Option<int>
    var bestObjective: Option<real>
    ghost var others: seq<Trial>
    ghost var evaluated: seq<Evaluation>

    ghost predicate Valid()
      reads this
    {
      && sampleEvery >= 1
      && bestObjective == BestOf(evaluated)
      && Retains(trials, bestTrialId, bestObjective, scope)
      && Bounded(trials, others, scope)
      && AllKnown(trials, others, evaluated)
      && Indexed(resultTrialIds, trials, scope)
    }

    function Keeps(): Kept
      reads this
    {
      Kept(trials, experimentTrialIds, resultTrialIds, bestTrialId, bestObjective, candidateTrialId)
    }

    /**
     The candidate is the trial kept as best if and only if no completed trial of
     the run with the same objective is stored in front of it.
     */
    ghost predicate CandidateIsBestExactly()
      requires bestTrialId.Some? && bestObjective.Some?
      reads this
    {
      forall kept :: 0 <= kept < |trials| && trials[kept].id == bestTrialId.value ==>
        (candidateTrialId == bestTrialId <==> NoneReaches(trials[..kept], bestObjective.value, scope))
    }

    /** A fresh search: the store holds trials of other runs only. */
    constructor (owner: Scope, sample: int, rows: seq<Trial>, listed: seq<int>, candidate: Option<int>)
      requires DistinctIds(rows) && forall t :: t in rows ==> !Related(owner, t)
      ensures Valid() && scope == owner && sampleEvery == (if sample > 1 then sample else 1)
      ensures Keeps() == Kept(rows, listed, [], None, None, candidate) && others == rows && evaluated == []
    {
      scope, sampleEvery, trials := owner, if sample > 1 then sample else 1, rows;
      experimentTrialIds, resultTrialIds, candidateTrialId, bestTrialId, bestObjective := listed, [], candidate, None,
          None;
      others, evaluated := rows, [];
      new;
      FilterAll(rows, UnrelatedTo(scope));
      FilterNone(rows, RelatedTo(scope));
    }

    /** Drops the oldest trials of this run beyond the cap, except the best and the candidate. */
    method Compact()
      modifies `trials, `experimentTrialIds, `resultTrialIds
      ensures trials == CompactRows(old(trials), bestTrialId, candidateTrialId, scope)
      ensures experimentTrialIds
           == CompactIds(old(experimentTrialIds), old(trials), bestTrialId, candidateTrialId, scope)
      ensures resultTrialIds == CompactIds(old(resultTrialIds), old(trials), bestTrialId, candidateTrialId, scope)
    {
      var related := Filter(trials, RelatedTo(scope));
      if |related| <= Cap(scope) {
        return;
      }
      var byNewest := StableSort(related, Newer);
      var keep := FillUp(Pinned(bestTrialId, candidateTrialId), byNewest, Cap(scope));
      trials := Filter(trials, KeepRow(scope, keep));
      experimentTrialIds := Filter(experimentTrialIds, KeepId(keep));
      resultTrialIds := Filter(resultTrialIds, KeepId(keep));
    }

    /** Stores a trial, lists its id and compacts. */
    method Persist(row: Trial)
      modifies `trials, `experimentTrialIds, `resultTrialIds
      ensures trials == CompactRows(Put(old(trials), row), bestTrialId, candidateTrialId, scope)
      ensures experimentTrialIds
           == CompactIds(AddId(old(experimentTrialIds), row.id), Put(old(trials), row), bestTrialId, candidateTrialId,
                         scope)
      ensures resultTrialIds
           == CompactIds(AddId(old(resultTrialIds), row.id), Put(old(trials), row), bestTrialId, candidateTrialId,
                         scope)
    {
      var idx := FindId(trials, row.id, 0);
      if idx.Some? {
        trials := trials[idx.value := row];
      } else {
        trials := [row] + trials;
      }
      experimentTrialIds := AddId(experimentTrialIds, row.id);
      resultTrialIds := AddId(resultTrialIds, row.id);
      Compact();
    }

    /** Stores a trial that no row has the id of, for a best or a sample. */
    method Store(e: Evaluation, full: bool)
      requires sampleEvery >= 1 && Bounded(trials, others, scope) && AllKnown(trials, others, evaluated)
      requires Indexed(resultTrialIds, trials, scope)
      requires !Known(others, evaluated, e.id)
      modifies `trials, `experimentTrialIds, `resultTrialIds
      ensures trials == Stored(old(trials), e, full, bestTrialId, candidateTrialId, scope)
      ensures Keeps() == Storing(old(Keeps()), TrialOf(e, scope, full), scope)
      ensures Bounded(trials, others, scope) && AllKnown(trials, others, evaluated + [e])
      ensures Indexed(resultTrialIds, trials, scope)
      ensures forall t :: t in old(trials) ==> t.id != e.id
      ensures forall t :: t in trials ==> t == TrialOf(e, scope, full) || t in old(trials)
    {
      hide Bounded, Indexed, CompactRows, CompactIds, Put, AddId, Known;
      NewId(trials, others, evaluated, e);
      var row := TrialOf(e, scope, full);
      StoreKeepsBounded(trials, row, bestTrialId, candidateTrialId, others, scope);
      StoreKeepsIndex(resultTrialIds, trials, row, bestTrialId, candidateTrialId, scope);
      Persist(row);
    }

    /** Evaluates one candidate; every `sampleEvery`-th one and the last are stored even when they are not the best. */
    method Record(e: Evaluation, last: bool, number: nat)
      requires Valid() && !Known(others, evaluated, e.id)
      modifies this
      ensures Valid() && others == old(others) && evaluated == old(evaluated) + [e]
      ensures Keeps() == Recorded(old(Keeps()), e, number, last, sampleEvery, scope)
    {
      hide Bounded, Indexed, Retains, Stored, CompactRows, Put, AllKnown, Known;
      BestIsOld(trials, others, evaluated, bestTrialId, bestObjective, scope, e.id);
      BestOfNext(evaluated, e);
      var better := e.status == Completed && e.objective.Some?
         && (bestObjective == None || e.objective.value > bestObjective.value);
      if better {
        ghost var rows, best, objective := trials, bestTrialId, bestObjective;
        bestObjective, bestTrialId, candidateTrialId := e.objective, Some(e.id), Some(e.id);
        Store(e, true);
        BestIsRetained(rows, e, best, objective, scope);
      }
      if bestTrialId != Some(e.id) && ((number + 1) % sampleEvery == 0 || last) {
        ghost var rows := trials;
        Store(e, false);
        SampleRetainsBest(rows, e, bestTrialId, candidateTrialId, bestObjective, scope);
      }
      KnownGrows(trials, others, evaluated, e);
      evaluated := evaluated + [e];
    }

    /** Points the experiment at the best stored trial of the run. */
    method Conclude()
      requires Valid()
      modifies `trials, `experimentTrialIds, `resultTrialIds, `candidateTrialId
      ensures Valid() && Keeps() == old(Keeps()).(candidateId := candidateTrialId)
      ensures bestObjective == None ==> candidateTrialId == old(candidateTrialId)
      ensures bestObjective.Some? ==>
        candidateTrialId.Some? && AchievesBest(trials, candidateTrialId.value, bestObjective.value, scope)
      ensures bestObjective.Some? ==> Filter(trials, Reaching(bestObjective.value, scope)) != []
      ensures bestObjective.Some? ==>
        candidateTrialId == Some(Filter(trials, Reaching(bestObjective.value, scope))[0].id)
      ensures bestObjective.Some? ==> CandidateIsBestExactly()
    {
      hide AllKnown, Indexed, BestOf, AchievesBest;
      var rows := Filter(trials, RelatedTo(scope));
      var best := PickBest(rows);
      PickMeetsBest(trials, bestTrialId, bestObjective, scope);
      ConcludesExactly(trials, bestTrialId, bestObjective, scope);
      if best.Some? {
        candidateTrialId := Some(best.value.id);
      }
      Compact();
    }

    /**
     A whole search. After every candidate, and so at the end, the stored best
     objective is the maximum over the completed candidates, its trial is stored
     in full, the run keeps at most its cap of trials and other runs are untouched.
     */
    method Run(evaluations: seq<Evaluation>)
      requires Valid() && evaluated == []
      requires forall i :: 0 <= i < |evaluations| ==> !Known(others, [], evaluations[i].id)
      requires forall i, j :: 0 <= i < j < |evaluations| ==> evaluations[i].id != evaluations[j].id
      modifies this
      ensures Valid() && others == old(others) && evaluated == evaluations && bestObjective == BestOf(evaluations)
      ensures var last := RecordedAll(old(Keeps()), evaluations, |evaluations|, sampleEvery, scope);
        && Keeps() == last.(candidateId := candidateTrialId)
        && (bestObjective == None ==> candidateTrialId == last.candidateId)
      ensures bestObjective.Some? ==>
        candidateTrialId.Some? && AchievesBest(trials, candidateTrialId.value, bestObjective.value, scope)
      ensures bestObjective.Some? ==> CandidateIsBestExactly()
    {
      hide Recorded, Retains, Bounded, AllKnown, Indexed, BestOf, Known, AchievesBest;
      for i := 0 to |evaluations|
        invariant Valid() && others == old(others) && evaluated == evaluations[..i]
        invariant Keeps() == RecordedAll(old(Keeps()), evaluations, i, sampleEvery, scope)
      {
        StillUnknown(others, evaluations, i);
        assert evaluations[..i + 1] == evaluations[..i] + [evaluations[i]];
        Record(evaluations[i], i == |evaluations| - 1, i);
      }
      assert evaluations[..|evaluations|] == evaluations;
      Conclude();
    }
  }

  lemma StillUnknown(others: seq<Trial>, evaluations: seq<Evaluation>, i: nat)
    requires i < |evaluations| && !Known(others, [], evaluations[i].id)
    requires forall a, b :: 0 <= a < b < |evaluations| ==> evaluations[a].id != evaluations[b].id
    ensures !Known(others, evaluations[..i], evaluations[i].id)
  {
    forall e | e in evaluations[..i] ensures e.id != evaluations[i].id {
      var j :| 0 <= j < i && evaluations[..i][j] == e;
      assert evaluations[j] == e;
    }
  }

  /** What concluding a search needs to know about the pick. */
  lemma ConcludesExactly(rows: seq<Trial>, bestId: Option<int>, objective: Option<real>, scope: Scope)
    requires Retains(rows, bestId, objective, scope) && DistinctIds(rows)
    ensures objective.Some? ==>
      && PickBest(Filter(rows, RelatedTo(scope))).Some?
      && Filter(rows, Reaching(objective.value, scope)) != []
      && PickBest(Filter(rows, RelatedTo(scope))) == Some(Filter(rows, Reaching(objective.value, scope))[0])
      && forall kept :: 0 <= kept < |rows| && rows[kept].id == bestId.value ==>
           (PickBest(Filter(rows, RelatedTo(scope))).value.id == bestId.value
            <==> NoneReaches(rows[..kept], objective.value, scope))
  {
    if objective.Some? {
      PickIsFirst(rows, bestId, objective.value, scope);
      forall kept | 0 <= kept < |rows| && rows[kept].id == bestId.value
        ensures PickBest(Filter(rows, RelatedTo(scope))).value.id == bestId.value
           <==> NoneReaches(rows[..kept], objective.value, scope)
      {
        PickIsKept(rows, kept, objective.value, scope);
      }
    }
    hide PickBest, Filter, Reaches, Retains;
  }

  /** A stored, completed trial of the run has this id and this objective. */
  ghost predicate AchievesBest(rows: seq<Trial>, id: int, objective: real, scope: Scope) {
    exists t :: t in rows && t.id == id && Related(scope, t) && Comparable(t) && t.objective.value == objective
  }

  /** The trial picked among the stored ones has exactly the best objective of the run. */
  lemma PickMeetsBest(rows: seq<Trial>, bestId: Option<int>, objective: Option<real>, scope: Scope)
    requires Retains(rows, bestId, objective, scope)
    ensures var pick := PickBest(Filter(rows, RelatedTo(scope)));
      && pick.Some? == objective.Some?
      && (pick.Some? ==> pick.value.objective == objective && AchievesBest(rows, pick.value.id, objective.value, scope))
  {
    hide PickBest, Filter;
    var related := Filter(rows, RelatedTo(scope));
    FilterMember(rows, RelatedTo(scope));
    PickIsMaximal(related);
    if objective.Some? {
      var t :| t in rows && IsBest(t, bestId.value, objective, scope);
      assert t in related;
    }
  }

  /** A completed trial of the run with this objective. */
  predicate Reaches(t: Trial, objective: real, scope: Scope) {
    Related(scope, t) && Comparable(t) && t.objective == Some(objective)
  }

  predicate NoneReaches(rows: seq<Trial>, objective: real, scope: Scope) {
    forall t :: t in rows ==> !Reaches(t, objective, scope)
  }

  function Reaching(objective: real, scope: Scope): Trial -> bool {
    (t: Trial) => Reaches(t, objective, scope)
  }

  /** The pick is the first stored trial of the run that reaches the best objective. */
  lemma PickIsFirst(rows: seq<Trial>, bestId: Option<int>, objective: real, scope: Scope)
    requires Retains(rows, bestId, Some(objective), scope)
    ensures Filter(rows, Reaching(objective, scope)) != []
    ensures PickBest(Filter(rows, RelatedTo(scope))) == Some(Filter(rows, Reaching(objective, scope))[0])
  {
    var related := Filter(rows, RelatedTo(scope));
    var comparable := Filter(related, COMPARABLE);
    PickMeetsBest(rows, bestId, Some(objective), scope);
    FilterMember(rows, RelatedTo(scope));
    FilterMember(related, COMPARABLE);
    BetterIsPreorder();
    var j := SortHead(comparable, Better);
    FilterStronger(related, COMPARABLE, Reaching(objective, scope));
    FilterStronger(rows, RelatedTo(scope), Reaching(objective, scope));
    hide Filter, StableSort;
    assert comparable[j] in comparable && Reaches(comparable[j], objective, scope);
    var k := FilterHead(comparable, Reaching(objective, scope));
    assert comparable[k] in comparable;
  }

  /**
   Exactly when the pick is the trial that the search kept in full: no other
   completed trial of the run with the best objective is stored in front of it.
   */
  lemma PickIsKept(rows: seq<Trial>, kept: nat, objective: real, scope: Scope)
    requires DistinctIds(rows) && kept < |rows| && Retains(rows, Some(rows[kept].id), Some(objective), scope)
    ensures var pick := PickBest(Filter(rows, RelatedTo(scope)));
      pick.Some? && (pick.value.id == rows[kept].id <==> NoneReaches(rows[..kept], objective, scope))
  {
    var best :| best in rows && IsBest(best, rows[kept].id, Some(objective), scope);
    SameRow(rows, best, rows[kept]);
    PickIsFirst(rows, Some(rows[kept].id), objective, scope);
    hide PickBest, Retains;
    var first := FilterHead(rows, Reaching(objective, scope));
  }

  const FIRST := Evaluation(1, Completed, Some(5.0), 0)
  const SECOND := Evaluation(2, Completed, Some(5.0), 1)

  /** What two candidates with the same objective leave in an empty store. */
  lemma TiedRows(owner: Scope)
    ensures var first, second := TrialOf(FIRST, owner, true), TrialOf(SECOND, owner, false);
      && Stored([], FIRST, true, Some(1), Some(1), owner) == [first]
      && Stored([first], SECOND, false, Some(1), Some(1), owner) == [second, first]
  {
    var first, second := TrialOf(FIRST, owner, true), TrialOf(SECOND, owner, false);
    FewRowsFit([first], owner);
    FewRowsFit([second, first], owner);
    PutFront([], first);
    PutFront([first], second);
    assert [first] + [] == [first] && [second] + [first] == [second, first];
    hide Fits, Put, FindId;
  }

  /** Both candidates are new, and the second does not improve on the first. */
  lemma TiedCandidates()
    ensures !Known([], [], FIRST.id) && !Known([], [FIRST], SECOND.id)
    ensures BestOf([]) == None && BestOf([FIRST]) == Some(5.0) && BestOf([FIRST, SECOND]) == Some(5.0)
    ensures Improves(None, FIRST) && !Improves(Some(5.0), SECOND)
  {
    assert [FIRST, SECOND][..1] == [FIRST] && [FIRST][..0] == [];
  }

  /** The sample of the second candidate is the first row that reaches the best objective. */
  lemma TiedPick(owner: Scope)
    ensures var first, second := TrialOf(FIRST, owner, true), TrialOf(SECOND, owner, false);
      Filter([second, first], Reaching(5.0, owner)) != [] && Filter([second, first], Reaching(5.0, owner))[0] == second
  {
    var first, second := TrialOf(FIRST, owner, true), TrialOf(SECOND, owner, false);
    assert Reaching(5.0, owner)(second);
    FilterCons(second, [first], Reaching(5.0, owner));
    assert [second] + [first] == [second, first];
  }

  /** What the search keeps of the two candidates. */
  lemma TiedRecords(k: Kept, m: Kept, owner: Scope)
    requires k.rows == [] && k.objective == None
    requires m.rows == [TrialOf(FIRST, owner, true)] && m.objective == Some(5.0)
    requires m.bestId == Some(1) && m.candidateId == Some(1)
    ensures var a := Recorded(k, FIRST, 0, false, 1, owner);
      && a.rows == [TrialOf(FIRST, owner, true)] && a.objective == Some(5.0)
      && a.bestId == Some(1) && a.candidateId == Some(1)
    ensures var b := Recorded(m, SECOND, 1, true, 1, owner);
      && b.rows == [TrialOf(SECOND, owner, false), TrialOf(FIRST, owner, true)] && b.objective == Some(5.0)
      && b.bestId == Some(1) && b.candidateId == Some(1)
  {
    TiedRows(owner);
    TiedCandidates();
    hide CompactRows, CompactIds, AddId, Put, Improves, TrialOf;
  }

  /**
   Two candidates with the same objective: the search keeps the first in full as
   its best and points the experiment at the second, of which it stored a sample.
   */
  method TiedSearch(owner: Scope) returns (s: Search)
    ensures s.Valid() && s.bestTrialId == Some(1) && s.candidateTrialId == Some(2)
    ensures s.trials == [TrialOf(SECOND, owner, false), TrialOf(FIRST, owner, true)]
  {
    hide Retains, Bounded, AllKnown, Indexed, Stored, AchievesBest, Known, Filter, NoneReaches, Reaches, Related,
         BestOf, Recorded, Put;
    TiedCandidates();
    TiedPick(owner);
    s := new Search(owner, 1, [], [], None);
    assert [] + [FIRST] == [FIRST] && [FIRST] + [SECOND] == [FIRST, SECOND];
    var first := TrialOf(FIRST, owner, true);
    ghost var once := s.Keeps().(rows := [first], objective := Some(5.0), bestId := Some(1), candidateId := Some(1));
    TiedRecords(s.Keeps(), once, owner);
    s.Record(FIRST, false, 0);
    TiedRecords(s.Keeps().(rows := [], objective := None), s.Keeps(), owner);
    s.Record(SECOND, true, 1);
    s.Conclude();
  }

  lemma FewRowsFit(rows: seq<Trial>, scope: Scope)
    requires |rows| <= 25
    ensures Fits(rows, scope)
  {
    FilterMember(rows, RelatedTo(scope));
  }
}
