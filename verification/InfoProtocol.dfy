/**
 The request coordinator over whole runs: the response cache, the invariant of
 every reachable state, progress of every task, and what a caller gets.
 */
module InfoProtocol {
  import opened Prelude
  import opened InfoSteps
  import opened InfoInvariants

  // ---- the response cache ----

  /** The answer a cache that never forgets would give: the latest success while it is fresh. */
  function FreshestAnswer(s: State, key: Key): Option<Response> {
    if key in s.latest && s.clock < s.latest[key].expiresAt then Some(s.latest[key].value) else None
  }

  ghost predicate CacheAgrees(s: State) {
    && (forall k :: k in s.cache ==> k in s.latest && s.cache[k] == s.latest[k])
    && (forall k :: k in s.latest && s.clock < s.latest[k].expiresAt ==> k in s.cache)
    && (s.cfg.ttl == 0 ==> s.cache == map[])
  }

  /** A request leaves the cache alone or drops the expired entry of its key. */
  lemma RequestCacheIs(s: State, key: Key, urgent: bool)
    ensures SameCache(s, DoRequest(s, key, urgent)) || SameCache(DropExpired(s, key), DoRequest(s, key, urgent))
  {
  }

  lemma DropKeepsCache(s: State, key: Key)
    requires CacheAgrees(s)
    ensures CacheAgrees(DropExpired(s, key))
  {
  }

  lemma SameCacheAgrees(s: State, s': State)
    requires CacheAgrees(s) && SameCache(s, s')
    ensures CacheAgrees(s')
  {
  }

  lemma RequestKeepsCache(s: State, key: Key, urgent: bool)
    requires CacheAgrees(s)
    ensures CacheAgrees(DoRequest(s, key, urgent))
  {
    hide CacheAgrees, SameCache, DoRequest, DropExpired;
    RequestCacheIs(s, key, urgent);
    DropKeepsCache(s, key);
    if SameCache(s, DoRequest(s, key, urgent)) {
      SameCacheAgrees(s, DoRequest(s, key, urgent));
    } else {
      SameCacheAgrees(DropExpired(s, key), DoRequest(s, key, urgent));
    }
  }

  lemma RememberKeepsCache(s: State, key: Key, value: Response)
    requires CacheAgrees(s)
    ensures CacheAgrees(Remember(s, key, value).(latest := s.latest[key := Cached(value, s.clock + s.cfg.ttl)]))
  {
  }

  lemma SuccessKeepsCache(s: State, t: nat, value: Response)
    requires CacheAgrees(s) && t < |s.tasks|
    ensures CacheAgrees(Succeed(s, t, value))
  {
    hide CacheAgrees, SameCache, Remember, Succeed;
    var key := s.tasks[t].key;
    RememberKeepsCache(s, key, value);
    SucceedKeepsFields(s, t, value);
    SameCacheAgrees(Remember(s, key, value).(latest := s.latest[key := Cached(value, s.clock + s.cfg.ttl)]),
                    Succeed(s, t, value));
  }

  lemma SucceedKeepsFields(s: State, t: nat, value: Response)
    requires t < |s.tasks|
    ensures var key := s.tasks[t].key;
      SameCache(Remember(s, key, value).(latest := s.latest[key := Cached(value, s.clock + s.cfg.ttl)]),
                Succeed(s, t, value))
  {
  }

  /** Cache agreement survives every step. */
  lemma StepKeepsCache(s: State, e: Event)
    requires CacheAgrees(s) && Enabled(s, e) && HeadIn(s.chain, s.tasks, Pacing)
    ensures CacheAgrees(Apply(s, e))
  {
    hide DoRequest, DoReserve, GrantTurn, DoFetch, FailAttempt, Move, Succeed, Retry, DoRelease, DoUnregister,
         BeginTurn;
    if e.Request? {
      RequestKeepsCache(s, e.key, e.urgent);
    } else if e.ParseOk? {
      SuccessKeepsCache(s, e.t, e.value);
    } else if !e.Tick? {
      hide Apply, Enabled;
      OthersOffCache(s, e);
    }
  }

  /** A cache hit is exactly the latest success of the key, younger than the time to live. */
  lemma LookupIsFreshest(s: State, key: Key)
    requires CacheAgrees(s)
    ensures Lookup(s, key) == FreshestAnswer(s, key)
  {
  }

  /** Pruning changes no answer, now or at any later time. */
  lemma PruningIsInvisible(s: State, key: Key, later: nat)
    ensures Lookup(s.(cache := Prune(s.cache, s.clock), clock := s.clock + later), key)
         == Lookup(s.(clock := s.clock + later), key)
  {
  }

  // ---- all of it, in every reachable state ----

  predicate Counted(s: State) {
    s.stats.total == s.stats.cached + s.stats.deduped + |s.tasks|
  }

  ghost predicate Inv(s: State) {
    && ValidConfig(s.cfg)
    && SlotsAccounted(s)
    && Paced(s)
    && SingleFlight(s)
    && Bounded(s)
    && CacheAgrees(s)
    && Counted(s)
  }

  lemma HeadsInPhase(s: State)
    requires SlotsAccounted(s) && Paced(s)
    ensures HeadIn(s.queue, s.tasks, Queued) && HeadIn(s.chain, s.tasks, Pacing)
  {
    assert s.queue != [] ==> s.queue[0] in s.queue;
    assert s.chain != [] ==> s.chain[0] in s.chain;
  }

  lemma RequestCounts(s: State, key: Key, urgent: bool)
    requires Counted(s)
    ensures Counted(DoRequest(s, key, urgent)) && DoRequest(s, key, urgent).cfg == s.cfg
  {
  }

  lemma StepCounts(s: State, e: Event)
    requires Counted(s) && Enabled(s, e) && HeadIn(s.chain, s.tasks, Pacing)
    ensures Counted(Apply(s, e)) && Apply(s, e).cfg == s.cfg
  {
    if e.Request? {
      hide DoRequest;
      RequestCounts(s, e.key, e.urgent);
    } else {
      hide Apply, Enabled;
      OthersOffCache(s, e);
    }
  }

  lemma StepKeepsInv(s: State, e: Event)
    requires Inv(s) && Enabled(s, e)
    ensures Inv(Apply(s, e))
  {
    hide Enabled, Apply, SlotsAccounted, Paced, SingleFlight, Bounded, CacheAgrees, Counted, HeadIn;
    HeadsInPhase(s);
    StepKeepsSlots(s, e);
    StepKeepsPace(s, e);
    StepKeepsSingleFlight(s, e);
    StepKeepsBounded(s, e);
    StepKeepsCache(s, e);
    StepCounts(s, e);
  }

  lemma {:induction false} RunKeepsInv(s: State, events: seq<Event>, end: State)
    requires Inv(s) && Runs(s, events, end)
    ensures Inv(end)
    decreases |events|
  {
    if events != [] {
      hide Inv, Enabled, Apply;
      StepKeepsInv(s, events[0]);
      RunKeepsInv(Apply(s, events[0]), events[1..], end);
    }
  }

  /** The invariant holds in every state of every interleaving. */
  lemma ReachableStatesAreSound(cfg: Config, now: int, s: State)
    requires ValidConfig(cfg) && Reachable(cfg, now, s)
    ensures Inv(s)
  {
    var events :| Runs(Start(cfg, now), events, s);
    assert Holders(Start(cfg, now).tasks) == {};
    RunKeepsInv(Start(cfg, now), events, s);
  }

  /**
   Slots, in every reachable state: the holders are counted and capped, a queue
   means every slot is taken, and no release ever finds the count at zero.
   */
  lemma SlotProtocol(cfg: Config, now: int, s: State)
    requires ValidConfig(cfg) && Reachable(cfg, now, s)
    ensures s.active == |Holders(s.tasks)| <= s.cfg.maxConcurrency
    ensures s.queue != [] ==> s.active == s.cfg.maxConcurrency
    ensures forall t :: Enabled(s, Release(t)) ==> s.active > 0
  {
    ReachableStatesAreSound(cfg, now, s);
    hide Reachable, Enabled, Lists;
    forall t | Enabled(s, Release(t)) ensures s.active > 0 {
      ReleaseKeepsSlots(s, t);
    }
  }

  predicate Unsettled(phase: Phase) {
    !phase.Settled? && !phase.Done?
  }

  /** Single flight, attempts, cache and pacing, in every reachable state. */
  lemma RequestProtocol(cfg: Config, now: int, s: State)
    requires ValidConfig(cfg) && Reachable(cfg, now, s)
    ensures forall t, u :: 0 <= t < u < |s.tasks| && Unsettled(s.tasks[t].phase) && Unsettled(s.tasks[u].phase) ==>
      s.tasks[t].key != s.tasks[u].key
    ensures forall t :: 0 <= t < |s.tasks| ==> s.tasks[t].fetches <= s.cfg.maxRetries + 1
    ensures forall key :: Lookup(s, key) == FreshestAnswer(s, key)
    ensures Spaced(s.grants, s.cfg.minInterval)
    ensures s.stats.total == s.stats.cached + s.stats.deduped + |s.tasks|
  {
    ReachableStatesAreSound(cfg, now, s);
    hide Reachable, SlotsAccounted;
    forall t | 0 <= t < |s.tasks| ensures s.tasks[t].fetches <= s.cfg.maxRetries + 1 {
      assert BoundedTask(s.tasks[t], s.cfg.maxRetries);
    }
    forall key ensures Lookup(s, key) == FreshestAnswer(s, key) {
      LookupIsFreshest(s, key);
    }
  }

  // ---- every task comes to an end ----

  function TotalRank(tasks: seq<Task>, maxRetries: nat): nat {
    if tasks == [] then 0
    else TotalRank(tasks[..|tasks| - 1], maxRetries) + Rank(tasks[|tasks| - 1], maxRetries)
  }

  /** The work left, counting a pacing turn that has not begun as half a step. */
  function Work(s: State): nat {
    2 * TotalRank(s.tasks, s.cfg.maxRetries) + (if s.wakeAt == None then 1 else 0)
  }

  lemma {:induction false} TotalRankUpdate(tasks: seq<Task>, t: nat, task: Task, maxRetries: nat)
    requires t < |tasks|
    ensures TotalRank(tasks[t := task], maxRetries) + Rank(tasks[t], maxRetries)
         == TotalRank(tasks, maxRetries) + Rank(task, maxRetries)
  {
    hide Rank;
    var n := |tasks| - 1;
    if t == n {
      assert tasks[t := task][..n] == tasks[..n];
    } else {
      assert tasks[t := task][..n] == tasks[..n][t := task];
      TotalRankUpdate(tasks[..n], t, task, maxRetries);
    }
  }

  lemma MoveUsesWork(s: State, s': State, t: nat)
    requires Moves(s, s', t) && Advances(s, s', t) && BoundedTask(s.tasks[t], s.cfg.maxRetries)
    requires s'.wakeAt == s.wakeAt || s'.wakeAt == None
    ensures Work(s') < Work(s)
  {
    hide Rank;
    TotalRankUpdate(s.tasks, t, s'.tasks[t], s.cfg.maxRetries);
  }

  lemma UnregisterUsesWork(s: State, t: nat)
    requires Enabled(s, Unregister(t))
    ensures Work(DoUnregister(s, t)) < Work(s)
  {
    TotalRankUpdate(s.tasks, t, s.tasks[t].(phase := Done(s.tasks[t].phase.result)), s.cfg.maxRetries);
  }

  /** Every step of a task uses up work; only requests bring new work and only the clock is free. */
  lemma StepUsesWork(s: State, e: Event)
    requires Inv(s) && Enabled(s, e) && !e.Request? && !e.Tick?
    ensures Work(Apply(s, e)) < Work(s)
  {
    HeadsInPhase(s);
    hide SlotsAccounted, Paced, SingleFlight, CacheAgrees, Moves, Advances, GrantTurn, DoReserve, DoRelease,
         DoUnregister,
         DoFetch, FailAttempt, Move, Succeed, Retry, BoundedTask;
    if Mover(s, e).Some? {
      MoverMoves(s, e);
      MoverInRange(s, e);
      GrantClearsTurn(s);
      MoveUsesWork(s, Apply(s, e), Mover(s, e).value);
    } else if e.Release? {
      ReleaseUsesWork(s, e.t);
    } else if e.Unregister? {
      UnregisterUsesWork(s, e.t);
    }
  }

  lemma MoverInRange(s: State, e: Event)
    requires Enabled(s, e) && Mover(s, e).Some?
    ensures Mover(s, e).value < |s.tasks|
  {
  }

  lemma GrantClearsTurn(s: State)
    ensures Enabled(s, TurnGranted) ==> GrantTurn(s).wakeAt == None
  {
  }

  lemma ReleaseUsesWork(s: State, t: nat)
    requires Enabled(s, Release(t)) && HeadIn(s.queue, s.tasks, Queued)
    ensures Work(DoRelease(s, t)) < Work(s)
  {
    var settled := s.tasks[t].(phase := Settled(s.tasks[t].phase.result));
    TotalRankUpdate(s.tasks, t, settled, s.cfg.maxRetries);
    if s.queue != [] {
      var next := s.tasks[s.queue[0]];
      TotalRankUpdate(s.tasks[t := settled], s.queue[0], next.(phase := Ready), s.cfg.maxRetries);
    }
  }

  /** The steps of a run that are neither requests nor the clock. */
  function TaskSteps(events: seq<Event>): nat {
    if events == [] then 0
    else (if events[0].Request? || events[0].Tick? then 0 else 1) + TaskSteps(events[1..])
  }

  function Requests(events: seq<Event>): nat {
    if events == [] then 0 else (if events[0].Request? then 1 else 0) + Requests(events[1..])
  }

  /** The work that `n` new tasks bring: eight steps for every attempt, counted twice. */
  function NewWork(maxRetries: nat, n: nat): nat {
    16 * (maxRetries + 1) * n
  }

  lemma NewTaskRank(key: Key, maxRetries: nat)
    ensures Rank(Task(key, 0, 0, Queued), maxRetries) <= 8 * (maxRetries + 1)
    ensures Rank(Task(key, 0, 0, Ready), maxRetries) <= 8 * (maxRetries + 1)
  {
  }

  lemma RequestBringsWork(s: State, key: Key, urgent: bool)
    ensures var after := DoRequest(s, key, urgent);
      && after.cfg == s.cfg
      && (|after.tasks| == |s.tasks| || |after.tasks| == |s.tasks| + 1)
      && Work(after) <= Work(s) + NewWork(s.cfg.maxRetries, |after.tasks| - |s.tasks|)
  {
    var after := DoRequest(s, key, urgent);
    RequestTasks(s, key, urgent);
    hide Rank, DoRequest;
    NewTaskRank(key, s.cfg.maxRetries);
    if |after.tasks| == |s.tasks| + 1 {
      assert after.tasks[..|s.tasks|] == s.tasks;
    } else {
      assert after.tasks == s.tasks;
    }
  }

  lemma RequestTasks(s: State, key: Key, urgent: bool)
    ensures var after := DoRequest(s, key, urgent);
      && after.cfg == s.cfg && after.wakeAt == s.wakeAt
      && (|| after.tasks == s.tasks
          || after.tasks == s.tasks + [Task(key, 0, 0, Ready)]
          || after.tasks == s.tasks + [Task(key, 0, 0, Queued)])
  {
  }

  lemma StepKeepsTasks(s: State, e: Event)
    requires Inv(s) && Enabled(s, e) && !e.Request?
    ensures Apply(s, e).cfg == s.cfg && |Apply(s, e).tasks| == |s.tasks|
  {
    HeadsInPhase(s);
    hide Enabled, Apply, SlotsAccounted, Paced, SingleFlight, CacheAgrees, Bounded, Counted, HeadIn;
    OthersOffCache(s, e);
  }

  /** What one step does to the work left, whatever it is. */
  lemma StepBalances(s: State, e: Event)
    requires Inv(s) && Enabled(s, e)
    ensures var after := Apply(s, e);
      && after.cfg == s.cfg
      && |s.tasks| <= |after.tasks| <= |s.tasks| + Requests([e])
      && Work(after) + TaskSteps([e]) <= Work(s) + NewWork(s.cfg.maxRetries, |after.tasks| - |s.tasks|)
  {
    hide Inv, Work, DoRequest;
    if e.Request? {
      RequestBringsWork(s, e.key, e.urgent);
    } else {
      hide Apply, Enabled;
      StepKeepsTasks(s, e);
      if e.Tick? {
        TickIsFree(s, e);
      } else {
        StepUsesWork(s, e);
      }
    }
  }

  lemma TickIsFree(s: State, e: Event)
    requires e.Tick?
    ensures Work(Apply(s, e)) == Work(s)
  {
  }

  lemma CountsUnfold(events: seq<Event>)
    requires events != []
    ensures TaskSteps(events) == TaskSteps([events[0]]) + TaskSteps(events[1..])
    ensures Requests(events) == Requests([events[0]]) + Requests(events[1..])
  {
    assert [events[0]][1..] == [];
  }

  lemma NewWorkAdds(maxRetries: nat, m: nat, n: nat)
    ensures NewWork(maxRetries, m) + NewWork(maxRetries, n) == NewWork(maxRetries, m + n)
  {
  }

  /**
   Every run is finite up to requests and the clock: its other steps number at most
   the work there was plus a fixed amount for every task that its requests started.
   */
  lemma {:induction false} RunUsesWork(s: State, events: seq<Event>, end: State)
    requires Inv(s) && Runs(s, events, end)
    ensures end.cfg == s.cfg && |s.tasks| <= |end.tasks| <= |s.tasks| + Requests(events)
    ensures TaskSteps(events) + Work(end) <= Work(s) + NewWork(s.cfg.maxRetries, |end.tasks| - |s.tasks|)
    decreases |events|
  {
    hide Inv, Enabled, Apply, Work, NewWork, TaskSteps, Requests, Runs;
    RunUnfolds(s, events, end);
    if events == [] {
      NoCounts(s.cfg.maxRetries);
    } else {
      var after := Apply(s, events[0]);
      CountsUnfold(events);
      StepBalances(s, events[0]);
      StepKeepsInv(s, events[0]);
      RunUsesWork(after, events[1..], end);
      NewWorkAdds(s.cfg.maxRetries, |after.tasks| - |s.tasks|, |end.tasks| - |after.tasks|);
    }
  }

  lemma RunUnfolds(s: State, events: seq<Event>, end: State)
    ensures events == [] ==> (Runs(s, events, end) <==> end == s)
    ensures events != [] && Runs(s, events, end) ==>
      Enabled(s, events[0]) && Runs(Apply(s, events[0]), events[1..], end)
  {
  }

  lemma NoCounts(maxRetries: nat)
    ensures TaskSteps([]) == Requests([]) == NewWork(maxRetries, 0) == 0
  {
  }

  /** The step a task that holds a slot, or is still registered, can take next. */
  function NextStep(s: State, t: nat): Event
    requires t < |s.tasks|
  {
    match s.tasks[t].phase
    case Ready => Reserve(t)
    case Pacing => if s.wakeAt == None then TurnBegins else TurnGranted
    case Granted => Fetch(t)
    case Fetching => FetchFails(t)
    case Parsing => ParseFails(t)
    case Backoff => WakeUp(t)
    case Finishing(_) => Release(t)
    case Settled(_) => Unregister(t)
    case Queued => Tick(0)
    case Done(_) => Tick(0)
  }

  lemma HolderExists(s: State)
    requires ValidConfig(s.cfg) && SlotsAccounted(s) && s.queue != []
    ensures exists u :: 0 <= u < |s.tasks| && HoldsSlot(s.tasks[u].phase)
  {
    assert Holders(s.tasks) != {};
    var u :| u in Holders(s.tasks);
  }

  lemma StepAfterWait(s: State, u: nat, ms: nat)
    requires u < |s.tasks| && !s.tasks[u].phase.Done? && s.tasks[u].phase != Queued
    requires HeadIn(s.queue, s.tasks, Queued) && HeadIn(s.chain, s.tasks, Pacing)
    requires s.tasks[u].phase == Pacing ==> s.chain != []
    requires s.wakeAt.Some? ==> s.clock + ms >= s.wakeAt.value
    ensures !NextStep(s, u).Tick? && Enabled(Apply(s, Tick(ms)), NextStep(s, u))
  {
  }

  /**
   No deadlock: while some task is not done, a step of a task is enabled, at the
   latest when the pacing sleep in progress is over.
   */
  lemma NoDeadlock(s: State, t: nat)
    requires Inv(s) && t < |s.tasks| && !s.tasks[t].phase.Done?
    ensures exists u: nat, ms: nat ::
      u < |s.tasks| && !NextStep(s, u).Tick? && Enabled(Apply(s, Tick(ms)), NextStep(s, u))
  {
    HeadsInPhase(s);
    hide SingleFlight, CacheAgrees, Bounded, NextStep, Apply, Enabled;
    var u := t;
    if s.tasks[t].phase == Queued {
      assert t in s.queue;
      HolderExists(s);
      u :| 0 <= u < |s.tasks| && HoldsSlot(s.tasks[u].phase);
    }
    if s.tasks[u].phase == Pacing {
      assert u in s.chain;
    }
    StepAfterWait(s, u, if s.wakeAt.Some? && s.wakeAt.value > s.clock then s.wakeAt.value - s.clock else 0);
  }

  predicate AllDone(s: State) {
    forall t :: 0 <= t < |s.tasks| ==> s.tasks[t].phase.Done?
  }

  /** From every sound state all tasks can finish without a further request. */
  lemma {:induction false} EveryTaskCanFinish(s: State) returns (events: seq<Event>, end: State)
    requires Inv(s)
    ensures Runs(s, events, end) && Requests(events) == 0 && AllDone(end) && |end.tasks| == |s.tasks|
    decreases Work(s)
  {
    hide Inv, Enabled, Apply, Work;
    if AllDone(s) {
      events, end := [], s;
    } else {
      var t :| 0 <= t < |s.tasks| && !s.tasks[t].phase.Done?;
      AlwaysTicks(s);
      NoDeadlock(s, t);
      var u: nat, ms: nat :| u < |s.tasks| && !NextStep(s, u).Tick? && Enabled(Apply(s, Tick(ms)), NextStep(s, u));
      var tick, step := Tick(ms), NextStep(s, u);
      StepKeepsInv(s, tick);
      var waited := Apply(s, tick);
      StepKeepsInv(waited, step);
      StepUsesWork(waited, step);
      TickIsFree(s, tick);
      StepKeepsTasks(s, tick);
      StepKeepsTasks(waited, step);
      var rest;
      rest, end := EveryTaskCanFinish(Apply(waited, step));
      events := [tick, step] + rest;
      assert events[1..] == [step] + rest && events[1..][1..] == rest;
    }
  }

  lemma AlwaysTicks(s: State)
    ensures forall ms: nat :: Enabled(s, Tick(ms))
  {
  }

  // ---- what a caller gets ----

  /** How a request is served: from the cache, by a task under way, or by a new task. */
  datatype Answer = Hit(value: Response) | Joined(task: nat) | Started(task: nat)

  function AnswerTo(s: State, key: Key): Answer {
    if Lookup(s, key).Some? then Hit(Lookup(s, key).value)
    else if key in s.inFlight then Joined(s.inFlight[key])
    else Started(|s.tasks|)
  }

  /**
   A hit is the freshest response; otherwise the caller gets a task for its own
   key, a new one only when every earlier task of that key is done.
   */
  lemma RequestIsServed(s: State, key: Key, urgent: bool)
    requires SingleFlight(s) && CacheAgrees(s)
    ensures var after := DoRequest(s, key, urgent);
      match AnswerTo(s, key)
      case Hit(value) => FreshestAnswer(s, key) == Some(value)
      case Joined(t) =>
        && FreshestAnswer(s, key) == None
        && t < |s.tasks| && s.tasks[t].key == key && !s.tasks[t].phase.Done?
        && after.tasks == s.tasks
      case Started(t) =>
        && FreshestAnswer(s, key) == None
        && t == |s.tasks| && |after.tasks| == t + 1 && after.tasks[t].key == key
        && (forall u :: 0 <= u < t && s.tasks[u].key == key ==> s.tasks[u].phase.Done?)
  {
    LookupIsFreshest(s, key);
    hide CacheAgrees, FreshestAnswer;
    assert key !in s.inFlight ==> forall u :: 0 <= u < |s.tasks| && s.tasks[u].key == key ==> s.tasks[u].phase.Done?;
    hide SingleFlight;
  }
}
