/**
 The info-request coordinator as a state machine. A task is one upstream read:
 the code that runs between two of its awaits is one atomic step, and every
 interleaving of the steps of all tasks with new requests and the clock is a run.
 */
module InfoSteps {
  import opened Prelude

  type Key = string

  type Response = string

  datatype Config = Config(maxConcurrency: nat, maxRetries: nat, minInterval: nat, ttl: nat)

  predicate ValidConfig(cfg: Config) {
    cfg.maxConcurrency >= 1
  }

  datatype Result = Fulfilled(value: Response) | Rejected

  /** Where a task is between two steps. */
  datatype Phase =
    | Queued                    // waits for a slot
    | Ready                     // has a slot, is about to ask for an upstream turn
    | Pacing                    // waits in the pacing chain
    | Granted                   // has its upstream turn
    | Fetching                  // waits for the response
    | Parsing                   // got a good response, waits for its body
    | Backoff                   // sleeps before the next attempt
    | Finishing(result: Result) // has its result, still holds the slot
    | Settled(result: Result)   // has released the slot, is still registered
    | Done(result: Result)

  datatype Task = Task(key: Key, attempt: nat, fetches: nat, phase: Phase)

  datatype Cached = Cached(value: Response, expiresAt: int)

  datatype Stats = Stats(total: nat, deduped: nat, cached: nat, retries: nat, failures: nat)

  /**
   The client's fields, its tasks, and three histories no code reads: the times
   of granted turns, and the latest success of every key with its time.
   */
  datatype State = State(
    cfg: Config,
    clock: int,
    inFlight: map<Key, nat>,
    cache: map<Key, Cached>,
    queue: seq<nat>,
    active: nat,
    nextStart: int,
    chain: seq<nat>,
    wakeAt: Option<int>,
    stats: Stats,
    tasks: seq<Task>,
    grants: seq<int>,
    latest: map<Key, Cached>)

  function Start(cfg: Config, now: int): State {
    State(cfg, now, map[], map[], [], 0, 0, [], None, Stats(0, 0, 0, 0, 0), [], [], map[])
  }

  datatype Event =
    | Tick(ms: nat)
    | Request(key: Key, urgent: bool)
    | Reserve(t: nat)
    | TurnBegins
    | TurnGranted
    | Fetch(t: nat)
    | FetchFails(t: nat)
    | FetchRefused(t: nat, retriable: bool)
    | FetchOk(t: nat)
    | ParseFails(t: nat)
    | ParseOk(t: nat, value: Response)
    | WakeUp(t: nat)
    | Release(t: nat)
    | Unregister(t: nat)

  predicate At(s: State, t: nat, phase: Phase) {
    t < |s.tasks| && s.tasks[t].phase == phase
  }

  predicate Enabled(s: State, e: Event) {
    match e
    case Tick(_) => true
    case Request(_, _) => true
    case Reserve(t) => At(s, t, Ready)
    case TurnBegins => s.chain != [] && s.chain[0] < |s.tasks| && s.wakeAt == None
    case TurnGranted => s.chain != [] && s.chain[0] < |s.tasks| && s.wakeAt.Some? && s.clock >= s.wakeAt.value
    case Fetch(t) => At(s, t, Granted)
    case FetchFails(t) => At(s, t, Fetching)
    case FetchRefused(t, _) => At(s, t, Fetching)
    case FetchOk(t) => At(s, t, Fetching)
    case ParseFails(t) => At(s, t, Parsing)
    case ParseOk(t, _) => At(s, t, Parsing)
    case WakeUp(t) => At(s, t, Backoff)
    case Release(t) => t < |s.tasks| && s.tasks[t].phase.Finishing? && (s.queue != [] ==> s.queue[0] < |s.tasks|)
    case Unregister(t) => t < |s.tasks| && s.tasks[t].phase.Settled?
  }

  // ---- the steps ----

  function Move(s: State, t: nat, phase: Phase): State
    requires t < |s.tasks|
  {
    s.(tasks := s.tasks[t := s.tasks[t].(phase := phase)])
  }

  /** What a request finds in the cache right now. */
  function Lookup(s: State, key: Key): Option<Response> {
    if key in s.cache && s.cache[key].expiresAt > s.clock then Some(s.cache[key].value) else None
  }

  function DropExpired(s: State, key: Key): State {
    if key in s.cache && s.cache[key].expiresAt <= s.clock then s.(cache := s.cache - {key}) else s
  }

  /** A new task takes a free slot at once or joins the queue, in front if it is urgent. */
  function StartTask(s: State, key: Key, urgent: bool): State {
    var t := |s.tasks|;
    var free := s.active < s.cfg.maxConcurrency;
    s.(tasks := s.tasks + [Task(key, 0, 0, if free then Ready else Queued)],
       active := if free then s.active + 1 else s.active,
       queue := if free then s.queue else if urgent then [t] + s.queue else s.queue + [t],
       inFlight := s.inFlight[key := t])
  }

  function DoRequest(s: State, key: Key, urgent: bool): State {
    var counted := s.(stats := s.stats.(total := s.stats.total + 1));
    if Lookup(s, key).Some? then counted.(stats := counted.stats.(cached := counted.stats.cached + 1))
    else
      var kept := DropExpired(counted, key);
      if key in kept.inFlight then kept.(stats := kept.stats.(deduped := kept.stats.deduped + 1))
      else StartTask(kept, key, urgent)
  }

  function DoReserve(s: State, t: nat): State
    requires t < |s.tasks|
  {
    if s.cfg.minInterval == 0 then Move(s, t, Granted).(grants := s.grants + [s.clock])
    else Move(s, t, Pacing).(chain := s.chain + [t])
  }

  function BeginTurn(s: State): State {
    s.(wakeAt := Some(if s.nextStart > s.clock then s.nextStart else s.clock))
  }

  function GrantTurn(s: State): State
    requires s.chain != [] && s.chain[0] < |s.tasks|
  {
    Move(s, s.chain[0], Granted).(
      nextStart := s.clock + s.cfg.minInterval, chain := s.chain[1..], wakeAt := None, grants := s.grants + [s.clock])
  }

  function DoFetch(s: State, t: nat): State
    requires t < |s.tasks|
  {
    s.(tasks := s.tasks[t := s.tasks[t].(phase := Fetching, fetches := s.tasks[t].fetches + 1)])
  }

  /** A failed attempt is retried unless it was the last one or the failure is final. */
  function FailAttempt(s: State, t: nat, retriable: bool): State
    requires t < |s.tasks|
  {
    if !retriable || s.tasks[t].attempt >= s.cfg.maxRetries then
      Move(s, t, Finishing(Rejected)).(stats := s.stats.(failures := s.stats.failures + 1))
    else
      Move(s, t, Backoff).(stats := s.stats.(retries := s.stats.retries + 1))
  }

  const CACHE_LIMIT := 512

  function Prune(cache: map<Key, Cached>, now: int): map<Key, Cached> {
    map k | k in cache && cache[k].expiresAt > now :: cache[k]
  }

  function Remember(s: State, key: Key, value: Response): State {
    if s.cfg.ttl == 0 then s
    else
      var cache := s.cache[key := Cached(value, s.clock + s.cfg.ttl)];
      s.(cache := if |cache| > CACHE_LIMIT then Prune(cache, s.clock) else cache)
  }

  function Succeed(s: State, t: nat, value: Response): State
    requires t < |s.tasks|
  {
    var key := s.tasks[t].key;
    Move(Remember(s, key, value), t, Finishing(Fulfilled(value))).(
      latest := s.latest[key := Cached(value, s.clock + s.cfg.ttl)])
  }

  function Retry(s: State, t: nat): State
    requires t < |s.tasks|
  {
    s.(tasks := s.tasks[t := s.tasks[t].(phase := Ready, attempt := s.tasks[t].attempt + 1)])
  }

  /** Gives the slot back and hands it to the head of the queue. */
  function DoRelease(s: State, t: nat): State
    requires t < |s.tasks| && s.tasks[t].phase.Finishing? && (s.queue != [] ==> s.queue[0] < |s.tasks|)
  {
    var free := Move(s, t, Settled(s.tasks[t].phase.result));
    if s.queue == [] then free.(active := if s.active > 0 then s.active - 1 else 0)
    else Move(free, s.queue[0], Ready).(queue := s.queue[1..], active := (if s.active > 0 then s.active - 1 else 0) + 1)
  }

  function DoUnregister(s: State, t: nat): State
    requires t < |s.tasks| && s.tasks[t].phase.Settled?
  {
    var key := s.tasks[t].key;
    Move(s, t, Done(s.tasks[t].phase.result)).(
      inFlight := if key in s.inFlight && s.inFlight[key] == t then s.inFlight - {key} else s.inFlight)
  }

  function Apply(s: State, e: Event): State
    requires Enabled(s, e)
  {
    match e
    case Tick(ms) => s.(clock := s.clock + ms)
    case Request(key, urgent) => DoRequest(s, key, urgent)
    case Reserve(t) => DoReserve(s, t)
    case TurnBegins => BeginTurn(s)
    case TurnGranted => GrantTurn(s)
    case Fetch(t) => DoFetch(s, t)
    case FetchFails(t) => FailAttempt(s, t, true)
    case FetchRefused(t, retriable) => FailAttempt(s, t, retriable)
    case FetchOk(t) => Move(s, t, Parsing)
    case ParseFails(t) => Move(s, t, Finishing(Rejected))
    case ParseOk(t, value) => Succeed(s, t, value)
    case WakeUp(t) => Retry(s, t)
    case Release(t) => DoRelease(s, t)
    case Unregister(t) => DoUnregister(s, t)
  }

  /** A run: any sequence of steps, each enabled where it is taken. */
  ghost predicate Runs(s: State, events: seq<Event>, end: State)
    decreases |events|
  {
    if events == [] then end == s
    else Enabled(s, events[0]) && Runs(Apply(s, events[0]), events[1..], end)
  }

  ghost predicate Reachable(cfg: Config, now: int, s: State) {
    exists events :: Runs(Start(cfg, now), events, s)
  }

  // ---- slots ----

  predicate HoldsSlot(phase: Phase) {
    !phase.Queued? && !phase.Settled? && !phase.Done?
  }

  function Holders(tasks: seq<Task>): set<nat> {
    set t: nat | t < |tasks| && HoldsSlot(tasks[t].phase)
  }

  /** The list names exactly the tasks in that phase, each once. */
  ghost predicate Lists(list: seq<nat>, tasks: seq<Task>, phase: Phase) {
    && Distinct(list)
    && forall t: nat :: t in list <==> t < |tasks| && tasks[t].phase == phase
  }

  ghost predicate SlotsAccounted(s: State) {
    && s.active == |Holders(s.tasks)|
    && s.active <= s.cfg.maxConcurrency
    && Lists(s.queue, s.tasks, Queued)
    && (s.queue != [] ==> s.active == s.cfg.maxConcurrency)
  }

  lemma HoldersUpdate(tasks: seq<Task>, t: nat, task: Task)
    requires t < |tasks|
    ensures Holders(tasks[t := task])
         == if HoldsSlot(task.phase) then Holders(tasks) + {t} else Holders(tasks) - {t}
  {
  }

  lemma HoldersAppend(tasks: seq<Task>, task: Task)
    ensures Holders(tasks + [task])
         == if HoldsSlot(task.phase) then Holders(tasks) + {|tasks|} else Holders(tasks)
  {
  }

  lemma SamePhaseKeepsLists(list: seq<nat>, tasks: seq<Task>, t: nat, task: Task, phase: Phase)
    requires t < |tasks| && Lists(list, tasks, phase)
    requires (task.phase == phase) == (tasks[t].phase == phase)
    ensures Lists(list, tasks[t := task], phase)
  {
  }

  lemma RemoveFromLists(list: seq<nat>, tasks: seq<Task>, task: Task, phase: Phase)
    requires list != [] && Lists(list, tasks, phase) && task.phase != phase
    ensures list[0] < |tasks| && Lists(list[1..], tasks[list[0] := task], phase)
  {
    assert list[0] in list && list == [list[0]] + list[1..];
    assert forall t: nat :: t in list <==> t == list[0] || t in list[1..];
    assert forall k :: 0 <= k < |list[1..]| ==> list[1..][k] == list[k + 1];
    assert list[0] !in list[1..];
  }

  lemma AppendToLists(list: seq<nat>, tasks: seq<Task>, t: nat, task: Task, phase: Phase)
    requires t < |tasks| && Lists(list, tasks, phase) && tasks[t].phase != phase && task.phase == phase
    ensures Lists(list + [t], tasks[t := task], phase)
  {
    assert t !in list;
  }

  lemma NewTaskLists(list: seq<nat>, tasks: seq<Task>, task: Task, phase: Phase, front: bool)
    requires Lists(list, tasks, phase)
    ensures var t := |tasks|;
      if task.phase != phase then Lists(list, tasks + [task], phase)
      else Lists(if front then [t] + list else list + [t], tasks + [task], phase)
  {
    assert |tasks| !in list;
  }

  // ---- the shapes that steps have ----

  /** A step that leaves every task where it is. */
  predicate Quiet(s: State, s': State) {
    && s'.tasks == s.tasks && s'.cfg == s.cfg && s'.queue == s.queue && s'.active == s.active
    && s'.inFlight == s.inFlight && s'.chain == s.chain
  }

  /** A step of one task that holds a slot before and after. */
  predicate Moves(s: State, s': State, t: nat) {
    && t < |s.tasks| && |s'.tasks| == |s.tasks|
    && s'.tasks == s.tasks[t := s'.tasks[t]]
    && s'.tasks[t].key == s.tasks[t].key
    && HoldsSlot(s.tasks[t].phase) && HoldsSlot(s'.tasks[t].phase)
    && s'.cfg == s.cfg && s'.queue == s.queue && s'.active == s.active && s'.inFlight == s.inFlight
  }

  /** The task that a step moves while it keeps its slot. */
  function Mover(s: State, e: Event): Option<nat> {
    match e
    case Reserve(t) => Some(t)
    case TurnGranted => if s.chain != [] then Some(s.chain[0]) else None
    case Fetch(t) => Some(t)
    case FetchFails(t) => Some(t)
    case FetchRefused(t, _) => Some(t)
    case FetchOk(t) => Some(t)
    case ParseFails(t) => Some(t)
    case ParseOk(t, _) => Some(t)
    case WakeUp(t) => Some(t)
    case _ => None
  }

  /** The head of a waiting list is in its phase. */
  predicate HeadIn(list: seq<nat>, tasks: seq<Task>, phase: Phase) {
    list != [] ==> list[0] < |tasks| && tasks[list[0]].phase == phase
  }

  /** The attempts of a task stay within the bound, and its fetches follow its attempts. */
  predicate BoundedTask(task: Task, maxRetries: nat) {
    && task.attempt <= maxRetries
    && match task.phase
       case Queued => task.attempt == 0 && task.fetches == 0
       case Ready => task.fetches == task.attempt
       case Pacing => task.fetches == task.attempt
       case Granted => task.fetches == task.attempt
       case Backoff => task.fetches == task.attempt + 1 && task.attempt < maxRetries
       case _ => task.fetches == task.attempt + 1
  }

  /** How many steps a task can still take. */
  function Rank(task: Task, maxRetries: nat): nat {
    var left := if task.attempt <= maxRetries then maxRetries - task.attempt else 0;
    match task.phase
    case Done(_) => 0
    case Settled(_) => 1
    case Finishing(_) => 2
    case Backoff => 8 * left + 3
    case Parsing => 8 * left + 3
    case Fetching => 8 * left + 4
    case Granted => 8 * left + 5
    case Pacing => 8 * left + 6
    case Ready => 8 * left + 7
    case Queued => 8 * left + 8
  }

  /** The step respects the bound on attempts and brings the task closer to its end. */
  predicate Advances(s: State, s': State, t: nat)
    requires t < |s.tasks| && t < |s'.tasks|
  {
    BoundedTask(s.tasks[t], s.cfg.maxRetries) ==>
      && BoundedTask(s'.tasks[t], s.cfg.maxRetries)
      && Rank(s'.tasks[t], s.cfg.maxRetries) < Rank(s.tasks[t], s.cfg.maxRetries)
  }

  /** A step inside an attempt: one task moves, and pacing and request counts stay as they are. */
  predicate Works(s: State, s': State, t: nat) {
    && Moves(s, s', t) && SamePace(s, s') && SameCounts(s, s')
    && s.tasks[t].phase != Pacing && s'.tasks[t].phase != Pacing
    && Advances(s, s', t)
  }

  predicate SameCounts(s: State, s': State) {
    && s'.stats.total == s.stats.total && s'.stats.cached == s.stats.cached && s'.stats.deduped == s.stats.deduped
    && |s'.tasks| == |s.tasks| && s'.cfg == s.cfg
  }

  lemma FetchWorks(s: State, t: nat)
    requires At(s, t, Granted)
    ensures Works(s, DoFetch(s, t), t) && SameCache(s, DoFetch(s, t))
  {
  }

  lemma FailWorks(s: State, t: nat, retriable: bool)
    requires At(s, t, Fetching)
    ensures Works(s, FailAttempt(s, t, retriable), t) && SameCache(s, FailAttempt(s, t, retriable))
  {
  }

  lemma BodyWorks(s: State, t: nat)
    requires At(s, t, Fetching)
    ensures Works(s, Move(s, t, Parsing), t) && SameCache(s, Move(s, t, Parsing))
  {
  }

  lemma RejectWorks(s: State, t: nat)
    requires At(s, t, Parsing)
    ensures Works(s, Move(s, t, Finishing(Rejected)), t) && SameCache(s, Move(s, t, Finishing(Rejected)))
  {
  }

  lemma SucceedWorks(s: State, t: nat, value: Response)
    requires At(s, t, Parsing)
    ensures Works(s, Succeed(s, t, value), t)
  {
    hide Prune;
  }

  lemma RetryWorks(s: State, t: nat)
    requires At(s, t, Backoff)
    ensures Works(s, Retry(s, t), t) && SameCache(s, Retry(s, t))
  {
  }

  lemma ReserveMoves(s: State, t: nat)
    requires At(s, t, Ready)
    ensures var s' := DoReserve(s, t);
      && Moves(s, s', t) && SameCounts(s, s') && SameCache(s, s') && Advances(s, s', t)
      && s'.wakeAt == s.wakeAt
  {
  }

  lemma GrantMoves(s: State)
    requires s.chain != [] && HeadIn(s.chain, s.tasks, Pacing)
    ensures var s' := GrantTurn(s);
      var t := s.chain[0];
      && Moves(s, s', t) && SameCounts(s, s') && SameCache(s, s') && Advances(s, s', t)
  {
  }

  predicate InAttempt(e: Event) {
    e.Fetch? || e.FetchFails? || e.FetchRefused? || e.FetchOk? || e.ParseFails? || e.ParseOk? || e.WakeUp?
  }

  lemma AttemptWorks(s: State, e: Event)
    requires Enabled(s, e) && InAttempt(e)
    ensures Works(s, Apply(s, e), Mover(s, e).value)
    ensures !e.ParseOk? ==> SameCache(s, Apply(s, e))
  {
    hide DoFetch, FailAttempt, Move, Succeed, Retry, Works, SameCache;
    match e
    case Fetch(t) => FetchWorks(s, t);
    case FetchFails(t) => FailWorks(s, t, true);
    case FetchRefused(t, retriable) => FailWorks(s, t, retriable);
    case FetchOk(t) => BodyWorks(s, t);
    case ParseFails(t) => RejectWorks(s, t);
    case ParseOk(t, value) => SucceedWorks(s, t, value);
    case WakeUp(t) => RetryWorks(s, t);
  }

  lemma MoverMoves(s: State, e: Event)
    requires Enabled(s, e) && Mover(s, e).Some? && HeadIn(s.chain, s.tasks, Pacing)
    ensures var t := Mover(s, e).value;
      && Moves(s, Apply(s, e), t) && SameCounts(s, Apply(s, e)) && Advances(s, Apply(s, e), t)
      && (!e.TurnGranted? ==> Apply(s, e).wakeAt == s.wakeAt)
  {
    hide DoReserve, GrantTurn, DoFetch, FailAttempt, Move, Succeed, Retry, Moves, SameCounts, Advances;
    match e
    case Reserve(t) => ReserveMoves(s, t);
    case TurnGranted => GrantMoves(s);
    case _ =>
      hide Apply, Enabled;
      AttemptWorks(s, e);
  }

  /** A request either changes no task, or starts one with the request counted. */
  lemma RequestShape(s: State, key: Key, urgent: bool)
    ensures var s' := DoRequest(s, key, urgent);
      || Quiet(s, s')
      || (key !in s.inFlight && s' == StartTask(DropExpired(s.(stats := s.stats.(total := s.stats.total + 1)), key),
                                                key, urgent))
  {
  }

  predicate StartedFrom(s: State, s': State, key: Key, urgent: bool) {
    var t := |s.tasks|;
    var free := s.active < s.cfg.maxConcurrency;
    && s'.tasks == s.tasks + [Task(key, 0, 0, if free then Ready else Queued)]
    && s'.active == (if free then s.active + 1 else s.active)
    && s'.queue == (if free then s.queue else if urgent then [t] + s.queue else s.queue + [t])
    && s'.inFlight == s.inFlight[key := t]
    && s'.cfg == s.cfg && s'.chain == s.chain
  }

  lemma RequestStarts(s: State, key: Key, urgent: bool)
    requires key !in s.inFlight
    ensures StartedFrom(s, StartTask(DropExpired(s.(stats := s.stats.(total := s.stats.total + 1)), key), key, urgent),
                        key, urgent)
  {
  }

  /** Of the fields that pacing is about, a step that is not about pacing changes none. */
  predicate SamePace(s: State, s': State) {
    s'.grants == s.grants && s'.clock == s.clock && s'.nextStart == s.nextStart && s'.chain == s.chain
    && s'.wakeAt == s.wakeAt && s'.cfg == s.cfg
  }

  lemma OthersOffPace(s: State, e: Event)
    requires Enabled(s, e) && (e.Request? || e.Release? || e.Unregister?)
    ensures SamePace(s, Apply(s, e))
  {
  }

  predicate SameCache(s: State, s': State) {
    s'.cache == s.cache && s'.latest == s.latest && s'.clock == s.clock && s'.cfg == s.cfg
  }

  lemma ReleaseOffCache(s: State, t: nat)
    requires Enabled(s, Release(t))
    ensures SameCache(s, DoRelease(s, t)) && SameCounts(s, DoRelease(s, t))
  {
  }

  lemma UnregisterOffCache(s: State, t: nat)
    requires Enabled(s, Unregister(t))
    ensures SameCache(s, DoUnregister(s, t)) && SameCounts(s, DoUnregister(s, t))
  {
  }

  /** The cache changes on requests and successes only, and the request counts on requests only. */
  lemma OthersOffCache(s: State, e: Event)
    requires Enabled(s, e) && HeadIn(s.chain, s.tasks, Pacing) && !e.Request?
    ensures SameCounts(s, Apply(s, e))
    ensures !e.Tick? && !e.ParseOk? ==> SameCache(s, Apply(s, e))
  {
    hide DoReserve, GrantTurn, DoFetch, FailAttempt, Move, Succeed, Retry, DoRelease, DoUnregister, Works;
    match e
    case Tick(_) =>
    case TurnBegins =>
    case Reserve(t) => ReserveMoves(s, t);
    case TurnGranted => GrantMoves(s);
    case Release(t) => ReleaseOffCache(s, t);
    case Unregister(t) => UnregisterOffCache(s, t);
    case _ =>
      hide Apply, Enabled, SameCache, SameCounts;
      MoverMoves(s, e);
      AttemptWorks(s, e);
  }
}
