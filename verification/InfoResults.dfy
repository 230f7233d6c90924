/**
 What the request coordinator delivers, told from the events of a run: the result
 of every task, the answer of the cache, the counters and the time of every turn.
 */
module InfoResults {
  import opened Prelude
  import opened InfoSteps
  import opened InfoInvariants
  import opened InfoProtocol

  // ---- the result of a task ----

  function ResultOf(task: Task): Option<Result> {
    match task.phase
    case Finishing(r) => Some(r)
    case Settled(r) => Some(r)
    case Done(r) => Some(r)
    case _ => None
  }

  /** A fetch of task `t` that failed, by network error or by a refused response. */
  predicate FailsFetch(e: Event, t: nat) {
    (e.FetchFails? && e.t == t) || (e.FetchRefused? && e.t == t)
  }

  /** How many fetches of task `t` have failed. */
  function FailedFetches(events: seq<Event>, t: nat): nat {
    if events == [] then 0
    else FailedFetches(events[..|events| - 1], t) + if FailsFetch(events[|events| - 1], t) then 1 else 0
  }

  /** What makes a task fail: an unreadable body, a final refusal, or one failure more than there are retries. */
  predicate Doomed(events: seq<Event>, t: nat, maxRetries: nat) {
    ParseFails(t) in events || FetchRefused(t, false) in events || FailedFetches(events, t) > maxRetries
  }

  /**
   A task has a result exactly when the run holds its reason: the body parsed for
   it, or what makes it fail.
   */
  ghost predicate ResultTold(task: Task, events: seq<Event>, t: nat, maxRetries: nat) {
    && (forall v :: ResultOf(task) == Some(Fulfilled(v)) <==> ParseOk(t, v) in events)
    && (ResultOf(task) == Some(Rejected) <==> Doomed(events, t, maxRetries))
  }

  ghost predicate ResultsTold(s: State, events: seq<Event>) {
    forall t :: 0 <= t < |s.tasks| ==> ResultTold(s.tasks[t], events, t, s.cfg.maxRetries)
  }

  /** The failures of a task, in step with its attempts. */
  predicate Tallied(task: Task, events: seq<Event>, t: nat) {
    FailedFetches(events, t)
    == task.attempt + if task.phase == Backoff || (ResultOf(task) == Some(Rejected) && ParseFails(t) !in events) then 1
                      else 0
  }

  /** Nothing has happened yet to a task that is still to come. */
  ghost predicate Unheard(events: seq<Event>, t: nat) {
    && ParseFails(t) !in events && FetchRefused(t, false) !in events && FailedFetches(events, t) == 0
    && forall v :: ParseOk(t, v) !in events
  }

  /** The run so far explains the state of every task. */
  ghost predicate Explains(s: State, events: seq<Event>) {
    && ResultsTold(s, events)
    && (forall t :: 0 <= t < |s.tasks| ==> Tallied(s.tasks[t], events, t))
    && (forall t: nat :: |s.tasks| <= t ==> Unheard(events, t))
  }

  /** An event that decides something about task `t`. */
  predicate About(e: Event, t: nat) {
    FailsFetch(e, t) || (e.ParseFails? && e.t == t) || (e.ParseOk? && e.t == t)
  }

  lemma OneMoreEvent(events: seq<Event>, e: Event, t: nat)
    ensures FailedFetches(events + [e], t) == FailedFetches(events, t) + if FailsFetch(e, t) then 1 else 0
    ensures forall x :: x in events + [e] <==> x in events || x == e
  {
    assert (events + [e])[..|events|] == events;
  }

  /** The same key, result and number of failed attempts. */
  predicate Alike(task: Task, task': Task) {
    && task'.key == task.key && ResultOf(task') == ResultOf(task)
    && task'.attempt + (if task'.phase == Backoff then 1 else 0)
       == task.attempt + (if task.phase == Backoff then 1 else 0)
  }

  /** An event about other tasks tells nothing new about this one. */
  lemma OthersSayNothing(task: Task, task': Task, events: seq<Event>, e: Event, t: nat, maxRetries: nat)
    requires ResultTold(task, events, t, maxRetries) && Tallied(task, events, t) && !About(e, t)
    requires Alike(task, task')
    ensures ResultTold(task', events + [e], t, maxRetries) && Tallied(task', events + [e], t)
  {
    OneMoreEvent(events, e, t);
    hide FailedFetches;
  }

  lemma StillUnheard(events: seq<Event>, e: Event, t: nat)
    requires Unheard(events, t) && !About(e, t)
    ensures Unheard(events + [e], t)
  {
    OneMoreEvent(events, e, t);
    hide FailedFetches;
  }

  /** A new task has no result and no failure. */
  lemma NewIsTold(task: Task, events: seq<Event>, t: nat, maxRetries: nat)
    requires Unheard(events, t) && ResultOf(task) == None && task.attempt == 0 && task.phase != Backoff
    ensures ResultTold(task, events, t, maxRetries) && Tallied(task, events, t)
  {
    hide FailedFetches;
  }

  lemma SuccessIsTold(task: Task, events: seq<Event>, t: nat, value: Response, maxRetries: nat)
    requires ResultTold(task, events, t, maxRetries) && Tallied(task, events, t) && task.phase == Parsing
    ensures var task' := task.(phase := Finishing(Fulfilled(value)));
      ResultTold(task', events + [ParseOk(t, value)], t, maxRetries) && Tallied(task', events + [ParseOk(t, value)], t)
  {
    OneMoreEvent(events, ParseOk(t, value), t);
    hide FailedFetches;
  }

  lemma BadBodyIsTold(task: Task, events: seq<Event>, t: nat, maxRetries: nat)
    requires ResultTold(task, events, t, maxRetries) && Tallied(task, events, t) && task.phase == Parsing
    ensures var task' := task.(phase := Finishing(Rejected));
      ResultTold(task', events + [ParseFails(t)], t, maxRetries) && Tallied(task', events + [ParseFails(t)], t)
  {
    OneMoreEvent(events, ParseFails(t), t);
    hide FailedFetches;
  }

  lemma FailureIsTold(task: Task, events: seq<Event>, e: Event, t: nat, maxRetries: nat)
    requires ResultTold(task, events, t, maxRetries) && Tallied(task, events, t) && task.phase == Fetching
    requires FailsFetch(e, t) && task.attempt <= maxRetries
    ensures var last := e == FetchRefused(t, false) || task.attempt == maxRetries;
      var task' := task.(phase := if last then Finishing(Rejected) else Backoff);
      ResultTold(task', events + [e], t, maxRetries) && Tallied(task', events + [e], t)
  {
    OneMoreEvent(events, e, t);
    hide FailedFetches;
  }

  /** What a step makes of the tasks, whatever it is about. */
  ghost predicate TasksStep(s: State, s': State, e: Event) {
    && s'.cfg == s.cfg && |s.tasks| <= |s'.tasks|
    && (forall u :: 0 <= u < |s.tasks| && !About(e, u) ==> Alike(s.tasks[u], s'.tasks[u]))
    && (forall u :: |s.tasks| <= u < |s'.tasks| ==>
          ResultOf(s'.tasks[u]) == None && s'.tasks[u].attempt == 0 && s'.tasks[u].phase != Backoff)
    && (forall u: nat :: About(e, u) ==> u < |s.tasks|)
  }

  lemma RequestTasksStep(s: State, e: Event)
    requires e.Request?
    ensures TasksStep(s, Apply(s, e), e)
  {
    RequestTasks(s, e.key, e.urgent);
    hide DoRequest;
  }

  lemma ReleaseTasksStep(s: State, e: Event)
    requires Enabled(s, e) && e.Release? && HeadIn(s.queue, s.tasks, Queued)
    ensures TasksStep(s, Apply(s, e), e)
  {
  }

  lemma UnregisterTasksStep(s: State, e: Event)
    requires Enabled(s, e) && e.Unregister?
    ensures TasksStep(s, Apply(s, e), e)
  {
  }

  lemma TurnTasksStep(s: State, e: Event)
    requires Enabled(s, e) && e.TurnGranted? && HeadIn(s.chain, s.tasks, Pacing)
    ensures TasksStep(s, Apply(s, e), e)
  {
  }

  lemma ReserveTasksStep(s: State, e: Event)
    requires Enabled(s, e) && e.Reserve?
    ensures TasksStep(s, Apply(s, e), e)
  {
    hide DoRequest, Succeed, DoRelease, DoUnregister, FailAttempt, Retry, DoFetch, GrantTurn, BeginTurn;
  }

  lemma QuietTasksStep(s: State, e: Event)
    requires Enabled(s, e) && (e.Tick? || e.TurnBegins?)
    ensures TasksStep(s, Apply(s, e), e)
  {
  }

  lemma AttemptTasksStep(s: State, e: Event)
    requires Enabled(s, e) && InAttempt(e)
    ensures TasksStep(s, Apply(s, e), e)
  {
    AttemptWorks(s, e);
    MoverInRange(s, e);
    var t := Mover(s, e).value;
    if !About(e, t) {
      UndecidedAlike(s, e, t);
    }
    hide Apply, Enabled, Alike;
  }

  /** A fetch that starts, arrives or is taken up again decides nothing. */
  lemma UndecidedAlike(s: State, e: Event, t: nat)
    requires Enabled(s, e) && InAttempt(e) && Mover(s, e) == Some(t) && t < |s.tasks| && !About(e, t)
    ensures |Apply(s, e).tasks| == |s.tasks| && Alike(s.tasks[t], Apply(s, e).tasks[t])
  {
  }

  lemma StepTasks(s: State, e: Event)
    requires Inv(s) && Enabled(s, e)
    ensures TasksStep(s, Apply(s, e), e)
  {
    HeadsInPhase(s);
    hide Inv, Apply, Enabled, TasksStep, HeadIn;
    if e.Request? {
      RequestTasksStep(s, e);
    } else if e.Reserve? {
      ReserveTasksStep(s, e);
    } else if e.TurnGranted? {
      TurnTasksStep(s, e);
    } else if e.Release? {
      ReleaseTasksStep(s, e);
    } else if e.Unregister? {
      UnregisterTasksStep(s, e);
    } else if e.Tick? || e.TurnBegins? {
      QuietTasksStep(s, e);
    } else {
      AttemptTasksStep(s, e);
    }
  }

  /** Only the phase of the task that an event is about changes. */
  lemma SubjectMoves(s: State, e: Event, t: nat)
    requires Enabled(s, e) && About(e, t) && t < |s.tasks|
    ensures s.tasks[t].phase == if e.ParseOk? || e.ParseFails? then Parsing else Fetching
    ensures Apply(s, e).tasks
         == s.tasks[t := s.tasks[t].(phase :=
              if e.ParseOk? then Finishing(Fulfilled(e.value))
              else if e.ParseFails? || e == FetchRefused(t, false) || s.tasks[t].attempt >= s.cfg.maxRetries
              then Finishing(Rejected) else Backoff)]
  {
    hide Prune;
  }

  /** The task that an event is about ends up with the result that the event brings. */
  lemma SubjectIsTold(s: State, events: seq<Event>, e: Event, t: nat)
    requires Inv(s) && Enabled(s, e) && About(e, t) && t < |s.tasks|
    requires ResultTold(s.tasks[t], events, t, s.cfg.maxRetries) && Tallied(s.tasks[t], events, t)
    ensures |Apply(s, e).tasks| == |s.tasks|
    ensures ResultTold(Apply(s, e).tasks[t], events + [e], t, s.cfg.maxRetries)
    ensures Tallied(Apply(s, e).tasks[t], events + [e], t)
    ensures Apply(s, e).tasks[t].key == s.tasks[t].key
  {
    assert BoundedTask(s.tasks[t], s.cfg.maxRetries);
    hide Apply, Enabled, ResultTold, Tallied, Inv;
    SubjectMoves(s, e, t);
    if e.ParseOk? {
      SuccessIsTold(s.tasks[t], events, t, e.value, s.cfg.maxRetries);
    } else if e.ParseFails? {
      BadBodyIsTold(s.tasks[t], events, t, s.cfg.maxRetries);
    } else {
      FailureIsTold(s.tasks[t], events, e, t, s.cfg.maxRetries);
    }
  }

  /** Every step adds the explanation of what it changes. */
  lemma StepExplains(s: State, events: seq<Event>, e: Event)
    requires Inv(s) && Enabled(s, e) && Explains(s, events)
    ensures Explains(Apply(s, e), events + [e])
  {
    StepTasks(s, e);
    hide Inv, Enabled, Apply, ResultTold, Tallied, Unheard, About;
    var s' := Apply(s, e);
    forall t | 0 <= t < |s'.tasks|
      ensures ResultTold(s'.tasks[t], events + [e], t, s.cfg.maxRetries) && Tallied(s'.tasks[t], events + [e], t)
    {
      if t >= |s.tasks| {
        StillUnheard(events, e, t);
        NewIsTold(s'.tasks[t], events + [e], t, s.cfg.maxRetries);
      } else if About(e, t) {
        SubjectIsTold(s, events, e, t);
      } else {
        OthersSayNothing(s.tasks[t], s'.tasks[t], events, e, t, s.cfg.maxRetries);
      }
    }
    forall t: nat | |s'.tasks| <= t ensures Unheard(events + [e], t) {
      StillUnheard(events, e, t);
    }
  }

  lemma {:induction false} RunExplains(s: State, past: seq<Event>, events: seq<Event>, end: State)
    requires Inv(s) && Explains(s, past) && Runs(s, events, end)
    ensures Explains(end, past + events)
    decreases |events|
  {
    hide Inv, Enabled, Apply, Explains;
    if events == [] {
      assert past + [] == past;
    } else {
      StepKeepsInv(s, events[0]);
      StepExplains(s, past, events[0]);
      RunExplains(Apply(s, events[0]), past + [events[0]], events[1..], end);
      assert past + [events[0]] + events[1..] == past + events;
    }
  }

  lemma StartIsSound(cfg: Config, now: int)
    requires ValidConfig(cfg)
    ensures Inv(Start(cfg, now)) && Explains(Start(cfg, now), [])
  {
    assert Holders(Start(cfg, now).tasks) == {};
  }

  /**
   Every result has its reason: in every run a task is fulfilled with a value
   exactly when that value was parsed for it, and rejected exactly when its body
   could not be read, it was refused for good, or it failed once more than there
   are retries.
   */
  lemma ResultsAreTold(cfg: Config, now: int, events: seq<Event>, end: State)
    requires ValidConfig(cfg) && Runs(Start(cfg, now), events, end)
    ensures ResultsTold(end, events)
  {
    hide Inv, Runs, ResultsTold;
    StartIsSound(cfg, now);
    RunExplains(Start(cfg, now), [], events, end);
    assert [] + events == events;
  }

  // ---- results last, and callers get theirs ----

  lemma StepKeepsResult(s: State, e: Event, t: nat)
    requires Inv(s) && Enabled(s, e) && t < |s.tasks|
    ensures t < |Apply(s, e).tasks| && Apply(s, e).tasks[t].key == s.tasks[t].key
    ensures ResultOf(s.tasks[t]).Some? ==> ResultOf(Apply(s, e).tasks[t]) == ResultOf(s.tasks[t])
  {
    hide Inv, Apply, Enabled, About;
    StepTasks(s, e);
    if About(e, t) {
      SubjectMoves(s, e, t);
    }
  }

  /** A task keeps its key, and its result once it has one. */
  lemma {:induction false} ResultsLast(s: State, events: seq<Event>, end: State, t: nat)
    requires Inv(s) && Runs(s, events, end) && t < |s.tasks|
    ensures t < |end.tasks| && end.tasks[t].key == s.tasks[t].key
    ensures ResultOf(s.tasks[t]).Some? ==> ResultOf(end.tasks[t]) == ResultOf(s.tasks[t])
    decreases |events|
  {
    if events != [] {
      hide Inv, Enabled, Apply;
      StepKeepsInv(s, events[0]);
      StepKeepsResult(s, events[0], t);
      ResultsLast(Apply(s, events[0]), events[1..], end, t);
    }
  }

  lemma RunsCons(s: State, e: Event, rest: seq<Event>, end: State)
    ensures Runs(s, [e] + rest, end) <==> Enabled(s, e) && Runs(Apply(s, e), rest, end)
  {
    hide Enabled, Apply;
    assert ([e] + rest)[1..] == rest;
  }

  lemma {:induction false} RunsJoin(s: State, a: seq<Event>, mid: State, b: seq<Event>, end: State)
    requires Runs(s, a, mid) && Runs(mid, b, end)
    ensures Runs(s, a + b, end)
    decreases |a|
  {
    hide Enabled, Apply;
    if a == [] {
      assert a + b == b;
    } else {
      RunsJoin(Apply(s, a[0]), a[1..], mid, b, end);
      RunsCons(s, a[0], a[1..] + b, end);
      assert a + b == [a[0]] + (a[1..] + b);
    }
  }

  /**
   What a caller that is not served from the cache gets: the task it waits for is
   one of its own key, and delivers a value exactly when that body was parsed for it.
   */
  lemma CallerGetsBody(cfg: Config, now: int, past: seq<Event>, s: State, key: Key, urgent: bool, events: seq<Event>,
                       end: State)
    requires ValidConfig(cfg) && Runs(Start(cfg, now), past, s)
    requires Runs(DoRequest(s, key, urgent), events, end)
    ensures var answer, all := AnswerTo(s, key), past + [Event.Request(key, urgent)] + events;
      !answer.Hit? ==>
        && answer.task < |end.tasks| && end.tasks[answer.task].key == key
        && forall v :: ResultOf(end.tasks[answer.task]) == Some(Fulfilled(v)) <==> ParseOk(answer.task, v) in all
  {
    StartIsSound(cfg, now);
    RunKeepsInv(Start(cfg, now), past, s);
    InvIsSingle(s);
    RequestIsServed(s, key, urgent);
    var request := Event.Request(key, urgent);
    StepKeepsInv(s, request);
    OneStep(s, request);
    RunsJoin(Start(cfg, now), past, s, [request], DoRequest(s, key, urgent));
    RunsJoin(Start(cfg, now), past + [request], DoRequest(s, key, urgent), events, end);
    ResultsAreTold(cfg, now, past + [request] + events, end);
    hide Inv, Runs, DoRequest, Lookup;
    if !AnswerTo(s, key).Hit? {
      ResultsLast(DoRequest(s, key, urgent), events, end, AnswerTo(s, key).task);
    }
  }

  lemma InvIsSingle(s: State)
    requires Inv(s)
    ensures SingleFlight(s) && CacheAgrees(s)
  {
  }

  lemma OneStep(s: State, e: Event)
    requires Enabled(s, e)
    ensures Runs(s, [e], Apply(s, e))
  {
    assert [e][1..] == [];
    assert Runs(Apply(s, e), [e][1..], Apply(s, e));
  }

  // ---- what the cache answers ----

  function ElapsedIn(events: seq<Event>): nat {
    if events == [] then 0
    else ElapsedIn(events[..|events| - 1]) + match events[|events| - 1] case Tick(ms) => ms case _ => 0
  }

  /** Event `j` parsed a body of this key. */
  ghost predicate Delivers(s: State, events: seq<Event>, key: Key, j: nat) {
    j < |events| && events[j].ParseOk? && events[j].t < |s.tasks| && s.tasks[events[j].t].key == key
  }

  /** Event `j` parsed the latest body of this key. */
  ghost predicate DeliversLast(s: State, events: seq<Event>, key: Key, j: nat) {
    Delivers(s, events, key, j) && forall k: nat :: j < k < |events| ==> !Delivers(s, events, key, k)
  }

  /** The latest success on record is the latest body of the run, with its expiry. */
  ghost predicate LatestTold(s: State, events: seq<Event>, now: int, key: Key) {
    if key in s.latest then
      exists j: nat :: (DeliversLast(s, events, key, j)
                        && s.latest[key] == Cached(events[j].value, now + ElapsedIn(events[..j]) + s.cfg.ttl))
    else forall j: nat :: !Delivers(s, events, key, j)
  }

  ghost predicate CacheTold(s: State, events: seq<Event>, now: int) {
    && s.clock == now + ElapsedIn(events)
    && forall key :: LatestTold(s, events, now, key)
  }

  lemma DeliversNext(s: State, s': State, events: seq<Event>, e: Event, key: Key, j: nat)
    requires TasksStep(s, s', e) && (forall u :: 0 <= u < |s.tasks| ==> s'.tasks[u].key == s.tasks[u].key)
    requires forall k :: 0 <= k < |events| && events[k].ParseOk? ==> events[k].t < |s.tasks|
    requires e.ParseOk? ==> e.t < |s.tasks|
    ensures Delivers(s', events + [e], key, j)
       <==> Delivers(s, events, key, j) || (j == |events| && e.ParseOk? && s.tasks[e.t].key == key)
  {
  }

  function TicksOf(e: Event): nat { match e case Tick(ms) => ms case _ => 0 }

  lemma ParseOkRecords(s: State, e: Event)
    requires Enabled(s, e) && e.ParseOk?
    ensures var s' := Apply(s, e);
      && e.t < |s.tasks| && s'.latest == s.latest[s.tasks[e.t].key := Cached(e.value, s.clock + s.cfg.ttl)]
      && s'.clock == s.clock && s'.cfg == s.cfg
  {
    hide Prune;
  }

  lemma RequestRecordsNothing(s: State, e: Event)
    requires e.Request?
    ensures var s' := Apply(s, e);
      s'.latest == s.latest && s'.clock == s.clock && s'.cfg == s.cfg
  {
  }

  lemma TickRecordsNothing(s: State, e: Event)
    requires e.Tick?
    ensures var s' := Apply(s, e); s'.latest == s.latest && s'.clock == s.clock + TicksOf(e) && s'.cfg == s.cfg
  {
  }

  /** Only a parsed body changes the latest success of a key, and only the clock moves the clock. */
  lemma StepRecords(s: State, e: Event)
    requires Inv(s) && Enabled(s, e)
    ensures e.ParseOk? ==> e.t < |s.tasks|
    ensures Apply(s, e).latest == if e.ParseOk? then s.latest[s.tasks[e.t].key := Cached(e.value, s.clock + s.cfg.ttl)]
                                  else s.latest
    ensures Apply(s, e).clock == s.clock + TicksOf(e) && Apply(s, e).cfg == s.cfg
  {
    HeadsInPhase(s);
    hide Inv, Apply, Enabled;
    if e.ParseOk? {
      ParseOkRecords(s, e);
    } else if e.Request? {
      RequestRecordsNothing(s, e);
    } else if e.Tick? {
      TickRecordsNothing(s, e);
    } else {
      OthersOffCache(s, e);
    }
  }

  lemma ElapsedNext(events: seq<Event>, e: Event)
    ensures ElapsedIn(events + [e]) == ElapsedIn(events) + TicksOf(e)
    ensures forall j :: 0 <= j <= |events| ==> (events + [e])[..j] == events[..j]
  {
    assert (events + [e])[..|events|] == events;
  }

  /** The event that a record of a key comes from. */
  lemma RecordedAt(s: State, events: seq<Event>, now: int, key: Key) returns (j: nat)
    requires LatestTold(s, events, now, key) && key in s.latest
    ensures j < |events| && events[j].ParseOk? && DeliversLast(s, events, key, j)
    ensures s.latest[key] == Cached(events[j].value, now + ElapsedIn(events[..j]) + s.cfg.ttl)
  {
    j :| DeliversLast(s, events, key, j)
         && s.latest[key] == Cached(events[j].value, now + ElapsedIn(events[..j]) + s.cfg.ttl);
  }

  lemma LatestNext(s: State, s': State, events: seq<Event>, e: Event, now: int, key: Key)
    requires LatestTold(s, events, now, key) && s.clock == now + ElapsedIn(events) && s'.cfg == s.cfg
    requires forall j: nat :: (Delivers(s', events + [e], key, j)
      <==> Delivers(s, events, key, j) || (j == |events| && e.ParseOk? && e.t < |s.tasks| && s.tasks[e.t].key == key))
    requires e.ParseOk? ==> e.t < |s.tasks|
    requires s'.latest == if e.ParseOk? then s.latest[s.tasks[e.t].key := Cached(e.value, s.clock + s.cfg.ttl)]
                          else s.latest
    ensures LatestTold(s', events + [e], now, key)
  {
    hide Delivers, ElapsedIn;
    if e.ParseOk? && s.tasks[e.t].key == key {
      NewestDelivers(s, s', events, e, now, key);
    } else if key in s.latest {
      StillLatest(s, s', events, e, now, key);
    }
  }

  /** The body that just arrived is the latest of its key. */
  lemma NewestDelivers(s: State, s': State, events: seq<Event>, e: Event, now: int, key: Key)
    requires s.clock == now + ElapsedIn(events) && s'.cfg == s.cfg && e.ParseOk?
    requires Delivers(s', events + [e], key, |events|)
    requires key in s'.latest && s'.latest[key] == Cached(e.value, s.clock + s.cfg.ttl)
    ensures LatestTold(s', events + [e], now, key)
  {
    var all := events + [e];
    hide Delivers, ElapsedIn;
    assert all[..|events|] == events && all[|events|] == e;
    assert DeliversLast(s', all, key, |events|);
  }

  /** Any other event leaves the latest body of a key what it was. */
  lemma StillLatest(s: State, s': State, events: seq<Event>, e: Event, now: int, key: Key)
    requires LatestTold(s, events, now, key) && s'.cfg == s.cfg
    requires forall j: nat :: Delivers(s', events + [e], key, j) <==> Delivers(s, events, key, j)
    requires key in s.latest && key in s'.latest && s'.latest[key] == s.latest[key]
    ensures LatestTold(s', events + [e], now, key)
  {
    var all := events + [e];
    var j := RecordedAt(s, events, now, key);
    hide Delivers, ElapsedIn;
    assert all[..j] == events[..j] && all[j] == events[j];
    assert DeliversLast(s', all, key, j);
  }

  lemma HeardInRange(s: State, events: seq<Event>)
    requires Explains(s, events)
    ensures forall k :: 0 <= k < |events| && events[k].ParseOk? ==> events[k].t < |s.tasks|
  {
    hide ResultsTold, Tallied;
    forall k | 0 <= k < |events| && events[k].ParseOk? ensures events[k].t < |s.tasks| {
      var heard := events[k];
      assert ParseOk(heard.t, heard.value) in events;
      assert heard.t >= |s.tasks| ==> Unheard(events, heard.t);
    }
  }

  lemma ParsesOwn(s: State, e: Event)
    requires Enabled(s, e) && e.ParseOk?
    ensures e.t < |s.tasks|
  {
  }

  lemma StepTellsCache(s: State, events: seq<Event>, e: Event, now: int)
    requires Inv(s) && Enabled(s, e) && Explains(s, events) && CacheTold(s, events, now)
    ensures CacheTold(Apply(s, e), events + [e], now)
  {
    hide Inv, Enabled, Apply, Explains, TasksStep, LatestTold, Delivers;
    StepTasks(s, e);
    StepRecords(s, e);
    ElapsedNext(events, e);
    HeardInRange(s, events);
    if e.ParseOk? {
      ParsesOwn(s, e);
    }
    var s' := Apply(s, e);
    forall u | 0 <= u < |s.tasks| ensures u < |s'.tasks| && s'.tasks[u].key == s.tasks[u].key {
      StepKeepsResult(s, e, u);
    }
    forall key ensures LatestTold(s', events + [e], now, key) {
      forall j: nat ensures Delivers(s', events + [e], key, j)
        <==> Delivers(s, events, key, j) || (j == |events| && e.ParseOk? && e.t < |s.tasks| && s.tasks[e.t].key == key)
      {
        DeliversNext(s, s', events, e, key, j);
      }
      LatestNext(s, s', events, e, now, key);
    }
  }

  lemma {:induction false} RunTellsCache(s: State, past: seq<Event>, events: seq<Event>, end: State, now: int)
    requires Inv(s) && Explains(s, past) && CacheTold(s, past, now) && Runs(s, events, end)
    ensures CacheTold(end, past + events, now)
    decreases |events|
  {
    hide Inv, Enabled, Apply, Explains, CacheTold;
    if events == [] {
      assert past + [] == past;
    } else {
      StepKeepsInv(s, events[0]);
      StepExplains(s, past, events[0]);
      StepTellsCache(s, past, events[0], now);
      RunTellsCache(Apply(s, events[0]), past + [events[0]], events[1..], end, now);
      assert past + [events[0]] + events[1..] == past + events;
    }
  }

  /**
   What the cache answers, in every run: the latest body parsed for the key, while
   it is younger than the time to live.
   */
  lemma AnswersAreTold(cfg: Config, now: int, events: seq<Event>, end: State, key: Key, value: Response)
    requires ValidConfig(cfg) && Runs(Start(cfg, now), events, end)
    ensures Lookup(end, key) == Some(value)
       <==> exists j: nat :: (DeliversLast(end, events, key, j) && events[j].value == value
                              && ElapsedIn(events) < ElapsedIn(events[..j]) + cfg.ttl)
  {
    StartIsSound(cfg, now);
    StartTellsCache(cfg, now);
    RunTellsCache(Start(cfg, now), [], events, end, now);
    assert [] + events == events;
    RunKeepsInv(Start(cfg, now), events, end);
    InvIsSingle(end);
    LookupIsFreshest(end, key);
    RunKeepsConfig(Start(cfg, now), events, end);
    hide Inv, Runs, CacheAgrees, SingleFlight, Lookup;
    assert LatestTold(end, events, now, key);
    forall i: nat, j: nat | DeliversLast(end, events, key, i) && DeliversLast(end, events, key, j) ensures i == j {
    }
    hide Delivers;
  }

  lemma StartTellsCache(cfg: Config, now: int)
    ensures CacheTold(Start(cfg, now), [], now)
  {
  }

  lemma {:induction false} RunKeepsConfig(s: State, events: seq<Event>, end: State)
    requires Inv(s) && Runs(s, events, end)
    ensures end.cfg == s.cfg
    decreases |events|
  {
    RunUsesWork(s, events, end);
  }

  /**
   What a step does to the stored responses: a body is stored under its key, and
   when there are then more than 512 responses only those that live on stay; a
   request may drop the expired response of its key; no other step touches them.
   */
  ghost predicate StoreTold(s: State, s': State, e: Event)
    requires e.ParseOk? ==> e.t < |s.tasks|
  {
    match e
    case ParseOk(t, value) =>
      if s.cfg.ttl == 0 then s'.cache == s.cache
      else
        var stored := s.cache[s.tasks[t].key := Cached(value, s.clock + s.cfg.ttl)];
        if |stored| <= 512 then s'.cache == stored
        else
          && (forall k :: k in s'.cache <==> k in stored && s.clock < stored[k].expiresAt)
          && forall k :: k in s'.cache ==> s'.cache[k] == stored[k]
    case Request(key, _) =>
      s'.cache == if key in s.cache && s.cache[key].expiresAt <= s.clock then s.cache - {key} else s.cache
    case _ => s'.cache == s.cache
  }

  lemma StoreIsTold(s: State, e: Event)
    requires Enabled(s, e)
    ensures e.ParseOk? ==> e.t < |s.tasks|
    ensures StoreTold(s, Apply(s, e), e)
  {
    if e.ParseOk? {
      BodyIsStored(s, e);
    } else if e.Request? {
      RequestDropsExpired(s, e);
    } else if InAttempt(e) {
      AttemptKeepsStore(s, e);
    } else {
      RestKeepsStore(s, e);
    }
    hide StoreTold, Enabled, Apply;
  }

  lemma BodyIsStored(s: State, e: Event)
    requires Enabled(s, e) && e.ParseOk?
    ensures e.t < |s.tasks| && StoreTold(s, Apply(s, e), e)
  {
    hide DoRequest, DoRelease, DoUnregister, FailAttempt, Retry, DoFetch, GrantTurn, BeginTurn, DoReserve;
  }

  lemma RequestDropsExpired(s: State, e: Event)
    requires e.Request?
    ensures StoreTold(s, Apply(s, e), e)
  {
    hide Succeed, DoRelease, DoUnregister, FailAttempt, Retry, DoFetch, GrantTurn, BeginTurn, DoReserve;
  }

  lemma RestKeepsStore(s: State, e: Event)
    requires Enabled(s, e) && !InAttempt(e) && !e.Request?
    ensures StoreTold(s, Apply(s, e), e)
  {
    hide DoRequest, Succeed, FailAttempt, Retry, DoFetch;
  }

  lemma AttemptKeepsStore(s: State, e: Event)
    requires Enabled(s, e) && InAttempt(e) && !e.ParseOk?
    ensures StoreTold(s, Apply(s, e), e)
  {
    hide DoRequest, Succeed, DoRelease, DoUnregister, GrantTurn, BeginTurn, DoReserve;
  }

  // ---- counters ----

  predicate FetchFailed(e: Event) { e.FetchFails? || e.FetchRefused? }

  function CountOf(events: seq<Event>, counts: Event -> bool): nat {
    if events == [] then 0
    else CountOf(events[..|events| - 1], counts) + if counts(events[|events| - 1]) then 1 else 0
  }

  /** The tasks that ended because a fetch failed. */
  ghost function GivenUp(s: State, events: seq<Event>): set<nat> {
    set t: nat | t < |s.tasks| && ResultOf(s.tasks[t]) == Some(Rejected) && ParseFails(t) !in events
  }

  /**
   Every request is counted; every failed fetch counts as a retry, or as a failure
   when it ended its task. A body that cannot be read counts as neither.
   */
  ghost predicate StatsTold(s: State, events: seq<Event>) {
    && s.stats.total == CountOf(events, (e: Event) => e.Request?)
    && s.stats.retries + s.stats.failures == CountOf(events, (e: Event) => FetchFailed(e))
    && s.stats.failures == |GivenUp(s, events)|
  }

  lemma CountNext(events: seq<Event>, e: Event, counts: Event -> bool)
    ensures CountOf(events + [e], counts) == CountOf(events, counts) + if counts(e) then 1 else 0
  {
    assert (events + [e])[..|events|] == events;
  }

  /** What a step does to the counters. */
  predicate StatsStep(s: State, s': State, e: Event) {
    && s'.stats.total == s.stats.total + (if e.Request? then 1 else 0)
    && (if FetchFailed(e) && e.t < |s'.tasks| then
          && s'.stats.failures == s.stats.failures + (if ResultOf(s'.tasks[e.t]).Some? then 1 else 0)
          && s'.stats.retries == s.stats.retries + (if ResultOf(s'.tasks[e.t]).Some? then 0 else 1)
        else s'.stats.failures == s.stats.failures && s'.stats.retries == s.stats.retries)
  }

  lemma RequestCountsOnce(s: State, e: Event)
    requires e.Request?
    ensures StatsStep(s, Apply(s, e), e)
  {
  }

  lemma FailureCountsOnce(s: State, e: Event)
    requires Enabled(s, e) && FetchFailed(e)
    ensures StatsStep(s, Apply(s, e), e)
  {
  }

  lemma AttemptCountsNothing(s: State, e: Event)
    requires Enabled(s, e) && InAttempt(e) && !FetchFailed(e)
    ensures StatsStep(s, Apply(s, e), e)
  {
    hide Prune;
  }

  lemma RestCountsNothing(s: State, e: Event)
    requires Enabled(s, e) && !InAttempt(e) && !e.Request?
    ensures StatsStep(s, Apply(s, e), e)
  {
    hide DoRequest, FailAttempt, Succeed, Retry, DoFetch;
  }

  lemma StepCountsOnce(s: State, e: Event)
    requires Enabled(s, e)
    ensures StatsStep(s, Apply(s, e), e)
  {
    if e.Request? {
      RequestCountsOnce(s, e);
    } else if FetchFailed(e) {
      FailureCountsOnce(s, e);
    } else if InAttempt(e) {
      AttemptCountsNothing(s, e);
    } else {
      RestCountsNothing(s, e);
    }
    hide Apply, Enabled, StatsStep;
  }

  /** What an event decides was open before. */
  lemma DecidesOpen(s: State, e: Event, u: nat)
    requires Enabled(s, e) && About(e, u)
    ensures u < |s.tasks| && ResultOf(s.tasks[u]) == None
  {
  }

  lemma GivenUpNext(s: State, s': State, events: seq<Event>, e: Event)
    requires TasksStep(s, s', e) && ResultsTold(s, events) && ResultsTold(s', events + [e])
    requires forall u: nat :: About(e, u) ==> u < |s.tasks| && ResultOf(s.tasks[u]) == None
    ensures FetchFailed(e) ==> e.t < |s'.tasks|
    ensures GivenUp(s', events + [e])
         == GivenUp(s, events) + if FetchFailed(e) && ResultOf(s'.tasks[e.t]).Some? then {e.t} else {}
    ensures FetchFailed(e) ==> e.t !in GivenUp(s, events)
  {
    assert FetchFailed(e) ==> About(e, e.t);
    var all := events + [e];
    forall u: nat | u < |s'.tasks|
      ensures u in GivenUp(s', all)
        <==> u in GivenUp(s, events) || (FetchFailed(e) && u == e.t && ResultOf(s'.tasks[u]).Some?)
    {
      GivenUpAt(s, s', events, e, u);
    }
  }

  lemma GivenUpAt(s: State, s': State, events: seq<Event>, e: Event, u: nat)
    requires TasksStep(s, s', e) && ResultsTold(s, events) && ResultsTold(s', events + [e]) && u < |s'.tasks|
    requires About(e, u) ==> u < |s.tasks| && ResultOf(s.tasks[u]) == None
    ensures ResultOf(s'.tasks[u]) == Some(Rejected) && ParseFails(u) !in events + [e]
       <==> (u < |s.tasks| && ResultOf(s.tasks[u]) == Some(Rejected) && ParseFails(u) !in events)
            || (FetchFailed(e) && u == e.t && ResultOf(s'.tasks[u]).Some?)
  {
    OneMoreEvent(events, e, u);
    assert ResultTold(s'.tasks[u], events + [e], u, s'.cfg.maxRetries);
    var r := ResultOf(s'.tasks[u]);
    assert r.Some? && r.value.Fulfilled? ==> r == Some(Fulfilled(r.value.value));
    if u < |s.tasks| && About(e, u) {
      assert ResultTold(s.tasks[u], events, u, s.cfg.maxRetries);
      forall v ensures ParseOk(u, v) !in events {
        assert ResultOf(s.tasks[u]) != Some(Fulfilled(v));
      }
      forall v | FetchFailed(e) ensures ResultOf(s'.tasks[u]) != Some(Fulfilled(v)) {
        assert ParseOk(u, v) !in events + [e];
      }
      if e.ParseOk? {
        assert e == ParseOk(u, e.value) && e in events + [e];
      }
    }
    hide FailedFetches;
  }

  lemma StepTellsStats(s: State, events: seq<Event>, e: Event)
    requires Inv(s) && Enabled(s, e) && Explains(s, events) && StatsTold(s, events)
    ensures StatsTold(Apply(s, e), events + [e])
  {
    hide Inv, Enabled, Apply, CountOf, ResultsTold, TasksStep, GivenUp, Tallied, Unheard, About;
    StepTasks(s, e);
    StepCountsOnce(s, e);
    StepExplains(s, events, e);
    var s' := Apply(s, e);
    CountNext(events, e, (x: Event) => x.Request?);
    CountNext(events, e, (x: Event) => FetchFailed(x));
    forall u: nat | About(e, u) ensures u < |s.tasks| && ResultOf(s.tasks[u]) == None {
      DecidesOpen(s, e, u);
    }
    GivenUpNext(s, s', events, e);
  }

  lemma {:induction false} RunTellsStats(s: State, past: seq<Event>, events: seq<Event>, end: State)
    requires Inv(s) && Explains(s, past) && StatsTold(s, past) && Runs(s, events, end)
    ensures StatsTold(end, past + events)
    decreases |events|
  {
    hide Inv, Enabled, Apply, Explains, StatsTold;
    if events == [] {
      assert past + [] == past;
    } else {
      StepKeepsInv(s, events[0]);
      StepExplains(s, past, events[0]);
      StepTellsStats(s, past, events[0]);
      RunTellsStats(Apply(s, events[0]), past + [events[0]], events[1..], end);
      assert past + [events[0]] + events[1..] == past + events;
    }
  }

  /** The counters of every run are what its events add up to. */
  lemma CountersAreTold(cfg: Config, now: int, events: seq<Event>, end: State)
    requires ValidConfig(cfg) && Runs(Start(cfg, now), events, end)
    ensures StatsTold(end, events)
  {
    hide Inv, Runs, StatsTold;
    StartIsSound(cfg, now);
    assert StatsTold(Start(cfg, now), []) by { StartTellsStats(cfg, now); }
    RunTellsStats(Start(cfg, now), [], events, end);
    assert [] + events == events;
  }

  lemma StartTellsStats(cfg: Config, now: int)
    ensures StatsTold(Start(cfg, now), [])
  {
    assert GivenUp(Start(cfg, now), []) == {};
  }

  // ---- turns come on time, and newcomers wait in their place ----

  /** With pacing, the next turn is due an interval after the last one, and a turn under way waits for nothing else. */
  ghost predicate TurnsTold(s: State) {
    s.cfg.minInterval > 0 ==>
      && s.nextStart == (if s.grants == [] then 0 else s.grants[|s.grants| - 1] + s.cfg.minInterval)
      && (s.wakeAt.Some? ==>
            s.nextStart <= s.wakeAt.value && (s.wakeAt.value == s.nextStart || s.wakeAt.value <= s.clock))
  }

  lemma StepTellsTurns(s: State, e: Event)
    requires Inv(s) && Enabled(s, e) && TurnsTold(s)
    ensures TurnsTold(Apply(s, e))
  {
    if InAttempt(e) {
      hide Inv, Apply, Enabled;
      AttemptWorks(s, e);
    } else if e.Request? || e.Release? || e.Unregister? {
      hide Inv, Apply, Enabled;
      OthersOffPace(s, e);
    } else {
      PacingTellsTurns(s, e);
      hide Inv, Apply, Enabled, TurnsTold;
    }
  }

  lemma PacingTellsTurns(s: State, e: Event)
    requires Inv(s) && Enabled(s, e) && TurnsTold(s) && (e.Tick? || e.Reserve? || e.TurnBegins? || e.TurnGranted?)
    ensures TurnsTold(Apply(s, e))
  {
    HeadsInPhase(s);
    hide Inv;
  }

  lemma {:induction false} RunTellsTurns(s: State, events: seq<Event>, end: State)
    requires Inv(s) && TurnsTold(s) && Runs(s, events, end)
    ensures TurnsTold(end)
    decreases |events|
  {
    hide Inv, Enabled, Apply, TurnsTold;
    if events != [] {
      StepKeepsInv(s, events[0]);
      StepTellsTurns(s, events[0]);
      RunTellsTurns(Apply(s, events[0]), events[1..], end);
    }
  }

  /** A turn under way is granted from exactly an interval after the last grant on, in every run. */
  lemma TurnsAreTimely(cfg: Config, now: int, events: seq<Event>, s: State)
    requires ValidConfig(cfg) && Runs(Start(cfg, now), events, s) && cfg.minInterval > 0 && s.wakeAt.Some?
    ensures Enabled(s, TurnGranted)
       <==> s.clock >= if s.grants == [] then 0 else s.grants[|s.grants| - 1] + cfg.minInterval
  {
    StartIsSound(cfg, now);
    RunKeepsInv(Start(cfg, now), events, s);
    RunTellsTurns(Start(cfg, now), events, s);
    RunKeepsConfig(Start(cfg, now), events, s);
    HeadsInPhase(s);
    ChainIsReady(s);
    hide Inv, Runs;
  }

  lemma ChainIsReady(s: State)
    requires Inv(s) && s.wakeAt.Some?
    ensures s.chain != []
  {
  }

  /** A request that starts a task gets a free slot at once; without one it waits behind all others. */
  lemma NewcomersWait(s: State, key: Key)
    requires AnswerTo(s, key).Started?
    ensures var after, t := DoRequest(s, key, false), |s.tasks|;
      if s.active < s.cfg.maxConcurrency then
        At(after, t, Ready) && after.active == s.active + 1 && after.queue == s.queue
      else At(after, t, Queued) && after.active == s.active && after.queue == s.queue + [t]
  {
    hide Lookup;
  }
}
