/** The execution phase: each fire is deduplicated, executed with retries and logged. */
module Act {
  import opened Prelude
  import opened Sorting
  import opened ActionLogs
  import opened Decide

  /** One call of an executor and the time at which it was over. */
  datatype Attempt = Returned(at: int) | Threw(message: string, at: int)

  datatype OutcomeStatus = Done(status: Status) | Deduped | Skipped

  datatype Outcome = Outcome(decision: Decision, key: string, status: OutcomeStatus, attempts: nat,
                             error: Option<string>)

  /** A run of an executor: when its key was checked, how often it was called and how the last call ended. */
  datatype Execution = Execution(key: string, checkedAt: int, attempts: nat, last: Attempt)

  /**
   What one run of the phase is given: the keys of the decisions, the kinds of
   action that have an executor, the time, and how every call of every decision ends.
   */
  datatype Cycle = Cycle(keyOf: Decision -> string, executors: set<int>, now: int, attempt: (nat, nat) -> Attempt)

  function MaxAttempts(action: ActionSpec): (n: nat)
    ensures n >= 1
  {
    if action.maxAttempts.Some? && action.maxAttempts.value > 1 then action.maxAttempts.value else 1
  }

  datatype Tried = Tried(attempts: nat, last: Attempt)

  /** Calls the executor until it returns or the attempts are used up. */
  function Try(c: Cycle, i: nat, done: nat, max: nat): (t: Tried)
    requires done < max
    ensures done < t.attempts <= max && t.last == c.attempt(i, t.attempts)
    ensures t.last.Threw? ==> t.attempts == max
    decreases max - done
  {
    var call := c.attempt(i, done + 1);
    if call.Returned? || done + 1 == max then Tried(done + 1, call) else Try(c, i, done + 1, max)
  }

  datatype Acted = Acted(history: map<string, Entry>, outcomes: seq<Outcome>, executions: seq<Execution>)

  /** A failure whose message is empty is neither logged nor reported. */
  predicate Silent(last: Attempt) {
    last.Threw? && last.message == ""
  }

  function StatusOf(t: Tried): Status {
    if t.last.Threw? then Failed else if t.attempts > 1 then RetriedOk else Ok
  }

  function ActOn(a: Acted, d: Decision, i: nat, c: Cycle, ttlMs: int): Acted {
    var key, action := c.keyOf(d), d.evaluated.rule.action;
    if !Fired(d) then a
    else if Remembered(a.history, key, c.now, ttlMs) then
      a.(outcomes := a.outcomes + [Outcome(d, key, Deduped, 0, None)])
    else if action.kind !in c.executors then
      a.(outcomes := a.outcomes + [Outcome(d, key, Skipped, 0, Some("no executor"))])
    else
      var t := Try(c, i, 0, MaxAttempts(action));
      var ran := a.(executions := a.executions + [Execution(key, c.now, t.attempts, t.last)]);
      if Silent(t.last) then ran
      else
        ran.(history := a.history[key := Entry(t.last.at, StatusOf(t))],
             outcomes := a.outcomes + [Outcome(d, key, Done(StatusOf(t)), t.attempts,
                                               if t.last.Threw? then Some(t.last.message) else None)])
  }

  function ActOnAll(start: Acted, decisions: seq<Decision>, n: nat, c: Cycle, ttlMs: int): Acted
    requires n <= |decisions|
  {
    if n == 0 then start else ActOn(ActOnAll(start, decisions, n - 1, c, ttlMs), decisions[n - 1], n - 1, c, ttlMs)
  }

  /** Runs one action with its retries; a failure with a message and a success are logged. */
  method Execute(decision: Decision, key: string, i: nat, c: Cycle, log: ActionLog)
    returns (outcome: Option<Outcome>, ghost tried: Tried)
    requires log.Valid()
    modifies log
    ensures log.Valid() && log.clock == old(log.clock)
    ensures tried == Try(c, i, 0, MaxAttempts(decision.evaluated.rule.action))
    ensures log.history == if Silent(tried.last) then old(log.history)
                           else old(log.history)[key := Entry(tried.last.at, StatusOf(tried))]
    ensures outcome == if Silent(tried.last) then None else
              Some(Outcome(decision, key, Done(StatusOf(tried)), tried.attempts,
                           if tried.last.Threw? then Some(tried.last.message) else None))
  {
    var max := MaxAttempts(decision.evaluated.rule.action);
    tried := Try(c, i, 0, max);
    var attempts: nat, lastError: Option<string>, failedAt := 0, None, 0;
    outcome := None;
    while attempts < max
      invariant attempts <= max && log.Valid() && log.clock == old(log.clock) && log.history == old(log.history)
      invariant outcome == None
      invariant attempts == 0 ==> lastError == None
      invariant attempts > 0 ==> lastError.Some? && c.attempt(i, attempts) == Threw(lastError.value, failedAt)
      invariant if attempts < max then tried == Try(c, i, attempts, max) else tried == Tried(max, c.attempt(i, max))
      decreases max - attempts
    {
      attempts := attempts + 1;
      var call := c.attempt(i, attempts);
      match call
      case Returned(at) =>
        var status := if attempts > 1 then RetriedOk else Ok;
        log.Set(key, Entry(at, status));
        outcome := Some(Outcome(decision, key, Done(status), attempts, None));
        lastError := None;
        break;
      case Threw(message, at) =>
        lastError, failedAt := Some(message), at;
    }
    if lastError.Some? && lastError.value != "" {
      log.Set(key, Entry(failedAt, Failed));
      outcome := Some(Outcome(decision, key, Done(Failed), attempts, lastError));
    }
  }

  /** Executes the decided actions against the log, with its lazy and bulk deletions. */
  method ActOnDecisions(decisions: seq<Decision>, c: Cycle, log: ActionLog)
    returns (outcomes: seq<Outcome>, ghost executions: seq<Execution>)
    requires log.Valid() && c.now >= log.clock
    modifies log
    ensures log.Valid() && log.clock == c.now
    ensures Acted(log.history, outcomes, executions)
         == ActOnAll(Acted(old(log.history), [], []), decisions, |decisions|, c, log.ttlMs)
  {
    ghost var start := Acted(log.history, [], []);
    log.Gc(c.now);
    outcomes, executions := [], [];
    for i := 0 to |decisions|
      invariant log.Valid() && log.clock == c.now
      invariant Acted(log.history, outcomes, executions) == ActOnAll(start, decisions, i, c, log.ttlMs)
    {
      var decision := decisions[i];
      if decision.verdict != Fire {
        continue;
      }
      var action, key := decision.evaluated.rule.action, c.keyOf(decision);
      var found := log.Has(key, c.now);
      if found {
        outcomes := outcomes + [Outcome(decision, key, Deduped, 0, None)];
        continue;
      }
      if action.kind !in c.executors {
        outcomes := outcomes + [Outcome(decision, key, Skipped, 0, Some("no executor"))];
        continue;
      }
      ghost var tried;
      var outcome;
      outcome, tried := Execute(decision, key, i, c, log);
      executions := executions + [Execution(key, c.now, tried.attempts, tried.last)];
      if outcome.Some? {
        outcomes := outcomes + [outcome.value];
      }
    }
  }

  // ---- one outcome for every fire ----

  const DECISION: Outcome -> Decision := (o: Outcome) => o.decision

  const FIRED: Decision -> bool := (d: Decision) => Fired(d)

  /** An execution that failed without a message. */
  ghost predicate AnySilent(executions: seq<Execution>) {
    exists k :: 0 <= k < |executions| && Silent(executions[k].last)
  }

  function SilentCount(executions: seq<Execution>): nat {
    if executions == [] then 0
    else SilentCount(executions[..|executions| - 1]) + if Silent(executions[|executions| - 1].last) then 1 else 0
  }

  lemma {:induction false} SilentCountZero(executions: seq<Execution>)
    ensures SilentCount(executions) == 0 <==> !AnySilent(executions)
  {
    if executions != [] {
      var n := |executions| - 1;
      SilentCountZero(executions[..n]);
      if AnySilent(executions) {
        var k :| 0 <= k < |executions| && Silent(executions[k].last);
        assert k < n ==> executions[..n][k] == executions[k];
      }
    }
  }

  lemma OneDecision(a: Acted, d: Decision, i: nat, c: Cycle, ttlMs: int)
    ensures var b := ActOn(a, d, i, c, ttlMs);
      && |b.outcomes| + SilentCount(b.executions)
         == |a.outcomes| + SilentCount(a.executions) + (if Fired(d) then 1 else 0)
      && a.executions <= b.executions && SilentCount(a.executions) <= SilentCount(b.executions)
      && (Map(b.outcomes, DECISION) == Map(a.outcomes, DECISION) + (if Fired(d) then [d] else [])
          || SilentCount(b.executions) > SilentCount(a.executions))
  {
    var b := ActOn(a, d, i, c, ttlMs);
    if |b.executions| > |a.executions| {
      assert b.executions[..|a.executions|] == a.executions;
    }
    if |b.outcomes| > |a.outcomes| {
      var o := b.outcomes[|a.outcomes|];
      assert b.outcomes == a.outcomes + [o];
      MapConcat(a.outcomes, [o], DECISION);
      assert Map([o], DECISION) == [d];
    }
  }

  lemma NothingYet()
    ensures SilentCount([]) == 0 && Map([], DECISION) == []
  {
  }

  lemma {:induction false} OutcomesSoFar(history: map<string, Entry>, decisions: seq<Decision>, n: nat, c: Cycle,
                                         ttlMs: int)
    requires n <= |decisions|
    ensures var a := ActOnAll(Acted(history, [], []), decisions, n, c, ttlMs);
      && |a.outcomes| + SilentCount(a.executions) == |Filter(decisions[..n], FIRED)|
      && (SilentCount(a.executions) == 0 ==> Map(a.outcomes, DECISION) == Filter(decisions[..n], FIRED))
  {
    hide ActOn, Map, SilentCount;
    NothingYet();
    if n > 0 {
      var d := decisions[n - 1];
      OutcomesSoFar(history, decisions, n - 1, c, ttlMs);
      OneDecision(ActOnAll(Acted(history, [], []), decisions, n - 1, c, ttlMs), d, n - 1, c, ttlMs);
      assert decisions[..n] == decisions[..n - 1] + [d];
      FilterConcat(decisions[..n - 1], [d], FIRED);
      assert Filter([d], FIRED) == if Fired(d) then [d] else [];
    }
  }

  /**
   The fires and the outcomes correspond one to one, in order, exactly when no
   execution ended in a failure with an empty message.
   */
  lemma OutcomePerFire(history: map<string, Entry>, decisions: seq<Decision>, c: Cycle, ttlMs: int)
    ensures var a := ActOnAll(Acted(history, [], []), decisions, |decisions|, c, ttlMs);
      Map(a.outcomes, DECISION) == Filter(decisions, FIRED) <==> !AnySilent(a.executions)
  {
    var a := ActOnAll(Acted(history, [], []), decisions, |decisions|, c, ttlMs);
    OutcomesSoFar(history, decisions, |decisions|, c, ttlMs);
    assert decisions[..|decisions|] == decisions;
    SilentCountZero(a.executions);
    if a.outcomes != [] {
      MapMember(a.outcomes, DECISION, a.outcomes[0].decision);
    }
  }

  /**
   The calls that lose a fire: every attempt for decision `i` up to the last of
   `m` throws, and the last error has no message.
   */
  ghost predicate QuietFailure(c: Cycle, i: nat, m: nat) {
    m >= 1 && (forall a: nat :: 1 <= a <= m ==> c.attempt(i, a).Threw?) && Silent(c.attempt(i, m))
  }

  ghost predicate NoQuietFailure(c: Cycle) {
    forall i: nat, m: nat :: !QuietFailure(c, i, m)
  }

  /** It is enough that no executor ever throws an error with an empty message. */
  lemma MessagesSuffice(c: Cycle)
    requires forall i: nat, a: nat :: !Silent(c.attempt(i, a))
    ensures NoQuietFailure(c)
  {
  }

  lemma {:induction false} TryIsSilent(c: Cycle, i: nat, done: nat, max: nat)
    requires done < max
    ensures Silent(Try(c, i, done, max).last)
       <==> (forall a: nat :: done < a <= max ==> c.attempt(i, a).Threw?) && Silent(c.attempt(i, max))
    decreases max - done
  {
    if !c.attempt(i, done + 1).Returned? && done + 1 < max {
      TryIsSilent(c, i, done + 1, max);
    }
  }

  lemma TryIsQuiet(c: Cycle, i: nat, max: nat)
    requires max >= 1
    ensures Silent(Try(c, i, 0, max).last) <==> QuietFailure(c, i, max)
  {
    TryIsSilent(c, i, 0, max);
  }

  lemma {:induction false} NeverSilent(start: Acted, decisions: seq<Decision>, n: nat, c: Cycle, ttlMs: int)
    requires n <= |decisions| && NoQuietFailure(c) && !AnySilent(start.executions)
    ensures !AnySilent(ActOnAll(start, decisions, n, c, ttlMs).executions)
  {
    if n > 0 {
      NeverSilent(start, decisions, n - 1, c, ttlMs);
      TryIsQuiet(c, n - 1, MaxAttempts(decisions[n - 1].evaluated.rule.action));
      hide QuietFailure, Try;
    }
  }

  /** Without such calls every fire has exactly one outcome, in order, whatever was logged before. */
  lemma EveryFireReports(history: map<string, Entry>, decisions: seq<Decision>, c: Cycle, ttlMs: int)
    requires NoQuietFailure(c)
    ensures Map(ActOnAll(Acted(history, [], []), decisions, |decisions|, c, ttlMs).outcomes, DECISION)
         == Filter(decisions, FIRED)
  {
    NeverSilent(Acted(history, [], []), decisions, |decisions|, c, ttlMs);
    OutcomePerFire(history, decisions, c, ttlMs);
  }

  /** A fire whose executor throws an error with an empty message vanishes: no outcome and no log entry. */
  lemma EmptyMessageVanishes(d: Decision, ttlMs: int)
    requires Fired(d) && d.evaluated.rule.action == ActionSpec(0, None, None)
    ensures var c := Cycle(x => "key", {0}, 0, (i, a) => Threw("", 1));
      var a := ActOnAll(Acted(map[], [], []), [d], 1, c, ttlMs);
      a.outcomes == [] && a.history == map[] && |a.executions| == 1
  {
    var c := Cycle(x => "key", {0}, 0, (i, a) => Threw("", 1));
    assert ActOnAll(Acted(map[], [], []), [d], 0, c, ttlMs) == Acted(map[], [], []);
  }

  /** The outcome of a decision says what happened: never more calls than allowed, and which kind of end. */
  ghost predicate FaithfulOutcome(o: Outcome) {
    && Fired(o.decision)
    && o.attempts <= MaxAttempts(o.decision.evaluated.rule.action)
    && match o.status
       case Deduped => o.attempts == 0 && o.error == None
       case Skipped => o.attempts == 0 && o.error.Some?
       case Done(Ok) => o.attempts == 1 && o.error == None
       case Done(RetriedOk) => o.attempts >= 2 && o.error == None
       case Done(Failed) =>
         o.attempts == MaxAttempts(o.decision.evaluated.rule.action) && o.error.Some? && o.error.value != ""
  }

  lemma {:induction false} OutcomesAreFaithful(history: map<string, Entry>, decisions: seq<Decision>, n: nat, c: Cycle,
                                               ttlMs: int)
    requires n <= |decisions|
    ensures forall o :: o in ActOnAll(Acted(history, [], []), decisions, n, c, ttlMs).outcomes ==> FaithfulOutcome(o)
  {
    if n > 0 {
      OutcomesAreFaithful(history, decisions, n - 1, c, ttlMs);
    }
  }
}
