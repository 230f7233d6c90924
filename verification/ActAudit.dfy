/** What the execution phase does with every decision, told from the log and the calls. */
module ActAudit {
  import opened Prelude
  import opened ActionLogs
  import opened Decide
  import opened Act

  /** How often an action may be tried: as often as it says, but at least once. */
  predicate Allows(action: ActionSpec, n: int) {
    match action.maxAttempts
    case None => n == 1
    case Some(m) => n == if m <= 1 then 1 else m
  }

  /** The calls of a decision end with call `m`: all before it threw, and it returned or was the last one allowed. */
  ghost predicate EndsWith(c: Cycle, i: nat, action: ActionSpec, m: nat) {
    && m >= 1
    && (forall k: nat :: 1 <= k < m ==> c.attempt(i, k).Threw?)
    && (forall n: int :: Allows(action, n) ==> m <= n && (c.attempt(i, m).Returned? || m == n))
  }

  /**
   The end of the calls is logged under the key and reported, with the number of
   calls: a success as retried after more than one, a failure with its message. A
   failure without a message is neither logged nor reported.
   */
  predicate EndTold(b: Acted, a: Acted, d: Decision, key: string, now: int, m: nat, last: Attempt) {
    && b.executions == a.executions + [Execution(key, now, m, last)]
    && match last
       case Returned(at) =>
         var status := if m == 1 then Ok else RetriedOk;
         && b.history == a.history[key := Entry(at, status)]
         && b.outcomes == a.outcomes + [Outcome(d, key, Done(status), m, None)]
       case Threw(message, at) =>
         if message == "" then b.history == a.history && b.outcomes == a.outcomes
         else
           && b.history == a.history[key := Entry(at, Failed)]
           && b.outcomes == a.outcomes + [Outcome(d, key, Done(Failed), m, Some(message))]
  }

  /** Only fires act; a key logged within the time to live is not executed again, nor an action without an executor. */
  ghost predicate DecisionTold(b: Acted, a: Acted, d: Decision, i: nat, c: Cycle, ttlMs: int) {
    var key, action := c.keyOf(d), d.evaluated.rule.action;
    if d.verdict != Fire then b == a
    else if key in a.history && c.now <= a.history[key].timestamp + ttlMs then
      b == a.(outcomes := a.outcomes + [Outcome(d, key, Deduped, 0, None)])
    else if action.kind !in c.executors then
      b == a.(outcomes := a.outcomes + [Outcome(d, key, Skipped, 0, Some("no executor"))])
    else exists m: nat :: EndsWith(c, i, action, m) && EndTold(b, a, d, key, c.now, m, c.attempt(i, m))
  }

  // ---- the proof ----

  lemma {:induction false} TryEnds(c: Cycle, i: nat, done: nat, max: nat)
    requires done < max && forall k: nat :: 1 <= k <= done ==> c.attempt(i, k).Threw?
    ensures var m := Try(c, i, done, max).attempts;
      && 1 <= m <= max && (forall k: nat :: 1 <= k < m ==> c.attempt(i, k).Threw?)
      && (c.attempt(i, m).Returned? || m == max)
    decreases max - done
  {
    if !c.attempt(i, done + 1).Returned? && done + 1 < max {
      TryEnds(c, i, done + 1, max);
    }
  }

  lemma AllowedIs(action: ActionSpec, n: int)
    ensures Allows(action, n) <==> n == MaxAttempts(action)
  {
  }

  /** Every decision of a phase is acted on as told. */
  lemma PhaseIsTold(start: Acted, decisions: seq<Decision>, n: nat, c: Cycle, ttlMs: int)
    requires n < |decisions|
    ensures DecisionTold(ActOnAll(start, decisions, n + 1, c, ttlMs), ActOnAll(start, decisions, n, c, ttlMs),
                         decisions[n], n, c, ttlMs)
  {
    var a, d := ActOnAll(start, decisions, n, c, ttlMs), decisions[n];
    var action := d.evaluated.rule.action;
    var t := Try(c, n, 0, MaxAttempts(action));
    TryEnds(c, n, 0, MaxAttempts(action));
    forall k: int ensures Allows(action, k) <==> k == MaxAttempts(action) {
      AllowedIs(action, k);
    }
    hide Try, MaxAttempts, Allows;
    assert EndsWith(c, n, action, t.attempts);
    assert ActOnAll(start, decisions, n + 1, c, ttlMs) == ActOn(a, d, n, c, ttlMs);
    hide ActOnAll;
  }
}
