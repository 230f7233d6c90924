/**
 Idempotent execution: which executions block a key, that blocked keys are
 never executed, and that a failure without a message blocks nothing.
 */
module Idempotence {
  import opened Prelude
  import opened Sorting
  import opened ActionLogs
  import opened Decide
  import opened Act

  // ---- what the log stands for ----

  /** The log knows every execution that was not silent, by a time no earlier than its end. */
  ghost predicate LogKnows(history: map<string, Entry>, executions: seq<Execution>) {
    forall k :: 0 <= k < |executions| && !Silent(executions[k].last) ==>
      executions[k].key in history && history[executions[k].key].timestamp >= executions[k].last.at
  }

  /** A reported execution of the key ended at this time. */
  ghost predicate EndedAt(executions: seq<Execution>, key: string, at: int) {
    exists k :: 0 <= k < |executions| && executions[k].key == key && !Silent(executions[k].last)
                && executions[k].last.at == at
  }

  predicate Inherits(history: map<string, Entry>, inherited: map<string, Entry>, key: string) {
    key in history && key in inherited && history[key] == inherited[key]
  }

  /** Every entry of the log was there from the start or is the end of a reported execution. */
  ghost predicate LogSays(history: map<string, Entry>, inherited: map<string, Entry>, executions: seq<Execution>) {
    forall key :: key in history ==>
      Inherits(history, inherited, key) || EndedAt(executions, key, history[key].timestamp)
  }

  /** A reported execution of the key ended within the time to live before `now`. */
  ghost predicate Blocked(executions: seq<Execution>, key: string, now: int, ttlMs: int) {
    exists k :: 0 <= k < |executions| && executions[k].key == key && !Silent(executions[k].last)
                && now - executions[k].last.at <= ttlMs
  }

  /** The log blocks a key exactly when a reported execution, or an entry it started with, is recent enough. */
  lemma RememberedExactly(history: map<string, Entry>, inherited: map<string, Entry>, executions: seq<Execution>,
                          key: string, now: int, ttlMs: int)
    requires LogKnows(history, executions) && LogSays(history, inherited, executions)
    ensures Remembered(history, key, now, ttlMs)
       <==> Blocked(executions, key, now, ttlMs)
            || (Inherits(history, inherited, key) && Remembered(inherited, key, now, ttlMs))
  {
    if Remembered(history, key, now, ttlMs) && !Inherits(history, inherited, key) {
      assert EndedAt(executions, key, history[key].timestamp);
      var k :| 0 <= k < |executions| && executions[k].key == key && !Silent(executions[k].last)
               && executions[k].last.at == history[key].timestamp;
    }
  }

  /** A silent execution blocks nothing. */
  lemma SilentBlocksNothing(executions: seq<Execution>, x: Execution, key: string, now: int, ttlMs: int)
    requires Silent(x.last)
    ensures Blocked(executions + [x], key, now, ttlMs) <==> Blocked(executions, key, now, ttlMs)
  {
    var all := executions + [x];
    if Blocked(all, key, now, ttlMs) {
      var k :| 0 <= k < |all| && all[k].key == key && !Silent(all[k].last) && now - all[k].last.at <= ttlMs;
      assert executions[k] == all[k];
    }
    if Blocked(executions, key, now, ttlMs) {
      var k :| 0 <= k < |executions| && executions[k].key == key && !Silent(executions[k].last)
               && now - executions[k].last.at <= ttlMs;
      assert all[k] == executions[k];
    }
  }

  // ---- separation of executions ----

  /** After a reported execution of a key, the key is executed again only when more than the time to live has passed. */
  ghost predicate Separated(executions: seq<Execution>, ttlMs: int) {
    forall j, k :: 0 <= j < k < |executions| && executions[j].key == executions[k].key && !Silent(executions[j].last)
      ==> executions[k].checkedAt - executions[j].last.at > ttlMs
  }

  /** Calls end no earlier than the time of the run that makes them. */
  ghost predicate Timely(c: Cycle) {
    forall i: nat, a: nat :: c.attempt(i, a).at >= c.now
  }

  /** The log stands for all executions so far, those of the past included, and they are separated. */
  ghost predicate KeepsApart(past: seq<Execution>, inherited: map<string, Entry>, a: Acted, ttlMs: int) {
    && LogKnows(a.history, past + a.executions)
    && LogSays(a.history, inherited, past + a.executions)
    && Separated(past + a.executions, ttlMs)
  }

  lemma LogSaysMore(history: map<string, Entry>, inherited: map<string, Entry>, executions: seq<Execution>,
                    x: Execution, status: Status)
    requires LogSays(history, inherited, executions)
    ensures LogSays(history, inherited, executions + [x])
    ensures !Silent(x.last) ==>
      LogSays(history[x.key := Entry(x.last.at, status)], inherited, executions + [x])
  {
    var all := executions + [x];
    assert all[|executions|] == x;
    assert !Silent(x.last) ==> EndedAt(all, x.key, x.last.at);
    forall key, at | EndedAt(executions, key, at) ensures EndedAt(all, key, at) {
      var k :| 0 <= k < |executions| && executions[k].key == key && !Silent(executions[k].last)
               && executions[k].last.at == at;
      assert all[k] == executions[k];
    }
    hide EndedAt;
  }

  lemma KnowsMore(history: map<string, Entry>, all: seq<Execution>, x: Execution, status: Status, ttlMs: int)
    requires LogKnows(history, all) && Separated(all, ttlMs) && ttlMs >= 0
    requires !Remembered(history, x.key, x.checkedAt, ttlMs) && x.last.at >= x.checkedAt
    ensures Separated(all + [x], ttlMs)
    ensures if Silent(x.last) then LogKnows(history, all + [x])
            else LogKnows(history[x.key := Entry(x.last.at, status)], all + [x])
  {
    forall j | 0 <= j < |all| && all[j].key == x.key && !Silent(all[j].last)
      ensures x.checkedAt - all[j].last.at > ttlMs && x.last.at >= all[j].last.at
    {
      assert history[x.key].timestamp >= all[j].last.at;
    }
  }

  /** Handling one decision keeps the log exact and the executions separated. */
  lemma ActOnKeepsApart(past: seq<Execution>, inherited: map<string, Entry>, a: Acted, d: Decision, i: nat, c: Cycle,
                        ttlMs: int)
    requires ttlMs >= 0 && Timely(c) && KeepsApart(past, inherited, a, ttlMs)
    ensures KeepsApart(past, inherited, ActOn(a, d, i, c, ttlMs), ttlMs)
  {
    var b := ActOn(a, d, i, c, ttlMs);
    if |b.executions| > |a.executions| {
      var x, all := b.executions[|a.executions|], past + a.executions;
      var status := StatusOf(Try(c, i, 0, MaxAttempts(d.evaluated.rule.action)));
      assert past + b.executions == all + [x];
      LogSaysMore(a.history, inherited, all, x, status);
      KnowsMore(a.history, all, x, status, ttlMs);
      hide LogKnows, LogSays, Separated, Remembered, Try, StatusOf;
    }
  }

  lemma {:induction false} ActOnAllKeepsApart(past: seq<Execution>, inherited: map<string, Entry>,
                                              history: map<string, Entry>,
                                              decisions: seq<Decision>, n: nat, c: Cycle, ttlMs: int)
    requires n <= |decisions| && ttlMs >= 0 && Timely(c)
    requires LogKnows(history, past) && LogSays(history, inherited, past) && Separated(past, ttlMs)
    ensures KeepsApart(past, inherited, ActOnAll(Acted(history, [], []), decisions, n, c, ttlMs), ttlMs)
  {
    if n == 0 {
      assert past + [] == past;
    } else {
      ActOnAllKeepsApart(past, inherited, history, decisions, n - 1, c, ttlMs);
      hide KeepsApart, ActOn, LogKnows, LogSays, Separated;
      ActOnKeepsApart(past, inherited, ActOnAll(Acted(history, [], []), decisions, n - 1, c, ttlMs),
                      decisions[n - 1], n - 1, c, ttlMs);
    }
  }

  /**
   The exact rule of the phase, from an empty log: a fired decision is
   deduplicated if and only if some earlier reported execution of its key ended
   within the time to live; otherwise it is skipped without an executor and
   executed with one.
   */
  lemma DedupedExactly(decisions: seq<Decision>, n: nat, c: Cycle, ttlMs: int)
    requires n < |decisions| && Fired(decisions[n]) && ttlMs >= 0 && Timely(c)
    ensures var before := ActOnAll(Acted(map[], [], []), decisions, n, c, ttlMs);
      var after := ActOnAll(Acted(map[], [], []), decisions, n + 1, c, ttlMs);
      var key := c.keyOf(decisions[n]);
      if Blocked(before.executions, key, c.now, ttlMs) then
        after == before.(outcomes := before.outcomes + [Outcome(decisions[n], key, Deduped, 0, None)])
      else if decisions[n].evaluated.rule.action.kind !in c.executors then
        after == before.(outcomes := before.outcomes + [Outcome(decisions[n], key, Skipped, 0, Some("no executor"))])
      else
        && |after.executions| == |before.executions| + 1 && before.executions <= after.executions
        && after.executions[|before.executions|].key == key
        && (forall o :: o in after.outcomes[|before.outcomes|..] ==> o.status.Done?)
  {
    ActOnAllKeepsApart([], map[], map[], decisions, n, c, ttlMs);
    var before := ActOnAll(Acted(map[], [], []), decisions, n, c, ttlMs);
    assert [] + before.executions == before.executions;
    RememberedExactly(before.history, map[], before.executions, c.keyOf(decisions[n]), c.now, ttlMs);
    hide LogKnows, LogSays, Separated, Blocked, Remembered, Try;
  }

  /** After a silent execution the next fire of the key is executed too, in the same run. */
  lemma SilentRunsAgain(a: Acted, d: Decision, e: Decision, i: nat, j: nat, c: Cycle, ttlMs: int)
    requires Fired(d) && Fired(e) && c.keyOf(d) == c.keyOf(e)
    requires d.evaluated.rule.action.kind in c.executors && e.evaluated.rule.action.kind in c.executors
    requires !Remembered(a.history, c.keyOf(d), c.now, ttlMs)
    requires QuietFailure(c, i, MaxAttempts(d.evaluated.rule.action))
    ensures var b := ActOn(ActOn(a, d, i, c, ttlMs), e, j, c, ttlMs);
      var n := |a.executions|;
      && |b.executions| == n + 2 && b.executions[n].key == b.executions[n + 1].key == c.keyOf(d)
      && Silent(b.executions[n].last) && b.executions[n + 1].checkedAt == c.now
  {
    TryIsQuiet(c, i, MaxAttempts(d.evaluated.rule.action));
    hide QuietFailure, Try;
  }

  /** The input that breaks plain idempotency: one decision twice, an executor that throws an empty error. */
  lemma EmptyMessageExecutesTwice(d: Decision)
    requires Fired(d) && d.evaluated.rule.action == ActionSpec(0, None, None)
    ensures var c := Cycle(x => "key", {0}, 0, (i, a) => Threw("", 0));
      var x := Execution("key", 0, 1, Threw("", 0));
      Timely(c) && ActOnAll(Acted(map[], [], []), [d, d], 2, c, 60_000) == Acted(map[], [], [x, x])
  {
    var c := Cycle(x => "key", {0}, 0, (i, a) => Threw("", 0));
    var start, x := Acted(map[], [], []), Execution("key", 0, 1, Threw("", 0));
    assert Try(c, 0, 0, 1) == Try(c, 1, 0, 1) == Tried(1, Threw("", 0));
    assert ActOnAll(start, [d, d], 0, c, 60_000) == start;
    assert ActOnAll(start, [d, d], 1, c, 60_000) == Acted(map[], [], [x]);
  }

  // ---- exactly when execution is idempotent ----

  /** Any two executions of a key are more than the time to live apart. */
  ghost predicate AllApart(executions: seq<Execution>, ttlMs: int) {
    forall j, k :: 0 <= j < k < |executions| && executions[j].key == executions[k].key ==>
      executions[k].checkedAt - executions[j].last.at > ttlMs
  }

  function FromEmpty(decisions: seq<Decision>, c: Cycle, ttlMs: int): Acted {
    ActOnAll(Acted(map[], [], []), decisions, |decisions|, c, ttlMs)
  }

  function Probe(verdict: Verdict, kind: int, m: nat): Decision {
    Decision(verdict, Evaluated(Rule(0, 0, [], ActionSpec(kind, Some(m), None), None, [], true), Tick, [], true))
  }

  /** `i` decisions that do not fire, and then the same fire `times` times. */
  function Probes(i: nat, kind: int, m: nat, times: nat): seq<Decision> {
    seq(i + times, k => Probe(if k < i then NotMet else Fire, kind, m))
  }

  lemma {:induction false} IdleProbes(i: nat, kind: int, m: nat, times: nat, n: nat, c: Cycle, ttlMs: int)
    requires n <= i
    ensures ActOnAll(Acted(map[], [], []), Probes(i, kind, m, times), n, c, ttlMs) == Acted(map[], [], [])
  {
    if n > 0 {
      assert Probes(i, kind, m, times)[n - 1] == Probe(NotMet, kind, m);
      IdleProbes(i, kind, m, times, n - 1, c, ttlMs);
    }
  }

  /** A quiet failure on decision `i` is executed and leaves nothing but its execution. */
  lemma FirstProbe(i: nat, kind: int, m: nat, times: nat, c: Cycle, ttlMs: int)
    requires kind in c.executors && QuietFailure(c, i, m) && times >= 1
    ensures var a := ActOnAll(Acted(map[], [], []), Probes(i, kind, m, times), i + 1, c, ttlMs);
      && a.history == map[] && |a.executions| == 1
      && a.executions[0].key == c.keyOf(Probe(Fire, kind, m)) && a.executions[0].last == c.attempt(i, m)
  {
    IdleProbes(i, kind, m, times, i, c, ttlMs);
    TryIsQuiet(c, i, m);
    assert Probes(i, kind, m, times)[i] == Probe(Fire, kind, m);
    hide QuietFailure, Probes;
  }

  lemma SecondProbe(i: nat, kind: int, m: nat, c: Cycle, ttlMs: int)
    requires kind in c.executors && QuietFailure(c, i, m) && Timely(c) && ttlMs >= 0
    ensures !AllApart(FromEmpty(Probes(i, kind, m, 2), c, ttlMs).executions, ttlMs)
  {
    FirstProbe(i, kind, m, 2, c, ttlMs);
    assert Probes(i, kind, m, 2)[i + 1] == Probe(Fire, kind, m);
    var a := FromEmpty(Probes(i, kind, m, 2), c, ttlMs);
    hide QuietFailure, Try, Probes;
    assert |a.executions| == 2 && a.executions[1].checkedAt == c.now && a.executions[0].key == a.executions[1].key;
    assert a.executions[0].last.at >= c.now;
  }

  /** Without quiet failures all executions of a key are apart, whatever is decided. */
  lemma QuietlyApart(decisions: seq<Decision>, c: Cycle, ttlMs: int)
    requires ttlMs >= 0 && Timely(c) && NoQuietFailure(c)
    ensures AllApart(FromEmpty(decisions, c, ttlMs).executions, ttlMs)
  {
    hide LogKnows, LogSays, Timely, NoQuietFailure, ActOnAll, Separated, AllApart, AnySilent, Silent;
    NothingLogged(ttlMs);
    assert !AnySilent([]) by { NothingSilent(); }
    ActOnAllKeepsApart([], map[], map[], decisions, |decisions|, c, ttlMs);
    NeverSilent(Acted(map[], [], []), decisions, |decisions|, c, ttlMs);
    var executions := FromEmpty(decisions, c, ttlMs).executions;
    assert [] + executions == executions;
    SeparatedIsApart(executions, ttlMs);
  }

  lemma NothingLogged(ttlMs: int)
    ensures LogKnows(map[], []) && LogSays(map[], map[], []) && Separated([], ttlMs)
  {
  }

  lemma NothingSilent()
    ensures !AnySilent([])
  {
  }

  lemma SeparatedIsApart(executions: seq<Execution>, ttlMs: int)
    requires Separated(executions, ttlMs) && !AnySilent(executions)
    ensures AllApart(executions, ttlMs)
  {
    assert forall j :: 0 <= j < |executions| ==> !Silent(executions[j].last);
  }

  /**
   Idempotency, exactly, for a phase with at least one executor: from an empty
   log any two executions of a key are more than the time to live apart, whatever
   is decided, if and only if no decision can meet a quiet failure.
   */
  lemma IdempotentExactly(c: Cycle, kind: int, ttlMs: int)
    requires ttlMs >= 0 && Timely(c) && kind in c.executors
    ensures NoQuietFailure(c)
       <==> (forall decisions: seq<Decision> :: AllApart(FromEmpty(decisions, c, ttlMs).executions, ttlMs))
  {
    hide AllApart, FromEmpty, Timely, QuietFailure;
    if NoQuietFailure(c) {
      forall decisions: seq<Decision> ensures AllApart(FromEmpty(decisions, c, ttlMs).executions, ttlMs) {
        QuietlyApart(decisions, c, ttlMs);
      }
    } else {
      var i: nat, m: nat :| QuietFailure(c, i, m);
      SecondProbe(i, kind, m, c, ttlMs);
    }
  }

  /** Reporting, exactly: every fire of every list has its outcome if and only if no decision meets a quiet failure. */
  lemma ReportsExactly(c: Cycle, kind: int, ttlMs: int)
    requires kind in c.executors
    ensures NoQuietFailure(c)
       <==> (forall decisions: seq<Decision> ::
               Map(FromEmpty(decisions, c, ttlMs).outcomes, DECISION) == Filter(decisions, FIRED))
  {
    if NoQuietFailure(c) {
      forall decisions: seq<Decision>
        ensures Map(FromEmpty(decisions, c, ttlMs).outcomes, DECISION) == Filter(decisions, FIRED)
      {
        EveryFireReports(map[], decisions, c, ttlMs);
      }
    } else {
      var i: nat, m: nat :| QuietFailure(c, i, m);
      var decisions := Probes(i, kind, m, 1);
      FirstProbe(i, kind, m, 1, c, ttlMs);
      OutcomePerFire(map[], decisions, c, ttlMs);
      assert Silent(FromEmpty(decisions, c, ttlMs).executions[0].last);
    }
  }
}
