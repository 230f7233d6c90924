/** The rule engine: evaluation, decision and execution over many runs that share state. */
module RuleEngine {
  import opened Prelude
  import opened Sorting
  import opened ActionLogs
  import opened Decide
  import opened Act
  import opened Idempotence

  function AsFiring(now: int): Decision -> Firing {
    (d: Decision) => Firing(d.evaluated.rule.id, Cooldown(d.evaluated), now)
  }

  /** The fires among some decisions. */
  function FiringsOf(decisions: seq<Decision>, now: int): seq<Firing> {
    Map(Filter(decisions, FIRED), AsFiring(now))
  }

  lemma ConsiderRecords(r: Round, e: Evaluated, now: int)
    ensures var q := Consider(r, e, now);
      && |r.decisions| < |q.decisions| && q.decisions == r.decisions + [q.decisions[|r.decisions|]]
      && q.firings == r.firings + FiringsOf([q.decisions[|r.decisions|]], now)
  {
    var d := Consider(r, e, now).decisions[|r.decisions|];
    FiringsOfOne(d, now);
    hide Cooling, FiringsOf;
  }

  lemma FiringsOfOne(d: Decision, now: int)
    ensures FiringsOf([d], now) == if Fired(d) then [Firing(d.evaluated.rule.id, Cooldown(d.evaluated), now)] else []
  {
    assert Filter([d], FIRED) == if Fired(d) then [d] else [];
    assert Map([d], AsFiring(now)) == [AsFiring(now)(d)];
    assert Map([], AsFiring(now)) == [];
  }

  lemma FiringsConcat(a: seq<Decision>, b: seq<Decision>, now: int)
    ensures FiringsOf(a + b, now) == FiringsOf(a, now) + FiringsOf(b, now)
  {
    FilterConcat(a, b, FIRED);
    MapConcat(Filter(a, FIRED), Filter(b, FIRED), AsFiring(now));
  }

  /** The history of fires grows by exactly the fires among the decisions. */
  lemma {:induction false} HistoryRecordsFires(start: Round, items: seq<Evaluated>, n: nat, now: int)
    requires n <= |items| && FiringsOf(start.decisions, now) == []
    ensures var r := ConsiderAll(start, items, n, now);
      r.firings == start.firings + FiringsOf(r.decisions, now)
  {
    if n > 0 {
      hide FiringsOf, Consider;
      HistoryRecordsFires(start, items, n - 1, now);
      var r := ConsiderAll(start, items, n - 1, now);
      ConsiderRecords(r, items[n - 1], now);
      var q := Consider(r, items[n - 1], now);
      FiringsConcat(r.decisions, [q.decisions[|r.decisions|]], now);
    }
  }

  lemma FiringsOfPermutation(a: seq<Decision>, b: seq<Decision>, now: int)
    requires multiset(a) == multiset(b)
    ensures multiset(FiringsOf(a, now)) == multiset(FiringsOf(b, now))
  {
    FilterPermutes(a, b, FIRED);
    MapPermutes(Filter(a, FIRED), Filter(b, FIRED), AsFiring(now));
  }

  /** The cooldown history after a decision phase, and why the phase did not depend on it. */
  lemma DecisionHistory(evaluated: seq<Evaluated>, prio: Priority, cooldowns: map<int, int>, firings: seq<Firing>,
                        now: int) returns (after: seq<Firing>)
    requires Remembers(Some(cooldowns), firings) && Gapped(firings)
    ensures Gapped(after) && firings <= after
    ensures CooldownsAfter(evaluated, prio, Some(cooldowns), now).Some?
    ensures Remembers(CooldownsAfter(evaluated, prio, Some(cooldowns), now), after)
    ensures multiset(after[|firings|..]) == multiset(FiringsOf(DecisionsOf(evaluated, prio, Some(cooldowns), now), now))
  {
    var met, notMet := MetInOrder(evaluated, prio), Filter(evaluated, UNMET);
    var start := Round(Map(notMet, SUPPRESS), Some(cooldowns), None, firings);
    var last := ConsiderAll(start, met, |met|, now);
    ConsiderAllKeepsGaps(start, met, |met|, now);
    HistoryIsUnread(start, start.(firings := []), met, |met|, now);
    forall d | d in start.decisions ensures !Fired(d) {
      MapMember(notMet, SUPPRESS, d);
    }
    FilterNone(start.decisions, FIRED);
    HistoryRecordsFires(start, met, |met|, now);
    SortPermutes(last.decisions, DecisionOrder(prio));
    FiringsOfPermutation(DecisionsOf(evaluated, prio, Some(cooldowns), now), last.decisions, now);
    after := last.firings;
    assert after[|firings|..] == FiringsOf(last.decisions, now);
  }

  /**
   `firings` and `executions` record every fire and every execution since the
   engine was made, `inherited` the log it was given; no code reads them. Runs
   follow one another and their clock does not go back.
   */
  class RuleEngine {
    const log: ActionLog
    var rules: seq<Rule>
    var cooldownState: map<int, int>
    var executors: set<int>
    ghost var firings: seq<Firing>
    ghost var executions: seq<Execution>
    ghost const inherited: map<string, Entry>

    /**
     Fires respect their cooldowns; the log stands exactly for the reported
     executions, after each of which its key waits out the time to live.
     */
    ghost predicate Valid()
      reads this, log
    {
      && log.Valid() && log.ttlMs >= 0
      && Remembers(Some(cooldownState), firings) && Gapped(firings)
      && LogKnows(log.history, executions) && LogSays(log.history, inherited, executions)
      && Separated(executions, log.ttlMs)
    }

    constructor (initial: seq<Rule>, actionLog: ActionLog, kinds: set<int>)
      requires actionLog.Valid() && actionLog.ttlMs >= 0
      ensures Valid() && log == actionLog && rules == initial && executors == kinds
      ensures cooldownState == map[] && firings == [] && executions == [] && inherited == actionLog.history
    {
      log, rules, cooldownState, executors := actionLog, initial, map[], kinds;
      firings, executions, inherited := [], [], actionLog.history;
    }

    method SetRules(replacement: seq<Rule>)
      requires Valid()
      modifies `rules
      ensures Valid() && rules == replacement
    {
      rules := replacement;
    }

    method RegisterExecutor(kind: int)
      requires Valid()
      modifies `executors
      ensures Valid() && executors == old(executors) + {kind}
    {
      executors := executors + {kind};
    }

    /** A decision phase on its own; it writes the cooldown state like a run does. */
    method DecideOnly(evaluated: seq<Evaluated>, prio: Priority, now: int) returns (decisions: seq<Decision>)
      requires Valid()
      modifies `cooldownState, `firings
      ensures Valid()
      ensures decisions == DecisionsOf(evaluated, prio, Some(old(cooldownState)), now)
      ensures Some(cooldownState) == CooldownsAfter(evaluated, prio, Some(old(cooldownState)), now)
      ensures old(firings) <= firings && multiset(firings[|old(firings)|..]) == multiset(FiringsOf(decisions, now))
    {
      hide Remembers, Gapped, LogKnows, LogSays, Separated, DecisionsOf, CooldownsAfter, FiringsOf;
      ghost var more := DecisionHistory(evaluated, prio, cooldownState, firings, now);
      var cooldowns;
      decisions, cooldowns := DecideRules(evaluated, prio, Some(cooldownState), now);
      cooldownState := cooldowns.value;
      firings := more;
    }

    /** One cycle: evaluate, decide against the cooldown state, act against the log. */
    method Run(source: Source, holds: int -> bool, prio: Priority, c: Cycle)
      returns (evaluations: seq<Evaluated>, decisions: seq<Decision>, outcomes: seq<Outcome>)
      requires Valid() && c.executors == executors && c.now >= log.clock && Timely(c)
      modifies `cooldownState, `firings, `executions, log
      ensures Valid() && log.clock == c.now
      ensures evaluations == EvaluateRules(rules, source, holds)
      ensures decisions == DecisionsOf(evaluations, prio, Some(old(cooldownState)), c.now)
      ensures Some(cooldownState) == CooldownsAfter(evaluations, prio, Some(old(cooldownState)), c.now)
      ensures old(firings) <= firings
      ensures multiset(firings[|old(firings)|..]) == multiset(FiringsOf(decisions, c.now))
      ensures var a := ActOnAll(Acted(old(log.history), [], []), decisions, |decisions|, c, log.ttlMs);
        outcomes == a.outcomes && log.history == a.history && executions == old(executions) + a.executions
      ensures NoQuietFailure(c) ==>
        && Map(outcomes, DECISION) == Filter(decisions, FIRED)
        && (!AnySilent(old(executions)) ==> !AnySilent(executions))
    {
      hide Remembers, Gapped, LogKnows, LogSays, Separated, DecisionsOf, CooldownsAfter, FiringsOf, EvaluateRules,
           ActOnAll, AnySilent, NoQuietFailure, Map, Filter;
      evaluations := EvaluateRules(rules, source, holds);
      decisions := DecideOnly(evaluations, prio, c.now);
      RunKeepsApart(executions, inherited, log.history, decisions, c, log.ttlMs);
      ghost var ran;
      outcomes, ran := ActOnDecisions(decisions, c, log);
      executions := executions + ran;
    }

    /** Two fires of a rule whose cooldown was always at least `c` are at least `c` apart, over any runs. */
    lemma CooldownsHold(id: int, c: int, i: nat, j: nat)
      requires Valid() && c > 0 && i < j < |firings| && firings[i].id == id && firings[j].id == id
      requires forall k :: 0 <= k < |firings| && firings[k].id == id ==> firings[k].cooldown >= c
      ensures firings[j].at - firings[i].at >= c
    {
      FiresAreApart(firings, id, c, i, j);
    }

    /**
     Over any runs a key is blocked exactly while a reported execution of it, or
     an entry the engine started with, is within the time to live; a silent
     execution blocks nothing.
     */
    lemma BlocksExactly(key: string, now: int)
      requires Valid()
      ensures Remembered(log.history, key, now, log.ttlMs)
         <==> Blocked(executions, key, now, log.ttlMs)
              || (Inherits(log.history, inherited, key) && Remembered(inherited, key, now, log.ttlMs))
    {
      RememberedExactly(log.history, inherited, executions, key, now, log.ttlMs);
    }

    /** Over runs without quiet failures any two executions of a key are more than the time to live apart. */
    lemma ExecutionsAreIdempotent()
      requires Valid() && !AnySilent(executions)
      ensures AllApart(executions, log.ttlMs)
    {
      SeparatedIsApart(executions, log.ttlMs);
    }
  }

  lemma RunKeepsApart(past: seq<Execution>, inherited: map<string, Entry>, history: map<string, Entry>,
                      decisions: seq<Decision>, c: Cycle, ttlMs: int)
    requires ttlMs >= 0 && Timely(c)
    requires LogKnows(history, past) && LogSays(history, inherited, past) && Separated(past, ttlMs)
    ensures var a := ActOnAll(Acted(history, [], []), decisions, |decisions|, c, ttlMs);
      && LogKnows(a.history, past + a.executions) && LogSays(a.history, inherited, past + a.executions)
      && Separated(past + a.executions, ttlMs)
      && (NoQuietFailure(c) ==>
            && Map(a.outcomes, DECISION) == Filter(decisions, FIRED)
            && (!AnySilent(past) ==> !AnySilent(past + a.executions)))
  {
    hide LogKnows, LogSays, Separated, ActOnAll, NoQuietFailure;
    ActOnAllKeepsApart(past, inherited, history, decisions, |decisions|, c, ttlMs);
    if NoQuietFailure(c) {
      EveryFireReports(history, decisions, c, ttlMs);
      NeverSilent(Acted(history, [], []), decisions, |decisions|, c, ttlMs);
      StillNotSilent(past, ActOnAll(Acted(history, [], []), decisions, |decisions|, c, ttlMs).executions);
    }
  }

  lemma StillNotSilent(past: seq<Execution>, more: seq<Execution>)
    requires !AnySilent(more)
    ensures !AnySilent(past) ==> !AnySilent(past + more)
  {
    forall k | 0 <= k < |past + more| && Silent((past + more)[k].last) ensures AnySilent(past) {
      if k < |past| {
        assert Silent(past[k].last);
      }
    }
  }
}
