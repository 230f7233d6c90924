/** Rule evaluation and the decision phase: priority order, preemption by tier, cooldowns. */
module Decide {
  import opened Prelude
  import opened Sorting

  datatype Source = Tick | Request | Manual

  datatype ActionSpec = ActionSpec(kind: int, maxAttempts: Option<int>, backoffMs: Option<int>)

  /** A rule; ids are ranks in the locale order of the names, conditions are named by numbers. */
  datatype Rule = Rule(
    id: int,
    tier: int,
    conditions: seq<int>,
    action: ActionSpec,
    cooldownMs: Option<int>,
    allowedSources: seq<Source>,
    enabled: bool)

  datatype Evaluated = Evaluated(rule: Rule, source: Source, results: seq<bool>, allMet: bool)

  function Every(results: seq<bool>): (all: bool)
    ensures all <==> forall i :: 0 <= i < |results| ==> results[i]
  {
    results == [] || (results[0] && Every(results[1..]))
  }

  function Evaluate(rule: Rule, source: Source, holds: int -> bool): Evaluated {
    var results := seq(|rule.conditions|, i requires 0 <= i < |rule.conditions| => holds(rule.conditions[i]));
    Evaluated(rule, source, results, Every(results))
  }

  /** The enabled rules that accept the source, with the verdict of their conditions. */
  function EvaluateRules(rules: seq<Rule>, source: Source, holds: int -> bool): seq<Evaluated> {
    if rules == [] then []
    else
      (if rules[0].enabled && source in rules[0].allowedSources then [Evaluate(rules[0], source, holds)] else [])
      + EvaluateRules(rules[1..], source, holds)
  }

  lemma {:induction false} EvaluatedRules(rules: seq<Rule>, source: Source, holds: int -> bool, e: Evaluated)
    ensures e in EvaluateRules(rules, source, holds)
         <==> (&& e.rule in rules && e.rule.enabled && source in e.rule.allowedSources
               && e == Evaluate(e.rule, source, holds))
  {
    if rules != [] {
      EvaluatedRules(rules[1..], source, holds, e);
      assert rules == [rules[0]] + rules[1..];
    }
  }

  // ---- the order of rules and decisions ----

  type Priority = Source -> int

  predicate Ahead(prio: Priority, tierA: int, sourceA: Source, idA: int, tierB: int, sourceB: Source, idB: int) {
    || tierA > tierB
    || (tierA == tierB && (prio(sourceA) > prio(sourceB) || (prio(sourceA) == prio(sourceB) && idA <= idB)))
  }

  function RuleOrder(prio: Priority): (Evaluated, Evaluated) -> bool {
    (a: Evaluated, b: Evaluated) => Ahead(prio, a.rule.tier, a.source, a.rule.id, b.rule.tier, b.source, b.rule.id)
  }

  datatype Verdict = Fire | NotMet | Preempted | CoolingDown

  datatype Decision = Decision(verdict: Verdict, evaluated: Evaluated)

  function DecisionOrder(prio: Priority): (Decision, Decision) -> bool {
    (a: Decision, b: Decision) =>
      if (a.verdict == Fire) != (b.verdict == Fire) then a.verdict == Fire
      else Ahead(prio, a.evaluated.rule.tier, a.evaluated.source, a.evaluated.rule.id,
                 b.evaluated.rule.tier, b.evaluated.source, b.evaluated.rule.id)
  }

  lemma OrdersArePreorders(prio: Priority)
    ensures TotalPreorder(RuleOrder(prio)) && TotalPreorder(DecisionOrder(prio))
  {
  }

  // ---- the decision loop ----

  /** A fire of a rule: which rule, with what cooldown, when. */
  datatype Firing = Firing(id: int, cooldown: int, at: int)

  /** The loop variables; `firings` is history that no code reads. */
  datatype Round = Round(decisions: seq<Decision>, lastFiredAt: Option<map<int, int>>, block: Option<int>,
                         firings: seq<Firing>)

  function Cooldown(e: Evaluated): int {
    match e.rule.cooldownMs case None => 0 case Some(c) => c
  }

  predicate Cooling(e: Evaluated, lastFiredAt: Option<map<int, int>>, now: int) {
    && Cooldown(e) > 0 && lastFiredAt.Some? && e.rule.id in lastFiredAt.value
    && now - lastFiredAt.value[e.rule.id] < Cooldown(e)
  }

  function RaiseTo(block: Option<int>, tier: int): Option<int> {
    if block.Some? && block.value > tier then block else Some(tier)
  }

  function Consider(r: Round, e: Evaluated, now: int): Round {
    if r.block.Some? && e.rule.tier < r.block.value then r.(decisions := r.decisions + [Decision(Preempted, e)])
    else if Cooling(e, r.lastFiredAt, now) then r.(decisions := r.decisions + [Decision(CoolingDown, e)])
    else
      Round(r.decisions + [Decision(Fire, e)],
            if r.lastFiredAt.Some? then Some(r.lastFiredAt.value[e.rule.id := now]) else None,
            if e.rule.tier >= 300 then RaiseTo(r.block, 300)
            else if e.rule.tier >= 200 then RaiseTo(r.block, 200)
            else r.block,
            r.firings + [Firing(e.rule.id, Cooldown(e), now)])
  }

  function ConsiderAll(start: Round, items: seq<Evaluated>, n: nat, now: int): Round
    requires n <= |items|
  {
    if n == 0 then start else Consider(ConsiderAll(start, items, n - 1, now), items[n - 1], now)
  }

  const MET: Evaluated -> bool := (e: Evaluated) => e.allMet

  const UNMET: Evaluated -> bool := (e: Evaluated) => !e.allMet

  const SUPPRESS: Evaluated -> Decision := (e: Evaluated) => Decision(NotMet, e)

  function MetInOrder(evaluated: seq<Evaluated>, prio: Priority): seq<Evaluated> {
    StableSort(Filter(evaluated, MET), RuleOrder(prio))
  }

  function LastRound(evaluated: seq<Evaluated>, prio: Priority, lastFiredAt: Option<map<int, int>>,
                     firings: seq<Firing>, now: int): Round {
    var met := MetInOrder(evaluated, prio);
    ConsiderAll(Round(Map(Filter(evaluated, UNMET), SUPPRESS), lastFiredAt, None, firings), met, |met|, now)
  }

  function DecisionsOf(evaluated: seq<Evaluated>, prio: Priority, lastFiredAt: Option<map<int, int>>,
                       now: int): seq<Decision> {
    StableSort(LastRound(evaluated, prio, lastFiredAt, [], now).decisions, DecisionOrder(prio))
  }

  function CooldownsAfter(evaluated: seq<Evaluated>, prio: Priority, lastFiredAt: Option<map<int, int>>,
                          now: int): Option<map<int, int>> {
    LastRound(evaluated, prio, lastFiredAt, [], now).lastFiredAt
  }

  // ---- what the decisions are ----

  /** Some rule of at least this tier is met and not cooling down. */
  ghost predicate Contends(evaluated: seq<Evaluated>, tier: int, lastFiredAt: Option<map<int, int>>, now: int) {
    exists e :: e in evaluated && e.allMet && !Cooling(e, lastFiredAt, now) && e.rule.tier >= tier
  }

  /** A rule below 300 (200) yields to a contender of tier 300 (200) or more. */
  ghost predicate Yields(e: Evaluated, evaluated: seq<Evaluated>, lastFiredAt: Option<map<int, int>>, now: int) {
    || (e.rule.tier < 300 && Contends(evaluated, 300, lastFiredAt, now))
    || (e.rule.tier < 200 && Contends(evaluated, 200, lastFiredAt, now))
  }

  /** The verdict of a rule, from the evaluations and the cooldown state alone. */
  ghost function VerdictOf(e: Evaluated, evaluated: seq<Evaluated>, lastFiredAt: Option<map<int, int>>,
                           now: int): Verdict {
    if !e.allMet then NotMet
    else if Yields(e, evaluated, lastFiredAt, now) then Preempted
    else if Cooling(e, lastFiredAt, now) then CoolingDown
    else Fire
  }

  ghost predicate DistinctIds(evaluated: seq<Evaluated>) {
    forall i, j :: 0 <= i < j < |evaluated| ==> evaluated[i].rule.id != evaluated[j].rule.id
  }

  /** Among the first `n` items one of at least this tier has fired. */
  ghost predicate FiredUpTo(items: seq<Evaluated>, n: nat, tier: int, evaluated: seq<Evaluated>,
                            lastFiredAt: Option<map<int, int>>, now: int)
    requires n <= |items|
  {
    exists j :: 0 <= j < n && items[j].rule.tier >= tier && VerdictOf(items[j], evaluated, lastFiredAt, now) == Fire
  }

  ghost function BlockAfter(items: seq<Evaluated>, n: nat, evaluated: seq<Evaluated>,
                            lastFiredAt: Option<map<int, int>>, now: int): Option<int>
    requires n <= |items|
  {
    if FiredUpTo(items, n, 300, evaluated, lastFiredAt, now) then Some(300)
    else if FiredUpTo(items, n, 200, evaluated, lastFiredAt, now) then Some(200)
    else None
  }

  /** The met rules in processing order: exactly the met ones, higher tiers first. */
  ghost predicate Processing(items: seq<Evaluated>, evaluated: seq<Evaluated>) {
    && (forall e :: e in items <==> e in evaluated && e.allMet)
    && (forall i, j :: 0 <= i < j < |items| ==> items[i].rule.tier >= items[j].rule.tier)
    && DistinctIds(items)
  }

  lemma ContenderComesEarlier(items: seq<Evaluated>, n: nat, w: Evaluated, evaluated: seq<Evaluated>) returns (j: nat)
    requires Processing(items, evaluated) && n < |items| && w in evaluated && w.allMet
    requires w.rule.tier > items[n].rule.tier
    ensures j < n && items[j] == w
  {
    j :| 0 <= j < |items| && items[j] == w;
  }

  /** A contender that nothing stops has fired before a rule of a lower tier is considered. */
  lemma ContenderFired(items: seq<Evaluated>, n: nat, tier: int, evaluated: seq<Evaluated>,
                       lastFiredAt: Option<map<int, int>>, now: int)
    requires Processing(items, evaluated) && n < |items| && items[n].rule.tier < tier
    requires tier == 300 || (tier == 200 && !Contends(evaluated, 300, lastFiredAt, now))
    requires Contends(evaluated, tier, lastFiredAt, now)
    ensures FiredUpTo(items, n, tier, evaluated, lastFiredAt, now)
  {
    var w :| w in evaluated && w.allMet && !Cooling(w, lastFiredAt, now) && w.rule.tier >= tier;
    var j := ContenderComesEarlier(items, n, w, evaluated);
    hide Contends, Cooling;
    assert VerdictOf(items[j], evaluated, lastFiredAt, now) == Fire;
  }

  lemma FiredContends(items: seq<Evaluated>, n: nat, tier: int, evaluated: seq<Evaluated>,
                      lastFiredAt: Option<map<int, int>>, now: int)
    requires Processing(items, evaluated) && n <= |items| && FiredUpTo(items, n, tier, evaluated, lastFiredAt, now)
    ensures Contends(evaluated, tier, lastFiredAt, now)
  {
    hide Yields, Cooling;
    var j :| 0 <= j < n && items[j].rule.tier >= tier && VerdictOf(items[j], evaluated, lastFiredAt, now) == Fire;
    assert items[j] in evaluated && items[j].allMet && !Cooling(items[j], lastFiredAt, now);
  }

  /** The tier block that the loop carries says exactly whether the next rule yields. */
  lemma BlockMeansYield(items: seq<Evaluated>, n: nat, evaluated: seq<Evaluated>, lastFiredAt: Option<map<int, int>>,
                        now: int)
    requires Processing(items, evaluated) && n < |items|
    ensures var block := BlockAfter(items, n, evaluated, lastFiredAt, now);
      (block.Some? && items[n].rule.tier < block.value) <==> Yields(items[n], evaluated, lastFiredAt, now)
  {
    hide FiredUpTo, Contends, Processing;
    var tier := items[n].rule.tier;
    if FiredUpTo(items, n, 300, evaluated, lastFiredAt, now) {
      FiredContends(items, n, 300, evaluated, lastFiredAt, now);
    }
    if FiredUpTo(items, n, 200, evaluated, lastFiredAt, now) {
      FiredContends(items, n, 200, evaluated, lastFiredAt, now);
    }
    if tier < 300 && Contends(evaluated, 300, lastFiredAt, now) {
      ContenderFired(items, n, 300, evaluated, lastFiredAt, now);
    } else if tier < 200 && Contends(evaluated, 200, lastFiredAt, now) {
      ContenderFired(items, n, 200, evaluated, lastFiredAt, now);
    }
  }

  lemma BlockStep(items: seq<Evaluated>, n: nat, evaluated: seq<Evaluated>, lastFiredAt: Option<map<int, int>>,
                  now: int)
    requires n < |items|
    ensures var block, e := BlockAfter(items, n, evaluated, lastFiredAt, now), items[n];
      BlockAfter(items, n + 1, evaluated, lastFiredAt, now) ==
        if VerdictOf(e, evaluated, lastFiredAt, now) != Fire then block
        else if e.rule.tier >= 300 then RaiseTo(block, 300)
        else if e.rule.tier >= 200 then RaiseTo(block, 200)
        else block
  {
    hide VerdictOf;
    FiredStep(items, n, 300, evaluated, lastFiredAt, now);
    FiredStep(items, n, 200, evaluated, lastFiredAt, now);
    hide FiredUpTo;
  }

  lemma FiredStep(items: seq<Evaluated>, n: nat, tier: int, evaluated: seq<Evaluated>,
                  lastFiredAt: Option<map<int, int>>, now: int)
    requires n < |items|
    ensures FiredUpTo(items, n + 1, tier, evaluated, lastFiredAt, now)
         <==> FiredUpTo(items, n, tier, evaluated, lastFiredAt, now)
              || (items[n].rule.tier >= tier && VerdictOf(items[n], evaluated, lastFiredAt, now) == Fire)
  {
    hide VerdictOf;
  }

  /** The cooldown state after the first `n` items, by id. */
  ghost predicate CooldownsAt(lastFiredAt: Option<map<int, int>>, before: Option<map<int, int>>, items: seq<Evaluated>,
                              n: nat,
                              evaluated: seq<Evaluated>, now: int)
    requires n <= |items|
  {
    && lastFiredAt.Some? == before.Some?
    && (before.Some? ==>
          && (forall id ::
                id in lastFiredAt.value <==> id in before.value || FiredId(items, n, id, evaluated, before, now))
          && (forall id :: id in lastFiredAt.value ==>
                lastFiredAt.value[id] == if FiredId(items, n, id, evaluated, before, now) then now
                                         else before.value[id]))
  }

  ghost predicate FiredId(items: seq<Evaluated>, n: nat, id: int, evaluated: seq<Evaluated>,
                          before: Option<map<int, int>>, now: int)
    requires n <= |items|
  {
    exists j :: 0 <= j < n && items[j].rule.id == id && VerdictOf(items[j], evaluated, before, now) == Fire
  }

  /** The decision on a rule, from the evaluations and the cooldown state alone. */
  ghost function Judge(evaluated: seq<Evaluated>, lastFiredAt: Option<map<int, int>>, now: int): Evaluated -> Decision {
    (e: Evaluated) => Decision(VerdictOf(e, evaluated, lastFiredAt, now), e)
  }

  lemma NotFiredYet(items: seq<Evaluated>, n: nat, evaluated: seq<Evaluated>, before: Option<map<int, int>>, now: int)
    requires Processing(items, evaluated) && n < |items|
    ensures !FiredId(items, n, items[n].rule.id, evaluated, before, now)
  {
    hide VerdictOf;
  }

  /** An earlier fire of another rule does not change whether this one is cooling down. */
  lemma CoolingIsOwn(items: seq<Evaluated>, n: nat, lastFiredAt: Option<map<int, int>>, evaluated: seq<Evaluated>,
                     before: Option<map<int, int>>, now: int)
    requires Processing(items, evaluated) && n < |items| && CooldownsAt(lastFiredAt, before, items, n, evaluated, now)
    ensures Cooling(items[n], lastFiredAt, now) == Cooling(items[n], before, now)
  {
    NotFiredYet(items, n, evaluated, before, now);
    hide FiredId, Processing;
  }

  lemma CooldownsStep(items: seq<Evaluated>, n: nat, lastFiredAt: Option<map<int, int>>, evaluated: seq<Evaluated>,
                      before: Option<map<int, int>>, now: int)
    requires n < |items| && CooldownsAt(lastFiredAt, before, items, n, evaluated, now)
    ensures CooldownsAt(
              if VerdictOf(items[n], evaluated, before, now) == Fire && lastFiredAt.Some? then
                Some(lastFiredAt.value[items[n].rule.id := now])
              else lastFiredAt,
              before, items, n + 1, evaluated, now)
  {
    forall id ensures FiredId(items, n + 1, id, evaluated, before, now)
      <==> FiredId(items, n, id, evaluated, before, now)
           || (items[n].rule.id == id && VerdictOf(items[n], evaluated, before, now) == Fire)
    {
      FiredIdStep(items, n, id, evaluated, before, now);
    }
    hide FiredId, VerdictOf;
  }

  lemma FiredIdStep(items: seq<Evaluated>, n: nat, id: int, evaluated: seq<Evaluated>, before: Option<map<int, int>>,
                    now: int)
    requires n < |items|
    ensures FiredId(items, n + 1, id, evaluated, before, now)
         <==> FiredId(items, n, id, evaluated, before, now)
              || (items[n].rule.id == id && VerdictOf(items[n], evaluated, before, now) == Fire)
  {
    hide VerdictOf;
  }

  /** What the loop variables are after the first `n` rules. */
  ghost predicate RoundIs(r: Round, start: Round, items: seq<Evaluated>, n: nat, evaluated: seq<Evaluated>, now: int)
    requires n <= |items|
  {
    && r.decisions == start.decisions + Map(items[..n], Judge(evaluated, start.lastFiredAt, now))
    && r.block == BlockAfter(items, n, evaluated, start.lastFiredAt, now)
    && CooldownsAt(r.lastFiredAt, start.lastFiredAt, items, n, evaluated, now)
  }

  lemma ConsiderKeepsRound(r: Round, start: Round, items: seq<Evaluated>, n: nat, evaluated: seq<Evaluated>, now: int)
    requires Processing(items, evaluated) && n < |items| && RoundIs(r, start, items, n, evaluated, now)
    ensures RoundIs(Consider(r, items[n], now), start, items, n + 1, evaluated, now)
  {
    var e, before := items[n], start.lastFiredAt;
    assert e.allMet;
    BlockMeansYield(items, n, evaluated, before, now);
    CoolingIsOwn(items, n, r.lastFiredAt, evaluated, before, now);
    BlockStep(items, n, evaluated, before, now);
    CooldownsStep(items, n, r.lastFiredAt, evaluated, before, now);
    MapConcat(items[..n], [e], Judge(evaluated, before, now));
    assert items[..n + 1] == items[..n] + [e];
    assert Map([e], Judge(evaluated, before, now)) == [Decision(VerdictOf(e, evaluated, before, now), e)];
    hide Processing, BlockAfter, CooldownsAt, Yields, Cooling, Map, RaiseTo;
  }

  lemma RoundStarts(start: Round, items: seq<Evaluated>, evaluated: seq<Evaluated>, now: int)
    requires start.block == None
    ensures RoundIs(start, start, items, 0, evaluated, now)
  {
    assert Map(items[..0], Judge(evaluated, start.lastFiredAt, now)) == [];
    hide VerdictOf;
  }

  lemma {:induction false} ConsiderAllIs(start: Round, items: seq<Evaluated>, n: nat, evaluated: seq<Evaluated>,
                                         now: int)
    requires Processing(items, evaluated) && n <= |items| && start.block == None
    ensures RoundIs(ConsiderAll(start, items, n, now), start, items, n, evaluated, now)
  {
    hide RoundIs, Processing, Consider;
    if n == 0 {
      RoundStarts(start, items, evaluated, now);
    } else {
      ConsiderAllIs(start, items, n - 1, evaluated, now);
      ConsiderKeepsRound(ConsiderAll(start, items, n - 1, now), start, items, n - 1, evaluated, now);
    }
  }

  lemma DistinctCons(x: Evaluated, s: seq<Evaluated>)
    ensures DistinctIds([x] + s) <==> DistinctIds(s) && forall y :: y in s ==> y.rule.id != x.rule.id
  {
    var all := [x] + s;
    if DistinctIds(all) {
      forall i, j | 0 <= i < j < |s| ensures s[i].rule.id != s[j].rule.id {
        assert all[i + 1] == s[i] && all[j + 1] == s[j];
      }
      forall y | y in s ensures y.rule.id != x.rule.id {
        var j :| 0 <= j < |s| && s[j] == y;
        assert all[0] == x && all[j + 1] == y;
      }
    }
  }

  lemma {:induction false} FilterKeepsDistinct(evaluated: seq<Evaluated>, keep: Evaluated -> bool)
    requires DistinctIds(evaluated)
    ensures DistinctIds(Filter(evaluated, keep))
  {
    if evaluated != [] {
      assert evaluated == [evaluated[0]] + evaluated[1..];
      DistinctCons(evaluated[0], evaluated[1..]);
      FilterKeepsDistinct(evaluated[1..], keep);
      FilterMember(evaluated[1..], keep);
      DistinctCons(evaluated[0], Filter(evaluated[1..], keep));
    }
  }

  lemma {:induction false} InsertKeepsDistinct(x: Evaluated, s: seq<Evaluated>, le: (Evaluated, Evaluated) -> bool)
    requires DistinctIds(s) && forall y :: y in s ==> y.rule.id != x.rule.id
    ensures DistinctIds(Insert(x, s, le))
  {
    DistinctCons(x, s);
    if s != [] && !le(x, s[0]) {
      assert s == [s[0]] + s[1..];
      DistinctCons(s[0], s[1..]);
      InsertKeepsDistinct(x, s[1..], le);
      forall y | y in Insert(x, s[1..], le) ensures y.rule.id != s[0].rule.id {
        InsertKeeps(x, s[1..], le);
        assert y in multiset(Insert(x, s[1..], le));
        assert y == x || y in s[1..];
      }
      DistinctCons(s[0], Insert(x, s[1..], le));
    }
  }

  lemma {:induction false} SortKeepsDistinct(s: seq<Evaluated>, le: (Evaluated, Evaluated) -> bool)
    requires DistinctIds(s)
    ensures DistinctIds(StableSort(s, le))
  {
    if s != [] {
      assert s == [s[0]] + s[1..];
      DistinctCons(s[0], s[1..]);
      SortKeepsDistinct(s[1..], le);
      forall y | y in StableSort(s[1..], le) ensures y.rule.id != s[0].rule.id {
        SortMember(s[1..], le, y);
      }
      InsertKeepsDistinct(s[0], StableSort(s[1..], le), le);
    }
  }

  lemma MetIsProcessing(evaluated: seq<Evaluated>, prio: Priority)
    requires DistinctIds(evaluated)
    ensures Processing(MetInOrder(evaluated, prio), evaluated)
  {
    var met := Filter(evaluated, MET);
    OrdersArePreorders(prio);
    SortSorts(met, RuleOrder(prio));
    FilterKeepsDistinct(evaluated, MET);
    SortKeepsDistinct(met, RuleOrder(prio));
    FilterMember(evaluated, MET);
    forall e ensures e in MetInOrder(evaluated, prio) <==> e in evaluated && e.allMet {
      SortMember(met, RuleOrder(prio), e);
    }
    var items := MetInOrder(evaluated, prio);
    forall i, j | 0 <= i < j < |items| ensures items[i].rule.tier >= items[j].rule.tier {
      assert RuleOrder(prio)(items[i], items[j]);
    }
  }

  /**
   The decision phase does what its rules say, whatever the order of its input:
   with distinct ids every evaluated rule gets exactly one decision, and that
   decision is the declared one. The list is in order, fires first.
   */
  lemma DecisionsAreVerdicts(evaluated: seq<Evaluated>, prio: Priority, lastFiredAt: Option<map<int, int>>, now: int)
    requires DistinctIds(evaluated)
    ensures multiset(DecisionsOf(evaluated, prio, lastFiredAt, now))
         == multiset(Map(evaluated, Judge(evaluated, lastFiredAt, now)))
    ensures Sorted(DecisionsOf(evaluated, prio, lastFiredAt, now), DecisionOrder(prio))
    ensures var items := MetInOrder(evaluated, prio);
      CooldownsAt(CooldownsAfter(evaluated, prio, lastFiredAt, now), lastFiredAt, items, |items|, evaluated, now)
  {
    hide StableSort, Filter, Map, CooldownsAt, Sorted, ConsiderAll;
    var judge, items := Judge(evaluated, lastFiredAt, now), MetInOrder(evaluated, prio);
    var notMet := Filter(evaluated, UNMET);
    var start := Round(Map(notMet, SUPPRESS), lastFiredAt, None, []);
    MetIsProcessing(evaluated, prio);
    ConsiderAllIs(start, items, |items|, evaluated, now);
    assert items[..|items|] == items;
    var last := LastRound(evaluated, prio, lastFiredAt, [], now);
    assert last.decisions == Map(notMet, SUPPRESS) + Map(items, judge);
    FilterMember(evaluated, UNMET);
    MapSame(notMet, SUPPRESS, judge);
    SortPermutes(Filter(evaluated, MET), RuleOrder(prio));
    MapPermutes(items, Filter(evaluated, MET), judge);
    MapSplits(evaluated, MET, UNMET, judge);
    SortPermutes(last.decisions, DecisionOrder(prio));
    OrdersArePreorders(prio);
    SortSorts(last.decisions, DecisionOrder(prio));
  }

  /** A rule fires exactly when the evaluations and the cooldown state say so. */
  lemma FiresExactly(evaluated: seq<Evaluated>, prio: Priority, lastFiredAt: Option<map<int, int>>, now: int,
                     e: Evaluated)
    requires DistinctIds(evaluated) && e in evaluated
    ensures Decision(Fire, e) in DecisionsOf(evaluated, prio, lastFiredAt, now)
         <==> e.allMet && !Cooling(e, lastFiredAt, now)
              && (e.rule.tier < 300 ==> !Contends(evaluated, 300, lastFiredAt, now))
              && (e.rule.tier < 200 ==> !Contends(evaluated, 200, lastFiredAt, now))
  {
    DecisionsAreVerdicts(evaluated, prio, lastFiredAt, now);
    var judge, decisions := Judge(evaluated, lastFiredAt, now), DecisionsOf(evaluated, prio, lastFiredAt, now);
    MapMember(evaluated, judge, Decision(Fire, e));
    hide DecisionsOf, Contends, Cooling;
    assert Decision(Fire, e) in multiset(decisions) <==> Decision(Fire, e) in multiset(Map(evaluated, judge));
    assert judge(e) == Decision(VerdictOf(e, evaluated, lastFiredAt, now), e);
  }

  // ---- the order of the input does not matter ----

  lemma SameMembers(a: seq<Evaluated>, b: seq<Evaluated>)
    requires multiset(a) == multiset(b)
    ensures forall e :: e in a <==> e in b
  {
    assert forall e :: e in multiset(a) <==> e in a;
    assert forall e :: e in multiset(b) <==> e in b;
  }

  lemma SameVerdicts(a: seq<Evaluated>, b: seq<Evaluated>, lastFiredAt: Option<map<int, int>>, now: int)
    requires forall e :: e in a <==> e in b
    ensures forall e :: VerdictOf(e, a, lastFiredAt, now) == VerdictOf(e, b, lastFiredAt, now)
  {
    assert Contends(a, 300, lastFiredAt, now) == Contends(b, 300, lastFiredAt, now);
    assert Contends(a, 200, lastFiredAt, now) == Contends(b, 200, lastFiredAt, now);
    hide Cooling, Contends;
  }

  lemma SameId(s: seq<Evaluated>, x: Evaluated, y: Evaluated)
    requires DistinctIds(s) && x in s && y in s && x.rule.id == y.rule.id
    ensures x == y
  {
    var i :| 0 <= i < |s| && s[i] == x;
    var j :| 0 <= j < |s| && s[j] == y;
  }

  /** The rule `id` fires among the evaluated ones. */
  ghost predicate IdFires(evaluated: seq<Evaluated>, id: int, lastFiredAt: Option<map<int, int>>, now: int) {
    exists e :: e in evaluated && e.rule.id == id && VerdictOf(e, evaluated, lastFiredAt, now) == Fire
  }

  /** The new cooldown state: now for the rules that fire, unchanged for all others. */
  lemma CooldownsExactly(evaluated: seq<Evaluated>, prio: Priority, lastFiredAt: Option<map<int, int>>, now: int)
    requires DistinctIds(evaluated)
    ensures var after := CooldownsAfter(evaluated, prio, lastFiredAt, now);
      && after.Some? == lastFiredAt.Some?
      && (after.Some? ==> forall id ::
            && (id in after.value <==> id in lastFiredAt.value || IdFires(evaluated, id, lastFiredAt, now))
            && (id in after.value ==> after.value[id] == if IdFires(evaluated, id, lastFiredAt, now) then now
                                                         else lastFiredAt.value[id]))
  {
    var items := MetInOrder(evaluated, prio);
    DecisionsAreVerdicts(evaluated, prio, lastFiredAt, now);
    MetIsProcessing(evaluated, prio);
    forall id
      ensures FiredId(items, |items|, id, evaluated, lastFiredAt, now) <==> IdFires(evaluated, id, lastFiredAt, now)
    {
      FiredIdIsFires(items, evaluated, id, lastFiredAt, now);
    }
    hide CooldownsAfter, FiredId, IdFires;
  }

  lemma FiredIdIsFires(items: seq<Evaluated>, evaluated: seq<Evaluated>, id: int, lastFiredAt: Option<map<int, int>>,
                       now: int)
    requires Processing(items, evaluated)
    ensures FiredId(items, |items|, id, evaluated, lastFiredAt, now) <==> IdFires(evaluated, id, lastFiredAt, now)
  {
    hide Yields, Cooling;
    if IdFires(evaluated, id, lastFiredAt, now) {
      var e :| e in evaluated && e.rule.id == id && VerdictOf(e, evaluated, lastFiredAt, now) == Fire;
      var j :| 0 <= j < |items| && items[j] == e;
    }
  }

  /** Any order of the same rules gives the same list of decisions and the same cooldown state. */
  lemma OrderIndependent(a: seq<Evaluated>, b: seq<Evaluated>, prio: Priority, lastFiredAt: Option<map<int, int>>,
                         now: int)
    requires multiset(a) == multiset(b) && DistinctIds(a) && DistinctIds(b)
    ensures DecisionsOf(a, prio, lastFiredAt, now) == DecisionsOf(b, prio, lastFiredAt, now)
    ensures CooldownsAfter(a, prio, lastFiredAt, now) == CooldownsAfter(b, prio, lastFiredAt, now)
  {
    SameMembers(a, b);
    SameVerdicts(a, b, lastFiredAt, now);
    hide DecisionsOf, CooldownsAfter, DistinctIds, VerdictOf;
    SameDecisions(a, b, prio, lastFiredAt, now);
    SameCooldowns(a, b, prio, lastFiredAt, now);
  }

  lemma SameIdFires(a: seq<Evaluated>, b: seq<Evaluated>, id: int, lastFiredAt: Option<map<int, int>>, now: int)
    requires forall e :: e in a <==> e in b
    requires forall e :: VerdictOf(e, a, lastFiredAt, now) == VerdictOf(e, b, lastFiredAt, now)
    ensures IdFires(a, id, lastFiredAt, now) == IdFires(b, id, lastFiredAt, now)
  {
    hide VerdictOf;
  }

  lemma SameCooldowns(a: seq<Evaluated>, b: seq<Evaluated>, prio: Priority, lastFiredAt: Option<map<int, int>>,
                      now: int)
    requires DistinctIds(a) && DistinctIds(b) && forall e :: e in a <==> e in b
    requires forall e :: VerdictOf(e, a, lastFiredAt, now) == VerdictOf(e, b, lastFiredAt, now)
    ensures CooldownsAfter(a, prio, lastFiredAt, now) == CooldownsAfter(b, prio, lastFiredAt, now)
  {
    hide CooldownsAfter, DistinctIds, VerdictOf, IdFires;
    CooldownsExactly(a, prio, lastFiredAt, now);
    CooldownsExactly(b, prio, lastFiredAt, now);
    forall id ensures IdFires(a, id, lastFiredAt, now) == IdFires(b, id, lastFiredAt, now) {
      SameIdFires(a, b, id, lastFiredAt, now);
    }
    var after, other := CooldownsAfter(a, prio, lastFiredAt, now), CooldownsAfter(b, prio, lastFiredAt, now);
    if after.Some? {
      assert forall id :: id in after.value <==> id in other.value;
      assert forall id :: id in after.value ==> after.value[id] == other.value[id];
      assert after.value.Keys == other.value.Keys;
      assert after.value == other.value;
    }
  }

  /** Two decisions on rules with distinct ids never tie in the order of the result. */
  lemma NoTies(evaluated: seq<Evaluated>, prio: Priority, lastFiredAt: Option<map<int, int>>, now: int, x: Decision,
               y: Decision)
    requires DistinctIds(evaluated) && x in DecisionsOf(evaluated, prio, lastFiredAt, now)
    requires y in DecisionsOf(evaluated, prio, lastFiredAt, now)
    requires DecisionOrder(prio)(x, y) && DecisionOrder(prio)(y, x)
    ensures x == y
  {
    var decisions, judge := DecisionsOf(evaluated, prio, lastFiredAt, now), Judge(evaluated, lastFiredAt, now);
    assert x.evaluated.rule.id == y.evaluated.rule.id;
    hide DecisionsOf, VerdictOf, Ahead;
    DecisionsAreVerdicts(evaluated, prio, lastFiredAt, now);
    assert x in multiset(decisions) && y in multiset(decisions);
    MapMember(evaluated, judge, x);
    MapMember(evaluated, judge, y);
    SameId(evaluated, x.evaluated, y.evaluated);
  }

  lemma SameDecisions(a: seq<Evaluated>, b: seq<Evaluated>, prio: Priority, lastFiredAt: Option<map<int, int>>,
                      now: int)
    requires multiset(a) == multiset(b) && DistinctIds(a) && DistinctIds(b)
    requires forall e :: VerdictOf(e, a, lastFiredAt, now) == VerdictOf(e, b, lastFiredAt, now)
    ensures DecisionsOf(a, prio, lastFiredAt, now) == DecisionsOf(b, prio, lastFiredAt, now)
  {
    var da, db := DecisionsOf(a, prio, lastFiredAt, now), DecisionsOf(b, prio, lastFiredAt, now);
    var judge := Judge(a, lastFiredAt, now);
    DecisionsAreVerdicts(a, prio, lastFiredAt, now);
    DecisionsAreVerdicts(b, prio, lastFiredAt, now);
    MapSame(b, Judge(b, lastFiredAt, now), judge);
    MapPermutes(a, b, judge);
    hide DecisionsOf, Map, VerdictOf, DistinctIds;
    forall x, y | x in da && y in da && DecisionOrder(prio)(x, y) && DecisionOrder(prio)(y, x) ensures x == y {
      NoTies(a, prio, lastFiredAt, now, x, y);
    }
    SortedUnique(da, db, DecisionOrder(prio));
  }

  // ---- what holds even when ids repeat ----

  const EVALUATED: Decision -> Evaluated := (d: Decision) => d.evaluated

  const ITSELF: Evaluated -> Evaluated := (e: Evaluated) => e

  lemma ConsiderAppends(r: Round, e: Evaluated, now: int)
    ensures Map(Consider(r, e, now).decisions, EVALUATED) == Map(r.decisions, EVALUATED) + [e]
  {
    var d := Consider(r, e, now).decisions[|r.decisions|];
    assert Consider(r, e, now).decisions == r.decisions + [d];
    MapConcat(r.decisions, [d], EVALUATED);
    assert Map([d], EVALUATED) == [e];
  }

  lemma {:induction false} ConsiderAllKeepsItems(start: Round, items: seq<Evaluated>, n: nat, now: int)
    requires n <= |items|
    ensures Map(ConsiderAll(start, items, n, now).decisions, EVALUATED) == Map(start.decisions, EVALUATED) + items[..n]
  {
    if n > 0 {
      ConsiderAllKeepsItems(start, items, n - 1, now);
      ConsiderAppends(ConsiderAll(start, items, n - 1, now), items[n - 1], now);
      assert items[..n] == items[..n - 1] + [items[n - 1]];
      hide Map, Consider;
    }
  }

  lemma {:induction false} MapItself(s: seq<Evaluated>)
    ensures Map(s, ITSELF) == s
    ensures Map(Map(s, SUPPRESS), EVALUATED) == s
  {
    if s != [] {
      MapItself(s[1..]);
    }
  }

  /** Every evaluated rule gets exactly one decision, whatever the ids are. */
  lemma OneDecisionEach(evaluated: seq<Evaluated>, prio: Priority, lastFiredAt: Option<map<int, int>>, now: int)
    ensures multiset(Map(DecisionsOf(evaluated, prio, lastFiredAt, now), EVALUATED)) == multiset(evaluated)
  {
    var items, notMet := MetInOrder(evaluated, prio), Filter(evaluated, UNMET);
    var start := Round(Map(notMet, SUPPRESS), lastFiredAt, None, []);
    var last := LastRound(evaluated, prio, lastFiredAt, [], now);
    ConsiderAllKeepsItems(start, items, |items|, now);
    assert items[..|items|] == items;
    MapItself(notMet);
    MapItself(Filter(evaluated, MET));
    MapItself(evaluated);
    SortPermutes(Filter(evaluated, MET), RuleOrder(prio));
    MapSplits(evaluated, MET, UNMET, ITSELF);
    SortPermutes(last.decisions, DecisionOrder(prio));
    MapPermutes(DecisionsOf(evaluated, prio, lastFiredAt, now), last.decisions, EVALUATED);
  }

  predicate Fired(d: Decision) { d.verdict == Fire }

  /** A fire of tier 300 (200) or more excludes every fire below 300 (200). */
  ghost predicate Excluding(decisions: seq<Decision>) {
    forall c, d :: c in decisions && d in decisions && Fired(c) && Fired(d) ==>
      && (c.evaluated.rule.tier >= 300 ==> d.evaluated.rule.tier >= 300)
      && (c.evaluated.rule.tier >= 200 ==> d.evaluated.rule.tier >= 200)
  }

  /** The block stands for the fires so far, and no fire so far is below `tier`. */
  ghost predicate Blocking(r: Round, tier: int) {
    forall d :: d in r.decisions && Fired(d) ==>
      && d.evaluated.rule.tier >= tier
      && (d.evaluated.rule.tier >= 300 ==> r.block.Some? && r.block.value >= 300)
      && (d.evaluated.rule.tier >= 200 ==> r.block.Some? && r.block.value >= 200)
  }

  lemma ConsiderKeepsExcluding(r: Round, e: Evaluated, now: int)
    requires Excluding(r.decisions) && Blocking(r, e.rule.tier)
    ensures Excluding(Consider(r, e, now).decisions) && Blocking(Consider(r, e, now), e.rule.tier)
  {
    hide Cooling;
  }

  lemma BlockingWeakens(r: Round, high: int, low: int)
    requires Blocking(r, high) && low <= high
    ensures Blocking(r, low)
  {
  }

  lemma {:induction false} ConsiderAllExcludes(start: Round, items: seq<Evaluated>, n: nat, now: int)
    requires n <= |items| && (forall d :: d in start.decisions ==> !Fired(d))
    requires forall i, j :: 0 <= i < j < |items| ==> items[i].rule.tier >= items[j].rule.tier
    ensures var r := ConsiderAll(start, items, n, now);
      Excluding(r.decisions) && (n > 0 ==> Blocking(r, items[n - 1].rule.tier))
  {
    hide Excluding, Blocking, Consider;
    if n == 0 {
      NoFires(start, 0);
    } else {
      ConsiderAllExcludes(start, items, n - 1, now);
      var r := ConsiderAll(start, items, n - 1, now);
      if n > 1 {
        BlockingWeakens(r, items[n - 2].rule.tier, items[n - 1].rule.tier);
      } else {
        NoFires(start, items[0].rule.tier);
      }
      ConsiderKeepsExcluding(r, items[n - 1], now);
    }
  }

  lemma NoFires(r: Round, tier: int)
    requires forall d :: d in r.decisions ==> !Fired(d)
    ensures Excluding(r.decisions) && Blocking(r, tier)
  {
  }

  /** Preemption, whatever the ids are. */
  lemma PreemptionHolds(evaluated: seq<Evaluated>, prio: Priority, lastFiredAt: Option<map<int, int>>, now: int)
    ensures Excluding(DecisionsOf(evaluated, prio, lastFiredAt, now))
  {
    var items, notMet := MetInOrder(evaluated, prio), Filter(evaluated, UNMET);
    var start := Round(Map(notMet, SUPPRESS), lastFiredAt, None, []);
    OrdersArePreorders(prio);
    SortSorts(Filter(evaluated, MET), RuleOrder(prio));
    forall i, j | 0 <= i < j < |items| ensures items[i].rule.tier >= items[j].rule.tier {
      assert RuleOrder(prio)(items[i], items[j]);
    }
    forall d | d in start.decisions ensures !Fired(d) {
      MapMember(notMet, SUPPRESS, d);
    }
    ConsiderAllExcludes(start, items, |items|, now);
    var last := LastRound(evaluated, prio, lastFiredAt, [], now);
    forall d | d in DecisionsOf(evaluated, prio, lastFiredAt, now) ensures d in last.decisions {
      SortMember(last.decisions, DecisionOrder(prio), d);
    }
  }

  // ---- cooldowns over whole histories ----

  /** The latest time at which the rule `id` fired. */
  function LastFire(firings: seq<Firing>, id: int): Option<int> {
    if firings == [] then None
    else if firings[|firings| - 1].id == id then Some(firings[|firings| - 1].at)
    else LastFire(firings[..|firings| - 1], id)
  }

  /** Each fire of a rule with a cooldown came at least that long after the one before it. */
  ghost predicate Gapped(firings: seq<Firing>) {
    forall k :: 0 <= k < |firings| && firings[k].cooldown > 0 ==>
      match LastFire(firings[..k], firings[k].id)
      case None => true
      case Some(t) => firings[k].at - t >= firings[k].cooldown
  }

  /** The cooldown state is exactly the latest fire of every rule. */
  ghost predicate Remembers(lastFiredAt: Option<map<int, int>>, firings: seq<Firing>) {
    && lastFiredAt.Some?
    && forall id :: LastFire(firings, id) == if id in lastFiredAt.value then Some(lastFiredAt.value[id]) else None
  }

  lemma ConsiderKeepsGaps(r: Round, e: Evaluated, now: int)
    requires Remembers(r.lastFiredAt, r.firings) && Gapped(r.firings)
    ensures var q := Consider(r, e, now);
      Remembers(q.lastFiredAt, q.firings) && Gapped(q.firings)
  {
    hide Gapped, LastFire;
    var q := Consider(r, e, now);
    if |q.firings| > |r.firings| {
      FireKeepsGaps(r.lastFiredAt, r.firings, Firing(e.rule.id, Cooldown(e), now));
    }
  }

  lemma LastFireAppend(firings: seq<Firing>, f: Firing, id: int)
    ensures LastFire(firings + [f], id) == if f.id == id then Some(f.at) else LastFire(firings, id)
  {
    assert (firings + [f])[..|firings|] == firings;
  }

  /** A fire that waited out its cooldown extends the history. */
  lemma FireKeepsGaps(lastFiredAt: Option<map<int, int>>, firings: seq<Firing>, f: Firing)
    requires Remembers(lastFiredAt, firings) && Gapped(firings)
    requires f.cooldown > 0 && f.id in lastFiredAt.value ==> f.at - lastFiredAt.value[f.id] >= f.cooldown
    ensures Remembers(Some(lastFiredAt.value[f.id := f.at]), firings + [f]) && Gapped(firings + [f])
  {
    hide LastFire;
    var all := firings + [f];
    forall id ensures LastFire(all, id) == if f.id == id then Some(f.at) else LastFire(firings, id) {
      LastFireAppend(firings, f, id);
    }
    forall k | 0 <= k < |all| ensures all[..k] == firings[..k] {
    }
    assert all[..|firings|] == firings;
  }

  lemma {:induction false} ConsiderAllKeepsGaps(start: Round, items: seq<Evaluated>, n: nat, now: int)
    requires n <= |items| && Remembers(start.lastFiredAt, start.firings) && Gapped(start.firings)
    ensures var r := ConsiderAll(start, items, n, now);
      Remembers(r.lastFiredAt, r.firings) && Gapped(r.firings)
  {
    if n > 0 {
      hide Remembers, Gapped, Consider;
      ConsiderAllKeepsGaps(start, items, n - 1, now);
      ConsiderKeepsGaps(ConsiderAll(start, items, n - 1, now), items[n - 1], now);
    }
  }

  /** The history of fires does not influence the decisions. */
  lemma {:induction false} HistoryIsUnread(a: Round, b: Round, items: seq<Evaluated>, n: nat, now: int)
    requires n <= |items| && a.(firings := []) == b.(firings := [])
    ensures ConsiderAll(a, items, n, now).(firings := []) == ConsiderAll(b, items, n, now).(firings := [])
  {
    if n > 0 {
      HistoryIsUnread(a, b, items, n - 1, now);
    }
  }

  lemma LastFireIsLatest(firings: seq<Firing>, id: int, i: nat)
    requires i < |firings| && firings[i].id == id
    ensures LastFire(firings, id).Some?
    ensures exists k :: i <= k < |firings| && firings[k].id == id && LastFire(firings, id) == Some(firings[k].at)
  {
    var n := |firings| - 1;
    if firings[n].id == id {
      assert LastFire(firings, id) == Some(firings[n].at);
    } else {
      LastFireIsLatest(firings[..n], id, i);
      var k :| i <= k < n && firings[..n][k].id == id && LastFire(firings[..n], id) == Some(firings[..n][k].at);
      assert firings[k].id == id && LastFire(firings, id) == Some(firings[k].at);
    }
  }

  /** Any two fires of a rule whose cooldown was at least `c` are at least `c` apart. */
  lemma {:induction false} FiresAreApart(firings: seq<Firing>, id: int, c: int, i: nat, j: nat)
    requires Gapped(firings) && c > 0
    requires forall k :: 0 <= k < |firings| && firings[k].id == id ==> firings[k].cooldown >= c
    requires i < j < |firings| && firings[i].id == id && firings[j].id == id
    ensures firings[j].at - firings[i].at >= c
    decreases j
  {
    LastFireIsLatest(firings[..j], id, i);
    var k :| i <= k < j && firings[..j][k].id == id && LastFire(firings[..j], id) == Some(firings[..j][k].at);
    if k != i {
      FiresAreApart(firings, id, c, i, k);
    }
  }

  // ---- the decision phase ----

  method DecideRules(evaluated: seq<Evaluated>, prio: Priority, cooldowns: Option<map<int, int>>, now: int)
    returns (decisions: seq<Decision>, lastFiredAt: Option<map<int, int>>)
    ensures decisions == DecisionsOf(evaluated, prio, cooldowns, now)
    ensures lastFiredAt == CooldownsAfter(evaluated, prio, cooldowns, now)
    ensures multiset(Map(decisions, EVALUATED)) == multiset(evaluated) && Excluding(decisions)
  {
    var notMet, met := Map(Filter(evaluated, UNMET), SUPPRESS), MetInOrder(evaluated, prio);
    ghost var start, firings := Round(notMet, cooldowns, None, []), [];
    decisions, lastFiredAt := notMet, cooldowns;
    var block: Option<int> := None;
    for i := 0 to |met|
      invariant Round(decisions, lastFiredAt, block, firings) == ConsiderAll(start, met, i, now)
    {
      var e := met[i];
      if block.Some? && e.rule.tier < block.value {
        decisions := decisions + [Decision(Preempted, e)];
        continue;
      }
      if Cooldown(e) > 0 && lastFiredAt.Some? && e.rule.id in lastFiredAt.value
         && now - lastFiredAt.value[e.rule.id] < Cooldown(e) {
        decisions := decisions + [Decision(CoolingDown, e)];
        continue;
      }
      decisions := decisions + [Decision(Fire, e)];
      firings := firings + [Firing(e.rule.id, Cooldown(e), now)];
      if lastFiredAt.Some? {
        lastFiredAt := Some(lastFiredAt.value[e.rule.id := now]);
      }
      if e.rule.tier >= 300 {
        block := RaiseTo(block, 300);
      } else if e.rule.tier >= 200 {
        block := RaiseTo(block, 200);
      }
    }
    decisions := StableSort(decisions, DecisionOrder(prio));
    OneDecisionEach(evaluated, prio, cooldowns, now);
    PreemptionHolds(evaluated, prio, cooldowns, now);
  }
}
