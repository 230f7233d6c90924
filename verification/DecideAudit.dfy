/** What a decision phase decides, told from the rules, the conditions and the last fires. */
module DecideAudit {
  import opened Prelude
  import opened Sorting
  import opened Decide

  /** A rule takes part when it is enabled and accepts the source. */
  predicate TakesPart(rule: Rule, source: Source) { rule.enabled && source in rule.allowedSources }

  /** Every condition of the rule holds. */
  ghost predicate Holds(rule: Rule, holds: int -> bool) {
    forall i :: 0 <= i < |rule.conditions| ==> holds(rule.conditions[i])
  }

  /** A rule with a positive cooldown rests until that much time has passed since its last fire. */
  predicate Rests(rule: Rule, lastFiredAt: Option<map<int, int>>, now: int) {
    && rule.cooldownMs.Some? && rule.cooldownMs.value > 0
    && lastFiredAt.Some? && rule.id in lastFiredAt.value
    && now < lastFiredAt.value[rule.id] + rule.cooldownMs.value
  }

  /** Some rule of at least this tier takes part, is met and does not rest. */
  ghost predicate Stands(rules: seq<Rule>, source: Source, holds: int -> bool, tier: int,
                         lastFiredAt: Option<map<int, int>>, now: int)
  {
    exists w :: w in rules && TakesPart(w, source) && Holds(w, holds) && !Rests(w, lastFiredAt, now) && w.tier >= tier
  }

  /** Unmet rules do nothing; a rule below 300 or 200 yields to a standing one; a resting rule waits; others fire. */
  ghost predicate VerdictTold(v: Verdict, rule: Rule, rules: seq<Rule>, source: Source, holds: int -> bool,
                              lastFiredAt: Option<map<int, int>>, now: int)
  {
    if !Holds(rule, holds) then v == NotMet
    else if (rule.tier < 300 && Stands(rules, source, holds, 300, lastFiredAt, now))
            || (rule.tier < 200 && Stands(rules, source, holds, 200, lastFiredAt, now)) then v == Preempted
    else if Rests(rule, lastFiredAt, now) then v == CoolingDown
    else v == Fire
  }

  /** A decision is on a rule that takes part, with what each of its conditions says. */
  ghost predicate DecisionTold(d: Decision, rules: seq<Rule>, source: Source, holds: int -> bool,
                               lastFiredAt: Option<map<int, int>>, now: int)
  {
    var e := d.evaluated;
    && e.rule in rules && TakesPart(e.rule, source) && e.source == source
    && |e.results| == |e.rule.conditions|
    && (forall i :: 0 <= i < |e.results| ==> e.results[i] == holds(e.rule.conditions[i]))
    && (e.allMet <==> Holds(e.rule, holds))
    && VerdictTold(d.verdict, e.rule, rules, source, holds, lastFiredAt, now)
  }

  /** Fires come before all else, then higher tiers, then more important sources, then smaller ids. */
  predicate NotAfter(a: Decision, b: Decision, prio: Priority) {
    var x, y := a.evaluated, b.evaluated;
    if a.verdict == Fire && b.verdict != Fire then true
    else if a.verdict != Fire && b.verdict == Fire then false
    else if x.rule.tier != y.rule.tier then x.rule.tier > y.rule.tier
    else if prio(x.source) != prio(y.source) then prio(x.source) > prio(y.source)
    else x.rule.id <= y.rule.id
  }

  /** Some decision fires the rule of this id. */
  ghost predicate Fires(decisions: seq<Decision>, id: int) {
    exists d :: d in decisions && d.verdict == Fire && d.evaluated.rule.id == id
  }

  /** The new cooldown state holds now for the ids that fired and what it held for all others. */
  ghost predicate CooldownsTold(after: Option<map<int, int>>, before: Option<map<int, int>>, decisions: seq<Decision>,
                                now: int)
  {
    match (before, after)
    case (None, None) => true
    case (Some(b), Some(a)) =>
      forall id :: (id in a <==> id in b || Fires(decisions, id))
                && (id in a ==> a[id] == if Fires(decisions, id) then now else b[id])
    case _ => false
  }

  /** No two rules that take part share an id. */
  ghost predicate OwnIds(rules: seq<Rule>, source: Source) {
    forall i, j :: 0 <= i < j < |rules| && TakesPart(rules[i], source) && TakesPart(rules[j], source) ==>
      rules[i].id != rules[j].id
  }

  // ---- the proof ----

  lemma EvaluationIs(rule: Rule, source: Source, holds: int -> bool)
    ensures var e := Evaluate(rule, source, holds);
      && e.rule == rule && e.source == source && |e.results| == |rule.conditions|
      && (forall i :: 0 <= i < |e.results| ==> e.results[i] == holds(rule.conditions[i]))
      && (e.allMet <==> Holds(rule, holds))
  {
  }

  lemma RestingIs(e: Evaluated, lastFiredAt: Option<map<int, int>>, now: int)
    ensures Cooling(e, lastFiredAt, now) <==> Rests(e.rule, lastFiredAt, now)
  {
  }

  lemma {:induction false} EvaluatedDistinct(rules: seq<Rule>, source: Source, holds: int -> bool)
    requires OwnIds(rules, source)
    ensures DistinctIds(EvaluateRules(rules, source, holds))
  {
    if rules != [] {
      EvaluatedDistinct(rules[1..], source, holds);
      var rest := EvaluateRules(rules[1..], source, holds);
      if TakesPart(rules[0], source) {
        var e := Evaluate(rules[0], source, holds);
        forall y | y in rest ensures y.rule.id != e.rule.id {
          EvaluatedRules(rules[1..], source, holds, y);
          var j :| 0 <= j < |rules[1..]| && rules[1..][j] == y.rule;
          assert rules[j + 1] == y.rule;
        }
        DistinctCons(e, rest);
      } else {
        assert EvaluateRules(rules, source, holds) == rest;
      }
    }
  }

  lemma ContendingIs(rules: seq<Rule>, source: Source, holds: int -> bool, tier: int,
                     lastFiredAt: Option<map<int, int>>, now: int)
    ensures Contends(EvaluateRules(rules, source, holds), tier, lastFiredAt, now)
       <==> Stands(rules, source, holds, tier, lastFiredAt, now)
  {
    var evaluated := EvaluateRules(rules, source, holds);
    hide EvaluateRules, Evaluate, Holds, Cooling, Rests;
    if e :| e in evaluated && e.allMet && !Cooling(e, lastFiredAt, now) && e.rule.tier >= tier {
      EvaluatedRules(rules, source, holds, e);
      EvaluationIs(e.rule, source, holds);
      RestingIs(e, lastFiredAt, now);
    }
    if w :| w in rules && TakesPart(w, source) && Holds(w, holds) && !Rests(w, lastFiredAt, now) && w.tier >= tier {
      var e := Evaluate(w, source, holds);
      EvaluationIs(w, source, holds);
      EvaluatedRules(rules, source, holds, e);
      RestingIs(e, lastFiredAt, now);
    }
  }

  lemma VerdictIsTold(e: Evaluated, rules: seq<Rule>, source: Source, holds: int -> bool,
                      lastFiredAt: Option<map<int, int>>, now: int)
    requires e in EvaluateRules(rules, source, holds)
    ensures DecisionTold(Decision(VerdictOf(e, EvaluateRules(rules, source, holds), lastFiredAt, now), e), rules,
                         source, holds, lastFiredAt, now)
  {
    hide EvaluateRules, Evaluate, Holds, Cooling, Rests, Contends, Stands;
    EvaluatedRules(rules, source, holds, e);
    EvaluationIs(e.rule, source, holds);
    RestingIs(e, lastFiredAt, now);
    ContendingIs(rules, source, holds, 300, lastFiredAt, now);
    ContendingIs(rules, source, holds, 200, lastFiredAt, now);
  }

  /** The decisions are on the evaluations, one each, and each is the declared one. */
  lemma DecidedIs(evaluated: seq<Evaluated>, prio: Priority, lastFiredAt: Option<map<int, int>>, now: int, d: Decision)
    requires DistinctIds(evaluated)
    ensures d in DecisionsOf(evaluated, prio, lastFiredAt, now)
       <==> d.evaluated in evaluated && d.verdict == VerdictOf(d.evaluated, evaluated, lastFiredAt, now)
  {
    DecisionsAreVerdicts(evaluated, prio, lastFiredAt, now);
    var judge, decisions := Judge(evaluated, lastFiredAt, now), DecisionsOf(evaluated, prio, lastFiredAt, now);
    hide DecisionsOf, VerdictOf, DistinctIds, Judge;
    MapMember(evaluated, judge, d);
    assert d in multiset(decisions) <==> d in multiset(Map(evaluated, judge));
    JudgedIs(evaluated, lastFiredAt, now, d);
  }

  lemma JudgedIs(evaluated: seq<Evaluated>, lastFiredAt: Option<map<int, int>>, now: int, d: Decision)
    ensures (exists e :: e in evaluated && Judge(evaluated, lastFiredAt, now)(e) == d)
       <==> d.evaluated in evaluated && d.verdict == VerdictOf(d.evaluated, evaluated, lastFiredAt, now)
  {
    hide VerdictOf;
    if d.evaluated in evaluated && d.verdict == VerdictOf(d.evaluated, evaluated, lastFiredAt, now) {
      assert Judge(evaluated, lastFiredAt, now)(d.evaluated) == d;
    }
  }

  lemma {:induction false} MapLength(s: seq<Decision>, f: Decision -> Evaluated)
    ensures |Map(s, f)| == |s|
  {
    if s != [] {
      MapLength(s[1..], f);
    }
  }

  lemma FiringIs(evaluated: seq<Evaluated>, prio: Priority, lastFiredAt: Option<map<int, int>>, now: int, id: int)
    requires DistinctIds(evaluated)
    ensures IdFires(evaluated, id, lastFiredAt, now) <==> Fires(DecisionsOf(evaluated, prio, lastFiredAt, now), id)
  {
    var decisions := DecisionsOf(evaluated, prio, lastFiredAt, now);
    hide DecisionsOf, VerdictOf, DistinctIds;
    if e :| e in evaluated && e.rule.id == id && VerdictOf(e, evaluated, lastFiredAt, now) == Fire {
      DecidedIs(evaluated, prio, lastFiredAt, now, Decision(Fire, e));
    }
    if d :| d in decisions && d.verdict == Fire && d.evaluated.rule.id == id {
      DecidedIs(evaluated, prio, lastFiredAt, now, d);
    }
  }

  ghost predicate Decided(decisions: seq<Decision>, rule: Rule) {
    exists d :: d in decisions && d.evaluated.rule == rule
  }

  lemma CountIs(evaluated: seq<Evaluated>, prio: Priority, lastFiredAt: Option<map<int, int>>, now: int)
    ensures |DecisionsOf(evaluated, prio, lastFiredAt, now)| == |evaluated|
  {
    var decisions := DecisionsOf(evaluated, prio, lastFiredAt, now);
    OneDecisionEach(evaluated, prio, lastFiredAt, now);
    hide DecisionsOf;
    MapLength(decisions, EVALUATED);
    assert |multiset(Map(decisions, EVALUATED))| == |multiset(evaluated)|;
  }

  lemma CooldownsAreTold(evaluated: seq<Evaluated>, prio: Priority, lastFiredAt: Option<map<int, int>>, now: int)
    requires DistinctIds(evaluated)
    ensures CooldownsTold(CooldownsAfter(evaluated, prio, lastFiredAt, now), lastFiredAt,
                          DecisionsOf(evaluated, prio, lastFiredAt, now), now)
  {
    var decisions := DecisionsOf(evaluated, prio, lastFiredAt, now);
    hide DecisionsOf, CooldownsAfter, DistinctIds, IdFires, Fires;
    CooldownsExactly(evaluated, prio, lastFiredAt, now);
    forall id ensures IdFires(evaluated, id, lastFiredAt, now) <==> Fires(decisions, id) {
      FiringIs(evaluated, prio, lastFiredAt, now, id);
    }
  }

  lemma RuleIsDecided(rules: seq<Rule>, source: Source, holds: int -> bool, prio: Priority,
                      lastFiredAt: Option<map<int, int>>, now: int, rule: Rule)
    requires DistinctIds(EvaluateRules(rules, source, holds)) && rule in rules && TakesPart(rule, source)
    ensures Decided(DecisionsOf(EvaluateRules(rules, source, holds), prio, lastFiredAt, now), rule)
  {
    hide DecisionsOf, EvaluateRules, VerdictOf, DistinctIds;
    var evaluated, e := EvaluateRules(rules, source, holds), Evaluate(rule, source, holds);
    EvaluatedRules(rules, source, holds, e);
    DecidedIs(evaluated, prio, lastFiredAt, now, Decision(VerdictOf(e, evaluated, lastFiredAt, now), e));
  }

  /**
   A phase decides on every rule that takes part, once, as the rules say, and keeps
   the fires in the cooldown state.
   */
  lemma PhaseIsTold(rules: seq<Rule>, source: Source, holds: int -> bool, prio: Priority,
                    lastFiredAt: Option<map<int, int>>, now: int)
    requires OwnIds(rules, source)
    ensures var evaluated := EvaluateRules(rules, source, holds);
      var decisions := DecisionsOf(evaluated, prio, lastFiredAt, now);
      && (forall d :: d in decisions ==> DecisionTold(d, rules, source, holds, lastFiredAt, now))
      && (forall rule :: rule in rules && TakesPart(rule, source) ==> Decided(decisions, rule))
      && |decisions| == |evaluated|
      && CooldownsTold(CooldownsAfter(evaluated, prio, lastFiredAt, now), lastFiredAt, decisions, now)
  {
    var evaluated := EvaluateRules(rules, source, holds);
    var decisions := DecisionsOf(evaluated, prio, lastFiredAt, now);
    EvaluatedDistinct(rules, source, holds);
    hide DecisionsOf, CooldownsAfter, EvaluateRules, VerdictOf, DecisionTold, DistinctIds, OwnIds, Decided,
         CooldownsTold;
    forall d | d in decisions ensures DecisionTold(d, rules, source, holds, lastFiredAt, now) {
      DecidedIs(evaluated, prio, lastFiredAt, now, d);
      VerdictIsTold(d.evaluated, rules, source, holds, lastFiredAt, now);
    }
    forall rule | rule in rules && TakesPart(rule, source) ensures Decided(decisions, rule) {
      RuleIsDecided(rules, source, holds, prio, lastFiredAt, now, rule);
    }
    CountIs(evaluated, prio, lastFiredAt, now);
    CooldownsAreTold(evaluated, prio, lastFiredAt, now);
  }

  /** The decisions on any evaluations are in order. */
  lemma OrderIsTold(evaluated: seq<Evaluated>, prio: Priority, lastFiredAt: Option<map<int, int>>, now: int, i: nat,
                    j: nat)
    requires i < j < |DecisionsOf(evaluated, prio, lastFiredAt, now)|
    ensures NotAfter(DecisionsOf(evaluated, prio, lastFiredAt, now)[i],
                     DecisionsOf(evaluated, prio, lastFiredAt, now)[j], prio)
  {
    OrdersArePreorders(prio);
    var unsorted := LastRound(evaluated, prio, lastFiredAt, [], now).decisions;
    SortSorts(unsorted, DecisionOrder(prio));
    hide LastRound, StableSort;
    var sorted := StableSort(unsorted, DecisionOrder(prio));
    assert DecisionOrder(prio)(sorted[i], sorted[j]);
  }
}
