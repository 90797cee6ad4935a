/**
 * Three profiles whose returned Recommendation is proved for every
 * salience-first strategy, so it does not depend on how equal saliences are
 * ordered: the skilled remote candidate on the indoor branch; the indoor
 * candidate with a stable schedule and a modest salary (the driver's sample
 * profile is one); and the inexperienced, low-skill, high-salary candidate on
 * the hybrid branch, where both adjustment rules fire and the IT adjustment
 * is not the Recommendation advise returns.
 */
module Scenarios {
  import opened Facts
  import opened Rules
  import opened Agenda
  import opened RunSteps
  import opened Engine
  import opened Properties

  /** An indoor profile open to remote work, without a stable schedule, with a skill match of at least 0.6. */
  predicate IndoorRemoteSkilled(p: Profile) {
    Preferred(p) == Some(Indoor) && p.remoteOk && !p.stableSchedule && p.skillMatch >= 0.6
  }

  /**
   * No ADMIN Recommendation is ever stored, and once indoor_remote_it's
   * Recommendation is in the store it is the last fact.
   */
  predicate RemoteLast(p: Profile, s: State)
    requires p.skillMatch >= 0.6
  {
    var d := IndoorRemoteItAction(p).value.declared;
    && (forall k :: 2 <= k < |s.facts| ==> s.facts[k].RecFact? && s.facts[k].rec.job != Admin)
    && (d in s.facts ==> s.facts[|s.facts| - 1] == d)
  }

  /** On an indoor store holding no ADMIN Recommendation, only three non-branch rules can match. */
  lemma IndoorRemoteMatches(p: Profile, facts: seq<Fact>, a: Activation)
    requires Seeded(facts) && facts[0] == ProfileFact(p) && |facts| > 1 && facts[1] == BranchFact(Indoor)
    requires forall k :: 2 <= k < |facts| ==> facts[k].RecFact? && facts[k].rec.job != Admin
    requires !p.stableSchedule && !IsBranchRule(a.rule) && Matches(facts, a)
    ensures a.rule in {IndoorRemoteIt, IndoorFallbackIt, ItSkillCheck}
    ensures a.rule == IndoorFallbackIt ==> !HasRecommendation(facts)
  {
    if a.rule !in {IndoorRemoteIt, IndoorFallbackIt, ItSkillCheck} {
      assert false;
    }
  }

  /** Once the indoor branch exists, only the three rules that can declare a non-ADMIN Recommendation or nothing are on the agenda. */
  lemma IndoorRemoteRules(p: Profile, s: State, a: Activation)
    requires IndoorRemoteSkilled(p) && Inv(p, s) && RemoteLast(p, s) && |s.facts| > 1 && Enabled(s, a)
    ensures a.rule in {IndoorRemoteIt, IndoorFallbackIt, ItSkillCheck}
    ensures a.rule == IndoorFallbackIt ==> !HasRecommendation(s.facts)
  {
    LaterStepRule(p, s, a);
    IndoorRemoteMatches(p, s.facts, a);
  }

  /** What one firing adds to the store on the indoor branch: nothing, indoor_remote_it's decision, or the fallback IT. */
  lemma IndoorRemoteAdds(p: Profile, s: State, a: Activation)
    requires Seeded(s.facts) && s.facts[0] == ProfileFact(p) && p.skillMatch >= 0.6
    requires a.rule in {IndoorRemoteIt, IndoorFallbackIt, ItSkillCheck}
    requires a.rule == IndoorFallbackIt ==> !HasRecommendation(s.facts)
    ensures var t := Fire(s, a); var d := IndoorRemoteItAction(p).value.declared;
      || t.facts == s.facts
      || (d !in s.facts && t.facts == s.facts + [d])
      || (!HasRecommendation(s.facts) && t.facts == s.facts + [RecFact(Recommendation(IT, "Indoor fallback -> IT"))])
  {
    if a.rule == ItSkillCheck {
      assert Action(p, a.rule).None?;
    } else if a.rule == IndoorFallbackIt {
      assert Fire(s, a).facts == Declare(s.facts, RecFact(Recommendation(IT, "Indoor fallback -> IT")));
    } else {
      assert Fire(s, a).facts == Declare(s.facts, IndoorRemoteItAction(p).value.declared);
    }
  }

  /** A store that grew as IndoorRemoteAdds allows keeps RemoteLast. */
  lemma RemoteLastKept(p: Profile, s: State, t: State)
    requires p.skillMatch >= 0.6 && |s.facts| > 1 && RemoteLast(p, s)
    requires var d := IndoorRemoteItAction(p).value.declared;
      || t.facts == s.facts
      || (d !in s.facts && t.facts == s.facts + [d])
      || (!HasRecommendation(s.facts) && t.facts == s.facts + [RecFact(Recommendation(IT, "Indoor fallback -> IT"))])
    ensures RemoteLast(p, t)
  {
    var d := IndoorRemoteItAction(p).value.declared;
    if t.facts != s.facts && !HasRecommendation(s.facts) {
      assert d !in s.facts;
    }
    forall k | 2 <= k < |t.facts|
      ensures t.facts[k].RecFact? && t.facts[k].rec.job != Admin
    {
      if k >= |s.facts| {
        assert k == |s.facts|;
      }
    }
  }

  /**
   * Each firing keeps RemoteLast: indoor_admin does not match, the fallback
   * is disabled once any Recommendation exists, it_skill_check does nothing
   * at this skill match, and with no ADMIN stored admin_salary_adjust never
   * matches.
   */
  lemma IndoorRemoteStep(p: Profile, s: State, a: Activation)
    requires IndoorRemoteSkilled(p) && Inv(p, s) && RemoteLast(p, s) && Eligible(s, a)
    ensures RemoteLast(p, Fire(s, a))
  {
    if |s.facts| > 1 {
      IndoorRemoteRules(p, s, a);
      IndoorRemoteAdds(p, s, a);
      RemoteLastKept(p, s, Fire(s, a));
    } else {
      FirstStepShape(p, s, a);
      assert Fire(s, a).facts == [ProfileFact(p), BranchFact(Indoor)];
    }
  }

  /** A store whose last fact is a Recommendation returns that one. */
  lemma LastFactRecommendation(facts: seq<Fact>)
    requires |facts| > 0 && facts[|facts| - 1].RecFact?
    ensures LastRecommendation(facts) == Some(facts[|facts| - 1].rec)
  {
    var r := LastRecommendation(facts);
    var k :| IsLastRecommendation(facts, k) && facts[k].rec == r.value;
    assert k == |facts| - 1;
  }

  /** A final indoor state keeping RemoteLast ends with indoor_remote_it's Recommendation. */
  lemma IndoorRemoteEnd(p: Profile, s: State)
    requires IndoorRemoteSkilled(p) && Inv(p, s) && RemoteLast(p, s) && Select(s).None?
    ensures LastRecommendation(s.facts) == Some(IndoorRemoteItAction(p).value.declared.rec)
  {
    FixpointGrown(p, s);
    AtFixpoint(p, s, Activation(IndoorRemoteIt, 1));
    LastFactRecommendation(s.facts);
  }

  /**
   * Under any salience-first strategy, the run for the skilled remote
   * candidate on the indoor branch ends with indoor_remote_it's decision,
   * whichever of it and indoor_fallback_it fires first.
   */
  lemma IndoorRemoteRun(p: Profile, pick: State -> Option<Activation>)
    requires IndoorRemoteSkilled(p) && SalienceFirst(pick)
    ensures LastRecommendation(Settle(pick, Seed(p), MaxCycles).facts) == Some(IndoorRemoteItAction(p).value.declared.rec)
  {
    SeedInv(p);
    StepsKeepInv(p, pick);
    forall x: State, a | Seeded(x.facts) && Inv(p, x) && RemoteLast(p, x) && pick(x) == Some(a)
      ensures Inv(p, Fire(x, a)) && RemoteLast(p, Fire(x, a))
    {
      IndoorRemoteStep(p, x, a);
    }
    RunKeeps(x => Inv(p, x) && RemoteLast(p, x), pick, Seed(p), MaxCycles);
    RunReachesFixpoint(p, pick);
    IndoorRemoteEnd(p, Settle(pick, Seed(p), MaxCycles));
  }

  /**
   * The skilled remote candidate on the indoor branch gets indoor_remote_it's
   * decision: REMOTE/FREELANCE below SalaryMed and IT from SalaryMed up.
   */
  lemma IndoorRemoteAdvice(p: Profile)
    requires IndoorRemoteSkilled(p)
    ensures AdviceFor(p).rec == Some(IndoorRemoteItAction(p).value.declared.rec)
    ensures AdviceFor(p).rec.value.job == if p.salaryExpectation >= SalaryMed then IT else RemoteFreelance
  {
    SelectSalienceFirst();
    IndoorRemoteRun(p, Select);
  }

  /**
   * An indoor profile with a stable schedule, a salary below SalaryMed, and
   * either no remote work or a skill match below 0.6 (so indoor_remote_it
   * declares nothing). The sample profile of the module's driver is one.
   */
  predicate IndoorStable(p: Profile) {
    && Preferred(p) == Some(Indoor) && p.stableSchedule && p.salaryExpectation < SalaryMed
    && (!p.remoteOk || p.skillMatch < 0.6)
  }

  /** indoor_fallback_it's Recommendation. */
  const FallbackIt: Fact := RecFact(Recommendation(IT, "Indoor fallback -> IT"))

  /** Every Recommendation stored is ADMIN, except the fallback IT, which can only be the first one. */
  predicate AdminOrFallback(s: State) {
    forall k :: 2 <= k < |s.facts| ==>
      s.facts[k].RecFact? && (s.facts[k].rec.job == Admin || (k == 2 && s.facts[k] == FallbackIt))
  }

  /**
   * What one firing after the indoor branch adds for such a profile: nothing,
   * one ADMIN Recommendation (indoor_admin's or it_skill_check's), or the
   * fallback IT on a store without Recommendations.
   */
  lemma IndoorStableAdds(p: Profile, s: State, a: Activation)
    requires Seeded(s.facts) && s.facts[0] == ProfileFact(p) && IndoorStable(p)
    requires a.rule in {IndoorAdmin, IndoorRemoteIt, IndoorFallbackIt, AdminSalaryAdjust, ItSkillCheck}
    requires a.rule == IndoorFallbackIt ==> !HasRecommendation(s.facts)
    requires a.rule == IndoorRemoteIt ==> p.remoteOk
    ensures var t := Fire(s, a);
      || t.facts == s.facts
      || (|t.facts| == |s.facts| + 1 && t.facts[|s.facts|].RecFact? && t.facts[|s.facts|].rec.job == Admin)
      || (!HasRecommendation(s.facts) && t.facts == s.facts + [FallbackIt])
  {
    var t := Fire(s, a);
    var f := Action(p, a.rule);
    if a.rule == IndoorAdmin || a.rule == ItSkillCheck {
      if f.Some? {
        var d := f.value.declared;
        assert d.RecFact? && d.rec.job == Admin;
        if d !in s.facts {
          assert t.facts[|s.facts|] == d;
        }
      }
    } else if a.rule == IndoorFallbackIt {
      assert FallbackIt !in s.facts;
    }
  }

  /** On an indoor store of Recommendations only the indoor rules and the two adjustments can match. */
  lemma IndoorStableRules(p: Profile, s: State, a: Activation)
    requires IndoorStable(p) && Inv(p, s) && |s.facts| > 1 && Enabled(s, a)
    ensures a.rule in {IndoorAdmin, IndoorRemoteIt, IndoorFallbackIt, AdminSalaryAdjust, ItSkillCheck}
    ensures a.rule == IndoorFallbackIt ==> !HasRecommendation(s.facts)
    ensures a.rule == IndoorRemoteIt ==> p.remoteOk
  {
    LaterStepRule(p, s, a);
    assert s.facts[1] == BranchFact(Indoor);
  }

  /** A store that grew as IndoorStableAdds allows keeps AdminOrFallback. */
  lemma AdminOrFallbackKept(s: State, t: State)
    requires |s.facts| > 1 && AdminOrFallback(s) && s.facts <= t.facts
    requires
      || t.facts == s.facts
      || (|t.facts| == |s.facts| + 1 && t.facts[|s.facts|].RecFact? && t.facts[|s.facts|].rec.job == Admin)
      || (!HasRecommendation(s.facts) && t.facts == s.facts + [FallbackIt])
    ensures AdminOrFallback(t)
  {
    if |s.facts| > 2 {
      assert s.facts[2] in s.facts;
    }
    forall k | 2 <= k < |t.facts|
      ensures t.facts[k].RecFact? && (t.facts[k].rec.job == Admin || (k == 2 && t.facts[k] == FallbackIt))
    {
      if k < |s.facts| {
        assert t.facts[k] == s.facts[k];
      } else {
        assert k == |s.facts|;
      }
    }
  }

  /** Each firing a salience-first strategy picks keeps AdminOrFallback for such a profile. */
  lemma IndoorStableStep(p: Profile, s: State, a: Activation)
    requires IndoorStable(p) && Inv(p, s) && AdminOrFallback(s) && Eligible(s, a)
    ensures AdminOrFallback(Fire(s, a))
  {
    if |s.facts| > 1 {
      IndoorStableRules(p, s, a);
      IndoorStableAdds(p, s, a);
      AdminOrFallbackKept(s, Fire(s, a));
    } else {
      FirstStepShape(p, s, a);
      assert Fire(s, a).facts == [ProfileFact(p), BranchFact(Indoor)];
    }
  }

  /**
   * At a fixpoint indoor_admin's ADMIN is stored; it is not the fallback IT,
   * so it lies after position 2 if the fallback is there, and the last
   * Recommendation is an ADMIN.
   */
  lemma IndoorStableEnd(p: Profile, s: State)
    requires IndoorStable(p) && Inv(p, s) && AdminOrFallback(s) && Select(s).None?
    ensures LastRecommendation(s.facts).Some? && LastRecommendation(s.facts).value.job == Admin
  {
    FixpointGrown(p, s);
    var d := IndoorAdminAction(p).value.declared;
    AtFixpoint(p, s, Activation(IndoorAdmin, 1));
    var j :| 0 <= j < |s.facts| && s.facts[j] == d;
    assert j >= 2;
    var r := LastRecommendation(s.facts);
    var k :| IsLastRecommendation(s.facts, k) && s.facts[k].rec == r.value;
    assert k >= j;
  }

  /**
   * Under any salience-first strategy the indoor candidate with a stable
   * schedule and a modest salary ends with an ADMIN Recommendation, whether
   * indoor_admin or indoor_fallback_it fires first; only the reason differs.
   */
  lemma IndoorStableRun(p: Profile, pick: State -> Option<Activation>)
    requires IndoorStable(p) && SalienceFirst(pick)
    ensures var r := LastRecommendation(Settle(pick, Seed(p), MaxCycles).facts); r.Some? && r.value.job == Admin
  {
    SeedInv(p);
    StepsKeepInv(p, pick);
    forall x: State, a | Seeded(x.facts) && Inv(p, x) && AdminOrFallback(x) && pick(x) == Some(a)
      ensures Inv(p, Fire(x, a)) && AdminOrFallback(Fire(x, a))
    {
      IndoorStableStep(p, x, a);
    }
    RunKeeps(x => Inv(p, x) && AdminOrFallback(x), pick, Seed(p), MaxCycles);
    RunReachesFixpoint(p, pick);
    IndoorStableEnd(p, Settle(pick, Seed(p), MaxCycles));
  }

  /** advise gives the indoor candidate with a stable schedule and a modest salary ADMIN. */
  lemma IndoorStableAdvice(p: Profile)
    requires IndoorStable(p)
    ensures AdviceFor(p).rec.Some? && AdviceFor(p).rec.value.job == Admin
  {
    SelectSalienceFirst();
    IndoorStableRun(p, Select);
  }

  /** The module driver's sample profile. */
  const Sample: Profile :=
    Profile(true, false, false, true, false, "Bachelors", 0.3, 1, false, false, false, 1800.0)

  /** The sample profile gets ADMIN. */
  lemma SampleAdvice()
    ensures AdviceFor(Sample).rec.Some? && AdviceFor(Sample).rec.value.job == Admin
  {
    IndoorStableAdvice(Sample);
  }

  /** A hybrid profile with less than a year of experience, a skill match below 0.4 and a salary above SalaryMed. */
  predicate HybridNovice(p: Profile) {
    Preferred(p) == Some(Hybrid) && p.yearsExperience < 1 && p.skillMatch < 0.4 && p.salaryExpectation > SalaryMed
  }

  /** The activations the novice run fires, in order. */
  const NoviceActivations: seq<Activation> := [
    Activation(PreferHybrid, 0), Activation(HybridRules, 1), Activation(AdminSalaryAdjust, 2),
    Activation(ItSkillCheck, 3), Activation(AdminSalaryAdjust, 4)]

  /** The facts the novice run stores: hybrid ADMIN, the IT adjustment, then the ADMIN adjustment. */
  function NoviceFacts(p: Profile): seq<Fact> {
    [ProfileFact(p), BranchFact(Hybrid), HybridRulesAction(p).declared,
     RecFact(Recommendation(IT, "Admin salary high -> IT")),
     RecFact(Recommendation(Admin, "Low skill match -> ADMIN"))]
  }

  /** The novice run's trace: the second admin_salary_adjust firing logs its line although its IT is already stored. */
  function NoviceTrace(p: Profile): seq<string> {
    ["Branch: hybrid", HybridRulesAction(p).line, "Rule: admin_salary_adjust -> IT",
     "Rule: it_skill_check -> ADMIN", "Rule: admin_salary_adjust -> IT"]
  }

  /** The activations that have fired after the first `i` firings of the novice run. */
  function NoviceFired(i: nat): set<Activation>
    requires i <= 5
  {
    var x := NoviceActivations;
    match i
    case 0 => {}
    case 1 => {x[0]}
    case 2 => {x[0], x[1]}
    case 3 => {x[0], x[1], x[2]}
    case 4 => {x[0], x[1], x[2], x[3]}
    case _ => {x[0], x[1], x[2], x[3], x[4]}
  }

  /** The state after the first `i` firings of the novice run. */
  function NoviceState(p: Profile, i: nat): State
    requires i <= 5
  {
    State(NoviceFacts(p)[..if i < 4 then i + 1 else 5], NoviceTrace(p)[..i], NoviceFired(i))
  }

  /** After the branch is declared, the novice run has at most one enabled activation: the next one. */
  lemma NoviceOnly(p: Profile, i: nat, b: Activation)
    requires HybridNovice(p) && 1 <= i <= 5 && Enabled(NoviceState(p, i), b)
    ensures i < 5 && b == NoviceActivations[i]
  {
    var s := NoviceState(p, i);
    assert s.facts[1] == BranchFact(Hybrid);
    assert HybridRulesAction(p).declared == RecFact(Recommendation(Admin, "Hybrid low experience -> ADMIN"));
    HybridMatches(p, s.facts, b);
    if i == 1 {
    } else if i == 2 {
    } else if i == 3 {
    } else if i == 4 {
    } else {
    }
  }

  /** The novice run's next activation is on the agenda until the fifth firing. */
  lemma NoviceNext(p: Profile, i: nat)
    requires HybridNovice(p) && i < 5
    ensures Enabled(NoviceState(p, i), NoviceActivations[i])
  {
    var s := NoviceState(p, i);
    assert HybridRulesAction(p).declared == RecFact(Recommendation(Admin, "Hybrid low experience -> ADMIN"));
    if i == 0 {
    } else if i == 1 {
    } else if i == 2 {
    } else if i == 3 {
    } else {
    }
  }

  /** In the novice run exactly one activation is enabled after each firing but the last, so the order is forced. */
  lemma NoviceSelect(p: Profile, i: nat)
    requires HybridNovice(p) && i <= 5
    ensures Select(NoviceState(p, i)) == if i < 5 then Some(NoviceActivations[i]) else None
  {
    var s := NoviceState(p, i);
    SelectSpec(s);
    if i == 0 {
      assert s == Seed(p);
      SeedInv(p);
      NoviceNext(p, 0);
      FirstStepShape(p, s, Select(s).value);
    } else {
      forall b | Enabled(s, b)
        ensures i < 5 && b == NoviceActivations[i]
      {
        NoviceOnly(p, i, b);
      }
      if i < 5 {
        NoviceNext(p, i);
      }
    }
  }

  /** What each activation of the novice run declares and logs. */
  lemma NoviceAction(p: Profile, i: nat)
    requires HybridNovice(p) && i < 5
    ensures Action(p, NoviceActivations[i].rule)
      == Some(Firing(NoviceFacts(p)[if i < 4 then i + 1 else 3], NoviceTrace(p)[i]))
  {
    var f, l := NoviceFacts(p), NoviceTrace(p);
    if i == 0 {
      assert Action(p, PreferHybrid) == Some(Firing(f[1], l[0]));
    } else if i == 1 {
      assert Action(p, HybridRules) == Some(Firing(f[2], l[1]));
    } else if i == 3 {
      assert Action(p, ItSkillCheck) == Some(Firing(f[4], l[3]));
    } else {
      assert Action(p, AdminSalaryAdjust) == Some(Firing(f[3], l[i]));
    }
  }

  /** How consecutive novice states differ: one more trace line and fired activation, and a new fact for the first four firings. */
  lemma NoviceGrows(p: Profile, i: nat)
    requires HybridNovice(p) && i < 5
    ensures NoviceTrace(p)[..i + 1] == NoviceTrace(p)[..i] + [NoviceTrace(p)[i]]
    ensures NoviceFired(i + 1) == NoviceFired(i) + {NoviceActivations[i]}
    ensures i < 4 ==> NoviceFacts(p)[i + 1] !in NoviceFacts(p)[..i + 1]
    ensures i < 4 ==> NoviceFacts(p)[..i + 2] == NoviceFacts(p)[..i + 1] + [NoviceFacts(p)[i + 1]]
    ensures i == 4 ==> NoviceFacts(p)[3] in NoviceFacts(p)[..5]
  {
    var f := NoviceFacts(p);
    assert f[2] == RecFact(Recommendation(Admin, "Hybrid low experience -> ADMIN"));
    if i == 0 {
    } else if i == 1 {
    } else if i == 2 {
    } else if i == 3 {
    } else {
      assert f[..5][3] == f[3];
    }
  }

  /** Firing the next activation of the novice run gives the next state. */
  lemma NoviceFire(p: Profile, i: nat)
    requires HybridNovice(p) && i < 5
    ensures Fire(NoviceState(p, i), NoviceActivations[i]) == NoviceState(p, i + 1)
  {
    NoviceAction(p, i);
    NoviceGrows(p, i);
    assert NoviceState(p, i).facts[0] == ProfileFact(p);
  }

  /** The state is one of the novice run's states. */
  predicate NoviceReached(p: Profile, x: State) {
    exists i :: 0 <= i <= 5 && x == NoviceState(p, i)
  }

  /** Every firing a salience-first strategy picks moves the novice run to its next state. */
  lemma NoviceStep(p: Profile, x: State, a: Activation)
    requires HybridNovice(p) && NoviceReached(p, x) && Eligible(x, a)
    ensures NoviceReached(p, Fire(x, a))
  {
    var i :| 0 <= i <= 5 && x == NoviceState(p, i);
    if i == 0 {
      assert x == Seed(p);
      SeedInv(p);
      FirstStepShape(p, x, a);
    } else {
      NoviceOnly(p, i, a);
    }
    NoviceFire(p, i);
  }

  /** A novice state the engine selects nothing in is the last one. */
  lemma NoviceEnd(p: Profile, s: State)
    requires HybridNovice(p) && NoviceReached(p, s) && Select(s).None?
    ensures s == NoviceState(p, 5)
  {
    var i :| 0 <= i <= 5 && s == NoviceState(p, i);
    NoviceSelect(p, i);
  }

  /** Under any salience-first strategy the novice run ends in its sixth state, after five firings. */
  lemma NoviceFinal(p: Profile, pick: State -> Option<Activation>)
    requires HybridNovice(p) && SalienceFirst(pick)
    ensures Settle(pick, Seed(p), MaxCycles) == NoviceState(p, 5)
  {
    assert NoviceReached(p, Seed(p)) by {
      assert NoviceState(p, 0) == Seed(p);
    }
    forall x: State, a | Seeded(x.facts) && NoviceReached(p, x) && pick(x) == Some(a)
      ensures NoviceReached(p, Fire(x, a))
    {
      NoviceStep(p, x, a);
    }
    RunKeeps(x => NoviceReached(p, x), pick, Seed(p), MaxCycles);
    RunReachesFixpoint(p, pick);
    NoviceEnd(p, Settle(pick, Seed(p), MaxCycles));
  }

  /** The last Recommendation of the novice run's final store is it_skill_check's ADMIN, the IT adjustment precedes it, and the trace is complete. */
  lemma NoviceLast(p: Profile)
    ensures LastRecommendation(NoviceState(p, 5).facts) == Some(Recommendation(Admin, "Low skill match -> ADMIN"))
    ensures RecFact(Recommendation(IT, "Admin salary high -> IT")) in NoviceState(p, 5).facts
    ensures NoviceState(p, 5).trace == NoviceTrace(p)
  {
    var s := NoviceState(p, 5);
    assert s.facts == NoviceFacts(p);
    assert s.facts[3] == RecFact(Recommendation(IT, "Admin salary high -> IT"));
    LastFactRecommendation(s.facts);
  }

  /**
   * The inexperienced, low-skill, high-salary hybrid candidate: hybrid_rules
   * gives ADMIN, admin_salary_adjust adds IT, it_skill_check adds ADMIN, and
   * admin_salary_adjust fires again on that ADMIN without storing anything.
   * advise returns the ADMIN of it_skill_check while the trace ends with the
   * IT adjustment's line.
   */
  lemma NoviceAdvice(p: Profile)
    requires HybridNovice(p)
    ensures AdviceFor(p).rec == Some(Recommendation(Admin, "Low skill match -> ADMIN"))
    ensures AdviceFor(p).trace == NoviceTrace(p)
    ensures AdviceFor(p).trace[|AdviceFor(p).trace| - 1] == "Rule: admin_salary_adjust -> IT"
    ensures RecFact(Recommendation(IT, "Admin salary high -> IT")) in FinalState(p).facts
  {
    assert FinalState(p) == NoviceState(p, 5) by {
      SelectSalienceFirst();
      NoviceFinal(p, Select);
    }
    NoviceLast(p);
  }
}
