/**
 * What a run of the job advisor guarantees: the invariant every reachable
 * store keeps, that the run always reaches a fixpoint well inside the cap,
 * and what the fixpoint holds (one branch, chosen by salience; a
 * Recommendation exactly when some preference flag is set; the adjustment
 * rules applied; DELIVERY on the outdoor shift branch; the hybrid decision).
 */
module Properties {
  import opened Facts
  import opened Rules
  import opened Agenda
  import opened RunSteps
  import opened Engine

  /**
   * The branch the profile should end up on: hybrid over indoor over outdoor,
   * the order of the three branch rules' saliences.
   */
  function Preferred(p: Profile): Option<Branch> {
    if p.prefersHybrid then Some(Hybrid)
    else if p.prefersIndoor then Some(Indoor)
    else if p.prefersOutdoor then Some(Outdoor)
    else None
  }

  /** The branch rule that declares branch `b`. */
  function BranchRule(b: Branch): (r: Rule)
    ensures IsBranchRule(r)
    ensures forall p :: Action(p, r) == Some(Firing(BranchFact(b), BranchLine(b)))
  {
    match b
    case Hybrid => PreferHybrid
    case Indoor => PreferIndoor
    case Outdoor => PreferOutdoor
  }

  function BranchLine(b: Branch): string {
    match b
    case Hybrid => "Branch: hybrid"
    case Indoor => "Branch: indoor"
    case Outdoor => "Branch: outdoor"
  }

  /**
   * The shape of the store: the profile, then at most one branch fact (the
   * preferred one, whose rule fired first and wrote the first trace line),
   * then Recommendations only.
   */
  predicate BranchShape(p: Profile, s: State)
    requires |s.facts| > 0
  {
    && (|s.facts| == 1 ==> s.fired == {} && s.trace == [])
    && (|s.facts| > 1 ==>
          && Preferred(p).Some?
          && s.facts[1] == BranchFact(Preferred(p).value)
          && |s.trace| > 0 && s.trace[0] == BranchLine(Preferred(p).value))
    && (|s.facts| > 1 && p.prefersHybrid ==> Activation(PreferHybrid, 0) in s.fired)
    && (forall k :: 2 <= k < |s.facts| ==> s.facts[k].RecFact?)
  }

  /**
   * The store holds `p` first and then distinct facts the rules can declare;
   * every fired activation was on a fact of the store and what it declared
   * is still there.
   */
  predicate StoreInv(p: Profile, s: State) {
    && Seeded(s.facts) && s.facts[0] == ProfileFact(p)
    && Distinct(s.facts)
    && (forall k :: 1 <= k < |s.facts| ==> s.facts[k] in Declarable(p, Catalog))
    && (forall a :: a in s.fired ==> a.fact < |s.facts|)
    && (forall a :: a in s.fired && Action(p, a.rule).Some? ==> Action(p, a.rule).value.declared in s.facts)
  }

  /** Invariant of every state a run from Seed(p) reaches. */
  predicate Inv(p: Profile, s: State) {
    StoreInv(p, s) && BranchShape(p, s)
  }

  lemma SeedInv(p: Profile)
    ensures Inv(p, Seed(p))
  {
  }

  /** Before the first firing the store holds the profile alone; afterwards it holds a branch fact. */
  lemma StoreShape(p: Profile, s: State)
    requires Inv(p, s)
    ensures |s.facts| == 1 ==> s.facts == [ProfileFact(p)] && !HasRecommendation(s.facts)
    ensures HasBranch(s.facts) <==> |s.facts| > 1
  {
    if |s.facts| > 1 {
      assert s.facts[1] in s.facts;
    } else {
      assert s.facts == [ProfileFact(p)];
    }
  }

  /** The first firing declares the preferred branch. */
  lemma {:induction false} FirstStepShape(p: Profile, s: State, a: Activation)
    requires Inv(p, s) && |s.facts| == 1 && Eligible(s, a)
    ensures Preferred(p).Some? && a == Activation(BranchRule(Preferred(p).value), 0)
  {
    StoreShape(p, s);
    if p.prefersHybrid {
      assert Enabled(s, Activation(PreferHybrid, 0));
    } else if p.prefersIndoor {
      assert Enabled(s, Activation(PreferIndoor, 0));
    }
  }

  /** Once the branch exists, only rules that declare Recommendations are on the agenda. */
  lemma {:induction false} LaterStepRule(p: Profile, s: State, a: Activation)
    requires Inv(p, s) && |s.facts| > 1 && Enabled(s, a)
    ensures !IsBranchRule(a.rule)
  {
    StoreShape(p, s);
  }

  /** Firing an enabled activation keeps the store invariant. */
  lemma StepKeepsStoreInv(p: Profile, s: State, a: Activation)
    requires StoreInv(p, s) && Enabled(s, a)
    ensures StoreInv(p, Fire(s, a))
  {
    var t := Fire(s, a);
    assert a.rule in Catalog by {
      assert Catalog[Position(a.rule)] == a.rule;
    }
    if Action(p, a.rule).Some? {
      DeclarableCovers(p, Catalog, a.rule);
    }
    forall k | 1 <= k < |t.facts|
      ensures t.facts[k] in Declarable(p, Catalog)
    {
      if k >= |s.facts| {
        assert t.facts[k] in t.facts;
      }
    }
  }

  /** Firing an eligible activation keeps the shape of the store. */
  lemma StepKeepsShape(p: Profile, s: State, a: Activation)
    requires Inv(p, s) && Eligible(s, a)
    ensures BranchShape(p, Fire(s, a))
  {
    var t := Fire(s, a);
    if |s.facts| == 1 {
      FirstStepShape(p, s, a);
      assert t.facts == [ProfileFact(p), BranchFact(Preferred(p).value)];
    } else {
      LaterStepRule(p, s, a);
      forall k | 2 <= k < |t.facts|
        ensures t.facts[k].RecFact?
      {
        if k >= |s.facts| {
          assert t.facts[k] in t.facts;
        }
      }
    }
  }

  /** Firing an eligible activation keeps the invariant. */
  lemma StepKeepsInv(p: Profile, s: State, a: Activation)
    requires Inv(p, s) && Eligible(s, a)
    ensures Inv(p, Fire(s, a))
  {
    StepKeepsStoreInv(p, s, a);
    StepKeepsShape(p, s, a);
  }

  /** Every firing a salience-first strategy picks keeps the invariant. */
  lemma StepsKeepInv(p: Profile, pick: State -> Option<Activation>)
    requires SalienceFirst(pick)
    ensures forall x: State, a :: Seeded(x.facts) && Inv(p, x) && pick(x) == Some(a) ==> Inv(p, Fire(x, a))
  {
    forall x: State, a | Seeded(x.facts) && Inv(p, x) && pick(x) == Some(a)
      ensures Inv(p, Fire(x, a))
    {
      StepKeepsInv(p, x, a);
    }
  }

  /** The store never holds more than the profile and the twelve facts the rules can declare. */
  lemma StoreBound(p: Profile, s: State)
    requires StoreInv(p, s)
    ensures |s.facts| <= 1 + |Catalog|
  {
    var tail := s.facts[1..];
    forall x | x in tail ensures x in Declarable(p, Catalog) {
      var k :| 0 <= k < |tail| && tail[k] == x;
      assert s.facts[k + 1] == x;
    }
    DistinctWithin(tail, Declarable(p, Catalog));
  }

  /** An activation on the agenda can still fire only while fewer than 156 have fired. */
  lemma FiredBound(p: Profile, s: State, a: Activation)
    requires StoreInv(p, s) && Enabled(s, a)
    ensures |s.fired| < (1 + |Catalog|) * |Catalog|
  {
    var n := |s.facts|;
    StoreBound(p, s);
    var grown := s.fired + {a};
    forall x | x in grown ensures x in Candidates(n) {
      CandidatesComplete(n, x);
    }
    SubsetOfSeq(grown, Candidates(n));
    CandidatesLength(n);
    assert |grown| == |s.fired| + 1;
    assert n * |Catalog| <= (1 + |Catalog|) * |Catalog|;
  }

  /** An invariant state in which a salience-first strategy still finds something to fire has fired fewer than 156 activations. */
  lemma FiredBoundAll(p: Profile, pick: State -> Option<Activation>)
    requires SalienceFirst(pick)
    ensures forall x: State :: Seeded(x.facts) && Inv(p, x) && pick(x).Some? ==> |x.fired| < (1 + |Catalog|) * |Catalog|
  {
    forall x: State | Seeded(x.facts) && Inv(p, x) && pick(x).Some?
      ensures |x.fired| < (1 + |Catalog|) * |Catalog|
    {
      FiredBound(p, x, pick(x).value);
    }
  }

  /** The state advise's run ends in. */
  function FinalState(p: Profile): State {
    Settle(Select, Seed(p), MaxCycles)
  }

  /**
   * Under any salience-first strategy the run from a seeded profile reaches
   * a fixpoint without hitting the cap, in a state that keeps the invariant
   * and has nothing on the agenda.
   */
  lemma RunReachesFixpoint(p: Profile, pick: State -> Option<Activation>)
    requires SalienceFirst(pick)
    ensures Run(pick, Seed(p), MaxCycles).1 == Fixpoint
    ensures var s := Settle(pick, Seed(p), MaxCycles); Inv(p, s) && Select(s).None?
  {
    SeedInv(p);
    StepsKeepInv(p, pick);
    FiredBoundAll(p, pick);
    PicksFresh(pick);
    RunKeeps(x => Inv(p, x), pick, Seed(p), MaxCycles);
    RunEnds(x => Inv(p, x), pick, (1 + |Catalog|) * |Catalog|, Seed(p), MaxCycles);
    SelectSpec(Settle(pick, Seed(p), MaxCycles));
  }

  /** The run from a seeded profile never reaches the cap, and its final state keeps the invariant. */
  lemma AdviceReachesFixpoint(p: Profile)
    ensures AdviceFor(p).outcome == Fixpoint
    ensures Select(FinalState(p)).None?
    ensures Inv(p, FinalState(p))
  {
    SelectSalienceFirst();
    RunReachesFixpoint(p, Select);
  }

  /** At a fixpoint every activation that matches has fired, so its declared fact is in the store. */
  lemma AtFixpoint(p: Profile, s: State, a: Activation)
    requires Inv(p, s) && Select(s).None? && Matches(s.facts, a) && Action(p, a.rule).Some?
    ensures Action(p, a.rule).value.declared in s.facts
  {
    SelectSpec(s);
    assert !Enabled(s, a);
  }

  /** At a fixpoint the preferred branch rule has fired. */
  lemma FixpointGrown(p: Profile, s: State)
    requires Inv(p, s) && Select(s).None?
    ensures Preferred(p).Some? ==> |s.facts| > 1
  {
    SelectSpec(s);
    StoreShape(p, s);
    if Preferred(p).Some? {
      assert !Enabled(s, Activation(BranchRule(Preferred(p).value), 0));
    }
  }

  /** At a fixpoint the store holds a branch fact exactly when a preference flag is set, and only the preferred one. */
  lemma FixpointBranch(p: Profile, s: State)
    requires Inv(p, s) && Select(s).None?
    ensures HasBranch(s.facts) <==> Preferred(p).Some?
    ensures forall f :: f in s.facts && f.BranchFact? ==> f == BranchFact(Preferred(p).value)
  {
    FixpointGrown(p, s);
    StoreShape(p, s);
    forall f | f in s.facts && f.BranchFact?
      ensures f == BranchFact(Preferred(p).value)
    {
      var k :| 0 <= k < |s.facts| && s.facts[k] == f;
    }
  }

  /**
   * The final store holds exactly one branch fact when a preference flag is
   * set, the one of highest salience, and none otherwise.
   */
  lemma FinalBranch(p: Profile)
    ensures HasBranch(FinalState(p).facts) <==> Preferred(p).Some?
    ensures forall f :: f in FinalState(p).facts && f.BranchFact? ==> f == BranchFact(Preferred(p).value)
  {
    AdviceReachesFixpoint(p);
    FixpointBranch(p, FinalState(p));
  }

  /** With no preference flag nothing fires: no Recommendation and an empty trace. */
  lemma NoPreferenceNoAdvice(p: Profile)
    requires Preferred(p).None?
    ensures AdviceFor(p) == Advice(None, [], Fixpoint)
  {
    var s := Seed(p);
    SelectSpec(s);
    forall a
      ensures !Enabled(s, a)
    {
    }
    SettleStops(Select, s, MaxCycles);
    SeedInv(p);
    StoreShape(p, s);
  }

  /** On a branch the store ends with a Recommendation: the branch's own rule or fallback has fired. */
  lemma FixpointRecommends(p: Profile, s: State)
    requires Inv(p, s) && Select(s).None? && Preferred(p).Some?
    ensures HasRecommendation(s.facts)
  {
    FixpointGrown(p, s);
    var rule := match Preferred(p).value
      case Hybrid => HybridRules
      case Indoor => IndoorFallbackIt
      case Outdoor => OutdoorSales;
    var a := Activation(rule, 1);
    if rule == HybridRules {
      AtFixpoint(p, s, a);
      var d := Action(p, rule).value.declared;
      assert d in s.facts && d.RecFact?;
    } else if !HasRecommendation(s.facts) {
      AtFixpoint(p, s, a);
      assert false;
    }
  }

  /** advise returns a Recommendation exactly when some preference flag is set. */
  lemma AdviceIffPreference(p: Profile)
    ensures AdviceFor(p).rec.Some? <==> Preferred(p).Some?
  {
    if Preferred(p).None? {
      NoPreferenceNoAdvice(p);
    } else {
      AdviceReachesFixpoint(p);
      FixpointRecommends(p, FinalState(p));
    }
  }

  /**
   * The adjustment rules have been applied at a fixpoint: an ADMIN
   * Recommendation with a salary above SalaryMed is joined by IT, and an IT
   * Recommendation with a skill match below 0.4 by ADMIN.
   */
  lemma FixpointAdjusted(p: Profile, s: State)
    requires Inv(p, s) && Select(s).None?
    ensures forall r :: RecFact(r) in s.facts && r.job == Admin && p.salaryExpectation > SalaryMed ==>
              RecFact(Recommendation(IT, "Admin salary high -> IT")) in s.facts
    ensures forall r :: RecFact(r) in s.facts && r.job == IT && p.skillMatch < 0.4 ==>
              RecFact(Recommendation(Admin, "Low skill match -> ADMIN")) in s.facts
  {
    forall r | RecFact(r) in s.facts && r.job == Admin && p.salaryExpectation > SalaryMed
      ensures RecFact(Recommendation(IT, "Admin salary high -> IT")) in s.facts
    {
      var k :| 0 <= k < |s.facts| && s.facts[k] == RecFact(r);
      AtFixpoint(p, s, Activation(AdminSalaryAdjust, k));
    }
    forall r | RecFact(r) in s.facts && r.job == IT && p.skillMatch < 0.4
      ensures RecFact(Recommendation(Admin, "Low skill match -> ADMIN")) in s.facts
    {
      var k :| 0 <= k < |s.facts| && s.facts[k] == RecFact(r);
      AtFixpoint(p, s, Activation(ItSkillCheck, k));
    }
  }

  /** The final store of advise's run has both adjustments applied. */
  lemma FinalAdjusted(p: Profile)
    ensures forall r :: RecFact(r) in FinalState(p).facts && r.job == Admin && p.salaryExpectation > SalaryMed ==>
              RecFact(Recommendation(IT, "Admin salary high -> IT")) in FinalState(p).facts
    ensures forall r :: RecFact(r) in FinalState(p).facts && r.job == IT && p.skillMatch < 0.4 ==>
              RecFact(Recommendation(Admin, "Low skill match -> ADMIN")) in FinalState(p).facts
  {
    AdviceReachesFixpoint(p);
    FixpointAdjusted(p, FinalState(p));
  }

  /** An outdoor profile willing to work shifts. */
  predicate OutdoorShifts(p: Profile) {
    Preferred(p) == Some(Outdoor) && p.willingShifts
  }

  /** Every Recommendation in the store is DELIVERY. */
  predicate OnlyDelivery(s: State) {
    forall k :: 2 <= k < |s.facts| ==> s.facts[k].RecFact? && s.facts[k].rec.job == Delivery
  }

  /**
   * On the outdoor branch with shifts, outdoor_sales is never eligible: the
   * salience-10 outdoor_delivery_shifts is enabled until it has fired, and
   * once it has, a Recommendation exists.
   */
  lemma ShiftsBeforeSales(p: Profile, s: State, a: Activation)
    requires OutdoorShifts(p) && Inv(p, s) && |s.facts| > 1 && Eligible(s, a)
    ensures a.rule != OutdoorSales
  {
    if !HasRecommendation(s.facts) {
      var d := Action(p, OutdoorDeliveryShifts).value.declared;
      assert d.RecFact?;
      assert Enabled(s, Activation(OutdoorDeliveryShifts, 1));
    }
  }

  lemma OutdoorStep(p: Profile, s: State, a: Activation)
    requires OutdoorShifts(p) && Inv(p, s) && OnlyDelivery(s) && Eligible(s, a)
    ensures OnlyDelivery(Fire(s, a))
  {
    var t := Fire(s, a);
    if |s.facts| > 1 {
      LaterStepRule(p, s, a);
      ShiftsBeforeSales(p, s, a);
      assert a.rule in {OutdoorDeliveryFull, OutdoorDeliveryShifts, IndoorAdmin, IndoorRemoteIt, AdminSalaryAdjust, ItSkillCheck} ==>
        a.rule in {OutdoorDeliveryFull, OutdoorDeliveryShifts};
      forall k | 2 <= k < |t.facts|
        ensures t.facts[k].RecFact? && t.facts[k].rec.job == Delivery
      {
        if k >= |s.facts| {
          assert t.facts[k] in t.facts;
        }
      }
    } else {
      FirstStepShape(p, s, a);
    }
  }

  /**
   * Under any salience-first strategy, on the outdoor branch with shifts,
   * SALES is never declared: every Recommendation is DELIVERY, and the last
   * one is DELIVERY.
   */
  lemma OutdoorShiftsRun(p: Profile, pick: State -> Option<Activation>)
    requires OutdoorShifts(p) && SalienceFirst(pick)
    ensures forall f :: f in Settle(pick, Seed(p), MaxCycles).facts && f.RecFact? ==> f.rec.job == Delivery
    ensures var r := LastRecommendation(Settle(pick, Seed(p), MaxCycles).facts); r.Some? && r.value.job == Delivery
  {
    SeedInv(p);
    StepsKeepInv(p, pick);
    forall x: State, a | Seeded(x.facts) && Inv(p, x) && OnlyDelivery(x) && pick(x) == Some(a)
      ensures Inv(p, Fire(x, a)) && OnlyDelivery(Fire(x, a))
    {
      OutdoorStep(p, x, a);
    }
    RunKeeps(x => Inv(p, x) && OnlyDelivery(x), pick, Seed(p), MaxCycles);
    RunReachesFixpoint(p, pick);
    var s := Settle(pick, Seed(p), MaxCycles);
    FixpointRecommends(p, s);
    forall f | f in s.facts && f.RecFact?
      ensures f.rec.job == Delivery
    {
      var k :| 0 <= k < |s.facts| && s.facts[k] == f;
    }
  }

  /** advise gives the outdoor candidate willing to work shifts DELIVERY, and SALES is never declared. */
  lemma OutdoorShiftsDelivery(p: Profile)
    requires OutdoorShifts(p)
    ensures forall f :: f in FinalState(p).facts && f.RecFact? ==> f.rec.job == Delivery
    ensures AdviceFor(p).rec.Some? && AdviceFor(p).rec.value.job == Delivery
  {
    SelectSalienceFirst();
    OutdoorShiftsRun(p, Select);
  }

  /** A hybrid profile with skill match above 0.6 and more than two years of experience. */
  predicate HybridExperienced(p: Profile) {
    Preferred(p) == Some(Hybrid) && p.skillMatch > 0.6 && p.yearsExperience > 2
  }

  /** Every Recommendation in the store is the one hybrid_rules declares. */
  predicate OnlyHybridDecision(p: Profile, s: State) {
    forall k :: 2 <= k < |s.facts| ==> s.facts[k] == HybridRulesAction(p).declared
  }

  /** On a hybrid store of Recommendations, only four rules can match, each on its own kind of fact. */
  lemma HybridMatches(p: Profile, facts: seq<Fact>, b: Activation)
    requires Seeded(facts) && facts[0] == ProfileFact(p) && |facts| > 1 && facts[1] == BranchFact(Hybrid)
    requires forall k :: 2 <= k < |facts| ==> facts[k].RecFact?
    requires Matches(facts, b)
    ensures || b == Activation(PreferHybrid, 0)
            || b == Activation(HybridRules, 1)
            || (b.rule == AdminSalaryAdjust && 2 <= b.fact < |facts| && facts[b.fact].rec.job == Admin)
            || (b.rule == ItSkillCheck && 2 <= b.fact < |facts| && facts[b.fact].rec.job == IT)
  {
    assert HasBranch(facts);
  }

  lemma HybridStep(p: Profile, s: State, a: Activation)
    requires HybridExperienced(p) && Inv(p, s) && OnlyHybridDecision(p, s) && Eligible(s, a)
    ensures OnlyHybridDecision(p, Fire(s, a))
  {
    var t := Fire(s, a);
    if |s.facts| > 1 {
      LaterStepRule(p, s, a);
      HybridMatches(p, s.facts, a);
      forall k | 2 <= k < |t.facts|
        ensures t.facts[k] == HybridRulesAction(p).declared
      {
        if k >= |s.facts| {
          assert t.facts[k] in t.facts;
        }
      }
    } else {
      FirstStepShape(p, s, a);
    }
  }

  /** Under any salience-first strategy the skilled, experienced hybrid candidate's run ends with the hybrid decision alone. */
  lemma HybridExperiencedRun(p: Profile, pick: State -> Option<Activation>)
    requires HybridExperienced(p) && SalienceFirst(pick)
    ensures LastRecommendation(Settle(pick, Seed(p), MaxCycles).facts) == Some(HybridRulesAction(p).declared.rec)
  {
    SeedInv(p);
    StepsKeepInv(p, pick);
    forall x: State, a | Seeded(x.facts) && Inv(p, x) && OnlyHybridDecision(p, x) && pick(x) == Some(a)
      ensures Inv(p, Fire(x, a)) && OnlyHybridDecision(p, Fire(x, a))
    {
      HybridStep(p, x, a);
    }
    RunKeeps(x => Inv(p, x) && OnlyHybridDecision(p, x), pick, Seed(p), MaxCycles);
    RunReachesFixpoint(p, pick);
    var s := Settle(pick, Seed(p), MaxCycles);
    FixpointRecommends(p, s);
    var r := LastRecommendation(s.facts).value;
    var k :| 0 <= k < |s.facts| && s.facts[k] == RecFact(r);
  }

  /**
   * A skilled, experienced hybrid candidate gets the hybrid decision and
   * nothing adjusts it: REMOTE/FREELANCE when remote work is acceptable,
   * IT otherwise.
   */
  lemma HybridExperiencedAdvice(p: Profile)
    requires HybridExperienced(p)
    ensures AdviceFor(p).rec == Some(HybridRulesAction(p).declared.rec)
    ensures AdviceFor(p).rec.value.job == if p.remoteOk then RemoteFreelance else IT
  {
    SelectSalienceFirst();
    HybridExperiencedRun(p, Select);
  }
}
