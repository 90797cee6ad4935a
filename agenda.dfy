/**
 * The engine machinery the rule library supplies implicitly: naive matching
 * of every rule against the whole store, salience-ordered selection, firing
 * with refraction, and the run to fixpoint under an iteration cap.
 *
 * The store always starts with the one Profile fact (position 0) and no rule
 * declares another, so every Profile pattern matches fact 0. An activation is
 * keyed by its rule and the id of the other fact its positive patterns matched
 * (the branch or Recommendation fact; 0 for the branch rules, whose only
 * positive pattern is the Profile).
 */
module Agenda {
  import opened Facts
  import opened Rules

  datatype Activation = Activation(rule: Rule, fact: nat)

  /** The store, the trace and the activations that have already fired. */
  datatype State = State(facts: seq<Fact>, trace: seq<string>, fired: set<Activation>)

  datatype Outcome = Fixpoint | CapExceeded

  predicate Seeded(facts: seq<Fact>) {
    |facts| > 0 && facts[0].ProfileFact?
  }

  /** The store as advise seeds it, before the engine runs. */
  function Seed(p: Profile): (s: State)
    ensures Seeded(s.facts)
  {
    State([ProfileFact(p)], [], {})
  }

  /** The rule's positive patterns hold on the Profile and fact `a.fact`, and its negated ones on the whole store. */
  predicate Matches(facts: seq<Fact>, a: Activation): (m: bool)
    requires Seeded(facts)
    ensures m ==> a.fact < |facts| && (a.fact == 0 <==> IsBranchRule(a.rule))
    ensures m && !IsBranchRule(a.rule) ==> facts[a.fact].BranchFact? || facts[a.fact].RecFact?
    ensures m && (a.rule == PreferIndoor || a.rule == PreferOutdoor) ==> !HasBranch(facts)
    ensures m && (a.rule == IndoorFallbackIt || a.rule == OutdoorSales) ==> !HasRecommendation(facts)
  {
    var p := facts[0].profile;
    a.fact < |facts| &&
    var t := facts[a.fact];
    match a.rule
    case PreferHybrid => a.fact == 0 && p.prefersHybrid
    case PreferIndoor => a.fact == 0 && p.prefersIndoor && !HasBranch(facts)
    case PreferOutdoor => a.fact == 0 && p.prefersOutdoor && !HasBranch(facts)
    case IndoorAdmin => t == BranchFact(Indoor) && p.stableSchedule
    case IndoorRemoteIt => t == BranchFact(Indoor) && p.remoteOk
    case IndoorFallbackIt => t == BranchFact(Indoor) && !HasRecommendation(facts)
    case HybridRules => t == BranchFact(Hybrid)
    case OutdoorDeliveryFull =>
      t == BranchFact(Outdoor) && p.highPhysical && p.hasDrivingLicense && p.willingShifts
    case OutdoorDeliveryShifts => t == BranchFact(Outdoor) && p.willingShifts
    case OutdoorSales => t == BranchFact(Outdoor) && !HasRecommendation(facts)
    case AdminSalaryAdjust => t.RecFact? && t.rec.job == Admin
    case ItSkillCheck => t.RecFact? && t.rec.job == IT
  }

  /** On the agenda: matching and not yet fired (refraction). */
  predicate Enabled(s: State, a: Activation)
    requires Seeded(s.facts)
  {
    a !in s.fired && Matches(s.facts, a)
  }

  /**
   * Conflict resolution: higher salience first; among equal salience the
   * activation on the more recently declared fact; then catalog order.
   */
  predicate Beats(a: Activation, b: Activation) {
    || Salience(a.rule) > Salience(b.rule)
    || (Salience(a.rule) == Salience(b.rule) && a.fact > b.fact)
    || (Salience(a.rule) == Salience(b.rule) && a.fact == b.fact && Position(a.rule) < Position(b.rule))
  }

  /**
   * `a` is on the agenda and nothing on the agenda has a higher salience:
   * the activations any of the rule library's strategies may fire next,
   * since they all order the agenda by salience first.
   */
  ghost predicate Eligible(s: State, a: Activation)
    requires Seeded(s.facts)
  {
    Enabled(s, a) && forall b :: Enabled(s, b) ==> Salience(b.rule) <= Salience(a.rule)
  }

  /** Every rule on fact `j`, in catalog order. */
  function ActivationsOn(j: nat): seq<Activation> {
    seq(|Catalog|, i requires 0 <= i < |Catalog| => Activation(Catalog[i], j))
  }

  /** Every activation the store of size `n` can give rise to. */
  function Candidates(n: nat): seq<Activation> {
    if n == 0 then [] else Candidates(n - 1) + ActivationsOn(n - 1)
  }

  /** There are as many candidates as rules times facts. */
  lemma {:induction false} CandidatesLength(n: nat)
    ensures |Candidates(n)| == n * |Catalog|
  {
    if n > 0 {
      CandidatesLength(n - 1);
    }
  }

  lemma {:induction false} CandidatesComplete(n: nat, a: Activation)
    requires a.fact < n
    ensures a in Candidates(n)
  {
    if a.fact == n - 1 {
      assert ActivationsOn(n - 1)[Position(a.rule)] == a;
    } else {
      CandidatesComplete(n - 1, a);
    }
  }

  /** The first enabled activation of `cands` that no later enabled one beats. */
  function BestOf(s: State, cands: seq<Activation>): Option<Activation>
    requires Seeded(s.facts)
  {
    if cands == [] then None
    else
      var rest := BestOf(s, cands[1..]);
      if !Enabled(s, cands[0]) then rest
      else if rest.None? || Beats(cands[0], rest.value) then Some(cands[0])
      else rest
  }

  /** BestOf finds an enabled candidate exactly when there is one, and it beats every other. */
  lemma {:induction false} BestOfSpec(s: State, cands: seq<Activation>)
    requires Seeded(s.facts)
    ensures var r := BestOf(s, cands);
      && (r.None? <==> forall c :: c in cands ==> !Enabled(s, c))
      && (r.Some? ==> r.value in cands && Enabled(s, r.value))
      && (r.Some? ==> forall c :: c in cands && Enabled(s, c) && c != r.value ==> Beats(r.value, c))
  {
    if cands != [] {
      assert forall c :: c in cands ==> c == cands[0] || c in cands[1..];
      BestOfSpec(s, cands[1..]);
    }
  }

  /** The activation the agenda fires next, or None at fixpoint (or on a store without its profile, which never arises). */
  function Select(s: State): Option<Activation> {
    if Seeded(s.facts) then BestOf(s, Candidates(|s.facts|)) else None
  }

  /**
   * Select reports a fixpoint exactly when no activation is enabled, and
   * otherwise picks an enabled activation that beats every other enabled one.
   */
  lemma SelectSpec(s: State)
    requires Seeded(s.facts)
    ensures Select(s).None? <==> forall a :: !Enabled(s, a)
    ensures Select(s).Some? ==> Enabled(s, Select(s).value)
    ensures Select(s).Some? ==> forall b :: Enabled(s, b) && b != Select(s).value ==> Beats(Select(s).value, b)
    ensures Select(s).Some? ==> Eligible(s, Select(s).value)
  {
    var cands := Candidates(|s.facts|);
    forall a | Enabled(s, a) ensures a in cands {
      CandidatesComplete(|s.facts|, a);
    }
    BestOfSpec(s, cands);
  }

  /**
   * A conflict-resolution strategy that fires only eligible activations and
   * stops only when the agenda is empty. The tie-break among equal
   * saliences is left open.
   */
  ghost predicate SalienceFirst(pick: State -> Option<Activation>) {
    forall x: State | Seeded(x.facts) ::
      && (pick(x).Some? ==> Eligible(x, pick(x).value))
      && (pick(x).None? ==> forall a :: !Enabled(x, a))
  }

  /** The engine's own strategy is one of them. */
  lemma SelectSalienceFirst()
    ensures SalienceFirst(Select)
  {
    forall x: State | Seeded(x.facts)
      ensures && (Select(x).Some? ==> Eligible(x, Select(x).value))
              && (Select(x).None? ==> forall a :: !Enabled(x, a))
    {
      SelectSpec(x);
    }
  }

  /**
   * Fires `a`: marks it fired and runs its action, which either declares one
   * fact and appends one trace line or, when its inner guard fails, changes
   * neither the store nor the trace.
   */
  function Fire(s: State, a: Activation): (r: State)
    requires Seeded(s.facts)
    ensures Seeded(r.facts) && s.facts <= r.facts
    ensures r.fired == s.fired + {a}
    ensures Action(s.facts[0].profile, a.rule).None? ==> r.facts == s.facts && r.trace == s.trace
    ensures Action(s.facts[0].profile, a.rule).Some? ==>
              var f := Action(s.facts[0].profile, a.rule).value;
              && r.facts == Declare(s.facts, f.declared)
              && r.trace == s.trace + [f.line]
              && f.declared in r.facts
              && (forall g :: g in r.facts ==> g in s.facts || g == f.declared)
              && (Distinct(s.facts) ==> Distinct(r.facts))
  {
    var fired := s.fired + {a};
    match Action(s.facts[0].profile, a.rule)
    case None => State(s.facts, s.trace, fired)
    case Some(f) => State(Declare(s.facts, f.declared), s.trace + [f.line], fired)
  }

  /**
   * The state the run loop stops in: it fires the activation `pick` selects
   * until `pick` finds none or `fuel` firings are spent. The loop is written
   * for any conflict-resolution strategy `pick`; the engine's is Select.
   */
  function Settle(pick: State -> Option<Activation>, s: State, fuel: nat): (r: State)
    requires Seeded(s.facts)
    ensures Seeded(r.facts)
    decreases fuel
  {
    match pick(s)
    case None => s
    case Some(a) => if fuel == 0 then s else Settle(pick, Fire(s, a), fuel - 1)
  }

  /**
   * The run loop with a cap of `fuel` firings: the state it stops in, and
   * whether it stopped at a fixpoint or because the cap was spent with an
   * activation still enabled.
   */
  function Run(pick: State -> Option<Activation>, s: State, fuel: nat): (State, Outcome)
    requires Seeded(s.facts)
  {
    var r := Settle(pick, s, fuel);
    (r, if pick(r).None? then Fixpoint else CapExceeded)
  }
}
