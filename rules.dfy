/**
 * The twelve rules of the job advisor: their saliences, their catalog order
 * and what each one's action declares and records in the trace.
 */
module Rules {
  import opened Facts

  /** Engine configuration. No rule reads SalaryLow. */
  const SalaryLow: real := 2000.0
  const SalaryMed: real := 4000.0

  datatype Rule =
    | PreferHybrid | PreferIndoor | PreferOutdoor
    | IndoorAdmin | IndoorRemoteIt | IndoorFallbackIt
    | HybridRules
    | OutdoorDeliveryFull | OutdoorDeliveryShifts | OutdoorSales
    | AdminSalaryAdjust | ItSkillCheck

  /** The rules in the order the engine class declares them. */
  const Catalog: seq<Rule> := [
    PreferHybrid, PreferIndoor, PreferOutdoor,
    IndoorAdmin, IndoorRemoteIt, IndoorFallbackIt,
    HybridRules,
    OutdoorDeliveryFull, OutdoorDeliveryShifts, OutdoorSales,
    AdminSalaryAdjust, ItSkillCheck]

  /**
   * Firing priority; rules declared without one have salience 0. The branch
   * rules outrank every other rule.
   */
  function Salience(r: Rule): (n: int)
    ensures IsBranchRule(r) <==> n >= 70
    ensures !IsBranchRule(r) ==> 0 <= n <= 10
  {
    match r
    case PreferHybrid => 90
    case PreferIndoor => 80
    case PreferOutdoor => 70
    case OutdoorDeliveryShifts => 10
    case _ => 0
  }

  /** The rule's place in the catalog. */
  function Position(r: Rule): (i: nat)
    ensures i < |Catalog| && Catalog[i] == r
  {
    match r
    case PreferHybrid => 0
    case PreferIndoor => 1
    case PreferOutdoor => 2
    case IndoorAdmin => 3
    case IndoorRemoteIt => 4
    case IndoorFallbackIt => 5
    case HybridRules => 6
    case OutdoorDeliveryFull => 7
    case OutdoorDeliveryShifts => 8
    case OutdoorSales => 9
    case AdminSalaryAdjust => 10
    case ItSkillCheck => 11
  }

  /** The three rules that choose a branch. */
  predicate IsBranchRule(r: Rule) {
    r == PreferHybrid || r == PreferIndoor || r == PreferOutdoor
  }

  /** What one firing of an action does: the fact it declares and the trace line it appends. */
  datatype Firing = Firing(declared: Fact, line: string)

  function Recommend(job: Job, reason: string, line: string): Firing {
    Firing(RecFact(Recommendation(job, reason)), line)
  }

  /** The job a firing recommends, if it declares a Recommendation. */
  function JobOf(f: Option<Firing>): Option<Job> {
    if f.Some? && f.value.declared.RecFact? then Some(f.value.declared.rec.job) else None
  }

  /** indoor_admin: ADMIN only when the salary is strictly below SalaryMed. */
  function IndoorAdminAction(p: Profile): (f: Option<Firing>)
    ensures f.Some? <==> p.salaryExpectation < SalaryMed
    ensures f.Some? ==> JobOf(f) == Some(Admin)
  {
    if p.salaryExpectation < SalaryMed then
      Some(Recommend(Admin, "Indoor + stable + modest salary", "Rule: indoor_admin"))
    else
      None
  }

  /**
   * indoor_remote_it: nothing for a skill match under 0.6; otherwise IT from
   * SalaryMed up and REMOTE/FREELANCE below it.
   */
  function IndoorRemoteItAction(p: Profile): (f: Option<Firing>)
    ensures f.None? <==> p.skillMatch < 0.6
    ensures JobOf(f) == Some(IT) <==> p.skillMatch >= 0.6 && p.salaryExpectation >= SalaryMed
    ensures JobOf(f) == Some(RemoteFreelance) <==> p.skillMatch >= 0.6 && p.salaryExpectation < SalaryMed
  {
    if p.skillMatch >= 0.6 then
      if p.salaryExpectation >= SalaryMed then
        Some(Recommend(IT, "Remote+skilled+med/high salary -> IT", "Rule: indoor_remote_it -> IT"))
      else
        Some(Recommend(RemoteFreelance, "Remote+skilled+lower salary -> FREELANCE",
                       "Rule: indoor_remote_it -> REMOTE/FREELANCE"))
    else
      None
  }

  /**
   * hybrid_rules: always one Recommendation. REMOTE/FREELANCE for a skilled,
   * experienced, remote-ready candidate; ADMIN for one with no experience;
   * IT for everyone else.
   */
  function HybridRulesAction(p: Profile): (f: Firing)
    ensures f.declared.RecFact?
    ensures f.declared.rec.job == RemoteFreelance <==>
              p.skillMatch > 0.6 && p.yearsExperience > 2 && p.remoteOk
    ensures f.declared.rec.job == Admin <==> p.yearsExperience < 1
    ensures f.declared.rec.job == IT <==>
              p.yearsExperience >= 1 && !(p.skillMatch > 0.6 && p.yearsExperience > 2 && p.remoteOk)
  {
    if p.skillMatch > 0.6 && p.yearsExperience > 2 then
      if p.remoteOk then
        Recommend(RemoteFreelance, "Hybrid+skill+exp+remote -> FREELANCE", "Rule: hybrid -> FREELANCE")
      else
        Recommend(IT, "Hybrid+skill -> IT", "Rule: hybrid -> IT")
    else if p.yearsExperience >= 1 then
      Recommend(IT, "Hybrid some experience -> IT", "Rule: hybrid fallback -> IT")
    else
      Recommend(Admin, "Hybrid low experience -> ADMIN", "Rule: hybrid fallback -> ADMIN")
  }

  /** admin_salary_adjust: IT only when the salary is strictly above SalaryMed. */
  function AdminSalaryAdjustAction(p: Profile): (f: Option<Firing>)
    ensures f.Some? <==> p.salaryExpectation > SalaryMed
    ensures f.Some? ==> JobOf(f) == Some(IT)
  {
    if p.salaryExpectation > SalaryMed then
      Some(Recommend(IT, "Admin salary high -> IT", "Rule: admin_salary_adjust -> IT"))
    else
      None
  }

  /** it_skill_check: ADMIN only when the skill match is strictly below 0.4. */
  function ItSkillCheckAction(p: Profile): (f: Option<Firing>)
    ensures f.Some? <==> p.skillMatch < 0.4
    ensures f.Some? ==> JobOf(f) == Some(Admin)
  {
    if p.skillMatch < 0.4 then
      Some(Recommend(Admin, "Low skill match -> ADMIN", "Rule: it_skill_check -> ADMIN"))
    else
      None
  }

  /**
   * The action of rule `r` for profile `p`. Branch rules declare a branch fact,
   * every other rule a Recommendation; only the four rules with an inner guard
   * can do nothing.
   */
  function Action(p: Profile, r: Rule): (f: Option<Firing>)
    ensures f.None? ==> r in {IndoorAdmin, IndoorRemoteIt, AdminSalaryAdjust, ItSkillCheck}
    ensures f.Some? && IsBranchRule(r) ==> f.value.declared.BranchFact?
    ensures f.Some? && !IsBranchRule(r) ==> f.value.declared.RecFact?
    ensures r == OutdoorSales ==> JobOf(f) == Some(Sales)
    ensures r == OutdoorDeliveryFull || r == OutdoorDeliveryShifts ==> JobOf(f) == Some(Delivery)
    ensures r == IndoorFallbackIt ==> JobOf(f) == Some(IT)
  {
    match r
    case PreferHybrid => Some(Firing(BranchFact(Hybrid), "Branch: hybrid"))
    case PreferIndoor => Some(Firing(BranchFact(Indoor), "Branch: indoor"))
    case PreferOutdoor => Some(Firing(BranchFact(Outdoor), "Branch: outdoor"))
    case IndoorAdmin => IndoorAdminAction(p)
    case IndoorRemoteIt => IndoorRemoteItAction(p)
    case IndoorFallbackIt => Some(Recommend(IT, "Indoor fallback -> IT", "Rule: indoor_fallback_it"))
    case HybridRules => Some(HybridRulesAction(p))
    case OutdoorDeliveryFull =>
      Some(Recommend(Delivery, "Outdoor+physical+driving+shifts -> DELIVERY", "Rule: outdoor_delivery_full"))
    case OutdoorDeliveryShifts =>
      Some(Recommend(Delivery, "Willing for shifts -> DELIVERY", "Rule: outdoor_delivery_shifts"))
    case OutdoorSales => Some(Recommend(Sales, "Outdoor -> SALES", "Rule: outdoor_sales"))
    case AdminSalaryAdjust => AdminSalaryAdjustAction(p)
    case ItSkillCheck => ItSkillCheckAction(p)
  }

  /** Every fact the rules in `rules` can declare for profile `p`. */
  function Declarable(p: Profile, rules: seq<Rule>): (c: seq<Fact>)
    ensures |c| <= |rules|
  {
    if rules == [] then []
    else
      (match Action(p, rules[0])
       case Some(f) => [f.declared]
       case None => [])
      + Declarable(p, rules[1..])
  }

  /** Whatever a rule of `rules` declares is among Declarable(p, rules). */
  lemma {:induction false} DeclarableCovers(p: Profile, rules: seq<Rule>, r: Rule)
    requires r in rules && Action(p, r).Some?
    ensures Action(p, r).value.declared in Declarable(p, rules)
  {
    if rules[0] != r {
      DeclarableCovers(p, rules[1..], r);
    }
  }
}
