# Job advisor: a verified model of the rule engine

The job advisor recommends a job category for a candidate profile. It does so
with a small forward-chaining production system. `advise` seeds a fresh engine
with one `Profile` fact and runs twelve salience-tagged rules to a fixpoint.
The first rules declare a `branch` fact (hybrid, indoor or outdoor). The next
rules declare `Recommendation` facts (ADMIN, IT, DELIVERY, SALES,
REMOTE/FREELANCE). Two adjustment rules then append superseding
Recommendations. `advise` returns the Recommendation declared last, together
with the `reasons` trace that the rule actions append to.

The rule library supplies the matching, the agenda and the run loop, and its
code is not part of this model. They are written out here:

- **Store.** The fact store is an append-only sequence. Declaring a fact equal
  to one already stored adds nothing.
- **Matching.** Every rule is matched naively against the whole store. This
  covers the negated patterns "no branch fact" and "no Recommendation".
- **Refraction.** An activation is a rule plus the id of the non-profile fact
  it matched. An activation that has fired never fires again.
- **Selection.** The engine fires the activation with the highest salience.
  Among equal saliences it prefers the more recently declared fact, then the
  order in which the class declares the rules.
- **Run loop.** The loop fires until nothing is enabled, under a cap of 500
  firings. It is written for any conflict-resolution strategy, as the rule
  library's engine takes one; `advise` uses the selection order above.
- **Salience-first strategies.** The library's strategies all fire an
  activation of highest salience, but they break ties among equal saliences
  differently. A strategy that fires only such activations and stops only on
  an empty agenda is called salience-first here. The invariant, termination
  and every scenario result are proved for all of them, so they do not
  depend on the tie-break.

Modules:

- `Facts` (facts.dfy): the fact kinds, the store and `Declare`, and the
  last-Recommendation scan as a function.
- `Rules` (rules.dfy): the rule catalog, the saliences, and each action's
  decision table as a function of the profile.
- `Agenda` (agenda.dfy): matching, selection, firing and the run loop as
  functions on a `State` value.
- `RunSteps` (steps.dfy): unfolding lemmas for the run. It also holds two
  general lemmas: a property preserved by every firing holds at the end, and a
  bounded number of firings forces a fixpoint.
- `Engine` (engine.dfy): `JobAdvisorEngine`, a class whose `facts`, `reasons`
  and `fired` fields are updated in place. Each of its methods is proved equal
  to the functions above. `Advise` seeds, runs and scans with a loop.
- `Properties` (properties.dfy):
  - the invariant of every reachable state;
  - termination well inside the cap;
  - what the fixpoint holds.
- `Scenarios` (scenarios.dfy): three profiles whose returned Recommendation is
  proved for every salience-first strategy:
  - a skilled remote indoor candidate;
  - an indoor candidate with a stable schedule and a modest salary, including
    the driver's sample profile;
  - an inexperienced, low-skill, high-salary hybrid candidate, whose run is
    traced firing by firing.

Declaring a fact equal to one already in the store adds nothing, as in the
rule library. This is what ends the hybrid ADMIN → IT → ADMIN cycle: the IT
Recommendation that `admin_salary_adjust` declares again is equal to the one
already stored. The adjustments therefore do not always have the last word:
for an inexperienced, low-skill, high-salary hybrid candidate `advise` returns
the ADMIN of `it_skill_check`, while the trace ends with the IT adjustment's
line (Scenarios.NoviceAdvice).

## Model

| member | source | states |
|---|---|---|
| Facts.Declare | expert_systems.py:126 | the declared fact is in the new store; the old store is a prefix; the store grows by one exactly when the fact was absent; nothing else is added; distinctness is kept |
| Facts.LastRecommendation | expert_systems.py:129-132 | None exactly when the store holds no Recommendation; otherwise a Recommendation of the store at a position after which no Recommendation follows |
| Rules.IndoorAdminAction | expert_systems.py:52-57 | declares ADMIN exactly when the salary is strictly below 4000, otherwise nothing |
| Rules.IndoorRemoteItAction | expert_systems.py:59-69 | nothing exactly when the skill match is below 0.6; IT exactly when skill ≥ 0.6 and salary ≥ 4000; REMOTE/FREELANCE exactly when skill ≥ 0.6 and salary < 4000 |
| Rules.HybridRulesAction | expert_systems.py:76-92 | always one Recommendation: REMOTE/FREELANCE iff skill > 0.6, experience > 2 and remote; ADMIN iff experience < 1; IT in every other case |
| Rules.AdminSalaryAdjustAction | expert_systems.py:111-115 | declares IT exactly when the salary is strictly above 4000 (4000 itself adds nothing) |
| Rules.ItSkillCheckAction | expert_systems.py:117-121 | declares ADMIN exactly when the skill match is strictly below 0.4 |
| Rules.Action | expert_systems.py:37-121 | branch rules declare a branch fact, all others a Recommendation; only the four rules with an inner guard can do nothing; the outdoor rules give DELIVERY or SALES and the indoor fallback gives IT |
| Rules.Salience | expert_systems.py:37-121 | the three branch rules have salience 70 or more and every other rule 0 to 10, so a branch rule outranks every rule that depends on a branch |
| Agenda.Matches | expert_systems.py:37-121 | a match is on a fact of the store; it is on the profile exactly for the branch rules, and otherwise on a branch or Recommendation fact; prefer_indoor and prefer_outdoor match only with no branch fact, indoor_fallback_it and outdoor_sales only with no Recommendation |
| Agenda.BestOfSpec | expert_systems.py:37-121 | the chosen candidate is None exactly when no candidate is enabled; otherwise it is an enabled candidate that beats every other enabled one |
| Agenda.SelectSpec | expert_systems.py:37-121 | the agenda is empty exactly when no activation is enabled; otherwise the selected activation is enabled and beats every other enabled activation by salience, then recency, so it is of highest salience |
| Agenda.SelectSalienceFirst | expert_systems.py:37-121 | the engine's selection is salience-first: it fires only enabled activations of highest salience and stops only when nothing is enabled |
| Agenda.Fire | expert_systems.py:39-121 | firing marks the activation fired; with a failing inner guard, store and trace are unchanged; otherwise the new store is Declare of the action's fact and one trace line is appended |
| RunSteps.RunStopsAt | expert_systems.py:127 | a loop state that cannot step further and settles like the start state is the run's result; the outcome is Fixpoint exactly when the strategy finds nothing to fire there |
| RunSteps.RunKeeps | expert_systems.py:127 | a property kept by every firing of the picked activation holds of the state the run stops in |
| RunSteps.SettleCounts | expert_systems.py:127 | when the strategy only picks unfired activations, a run that stops with something still to fire has fired exactly its fuel |
| RunSteps.PicksFresh | expert_systems.py:127 | refraction: a salience-first strategy never picks an activation that has already fired |
| RunSteps.RunEnds | expert_systems.py:127 | for a strategy that picks only unfired activations, when fewer than `bound` activations can have fired while something is still picked, a run with that much fuel to spare ends at a fixpoint |
| RunSteps.RunGrows | expert_systems.py:127 | the run only appends to the store and the trace and only adds to the fired set |
| Engine.JobAdvisorEngine.constructor | expert_systems.py:30-35 | a new engine has an empty store, an empty trace and nothing fired |
| Engine.JobAdvisorEngine.Declare | expert_systems.py:126 | the store field becomes the functional Declare of the old store; trace and fired set are unchanged |
| Engine.JobAdvisorEngine.FireActivation | expert_systems.py:39-121 | the engine's state after one firing in place equals Fire of its old state |
| Engine.JobAdvisorEngine.Run | expert_systems.py:127 | the engine's final state and outcome equal the functional Run of its initial state under the same strategy |
| Engine.ScanLastRecommendation | expert_systems.py:129-132 | the loop that overwrites `rec` on every Recommendation ends with LastRecommendation of the store |
| Engine.Advise | expert_systems.py:123-133 | the Recommendation, trace and outcome returned are those of AdviceFor, the functional run from the seeded profile |
| Properties.StoreShape | expert_systems.py:37-50 | before the first firing the store is the profile alone; a branch fact exists exactly when the store has grown |
| Properties.FirstStepShape | expert_systems.py:37-50 | the first firing of any salience-first strategy is the branch rule of the preferred branch: hybrid over indoor over outdoor |
| Properties.LaterStepRule | expert_systems.py:42-50 | once a branch fact exists, no branch rule is on the agenda again |
| Properties.StepKeepsInv | expert_systems.py:37-121 | every firing of an activation of highest salience keeps the invariant: the profile first, distinct facts, at most one branch fact (the preferred one, announced by the first trace line), then only Recommendations, and everything fired has left its declared fact in the store |
| Properties.StepsKeepInv | expert_systems.py:37-121 | every firing a salience-first strategy picks keeps the invariant |
| Properties.FiredBoundAll | expert_systems.py:37-121 | in an invariant state where a salience-first strategy still picks something, fewer than 156 activations have fired |
| Properties.RunReachesFixpoint | expert_systems.py:127 | under any salience-first strategy the run from a seeded profile reaches a fixpoint without hitting the 500-firing cap, in a state that keeps the invariant and has nothing on the agenda |
| Properties.StoreBound | expert_systems.py:37-121 | the store never holds more than the profile plus twelve facts |
| Properties.FiredBound | expert_systems.py:37-121 | while an activation is still enabled, fewer than 156 activations have fired |
| Properties.AdviceReachesFixpoint | expert_systems.py:127 | for every profile the run reaches a fixpoint without hitting the 500-firing cap, in a state that keeps the invariant |
| Properties.AtFixpoint | expert_systems.py:37-121 | at a fixpoint every matching activation has fired, so its declared fact is in the store |
| Properties.FixpointBranch | expert_systems.py:37-50 | at any fixpoint that keeps the invariant, a branch fact exists exactly when a preference flag is set, and it is the preferred branch |
| Properties.FinalBranch | expert_systems.py:37-50 | the final store holds a branch fact exactly when a preference flag is set, and every branch fact in it is the preferred branch |
| Properties.NoPreferenceNoAdvice | expert_systems.py:123-133 | with no preference flag set, advise returns no Recommendation and an empty trace |
| Properties.FixpointRecommends | expert_systems.py:71-109 | on any branch the fixpoint holds a Recommendation (from hybrid_rules, or the indoor/outdoor fallback) |
| Properties.AdviceIffPreference | expert_systems.py:123-133 | advise returns a Recommendation exactly when some preference flag is set |
| Properties.FixpointAdjusted | expert_systems.py:111-121 | at any fixpoint that keeps the invariant, ADMIN with salary > 4000 is accompanied by the IT adjustment and IT with skill < 0.4 by the ADMIN adjustment |
| Properties.FinalAdjusted | expert_systems.py:111-121 | at the fixpoint an ADMIN Recommendation with salary > 4000 is accompanied by the IT adjustment, and an IT Recommendation with skill < 0.4 by the ADMIN adjustment |
| Properties.ShiftsBeforeSales | expert_systems.py:101-109 | on the outdoor branch with shifts, outdoor_sales is never an activation of highest salience on the agenda |
| Properties.OutdoorStep | expert_systems.py:94-109 | on the outdoor branch with shifts, each firing of highest salience keeps every Recommendation DELIVERY |
| Properties.OutdoorShiftsRun | expert_systems.py:94-109 | under any salience-first strategy, on the outdoor branch with shifts, every stored Recommendation is DELIVERY and the last one exists |
| Properties.OutdoorShiftsDelivery | expert_systems.py:94-109 | on the outdoor branch with shifts, SALES is never declared and advise returns DELIVERY |
| Properties.HybridMatches | expert_systems.py:37-121 | on a hybrid store of Recommendations only prefer_hybrid, hybrid_rules, admin_salary_adjust on an ADMIN and it_skill_check on an IT can match |
| Properties.HybridStep | expert_systems.py:76-121 | for a skilled, experienced hybrid candidate each firing of highest salience keeps the hybrid decision the only Recommendation |
| Properties.HybridExperiencedRun | expert_systems.py:76-121 | under any salience-first strategy, the skilled, experienced hybrid candidate's run ends with hybrid_rules' decision as the last Recommendation |
| Properties.HybridExperiencedAdvice | expert_systems.py:76-92 | a hybrid candidate with skill > 0.6 and experience > 2 gets REMOTE/FREELANCE if remote work is acceptable, else IT, and no adjustment follows |
| Scenarios.IndoorRemoteMatches | expert_systems.py:52-74 | on an indoor store holding no ADMIN, with no stable schedule, only indoor_remote_it, indoor_fallback_it and it_skill_check can match, and the fallback only while no Recommendation exists |
| Scenarios.IndoorRemoteRules | expert_systems.py:52-74 | for the skilled remote indoor candidate, every activation on the agenda after the branch is one of those three rules |
| Scenarios.IndoorRemoteAdds | expert_systems.py:59-74 | at skill ≥ 0.6 each of those firings adds nothing, indoor_remote_it's Recommendation when it is new, or the fallback IT when no Recommendation exists |
| Scenarios.RemoteLastKept | expert_systems.py:59-74 | after such a firing the store still holds no ADMIN, and indoor_remote_it's Recommendation, once stored, is the last fact |
| Scenarios.IndoorRemoteStep | expert_systems.py:59-121 | every firing of highest salience in the skilled remote indoor run keeps those two facts |
| Scenarios.LastFactRecommendation | expert_systems.py:129-132 | when the last fact of the store is a Recommendation, it is the one returned |
| Scenarios.IndoorRemoteEnd | expert_systems.py:59-74 | at the fixpoint of that run the returned Recommendation is indoor_remote_it's |
| Scenarios.IndoorRemoteRun | expert_systems.py:59-74 | under any salience-first strategy, so whether indoor_remote_it or indoor_fallback_it fires first, the run of an indoor candidate with remote work acceptable, no stable schedule and skill ≥ 0.6 ends with indoor_remote_it's Recommendation |
| Scenarios.IndoorRemoteAdvice | expert_systems.py:59-74 | advise gives that candidate indoor_remote_it's decision: REMOTE/FREELANCE below 4000 and IT from 4000 up |
| Scenarios.IndoorStableAdds | expert_systems.py:52-74 | for an indoor candidate with a stable schedule and salary < 4000, a firing after the branch adds nothing, one ADMIN, or the fallback IT on a store without Recommendations |
| Scenarios.IndoorStableRules | expert_systems.py:52-74 | on that indoor store only the indoor rules and the two adjustments are on the agenda; indoor_remote_it only with remote work acceptable, the fallback only while no Recommendation exists |
| Scenarios.AdminOrFallbackKept | expert_systems.py:52-74 | after such a firing every stored Recommendation is still ADMIN, except the fallback IT, which can only be the first |
| Scenarios.IndoorStableStep | expert_systems.py:52-121 | every firing of highest salience in that run keeps that shape |
| Scenarios.IndoorStableEnd | expert_systems.py:52-57 | at the fixpoint indoor_admin's ADMIN is stored after any fallback IT, so the last Recommendation is ADMIN |
| Scenarios.IndoorStableRun | expert_systems.py:52-121 | under any salience-first strategy, so whether indoor_admin or indoor_fallback_it fires first, the run ends with an ADMIN Recommendation |
| Scenarios.IndoorStableAdvice | expert_systems.py:52-133 | advise gives an indoor candidate with a stable schedule, salary < 4000, and either no remote work or skill < 0.6, an ADMIN Recommendation |
| Scenarios.SampleAdvice | expert_systems.py:135-146 | the driver's sample profile (indoor, stable, not remote, skill 0.3, salary 1800) gets ADMIN |
| Scenarios.NoviceAction | expert_systems.py:37-121 | for the novice hybrid candidate, what each of the five firings declares and logs |
| Scenarios.NoviceOnly | expert_systems.py:76-121 | after the branch, at most one activation of the novice run is enabled at a time: the next one, and none after the fifth firing |
| Scenarios.NoviceNext | expert_systems.py:76-121 | the novice run's next activation is enabled until the fifth firing |
| Scenarios.NoviceSelect | expert_systems.py:37-121 | the engine selects the novice run's next activation, and nothing after the fifth firing |
| Scenarios.NoviceGrows | expert_systems.py:76-121 | consecutive novice states differ by one trace line and one fired activation; the first four firings add a new fact, the fifth re-declares the stored IT |
| Scenarios.NoviceFire | expert_systems.py:76-121 | firing the next activation of the novice run gives its next state |
| Scenarios.NoviceStep | expert_systems.py:76-121 | every firing of highest salience from a novice state leads to the next novice state |
| Scenarios.NoviceEnd | expert_systems.py:76-121 | the only novice state with nothing to fire is the one after five firings |
| Scenarios.NoviceFinal | expert_systems.py:127 | under any salience-first strategy the run from the novice profile ends after exactly those five firings |
| Scenarios.NoviceLast | expert_systems.py:129-132 | the last Recommendation of the novice run's final store is it_skill_check's ADMIN, with the IT adjustment stored before it, and the trace holds all five lines |
| Scenarios.NoviceAdvice | expert_systems.py:76-133 | hybrid, experience < 1, skill < 0.4, salary > 4000: advise returns ADMIN "Low skill match -> ADMIN" although the IT adjustment is in the store, and the trace ends with "Rule: admin_salary_adjust -> IT" |

## Left out

- The `collections` compatibility shim and the import of the rule library (expert_systems.py:3-10) are library plumbing.
- The rule library's network-based matcher and its agenda strategy are replaced by naive matching and the selection order described above.
  - The reset-time initial fact is not modelled, because no rule matches it. Fact ids are therefore one lower than the library's.
  - Equal-salience activations on the same fact are ordered by the class's declaration order. The library's own order there is not visible.
  - The run lemmas (RunReachesFixpoint, OutdoorShiftsRun, HybridExperiencedRun and the Scenarios runs) hold for every salience-first strategy, whatever its tie-break. Lemmas about `advise` itself use the order above. An indoor profile with both `stable_schedule` and `remote_ok` can get ADMIN or REMOTE/FREELANCE depending on the tie-break, and no lemma covers it.
- `Field` runtime type checks and defaults (expert_systems.py:13-28) are not modelled.
  - `Profile` is a typed datatype with every field present, so a profile dict with a missing key, an unknown key or a wrongly typed value cannot be expressed.
  - `DefaultProfile` lists the defaults.
- Properties.FixpointAdjusted — states only that an adjustment is in the store, not that it is the Recommendation returned. A later declaration can follow it, or it can be re-declared as a duplicate and dropped; Scenarios.NoviceAdvice gives a profile where the IT adjustment is stored but ADMIN is returned.
- Properties.FinalAdjusted — the same as FixpointAdjusted, for the final store of the run.
- `education` (expert_systems.py:18) and `salary_low` (expert_systems.py:33) are carried but never read, as in the source.
- `skill_match` and `salary_expectation` are `real`. The source only compares them with constants, so float rounding plays no part.
- Engine.JobAdvisorEngine.Run takes the strategy and an explicit cap, and reports `CapExceeded` when the cap is spent. The library's `run()` reads its strategy from the engine and has no cap. `Advise` uses 500, and Properties.AdviceReachesFixpoint proves this cap is never reached.
- Engine.Advise also returns the run's outcome, which the source does not. It returns the trace as a value, not as the engine's list object, so aliasing of `engine.reasons` is not modelled.
- Reason strings and trace lines are copied as literals. No property depends on their wording, except that the adjustment Recommendations are identified by their exact reasons.
- The `__main__` driver (expert_systems.py:134-149) only runs `advise` and prints. Its sample profile is `Scenarios.Sample`, whose result is proved by Scenarios.SampleAdvice.
