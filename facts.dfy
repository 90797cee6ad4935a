/**
 * The three fact kinds of the job advisor (Profile, the untyped branch fact
 * and Recommendation) and the append-only fact store they live in.
 */
module Facts {

  datatype Option<+T> = None | Some(value: T)

  /** The five job codes a Recommendation can carry. */
  datatype Job = Admin | IT | Delivery | Sales | RemoteFreelance

  /** The three values of the `branch` fact. */
  datatype Branch = Indoor | Outdoor | Hybrid

  /**
   * The candidate profile. Every field is present and typed, so the `Field`
   * type checks of `Profile` hold by construction.
   */
  datatype Profile = Profile(
    prefersIndoor: bool,
    prefersOutdoor: bool,
    prefersHybrid: bool,
    stableSchedule: bool,
    remoteOk: bool,
    education: string,
    skillMatch: real,
    yearsExperience: int,
    highPhysical: bool,
    willingShifts: bool,
    hasDrivingLicense: bool,
    salaryExpectation: real)

  /** A profile holding every field's declared default. */
  const DefaultProfile: Profile :=
    Profile(false, false, false, false, false, "None", 0.0, 0, false, false, false, 0.0)

  datatype Recommendation = Recommendation(job: Job, reason: string)

  datatype Fact =
    | ProfileFact(profile: Profile)
    | BranchFact(branch: Branch)
    | RecFact(rec: Recommendation)

  predicate Distinct<T(==)>(s: seq<T>) {
    forall i, j :: 0 <= i < j < |s| ==> s[i] != s[j]
  }

  /**
   * The store after declaring `f`. Facts are only ever appended; a fact equal
   * to one already in the store is not added a second time.
   */
  function Declare(facts: seq<Fact>, f: Fact): (r: seq<Fact>)
    ensures f in r
    ensures facts <= r
    ensures |r| == if f in facts then |facts| else |facts| + 1
    ensures forall g :: g in r ==> g in facts || g == f
    ensures Distinct(facts) ==> Distinct(r)
  {
    if f in facts then facts else facts + [f]
  }

  predicate HasBranch(facts: seq<Fact>) {
    exists f :: f in facts && f.BranchFact?
  }

  predicate HasRecommendation(facts: seq<Fact>) {
    exists f :: f in facts && f.RecFact?
  }

  /** Position `k` holds a Recommendation and no later position does. */
  predicate IsLastRecommendation(facts: seq<Fact>, k: int) {
    && 0 <= k < |facts|
    && facts[k].RecFact?
    && forall m :: k < m < |facts| ==> !facts[m].RecFact?
  }

  /** The Recommendation declared last, or None when there is none. */
  function LastRecommendation(facts: seq<Fact>): (r: Option<Recommendation>)
    ensures r.None? <==> !HasRecommendation(facts)
    ensures r.Some? ==> RecFact(r.value) in facts
    ensures r.Some? ==> exists k :: IsLastRecommendation(facts, k) && facts[k].rec == r.value
  {
    if |facts| == 0 then None
    else
      var n := |facts| - 1;
      assert facts == facts[..n] + [facts[n]];
      if facts[n].RecFact? then
        assert IsLastRecommendation(facts, n);
        Some(facts[n].rec)
      else
        var r := LastRecommendation(facts[..n]);
        if r.Some? then
          var k :| IsLastRecommendation(facts[..n], k) && facts[..n][k].rec == r.value;
          assert IsLastRecommendation(facts, k);
          r
        else
          r
  }

  /** The elements of a sequence, as a set. */
  function Elements<T>(s: seq<T>): set<T> {
    set x | x in s
  }

  /** A sequence without repetitions has as many elements as positions. */
  lemma {:induction false} DistinctElements<T>(s: seq<T>)
    requires Distinct(s)
    ensures |Elements(s)| == |s|
  {
    if |s| > 0 {
      var n := |s| - 1;
      DistinctElements(s[..n]);
      assert Elements(s) == Elements(s[..n]) + {s[n]};
      assert s[n] !in Elements(s[..n]);
    }
  }

  /** A set drawn from the elements of `c` has at most `|c|` members. */
  lemma {:induction false} SubsetOfSeq<T>(xs: set<T>, c: seq<T>)
    requires forall x :: x in xs ==> x in c
    ensures |xs| <= |c|
  {
    if |c| == 0 {
      assert xs == {};
    } else {
      var n := |c| - 1;
      var rest := xs - {c[n]};
      forall x | x in rest ensures x in c[..n] {
        var i :| 0 <= i < |c| && c[i] == x;
        assert i < n;
      }
      SubsetOfSeq(rest, c[..n]);
    }
  }

  /** A sequence without repetitions drawn from `c` is no longer than `c`. */
  lemma DistinctWithin<T>(s: seq<T>, c: seq<T>)
    requires Distinct(s)
    requires forall x :: x in s ==> x in c
    ensures |s| <= |c|
  {
    DistinctElements(s);
    SubsetOfSeq(Elements(s), c);
  }
}
