/**
 * The job advisor engine object: its fact store and trace grow in place, and
 * `Advise` seeds one profile, runs the engine and picks the last
 * Recommendation. Each method is proved against the functions of Agenda.
 */
module Engine {
  import opened Facts
  import opened Rules
  import opened Agenda
  import opened RunSteps

  /** The safety cap on firings per run. */
  const MaxCycles: nat := 500

  class JobAdvisorEngine {
    var facts: seq<Fact>
    var reasons: seq<string>
    var fired: set<Activation>

    /** The engine's state as a value. */
    function Snapshot(): State
      reads this
    {
      State(facts, reasons, fired)
    }

    constructor ()
      ensures facts == [] && reasons == [] && fired == {}
    {
      facts, reasons, fired := [], [], {};
    }

    method Declare(f: Fact)
      modifies this
      ensures facts == Facts.Declare(old(facts), f)
      ensures reasons == old(reasons) && fired == old(fired)
    {
      if f !in facts {
        facts := facts + [f];
      }
    }

    /** Runs the action of `a` against the store and marks `a` as fired. */
    method FireActivation(a: Activation)
      requires Seeded(facts)
      modifies this
      ensures Snapshot() == Fire(old(Snapshot()), a)
    {
      match Action(facts[0].profile, a.rule) {
        case Some(f) =>
          Declare(f.declared);
          reasons := reasons + [f.line];
        case None =>
      }
      fired := fired + {a};
    }

    /**
     * Fires the activations the strategy `pick` selects until it finds none
     * or `cap` firings are spent. Advise runs it with the agenda's Select.
     */
    method Run(pick: State -> Option<Activation>, cap: nat) returns (outcome: Outcome)
      requires Seeded(facts)
      modifies this
      ensures Seeded(facts)
      ensures (Snapshot(), outcome) == Agenda.Run(pick, old(Snapshot()), cap)
    {
      ghost var start := Snapshot();
      var left := cap;
      while true
        invariant Seeded(facts)
        invariant Settle(pick, Snapshot(), left) == Settle(pick, start, cap)
        decreases left
      {
        var next := pick(Snapshot());
        if next.None? {
          RunStopsAt(pick, start, cap, Snapshot(), left);
          return Fixpoint;
        }
        if left == 0 {
          RunStopsAt(pick, start, cap, Snapshot(), left);
          return CapExceeded;
        }
        ghost var before, fuel := Snapshot(), left;
        FireActivation(next.value);
        SettleFire(pick, before, fuel, next.value, Snapshot());
        left := left - 1;
      }
    }
  }

  /** What advise hands back: the chosen Recommendation, the trace, and whether the run reached a fixpoint. */
  datatype Advice = Advice(rec: Option<Recommendation>, trace: seq<string>, outcome: Outcome)

  function AdviceFor(p: Profile): Advice {
    var (s, outcome) := Agenda.Run(Select, Seed(p), MaxCycles);
    Advice(LastRecommendation(s.facts), s.trace, outcome)
  }

  /** Walks the store in declaration order, keeping the last Recommendation seen. */
  method ScanLastRecommendation(facts: seq<Fact>) returns (rec: Option<Recommendation>)
    ensures rec == LastRecommendation(facts)
  {
    rec := None;
    for i := 0 to |facts|
      invariant rec == LastRecommendation(facts[..i])
    {
      assert facts[..i + 1][..i] == facts[..i];
      if facts[i].RecFact? {
        rec := Some(facts[i].rec);
      }
    }
    assert facts[..|facts|] == facts;
  }

  /** Seeds `p`, runs a fresh engine and picks the last Recommendation of its store. */
  method Advise(p: Profile) returns (rec: Option<Recommendation>, trace: seq<string>, outcome: Outcome)
    ensures Advice(rec, trace, outcome) == AdviceFor(p)
  {
    var engine := new JobAdvisorEngine();
    engine.Declare(ProfileFact(p));
    assert engine.Snapshot() == Seed(p);
    outcome := engine.Run(Select, MaxCycles);
    rec := ScanLastRecommendation(engine.facts);
    trace := engine.reasons;
  }
}
