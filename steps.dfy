/** How the run loop advances, one firing at a time. */
module RunSteps {
  import opened Facts
  import opened Agenda

  /** The loop stops where it is at a fixpoint or once the fuel is spent. */
  lemma SettleStops(pick: State -> Option<Activation>, s: State, fuel: nat)
    requires Seeded(s.facts) && (pick(s).None? || fuel == 0)
    ensures Settle(pick, s, fuel) == s
  {
  }

  /** Firing the selected activation `a` spends one unit of fuel. */
  lemma SettleFire(pick: State -> Option<Activation>, s: State, fuel: nat, a: Activation, t: State)
    requires Seeded(s.facts) && pick(s) == Some(a) && fuel > 0
    requires t == Fire(s, a)
    ensures Settle(pick, t, fuel - 1) == Settle(pick, s, fuel)
  {
  }

  /** A loop state from which `start` settles, and which cannot step further, is where the run of `start` ends. */
  lemma RunStopsAt(pick: State -> Option<Activation>, start: State, cap: nat, s: State, fuel: nat)
    requires Seeded(start.facts) && Seeded(s.facts) && (pick(s).None? || fuel == 0)
    requires Settle(pick, s, fuel) == Settle(pick, start, cap)
    ensures Run(pick, start, cap) == (s, if pick(s).None? then Fixpoint else CapExceeded)
  {
    SettleStops(pick, s, fuel);
  }

  /** A property every firing of the picked activation preserves holds of the state the run stops in. */
  lemma {:induction false} RunKeeps(P: State -> bool, pick: State -> Option<Activation>, s: State, fuel: nat)
    requires Seeded(s.facts) && P(s)
    requires forall x: State, a :: Seeded(x.facts) && P(x) && pick(x) == Some(a) ==> P(Fire(x, a))
    ensures P(Settle(pick, s, fuel))
    decreases fuel
  {
    if pick(s).Some? && fuel > 0 {
      var a := pick(s).value;
      var t := Fire(s, a);
      RunKeeps(P, pick, t, fuel - 1);
      SettleFire(pick, s, fuel, a, t);
    } else {
      SettleStops(pick, s, fuel);
    }
  }

  /**
   * When the strategy only picks activations that have not fired yet, every
   * firing adds to the fired set, so a run stopped short of a fixpoint has
   * spent all its fuel.
   */
  lemma {:induction false} SettleCounts(pick: State -> Option<Activation>, s: State, fuel: nat)
    requires Seeded(s.facts)
    requires forall x: State, a :: Seeded(x.facts) && pick(x) == Some(a) ==> a !in x.fired
    ensures var r := Settle(pick, s, fuel); pick(r).None? || |r.fired| == |s.fired| + fuel
    decreases fuel
  {
    if pick(s).Some? && fuel > 0 {
      var a := pick(s).value;
      var t := Fire(s, a);
      assert |t.fired| == |s.fired| + 1;
      SettleCounts(pick, t, fuel - 1);
      SettleFire(pick, s, fuel, a, t);
    } else {
      SettleStops(pick, s, fuel);
    }
  }

  /** A salience-first strategy only picks activations that have not fired yet (refraction). */
  lemma PicksFresh(pick: State -> Option<Activation>)
    requires SalienceFirst(pick)
    ensures forall x: State, a :: Seeded(x.facts) && pick(x) == Some(a) ==> a !in x.fired
  {
    forall x: State, a | Seeded(x.facts) && pick(x) == Some(a)
      ensures a !in x.fired
    {
      assert Eligible(x, a);
    }
  }

  /**
   * When, on every preserved state with something left to fire, fewer than
   * `bound` activations have fired, a run of a strategy that picks only
   * fresh activations, with `bound` firings to spare, ends at a fixpoint.
   */
  lemma RunEnds(P: State -> bool, pick: State -> Option<Activation>, bound: nat, s: State, fuel: nat)
    requires Seeded(s.facts) && P(s)
    requires forall x: State, a :: Seeded(x.facts) && P(x) && pick(x) == Some(a) ==> P(Fire(x, a))
    requires forall x: State, a :: Seeded(x.facts) && pick(x) == Some(a) ==> a !in x.fired
    requires forall x: State :: Seeded(x.facts) && P(x) && pick(x).Some? ==> |x.fired| < bound
    requires fuel + |s.fired| >= bound
    ensures Run(pick, s, fuel).1 == Fixpoint
  {
    RunKeeps(P, pick, s, fuel);
    SettleCounts(pick, s, fuel);
  }

  /** The run only ever adds to the store, the trace and the fired set. */
  lemma RunGrows(s: State, fuel: nat)
    requires Seeded(s.facts)
    ensures var r := Run(Select, s, fuel).0;
      s.facts <= r.facts && s.trace <= r.trace && s.fired <= r.fired
  {
    var grown := (x: State) => s.facts <= x.facts && s.trace <= x.trace && s.fired <= x.fired;
    forall x: State, a | Seeded(x.facts) && grown(x) && Select(x) == Some(a)
      ensures grown(Fire(x, a))
    {
    }
    RunKeeps(grown, Select, s, fuel);
  }
}
