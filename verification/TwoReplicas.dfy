// What goes wrong with two replicas of the repeatable reader: a replica that knows a dimension, but
// has not installed its newest run, takes that run's events away from the replica that has.
module TwoReplicas {
  import opened Plan
  import opened Bus
  import opened Journal
  import opened Repeatable
  import opened RepeatableSafety
  import opened RepeatableLoop

  const TWO_FRESH := System(EMPTY, map[0 := FRESH, 1 := FRESH])

  lemma TwoFreshReachable(setup: Setup)
    ensures Reachable(setup, TWO_FRESH)
  {
    var s0 := System(EMPTY, map[0 := FRESH]);
    assert Behavior(setup, [INIT], []) && [INIT][0] == INIT;
    assert Reachable(setup, INIT);
    assert INIT.replicas[0 := FRESH] == s0.replicas && s0.replicas[1 := FRESH] == TWO_FRESH.replicas;
    StepReaches(setup, INIT, Boot(0), s0);
    StepReaches(setup, s0, Boot(1), TWO_FRESH);
  }

  // Replica 1 starts a run of a dimension, then replica 0 starts a later one.
  lemma BothStart(setup: Setup, dim: string, run1: Run, run2: Run, input: string) returns (s: System)
    requires run1 != NIL_RUN && run2 != NIL_RUN && run1 != run2
    ensures Reachable(setup, s) && s.replicas.Keys == {0, 1}
    ensures s.bus.created == [StartOf(setup, dim, run1, input), StartOf(setup, dim, run2, input)]
    ensures s.bus.pending == {0, 1} && s.bus.completed == []
    ensures s.replicas[0] == AfterNew(setup, FRESH, dim, run2) && s.replicas[1] == AfterNew(setup, FRESH, dim, run1)
  {
    hide Plays;
    hide Reachable;
    hide ResetCells;
    hide TypeOf;
    TwoFreshReachable(setup);
    var acts1 := NewSteps(setup, EMPTY, FRESH, run1, dim, input, true);
    var b1 := Publish(EMPTY.(runs := EMPTY.runs + {run1}), StartOf(setup, dim, run1, input));
    var me1 := AfterNew(setup, FRESH, dim, run1);
    PlaysReaches(setup, TWO_FRESH, 1, acts1, b1, me1);
    var s1 := System(b1, TWO_FRESH.replicas[1 := me1]);
    var acts2 := NewSteps(setup, b1, FRESH, run2, dim, input, true);
    var b2 := Publish(b1.(runs := b1.runs + {run2}), StartOf(setup, dim, run2, input));
    var me0 := AfterNew(setup, FRESH, dim, run2);
    PlaysReaches(setup, s1, 0, acts2, b2, me0);
    s := System(b2, s1.replicas[0 := me0]);
    assert s.bus.created[0] == StartOf(setup, dim, run1, input);
  }

  // The ledger is append-only: what is there stays there.
  ghost predicate Extends(b: Ledger, b': Ledger) {
    b.created <= b'.created && b.completed <= b'.completed
  }

  // For every story: the start event of the newest run is delivered to the other replica, which
  // acknowledges it empty. The run is lost, though no write and no request has failed.
  lemma NewestRunIsLost(setup: Setup, dim: string, run1: Run, run2: Run, input: string)
    returns (s: System, s': System)
    requires Sound(setup.parts) && run1 != NIL_RUN && run2 != NIL_RUN && run1 != run2
    ensures Reachable(setup, s) && Reachable(setup, s')
    ensures s.bus.created == [StartOf(setup, dim, run1, input), StartOf(setup, dim, run2, input)]
    ensures CanStep(setup, s, Step(1, Check(0, 1))) && s' == Apply(setup, s, Step(1, Check(0, 1)))
    ensures s'.bus.completed == [Inert(1)] && s'.replicas == s.replicas
    ensures forall t: System :: Reachable(setup, t) && Extends(s'.bus, t.bus) ==>
      forall n :: !CompletedIn(t.bus, n, run2)
  {
    hide Sound;
    hide Reachable;
    hide ResetCells;
    hide TypeOf;
    hide CompletedIn;
    s := BothStart(setup, dim, run1, run2, input);
    var step := Step(1, Check(0, 1));
    s' := Apply(setup, s, step);
    assert s.replicas[1 := s.replicas[1]] == s.replicas;
    StepReaches(setup, s, step, s');
    forall t: System | Reachable(setup, t) && Extends(s'.bus, t.bus)
      ensures forall n :: !CompletedIn(t.bus, n, run2)
    {
      assert t.bus.completed[0] == Inert(1) && t.bus.created[1] == StartOf(setup, dim, run2, input);
      EmptyStartLosesRun(setup, t, 0, 1);
    }
  }
}
