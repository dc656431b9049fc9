// The repeatable reader computes what its story says, run by run, whatever is restarted when.
module RepeatableMeaning {
  import opened Options
  import opened Story
  import opened Acceptance
  import opened Plan
  import opened Bus
  import opened Journal
  import opened Adapters
  import opened Meaning
  import opened Repeatable
  import opened RepeatableInvariant
  import opened Fencing

  // Whoever has an rr.New call for the run under way has it for this dimension and input.
  ghost predicate AsOpened(s: System, x: Run, d: string, input: string) {
    forall r :: r in s.replicas && x in s.replicas[r].starters ==>
      s.replicas[r].starters[x].dim == d && s.replicas[r].starters[x].input == input
  }

  ghost predicate StartsAs(b: Ledger, x: Run, first: Event) {
    forall e :: e in b.created && e.part == START && e.run == x ==> e == first
  }

  lemma StartersStay(setup: Setup, b: Ledger, me: Replica, act: Action, x: Run)
    requires Enabled(setup, b, me, act) && x in Act(setup, b, me, act).1.starters
    ensures (x in me.starters && Act(setup, b, me, act).1.starters[x].dim == me.starters[x].dim
             && Act(setup, b, me, act).1.starters[x].input == me.starters[x].input)
            || (act.Open? && act.run == x && Act(setup, b, me, act).1.starters[x] == Opened(act.dim, act.input))
  {
    hide Usable;
    hide PartIdList;
    hide ResetState;
    hide StartType;
  }

  // No rr.New call and no event of a run that has not been drawn.
  lemma NothingOfUndrawn(setup: Setup, s: System, x: Run)
    requires Invariant(setup, s) && x !in s.bus.runs
    ensures forall r :: r in s.replicas ==> x !in s.replicas[r].starters
    ensures forall k :: 0 <= k < |s.bus.created| ==> s.bus.created[k].run != x
  {
    hide BusOk;
    assert JournalOk(setup, s.bus) by { JournalOfInvariant(setup, s); }
    forall r | r in s.replicas ensures x !in s.replicas[r].starters {
      assert ReplicaOk(setup, s.bus, s.replicas[r]);
      RunsAndStarters(setup, s.bus, s.replicas[r]);
    }
    assert forall k :: 0 <= k < |s.bus.created| ==> s.bus.created[k].run in s.bus.runs;
  }

  lemma JournalOfInvariant(setup: Setup, s: System)
    requires Invariant(setup, s)
    ensures JournalOk(setup, s.bus)
  {
    hide JournalOk;
  }

  lemma SendsNoStart(setup: Setup, b: Ledger, me: Replica)
    requires ReplicaOk(setup, b, me) && me.loop.Writing?
    ensures me.loop.event.part != START
  {
  }

  // The event that a step creates, if it creates one, is the start of an rr.New call under way or
  // not a start.
  lemma StepStartsAs(setup: Setup, s: System, step: Step, x: Run, d: string, input: string, a: Adapter)
    requires Invariant(setup, s) && CanStep(setup, s, step) && step.Step?
    requires GetAdapter(START_ADAPTER, setup.adapters) == Some(a)
    requires AsOpened(s, x, d, input) && StartsAs(s.bus, x, Event(d, START, x, [Data(a.typ, input)]))
    ensures StartsAs(Apply(setup, s, step).bus, x, Event(d, START, x, [Data(a.typ, input)]))
  {
    hide Act;
    hide Enabled;
    hide ReplicaOk;
    hide BusOk;
    var me := s.replicas[step.rep];
    CreatedAfter(setup, s.bus, me, step.act);
    if step.act.Send? {
      assert me.loop.Writing? by { LoopOf(setup, s.bus, me, step.act); }
      SendsNoStart(setup, s.bus, me);
    }
    if step.act.Launch? {
      assert step.act.run in me.starters by { LoopOf(setup, s.bus, me, step.act); }
    }
  }

  lemma LoopOf(setup: Setup, b: Ledger, me: Replica, act: Action)
    requires Enabled(setup, b, me, act)
    ensures act.Send? ==> me.loop.Writing?
    ensures act.Launch? ==> act.run in me.starters
  {
  }

  lemma StepKeepsOpened(setup: Setup, s: System, step: Step, x: Run, d: string, input: string)
    requires CanStep(setup, s, step) && AsOpened(s, x, d, input)
    requires step.Step? && step.act.Open? && step.act.run == x ==> step.act.dim == d && step.act.input == input
    ensures AsOpened(Apply(setup, s, step), x, d, input)
  {
    hide Act;
    hide Enabled;
    var s' := Apply(setup, s, step);
    forall r | r in s'.replicas && x in s'.replicas[r].starters
      ensures s'.replicas[r].starters[x].dim == d && s'.replicas[r].starters[x].input == input
    {
      if step.Step? && r == step.rep {
        StartersStay(setup, s.bus, s.replicas[r], step.act, x);
      }
    }
  }

  // Once drawn, a run is not drawn again.
  lemma RunsGrow(setup: Setup, s: System, step: Step)
    requires CanStep(setup, s, step)
    ensures s.bus.runs <= Apply(setup, s, step).bus.runs
    ensures step.Step? && step.act.Open? ==>
              step.act.run !in s.bus.runs && step.act.run in Apply(setup, s, step).bus.runs
  {
    hide Act;
    if step.Step? {
      CreatedAfter(setup, s.bus, s.replicas[step.rep], step.act);
      if step.act.Open? { OpenDraws(setup, s.bus, s.replicas[step.rep], step.act); }
    }
  }

  lemma OpenDraws(setup: Setup, b: Ledger, me: Replica, act: Action)
    requires Enabled(setup, b, me, act) && act.Open?
    ensures act.run !in b.runs && act.run in Act(setup, b, me, act).0.runs
  {
  }

  lemma {:induction false} OpenedOnce(setup: Setup, states: seq<System>, steps: seq<Step>, q: nat, x: Run, d: string,
                                      input: string, i: nat, j: nat)
    requires Behavior(setup, states, steps) && i < |steps| && steps[i] == Step(q, Open(x, d, input)) && j <= |steps|
    ensures x in states[j].bus.runs <==> i < j
    decreases if j <= i then i - j else j
  {
    hide Apply;
    if j < i {
      OpenedOnce(setup, states, steps, q, x, d, input, i, j + 1);
      assert states[j + 1] == Apply(setup, states[j], steps[j]) && CanStep(setup, states[j], steps[j]);
      RunsGrow(setup, states[j], steps[j]);
    } else {
      var l := if j == i then i else j - 1;
      assert states[l + 1] == Apply(setup, states[l], steps[l]) && CanStep(setup, states[l], steps[l]);
      RunsGrow(setup, states[l], steps[l]);
      if i < l { OpenedOnce(setup, states, steps, q, x, d, input, i, l); }
    }
  }

  // The START event of a run, in whatever replica it is written, carries exactly the input that
  // the run was drawn with, in that dimension and under the type of the adapter named Start.
  lemma {:induction false} StartCarriesInput(setup: Setup, states: seq<System>, steps: seq<Step>, q: nat, x: Run,
                                             d: string, input: string, a: Adapter, i: nat, j: nat)
    requires Sound(setup.parts) && Behavior(setup, states, steps) && states[0] == INIT
    requires i < |steps| && steps[i] == Step(q, Open(x, d, input)) && j <= |steps|
    requires GetAdapter(START_ADAPTER, setup.adapters) == Some(a)
    ensures AsOpened(states[j], x, d, input)
    ensures StartsAs(states[j].bus, x, Event(d, START, x, [Data(a.typ, input)]))
    decreases j
  {
    hide Sound;
    hide Invariant;
    hide Apply;
    hide CanStep;
    assert Invariant(setup, INIT) by { NothingYet(setup); }
    BehaviorKeeps(setup, states, steps, j);
    if j <= i {
      OpenedOnce(setup, states, steps, q, x, d, input, i, j);
      NothingOfUndrawn(setup, states[j], x);
    } else {
      var l := j - 1;
      assert states[j] == Apply(setup, states[l], steps[l]) && CanStep(setup, states[l], steps[l]);
      BehaviorKeeps(setup, states, steps, l);
      OpenedOnce(setup, states, steps, q, x, d, input, i, l);
      StartCarriesInput(setup, states, steps, q, x, d, input, a, i, l);
      if i < l { RunsGrow(setup, states[l], steps[l]); }
      StepKeepsOpened(setup, states[l], steps[l], x, d, input);
      if steps[l].Step? {
        StepStartsAs(setup, states[l], steps[l], x, d, input, a);
      } else {
        assert states[j].bus == states[l].bus by { BootKeepsBus(setup, states[l], steps[l]); }
      }
    }
  }

  lemma BootKeepsBus(setup: Setup, s: System, step: Step)
    requires CanStep(setup, s, step) && step.Boot?
    ensures Apply(setup, s, step).bus == s.bus
  {
  }

  lemma NothingYet(setup: Setup)
    ensures Invariant(setup, INIT)
  {
    EmptyBusOk(setup);
  }

  // ----- what is computed -----

  // A worker acknowledges with what executing its event's part returned.
  ghost predicate Truthful(setup: Setup, code: Code, states: seq<System>, steps: seq<Step>)
    requires Behavior(setup, states, steps)
  {
    forall m {:trigger steps[m]} :: 0 <= m < |steps| ==> TruthfulStep(setup, code, states[m], steps[m])
  }

  ghost predicate TruthfulStep(setup: Setup, code: Code, s: System, step: Step)
    requires CanStep(setup, s, step)
  {
    step.Step? && step.act.Finish? ==>
      var e := s.bus.created[s.replicas[step.rep].workers[step.act.worker].event];
      Execution(setup, code, e.part, e.data) == Returned(step.act.out)
  }

  lemma StepGrows(setup: Setup, code: Code, s: System, step: Step, x: Run, first: Event, start: Data)
    requires CanStep(setup, s, step) && TruthfulStep(setup, code, s, step) && x != NIL_RUN
    requires StartsAs(Apply(setup, s, step).bus, x, first) && first.data == [start]
    ensures Grows(setup, code, s.bus, Apply(setup, s, step).bus, x, start)
  {
    hide Execution;
    hide TypeOf;
    hide StartType;
    hide Usable;
    hide PartIdList;
    hide ResetState;
    var b' := Apply(setup, s, step).bus;
    assert |b'.created| > |s.bus.created| ==> b'.created[|s.bus.created|] in b'.created;
  }

  // In every behavior of any number of replicas, through restarts, reboots and redeliveries: what a
  // run's parts are executed on and what they give is what the story says for the run's input.
  lemma {:induction false} StoryComputes(setup: Setup, code: Code, states: seq<System>, steps: seq<Step>, q: nat,
                                         x: Run,
                                         d: string, input: string, a: Adapter, i: nat, j: nat)
    requires Sound(setup.parts) && Behavior(setup, states, steps) && states[0] == INIT && j <= |steps|
    requires i < |steps| && steps[i] == Step(q, Open(x, d, input)) && x != NIL_RUN
    requires GetAdapter(START_ADAPTER, setup.adapters) == Some(a) && Truthful(setup, code, states, steps)
    ensures Computed(setup, code, states[j].bus, x, Data(a.typ, input))
  {
    hide Sound;
    hide Invariant;
    hide Grows;
    hide Execution;
    hide Computed;
    hide Apply;
    hide CanStep;
    hide TruthfulStep;
    hide StartsAs;
    var start := Data(a.typ, input);
    var first := Event(d, START, x, [start]);
    assert Invariant(setup, INIT) by { NothingYet(setup); }
    if j == 0 {
      assert Computed(setup, code, EMPTY, x, start) by { NothingComputed(setup, code, x, start); }
    } else {
      var l := j - 1;
      assert CanStep(setup, states[l], steps[l]) && states[j] == Apply(setup, states[l], steps[l]);
      StoryComputes(setup, code, states, steps, q, x, d, input, a, i, l);
      BehaviorKeeps(setup, states, steps, j);
      StartCarriesInput(setup, states, steps, q, x, d, input, a, i, j);
      StepGrows(setup, code, states[l], steps[l], x, first, start);
      JournalOfInvariant(setup, states[j]);
      GrowthComputes(setup, code, states[l].bus, states[j].bus, x, start);
    }
  }
}
