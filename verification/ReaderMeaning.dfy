// The plain reader computes what its story says: which input a run has, and what that makes of
// every part, in every behavior.
module ReaderMeaning {
  import opened Options
  import opened Story
  import opened Acceptance
  import opened Plan
  import opened Bus
  import opened Journal
  import opened Adapters
  import opened Meaning
  import opened Reader

  // No event of a run that has not been drawn.
  lemma NoEventsYet(setup: Setup, b: Ledger, run: Run)
    requires LedgerOk(setup, b) && run !in b.runs
    ensures forall k :: 0 <= k < |b.created| ==> b.created[k].run != run
    ensures run !in b.runs
  {
    hide RightPayload;
  }

  lemma WritesNoStart(setup: Setup, s: System, r: nat)
    requires Invariant(setup, s) && r in s.replicas && s.replicas[r].work.Writing?
    ensures s.replicas[r].work.event.part != START
  {
    hide LedgerOk;
    assert ReplicaOk(setup, s.bus, s.replicas[r]);
  }

  // The START event of a run carries exactly the input that the run was drawn with, under the type
  // of the adapter named Start.
  lemma {:induction false} StartCarriesInput(setup: Setup, states: seq<System>, steps: seq<Step>, i: nat, run: Run,
                                             input: string, a: Adapter, j: nat)
    requires Sound(setup.parts) && Behavior(setup, states, steps) && states[0] == INIT && i < j <= |steps|
    requires steps[i] == StartRun(run, input) && GetAdapter(START_ADAPTER, setup.adapters) == Some(a)
    ensures run in states[j].bus.runs
    ensures forall e :: e in states[j].bus.created && e.part == START && e.run == run ==>
              e == Event("", START, run, [Data(a.typ, input)])
    decreases j
  {
    hide Sound;
    hide Invariant;
    var l := j - 1;
    assert Enabled(setup, states[l], steps[l]) && states[j] == Apply(setup, states[l], steps[l]);
    assert Invariant(setup, INIT) by { NothingYet(setup); }
    BehaviorKeeps(setup, states, steps, l);
    if i < l {
      StartCarriesInput(setup, states, steps, i, run, input, a, l);
      if steps[l].Write? { WritesNoStart(setup, states[l], steps[l].rep); }
    } else {
      assert LedgerOk(setup, states[l].bus) by { LedgerOfInvariant(setup, states[l]); }
      NoEventsYet(setup, states[l].bus, run);
    }
  }

  lemma NothingYet(setup: Setup)
    ensures Invariant(setup, INIT)
  {
  }

  lemma LedgerOfInvariant(setup: Setup, s: System)
    requires Invariant(setup, s)
    ensures LedgerOk(setup, s.bus) && JournalOk(setup, s.bus)
  {
  }

  // Every acknowledgement carries what executing the event's part returned.
  ghost predicate Truthful(setup: Setup, code: Code, states: seq<System>, steps: seq<Step>)
    requires Behavior(setup, states, steps)
  {
    forall m :: 0 <= m < |steps| && steps[m].Ack? ==>
      var e := states[m].bus.created[steps[m].event];
      Execution(setup, code, e.part, e.data) == Returned(steps[m].out)
  }

  lemma StepGrows(setup: Setup, code: Code, s: System, step: Step, run: Run, start: Data)
    requires Invariant(setup, s) && Enabled(setup, s, step)
    requires step.Ack? ==>
        var e := s.bus.created[step.event]; Execution(setup, code, e.part, e.data) == Returned(step.out)
    requires forall e :: e in Apply(setup, s, step).bus.created && e.part == START && e.run == run ==> e.data == [start]
    ensures Grows(setup, code, s.bus, Apply(setup, s, step).bus, run, start)
  {
    hide Execution;
    hide Invariant;
    hide TypeOf;
    hide StartType;
    var b' := Apply(setup, s, step).bus;
    assert |b'.created| > |s.bus.created| ==> b'.created[|s.bus.created|] in b'.created;
  }

  // In every behavior of any number of replicas, whatever the order and however often events are
  // delivered: what a run's parts are executed on and what they give is what the story says for
  // the run's input.
  lemma {:induction false} StoryComputes(setup: Setup, code: Code, states: seq<System>, steps: seq<Step>, i: nat,
                                         run: Run, input: string, a: Adapter, j: nat)
    requires Sound(setup.parts) && Behavior(setup, states, steps) && states[0] == INIT && j <= |steps|
    requires i < |steps| && steps[i] == StartRun(run, input)
    requires GetAdapter(START_ADAPTER, setup.adapters) == Some(a) && Truthful(setup, code, states, steps)
    ensures Computed(setup, code, states[j].bus, run, Data(a.typ, input))
  {
    hide Sound;
    hide Invariant;
    hide Grows;
    hide Execution;
    hide Computed;
    hide Apply;
    hide Enabled;
    var start := Data(a.typ, input);
    assert Invariant(setup, INIT) by { NothingYet(setup); }
    if j == 0 {
      assert Computed(setup, code, EMPTY, run, start) by { NothingComputed(setup, code, run, start); }
    } else {
      var l := j - 1;
      assert Enabled(setup, states[l], steps[l]) && states[j] == Apply(setup, states[l], steps[l]);
      StoryComputes(setup, code, states, steps, i, run, input, a, l);
      BehaviorKeeps(setup, states, steps, l);
      BehaviorKeeps(setup, states, steps, j);
      StartsWithInput(setup, states, steps, i, run, input, a, j);
      StepGrows(setup, code, states[l], steps[l], run, start);
      LedgerOfInvariant(setup, states[j]);
      GrowthComputes(setup, code, states[l].bus, states[j].bus, run, start);
    }
  }

  // The same before the run is drawn, when it has no events.
  lemma StartsWithInput(setup: Setup, states: seq<System>, steps: seq<Step>, i: nat, run: Run, input: string,
                        a: Adapter,
                        j: nat)
    requires Sound(setup.parts) && Behavior(setup, states, steps) && states[0] == INIT && j <= |steps|
    requires i < |steps| && steps[i] == StartRun(run, input) && GetAdapter(START_ADAPTER, setup.adapters) == Some(a)
    ensures forall e :: e in states[j].bus.created && e.part == START && e.run == run ==> e.data == [Data(a.typ, input)]
  {
    hide Sound;
    hide Invariant;
    if i < j {
      StartCarriesInput(setup, states, steps, i, run, input, a, j);
    } else {
      assert Invariant(setup, INIT) by { NothingYet(setup); }
      BehaviorKeeps(setup, states, steps, j);
      NotDrawnBefore(setup, states, steps, i, run, j);
      LedgerOfInvariant(setup, states[j]);
      NoEventsYet(setup, states[j].bus, run);
    }
  }

  lemma {:induction false} NotDrawnBefore(setup: Setup, states: seq<System>, steps: seq<Step>, i: nat, run: Run, j: nat)
    requires Behavior(setup, states, steps) && j <= i < |steps| && steps[i].StartRun? && steps[i].run == run
    ensures run !in states[j].bus.runs
    decreases i - j
  {
    assert Enabled(setup, states[i], steps[i]);
    if j < i {
      NotDrawnBefore(setup, states, steps, i, run, j + 1);
      assert Enabled(setup, states[j], steps[j]) && states[j + 1] == Apply(setup, states[j], steps[j]);
    }
  }
}
