// Restart fencing, over every behavior of any number of replicas: which replica executes an event
// and which one acknowledges it empty is told by who has installed the event's run.
module Fencing {
  import opened Story
  import opened Plan
  import opened Bus
  import opened Journal
  import opened Repeatable
  import opened RepeatableInvariant

  // The run is the current one of some dimension of the replica.
  ghost predicate Holds(m: Replica, x: Run) {
    exists d :: d in m.dims && m.dims[d].run == x
  }

  ghost predicate HeldBy(s: System, q: nat, x: Run) {
    q in s.replicas && Holds(s.replicas[q], x)
  }

  // The completed loop is at work on the run.
  ghost predicate Busy(l: Loop, x: Run) {
    match l
    case Idle => false
    case Checked(c) => c.run == x
    case Joining(_, run, rest) => run == x && rest != []
    case Reading(_, run, _, _, _) => run == x
    case Writing(e, _) => e.run == x
  }

  ghost predicate Claims(m: Replica, x: Run) {
    Holds(m, x) || x in m.starters || Busy(m.loop, x)
  }

  // Requests are granted only to runs that have events.
  ghost predicate GrantsLive(b: Ledger) {
    forall n, x: Run :: ConsId(n, x) in b.granted ==> exists k :: 0 <= k < |b.created| && b.created[k].run == x
  }

  // A run that is held has its events in the dimension that it is current in, and its rr.New call
  // is for that dimension.
  ghost predicate InPlace(b: Ledger, m: Replica) {
    forall d :: d in m.dims && m.dims[d].run != NIL_RUN ==> LivesOnlyIn(b, m, m.dims[d].run, d)
  }

  ghost predicate LivesOnlyIn(b: Ledger, m: Replica, x: Run, d: string) {
    && (forall k :: 0 <= k < |b.created| && b.created[k].run == x ==> b.created[k].dim == d)
    && (x in m.starters ==> m.starters[x].dim == d)
  }

  // No two replicas claim the same run.
  ghost predicate Exclusive(s: System) {
    forall q, r, x :: q in s.replicas && r in s.replicas && q != r && x != NIL_RUN ==>
      !Claims(s.replicas[q], x) || !Claims(s.replicas[r], x)
  }

  ghost predicate Fenced(setup: Setup, s: System) {
    && Invariant(setup, s)
    && Exclusive(s)
    && GrantsLive(s.bus)
    && (forall q :: q in s.replicas ==> InPlace(s.bus, s.replicas[q]))
  }

  // ----- one action -----

  // The run that an action takes away from its replica; NIL_RUN if it takes none.
  function Replaced(setup: Setup, b: Ledger, me: Replica, act: Action): Run
    requires Enabled(setup, b, me, act)
  {
    if act.Swap? then me.dims[me.starters[act.run].dim].run else NIL_RUN
  }

  // What a replica holds changes by Swap only.
  lemma HoldsAfter(setup: Setup, b: Ledger, me: Replica, act: Action, x: Run)
    requires ReplicaOk(setup, b, me) && Enabled(setup, b, me, act) && x != NIL_RUN
    ensures var me' := Act(setup, b, me, act).1;
      Holds(me', x) <==> act == Swap(x) || (Holds(me, x) && Replaced(setup, b, me, act) != x)
  {
    hide ReplicaOk;
    hide Act;
    var me' := Act(setup, b, me, act).1;
    if act.Swap? {
      assert RunsOk(b, me) && StartersOk(b, me) by { RunsAndStarters(setup, b, me); }
      SwapHolds(setup, b, me, act.run, x);
    } else {
      RunsStay(setup, b, me, act);
      if Holds(me, x) {
        var d :| d in me.dims && me.dims[d].run == x;
        assert me'.dims[d].run == x;
      }
      if Holds(me', x) {
        var d :| d in me'.dims && me'.dims[d].run == x;
        assert me.dims[d].run == x;
      }
    }
  }

  lemma RunsAndStarters(setup: Setup, b: Ledger, me: Replica)
    requires ReplicaOk(setup, b, me)
    ensures RunsOk(b, me) && StartersOk(b, me)
  {
  }

  // No other action changes the run of a dimension, and a new dimension has none.
  lemma RunsStay(setup: Setup, b: Ledger, me: Replica, act: Action)
    requires Enabled(setup, b, me, act) && !act.Swap?
    ensures var dims' := Act(setup, b, me, act).1.dims;
      && me.dims.Keys <= dims'.Keys
      && forall d :: d in dims' ==> if d in me.dims then dims'[d].run == me.dims[d].run else dims'[d].run == NIL_RUN
  {
    hide Usable;
    hide PartIdList;
    hide TypeOf;
  }

  lemma SwapHolds(setup: Setup, b: Ledger, me: Replica, run: Run, x: Run)
    requires RunsOk(b, me) && StartersOk(b, me) && Enabled(setup, b, me, Swap(run)) && x != NIL_RUN
    ensures var me' := Act(setup, b, me, Swap(run)).1;
      Holds(me', x) <==> x == run || (Holds(me, x) && me.dims[me.starters[run].dim].run != x)
  {
    hide PartIdList;
    var d0 := me.starters[run].dim;
    var me' := Act(setup, b, me, Swap(run)).1;
    assert me'.dims[d0].run == run;
    if Holds(me, x) && me.dims[d0].run != x {
      var d :| d in me.dims && me.dims[d].run == x;
      assert me'.dims[d].run == x;
    }
    if Holds(me', x) && x != run {
      var d :| d in me'.dims && me'.dims[d].run == x;
      assert me.dims[d].run == x;
    }
  }

  // A replica claims nothing new but a run that it draws.
  lemma ClaimsAfter(setup: Setup, b: Ledger, me: Replica, act: Action, x: Run)
    requires ReplicaOk(setup, b, me) && Enabled(setup, b, me, act) && x != NIL_RUN
    ensures Claims(Act(setup, b, me, act).1, x) ==> Claims(me, x) || (act.Open? && act.run == x)
  {
    hide ReplicaOk;
    hide Act;
    hide Enabled;
    hide Holds;
    hide Busy;
    StartersAfter(setup, b, me, act);
    HoldsAfter(setup, b, me, act, x);
    BusyAfter(setup, b, me, act, x);
  }

  // The loop takes up a run only where it is held.
  lemma BusyAfter(setup: Setup, b: Ledger, me: Replica, act: Action, x: Run)
    requires Enabled(setup, b, me, act)
    ensures Busy(Act(setup, b, me, act).1.loop, x) ==> Busy(me.loop, x) || Holds(me, x)
  {
    hide Usable;
    hide PartIdList;
    hide TypeOf;
    hide ResetState;
  }

  lemma GrantedAfter(setup: Setup, b: Ledger, me: Replica, act: Action)
    requires Enabled(setup, b, me, act)
    ensures var b' := Act(setup, b, me, act).0;
      if act == Ask(true) then b'.granted == b.granted + {ConsId(me.loop.n, me.loop.run)} else b'.granted == b.granted
  {
    hide Usable;
    hide PartIdList;
    hide TypeOf;
    hide ResetState;
    hide ConsId;
  }

  lemma GrantsStayLive(setup: Setup, b: Ledger, me: Replica, act: Action)
    requires ReplicaOk(setup, b, me) && Enabled(setup, b, me, act) && GrantsLive(b)
    ensures GrantsLive(Act(setup, b, me, act).0)
  {
    hide Act;
    hide ReplicaOk;
    hide ConsId;
    var b' := Act(setup, b, me, act).0;
    GrantedAfter(setup, b, me, act);
    CreatedAfter(setup, b, me, act);
    assert b.created <= b'.created;
    forall n, x: Run | ConsId(n, x) in b'.granted ensures exists k :: 0 <= k < |b'.created| && b'.created[k].run == x {
      if ConsId(n, x) in b.granted {
        var k :| 0 <= k < |b.created| && b.created[k].run == x;
        assert b'.created[k].run == x;
      } else {
        ConsIdInjective(n, x, me.loop.n, me.loop.run);
        assert LivesIn(b, x, me.loop.dim) by { ReadingLives(setup, b, me); }
        var k :| 0 <= k < |b.created| && b.created[k].run == x;
        assert b'.created[k].run == x;
      }
    }
  }

  lemma ReadingLives(setup: Setup, b: Ledger, me: Replica)
    requires ReplicaOk(setup, b, me) && me.loop.Reading?
    ensures LivesIn(b, me.loop.run, me.loop.dim)
  {
  }

  lemma StartersAfter(setup: Setup, b: Ledger, me: Replica, act: Action)
    requires Enabled(setup, b, me, act)
    ensures var me' := Act(setup, b, me, act).1;
      && (forall x :: x in me'.starters ==> x in me.starters || (act.Open? && act.run == x))
      && (forall x :: x in me'.starters && x in me.starters && !act.Open? ==>
            me'.starters[x].dim == me.starters[x].dim)
      && (act.Swap? ==> act.run in me.starters)
      && (act.Open? ==> me'.starters == me.starters[act.run := Opened(act.dim, act.input)])
  {
    hide Usable;
    hide PartIdList;
    hide TypeOf;
    hide ResetState;
  }

  lemma ClaimedIsStarted(setup: Setup, b: Ledger, m: Replica, x: Run)
    requires ReplicaOk(setup, b, m) && x != NIL_RUN && Claims(m, x)
    ensures x in b.runs
  {
    hide RightPayload;
    hide PartialPayload;
    hide CellsOk;
    hide WorkersOk;
    hide Targets;
    hide OutputOf;
    if x !in m.starters && !Holds(m, x) {
      match m.loop
      case Idle =>
      case Checked(_) =>
      case Joining(_, _, _) =>
      case Reading(_, _, _, _, _) =>
      case Writing(e, _) => assert Held(b, e.part, x);
    }
  }

  // The events that an action creates.
  lemma CreatedAfter(setup: Setup, b: Ledger, me: Replica, act: Action)
    requires Enabled(setup, b, me, act)
    ensures var b' := Act(setup, b, me, act).0;
      && b.runs <= b'.runs
      && (b'.created == b.created
          || (act.Launch? && b'.created == b.created + [StartedBy(setup, me, act.run)])
          || (act.Send? && b'.created == b.created + [me.loop.event]))
  {
    hide Usable;
    hide PartIdList;
    hide TypeOf;
    hide ResetState;
  }

  function StartedBy(setup: Setup, me: Replica, run: Run): Event
    requires run in me.starters
  {
    Event(me.starters[run].dim, START, run, [Data(StartType(setup), me.starters[run].input)])
  }

  // ----- every step -----

  // The new event, if there is one, lies where the earlier ones of its run lie.
  lemma EventsStayInPlace(setup: Setup, b: Ledger, me: Replica, act: Action, m: Replica, x: Run, d: string)
    requires ReplicaOk(setup, b, me) && Enabled(setup, b, me, act) && LivesOnlyIn(b, m, x, d)
    requires act == Launch(x, true) ==> x in m.starters && m.starters[x].dim == me.starters[x].dim
    ensures var b' := Act(setup, b, me, act).0;
      forall k :: 0 <= k < |b'.created| && b'.created[k].run == x ==> b'.created[k].dim == d
  {
    hide ReplicaOk;
    hide Act;
    CreatedAfter(setup, b, me, act);
    if act.Send? && me.loop.event.run == x {
      assert LivesIn(b, x, me.loop.event.dim) by { WritingLives(setup, b, me); }
    }
    if act.Launch? && !act.ok {
      assert Act(setup, b, me, act).0 == b by { LaunchFails(setup, b, me, act.run); }
    }
  }

  lemma LaunchFails(setup: Setup, b: Ledger, me: Replica, run: Run)
    requires Enabled(setup, b, me, Launch(run, false))
    ensures Act(setup, b, me, Launch(run, false)).0 == b
  {
  }

  lemma WritingLives(setup: Setup, b: Ledger, me: Replica)
    requires ReplicaOk(setup, b, me) && me.loop.Writing?
    ensures LivesIn(b, me.loop.event.run, me.loop.event.dim)
  {
  }

  lemma ActorInPlace(setup: Setup, b: Ledger, me: Replica, act: Action)
    requires ReplicaOk(setup, b, me) && Enabled(setup, b, me, act) && InPlace(b, me)
    ensures InPlace(Act(setup, b, me, act).0, Act(setup, b, me, act).1)
  {
    hide Act;
    hide Enabled;
    hide ReplicaOk;
    hide LivesOnlyIn;
    var (b', me') := Act(setup, b, me, act);
    forall d | d in me'.dims && me'.dims[d].run != NIL_RUN ensures LivesOnlyIn(b', me', me'.dims[d].run, d) {
      ActorLives(setup, b, me, act, d);
    }
  }

  lemma ActorLives(setup: Setup, b: Ledger, me: Replica, act: Action, d: string)
    requires ReplicaOk(setup, b, me) && Enabled(setup, b, me, act) && InPlace(b, me)
    requires var me' := Act(setup, b, me, act).1; d in me'.dims && me'.dims[d].run != NIL_RUN
    ensures var (b', me') := Act(setup, b, me, act); LivesOnlyIn(b', me', me'.dims[d].run, d)
  {
    hide Act;
    var (b', me') := Act(setup, b, me, act);
    var x := me'.dims[d].run;
    StartersAfter(setup, b, me, act);
    CreatedAfter(setup, b, me, act);
    if act == Swap(x) {
      SwapPlaces(setup, b, me, x, d);
    } else {
      assert d in me.dims && me.dims[d].run == x by { DimsOfOthers(setup, b, me, act, d); }
      assert LivesOnlyIn(b, me, x, d);
      assert x in b.runs by { ClaimedIsStarted(setup, b, me, x); }
      EventsStayInPlace(setup, b, me, act, me, x, d);
    }
  }

  lemma DimsOfOthers(setup: Setup, b: Ledger, me: Replica, act: Action, d: string)
    requires Enabled(setup, b, me, act)
    requires var me' := Act(setup, b, me, act).1;
      d in me'.dims && me'.dims[d].run != NIL_RUN && act != Swap(me'.dims[d].run)
    ensures d in me.dims && me.dims[d].run == Act(setup, b, me, act).1.dims[d].run
  {
    hide PartIdList;
    if !act.Swap? {
      RunsStay(setup, b, me, act);
    }
  }

  lemma SwapPlaces(setup: Setup, b: Ledger, me: Replica, x: Run, d: string)
    requires ReplicaOk(setup, b, me) && Enabled(setup, b, me, Swap(x))
    requires var me' := Act(setup, b, me, Swap(x)).1; d in me'.dims && me'.dims[d].run == x
    ensures var (b', me') := Act(setup, b, me, Swap(x)); LivesOnlyIn(b', me', x, d)
  {
    hide PartIdList;
    hide CellsOk;
    hide LoopOk;
    hide WorkersOk;
  }

  lemma OthersInPlace(setup: Setup, b: Ledger, me: Replica, act: Action, m: Replica)
    requires ReplicaOk(setup, b, me) && Enabled(setup, b, me, act) && InPlace(b, m)
    requires forall x :: x != NIL_RUN ==> !Claims(me, x) || !Claims(m, x)
    ensures InPlace(Act(setup, b, me, act).0, m)
  {
    hide Act;
    hide ReplicaOk;
    var b' := Act(setup, b, me, act).0;
    forall d | d in m.dims && m.dims[d].run != NIL_RUN ensures LivesOnlyIn(b', m, m.dims[d].run, d) {
      var x := m.dims[d].run;
      assert Claims(m, x);
      assert !Claims(me, x);
      assert LivesOnlyIn(b, m, x, d);
      EventsStayInPlace(setup, b, me, act, m, x, d);
    }
  }

  lemma StepStaysFenced(setup: Setup, s: System, step: Step)
    requires Sound(setup.parts) && Fenced(setup, s) && CanStep(setup, s, step)
    ensures Fenced(setup, Apply(setup, s, step))
  {
    hide Sound;
    hide Act;
    hide Enabled;
    hide Invariant;
    hide InPlace;
    hide Claims;
    var s' := Apply(setup, s, step);
    StepKeeps(setup, s, step);
    forall q, r, x | q in s'.replicas && r in s'.replicas && q != r && x != NIL_RUN
      ensures !Claims(s'.replicas[q], x) || !Claims(s'.replicas[r], x)
    {
      ClaimsAfterStep(setup, s, step, q, x);
      ClaimsAfterStep(setup, s, step, r, x);
    }
    forall q | q in s'.replicas ensures InPlace(s'.bus, s'.replicas[q]) {
      InPlaceAfterStep(setup, s, step, q);
    }
    GrantsLiveAfterStep(setup, s, step);
  }

  lemma GrantsLiveAfterStep(setup: Setup, s: System, step: Step)
    requires Fenced(setup, s) && CanStep(setup, s, step)
    ensures GrantsLive(Apply(setup, s, step).bus)
  {
    hide Act;
    hide Enabled;
    hide ReplicaOk;
    hide BusOk;
    hide GrantsLive;
    if step.Step? {
      assert ReplicaOk(setup, s.bus, s.replicas[step.rep]);
      GrantsStayLive(setup, s.bus, s.replicas[step.rep], step.act);
    }
  }

  // Only the replica that draws a run comes to claim it, and none claimed it before.
  lemma ClaimsAfterStep(setup: Setup, s: System, step: Step, q: nat, x: Run)
    requires Invariant(setup, s) && CanStep(setup, s, step) && q in Apply(setup, s, step).replicas && x != NIL_RUN
    ensures Claims(Apply(setup, s, step).replicas[q], x) ==>
      || (q in s.replicas && Claims(s.replicas[q], x))
      || (step.Step? && step.rep == q && step.act.Open? && step.act.run == x
          && forall r :: r in s.replicas ==> !Claims(s.replicas[r], x))
  {
    hide Act;
    hide ReplicaOk;
    hide BusOk;
    if step.Step? && step.rep == q {
      assert ReplicaOk(setup, s.bus, s.replicas[q]);
      ClaimsAfter(setup, s.bus, s.replicas[q], step.act, x);
      if step.act.Open? && step.act.run == x {
        forall r | r in s.replicas ensures !Claims(s.replicas[r], x) {
          if Claims(s.replicas[r], x) { ClaimedIsStarted(setup, s.bus, s.replicas[r], x); }
        }
      }
    }
  }

  lemma InPlaceAfterStep(setup: Setup, s: System, step: Step, q: nat)
    requires Fenced(setup, s) && CanStep(setup, s, step) && q in Apply(setup, s, step).replicas
    ensures InPlace(Apply(setup, s, step).bus, Apply(setup, s, step).replicas[q])
  {
    hide Act;
    hide Enabled;
    hide ReplicaOk;
    hide BusOk;
    hide Claims;
    hide LivesOnlyIn;
    if step.Step? {
      assert ReplicaOk(setup, s.bus, s.replicas[step.rep]);
      if step.rep == q {
        ActorInPlace(setup, s.bus, s.replicas[q], step.act);
      } else {
        OthersInPlace(setup, s.bus, s.replicas[step.rep], step.act, s.replicas[q]);
      }
    }
  }

  lemma {:induction false} BehaviorIsFenced(setup: Setup, states: seq<System>, steps: seq<Step>, j: nat)
    requires Sound(setup.parts) && Behavior(setup, states, steps) && states[0] == INIT && j <= |steps|
    ensures Fenced(setup, states[j])
  {
    hide Sound;
    hide Apply;
    hide CanStep;
    if j == 0 {
      EmptyBusOk(setup);
    } else {
      BehaviorIsFenced(setup, states, steps, j - 1);
      assert CanStep(setup, states[j - 1], steps[j - 1]);
      StepStaysFenced(setup, states[j - 1], steps[j - 1]);
    }
  }

  // ----- who holds a run -----

  // The step ends the hold of replica q on the run: q installs another one in its place, or is
  // rebooted.
  ghost predicate Ends(setup: Setup, s: System, step: Step, q: nat, x: Run)
    requires CanStep(setup, s, step)
  {
    step == Boot(q)
    || (step.Step? && step.rep == q && Replaced(setup, s.bus, s.replicas[q], step.act) == x)
  }

  // Replica q installed the run at step i, and has since neither replaced it nor been rebooted.
  ghost predicate HeldSince(setup: Setup, states: seq<System>, steps: seq<Step>, q: nat, x: Run, i: nat, j: nat)
    requires Behavior(setup, states, steps) && j <= |steps|
  {
    && i < j && steps[i] == Step(q, Swap(x))
    && forall m :: i < m < j ==> !Ends(setup, states[m], steps[m], q, x)
  }

  lemma HeldAfterStep(setup: Setup, s: System, step: Step, q: nat, x: Run)
    requires Invariant(setup, s) && CanStep(setup, s, step) && x != NIL_RUN
    ensures HeldBy(Apply(setup, s, step), q, x) <==>
      step == Step(q, Swap(x)) || (HeldBy(s, q, x) && !Ends(setup, s, step, q, x))
  {
    hide Act;
    hide ReplicaOk;
    hide BusOk;
    hide Enabled;
    if step.Step? && step.rep == q {
      assert ReplicaOk(setup, s.bus, s.replicas[q]);
      HoldsAfter(setup, s.bus, s.replicas[q], step.act, x);
    }
  }

  lemma SinceOneMore(setup: Setup, states: seq<System>, steps: seq<Step>, q: nat, x: Run, i: nat, j: nat)
    requires Behavior(setup, states, steps) && i < j < |steps|
    ensures HeldSince(setup, states, steps, q, x, i, j + 1) <==>
      HeldSince(setup, states, steps, q, x, i, j) && !Ends(setup, states[j], steps[j], q, x)
  {
    hide Apply;
    hide CanStep;
    hide Ends;
    assert CanStep(setup, states[j], steps[j]);
  }

  lemma SinceIsBefore(setup: Setup, states: seq<System>, steps: seq<Step>, q: nat, x: Run, i: nat, j: nat)
    requires Behavior(setup, states, steps) && j <= |steps|
    ensures HeldSince(setup, states, steps, q, x, i, j) ==> i < j
  {
  }

  lemma SinceNow(setup: Setup, states: seq<System>, steps: seq<Step>, q: nat, x: Run, j: nat)
    requires Behavior(setup, states, steps) && j < |steps|
    ensures HeldSince(setup, states, steps, q, x, j, j + 1) <==> steps[j] == Step(q, Swap(x))
  {
  }

  // A replica holds a run exactly when it installed it, and has since neither replaced it nor been
  // rebooted.
  lemma {:induction false} HeldExactly(setup: Setup, states: seq<System>, steps: seq<Step>, q: nat, x: Run, j: nat)
    requires Sound(setup.parts) && Behavior(setup, states, steps) && states[0] == INIT && j <= |steps|
    requires x != NIL_RUN
    ensures HeldBy(states[j], q, x) <==> exists i: nat :: HeldSince(setup, states, steps, q, x, i, j)
  {
    hide Sound;
    hide Ends;
    hide Apply;
    hide CanStep;
    hide Invariant;
    hide Holds;
    hide HeldSince;
    forall i: nat, k: nat | k <= j ensures HeldSince(setup, states, steps, q, x, i, k) ==> i < k {
      SinceIsBefore(setup, states, steps, q, x, i, k);
    }
    if j > 0 {
      var l := j - 1;
      HeldExactly(setup, states, steps, q, x, l);
      BehaviorIsFenced(setup, states, steps, l);
      assert CanStep(setup, states[l], steps[l]);
      HeldAfterStep(setup, states[l], steps[l], q, x);
      SinceNow(setup, states, steps, q, x, l);
      forall i: nat | i < l
        ensures HeldSince(setup, states, steps, q, x, i, j) <==>
          HeldSince(setup, states, steps, q, x, i, l) && !Ends(setup, states[l], steps[l], q, x)
      {
        SinceOneMore(setup, states, steps, q, x, i, l);
      }
    }
  }

  // ----- a run is installed once -----

  // The run was drawn, and no rr.New call is still to install it.
  ghost predicate Drawn(s: System, x: Run) {
    && x in s.bus.runs
    && forall q :: q in s.replicas ==> !Awaits(s.replicas[q], x)
  }

  ghost predicate Awaits(m: Replica, x: Run) {
    x in m.starters && m.starters[x].Opened?
  }

  lemma AwaitsAfter(setup: Setup, b: Ledger, me: Replica, act: Action, x: Run)
    requires Enabled(setup, b, me, act)
    ensures var (b', me') := Act(setup, b, me, act);
      && b.runs <= b'.runs
      && (Awaits(me', x) ==> Awaits(me, x) || (act.Open? && act.run == x && x !in b.runs))
      && (act == Swap(x) ==> Awaits(me, x) && !Awaits(me', x))
  {
    hide Usable;
    hide PartIdList;
    hide TypeOf;
    hide ResetState;
  }

  lemma StaysDrawn(setup: Setup, s: System, step: Step, x: Run)
    requires Drawn(s, x) && CanStep(setup, s, step)
    ensures Drawn(Apply(setup, s, step), x) && forall q :: step != Step(q, Swap(x))
  {
    hide Enabled;
    hide Act;
    if step.Step? {
      AwaitsAfter(setup, s.bus, s.replicas[step.rep], step.act, x);
    }
  }

  lemma SwapDraws(setup: Setup, s: System, q: nat, x: Run)
    requires Invariant(setup, s) && CanStep(setup, s, Step(q, Swap(x)))
    ensures Drawn(Apply(setup, s, Step(q, Swap(x))), x)
  {
    hide Act;
    hide BusOk;
    hide CellsOk;
    hide LoopOk;
    hide WorkersOk;
    AwaitsAfter(setup, s.bus, s.replicas[q], Swap(x), x);
    assert ReplicaOk(setup, s.bus, s.replicas[q]);
    forall r | r in s.replicas && r != q ensures !Awaits(s.replicas[r], x) {
      assert Apart(s.replicas[q], s.replicas[r]);
      assert x in s.replicas[q].starters.Keys;
    }
  }

  lemma {:induction false} DrawnSince(setup: Setup, states: seq<System>, steps: seq<Step>, x: Run, i: nat, j: nat)
    requires Behavior(setup, states, steps) && i <= j <= |steps| && Drawn(states[i], x)
    ensures Drawn(states[j], x) && forall m, q :: i <= m < j ==> steps[m] != Step(q, Swap(x))
    decreases j
  {
    hide Apply;
    hide CanStep;
    hide Drawn;
    if i < j {
      DrawnSince(setup, states, steps, x, i, j - 1);
      assert CanStep(setup, states[j - 1], steps[j - 1]);
      StaysDrawn(setup, states[j - 1], steps[j - 1], x);
    }
  }

  lemma SwapsOnce(setup: Setup, states: seq<System>, steps: seq<Step>, q: nat, r: nat, x: Run, i: nat, j: nat)
    requires Sound(setup.parts) && Behavior(setup, states, steps) && states[0] == INIT
    requires i < j < |steps| && steps[i] == Step(q, Swap(x))
    ensures steps[j] != Step(r, Swap(x))
  {
    hide Sound;
    hide Apply;
    hide CanStep;
    hide Drawn;
    hide Invariant;
    BehaviorIsFenced(setup, states, steps, i);
    assert CanStep(setup, states[i], steps[i]);
    SwapDraws(setup, states[i], q, x);
    DrawnSince(setup, states, steps, x, i + 1, |steps|);
  }

  // ----- what a check does -----

  // The worker goes on to execute the event.
  ghost predicate Passes(s: System, s': System, q: nat, w: nat, k: nat)
    requires q in s.replicas
  {
    s' == System(s.bus, s.replicas[q := s.replicas[q].(workers := s.replicas[q].workers[w := Passed(k)])])
  }

  // The event is acknowledged with the empty completion, and nothing else changes.
  ghost predicate AcknowledgedEmpty(s: System, s': System, k: nat) {
    s' == System(Acknowledge(s.bus, Inert(k)), s.replicas)
  }

  lemma CheckMeans(setup: Setup, s: System, q: nat, w: nat, k: nat)
    requires Fenced(setup, s) && CanStep(setup, s, Step(q, Check(w, k)))
    ensures s.bus.created[k].run != NIL_RUN
    ensures var s' := Apply(setup, s, Step(q, Check(w, k)));
      if HeldBy(s, q, s.bus.created[k].run) then Passes(s, s', q, w, k) else AcknowledgedEmpty(s, s', k)
  {
    hide ReplicaOk;
    var me, e := s.replicas[q], s.bus.created[k];
    assert InPlace(s.bus, me);
    assert e.run != NIL_RUN by { EventRuns(setup, s.bus, k); }
    assert s.replicas[q := me] == s.replicas;
    if Holds(me, e.run) {
      var d :| d in me.dims && me.dims[d].run == e.run;
      assert LivesOnlyIn(s.bus, me, e.run, d);
    }
  }

  lemma EventRuns(setup: Setup, b: Ledger, k: nat)
    requires BusOk(setup, b) && k < |b.created|
    ensures b.created[k].run != NIL_RUN
  {
    hide RightPayload;
  }

  // An event is executed by a replica exactly when that replica installed its run, and has since
  // neither replaced it nor been rebooted. Every other replica that checks it acknowledges it
  // empty, whatever becomes of the run.
  lemma PassesExactly(setup: Setup, states: seq<System>, steps: seq<Step>, q: nat, w: nat, k: nat, j: nat)
    requires Sound(setup.parts) && Behavior(setup, states, steps) && states[0] == INIT
    requires j < |steps| && steps[j] == Step(q, Check(w, k)) && CanStep(setup, states[j], steps[j])
    ensures var x := states[j].bus.created[k].run;
      if exists i: nat :: HeldSince(setup, states, steps, q, x, i, j) then Passes(states[j], states[j + 1], q, w, k)
      else AcknowledgedEmpty(states[j], states[j + 1], k)
  {
    hide Sound;
    hide Apply;
    hide Fenced;
    hide HeldSince;
    hide Passes;
    hide AcknowledgedEmpty;
    BehaviorIsFenced(setup, states, steps, j);
    CheckMeans(setup, states[j], q, w, k);
    HeldExactly(setup, states, steps, q, states[j].bus.created[k].run, j);
    assert states[j + 1] == Apply(setup, states[j], steps[j]);
  }

  // All events of a run are executed in one replica: the one that installed it.
  lemma OneReplicaExecutes(setup: Setup, states: seq<System>, steps: seq<Step>, q: nat, w: nat, k: nat, j: nat,
                           r: nat, v: nat, l: nat, m: nat)
    requires Sound(setup.parts) && Behavior(setup, states, steps) && states[0] == INIT
    requires j < |steps| && steps[j] == Step(q, Check(w, k)) && CanStep(setup, states[j], steps[j])
    requires m < |steps| && steps[m] == Step(r, Check(v, l)) && CanStep(setup, states[m], steps[m])
    requires states[j].bus.created[k].run == states[m].bus.created[l].run
    requires Passes(states[j], states[j + 1], q, w, k) && Passes(states[m], states[m + 1], r, v, l)
    ensures q == r
  {
    hide Sound;
    hide Apply;
    hide Passes;
    hide Ends;
    var x := states[j].bus.created[k].run;
    var i := InstalledAt(setup, states, steps, q, w, k, j);
    var n := InstalledAt(setup, states, steps, r, v, l, m);
    if i < n {
      SwapsOnce(setup, states, steps, q, r, x, i, n);
    } else if n < i {
      SwapsOnce(setup, states, steps, r, q, x, n, i);
    }
  }

  lemma InstalledAt(setup: Setup, states: seq<System>, steps: seq<Step>, q: nat, w: nat, k: nat, j: nat)
    returns (i: nat)
    requires Sound(setup.parts) && Behavior(setup, states, steps) && states[0] == INIT
    requires j < |steps| && steps[j] == Step(q, Check(w, k)) && CanStep(setup, states[j], steps[j])
    requires Passes(states[j], states[j + 1], q, w, k)
    ensures HeldSince(setup, states, steps, q, states[j].bus.created[k].run, i, j)
  {
    hide Sound;
    hide HeldSince;
    hide Apply;
    PassesExactly(setup, states, steps, q, w, k, j);
    var x := states[j].bus.created[k].run;
    assert !AcknowledgedEmpty(states[j], states[j + 1], k) by {
      assert states[j + 1].bus.completed == states[j].bus.completed;
    }
    i :| HeldSince(setup, states, steps, q, x, i, j);
  }

  // Once any replica has installed a later run in place of x, no event of x passes a check in any
  // replica again, rebooted or not: it is acknowledged with an empty completion.
  lemma RestartFences(setup: Setup, states: seq<System>, steps: seq<Step>, r: nat, run: Run, i: nat,
                      q: nat, w: nat, k: nat, j: nat)
    requires Sound(setup.parts) && Behavior(setup, states, steps) && states[0] == INIT && i < j < |steps|
    requires steps[i] == Step(r, Swap(run)) && CanStep(setup, states[i], steps[i])
    requires steps[j] == Step(q, Check(w, k)) && CanStep(setup, states[j], steps[j])
    requires Replaced(setup, states[i].bus, states[i].replicas[r], Swap(run)) == states[j].bus.created[k].run
    ensures AcknowledgedEmpty(states[j], states[j + 1], k)
  {
    hide Sound;
    hide Fenced;
    hide Apply;
    hide HeldSince;
    hide AcknowledgedEmpty;
    var x := states[j].bus.created[k].run;
    PassesExactly(setup, states, steps, q, w, k, j);
    if i': nat :| HeldSince(setup, states, steps, q, x, i', j) {
      BehaviorIsFenced(setup, states, steps, j);
      CheckMeans(setup, states[j], q, w, k);
      ReplacedIsLost(setup, states, steps, r, run, i, q, x, i', j);
    }
  }

  // A run that was replaced is held nowhere.
  lemma ReplacedIsLost(setup: Setup, states: seq<System>, steps: seq<Step>, r: nat, run: Run, i: nat,
                       q: nat, x: Run, i': nat, j: nat)
    requires Sound(setup.parts) && Behavior(setup, states, steps) && states[0] == INIT && i < j <= |steps|
    requires steps[i] == Step(r, Swap(run)) && CanStep(setup, states[i], steps[i]) && x != NIL_RUN
    requires Replaced(setup, states[i].bus, states[i].replicas[r], Swap(run)) == x
    ensures !HeldSince(setup, states, steps, q, x, i', j)
  {
    hide Sound;
    hide Apply;
    if HeldSince(setup, states, steps, q, x, i', j) {
      HeldExactly(setup, states, steps, r, x, i);
      assert HeldBy(states[i], r, x) && Ends(setup, states[i], steps[i], r, x);
      var n: nat :| HeldSince(setup, states, steps, r, x, n, i);
      if n < i' {
        SwapsOnce(setup, states, steps, r, q, x, n, i');
      } else if i' < n {
        SwapsOnce(setup, states, steps, q, r, x, i', n);
      }
    }
  }
}
