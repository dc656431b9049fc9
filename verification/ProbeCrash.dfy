// The task machine under crashes: any number of starts, failing actions, a stop between an
// action, the write of its follow-up and the acknowledgement, lost writes, and redelivery of
// whatever is not acknowledged.
module ProbeCrash {
  import opened Probe
  import opened ProbeMachine

  datatype Step =
    | Start(cfg: Config)
    // an unacknowledged event is delivered, and its action comes back ok or not; the follow-up
    // reaches the stream or does not, and so does the acknowledgement
    | Deliver(k: nat, ok: bool, write: bool, ack: bool)

  predicate CanStep(s: Store, step: Step) {
    step.Deliver? ==> step.k < |s.stream| && step.k !in s.acked
  }

  function Apply(funcs: map<string, Handler>, s: Store, step: Step): Store
    requires CanStep(s, step)
  {
    match step
    case Start(cfg) => AfterStart(s, cfg)
    case Deliver(k, ok, write, ack) => After(s, k, Handle(funcs, s.stream[k].event, ok), write, ack)
  }

  ghost predicate Behavior(funcs: map<string, Handler>, states: seq<Store>, steps: seq<Step>) {
    && |states| == |steps| + 1 && states[0] == EMPTY
    && forall i {:trigger steps[i]} :: 0 <= i < |steps| ==>
      CanStep(states[i], steps[i]) && states[i + 1] == Apply(funcs, states[i], steps[i])
  }

  ghost predicate Reachable(funcs: map<string, Handler>, s: Store) {
    exists states, steps {:trigger Behavior(funcs, states, steps)} :: Behavior(funcs, states, steps)
      && states[|steps|] == s
  }

  // A turn of the running machine is one of these steps.
  lemma TurnIsStep(funcs: map<string, Handler>, oracle: Oracle, m: Machine)
    requires CanTurn(m) && AcksRead(m)
    ensures var step := Deliver(m.cursor, oracle(|m.store.log|), true, true);
      CanStep(m.store, step) && Turn(funcs, oracle, m).store == Apply(funcs, m.store, step)
  {
  }

  lemma StepReaches(funcs: map<string, Handler>, s: Store, step: Step)
    requires Reachable(funcs, s) && CanStep(s, step)
    ensures Reachable(funcs, Apply(funcs, s, step))
  {
    hide Apply;
    var states, steps :| Behavior(funcs, states, steps) && states[|steps|] == s;
    var next := Apply(funcs, s, step);
    assert Behavior(funcs, states + [next], steps + [step]);
    assert (states + [next])[|steps + [step]|] == next;
  }

  // So whatever holds of all reachable stores holds of the store of a running machine.
  lemma {:induction false} TurnsReach(funcs: map<string, Handler>, oracle: Oracle, m: Machine, n: nat)
    requires Reachable(funcs, m.store) && AcksRead(m)
    ensures Reachable(funcs, Turns(funcs, oracle, m, n).store) && AcksRead(Turns(funcs, oracle, m, n))
    decreases n
  {
    hide Reachable;
    hide Handle;
    if n > 0 && CanTurn(m) {
      TurnIsStep(funcs, oracle, m);
      StepReaches(funcs, m.store, Deliver(m.cursor, oracle(|m.store.log|), true, true));
      TurnsReach(funcs, oracle, Turn(funcs, oracle, m), n - 1);
    }
  }

  // ----- safety -----

  // What a history of starts and attempts says of start j when p of its tasks are done.
  datatype History = History(starts: seq<Config>, log: seq<Attempt>) {
    function Plan(j: nat): seq<Item>
      requires j < |starts|
    {
      Flatten(starts[j])
    }

    ghost predicate LeftAt(j: nat, p: nat, items: seq<Item>) {
      j < |starts| && p <= |Plan(j)| && items == Plan(j)[p..]
    }

    // Entry i of the log is an attempt of task p of start j.
    ghost predicate AttemptAt(i: nat, j: nat, p: nat) {
      && i < |log| && log[i].origin == j && j < |starts| && p < |Plan(j)|
      && log[i].call == CallOf(Plan(j)[p]) && LeftAt(j, p, Flatten(log[i].cfg))
    }

    // Before entry n of the log, task p of start j succeeded.
    ghost predicate DoneBefore(j: nat, p: nat, n: nat) {
      exists i: nat :: i < n && AttemptAt(i, j, p) && log[i].ok
    }

    ghost predicate AllDoneBefore(j: nat, p: nat, n: nat) {
      forall q: nat :: q < p ==> DoneBefore(j, q, n)
    }

    // These items are left of start j, and all the others have succeeded.
    ghost predicate Reached(j: nat, items: seq<Item>) {
      exists p: nat :: LeftAt(j, p, items) && AllDoneBefore(j, p, |log|)
    }

    // Entry i is an attempt of some task, and all tasks before that had succeeded by then.
    ghost predicate AttemptOk(i: nat)
      requires i < |log|
    {
      exists p: nat :: AttemptAt(i, log[i].origin, p) && AllDoneBefore(log[i].origin, p, i)
    }
  }

  function HistoryOf(s: Store): History {
    History(s.starts, s.log)
  }

  // The event is a start, or it is positioned at the task that its state names.
  ghost predicate Shaped(e: Event) {
    e.state == START || (Positioned(e.data) && Flatten(e.data) != [] && e.state == Flatten(e.data)[0].task.typ)
  }

  ghost predicate EntryOk(h: History, e: Entry) {
    h.Reached(e.origin, Flatten(e.event.data)) && Shaped(e.event)
  }

  ghost predicate Invariant(s: Store) {
    && (forall e :: e in s.stream ==> EntryOk(HistoryOf(s), e))
    && (forall i :: 0 <= i < |s.log| ==> HistoryOf(s).AttemptOk(i))
    && (forall k :: k in s.acked ==> k < |s.stream|)
  }

  // ----- a longer history keeps what was done -----

  ghost predicate Grows(h: History, h': History) {
    h.starts <= h'.starts && h.log <= h'.log
  }

  lemma DoneStays(h: History, h': History, j: nat, p: nat, n: nat)
    requires Grows(h, h') && n <= |h.log| && h.AllDoneBefore(j, p, n)
    ensures forall n': nat :: n <= n' ==> h'.AllDoneBefore(j, p, n')
  {
    hide Flatten;
    forall n': nat, q: nat | n <= n' && q < p ensures h'.DoneBefore(j, q, n') {
      assert h.DoneBefore(j, q, n);
      var i: nat :| i < n && h.AttemptAt(i, j, q) && h.log[i].ok;
      assert h'.AttemptAt(i, j, q);
    }
  }

  lemma ReachedStays(h: History, h': History, j: nat, items: seq<Item>)
    requires Grows(h, h') && h.Reached(j, items)
    ensures h'.Reached(j, items)
  {
    hide Flatten;
    var p: nat :| h.LeftAt(j, p, items) && h.AllDoneBefore(j, p, |h.log|);
    DoneStays(h, h', j, p, |h.log|);
    assert h'.LeftAt(j, p, items);
  }

  lemma AttemptStays(h: History, h': History, i: nat)
    requires Grows(h, h') && i < |h.log| && h.AttemptOk(i)
    ensures h'.AttemptOk(i)
  {
    hide Flatten;
    var j := h.log[i].origin;
    var p: nat :| h.AttemptAt(i, j, p) && h.AllDoneBefore(j, p, i);
    DoneStays(h, h', j, p, i);
    assert h'.AttemptAt(i, j, p);
  }

  lemma PastStaysOk(s: Store, s': Store)
    requires Invariant(s) && Grows(HistoryOf(s), HistoryOf(s'))
    ensures forall e :: e in s.stream ==> EntryOk(HistoryOf(s'), e)
    ensures forall i :: 0 <= i < |s.log| ==> HistoryOf(s').AttemptOk(i)
  {
    hide Flatten;
    hide Shaped;
    hide History.Reached;
    hide History.AttemptOk;
    forall e | e in s.stream ensures EntryOk(HistoryOf(s'), e) {
      ReachedStays(HistoryOf(s), HistoryOf(s'), e.origin, Flatten(e.event.data));
    }
    forall i | 0 <= i < |s.log| ensures HistoryOf(s').AttemptOk(i) {
      AttemptStays(HistoryOf(s), HistoryOf(s'), i);
    }
  }

  // An attempt of the first task of what is left is in order, and if it succeeds one more is done.
  lemma AttemptKeeps(h: History, j: nat, cfg: Config, ok: bool)
    requires h.Reached(j, Flatten(cfg)) && Flatten(cfg) != []
    ensures var h' := h.(log := h.log + [Attempt(j, cfg, CallOf(Flatten(cfg)[0]), ok)]);
      h'.AttemptOk(|h.log|) && (ok ==> h'.Reached(j, Flatten(cfg)[1..]))
  {
    hide Flatten;
    hide CallOf;
    hide History.AllDoneBefore;
    hide History.LeftAt;
    hide History.AttemptAt;
    hide History.AttemptOk;
    var items := Flatten(cfg);
    var h' := h.(log := h.log + [Attempt(j, cfg, CallOf(items[0]), ok)]);
    var p: nat :| h.LeftAt(j, p, items) && h.AllDoneBefore(j, p, |h.log|);
    NextAttempt(h, h', j, p, cfg, ok);
    DoneStays(h, h', j, p, |h.log|);
    AttemptIsOk(h', |h.log|, p);
    if ok {
      OneMoreDone(h', j, p, items, |h.log|);
    }
  }

  // The new entry is an attempt of task p.
  lemma NextAttempt(h: History, h': History, j: nat, p: nat, cfg: Config, ok: bool)
    requires Flatten(cfg) != [] && h.LeftAt(j, p, Flatten(cfg))
    requires h' == h.(log := h.log + [Attempt(j, cfg, CallOf(Flatten(cfg)[0]), ok)])
    ensures h'.AttemptAt(|h.log|, j, p) && h'.LeftAt(j, p, Flatten(cfg))
  {
    hide Flatten;
    hide CallOf;
    assert h'.Plan(j) == h.Plan(j);
  }

  lemma AttemptIsOk(h: History, i: nat, p: nat)
    requires i < |h.log| && h.AttemptAt(i, h.log[i].origin, p) && h.AllDoneBefore(h.log[i].origin, p, i)
    ensures h.AttemptOk(i)
  {
    hide History.AttemptAt;
    hide History.AllDoneBefore;
  }

  lemma OneMoreDone(h: History, j: nat, p: nat, items: seq<Item>, i: nat)
    requires h.AttemptAt(i, j, p) && h.log[i].ok && h.LeftAt(j, p, items) && h.AllDoneBefore(j, p, |h.log|)
    ensures h.Reached(j, items[1..])
  {
    hide Flatten;
    hide CallOf;
    assert h.LeftAt(j, p + 1, items[1..]);
    assert h.AllDoneBefore(j, p + 1, |h.log|) by {
      hide History.AttemptAt;
      hide History.LeftAt;
      assert h.DoneBefore(j, p, |h.log|);
    }
  }

  // ----- every step keeps the invariant -----

  lemma StartKeeps(s: Store, cfg: Config)
    requires Invariant(s)
    ensures Invariant(AfterStart(s, cfg))
  {
    hide Flatten;
    hide EntryOk;
    hide History.AttemptOk;
    var s' := AfterStart(s, cfg);
    PastStaysOk(s, s');
    FirstEntryOk(HistoryOf(s'), |s.starts|);
  }

  lemma FirstEntryOk(h: History, j: nat)
    requires j < |h.starts|
    ensures EntryOk(h, Entry(j, Event(START, h.starts[j])))
  {
    assert h.LeftAt(j, 0, h.Plan(j)) && h.AllDoneBefore(j, 0, |h.log|);
  }

  // What handling a well-shaped event can be: its function is missing, or it only moves on to the
  // first task, or it attempts that task. The guards of Execute are never hit.
  lemma HandleShaped(funcs: map<string, Handler>, e: Event, ok: bool)
    requires Registered(funcs) && Shaped(e)
    ensures var h, items := Handle(funcs, e, ok), Flatten(e.data);
      match h
      case NotFound => true
      case NoTasksLeft => false
      case WrongType => false
      case ActionFailed(call) => items != [] && call == CallOf(items[0])
      case Panicked(call) => items != [] && call == CallOf(items[0])
      case Proceeds(calls, next) =>
        if calls == [] then MovesTo(next, items)
        else items != [] && calls == [CallOf(items[0])] && MovesTo(next, items[1..])
  {
    if e.state == START {
      NextKeeps(e.data);
    } else if e.state in funcs {
      PoppedIsRest(e.data);
      assert Flatten(e.data)[1..] == Flatten(Popped(e.data));
      NextKeeps(Popped(e.data));
    }
  }

  // The event that Next makes of these items: none exactly when no task, or no type, comes next.
  ghost predicate MovesTo(next: Event, items: seq<Item>) {
    && Follows(next, items)
    && (next.state == "" ==> items == [] || items[0].task.typ == "")
  }

  lemma NextShaped(next: Event, items: seq<Item>)
    requires MovesTo(next, items) && next.state != ""
    ensures Shaped(next) && Flatten(next.data) == items
  {
  }

  lemma DeliverKeeps(funcs: map<string, Handler>, s: Store, k: nat, ok: bool, write: bool, ack: bool)
    requires Registered(funcs) && Invariant(s) && k < |s.stream|
    ensures Invariant(After(s, k, Handle(funcs, s.stream[k].event, ok), write, ack))
  {
    hide Flatten;
    hide Handle;
    hide MovesTo;
    hide Shaped;
    hide History.Reached;
    hide History.AttemptOk;
    var e := s.stream[k];
    var h, items := Handle(funcs, e.event, ok), Flatten(e.event.data);
    var s' := After(s, k, h, write, ack);
    assert EntryOk(HistoryOf(s), e);
    HandleShaped(funcs, e.event, ok);
    PastStaysOk(s, s');
    if Attempts(e, h) != [] {
      var good := h.Panicked? || h.Proceeds?;
      assert Attempts(e, h) == [Attempt(e.origin, e.event.data, CallOf(items[0]), good)];
      AttemptKeeps(HistoryOf(s), e.origin, e.event.data, good);
    } else {
      assert HistoryOf(s') == HistoryOf(s);
    }
    if s'.stream != s.stream {
      NextShaped(h.next, if h.calls == [] then items else items[1..]);
    }
  }

  lemma {:induction false} BehaviorKeeps(funcs: map<string, Handler>, states: seq<Store>, steps: seq<Step>, n: nat)
    requires Registered(funcs) && Behavior(funcs, states, steps) && n <= |steps|
    ensures Invariant(states[n])
    decreases n
  {
    hide Registered;
    hide Invariant;
    hide Handle;
    if n == 0 {
      EmptyIsOk();
    } else {
      BehaviorKeeps(funcs, states, steps, n - 1);
      var s := states[n - 1];
      assert CanStep(s, steps[n - 1]) && states[n] == Apply(funcs, s, steps[n - 1]);
      match steps[n - 1] {
        case Start(cfg) => StartKeeps(s, cfg);
        case Deliver(k, ok, write, ack) => DeliverKeeps(funcs, s, k, ok, write, ack);
      }
    }
  }

  lemma EmptyIsOk()
    ensures Invariant(EMPTY)
  {
  }

  // However the machine was started, stopped and restarted: every attempt is of a task of a
  // started configuration, and by then every task before it had succeeded in that start.
  lemma NoTaskBeforeItsPredecessors(funcs: map<string, Handler>, s: Store, i: nat)
    requires Registered(funcs) && Reachable(funcs, s) && i < |s.log|
    ensures var h, j := HistoryOf(s), s.log[i].origin;
      exists p: nat :: h.AttemptAt(i, j, p) && h.AllDoneBefore(j, p, i)
  {
    hide Registered;
    var states, steps :| Behavior(funcs, states, steps) && states[|steps|] == s;
    BehaviorKeeps(funcs, states, steps, |steps|);
    assert HistoryOf(s).AttemptOk(i);
  }

  // Every event holds a suffix of its start's tasks, and the tasks before it have all succeeded;
  // and handling it never hits a guard of Execute.
  lemma EventsHoldSuffixes(funcs: map<string, Handler>, s: Store, e: Entry, ok: bool)
    requires Registered(funcs) && Reachable(funcs, s) && e in s.stream
    ensures HistoryOf(s).Reached(e.origin, Flatten(e.event.data))
    ensures Handle(funcs, e.event, ok) != NoTasksLeft && Handle(funcs, e.event, ok) != WrongType
  {
    hide Registered;
    var states, steps :| Behavior(funcs, states, steps) && states[|steps|] == s;
    BehaviorKeeps(funcs, states, steps, |steps|);
    assert EntryOk(HistoryOf(s), e);
    HandleShaped(funcs, e.event, ok);
  }

  // ----- nothing is lost -----

  // No acknowledgement outlives its write. The code does not wait for the write, so this is a
  // demand on the stream.
  ghost predicate WritesArrive(steps: seq<Step>) {
    forall i :: 0 <= i < |steps| && steps[i].Deliver? && steps[i].ack ==> steps[i].write
  }

  // All tasks of start j are done, or all up to one that has no type.
  ghost predicate Over(h: History, j: nat) {
    exists items: seq<Item> :: h.Reached(j, items) && (items == [] || items[0].task.typ == "")
  }

  ghost predicate Carried(s: Store, j: nat) {
    exists k: nat :: k < |s.stream| && k !in s.acked && s.stream[k].origin == j
  }

  ghost predicate NothingLost(s: Store) {
    forall j: nat :: j < |s.starts| ==> Carried(s, j) || Over(HistoryOf(s), j)
  }

  lemma OverStays(h: History, h': History, j: nat)
    requires Grows(h, h') && Over(h, j)
    ensures Over(h', j)
  {
    hide History.Reached;
    var items: seq<Item> :| h.Reached(j, items) && (items == [] || items[0].task.typ == "");
    ReachedStays(h, h', j, items);
  }

  lemma StartLosesNothing(s: Store, cfg: Config)
    requires Invariant(s) && NothingLost(s)
    ensures NothingLost(AfterStart(s, cfg))
  {
    hide Over;
    hide EntryOk;
    hide History.AttemptOk;
    var s' := AfterStart(s, cfg);
    forall j: nat | j < |s'.starts| ensures Carried(s', j) || Over(HistoryOf(s'), j) {
      if j == |s.starts| {
        assert s'.stream[|s.stream|].origin == j;
      } else if Over(HistoryOf(s), j) {
        OverStays(HistoryOf(s), HistoryOf(s'), j);
      } else {
        var k: nat :| k < |s.stream| && k !in s.acked && s.stream[k].origin == j;
        assert s'.stream[k].origin == j;
      }
    }
  }

  // Acknowledging an event leaves its follow-up, or nothing to follow up.
  lemma AckLeavesNext(funcs: map<string, Handler>, s: Store, k: nat, ok: bool)
    requires Registered(funcs) && Invariant(s) && k < |s.stream| && Handle(funcs, s.stream[k].event, ok).Proceeds?
    ensures var s' := After(s, k, Handle(funcs, s.stream[k].event, ok), true, true);
      Carried(s', s.stream[k].origin) || Over(HistoryOf(s'), s.stream[k].origin)
  {
    hide Flatten;
    hide Handle;
    hide History.Reached;
    hide History.AttemptOk;
    var e := s.stream[k];
    var h, items := Handle(funcs, e.event, ok), Flatten(e.event.data);
    var s' := After(s, k, h, true, true);
    assert EntryOk(HistoryOf(s), e);
    HandleShaped(funcs, e.event, ok);
    if h.next.state != "" {
      assert s'.stream[|s.stream|].origin == e.origin;
    } else if h.calls == [] {
      assert HistoryOf(s') == HistoryOf(s);
    } else {
      assert Attempts(e, h) == [Attempt(e.origin, e.event.data, CallOf(items[0]), true)];
      AttemptKeeps(HistoryOf(s), e.origin, e.event.data, true);
      assert HistoryOf(s').Reached(e.origin, items[1..]);
    }
  }

  lemma DeliverLosesNothing(funcs: map<string, Handler>, s: Store, k: nat, ok: bool, write: bool, ack: bool)
    requires Registered(funcs) && Invariant(s) && NothingLost(s) && k < |s.stream| && (ack ==> write)
    ensures NothingLost(After(s, k, Handle(funcs, s.stream[k].event, ok), write, ack))
  {
    hide Over;
    hide Handle;
    hide EntryOk;
    hide History.AttemptOk;
    hide Registered;
    var h := Handle(funcs, s.stream[k].event, ok);
    var s' := After(s, k, h, write, ack);
    if s'.acked != s.acked {
      AckLeavesNext(funcs, s, k, ok);
    }
    forall j: nat | j < |s'.starts| ensures Carried(s', j) || Over(HistoryOf(s'), j) {
      if Over(HistoryOf(s), j) {
        OverStays(HistoryOf(s), HistoryOf(s'), j);
      } else {
        var i: nat :| i < |s.stream| && i !in s.acked && s.stream[i].origin == j;
        assert s'.stream[i] == s.stream[i];
        if i != k {
          assert i !in s'.acked;
        }
      }
    }
  }

  lemma {:induction false} NothingIsLost(funcs: map<string, Handler>, states: seq<Store>, steps: seq<Step>, n: nat)
    requires Registered(funcs) && Behavior(funcs, states, steps) && WritesArrive(steps) && n <= |steps|
    ensures NothingLost(states[n])
    decreases n
  {
    hide Registered;
    hide Invariant;
    hide NothingLost;
    hide Handle;
    if n == 0 {
      EmptyLosesNothing();
    } else {
      NothingIsLost(funcs, states, steps, n - 1);
      BehaviorKeeps(funcs, states, steps, n - 1);
      var s := states[n - 1];
      assert CanStep(s, steps[n - 1]) && states[n] == Apply(funcs, s, steps[n - 1]);
      match steps[n - 1] {
        case Start(cfg) => StartLosesNothing(s, cfg);
        case Deliver(k, ok, write, ack) => DeliverLosesNothing(funcs, s, k, ok, write, ack);
      }
    }
  }

  lemma EmptyLosesNothing()
    ensures NothingLost(EMPTY)
  {
  }

  // If no follow-up is lost on its way to the stream and every event has been acknowledged, then
  // every task of every started configuration has succeeded, if all tasks have types.
  lemma AllAcknowledgedMeansDone(funcs: map<string, Handler>, states: seq<Store>, steps: seq<Step>, j: nat)
    requires Registered(funcs) && Behavior(funcs, states, steps) && WritesArrive(steps)
    requires var s := states[|steps|];
      && j < |s.starts| && (forall k: nat :: k < |s.stream| ==> k in s.acked)
      && (forall item :: item in Flatten(s.starts[j]) ==> item.task.typ != "")
    ensures var s := states[|steps|];
      HistoryOf(s).AllDoneBefore(j, |Flatten(s.starts[j])|, |s.log|)
  {
    hide Registered;
    hide Flatten;
    var s := states[|steps|];
    NothingIsLost(funcs, states, steps, |steps|);
    assert Over(HistoryOf(s), j);
    var items: seq<Item> :| HistoryOf(s).Reached(j, items) && (items == [] || items[0].task.typ == "");
    var p: nat :| HistoryOf(s).LeftAt(j, p, items) && HistoryOf(s).AllDoneBefore(j, p, |s.log|);
  }
}
