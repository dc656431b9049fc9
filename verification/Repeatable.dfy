// The repeatable reader, one shared access at a time. A replica runs any number of rr.New calls
// and Read workers beside its one completed loop; every read or write of a shared map or object
// is a step of its own, and the steps of all threads of all replicas interleave freely.
module Repeatable {
  import opened Story
  import opened Acceptance
  import opened Plan
  import opened Bus
  import opened Journal

  datatype State = Failed | Waiting | Started | Finished | Restarted | Terminated

  // The nil uuid: the run of a dimension before its first start, and of an empty event.
  const NIL_RUN: Run := "00000000-0000-0000-0000-000000000000"

  // storyPart: a state, and the completion that is kept when the part is finished.
  datatype Cell = Cell(state: State, run: Run, data: seq<Data>)

  datatype Dimension = Dimension(state: State, run: Run, cells: map<string, Cell>)

  // Where the completed loop stands.
  datatype Loop =
    | Idle
    | Checked(c: Completion)                                                // past the run check
    | Joining(dim: string, run: Run, rest: seq<string>)
    | Reading(dim: string, run: Run, n: string, td: seq<Data>, rest: seq<string>)
    | Writing(event: Event, rest: seq<string>)

  // Where an rr.New call stands: it has its run id, it is about to look at the cell of rest[0], or
  // it has chosen the state that it will reset that cell to.
  datatype Starter =
    | Opened(dim: string, input: string)
    | Resetting(dim: string, input: string, rest: seq<string>)
    | Chosen(dim: string, input: string, rest: seq<string>, state: State)

  // Where a Read worker stands: past the run check of an event, or executing its part.
  datatype Worker = Passed(event: nat) | Running(event: nat)

  datatype Replica = Replica(
    dims: map<string, Dimension>,
    cursor: nat,
    loop: Loop,
    starters: map<Run, Starter>,
    workers: map<nat, Worker>)

  const FRESH := Replica(map[], 0, Idle, map[], map[])

  datatype Action =
    // rr.New
    | Open(run: Run, dim: string, input: string)   // draw a run id, get or create the dimension
    | Swap(run: Run)                               // install the run
    | Peek(run: Run)                               // read the state of the next part
    | Reset(run: Run)                              // write its new state
    | Launch(run: Run, ok: bool)                   // write the start event
    // Read
    | Check(worker: nat, event: nat)               // compare runs; a stale event is acknowledged empty
    | Begin(worker: nat)                           // mark the part started and execute it
    | Fail(worker: nat)                            // the adapter failed
    | Drop(worker: nat)                            // the adapter returned nil data where it must not
    | Finish(worker: nat, out: Data)               // acknowledge with the output
    // the completed loop
    | Take                                         // next completion, compare runs
    | Record                                       // mark its part finished
    | Follow                                       // next link
    | Look                                         // read the cell of the next predecessor
    | Ask(want: bool)                              // request the joined part
    | Send(ok: bool)                               // write its event

  datatype Step = Step(rep: nat, act: Action) | Boot(rep: nat)

  datatype System = System(bus: Ledger, replicas: map<nat, Replica>)

  const INIT := System(EMPTY, map[])

  function SetCell(dims: map<string, Dimension>, d: string, p: string, c: Cell): map<string, Dimension>
    requires d in dims
  {
    dims[d := dims[d].(cells := dims[d].cells[p := c])]
  }

  // The state that New gives a part, from the state it finds.
  function ResetState(cells: map<string, Cell>, p: string): State {
    if p in cells && cells[p].state == Started then Terminated
    else if p in cells && cells[p].state == Finished then Restarted
    else Waiting
  }

  predicate AtRest(l: Loop) {
    l.Idle? || (l.Joining? && l.rest == [])
  }

  // Would this cell be taken into the parameters of a part of the run?
  predicate Usable(cells: map<string, Cell>, p: string, run: Run) {
    p in cells && cells[p].state == Finished && cells[p].run == run
  }

  predicate Enabled(setup: Setup, b: Ledger, me: Replica, act: Action) {
    match act
    case Open(run, _, _) => run !in b.runs && run != NIL_RUN
    case Swap(run) => run in me.starters && me.starters[run].Opened? && me.starters[run].dim in me.dims
    case Peek(run) =>
      run in me.starters && me.starters[run].Resetting? && me.starters[run].rest != []
        && me.starters[run].dim in me.dims
    case Reset(run) =>
      run in me.starters && me.starters[run].Chosen? && me.starters[run].rest != [] && me.starters[run].dim in me.dims
    case Launch(run, _) => run in me.starters && me.starters[run].Resetting? && me.starters[run].rest == []
    case Check(w, k) => w !in me.workers && k in b.pending && k < |b.created| && b.created[k].dim in me.dims
    case Begin(w) =>
      && w in me.workers && me.workers[w].Passed?
      && me.workers[w].event < |b.created| && b.created[me.workers[w].event].dim in me.dims
    case Fail(w) =>
      && w in me.workers && me.workers[w].Running?
      && me.workers[w].event < |b.created| && b.created[me.workers[w].event].dim in me.dims
    case Drop(w) => w in me.workers && me.workers[w].Running?
    case Finish(w, out) => w in me.workers && me.workers[w].Running? && me.workers[w].event < |b.created|
                           && out.typ == TypeOf(setup, b.created[me.workers[w].event].part)
    case Take => AtRest(me.loop) && me.cursor < |b.completed|
    case Record => me.loop.Checked? && me.loop.c.dim in me.dims
    case Follow => me.loop.Joining? && me.loop.rest != []
    case Look => me.loop.Reading? && |me.loop.td| < |Prev(setup.parts, me.loop.n)| && me.loop.dim in me.dims
    case Ask(want) => me.loop.Reading? && |me.loop.td| == |Prev(setup.parts, me.loop.n)|
                      && (want ==> ConsId(me.loop.n, me.loop.run) !in b.granted)
    case Send(_) => me.loop.Writing?
  }

  function Inert(k: nat): Completion {
    Completion(k, "", "", NIL_RUN, [])
  }

  function ActNew(setup: Setup, b: Ledger, me: Replica, act: Action): (Ledger, Replica)
    requires Enabled(setup, b, me, act) && (act.Open? || act.Swap? || act.Peek? || act.Reset? || act.Launch?)
  {
    match act
    case Open(run, d, input) =>
      (b.(runs := b.runs + {run}),
       me.(dims := if d in me.dims then me.dims else me.dims[d := Dimension(Waiting, NIL_RUN, map[])],
           starters := me.starters[run := Opened(d, input)]))
    case Swap(run) =>
      var t := me.starters[run];
      var was := me.dims[t.dim].run;
      var state := if was != NIL_RUN then Restarted else Started;
      (b, me.(dims := me.dims[t.dim := me.dims[t.dim].(run := run, state := state)],
              starters := me.starters[run := Resetting(t.dim, t.input, PartIdList(setup.parts))]))
    case Peek(run) =>
      var t := me.starters[run];
      var state := ResetState(me.dims[t.dim].cells, t.rest[0]);
      (b, me.(starters := me.starters[run := Chosen(t.dim, t.input, t.rest, state)]))
    case Reset(run) =>
      var t := me.starters[run];
      (b, me.(dims := SetCell(me.dims, t.dim, t.rest[0], Cell(t.state, NIL_RUN, [])),
              starters := me.starters[run := Resetting(t.dim, t.input, t.rest[1..])]))
    case Launch(run, ok) =>
      var t := me.starters[run];
      var e := Event(t.dim, START, run, [Data(StartType(setup), t.input)]);
      (if ok then Publish(b, e) else b, me.(starters := me.starters - {run}))
  }

  function ActRead(setup: Setup, b: Ledger, me: Replica, act: Action): (Ledger, Replica)
    requires Enabled(setup, b, me, act) && (act.Check? || act.Begin? || act.Fail? || act.Drop? || act.Finish?)
  {
    match act
    case Check(w, k) =>
      if me.dims[b.created[k].dim].run != b.created[k].run then (Acknowledge(b, Inert(k)), me)
      else (b, me.(workers := me.workers[w := Passed(k)]))
    case Begin(w) =>
      var k := me.workers[w].event;
      (b, me.(dims := SetCell(me.dims, b.created[k].dim, b.created[k].part, Cell(Started, NIL_RUN, [])),
              workers := me.workers[w := Running(k)]))
    case Fail(w) =>
      var k := me.workers[w].event;
      (b, me.(dims := SetCell(me.dims, b.created[k].dim, b.created[k].part, Cell(Failed, NIL_RUN, [])),
              workers := me.workers - {w}))
    case Drop(w) => (b, me.(workers := me.workers - {w}))
    case Finish(w, out) =>
      var k := me.workers[w].event;
      var e := b.created[k];
      (if k in b.pending then Acknowledge(b, Completion(k, e.dim, e.part, e.run, [out])) else b,
       me.(workers := me.workers - {w}))
  }

  function ActLoop(setup: Setup, b: Ledger, me: Replica, act: Action): (Ledger, Replica)
    requires Enabled(setup, b, me, act)
    requires act.Take? || act.Record? || act.Follow? || act.Look? || act.Ask? || act.Send?
  {
    match act
    case Take =>
      var c := b.completed[me.cursor];
      (b, me.(cursor := me.cursor + 1,
              loop := if c.dim in me.dims && me.dims[c.dim].run == c.run then Checked(c) else Idle))
    case Record =>
      var c := me.loop.c;
      (b, me.(dims := SetCell(me.dims, c.dim, PartOf(c.part, setup.parts).id, Cell(Finished, c.run, c.data)),
              loop := Joining(c.dim, c.run, Next(setup.parts, c.part))))
    case Follow =>
      (b, me.(loop := Reading(me.loop.dim, me.loop.run, me.loop.rest[0], [], me.loop.rest[1..])))
    case Look =>
      var l := me.loop;
      var p := Prev(setup.parts, l.n)[|l.td|];
      var cells := me.dims[l.dim].cells;
      if Usable(cells, p, l.run) then
        (b, me.(loop := l.(td := l.td + (if cells[p].data == [] then [Data("", "")] else [cells[p].data[0]]))))
      else (b, me.(loop := Joining(l.dim, l.run, l.rest)))
    case Ask(want) =>
      var l := me.loop;
      if want then
        (Grant(b, ConsId(l.n, l.run)), me.(loop := Writing(Event(l.dim, l.n, l.run, l.td), l.rest)))
      else (b, me.(loop := Joining(l.dim, l.run, l.rest)))
    case Send(ok) =>
      var l := me.loop;
      (if ok then Publish(b, l.event) else b, me.(loop := Joining(l.event.dim, l.event.run, l.rest)))
  }

  function Act(setup: Setup, b: Ledger, me: Replica, act: Action): (Ledger, Replica)
    requires Enabled(setup, b, me, act)
  {
    if act.Open? || act.Swap? || act.Peek? || act.Reset? || act.Launch? then ActNew(setup, b, me, act)
    else if act.Check? || act.Begin? || act.Fail? || act.Drop? || act.Finish? then ActRead(setup, b, me, act)
    else ActLoop(setup, b, me, act)
  }

  predicate CanStep(setup: Setup, s: System, step: Step) {
    step.Boot? || (step.rep in s.replicas && Enabled(setup, s.bus, s.replicas[step.rep], step.act))
  }

  function Apply(setup: Setup, s: System, step: Step): System
    requires CanStep(setup, s, step)
  {
    match step
    case Boot(r) => s.(replicas := s.replicas[r := FRESH])
    case Step(r, act) =>
      var (b, me) := Act(setup, s.bus, s.replicas[r], act);
      System(b, s.replicas[r := me])
  }

  ghost predicate Behavior(setup: Setup, states: seq<System>, steps: seq<Step>) {
    && |states| == |steps| + 1
    && (forall k {:trigger steps[k]} :: 0 <= k < |steps| ==>
      CanStep(setup, states[k], steps[k]) && states[k + 1] == Apply(setup, states[k], steps[k]))
  }

  ghost predicate Reachable(setup: Setup, s: System) {
    exists states, steps {:trigger Behavior(setup, states, steps)} :: Behavior(setup, states, steps)
      && states[0] == INIT && states[|steps|] == s
  }

  // ----- the invariant -----

  // A finished cell of a started run holds the output of a completion of that part in that run.
  ghost predicate CellOk(b: Ledger, p: string, c: Cell) {
    c.state == Finished ==>
      if c.run in b.runs then |c.data| == 1 && OutputOf(b.completed, p, c.run, c.data[0]) else c.run == NIL_RUN
  }

  ghost predicate CellsOk(b: Ledger, dims: map<string, Dimension>) {
    forall d, p :: d in dims && p in dims[d].cells ==> CellOk(b, p, dims[d].cells[p])
  }

  // The run has events, all in this dimension.
  ghost predicate LivesIn(b: Ledger, run: Run, d: string) {
    exists k :: 0 <= k < |b.created| && b.created[k].run == run && b.created[k].dim == d
  }

  // The parameters read so far are completed outputs of the first predecessors.
  ghost predicate PartialPayload(parts: seq<Part>, completed: seq<Completion>, n: string, run: Run, td: seq<Data>) {
    && |td| <= |Prev(parts, n)|
    && forall i :: 0 <= i < |td| ==> OutputOf(completed, Prev(parts, n)[i], run, td[i])
  }

  ghost predicate CheckedOk(setup: Setup, b: Ledger, c: Completion) {
    if c.run in b.runs then
      IsPart(setup.parts, c.part) && |c.data| == 1 && OutputOf(b.completed, c.part, c.run, c.data[0])
        && LivesIn(b, c.run, c.dim)
    else
      c.run == NIL_RUN && c.part == ""
  }

  ghost predicate LoopOk(setup: Setup, b: Ledger, me: Replica) {
    match me.loop
    case Idle => true
    case Checked(c) => c.dim in me.dims && CheckedOk(setup, b, c)
    case Joining(d, run, rest) => d in me.dims && Targets(setup.parts, rest)
      && (rest == [] || (LivesIn(b, run, d) && run in b.runs))
    case Reading(d, run, n, td, rest) =>
      && d in me.dims && Targets(setup.parts, rest) && Targets(setup.parts, [n]) && LivesIn(b, run, d) && run in b.runs
      && PartialPayload(setup.parts, b.completed, n, run, td)
    case Writing(e, rest) =>
      && e.dim in me.dims && Targets(setup.parts, rest) && LivesIn(b, e.run, e.dim)
      && Held(b, e.part, e.run) && Targets(setup.parts, [e.part]) && RightPayload(setup.parts, b.completed, e)
  }

  ghost predicate StartersOk(b: Ledger, me: Replica) {
    forall run :: run in me.starters ==>
      && run in b.runs && me.starters[run].dim in me.dims
      && (forall k :: 0 <= k < |b.created| ==> b.created[k].run != run)
      && (me.starters[run].Chosen? ==> me.starters[run].state != Finished)
      && (me.starters[run].Opened? ==> forall d :: d in me.dims ==> me.dims[d].run != run)
  }

  ghost predicate WorkersOk(b: Ledger, me: Replica) {
    forall w :: w in me.workers ==> me.workers[w].event < |b.created| && b.created[me.workers[w].event].dim in me.dims
  }

  // Started runs only are current, each in one dimension.
  ghost predicate RunsOk(b: Ledger, me: Replica) {
    && (forall d :: d in me.dims ==> me.dims[d].run in b.runs || me.dims[d].run == NIL_RUN)
    && (forall d1, d2 :: d1 in me.dims && d2 in me.dims && d1 != d2 && me.dims[d1].run != NIL_RUN ==>
      me.dims[d1].run != me.dims[d2].run)
  }

  ghost predicate ReplicaOk(setup: Setup, b: Ledger, me: Replica) {
    && me.cursor <= |b.completed|
    && CellsOk(b, me.dims)
    && LoopOk(setup, b, me)
    && StartersOk(b, me)
    && WorkersOk(b, me)
    && RunsOk(b, me)
  }

  // Every event of a run is in the run's dimension, and so is its completion; a completion of no
  // started run is empty.
  ghost predicate DimensionsOk(b: Ledger) {
    && NIL_RUN !in b.runs
    && (forall k, l :: 0 <= k < l < |b.created| && b.created[k].run == b.created[l].run ==>
      b.created[k].dim == b.created[l].dim)
    && (forall j :: 0 <= j < |b.completed| && b.completed[j].run in b.runs ==>
          b.completed[j].src < |b.created| && b.completed[j].dim == b.created[b.completed[j].src].dim)
    && (forall j :: 0 <= j < |b.completed| && b.completed[j].run !in b.runs ==>
      b.completed[j] == Inert(b.completed[j].src))
  }

  ghost predicate BusOk(setup: Setup, b: Ledger) {
    JournalOk(setup, b) && DimensionsOk(b)
  }

  // No two replicas hold the same part of the same run, or start the same run.
  ghost predicate Apart(m1: Replica, m2: Replica) {
    && m1.starters.Keys !! m2.starters.Keys
    && (m1.loop.Writing? && m2.loop.Writing? ==>
      m1.loop.event.part != m2.loop.event.part || m1.loop.event.run != m2.loop.event.run)
  }

  ghost predicate Invariant(setup: Setup, s: System) {
    && BusOk(setup, s.bus)
    && (forall r :: r in s.replicas ==> ReplicaOk(setup, s.bus, s.replicas[r]))
    && (forall r1, r2 :: r1 in s.replicas && r2 in s.replicas && r1 != r2 ==> Apart(s.replicas[r1], s.replicas[r2]))
  }
}
