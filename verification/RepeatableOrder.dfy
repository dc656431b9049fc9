// Conditions on calls and deliveries under which no run loses anything: each dimension is known to
// one replica, rr.New calls for one dimension do not overlap, a run is installed only when no worker
// still holds an event of the dimension, an event is not delivered again while a worker holds it,
// first requests are granted, and writes succeed.
module RepeatableOrder {
  import opened Options
  import opened Story
  import opened Acceptance
  import opened Plan
  import opened Bus
  import opened Journal
  import opened Repeatable
  import opened RepeatableInvariant
  import opened Fencing
  import opened RepeatableProgress

  predicate Mannered(s: System, r: nat, act: Action)
    requires r in s.replicas
  {
    var me := s.replicas[r];
    match act
    case Open(_, d, _) =>
      && (forall run :: run in me.starters ==> me.starters[run].dim != d)
      && (forall q :: q in s.replicas && q != r ==> d !in s.replicas[q].dims)
    case Swap(run) =>
      run in me.starters ==> forall w :: w in me.workers ==> DimOf(s.bus, me.workers[w]) != me.starters[run].dim
    case Check(_, k) => forall w :: w in me.workers ==> me.workers[w].event != k
    case Launch(_, ok) => ok
    case Ask(want) => want || (me.loop.Reading? && ConsId(me.loop.n, me.loop.run) in s.bus.granted)
    case Send(ok) => ok
    case _ => true
  }

  // Replicas may join, and may be rebooted.
  predicate Orderly(setup: Setup, s: System, step: Step) {
    CanStep(setup, s, step) && (step.Step? ==> Mannered(s, step.rep, step.act))
  }

  function DimOf(b: Ledger, w: Worker): string {
    if w.event < |b.created| then b.created[w.event].dim else ""
  }

  ghost predicate OrderlyBehavior(setup: Setup, states: seq<System>, steps: seq<Step>) {
    && Behavior(setup, states, steps)
    && states[0] == INIT
    && forall k {:trigger steps[k]} :: 0 <= k < |steps| ==> Orderly(setup, states[k], steps[k])
  }

  // The cell that a step writes, if it writes one.
  function Target(setup: Setup, b: Ledger, me: Replica, act: Action): Option<(string, string)>
    requires Enabled(setup, b, me, act)
  {
    match act
    case Reset(run) => Some((me.starters[run].dim, me.starters[run].rest[0]))
    case Begin(w) => Some((b.created[me.workers[w].event].dim, b.created[me.workers[w].event].part))
    case Fail(w) => Some((b.created[me.workers[w].event].dim, b.created[me.workers[w].event].part))
    case Record => Some((me.loop.c.dim, PartOf(me.loop.c.part, setup.parts).id))
    case _ => None
  }

  // The step overwrites a cell that is finished in the current run of its dimension.
  predicate Overwrites(setup: Setup, b: Ledger, me: Replica, act: Action)
    requires Enabled(setup, b, me, act)
  {
    match Target(setup, b, me, act)
    case None => false
    case Some((d, p)) => d in me.dims && me.dims[d].run != NIL_RUN && Usable(me.dims[d].cells, p, me.dims[d].run)
  }

  // ----- what order keeps -----

  // Every worker holds a pending event of its own, of the current run of the event's dimension.
  ghost predicate WorkersCurrent(b: Ledger, me: Replica) {
    && (forall w :: w in me.workers ==>
          var k := me.workers[w].event;
          k in b.pending && k < |b.created| && b.created[k].dim in me.dims
            && me.dims[b.created[k].dim].run == b.created[k].run)
    && (forall v, w :: v in me.workers && w in me.workers && v != w ==> me.workers[v].event != me.workers[w].event)
  }

  // The rr.New calls under way are for different dimensions, and their runs are the current ones.
  ghost predicate StartersAlone(me: Replica) {
    && (forall r1, r2 :: r1 in me.starters && r2 in me.starters && r1 != r2 ==>
      me.starters[r1].dim != me.starters[r2].dim)
    && (forall run :: run in me.starters && !me.starters[run].Opened? ==>
          me.starters[run].dim in me.dims && me.dims[me.starters[run].dim].run == run)
  }

  // How many completions the loop has recorded or dropped.
  function Handled(me: Replica): int {
    if me.loop.Checked? then me.cursor - 1 else me.cursor
  }

  ghost predicate RecordedBefore(b: Ledger, p: string, run: Run, n: int) {
    exists j :: 0 <= j < n && j < |b.completed| && b.completed[j].part == p && b.completed[j].run == run
  }

  // A cell that is finished in the current run was recorded from a completion.
  ghost predicate CellsRecorded(b: Ledger, me: Replica) {
    forall d, p :: d in me.dims && me.dims[d].run != NIL_RUN && Usable(me.dims[d].cells, p, me.dims[d].run) ==>
      RecordedBefore(b, p, me.dims[d].run, Handled(me))
  }

  // The completion at hand is the last one read; if its run has been replaced since, nothing of
  // the new run has been read.
  ghost predicate CheckedLast(b: Ledger, me: Replica) {
    me.loop.Checked? ==>
      && 0 < me.cursor <= |b.completed| && b.completed[me.cursor - 1] == me.loop.c
      && (me.loop.c.dim in me.dims && me.dims[me.loop.c.dim].run != me.loop.c.run ==>
            forall j :: 0 <= j < me.cursor ==> b.completed[j].run != me.dims[me.loop.c.dim].run)
  }

  ghost predicate InOrder(b: Ledger, me: Replica) {
    WorkersCurrent(b, me) && StartersAlone(me) && CellsRecorded(b, me) && CheckedLast(b, me)
  }

  // ----- no step overwrites -----

  // A run without created events has no completions.
  lemma NotCreatedNotCompleted(setup: Setup, b: Ledger, run: Run)
    requires BusOk(setup, b) && run in b.runs && forall k :: 0 <= k < |b.created| ==> b.created[k].run != run
    ensures forall j :: 0 <= j < |b.completed| ==> b.completed[j].run != run
  {
    hide RightPayload;
    hide DimensionsOk;
    forall j | 0 <= j < |b.completed| ensures b.completed[j].run != run {
      if b.completed[j].run in b.runs {
        assert b.created[b.completed[j].src].run == b.completed[j].run;
      }
    }
  }

  // The part of a pending event has not completed in its run.
  lemma PendingNotCompleted(setup: Setup, b: Ledger, k: nat, n: int)
    requires BusOk(setup, b) && k in b.pending && k < |b.created|
    ensures !RecordedBefore(b, b.created[k].part, b.created[k].run, n)
  {
    hide RightPayload;
    hide DimensionsOk;
    var e := b.created[k];
    assert e.run in b.runs;
    forall j | 0 <= j < |b.completed| && b.completed[j].run == e.run ensures b.completed[j].part != e.part {
      var l := b.completed[j].src;
      assert b.created[l].part == b.completed[j].part && b.created[l].run == e.run && l != k;
    }
  }

  lemma StarterNotCreated(b: Ledger, me: Replica, run: Run)
    requires StartersOk(b, me) && run in me.starters
    ensures run in b.runs && forall k :: 0 <= k < |b.created| ==> b.created[k].run != run
  {
  }

  lemma NothingOverwritten(setup: Setup, b: Ledger, me: Replica, act: Action)
    requires Sound(setup.parts) && BusOk(setup, b) && ReplicaOk(setup, b, me)
    requires InOrder(b, me) && Enabled(setup, b, me, act)
    ensures !Overwrites(setup, b, me, act)
  {
    hide Sound;
    hide BusOk;
    hide CellsOk;
    hide LoopOk;
    hide RunsOk;
    hide Usable;
    hide StartersOk;
    match act {
      case Reset(run) =>
        StarterNotCreated(b, me, run);
        NotCreatedNotCompleted(setup, b, run);
      case Begin(w) => PendingNotCompleted(setup, b, me.workers[w].event, Handled(me));
      case Fail(w) => PendingNotCompleted(setup, b, me.workers[w].event, Handled(me));
      case Record => RecordIsNew(setup, b, me);
      case _ =>
    }
  }

  lemma RecordIsNew(setup: Setup, b: Ledger, me: Replica)
    requires Sound(setup.parts) && BusOk(setup, b) && ReplicaOk(setup, b, me)
    requires InOrder(b, me) && Enabled(setup, b, me, Record)
    ensures !Overwrites(setup, b, me, Record)
  {
    hide Sound;
    hide BusOk;
    hide CellsOk;
    hide RunsOk;
    hide Usable;
    hide StartersOk;
    hide WorkersCurrent;
    hide StartersAlone;
    var c := me.loop.c;
    var p, cur := PartOf(c.part, setup.parts).id, me.dims[c.dim].run;
    if cur != NIL_RUN && Usable(me.dims[c.dim].cells, p, cur) {
      assert RecordedBefore(b, p, cur, me.cursor - 1);
      var j :| 0 <= j < me.cursor - 1 && j < |b.completed| && b.completed[j].part == p && b.completed[j].run == cur;
      assert cur == c.run;
      assert cur in b.runs && p == c.part by { CheckedNames(setup, b, c); }
      TwiceIsOnce(setup, b, j, me.cursor - 1);
    }
  }

  lemma CheckedNames(setup: Setup, b: Ledger, c: Completion)
    requires CheckedOk(setup, b, c) && c.run != NIL_RUN
    ensures c.run in b.runs && PartOf(c.part, setup.parts).id == c.part
  {
    hide OutputOf;
  }

  // ----- every step keeps the order -----

  // The step of a thread that leaves dimensions, loop and cursor alone, and the ledger's logs, or
  // extends them.
  lemma CellsStayRecorded(b: Ledger, me: Replica, b': Ledger, me': Replica)
    requires CellsRecorded(b, me) && CheckedLast(b, me) && b.completed <= b'.completed
    requires me'.dims == me.dims && me'.loop == me.loop && me'.cursor == me.cursor && me.cursor <= |b.completed|
    ensures CellsRecorded(b', me') && CheckedLast(b', me')
  {
    hide Usable;
    forall d, p | d in me'.dims && me'.dims[d].run != NIL_RUN && Usable(me'.dims[d].cells, p, me'.dims[d].run)
      ensures RecordedBefore(b', p, me'.dims[d].run, Handled(me'))
    {
      assert RecordedBefore(b, p, me.dims[d].run, Handled(me));
      var j :| 0 <= j < Handled(me) && j < |b.completed| && b.completed[j].part == p
        && b.completed[j].run == me.dims[d].run;
      assert b'.completed[j] == b.completed[j];
    }
    if me.loop.Checked? && me.loop.c.dim in me.dims && me.dims[me.loop.c.dim].run != me.loop.c.run {
      forall j | 0 <= j < me.cursor ensures b'.completed[j].run != me.dims[me.loop.c.dim].run {
        assert b'.completed[j] == b.completed[j];
      }
    }
  }

  // Reset, Begin and Fail write a cell that is not finished.
  lemma UnfinishedStaysRecorded(b: Ledger, me: Replica, me': Replica, d: string, p: string, c: Cell)
    requires CellsRecorded(b, me) && CheckedLast(b, me) && d in me.dims && c.state != Finished
    requires me'.dims == SetCell(me.dims, d, p, c) && me'.loop == me.loop && me'.cursor == me.cursor
    ensures CellsRecorded(b, me') && CheckedLast(b, me')
  {
    forall e, q | e in me'.dims && me'.dims[e].run != NIL_RUN && Usable(me'.dims[e].cells, q, me'.dims[e].run)
      ensures RecordedBefore(b, q, me'.dims[e].run, Handled(me'))
    {
      assert Usable(me.dims[e].cells, q, me.dims[e].run);
    }
  }

  ghost predicate SameRuns(me: Replica, me': Replica) {
    forall d :: d in me.dims ==> d in me'.dims && me'.dims[d].run == me.dims[d].run
  }

  // Workers and rr.New calls that stay where they are, in dimensions that keep their runs.
  lemma ThreadsStay(b: Ledger, me: Replica, b': Ledger, me': Replica)
    requires WorkersCurrent(b, me) && StartersAlone(me) && SameRuns(me, me')
    requires me'.workers == me.workers && me'.starters == me.starters
    requires b.pending <= b'.pending && b.created <= b'.created
    ensures WorkersCurrent(b', me') && StartersAlone(me')
  {
  }

  lemma OpenKeepsOrder(setup: Setup, b: Ledger, me: Replica, run: Run, d: string, input: string)
    requires ReplicaOk(setup, b, me) && InOrder(b, me) && Enabled(setup, b, me, Open(run, d, input))
    requires forall r :: r in me.starters ==> me.starters[r].dim != d
    ensures InOrder(ActNew(setup, b, me, Open(run, d, input)).0, ActNew(setup, b, me, Open(run, d, input)).1)
  {
    hide CellsOk;
    hide LoopOk;
    hide RunsOk;
    hide WorkersOk;
    hide StartersOk;
    hide WorkersCurrent;
    hide StartersAlone;
    hide CellsRecorded;
    hide CheckedLast;
    var (b', me') := ActNew(setup, b, me, Open(run, d, input));
    SameWorkers(b, me, b', me');
    StarterComes(me, me', run, d);
    CheckedDim(setup, b, me);
    NewDimensionCells(b, me, b', me', d);
  }

  lemma StarterComes(me: Replica, me': Replica, run: Run, d: string)
    requires StartersAlone(me) && SameRuns(me, me') && forall r :: r in me.starters ==> me.starters[r].dim != d
    requires exists t: Starter :: t.Opened? && t.dim == d && me'.starters == me.starters[run := t]
    ensures StartersAlone(me')
  {
  }

  // A dimension that is new has no run yet.
  lemma NewDimensionCells(b: Ledger, me: Replica, b': Ledger, me': Replica, d: string)
    requires CellsRecorded(b, me) && CheckedLast(b, me) && b'.completed == b.completed
    requires me'.dims == me.dims || (d !in me.dims && me'.dims == me.dims[d := Dimension(Waiting, NIL_RUN, map[])])
    requires me'.loop == me.loop && me'.cursor == me.cursor && (me.loop.Checked? ==> me.loop.c.dim in me.dims)
    ensures CellsRecorded(b', me') && CheckedLast(b', me')
  {
    forall e, q | e in me'.dims && me'.dims[e].run != NIL_RUN && Usable(me'.dims[e].cells, q, me'.dims[e].run)
      ensures RecordedBefore(b', q, me'.dims[e].run, Handled(me'))
    {
      assert RecordedBefore(b, q, me.dims[e].run, Handled(me));
    }
  }

  lemma CheckedDim(setup: Setup, b: Ledger, me: Replica)
    requires LoopOk(setup, b, me)
    ensures me.loop.Checked? ==> me.loop.c.dim in me.dims
  {
    hide CheckedOk;
    hide RightPayload;
    hide PartialPayload;
  }

  lemma SwapKeepsOrder(setup: Setup, b: Ledger, me: Replica, run: Run)
    requires BusOk(setup, b) && ReplicaOk(setup, b, me) && InOrder(b, me) && Enabled(setup, b, me, Swap(run))
    requires forall w :: w in me.workers ==> DimOf(b, me.workers[w]) != me.starters[run].dim
    ensures InOrder(b, ActNew(setup, b, me, Swap(run)).1)
  {
    hide BusOk;
    hide CellsOk;
    hide LoopOk;
    hide RunsOk;
    hide Usable;
    hide CellsRecorded;
    hide CheckedLast;
    hide WorkersCurrent;
    hide StartersAlone;
    StarterNotCreated(b, me, run);
    NotCreatedNotCompleted(setup, b, run);
    SwapKeepsCells(setup, b, me, run);
    SwapKeepsThreads(setup, b, me, run);
  }

  lemma SwapKeepsThreads(setup: Setup, b: Ledger, me: Replica, run: Run)
    requires WorkersCurrent(b, me) && StartersAlone(me) && Enabled(setup, b, me, Swap(run))
    requires forall w :: w in me.workers ==> DimOf(b, me.workers[w]) != me.starters[run].dim
    ensures var me' := ActNew(setup, b, me, Swap(run)).1; WorkersCurrent(b, me') && StartersAlone(me')
  {
    hide PartIdList;
  }

  lemma SwapKeepsCells(setup: Setup, b: Ledger, me: Replica, run: Run)
    requires CellsOk(b, me.dims) && CellsRecorded(b, me) && CheckedLast(b, me) && Enabled(setup, b, me, Swap(run))
    requires run in b.runs && forall j :: 0 <= j < |b.completed| ==> b.completed[j].run != run
    ensures var me' := ActNew(setup, b, me, Swap(run)).1; CellsRecorded(b, me') && CheckedLast(b, me')
  {
    hide CellOk;
    hide PartIdList;
    var me' := ActNew(setup, b, me, Swap(run)).1;
    var t := me.starters[run].dim;
    forall e, q | e in me'.dims && me'.dims[e].run != NIL_RUN && Usable(me'.dims[e].cells, q, me'.dims[e].run)
      ensures RecordedBefore(b, q, me'.dims[e].run, Handled(me'))
    {
      if e == t {
        NoneUsableYet(b, q, me.dims[t].cells[q], run);
      } else {
        assert RecordedBefore(b, q, me.dims[e].run, Handled(me));
      }
    }
  }

  lemma NoneUsableYet(b: Ledger, p: string, c: Cell, run: Run)
    requires CellOk(b, p, c) && run in b.runs && forall j :: 0 <= j < |b.completed| ==> b.completed[j].run != run
    ensures c.state != Finished || c.run != run
  {
  }

  lemma ResetKeepsOrder(setup: Setup, b: Ledger, me: Replica, run: Run)
    requires ReplicaOk(setup, b, me) && InOrder(b, me) && Enabled(setup, b, me, Reset(run))
    ensures InOrder(b, ActNew(setup, b, me, Reset(run)).1)
  {
    hide CellsOk;
    hide LoopOk;
    hide RunsOk;
    hide WorkersOk;
    hide StartersOk;
    hide Usable;
    hide WorkersCurrent;
    hide StartersAlone;
    hide CellsRecorded;
    hide CheckedLast;
    var t := me.starters[run];
    var c := Cell(t.state, NIL_RUN, []);
    var wrote := me.(dims := SetCell(me.dims, t.dim, t.rest[0], c));
    assert t.state != Finished by { StarterState(b, me, run); }
    UnfinishedStaysRecorded(b, me, wrote, t.dim, t.rest[0], c);
    ThreadsStay(b, me, b, wrote);
    StarterMoves(b, wrote, run, Resetting(t.dim, t.input, t.rest[1..]));
  }

  lemma StarterState(b: Ledger, me: Replica, run: Run)
    requires StartersOk(b, me) && run in me.starters && me.starters[run].Chosen?
    ensures me.starters[run].state != Finished
  {
  }

  lemma StarterMoves(b: Ledger, me: Replica, run: Run, t: Starter)
    requires InOrder(b, me) && run in me.starters && !me.starters[run].Opened? && t.dim == me.starters[run].dim
    ensures InOrder(b, me.(starters := me.starters[run := t]))
  {
    hide Usable;
    hide WorkersCurrent;
    hide CellsRecorded;
    hide CheckedLast;
    var me' := me.(starters := me.starters[run := t]);
    SameWorkers(b, me, b, me');
    CellsOfSame(b, me, me');
  }

  lemma SameWorkers(b: Ledger, me: Replica, b': Ledger, me': Replica)
    requires WorkersCurrent(b, me) && me'.workers == me.workers && SameRuns(me, me')
    requires b.pending <= b'.pending && b.created <= b'.created
    ensures WorkersCurrent(b', me')
  {
  }

  lemma CellsOfSame(b: Ledger, me: Replica, me': Replica)
    requires CellsRecorded(b, me) && CheckedLast(b, me)
    requires me'.dims == me.dims && me'.loop == me.loop && me'.cursor == me.cursor
    ensures CellsRecorded(b, me') && CheckedLast(b, me')
  {
    hide Usable;
    hide RecordedBefore;
  }

  lemma PeekKeepsOrder(setup: Setup, b: Ledger, me: Replica, run: Run)
    requires InOrder(b, me) && Enabled(setup, b, me, Peek(run))
    ensures InOrder(b, ActNew(setup, b, me, Peek(run)).1)
  {
    hide InOrder;
    var t := me.starters[run];
    StarterMoves(b, me, run, Chosen(t.dim, t.input, t.rest, ResetState(me.dims[t.dim].cells, t.rest[0])));
  }

  lemma LaunchKeepsOrder(setup: Setup, b: Ledger, me: Replica, run: Run, ok: bool)
    requires ReplicaOk(setup, b, me) && InOrder(b, me) && Enabled(setup, b, me, Launch(run, ok))
    ensures InOrder(ActNew(setup, b, me, Launch(run, ok)).0, ActNew(setup, b, me, Launch(run, ok)).1)
  {
    hide CellsOk;
    hide LoopOk;
    hide RunsOk;
    hide StartersOk;
    hide Usable;
    hide CellsRecorded;
    hide CheckedLast;
    hide TypeOf;
    var (b', me') := ActNew(setup, b, me, Launch(run, ok));
    CellsStayRecorded(b, me, b', me');
  }

  // A stale event that nobody holds is acknowledged, or a worker passes its run check.
  lemma CheckKeepsOrder(setup: Setup, b: Ledger, me: Replica, w: nat, k: nat)
    requires ReplicaOk(setup, b, me) && InOrder(b, me) && Enabled(setup, b, me, Check(w, k))
    requires forall v :: v in me.workers ==> me.workers[v].event != k
    ensures InOrder(ActRead(setup, b, me, Check(w, k)).0, ActRead(setup, b, me, Check(w, k)).1)
  {
    hide CellsOk;
    hide LoopOk;
    hide RunsOk;
    hide StartersOk;
    hide Usable;
    hide CellsRecorded;
    hide CheckedLast;
    var (b', me') := ActRead(setup, b, me, Check(w, k));
    CellsStayRecorded(b, me, b', me');
  }

  // A worker that marks its part keeps its event; one that is done lets it go.
  lemma MarkKeepsOrder(setup: Setup, b: Ledger, me: Replica, w: nat, state: State, workers: map<nat, Worker>)
    requires InOrder(b, me) && w in me.workers && state != Finished
    requires me.workers[w].event < |b.created| && b.created[me.workers[w].event].dim in me.dims
    requires workers == me.workers - {w} || workers == me.workers[w := Running(me.workers[w].event)]
    ensures var e := b.created[me.workers[w].event];
      InOrder(b, me.(dims := SetCell(me.dims, e.dim, e.part, Cell(state, NIL_RUN, [])), workers := workers))
  {
    hide Usable;
    hide StartersAlone;
    hide CellsRecorded;
    hide CheckedLast;
    var e := b.created[me.workers[w].event];
    var me' := me.(dims := SetCell(me.dims, e.dim, e.part, Cell(state, NIL_RUN, [])), workers := workers);
    UnfinishedStaysRecorded(b, me, me', e.dim, e.part, Cell(state, NIL_RUN, []));
    assert StartersAlone(me') by { SameStarters(me, me'); }
  }

  lemma SameStarters(me: Replica, me': Replica)
    requires StartersAlone(me) && me'.starters == me.starters && SameRuns(me, me')
    ensures StartersAlone(me')
  {
  }

  lemma LetGoKeepsOrder(setup: Setup, b: Ledger, me: Replica, act: Action)
    requires ReplicaOk(setup, b, me) && InOrder(b, me) && Enabled(setup, b, me, act) && (act.Drop? || act.Finish?)
    ensures InOrder(ActRead(setup, b, me, act).0, ActRead(setup, b, me, act).1)
  {
    hide CellsOk;
    hide LoopOk;
    hide RunsOk;
    hide StartersOk;
    hide StartersAlone;
    hide Usable;
    hide CellsRecorded;
    hide CheckedLast;
    hide TypeOf;
    var (b', me') := ActRead(setup, b, me, act);
    CellsStayRecorded(b, me, b', me');
    assert StartersAlone(me') by { SameStarters(me, me'); }
  }

  lemma TakeKeepsOrder(setup: Setup, b: Ledger, me: Replica)
    requires InOrder(b, me) && Enabled(setup, b, me, Take)
    ensures InOrder(b, ActLoop(setup, b, me, Take).1)
  {
    hide Usable;
    hide WorkersCurrent;
    hide StartersAlone;
    var me' := ActLoop(setup, b, me, Take).1;
    ThreadsStay(b, me, b, me');
    forall d, p | d in me'.dims && me'.dims[d].run != NIL_RUN && Usable(me'.dims[d].cells, p, me'.dims[d].run)
      ensures RecordedBefore(b, p, me'.dims[d].run, Handled(me'))
    {
      assert RecordedBefore(b, p, me.dims[d].run, Handled(me));
    }
  }

  lemma RecordKeepsOrder(setup: Setup, b: Ledger, me: Replica)
    requires ReplicaOk(setup, b, me) && InOrder(b, me) && Enabled(setup, b, me, Record)
    ensures InOrder(b, ActLoop(setup, b, me, Record).1)
  {
    hide CellsOk;
    hide RunsOk;
    hide StartersOk;
    hide WorkersOk;
    hide WorkersCurrent;
    hide StartersAlone;
    hide OutputOf;
    hide LivesIn;
    var me' := ActLoop(setup, b, me, Record).1;
    ThreadsStay(b, me, b, me');
    var c := me.loop.c;
    forall d, p | d in me'.dims && me'.dims[d].run != NIL_RUN && Usable(me'.dims[d].cells, p, me'.dims[d].run)
      ensures RecordedBefore(b, p, me'.dims[d].run, Handled(me'))
    {
      if Usable(me.dims[d].cells, p, me.dims[d].run) {
        assert RecordedBefore(b, p, me.dims[d].run, Handled(me));
      } else {
        CheckedNames(setup, b, c);
        assert b.completed[me.cursor - 1] == c;
      }
    }
  }

  lemma LoopKeepsOrder(setup: Setup, b: Ledger, me: Replica, act: Action)
    requires InOrder(b, me) && Enabled(setup, b, me, act) && (act.Follow? || act.Look? || act.Ask? || act.Send?)
    ensures InOrder(ActLoop(setup, b, me, act).0, ActLoop(setup, b, me, act).1)
  {
    hide WorkersCurrent;
    hide StartersAlone;
    hide CellsRecorded;
    hide Usable;
    hide Prev;
    var (b', me') := ActLoop(setup, b, me, act);
    ThreadsStay(b, me, b', me');
    SameHandled(b, me, b', me');
  }

  lemma SameHandled(b: Ledger, me: Replica, b': Ledger, me': Replica)
    requires CellsRecorded(b, me) && b'.completed == b.completed
    requires me'.dims == me.dims && me'.cursor == me.cursor && !me.loop.Checked? && !me'.loop.Checked?
    ensures CellsRecorded(b', me')
  {
    hide Usable;
    forall d, p | d in me'.dims && me'.dims[d].run != NIL_RUN && Usable(me'.dims[d].cells, p, me'.dims[d].run)
      ensures RecordedBefore(b', p, me'.dims[d].run, Handled(me'))
    {
      assert RecordedBefore(b, p, me.dims[d].run, Handled(me));
    }
  }

  lemma OrderlyActKeeps(setup: Setup, b: Ledger, me: Replica, act: Action)
    requires Sound(setup.parts) && BusOk(setup, b) && ReplicaOk(setup, b, me)
    requires InOrder(b, me) && Enabled(setup, b, me, act)
    requires act.Open? ==> forall run :: run in me.starters ==> me.starters[run].dim != act.dim
    requires act.Swap? ==> forall w :: w in me.workers ==> DimOf(b, me.workers[w]) != me.starters[act.run].dim
    requires act.Check? ==> forall w :: w in me.workers ==> me.workers[w].event != act.event
    ensures InOrder(Act(setup, b, me, act).0, Act(setup, b, me, act).1)
  {
    hide Sound;
    hide BusOk;
    hide ReplicaOk;
    hide InOrder;
    match act {
      case Open(run, d, input) => OpenKeepsOrder(setup, b, me, run, d, input);
      case Swap(run) => SwapKeepsOrder(setup, b, me, run);
      case Peek(run) => PeekKeepsOrder(setup, b, me, run);
      case Reset(run) => ResetKeepsOrder(setup, b, me, run);
      case Launch(run, ok) => LaunchKeepsOrder(setup, b, me, run, ok);
      case Check(w, k) => CheckKeepsOrder(setup, b, me, w, k);
      case Begin(w) => MarkKeepsOrder(setup, b, me, w, Started, me.workers[w := Running(me.workers[w].event)]);
      case Fail(w) => MarkKeepsOrder(setup, b, me, w, Repeatable.Failed, me.workers - {w});
      case Take => TakeKeepsOrder(setup, b, me);
      case Record => RecordKeepsOrder(setup, b, me);
      case _ =>
        if act.Drop? || act.Finish? {
          LetGoKeepsOrder(setup, b, me, act);
        } else {
          LoopKeepsOrder(setup, b, me, act);
        }
    }
  }

  // ----- the other replicas -----

  // Another replica, which knows none of the dimensions, keeps the order too.
  lemma OthersKeepOrder(setup: Setup, b: Ledger, other: Replica, act: Action, me: Replica)
    requires ReplicaOk(setup, b, me) && ReplicaOk(setup, b, other) && InOrder(b, me) && Enabled(setup, b, other, act)
    requires forall d :: d in me.dims ==> d !in other.dims
    ensures InOrder(Act(setup, b, other, act).0, me)
  {
    hide ReplicaOk;
    hide Act;
    hide Enabled;
    hide WorkersCurrent;
    hide StartersAlone;
    hide CellsRecorded;
    hide CheckedLast;
    var b' := Act(setup, b, other, act).0;
    assert WorkersOk(b, other) by { WorkersOf(setup, b, other); }
    LogsGrow(setup, b, other, act);
    assert me.cursor <= |b.completed| by { CursorFits(setup, b, me); }
    CellsStayRecorded(b, me, b', me);
    WorkersStayCurrent(b, me, b', other.dims.Keys);
  }

  lemma WorkersOf(setup: Setup, b: Ledger, me: Replica)
    requires ReplicaOk(setup, b, me)
    ensures WorkersOk(b, me)
  {
  }

  // The logs only grow, and only events of known dimensions are acknowledged.
  lemma LogsGrow(setup: Setup, b: Ledger, me: Replica, act: Action)
    requires WorkersOk(b, me) && Enabled(setup, b, me, act)
    ensures var b' := Act(setup, b, me, act).0;
      && b.created <= b'.created && b.completed <= b'.completed
      && forall k :: k in b.pending && k < |b.created| && b.created[k].dim !in me.dims ==> k in b'.pending
  {
    hide Usable;
    hide PartIdList;
    hide TypeOf;
    hide ResetState;
    hide ConsId;
  }

  lemma WorkersStayCurrent(b: Ledger, me: Replica, b': Ledger, known: set<string>)
    requires WorkersCurrent(b, me) && b.created <= b'.created && forall d :: d in me.dims ==> d !in known
    requires forall k :: k in b.pending && k < |b.created| && b.created[k].dim !in known ==> k in b'.pending
    ensures WorkersCurrent(b', me)
  {
  }

  // ----- whole behaviors -----

  // No two replicas know the same dimension.
  ghost predicate DimsApart(s: System) {
    forall q, r, d :: q in s.replicas && r in s.replicas && q != r && d in s.replicas[q].dims ==>
      d !in s.replicas[r].dims
  }

  ghost predicate Ordered(setup: Setup, s: System) {
    && Fenced(setup, s)
    && DimsApart(s)
    && (forall r :: r in s.replicas ==> InOrder(s.bus, s.replicas[r]))
  }

  lemma DimsAfter(setup: Setup, b: Ledger, me: Replica, act: Action)
    requires Enabled(setup, b, me, act)
    ensures Act(setup, b, me, act).1.dims.Keys <= me.dims.Keys + if act.Open? then {act.dim} else {}
  {
    hide Usable;
    hide PartIdList;
    hide TypeOf;
    hide ResetState;
  }

  lemma OrderlyStepKeeps(setup: Setup, s: System, step: Step)
    requires Sound(setup.parts) && Ordered(setup, s) && Orderly(setup, s, step)
    ensures Ordered(setup, Apply(setup, s, step))
  {
    hide Sound;
    hide Fenced;
    hide InOrder;
    hide Act;
    hide Enabled;
    StepStaysFenced(setup, s, step);
    match step
    case Boot(r) => FreshInOrder(s.bus);
    case Step(r, act) =>
      var me := s.replicas[r];
      var (b', me') := Act(setup, s.bus, me, act);
      DimsAfter(setup, s.bus, me, act);
      ActorKeepsOrder(setup, s, r, act);
      forall q | q in s.replicas && q != r ensures InOrder(b', s.replicas[q]) {
        FencedReplicas(setup, s, q);
        FencedReplicas(setup, s, r);
        OthersKeepOrder(setup, s.bus, me, act, s.replicas[q]);
      }
  }

  lemma FreshInOrder(b: Ledger)
    ensures InOrder(b, FRESH)
  {
  }

  lemma FencedReplicas(setup: Setup, s: System, r: nat)
    requires Fenced(setup, s) && r in s.replicas
    ensures BusOk(setup, s.bus) && ReplicaOk(setup, s.bus, s.replicas[r]) && InPlace(s.bus, s.replicas[r])
  {
    hide BusOk;
    hide ReplicaOk;
    hide InPlace;
  }

  lemma ActorKeepsOrder(setup: Setup, s: System, r: nat, act: Action)
    requires Sound(setup.parts) && Ordered(setup, s) && Orderly(setup, s, Step(r, act))
    ensures InOrder(Act(setup, s.bus, s.replicas[r], act).0, Act(setup, s.bus, s.replicas[r], act).1)
  {
    hide Sound;
    hide Fenced;
    hide InOrder;
    hide Act;
    FencedReplicas(setup, s, r);
    hide ReplicaOk;
    hide BusOk;
    OrderlyActKeeps(setup, s.bus, s.replicas[r], act);
  }

  lemma {:induction false} OrderlyStays(setup: Setup, states: seq<System>, steps: seq<Step>, k: nat)
    requires Sound(setup.parts) && OrderlyBehavior(setup, states, steps) && k <= |steps|
    ensures Ordered(setup, states[k])
    decreases k
  {
    hide Sound;
    hide Ordered;
    hide Apply;
    hide Orderly;
    hide CanStep;
    if k == 0 {
      NothingOrdered(setup);
    } else {
      OrderlyStays(setup, states, steps, k - 1);
      assert Orderly(setup, states[k - 1], steps[k - 1]);
      OrderlyStepKeeps(setup, states[k - 1], steps[k - 1]);
    }
  }

  lemma NothingOrdered(setup: Setup)
    ensures Ordered(setup, INIT)
  {
    EmptyBusOk(setup);
  }

  // ----- no step loses anything -----

  // Only an overwrite can do harm.
  lemma HarmsOverwrites(setup: Setup, b: Ledger, me: Replica, act: Action, x: Run)
    requires ReplicaOk(setup, b, me) && Enabled(setup, b, me, act) && Replaced(setup, b, me, act) != x && x != NIL_RUN
    requires Harms(setup, b, me, Act(setup, b, me, act).1, x)
    ensures Overwrites(setup, b, me, act)
  {
    hide CellsOk;
    hide LoopOk;
    hide RunsOk;
    hide WorkersOk;
    hide StartersOk;
    hide Needed;
    hide TypeOf;
    hide PartIdList;
    hide Act;
    var me' := Act(setup, b, me, act).1;
    var d :| d in me.dims && d in me'.dims && me.dims[d].run == x && !NoHarm(setup, b, me, d, me'.dims[d].cells, x);
    var p :| Usable(me.dims[d].cells, p, x) && !Usable(me'.dims[d].cells, p, x);
    if Target(setup, b, me, act) != Some((d, p)) {
      OnlyTargetsChange(setup, b, me, act, d, p);
    }
  }

  lemma OnlyTargetsChange(setup: Setup, b: Ledger, me: Replica, act: Action, d: string, p: string)
    requires Enabled(setup, b, me, act) && d in me.dims && d in Act(setup, b, me, act).1.dims
    requires p in me.dims[d].cells
    requires Target(setup, b, me, act) != Some((d, p))
    ensures var cells := Act(setup, b, me, act).1.dims[d].cells; p in cells && cells[p] == me.dims[d].cells[p]
  {
    hide Usable;
    hide TypeOf;
    hide PartIdList;
    hide ResetState;
  }

  lemma OrderlyLosesNothing(setup: Setup, s: System, step: Step, q: nat, x: Run)
    requires Sound(setup.parts) && Ordered(setup, s) && Orderly(setup, s, step) && HeldBy(s, q, x) && x != NIL_RUN
    requires !Ends(setup, s, step, q, x)
    ensures !Loses(setup, s, step, q, x)
  {
    hide Sound;
    hide Fenced;
    hide InOrder;
    hide BusOk;
    hide ReplicaOk;
    hide InPlace;
    hide Act;
    hide Overwrites;
    hide Harms;
    if step.Step? {
      FencedReplicas(setup, s, q);
      if step.rep == q {
        NothingOverwritten(setup, s.bus, s.replicas[q], step.act);
        if Harms(setup, s.bus, s.replicas[q], Act(setup, s.bus, s.replicas[q], step.act).1, x) {
          HarmsOverwrites(setup, s.bus, s.replicas[q], step.act, x);
        }
      } else if step.act.Check? && s.bus.created[step.act.event].run == x {
        EventsStayHome(s.bus, s.replicas[q], step.act.event, x);
      }
    }
  }

  lemma EventsStayHome(b: Ledger, me: Replica, k: nat, x: Run)
    requires InPlace(b, me) && Holds(me, x) && x != NIL_RUN && k < |b.created| && b.created[k].run == x
    ensures b.created[k].dim in me.dims
  {
    var d :| d in me.dims && me.dims[d].run == x;
    assert LivesOnlyIn(b, me, x, d);
  }

  // With any number of replicas, whatever is restarted when: under these conditions the current run
  // of every dimension has completed every part by the time that nothing of it is left to do.
  lemma OrderlyRunFinishes(setup: Setup, states: seq<System>, steps: seq<Step>, q: nat, d: string)
    requires Sound(setup.parts) && OrderlyBehavior(setup, states, steps)
    requires q in states[|steps|].replicas && d in states[|steps|].replicas[q].dims
    requires var x := states[|steps|].replicas[q].dims[d].run; x != NIL_RUN && Settled(states[|steps|], q, x)
    ensures Complete(setup, states[|steps|].bus, states[|steps|].replicas[q].dims[d].run)
  {
    hide Sound;
    hide Orderly;
    hide Apply;
    hide Ends;
    hide Loses;
    hide Settled;
    hide Complete;
    var x := states[|steps|].replicas[q].dims[d].run;
    HeldExactly(setup, states, steps, q, x, |steps|);
    var i: nat :| HeldSince(setup, states, steps, q, x, i, |steps|);
    forall m | i < m < |steps| ensures !Loses(setup, states[m], steps[m], q, x) {
      assert HeldSince(setup, states, steps, q, x, i, m);
      HeldExactly(setup, states, steps, q, x, m);
      OrderlyStays(setup, states, steps, m);
      assert Orderly(setup, states[m], steps[m]);
      OrderlyLosesNothing(setup, states[m], steps[m], q, x);
    }
    RunFinishesExactly(setup, states, steps, q, x, i);
  }
}
