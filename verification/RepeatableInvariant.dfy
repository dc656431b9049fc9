// Every step of every thread of the repeatable reader keeps the invariant.
module RepeatableInvariant {
  import opened Story
  import opened Acceptance
  import opened Plan
  import opened Bus
  import opened Journal
  import opened Repeatable

  // ----- what a change of the shared ledger means for a replica -----

  lemma OutputStays(completed: seq<Completion>, more: seq<Completion>, p: string, run: Run, d: Data)
    requires OutputOf(completed, p, run, d)
    ensures OutputOf(completed + more, p, run, d)
  {
    var j :| 0 <= j < |completed| && completed[j].part == p && completed[j].run == run && completed[j].data == [d];
    assert (completed + more)[j] == completed[j];
  }

  lemma LivesOn(b: Ledger, b': Ledger, run: Run, d: string)
    requires LivesIn(b, run, d) && b.created <= b'.created
    ensures LivesIn(b', run, d)
  {
    var k :| 0 <= k < |b.created| && b.created[k].run == run && b.created[k].dim == d;
    assert b'.created[k] == b.created[k];
  }

  lemma OpenStays(setup: Setup, b: Ledger, m: Replica, run: Run)
    requires ReplicaOk(setup, b, m) && run !in b.runs && run != NIL_RUN
    ensures ReplicaOk(setup, b.(runs := b.runs + {run}), m)
  {
    hide LoopOk;
    hide CellOk;
    var b' := b.(runs := b.runs + {run});
    LoopOkStays(setup, b, m, b');
    assert CellsOk(b', m.dims) by {
      forall d, p | d in m.dims && p in m.dims[d].cells ensures CellOk(b', p, m.dims[d].cells[p]) {
        assert CellOk(b, p, m.dims[d].cells[p]);
        CellOkStays(b, run, p, m.dims[d].cells[p]);
      }
    }
  }

  lemma CellOkStays(b: Ledger, run: Run, p: string, c: Cell)
    requires CellOk(b, p, c) && run !in b.runs && run != NIL_RUN
    ensures CellOk(b.(runs := b.runs + {run}), p, c)
  {
    hide OutputOf;
  }

  // More runs and more grants do not matter to what the loop has at hand.
  lemma LoopOkStays(setup: Setup, b: Ledger, m: Replica, b': Ledger)
    requires LoopOk(setup, b, m) && b.runs <= b'.runs && b.granted <= b'.granted
    requires b'.created == b.created && b'.completed == b.completed
    requires NIL_RUN in b'.runs ==> NIL_RUN in b.runs
    ensures LoopOk(setup, b', m)
  {
    hide OutputOf;
    hide RightPayload;
    hide Targets;
    hide ConsId;
    match m.loop
    case Idle =>
    case Checked(c) => if c.run in b.runs { LivesOn(b, b', c.run, c.dim); }
    case Joining(d, r, rest) => if rest != [] { LivesOn(b, b', r, d); }
    case Reading(d, r, _, _, _) => LivesOn(b, b', r, d);
    case Writing(e, _) => LivesOn(b, b', e.run, e.dim);
  }

  lemma AckStays(setup: Setup, b: Ledger, m: Replica, c: Completion)
    requires ReplicaOk(setup, b, m)
    ensures ReplicaOk(setup, Acknowledge(b, c), m)
  {
    hide OutputOf;
    var b' := Acknowledge(b, c);
    assert b'.completed == b.completed + [c];
    assert CellsOk(b', m.dims) by {
      forall d, p | d in m.dims && p in m.dims[d].cells ensures CellOk(b', p, m.dims[d].cells[p]) {
        var cell := m.dims[d].cells[p];
        assert CellOk(b, p, cell);
        if cell.state == Finished && cell.run in b.runs { OutputStays(b.completed, [c], p, cell.run, cell.data[0]); }
      }
    }
    assert LoopOk(setup, b', m) by {
      match m.loop
      case Idle =>
      case Checked(x) =>
        if x.run in b.runs { OutputStays(b.completed, [c], x.part, x.run, x.data[0]); LivesOn(b, b', x.run, x.dim); }
      case Joining(d, r, rest) => if rest != [] { LivesOn(b, b', r, d); }
      case Reading(d, r, n, td, _) =>
        LivesOn(b, b', r, d);
        forall i | 0 <= i < |td| ensures OutputOf(b'.completed, Prev(setup.parts, n)[i], r, td[i]) {
          OutputStays(b.completed, [c], Prev(setup.parts, n)[i], r, td[i]);
        }
      case Writing(e, _) => LivesOn(b, b', e.run, e.dim); PayloadStays(setup.parts, b.completed, [c], e);
    }
  }

  lemma GrantStays(setup: Setup, b: Ledger, m: Replica, part: string, run: Run)
    requires ReplicaOk(setup, b, m)
    ensures ReplicaOk(setup, Grant(b, ConsId(part, run)), m)
  {
    hide LoopOk;
    hide ConsId;
    var b' := Grant(b, ConsId(part, run));
    LoopOkStays(setup, b, m, b');
  }

  lemma PublishStays(setup: Setup, b: Ledger, m: Replica, e: Event)
    requires ReplicaOk(setup, b, m) && e.run !in m.starters
    requires m.loop.Writing? ==> m.loop.event.part != e.part || m.loop.event.run != e.run
    ensures ReplicaOk(setup, Publish(b, e), m)
  {
    hide OutputOf;
    hide RightPayload;
    var b' := Publish(b, e);
    assert LoopOk(setup, b', m) by {
      match m.loop
      case Idle =>
      case Checked(c) => if c.run in b.runs { LivesOn(b, b', c.run, c.dim); }
      case Joining(d, r, rest) => if rest != [] { LivesOn(b, b', r, d); }
      case Reading(d, r, _, _, _) => LivesOn(b, b', r, d);
      case Writing(x, _) => LivesOn(b, b', x.run, x.dim); OthersStayHeld(b, e, x.part, x.run);
    }
    assert CellsOk(b', m.dims) by {
      forall d, p | d in m.dims && p in m.dims[d].cells ensures CellOk(b', p, m.dims[d].cells[p]) {
        assert CellOk(b, p, m.dims[d].cells[p]);
      }
    }
  }

  // ----- the ledger itself -----

  lemma OpenKeepsBus(setup: Setup, b: Ledger, run: Run)
    requires BusOk(setup, b) && run !in b.runs && run != NIL_RUN
    ensures BusOk(setup, b.(runs := b.runs + {run}))
  {
    hide RightPayload;
    hide IsPart;
  }

  // The completion is the event's, with one output of its part's type.
  ghost predicate Reports(setup: Setup, e: Event, c: Completion) {
    && c.part == e.part && c.run == e.run && c.dim == e.dim
    && |c.data| == 1 && c.data[0].typ == TypeOf(setup, c.part)
  }

  lemma AckKeepsBus(setup: Setup, b: Ledger, c: Completion)
    requires BusOk(setup, b) && c.src in b.pending
    requires c == Inert(c.src) || Reports(setup, b.created[c.src], c)
    ensures BusOk(setup, Acknowledge(b, c))
  {
    hide RightPayload;
    hide IsPart;
    hide TypeOf;
    var b' := Acknowledge(b, c);
    forall k | 0 <= k < |b.created| && b.created[k].part != START
      ensures RightPayload(setup.parts, b'.completed, b.created[k])
    {
      PayloadStays(setup.parts, b.completed, [c], b.created[k]);
    }
  }

  lemma GrantKeepsBus(setup: Setup, b: Ledger, part: string, run: Run)
    requires BusOk(setup, b) && run in b.runs && part != START && ConsId(part, run) !in b.granted
    ensures BusOk(setup, Grant(b, ConsId(part, run)))
  {
    hide RightPayload;
    hide IsPart;
    hide ConsId;
  }

  lemma LaunchKeepsBus(setup: Setup, b: Ledger, e: Event)
    requires BusOk(setup, b) && e.part == START && e.run in b.runs && IsPart(setup.parts, START)
    requires forall k :: 0 <= k < |b.created| ==> b.created[k].run != e.run
    ensures BusOk(setup, Publish(b, e))
  {
    hide RightPayload;
    hide IsPart;
    assert b.runs + {e.run} == b.runs;
    PublishStart(b, e);
  }

  lemma SendKeepsBus(setup: Setup, b: Ledger, e: Event)
    requires BusOk(setup, b) && Held(b, e.part, e.run) && IsPart(setup.parts, e.part) && Prev(setup.parts, e.part) != []
    requires RightPayload(setup.parts, b.completed, e) && LivesIn(b, e.run, e.dim)
    ensures BusOk(setup, Publish(b, e))
  {
    hide RightPayload;
    hide IsPart;
    hide DimensionsOk;
    PublishHeld(b, e);
    SendKeepsDimensions(b, e);
  }

  lemma SendKeepsDimensions(b: Ledger, e: Event)
    requires DimensionsOk(b) && LivesIn(b, e.run, e.dim)
    ensures DimensionsOk(Publish(b, e))
  {
    var k :| 0 <= k < |b.created| && b.created[k].run == e.run && b.created[k].dim == e.dim;
  }

  // ----- steps that change only the replica's own state -----

  // No opened run is current anywhere yet.
  ghost predicate OpenedUnused(m: Replica, dims: map<string, Dimension>) {
    forall run, d :: run in m.starters && m.starters[run].Opened? && d in dims ==> dims[d].run != run
  }

  // More or changed dimensions, with everything else as it was.
  lemma DimsKeep(setup: Setup, b: Ledger, m: Replica, dims: map<string, Dimension>)
    requires ReplicaOk(setup, b, m) && m.dims.Keys <= dims.Keys
    requires CellsOk(b, dims) && RunsOk(b, m.(dims := dims)) && OpenedUnused(m, dims)
    ensures ReplicaOk(setup, b, m.(dims := dims))
  {
    hide CellsOk;
    hide RunsOk;
    hide CheckedOk;
    hide RightPayload;
    hide PartialPayload;
    hide Held;
    hide LivesIn;
    var m' := m.(dims := dims);
    assert StartersOk(b, m');
    assert WorkersOk(b, m');
    assert LoopOk(setup, b, m');
  }

  // Writing a cell that holds no output, or a right one, keeps the cells.
  lemma CellsSet(b: Ledger, dims: map<string, Dimension>, d: string, p: string, c: Cell)
    requires CellsOk(b, dims) && d in dims && CellOk(b, p, c)
    ensures CellsOk(b, SetCell(dims, d, p, c))
  {
    hide CellOk;
    var dims' := SetCell(dims, d, p, c);
    forall e, q | e in dims' && q in dims'[e].cells ensures CellOk(b, q, dims'[e].cells[q]) {
      if e == d && q != p { assert q in dims[d].cells; }
    }
  }

  // Changing cells only leaves the runs alone.
  lemma RunsSame(b: Ledger, m: Replica, d: string, dim: Dimension)
    requires RunsOk(b, m) && StartersOk(b, m) && d in m.dims && dim.run == m.dims[d].run
    ensures RunsOk(b, m.(dims := m.dims[d := dim])) && OpenedUnused(m, m.dims[d := dim])
  {
  }

  lemma SetCellKeeps(setup: Setup, b: Ledger, m: Replica, d: string, p: string, c: Cell)
    requires ReplicaOk(setup, b, m) && d in m.dims && CellOk(b, p, c)
    ensures ReplicaOk(setup, b, m.(dims := SetCell(m.dims, d, p, c)))
  {
    hide CellsOk;
    hide RunsOk;
    hide CellOk;
    hide LoopOk;
    hide StartersOk;
    hide OpenedUnused;
    CellsSet(b, m.dims, d, p, c);
    RunsSame(b, m, d, m.dims[d].(cells := m.dims[d].cells[p := c]));
    DimsKeep(setup, b, m, SetCell(m.dims, d, p, c));
  }

  // A dimension nobody has started.
  lemma NewDimension(b: Ledger, m: Replica, d: string)
    requires RunsOk(b, m) && StartersOk(b, m) && CellsOk(b, m.dims) && d !in m.dims && NIL_RUN !in b.runs
    ensures var dims := m.dims[d := Dimension(Waiting, NIL_RUN, map[])];
      RunsOk(b, m.(dims := dims)) && OpenedUnused(m, dims) && CellsOk(b, dims)
  {
    hide CellOk;
  }

  lemma StarterJoins(setup: Setup, b: Ledger, m: Replica, run: Run, t: Starter)
    requires ReplicaOk(setup, b, m) && t.Opened? && t.dim in m.dims && run in b.runs
    requires forall d :: d in m.dims ==> m.dims[d].run != run
    requires forall k :: 0 <= k < |b.created| ==> b.created[k].run != run
    ensures ReplicaOk(setup, b, m.(starters := m.starters[run := t]))
  {
    hide RightPayload;
    hide PartialPayload;
    hide CheckedOk;
    hide CellOk;
    hide Held;
    hide LivesIn;
  }

  lemma OpenKeepsReplica(setup: Setup, b: Ledger, m: Replica, run: Run, d: string, input: string)
    requires BusOk(setup, b) && ReplicaOk(setup, b, m) && run !in b.runs && run != NIL_RUN
    ensures ReplicaOk(setup, b.(runs := b.runs + {run}), ActNew(setup, b, m, Open(run, d, input)).1)
  {
    hide CellsOk;
    hide LoopOk;
    hide WorkersOk;
    hide JournalOk;
    hide StartersOk;
    hide OpenedUnused;
    var dims := if d in m.dims then m.dims else m.dims[d := Dimension(Waiting, NIL_RUN, map[])];
    if d !in m.dims {
      NewDimension(b, m, d);
      DimsKeep(setup, b, m, dims);
    } else {
      assert m.(dims := dims) == m;
    }
    var m1 := m.(dims := dims);
    assert forall e :: e in dims ==> dims[e].run != run;
    OpenStays(setup, b, m1, run);
    CreatedStarted(setup, b);
    StarterJoins(setup, b.(runs := b.runs + {run}), m1, run, Opened(d, input));
  }

  lemma CreatedStarted(setup: Setup, b: Ledger)
    requires JournalOk(setup, b)
    ensures forall k :: 0 <= k < |b.created| ==> b.created[k].run in b.runs
  {
  }

  // Installing an opened run replaces the run that was current.
  lemma RunInstalled(b: Ledger, m: Replica, run: Run, d: string, dim: Dimension)
    requires RunsOk(b, m) && StartersOk(b, m) && run in m.starters
    requires m.starters[run].Opened? && d in m.dims && dim.run == run
    ensures RunsOk(b, m.(dims := m.dims[d := dim]))
  {
  }

  lemma SwapStarters(b: Ledger, m: Replica, m': Replica, run: Run)
    requires StartersOk(b, m) && run in m.starters && m.starters[run].dim in m.dims
    requires m'.starters.Keys == m.starters.Keys && m'.starters[run].Resetting?
    requires m'.starters[run].dim == m.starters[run].dim
    requires forall r :: r in m.starters && r != run ==> m'.starters[r] == m.starters[r]
    requires m'.dims.Keys == m.dims.Keys
    requires forall d :: d in m.dims ==> m'.dims[d].run == m.dims[d].run || m'.dims[d].run == run
    ensures StartersOk(b, m')
  {
  }

  lemma SwapKeepsReplica(setup: Setup, b: Ledger, m: Replica, run: Run)
    requires BusOk(setup, b) && ReplicaOk(setup, b, m) && Enabled(setup, b, m, Swap(run))
    ensures ReplicaOk(setup, b, ActNew(setup, b, m, Swap(run)).1)
  {
    hide RightPayload;
    hide PartialPayload;
    hide CheckedOk;
    hide Held;
    hide LivesIn;
    hide BusOk;
    hide RunsOk;
    hide StartersOk;
    hide CellOk;
    var t, m' := m.starters[run], ActNew(setup, b, m, Swap(run)).1;
    RunInstalled(b, m, run, t.dim, m'.dims[t.dim]);
    RunsIgnoreStarters(b, m.(dims := m'.dims), m');
    SwapStarters(b, m, m', run);
    assert CellsOk(b, m'.dims);
  }

  lemma RunsIgnoreStarters(b: Ledger, m: Replica, m': Replica)
    requires RunsOk(b, m) && m'.dims == m.dims
    ensures RunsOk(b, m')
  {
  }

  lemma StarterKeepsReplica(setup: Setup, b: Ledger, m: Replica, run: Run, t: Starter)
    requires ReplicaOk(setup, b, m) && run in m.starters && !t.Opened? && t.dim == m.starters[run].dim
    requires t.Chosen? ==> t.state != Finished
    ensures ReplicaOk(setup, b, m.(starters := m.starters[run := t]))
  {
    hide RightPayload;
    hide PartialPayload;
    hide CheckedOk;
    hide CellOk;
    hide Held;
    hide LivesIn;
  }

  lemma StarterLeaves(setup: Setup, b: Ledger, m: Replica, run: Run)
    requires ReplicaOk(setup, b, m)
    ensures ReplicaOk(setup, b, m.(starters := m.starters - {run}))
  {
    hide RightPayload;
    hide PartialPayload;
    hide CheckedOk;
    hide CellOk;
    hide Held;
    hide LivesIn;
  }

  lemma WorkersKeepReplica(setup: Setup, b: Ledger, m: Replica, workers: map<nat, Worker>)
    requires ReplicaOk(setup, b, m) && WorkersOk(b, m.(workers := workers))
    ensures ReplicaOk(setup, b, m.(workers := workers))
  {
    hide RightPayload;
    hide PartialPayload;
    hide CheckedOk;
    hide CellOk;
    hide Held;
    hide LivesIn;
  }

  lemma LoopKeepsReplica(setup: Setup, b: Ledger, m: Replica, cursor: nat, l: Loop)
    requires ReplicaOk(setup, b, m) && LoopOk(setup, b, m.(cursor := cursor, loop := l)) && cursor <= |b.completed|
    ensures ReplicaOk(setup, b, m.(cursor := cursor, loop := l))
  {
    hide RightPayload;
    hide PartialPayload;
    hide CheckedOk;
    hide CellOk;
    hide Held;
    hide LivesIn;
  }

  // ----- one thread at a time -----

  // What a step of replica me has to establish.
  ghost predicate Kept(setup: Setup, b: Ledger, me: Replica, b': Ledger, me': Replica) {
    && BusOk(setup, b')
    && ReplicaOk(setup, b', me')
    && (forall m :: ReplicaOk(setup, b, m) && Apart(me, m) ==> ReplicaOk(setup, b', m))
    && (forall m :: ReplicaOk(setup, b, m) && Apart(me, m) ==> Apart(me', m))
  }

  lemma NewKeeps(setup: Setup, b: Ledger, me: Replica, act: Action)
    requires Sound(setup.parts) && BusOk(setup, b) && ReplicaOk(setup, b, me) && Enabled(setup, b, me, act)
    requires act.Open? || act.Swap? || act.Peek? || act.Reset? || act.Launch?
    ensures Kept(setup, b, me, ActNew(setup, b, me, act).0, ActNew(setup, b, me, act).1)
  {
    hide ReplicaOk;
    hide BusOk;
    hide Sound;
    var b', me' := ActNew(setup, b, me, act).0, ActNew(setup, b, me, act).1;
    match act {
      case Open(run, d, input) =>
        OpenKeepsBus(setup, b, run);
        OpenKeepsReplica(setup, b, me, run, d, input);
        forall m | ReplicaOk(setup, b, m) && Apart(me, m) ensures ReplicaOk(setup, b', m) && Apart(me', m) {
          OpenStays(setup, b, m, run);
          StartersStarted(setup, b, m);
        }
      case Swap(run) =>
        SwapKeepsReplica(setup, b, me, run);
        assert me'.starters.Keys == me.starters.Keys;
      case Peek(run) =>
        StarterKeepsReplica(setup, b, me, run, me'.starters[run]);
        assert me'.starters.Keys == me.starters.Keys;
      case Reset(run) =>
        var t := me.starters[run];
        ResetIsNoOutput(setup, b, me, run);
        SetCellKeeps(setup, b, me, t.dim, t.rest[0], Cell(t.state, NIL_RUN, []));
        StarterKeepsReplica(setup, b, me.(dims := me'.dims), run, me'.starters[run]);
        assert me'.starters.Keys == me.starters.Keys;
      case Launch(run, ok) =>
        StarterLeaves(setup, b, me, run);
        if ok {
          var t := me.starters[run];
          var e := Event(t.dim, START, run, [Data(StartType(setup), t.input)]);
          StarterFacts(setup, b, me, run);
          SoundStart(setup.parts);
          LaunchKeepsBus(setup, b, e);
          WriterIsElsewhere(setup, b, me', run);
          PublishStays(setup, b, me', e);
          forall m | ReplicaOk(setup, b, m) && Apart(me, m) ensures ReplicaOk(setup, b', m) {
            WriterIsElsewhere(setup, b, m, run);
            PublishStays(setup, b, m, e);
          }
        }
    }
  }

  lemma StartersStarted(setup: Setup, b: Ledger, m: Replica)
    requires ReplicaOk(setup, b, m)
    ensures m.starters.Keys <= b.runs
  {
  }

  lemma StarterFacts(setup: Setup, b: Ledger, m: Replica, run: Run)
    requires ReplicaOk(setup, b, m) && run in m.starters
    ensures run in b.runs && forall k :: 0 <= k < |b.created| ==> b.created[k].run != run
  {
  }

  // Whoever is writing a join is not writing S.
  lemma WriterIsElsewhere(setup: Setup, b: Ledger, m: Replica, run: Run)
    requires ReplicaOk(setup, b, m)
    ensures m.loop.Writing? ==> m.loop.event.part != START
  {
  }

  lemma ResetIsNoOutput(setup: Setup, b: Ledger, m: Replica, run: Run)
    requires BusOk(setup, b) && ReplicaOk(setup, b, m) && Enabled(setup, b, m, Reset(run))
    ensures CellOk(b, m.starters[run].rest[0], Cell(m.starters[run].state, NIL_RUN, []))
    ensures m.starters[run].state != Finished
  {
  }

  lemma AnyNoOutputOk(b: Ledger, p: string, state: State)
    requires state != Finished
    ensures CellOk(b, p, Cell(state, NIL_RUN, []))
  {
  }

  lemma WorkersIn(setup: Setup, b: Ledger, m: Replica)
    requires ReplicaOk(setup, b, m)
    ensures WorkersOk(b, m)
  {
  }

  lemma ReadKeeps(setup: Setup, b: Ledger, me: Replica, act: Action)
    requires BusOk(setup, b) && ReplicaOk(setup, b, me) && Enabled(setup, b, me, act)
    requires act.Check? || act.Begin? || act.Fail? || act.Drop? || act.Finish?
    ensures Kept(setup, b, me, ActRead(setup, b, me, act).0, ActRead(setup, b, me, act).1)
  {
    hide ReplicaOk;
    hide BusOk;
    hide CellOk;
    hide TypeOf;
    var b', me' := ActRead(setup, b, me, act).0, ActRead(setup, b, me, act).1;
    WorkersIn(setup, b, me);
    match act {
      case Check(w, k) =>
        if me.dims[b.created[k].dim].run != b.created[k].run {
          AckKeepsBus(setup, b, Inert(k));
          forall m | ReplicaOk(setup, b, m) ensures ReplicaOk(setup, b', m) { AckStays(setup, b, m, Inert(k)); }
        } else {
          WorkersKeepReplica(setup, b, me, me'.workers);
        }
      case Begin(w) =>
        var k := me.workers[w].event;
        AnyNoOutputOk(b, b.created[k].part, Started);
        SetCellKeeps(setup, b, me, b.created[k].dim, b.created[k].part, Cell(Started, NIL_RUN, []));
        WorkersKeepReplica(setup, b, me.(dims := me'.dims), me'.workers);
      case Fail(w) =>
        var k := me.workers[w].event;
        AnyNoOutputOk(b, b.created[k].part, Failed);
        SetCellKeeps(setup, b, me, b.created[k].dim, b.created[k].part, Cell(Failed, NIL_RUN, []));
        WorkersKeepReplica(setup, b, me.(dims := me'.dims), me'.workers);
      case Drop(w) =>
        WorkersKeepReplica(setup, b, me, me'.workers);
      case Finish(w, out) =>
        WorkersKeepReplica(setup, b, me, me'.workers);
        var k := me.workers[w].event;
        if k in b.pending {
          var c := Completion(k, b.created[k].dim, b.created[k].part, b.created[k].run, [out]);
          AckKeepsBus(setup, b, c);
          forall m | ReplicaOk(setup, b, m) ensures ReplicaOk(setup, b', m) { AckStays(setup, b, m, c); }
        }
    }
  }

  lemma CompletionFacts(setup: Setup, b: Ledger, j: nat)
    requires BusOk(setup, b) && j < |b.completed|
    ensures CheckedOk(setup, b, b.completed[j])
  {
    hide RightPayload;
    var c := b.completed[j];
    if c.run in b.runs {
      assert c.data == [c.data[0]];
      assert b.created[c.src].run == c.run && b.created[c.src].dim == c.dim;
    }
  }

  lemma CheckedCell(setup: Setup, b: Ledger, c: Completion)
    requires CheckedOk(setup, b, c)
    ensures CellOk(b, PartOf(c.part, setup.parts).id, Cell(Finished, c.run, c.data))
  {
  }

  lemma LookRight(setup: Setup, b: Ledger, me: Replica)
    requires ReplicaOk(setup, b, me) && Enabled(setup, b, me, Look)
    ensures LoopOk(setup, b, ActLoop(setup, b, me, Look).1)
  {
    hide OutputOf;
    hide RightPayload;
    hide LivesIn;
    var l := me.loop;
    var p := Prev(setup.parts, l.n)[|l.td|];
    if Usable(me.dims[l.dim].cells, p, l.run) {
      assert CellOk(b, p, me.dims[l.dim].cells[p]);
    }
  }

  lemma LoopFacts(setup: Setup, b: Ledger, me: Replica)
    requires ReplicaOk(setup, b, me)
    ensures LoopOk(setup, b, me) && me.cursor <= |b.completed|
  {
  }

  lemma LoopKeeps(setup: Setup, b: Ledger, me: Replica, act: Action)
    requires Sound(setup.parts) && BusOk(setup, b) && ReplicaOk(setup, b, me) && Enabled(setup, b, me, act)
    requires act.Take? || act.Record? || act.Follow? || act.Look?
    ensures Kept(setup, b, me, ActLoop(setup, b, me, act).0, ActLoop(setup, b, me, act).1)
  {
    hide ReplicaOk;
    hide BusOk;
    hide CellOk;
    hide Sound;
    hide CheckedOk;
    hide LivesIn;
    hide PartialPayload;
    var b', me' := ActLoop(setup, b, me, act).0, ActLoop(setup, b, me, act).1;
    LoopFacts(setup, b, me);
    match act {
      case Take =>
        CompletionFacts(setup, b, me.cursor);
        LoopKeepsReplica(setup, b, me, me'.cursor, me'.loop);
      case Record =>
        var c := me.loop.c;
        CheckedCell(setup, b, c);
        SetCellKeeps(setup, b, me, c.dim, PartOf(c.part, setup.parts).id, Cell(Finished, c.run, c.data));
        NextAreTargets(setup.parts, c.part);
        RecordedLives(setup, b, c);
        LoopKeepsReplica(setup, b, me.(dims := me'.dims), me.cursor, me'.loop);
      case Follow =>
        FollowStarts(setup, b, me);
        LoopKeepsReplica(setup, b, me, me.cursor, me'.loop);
      case Look =>
        LookRight(setup, b, me);
        LoopKeepsReplica(setup, b, me, me.cursor, me'.loop);
    }
  }

  lemma RecordedLives(setup: Setup, b: Ledger, c: Completion)
    requires Sound(setup.parts) && CheckedOk(setup, b, c)
    ensures Next(setup.parts, c.part) == [] || (LivesIn(b, c.run, c.dim) && c.run in b.runs)
  {
  }

  lemma FollowStarts(setup: Setup, b: Ledger, me: Replica)
    requires ReplicaOk(setup, b, me) && Enabled(setup, b, me, Follow)
    ensures LoopOk(setup, b, ActLoop(setup, b, me, Follow).1)
  {
    hide RightPayload;
    hide LivesIn;
    var rest := me.loop.rest;
    assert rest[0] in rest && forall n :: n in rest[1..] ==> n in rest;
  }

  lemma AskKeeps(setup: Setup, b: Ledger, me: Replica, want: bool)
    requires BusOk(setup, b) && ReplicaOk(setup, b, me) && Enabled(setup, b, me, Ask(want))
    ensures Kept(setup, b, me, ActLoop(setup, b, me, Ask(want)).0, ActLoop(setup, b, me, Ask(want)).1)
  {
    hide ReplicaOk;
    hide BusOk;
    hide ConsId;
    hide LivesIn;
    hide OutputOf;
    var l := me.loop;
    var b', me' := ActLoop(setup, b, me, Ask(want)).0, ActLoop(setup, b, me, Ask(want)).1;
    LoopFacts(setup, b, me);
    assert l.n in [l.n];
    if want {
      GrantKeepsBus(setup, b, l.n, l.run);
      AskedIsHeld(setup, b, l.n, l.run);
      GrantStays(setup, b, me, l.n, l.run);
      LivesOn(b, b', l.run, l.dim);
      LoopKeepsReplica(setup, b', me, me.cursor, me'.loop);
      forall m | ReplicaOk(setup, b, m) && Apart(me, m) ensures ReplicaOk(setup, b', m) && Apart(me', m) {
        GrantStays(setup, b, m, l.n, l.run);
        HeldIsGranted(setup, b, m);
      }
    } else {
      LoopKeepsReplica(setup, b, me, me.cursor, me'.loop);
    }
  }

  lemma AskedIsHeld(setup: Setup, b: Ledger, n: string, run: Run)
    requires BusOk(setup, b) && run in b.runs && n != START && ConsId(n, run) !in b.granted
    ensures Held(Grant(b, ConsId(n, run)), n, run)
  {
    hide RightPayload;
    GrantHolds(b, n, run);
  }

  lemma HeldIsGranted(setup: Setup, b: Ledger, m: Replica)
    requires ReplicaOk(setup, b, m)
    ensures m.loop.Writing? ==> ConsId(m.loop.event.part, m.loop.event.run) in b.granted
  {
  }

  lemma SendKeeps(setup: Setup, b: Ledger, me: Replica, ok: bool)
    requires BusOk(setup, b) && ReplicaOk(setup, b, me) && Enabled(setup, b, me, Send(ok))
    ensures Kept(setup, b, me, ActLoop(setup, b, me, Send(ok)).0, ActLoop(setup, b, me, Send(ok)).1)
  {
    hide ReplicaOk;
    hide BusOk;
    hide LivesIn;
    hide RightPayload;
    hide Held;
    var b', me' := ActLoop(setup, b, me, Send(ok)).0, ActLoop(setup, b, me, Send(ok)).1;
    var e := me.loop.event;
    LoopFacts(setup, b, me);
    HeldStarted(b, e.part, e.run);
    LoopKeepsReplica(setup, b, me, me.cursor, me'.loop);
    if ok {
      assert e.part in [e.part];
      SendKeepsBus(setup, b, e);
      NotStarting(setup, b, me', e);
      PublishStays(setup, b, me', e);
      forall m | ReplicaOk(setup, b, m) && Apart(me, m) ensures ReplicaOk(setup, b', m) {
        NotStarting(setup, b, m, e);
        PublishStays(setup, b, m, e);
      }
    }
  }

  lemma HeldStarted(b: Ledger, part: string, run: Run)
    requires Held(b, part, run)
    ensures run in b.runs
  {
  }

  // A run that has events is no longer being started.
  lemma NotStarting(setup: Setup, b: Ledger, m: Replica, e: Event)
    requires ReplicaOk(setup, b, m) && LivesIn(b, e.run, e.dim)
    ensures e.run !in m.starters
  {
    var k :| 0 <= k < |b.created| && b.created[k].run == e.run && b.created[k].dim == e.dim;
    assert b.created[k].run == e.run;
  }

  lemma ActKeeps(setup: Setup, b: Ledger, me: Replica, act: Action)
    requires Sound(setup.parts) && BusOk(setup, b) && ReplicaOk(setup, b, me) && Enabled(setup, b, me, act)
    ensures Kept(setup, b, me, Act(setup, b, me, act).0, Act(setup, b, me, act).1)
  {
    hide Sound;
    hide BusOk;
    hide ReplicaOk;
    hide Enabled;
    hide Kept;
    hide ActNew;
    hide ActRead;
    hide ActLoop;
    if act.Open? || act.Swap? || act.Peek? || act.Reset? || act.Launch? {
      NewKeeps(setup, b, me, act);
    } else if act.Check? || act.Begin? || act.Fail? || act.Drop? || act.Finish? {
      ReadKeeps(setup, b, me, act);
    } else if act.Ask? {
      AskKeeps(setup, b, me, act.want);
    } else if act.Send? {
      SendKeeps(setup, b, me, act.ok);
    } else {
      LoopKeeps(setup, b, me, act);
    }
  }

  lemma FreshOk(setup: Setup, b: Ledger)
    ensures ReplicaOk(setup, b, FRESH) && forall m :: Apart(FRESH, m) && Apart(m, FRESH)
  {
  }

  lemma ApartSymmetric(m1: Replica, m2: Replica)
    ensures Apart(m1, m2) == Apart(m2, m1)
  {
  }

  lemma StepKeeps(setup: Setup, s: System, step: Step)
    requires Sound(setup.parts) && Invariant(setup, s) && CanStep(setup, s, step)
    ensures Invariant(setup, Apply(setup, s, step))
  {
    hide Sound;
    hide BusOk;
    hide ReplicaOk;
    hide Enabled;
    hide Act;
    hide Apart;
    match step
    case Boot(r) => FreshOk(setup, s.bus);
    case Step(r, act) =>
      var me := s.replicas[r];
      ActKeeps(setup, s.bus, me, act);
      var (b', me') := Act(setup, s.bus, me, act);
      forall q | q in s.replicas && q != r
        ensures ReplicaOk(setup, b', s.replicas[q]) && Apart(me', s.replicas[q]) && Apart(s.replicas[q], me')
      {
        ApartSymmetric(me', s.replicas[q]);
      }
  }

  lemma {:induction false} BehaviorKeeps(setup: Setup, states: seq<System>, steps: seq<Step>, k: nat)
    requires Sound(setup.parts) && Behavior(setup, states, steps) && Invariant(setup, states[0]) && k <= |steps|
    ensures Invariant(setup, states[k])
  {
    hide Invariant;
    hide Sound;
    hide CanStep;
    hide Apply;
    if k > 0 {
      BehaviorKeeps(setup, states, steps, k - 1);
      StepKeeps(setup, states[k - 1], steps[k - 1]);
    }
  }

  lemma EmptyBusOk(setup: Setup)
    ensures BusOk(setup, EMPTY)
  {
  }

  lemma ReachableInvariant(setup: Setup, s: System)
    requires Sound(setup.parts) && Reachable(setup, s)
    ensures Invariant(setup, s)
  {
    hide Sound;
    var states, steps :| Behavior(setup, states, steps) && states[0] == INIT && states[|steps|] == s;
    EmptyBusOk(setup);
    BehaviorKeeps(setup, states, steps, |steps|);
  }
}
