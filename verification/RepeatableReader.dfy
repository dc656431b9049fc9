// The methods of the repeatable reader. Each one, run without interruption, is a sequence of
// the protocol's steps; the protocol lets the same steps interleave with anyone else's.
module RepeatableReader {
  import opened Options
  import opened Story
  import opened Acceptance
  import opened Plan
  import opened Bus
  import opened Journal
  import opened Repeatable
  import opened RepeatableLoop
  import opened Topics

  // How a.Execute came back.
  datatype Outcome = Errored | NilData | Output(out: Data)

  // What is left of one pass of the completed loop once a completion is recorded.
  function Recorded(setup: Setup, me: Replica, c: Completion): Replica
    requires c.dim in me.dims
  {
    me.(dims := SetCell(me.dims, c.dim, PartOf(c.part, setup.parts).id, Cell(Finished, c.run, c.data)),
        loop := Joining(c.dim, c.run, Next(setup.parts, c.part)))
  }

  lemma TakeStep(setup: Setup, b: Ledger, me: Replica)
    requires AtRest(me.loop) && me.cursor < |b.completed|
    ensures var c := b.completed[me.cursor];
      var next := if c.dim in me.dims && me.dims[c.dim].run == c.run then Checked(c) else Idle;
      Plays(setup, b, me, [Take], b, me.(cursor := me.cursor + 1, loop := next))
  {
    PlaysOne(setup, b, me, Take);
  }

  lemma RecordStep(setup: Setup, b: Ledger, me: Replica)
    requires me.loop.Checked? && me.loop.c.dim in me.dims
    ensures Plays(setup, b, me, [Record], b, Recorded(setup, me, me.loop.c))
  {
    PlaysOne(setup, b, me, Record);
  }

  lemma FollowStep(setup: Setup, b: Ledger, me: Replica)
    requires me.loop.Joining? && me.loop.rest != []
    ensures Plays(setup, b, me, [Follow], b,
                  me.(loop := Reading(me.loop.dim, me.loop.run, me.loop.rest[0], [], me.loop.rest[1..])))
  {
    PlaysOne(setup, b, me, Follow);
  }

  function Taken(cell: Cell): Data {
    if cell.data == [] then Data("", "") else cell.data[0]
  }

  // These are the parameters of the part: what its predecessors finished with in this run.
  ghost predicate Gathered(setup: Setup, cells: map<string, Cell>, n: string, run: Run, td: seq<Data>) {
    && |td| == |Prev(setup.parts, n)|
    && forall i :: 0 <= i < |td| ==>
      Usable(cells, Prev(setup.parts, n)[i], run) && td[i] == Taken(cells[Prev(setup.parts, n)[i]])
  }

  lemma LookStep(setup: Setup, b: Ledger, me: Replica)
    requires me.loop.Reading? && |me.loop.td| < |Prev(setup.parts, me.loop.n)| && me.loop.dim in me.dims
    ensures var l, p, cells := me.loop, Prev(setup.parts, me.loop.n)[|me.loop.td|], me.dims[me.loop.dim].cells;
      Plays(setup, b, me, [Look], b,
            me.(loop := if Usable(cells, p, l.run) then l.(td := l.td + [Taken(cells[p])])
                        else Joining(l.dim, l.run, l.rest)))
  {
    hide Usable;
    PlaysOne(setup, b, me, Look);
  }

  lemma AskStep(setup: Setup, b: Ledger, me: Replica, want: bool)
    requires me.loop.Reading? && |me.loop.td| == |Prev(setup.parts, me.loop.n)|
    requires want ==> ConsId(me.loop.n, me.loop.run) !in b.granted
    ensures var l := me.loop;
      if want then
        Plays(setup, b, me, [Ask(want)], Grant(b, ConsId(l.n, l.run)),
              me.(loop := Writing(Event(l.dim, l.n, l.run, l.td), l.rest)))
      else
        Plays(setup, b, me, [Ask(want)], b, me.(loop := Joining(l.dim, l.run, l.rest)))
  {
    PlaysOne(setup, b, me, Ask(want));
  }

  lemma SendStep(setup: Setup, b: Ledger, me: Replica, ok: bool)
    requires me.loop.Writing?
    ensures var l := me.loop;
      Plays(setup, b, me, [Send(ok)], if ok then Publish(b, l.event) else b,
            me.(loop := Joining(l.event.dim, l.event.run, l.rest)))
  {
    PlaysOne(setup, b, me, Send(ok));
  }

  // The steps of one worker over one event that passes the run check.
  lemma ExecuteSteps(setup: Setup, b: Ledger, me: Replica, k: nat, outcome: Outcome) returns (acts: seq<Action>)
    requires me.workers == map[] && k in b.pending && k < |b.created|
    requires var e := b.created[k]; e.dim in me.dims && me.dims[e.dim].run == e.run
    requires outcome.Output? ==> outcome.out.typ == TypeOf(setup, b.created[k].part)
    ensures var e := b.created[k];
      Plays(setup, b, me, acts,
            if outcome.Output? then Acknowledge(b, Completion(k, e.dim, e.part, e.run, [outcome.out])) else b,
            me.(dims := SetCell(me.dims, e.dim, e.part,
                                Cell(if outcome.Errored? then Failed else Started, NIL_RUN, []))))
  {
    hide Plays;
    hide TypeOf;
    var e := b.created[k];
    var m1 := me.(workers := map[0 := Passed(k)]);
    PlaysOne(setup, b, me, Check(0, k));
    assert me.workers[0 := Passed(k)] == m1.workers;
    var m2 := me.(workers := map[0 := Running(k)], dims := SetCell(me.dims, e.dim, e.part, Cell(Started, NIL_RUN, [])));
    assert m1.workers[0 := Running(k)] == m2.workers;
    PlaysOn(setup, b, me, [Check(0, k)], b, m1, Begin(0));
    acts := [Check(0, k)] + [Begin(0)];
    assert m2.workers - {0} == map[];
    match outcome {
      case Errored =>
        var cell := Cell(Failed, NIL_RUN, []);
        assert SetCell(m2.dims, e.dim, e.part, cell) == SetCell(me.dims, e.dim, e.part, cell) by {
          assert m2.dims[e.dim].cells[e.part := cell] == me.dims[e.dim].cells[e.part := cell];
        }
        PlaysOn(setup, b, me, acts, b, m2, Fail(0));
        acts := acts + [Fail(0)];
      case NilData =>
        PlaysOn(setup, b, me, acts, b, m2, Drop(0));
        acts := acts + [Drop(0)];
      case Output(out) =>
        PlaysOn(setup, b, me, acts, b, m2, Finish(0, out));
        acts := acts + [Finish(0, out)];
    }
  }

  class RepeatableReader {
    const setup: Setup
    const lib: Library
    var dims: map<string, Dimension>
    var cursor: nat
    ghost var loop: Loop

    constructor (setup: Setup, lib: Library)
      ensures this.setup == setup && this.lib == lib && View() == FRESH
    {
      this.setup, this.lib := setup, lib;
      dims, cursor, loop := map[], 0, Idle;
    }

    ghost function View(): Replica
      reads this
    {
      Replica(dims, cursor, loop, map[], map[])
    }

    // Start or restart a run: install it, then reset the parts one by one, then write the start.
    method New(dim: string, input: string, run: Run) returns (ok: bool, ghost acts: seq<Action>)
      requires run !in lib.bus.runs && run != NIL_RUN
      modifies this, lib
      ensures Plays(setup, old(lib.bus), old(View()), acts, lib.bus, View())
      ensures View() == AfterNew(setup, old(View()), dim, run)
      ensures Renewed(setup.parts, old(dims), dims, dim, run)
      ensures var b := old(lib.bus).(runs := old(lib.bus.runs) + {run});
        lib.bus == if ok then Publish(b, Event(dim, START, run, [Data(StartType(setup), input)])) else b
    {
      hide Plays;
      hide ResetCells;
      hide StartType;
      hide Renewed;
      lib.Draw(run);
      Install(dim, run);
      ResetParts(dim);
      acts := [];
      ok := lib.Write(Event(dim, START, run, [Data(StartType(setup), input)]));
      assert dims == AfterNew(setup, old(View()), dim, run).dims;
      AfterNewMeans(setup, old(View()), dim, run);
      acts := NewSteps(setup, old(lib.bus), old(View()), run, dim, input, ok);
    }

    // Get or create the dimension, and swap its run.
    method Install(dim: string, run: Run)
      modifies this`dims
      ensures View() == Installed(old(View()), dim, run)
    {
      if dim !in dims {
        dims := dims[dim := Dimension(Waiting, NIL_RUN, map[])];
      }
      if dims[dim].run != NIL_RUN {
        dims := dims[dim := dims[dim].(run := run, state := Restarted)];
      } else {
        dims := dims[dim := dims[dim].(run := run, state := Started)];
      }
      assert dims == Installed(old(View()), dim, run).dims;
    }

    // The loop of New over the parts.
    method ResetParts(dim: string)
      requires dim in dims
      modifies this`dims
      ensures var d := old(dims)[dim];
        dims == old(dims)[dim := d.(cells := ResetCells(d.cells, PartIdList(setup.parts)))]
    {
      hide ResetState;
      ghost var d := dims[dim];
      ghost var ids := PartIdList(setup.parts);
      assert ids[0..] == ids;
      for k := 0 to |setup.parts|
        invariant dim in dims && dims == old(dims)[dim := d.(cells := dims[dim].cells)]
        invariant ResetCells(dims[dim].cells, ids[k..]) == ResetCells(d.cells, ids)
      {
        var p := setup.parts[k].id;
        var cells := dims[dim].cells;
        var state := Waiting;
        if p in cells {
          match cells[p].state {
            case Started => state := Terminated;
            case Finished => state := Restarted;
            case _ =>
          }
        }
        CellReset(cells, p, state);
        dims := SetCell(dims, dim, p, Cell(state, NIL_RUN, []));
        assert ids[k..][0] == p && ids[k..][1..] == ids[k + 1..];
      }
    }

    // One turn of Read over a delivered event.
    method Turn(k: nat, outcome: Outcome) returns (ghost acts: seq<Action>)
      requires k in lib.bus.pending && k < |lib.bus.created|
      requires outcome.Output? ==> outcome.out.typ == TypeOf(setup, lib.bus.created[k].part)
      modifies this, lib
      ensures Plays(setup, old(lib.bus), old(View()), acts, lib.bus, View())
      ensures cursor == old(cursor) && loop == old(loop)
      ensures var e := old(lib.bus.created)[k];
        if e.dim !in old(dims) then
          dims == old(dims) && lib.bus == old(lib.bus)
        else if old(dims)[e.dim].run != e.run then
          dims == old(dims) && lib.bus == Acknowledge(old(lib.bus), Inert(k))
        else
          && dims == SetCell(old(dims), e.dim, e.part, Cell(if outcome.Errored? then Failed else Started, NIL_RUN, []))
          && lib.bus == if outcome.Output? then
                          Acknowledge(old(lib.bus), Completion(k, e.dim, e.part, e.run, [outcome.out]))
                        else old(lib.bus)
    {
      var e := lib.bus.created[k];
      acts := [];
      if e.dim !in dims {
        return;
      }
      if dims[e.dim].run != e.run {
        PlaysOne(setup, lib.bus, View(), Check(0, k));
        lib.Acc(Completion(k, "", "", NIL_RUN, []));
        acts := [Check(0, k)];
        return;
      }
      acts := ExecuteSteps(setup, lib.bus, View(), k, outcome);
      dims := SetCell(dims, e.dim, e.part, Cell(Started, NIL_RUN, []));
      match outcome {
        case Errored => dims := SetCell(dims, e.dim, e.part, Cell(Failed, NIL_RUN, []));
        case NilData =>
        case Output(out) => lib.Acc(Completion(k, e.dim, e.part, e.run, [out]));
      }
      ghost var cell := Cell(if outcome.Errored? then Failed else Started, NIL_RUN, []);
      assert dims == SetCell(old(dims), e.dim, e.part, cell) by {
        assert dims[e.dim].cells == SetCell(old(dims), e.dim, e.part, cell)[e.dim].cells;
      }
    }

    // The loop over the predecessors of one part: its parameters, if all are there.
    method Collect(dim: string, run: Run, n: string, ghost rest: seq<string>)
      returns (r: Option<seq<Data>>, ghost acts: seq<Action>)
      requires dim in dims && loop == Reading(dim, run, n, [], rest)
      modifies this`loop
      ensures Plays(setup, lib.bus, old(View()), acts, lib.bus, View())
      ensures r.Some? <==> forall p :: p in Prev(setup.parts, n) ==> Usable(dims[dim].cells, p, run)
      ensures r.Some? ==> Gathered(setup, dims[dim].cells, n, run, r.value)
      ensures loop == if r.Some? then Reading(dim, run, n, r.value, rest) else Joining(dim, run, rest)
    {
      hide Plays;
      var prev := PartOf(n, setup.parts).incoming;
      var cells := dims[dim].cells;
      var td: seq<Data> := [];
      acts := [];
      assert Plays(setup, lib.bus, View(), [], lib.bus, View()) by { PlaysNothing(setup, lib.bus, View()); }
      for i := 0 to |prev|
        invariant |td| == i && loop == Reading(dim, run, n, td, rest)
        invariant forall j :: 0 <= j < i ==> Usable(cells, prev[j], run) && td[j] == Taken(cells[prev[j]])
        invariant Plays(setup, lib.bus, old(View()), acts, lib.bus, View())
      {
        ghost var me := View();
        LookStep(setup, lib.bus, me);
        if !Usable(cells, prev[i], run) {
          loop := Joining(dim, run, rest);
          PlaysJoin(setup, lib.bus, old(View()), acts, lib.bus, me, [Look], lib.bus, View());
          acts := acts + [Look];
          return None, acts;
        }
        td := td + [Taken(cells[prev[i]])];
        loop := Reading(dim, run, n, td, rest);
        PlaysJoin(setup, lib.bus, old(View()), acts, lib.bus, me, [Look], lib.bus, View());
        acts := acts + [Look];
      }
      return Some(td), acts;
    }

    // One part that a recorded completion links to: if all its predecessors have finished in this
    // run, request it and write its event.
    method TryPart(dim: string, run: Run, n: string, ghost rest: seq<string>) returns (ghost acts: seq<Action>)
      requires dim in dims && loop == Joining(dim, run, [n] + rest)
      modifies this`loop, lib
      ensures Plays(setup, old(lib.bus), old(View()), acts, lib.bus, View())
      ensures loop == Joining(dim, run, rest) && lib.bus.completed == old(lib.bus.completed)
      ensures lib.bus.created == old(lib.bus.created)
        || exists td ::
             && lib.bus.created == old(lib.bus.created) + [Event(dim, n, run, td)]
             && Gathered(setup, dims[dim].cells, n, run, td) && ConsId(n, run) !in old(lib.bus.granted)
    {
      hide Plays;
      ghost var b0, m0 := lib.bus, View();
      FollowStep(setup, b0, m0);
      assert ([n] + rest)[1..] == rest;
      loop := Reading(dim, run, n, [], rest);
      acts := [Follow];
      ghost var m1 := View();
      var td, looks := Collect(dim, run, n, rest);
      PlaysJoin(setup, b0, m0, acts, b0, m1, looks, b0, View());
      acts := acts + looks;
      if td.None? {
        return;
      }
      ghost var m2 := View();
      var ok := lib.Request(ConsId(n, run));
      loop := if ok then Writing(Event(dim, n, run, td.value), rest) else Joining(dim, run, rest);
      ghost var b3, m3 := lib.bus, View();
      AskStep(setup, b0, m2, ok);
      PlaysJoin(setup, b0, m0, acts, b0, m2, [Ask(ok)], b3, m3);
      acts := acts + [Ask(ok)];
      if !ok {
        return;
      }
      var e := Event(dim, n, run, td.value);
      var written := lib.Write(e);
      loop := Joining(dim, run, rest);
      SendStep(setup, b3, m3, written);
      PlaysJoin(setup, b0, m0, acts, b3, m3, [Send(written)], lib.bus, View());
      acts := acts + [Send(written)];
    }

    // The parts that a recorded completion links to, one after the other.
    method TryParts(dim: string, run: Run, next: seq<string>) returns (ghost acts: seq<Action>)
      requires dim in dims && loop == Joining(dim, run, next)
      modifies this`loop, lib
      ensures Plays(setup, old(lib.bus), old(View()), acts, lib.bus, View())
      ensures loop == Joining(dim, run, []) && lib.bus.completed == old(lib.bus.completed)
    {
      hide Plays;
      ghost var b0, m0 := lib.bus, View();
      acts := [];
      PlaysNothing(setup, b0, m0);
      assert next[0..] == next;
      for k := 0 to |next|
        invariant loop == Joining(dim, run, next[k..])
        invariant lib.bus.completed == old(lib.bus.completed)
        invariant Plays(setup, b0, m0, acts, lib.bus, View())
      {
        ghost var b, me := lib.bus, View();
        assert next[k..] == [next[k]] + next[k + 1..];
        ghost var more := TryPart(dim, run, next[k], next[k + 1..]);
        PlaysJoin(setup, b0, m0, acts, b, me, more, lib.bus, View());
        acts := acts + more;
      }
    }

    // One pass of the completed loop.
    method OnCompleted() returns (ghost acts: seq<Action>)
      requires AtRest(loop) && cursor < |lib.bus.completed|
      modifies this, lib
      ensures Plays(setup, old(lib.bus), old(View()), acts, lib.bus, View())
      ensures AtRest(loop) && cursor == old(cursor) + 1
      ensures lib.bus.completed == old(lib.bus.completed)
      ensures var c := old(lib.bus.completed[cursor]);
        if c.dim in old(dims) && old(dims)[c.dim].run == c.run then
          dims == SetCell(old(dims), c.dim, PartOf(c.part, setup.parts).id, Cell(Finished, c.run, c.data))
        else
          dims == old(dims) && lib.bus == old(lib.bus)
    {
      hide Plays;
      ghost var b0, m0 := lib.bus, View();
      var c := lib.bus.completed[cursor];
      cursor := cursor + 1;
      TakeStep(setup, b0, m0);
      acts := [Take];
      if c.dim !in dims || dims[c.dim].run != c.run {
        loop := Idle;
        return;
      }
      loop := Checked(c);
      ghost var m1 := View();
      var p := PartOf(c.part, setup.parts);
      dims := SetCell(dims, c.dim, p.id, Cell(Finished, c.run, c.data));
      loop := Joining(c.dim, c.run, p.outgoing);
      RecordStep(setup, b0, m1);
      PlaysJoin(setup, b0, m0, acts, b0, m1, [Record], b0, View());
      acts := acts + [Record];
      ghost var m2 := View();
      ghost var more := TryParts(c.dim, c.run, p.outgoing);
      PlaysJoin(setup, b0, m0, acts, b0, m2, more, lib.bus, View());
      acts := acts + more;
    }
  }

  lemma PlaysNothing(setup: Setup, b: Ledger, me: Replica)
    ensures Plays(setup, b, me, [], b, me)
  {
  }

  lemma CellReset(cells: map<string, Cell>, p: string, state: State)
    requires state == if p in cells && cells[p].state == Started then Terminated
                      else if p in cells && cells[p].state == Finished then Restarted else Waiting
    ensures state == ResetState(cells, p)
  {
  }
}
