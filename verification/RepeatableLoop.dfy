// The repeatable reader as code: rr.New, one turn of Read, and one pass of the completed loop,
// each a sequence of the protocol's steps.
module RepeatableLoop {
  import opened Story
  import opened Bus
  import opened Journal
  import opened Repeatable

  // One replica takes these actions, one enabled action after the other.
  ghost predicate Plays(setup: Setup, b: Ledger, me: Replica, acts: seq<Action>, b': Ledger, me': Replica)
    decreases |acts|
  {
    if acts == [] then b == b' && me == me'
    else
      && Enabled(setup, b, me, acts[0])
      && Plays(setup, Act(setup, b, me, acts[0]).0, Act(setup, b, me, acts[0]).1, acts[1..], b', me')
  }

  lemma PlaysOne(setup: Setup, b: Ledger, me: Replica, act: Action)
    requires Enabled(setup, b, me, act)
    ensures Plays(setup, b, me, [act], Act(setup, b, me, act).0, Act(setup, b, me, act).1)
  {
    hide Enabled;
    hide Act;
    var b', me' := Act(setup, b, me, act).0, Act(setup, b, me, act).1;
    assert [act][1..] == [];
    assert Plays(setup, b', me', [], b', me');
  }

  lemma {:induction false} PlaysJoin(setup: Setup, b: Ledger, me: Replica, acts: seq<Action>, b': Ledger, me': Replica,
                                    more: seq<Action>, b'': Ledger, me'': Replica)
    requires Plays(setup, b, me, acts, b', me') && Plays(setup, b', me', more, b'', me'')
    ensures Plays(setup, b, me, acts + more, b'', me'')
    decreases |acts|
  {
    hide Enabled;
    hide Act;
    if acts == [] {
      assert acts + more == more;
    } else {
      assert (acts + more)[1..] == acts[1..] + more;
      PlaysJoin(setup, Act(setup, b, me, acts[0]).0, Act(setup, b, me, acts[0]).1, acts[1..], b', me', more, b'', me'');
    }
  }

  // Adding one action at the end.
  lemma PlaysOn(setup: Setup, b: Ledger, me: Replica, acts: seq<Action>, b': Ledger, me': Replica, act: Action)
    requires Plays(setup, b, me, acts, b', me') && Enabled(setup, b', me', act)
    ensures Plays(setup, b, me, acts + [act], Act(setup, b', me', act).0, Act(setup, b', me', act).1)
  {
    hide Plays;
    hide Enabled;
    hide Act;
    PlaysOne(setup, b', me', act);
    PlaysJoin(setup, b, me, acts, b', me', [act], Act(setup, b', me', act).0, Act(setup, b', me', act).1);
  }

  // What one replica of a system plays stays among the reachable states.
  lemma {:induction false} PlaysReaches(setup: Setup, s: System, r: nat, acts: seq<Action>, b': Ledger, me': Replica)
    requires Reachable(setup, s) && r in s.replicas && Plays(setup, s.bus, s.replicas[r], acts, b', me')
    ensures Reachable(setup, System(b', s.replicas[r := me']))
    decreases |acts|
  {
    hide Enabled;
    hide Act;
    if acts == [] {
      assert s.replicas[r := me'] == s.replicas;
    } else {
      var (b1, me1) := Act(setup, s.bus, s.replicas[r], acts[0]);
      var s1 := System(b1, s.replicas[r := me1]);
      StepReaches(setup, s, Step(r, acts[0]), s1);
      assert s1.replicas[r := me'] == s.replicas[r := me'];
      PlaysReaches(setup, s1, r, acts[1..], b', me');
    }
  }

  lemma StepReaches(setup: Setup, s: System, step: Step, s': System)
    requires Reachable(setup, s) && CanStep(setup, s, step) && s' == Apply(setup, s, step)
    ensures Reachable(setup, s')
  {
    hide CanStep;
    hide Apply;
    var states, steps :| Behavior(setup, states, steps) && states[0] == INIT && states[|steps|] == s;
    assert Behavior(setup, states + [s'], steps + [step]);
    assert (states + [s'])[|steps + [step]|] == s';
  }

  // ----- rr.New -----

  // The cells after a reset of these parts, one by one.
  function ResetCells(cells: map<string, Cell>, ids: seq<string>): map<string, Cell>
    decreases |ids|
  {
    if ids == [] then cells
    else ResetCells(cells[ids[0] := Cell(ResetState(cells, ids[0]), NIL_RUN, [])], ids[1..])
  }

  // After the reset no listed part is finished, and its state tells what it was.
  lemma {:induction false} ResetMeans(cells: map<string, Cell>, ids: seq<string>, p: string)
    requires forall j, k :: 0 <= j < k < |ids| ==> ids[j] != ids[k]
    ensures p in ids ==> p in ResetCells(cells, ids)
    ensures p in ids && p in cells && cells[p].state == Started ==>
              ResetCells(cells, ids)[p] == Cell(Terminated, NIL_RUN, [])
    ensures p in ids && p in cells && cells[p].state == Finished ==>
              ResetCells(cells, ids)[p] == Cell(Restarted, NIL_RUN, [])
    ensures p in ids && (p !in cells || cells[p].state !in {Started, Finished}) ==>
              ResetCells(cells, ids)[p] == Cell(Waiting, NIL_RUN, [])
    ensures p !in ids ==> (p in ResetCells(cells, ids) <==> p in cells)
    ensures p !in ids && p in cells ==> ResetCells(cells, ids)[p] == cells[p]
    decreases |ids|
  {
    if ids != [] {
      ResetMeans(cells[ids[0] := Cell(ResetState(cells, ids[0]), NIL_RUN, [])], ids[1..], p);
      if p in ids && p != ids[0] {
        assert p in ids[1..];
      }
    }
  }

  function StartOf(setup: Setup, dim: string, run: Run, input: string): Event {
    Event(dim, START, run, [Data(StartType(setup), input)])
  }

  // The replica after New, up to the write of the start event.
  function AfterNew(setup: Setup, me: Replica, dim: string, run: Run): Replica {
    var d := if dim in me.dims then me.dims[dim] else Dimension(Waiting, NIL_RUN, map[]);
    var state := if d.run != NIL_RUN then Restarted else Started;
    me.(dims := me.dims[dim := Dimension(state, run, ResetCells(d.cells, PartIdList(setup.parts)))])
  }

  // What rr.New leaves: the dimension has the new run, says whether it had one before, and its
  // parts are reset; other dimensions are untouched.
  ghost predicate Renewed(parts: seq<Part>, was: map<string, Dimension>, now: map<string, Dimension>, dim: string,
                          run: Run)
  {
    var cells := if dim in was then was[dim].cells else map[];
    && now.Keys == was.Keys + {dim} && now[dim].run == run
    && now[dim].state == (if dim in was && was[dim].run != NIL_RUN then Restarted else Started)
    && now[dim].cells == ResetCells(cells, PartIdList(parts))
    && forall d :: d in was && d != dim ==> now[d] == was[d]
  }

  lemma AfterNewMeans(setup: Setup, me: Replica, dim: string, run: Run)
    ensures Renewed(setup.parts, me.dims, AfterNew(setup, me, dim, run).dims, dim, run)
  {
    hide ResetCells;
    hide PartIdList;
  }

  lemma {:induction false} ResetSteps(setup: Setup, b: Ledger, me: Replica, run: Run, dim: string, input: string,
                                      rest: seq<string>)
      returns (acts: seq<Action>)
    requires dim in me.dims
    ensures Plays(setup, b, me.(starters := me.starters[run := Resetting(dim, input, rest)]), acts,
                  b, me.(dims := me.dims[dim := me.dims[dim].(cells := ResetCells(me.dims[dim].cells, rest))],
                         starters := me.starters[run := Resetting(dim, input, [])]))
    ensures forall a :: a in acts ==> a.Peek? || a.Reset?
    decreases |rest|
  {
    var me0 := me.(starters := me.starters[run := Resetting(dim, input, rest)]);
    if rest == [] {
      acts := [];
      assert me.dims[dim := me.dims[dim].(cells := me.dims[dim].cells)] == me.dims;
    } else {
      var p, cells := rest[0], me.dims[dim].cells;
      var st := ResetState(cells, p);
      var me1 := me.(starters := me.starters[run := Chosen(dim, input, rest, st)]);
      PeekStep(setup, b, me, run, dim, input, rest);
      var next := me.(dims := SetCell(me.dims, dim, p, Cell(st, NIL_RUN, [])));
      var me2 := next.(starters := next.starters[run := Resetting(dim, input, rest[1..])]);
      ResetStep(setup, b, me, run, dim, input, rest, st);
      PlaysOne(setup, b, me0, Peek(run));
      PlaysOn(setup, b, me0, [Peek(run)], b, me1, Reset(run));
      var more := ResetSteps(setup, b, next, run, dim, input, rest[1..]);
      acts := ([Peek(run)] + [Reset(run)]) + more;
      var last := me.(dims := me.dims[dim := me.dims[dim].(cells := ResetCells(cells, rest))],
                      starters := me.starters[run := Resetting(dim, input, [])]);
      assert next.dims[dim := next.dims[dim].(cells := ResetCells(next.dims[dim].cells, rest[1..]))] == last.dims;
      PlaysJoin(setup, b, me0, [Peek(run)] + [Reset(run)], b, me2, more, b, last);
    }
  }

  lemma PeekStep(setup: Setup, b: Ledger, me: Replica, run: Run, dim: string, input: string, rest: seq<string>)
    requires dim in me.dims && rest != []
    ensures var me0 := me.(starters := me.starters[run := Resetting(dim, input, rest)]);
      var st := ResetState(me.dims[dim].cells, rest[0]);
      && Enabled(setup, b, me0, Peek(run))
      && Act(setup, b, me0, Peek(run)) == (b, me.(starters := me.starters[run := Chosen(dim, input, rest, st)]))
  {
    var st := ResetState(me.dims[dim].cells, rest[0]);
    assert me.starters[run := Resetting(dim, input, rest)][run := Chosen(dim, input, rest, st)]
        == me.starters[run := Chosen(dim, input, rest, st)];
  }

  lemma ResetStep(setup: Setup, b: Ledger, me: Replica, run: Run, dim: string, input: string, rest: seq<string>,
                  st: State)
    requires dim in me.dims && rest != []
    ensures var me1 := me.(starters := me.starters[run := Chosen(dim, input, rest, st)]);
      && Enabled(setup, b, me1, Reset(run))
      && Act(setup, b, me1, Reset(run)) ==
           (b, me.(dims := SetCell(me.dims, dim, rest[0], Cell(st, NIL_RUN, [])),
                   starters := me.starters[run := Resetting(dim, input, rest[1..])]))
  {
    assert me.starters[run := Chosen(dim, input, rest, st)][run := Resetting(dim, input, rest[1..])]
        == me.starters[run := Resetting(dim, input, rest[1..])];
  }

  function Installed(me: Replica, dim: string, run: Run): Replica {
    var d := if dim in me.dims then me.dims[dim] else Dimension(Waiting, NIL_RUN, map[]);
    me.(dims := me.dims[dim := Dimension(if d.run != NIL_RUN then Restarted else Started, run, d.cells)])
  }

  lemma InstallSteps(setup: Setup, b: Ledger, me: Replica, run: Run, dim: string, input: string)
    requires run !in b.runs && run != NIL_RUN && run !in me.starters
    ensures var next := Installed(me, dim, run);
      Plays(setup, b, me, [Open(run, dim, input)] + [Swap(run)], b.(runs := b.runs + {run}),
            next.(starters := next.starters[run := Resetting(dim, input, PartIdList(setup.parts))]))
  {
    hide Plays;
    var b1 := b.(runs := b.runs + {run});
    var d := if dim in me.dims then me.dims[dim] else Dimension(Waiting, NIL_RUN, map[]);
    var m1 := me.(dims := if dim in me.dims then me.dims else me.dims[dim := d],
                  starters := me.starters[run := Opened(dim, input)]);
    PlaysOne(setup, b, me, Open(run, dim, input));
    var next := Installed(me, dim, run);
    assert m1.dims[dim := next.dims[dim]] == next.dims;
    PlaysOn(setup, b, me, [Open(run, dim, input)], b1, m1, Swap(run));
    var resetting := Resetting(dim, input, PartIdList(setup.parts));
    assert m1.starters[run := resetting] == next.starters[run := resetting];
  }

  // rr.New as a run of steps.
  lemma NewSteps(setup: Setup, b: Ledger, me: Replica, run: Run, dim: string, input: string, ok: bool)
    returns (acts: seq<Action>)
    requires run !in b.runs && run != NIL_RUN && run !in me.starters
    ensures var b1 := b.(runs := b.runs + {run});
      var b2 := if ok then Publish(b1, StartOf(setup, dim, run, input)) else b1;
      Plays(setup, b, me, acts, b2, AfterNew(setup, me, dim, run))
    ensures forall a :: a in acts ==>
        a == Open(run, dim, input) || a.Swap? || a.Peek? || a.Reset? || a == Launch(run, ok)
  {
    hide Plays;
    hide ResetCells;
    hide TypeOf;
    var ids := PartIdList(setup.parts);
    var b1 := b.(runs := b.runs + {run});
    var mid := Installed(me, dim, run);
    InstallSteps(setup, b, me, run, dim, input);
    var more := ResetSteps(setup, b1, mid, run, dim, input, ids);
    var m3 := mid.(dims := mid.dims[dim := mid.dims[dim].(cells := ResetCells(mid.dims[dim].cells, ids))],
                   starters := mid.starters[run := Resetting(dim, input, [])]);
    acts := [Open(run, dim, input)] + [Swap(run)];
    PlaysJoin(setup, b, me, acts, b1, mid.(starters := mid.starters[run := Resetting(dim, input, ids)]), more, b1, m3);
    acts := acts + more;
    assert m3.starters - {run} == me.starters;
    assert m3.dims == AfterNew(setup, me, dim, run).dims;
    PlaysOn(setup, b, me, acts, b1, m3, Launch(run, ok));
    acts := acts + [Launch(run, ok)];
  }
}
