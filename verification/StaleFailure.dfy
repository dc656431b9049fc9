// A finished part of the newest run can be erased by a worker of an older run: a failed adapter
// writes its state without comparing runs. Here that loses the only join of a two-part story.
module StaleFailure {
  import opened Walks
  import opened Story
  import opened Acceptance
  import opened Plan
  import opened Bus
  import opened Journal
  import opened Repeatable
  import opened RepeatableProgress
  import opened RepeatableLoop

  // S -> E.
  const STORY := [Part(START, [], [END], START_ADAPTER), Part(END, [START], [], END_ADAPTER)]
  const SETUP := Setup(STORY, [Adapter(START_ADAPTER, "T", []), Adapter(END_ADAPTER, "T", [])])

  lemma TwoParts()
    ensures Find(START, STORY) == 0 && Find(END, STORY) == 1
    ensures forall id :: id != START && id != END ==> Find(id, STORY) < 0
    ensures Prev(STORY, END) == [START] && Next(STORY, START) == [END]
    ensures Prev(STORY, START) == [] && Next(STORY, END) == []
    ensures PartIdList(STORY) == [START, END]
  {
    assert START[0] != END[0];
    assert STORY[1..] == [STORY[1]];
    assert STORY[1..][1..] == [];
  }

  lemma TwoPartsSound()
    ensures Sound(STORY)
  {
    TwoParts();
    var g := GraphOf(STORY);
    forall id
      ensures Prev(STORY, id) == if id == END then [START] else []
      ensures Next(STORY, id) == if id == START then [END] else []
    {
    }
    forall u, v ensures Edge(g, u, v) <==> u == START && v == END {
      assert DistinctIds(STORY);
      LinkIsEdge(STORY, u, v);
    }
    forall v, w | WalkFromTo(g, w, v, v) && |w| >= 2 ensures v == START && v == END {
      EndsOf(g, w);
    }
  }

  lemma EndsOf(g: Graph, w: seq<string>)
    requires IsWalk(g, w) && |w| >= 2 && forall u, v :: Edge(g, u, v) <==> u == START && v == END
    ensures w[0] == START && w[|w| - 1] == END
  {
    assert Edge(g, w[0], w[1]) && Edge(g, w[|w| - 2], w[|w| - 1]);
  }

  // No write and no first request in the behavior was lost.
  ghost predicate NothingLost(acts: seq<Action>) {
    forall a :: a in acts ==> a != Send(false) && a != Ask(false) && !a.Drop? && (a.Launch? ==> a.ok)
  }

  function One(b: Ledger, me: Replica): System {
    System(b, map[0 := me])
  }

  function Cells(s: Cell, e: State): map<string, Cell> {
    map[START := s, END := Cell(e, NIL_RUN, [])]
  }

  function Dim(run: Run, state: State, s: Cell, e: State): map<string, Dimension> {
    map["d" := Dimension(state, run, Cells(s, e))]
  }

  lemma ResetTwo(cells: map<string, Cell>)
    requires cells.Keys <= {START, END} && (END in cells ==> cells[END].state == Waiting)
    ensures ResetCells(cells, [START, END]) == Cells(Cell(ResetState(cells, START), NIL_RUN, []), Waiting)
  {
    var c1 := cells[START := Cell(ResetState(cells, START), NIL_RUN, [])];
    assert [START, END][1..] == [END] && [END][1..] == [];
    assert START[0] != END[0];
    assert ResetCells(c1, [END]) == c1[END := Cell(ResetState(c1, END), NIL_RUN, [])];
  }

  lemma SetStart(run: Run, state: State, was: Cell, c: Cell, e: State)
    ensures SetCell(Dim(run, state, was, e), "d", START, c) == Dim(run, state, c, e)
  {
    assert START[0] != END[0];
    assert Cells(was, e)[START := c] == Cells(c, e);
  }

  const OUT := Data("T", "")

  function E1(run1: Run): Event { Event("d", START, run1, [OUT]) }

  function Done(run2: Run): Completion { Completion(1, "d", START, run2, [OUT]) }

  // The ledger after the first start, the second start, the completion, the stale event.
  function B1(run1: Run): Ledger { Publish(EMPTY.(runs := EMPTY.runs + {run1}), E1(run1)) }

  function B2(run1: Run, run2: Run): Ledger { Publish(B1(run1).(runs := B1(run1).runs + {run2}), E1(run2)) }

  function B3(run1: Run, run2: Run): Ledger { Acknowledge(B2(run1, run2), Done(run2)) }

  function B4(run1: Run, run2: Run): Ledger { Acknowledge(B3(run1, run2), Inert(0)) }

  // The replica while the old worker executes the S of the first run.
  function Executing(run1: Run): Replica {
    Replica(Dim(run1, Started, Cell(Started, NIL_RUN, []), Waiting), 0, Idle, map[], map[1 := Running(0)])
  }

  // ... and when the S of the second run has been acknowledged.
  function Restarting(run1: Run, run2: Run): Replica {
    Replica(Dim(run2, Restarted, Cell(Started, NIL_RUN, []), Waiting), 0, Idle, map[], map[1 := Running(0)])
  }

  // ... and in the end.
  function Stuck(run1: Run, run2: Run): Replica {
    Replica(Dim(run2, Restarted, Cell(Failed, NIL_RUN, []), Waiting), 2, Idle, map[], map[])
  }

  lemma TypesOfTwo()
    ensures TypeOf(SETUP, START) == StartType(SETUP) == "T"
  {
    TwoParts();
    assert START_ADAPTER[0] != END_ADAPTER[0];
  }

  lemma FirstStart(run1: Run) returns (acts: seq<Action>)
    requires run1 != NIL_RUN
    ensures Plays(SETUP, EMPTY, FRESH, acts, B1(run1),
                  Replica(Dim(run1, Started, Cell(Waiting, NIL_RUN, []), Waiting), 0, Idle, map[], map[]))
    ensures NothingLost(acts) && forall a :: a in acts ==> !a.Fail? && (a.Open? ==> a.run == run1)
  {
    hide Plays;
    hide ResetCells;
    hide TypeOf;
    TwoParts();
    TypesOfTwo();
    acts := NewSteps(SETUP, EMPTY, FRESH, run1, "d", "", true);
    ResetTwo(map[]);
    var m1 := Replica(Dim(run1, Started, Cell(Waiting, NIL_RUN, []), Waiting), 0, Idle, map[], map[]);
    assert AfterNew(SETUP, FRESH, "d", run1).dims == m1.dims;
  }

  // The first run starts, and a worker begins on its S.
  lemma FirstRun(run1: Run) returns (acts: seq<Action>)
    requires run1 != NIL_RUN
    ensures Plays(SETUP, EMPTY, FRESH, acts, B1(run1), Executing(run1)) && NothingLost(acts)
    ensures forall a :: a in acts ==> !a.Fail? && (a.Open? ==> a.run == run1)
  {
    hide Plays;
    hide ResetCells;
    hide TypeOf;
    TwoParts();
    TypesOfTwo();
    acts := FirstStart(run1);
    var b, wait := B1(run1), Cell(Waiting, NIL_RUN, []);
    var m1 := Replica(Dim(run1, Started, wait, Waiting), 0, Idle, map[], map[]);
    var m2 := m1.(workers := map[1 := Passed(0)]);
    PlaysOn(SETUP, EMPTY, FRESH, acts, b, m1, Check(1, 0));
    acts := acts + [Check(1, 0)];
    SetStart(run1, Started, wait, Cell(Started, NIL_RUN, []), Waiting);
    assert m2.workers[1 := Running(0)] == map[1 := Running(0)];
    PlaysOn(SETUP, EMPTY, FRESH, acts, b, m2, Begin(1));
    acts := acts + [Begin(1)];
  }

  // A restart; another worker executes the S of the new run and acknowledges it.
  lemma SecondRun(run1: Run, run2: Run) returns (acts: seq<Action>)
    requires run1 != NIL_RUN && run2 != NIL_RUN && run1 != run2
    ensures Plays(SETUP, B1(run1), Executing(run1), acts, B2(run1, run2),
                  Restarting(run1, run2).(dims := Dim(run2, Restarted, Cell(Terminated, NIL_RUN, []), Waiting)))
    ensures NothingLost(acts)
  {
    hide Plays;
    hide ResetCells;
    hide TypeOf;
    TwoParts();
    TypesOfTwo();
    acts := NewSteps(SETUP, B1(run1), Executing(run1), run2, "d", "", true);
    ResetTwo(Executing(run1).dims["d"].cells);
    var m4 := Restarting(run1, run2).(dims := Dim(run2, Restarted, Cell(Terminated, NIL_RUN, []), Waiting));
    assert AfterNew(SETUP, Executing(run1), "d", run2).dims == m4.dims;
    assert {} + {run1} == {run1};
  }

  // The state of the replica once the worker of the second start has passed its check.
  function Passing(run1: Run, run2: Run): Replica {
    Restarting(run1, run2).(dims := Dim(run2, Restarted, Cell(Terminated, NIL_RUN, []), Waiting),
                            workers := map[1 := Running(0), 2 := Passed(1)])
  }

  lemma SecondChecked(run1: Run, run2: Run)
    requires run1 != NIL_RUN && run2 != NIL_RUN && run1 != run2
    ensures Plays(SETUP, B2(run1, run2),
                  Restarting(run1, run2).(dims := Dim(run2, Restarted, Cell(Terminated, NIL_RUN, []), Waiting)),
                  [Check(2, 1)], B2(run1, run2), Passing(run1, run2))
  {
    hide TypeOf;
    var m4 := Restarting(run1, run2).(dims := Dim(run2, Restarted, Cell(Terminated, NIL_RUN, []), Waiting));
    assert m4.workers[2 := Passed(1)] == Passing(run1, run2).workers;
    PlaysOne(SETUP, B2(run1, run2), m4, Check(2, 1));
  }

  lemma SecondAck(run1: Run, run2: Run) returns (acts: seq<Action>)
    requires run1 != NIL_RUN && run2 != NIL_RUN && run1 != run2
    ensures Plays(SETUP, B2(run1, run2),
                  Restarting(run1, run2).(dims := Dim(run2, Restarted, Cell(Terminated, NIL_RUN, []), Waiting)),
                  acts, B3(run1, run2), Restarting(run1, run2))
    ensures NothingLost(acts)
  {
    hide Plays;
    hide TypeOf;
    TypesOfTwo();
    var b, was, m5 := B2(run1, run2), Cell(Terminated, NIL_RUN, []), Passing(run1, run2);
    var m4 := Restarting(run1, run2).(dims := Dim(run2, Restarted, was, Waiting));
    SecondChecked(run1, run2);
    var m6 := Restarting(run1, run2).(workers := map[1 := Running(0), 2 := Running(1)]);
    SetStart(run2, Restarted, was, Cell(Started, NIL_RUN, []), Waiting);
    assert m5.workers[2 := Running(1)] == m6.workers;
    PlaysOn(SETUP, b, m4, [Check(2, 1)], b, m5, Begin(2));
    assert m6.workers - {2} == map[1 := Running(0)];
    acts := [Check(2, 1)] + [Begin(2)];
    PlaysOn(SETUP, b, m4, acts, b, m6, Finish(2, OUT));
    acts := acts + [Finish(2, OUT)];
  }

  // The loop records S; the old worker fails and erases it.
  lemma Erased(run1: Run, run2: Run) returns (acts: seq<Action>)
    requires run1 != NIL_RUN && run2 != NIL_RUN && run1 != run2
    ensures Plays(SETUP, B3(run1, run2), Restarting(run1, run2), acts, B3(run1, run2),
                  Stuck(run1, run2).(cursor := 1, loop := Joining("d", run2, [END])))
    ensures NothingLost(acts)
  {
    hide Plays;
    hide TypeOf;
    TwoParts();
    var b, m7, done := B3(run1, run2), Restarting(run1, run2), Cell(Finished, run2, [OUT]);
    var m8 := m7.(cursor := 1, loop := Checked(Done(run2)));
    PlaysOne(SETUP, b, m7, Take);
    var m9 := m7.(dims := Dim(run2, Restarted, done, Waiting), cursor := 1, loop := Joining("d", run2, [END]));
    SetStart(run2, Restarted, Cell(Started, NIL_RUN, []), done, Waiting);
    PlaysOn(SETUP, b, m7, [Take], b, m8, Record);
    SetStart(run2, Restarted, done, Cell(Failed, NIL_RUN, []), Waiting);
    assert m9.workers - {1} == map[];
    acts := [Take] + [Record];
    PlaysOn(SETUP, b, m7, acts, b, m9, Fail(1));
    acts := acts + [Fail(1)];
  }

  // The loop finds no finished S; the stale event is acknowledged empty and read.
  lemma Skipped(run1: Run, run2: Run) returns (acts: seq<Action>)
    requires run1 != NIL_RUN && run2 != NIL_RUN && run1 != run2
    ensures Plays(SETUP, B3(run1, run2), Stuck(run1, run2).(cursor := 1, loop := Joining("d", run2, [END])), acts,
                  B4(run1, run2), Stuck(run1, run2))
    ensures NothingLost(acts)
  {
    hide Plays;
    hide TypeOf;
    TwoParts();
    var b, m10 := B3(run1, run2), Stuck(run1, run2).(cursor := 1, loop := Joining("d", run2, [END]));
    assert [END][1..] == [];
    PlaysOne(SETUP, b, m10, Follow);
    var m11 := m10.(loop := Reading("d", run2, END, [], []));
    PlaysOn(SETUP, b, m10, [Follow], b, m11, Look);
    var m12 := m10.(loop := Joining("d", run2, []));
    acts := [Follow] + [Look];
    PlaysOn(SETUP, b, m10, acts, b, m12, Check(1, 0));
    acts := acts + [Check(1, 0)];
    PlaysOn(SETUP, b, m10, acts, B4(run1, run2), m12, Take);
    acts := acts + [Take];
  }

  // Without any lost write or request the newest run is stuck: all is quiet, S has completed in
  // it, and E, which S links to, has not even been created.
  lemma StaleFailureLosesJoin(run1: Run, run2: Run) returns (acts: seq<Action>, b: Ledger, me: Replica)
    requires run1 != NIL_RUN && run2 != NIL_RUN && run1 != run2
    ensures Sound(STORY) && NothingLost(acts)
    ensures Plays(SETUP, EMPTY, FRESH, acts, b, me) && Quiescent(One(b, me))
    ensures "d" in me.dims && me.dims["d"].run == run2
    ensures CompletedIn(b, START, run2) && Prev(STORY, END) == [START] && !CreatedIn(b, END, run2)
  {
    hide Plays;
    hide NothingLost;
    TwoParts();
    TwoPartsSound();
    acts := FirstRun(run1);
    var more := SecondRun(run1, run2);
    PlaysThen(SETUP, EMPTY, FRESH, acts, B1(run1), Executing(run1), more, B2(run1, run2),
              Restarting(run1, run2).(dims := Dim(run2, Restarted, Cell(Terminated, NIL_RUN, []), Waiting)));
    acts := acts + more;
    more := SecondAck(run1, run2);
    PlaysThen(SETUP, EMPTY, FRESH, acts, B2(run1, run2),
              Restarting(run1, run2).(dims := Dim(run2, Restarted, Cell(Terminated, NIL_RUN, []), Waiting)),
              more, B3(run1, run2), Restarting(run1, run2));
    acts := acts + more;
    more := Erased(run1, run2);
    PlaysThen(SETUP, EMPTY, FRESH, acts, B3(run1, run2), Restarting(run1, run2), more, B3(run1, run2),
              Stuck(run1, run2).(cursor := 1, loop := Joining("d", run2, [END])));
    acts := acts + more;
    more := Skipped(run1, run2);
    PlaysThen(SETUP, EMPTY, FRESH, acts, B3(run1, run2),
              Stuck(run1, run2).(cursor := 1, loop := Joining("d", run2, [END])),
              more, B4(run1, run2), Stuck(run1, run2));
    acts := acts + more;
    b, me := B4(run1, run2), Stuck(run1, run2);
    StuckInTheEnd(run1, run2);
  }

  lemma PlaysThen(setup: Setup, b: Ledger, me: Replica, acts: seq<Action>, b': Ledger, me': Replica,
                  more: seq<Action>, b'': Ledger, me'': Replica)
    requires Plays(setup, b, me, acts, b', me') && Plays(setup, b', me', more, b'', me'')
    requires NothingLost(acts) && NothingLost(more)
    ensures Plays(setup, b, me, acts + more, b'', me'') && NothingLost(acts + more)
  {
    hide Plays;
    PlaysJoin(setup, b, me, acts, b', me', more, b'', me'');
  }

  lemma StuckInTheEnd(run1: Run, run2: Run)
    ensures Quiescent(One(B4(run1, run2), Stuck(run1, run2)))
    ensures CompletedIn(B4(run1, run2), START, run2) && !CreatedIn(B4(run1, run2), END, run2)
  {
    var b := B4(run1, run2);
    assert START[0] != END[0];
    assert b.pending == {};
    assert b.completed[0] == Done(run2);
  }

  // ----- without any restart -----

  function Done1(run1: Run): Completion { Completion(0, "d", START, run1, [OUT]) }

  function B5(run1: Run): Ledger { Acknowledge(B1(run1), Done1(run1)) }

  // The replica once S has completed and is recorded, and a second worker has passed its run check.
  function Late(run1: Run, s: Cell, w: Worker, l: Loop): Replica {
    Replica(Dim(run1, Started, s, Waiting), 1, l, map[], map[2 := w])
  }

  // A second worker gets the event of S before the first has acknowledged it.
  lemma BothDelivered(run1: Run)
    requires run1 != NIL_RUN
    ensures Plays(SETUP, B1(run1), Executing(run1), [Check(2, 0), Finish(1, OUT)], B5(run1),
                  Executing(run1).(workers := map[2 := Passed(0)]))
  {
    hide Plays;
    hide TypeOf;
    TypesOfTwo();
    var b, m := B1(run1), Executing(run1);
    var m1 := m.(workers := map[1 := Running(0), 2 := Passed(0)]);
    assert m.workers[2 := Passed(0)] == m1.workers;
    PlaysOne(SETUP, b, m, Check(2, 0));
    assert m1.workers - {1} == map[2 := Passed(0)];
    PlaysOn(SETUP, b, m, [Check(2, 0)], b, m1, Finish(1, OUT));
    assert [Check(2, 0)] + [Finish(1, OUT)] == [Check(2, 0), Finish(1, OUT)];
  }

  // The loop records S.
  lemma Redelivered(run1: Run) returns (acts: seq<Action>)
    requires run1 != NIL_RUN
    ensures Plays(SETUP, B1(run1), Executing(run1), acts, B5(run1),
                  Late(run1, Cell(Finished, run1, [OUT]), Passed(0), Joining("d", run1, [END])))
    ensures NothingLost(acts) && forall a :: a in acts ==> !a.Open? && !a.Fail?
  {
    hide Plays;
    hide TypeOf;
    TwoParts();
    BothDelivered(run1);
    var b, m := B1(run1), Executing(run1);
    acts := [Check(2, 0), Finish(1, OUT)];
    var m2 := m.(workers := map[2 := Passed(0)]);
    var m3 := m2.(cursor := 1, loop := Checked(Done1(run1)));
    PlaysOn(SETUP, b, m, acts, B5(run1), m2, Take);
    acts := acts + [Take];
    SetStart(run1, Started, Cell(Started, NIL_RUN, []), Cell(Finished, run1, [OUT]), Waiting);
    PlaysOn(SETUP, b, m, acts, B5(run1), m3, Record);
    acts := acts + [Record];
  }

  lemma BegunAgain(run1: Run)
    requires run1 != NIL_RUN
    ensures Plays(SETUP, B5(run1), Late(run1, Cell(Finished, run1, [OUT]), Passed(0), Joining("d", run1, [END])),
                  [Begin(2)], B5(run1), Late(run1, Cell(Started, NIL_RUN, []), Running(0), Joining("d", run1, [END])))
  {
    hide TypeOf;
    var was := Cell(Finished, run1, [OUT]);
    var m4 := Late(run1, was, Passed(0), Joining("d", run1, [END]));
    SetStart(run1, Started, was, Cell(Started, NIL_RUN, []), Waiting);
    assert m4.workers[2 := Running(0)] == map[2 := Running(0)];
    PlaysOne(SETUP, B5(run1), m4, Begin(2));
  }

  // The second worker marks S as started; the loop finds no finished S.
  lemma Unfinished(run1: Run) returns (acts: seq<Action>)
    requires run1 != NIL_RUN
    ensures Plays(SETUP, B5(run1), Late(run1, Cell(Finished, run1, [OUT]), Passed(0), Joining("d", run1, [END])), acts,
                  B5(run1), Late(run1, Cell(Started, NIL_RUN, []), Running(0),
                                 Joining("d", run1, [])).(workers := map[]))
    ensures NothingLost(acts) && forall a :: a in acts ==> !a.Open? && !a.Fail?
  {
    hide Plays;
    hide TypeOf;
    TwoParts();
    TypesOfTwo();
    var b := B5(run1);
    var m4 := Late(run1, Cell(Finished, run1, [OUT]), Passed(0), Joining("d", run1, [END]));
    var m5 := Late(run1, Cell(Started, NIL_RUN, []), Running(0), Joining("d", run1, [END]));
    BegunAgain(run1);
    assert [END][1..] == [];
    PlaysOn(SETUP, b, m4, [Begin(2)], b, m5, Follow);
    acts := [Begin(2)] + [Follow];
    var m6 := m5.(loop := Reading("d", run1, END, [], []));
    PlaysOn(SETUP, b, m4, acts, b, m6, Look);
    acts := acts + [Look];
    var m7 := m5.(loop := Joining("d", run1, []));
    assert m7.workers - {2} == map[];
    PlaysOn(SETUP, b, m4, acts, b, m7, Finish(2, OUT));
    acts := acts + [Finish(2, OUT)];
  }

  // One run, no failure, no lost write or request: the event of S was delivered to two workers, and
  // the run is stuck in the same way.
  lemma RedeliveryLosesJoin(run1: Run) returns (acts: seq<Action>, b: Ledger, me: Replica)
    requires run1 != NIL_RUN
    ensures Sound(STORY) && NothingLost(acts) && forall a :: a in acts ==> !a.Fail? && (a.Open? ==> a.run == run1)
    ensures Plays(SETUP, EMPTY, FRESH, acts, b, me) && Quiescent(One(b, me))
    ensures "d" in me.dims && me.dims["d"].run == run1
    ensures CompletedIn(b, START, run1) && Prev(STORY, END) == [START] && !CreatedIn(b, END, run1)
  {
    hide Plays;
    hide NothingLost;
    TwoParts();
    TwoPartsSound();
    acts := FirstRun(run1);
    var more := Redelivered(run1);
    var late := Late(run1, Cell(Finished, run1, [OUT]), Passed(0), Joining("d", run1, [END]));
    PlaysThen(SETUP, EMPTY, FRESH, acts, B1(run1), Executing(run1), more, B5(run1), late);
    acts := acts + more;
    more := Unfinished(run1);
    b, me := B5(run1), Late(run1, Cell(Started, NIL_RUN, []), Running(0), Joining("d", run1, [])).(workers := map[]);
    PlaysThen(SETUP, EMPTY, FRESH, acts, B5(run1), late, more, b, me);
    acts := acts + more;
    StuckWithoutRestart(run1);
  }

  lemma StuckWithoutRestart(run1: Run)
    ensures Quiescent(One(B5(run1), Late(run1, Cell(Started, NIL_RUN, []), Running(0), Joining("d", run1, []))))
    ensures CompletedIn(B5(run1), START, run1) && !CreatedIn(B5(run1), END, run1)
  {
    assert START[0] != END[0];
    assert B5(run1).pending == {};
    assert B5(run1).completed[0] == Done1(run1);
  }
}
