// When a run of the repeatable reader gets through, exactly: whatever all replicas do, a run that
// is held to the end has completed every part if and only if none of a few kinds of steps happened
// to it, each of which can be told when it happens.
module RepeatableProgress {
  import opened Seqs
  import opened Walks
  import opened Story
  import opened Plan
  import opened Bus
  import opened Journal
  import opened Repeatable
  import opened Fencing

  // ----- where a run stands in the replica that holds it -----

  // The loop has taken a completion of p in the run, and is past recording it.
  ghost predicate Read(b: Ledger, me: Replica, p: string, x: Run) {
    exists j :: 0 <= j < me.cursor && j < |b.completed| && ReadAt(b, me, p, x, j)
  }

  ghost predicate ReadAt(b: Ledger, me: Replica, p: string, x: Run, j: nat)
    requires j < |b.completed|
  {
    b.completed[j].part == p && b.completed[j].run == x && me.loop != Checked(b.completed[j])
  }

  // The first predecessors of n are read.
  ghost predicate ReadUpTo(setup: Setup, b: Ledger, me: Replica, n: string, k: nat, x: Run) {
    k <= |Prev(setup.parts, n)| && forall p :: p in Prev(setup.parts, n)[..k] ==> Read(b, me, p, x)
  }

  ghost predicate AllRead(setup: Setup, b: Ledger, me: Replica, n: string, x: Run) {
    Prev(setup.parts, n) != [] && forall p :: p in Prev(setup.parts, n) ==> Read(b, me, p, x)
  }

  // The loop is to try this part, or is trying it.
  ghost predicate OnTheWay(l: Loop, n: string, x: Run) {
    match l
    case Joining(_, r, rest) => r == x && n in rest
    case Reading(_, r, m, _, rest) => r == x && (n == m || n in rest)
    case Writing(e, rest) => e.run == x && (e.part == n || n in rest)
    case _ => false
  }

  ghost predicate Writes(l: Loop, n: string, x: Run) {
    l.Writing? && l.event.part == n && l.event.run == x
  }

  // Trying n, the loop has read the cell of p already.
  ghost predicate Looked(setup: Setup, l: Loop, n: string, p: string, x: Run) {
    || Writes(l, n, x)
    || (l.Reading? && l.run == x && l.n == n
        && |l.td| <= |Prev(setup.parts, n)| && p in Prev(setup.parts, n)[..|l.td|])
  }

  // The loop needs the cell of p no more to create n: it has read it, and will find all the others.
  ghost predicate Secured(setup: Setup, b: Ledger, me: Replica, n: string, p: string, x: Run) {
    Looked(setup, me.loop, n, p, x) && AllRead(setup, b, me, n, x)
  }

  ghost predicate NeededFor(setup: Setup, b: Ledger, me: Replica, n: string, p: string, x: Run) {
    n in Next(setup.parts, p) && !CreatedIn(b, n, x) && !Secured(setup, b, me, n, p, x)
  }

  // Some part is still to be created from the output of p.
  ghost predicate Needed(setup: Setup, b: Ledger, me: Replica, p: string, x: Run) {
    exists n :: NeededFor(setup, b, me, n, p, x)
  }

  // ----- what always holds of a run that is held -----

  // Only what was read can be taken as finished.
  ghost predicate OwnCells(b: Ledger, me: Replica, d: string, x: Run)
    requires d in me.dims
  {
    forall p :: Usable(me.dims[d].cells, p, x) ==> Read(b, me, p, x)
  }

  ghost predicate LoopTracked(setup: Setup, b: Ledger, me: Replica, x: Run) {
    match me.loop
    case Idle => true
    case Checked(c) => c.run == x ==> 0 < me.cursor <= |b.completed| && c == b.completed[me.cursor - 1]
    case Joining(_, r, rest) => r == x ==> Distinct(rest)
    case Reading(_, r, n, td, rest) => r == x ==>
      && Distinct([n] + rest)
      && ReadUpTo(setup, b, me, n, |td|, x)
    case Writing(e, rest) => e.run == x ==> Distinct([e.part] + rest) && AllRead(setup, b, me, e.part, x)
  }

  // What was requested had all its predecessors, and is created, being written, or given up.
  ghost predicate GrantsTracked(setup: Setup, b: Ledger, me: Replica, x: Run) {
    forall n :: ConsId(n, x) in b.granted ==>
      && AllRead(setup, b, me, n, x)
      && (CreatedIn(b, n, x) || Writes(me.loop, n, x) || !OnTheWay(me.loop, n, x))
  }

  ghost predicate Tracked(setup: Setup, b: Ledger, me: Replica, d: string, x: Run)
    requires d in me.dims
  {
    OwnCells(b, me, d, x) && LoopTracked(setup, b, me, x) && GrantsTracked(setup, b, me, x)
  }

  // ----- what holds as long as nothing was lost -----

  ghost predicate Launched(b: Ledger, me: Replica, x: Run) {
    CreatedIn(b, START, x) || x in me.starters
  }

  ghost predicate AckedAs(b: Ledger, k: nat, x: Run) {
    exists j :: 0 <= j < |b.completed| && b.completed[j].src == k && b.completed[j].run == x
  }

  // No event of the run was acknowledged without an output.
  ghost predicate NoneDropped(b: Ledger, x: Run) {
    forall k: nat :: k < |b.created| && b.created[k].run == x ==> k in b.pending || AckedAs(b, k, x)
  }

  // What was read and is still needed can be taken as finished.
  ghost predicate Kept(setup: Setup, b: Ledger, me: Replica, d: string, x: Run)
    requires d in me.dims
  {
    forall p :: Read(b, me, p, x) && Needed(setup, b, me, p, x) ==> Usable(me.dims[d].cells, p, x)
  }

  // A part whose predecessors are all read is created, or the loop is on its way to it.
  ghost predicate NoneMissed(setup: Setup, b: Ledger, me: Replica, x: Run) {
    forall n :: IsPart(setup.parts, n) && AllRead(setup, b, me, n, x) ==> CreatedIn(b, n, x) || OnTheWay(me.loop, n, x)
  }

  ghost predicate Advancing(setup: Setup, b: Ledger, me: Replica, d: string, x: Run)
    requires d in me.dims
  {
    Launched(b, me, x) && NoneDropped(b, x) && Kept(setup, b, me, d, x) && NoneMissed(setup, b, me, x)
  }

  // ----- steps that leave a run alone, but for its cells -----

  ghost predicate SameLoopFor(setup: Setup, l: Loop, l': Loop, x: Run) {
    && (forall n :: OnTheWay(l', n, x) == OnTheWay(l, n, x))
    && (forall n :: Writes(l', n, x) == Writes(l, n, x))
    && (forall n, p :: Looked(setup, l', n, p, x) == Looked(setup, l, n, p, x))
  }

  ghost predicate SameLedgerFor(b: Ledger, b': Ledger, x: Run) {
    && (forall n :: CreatedIn(b', n, x) == CreatedIn(b, n, x))
    && (forall n :: (ConsId(n, x) in b'.granted) == (ConsId(n, x) in b.granted))
  }

  ghost predicate SameReadFor(b: Ledger, me: Replica, b': Ledger, me': Replica, x: Run) {
    forall p :: Read(b', me', p, x) == Read(b, me, p, x)
  }

  ghost predicate SameFor(setup: Setup, b: Ledger, me: Replica, b': Ledger, me': Replica, x: Run) {
    && SameLoopFor(setup, me.loop, me'.loop, x)
    && SameLedgerFor(b, b', x)
    && SameReadFor(b, me, b', me', x)
    && (x in me'.starters <==> x in me.starters)
  }

  // Nothing that is needed ceases to be usable.
  ghost predicate NoHarm(setup: Setup, b: Ledger, me: Replica, d: string, cells: map<string, Cell>, x: Run)
    requires d in me.dims
  {
    forall p :: Usable(me.dims[d].cells, p, x) && !Usable(cells, p, x) ==> !Needed(setup, b, me, p, x)
  }

  lemma SameAllRead(setup: Setup, b: Ledger, me: Replica, b': Ledger, me': Replica, x: Run)
    requires SameReadFor(b, me, b', me', x)
    ensures forall n :: AllRead(setup, b', me', n, x) == AllRead(setup, b, me, n, x)
  {
    hide Read;
  }

  lemma SameNeeded(setup: Setup, b: Ledger, me: Replica, b': Ledger, me': Replica, x: Run)
    requires SameFor(setup, b, me, b', me', x)
    ensures forall p :: Needed(setup, b', me', p, x) == Needed(setup, b, me, p, x)
  {
    hide Read;
    hide Looked;
    hide OnTheWay;
    hide Writes;
    hide CreatedIn;
    hide AllRead;
    SameAllRead(setup, b, me, b', me', x);
    forall p, n ensures NeededFor(setup, b', me', n, p, x) == NeededFor(setup, b, me, n, p, x) {
      assert Secured(setup, b', me', n, p, x) == Secured(setup, b, me, n, p, x);
    }
    forall p ensures Needed(setup, b', me', p, x) == Needed(setup, b, me, p, x) {
      hide NeededFor;
    }
  }

  // A step that changes nothing about the run but some of its cells, and makes none usable: the
  // run goes on exactly if no event of it was dropped and no needed cell lost.
  lemma QuietStep(setup: Setup, b: Ledger, me: Replica, b': Ledger, me': Replica, d: string, x: Run)
    requires SameFor(setup, b, me, b', me', x) && d in me.dims && d in me'.dims && Tracked(setup, b, me, d, x)
    requires forall p :: Usable(me'.dims[d].cells, p, x) ==> Usable(me.dims[d].cells, p, x)
    requires NoneDropped(b', x) ==> NoneDropped(b, x)
    requires LoopTracked(setup, b', me', x)
    ensures Tracked(setup, b', me', d, x)
    ensures Advancing(setup, b', me', d, x) <==>
      Advancing(setup, b, me, d, x) && NoneDropped(b', x) && NoHarm(setup, b, me, d, me'.dims[d].cells, x)
  {
    hide Read;
    hide Looked;
    hide OnTheWay;
    hide Writes;
    hide CreatedIn;
    hide AllRead;
    hide Needed;
    hide Usable;
    hide NoneDropped;
    hide LoopTracked;
    SameAllRead(setup, b, me, b', me', x);
    SameNeeded(setup, b, me, b', me', x);
  }

  // ----- the ledger -----

  lemma PublishDropsNone(b: Ledger, e: Event, x: Run)
    ensures NoneDropped(Publish(b, e), x) <==> NoneDropped(b, x)
  {
    var b' := Publish(b, e);
    forall k: nat ensures AckedAs(b', k, x) == AckedAs(b, k, x) {}
    if NoneDropped(b', x) {
      forall k: nat | k < |b.created| && b.created[k].run == x ensures k in b.pending || AckedAs(b, k, x) {
        assert b'.created[k] == b.created[k];
      }
    }
  }

  // An acknowledgement drops an event of the run exactly if it does not say so.
  lemma AckDrops(b: Ledger, c: Completion, x: Run)
    requires Acked(b) && c.src in b.pending && c.src < |b.created|
    ensures NoneDropped(Acknowledge(b, c), x) <==> NoneDropped(b, x) && (b.created[c.src].run == x ==> c.run == x)
  {
    var b' := Acknowledge(b, c);
    assert b'.completed[|b.completed|] == c;
    forall k: nat | k != c.src ensures AckedAs(b', k, x) == AckedAs(b, k, x) {
      OtherAcks(b, c, k, x);
    }
    assert AckedAs(b', c.src, x) == (c.run == x) by {
      assert forall j :: 0 <= j < |b.completed| ==> b'.completed[j] == b.completed[j];
    }
    hide AckedAs;
  }

  lemma OtherAcks(b: Ledger, c: Completion, k: nat, x: Run)
    requires k != c.src
    ensures AckedAs(Acknowledge(b, c), k, x) == AckedAs(b, k, x)
  {
    var b' := Acknowledge(b, c);
    if AckedAs(b, k, x) {
      var j :| 0 <= j < |b.completed| && b.completed[j].src == k && b.completed[j].run == x;
      assert b'.completed[j] == b.completed[j];
    }
  }

  lemma SameDropped(b: Ledger, b': Ledger, x: Run)
    requires b'.created == b.created && b'.completed == b.completed && b'.pending == b.pending
    ensures NoneDropped(b', x) == NoneDropped(b, x)
  {
    forall k: nat ensures AckedAs(b', k, x) == AckedAs(b, k, x) {}
    hide AckedAs;
  }

  // The action is one of the run's own: it writes its start, or requests or writes one of its parts.
  predicate ActsOn(me: Replica, act: Action, x: Run) {
    match act
    case Launch(run, _) => run == x
    case Send(_) => me.loop.Writing? && me.loop.event.run == x
    case Ask(_) => me.loop.Reading? && me.loop.run == x
    case _ => false
  }

  // The action acknowledges an event of the run without an output.
  predicate Takes(b: Ledger, me: Replica, act: Action, x: Run) {
    && act.Check? && act.event < |b.created| && b.created[act.event].run == x
    && b.created[act.event].dim in me.dims && me.dims[b.created[act.event].dim].run != x
  }

  // What the other actions do to the ledger, for the run.
  lemma ForeignLedger(setup: Setup, b: Ledger, me: Replica, act: Action, x: Run)
    requires Acked(b) && Enabled(setup, b, me, act) && !ActsOn(me, act, x) && x != NIL_RUN
    ensures var b' := Act(setup, b, me, act).0;
      && SameLedgerFor(b, b', x) && b.completed <= b'.completed
      && (NoneDropped(b', x) <==> NoneDropped(b, x) && !Takes(b, me, act, x))
  {
    hide Acked;
    hide NoneDropped;
    hide Usable;
    hide PartIdList;
    hide TypeOf;
    hide ResetState;
    hide CreatedIn;
    var b' := Act(setup, b, me, act).0;
    match act {
      case Launch(run, ok) =>
        if ok { ForeignPublish(b, StartedBy(setup, me, run), x); }
      case Send(ok) =>
        if ok { ForeignPublish(b, me.loop.event, x); }
      case Check(w, k) =>
        if me.dims[b.created[k].dim].run != b.created[k].run { ForeignAck(b, Inert(k), x); }
      case Finish(w, out) =>
        var k := me.workers[w].event;
        var e := b.created[k];
        if k in b.pending { ForeignAck(b, Completion(k, e.dim, e.part, e.run, [out]), x); }
      case Ask(want) =>
        if want { ForeignGrant(b, me.loop.n, me.loop.run, x); }
      case Open(run, _, _) =>
        SameDropped(b, b', x);
        forall n ensures CreatedIn(b', n, x) == CreatedIn(b, n, x) { SameCreated(b, b', n, x); }
      case _ =>
    }
  }

  lemma ForeignPublish(b: Ledger, e: Event, x: Run)
    requires e.run != x
    ensures SameLedgerFor(b, Publish(b, e), x) && (NoneDropped(Publish(b, e), x) <==> NoneDropped(b, x))
  {
    hide NoneDropped;
    hide CreatedIn;
    PublishDropsNone(b, e, x);
    forall n ensures CreatedIn(Publish(b, e), n, x) == CreatedIn(b, n, x) { CreatedGrows(b, e, n, x); }
  }

  lemma ForeignAck(b: Ledger, c: Completion, x: Run)
    requires Acked(b) && c.src in b.pending && c.src < |b.created|
    ensures SameLedgerFor(b, Acknowledge(b, c), x)
    ensures NoneDropped(Acknowledge(b, c), x) <==> NoneDropped(b, x) && (b.created[c.src].run == x ==> c.run == x)
  {
    hide NoneDropped;
    hide CreatedIn;
    AckDrops(b, c, x);
    forall n
      ensures CreatedIn(Acknowledge(b, c), n, x) == CreatedIn(b, n, x) { SameCreated(b, Acknowledge(b, c), n, x); }
  }

  lemma ForeignGrant(b: Ledger, n: string, run: Run, x: Run)
    requires run != x
    ensures var b' := Grant(b, ConsId(n, run)); SameLedgerFor(b, b', x) && (NoneDropped(b', x) <==> NoneDropped(b, x))
  {
    hide NoneDropped;
    hide CreatedIn;
    hide ConsId;
    var b' := Grant(b, ConsId(n, run));
    SameDropped(b, b', x);
    forall m ensures CreatedIn(b', m, x) == CreatedIn(b, m, x) { SameCreated(b, b', m, x); }
    forall m | ConsId(m, x) == ConsId(n, run) ensures false { ConsIdInjective(m, x, n, run); }
  }

  // What was read stays read when the log grows.
  lemma LogGrows(b: Ledger, me: Replica, b': Ledger, x: Run)
    requires me.cursor <= |b.completed| && b.completed <= b'.completed
    ensures SameReadFor(b, me, b', me, x)
  {
    forall p ensures Read(b', me, p, x) == Read(b, me, p, x) {
      if Read(b, me, p, x) {
        var j :| 0 <= j < me.cursor && j < |b.completed| && ReadAt(b, me, p, x, j);
        assert ReadAt(b', me, p, x, j);
      }
      if Read(b', me, p, x) {
        var j :| 0 <= j < me.cursor && j < |b'.completed| && ReadAt(b', me, p, x, j);
        assert ReadAt(b, me, p, x, j);
      }
    }
  }

  lemma LogKeepsTrack(setup: Setup, b: Ledger, me: Replica, b': Ledger, x: Run)
    requires me.cursor <= |b.completed| && b.completed <= b'.completed && LoopTracked(setup, b, me, x)
    ensures SameReadFor(b, me, b', me, x) && LoopTracked(setup, b', me, x)
  {
    hide Read;
    LogGrows(b, me, b', x);
    SameAllRead(setup, b, me, b', me, x);
  }

  // ----- the other replicas -----

  // Another replica's action harms the run exactly if it takes an event of it.
  lemma OthersAct(setup: Setup, b: Ledger, other: Replica, act: Action, me: Replica, d: string, x: Run)
    requires BusOk(setup, b) && ReplicaOk(setup, b, me) && ReplicaOk(setup, b, other) && Enabled(setup, b, other, act)
    requires d in me.dims && x != NIL_RUN && !Claims(other, x) && Tracked(setup, b, me, d, x)
    ensures var b' := Act(setup, b, other, act).0;
      && Tracked(setup, b', me, d, x)
      && (Advancing(setup, b', me, d, x) <==> Advancing(setup, b, me, d, x) && !Takes(b, other, act, x))
  {
    hide Act;
    hide BusOk;
    hide ReplicaOk;
    hide NoneDropped;
    hide Usable;
    hide OnTheWay;
    hide Writes;
    hide Looked;
    hide Read;
    hide Needed;
    hide OwnCells;
    hide GrantsTracked;
    hide LoopTracked;
    hide Takes;
    hide SameReadFor;
    hide CreatedIn;
    var b' := Act(setup, b, other, act).0;
    assert Acked(b) by { BusIsAcked(setup, b); }
    assert !ActsOn(other, act, x);
    ForeignLedger(setup, b, other, act, x);
    assert me.cursor <= |b.completed| by { CursorFits(setup, b, me); }
    LogKeepsTrack(setup, b, me, b', x);
    QuietStep(setup, b, me, b', me, d, x);
    assert NoHarm(setup, b, me, d, me.dims[d].cells, x);
  }

  lemma BusIsJournal(setup: Setup, b: Ledger)
    requires BusOk(setup, b)
    ensures JournalOk(setup, b)
  {
  }

  lemma BusIsAcked(setup: Setup, b: Ledger)
    requires BusOk(setup, b)
    ensures Acked(b)
  {
    JournalIsAcked(setup, b);
  }

  lemma CursorFits(setup: Setup, b: Ledger, me: Replica)
    requires ReplicaOk(setup, b, me)
    ensures me.cursor <= |b.completed|
  {
  }

  // ----- the replica that holds the run: rr.New and Read -----

  predicate LoopAct(act: Action) {
    act.Take? || act.Record? || act.Follow? || act.Look? || act.Ask? || act.Send?
  }

  lemma SameLoopReads(b: Ledger, me: Replica, me': Replica, x: Run)
    requires me'.loop == me.loop && me'.cursor == me.cursor
    ensures SameReadFor(b, me, b, me', x)
  {
    forall p ensures Read(b, me', p, x) == Read(b, me, p, x) {
      assert forall j :: 0 <= j < |b.completed| ==> ReadAt(b, me', p, x, j) == ReadAt(b, me, p, x, j);
    }
  }

  lemma SameLoopTracked(setup: Setup, b: Ledger, me: Replica, me': Replica, x: Run)
    requires me'.loop == me.loop && me'.cursor == me.cursor && LoopTracked(setup, b, me, x)
    ensures LoopTracked(setup, b, me', x)
  {
    hide Read;
    SameLoopReads(b, me, me', x);
    SameAllRead(setup, b, me, b, me', x);
  }

  // These threads leave the loop alone.
  lemma ThreadLeavesLoop(setup: Setup, b: Ledger, me: Replica, act: Action, x: Run)
    requires ReplicaOk(setup, b, me) && Enabled(setup, b, me, act) && !LoopAct(act) && !ActsOn(me, act, x)
    requires x in b.runs
    ensures var me' := Act(setup, b, me, act).1;
      me'.loop == me.loop && me'.cursor == me.cursor && (x in me'.starters <==> x in me.starters)
  {
    hide ReplicaOk;
    hide PartIdList;
    hide TypeOf;
    hide StartType;
    hide SetCell;
    hide ResetState;
  }

  // They make no cell of a current run usable.
  lemma ThreadUses(setup: Setup, b: Ledger, me: Replica, act: Action, d: string, x: Run, p: string)
    requires StartersOk(b, me) && Enabled(setup, b, me, act) && !LoopAct(act) && x != NIL_RUN
    requires d in me.dims && d in Act(setup, b, me, act).1.dims
    ensures Usable(Act(setup, b, me, act).1.dims[d].cells, p, x) ==> Usable(me.dims[d].cells, p, x)
  {
    hide PartIdList;
    hide TypeOf;
    hide StartType;
    hide ResetState;
    if act.Reset? {
      assert me.starters[act.run].state != Finished;
    }
  }

  lemma ThreadActs(setup: Setup, b: Ledger, me: Replica, act: Action, d: string, x: Run)
    requires ReplicaOk(setup, b, me) && Enabled(setup, b, me, act) && !LoopAct(act) && !ActsOn(me, act, x)
    requires d in me.dims && me.dims[d].run == x && x != NIL_RUN && Replaced(setup, b, me, act) != x
    ensures var me' := Act(setup, b, me, act).1;
      && me'.loop == me.loop && me'.cursor == me.cursor && (x in me'.starters <==> x in me.starters)
      && d in me'.dims && me'.dims[d].run == x
      && forall p :: Usable(me'.dims[d].cells, p, x) ==> Usable(me.dims[d].cells, p, x)
  {
    hide ReplicaOk;
    hide Usable;
    hide ActsOn;
    hide Act;
    assert RunsOk(b, me) && StartersOk(b, me) by { RunsAndStarters(setup, b, me); }
    assert x in b.runs;
    ThreadLeavesLoop(setup, b, me, act, x);
    if act.Swap? {
      SwapElsewhere(setup, b, me, act, d);
    } else {
      RunsStay(setup, b, me, act);
    }
    var me' := Act(setup, b, me, act).1;
    forall p ensures Usable(me'.dims[d].cells, p, x) ==> Usable(me.dims[d].cells, p, x) {
      ThreadUses(setup, b, me, act, d, x, p);
    }
  }

  lemma SwapElsewhere(setup: Setup, b: Ledger, me: Replica, act: Action, d: string)
    requires Enabled(setup, b, me, act) && act.Swap? && d in me.dims && Replaced(setup, b, me, act) != me.dims[d].run
    ensures d in Act(setup, b, me, act).1.dims && Act(setup, b, me, act).1.dims[d].run == me.dims[d].run
  {
    hide PartIdList;
  }

  lemma OwnThread(setup: Setup, b: Ledger, me: Replica, act: Action, d: string, x: Run)
    requires BusOk(setup, b) && ReplicaOk(setup, b, me) && InPlace(b, me) && Enabled(setup, b, me, act)
    requires !LoopAct(act) && !ActsOn(me, act, x)
    requires d in me.dims && me.dims[d].run == x && x != NIL_RUN && Replaced(setup, b, me, act) != x
    requires Tracked(setup, b, me, d, x)
    ensures var (b', me') := Act(setup, b, me, act);
      && d in me'.dims && Tracked(setup, b', me', d, x)
      && (Advancing(setup, b', me', d, x) <==>
            Advancing(setup, b, me, d, x) && NoHarm(setup, b, me, d, me'.dims[d].cells, x))
  {
    hide Act;
    hide BusOk;
    hide ReplicaOk;
    hide NoneDropped;
    hide Usable;
    hide OnTheWay;
    hide Writes;
    hide Looked;
    hide Read;
    hide Needed;
    hide OwnCells;
    hide GrantsTracked;
    hide LoopTracked;
    hide SameReadFor;
    hide CreatedIn;
    hide ActsOn;
    var (b', me') := Act(setup, b, me, act);
    ThreadActs(setup, b, me, act, d, x);
    assert Acked(b) by { BusIsAcked(setup, b); }
    ForeignLedger(setup, b, me, act, x);
    assert !Takes(b, me, act, x) by {
      assert LivesOnlyIn(b, me, x, d);
    }
    assert me.cursor <= |b.completed| by { CursorFits(setup, b, me); }
    LogKeepsTrack(setup, b, me, b', x);
    SameLoopTracked(setup, b', me, me', x);
    assert SameReadFor(b, me, b', me', x) by { SameLoopReadsOn(b, me, b', me', x); }
    QuietStep(setup, b, me, b', me', d, x);
  }

  lemma SameLoopReadsOn(b: Ledger, me: Replica, b': Ledger, me': Replica, x: Run)
    requires me'.loop == me.loop && me'.cursor == me.cursor && SameReadFor(b, me, b', me, x)
    ensures SameReadFor(b, me, b', me', x)
  {
    SameLoopReads(b', me, me', x);
    hide Read;
  }

  // The run's own start: written, it goes on as before; refused, it is lost.
  lemma OwnLaunch(setup: Setup, b: Ledger, me: Replica, ok: bool, d: string, x: Run)
    requires Sound(setup.parts) && BusOk(setup, b) && ReplicaOk(setup, b, me) && Enabled(setup, b, me, Launch(x, ok))
    requires d in me.dims && me.dims[d].run == x && x != NIL_RUN && Tracked(setup, b, me, d, x)
    ensures var (b', me') := Act(setup, b, me, Launch(x, ok));
      && d in me'.dims && Tracked(setup, b', me', d, x)
      && (Advancing(setup, b', me', d, x) <==> Advancing(setup, b, me, d, x) && ok)
  {
    hide Sound;
    hide BusOk;
    hide ReplicaOk;
    hide NoneDropped;
    hide Usable;
    hide OnTheWay;
    hide Writes;
    hide Looked;
    hide Read;
    hide Needed;
    hide LoopTracked;
    hide SameReadFor;
    hide CreatedIn;
    hide AllRead;
    hide TypeOf;
    var (b', me') := Act(setup, b, me, Launch(x, ok));
    assert me.cursor <= |b.completed| by { CursorFits(setup, b, me); }
    assert b.completed <= b'.completed;
    LogKeepsTrack(setup, b, me, b', x);
    SameLoopTracked(setup, b', me, me', x);
    assert SameReadFor(b, me, b', me', x) by { SameLoopReadsOn(b, me, b', me', x); }
    StartUncreated(setup, b, me, x);
    if ok {
      StartCreated(setup, b, me, b', me', StartedBy(setup, me, x), d, x);
    } else {
      SameAllRead(setup, b, me, b', me', x);
      assert OwnCells(b', me', d, x) by { OwnCellsSame(b, me, b', me', d, x); }
    }
  }

  lemma OwnCellsSame(b: Ledger, me: Replica, b': Ledger, me': Replica, d: string, x: Run)
    requires SameReadFor(b, me, b', me', x) && d in me.dims && d in me'.dims && me'.dims[d] == me.dims[d]
    requires OwnCells(b, me, d, x)
    ensures OwnCells(b', me', d, x)
  {
    hide Read;
    hide Usable;
  }

  lemma StartUncreated(setup: Setup, b: Ledger, me: Replica, x: Run)
    requires ReplicaOk(setup, b, me) && x in me.starters
    ensures forall n :: !CreatedIn(b, n, x)
  {
    hide CellsOk;
    hide LoopOk;
  }

  lemma StartIsNoTarget(setup: Setup, p: string)
    requires Sound(setup.parts)
    ensures START !in Next(setup.parts, p) && Prev(setup.parts, START) == []
  {
  }

  lemma StartCreated(setup: Setup, b: Ledger, me: Replica, b': Ledger, me': Replica, e: Event, d: string, x: Run)
    requires Sound(setup.parts) && b' == Publish(b, e) && e.part == START && e.run == x && x in me.starters
    requires me'.loop == me.loop && SameReadFor(b, me, b', me', x)
    requires d in me.dims && me'.dims == me.dims && Tracked(setup, b, me, d, x)
    requires LoopTracked(setup, b', me', x)
    ensures Tracked(setup, b', me', d, x)
    ensures Advancing(setup, b', me', d, x) <==> Advancing(setup, b, me, d, x)
  {
    assert !AllRead(setup, b, me, START, x) by { StartIsNoTarget(setup, START); }
    hide Sound;
    hide NoneDropped;
    hide Usable;
    hide OnTheWay;
    hide Writes;
    hide Looked;
    hide Read;
    hide LoopTracked;
    hide CreatedIn;
    hide AllRead;
    PublishDropsNone(b, e, x);
    SameAllRead(setup, b, me, b', me', x);
    forall n ensures CreatedIn(b', n, x) <==> CreatedIn(b, n, x) || n == START { CreatedGrows(b, e, n, x); }
    forall p, n ensures NeededFor(setup, b', me', n, p, x) == NeededFor(setup, b, me, n, p, x) {
      StartIsNoTarget(setup, p);
    }
    forall p ensures Needed(setup, b', me', p, x) == Needed(setup, b, me, p, x) {
      hide NeededFor;
    }
    hide Needed;
    OwnCellsSame(b, me, b', me', d, x);
  }

  // ----- the completed loop, at work on other runs -----

  // Neither loop is at work on the run.
  lemma IdleLoops(setup: Setup, l: Loop, l': Loop, x: Run)
    requires !Busy(l, x) || l.Checked?
    requires !Busy(l', x) || l'.Checked?
    ensures SameLoopFor(setup, l, l', x)
  {
  }

  lemma IdleTracked(setup: Setup, b: Ledger, me: Replica, x: Run)
    requires !Busy(me.loop, x)
    ensures LoopTracked(setup, b, me, x)
  {
  }

  // With both loops past recording what they took of the run, the same is read.
  lemma SameReads(b: Ledger, me: Replica, me': Replica, x: Run)
    requires me'.cursor == me.cursor
    requires me.loop.Checked? ==> me.loop.c.run != x
    requires me'.loop.Checked? ==> me'.loop.c.run != x
    ensures SameReadFor(b, me, b, me', x)
  {
    forall p ensures Read(b, me', p, x) == Read(b, me, p, x) {
      assert forall j :: 0 <= j < |b.completed| ==> ReadAt(b, me', p, x, j) == ReadAt(b, me, p, x, j);
    }
  }

  // Where an event, a completion or the loop carries the run, it is in the run's dimension.
  lemma EventHome(b: Ledger, me: Replica, d: string, dim: string, x: Run)
    requires InPlace(b, me) && d in me.dims && me.dims[d].run == x && x != NIL_RUN && LivesIn(b, x, dim)
    ensures dim == d
  {
    assert LivesOnlyIn(b, me, x, d);
  }

  lemma TakeStep(setup: Setup, b: Ledger, me: Replica, d: string, x: Run)
    requires BusOk(setup, b) && ReplicaOk(setup, b, me) && InPlace(b, me) && Enabled(setup, b, me, Take)
    requires d in me.dims && me.dims[d].run == x && x != NIL_RUN && Tracked(setup, b, me, d, x)
    ensures Act(setup, b, me, Take).0 == b
    ensures var me' := Act(setup, b, me, Take).1;
      Tracked(setup, b, me', d, x) && (Advancing(setup, b, me', d, x) <==> Advancing(setup, b, me, d, x))
  {
    hide ReplicaOk;
    hide InPlace;
    hide BusOk;
    hide NoneDropped;
    hide Usable;
    hide OwnCells;
    hide GrantsTracked;
    hide CreatedIn;
    hide Needed;
    hide AllRead;
    var c, me' := b.completed[me.cursor], Act(setup, b, me, Take).1;
    assert Acked(b) by { BusIsAcked(setup, b); }
    if c.run == x {
      assert c.dim == d by { CompletionAt(setup, b, me, me.cursor, d, x); }
    }
    IdleLoops(setup, me.loop, me'.loop, x);
    TakenIsUnread(b, me, me', x);
    hide Acked;
    hide Read;
    QuietStep(setup, b, me, b, me', d, x);
    assert me'.dims == me.dims;
    assert NoHarm(setup, b, me, d, me.dims[d].cells, x);
  }

  lemma CompletionAt(setup: Setup, b: Ledger, me: Replica, j: nat, d: string, x: Run)
    requires BusOk(setup, b) && ReplicaOk(setup, b, me) && InPlace(b, me)
    requires j < |b.completed| && b.completed[j].run == x
    requires d in me.dims && me.dims[d].run == x && x != NIL_RUN
    ensures b.completed[j].dim == d && IsPart(setup.parts, b.completed[j].part)
  {
    hide RightPayload;
    hide InPlace;
    assert x in b.runs by { ClaimedIsStarted(setup, b, me, x); }
    var k := b.completed[j].src;
    assert b.created[k].run == x;
    EventHome(b, me, d, b.created[k].dim, x);
  }

  // A completion that is only taken does not count as read.
  lemma TakenIsUnread(b: Ledger, me: Replica, me': Replica, x: Run)
    requires Acked(b) && me.cursor < |b.completed| && me'.cursor == me.cursor + 1 && AtRest(me.loop)
    requires var c := b.completed[me.cursor]; me'.loop == Checked(c) || (me'.loop == Idle && c.run != x)
    ensures SameReadFor(b, me, b, me', x)
  {
    forall p ensures Read(b, me', p, x) == Read(b, me, p, x) {
      assert forall j :: 0 <= j < me.cursor ==> b.completed[j] != b.completed[me.cursor];
      assert forall j :: 0 <= j < me.cursor ==> ReadAt(b, me', p, x, j) == ReadAt(b, me, p, x, j);
      assert !ReadAt(b, me', p, x, me.cursor);
    }
  }

  lemma FollowStep(setup: Setup, b: Ledger, me: Replica, d: string, x: Run)
    requires Enabled(setup, b, me, Follow) && d in me.dims && Tracked(setup, b, me, d, x)
    ensures Act(setup, b, me, Follow).0 == b
    ensures var me' := Act(setup, b, me, Follow).1;
      Tracked(setup, b, me', d, x) && (Advancing(setup, b, me', d, x) <==> Advancing(setup, b, me, d, x))
  {
    hide NoneDropped;
    hide Usable;
    hide OwnCells;
    hide GrantsTracked;
    hide CreatedIn;
    hide Needed;
    hide AllRead;
    hide Read;
    var l, me' := me.loop, Act(setup, b, me, Follow).1;
    SameReads(b, me, me', x);
    assert [l.rest[0]] + l.rest[1..] == l.rest;
    assert SameLoopFor(setup, l, me'.loop, x) by {
      assert forall n :: n in l.rest <==> n == l.rest[0] || n in l.rest[1..];
    }
    hide SameLoopFor;
    QuietStep(setup, b, me, b, me', d, x);
    assert me'.dims == me.dims;
    assert NoHarm(setup, b, me, d, me.dims[d].cells, x);
  }

  // The loop's steps for other runs: only a record can cost the run a cell.
  lemma LoopElsewhere(setup: Setup, b: Ledger, me: Replica, act: Action, d: string, x: Run)
    requires BusOk(setup, b) && ReplicaOk(setup, b, me) && Enabled(setup, b, me, act)
    requires act.Record? || act.Look? || act.Ask? || act.Send?
    requires d in me.dims && me.dims[d].run == x && x != NIL_RUN && Tracked(setup, b, me, d, x) && !Busy(me.loop, x)
    ensures var (b', me') := Act(setup, b, me, act);
      && d in me'.dims && Tracked(setup, b', me', d, x)
      && (Advancing(setup, b', me', d, x) <==>
            Advancing(setup, b, me, d, x) && NoHarm(setup, b, me, d, me'.dims[d].cells, x))
  {
    hide BusOk;
    hide ReplicaOk;
    hide Act;
    hide NoneDropped;
    hide Usable;
    hide OwnCells;
    hide GrantsTracked;
    hide LoopTracked;
    hide CreatedIn;
    hide Needed;
    hide AllRead;
    hide Read;
    hide SameLoopFor;
    hide SameReadFor;
    hide Takes;
    var (b', me') := Act(setup, b, me, act);
    ElsewhereActs(setup, b, me, act, d, x);
    assert Acked(b) by { BusIsAcked(setup, b); }
    ForeignLedger(setup, b, me, act, x);
    assert !Takes(b, me, act, x) by { NoCheckTakes(b, me, act, x); }
    assert me.cursor <= |b.completed| by { CursorFits(setup, b, me); }
    LogGrows(b, me, b', x);
    SameReads(b', me, me', x);
    assert SameReadFor(b, me, b', me', x) by { ReadsOn(b, me, b', me', x); }
    IdleLoops(setup, me.loop, me'.loop, x);
    IdleTracked(setup, b', me', x);
    QuietStep(setup, b, me, b', me', d, x);
  }

  lemma NoCheckTakes(b: Ledger, me: Replica, act: Action, x: Run)
    requires !act.Check?
    ensures !Takes(b, me, act, x)
  {
  }

  lemma ReadsOn(b: Ledger, me: Replica, b': Ledger, me': Replica, x: Run)
    requires SameReadFor(b, me, b', me, x) && SameReadFor(b', me, b', me', x)
    ensures SameReadFor(b, me, b', me', x)
  {
    hide Read;
  }

  lemma ElsewhereActs(setup: Setup, b: Ledger, me: Replica, act: Action, d: string, x: Run)
    requires Enabled(setup, b, me, act) && (act.Record? || act.Look? || act.Ask? || act.Send?)
    requires d in me.dims && me.dims[d].run == x && x != NIL_RUN && !Busy(me.loop, x)
    ensures !ActsOn(me, act, x)
    ensures var me' := Act(setup, b, me, act).1;
      && me'.cursor == me.cursor && me'.starters == me.starters && !Busy(me'.loop, x)
      && (me.loop.Checked? ==> me.loop.c.run != x) && (me'.loop.Checked? ==> me'.loop.c.run != x)
      && d in me'.dims
      && forall p :: Usable(me'.dims[d].cells, p, x) ==> Usable(me.dims[d].cells, p, x)
  {
  }

  // ----- the completed loop, at work on the run -----

  // Facts of the story that the loop's steps rest on.
  lemma LinkBothWays(setup: Setup, p: string, n: string)
    requires Sound(setup.parts) && IsPart(setup.parts, n)
    ensures n in Next(setup.parts, p) <==> p in Prev(setup.parts, n)
  {
  }

  lemma LinksDistinct(setup: Setup, p: string)
    requires Sound(setup.parts)
    ensures Distinct(Next(setup.parts, p)) && Distinct(Prev(setup.parts, p))
    ensures forall n :: n in Next(setup.parts, p) ==> IsPart(setup.parts, n)
  {
  }

  // What the loop has at hand: a completion of the run that it has just taken, and not read before.
  lemma CheckedIsNew(setup: Setup, b: Ledger, me: Replica, d: string, x: Run)
    requires BusOk(setup, b) && ReplicaOk(setup, b, me) && InPlace(b, me) && me.loop.Checked? && me.loop.c.run == x
    requires d in me.dims && me.dims[d].run == x && x != NIL_RUN && LoopTracked(setup, b, me, x)
    ensures me.loop.c.dim == d && IsPart(setup.parts, me.loop.c.part)
    ensures !Read(b, me, me.loop.c.part, x)
  {
    hide BusOk;
    hide ReplicaOk;
    hide InPlace;
    CompletionAt(setup, b, me, me.cursor - 1, d, x);
    assert x in b.runs by { ClaimedIsStarted(setup, b, me, x); }
    forall j | 0 <= j < me.cursor && j < |b.completed| ensures !ReadAt(b, me, me.loop.c.part, x, j) {
      if ReadAt(b, me, me.loop.c.part, x, j) {
        TwiceIsOnce(setup, b, me.cursor - 1, j);
      }
    }
  }

  lemma TwiceIsOnce(setup: Setup, b: Ledger, i: nat, j: nat)
    requires BusOk(setup, b) && i < |b.completed| && j < |b.completed|
    requires b.completed[i].part == b.completed[j].part
    requires b.completed[i].run == b.completed[j].run && b.completed[i].run in b.runs
    ensures i == j
  {
    hide RightPayload;
    hide Typed;
    var k, l := b.completed[i].src, b.completed[j].src;
    assert b.created[k].part == b.created[l].part && b.created[k].run == b.created[l].run;
  }

  // What is read after the record: one part more.
  lemma RecordReads(b: Ledger, me: Replica, me': Replica, x: Run)
    requires me.loop.Checked? && me.loop.c.run == x && 0 < me.cursor <= |b.completed|
    requires me.loop.c == b.completed[me.cursor - 1] && me'.cursor == me.cursor && !me'.loop.Checked?
    ensures forall p :: Read(b, me', p, x) <==> Read(b, me, p, x) || p == me.loop.c.part
  {
    forall p ensures Read(b, me', p, x) <==> Read(b, me, p, x) || p == me.loop.c.part {
      if Read(b, me, p, x) {
        var j :| 0 <= j < me.cursor && j < |b.completed| && ReadAt(b, me, p, x, j);
        assert ReadAt(b, me', p, x, j);
      }
      if Read(b, me', p, x) {
        var j :| 0 <= j < me.cursor && j < |b.completed| && ReadAt(b, me', p, x, j);
        assert ReadAt(b, me, p, x, j) || p == me.loop.c.part;
      }
      if p == me.loop.c.part {
        assert ReadAt(b, me', p, x, me.cursor - 1);
      }
    }
  }

  lemma RecordUses(setup: Setup, b: Ledger, me: Replica, d: string, x: Run)
    requires me.loop.Checked? && me.loop.c.dim == d && me.loop.c.run == x && d in me.dims
    requires IsPart(setup.parts, me.loop.c.part)
    ensures Act(setup, b, me, Record).0 == b
    ensures var me' := Act(setup, b, me, Record).1;
      && d in me'.dims
      && me'.loop == Joining(d, x, Next(setup.parts, me.loop.c.part)) && me'.cursor == me.cursor
      && me'.starters == me.starters
      && forall p :: Usable(me'.dims[d].cells, p, x) <==> Usable(me.dims[d].cells, p, x) || p == me.loop.c.part
  {
  }

  lemma OwnRecord(setup: Setup, b: Ledger, me: Replica, d: string, x: Run)
    requires Sound(setup.parts) && BusOk(setup, b) && ReplicaOk(setup, b, me) && InPlace(b, me)
    requires Enabled(setup, b, me, Record) && me.loop.c.run == x
    requires d in me.dims && me.dims[d].run == x && x != NIL_RUN && Tracked(setup, b, me, d, x)
    ensures Act(setup, b, me, Record).0 == b
    ensures var me' := Act(setup, b, me, Record).1;
      && d in me'.dims && NoHarm(setup, b, me, d, me'.dims[d].cells, x) && Tracked(setup, b, me', d, x)
      && (Advancing(setup, b, me', d, x) <==> Advancing(setup, b, me, d, x))
  {
    hide Sound;
    hide BusOk;
    hide ReplicaOk;
    hide InPlace;
    hide Act;
    hide NoneDropped;
    hide Usable;
    hide CreatedIn;
    hide Read;
    var p0, me' := me.loop.c.part, Act(setup, b, me, Record).1;
    CheckedIsNew(setup, b, me, d, x);
    RecordUses(setup, b, me, d, x);
    RecordReads(b, me, me', x);
    LinksDistinct(setup, p0);
    forall n | IsPart(setup.parts, n)
      ensures n in Next(setup.parts, p0) <==> p0 in Prev(setup.parts, n)
      ensures AllRead(setup, b, me, n, x) ==> n !in Next(setup.parts, p0)
      ensures AllRead(setup, b, me', n, x) ==> AllRead(setup, b, me, n, x) || n in Next(setup.parts, p0)
    {
      LinkBothWays(setup, p0, n);
    }
    assert forall n :: AllRead(setup, b, me, n, x) ==> AllRead(setup, b, me', n, x);
    hide AllRead;
    forall p ensures Needed(setup, b, me', p, x) == Needed(setup, b, me, p, x) {
      assert forall n :: NeededFor(setup, b, me', n, p, x) == NeededFor(setup, b, me, n, p, x);
    }
    hide Needed;
  }

  // ----- reading one predecessor -----

  lemma LoopHome(setup: Setup, b: Ledger, me: Replica, d: string, x: Run)
    requires ReplicaOk(setup, b, me) && InPlace(b, me) && me.loop.Reading? && me.loop.run == x
    requires d in me.dims && me.dims[d].run == x && x != NIL_RUN
    ensures me.loop.dim == d && IsPart(setup.parts, me.loop.n) && me.loop.n != START
    ensures Prev(setup.parts, me.loop.n) != []
  {
    hide InPlace;
    EventHome(b, me, d, me.loop.dim, x);
    assert me.loop.n in [me.loop.n];
  }

  lemma OwnLook(setup: Setup, b: Ledger, me: Replica, d: string, x: Run)
    requires Sound(setup.parts) && ReplicaOk(setup, b, me) && InPlace(b, me)
    requires Enabled(setup, b, me, Look) && me.loop.run == x
    requires d in me.dims && me.dims[d].run == x && x != NIL_RUN && Tracked(setup, b, me, d, x)
    ensures Act(setup, b, me, Look).0 == b
    ensures var me' := Act(setup, b, me, Look).1;
      Tracked(setup, b, me', d, x) && (Advancing(setup, b, me', d, x) <==> Advancing(setup, b, me, d, x))
  {
    LoopHome(setup, b, me, d, x);
    var l, me' := me.loop, Act(setup, b, me, Look).1;
    SameReads(b, me, me', x);
    if Usable(me.dims[d].cells, Prev(setup.parts, l.n)[|l.td|], x) {
      LookFinds(setup, b, me, me', d, x);
    } else {
      LookMisses(setup, b, me, me', d, x);
    }
  }

  lemma LookFinds(setup: Setup, b: Ledger, me: Replica, me': Replica, d: string, x: Run)
    requires Sound(setup.parts) && me.loop.Reading? && me.loop.run == x && d in me.dims && Tracked(setup, b, me, d, x)
    requires |me.loop.td| < |Prev(setup.parts, me.loop.n)| && IsPart(setup.parts, me.loop.n)
    requires Usable(me.dims[d].cells, Prev(setup.parts, me.loop.n)[|me.loop.td|], x)
    requires exists v :: me' == me.(loop := me.loop.(td := me.loop.td + [v]))
    requires SameReadFor(b, me, b, me', x)
    ensures Tracked(setup, b, me', d, x) && (Advancing(setup, b, me', d, x) <==> Advancing(setup, b, me, d, x))
  {
    hide Sound;
    hide NoneDropped;
    hide Usable;
    hide CreatedIn;
    hide Read;
    var n, prev, k := me.loop.n, Prev(setup.parts, me.loop.n), |me.loop.td|;
    var p0 := prev[k];
    SameAllRead(setup, b, me, b, me', x);
    assert prev[..k + 1] == prev[..k] + [p0];
    assert ReadUpTo(setup, b, me', n, k + 1, x);
    hide AllRead;
    assert OwnCells(b, me', d, x) by { OwnCellsSame(b, me, b, me', d, x); }
    assert forall p, m :: NeededFor(setup, b, me', m, p, x) ==> NeededFor(setup, b, me, m, p, x);
    assert forall p, m :: p != p0 && NeededFor(setup, b, me, m, p, x) ==> NeededFor(setup, b, me', m, p, x);
    forall p | p != p0 ensures Needed(setup, b, me', p, x) == Needed(setup, b, me, p, x) {
      hide NeededFor;
    }
    hide Needed;
  }

  lemma LookMisses(setup: Setup, b: Ledger, me: Replica, me': Replica, d: string, x: Run)
    requires Sound(setup.parts) && me.loop.Reading? && me.loop.run == x && d in me.dims && Tracked(setup, b, me, d, x)
    requires |me.loop.td| < |Prev(setup.parts, me.loop.n)| && IsPart(setup.parts, me.loop.n)
    requires !Usable(me.dims[d].cells, Prev(setup.parts, me.loop.n)[|me.loop.td|], x)
    requires me' == me.(loop := Joining(me.loop.dim, x, me.loop.rest)) && SameReadFor(b, me, b, me', x)
    ensures Tracked(setup, b, me', d, x) && (Advancing(setup, b, me', d, x) <==> Advancing(setup, b, me, d, x))
  {
    hide Sound;
    hide NoneDropped;
    hide Usable;
    hide CreatedIn;
    hide Read;
    var n, prev, k := me.loop.n, Prev(setup.parts, me.loop.n), |me.loop.td|;
    var p0 := prev[k];
    LinkBothWays(setup, p0, n);
    LinksDistinct(setup, n);
    assert p0 !in prev[..k];
    LetGo(setup, b, me, me', d, x);
    if AllRead(setup, b, me, n, x) && !CreatedIn(b, n, x) {
      assert NeededFor(setup, b, me, n, p0, x);
      assert Read(b, me, p0, x);
    } else {
      LetGoHarmless(setup, b, me, me', d, x);
    }
  }

  // The loop gives up the part it was trying: what it tracks, and what stays lost.
  lemma LetGo(setup: Setup, b: Ledger, me: Replica, me': Replica, d: string, x: Run)
    requires me.loop.Reading? && me.loop.run == x && d in me.dims && Tracked(setup, b, me, d, x)
    requires me' == me.(loop := Joining(me.loop.dim, x, me.loop.rest)) && SameReadFor(b, me, b, me', x)
    ensures Tracked(setup, b, me', d, x) && !OnTheWay(me'.loop, me.loop.n, x)
    ensures Advancing(setup, b, me', d, x) ==> Advancing(setup, b, me, d, x)
  {
    hide NoneDropped;
    hide Usable;
    hide CreatedIn;
    hide Read;
    SameAllRead(setup, b, me, b, me', x);
    hide AllRead;
    assert OwnCells(b, me', d, x) by { OwnCellsSame(b, me, b, me', d, x); }
    TailDistinct(me.loop.n, me.loop.rest);
    forall p, m | NeededFor(setup, b, me, m, p, x) ensures NeededFor(setup, b, me', m, p, x) {}
    forall p | Needed(setup, b, me, p, x) ensures Needed(setup, b, me', p, x) {
      hide NeededFor;
    }
    hide Needed;
  }

  lemma TailDistinct(n: string, rest: seq<string>)
    requires Distinct([n] + rest)
    ensures Distinct(rest) && n !in rest
  {
    var s := [n] + rest;
    assert forall i :: 0 <= i < |rest| ==> rest[i] == s[i + 1];
    assert s[0] == n;
  }

  // If it is created, or not all of its predecessors are read, giving it up loses nothing.
  lemma LetGoHarmless(setup: Setup, b: Ledger, me: Replica, me': Replica, d: string, x: Run)
    requires me.loop.Reading? && me.loop.run == x && d in me.dims
    requires CreatedIn(b, me.loop.n, x) || !AllRead(setup, b, me, me.loop.n, x)
    requires me' == me.(loop := Joining(me.loop.dim, x, me.loop.rest)) && SameReadFor(b, me, b, me', x)
    ensures Advancing(setup, b, me, d, x) ==> Advancing(setup, b, me', d, x)
  {
    hide NoneDropped;
    hide Usable;
    hide CreatedIn;
    hide Read;
    SameAllRead(setup, b, me, b, me', x);
    hide AllRead;
    forall p, m | NeededFor(setup, b, me', m, p, x) ensures NeededFor(setup, b, me, m, p, x) {}
    forall p | Needed(setup, b, me', p, x) ensures Needed(setup, b, me, p, x) {
      hide NeededFor;
    }
    hide Needed;
  }

  // ----- requesting and writing one part -----

  lemma Uncreated(setup: Setup, b: Ledger, n: string, x: Run)
    requires BusOk(setup, b) && ConsId(n, x) !in b.granted && n != START
    ensures !CreatedIn(b, n, x)
  {
    hide RightPayload;
    hide ConsId;
  }

  lemma AllLooked(setup: Setup, b: Ledger, me: Replica, x: Run)
    requires me.loop.Reading? && me.loop.run == x && |me.loop.td| == |Prev(setup.parts, me.loop.n)|
    requires Prev(setup.parts, me.loop.n) != [] && LoopTracked(setup, b, me, x)
    ensures AllRead(setup, b, me, me.loop.n, x)
    ensures forall p :: p in Prev(setup.parts, me.loop.n) ==> Looked(setup, me.loop, me.loop.n, p, x)
  {
    hide Read;
    assert Prev(setup.parts, me.loop.n)[..|me.loop.td|] == Prev(setup.parts, me.loop.n);
  }

  lemma OwnAsk(setup: Setup, b: Ledger, me: Replica, want: bool, d: string, x: Run)
    requires Sound(setup.parts) && BusOk(setup, b) && ReplicaOk(setup, b, me) && InPlace(b, me)
    requires Enabled(setup, b, me, Ask(want)) && me.loop.run == x
    requires d in me.dims && me.dims[d].run == x && x != NIL_RUN && Tracked(setup, b, me, d, x)
    ensures var (b', me') := Act(setup, b, me, Ask(want));
      && me'.dims == me.dims && Tracked(setup, b', me', d, x)
      && (Advancing(setup, b', me', d, x) <==>
            Advancing(setup, b, me, d, x) && (want || ConsId(me.loop.n, x) in b.granted))
  {
    hide Sound;
    hide BusOk;
    hide ReplicaOk;
    hide InPlace;
    hide LoopTracked;
    hide OwnCells;
    hide GrantsTracked;
    hide Advancing;
    hide ConsId;
    hide AllRead;
    hide Looked;
    hide CreatedIn;
    var (b', me') := Act(setup, b, me, Ask(want));
    var n := me.loop.n;
    LoopHome(setup, b, me, d, x);
    AllLooked(setup, b, me, x);
    SameReads(b, me, me', x);
    if want {
      Granted(setup, b, me, b', me', d, x);
    } else {
      LetGo(setup, b, me, me', d, x);
      if ConsId(n, x) in b.granted {
        assert CreatedIn(b, n, x) by { GrantedIsCreated(setup, b, me, x); }
        LetGoHarmless(setup, b, me, me', d, x);
      } else {
        Uncreated(setup, b, n, x);
        GivenUp(setup, b, me, me', n, d, x);
      }
    }
  }

  lemma GrantedIsCreated(setup: Setup, b: Ledger, me: Replica, x: Run)
    requires GrantsTracked(setup, b, me, x) && me.loop.Reading? && me.loop.run == x
    requires ConsId(me.loop.n, x) in b.granted
    ensures CreatedIn(b, me.loop.n, x)
  {
    hide CreatedIn;
    hide AllRead;
    hide ConsId;
  }

  // A part that has all its predecessors read, is not created and not on the way is missed.
  lemma GivenUp(setup: Setup, b: Ledger, me: Replica, me': Replica, n: string, d: string, x: Run)
    requires d in me'.dims && IsPart(setup.parts, n) && !CreatedIn(b, n, x) && !OnTheWay(me'.loop, n, x)
    requires AllRead(setup, b, me, n, x) && SameReadFor(b, me, b, me', x)
    ensures !Advancing(setup, b, me', d, x)
  {
    hide Read;
    hide CreatedIn;
    SameAllRead(setup, b, me, b, me', x);
  }

  lemma Granted(setup: Setup, b: Ledger, me: Replica, b': Ledger, me': Replica, d: string, x: Run)
    requires Sound(setup.parts) && me.loop.Reading? && me.loop.run == x && d in me.dims && Tracked(setup, b, me, d, x)
    requires IsPart(setup.parts, me.loop.n) && AllRead(setup, b, me, me.loop.n, x)
    requires forall p :: p in Prev(setup.parts, me.loop.n) ==> Looked(setup, me.loop, me.loop.n, p, x)
    requires b' == Grant(b, ConsId(me.loop.n, x))
    requires me' == me.(loop := Writing(Event(me.loop.dim, me.loop.n, x, me.loop.td), me.loop.rest))
    requires SameReadFor(b, me, b, me', x)
    ensures Tracked(setup, b', me', d, x)
    ensures Advancing(setup, b', me', d, x) <==> Advancing(setup, b, me, d, x)
  {
    hide Sound;
    hide NoneDropped;
    hide Usable;
    hide CreatedIn;
    hide Read;
    hide ConsId;
    var n := me.loop.n;
    SameDropped(b, b', x);
    assert SameReadFor(b, me, b', me', x) by { GrantReads(b, me', b', x); }
    forall m ensures CreatedIn(b', m, x) == CreatedIn(b, m, x) { SameCreated(b, b', m, x); }
    forall m | ConsId(m, x) == ConsId(n, x) ensures m == n { ConsIdInjective(m, x, n, x); }
    SameAllRead(setup, b, me, b', me', x);
    hide AllRead;
    assert OwnCells(b', me', d, x) by { OwnCellsSame(b, me, b', me', d, x); }
    forall p, m ensures NeededFor(setup, b', me', m, p, x) == NeededFor(setup, b, me, m, p, x) {
      if m == n { LinkBothWays(setup, p, n); }
    }
    forall p ensures Needed(setup, b', me', p, x) == Needed(setup, b, me, p, x) {
      hide NeededFor;
    }
    hide Needed;
    hide OwnCells;
  }

  lemma GrantReads(b: Ledger, me: Replica, b': Ledger, x: Run)
    requires b'.completed == b.completed
    ensures SameReadFor(b, me, b', me, x)
  {
    forall p ensures Read(b', me, p, x) == Read(b, me, p, x) {
      assert forall j :: 0 <= j < |b.completed| ==> ReadAt(b', me, p, x, j) == ReadAt(b, me, p, x, j);
    }
  }

  lemma OwnSend(setup: Setup, b: Ledger, me: Replica, ok: bool, d: string, x: Run)
    requires Sound(setup.parts) && BusOk(setup, b) && ReplicaOk(setup, b, me)
    requires Enabled(setup, b, me, Send(ok)) && me.loop.event.run == x
    requires d in me.dims && me.dims[d].run == x && x != NIL_RUN && Tracked(setup, b, me, d, x)
    ensures var (b', me') := Act(setup, b, me, Send(ok));
      && me'.dims == me.dims && Tracked(setup, b', me', d, x)
      && (Advancing(setup, b', me', d, x) <==> Advancing(setup, b, me, d, x) && ok)
  {
    hide Sound;
    hide BusOk;
    hide ReplicaOk;
    hide OwnCells;
    hide GrantsTracked;
    hide Advancing;
    hide AllRead;
    hide Looked;
    hide CreatedIn;
    hide Publish;
    var (b', me') := Act(setup, b, me, Send(ok));
    WritingFacts(setup, b, me);
    SameReads(b, me, me', x);
    TailDistinct(me.loop.event.part, me.loop.rest);
    if ok {
      Written(setup, b, me, b', me', d, x);
    } else {
      Refused(setup, b, me, me', d, x);
    }
  }

  lemma WritingFacts(setup: Setup, b: Ledger, me: Replica)
    requires ReplicaOk(setup, b, me) && me.loop.Writing?
    ensures var e := me.loop.event; IsPart(setup.parts, e.part) && e.part != START && !CreatedIn(b, e.part, e.run)
  {
    hide CreatedIn;
    assert me.loop.event.part in [me.loop.event.part];
  }

  lemma Written(setup: Setup, b: Ledger, me: Replica, b': Ledger, me': Replica, d: string, x: Run)
    requires me.loop.Writing? && me.loop.event.run == x && d in me.dims && Tracked(setup, b, me, d, x)
    requires me.loop.event.part != START
    requires b' == Publish(b, me.loop.event) && SameReadFor(b, me, b, me', x)
    requires me' == me.(loop := Joining(me.loop.event.dim, x, me.loop.rest)) && Distinct(me.loop.rest)
    ensures Tracked(setup, b', me', d, x)
    ensures Advancing(setup, b', me', d, x) <==> Advancing(setup, b, me, d, x)
  {
    hide NoneDropped;
    hide Usable;
    hide CreatedIn;
    hide Read;
    hide ConsId;
    hide Launched;
    var e, n := me.loop.event, me.loop.event.part;
    PublishDropsNone(b, e, x);
    assert SameReadFor(b, me, b', me', x) by { GrantReads(b, me', b', x); }
    assert forall m :: ConsId(m, x) in b'.granted <==> ConsId(m, x) in b.granted;
    forall m ensures CreatedIn(b', m, x) <==> CreatedIn(b, m, x) || m == n { CreatedGrows(b, e, m, x); }
    SameAllRead(setup, b, me, b', me', x);
    hide Publish;
    hide AllRead;
    assert OwnCells(b', me', d, x) by { OwnCellsSame(b, me, b', me', d, x); }
    forall p, m ensures NeededFor(setup, b', me', m, p, x) == NeededFor(setup, b, me, m, p, x) {}
    forall p ensures Needed(setup, b', me', p, x) == Needed(setup, b, me, p, x) {
      hide NeededFor;
    }
    hide Needed;
    hide OwnCells;
    assert Launched(b', me', x) <==> Launched(b, me, x) by { WrittenLaunch(b, me, b', me', x); }
  }

  lemma WrittenLaunch(b: Ledger, me: Replica, b': Ledger, me': Replica, x: Run)
    requires me'.starters == me.starters && (CreatedIn(b', START, x) <==> CreatedIn(b, START, x))
    ensures Launched(b', me', x) <==> Launched(b, me, x)
  {
  }

  lemma Refused(setup: Setup, b: Ledger, me: Replica, me': Replica, d: string, x: Run)
    requires me.loop.Writing? && me.loop.event.run == x && d in me.dims && Tracked(setup, b, me, d, x)
    requires IsPart(setup.parts, me.loop.event.part) && !CreatedIn(b, me.loop.event.part, x)
    requires me' == me.(loop := Joining(me.loop.event.dim, x, me.loop.rest)) && SameReadFor(b, me, b, me', x)
    requires Distinct(me.loop.rest) && me.loop.event.part !in me.loop.rest
    ensures Tracked(setup, b, me', d, x) && !Advancing(setup, b, me', d, x)
  {
    hide Usable;
    hide CreatedIn;
    hide Read;
    hide ConsId;
    hide NoneDropped;
    hide Needed;
    SameAllRead(setup, b, me, b, me', x);
    hide AllRead;
    assert OwnCells(b, me', d, x) by { OwnCellsSame(b, me, b, me', d, x); }
    hide OwnCells;
    assert !NoneMissed(setup, b, me', x);
  }

  // ----- every step -----

  // The action makes a cell of the run unusable that is still needed.
  ghost predicate Harms(setup: Setup, b: Ledger, me: Replica, me': Replica, x: Run) {
    exists d :: d in me.dims && d in me'.dims && me.dims[d].run == x && !NoHarm(setup, b, me, d, me'.dims[d].cells, x)
  }

  // The replica that holds the run loses it by this action: it does not get to write the start
  // event, gives up a request although nobody was granted it, fails to write what was granted, or
  // overwrites an output that is still needed.
  ghost predicate GivesUp(setup: Setup, b: Ledger, me: Replica, act: Action, x: Run)
    requires Enabled(setup, b, me, act)
  {
    || act == Launch(x, false)
    || (act == Ask(false) && me.loop.run == x && ConsId(me.loop.n, x) !in b.granted)
    || (act == Send(false) && me.loop.event.run == x)
    || Harms(setup, b, me, Act(setup, b, me, act).1, x)
  }

  lemma HarmsHere(setup: Setup, b: Ledger, me: Replica, me': Replica, d: string, x: Run)
    requires RunsOk(b, me) && d in me.dims && d in me'.dims && me.dims[d].run == x && x != NIL_RUN
    ensures Harms(setup, b, me, me', x) <==> !NoHarm(setup, b, me, d, me'.dims[d].cells, x)
  {
    hide NoHarm;
  }

  lemma NoHarmInSame(setup: Setup, b: Ledger, me: Replica, d: string, x: Run)
    requires d in me.dims
    ensures NoHarm(setup, b, me, d, me.dims[d].cells, x)
  {
  }

  lemma OwnAct(setup: Setup, b: Ledger, me: Replica, act: Action, d: string, x: Run)
    requires Sound(setup.parts) && BusOk(setup, b) && ReplicaOk(setup, b, me) && InPlace(b, me)
    requires Enabled(setup, b, me, act) && Replaced(setup, b, me, act) != x
    requires d in me.dims && me.dims[d].run == x && x != NIL_RUN && Tracked(setup, b, me, d, x)
    ensures var (b', me') := Act(setup, b, me, act);
      && d in me'.dims && Tracked(setup, b', me', d, x)
      && (Advancing(setup, b', me', d, x) <==> Advancing(setup, b, me, d, x) && !GivesUp(setup, b, me, act, x))
  {
    hide Sound;
    hide BusOk;
    hide ReplicaOk;
    hide InPlace;
    hide Tracked;
    hide Advancing;
    hide NoHarm;
    hide Harms;
    hide ActNew;
    hide ActRead;
    hide ActLoop;
    hide ConsId;
    var me' := Act(setup, b, me, act).1;
    assert RunsOk(b, me) by { RunsAndStarters(setup, b, me); }
    NoHarmInSame(setup, b, me, d, x);
    assert d in me'.dims && (me'.dims == me.dims ==> !Harms(setup, b, me, me', x)) by {
      DimStays(setup, b, me, act, d);
      HarmsHere(setup, b, me, me', d, x);
    }
    if !LoopAct(act) {
      if act.Launch? && act.run == x {
        LaunchKeepsDims(setup, b, me, x, act.ok);
        OwnLaunch(setup, b, me, act.ok, d, x);
      } else {
        OwnThread(setup, b, me, act, d, x);
        HarmsHere(setup, b, me, me', d, x);
      }
    } else {
      OwnLoopAct(setup, b, me, act, d, x);
    }
  }

  lemma DimStays(setup: Setup, b: Ledger, me: Replica, act: Action, d: string)
    requires Enabled(setup, b, me, act) && d in me.dims
    ensures d in Act(setup, b, me, act).1.dims
  {
    if !act.Swap? { RunsStay(setup, b, me, act); }
  }

  lemma LaunchKeepsDims(setup: Setup, b: Ledger, me: Replica, run: Run, ok: bool)
    requires Enabled(setup, b, me, Launch(run, ok))
    ensures Act(setup, b, me, Launch(run, ok)).1.dims == me.dims
  {
  }

  lemma LoopKeepsDims(setup: Setup, b: Ledger, me: Replica, act: Action)
    requires Enabled(setup, b, me, act) && LoopAct(act) && !act.Record?
    ensures Act(setup, b, me, act).1.dims == me.dims
  {
  }

  lemma OwnLoopAct(setup: Setup, b: Ledger, me: Replica, act: Action, d: string, x: Run)
    requires Sound(setup.parts) && BusOk(setup, b) && ReplicaOk(setup, b, me) && InPlace(b, me)
    requires Enabled(setup, b, me, act) && LoopAct(act)
    requires d in me.dims && me.dims[d].run == x && x != NIL_RUN && Tracked(setup, b, me, d, x)
    ensures var (b', me') := Act(setup, b, me, act);
      && d in me'.dims && Tracked(setup, b', me', d, x)
      && (Advancing(setup, b', me', d, x) <==> Advancing(setup, b, me, d, x) && !GivesUp(setup, b, me, act, x))
  {
    hide Sound;
    hide BusOk;
    hide ReplicaOk;
    hide InPlace;
    hide Tracked;
    hide Advancing;
    hide NoHarm;
    hide Harms;
    hide Act;
    hide ConsId;
    hide RunsOk;
    hide Usable;
    hide Replaced;
    hide SetCell;
    var me' := Act(setup, b, me, act).1;
    assert RunsOk(b, me) by { RunsAndStarters(setup, b, me); }
    NoHarmInSame(setup, b, me, d, x);
    DimStays(setup, b, me, act, d);
    HarmsHere(setup, b, me, me', d, x);
    if !act.Record? { LoopKeepsDims(setup, b, me, act); }
    match act {
      case Take => TakeStep(setup, b, me, d, x);
      case Follow => FollowStep(setup, b, me, d, x);
      case Record =>
        if me.loop.c.run == x {
          OwnRecord(setup, b, me, d, x);
        } else {
          LoopElsewhere(setup, b, me, act, d, x);
        }
      case Look =>
        if me.loop.run == x {
          OwnLook(setup, b, me, d, x);
        } else {
          LoopElsewhere(setup, b, me, act, d, x);
        }
      case Ask(want) =>
        if me.loop.run == x {
          OwnAsk(setup, b, me, want, d, x);
        } else {
          LoopElsewhere(setup, b, me, act, d, x);
        }
      case Send(ok) =>
        if me.loop.event.run == x {
          OwnSend(setup, b, me, ok, d, x);
        } else {
          LoopElsewhere(setup, b, me, act, d, x);
        }
    }
  }

  // The step costs the run something that it cannot make up for: the replica that holds it gives
  // up, or another replica takes one of its events and acknowledges it empty.
  ghost predicate Loses(setup: Setup, s: System, step: Step, q: nat, x: Run)
    requires CanStep(setup, s, step)
  {
    && step.Step?
    && if step.rep == q then GivesUp(setup, s.bus, s.replicas[q], step.act, x)
       else step.act.Check? && s.bus.created[step.act.event].run == x
  }

  ghost predicate HeldIn(s: System, q: nat, d: string, x: Run) {
    q in s.replicas && d in s.replicas[q].dims && s.replicas[q].dims[d].run == x
  }

  // While the run is held, it goes on as long as no step loses anything, and never again after one
  // that does.
  lemma StepGoesOn(setup: Setup, s: System, step: Step, q: nat, d: string, x: Run)
    requires Sound(setup.parts) && Fenced(setup, s) && CanStep(setup, s, step) && !Ends(setup, s, step, q, x)
    requires HeldIn(s, q, d, x) && x != NIL_RUN && Tracked(setup, s.bus, s.replicas[q], d, x)
    ensures var s' := Apply(setup, s, step);
      && HeldIn(s', q, d, x) && Tracked(setup, s'.bus, s'.replicas[q], d, x)
      && (Advancing(setup, s'.bus, s'.replicas[q], d, x) <==>
            Advancing(setup, s.bus, s.replicas[q], d, x) && !Loses(setup, s, step, q, x))
  {
    hide Sound;
    hide BusOk;
    hide ReplicaOk;
    hide InPlace;
    hide Tracked;
    hide Advancing;
    hide GivesUp;
    hide Act;
    hide Enabled;
    hide Claims;
    hide GrantsLive;
    hide Replaced;
    var b, me := s.bus, s.replicas[q];
    assert ReplicaOk(setup, b, me);
    if step.Step? {
      assert ReplicaOk(setup, b, s.replicas[step.rep]);
      if step.rep == q {
        OwnAct(setup, b, me, step.act, d, x);
        RunStaysIn(setup, b, me, step.act, d, x);
      } else {
        var other := s.replicas[step.rep];
        assert Claims(me, x) by { ClaimsHeld(me, d, x); }
        assert !Claims(other, x);
        OthersAct(setup, b, other, step.act, me, d, x);
        TakesExactly(setup, b, other, step.act, x);
      }
    }
  }

  lemma ClaimsHeld(me: Replica, d: string, x: Run)
    requires d in me.dims && me.dims[d].run == x
    ensures Claims(me, x)
  {
  }

  lemma TakesExactly(setup: Setup, b: Ledger, other: Replica, act: Action, x: Run)
    requires Enabled(setup, b, other, act) && !Claims(other, x)
    ensures Takes(b, other, act, x) <==> act.Check? && b.created[act.event].run == x
  {
  }

  lemma RunStaysIn(setup: Setup, b: Ledger, me: Replica, act: Action, d: string, x: Run)
    requires ReplicaOk(setup, b, me) && Enabled(setup, b, me, act) && Replaced(setup, b, me, act) != x
    requires d in me.dims && me.dims[d].run == x && x != NIL_RUN
    ensures d in Act(setup, b, me, act).1.dims && Act(setup, b, me, act).1.dims[d].run == x
  {
    hide ReplicaOk;
    hide PartIdList;
    if !act.Swap? { RunsStay(setup, b, me, act); }
  }

  // ----- where a run begins -----

  lemma NothingOfOpened(setup: Setup, b: Ledger, me: Replica, x: Run)
    requires BusOk(setup, b) && ReplicaOk(setup, b, me) && x in me.starters && GrantsLive(b)
    ensures forall n :: !CreatedIn(b, n, x) && ConsId(n, x) !in b.granted
    ensures forall j :: 0 <= j < |b.completed| ==> b.completed[j].run != x
    ensures forall d, p :: d in me.dims ==> !Usable(me.dims[d].cells, p, x)
    ensures !Busy(me.loop, x)
    ensures NoneDropped(b, x)
  {
    hide BusOk;
    hide ConsId;
    hide GrantsLive;
    OpenedUnlisted(setup, b, me, x);
    NoCompletions(setup, b, me, x);
    NoLoop(setup, b, me, x);
    NoGrants(b, x);
    forall d, p | d in me.dims && p in me.dims[d].cells ensures !Usable(me.dims[d].cells, p, x) {
      assert CellOk(b, p, me.dims[d].cells[p]);
    }
  }

  lemma OpenedUnlisted(setup: Setup, b: Ledger, me: Replica, x: Run)
    requires ReplicaOk(setup, b, me) && x in me.starters
    ensures x in b.runs && forall k :: 0 <= k < |b.created| ==> b.created[k].run != x
  {
    hide CellsOk;
    hide LoopOk;
  }

  lemma NoCompletions(setup: Setup, b: Ledger, me: Replica, x: Run)
    requires BusOk(setup, b) && x in b.runs && forall k :: 0 <= k < |b.created| ==> b.created[k].run != x
    ensures forall j :: 0 <= j < |b.completed| ==> b.completed[j].run != x
  {
    hide RightPayload;
    hide Typed;
  }

  lemma NoLoop(setup: Setup, b: Ledger, me: Replica, x: Run)
    requires BusOk(setup, b) && ReplicaOk(setup, b, me) && x in b.runs
    requires forall k :: 0 <= k < |b.created| ==> b.created[k].run != x
    ensures !Busy(me.loop, x)
  {
    hide CellsOk;
    hide StartersOk;
    hide WorkersOk;
    hide RunsOk;
    hide BusOk;
    hide OutputOf;
    hide PartialPayload;
    hide RightPayload;
    hide Targets;
  }

  lemma NoGrants(b: Ledger, x: Run)
    requires GrantsLive(b) && forall k :: 0 <= k < |b.created| ==> b.created[k].run != x
    ensures forall n :: ConsId(n, x) !in b.granted
  {
    hide ConsId;
  }

  lemma SwapBegins(setup: Setup, s: System, q: nat, x: Run) returns (d: string)
    requires Fenced(setup, s) && CanStep(setup, s, Step(q, Swap(x))) && x != NIL_RUN
    ensures var s' := Apply(setup, s, Step(q, Swap(x)));
      && HeldIn(s', q, d, x) && Tracked(setup, s'.bus, s'.replicas[q], d, x)
      && Advancing(setup, s'.bus, s'.replicas[q], d, x)
  {
    hide ReplicaOk;
    hide BusOk;
    hide InPlace;
    hide GrantsLive;
    hide ConsId;
    hide CreatedIn;
    hide Usable;
    hide Busy;
    hide NoneDropped;
    hide PartIdList;
    var b, me := s.bus, s.replicas[q];
    var me' := Apply(setup, s, Step(q, Swap(x))).replicas[q];
    d := me.starters[x].dim;
    NothingOfOpened(setup, b, me, x);
    assert forall p :: !Read(b, me', p, x);
    hide Read;
    IdleTracked(setup, b, me', x);
    forall n ensures !AllRead(setup, b, me', n, x) {
      if Prev(setup.parts, n) != [] { assert Prev(setup.parts, n)[0] in Prev(setup.parts, n); }
    }
  }

  // ----- whole behaviors -----

  // Where the run is held, and that it goes on exactly if nothing was lost since it was installed.
  lemma {:induction false} GoesOnExactly(setup: Setup, states: seq<System>, steps: seq<Step>, q: nat, x: Run, i: nat,
                                         j: nat)
    returns (d: string)
    requires Sound(setup.parts) && Behavior(setup, states, steps) && states[0] == INIT && j <= |steps|
    requires HeldSince(setup, states, steps, q, x, i, j) && x != NIL_RUN
    ensures HeldIn(states[j], q, d, x) && Tracked(setup, states[j].bus, states[j].replicas[q], d, x)
    ensures Advancing(setup, states[j].bus, states[j].replicas[q], d, x) <==>
            forall m :: i < m < j ==> !Loses(setup, states[m], steps[m], q, x)
    decreases j
  {
    hide Sound;
    hide Fenced;
    hide CanStep;
    hide Apply;
    hide Tracked;
    hide Advancing;
    hide Loses;
    hide Ends;
    BehaviorIsFenced(setup, states, steps, j - 1);
    assert CanStep(setup, states[j - 1], steps[j - 1]);
    if i == j - 1 {
      d := SwapBegins(setup, states[i], q, x);
    } else {
      assert HeldSince(setup, states, steps, q, x, i, j - 1);
      d := GoesOnExactly(setup, states, steps, q, x, i, j - 1);
      StepGoesOn(setup, states[j - 1], steps[j - 1], q, d, x);
    }
  }

  // ----- what it comes to -----

  // Nothing of the run is pending, unread or under way.
  predicate Settled(s: System, q: nat, x: Run) {
    && q in s.replicas
    && (forall k :: k in s.bus.pending && k < |s.bus.created| ==> s.bus.created[k].run != x)
    && s.replicas[q].cursor == |s.bus.completed|
    && AtRest(s.replicas[q].loop)
    && x !in s.replicas[q].starters
  }

  // Nothing is pending, unread or under way anywhere.
  predicate Quiescent(s: System) {
    && s.bus.pending == {}
    && forall r :: r in s.replicas ==>
         && s.replicas[r].cursor == |s.bus.completed|
         && AtRest(s.replicas[r].loop)
         && s.replicas[r].starters == map[]
  }

  // Every part of the run has completed, E too when anything links to it.
  ghost predicate Complete(setup: Setup, b: Ledger, x: Run) {
    forall n :: IsPart(setup.parts, n) && (n != END || Prev(setup.parts, END) != []) ==> CompletedIn(b, n, x)
  }

  lemma CreatedCompletes(setup: Setup, s: System, q: nat, d: string, n: string, x: Run)
    requires Fenced(setup, s) && HeldIn(s, q, d, x) && x != NIL_RUN && Settled(s, q, x)
    requires NoneDropped(s.bus, x) && CreatedIn(s.bus, n, x)
    ensures CompletedIn(s.bus, n, x)
  {
    hide RightPayload;
    hide Exclusive;
    hide GrantsLive;
    hide InPlace;
    hide ReplicaOk;
    var b := s.bus;
    assert ReplicaOk(setup, b, s.replicas[q]);
    ClaimedIsStarted(setup, b, s.replicas[q], x);
    var k: nat :| k < |b.created| && b.created[k].part == n && b.created[k].run == x;
    assert AckedAs(b, k, x);
  }

  lemma CompletedReads(s: System, q: nat, p: string, x: Run)
    requires Settled(s, q, x) && CompletedIn(s.bus, p, x)
    ensures Read(s.bus, s.replicas[q], p, x)
  {
    var j :| 0 <= j < |s.bus.completed| && s.bus.completed[j].part == p && s.bus.completed[j].run == x;
    assert ReadAt(s.bus, s.replicas[q], p, x, j);
  }

  lemma {:induction false} AdvancedCompletes(setup: Setup, s: System, q: nat, d: string, n: string, x: Run)
    requires Sound(setup.parts) && Fenced(setup, s) && HeldIn(s, q, d, x) && x != NIL_RUN && Settled(s, q, x)
    requires Advancing(setup, s.bus, s.replicas[q], d, x)
    requires IsPart(setup.parts, n) && (n != END || Prev(setup.parts, END) != [])
    ensures CompletedIn(s.bus, n, x)
    decreases Ancestors(GraphOf(setup.parts), n)
  {
    hide Sound;
    hide Fenced;
    hide CompletedIn;
    hide CreatedIn;
    hide NoneDropped;
    hide Kept;
    hide Read;
    if n != START {
      HasPrev(setup.parts, n);
      forall p | p in Prev(setup.parts, n) ensures Read(s.bus, s.replicas[q], p, x) {
        PrevFacts(setup.parts, p, n);
        AncestorsShrink(GraphOf(setup.parts), p, n);
        AdvancedCompletes(setup, s, q, d, p, x);
        CompletedReads(s, q, p, x);
      }
      assert AllRead(setup, s.bus, s.replicas[q], n, x);
    }
    assert CreatedIn(s.bus, n, x);
    CreatedCompletes(setup, s, q, d, n, x);
  }

  // A completed part was created, by the event that the completion acknowledges.
  lemma CompletedAcks(setup: Setup, b: Ledger, k: nat, x: Run)
    requires BusOk(setup, b) && k < |b.created| && b.created[k].run == x && CompletedIn(b, b.created[k].part, x)
    ensures AckedAs(b, k, x)
  {
    hide RightPayload;
    hide Typed;
    var j :| 0 <= j < |b.completed| && b.completed[j].part == b.created[k].part && b.completed[j].run == x;
    assert b.completed[j].src == k;
  }

  lemma CreatedIsPart(setup: Setup, b: Ledger, k: nat)
    requires BusOk(setup, b) && k < |b.created|
    ensures IsPart(setup.parts, b.created[k].part) && b.created[k].run in b.runs
    ensures b.created[k].part != END || Prev(setup.parts, END) != []
  {
    hide RightPayload;
    hide Typed;
  }

  lemma FinishedAdvanced(setup: Setup, s: System, q: nat, d: string, x: Run)
    requires Sound(setup.parts) && Fenced(setup, s) && HeldIn(s, q, d, x) && x != NIL_RUN
    requires Complete(setup, s.bus, x)
    ensures Advancing(setup, s.bus, s.replicas[q], d, x)
  {
    hide Sound;
    hide BusOk;
    hide ReplicaOk;
    hide CompletedIn;
    hide CreatedIn;
    hide Read;
    hide Exclusive;
    hide GrantsLive;
    hide InPlace;
    hide Secured;
    var b, me := s.bus, s.replicas[q];
    assert ReplicaOk(setup, b, me);
    ClaimedIsStarted(setup, b, me, x);
    hide Claims;
    forall n | IsPart(setup.parts, n) && (n != END || Prev(setup.parts, END) != []) ensures CreatedIn(b, n, x) {
      assert JournalOk(setup, b) by { BusIsJournal(setup, b); }
      CompletedWasCreated(setup, b, n, x);
    }
    assert IsPart(setup.parts, START) && START != END by { StartIsPart(setup); }
    forall k: nat | k < |b.created| && b.created[k].run == x ensures AckedAs(b, k, x) {
      CreatedIsPart(setup, b, k);
      CompletedAcks(setup, b, k, x);
    }
    forall p ensures !Needed(setup, b, me, p, x) {
      forall n | n in Next(setup.parts, p) ensures CreatedIn(b, n, x) {
        LinkedIsDue(setup, p, n);
      }
    }
    hide Needed;
    hide AckedAs;
    assert forall n :: AllRead(setup, b, me, n, x) ==> Prev(setup.parts, n) != [];
  }

  lemma StartIsPart(setup: Setup)
    requires Sound(setup.parts)
    ensures IsPart(setup.parts, START)
  {
  }

  lemma LinkedIsDue(setup: Setup, p: string, n: string)
    requires Sound(setup.parts) && n in Next(setup.parts, p)
    ensures IsPart(setup.parts, n) && (n != END || Prev(setup.parts, END) != [])
  {
    LinksDistinct(setup, p);
    LinkBothWays(setup, p, n);
  }

  // Whatever any number of replicas did: where a replica has held a run since it installed it, and
  // nothing of the run is left to do, every part of it has completed if and only if no step since
  // then has lost anything of it.
  lemma RunFinishesExactly(setup: Setup, states: seq<System>, steps: seq<Step>, q: nat, x: Run, i: nat)
    requires Sound(setup.parts) && Behavior(setup, states, steps) && states[0] == INIT
    requires HeldSince(setup, states, steps, q, x, i, |steps|) && x != NIL_RUN
    requires Settled(states[|steps|], q, x)
    ensures Complete(setup, states[|steps|].bus, x) <==>
            forall m :: i < m < |steps| ==> !Loses(setup, states[m], steps[m], q, x)
  {
    hide Sound;
    hide Fenced;
    hide Tracked;
    hide Advancing;
    hide Loses;
    hide CompletedIn;
    hide HeldSince;
    hide Settled;
    hide Apply;
    hide CanStep;
    var s := states[|steps|];
    var d := GoesOnExactly(setup, states, steps, q, x, i, |steps|);
    BehaviorIsFenced(setup, states, steps, |steps|);
    if Advancing(setup, s.bus, s.replicas[q], d, x) {
      forall n | IsPart(setup.parts, n) && (n != END || Prev(setup.parts, END) != []) ensures CompletedIn(s.bus, n, x) {
        AdvancedCompletes(setup, s, q, d, n, x);
      }
    }
    if Complete(setup, s.bus, x) {
      FinishedAdvanced(setup, s, q, d, x);
    }
  }
}
