// Orderly replicas come to rest: without new starts, failures and dropped outputs they take no more
// steps than the work that is left, and they can only stop where everything is quiet.
module RepeatableEnds {
  import opened Story
  import opened Plan
  import opened Bus
  import opened Journal
  import opened Repeatable
  import opened Fencing
  import opened RepeatableProgress
  import opened RepeatableOrder
  import opened Sums

  // ----- the work that is left -----

  // The steps of an rr.New call, with n parts in the story.
  function StarterWork(n: nat): Starter -> int {
    (t: Starter) =>
      match t
      case Opened(_, _) => 2 * n + 2
      case Resetting(_, _, rest) => 2 * |rest| + 1
      case Chosen(_, _, rest, _) => 2 * |rest|
  }

  // What a worker has done of the three steps over its event.
  function Done(w: Worker): nat {
    match w
    case Passed(_) => 1
    case Running(_) => 2
  }

  const DONE: Worker -> int := w => Done(w)

  // The steps of one link: follow it, look at each predecessor, ask and send.
  function LinkCost(n: nat): nat {
    n + 3
  }

  // The steps over one completion: take it, record it, follow its links.
  function CompletionCost(n: nat): nat {
    2 + n * LinkCost(n)
  }

  function LoopWork(parts: seq<Part>, l: Loop): int {
    var n := |parts|;
    match l
    case Idle => 0
    case Checked(_) => 1 + n * LinkCost(n)
    case Joining(_, _, rest) => |rest| * LinkCost(n)
    case Reading(_, _, part, td, rest) => |rest| * LinkCost(n) + |Prev(parts, part)| - |td| + 2
    case Writing(_, rest) => |rest| * LinkCost(n) + 1
  }

  // Each event still to be created or acknowledged costs three steps of a worker and those over
  // its completion.
  function Cost(n: nat, uncreated: int, pending: int, unread: int, rest: int): int {
    (uncreated + pending) * (CompletionCost(n) + 3) + unread * CompletionCost(n) + rest
  }

  ghost function Work(setup: Setup, b: Ledger, me: Replica): int {
    var n := |setup.parts|;
    Cost(n, n * |b.runs| - |b.created|, |b.pending|, |b.completed| - me.cursor,
         LoopWork(setup.parts, me.loop) + Total(me.starters, StarterWork(n)) - Total(me.workers, DONE))
  }

  lemma CostMoves(n: nat, u: int, p: int, r: int, w: int, w': int)
    ensures Cost(n, u, p, r, w') == Cost(n, u, p, r, w) + (w' - w)
    ensures Cost(n, u - 1, p + 1, r, w') == Cost(n, u, p, r, w) + (w' - w)
    ensures Cost(n, u, p - 1, r + 1, w') == Cost(n, u, p, r, w) - 3 + (w' - w)
    ensures Cost(n, u, p, r - 1, w') == Cost(n, u, p, r, w) - CompletionCost(n) + (w' - w)
  {
    var c := CompletionCost(n);
    assert (u + (p - 1)) * (c + 3) == (u + p) * (c + 3) - (c + 3);
    assert (r + 1) * c == r * c + c && (r - 1) * c == r * c - c;
    assert (u - 1) + (p + 1) == u + p;
  }

  lemma LinksCost(n: nat, k: nat)
    ensures (k + 1) * LinkCost(n) == k * LinkCost(n) + LinkCost(n)
    ensures k <= n ==> k * LinkCost(n) <= n * LinkCost(n)
    ensures k * LinkCost(n) >= 0
  {
    if k <= n {
      assert (n - k) * LinkCost(n) >= 0;
      assert n * LinkCost(n) == k * LinkCost(n) + (n - k) * LinkCost(n);
    }
  }

  // ----- every step takes work -----

  predicate Ending(act: Action) {
    !act.Open? && !act.Fail? && !act.Drop?
  }

  lemma StarterStepTakes(setup: Setup, b: Ledger, me: Replica, act: Action)
    requires Enabled(setup, b, me, act) && (act.Swap? || act.Peek? || act.Reset?)
    ensures Work(setup, ActNew(setup, b, me, act).0, ActNew(setup, b, me, act).1) < Work(setup, b, me)
  {
    hide Cost;
    hide LoopWork;
    hide Total;
    hide ResetState;
    hide SetCell;
    var n, run := |setup.parts|, act.run;
    var (b', me') := ActNew(setup, b, me, act);
    TotalTakes(me.starters, StarterWork(n), run);
    TotalSets(me.starters, StarterWork(n), run, me'.starters[run]);
    assert me'.starters == me.starters[run := me'.starters[run]];
    var w, w' := LoopWork(setup.parts, me.loop) + Total(me.starters, StarterWork(n)) - Total(me.workers, DONE),
                 LoopWork(setup.parts, me'.loop) + Total(me'.starters, StarterWork(n)) - Total(me'.workers, DONE);
    CostMoves(n, n * |b.runs| - |b.created|, |b.pending|, |b.completed| - me.cursor, w, w');
  }

  lemma LaunchTakes(setup: Setup, b: Ledger, me: Replica, run: Run)
    requires Acked(b) && Enabled(setup, b, me, Launch(run, true))
    ensures var next := ActNew(setup, b, me, Launch(run, true)); Work(setup, next.0, next.1) < Work(setup, b, me)
  {
    hide Cost;
    hide LoopWork;
    hide Total;
    hide TypeOf;
    hide Acked;
    var n := |setup.parts|;
    var (b', me') := ActNew(setup, b, me, Launch(run, true));
    PendingGrows(b, Event(me.starters[run].dim, START, run, [Data(StartType(setup), me.starters[run].input)]));
    TotalTakes(me.starters, StarterWork(n), run);
    var w, w' := LoopWork(setup.parts, me.loop) + Total(me.starters, StarterWork(n)) - Total(me.workers, DONE),
                 LoopWork(setup.parts, me'.loop) + Total(me'.starters, StarterWork(n)) - Total(me'.workers, DONE);
    CostMoves(n, n * |b.runs| - |b.created|, |b.pending|, |b.completed| - me.cursor, w, w');
  }

  // An event leaves the pending ones, for a completion, and the workers' share changes by this much.
  lemma EventDone(setup: Setup, b: Ledger, b': Ledger, me: Replica, me': Replica, c: Completion, more: int)
    requires c.src in b.pending && b' == Acknowledge(b, c)
    requires me'.cursor == me.cursor && me'.loop == me.loop && me'.starters == me.starters
    requires Total(me'.workers, DONE) == Total(me.workers, DONE) + more && more > -3
    ensures Work(setup, b', me') < Work(setup, b, me)
  {
    hide Cost;
    hide LoopWork;
    hide Total;
    var n := |setup.parts|;
    PendingFalls(b, c);
    var x := LoopWork(setup.parts, me.loop) + Total(me.starters, StarterWork(n)) - Total(me.workers, DONE);
    CostMoves(n, n * |b.runs| - |b.created|, |b.pending|, |b.completed| - me.cursor, x, x - more);
  }

  // Only the workers' share changes.
  lemma WorkersMove(setup: Setup, b: Ledger, me: Replica, me': Replica)
    requires me'.cursor == me.cursor && me'.loop == me.loop && me'.starters == me.starters
    requires Total(me'.workers, DONE) > Total(me.workers, DONE)
    ensures Work(setup, b, me') < Work(setup, b, me)
  {
    hide LoopWork;
    hide Total;
  }

  lemma WorkerMoves(me: Replica, w: nat, next: Worker)
    ensures Total(me.workers[w := next], DONE) ==
            Total(me.workers, DONE) + Done(next) - if w in me.workers then Done(me.workers[w]) else 0
  {
    hide Total;
    TotalSets(me.workers, DONE, w, next);
    if w in me.workers {
      TotalTakes(me.workers, DONE, w);
    } else {
      assert me.workers - {w} == me.workers;
    }
  }

  lemma WorkerStepTakes(setup: Setup, b: Ledger, me: Replica, act: Action)
    requires Enabled(setup, b, me, act) && (act.Check? || act.Begin? || act.Finish?)
    requires WorkersCurrent(b, me)
    ensures Work(setup, ActRead(setup, b, me, act).0, ActRead(setup, b, me, act).1) < Work(setup, b, me)
  {
    hide Work;
    hide Total;
    hide TypeOf;
    hide SetCell;
    var w := act.worker;
    var (b', me') := ActRead(setup, b, me, act);
    match act {
      case Check(_, k) =>
        if me'.workers == me.workers {
          EventDone(setup, b, b', me, me', Inert(k), 0);
        } else {
          WorkerMoves(me, w, Passed(k));
          WorkersMove(setup, b, me, me');
        }
      case Begin(_) =>
        WorkerMoves(me, w, Running(me.workers[w].event));
        WorkersMove(setup, b, me, me');
      case Finish(_, out) =>
        var k := me.workers[w].event;
        var e := b.created[k];
        var gone: int := Done(me.workers[w]);
        TotalTakes(me.workers, DONE, w);
        EventDone(setup, b, b', me, me', Completion(k, e.dim, e.part, e.run, [out]), -gone);
    }
  }

  lemma LoopStepTakes(setup: Setup, b: Ledger, me: Replica, act: Action)
    requires Sound(setup.parts) && Acked(b) && Enabled(setup, b, me, act)
    requires act.Take? || act.Record? || act.Follow? || act.Look? || act.Ask? || act.Send?
    requires act.Send? ==> act.ok
    ensures Work(setup, ActLoop(setup, b, me, act).0, ActLoop(setup, b, me, act).1) < Work(setup, b, me)
  {
    hide Cost;
    hide Sound;
    hide Total;
    hide Acked;
    hide Usable;
    hide SetCell;
    var n, l := |setup.parts|, me.loop;
    var (b', me') := ActLoop(setup, b, me, act);
    match act {
      case Take =>
      case Record =>
        NextFits(setup.parts, l.c.part);
        LinksCost(n, |Next(setup.parts, l.c.part)|);
      case Follow =>
        PrevFits(setup.parts, l.rest[0]);
        LinksCost(n, |l.rest| - 1);
      case Look =>
      case Ask(_) =>
      case Send(_) => PendingGrows(b, l.event);
    }
    var x, x' := LoopWork(setup.parts, me.loop) + Total(me.starters, StarterWork(n)) - Total(me.workers, DONE),
                 LoopWork(setup.parts, me'.loop) + Total(me'.starters, StarterWork(n)) - Total(me'.workers, DONE);
    CostMoves(n, n * |b.runs| - |b.created|, |b.pending|, |b.completed| - me.cursor, x, x');
  }

  // ----- there is never less than no work -----

  lemma {:induction false} DoneFits(ws: map<nat, Worker>, pending: set<nat>)
    requires forall w :: w in ws ==> ws[w].event in pending
    requires forall v, w :: v in ws && w in ws && v != w ==> ws[v].event != ws[w].event
    ensures Total(ws, DONE) <= 2 * |pending|
    decreases |ws|
  {
    if ws != map[] {
      var w :| w in ws;
      TotalTakes(ws, DONE, w);
      assert ws.Keys - {w} == (ws - {w}).Keys;
      DoneFits(ws - {w}, pending - {ws[w].event});
      assert |pending - {ws[w].event}| == |pending| - 1;
    }
  }

  lemma LoopWorkIsNat(setup: Setup, b: Ledger, me: Replica)
    requires LoopOk(setup, b, me)
    ensures LoopWork(setup.parts, me.loop) >= 0
  {
    hide CheckedOk;
    hide RightPayload;
    hide Held;
    hide LivesIn;
    var n := |setup.parts|;
    LinksCost(n, n);
    match me.loop {
      case Joining(_, _, rest) => LinksCost(n, |rest|);
      case Reading(_, _, _, _, rest) => LinksCost(n, |rest|);
      case Writing(_, rest) => LinksCost(n, |rest|);
      case _ =>
    }
  }

  lemma CostIsNat(n: nat, u: nat, p: nat, r: nat, rest: int)
    requires rest >= -2 * p
    ensures Cost(n, u, p, r, rest) >= 0
  {
    var c := CompletionCost(n);
    LinksCost(n, n);
    assert (u + p) * (c + 3) == (u + p) * c + 3 * (u + p);
    assert (u + p) * c >= 0 && r * c >= 0;
  }

  lemma WorkIsNat(setup: Setup, b: Ledger, me: Replica)
    requires BusOk(setup, b) && ReplicaOk(setup, b, me) && InOrder(b, me)
    ensures Work(setup, b, me) >= 0
  {
    hide JournalOk;
    hide DimensionsOk;
    hide CellsOk;
    hide LoopOk;
    hide StartersOk;
    hide RunsOk;
    hide StartersAlone;
    hide CellsRecorded;
    hide CheckedLast;
    hide Cost;
    hide LoopWork;
    hide Total;
    var n := |setup.parts|;
    CreatedFits(setup, b);
    DoneFits(me.workers, b.pending);
    LoopWorkIsNat(setup, b, me);
    TotalIsNat(me.starters, StarterWork(n));
    CostIsNat(n, n * |b.runs| - |b.created|, |b.pending|, |b.completed| - me.cursor,
              LoopWork(setup.parts, me.loop) + Total(me.starters, StarterWork(n)) - Total(me.workers, DONE));
  }

  // ----- while there is work, an orderly step is enabled -----

  // A starter that has read a state has a part to reset.
  ghost predicate Choosing(me: Replica) {
    forall run :: run in me.starters && me.starters[run].Chosen? ==> me.starters[run].rest != []
  }

  // The dimension of every event is known to some replica.
  ghost predicate Grounded(s: System) {
    && (forall r :: r in s.replicas ==> Choosing(s.replicas[r]))
    && (forall k :: 0 <= k < |s.bus.created| ==> Known(s, s.bus.created[k].dim))
  }

  ghost predicate Known(s: System, d: string) {
    exists r :: r in s.replicas && d in s.replicas[r].dims
  }

  lemma ActKeepsChoosing(setup: Setup, b: Ledger, me: Replica, act: Action)
    requires ReplicaOk(setup, b, me) && Choosing(me) && Enabled(setup, b, me, act)
    ensures var (b', me') := Act(setup, b, me, act);
      && Choosing(me') && me.dims.Keys <= me'.dims.Keys && b.created <= b'.created
      && forall k :: |b.created| <= k < |b'.created| ==> b'.created[k].dim in me'.dims
  {
    hide CellsOk;
    hide RunsOk;
    hide WorkersOk;
    hide CheckedOk;
    hide RightPayload;
    hide PartialPayload;
    hide LivesIn;
    hide Usable;
    hide TypeOf;
    hide ResetState;
    hide Held;
    hide Targets;
  }

  // No replica forgets what it knew.
  predicate NoReboot(s: System, step: Step) {
    step.Boot? ==> step.rep !in s.replicas
  }

  lemma StaysGrounded(setup: Setup, s: System, step: Step)
    requires Ordered(setup, s) && Grounded(s) && CanStep(setup, s, step) && NoReboot(s, step)
    ensures Grounded(Apply(setup, s, step))
  {
    hide Fenced;
    hide InOrder;
    hide Act;
    hide Enabled;
    hide Choosing;
    var s' := Apply(setup, s, step);
    if step.Step? {
      FencedReplicas(setup, s, step.rep);
      ActKeepsChoosing(setup, s.bus, s.replicas[step.rep], step.act);
    } else {
      assert Choosing(FRESH) by { FreshChooses(); }
    }
    forall k | 0 <= k < |s'.bus.created| ensures Known(s', s'.bus.created[k].dim) {
      if k < |s.bus.created| {
        assert s'.bus.created[k] == s.bus.created[k] && Known(s, s.bus.created[k].dim);
        var r :| r in s.replicas && s.bus.created[k].dim in s.replicas[r].dims;
        assert r in s'.replicas && s'.bus.created[k].dim in s'.replicas[r].dims;
      } else {
        assert s'.bus.created[k].dim in s'.replicas[step.rep].dims;
      }
    }
  }

  lemma FreshChooses()
    ensures Choosing(FRESH)
  {
  }

  // A pending event in a dimension that the replica knows: one of its workers acts, or takes it.
  lemma SomeWorkerActs(setup: Setup, b: Ledger, me: Replica, k: nat) returns (act: Action)
    requires BusOk(setup, b) && WorkersCurrent(b, me) && k in b.pending && k < |b.created|
    requires b.created[k].dim in me.dims
    ensures Enabled(setup, b, me, act) && (act.Check? || act.Begin? || act.Finish?)
    ensures act.Check? ==> me.workers == map[]
  {
    hide BusOk;
    hide TypeOf;
    if w :| w in me.workers {
      act := if me.workers[w].Passed? then Begin(w)
             else Finish(w, Data(TypeOf(setup, b.created[me.workers[w].event].part), ""));
    } else {
      act := Check(0, k);
    }
  }

  lemma SomeStarterActs(setup: Setup, b: Ledger, me: Replica, run: Run) returns (act: Action)
    requires StartersOk(b, me) && Choosing(me) && run in me.starters
    ensures Enabled(setup, b, me, act) && (act.Swap? || act.Peek? || act.Reset? || act == Launch(run, true))
  {
    act := match me.starters[run]
           case Opened(_, _) => Swap(run)
           case Resetting(_, _, rest) => if rest == [] then Launch(run, true) else Peek(run)
           case Chosen(_, _, _, _) => Reset(run);
  }

  lemma LoopActs(setup: Setup, b: Ledger, me: Replica) returns (act: Action)
    requires LoopOk(setup, b, me) && !(AtRest(me.loop) && me.cursor == |b.completed|) && me.cursor <= |b.completed|
    ensures Enabled(setup, b, me, act)
    ensures match act
            case Take => true
            case Record => true
            case Follow => true
            case Look => true
            case Ask(want) => want || ConsId(me.loop.n, me.loop.run) in b.granted
            case Send(ok) => ok
            case _ => false
  {
    hide CheckedOk;
    hide RightPayload;
    hide LivesIn;
    hide Held;
    hide Targets;
    if AtRest(me.loop) {
      act := Take;
    } else {
      act := match me.loop
             case Checked(_) => Record
             case Joining(_, _, _) => Follow
             case Reading(_, run, n, td, _) =>
               if |td| < |Prev(setup.parts, n)| then Look else Ask(ConsId(n, run) !in b.granted)
             case _ => Send(true);
    }
  }

  lemma SomeStepIsOrderly(setup: Setup, s: System) returns (step: Step)
    requires Ordered(setup, s) && Grounded(s) && !Quiescent(s)
    ensures Orderly(setup, s, step) && step.Step? && Ending(step.act)
  {
    hide Fenced;
    hide InOrder;
    hide Enabled;
    hide Choosing;
    hide Mannered;
    hide BusOk;
    hide ReplicaOk;
    var b := s.bus;
    if b.pending != {} {
      var k :| k in b.pending;
      var r := SomeReplicaKnows(setup, s, k);
      FencedReplicas(setup, s, r);
      assert WorkersCurrent(b, s.replicas[r]) by { OrderOfWorkers(b, s.replicas[r]); }
      hide WorkersCurrent;
      var act := SomeWorkerActs(setup, b, s.replicas[r], k);
      WorkerIsMannered(s, r, act);
      step := Step(r, act);
    } else {
      var r :| r in s.replicas && !(s.replicas[r].cursor == |b.completed| && AtRest(s.replicas[r].loop)
                                    && s.replicas[r].starters == map[]);
      FencedReplicas(setup, s, r);
      var act := SomethingActs(setup, b, s.replicas[r]);
      assert WorkersCurrent(b, s.replicas[r]) by { OrderOfWorkers(b, s.replicas[r]); }
      SomethingIsMannered(s, r, act);
      step := Step(r, act);
    }
  }

  lemma WorkerIsMannered(s: System, r: nat, act: Action)
    requires r in s.replicas && (act.Check? || act.Begin? || act.Finish?)
    requires act.Check? ==> s.replicas[r].workers == map[]
    ensures Mannered(s, r, act) && Ending(act)
  {
  }

  lemma SomethingIsMannered(s: System, r: nat, act: Action)
    requires r in s.replicas && WorkersCurrent(s.bus, s.replicas[r]) && s.bus.pending == {}
    requires act.Swap? || act.Peek? || act.Reset? || act.Launch? || LoopAct(act)
    requires (act.Launch? ==> act.ok) && (act.Send? ==> act.ok)
    requires var me := s.replicas[r];
      act.Ask? ==> me.loop.Reading? && (act.want || ConsId(me.loop.n, me.loop.run) in s.bus.granted)
    ensures Mannered(s, r, act) && Ending(act)
  {
    hide ConsId;
  }

  lemma OrderOfWorkers(b: Ledger, me: Replica)
    requires InOrder(b, me)
    ensures WorkersCurrent(b, me)
  {
  }

  lemma SomeReplicaKnows(setup: Setup, s: System, k: nat) returns (r: nat)
    requires Ordered(setup, s) && Grounded(s) && k in s.bus.pending
    ensures k < |s.bus.created| && r in s.replicas && s.bus.created[k].dim in s.replicas[r].dims
  {
    hide BusOk;
    hide InOrder;
    hide ReplicaOk;
    PendingCreated(setup, s.bus, k);
    assert Known(s, s.bus.created[k].dim);
    r :| r in s.replicas && s.bus.created[k].dim in s.replicas[r].dims;
  }

  lemma SomethingActs(setup: Setup, b: Ledger, me: Replica) returns (act: Action)
    requires ReplicaOk(setup, b, me) && Choosing(me)
    requires !(me.cursor == |b.completed| && AtRest(me.loop) && me.starters == map[])
    ensures Enabled(setup, b, me, act) && (act.Swap? || act.Peek? || act.Reset? || act.Launch? || LoopAct(act))
    ensures act.Swap? || act.Peek? || act.Reset? ==> act.run in me.starters
    ensures (act.Launch? ==> act.ok) && (act.Send? ==> act.ok)
    ensures act.Ask? ==> me.loop.Reading? && (act.want || ConsId(me.loop.n, me.loop.run) in b.granted)
  {
    hide CellsOk;
    hide RunsOk;
    hide LoopOk;
    hide Choosing;
    hide StartersOk;
    if me.starters != map[] {
      var run :| run in me.starters;
      act := SomeStarterActs(setup, b, me, run);
    } else {
      act := LoopActs(setup, b, me);
    }
  }

  lemma PendingCreated(setup: Setup, b: Ledger, k: nat)
    requires BusOk(setup, b) && k in b.pending
    ensures k < |b.created|
  {
    hide RightPayload;
    hide DimensionsOk;
  }

  // ----- the theorem -----

  lemma ActTakes(setup: Setup, b: Ledger, me: Replica, act: Action)
    requires Sound(setup.parts) && BusOk(setup, b) && ReplicaOk(setup, b, me) && InOrder(b, me)
    requires Enabled(setup, b, me, act) && Ending(act) && (act.Launch? ==> act.ok) && (act.Send? ==> act.ok)
    ensures Work(setup, Act(setup, b, me, act).0, Act(setup, b, me, act).1) < Work(setup, b, me)
  {
    hide Sound;
    hide Work;
    hide ActNew;
    hide ActRead;
    hide ActLoop;
    hide Enabled;
    hide ReplicaOk;
    hide WorkersCurrent;
    hide StartersAlone;
    hide CellsRecorded;
    hide CheckedLast;
    hide DimensionsOk;
    assert Acked(b) by { JournalIsAcked(setup, b); }
    hide JournalOk;
    match act {
      case Swap(_) => StarterStepTakes(setup, b, me, act);
      case Peek(_) => StarterStepTakes(setup, b, me, act);
      case Reset(_) => StarterStepTakes(setup, b, me, act);
      case Launch(run, _) => LaunchTakes(setup, b, me, run);
      case _ =>
        if act.Check? || act.Begin? || act.Finish? {
          WorkerStepTakes(setup, b, me, act);
        } else {
          LoopStepTakes(setup, b, me, act);
        }
    }
  }

  // A step without a new run leaves the other replicas no more to do.
  lemma OthersTakeNone(setup: Setup, b: Ledger, other: Replica, act: Action, me: Replica)
    requires Acked(b) && Enabled(setup, b, other, act) && !act.Open?
    ensures Work(setup, Act(setup, b, other, act).0, me) <= Work(setup, b, me)
  {
    hide Cost;
    hide LoopWork;
    hide Total;
    hide Act;
    hide Acked;
    var n, b' := |setup.parts|, Act(setup, b, other, act).0;
    EventsMove(setup, b, other, act);
    var w := LoopWork(setup.parts, me.loop) + Total(me.starters, StarterWork(n)) - Total(me.workers, DONE);
    CostMoves(n, n * |b.runs| - |b.created|, |b.pending|, |b.completed| - me.cursor, w, w);
  }

  // Events are created, then pending, then completed, one at a time.
  lemma EventsMove(setup: Setup, b: Ledger, me: Replica, act: Action)
    requires Acked(b) && Enabled(setup, b, me, act) && !act.Open?
    ensures var b' := Act(setup, b, me, act).0;
      && b'.runs == b.runs
      && ((|b'.created| == |b.created| && |b'.pending| == |b.pending| && |b'.completed| == |b.completed|)
          || (|b'.created| == |b.created| + 1 && |b'.pending| == |b.pending| + 1 && |b'.completed| == |b.completed|)
          || (|b'.created| == |b.created| && |b'.pending| == |b.pending| - 1 && |b'.completed| == |b.completed| + 1))
  {
    hide Acked;
    hide Usable;
    hide TypeOf;
    hide PartIdList;
    hide ResetState;
    match act {
      case Launch(run, ok) => PendingGrows(b, StartedBy(setup, me, run));
      case Send(_) => PendingGrows(b, me.loop.event);
      case Check(w, k) => PendingFalls(b, Inert(k));
      case Finish(w, out) =>
        var k := me.workers[w].event;
        if k in b.pending {
          var e := b.created[k];
          PendingFalls(b, Completion(k, e.dim, e.part, e.run, [out]));
        }
      case _ =>
    }
  }

  // The work that is left to all replicas.
  ghost function WorkLeft(setup: Setup, s: System): int {
    Total(s.replicas, WorkFor(setup, s.bus))
  }

  ghost function WorkFor(setup: Setup, b: Ledger): Replica -> int {
    (me: Replica) => Work(setup, b, me)
  }

  lemma OrderlyStepTakes(setup: Setup, s: System, step: Step)
    requires Sound(setup.parts) && Ordered(setup, s) && Orderly(setup, s, step) && step.Step? && Ending(step.act)
    ensures WorkLeft(setup, Apply(setup, s, step)) < WorkLeft(setup, s)
  {
    hide Sound;
    hide Fenced;
    hide InOrder;
    hide Work;
    hide Total;
    hide Act;
    hide Enabled;
    var b, r, me := s.bus, step.rep, s.replicas[step.rep];
    var (b', me') := Act(setup, b, me, step.act);
    FencedReplicas(setup, s, r);
    hide BusOk;
    hide ReplicaOk;
    assert Acked(b) by { BusIsAcked(setup, b); }
    ActTakes(setup, b, me, step.act);
    forall q | q in s.replicas && q != r ensures WorkFor(setup, b')(s.replicas[q]) <= WorkFor(setup, b)(s.replicas[q]) {
      OthersTakeNone(setup, b, me, step.act, s.replicas[q]);
    }
    TotalFalls(s.replicas, WorkFor(setup, b), r, me', WorkFor(setup, b'));
  }

  lemma WorkLeftIsNat(setup: Setup, s: System)
    requires Ordered(setup, s)
    ensures WorkLeft(setup, s) >= 0
  {
    hide Work;
    hide Fenced;
    hide InOrder;
    hide Total;
    forall r | r in s.replicas ensures WorkFor(setup, s.bus)(s.replicas[r]) >= 0 {
      FencedReplicas(setup, s, r);
      WorkIsNat(setup, s.bus, s.replicas[r]);
    }
    TotalIsNat(s.replicas, WorkFor(setup, s.bus));
  }

  lemma {:induction false} OrderlyStaysGrounded(setup: Setup, states: seq<System>, steps: seq<Step>, k: nat)
    requires Sound(setup.parts) && OrderlyBehavior(setup, states, steps) && k <= |steps|
    requires forall m {:trigger steps[m]} :: 0 <= m < |steps| ==> NoReboot(states[m], steps[m])
    ensures Ordered(setup, states[k]) && Grounded(states[k])
    decreases k
  {
    hide Sound;
    hide Ordered;
    hide Grounded;
    hide Apply;
    hide CanStep;
    hide Mannered;
    OrderlyStays(setup, states, steps, k);
    if k > 0 {
      OrderlyStaysGrounded(setup, states, steps, k - 1);
      assert CanStep(setup, states[k - 1], steps[k - 1]);
      StaysGrounded(setup, states[k - 1], steps[k - 1]);
    } else {
      assert Grounded(INIT) by { NothingGrounded(); }
    }
  }

  lemma NothingGrounded()
    ensures Grounded(INIT)
  {
  }

  // With any number of replicas, none of them rebooted: from any point on at which an orderly
  // behavior opens no further run, no adapter fails or drops its output, and no replica joins, it
  // takes no more steps than the work that is left there; and where no other orderly step is
  // enabled everything is quiet. So the current runs do finish.
  lemma {:induction false} OrderlyRunsEnd(setup: Setup, states: seq<System>, steps: seq<Step>, i: nat)
    requires Sound(setup.parts) && OrderlyBehavior(setup, states, steps) && i <= |steps|
    requires forall m {:trigger steps[m]} :: 0 <= m < |steps| ==> NoReboot(states[m], steps[m])
    requires forall k {:trigger steps[k]} :: i <= k < |steps| ==> steps[k].Step? && Ending(steps[k].act)
    ensures |steps| - i <= WorkLeft(setup, states[i]) - WorkLeft(setup, states[|steps|])
    ensures WorkLeft(setup, states[|steps|]) >= 0
    ensures (forall step: Step :: Orderly(setup, states[|steps|], step) ==> step.Boot? || !Ending(step.act))
            ==> Quiescent(states[|steps|])
    decreases |steps| - i
  {
    hide Sound;
    hide Ordered;
    hide Grounded;
    hide Orderly;
    hide Apply;
    hide Quiescent;
    hide WorkLeft;
    hide Ending;
    hide NoReboot;
    OrderlyStaysGrounded(setup, states, steps, i);
    if i < |steps| {
      assert Orderly(setup, states[i], steps[i]) && states[i + 1] == Apply(setup, states[i], steps[i]);
      OrderlyStepTakes(setup, states[i], steps[i]);
      OrderlyRunsEnd(setup, states, steps, i + 1);
    } else {
      WorkLeftIsNat(setup, states[i]);
      if !Quiescent(states[i]) {
        var step := SomeStepIsOrderly(setup, states[i]);
      }
    }
  }
}
