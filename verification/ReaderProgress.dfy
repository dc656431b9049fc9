// No join is lost and no run gets stuck: the plain reader with any number of replicas whose requests
// are granted when they are the first, whose writes succeed, and which are not restarted between
// the two.
module ReaderProgress {
  import opened Walks
  import opened Story
  import opened Plan
  import opened Bus
  import opened Journal
  import opened Reader
  import opened Sums

  // A first request is granted, no write is lost, and no replica that holds a grant is restarted.
  predicate Reliable(setup: Setup, s: System, step: Step) {
    && Enabled(setup, s, step)
    && match step
       case Request(r, want) => want || ConsId(s.replicas[r].work.rest[0], s.replicas[r].work.run) in s.bus.granted
       case Write(_, ok) => ok
       case Boot(r) => r in s.replicas ==> !s.replicas[r].work.Writing?
       case _ => true
  }

  ghost predicate ReliableBehavior(setup: Setup, states: seq<System>, steps: seq<Step>) {
    && Behavior(setup, states, steps)
    && states[0] == INIT
    && forall k {:trigger steps[k]} :: 0 <= k < |steps| ==> Reliable(setup, states[k], steps[k])
  }

  ghost predicate ReliablyReachable(setup: Setup, s: System) {
    exists states, steps {:trigger ReliableBehavior(setup, states, steps)} :: ReliableBehavior(setup, states, steps)
      && states[|steps|] == s
  }

  // The replica has read and handled everything.
  predicate CaughtUp(b: Ledger, me: Replica) {
    me.cursor == |b.completed| && AtRest(me.work)
  }

  // Nothing waits for a worker or to be written, and some replica has caught up. The others may lag.
  predicate Quiescent(s: System) {
    && s.bus.pending == {}
    && (exists r :: r in s.replicas && CaughtUp(s.bus, s.replicas[r]))
    && (forall r :: r in s.replicas ==> !s.replicas[r].work.Writing?)
  }

  ghost predicate Carries(w: Work, n: string, run: Run) {
    w.Writing? && w.event.part == n && w.event.run == run
  }

  ghost predicate Awaits(w: Work, n: string, run: Run) {
    (w.Joining? && w.run == run && n in w.rest) || (w.Writing? && w.event.run == run && n in w.rest)
  }

  ghost predicate AllRecorded(setup: Setup, me: Replica, n: string, run: Run) {
    Prev(setup.parts, n) != [] && HasAll(RunRecord(me.comp, run), Prev(setup.parts, n))
  }

  ghost predicate Carried(s: System, n: string, run: Run) {
    exists r :: r in s.replicas && Carries(s.replicas[r].work, n, run)
  }

  // The part is created, or some replica is about to write it.
  ghost predicate Handled(s: System, n: string, run: Run) {
    CreatedIn(s.bus, n, run) || Carried(s, n, run)
  }

  // A granted id has led to an event, or is about to.
  ghost predicate GrantsUsed(s: System) {
    forall n, run :: ConsId(n, run) in s.bus.granted ==> Handled(s, n, run)
  }

  // A part whose predecessors a replica has all recorded is handled, or the replica is on its way
  // to it.
  ghost predicate NoJoinLost(setup: Setup, s: System, me: Replica) {
    forall n, run {:trigger AllRecorded(setup, me, n, run)} | run in s.bus.runs && IsPart(setup.parts, n) ::
      AllRecorded(setup, me, n, run) ==> Handled(s, n, run) || Awaits(me.work, n, run)
  }

  ghost predicate Started(b: Ledger) {
    forall run :: run in b.runs ==> CreatedIn(b, START, run)
  }

  ghost predicate NoneForgotten(b: Ledger) {
    forall k: nat :: k < |b.created| ==> k in b.pending || AckedAt(b, k)
  }

  ghost predicate AckedAt(b: Ledger, k: nat) {
    exists j :: 0 <= j < |b.completed| && b.completed[j].src == k
  }

  ghost predicate Progressing(setup: Setup, s: System) {
    && Invariant(setup, s)
    && GrantsUsed(s)
    && (forall r :: r in s.replicas ==> NoJoinLost(setup, s, s.replicas[r]))
    && Started(s.bus)
    && NoneForgotten(s.bus)
  }

  // ----- what is handled stays handled -----

  lemma UnknownRunUnrecorded(setup: Setup, b: Ledger, me: Replica, n: string, run: Run)
    requires LedgerOk(setup, b) && ReplicaOk(setup, b, me) && run !in b.runs
    ensures !AllRecorded(setup, me, n, run)
  {
    hide RightPayload;
    if Prev(setup.parts, n) != [] {
      RecordedMeans(b.completed[..me.cursor], run, Prev(setup.parts, n)[0]);
      forall j | 0 <= j < me.cursor ensures b.completed[..me.cursor][j].run != run {
        assert b.created[b.completed[j].src].run in b.runs;
      }
    }
  }

  lemma PublishKeepsAcks(b: Ledger, e: Event)
    requires NoneForgotten(b)
    ensures NoneForgotten(Publish(b, e))
    ensures Publish(b, e).granted == b.granted && Publish(b, e).runs == b.runs
  {
    forall k: nat | k < |Publish(b, e).created| ensures k in Publish(b, e).pending || AckedAt(Publish(b, e), k) {
      if k < |b.created| && k !in b.pending {
        assert AckedAt(b, k);
        var j :| 0 <= j < |b.completed| && b.completed[j].src == k;
        assert Publish(b, e).completed[j].src == k;
      }
    }
  }

  lemma AckKeepsAcks(b: Ledger, c: Completion)
    requires NoneForgotten(b)
    ensures NoneForgotten(Acknowledge(b, c))
  {
    var b' := Acknowledge(b, c);
    forall l: nat | l < |b'.created| ensures l in b'.pending || AckedAt(b', l) {
      if l == c.src {
        assert b'.completed[|b.completed|].src == l;
      } else if l !in b.pending {
        assert AckedAt(b, l);
        var j :| 0 <= j < |b.completed| && b.completed[j].src == l;
        assert b'.completed[j].src == l;
      }
    }
  }

  lemma SameAcks(b: Ledger, b': Ledger)
    requires NoneForgotten(b) && b'.created == b.created && b'.pending == b.pending && b'.completed == b.completed
    ensures NoneForgotten(b')
  {
    forall k: nat | k < |b.created| && AckedAt(b, k) ensures AckedAt(b', k) {}
  }

  // What a reliable step does to what has been created.
  lemma CreatedAfter(setup: Setup, s: System, step: Step)
    requires Reliable(setup, s, step)
    ensures var s' := Apply(setup, s, step);
      forall n, run :: CreatedIn(s'.bus, n, run) <==>
        || CreatedIn(s.bus, n, run)
        || (step.StartRun? && n == START && run == step.run)
        || (step.Write? && Carries(s.replicas[step.rep].work, n, run))
  {
    hide CreatedIn;
    hide JoinEvent;
    hide Publish;
    var b, b' := s.bus, Apply(setup, s, step).bus;
    forall n, r: Run
      ensures CreatedIn(b', n, r) <==>
        || CreatedIn(b, n, r)
        || (step.StartRun? && n == START && r == step.run)
        || (step.Write? && Carries(s.replicas[step.rep].work, n, r))
    {
      match step
      case StartRun(run, input) =>
        CreatedGrows(b.(runs := b.runs + {run}), StartEvent(setup, run, input), n, r);
        SameCreated(b, b.(runs := b.runs + {run}), n, r);
      case Write(rep, _) => CreatedGrows(b, s.replicas[rep].work.event, n, r);
      case _ => SameCreated(b, b', n, r);
    }
  }

  lemma HandledStays(setup: Setup, s: System, step: Step)
    requires Reliable(setup, s, step)
    ensures var s' := Apply(setup, s, step);
      forall n, run :: Handled(s, n, run) ==> Handled(s', n, run)
  {
    hide CreatedIn;
    var s' := Apply(setup, s, step);
    CreatedAfter(setup, s, step);
    forall n, run | Carried(s, n, run) ensures Handled(s', n, run) {
      var r :| r in s.replicas && Carries(s.replicas[r].work, n, run);
      if !CreatedIn(s'.bus, n, run) {
        assert Carries(s'.replicas[r].work, n, run);
      }
    }
  }

  // ----- every reliable step -----

  // One more recorded part completes the predecessors only of parts that it links to.
  lemma RecordingOne(setup: Setup, me: Replica, c: Completion, n: string, run: Run)
    requires Sound(setup.parts)
    ensures var me' := Replica(me.cursor + 1, Put(me.comp, c), Joining(c.run, Next(setup.parts, c.part)));
      && (AllRecorded(setup, me, n, run) ==> AllRecorded(setup, me', n, run))
      && (AllRecorded(setup, me', n, run) && !AllRecorded(setup, me, n, run) && IsPart(setup.parts, n) ==>
        Awaits(me'.work, n, run))
  {
    var prev := Prev(setup.parts, n);
    var me' := Replica(me.cursor + 1, Put(me.comp, c), Joining(c.run, Next(setup.parts, c.part)));
    if AllRecorded(setup, me', n, run) && !AllRecorded(setup, me, n, run) {
      var i :| 0 <= i < |prev| && prev[i] !in RunRecord(me.comp, run);
      assert prev[i] in RunRecord(me'.comp, run);
      assert run == c.run && prev[i] == c.part && c.part in prev;
    }
  }

  lemma JoinMeansRecorded(setup: Setup, me: Replica, run: Run, n: string)
    requires Prev(setup.parts, n) != []
    ensures var e := JoinEvent(setup, me.comp, run, n);
      (e.Some? <==> AllRecorded(setup, me, n, run)) && (e.Some? ==> e.value.part == n && e.value.run == run)
  {
  }

  lemma SameRecorded(setup: Setup, me: Replica, me': Replica)
    requires me'.comp == me.comp
    ensures forall n, run :: AllRecorded(setup, me', n, run) == AllRecorded(setup, me, n, run)
  {
  }

  // A replica that a step leaves alone.
  lemma OthersLoseNone(setup: Setup, s: System, step: Step, r: nat)
    requires Progressing(setup, s) && Reliable(setup, s, step) && r in s.replicas
    requires Apply(setup, s, step).replicas[r] == s.replicas[r]
    ensures NoJoinLost(setup, Apply(setup, s, step), s.replicas[r])
  {
    hide AllRecorded;
    hide Handled;
    hide LedgerOk;
    hide ReplicaOk;
    hide Exclusive;
    HandledStays(setup, s, step);
    if step.StartRun? {
      assert ReplicaOk(setup, s.bus, s.replicas[r]);
      forall n ensures !AllRecorded(setup, s.replicas[r], n, step.run) {
        UnknownRunUnrecorded(setup, s.bus, s.replicas[r], n, step.run);
      }
    }
  }

  lemma ConsumeLosesNone(setup: Setup, s: System, r: nat)
    requires Sound(setup.parts) && Progressing(setup, s) && Enabled(setup, s, Consume(r))
    ensures var s' := Apply(setup, s, Consume(r)); NoJoinLost(setup, s', s'.replicas[r])
  {
    hide Invariant;
    hide Handled;
    hide AllRecorded;
    hide Sound;
    var me, s' := s.replicas[r], Apply(setup, s, Consume(r));
    HandledStays(setup, s, Consume(r));
    assert NoJoinLost(setup, s, me);
    forall n, run | run in s.bus.runs && IsPart(setup.parts, n) && AllRecorded(setup, s'.replicas[r], n, run)
      ensures Handled(s', n, run) || Awaits(s'.replicas[r].work, n, run)
    {
      RecordingOne(setup, me, s.bus.completed[me.cursor], n, run);
    }
  }

  lemma RequestLosesNone(setup: Setup, s: System, r: nat, want: bool)
    requires Progressing(setup, s) && Reliable(setup, s, Request(r, want))
    ensures var s' := Apply(setup, s, Request(r, want)); NoJoinLost(setup, s', s'.replicas[r])
  {
    hide LedgerOk;
    hide CreatedIn;
    hide AllRecorded;
    hide Handled;
    hide JoinEvent;
    hide ConsId;
    hide Exclusive;
    var me, s' := s.replicas[r], Apply(setup, s, Request(r, want));
    assert ReplicaOk(setup, s.bus, me) && NoJoinLost(setup, s, me);
    var run, n, rest := me.work.run, me.work.rest[0], me.work.rest[1..];
    assert n in me.work.rest;
    JoinMeansRecorded(setup, me, run, n);
    SameRecorded(setup, me, s'.replicas[r]);
    HandledStays(setup, s, Request(r, want));
    assert forall m :: m in me.work.rest <==> m == n || m in rest;
    if AllRecorded(setup, me, n, run) {
      assert Handled(s', n, run) by { RequestHandles(setup, s, r, want); }
    }
  }

  // Where all predecessors are recorded, the request leaves the part handled.
  lemma RequestHandles(setup: Setup, s: System, r: nat, want: bool)
    requires GrantsUsed(s) && Reliable(setup, s, Request(r, want))
    requires Prev(setup.parts, s.replicas[r].work.rest[0]) != []
    requires AllRecorded(setup, s.replicas[r], s.replicas[r].work.rest[0], s.replicas[r].work.run)
    ensures Handled(Apply(setup, s, Request(r, want)), s.replicas[r].work.rest[0], s.replicas[r].work.run)
  {
    hide CreatedIn;
    hide ConsId;
    var me, s' := s.replicas[r], Apply(setup, s, Request(r, want));
    JoinMeansRecorded(setup, me, me.work.run, me.work.rest[0]);
    if want {
      assert Carries(s'.replicas[r].work, me.work.rest[0], me.work.run);
    } else {
      HandledStays(setup, s, Request(r, want));
    }
  }

  lemma WriteLosesNone(setup: Setup, s: System, r: nat)
    requires Progressing(setup, s) && Reliable(setup, s, Write(r, true))
    ensures var s' := Apply(setup, s, Write(r, true)); NoJoinLost(setup, s', s'.replicas[r])
  {
    hide Invariant;
    hide Handled;
    hide AllRecorded;
    var me, s' := s.replicas[r], Apply(setup, s, Write(r, true));
    HandledStays(setup, s, Write(r, true));
    SameRecorded(setup, me, s'.replicas[r]);
    assert NoJoinLost(setup, s, me);
  }

  lemma BootLosesNone(setup: Setup, s: System)
    ensures NoJoinLost(setup, s, FRESH)
  {
    forall n, run ensures !AllRecorded(setup, FRESH, n, run) {
      if Prev(setup.parts, n) != [] { assert Prev(setup.parts, n)[0] !in RunRecord(FRESH.comp, run); }
    }
  }

  lemma GrantsStayUsed(setup: Setup, s: System, step: Step)
    requires GrantsUsed(s) && Reliable(setup, s, step)
    ensures GrantsUsed(Apply(setup, s, step))
  {
    hide CreatedIn;
    hide ConsId;
    hide Handled;
    var s' := Apply(setup, s, step);
    HandledStays(setup, s, step);
    forall n, run | ConsId(n, run) in s'.bus.granted ensures Handled(s', n, run) {
      if ConsId(n, run) !in s.bus.granted {
        var me := s.replicas[step.rep];
        ConsIdInjective(n, run, me.work.rest[0], me.work.run);
        assert Handled(s', n, run) by { NewGrantIsCarried(setup, s, step.rep, n, run); }
      }
    }
  }

  lemma NewGrantIsCarried(setup: Setup, s: System, r: nat, n: string, run: Run)
    requires Reliable(setup, s, Request(r, true)) && n == s.replicas[r].work.rest[0] && run == s.replicas[r].work.run
    requires JoinEvent(setup, s.replicas[r].comp, run, n).Some?
    ensures Handled(Apply(setup, s, Request(r, true)), n, run)
  {
    assert Carries(Apply(setup, s, Request(r, true)).replicas[r].work, n, run);
  }

  lemma LedgerProgress(setup: Setup, s: System, step: Step)
    requires Reliable(setup, s, step) && Started(s.bus) && NoneForgotten(s.bus)
    ensures Started(Apply(setup, s, step).bus) && NoneForgotten(Apply(setup, s, step).bus)
  {
    hide CreatedIn;
    hide NoneForgotten;
    hide JoinEvent;
    hide Publish;
    hide Acknowledge;
    var b, b' := s.bus, Apply(setup, s, step).bus;
    CreatedAfter(setup, s, step);
    match step {
      case StartRun(run, input) =>
        SameAcks(b, b.(runs := b.runs + {run}));
        PublishKeepsAcks(b.(runs := b.runs + {run}), StartEvent(setup, run, input));
      case Ack(k, out) =>
        var e := b.created[k];
        AckKeepsAcks(b, Completion(k, e.dim, e.part, e.run, [out]));
        SameRuns(b, Completion(k, e.dim, e.part, e.run, [out]));
      case Write(r, _) => PublishKeepsAcks(b, s.replicas[r].work.event);
      case _ => SameAcks(b, b');
    }
  }

  lemma SameRuns(b: Ledger, c: Completion)
    ensures Acknowledge(b, c).runs == b.runs
  {
  }

  lemma ReliableStepKeeps(setup: Setup, s: System, step: Step)
    requires Sound(setup.parts) && Progressing(setup, s) && Reliable(setup, s, step)
    ensures Progressing(setup, Apply(setup, s, step))
  {
    hide Sound;
    hide Invariant;
    hide GrantsUsed;
    hide NoJoinLost;
    hide Started;
    hide NoneForgotten;
    var s' := Apply(setup, s, step);
    hide Reliable;
    StepKeeps(setup, s, step);
    GrantsStayUsed(setup, s, step);
    LedgerProgress(setup, s, step);
    forall r | r in s'.replicas ensures NoJoinLost(setup, s', s'.replicas[r]) {
      if r in s.replicas && s'.replicas[r] == s.replicas[r] {
        OthersLoseNone(setup, s, step, r);
      } else {
        match step {
          case Consume(_) => ConsumeLosesNone(setup, s, r);
          case Request(_, want) => RequestLosesNone(setup, s, r, want);
          case Write(_, ok) => WriteKeeps(setup, s, r, ok);
          case Boot(_) => BootLosesNone(setup, s');
        }
      }
    }
  }

  lemma WriteKeeps(setup: Setup, s: System, r: nat, ok: bool)
    requires Progressing(setup, s) && Reliable(setup, s, Write(r, ok))
    ensures var s' := Apply(setup, s, Write(r, ok)); NoJoinLost(setup, s', s'.replicas[r])
  {
    hide Progressing;
    hide NoJoinLost;
    WriteLosesNone(setup, s, r);
  }

  lemma {:induction false} ReliableBehaviorKeeps(setup: Setup, states: seq<System>, steps: seq<Step>, k: nat)
    requires Sound(setup.parts) && ReliableBehavior(setup, states, steps) && k <= |steps|
    ensures Progressing(setup, states[k])
  {
    hide Progressing;
    hide Sound;
    hide Reliable;
    if k == 0 {
      NothingProgresses(setup);
    } else {
      ReliableBehaviorKeeps(setup, states, steps, k - 1);
      ReliableStepKeeps(setup, states[k - 1], steps[k - 1]);
    }
  }

  lemma NothingProgresses(setup: Setup)
    ensures Progressing(setup, INIT)
  {
  }

  // ----- what it comes to -----

  // Between completions: a part is created, or being written elsewhere, once the replica has
  // recorded all of its predecessors; it is never created before they have all completed. So for a
  // replica that has read everything the two are the same.
  lemma CreatedExactlyWhenReady(setup: Setup, s: System, r: nat, n: string, run: Run)
    requires Sound(setup.parts) && ReliablyReachable(setup, s) && r in s.replicas && AtRest(s.replicas[r].work)
    requires IsPart(setup.parts, n) && n != START && run in s.bus.runs && !Carried(s, n, run)
    ensures AllRecorded(setup, s.replicas[r], n, run) ==> CreatedIn(s.bus, n, run)
    ensures CreatedIn(s.bus, n, run) ==> forall p :: p in Prev(setup.parts, n) ==> CompletedIn(s.bus, p, run)
    ensures CaughtUp(s.bus, s.replicas[r]) ==>
              (CreatedIn(s.bus, n, run) <==> AllRecorded(setup, s.replicas[r], n, run))
  {
    hide Sound;
    hide AllRecorded;
    hide CompletedIn;
    var states, steps :| ReliableBehavior(setup, states, steps) && states[|steps|] == s;
    ReliableBehaviorKeeps(setup, states, steps, |steps|);
    hide Invariant;
    assert NoJoinLost(setup, s, s.replicas[r]);
    if CreatedIn(s.bus, n, run) {
      CreatedAfterCompleted(setup, s, n, run);
      if CaughtUp(s.bus, s.replicas[r]) {
        assert AllRecorded(setup, s.replicas[r], n, run) by { CompletedAllRecorded(setup, s, r, n, run); }
      }
    }
  }

  lemma CreatedAfterCompleted(setup: Setup, s: System, n: string, run: Run)
    requires Sound(setup.parts) && Invariant(setup, s) && CreatedIn(s.bus, n, run) && n != START
    ensures Prev(setup.parts, n) != [] && forall p :: p in Prev(setup.parts, n) ==> CompletedIn(s.bus, p, run)
  {
    hide Sound;
    hide Exclusive;
    hide ReplicaOk;
    var b := s.bus;
    var k :| 0 <= k < |b.created| && b.created[k].part == n && b.created[k].run == run;
    forall i | 0 <= i < |Prev(setup.parts, n)| ensures CompletedIn(b, Prev(setup.parts, n)[i], run) {
      assert OutputOf(b.completed, Prev(setup.parts, n)[i], run, b.created[k].data[i]);
    }
  }

  lemma CompletedAllRecorded(setup: Setup, s: System, r: nat, n: string, run: Run)
    requires Invariant(setup, s) && r in s.replicas && CaughtUp(s.bus, s.replicas[r]) && Prev(setup.parts, n) != []
    requires forall p :: p in Prev(setup.parts, n) ==> CompletedIn(s.bus, p, run)
    ensures AllRecorded(setup, s.replicas[r], n, run)
  {
    hide Invariant;
    hide CompletedIn;
    forall i | 0 <= i < |Prev(setup.parts, n)|
      ensures Prev(setup.parts, n)[i] in RunRecord(s.replicas[r].comp, run)
    {
      CompletedIsRecorded(setup, s, r, Prev(setup.parts, n)[i], run);
    }
  }

  // No replica forgets what it has recorded.
  predicate NoReboot(s: System, step: Step) {
    step.Boot? ==> step.rep !in s.replicas
  }

  ghost predicate RecordedSomewhere(setup: Setup, s: System, n: string, run: Run) {
    exists r :: r in s.replicas && AllRecorded(setup, s.replicas[r], n, run)
  }

  // Where no replica is rebooted, a part is created only once some replica has recorded all of its
  // predecessors; with a single replica, at rest, created exactly then.
  lemma {:induction false} CreatedOnceRecorded(setup: Setup, states: seq<System>, steps: seq<Step>, k: nat, n: string,
                                               run: Run)
    requires Sound(setup.parts) && ReliableBehavior(setup, states, steps) && k <= |steps| && n != START
    requires forall m {:trigger steps[m]} :: 0 <= m < |steps| ==> NoReboot(states[m], steps[m])
    ensures Handled(states[k], n, run) ==> RecordedSomewhere(setup, states[k], n, run)
  {
    hide Sound;
    hide Handled;
    hide RecordedSomewhere;
    hide Reliable;
    hide Apply;
    if k > 0 {
      CreatedOnceRecorded(setup, states, steps, k - 1, n, run);
      ReliableBehaviorKeeps(setup, states, steps, k - 1);
      assert Reliable(setup, states[k - 1], steps[k - 1]) && NoReboot(states[k - 1], steps[k - 1]);
      RecordedAfterStep(setup, states[k - 1], steps[k - 1], n, run);
    } else {
      assert !Handled(INIT, n, run) by { NothingHandled(n, run); }
    }
  }

  lemma NothingHandled(n: string, run: Run)
    ensures !Handled(INIT, n, run)
  {
  }

  lemma RecordedAfterStep(setup: Setup, s: System, step: Step, n: string, run: Run)
    requires Sound(setup.parts) && Invariant(setup, s) && Reliable(setup, s, step) && NoReboot(s, step) && n != START
    requires Handled(s, n, run) ==> RecordedSomewhere(setup, s, n, run)
    ensures var s' := Apply(setup, s, step);
      Handled(s', n, run) ==> RecordedSomewhere(setup, s', n, run)
  {
    hide Sound;
    hide AllRecorded;
    hide CreatedIn;
    hide LedgerOk;
    hide Exclusive;
    hide JoinEvent;
    var s' := Apply(setup, s, step);
    if Handled(s', n, run) && !Handled(s, n, run) {
      CreatedAfter(setup, s, step);
      assert step.Request?;
      var me := s.replicas[step.rep];
      assert ReplicaOk(setup, s.bus, me);
      assert me.work.rest[0] in me.work.rest;
      JoinMeansRecorded(setup, me, me.work.run, me.work.rest[0]);
      SameRecorded(setup, me, s'.replicas[step.rep]);
      assert AllRecorded(setup, s'.replicas[step.rep], n, run);
    } else if Handled(s, n, run) {
      var r :| r in s.replicas && AllRecorded(setup, s.replicas[r], n, run);
      RecordsStay(setup, s, step, r, n, run);
    }
  }

  lemma RecordsStay(setup: Setup, s: System, step: Step, r: nat, n: string, run: Run)
    requires Sound(setup.parts) && Reliable(setup, s, step) && NoReboot(s, step) && r in s.replicas
    requires AllRecorded(setup, s.replicas[r], n, run)
    ensures r in Apply(setup, s, step).replicas && AllRecorded(setup, Apply(setup, s, step).replicas[r], n, run)
  {
    hide Sound;
    hide AllRecorded;
    hide JoinEvent;
    if step.Consume? && step.rep == r {
      RecordingOne(setup, s.replicas[r], s.bus.completed[s.replicas[r].cursor], n, run);
    } else {
      SameRecorded(setup, s.replicas[r], Apply(setup, s, step).replicas[r]);
    }
  }

  lemma {:induction false} QuiescentCompletes(setup: Setup, s: System, r: nat, n: string, run: Run)
    requires Sound(setup.parts) && Progressing(setup, s) && Quiescent(s)
    requires r in s.replicas && CaughtUp(s.bus, s.replicas[r])
    requires run in s.bus.runs && IsPart(setup.parts, n) && (n != END || Prev(setup.parts, END) != [])
    ensures CompletedIn(s.bus, n, run)
    decreases Ancestors(GraphOf(setup.parts), n)
  {
    hide Sound;
    hide Invariant;
    hide CompletedIn;
    hide CreatedIn;
    hide NoneForgotten;
    hide GrantsUsed;
    if n != START {
      HasPrev(setup.parts, n);
      forall p | p in Prev(setup.parts, n) ensures CompletedIn(s.bus, p, run) {
        PrevFacts(setup.parts, p, n);
        AncestorsShrink(GraphOf(setup.parts), p, n);
        QuiescentCompletes(setup, s, r, p, run);
      }
      CompletedAllRecorded(setup, s, r, n, run);
      assert NoJoinLost(setup, s, s.replicas[r]);
    }
    assert CreatedIn(s.bus, n, run);
    CreatedIsCompleted(setup, s, n, run);
  }

  lemma CompletedIsRecorded(setup: Setup, s: System, r: nat, p: string, run: Run)
    requires Invariant(setup, s) && r in s.replicas && CaughtUp(s.bus, s.replicas[r]) && CompletedIn(s.bus, p, run)
    ensures p in RunRecord(s.replicas[r].comp, run)
  {
    hide RightPayload;
    hide JournalOk;
    hide Exclusive;
    hide WorkOk;
    var cs := s.bus.completed;
    assert ReplicaOk(setup, s.bus, s.replicas[r]);
    assert cs[..|cs|] == cs;
    RecordedMeans(cs, run, p);
  }

  lemma CreatedIsCompleted(setup: Setup, s: System, n: string, run: Run)
    requires Progressing(setup, s) && s.bus.pending == {} && CreatedIn(s.bus, n, run)
    ensures CompletedIn(s.bus, n, run)
  {
    hide RightPayload;
    hide NoJoinLost;
    hide GrantsUsed;
    hide ReplicaOk;
    hide Exclusive;
    var b := s.bus;
    var k: nat :| k < |b.created| && b.created[k].part == n && b.created[k].run == run;
    assert AckedAt(b, k);
    var j :| 0 <= j < |b.completed| && b.completed[j].src == k;
    assert b.completed[j].part == n && b.completed[j].run == run;
  }

  // No deadlock: when nothing is pending or being written, and some replica has handled every
  // completion, every part of every started run has completed (E too, when anything links to it),
  // and exactly once.
  lemma QuiescentMeansDone(setup: Setup, s: System)
    requires Sound(setup.parts) && ReliablyReachable(setup, s) && Quiescent(s)
    ensures forall n, run :: run in s.bus.runs && IsPart(setup.parts, n) && (n != END || Prev(setup.parts, END) != [])
              ==> CompletedIn(s.bus, n, run)
    ensures forall i, j :: 0 <= i < j < |s.bus.completed| ==>
              s.bus.completed[i].part != s.bus.completed[j].part || s.bus.completed[i].run != s.bus.completed[j].run
  {
    hide Sound;
    hide CompletedIn;
    hide GrantsUsed;
    hide NoJoinLost;
    var states, steps :| ReliableBehavior(setup, states, steps) && states[|steps|] == s;
    ReliableBehaviorKeeps(setup, states, steps, |steps|);
    var r :| r in s.replicas && CaughtUp(s.bus, s.replicas[r]);
    forall n, run | run in s.bus.runs && IsPart(setup.parts, n) && (n != END || Prev(setup.parts, END) != [])
      ensures CompletedIn(s.bus, n, run)
    {
      QuiescentCompletes(setup, s, r, n, run);
    }
    forall i, j | 0 <= i < j < |s.bus.completed|
      ensures s.bus.completed[i].part != s.bus.completed[j].part || s.bus.completed[i].run != s.bus.completed[j].run
    {
      if s.bus.completed[i].part == s.bus.completed[j].part && s.bus.completed[i].run == s.bus.completed[j].run {
        CompletesOnce(setup, s.bus, i, j);
      }
    }
  }

  // ----- how long it takes -----

  // What is left to do for one replica: each event still to come costs its write, its
  // acknowledgement, its recording and two steps for each link.
  function Cost(k: nat, uncreated: int, pending: int, unread: int, w: int): int {
    uncreated * (2 * k + 3) + pending * (2 * k + 2) + unread * (2 * k + 1) + w
  }

  lemma CostMoves(k: nat, u: int, p: int, r: int, w: int, w': int)
    ensures Cost(k, u, p - 1, r + 1, w) == Cost(k, u, p, r, w) - 1
    ensures Cost(k, u, p, r - 1, w') == Cost(k, u, p, r, w) - (2 * k + 1) + (w' - w)
    ensures Cost(k, u, p, r, w') == Cost(k, u, p, r, w) + (w' - w)
    ensures Cost(k, u - 1, p + 1, r, w) == Cost(k, u, p, r, w) - 1
  {
  }

  lemma CostIsNat(k: nat, u: nat, p: nat, r: nat, w: nat)
    ensures Cost(k, u, p, r, w) >= 0
  {
    assert u * (2 * k + 3) >= 0 && p * (2 * k + 2) >= 0 && r * (2 * k + 1) >= 0;
  }

  function LinkWork(w: Work): nat {
    match w
    case Idle => 0
    case Joining(_, rest) => 2 * |rest|
    case Writing(_, rest) => 2 * |rest| + 1
  }

  function Remaining(setup: Setup, b: Ledger, me: Replica): int {
    Cost(|setup.parts|, |setup.parts| * |b.runs| - |b.created|, |b.pending|, |b.completed| - me.cursor,
         LinkWork(me.work))
  }

  function RemainingFor(setup: Setup, b: Ledger): Replica -> int {
    (me: Replica) => Remaining(setup, b, me)
  }

  // The writes and acknowledgements that are left.
  function EventsLeft(setup: Setup, b: Ledger): int {
    2 * (|setup.parts| * |b.runs| - |b.created|) + |b.pending|
  }

  // What is left to do for all replicas.
  ghost function WorkLeft(setup: Setup, s: System): int {
    EventsLeft(setup, s.bus) + Total(s.replicas, RemainingFor(setup, s.bus))
  }

  lemma WorkIsNat(setup: Setup, s: System)
    requires Progressing(setup, s)
    ensures WorkLeft(setup, s) >= 0
  {
    hide JournalOk;
    hide Cost;
    hide NoJoinLost;
    hide GrantsUsed;
    CreatedFits(setup, s.bus);
    forall r | r in s.replicas ensures RemainingFor(setup, s.bus)(s.replicas[r]) >= 0 {
      assert ReplicaOk(setup, s.bus, s.replicas[r]);
      CostIsNat(|setup.parts|, |setup.parts| * |s.bus.runs| - |s.bus.created|, |s.bus.pending|,
                |s.bus.completed| - s.replicas[r].cursor, LinkWork(s.replicas[r].work));
    }
    TotalIsNat(s.replicas, RemainingFor(setup, s.bus));
  }

  // Events are created, then pending, then completed, one at a time.
  lemma EventsMove(setup: Setup, s: System, step: Step)
    requires Acked(s.bus) && Reliable(setup, s, step) && !step.StartRun?
    ensures var b, b' := s.bus, Apply(setup, s, step).bus;
      && b'.runs == b.runs
      && |b'.created| == |b.created| + (if step.Write? then 1 else 0)
      && |b'.pending| == |b.pending| + (if step.Write? then 1 else if step.Ack? then -1 else 0)
      && |b'.completed| == |b.completed| + (if step.Ack? then 1 else 0)
  {
    hide Acked;
    hide JoinEvent;
    match step {
      case Write(r, _) => PendingGrows(s.bus, s.replicas[r].work.event);
      case Ack(k, _) => assert |s.bus.pending - {k}| == |s.bus.pending| - 1;
      case _ =>
    }
  }

  // No replica has more to do after the step of another.
  lemma OthersKeepWork(setup: Setup, s: System, step: Step, me: Replica)
    requires Acked(s.bus) && Reliable(setup, s, step) && !step.StartRun?
    ensures Remaining(setup, Apply(setup, s, step).bus, me) <= Remaining(setup, s.bus, me)
  {
    hide Acked;
    hide Cost;
    hide Apply;
    EventsMove(setup, s, step);
    var k, b := |setup.parts|, s.bus;
    var u, p, r, w := k * |b.runs| - |b.created|, |b.pending|, |b.completed| - me.cursor, LinkWork(me.work);
    CostMoves(k, u, p, r, w, w);
  }

  // The replica that takes the step has less.
  lemma OwnStepTakes(setup: Setup, s: System, step: Step)
    requires Sound(setup.parts) && Acked(s.bus) && Reliable(setup, s, step)
    requires step.Consume? || step.Request? || step.Write?
    ensures var s' := Apply(setup, s, step);
      Remaining(setup, s'.bus, s'.replicas[step.rep]) < Remaining(setup, s.bus, s.replicas[step.rep])
  {
    hide Sound;
    hide Acked;
    hide Cost;
    hide JoinEvent;
    hide Put;
    EventsMove(setup, s, step);
    var k, b, me, s' := |setup.parts|, s.bus, s.replicas[step.rep], Apply(setup, s, step);
    var u, p, r, w := k * |b.runs| - |b.created|, |b.pending|, |b.completed| - me.cursor, LinkWork(me.work);
    CostMoves(k, u, p, r, w, LinkWork(s'.replicas[step.rep].work));
    match step {
      case Consume(_) => NextFits(setup.parts, b.completed[me.cursor].part);
      case Write(_, _) => CostMoves(k, u - 1, p + 1, r, w, LinkWork(s'.replicas[step.rep].work));
      case _ =>
    }
  }

  lemma StepTakesWork(setup: Setup, s: System, step: Step)
    requires Sound(setup.parts) && Progressing(setup, s) && Reliable(setup, s, step) && !step.StartRun? && !step.Boot?
    ensures WorkLeft(setup, Apply(setup, s, step)) < WorkLeft(setup, s)
  {
    hide Sound;
    hide Progressing;
    hide Remaining;
    hide Total;
    var s' := Apply(setup, s, step);
    hide Reliable;
    assert Acked(s.bus) by { ProgressIsAcked(setup, s); }
    EventsMove(setup, s, step);
    forall me: Replica ensures RemainingFor(setup, s'.bus)(me) <= RemainingFor(setup, s.bus)(me) {
      OthersKeepWork(setup, s, step, me);
    }
    if step.Ack? {
      TotalAtMost(s.replicas, RemainingFor(setup, s'.bus), RemainingFor(setup, s.bus));
    } else {
      OwnStepTakes(setup, s, step);
      OneMoves(setup, s, step);
      TotalFalls(s.replicas, RemainingFor(setup, s.bus), step.rep, s'.replicas[step.rep], RemainingFor(setup, s'.bus));
    }
  }

  lemma ProgressIsAcked(setup: Setup, s: System)
    requires Progressing(setup, s)
    ensures Acked(s.bus)
  {
    hide RightPayload;
    hide NoJoinLost;
    hide GrantsUsed;
    hide ReplicaOk;
  }

  lemma OneMoves(setup: Setup, s: System, step: Step)
    requires Enabled(setup, s, step) && (step.Consume? || step.Request? || step.Write?)
    ensures var s' := Apply(setup, s, step);
      && step.rep in s.replicas && step.rep in s'.replicas
      && s'.replicas == s.replicas[step.rep := s'.replicas[step.rep]]
  {
    hide JoinEvent;
  }

  lemma SomeStepIsEnabled(setup: Setup, s: System) returns (step: Step)
    requires Progressing(setup, s) && s.replicas != map[] && !Quiescent(s)
    ensures Reliable(setup, s, step) && !step.StartRun? && !step.Boot?
  {
    hide NoJoinLost;
    hide GrantsUsed;
    hide LedgerOk;
    hide ReplicaOk;
    hide Exclusive;
    hide CaughtUp;
    hide Reliable;
    var b := s.bus;
    if k :| k in b.pending {
      step := Ack(k, Data(TypeOf(setup, if k < |b.created| then b.created[k].part else ""), ""));
      assert Acked(b) by { ProgressIsAcked(setup, s); }
      AckIsReliable(setup, s, k);
    } else {
      var r :| r in s.replicas && (s.replicas[r].work.Writing? || !CaughtUp(b, s.replicas[r]));
      assert s.replicas[r].cursor <= |b.completed| by { CursorFits(setup, s, r); }
      step := LoopStep(setup, s, r);
    }
  }

  lemma AckIsReliable(setup: Setup, s: System, k: nat)
    requires Acked(s.bus) && k in s.bus.pending
    ensures k < |s.bus.created| && Reliable(setup, s, Ack(k, Data(TypeOf(setup, s.bus.created[k].part), "")))
  {
  }

  lemma CursorFits(setup: Setup, s: System, r: nat)
    requires Invariant(setup, s) && r in s.replicas
    ensures s.replicas[r].cursor <= |s.bus.completed|
  {
    hide LedgerOk;
    hide Exclusive;
    assert ReplicaOk(setup, s.bus, s.replicas[r]);
  }

  lemma LoopStep(setup: Setup, s: System, r: nat) returns (step: Step)
    requires r in s.replicas && (s.replicas[r].work.Writing? || !CaughtUp(s.bus, s.replicas[r]))
    requires s.replicas[r].cursor <= |s.bus.completed|
    ensures Reliable(setup, s, step) && !step.StartRun? && !step.Boot?
  {
    var me := s.replicas[r];
    step := if me.work.Writing? then Write(r, true)
            else if !AtRest(me.work) then Request(r, ConsId(me.work.rest[0], me.work.run) !in s.bus.granted)
            else Consume(r);
  }

  // Every run finishes: without new runs and boots a reliable behavior takes no more steps than the
  // work that was left, and it can only stop where everything is done.
  lemma {:induction false} RunsFinish(setup: Setup, states: seq<System>, steps: seq<Step>, i: nat)
    requires Sound(setup.parts) && ReliableBehavior(setup, states, steps) && i <= |steps|
    requires forall k :: i <= k < |steps| ==> !steps[k].StartRun? && !steps[k].Boot?
    ensures |steps| - i <= WorkLeft(setup, states[i]) - WorkLeft(setup, states[|steps|])
    ensures WorkLeft(setup, states[|steps|]) >= 0
    ensures states[|steps|].replicas != map[]
            && (forall step: Step :: Reliable(setup, states[|steps|], step) ==> step.StartRun? || step.Boot?) ==>
              Quiescent(states[|steps|])
    decreases |steps| - i
  {
    hide Progressing;
    hide Reliable;
    hide Enabled;
    hide Apply;
    hide Quiescent;
    hide WorkLeft;
    ReliableBehaviorKeeps(setup, states, steps, i);
    if i < |steps| {
      StepTakesWork(setup, states[i], steps[i]);
      RunsFinish(setup, states, steps, i + 1);
    } else {
      WorkIsNat(setup, states[i]);
      if states[i].replicas != map[] && !Quiescent(states[i]) {
        var step := SomeStepIsEnabled(setup, states[i]);
      }
    }
  }
}
