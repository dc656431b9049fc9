// The plain reader as a protocol: any number of replicas read one completion log at their own
// speed, record what they read, and race to write the parts that have become ready.
module Reader {
  import opened Options
  import opened Story
  import opened Plan
  import opened Bus
  import opened Journal

  // Where a replica's loop stands: between completions, going through the links of the part it
  // has just recorded, or about to write an event that was granted to it.
  datatype Work = Idle | Joining(run: Run, rest: seq<string>) | Writing(event: Event, rest: seq<string>)

  type Record = map<string, seq<Data>>

  datatype Replica = Replica(cursor: nat, comp: map<Run, Record>, work: Work)

  const FRESH := Replica(0, map[], Idle)

  datatype System = System(bus: Ledger, replicas: map<nat, Replica>)

  datatype Step =
    | StartRun(run: Run, input: string)     // reader.New
    | Ack(event: nat, out: Data)            // Read: a worker executed the part and acknowledged
    | Consume(rep: nat)                     // the loop takes and records the next completion
    | Request(rep: nat, want: bool)         // the loop checks the next link and asks for it
    | Write(rep: nat, ok: bool)             // the granted event is written, or the write fails
    | Boot(rep: nat)                        // a replica joins, or comes back with nothing recorded

  function RunRecord(comp: map<Run, Record>, run: Run): Record {
    if run in comp then comp[run] else map[]
  }

  predicate HasAll(record: Record, prev: seq<string>) {
    forall i :: 0 <= i < |prev| ==> prev[i] in record
  }

  // The parameters of a part: the recorded outputs of its predecessors, in their order. A
  // recorded completion always holds one output (see Answers).
  function Payload(record: Record, prev: seq<string>): (td: seq<Data>)
    requires HasAll(record, prev)
    ensures |td| == |prev|
  {
    seq(|prev|, i requires 0 <= i < |prev| => if record[prev[i]] == [] then Data("", "") else record[prev[i]][0])
  }

  function Put(comp: map<Run, Record>, c: Completion): map<Run, Record> {
    comp[c.run := RunRecord(comp, c.run)[c.part := c.data]]
  }

  // What a replica has recorded after reading these completions.
  function Recorded(cs: seq<Completion>): map<Run, Record> {
    if cs == [] then map[] else Put(Recorded(cs[..|cs| - 1]), cs[|cs| - 1])
  }

  function StartEvent(setup: Setup, run: Run, input: string): Event {
    Event("", START, run, [Data(StartType(setup), input)])
  }

  // The outcome of one join check: skip the link, or go for the event.
  function JoinEvent(setup: Setup, comp: map<Run, Record>, run: Run, n: string): Option<Event> {
    var prev := Prev(setup.parts, n);
    var record := RunRecord(comp, run);
    if HasAll(record, prev) then Some(Event("", n, run, Payload(record, prev))) else None
  }

  predicate AtRest(w: Work) {
    w.Idle? || (w.Joining? && w.rest == [])
  }

  predicate Enabled(setup: Setup, s: System, step: Step) {
    match step
    case StartRun(run, _) => run !in s.bus.runs
    case Ack(k, out) => k in s.bus.pending && k < |s.bus.created| && out.typ == TypeOf(setup, s.bus.created[k].part)
    case Consume(r) => r in s.replicas && AtRest(s.replicas[r].work) && s.replicas[r].cursor < |s.bus.completed|
    case Request(r, want) =>
      && r in s.replicas && s.replicas[r].work.Joining? && s.replicas[r].work.rest != []
      && (want ==> ConsId(s.replicas[r].work.rest[0], s.replicas[r].work.run) !in s.bus.granted)
    case Write(r, _) => r in s.replicas && s.replicas[r].work.Writing?
    case Boot(_) => true
  }

  function Apply(setup: Setup, s: System, step: Step): System
    requires Enabled(setup, s, step)
  {
    match step
    case StartRun(run, input) =>
      s.(bus := Publish(s.bus.(runs := s.bus.runs + {run}), StartEvent(setup, run, input)))
    case Ack(k, out) =>
      var e := s.bus.created[k];
      s.(bus := Acknowledge(s.bus, Completion(k, e.dim, e.part, e.run, [out])))
    case Consume(r) =>
      var me := s.replicas[r];
      var c := s.bus.completed[me.cursor];
      s.(replicas := s.replicas[r := Replica(me.cursor + 1, Put(me.comp, c),
                                             Joining(c.run, Next(setup.parts, c.part)))])
    case Request(r, want) =>
      var me := s.replicas[r];
      var run, n, rest := me.work.run, me.work.rest[0], me.work.rest[1..];
      var e := JoinEvent(setup, me.comp, run, n);
      if e.Some? && want then
        System(Grant(s.bus, ConsId(n, run)), s.replicas[r := me.(work := Writing(e.value, rest))])
      else
        s.(replicas := s.replicas[r := me.(work := Joining(run, rest))])
    case Write(r, ok) =>
      var me := s.replicas[r];
      var next := s.replicas[r := me.(work := Joining(me.work.event.run, me.work.rest))];
      if ok then System(Publish(s.bus, me.work.event), next) else s.(replicas := next)
    case Boot(r) =>
      s.(replicas := s.replicas[r := FRESH])
  }

  const INIT := System(EMPTY, map[])

  ghost predicate Behavior(setup: Setup, states: seq<System>, steps: seq<Step>) {
    && |states| == |steps| + 1
    && (forall k {:trigger steps[k]} :: 0 <= k < |steps| ==>
      Enabled(setup, states[k], steps[k]) && states[k + 1] == Apply(setup, states[k], steps[k]))
  }

  ghost predicate Reachable(setup: Setup, s: System) {
    exists states, steps {:trigger Behavior(setup, states, steps)} :: Behavior(setup, states, steps)
      && states[0] == INIT && states[|steps|] == s
  }

  // ----- safety -----

  ghost predicate WorkOk(setup: Setup, b: Ledger, w: Work) {
    match w
    case Idle => true
    case Joining(run, rest) => run in b.runs && Targets(setup.parts, rest)
    case Writing(e, rest) => Held(b, e.part, e.run) && Targets(setup.parts, [e.part])
                             && RightPayload(setup.parts, b.completed, e) && Targets(setup.parts, rest)
  }

  // Links lead to parts with predecessors, never to S.
  ghost predicate ReplicaOk(setup: Setup, b: Ledger, me: Replica) {
    && me.cursor <= |b.completed|
    && me.comp == Recorded(b.completed[..me.cursor])
    && WorkOk(setup, b, me.work)
  }

  // No two replicas hold the same part of the same run.
  ghost predicate Apart(w1: Work, w2: Work) {
    w1.Writing? && w2.Writing? ==> w1.event.part != w2.event.part || w1.event.run != w2.event.run
  }

  ghost predicate Exclusive(replicas: map<nat, Replica>) {
    forall r1, r2 :: r1 in replicas && r2 in replicas && r1 != r2 ==> Apart(replicas[r1].work, replicas[r2].work)
  }

  // The plain reader acknowledges with outputs only.
  ghost predicate LedgerOk(setup: Setup, b: Ledger) {
    JournalOk(setup, b) && forall j :: 0 <= j < |b.completed| ==> b.completed[j].run in b.runs
  }

  ghost predicate Invariant(setup: Setup, s: System) {
    && LedgerOk(setup, s.bus)
    && (forall r :: r in s.replicas ==> ReplicaOk(setup, s.bus, s.replicas[r]))
    && Exclusive(s.replicas)
  }

  lemma {:induction false} RecordedMeans(cs: seq<Completion>, run: Run, part: string)
    ensures part in RunRecord(Recorded(cs), run) <==>
            exists j :: 0 <= j < |cs| && cs[j].part == part && cs[j].run == run
    ensures part in RunRecord(Recorded(cs), run) ==>
            exists j :: 0 <= j < |cs| && cs[j].part == part && cs[j].run == run
              && cs[j].data == RunRecord(Recorded(cs), run)[part]
    decreases |cs|
  {
    if cs != [] {
      var n := |cs| - 1;
      RecordedMeans(cs[..n], run, part);
      assert forall j :: 0 <= j < n ==> cs[..n][j] == cs[j];
    }
  }

  lemma JoinIsRight(setup: Setup, b: Ledger, me: Replica, run: Run, n: string)
    requires LedgerOk(setup, b) && ReplicaOk(setup, b, me) && run in b.runs
    requires JoinEvent(setup, me.comp, run, n).Some?
    ensures RightPayload(setup.parts, b.completed, JoinEvent(setup, me.comp, run, n).value)
  {
    hide LedgerOk;
    var e := JoinEvent(setup, me.comp, run, n).value;
    var cs := b.completed[..me.cursor];
    forall i | 0 <= i < |e.data| ensures OutputOf(b.completed, Prev(setup.parts, n)[i], run, e.data[i]) {
      RecordedMeans(cs, run, Prev(setup.parts, n)[i]);
      var j :| 0 <= j < |cs| && cs[j].part == Prev(setup.parts, n)[i] && cs[j].run == run
               && cs[j].data == RunRecord(Recorded(cs), run)[Prev(setup.parts, n)[i]];
      assert b.completed[j] == cs[j];
      assert |b.completed[j].data| == 1 by { OneOutput(setup, b, j); }
    }
  }

  lemma OneOutput(setup: Setup, b: Ledger, j: nat)
    requires LedgerOk(setup, b) && j < |b.completed| && b.completed[j].run in b.runs
    ensures |b.completed[j].data| == 1
  {
  }

  // A new run and its start event change nothing for a replica that works on older runs.
  lemma StartLeavesReplica(setup: Setup, b: Ledger, me: Replica, run: Run, e: Event)
    requires ReplicaOk(setup, b, me) && e.part == START && run == e.run
    ensures ReplicaOk(setup, Publish(b.(runs := b.runs + {run}), e), me)
  {
    hide RightPayload;
    hide Recorded;
  }

  lemma StartKeeps(setup: Setup, s: System, run: Run, input: string)
    requires IsPart(setup.parts, START) && Invariant(setup, s) && run !in s.bus.runs
    ensures Invariant(setup, Apply(setup, s, StartRun(run, input)))
  {
    hide RightPayload;
    hide ReplicaOk;
    hide IsPart;
    var e := StartEvent(setup, run, input);
    PublishStart(s.bus, e);
    forall r | r in s.replicas
      ensures ReplicaOk(setup, Publish(s.bus.(runs := s.bus.runs + {run}), e), s.replicas[r])
    {
      StartLeavesReplica(setup, s.bus, s.replicas[r], run, e);
    }
  }

  lemma AckKeeps(setup: Setup, s: System, k: nat, out: Data)
    requires Invariant(setup, s) && Enabled(setup, s, Ack(k, out))
    ensures Invariant(setup, Apply(setup, s, Ack(k, out)))
  {
    hide RightPayload;
    var b, b' := s.bus, Apply(setup, s, Ack(k, out)).bus;
    forall l | 0 <= l < |b.created| && b.created[l].part != START
      ensures RightPayload(setup.parts, b'.completed, b.created[l])
    {
      PayloadStays(setup.parts, b.completed, b'.completed[|b.completed|..], b.created[l]);
      assert b'.completed == b.completed + b'.completed[|b.completed|..];
    }
    forall r | r in s.replicas ensures ReplicaOk(setup, b', s.replicas[r]) {
      var me := s.replicas[r];
      assert b'.completed[..me.cursor] == b.completed[..me.cursor];
      if me.work.Writing? {
        PayloadStays(setup.parts, b.completed, b'.completed[|b.completed|..], me.work.event);
        assert b'.completed == b.completed + b'.completed[|b.completed|..];
      }
    }
  }

  lemma ConsumeKeeps(setup: Setup, s: System, r: nat)
    requires Sound(setup.parts) && Invariant(setup, s) && Enabled(setup, s, Consume(r))
    ensures Invariant(setup, Apply(setup, s, Consume(r)))
  {
    hide RightPayload;
    hide Recorded;
    var me, b := s.replicas[r], s.bus;
    assert ReplicaOk(setup, b, me);
    var c := b.completed[me.cursor];
    RecordedNext(b.completed, me.cursor);
    NextAreTargets(setup.parts, c.part);
    var me' := Apply(setup, s, Consume(r)).replicas[r];
    assert ReplicaOk(setup, b, me');
  }

  lemma RecordedNext(cs: seq<Completion>, n: nat)
    requires n < |cs|
    ensures Recorded(cs[..n + 1]) == Put(Recorded(cs[..n]), cs[n])
  {
    assert cs[..n + 1][..n] == cs[..n];
  }

  lemma RequestKeeps(setup: Setup, s: System, r: nat, want: bool)
    requires Invariant(setup, s) && Enabled(setup, s, Request(r, want))
    ensures Invariant(setup, Apply(setup, s, Request(r, want)))
  {
    hide RightPayload;
    hide Recorded;
    hide Held;
    hide JoinEvent;
    var me, b := s.replicas[r], s.bus;
    assert ReplicaOk(setup, b, me);
    var run, n := me.work.run, me.work.rest[0];
    assert n in me.work.rest && forall m :: m in me.work.rest[1..] ==> m in me.work.rest;
    var s' := Apply(setup, s, Request(r, want));
    var e := JoinEvent(setup, me.comp, run, n);
    if e.Some? && want {
      JoinIsRight(setup, b, me, run, n);
      assert e.value.part == n && e.value.run == run by { JoinNames(setup, me.comp, run, n); }
      GrantHolds(b, n, run);
      forall q | q in s.replicas && q != r ensures ReplicaOk(setup, s'.bus, s.replicas[q]) {
        assert ReplicaOk(setup, b, s.replicas[q]);
      }
      assert ReplicaOk(setup, s'.bus, s'.replicas[r]);
      forall q | q in s.replicas && q != r && s.replicas[q].work.Writing?
        ensures s.replicas[q].work.event.part != n || s.replicas[q].work.event.run != run
      {
        assert ReplicaOk(setup, b, s.replicas[q]);
      }
    } else {
      assert ReplicaOk(setup, b, s'.replicas[r]);
    }
  }

  lemma JoinNames(setup: Setup, comp: map<Run, Record>, run: Run, n: string)
    requires JoinEvent(setup, comp, run, n).Some?
    ensures JoinEvent(setup, comp, run, n).value.part == n && JoinEvent(setup, comp, run, n).value.run == run
  {
  }

  lemma WriteKeeps(setup: Setup, s: System, r: nat, ok: bool)
    requires Invariant(setup, s) && Enabled(setup, s, Write(r, ok))
    ensures Invariant(setup, Apply(setup, s, Write(r, ok)))
  {
    hide RightPayload;
    hide Recorded;
    var me, b := s.replicas[r], s.bus;
    assert ReplicaOk(setup, b, me);
    var e := me.work.event;
    var s' := Apply(setup, s, Write(r, ok));
    if ok {
      PublishHeld(b, e);
      forall q | q in s.replicas && q != r ensures ReplicaOk(setup, s'.bus, s.replicas[q]) {
        assert ReplicaOk(setup, b, s.replicas[q]);
        if s.replicas[q].work.Writing? {
          OthersStayHeld(b, e, s.replicas[q].work.event.part, s.replicas[q].work.event.run);
        }
      }
    }
    assert ReplicaOk(setup, s'.bus, s'.replicas[r]);
  }

  lemma BootKeeps(setup: Setup, s: System, r: nat)
    requires Invariant(setup, s)
    ensures Invariant(setup, Apply(setup, s, Boot(r)))
  {
    assert s.bus.completed[..0] == [];
    assert ReplicaOk(setup, s.bus, FRESH);
  }

  lemma StepKeeps(setup: Setup, s: System, step: Step)
    requires Sound(setup.parts) && Invariant(setup, s) && Enabled(setup, s, step)
    ensures Invariant(setup, Apply(setup, s, step))
  {
    hide Invariant;
    hide Sound;
    hide Apply;
    match step
    case StartRun(run, input) =>
      SoundStart(setup.parts);
      StartKeeps(setup, s, run, input);
    case Ack(k, out) => AckKeeps(setup, s, k, out);
    case Consume(r) => ConsumeKeeps(setup, s, r);
    case Request(r, want) => RequestKeeps(setup, s, r, want);
    case Write(r, ok) => WriteKeeps(setup, s, r, ok);
    case Boot(r) => BootKeeps(setup, s, r);
  }

  lemma {:induction false} BehaviorKeeps(setup: Setup, states: seq<System>, steps: seq<Step>, k: nat)
    requires Sound(setup.parts) && Behavior(setup, states, steps) && Invariant(setup, states[0]) && k <= |steps|
    ensures Invariant(setup, states[k])
  {
    hide Invariant;
    if k > 0 {
      BehaviorKeeps(setup, states, steps, k - 1);
      StepKeeps(setup, states[k - 1], steps[k - 1]);
    }
  }

  lemma ReachableInvariant(setup: Setup, s: System)
    requires Sound(setup.parts) && Reachable(setup, s)
    ensures Invariant(setup, s)
  {
    var states, steps :| Behavior(setup, states, steps) && states[0] == INIT && states[|steps|] == s;
    assert Invariant(setup, INIT);
    BehaviorKeeps(setup, states, steps, |steps|);
  }
}
