// The plain reader as code: a start, a turn of Read, and each pass of the loop over a completion
// are sequences of protocol steps, so whatever holds of all reachable states holds before and
// after them.
module ReaderLoop {
  import opened Options
  import opened Story
  import opened Acceptance
  import opened Plan
  import opened Bus
  import opened Journal
  import opened Reader
  import opened Topics

  // From s the steps lead to s', one enabled step after the other.
  ghost predicate Leads(setup: Setup, s: System, steps: seq<Step>, s': System)
    decreases |steps|
  {
    if steps == [] then s == s'
    else Enabled(setup, s, steps[0]) && Leads(setup, Apply(setup, s, steps[0]), steps[1..], s')
  }

  lemma {:induction false} LeadsOn(setup: Setup, s: System, steps: seq<Step>, s': System, step: Step)
    requires Leads(setup, s, steps, s') && Enabled(setup, s', step)
    ensures Leads(setup, s, steps + [step], Apply(setup, s', step))
    decreases |steps|
  {
    hide Enabled;
    hide Apply;
    if steps == [] {
      assert [] + [step] == [step];
    } else {
      assert (steps + [step])[1..] == steps[1..] + [step];
      LeadsOn(setup, Apply(setup, s, steps[0]), steps[1..], s', step);
    }
  }

  // Steps from a reachable state stay among the reachable states.
  lemma {:induction false} LeadsReaches(setup: Setup, s: System, steps: seq<Step>, s': System)
    requires Reachable(setup, s) && Leads(setup, s, steps, s')
    ensures Reachable(setup, s')
    decreases |steps|
  {
    if steps != [] {
      var states, path :| Behavior(setup, states, path) && states[0] == INIT && states[|path|] == s;
      var next := Apply(setup, s, steps[0]);
      assert Behavior(setup, states + [next], path + [steps[0]]);
      assert (states + [next])[|path + [steps[0]]|] == next;
      LeadsReaches(setup, next, steps[1..], s');
    }
  }

  // A system of one replica, and what its steps do to it.
  function One(bus: Ledger, me: Replica): System {
    System(bus, map[0 := me])
  }

  lemma OneUpdates(bus: Ledger, me: Replica, bus': Ledger, me': Replica)
    ensures System(bus', One(bus, me).replicas[0 := me']) == One(bus', me')
  {
  }

  lemma ConsumeStep(setup: Setup, bus: Ledger, me: Replica)
    requires AtRest(me.work) && me.cursor < |bus.completed|
    ensures Enabled(setup, One(bus, me), Consume(0))
    ensures var c := bus.completed[me.cursor];
      Apply(setup, One(bus, me), Consume(0)) ==
      One(bus, Replica(me.cursor + 1, Put(me.comp, c), Joining(c.run, Next(setup.parts, c.part))))
  {
    var c := bus.completed[me.cursor];
    OneUpdates(bus, me, bus, Replica(me.cursor + 1, Put(me.comp, c), Joining(c.run, Next(setup.parts, c.part))));
  }

  lemma SkipStep(setup: Setup, bus: Ledger, me: Replica)
    requires me.work.Joining? && me.work.rest != []
    ensures Enabled(setup, One(bus, me), Request(0, false))
    ensures Apply(setup, One(bus, me), Request(0, false)) ==
      One(bus, me.(work := Joining(me.work.run, me.work.rest[1..])))
  {
    OneUpdates(bus, me, bus, me.(work := Joining(me.work.run, me.work.rest[1..])));
  }

  lemma GrantStep(setup: Setup, bus: Ledger, me: Replica)
    requires me.work.Joining? && me.work.rest != [] && ConsId(me.work.rest[0], me.work.run) !in bus.granted
    requires JoinEvent(setup, me.comp, me.work.run, me.work.rest[0]).Some?
    ensures Enabled(setup, One(bus, me), Request(0, true))
    ensures var e := JoinEvent(setup, me.comp, me.work.run, me.work.rest[0]).value;
      Apply(setup, One(bus, me), Request(0, true)) ==
        One(Grant(bus, ConsId(me.work.rest[0], me.work.run)), me.(work := Writing(e, me.work.rest[1..])))
  {
    var e := JoinEvent(setup, me.comp, me.work.run, me.work.rest[0]).value;
    OneUpdates(bus, me, Grant(bus, ConsId(me.work.rest[0], me.work.run)), me.(work := Writing(e, me.work.rest[1..])));
  }

  lemma WriteStep(setup: Setup, bus: Ledger, me: Replica, ok: bool)
    requires me.work.Writing?
    ensures Enabled(setup, One(bus, me), Write(0, ok))
    ensures Apply(setup, One(bus, me), Write(0, ok)) ==
      One(if ok then Publish(bus, me.work.event) else bus, me.(work := Joining(me.work.event.run, me.work.rest)))
  {
    var bus' := if ok then Publish(bus, me.work.event) else bus;
    OneUpdates(bus, me, bus', me.(work := Joining(me.work.event.run, me.work.rest)));
  }

  class PlainReader {
    const setup: Setup
    const lib: Library
    var cursor: nat
    var comp: map<Run, Record>
    ghost var work: Work

    constructor (setup: Setup, lib: Library)
      ensures this.setup == setup && this.lib == lib
      ensures cursor == 0 && comp == map[] && work == Idle
    {
      this.setup := setup;
      this.lib := lib;
      cursor, comp, work := 0, map[], Idle;
    }

    ghost function View(): System
      reads this, lib
    {
      One(lib.bus, Replica(cursor, comp, work))
    }

    // reader.New: write the start event of a fresh run.
    method New(input: string, run: Run) returns (ok: bool, ghost steps: seq<Step>)
      requires run !in lib.bus.runs
      modifies lib
      ensures Leads(setup, old(View()), steps, View())
      ensures ok ==> lib.bus.created == old(lib.bus.created) + [Event("", START, run, [Data(StartType(setup), input)])]
      ensures !ok ==> lib.bus == old(lib.bus)
    {
      hide Leads;
      hide TypeOf;
      ghost var s := View();
      ok := lib.WriteStart(Event("", START, run, [Data(StartType(setup), input)]));
      steps := [];
      if ok {
        FirstStep(setup, s, StartRun(run, input));
        steps := [StartRun(run, input)];
      } else {
        NoStep(setup, s);
      }
    }

    // One turn of Read: execute the part of a delivered event, and acknowledge it with the output
    // if there is one (None: the adapter failed, or returned nil data where it must not).
    method Turn(k: nat, out: Option<Data>) returns (ghost steps: seq<Step>)
      requires k in lib.bus.pending && k < |lib.bus.created|
      requires out.Some? ==> out.value.typ == TypeOf(setup, lib.bus.created[k].part)
      modifies lib
      ensures Leads(setup, old(View()), steps, View())
      ensures var e := old(lib.bus.created)[k];
        lib.bus == match out
                   case None => old(lib.bus)
                   case Some(d) => Acknowledge(old(lib.bus), Completion(k, e.dim, e.part, e.run, [d]))
    {
      hide Leads;
      hide TypeOf;
      ghost var s := View();
      var e := lib.bus.created[k];
      if out.None? {
        NoStep(setup, s);
        return [];
      }
      lib.Acc(Completion(k, e.dim, e.part, e.run, [out.value]));
      FirstStep(setup, s, Ack(k, out.value));
      steps := [Ack(k, out.value)];
    }

    // The inner loop over the predecessors of one part.
    method Collect(record: Record, prev: seq<string>) returns (r: Option<seq<Data>>)
      ensures r == if HasAll(record, prev) then Some(Payload(record, prev)) else None
    {
      var td: seq<Data> := [];
      for i := 0 to |prev|
        invariant forall j :: 0 <= j < i ==> prev[j] in record
        invariant |td| == i && HasAll(record, prev[..i]) && td == Payload(record, prev[..i])
      {
        if prev[i] !in record {
          return None;
        }
        td := td + [if record[prev[i]] == [] then Data("", "") else record[prev[i]][0]];
      }
      assert prev[..|prev|] == prev;
      return Some(td);
    }

    // One pass: record the completion, then try every part that it links to.
    method OnCompleted() returns (ghost steps: seq<Step>)
      requires AtRest(work) && cursor < |lib.bus.completed|
      modifies this, lib
      ensures Leads(setup, old(View()), steps, View())
      ensures AtRest(work) && cursor == old(cursor) + 1
      ensures comp == Put(old(comp), old(lib.bus.completed[cursor]))
      ensures lib.bus.completed == old(lib.bus.completed)
    {
      hide Leads;
      hide Enabled;
      hide Apply;
      ghost var start, bus0, me0 := View(), lib.bus, Replica(cursor, comp, work);
      var c := lib.bus.completed[cursor];
      var record := (if c.run in comp then comp[c.run] else map[])[c.part := c.data];
      comp := comp[c.run := record];
      cursor := cursor + 1;
      var next := PartOf(c.part, setup.parts).outgoing;
      work := Joining(c.run, next);
      steps := [Consume(0)];
      ConsumeStep(setup, bus0, me0);
      FirstStep(setup, start, Consume(0));
      assert next[0..] == next;
      for k := 0 to |next|
        invariant work == Joining(c.run, next[k..])
        invariant comp == Put(old(comp), c) && cursor == old(cursor) + 1
        invariant lib.bus.completed == old(lib.bus.completed)
        invariant Leads(setup, start, steps, View())
      {
        var n := next[k];
        ghost var s, bus, me := View(), lib.bus, Replica(cursor, comp, work);
        var td := Collect(record, PartOf(n, setup.parts).incoming);
        var ok := false;
        if td.Some? {
          ok := lib.Request(ConsId(n, c.run));
        }
        if !ok {
          work := Joining(c.run, next[k + 1..]);
          SkipStep(setup, bus, me);
          LeadsOn(setup, start, steps, s, Request(0, false));
          steps := steps + [Request(0, false)];
          continue;
        }
        var e := Event("", n, c.run, td.value);
        work := Writing(e, next[k + 1..]);
        GrantStep(setup, bus, me);
        LeadsOn(setup, start, steps, s, Request(0, true));
        steps := steps + [Request(0, true)];
        s, bus, me := View(), lib.bus, Replica(cursor, comp, work);
        var written := lib.Write(e);
        work := Joining(c.run, next[k + 1..]);
        WriteStep(setup, bus, me, written);
        LeadsOn(setup, start, steps, s, Write(0, written));
        steps := steps + [Write(0, written)];
      }
    }

    // The goroutine, until it has read every completion there is.
    method Run() returns (ghost steps: seq<Step>)
      requires AtRest(work) && cursor <= |lib.bus.completed|
      modifies this, lib
      ensures Leads(setup, old(View()), steps, View())
      ensures AtRest(work) && cursor == |lib.bus.completed|
    {
      steps := [];
      while cursor < |lib.bus.completed|
        invariant AtRest(work) && cursor <= |lib.bus.completed|
        invariant Leads(setup, old(View()), steps, View())
        decreases |lib.bus.completed| - cursor
      {
        ghost var s := View();
        ghost var more := OnCompleted();
        LeadsJoin(setup, old(View()), steps, s, more, View());
        steps := steps + more;
      }
    }
  }

  lemma NoStep(setup: Setup, s: System)
    ensures Leads(setup, s, [], s)
  {
  }

  lemma FirstStep(setup: Setup, s: System, step: Step)
    requires Enabled(setup, s, step)
    ensures Leads(setup, s, [step], Apply(setup, s, step))
  {
    assert [step][1..] == [];
  }

  lemma {:induction false} LeadsJoin(setup: Setup, s: System, steps: seq<Step>, s': System, more: seq<Step>,
                                     s'': System)
    requires Leads(setup, s, steps, s') && Leads(setup, s', more, s'')
    ensures Leads(setup, s, steps + more, s'')
    decreases |steps|
  {
    hide Enabled;
    hide Apply;
    if steps == [] {
      assert steps + more == more;
    } else {
      assert (steps + more)[1..] == steps[1..] + more;
      LeadsJoin(setup, Apply(setup, s, steps[0]), steps[1..], s', more, s'');
    }
  }
}
