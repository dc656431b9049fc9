// What holds in every reachable state of the repeatable reader, whatever is restarted when.
module RepeatableSafety {
  import opened Walks
  import opened Story
  import opened Plan
  import opened Bus
  import opened Journal
  import opened Repeatable
  import opened RepeatableInvariant

  // An output that a completion of this part, run and dimension recorded.
  ghost predicate OutputIn(completed: seq<Completion>, dim: string, part: string, run: Run, d: Data) {
    exists j :: 0 <= j < |completed| && completed[j].dim == dim && completed[j].part == part
      && completed[j].run == run && completed[j].data == [d]
  }

  // Run isolation: each part of a run is created at most once, and its parameters are the
  // outputs that completions of the same run and dimension recorded for exactly its
  // predecessors, in their order.
  lemma RunsAreIsolated(setup: Setup, s: System)
    requires Sound(setup.parts) && Reachable(setup, s)
    ensures OncePerRun(s.bus)
    ensures forall e :: e in s.bus.created && e.part != START ==>
              && |e.data| == |Prev(setup.parts, e.part)| > 0
              && forall i :: 0 <= i < |e.data| ==>
                OutputIn(s.bus.completed, e.dim, Prev(setup.parts, e.part)[i], e.run, e.data[i])
    ensures forall e: Event, e': Event :: e in s.bus.created && e.part != START && Rivals(setup, s.bus, e, e') ==>
        e' == e
  {
    ReachableInvariant(setup, s);
    forall e | e in s.bus.created && e.part != START
      ensures |e.data| == |Prev(setup.parts, e.part)| > 0
      ensures forall i :: 0 <= i < |e.data| ==>
          OutputIn(s.bus.completed, e.dim, Prev(setup.parts, e.part)[i], e.run, e.data[i])
      ensures forall e': Event :: Rivals(setup, s.bus, e, e') ==> e' == e
    {
      var k :| 0 <= k < |s.bus.created| && s.bus.created[k] == e;
      PayloadInDimension(setup, s.bus, k);
    }
  }

  lemma PayloadInDimension(setup: Setup, b: Ledger, k: nat)
    requires BusOk(setup, b) && k < |b.created| && b.created[k].part != START
    ensures var e := b.created[k];
      && |e.data| == |Prev(setup.parts, e.part)| > 0
      && (forall i :: 0 <= i < |e.data| ==>
        OutputIn(b.completed, e.dim, Prev(setup.parts, e.part)[i], e.run, e.data[i]))
      && (forall e': Event :: Rivals(setup, b, e, e') ==> e' == e)
  {
    var e := b.created[k];
    assert RightPayload(setup.parts, b.completed, e);
    forall i | 0 <= i < |e.data| ensures OutputIn(b.completed, e.dim, Prev(setup.parts, e.part)[i], e.run, e.data[i]) {
      var p := Prev(setup.parts, e.part)[i];
      assert OutputOf(b.completed, p, e.run, e.data[i]);
      var j :| 0 <= j < |b.completed| && b.completed[j].part == p && b.completed[j].run == e.run
        && b.completed[j].data == [e.data[i]];
      SameDimension(setup, b, k, j);
    }
    forall e': Event | Rivals(setup, b, e, e') ensures e' == e {
      SamePayload(setup, b, e, e');
    }
  }

  lemma SameDimension(setup: Setup, b: Ledger, k: nat, j: nat)
    requires BusOk(setup, b) && k < |b.created| && j < |b.completed| && b.completed[j].run == b.created[k].run
    ensures b.completed[j].dim == b.created[k].dim
  {
    hide RightPayload;
    assert b.created[k].run in b.runs;
    var l := b.completed[j].src;
    assert b.created[l].run == b.created[k].run;
  }

  // No part of a run but S is created before some part of that very run has completed.
  lemma NoJoinBeforeACompletion(setup: Setup, s: System, n: string, run: Run)
    requires Sound(setup.parts) && Reachable(setup, s) && CreatedIn(s.bus, n, run) && n != START
    ensures exists p :: p in Prev(setup.parts, n) && CompletedIn(s.bus, p, run)
  {
    RunsAreIsolated(setup, s);
    var k :| 0 <= k < |s.bus.created| && s.bus.created[k].part == n && s.bus.created[k].run == run;
    var e := s.bus.created[k];
    assert e in s.bus.created;
    assert OutputIn(s.bus.completed, e.dim, Prev(setup.parts, n)[0], run, e.data[0]);
    assert Prev(setup.parts, n)[0] in Prev(setup.parts, n);
  }

  // A cell that a join of the run would use holds the output of a completion of that run.
  lemma UsableCellsAreOwn(setup: Setup, s: System, r: nat, d: string, p: string, run: Run)
    requires Sound(setup.parts) && Reachable(setup, s) && r in s.replicas && d in s.replicas[r].dims
    requires run in s.bus.runs && Usable(s.replicas[r].dims[d].cells, p, run)
    ensures |s.replicas[r].dims[d].cells[p].data| == 1
    ensures OutputOf(s.bus.completed, p, run, s.replicas[r].dims[d].cells[p].data[0])
  {
    ReachableInvariant(setup, s);
    assert ReplicaOk(setup, s.bus, s.replicas[r]);
    assert CellOk(s.bus, p, s.replicas[r].dims[d].cells[p]);
  }

  ghost predicate CompletedWith(b: Ledger, u: string, e: Event) {
    exists j :: 0 <= j < |b.completed| && b.completed[j].part == u && b.completed[j].run == e.run
      && b.completed[j].dim == e.dim
  }

  lemma CompletedThere(setup: Setup, b: Ledger, k: nat, u: string)
    requires BusOk(setup, b) && k < |b.created| && CompletedIn(b, u, b.created[k].run)
    ensures CompletedWith(b, u, b.created[k])
  {
    hide BusOk;
    var j :| 0 <= j < |b.completed| && b.completed[j].part == u && b.completed[j].run == b.created[k].run;
    SameDimension(setup, b, k, j);
  }

  // When a part is created, everything that leads to it has completed in that run and dimension.
  lemma AncestorsCompleted(setup: Setup, s: System, e: Event, u: string)
    requires Sound(setup.parts) && Reachable(setup, s)
    requires e in s.bus.created && Follows(GraphOf(setup.parts), u, e.part)
    ensures CompletedWith(s.bus, u, e)
  {
    hide Sound;
    hide JournalOk;
    hide DimensionsOk;
    hide Follows;
    ReachableInvariant(setup, s);
    var k :| 0 <= k < |s.bus.created| && s.bus.created[k] == e;
    AncestorsCompletedIn(setup, s.bus, e.run, e.part, u);
    CompletedThere(setup, s.bus, k, u);
  }

  // Where every part links on, E is created only after every other part has completed there.
  lemma EndComesLast(setup: Setup, s: System, e: Event)
    requires Sound(setup.parts) && Reachable(setup, s)
    requires forall q :: IsPart(setup.parts, q) && q != END ==> Next(setup.parts, q) != []
    requires e in s.bus.created && e.part == END
    ensures forall p :: IsPart(setup.parts, p) && p != END ==> CompletedWith(s.bus, p, e)
  {
    hide Sound;
    hide JournalOk;
    hide DimensionsOk;
    ReachableInvariant(setup, s);
    var k :| 0 <= k < |s.bus.created| && s.bus.created[k] == e;
    EndComesLastIn(setup, s.bus, e.run);
    forall p | IsPart(setup.parts, p) && p != END ensures CompletedWith(s.bus, p, e) {
      CompletedThere(setup, s.bus, k, p);
    }
  }

  // A run creates at most as many events as there are parts, all in one dimension.
  lemma RunFits(setup: Setup, s: System, run: Run)
    requires Sound(setup.parts) && Reachable(setup, s)
    ensures |EventsOf(s.bus, run)| <= |setup.parts|
    ensures forall k, l :: k in EventsOf(s.bus, run) && l in EventsOf(s.bus, run) ==>
        s.bus.created[k].dim == s.bus.created[l].dim
  {
    hide Sound;
    hide JournalOk;
    ReachableInvariant(setup, s);
    RunFitsIn(setup, s.bus, run);
    forall k, l | k in EventsOf(s.bus, run) && l in EventsOf(s.bus, run)
      ensures s.bus.created[k].dim == s.bus.created[l].dim
    {
      if k < l {
        assert s.bus.created[k].run == s.bus.created[l].run;
      }
    }
  }

  // ----- empty completions -----

  // A run whose start event was acknowledged empty is lost: in no state from then on has any part
  // of it completed, or any part but S been created.
  lemma EmptyStartLosesRun(setup: Setup, s: System, j: nat, k: nat)
    requires Sound(setup.parts) && Reachable(setup, s)
    requires j < |s.bus.completed| && s.bus.completed[j] == Inert(k)
    requires k < |s.bus.created| && s.bus.created[k].part == START
    ensures var run := s.bus.created[k].run;
      forall n :: !CompletedIn(s.bus, n, run) && (CreatedIn(s.bus, n, run) ==> n == START)
  {
    hide Sound;
    hide CompletedIn;
    hide CreatedIn;
    ReachableInvariant(setup, s);
    var run := s.bus.created[k].run;
    assert run in s.bus.runs && !CompletedIn(s.bus, START, run) by { StartNeverCompletes(setup, s.bus, j, k); }
    forall n ensures !CompletedIn(s.bus, n, run) && (CreatedIn(s.bus, n, run) ==> n == START) {
      NothingWithoutStart(setup, s.bus, run, n);
    }
  }

  lemma StartNeverCompletes(setup: Setup, b: Ledger, j: nat, k: nat)
    requires BusOk(setup, b) && j < |b.completed| && b.completed[j] == Inert(k)
    requires k < |b.created| && b.created[k].part == START
    ensures b.created[k].run in b.runs && !CompletedIn(b, START, b.created[k].run)
  {
    hide RightPayload;
    hide Typed;
    forall i | 0 <= i < |b.completed| && b.completed[i].run == b.created[k].run
      ensures b.completed[i].part != START
    {
      assert i != j;
      assert b.completed[i].src != k;
    }
  }

  // An inert completion is dropped by the loop, or touches no part and joins nothing.
  lemma InertIsHarmless(setup: Setup, s: System, r: nat)
    requires Sound(setup.parts) && Reachable(setup, s) && CanStep(setup, s, Step(r, Record))
    requires s.replicas[r].loop.c.run !in s.bus.runs
    ensures var me, me' := s.replicas[r], Act(setup, s.bus, s.replicas[r], Record).1;
      && AtRest(me'.loop)
      && me'.dims.Keys == me.dims.Keys
      && forall d, p :: d in me.dims && IsPart(setup.parts, p) ==>
           (p in me.dims[d].cells <==> p in me'.dims[d].cells)
           && (p in me.dims[d].cells ==> me'.dims[d].cells[p] == me.dims[d].cells[p])
  {
    hide Sound;
    hide ActLoop;
    ReachableInvariant(setup, s);
    assert ReplicaOk(setup, s.bus, s.replicas[r]);
    InertRecord(setup, s.bus, s.replicas[r]);
  }

  lemma InertRecord(setup: Setup, b: Ledger, me: Replica)
    requires Sound(setup.parts) && Enabled(setup, b, me, Record) && me.loop.c.part == ""
    ensures var me' := ActLoop(setup, b, me, Record).1;
      && AtRest(me'.loop)
      && me'.dims.Keys == me.dims.Keys
      && forall d, p :: d in me.dims && IsPart(setup.parts, p) ==>
           (p in me.dims[d].cells <==> p in me'.dims[d].cells)
           && (p in me.dims[d].cells ==> me'.dims[d].cells[p] == me.dims[d].cells[p])
  {
    hide Acyclic;
    hide DistinctIds;
  }
}
