// What holds in every reachable state of the plain reader, with any number of replicas.
module ReaderSafety {
  import opened Walks
  import opened Story
  import opened Plan
  import opened Bus
  import opened Journal
  import opened Reader

  // Each part of each run is created at most once, with one possible list of parameters:
  // whichever replica won the request, it is the outputs of the predecessors in their order.
  lemma AtMostOnceAndAgreed(setup: Setup, s: System)
    requires Sound(setup.parts) && Reachable(setup, s)
    ensures OncePerRun(s.bus)
    ensures forall e :: e in s.bus.created && e.part != START ==> RightPayload(setup.parts, s.bus.completed, e)
    ensures forall e: Event, e': Event :: e in s.bus.created && e.part != START && Rivals(setup, s.bus, e, e') ==>
        e' == e
  {
    ReachableInvariant(setup, s);
    forall e: Event, e': Event | e in s.bus.created && e.part != START && Rivals(setup, s.bus, e, e')
      ensures e' == e
    {
      assert RightPayload(setup.parts, s.bus.completed, e);
      SamePayload(setup, s.bus, e, e');
    }
  }

  // When a part is created, everything that leads to it has completed in that run.
  lemma AncestorsCompleted(setup: Setup, s: System, run: Run, n: string, u: string)
    requires Sound(setup.parts) && Reachable(setup, s)
    requires CreatedIn(s.bus, n, run) && Follows(GraphOf(setup.parts), u, n)
    ensures CompletedIn(s.bus, u, run)
  {
    ReachableInvariant(setup, s);
    AncestorsCompletedIn(setup, s.bus, run, n, u);
  }

  // Where every part links on, E is created only after every other part has completed.
  lemma EndComesLast(setup: Setup, s: System, run: Run)
    requires Sound(setup.parts) && Reachable(setup, s)
    requires forall q :: IsPart(setup.parts, q) && q != END ==> Next(setup.parts, q) != []
    requires CreatedIn(s.bus, END, run)
    ensures forall p :: IsPart(setup.parts, p) && p != END ==> CompletedIn(s.bus, p, run)
  {
    ReachableInvariant(setup, s);
    EndComesLastIn(setup, s.bus, run);
  }

  // A run creates at most as many events as there are parts.
  lemma RunFits(setup: Setup, s: System, run: Run)
    requires Sound(setup.parts) && Reachable(setup, s)
    ensures |EventsOf(s.bus, run)| <= |setup.parts|
  {
    ReachableInvariant(setup, s);
    RunFitsIn(setup, s.bus, run);
  }
}
