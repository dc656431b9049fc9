// What the readers share with the library below them: the log of created events, the events
// not yet acknowledged, the log of completions, and the consensus topic that grants each
// request id at most once.
module Bus {
  import opened Story

  // One output of an adapter, with the name of its type.
  datatype Data = Data(typ: string, bytes: string)

  // The text of a run's uuid: 36 characters, none of them an underscore.
  type Run = r: string | |r| == 36 && '_' !in r witness seq(36, _ => '0')

  datatype Event = Event(dim: string, part: string, run: Run, data: seq<Data>)

  // src is the created event that was acknowledged.
  datatype Completion = Completion(src: nat, dim: string, part: string, run: Run, data: seq<Data>)

  datatype Ledger = Ledger(
    created: seq<Event>,
    pending: set<nat>,
    completed: seq<Completion>,
    granted: set<string>,
    runs: set<Run>)

  const EMPTY := Ledger([], {}, [], {}, {})

  // The id that the join loop asks for before it writes a part of a run.
  function ConsId(part: string, run: Run): string {
    part + "_" + run
  }

  lemma ConsIdInjective(p1: string, r1: Run, p2: string, r2: Run)
    requires ConsId(p1, r1) == ConsId(p2, r2)
    ensures p1 == p2 && r1 == r2
  {
    var id1, id2 := ConsId(p1, r1), ConsId(p2, r2);
    assert id1[|id1| - 36..] == r1 && id2[|id2| - 36..] == r2;
    assert id1[..|id1| - 37] == p1 && id2[..|id2| - 37] == p2;
  }

  function Publish(b: Ledger, e: Event): Ledger {
    b.(created := b.created + [e], pending := b.pending + {|b.created|})
  }

  function Acknowledge(b: Ledger, c: Completion): Ledger {
    b.(pending := b.pending - {c.src}, completed := b.completed + [c])
  }

  function Grant(b: Ledger, id: string): Ledger {
    b.(granted := b.granted + {id})
  }

  predicate CreatedIn(b: Ledger, part: string, run: Run) {
    exists k :: 0 <= k < |b.created| && b.created[k].part == part && b.created[k].run == run
  }

  predicate CompletedIn(b: Ledger, part: string, run: Run) {
    exists j :: 0 <= j < |b.completed| && b.completed[j].part == part && b.completed[j].run == run
  }

  // No part of a run is created twice.
  ghost predicate OncePerRun(b: Ledger) {
    forall k, l :: 0 <= k < l < |b.created| ==>
      b.created[k].part != b.created[l].part || b.created[k].run != b.created[l].run
  }

  // Created events belong to started runs, and every one but a start was granted.
  ghost predicate Licensed(b: Ledger) {
    forall k :: 0 <= k < |b.created| ==>
      && b.created[k].run in b.runs
      && (b.created[k].part != START ==> ConsId(b.created[k].part, b.created[k].run) in b.granted)
  }

  // A pending event exists; an acknowledged one is not pending and has one completion.
  ghost predicate Acked(b: Ledger) {
    && (forall k :: k in b.pending ==> k < |b.created|)
    && (forall j :: 0 <= j < |b.completed| ==> b.completed[j].src < |b.created| && b.completed[j].src !in b.pending)
    && (forall i, j :: 0 <= i < j < |b.completed| ==> b.completed[i].src != b.completed[j].src)
  }

  lemma SameCreated(b: Ledger, b': Ledger, n: string, run: Run)
    requires b'.created == b.created
    ensures CreatedIn(b', n, run) == CreatedIn(b, n, run)
  {
  }

  lemma PendingGrows(b: Ledger, e: Event)
    requires Acked(b)
    ensures |Publish(b, e).pending| == |b.pending| + 1 && |Publish(b, e).created| == |b.created| + 1
  {
    assert |b.created| !in b.pending;
  }

  lemma PendingFalls(b: Ledger, c: Completion)
    requires c.src in b.pending
    ensures |Acknowledge(b, c).pending| == |b.pending| - 1 && |Acknowledge(b, c).completed| == |b.completed| + 1
  {
  }

  // Nothing holds an id that no one has granted, and nothing has been written under a held id.
  ghost predicate Held(b: Ledger, part: string, run: Run) {
    && part != START
    && run in b.runs
    && ConsId(part, run) in b.granted
    && !CreatedIn(b, part, run)
  }

  // Writing the event of a held id keeps every part of every run unique.
  lemma PublishHeld(b: Ledger, e: Event)
    requires OncePerRun(b) && Licensed(b) && Acked(b) && Held(b, e.part, e.run)
    ensures OncePerRun(Publish(b, e)) && Licensed(Publish(b, e)) && Acked(Publish(b, e))
  {
  }

  // So does the start event of a run that has none.
  lemma PublishStart(b: Ledger, e: Event)
    requires OncePerRun(b) && Licensed(b) && Acked(b) && e.part == START && !CreatedIn(b, START, e.run)
    ensures var b' := Publish(b.(runs := b.runs + {e.run}), e);
            OncePerRun(b') && Licensed(b') && Acked(b')
  {
  }

  // A granted id that was free is held by whoever got it.
  lemma GrantHolds(b: Ledger, part: string, run: Run)
    requires Licensed(b) && run in b.runs && part != START && ConsId(part, run) !in b.granted
    ensures Held(Grant(b, ConsId(part, run)), part, run)
    ensures OncePerRun(b) ==> OncePerRun(Grant(b, ConsId(part, run)))
    ensures Licensed(Grant(b, ConsId(part, run)))
    ensures forall p: string, r: Run :: Held(b, p, r) ==>
        Held(Grant(b, ConsId(part, run)), p, r) && (p != part || r != run)
  {
  }

  // Publishing one held id leaves the others held.
  lemma OthersStayHeld(b: Ledger, e: Event, p: string, r: Run)
    requires Held(b, p, r) && (p != e.part || r != e.run)
    ensures Held(Publish(b, e), p, r)
  {
  }

  // What a published event adds to what has been created.
  lemma CreatedGrows(b: Ledger, e: Event, n: string, run: Run)
    ensures CreatedIn(Publish(b, e), n, run) <==> CreatedIn(b, n, run) || (e.part == n && e.run == run)
  {
    var b' := Publish(b, e);
    if k :| 0 <= k < |b.created| && b.created[k].part == n && b.created[k].run == run {
      assert b'.created[k] == b.created[k];
    }
    assert b'.created[|b.created|] == e;
  }
}
