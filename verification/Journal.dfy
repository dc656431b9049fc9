// What both readers keep of the ledger in every reachable state, and what follows from it.
module Journal {
  import opened Seqs
  import opened Walks
  import opened Story
  import opened SortProofs
  import opened Acceptance
  import opened Plan
  import opened Bus

  // An accepted story and the adapters it was accepted with.
  datatype Setup = Setup(parts: seq<Part>, adapters: seq<Adapter>)

  // The type that the part's adapter returns.
  function TypeOf(setup: Setup, part: string): string {
    match GetAdapter(PartOf(part, setup.parts).adapter, setup.adapters)
    case Some(a) => a.typ
    case None => ""
  }

  // startAdapter: a start event has the type of the adapter named so, whichever part runs it.
  function StartType(setup: Setup): string {
    match GetAdapter(START_ADAPTER, setup.adapters)
    case Some(a) => a.typ
    case None => ""
  }

  // The event's parameters are completed outputs of exactly its predecessors, in their order.
  ghost predicate RightPayload(parts: seq<Part>, completed: seq<Completion>, e: Event) {
    && |e.data| == |Prev(parts, e.part)|
    && forall i :: 0 <= i < |e.data| ==> OutputOf(completed, Prev(parts, e.part)[i], e.run, e.data[i])
  }

  ghost predicate OutputOf(completed: seq<Completion>, part: string, run: Run, d: Data) {
    exists j :: 0 <= j < |completed| && completed[j].part == part && completed[j].run == run && completed[j].data == [d]
  }

  // A completion of a started run names the part and run of the event it acknowledges, with one
  // output.
  ghost predicate Answers(b: Ledger) {
    forall j :: 0 <= j < |b.completed| && b.completed[j].run in b.runs ==>
      && b.completed[j].src < |b.created|
      && b.completed[j].part == b.created[b.completed[j].src].part
      && b.completed[j].run == b.created[b.completed[j].src].run
      && |b.completed[j].data| == 1
  }

  // Outputs carry the type of the adapter that made them.
  ghost predicate Typed(setup: Setup, completed: seq<Completion>) {
    forall j :: 0 <= j < |completed| && |completed[j].data| == 1 ==>
      completed[j].data[0].typ == TypeOf(setup, completed[j].part)
  }

  ghost predicate JournalOk(setup: Setup, b: Ledger) {
    && OncePerRun(b) && Licensed(b) && Acked(b) && Answers(b) && Typed(setup, b.completed)
    && (forall k :: 0 <= k < |b.created| ==> IsPart(setup.parts, b.created[k].part))
    && (forall k :: 0 <= k < |b.created| && b.created[k].part != START ==>
      RightPayload(setup.parts, b.completed, b.created[k]))
    && (forall k :: 0 <= k < |b.created| && b.created[k].part != START ==> Prev(setup.parts, b.created[k].part) != [])
  }

  lemma JournalIsAcked(setup: Setup, b: Ledger)
    requires JournalOk(setup, b)
    ensures Acked(b)
  {
  }

  lemma PayloadStays(parts: seq<Part>, completed: seq<Completion>, more: seq<Completion>, e: Event)
    requires RightPayload(parts, completed, e)
    ensures RightPayload(parts, completed + more, e)
  {
    forall i | 0 <= i < |e.data| ensures OutputOf(completed + more, Prev(parts, e.part)[i], e.run, e.data[i]) {
      var j :| 0 <= j < |completed| && completed[j].part == Prev(parts, e.part)[i] && completed[j].run == e.run
        && completed[j].data == [e.data[i]];
      assert (completed + more)[j] == completed[j];
    }
  }

  // Each part of each run completes at most once.
  lemma CompletesOnce(setup: Setup, b: Ledger, i: nat, j: nat)
    requires JournalOk(setup, b) && i < |b.completed| && j < |b.completed|
    requires b.completed[i].part == b.completed[j].part && b.completed[i].run == b.completed[j].run
    requires b.completed[i].run in b.runs
    ensures i == j
  {
    var k, l := b.completed[i].src, b.completed[j].src;
    assert b.created[k].part == b.created[l].part && b.created[k].run == b.created[l].run;
    assert k == l;
  }

  // e' is another event that some replica could have written in place of e.
  ghost predicate Rivals(setup: Setup, b: Ledger, e: Event, e': Event) {
    e'.dim == e.dim && e'.part == e.part && e'.run == e.run && RightPayload(setup.parts, b.completed, e')
  }

  lemma SamePayload(setup: Setup, b: Ledger, e: Event, e': Event)
    requires JournalOk(setup, b) && e'.part == e.part && e'.run == e.run && e.run in b.runs
    requires RightPayload(setup.parts, b.completed, e) && RightPayload(setup.parts, b.completed, e')
    ensures e'.data == e.data
  {
    hide JournalOk;
    forall i | 0 <= i < |e.data| ensures e'.data[i] == e.data[i] {
      var p := Prev(setup.parts, e.part)[i];
      assert OutputOf(b.completed, p, e.run, e.data[i]) && OutputOf(b.completed, p, e.run, e'.data[i]);
      var j :| 0 <= j < |b.completed| && b.completed[j].part == p && b.completed[j].run == e.run
        && b.completed[j].data == [e.data[i]];
      var l :| 0 <= l < |b.completed| && b.completed[l].part == p && b.completed[l].run == e.run
        && b.completed[l].data == [e'.data[i]];
      CompletesOnce(setup, b, j, l);
    }
  }

  function CreatedParts(b: Ledger, run: Run): set<string> {
    set k | 0 <= k < |b.created| && b.created[k].run == run :: b.created[k].part
  }

  function CompletedParts(b: Ledger, run: Run): set<string> {
    set j | 0 <= j < |b.completed| && b.completed[j].run == run :: b.completed[j].part
  }

  lemma PredecessorsCompleted(setup: Setup, b: Ledger, run: Run)
    requires Sound(setup.parts) && JournalOk(setup, b) && run in b.runs
    ensures forall n, p :: n in CreatedParts(b, run) && p in Prev(setup.parts, n) ==> p in CompletedParts(b, run)
    ensures CompletedParts(b, run) <= CreatedParts(b, run)
  {
    forall n, p | n in CreatedParts(b, run) && p in Prev(setup.parts, n) ensures p in CompletedParts(b, run) {
      var k :| 0 <= k < |b.created| && b.created[k].run == run && b.created[k].part == n;
      var i :| 0 <= i < |Prev(setup.parts, n)| && Prev(setup.parts, n)[i] == p;
      assert OutputOf(b.completed, p, run, b.created[k].data[i]);
    }
  }

  // All ids that the parts of these runs can be requested under.
  function AllIds(parts: set<string>, runs: set<Run>): set<string> {
    set p, r | p in parts && r in runs :: ConsId(p, r)
  }

  lemma {:induction false} AllIdsFit(parts: set<string>, runs: set<Run>)
    ensures |AllIds(parts, runs)| <= |parts| * |runs|
    decreases runs
  {
    if runs == {} {
      assert AllIds(parts, runs) == {};
    } else {
      var r :| r in runs;
      AllIdsFit(parts, runs - {r});
      IdsOfRunFit(parts, r);
      var bigger := AllIds(parts, runs - {r}) + AllIds(parts, {r});
      assert AllIds(parts, runs) <= bigger;
      SubsetSize(AllIds(parts, runs), bigger);
      assert |bigger| <= |AllIds(parts, runs - {r})| + |AllIds(parts, {r})|;
      assert |runs| == |runs - {r}| + 1;
      assert |parts| * |runs| == |parts| * |runs - {r}| + |parts|;
    }
  }

  lemma {:induction false} IdsOfRunFit(parts: set<string>, r: Run)
    ensures |AllIds(parts, {r})| <= |parts|
    decreases parts
  {
    if parts == {} {
      assert AllIds(parts, {r}) == {};
    } else {
      var p :| p in parts;
      IdsOfRunFit(parts - {p}, r);
      var bigger := AllIds(parts - {p}, {r}) + {ConsId(p, r)};
      assert AllIds(parts, {r}) <= bigger;
      SubsetSize(AllIds(parts, {r}), bigger);
    }
  }

  lemma PartIds(setup: Setup, b: Ledger, k: nat)
    requires JournalOk(setup, b) && k < |b.created|
    ensures b.created[k].part in Ids(setup.parts) && b.created[k].run in b.runs
  {
    hide RightPayload;
    assert IsPart(setup.parts, b.created[k].part);
    assert setup.parts[Find(b.created[k].part, setup.parts)].id in Ids(setup.parts);
  }

  lemma DistinctRequests(b: Ledger, ids: seq<string>)
    requires OncePerRun(b)
    requires |ids| == |b.created|
    requires forall k :: 0 <= k < |ids| ==> ids[k] == ConsId(b.created[k].part, b.created[k].run)
    ensures Distinct(ids)
  {
    forall j, k | 0 <= j < k < |ids| ensures ids[j] != ids[k] {
      if ids[j] == ids[k] {
        ConsIdInjective(b.created[j].part, b.created[j].run, b.created[k].part, b.created[k].run);
      }
    }
  }

  // All runs together create at most one event for each part of each run.
  lemma CreatedFits(setup: Setup, b: Ledger)
    requires JournalOk(setup, b)
    ensures |b.created| <= |setup.parts| * |b.runs|
  {
    hide Ids;
    var ids := seq(|b.created|, k requires 0 <= k < |b.created| => ConsId(b.created[k].part, b.created[k].run));
    DistinctRequests(b, ids);
    var names := Ids(setup.parts);
    forall x | x in ids ensures x in AllIds(names, b.runs) {
      var k :| 0 <= k < |ids| && ids[k] == x;
      PartIds(setup, b, k);
    }
    DistinctFits(ids, AllIds(names, b.runs));
    AllIdsFit(names, b.runs);
    IdsFit(setup.parts);
    ProductGrows(|names|, |setup.parts|, |b.runs|);
  }

  lemma ProductGrows(x: nat, y: nat, z: nat)
    requires x <= y
    ensures x * z <= y * z
  {
  }

  function EventsOf(b: Ledger, run: Run): set<nat> {
    set k: nat | k < |b.created| && b.created[k].run == run
  }

  lemma {:induction false} EventsFit(b: Ledger, ks: set<nat>, names: set<string>, run: Run)
    requires OncePerRun(b)
    requires forall k :: k in ks ==> k < |b.created| && b.created[k].run == run && b.created[k].part in names
    ensures |ks| <= |names|
    decreases ks
  {
    if ks != {} {
      var k: nat :| k in ks;
      EventsFit(b, ks - {k}, names - {b.created[k].part}, run);
      assert |ks| == |ks - {k}| + 1;
    }
  }

  // When a part is created, everything that leads to it has completed in that run.
  lemma AncestorsCompletedIn(setup: Setup, b: Ledger, run: Run, n: string, u: string)
    requires Sound(setup.parts) && JournalOk(setup, b)
    requires CreatedIn(b, n, run) && Follows(GraphOf(setup.parts), u, n)
    ensures CompletedIn(b, u, run)
  {
    var k :| 0 <= k < |b.created| && b.created[k].part == n && b.created[k].run == run;
    assert run in b.runs;
    PredecessorsCompleted(setup, b, run);
    var w :| WalkFromTo(GraphOf(setup.parts), w, u, n) && |w| >= 2;
    assert n in CreatedParts(b, run);
    ClosureAlongWalk(setup.parts, CreatedParts(b, run), CompletedParts(b, run), w);
    assert u in CompletedParts(b, run);
  }

  // Where every part links on, E is created only after every other part has completed.
  lemma EndComesLastIn(setup: Setup, b: Ledger, run: Run)
    requires Sound(setup.parts) && JournalOk(setup, b)
    requires forall q :: IsPart(setup.parts, q) && q != END ==> Next(setup.parts, q) != []
    requires CreatedIn(b, END, run)
    ensures forall p :: IsPart(setup.parts, p) && p != END ==> CompletedIn(b, p, run)
  {
    forall p | IsPart(setup.parts, p) && p != END ensures CompletedIn(b, p, run) {
      LeadsToEnd(setup.parts, p);
      AncestorsCompletedIn(setup, b, run, END, p);
    }
  }

  // A run creates at most as many events as there are parts.
  lemma RunFitsIn(setup: Setup, b: Ledger, run: Run)
    requires JournalOk(setup, b)
    ensures |EventsOf(b, run)| <= |setup.parts|
  {
    forall k | k in EventsOf(b, run) ensures b.created[k].part in Ids(setup.parts) {
      PartIds(setup, b, k);
    }
    EventsFit(b, EventsOf(b, run), Ids(setup.parts), run);
    IdsFit(setup.parts);
  }

  // Nothing of a run completes, and only S of it is created, unless S completes.
  lemma {:induction false} NothingWithoutStart(setup: Setup, b: Ledger, run: Run, n: string)
    requires Sound(setup.parts) && JournalOk(setup, b) && run in b.runs && !CompletedIn(b, START, run)
    ensures CreatedIn(b, n, run) ==> n == START
    ensures !CompletedIn(b, n, run)
    decreases Ancestors(GraphOf(setup.parts), n)
  {
    hide Sound;
    hide JournalOk;
    if CompletedIn(b, n, run) {
      CompletedWasCreated(setup, b, n, run);
    }
    if CreatedIn(b, n, run) && n != START {
      var p := CompletedBefore(setup, b, n, run);
      PrevFacts(setup.parts, p, n);
      AncestorsShrink(GraphOf(setup.parts), p, n);
      NothingWithoutStart(setup, b, run, p);
    }
  }

  lemma CompletedWasCreated(setup: Setup, b: Ledger, n: string, run: Run)
    requires JournalOk(setup, b) && run in b.runs && CompletedIn(b, n, run)
    ensures CreatedIn(b, n, run)
  {
    hide RightPayload;
    hide Typed;
  }

  lemma CompletedBefore(setup: Setup, b: Ledger, n: string, run: Run) returns (p: string)
    requires JournalOk(setup, b) && CreatedIn(b, n, run) && n != START
    ensures p in Prev(setup.parts, n) && CompletedIn(b, p, run)
  {
    var k :| 0 <= k < |b.created| && b.created[k].part == n && b.created[k].run == run;
    p := Prev(setup.parts, n)[0];
    assert OutputOf(b.completed, p, run, b.created[k].data[0]);
  }
}
