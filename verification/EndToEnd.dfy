// From declarations to executions: a story that End builds and New accepts, run by either reader,
// hands every part what its adapter asks for.
module EndToEnd {
  import opened Story
  import opened SortProofs
  import opened StoryProofs
  import opened Acceptance
  import opened Plan
  import opened Bus
  import opened Journal
  import opened Adapters
  import opened Wiring
  import Reader
  import Repeatable
  import RepeatableInvariant

  // End built the story from tidy declarations, and New accepted it with named adapters.
  ghost predicate Deployed(declared: seq<Part>, ads: seq<Adapter>, setup: Setup) {
    && Open(declared) && Tidy(declared) && NothingLinksToStart(declared)
    && EndSpec(declared) == Built(setup.parts)
    && NewSpec(setup.parts, ads) == Accepted(setup.adapters)
    && (forall a :: a in ads ==> a.name != "")
  }

  lemma DeployedIsSound(declared: seq<Part>, ads: seq<Adapter>, setup: Setup)
    requires Deployed(declared, ads, setup)
    ensures Sound(setup.parts)
    ensures forall id :: IsPart(setup.parts, id) <==> id == END || IsPart(declared, id)
  {
    hide *;
    NoBlankOf(declared, ads, setup);
    BuiltIsSound(declared, setup.parts);
  }

  lemma NoBlankOf(declared: seq<Part>, ads: seq<Adapter>, setup: Setup)
    requires Deployed(declared, ads, setup)
    ensures Open(declared) && Tidy(declared) && NothingLinksToStart(declared)
    ensures EndSpec(declared) == Built(setup.parts) && BLANK !in setup.parts
    ensures NewSpec(setup.parts, ads) == Accepted(setup.adapters)
  {
    hide Open;
    hide Tidy;
    hide EndSpec;
    hide NewSpec;
    NoBlankAccepted(setup.parts, ads);
  }

  // The facts of the ledger that wiring needs.
  lemma JournalServes(setup: Setup, b: Ledger, e: Event)
    requires JournalOk(setup, b) && e in b.created && e.part != START
    ensures RightPayload(setup.parts, b.completed, e) && Typed(setup, b.completed)
  {
    hide RightPayload;
    hide Typed;
    var k :| 0 <= k < |b.created| && b.created[k] == e;
  }

  lemma DeployedIsWired(declared: seq<Part>, ads: seq<Adapter>, setup: Setup, p: string, a: Adapter)
    requires Deployed(declared, ads, setup) && Unambiguous(setup, p, a)
    ensures Wired(setup, ads, p, a)
  {
    hide Sound;
    hide NewSpec;
    hide Unambiguous;
    DeployedIsSound(declared, ads, setup);
  }

  // In every reachable state of the repeatable reader, through any restarts and with any number
  // of replicas, the execution of a created event calls the adapter's function, and where the
  // required adapters are named in order its j-th parameter is what the predecessor running the
  // j-th of them returned in that run.
  lemma EveryExecutionIsWired(declared: seq<Part>, ads: seq<Adapter>, setup: Setup, s: Repeatable.System, e: Event,
                              a: Adapter, f: ExecFunc, decode: Decoder, encode: Encoder)
    returns (ts: seq<Value>)
    requires Deployed(declared, ads, setup) && Unambiguous(setup, e.part, a)
    requires Repeatable.Reachable(setup, s) && e in s.bus.created && AllDecode(decode, e.data)
    ensures ExecuteSpec(a, f, decode, encode, e.data) == Call(a, f, encode, ts)
    ensures |ts| == |a.reqs|
    ensures NamedInOrder(setup, a, Prev(setup.parts, e.part)) ==>
              forall j :: 0 <= j < |a.reqs| ==> Supplied(setup.parts, s.bus.completed, e, decode, a.reqs[j].name, ts[j])
  {
    hide *;
    DeployedIsSound(declared, ads, setup);
    DeployedIsWired(declared, ads, setup, e.part, a);
    JournalOfRepeatable(setup, s);
    NotStart(setup, e.part, a);
    JournalServes(setup, s.bus, e);
    ts := ParametersAreWired(setup, ads, e.part, a, s.bus.completed, e, f, decode, encode);
  }

  // The same for the plain reader.
  lemma EveryPlainExecutionIsWired(declared: seq<Part>, ads: seq<Adapter>, setup: Setup, s: Reader.System, e: Event,
                                   a: Adapter, f: ExecFunc, decode: Decoder, encode: Encoder)
    returns (ts: seq<Value>)
    requires Deployed(declared, ads, setup) && Unambiguous(setup, e.part, a)
    requires Reader.Reachable(setup, s) && e in s.bus.created && AllDecode(decode, e.data)
    ensures ExecuteSpec(a, f, decode, encode, e.data) == Call(a, f, encode, ts)
    ensures |ts| == |a.reqs|
    ensures NamedInOrder(setup, a, Prev(setup.parts, e.part)) ==>
              forall j :: 0 <= j < |a.reqs| ==> Supplied(setup.parts, s.bus.completed, e, decode, a.reqs[j].name, ts[j])
  {
    hide *;
    DeployedIsSound(declared, ads, setup);
    DeployedIsWired(declared, ads, setup, e.part, a);
    JournalOfReader(setup, s);
    NotStart(setup, e.part, a);
    JournalServes(setup, s.bus, e);
    ts := ParametersAreWired(setup, ads, e.part, a, s.bus.completed, e, f, decode, encode);
  }

  lemma NotStart(setup: Setup, p: string, a: Adapter)
    requires Unambiguous(setup, p, a)
    ensures p != START
  {
  }

  lemma JournalOfRepeatable(setup: Setup, s: Repeatable.System)
    requires Sound(setup.parts) && Repeatable.Reachable(setup, s)
    ensures JournalOk(setup, s.bus)
  {
    hide Sound;
    hide JournalOk;
    RepeatableInvariant.ReachableInvariant(setup, s);
  }

  lemma JournalOfReader(setup: Setup, s: Reader.System)
    requires Sound(setup.parts) && Reader.Reachable(setup, s)
    ensures JournalOk(setup, s.bus)
  {
    hide Sound;
    hide JournalOk;
    Reader.ReachableInvariant(setup, s);
  }
}
