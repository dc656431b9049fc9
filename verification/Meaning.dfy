// What a story computes: the output of every part as a function of the story, the adapters' code
// and the input alone.
module Meaning {
  import opened Options
  import opened Walks
  import opened Story
  import opened Acceptance
  import opened Plan
  import opened Bus
  import opened Journal
  import opened Adapters

  // The adapters' functions by name, and how their values are read and written.
  datatype Code = Code(fs: string -> ExecFunc, decode: Decoder, encode: Encoder)

  // What a worker gets from executing the part on these data.
  function Execution(setup: Setup, code: Code, p: string, ds: seq<Data>): Executed {
    match GetAdapter(PartOf(p, setup.parts).adapter, setup.adapters)
    case None => Failed
    case Some(a) => ExecuteSpec(a, code.fs(a.name), code.decode, code.encode, ds)
  }

  // The output of a part of the story started with this datum; None if it cannot be had.
  ghost function Output(setup: Setup, code: Code, start: Data, p: string): Option<Data>
    requires Sound(setup.parts)
    decreases Ancestors(GraphOf(setup.parts), p), 2, 0
  {
    var ds := Given(setup, code, start, p);
    if ds.None? then None
    else
      match Execution(setup, code, p, ds.value)
      case Returned(out) => Some(out)
      case _ => None
  }

  // The data that a part is to be executed on.
  ghost function Given(setup: Setup, code: Code, start: Data, p: string): Option<seq<Data>>
    requires Sound(setup.parts)
    decreases Ancestors(GraphOf(setup.parts), p), 1, 0
  {
    if p == START then Some([start]) else Inputs(setup, code, start, p, |Prev(setup.parts, p)|)
  }

  // The outputs of its first n predecessors, in their order.
  ghost function Inputs(setup: Setup, code: Code, start: Data, p: string, n: nat): (r: Option<seq<Data>>)
    requires Sound(setup.parts) && n <= |Prev(setup.parts, p)|
    ensures r.Some? ==> |r.value| == n
    decreases Ancestors(GraphOf(setup.parts), p), 0, n
  {
    if n == 0 then Some([])
    else
      var q := Prev(setup.parts, p)[n - 1];
      PrevFacts(setup.parts, q, p);
      AncestorsShrink(GraphOf(setup.parts), q, p);
      var ds := Inputs(setup, code, start, p, n - 1);
      var d := Output(setup, code, start, q);
      if ds.Some? && d.Some? then Some(ds.value + [d.value]) else None
  }

  // A part's output is what its adapter makes of its predecessors' outputs in their order.
  lemma OutputIs(setup: Setup, code: Code, start: Data, p: string, ds: seq<Data>)
    requires Sound(setup.parts) && p != START && |ds| == |Prev(setup.parts, p)|
    requires forall i :: 0 <= i < |ds| ==> Output(setup, code, start, Prev(setup.parts, p)[i]) == Some(ds[i])
    ensures Given(setup, code, start, p) == Some(ds)
  {
    hide Output;
    InputsAre(setup, code, start, p, ds, |ds|);
    assert ds[..|ds|] == ds;
  }

  lemma {:induction false} InputsAre(setup: Setup, code: Code, start: Data, p: string, ds: seq<Data>, n: nat)
    requires Sound(setup.parts) && |ds| == |Prev(setup.parts, p)| && n <= |ds|
    requires forall i :: 0 <= i < |ds| ==> Output(setup, code, start, Prev(setup.parts, p)[i]) == Some(ds[i])
    ensures Inputs(setup, code, start, p, n) == Some(ds[..n])
  {
    hide Output;
    hide Sound;
    if n > 0 {
      InputsAre(setup, code, start, p, ds, n - 1);
      assert ds[..n - 1] + [ds[n - 1]] == ds[..n];
    }
  }

  lemma OutputOfGiven(setup: Setup, code: Code, start: Data, p: string, ds: seq<Data>, out: Data)
    requires Sound(setup.parts) && Given(setup, code, start, p) == Some(ds)
    requires Execution(setup, code, p, ds) == Returned(out)
    ensures Output(setup, code, start, p) == Some(out)
  {
    hide Sound;
    hide Execution;
  }

  // ----- a ledger that computes -----

  // Every event of the run holds, and every completion of it gives, what the story says.
  ghost predicate Computed(setup: Setup, code: Code, b: Ledger, run: Run, start: Data)
    requires Sound(setup.parts)
  {
    && (forall k :: 0 <= k < |b.created| && b.created[k].run == run ==>
      Given(setup, code, start, b.created[k].part) == Some(b.created[k].data))
    && (forall j :: 0 <= j < |b.completed| && b.completed[j].run == run ==>
          |b.completed[j].data| == 1
          && Output(setup, code, start, b.completed[j].part) == Some(b.completed[j].data[0]))
  }

  // The completion gives what the execution of its event returned.
  ghost predicate Executes(setup: Setup, code: Code, b: Ledger, c: Completion) {
    && c.src < |b.created| && c.part == b.created[c.src].part && c.run == b.created[c.src].run
    && |c.data| == 1 && Execution(setup, code, c.part, b.created[c.src].data) == Returned(c.data[0])
  }

  // At most one event or one completion came in.
  ghost predicate Grows(setup: Setup, code: Code, b: Ledger, b': Ledger, run: Run, start: Data) {
    || (b'.created == b.created && b'.completed == b.completed)
    || (b'.completed == b.completed && |b'.created| == |b.created| + 1 && b'.created[..|b.created|] == b.created
        && var e := b'.created[|b.created|]; e.run == run && e.part == START ==> e.data == [start])
    || (b'.created == b.created && |b'.completed| == |b.completed| + 1
        && b'.completed[..|b.completed|] == b.completed
        && var c := b'.completed[|b.completed|]; c.run == run ==> Executes(setup, code, b, c))
  }

  lemma EventComputes(setup: Setup, code: Code, b: Ledger, e: Event, start: Data)
    requires Sound(setup.parts) && Computed(setup, code, b, e.run, start)
    requires if e.part == START then e.data == [start] else RightPayload(setup.parts, b.completed, e)
    ensures Given(setup, code, start, e.part) == Some(e.data)
  {
    hide Sound;
    hide Output;
    if e.part != START {
      var prev := Prev(setup.parts, e.part);
      forall i | 0 <= i < |prev| ensures Output(setup, code, start, prev[i]) == Some(e.data[i]) {
        assert OutputOf(b.completed, prev[i], e.run, e.data[i]);
      }
      OutputIs(setup, code, start, e.part, e.data);
    }
  }

  lemma GrowthComputes(setup: Setup, code: Code, b: Ledger, b': Ledger, run: Run, start: Data)
    requires Sound(setup.parts) && JournalOk(setup, b') && Computed(setup, code, b, run, start)
    requires Grows(setup, code, b, b', run, start)
    ensures Computed(setup, code, b', run, start)
  {
    hide Sound;
    hide Output;
    hide Given;
    hide Execution;
    hide RightPayload;
    if |b'.created| > |b.created| {
      var e := b'.created[|b.created|];
      assert e.part != START ==> RightPayload(setup.parts, b'.completed, e);
      if e.run == run { EventComputes(setup, code, b, e, start); }
      assert forall k :: 0 <= k < |b.created| ==> b'.created[k] == b'.created[..|b.created|][k];
    } else if |b'.completed| > |b.completed| {
      var c := b'.completed[|b.completed|];
      if c.run == run { OutputOfGiven(setup, code, start, c.part, b.created[c.src].data, c.data[0]); }
      assert forall j :: 0 <= j < |b.completed| ==> b'.completed[j] == b'.completed[..|b.completed|][j];
    }
  }

  lemma NothingComputed(setup: Setup, code: Code, run: Run, start: Data)
    requires Sound(setup.parts)
    ensures Computed(setup, code, EMPTY, run, start)
  {
  }

  // Two runs with one input give the same outputs, in whatever ledgers of whatever readers they are.
  lemma SameOutputs(setup: Setup, code: Code, b: Ledger, x: Run, b': Ledger, y: Run, start: Data, j: nat, k: nat)
    requires Sound(setup.parts) && Computed(setup, code, b, x, start) && Computed(setup, code, b', y, start)
    requires j < |b.completed| && b.completed[j].run == x && k < |b'.completed| && b'.completed[k].run == y
    requires b.completed[j].part == b'.completed[k].part
    ensures b.completed[j].data == b'.completed[k].data
  {
    hide Output;
    hide Given;
    hide Sound;
  }
}
