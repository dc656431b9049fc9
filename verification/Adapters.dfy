// adapter.Execute: matching the data that arrived to the parameters that an adapter asks for,
// by type name, greedily and in order.
module Adapters {
  import opened Options
  import opened Story
  import opened Acceptance
  import opened Bus

  // A parameter: left nil for a nil type, otherwise the decoded value.
  datatype Value = NilValue | Value(v: string)

  datatype Executed =
    | NotAllParameters
    | NotAllUsed
    | Failed
    | Returned(out: Data)

  // json.Unmarshal of the bytes into a value of the named type, and json.Marshal back.
  type Decoder = (string, string) -> Option<string>
  type Encoder = string -> Option<string>
  type ExecFunc = seq<Value> -> Option<string>

  predicate IsNil(typ: string) {
    typ == "struct {}" || typ == NIL_TYPE
  }

  // Does datum d serve a requirement of this type?
  predicate Serves(decode: Decoder, typ: string, d: Data) {
    typ != "" && d.typ == typ && (IsNil(typ) || decode(typ, d.bytes).Some?)
  }

  // The first unused datum, from slot i on, that serves the type; |ds| if there is none.
  function Pick(decode: Decoder, typ: string, ds: seq<Data>, used: seq<bool>, i: nat): (r: nat)
    requires |used| == |ds| && i <= |ds|
    ensures i <= r <= |ds|
    ensures r < |ds| ==> !used[r] && Serves(decode, typ, ds[r])
    ensures forall k :: i <= k < r ==> used[k] || !Serves(decode, typ, ds[k])
    decreases |ds| - i
  {
    if i == |ds| || (!used[i] && Serves(decode, typ, ds[i])) then i
    else Pick(decode, typ, ds, used, i + 1)
  }

  datatype Matching = NoMatch | Matched(slots: seq<nat>, used: seq<bool>)

  // The slot that each requirement gets, and the slots that are taken in the end.
  function Match(decode: Decoder, reqs: seq<Fingerprint>, ds: seq<Data>, used: seq<bool>): (r: Matching)
    requires |used| == |ds|
    ensures r.Matched? ==> |r.slots| == |reqs| && |r.used| == |ds| && forall j :: 0 <= j < |reqs| ==> r.slots[j] < |ds|
    decreases |reqs|
  {
    if reqs == [] then Matched([], used)
    else
      var i := Pick(decode, reqs[0].typ, ds, used, 0);
      if i == |ds| then NoMatch
      else
        match Match(decode, reqs[1..], ds, used[i := true])
        case NoMatch => NoMatch
        case Matched(slots, all) => Matched([i] + slots, all)
  }

  function Unused(ds: seq<Data>): seq<bool> {
    seq(|ds|, _ => false)
  }

  function ValueOf(decode: Decoder, d: Data): Value {
    if IsNil(d.typ) then NilValue
    else match decode(d.typ, d.bytes) case Some(v) => Value(v) case None => NilValue
  }

  function Params(decode: Decoder, ds: seq<Data>, slots: seq<nat>): (ts: seq<Value>)
    requires forall j :: 0 <= j < |slots| ==> slots[j] < |ds|
    ensures |ts| == |slots|
  {
    seq(|slots|, j requires 0 <= j < |slots| => ValueOf(decode, ds[slots[j]]))
  }

  predicate AllUsed(ds: seq<Data>, used: seq<bool>)
    requires |used| == |ds|
  {
    forall i :: 0 <= i < |ds| ==> used[i] || IsNil(ds[i].typ)
  }

  // The call of the adapter's function and the encoding of what it returns.
  function Call(a: Adapter, f: ExecFunc, encode: Encoder, ts: seq<Value>): Executed {
    match f(ts)
    case None => Failed
    case Some(v) =>
      if IsNil(a.typ) then Returned(Data(a.typ, ""))
      else match encode(v) case None => Failed case Some(b) => Returned(Data(a.typ, b))
  }

  function ExecuteSpec(a: Adapter, f: ExecFunc, decode: Decoder, encode: Encoder, ds: seq<Data>): Executed {
    match Match(decode, a.reqs, ds, Unused(ds))
    case NoMatch => NotAllParameters
    case Matched(slots, used) =>
      if a.name != END_ADAPTER && !AllUsed(ds, used) then NotAllUsed
      else Call(a, f, encode, Params(decode, ds, slots))
  }

  // The value that a datum of the type stands for.
  predicate DecodesTo(decode: Decoder, typ: string, bytes: string, v: Value) {
    if typ in ["struct {}", "adapter.NilType"] then v == NilValue else v.Value? && decode(typ, bytes) == Some(v.v)
  }

  // The inner loop of adapter.Execute: find, take and decode the datum for one requirement.
  method TakeOne(req: Fingerprint, decode: Decoder, ds: seq<Data>, used: array<bool>) returns (slot: nat, v: Value)
    requires used.Length == |ds|
    modifies used
    ensures slot == Pick(decode, req.typ, ds, old(used[..]), 0)
    ensures slot < |ds| ==> used[..] == old(used[..])[slot := true] && v == ValueOf(decode, ds[slot])
    ensures slot < |ds| ==> DecodesTo(decode, req.typ, ds[slot].bytes, v)
    ensures slot == |ds| ==> used[..] == old(used[..])
  {
    for i := 0 to |ds|
      invariant used[..] == old(used[..])
      invariant Pick(decode, req.typ, ds, old(used[..]), 0) == Pick(decode, req.typ, ds, old(used[..]), i)
    {
      var d := ds[i];
      if used[i] || req.typ == "" || d.typ != req.typ {
        continue;
      }
      if IsNil(d.typ) {
        used[i] := true;
        return i, NilValue;
      }
      var t := decode(req.typ, d.bytes);
      if t.None? {
        continue;
      }
      used[i] := true;
      return i, Value(t.value);
    }
    return |ds|, NilValue;
  }

  // The outer loop of adapter.Execute: one parameter for each requirement, in order.
  method TakeAll(reqs: seq<Fingerprint>, decode: Decoder, ds: seq<Data>, used: array<bool>)
    returns (all: bool, ts: seq<Value>)
    requires used.Length == |ds|
    modifies used
    ensures var m := Match(decode, reqs, ds, old(used[..]));
      && all == m.Matched?
      && (all ==> ts == Params(decode, ds, m.slots) && used[..] == m.used)
  {
    hide Pick;
    hide ValueOf;
    ts := [];
    ghost var slots: seq<nat> := [];
    assert reqs[0..] == reqs;
    for j := 0 to |reqs|
      invariant |slots| == |ts| == j
      invariant forall k :: 0 <= k < j ==> slots[k] < |ds| && ts[k] == ValueOf(decode, ds[slots[k]])
      invariant Match(decode, reqs, ds, old(used[..])) == Prepend(slots, Match(decode, reqs[j..], ds, used[..]))
    {
      assert reqs[j..][1..] == reqs[j + 1..];
      var i, v := TakeOne(reqs[j], decode, ds, used);
      if i == |ds| {
        return false, ts;
      }
      ts := ts + [v];
      PrependMore(slots, i, Match(decode, reqs[j + 1..], ds, used[..]));
      slots := slots + [i];
    }
    assert slots + [] == slots;
    return true, ts;
  }

  // adapter.Execute
  method Execute(a: Adapter, f: ExecFunc, decode: Decoder, encode: Encoder, ds: seq<Data>) returns (r: Executed)
    ensures r == ExecuteSpec(a, f, decode, encode, ds)
  {
    hide Match;
    hide Params;
    var used := new bool[|ds|](_ => false);
    assert used[..] == Unused(ds);
    var all, ts := TakeAll(a.reqs, decode, ds, used);
    if !all {
      return NotAllParameters;
    }
    if a.name != END_ADAPTER {
      for i := 0 to |ds|
        invariant forall k :: 0 <= k < i ==> used[k] || IsNil(ds[k].typ)
      {
        if !used[i] && !IsNil(ds[i].typ) {
          return NotAllUsed;
        }
      }
    }
    var v := f(ts);
    if v.None? {
      return Failed;
    }
    if IsNil(a.typ) {
      return Returned(Data(a.typ, ""));
    }
    var b := encode(v.value);
    if b.None? {
      return Failed;
    }
    return Returned(Data(a.typ, b.value));
  }

  function Prepend(slots: seq<nat>, m: Matching): Matching {
    match m
    case NoMatch => NoMatch
    case Matched(more, used) => Matched(slots + more, used)
  }

  lemma PrependMore(slots: seq<nat>, i: nat, m: Matching)
    ensures Prepend(slots, Prepend([i], m)) == Prepend(slots + [i], m)
  {
    if m.Matched? {
      assert slots + ([i] + m.slots) == (slots + [i]) + m.slots;
    }
  }

  // ----- what Execute does, for any data -----

  // Slot i is the first one not yet given away whose datum serves the type.
  ghost predicate FirstFree(decode: Decoder, typ: string, ds: seq<Data>, given: seq<nat>, i: nat) {
    && i < |ds| && i !in given && Serves(decode, typ, ds[i])
    && forall k: nat :: k < i ==> k in given || !Serves(decode, typ, ds[k])
  }

  // One requirement after the other gets the first slot that is free for it.
  ghost predicate Greedy(decode: Decoder, reqs: seq<Fingerprint>, ds: seq<Data>, given: seq<nat>, slots: seq<nat>) {
    |slots| == |reqs| && forall j :: 0 <= j < |reqs| ==>
      FirstFree(decode, reqs[j].typ, ds, given + slots[..j], slots[j])
  }

  // The parameters are the values of the data in the slots.
  ghost predicate Decoded(decode: Decoder, reqs: seq<Fingerprint>, ds: seq<Data>, slots: seq<nat>, ts: seq<Value>) {
    |ts| == |reqs| == |slots| && forall j :: 0 <= j < |reqs| ==>
      slots[j] < |ds| && DecodesTo(decode, reqs[j].typ, ds[slots[j]].bytes, ts[j])
  }

  ghost predicate Marks(used: seq<bool>, given: seq<nat>) {
    forall i: nat :: i < |used| ==> (used[i] <==> i in given)
  }

  lemma PickIsFirstFree(decode: Decoder, typ: string, ds: seq<Data>, used: seq<bool>, given: seq<nat>, i: nat)
    requires |used| == |ds| && Marks(used, given)
    ensures FirstFree(decode, typ, ds, given, i) <==> i < |ds| && i == Pick(decode, typ, ds, used, 0)
  {
    hide Serves;
    var p := Pick(decode, typ, ds, used, 0);
    if p < i && p < |ds| {
      assert p !in given && Serves(decode, typ, ds[p]);
    }
  }

  lemma GreedyFirst(decode: Decoder, reqs: seq<Fingerprint>, ds: seq<Data>, given: seq<nat>, slots: seq<nat>)
    requires reqs != []
    ensures Greedy(decode, reqs, ds, given, slots) <==>
      && slots != [] && FirstFree(decode, reqs[0].typ, ds, given, slots[0])
      && Greedy(decode, reqs[1..], ds, given + [slots[0]], slots[1..])
  {
    hide FirstFree;
    if |slots| == |reqs| {
      assert given + slots[..0] == given;
      assert forall j :: 1 <= j < |reqs| ==> given + slots[..j] == given + [slots[0]] + slots[1..][..j - 1];
      if Greedy(decode, reqs[1..], ds, given + [slots[0]], slots[1..]) {
        forall j | 1 <= j < |reqs| ensures FirstFree(decode, reqs[j].typ, ds, given + slots[..j], slots[j]) {
          assert FirstFree(decode, reqs[1..][j - 1].typ, ds, given + [slots[0]] + slots[1..][..j - 1],
                           slots[1..][j - 1]);
        }
      }
    }
  }

  lemma {:induction false} MatchIsGreedyFrom(decode: Decoder, reqs: seq<Fingerprint>, ds: seq<Data>, given: seq<nat>,
                                             used: seq<bool>, slots: seq<nat>)
    requires |used| == |ds| && Marks(used, given)
    ensures var m := Match(decode, reqs, ds, used);
      && (Greedy(decode, reqs, ds, given, slots) <==> m.Matched? && m.slots == slots)
      && (m.Matched? && m.slots == slots ==> Marks(m.used, given + slots))
    decreases |reqs|
  {
    hide FirstFree;
    if reqs == [] {
      assert slots == [] ==> given + slots == given;
    } else {
      GreedyFirst(decode, reqs, ds, given, slots);
      var i := Pick(decode, reqs[0].typ, ds, used, 0);
      if slots != [] {
        hide Greedy;
        PickIsFirstFree(decode, reqs[0].typ, ds, used, given, slots[0]);
        assert given + [slots[0]] + slots[1..] == given + slots && [slots[0]] + slots[1..] == slots;
        if i < |ds| && slots[0] == i {
          MatchIsGreedyFrom(decode, reqs[1..], ds, given + [i], used[i := true], slots[1..]);
        }
      }
    }
  }

  // For any data: the matching gives each requirement the first slot that is free for it, and
  // marks those; there is no matching exactly if that cannot be done.
  lemma MatchIsGreedy(decode: Decoder, reqs: seq<Fingerprint>, ds: seq<Data>)
    ensures var m := Match(decode, reqs, ds, Unused(ds));
      if m.Matched? then Greedy(decode, reqs, ds, [], m.slots) && Marks(m.used, m.slots)
      else forall slots :: !Greedy(decode, reqs, ds, [], slots)
    ensures forall slots, slots' :: Greedy(decode, reqs, ds, [], slots) && Greedy(decode, reqs, ds, [], slots') ==>
              slots == slots'
  {
    hide Match;
    hide Greedy;
    forall slots
      ensures var m := Match(decode, reqs, ds, Unused(ds));
        && (Greedy(decode, reqs, ds, [], slots) <==> m.Matched? && m.slots == slots)
        && (m.Matched? && m.slots == slots ==> Marks(m.used, slots))
    {
      MatchIsGreedyFrom(decode, reqs, ds, [], Unused(ds), slots);
      assert [] + slots == slots;
    }
  }

  lemma ParamsAreDecoded(decode: Decoder, reqs: seq<Fingerprint>, ds: seq<Data>, slots: seq<nat>, ts: seq<Value>)
    requires Greedy(decode, reqs, ds, [], slots)
    ensures forall j :: 0 <= j < |slots| ==> slots[j] < |ds|
    ensures Decoded(decode, reqs, ds, slots, ts) <==> ts == Params(decode, ds, slots)
  {
    forall j | 0 <= j < |slots|
      ensures slots[j] < |ds| && ds[slots[j]].typ == reqs[j].typ
      ensures IsNil(reqs[j].typ) || decode(reqs[j].typ, ds[slots[j]].bytes).Some?
    {
      assert FirstFree(decode, reqs[j].typ, ds, [] + slots[..j], slots[j]);
    }
  }

  // What a call returns: the type of the adapter, and the encoded result of its function unless
  // the type is a nil type.
  lemma CallReturns(a: Adapter, f: ExecFunc, encode: Encoder, ts: seq<Value>, out: Data)
    ensures Call(a, f, encode, ts) == Returned(out) <==>
      && out.typ == a.typ && f(ts).Some?
      && if IsNil(a.typ) then out.bytes == "" else encode(f(ts).value) == Some(out.bytes)
    ensures Call(a, f, encode, ts).Returned? || Call(a, f, encode, ts) == Failed
  {
  }

  // For any data, with slots given away greedily: Execute refuses leftovers of a type with values,
  // except for the End adapter; otherwise it calls the function with the decoded data, and
  // returns what that gives, encoded under the adapter's type.
  lemma ExecuteMeans(a: Adapter, f: ExecFunc, decode: Decoder, encode: Encoder, ds: seq<Data>, slots: seq<nat>,
                     ts: seq<Value>)
    requires Greedy(decode, a.reqs, ds, [], slots) && Decoded(decode, a.reqs, ds, slots, ts)
    ensures var r := ExecuteSpec(a, f, decode, encode, ds);
      var leftover := exists i: nat :: i < |ds| && i !in slots && !IsNil(ds[i].typ);
      && r != NotAllParameters
      && (r == NotAllUsed <==> a.name != END_ADAPTER && leftover)
      && forall out :: r == Returned(out) <==>
        && (a.name == END_ADAPTER || !leftover)
        && out.typ == a.typ && f(ts).Some?
        && if IsNil(a.typ) then out.bytes == "" else encode(f(ts).value) == Some(out.bytes)
  {
    hide Match;
    hide Greedy;
    hide Decoded;
    hide Params;
    hide IsNil;
    hide Call;
    MatchIsGreedy(decode, a.reqs, ds);
    ParamsAreDecoded(decode, a.reqs, ds, slots, ts);
    var m := Match(decode, a.reqs, ds, Unused(ds));
    assert m.Matched? && m.slots == slots && Params(decode, ds, slots) == ts;
    forall out ensures Call(a, f, encode, ts) == Returned(out) <==>
        && out.typ == a.typ && f(ts).Some?
        && if IsNil(a.typ) then out.bytes == "" else encode(f(ts).value) == Some(out.bytes)
    {
      CallReturns(a, f, encode, ts, out);
    }
    CallReturns(a, f, encode, ts, Data("", ""));
  }

  // ... and without such slots it refuses for lack of a parameter.
  lemma ExecuteLacks(a: Adapter, f: ExecFunc, decode: Decoder, encode: Encoder, ds: seq<Data>)
    ensures ExecuteSpec(a, f, decode, encode, ds) == NotAllParameters <==>
            forall slots :: !Greedy(decode, a.reqs, ds, [], slots)
  {
    hide Match;
    hide Greedy;
    hide Params;
    hide Call;
    MatchIsGreedy(decode, a.reqs, ds);
    var m := Match(decode, a.reqs, ds, Unused(ds));
    if m.Matched? {
      CallReturns(a, f, encode, Params(decode, ds, m.slots), Data("", ""));
    }
  }

  // ----- the matching in terms of counts -----

  function Wanted(reqs: seq<Fingerprint>, typ: string): nat {
    if reqs == [] then 0
    else Wanted(reqs[..|reqs| - 1], typ) + if reqs[|reqs| - 1].typ == typ then 1 else 0
  }

  function Offered(ds: seq<Data>, typ: string): nat {
    if ds == [] then 0
    else Offered(ds[..|ds| - 1], typ) + if ds[|ds| - 1].typ == typ then 1 else 0
  }

  // Everything of a required type decodes.
  ghost predicate AllDecode(decode: Decoder, ds: seq<Data>) {
    forall d :: d in ds ==> IsNil(d.typ) || decode(d.typ, d.bytes).Some?
  }

  // A slot is taken exactly when it ranks among the first of its type that were asked for.
  ghost predicate TakenInOrder(done: seq<Fingerprint>, ds: seq<Data>, used: seq<bool>) {
    |used| == |ds| && forall i :: 0 <= i < |ds| ==> (used[i] <==> Offered(ds[..i], ds[i].typ) < Wanted(done, ds[i].typ))
  }

  lemma {:induction false} OfferedGrows(ds: seq<Data>, i: nat, typ: string)
    requires i <= |ds|
    ensures Offered(ds[..i], typ) <= Offered(ds, typ)
    ensures i < |ds| && ds[i].typ == typ ==> Offered(ds[..i], typ) < Offered(ds, typ)
    decreases |ds|
  {
    if i < |ds| {
      var front := ds[..|ds| - 1];
      assert front[..i] == ds[..i];
      OfferedGrows(front, i, typ);
    } else {
      assert ds[..i] == ds;
    }
  }

  // The datum of a given rank among those of its type.
  lemma {:induction false} RankExists(ds: seq<Data>, typ: string, rank: nat) returns (i: nat)
    requires rank < Offered(ds, typ)
    ensures i < |ds| && ds[i].typ == typ && Offered(ds[..i], typ) == rank
    decreases |ds|
  {
    var n := |ds| - 1;
    if rank < Offered(ds[..n], typ) {
      i := RankExists(ds[..n], typ, rank);
      assert ds[..n][..i] == ds[..i];
    } else {
      i := n;
    }
  }

  lemma RankUnique(ds: seq<Data>, i: nat, j: nat)
    requires i < |ds| && j < |ds| && ds[i].typ == ds[j].typ
    requires Offered(ds[..i], ds[i].typ) == Offered(ds[..j], ds[i].typ)
    ensures i == j
  {
    if i < j {
      assert ds[..j][..i] == ds[..i];
      OfferedGrows(ds[..j], i, ds[i].typ);
    } else if j < i {
      assert ds[..i][..j] == ds[..j];
      OfferedGrows(ds[..i], j, ds[i].typ);
    }
  }

  // With everything decoding, the next requirement of a type gets the next datum of that type.
  lemma PickIsNext(decode: Decoder, done: seq<Fingerprint>, typ: string, ds: seq<Data>, used: seq<bool>)
    requires AllDecode(decode, ds) && TakenInOrder(done, ds, used) && typ != ""
    ensures var i := Pick(decode, typ, ds, used, 0);
      if Wanted(done, typ) < Offered(ds, typ)
      then i < |ds| && ds[i].typ == typ && Offered(ds[..i], typ) == Wanted(done, typ)
      else i == |ds|
  {
    hide Wanted;
    hide Offered;
    hide Pick;
    var i := Pick(decode, typ, ds, used, 0);
    if Wanted(done, typ) < Offered(ds, typ) {
      var k := RankExists(ds, typ, Wanted(done, typ));
      assert ds[k] in ds;
      assert Serves(decode, typ, ds[k]) && !used[k];
      assert i <= k;
      if i < k {
        assert ds[..k][..i] == ds[..i];
        OfferedGrows(ds[..k], i, typ);
      }
    } else if i < |ds| {
      OfferedGrows(ds, i, typ);
    }
  }

  lemma TakeNext(done: seq<Fingerprint>, req: Fingerprint, ds: seq<Data>, used: seq<bool>, i: nat)
    requires TakenInOrder(done, ds, used) && i < |ds| && ds[i].typ == req.typ
    requires Offered(ds[..i], req.typ) == Wanted(done, req.typ)
    ensures TakenInOrder(done + [req], ds, used[i := true])
  {
    var used' := used[i := true];
    assert (done + [req])[..|done|] == done;
    forall k | 0 <= k < |ds|
      ensures used'[k] <==> Offered(ds[..k], ds[k].typ) < Wanted(done + [req], ds[k].typ)
    {
      if ds[k].typ == req.typ && Offered(ds[..k], req.typ) == Wanted(done, req.typ) {
        RankUnique(ds, i, k);
      }
    }
  }

  // No requirement is nameless, and none of the rest asks for more than is left.
  ghost predicate Satisfiable(done: seq<Fingerprint>, reqs: seq<Fingerprint>, ds: seq<Data>) {
    && (forall r :: r in reqs ==> r.typ != "")
    && (forall typ: string :: Wanted(reqs, typ) > 0 ==> Wanted(done, typ) + Wanted(reqs, typ) <= Offered(ds, typ))
  }

  lemma {:induction false} WantedAdds(done: seq<Fingerprint>, reqs: seq<Fingerprint>, typ: string)
    ensures Wanted(done + reqs, typ) == Wanted(done, typ) + Wanted(reqs, typ)
    decreases |reqs|
  {
    if reqs == [] {
      assert done + reqs == done;
    } else {
      var n := |reqs| - 1;
      assert (done + reqs)[..|done| + n] == done + reqs[..n];
      WantedAdds(done, reqs[..n], typ);
    }
  }

  lemma WantedFirst(reqs: seq<Fingerprint>, typ: string)
    requires reqs != []
    ensures Wanted(reqs, typ) == (if reqs[0].typ == typ then 1 else 0) + Wanted(reqs[1..], typ)
  {
    assert [reqs[0]] + reqs[1..] == reqs;
    WantedAdds([reqs[0]], reqs[1..], typ);
    assert [reqs[0]][..0] == [];
  }

  // After the first requirement has its datum, the rest can be met exactly when all could.
  lemma NowSatisfiable(done: seq<Fingerprint>, reqs: seq<Fingerprint>, ds: seq<Data>)
    requires reqs != [] && reqs[0].typ != "" && Wanted(done, reqs[0].typ) < Offered(ds, reqs[0].typ)
    ensures Satisfiable(done, reqs, ds) <==> Satisfiable(done + [reqs[0]], reqs[1..], ds)
  {
    hide Wanted;
    hide Offered;
    var req, rest := reqs[0], reqs[1..];
    assert forall r :: r in reqs <==> r == req || r in rest;
    forall typ: string
      ensures Wanted(done + [req], typ) == Wanted(done, typ) + if req.typ == typ then 1 else 0
      ensures Wanted(reqs, typ) == Wanted(rest, typ) + if req.typ == typ then 1 else 0
    {
      WantedFirst(reqs, typ);
      WantedFirst([req], typ);
      assert [req][1..] == [];
      NoneWanted(typ);
      WantedAdds(done, [req], typ);
    }
  }

  lemma NoneWanted(typ: string)
    ensures Wanted([], typ) == 0
  {
  }

  // A first requirement that no datum is left for cannot be met.
  lemma NotSatisfiable(done: seq<Fingerprint>, reqs: seq<Fingerprint>, ds: seq<Data>)
    requires reqs != [] && (reqs[0].typ == "" || Wanted(done, reqs[0].typ) >= Offered(ds, reqs[0].typ))
    ensures !Satisfiable(done, reqs, ds)
  {
    WantedFirst(reqs, reqs[0].typ);
    assert reqs[0] in reqs;
  }

  lemma {:induction false} MatchExact(decode: Decoder, done: seq<Fingerprint>, reqs: seq<Fingerprint>, ds: seq<Data>,
                                      used: seq<bool>)
    requires AllDecode(decode, ds) && |used| == |ds| && TakenInOrder(done, ds, used)
    ensures Match(decode, reqs, ds, used).Matched? <==> Satisfiable(done, reqs, ds)
    ensures Match(decode, reqs, ds, used).Matched? ==>
              && TakenInOrder(done + reqs, ds, Match(decode, reqs, ds, used).used)
              && AllRanked(done, reqs, ds, Match(decode, reqs, ds, used).slots)
    decreases |reqs|
  {
    hide AllDecode;
    hide TakenInOrder;
    hide Wanted;
    hide Offered;
    hide Satisfiable;
    hide AllRanked;
    if reqs == [] {
      assert done + reqs == done;
      NothingWanted(done, ds);
    } else {
      var req, rest := reqs[0], reqs[1..];
      assert (done + [req]) + rest == done + reqs;
      var i := Pick(decode, req.typ, ds, used, 0);
      if req.typ != "" {
        PickIsNext(decode, done, req.typ, ds, used);
      }
      if i < |ds| {
        TakeNext(done, req, ds, used, i);
        MatchExact(decode, done + [req], rest, ds, used[i := true]);
        NowSatisfiable(done, reqs, ds);
        if Match(decode, reqs, ds, used).Matched? {
          var slots := Match(decode, reqs, ds, used).slots;
          assert slots[0] == i && slots[1..] == Match(decode, rest, ds, used[i := true]).slots;
          RankedFirst(done, reqs, ds, slots);
        }
      } else {
        NotSatisfiable(done, reqs, ds);
      }
    }
  }

  lemma NothingWanted(done: seq<Fingerprint>, ds: seq<Data>)
    ensures Satisfiable(done, [], ds) && AllRanked(done, [], ds, [])
  {
  }

  lemma RankedFirst(done: seq<Fingerprint>, reqs: seq<Fingerprint>, ds: seq<Data>, slots: seq<nat>)
    requires reqs != [] && |slots| == |reqs| && slots[0] < |ds| && ds[slots[0]].typ == reqs[0].typ
    requires Offered(ds[..slots[0]], reqs[0].typ) == Wanted(done, reqs[0].typ)
    requires AllRanked(done + [reqs[0]], reqs[1..], ds, slots[1..])
    ensures AllRanked(done, reqs, ds, slots)
  {
    hide Wanted;
    hide Offered;
    forall j | 0 <= j < |reqs| ensures Ranked(done, reqs, ds, slots, j) {
      if j > 0 {
        assert Ranked(done + [reqs[0]], reqs[1..], ds, slots[1..], j - 1);
        assert (done + [reqs[0]]) + reqs[1..][..j - 1] == done + reqs[..j];
      } else {
        assert done + reqs[..0] == done;
      }
    }
  }

  // The j-th requirement gets the datum of its type whose rank is the requirement's own.
  ghost predicate Ranked(done: seq<Fingerprint>, reqs: seq<Fingerprint>, ds: seq<Data>, slots: seq<nat>, j: nat) {
    j < |reqs| && j < |slots| && slots[j] < |ds|
    && ds[slots[j]].typ == reqs[j].typ
    && Offered(ds[..slots[j]], reqs[j].typ) == Wanted(done + reqs[..j], reqs[j].typ)
  }

  ghost predicate AllRanked(done: seq<Fingerprint>, reqs: seq<Fingerprint>, ds: seq<Data>, slots: seq<nat>) {
    |slots| == |reqs| && forall j :: 0 <= j < |reqs| ==> Ranked(done, reqs, ds, slots, j)
  }

  // Type by type: enough data for the requirements, and no data but nil beyond them.
  ghost predicate Covers(reqs: seq<Fingerprint>, ds: seq<Data>) {
    forall typ: string :: Wanted(reqs, typ) <= Offered(ds, typ)
  }

  ghost predicate Exhausts(reqs: seq<Fingerprint>, ds: seq<Data>) {
    forall typ: string :: !IsNil(typ) ==> Offered(ds, typ) <= Wanted(reqs, typ)
  }

  // With data that decode, a non-End adapter reaches its function exactly when no requirement
  // is of the empty type and, type by type, requirements and data balance (nil data may be left
  // over); then the k-th requirement of a type gets the k-th datum of that type, one to one.
  lemma ExecuteExact(a: Adapter, decode: Decoder, ds: seq<Data>)
    requires AllDecode(decode, ds)
    ensures var m := Match(decode, a.reqs, ds, Unused(ds));
      && (m.Matched? <==> (forall r :: r in a.reqs ==> r.typ != "") && Covers(a.reqs, ds))
      && (m.Matched? ==> (AllUsed(ds, m.used) <==> Exhausts(a.reqs, ds)))
      && (m.Matched? ==> AllRanked([], a.reqs, ds, m.slots))
      && (m.Matched? ==> forall j, k :: 0 <= j < k < |a.reqs| ==> m.slots[j] != m.slots[k])
  {
    hide AllDecode;
    hide Match;
    hide Wanted;
    hide Offered;
    hide Ranked;
    var reqs := a.reqs;
    assert [] + reqs == reqs;
    NothingTaken(ds);
    MatchExact(decode, [], reqs, ds, Unused(ds));
    var m := Match(decode, reqs, ds, Unused(ds));
    forall typ: string ensures Wanted([], typ) == 0 { NoneWanted(typ); }
    if m.Matched? {
      LeftoverMeans(reqs, ds, m.used);
      forall j, k | 0 <= j < k < |reqs| ensures m.slots[j] != m.slots[k] {
        RanksDiffer(reqs, ds, m.slots, j, k);
      }
    }
  }

  lemma NothingTaken(ds: seq<Data>)
    ensures TakenInOrder([], ds, Unused(ds))
  {
  }

  lemma RanksDiffer(reqs: seq<Fingerprint>, ds: seq<Data>, slots: seq<nat>, j: nat, k: nat)
    requires j < k < |reqs| && AllRanked([], reqs, ds, slots)
    ensures slots[j] != slots[k]
  {
    assert Ranked([], reqs, ds, slots, j) && Ranked([], reqs, ds, slots, k);
    if reqs[j].typ == reqs[k].typ {
      assert [] + reqs[..k] == ([] + reqs[..j]) + reqs[j..k];
      WantedAdds([] + reqs[..j], reqs[j..k], reqs[j].typ);
      WantedFirst(reqs[j..k], reqs[j].typ);
    }
  }

  lemma LeftoverMeans(reqs: seq<Fingerprint>, ds: seq<Data>, used: seq<bool>)
    requires TakenInOrder(reqs, ds, used)
    ensures AllUsed(ds, used) <==> Exhausts(reqs, ds)
  {
    if AllUsed(ds, used) {
      forall typ: string | !IsNil(typ) ensures Offered(ds, typ) <= Wanted(reqs, typ) {
        if Wanted(reqs, typ) < Offered(ds, typ) {
          var i := RankExists(ds, typ, Wanted(reqs, typ));
        }
      }
    }
    forall i | 0 <= i < |ds| ensures Offered(ds[..i], ds[i].typ) < Offered(ds, ds[i].typ) {
      OfferedGrows(ds, i, ds[i].typ);
    }
  }
}
