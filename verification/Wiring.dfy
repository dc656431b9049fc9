// End to end: what New checks makes every executed part get its predecessors' outputs in the
// places where its adapter asks for them.
module Wiring {
  import opened Options
  import opened Story
  import opened Acceptance
  import opened Plan
  import opened Bus
  import opened Journal
  import opened Adapters

  // A fingerprint that an adapter requires has the type of the adapter that it names.
  ghost predicate FingerprintsAgree(ads: seq<Adapter>) {
    forall a, b, r :: a in ads && b in ads && r in a.reqs && r.name == b.name ==> r.typ == b.typ
  }

  ghost predicate OneAdapterEach(parts: seq<Part>) {
    forall p, q :: IsPart(parts, p) && IsPart(parts, q) && PartOf(p, parts).adapter == PartOf(q, parts).adapter ==>
      p == q
  }

  // The adapter asks for named adapters only, each once.
  ghost predicate PlainRequirements(a: Adapter) {
    && (forall r :: r in a.reqs ==> r.name != ANY)
    && (forall j, k :: 0 <= j < k < |a.reqs| ==> a.reqs[j].name != a.reqs[k].name)
  }

  ghost predicate TypedLinks(setup: Setup, prev: seq<string>) {
    forall i :: 0 <= i < |prev| ==> TypeOf(setup, prev[i]) != ""
  }

  ghost predicate SameKind(r: Fingerprint, s: Fingerprint) {
    r.typ == s.typ && !IsNil(r.typ)
  }

  // The one part runs the adapter that the one requirement names, and the other likewise.
  ghost predicate Serve(parts: seq<Part>, p: string, r: Fingerprint, q: string, s: Fingerprint) {
    PartOf(p, parts).adapter == r.name && PartOf(q, parts).adapter == s.name
  }

  // Type by type, the adapters that are required occur in the order of the predecessors that run
  // them. Nothing is asked of types without a value.
  ghost predicate NamedInOrder(setup: Setup, a: Adapter, prev: seq<string>) {
    forall j, k, i, l | 0 <= j < k < |a.reqs| && 0 <= i < |prev| && 0 <= l < |prev| ::
      SameKind(a.reqs[j], a.reqs[k]) && Serve(setup.parts, prev[i], a.reqs[j], prev[l], a.reqs[k]) ==> i < l
  }

  // S may be linked to a part that does not ask for its output only when there is none.
  ghost predicate StartFits(setup: Setup, a: Adapter, prev: seq<string>) {
    START in prev ==> Requires(a, PartOf(START, setup.parts).adapter) || IsNil(TypeOf(setup, START))
  }

  // The setting of the theorem for one part: an accepted story, and what New does not check.
  ghost predicate Wired(setup: Setup, ads: seq<Adapter>, p: string, a: Adapter) {
    && Sound(setup.parts)
    && NewSpec(setup.parts, ads) == Accepted(setup.adapters)
    && Unambiguous(setup, p, a)
  }

  ghost predicate Unambiguous(setup: Setup, p: string, a: Adapter) {
    && FingerprintsAgree(setup.adapters)
    && OneAdapterEach(setup.parts)
    && IsPart(setup.parts, p) && p != START && p != END
    && GetAdapter(PartOf(p, setup.parts).adapter, setup.adapters) == Some(a)
    && PlainRequirements(a)
    && TypedLinks(setup, Prev(setup.parts, p))
    && StartFits(setup, a, Prev(setup.parts, p))
  }

  lemma {:induction false} OfferedAtMostOnce(ds: seq<Data>, typ: string)
    requires forall j, k :: 0 <= j < k < |ds| ==> ds[j].typ != typ || ds[k].typ != typ
    ensures Offered(ds, typ) <= 1
    ensures Offered(ds, typ) == 1 <==> exists j :: 0 <= j < |ds| && ds[j].typ == typ
    decreases |ds|
  {
    if ds != [] {
      var n := |ds| - 1;
      assert forall j :: 0 <= j < n ==> ds[..n][j] == ds[j];
      OfferedAtMostOnce(ds[..n], typ);
    }
  }

  // Acceptance, for one part: its adapter is served, and adapters are found by name.
  lemma AcceptedPart(setup: Setup, ads: seq<Adapter>, p: string, a: Adapter)
    requires Wired(setup, ads, p, a)
    ensures PrevServed(setup.parts, a, Prev(setup.parts, p)) && ReqsServed(setup.parts, a, Prev(setup.parts, p))
    ensures Bijective(setup.parts, setup.adapters)
  {
    hide FingerprintsAgree;
    hide OneAdapterEach;
    hide PlainRequirements;
    hide TypedLinks;
    hide StartFits;
    hide PrevServed;
    hide ReqsServed;
    SoundIsDeclared(setup.parts);
    DefaultsComplete(ads);
    NewExact(setup.parts, ads, WithDefaults(ads));
    var k := Find(p, setup.parts);
    assert PartServed(setup.parts, setup.adapters, setup.parts[k]);
    var b :| b in setup.adapters && b.name == setup.parts[k].adapter
      && (setup.parts[k].id != END ==> PrevServed(setup.parts, b, setup.parts[k].incoming))
      && (setup.parts[k].id != START ==> ReqsServed(setup.parts, b, setup.parts[k].incoming));
    UniqueAdapter(setup.adapters, b);
  }

  lemma SoundIsDeclared(parts: seq<Part>)
    requires Sound(parts)
    ensures Declared(parts)
  {
    forall k, q | 0 <= k < |parts| && q in parts[k].incoming ensures Find(q, parts) >= 0 {
      assert Find(parts[k].id, parts) == k;
      PredecessorDeclared(parts, q, parts[k].id);
    }
  }

  // A part's output type is what any fingerprint of its adapter says.
  lemma TypesAgree(setup: Setup, a: Adapter, r: Fingerprint, q: string)
    requires FingerprintsAgree(setup.adapters) && Bijective(setup.parts, setup.adapters)
    requires a in setup.adapters && r in a.reqs && IsPart(setup.parts, q) && PartOf(q, setup.parts).adapter == r.name
    ensures TypeOf(setup, q) == r.typ
  {
    var k := Find(q, setup.parts);
    assert setup.parts[k].adapter in UsedNames(setup.parts);
    var b :| b in setup.adapters && b.name == r.name;
    UniqueAdapter(setup.adapters, b);
  }

  // The predecessor that a requirement names, and its place among the predecessors.
  lemma RequirementHasSource(setup: Setup, ads: seq<Adapter>, p: string, a: Adapter, j: nat) returns (i: nat)
    requires Wired(setup, ads, p, a) && j < |a.reqs|
    ensures i < |Prev(setup.parts, p)|
    ensures PartOf(Prev(setup.parts, p)[i], setup.parts).adapter == a.reqs[j].name
    ensures TypeOf(setup, Prev(setup.parts, p)[i]) == a.reqs[j].typ
    ensures IsPart(setup.parts, Prev(setup.parts, p)[i])
  {
    hide Sound;
    hide TypedLinks;
    hide NewSpec;
    hide TypeOf;
    AcceptedPart(setup, ads, p, a);
    var r := a.reqs[j];
    assert r in a.reqs && r.name != ANY;
    var q :| q in Prev(setup.parts, p) && Find(q, setup.parts) >= 0 && PartOf(q, setup.parts).adapter == r.name;
    i :| 0 <= i < |Prev(setup.parts, p)| && Prev(setup.parts, p)[i] == q;
    TypesAgree(setup, a, r, q);
  }

  // ----- requirements and predecessors, one to one -----

  // The place of the predecessor that runs the named adapter; |prev| if there is none.
  function Source(parts: seq<Part>, prev: seq<string>, name: string): (i: nat)
    ensures i <= |prev|
    ensures i < |prev| ==> PartOf(prev[i], parts).adapter == name
    ensures forall k :: 0 <= k < i ==> PartOf(prev[k], parts).adapter != name
  {
    if prev == [] || PartOf(prev[0], parts).adapter == name then 0 else 1 + Source(parts, prev[1..], name)
  }

  lemma SourceFacts(setup: Setup, ads: seq<Adapter>, p: string, a: Adapter, j: nat)
    requires Wired(setup, ads, p, a) && j < |a.reqs|
    ensures var prev := Prev(setup.parts, p); var i := Source(setup.parts, prev, a.reqs[j].name);
      && i < |prev| && TypeOf(setup, prev[i]) == a.reqs[j].typ && a.reqs[j].typ != ""
      && forall k :: 0 <= k < |prev| && PartOf(prev[k], setup.parts).adapter == a.reqs[j].name ==> k == i
  {
    hide NewSpec;
    hide TypeOf;
    hide StartFits;
    var prev := Prev(setup.parts, p);
    var i := RequirementHasSource(setup, ads, p, a, j);
    forall k | 0 <= k < |prev| && PartOf(prev[k], setup.parts).adapter == a.reqs[j].name ensures k == i {
      assert prev[k] in prev && prev[i] in prev;
      IsDeclared(setup.parts, prev[k], p);
      assert prev[k] == prev[i];
    }
  }

  // Different requirements have different sources.
  lemma SourcesDiffer(setup: Setup, ads: seq<Adapter>, p: string, a: Adapter, j: nat, k: nat)
    requires Wired(setup, ads, p, a) && j < k < |a.reqs|
    ensures var prev := Prev(setup.parts, p);
      Source(setup.parts, prev, a.reqs[j].name) != Source(setup.parts, prev, a.reqs[k].name)
  {
    hide Sound;
    hide NewSpec;
    hide TypeOf;
    SourceFacts(setup, ads, p, a, j);
    SourceFacts(setup, ads, p, a, k);
  }

  // Every predecessor of a type with values is the source of a requirement.
  lemma HasTarget(setup: Setup, ads: seq<Adapter>, p: string, a: Adapter, i: nat) returns (j: nat)
    requires Wired(setup, ads, p, a) && i < |Prev(setup.parts, p)| && !IsNil(TypeOf(setup, Prev(setup.parts, p)[i]))
    ensures j < |a.reqs| && Source(setup.parts, Prev(setup.parts, p), a.reqs[j].name) == i
    ensures a.reqs[j].typ == TypeOf(setup, Prev(setup.parts, p)[i])
  {
    hide Sound;
    hide NewSpec;
    hide TypeOf;
    j := SourceIsRequired(setup, ads, p, a, i);
    SourceFacts(setup, ads, p, a, j);
  }

  // ----- counting by places -----

  function WantedAt(reqs: seq<Fingerprint>, typ: string, n: nat): set<nat>
    requires n <= |reqs|
  {
    set j: nat | j < n && reqs[j].typ == typ
  }

  function OfferedAt(ds: seq<Data>, typ: string, n: nat): set<nat>
    requires n <= |ds|
  {
    set i: nat | i < n && ds[i].typ == typ
  }

  lemma {:induction false} WantedCounts(reqs: seq<Fingerprint>, typ: string, n: nat)
    requires n <= |reqs|
    ensures Wanted(reqs[..n], typ) == |WantedAt(reqs, typ, n)|
  {
    if n > 0 {
      WantedCounts(reqs, typ, n - 1);
      assert reqs[..n][..n - 1] == reqs[..n - 1];
      assert WantedAt(reqs, typ, n) == WantedAt(reqs, typ, n - 1) + if reqs[n - 1].typ == typ then {n - 1} else {};
    } else {
      assert WantedAt(reqs, typ, 0) == {};
    }
  }

  lemma {:induction false} OfferedCounts(ds: seq<Data>, typ: string, n: nat)
    requires n <= |ds|
    ensures Offered(ds[..n], typ) == |OfferedAt(ds, typ, n)|
  {
    if n > 0 {
      OfferedCounts(ds, typ, n - 1);
      assert ds[..n][..n - 1] == ds[..n - 1];
      assert OfferedAt(ds, typ, n) == OfferedAt(ds, typ, n - 1) + if ds[n - 1].typ == typ then {n - 1} else {};
    } else {
      assert OfferedAt(ds, typ, 0) == {};
    }
  }

  lemma {:induction false} Injected(a: set<nat>, b: set<nat>, f: map<nat, nat>)
    requires forall x :: x in a ==> x in f && f[x] in b
    requires forall x, y :: x in a && y in a && x != y ==> f[x] != f[y]
    ensures |a| <= |b|
    decreases |a|
  {
    if x :| x in a {
      Injected(a - {x}, b - {f[x]}, f);
      assert |a - {x}| == |a| - 1 && |b - {f[x]}| == |b| - 1;
    }
  }

  function Sources(parts: seq<Part>, prev: seq<string>, reqs: seq<Fingerprint>): map<nat, nat> {
    map j: nat | j < |reqs| :: Source(parts, prev, reqs[j].name)
  }

  // The data wanted by the first n requirements of a type, and offered by the first m
  // predecessors: at least as many are offered if the sources of the former are among the latter.
  lemma WantedWithin(setup: Setup, ads: seq<Adapter>, p: string, a: Adapter, ds: seq<Data>, typ: string, n: nat, m: nat)
    requires Wired(setup, ads, p, a) && Carried(setup, Prev(setup.parts, p), ds) && n <= |a.reqs| && m <= |ds|
    requires forall j :: 0 <= j < n && a.reqs[j].typ == typ ==>
        Source(setup.parts, Prev(setup.parts, p), a.reqs[j].name) < m
    ensures Wanted(a.reqs[..n], typ) <= Offered(ds[..m], typ)
  {
    hide Wired;
    hide TypeOf;
    hide Source;
    var prev := Prev(setup.parts, p);
    var f := Sources(setup.parts, prev, a.reqs);
    WantedCounts(a.reqs, typ, n);
    OfferedCounts(ds, typ, m);
    var wanted, offered := WantedAt(a.reqs, typ, n), OfferedAt(ds, typ, m);
    forall j | j in wanted ensures j in f && f[j] in offered {
      SourceFacts(setup, ads, p, a, j);
    }
    forall j, k | j in wanted && k in wanted && j != k ensures f[j] != f[k] {
      if j < k { SourcesDiffer(setup, ads, p, a, j, k); } else { SourcesDiffer(setup, ads, p, a, k, j); }
    }
    Injected(wanted, offered, f);
  }

  // The other way around, for a type with values: if every requirement whose source is among the
  // first m predecessors is among the first n.
  lemma OfferedWithin(setup: Setup, ads: seq<Adapter>, p: string, a: Adapter, ds: seq<Data>, typ: string, n: nat,
                      m: nat)
    requires Wired(setup, ads, p, a)
    requires Carried(setup, Prev(setup.parts, p), ds) && n <= |a.reqs|
    requires m <= |ds| && !IsNil(typ)
    requires forall j | 0 <= j < |a.reqs| && a.reqs[j].typ == typ ::
               Source(setup.parts, Prev(setup.parts, p), a.reqs[j].name) < m ==> j < n
    ensures Offered(ds[..m], typ) <= Wanted(a.reqs[..n], typ)
  {
    hide Wired;
    hide TypeOf;
    hide Source;
    var prev := Prev(setup.parts, p);
    WantedCounts(a.reqs, typ, n);
    OfferedCounts(ds, typ, m);
    var wanted, offered := WantedAt(a.reqs, typ, n), OfferedAt(ds, typ, m);
    forall i | i in offered ensures exists j :: j in wanted && Source(setup.parts, prev, a.reqs[j].name) == i {
      var j := HasTarget(setup, ads, p, a, i);
      assert j in wanted;
    }
    var f := map i | i in offered :: var j :| j in wanted && Source(setup.parts, prev, a.reqs[j].name) == i; j;
    Injected(offered, wanted, f);
  }

  ghost predicate Carried(setup: Setup, prev: seq<string>, ds: seq<Data>) {
    |ds| == |prev| && forall i :: 0 <= i < |ds| ==> ds[i].typ == TypeOf(setup, prev[i])
  }

  // Types offered by the predecessors and types wanted by the adapter balance.
  lemma TypesBalance(setup: Setup, ads: seq<Adapter>, p: string, a: Adapter, ds: seq<Data>)
    requires Wired(setup, ads, p, a) && Carried(setup, Prev(setup.parts, p), ds)
    ensures forall r :: r in a.reqs ==> r.typ != ""
    ensures Covers(a.reqs, ds) && Exhausts(a.reqs, ds)
  {
    hide Wired;
    hide TypeOf;
    hide Wanted;
    hide Offered;
    hide Source;
    forall r | r in a.reqs ensures r.typ != "" {
      var j :| 0 <= j < |a.reqs| && a.reqs[j] == r;
      SourceFacts(setup, ads, p, a, j);
    }
    assert a.reqs[..|a.reqs|] == a.reqs && ds[..|ds|] == ds;
    forall typ: string
      ensures Wanted(a.reqs, typ) <= Offered(ds, typ)
      ensures !IsNil(typ) ==> Offered(ds, typ) <= Wanted(a.reqs, typ)
    {
      forall j | 0 <= j < |a.reqs| ensures Source(setup.parts, Prev(setup.parts, p), a.reqs[j].name) < |ds| {
        SourceFacts(setup, ads, p, a, j);
      }
      WantedWithin(setup, ads, p, a, ds, typ, |a.reqs|, |ds|);
      if !IsNil(typ) {
        OfferedWithin(setup, ads, p, a, ds, typ, |a.reqs|, |ds|);
      }
    }
  }

  lemma SourceIsRequired(setup: Setup, ads: seq<Adapter>, p: string, a: Adapter, i: nat) returns (j: nat)
    requires Wired(setup, ads, p, a) && i < |Prev(setup.parts, p)| && !IsNil(TypeOf(setup, Prev(setup.parts, p)[i]))
    ensures j < |a.reqs| && a.reqs[j].typ == TypeOf(setup, Prev(setup.parts, p)[i])
    ensures a.reqs[j].name == PartOf(Prev(setup.parts, p)[i], setup.parts).adapter
  {
    hide Sound;
    hide NewSpec;
    hide TypeOf;
    hide TypedLinks;
    hide OneAdapterEach;
    var q := Prev(setup.parts, p)[i];
    assert q in Prev(setup.parts, p);
    AcceptedPart(setup, ads, p, a);
    assert IsPart(setup.parts, q) by { IsDeclared(setup.parts, q, p); }
    assert Requires(a, PartOf(q, setup.parts).adapter);
    var r :| r in a.reqs && r.name == PartOf(q, setup.parts).adapter;
    TypesAgree(setup, a, r, q);
    j :| 0 <= j < |a.reqs| && a.reqs[j] == r;
  }

  lemma IsDeclared(parts: seq<Part>, q: string, p: string)
    requires Sound(parts) && q in Prev(parts, p)
    ensures IsPart(parts, q)
  {
    PredecessorDeclared(parts, q, p);
  }

  // The datum that each requirement gets is its source's, for the types with values.
  ghost predicate SlotsAreSources(setup: Setup, p: string, a: Adapter, slots: seq<nat>)
    requires |slots| == |a.reqs|
  {
    forall j :: 0 <= j < |a.reqs| && !IsNil(a.reqs[j].typ) ==>
      slots[j] == Source(setup.parts, Prev(setup.parts, p), a.reqs[j].name)
  }

  // Every part but S and E that a run executes reaches its adapter's function. Each requirement
  // gets the datum of the predecessor that runs the adapter it names exactly when, type by type,
  // the required adapters occur in the order of those predecessors.
  lemma WiredAsNamed(setup: Setup, ads: seq<Adapter>, p: string, a: Adapter, decode: Decoder, ds: seq<Data>)
    requires Wired(setup, ads, p, a) && Carried(setup, Prev(setup.parts, p), ds) && AllDecode(decode, ds)
    ensures var m := Match(decode, a.reqs, ds, Unused(ds));
      && m.Matched? && AllUsed(ds, m.used)
      && (SlotsAreSources(setup, p, a, m.slots) <==> NamedInOrder(setup, a, Prev(setup.parts, p)))
  {
    hide Wired;
    hide TypeOf;
    hide Match;
    hide AllUsed;
    hide AllDecode;
    hide AllRanked;
    hide SlotsAreSources;
    hide NamedInOrder;
    hide Covers;
    hide Exhausts;
    TypesBalance(setup, ads, p, a, ds);
    ExecuteExact(a, decode, ds);
    var m := Match(decode, a.reqs, ds, Unused(ds));
    if NamedInOrder(setup, a, Prev(setup.parts, p)) {
      OrderGivesSources(setup, ads, p, a, ds, m.slots);
    }
    if SlotsAreSources(setup, p, a, m.slots) {
      SourcesGiveOrder(setup, ads, p, a, ds, m.slots);
    }
  }

  lemma OrderGivesSources(setup: Setup, ads: seq<Adapter>, p: string, a: Adapter, ds: seq<Data>, slots: seq<nat>)
    requires Wired(setup, ads, p, a) && Carried(setup, Prev(setup.parts, p), ds) && AllRanked([], a.reqs, ds, slots)
    requires NamedInOrder(setup, a, Prev(setup.parts, p))
    ensures SlotsAreSources(setup, p, a, slots)
  {
    hide Wired;
    hide TypeOf;
    hide Wanted;
    hide Offered;
    hide Source;
    var prev := Prev(setup.parts, p);
    forall j | 0 <= j < |a.reqs| && !IsNil(a.reqs[j].typ)
      ensures slots[j] == Source(setup.parts, prev, a.reqs[j].name)
    {
      var i, typ := Source(setup.parts, prev, a.reqs[j].name), a.reqs[j].typ;
      SourceFacts(setup, ads, p, a, j);
      forall k | 0 <= k < |a.reqs| && a.reqs[k].typ == typ && k != j
        ensures k < j <==> Source(setup.parts, prev, a.reqs[k].name) < i
      {
        SourceFacts(setup, ads, p, a, k);
        var l := Source(setup.parts, prev, a.reqs[k].name);
        assert k > j ==> Serve(setup.parts, prev[i], a.reqs[j], prev[l], a.reqs[k]);
        assert k < j ==> Serve(setup.parts, prev[l], a.reqs[k], prev[i], a.reqs[j]);
      }
      WantedWithin(setup, ads, p, a, ds, typ, j, i);
      OfferedWithin(setup, ads, p, a, ds, typ, j, i);
      assert Ranked([], a.reqs, ds, slots, j);
      assert [] + a.reqs[..j] == a.reqs[..j];
      RankUnique(ds, slots[j], i);
    }
  }

  lemma SourcesGiveOrder(setup: Setup, ads: seq<Adapter>, p: string, a: Adapter, ds: seq<Data>, slots: seq<nat>)
    requires Wired(setup, ads, p, a) && Carried(setup, Prev(setup.parts, p), ds) && AllRanked([], a.reqs, ds, slots)
    requires SlotsAreSources(setup, p, a, slots)
    ensures NamedInOrder(setup, a, Prev(setup.parts, p))
  {
    hide Wired;
    hide TypeOf;
    hide Wanted;
    hide Offered;
    hide Source;
    var prev := Prev(setup.parts, p);
    forall j, k, i, l | 0 <= j < k < |a.reqs| && 0 <= i < |prev| && 0 <= l < |prev|
      && SameKind(a.reqs[j], a.reqs[k]) && Serve(setup.parts, prev[i], a.reqs[j], prev[l], a.reqs[k])
      ensures i < l
    {
      SourceFacts(setup, ads, p, a, j);
      SourceFacts(setup, ads, p, a, k);
      assert slots[j] == i && slots[k] == l;
      assert Ranked([], a.reqs, ds, slots, j) && Ranked([], a.reqs, ds, slots, k);
      LaterRanks(a.reqs, ds, j, k, i, l);
    }
  }

  lemma LaterRanks(reqs: seq<Fingerprint>, ds: seq<Data>, j: nat, k: nat, i: nat, l: nat)
    requires j < k < |reqs| && reqs[j].typ == reqs[k].typ && i < |ds| && l < |ds|
    requires Offered(ds[..i], reqs[j].typ) == Wanted([] + reqs[..j], reqs[j].typ)
    requires Offered(ds[..l], reqs[j].typ) == Wanted([] + reqs[..k], reqs[j].typ)
    ensures i < l
  {
    assert [] + reqs[..k] == ([] + reqs[..j]) + reqs[j..k];
    WantedAdds([] + reqs[..j], reqs[j..k], reqs[j].typ);
    WantedFirst(reqs[j..k], reqs[j].typ);
    if l <= i {
      assert ds[..i][..l] == ds[..l];
      OfferedGrows(ds[..i], l, reqs[j].typ);
    }
  }

  // The execution of an event: the call is reached, and where the required adapters are named in
  // order its j-th parameter is the completed output of the one predecessor whose adapter its
  // j-th requirement names.
  lemma ParametersAreWired(setup: Setup, ads: seq<Adapter>, p: string, a: Adapter, completed: seq<Completion>, e: Event,
                           f: ExecFunc, decode: Decoder, encode: Encoder) returns (ts: seq<Value>)
    requires Wired(setup, ads, p, a) && e.part == p
    requires RightPayload(setup.parts, completed, e) && Typed(setup, completed) && AllDecode(decode, e.data)
    ensures ExecuteSpec(a, f, decode, encode, e.data) == Call(a, f, encode, ts)
    ensures |ts| == |a.reqs|
    ensures NamedInOrder(setup, a, Prev(setup.parts, p)) ==>
              forall j :: 0 <= j < |a.reqs| ==> Supplied(setup.parts, completed, e, decode, a.reqs[j].name, ts[j])
  {
    hide Wired;
    hide Match;
    hide AllUsed;
    hide AllDecode;
    hide AllRanked;
    hide TypeOf;
    hide NamedInOrder;
    hide SlotsAreSources;
    hide Greedy;
    hide Decoded;
    hide Supplied;
    hide RightPayload;
    hide Typed;
    hide Call;
    hide Params;
    var ds := e.data;
    PayloadIsCarried(setup, completed, e);
    WiredAsNamed(setup, ads, p, a, decode, ds);
    MatchIsGreedy(decode, a.reqs, ds);
    var m := Match(decode, a.reqs, ds, Unused(ds));
    ts := Params(decode, ds, m.slots);
    ParamsAreDecoded(decode, a.reqs, ds, m.slots, ts);
    DecodedFits(decode, a.reqs, ds, m.slots, ts);
    if NamedInOrder(setup, a, Prev(setup.parts, p)) {
      forall j | 0 <= j < |a.reqs| ensures Supplied(setup.parts, completed, e, decode, a.reqs[j].name, ts[j]) {
        SourceSupplies(setup, ads, p, a, completed, e, decode, m.slots, ts, j);
      }
    }
  }

  lemma DecodedFits(decode: Decoder, reqs: seq<Fingerprint>, ds: seq<Data>, slots: seq<nat>, ts: seq<Value>)
    requires Decoded(decode, reqs, ds, slots, ts)
    ensures |slots| == |ts| == |reqs|
  {
  }

  lemma SourceSupplies(setup: Setup, ads: seq<Adapter>, p: string, a: Adapter, completed: seq<Completion>, e: Event,
                       decode: Decoder, slots: seq<nat>, ts: seq<Value>, j: nat)
    requires Wired(setup, ads, p, a) && e.part == p
    requires RightPayload(setup.parts, completed, e) && Typed(setup, completed)
    requires Decoded(decode, a.reqs, e.data, slots, ts) && j < |a.reqs| && SlotsAreSources(setup, p, a, slots)
    ensures Supplied(setup.parts, completed, e, decode, a.reqs[j].name, ts[j])
  {
    hide Wired;
    hide TypeOf;
    hide Typed;
    PayloadIsCarried(setup, completed, e);
    SourceFacts(setup, ads, p, a, j);
    var prev := Prev(setup.parts, p);
    var i := Source(setup.parts, prev, a.reqs[j].name);
    assert e.data[i].typ == a.reqs[j].typ;
    assert DecodesTo(decode, e.data[i].typ, e.data[i].bytes, ts[j]);
    assert OutputOf(completed, prev[i], e.run, e.data[i]);
  }

  // The value is the decoded output of a predecessor that runs the named adapter.
  ghost predicate Supplied(parts: seq<Part>, completed: seq<Completion>, e: Event, decode: Decoder, name: string,
                           v: Value)
  {
    exists q, d :: q in Prev(parts, e.part) && PartOf(q, parts).adapter == name
      && OutputOf(completed, q, e.run, d) && DecodesTo(decode, d.typ, d.bytes, v)
  }

  lemma PayloadIsCarried(setup: Setup, completed: seq<Completion>, e: Event)
    requires RightPayload(setup.parts, completed, e) && Typed(setup, completed)
    ensures Carried(setup, Prev(setup.parts, e.part), e.data)
  {
    hide TypeOf;
    forall i | 0 <= i < |e.data| ensures e.data[i].typ == TypeOf(setup, Prev(setup.parts, e.part)[i]) {
      assert OutputOf(completed, Prev(setup.parts, e.part)[i], e.run, e.data[i]);
    }
  }

  ghost predicate OneOfEachType(ds: seq<Data>) {
    forall i, j :: 0 <= i < j < |ds| ==> ds[i].typ != ds[j].typ
  }

  // With at most one datum of each type, the order in which the data arrive does not matter.
  lemma OrderDoesNotMatter(a: Adapter, f: ExecFunc, decode: Decoder, encode: Encoder, ds: seq<Data>, ds': seq<Data>)
    requires AllDecode(decode, ds) && AllDecode(decode, ds') && OneOfEachType(ds) && OneOfEachType(ds')
    requires forall d :: d in ds <==> d in ds'
    ensures ExecuteSpec(a, f, decode, encode, ds) == ExecuteSpec(a, f, decode, encode, ds')
  {
    hide AllDecode;
    hide Match;
    hide AllUsed;
    hide AllRanked;
    hide Call;
    hide Params;
    ExecuteExact(a, decode, ds);
    ExecuteExact(a, decode, ds');
    SameOffers(a.reqs, ds, ds');
    var m, m' := Match(decode, a.reqs, ds, Unused(ds)), Match(decode, a.reqs, ds', Unused(ds'));
    if m.Matched? {
      SameParams(a, decode, ds, ds', m.slots, m'.slots);
    }
  }

  lemma SameOffers(reqs: seq<Fingerprint>, ds: seq<Data>, ds': seq<Data>)
    requires OneOfEachType(ds) && OneOfEachType(ds') && forall d :: d in ds <==> d in ds'
    ensures Covers(reqs, ds) == Covers(reqs, ds') && Exhausts(reqs, ds) == Exhausts(reqs, ds')
  {
    forall typ: string ensures Offered(ds, typ) == Offered(ds', typ) {
      OfferedAtMostOnce(ds, typ);
      OfferedAtMostOnce(ds', typ);
      if i :| 0 <= i < |ds| && ds[i].typ == typ {
        assert ds[i] in ds';
      }
      if i :| 0 <= i < |ds'| && ds'[i].typ == typ {
        assert ds'[i] in ds;
      }
    }
  }

  lemma SameParams(a: Adapter, decode: Decoder, ds: seq<Data>, ds': seq<Data>, slots: seq<nat>, slots': seq<nat>)
    requires OneOfEachType(ds) && OneOfEachType(ds') && forall d :: d in ds <==> d in ds'
    requires AllRanked([], a.reqs, ds, slots) && AllRanked([], a.reqs, ds', slots')
    requires |slots| == |slots'| == |a.reqs|
    requires (forall j :: 0 <= j < |slots| ==> slots[j] < |ds|) && (forall j :: 0 <= j < |slots'| ==> slots'[j] < |ds'|)
    ensures Params(decode, ds, slots) == Params(decode, ds', slots')
  {
    forall j | 0 <= j < |slots| ensures ds[slots[j]] == ds'[slots'[j]] {
      assert Ranked([], a.reqs, ds, slots, j) && Ranked([], a.reqs, ds', slots', j);
      assert ds[slots[j]] in ds';
    }
  }
}
