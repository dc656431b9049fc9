// What a reader's New accepts: the checks that tie the adapters to the parts of a built story.
// Both readers run the same code here.
module Acceptance {
  import opened Options
  import opened Seqs
  import opened Story

  // A named output type, and an adapter: what it returns and which adapters' outputs it needs.
  datatype Fingerprint = Fingerprint(name: string, typ: string)

  datatype Adapter = Adapter(name: string, typ: string, reqs: seq<Fingerprint>)

  const ANY := "any"
  const NIL_TYPE := "adapter.NilType"
  const DEFAULT_START := Adapter(START_ADAPTER, NIL_TYPE, [])
  const DEFAULT_END := Adapter(END_ADAPTER, "[]adapter.Value", [Fingerprint(ANY, "")])

  // NilPart stands for the nil dereference when a predecessor is not among the story's parts.
  datatype Error = ErrMissingAdapter | ErrUnmetPart | ErrUnmetAdapter | ErrUnusedAdapter | NilPart

  datatype Check = Fine | Fails(error: Error)

  datatype Answer = Accepted(adapters: seq<Adapter>) | Refused(error: Error)

  function GetAdapter(name: string, ads: seq<Adapter>): (r: Option<Adapter>)
    ensures r.Some? ==> r.value in ads && r.value.name == name
    ensures r.None? ==> forall a :: a in ads ==> a.name != name
  {
    if ads == [] then None
    else if ads[0].name == name then Some(ads[0])
    else GetAdapter(name, ads[1..])
  }

  // story.Part(id): the zero part when there is none.
  function PartOf(id: string, parts: seq<Part>): Part {
    var k := Find(id, parts);
    if k >= 0 then parts[k] else BLANK
  }

  function WithDefaults(ads: seq<Adapter>): seq<Adapter> {
    var s := if GetAdapter(START_ADAPTER, ads).None? then ads + [DEFAULT_START] else ads;
    if GetAdapter(END_ADAPTER, s).None? then s + [DEFAULT_END] else s
  }

  predicate Requires(a: Adapter, name: string) {
    exists r :: r in a.reqs && r.name == name
  }

  // Every predecessor but S must be one that the adapter asks for.
  function CheckPrev(parts: seq<Part>, a: Adapter, prev: seq<string>): Check
    decreases |prev|
  {
    if prev == [] then Fine
    else if prev[0] == START then CheckPrev(parts, a, prev[1..])
    else if Find(prev[0], parts) < 0 then Fails(NilPart)
    else if Requires(a, PartOf(prev[0], parts).adapter) then CheckPrev(parts, a, prev[1..])
    else Fails(ErrUnmetPart)
  }

  // One requirement: some predecessor runs the adapter it names.
  function CheckReq(parts: seq<Part>, name: string, prev: seq<string>): Check
    decreases |prev|
  {
    if prev == [] then Fails(ErrUnmetAdapter)
    else if Find(prev[0], parts) < 0 then Fails(NilPart)
    else if PartOf(prev[0], parts).adapter == name then Fine
    else CheckReq(parts, name, prev[1..])
  }

  function CheckReqs(parts: seq<Part>, prev: seq<string>, reqs: seq<Fingerprint>): Check
    decreases |reqs|
  {
    if reqs == [] then Fine
    else if reqs[0].name == ANY then CheckReqs(parts, prev, reqs[1..])
    else
      match CheckReq(parts, reqs[0].name, prev)
      case Fine => CheckReqs(parts, prev, reqs[1..])
      case Fails(e) => Fails(e)
  }

  function CheckPart(parts: seq<Part>, ads: seq<Adapter>, p: Part): Check {
    match GetAdapter(p.adapter, ads)
    case None => Fails(ErrMissingAdapter)
    case Some(a) =>
      var prev := if p.id != END then CheckPrev(parts, a, p.incoming) else Fine;
      if prev.Fails? then prev
      else if p.id != START then CheckReqs(parts, p.incoming, a.reqs)
      else Fine
  }

  function CheckParts(parts: seq<Part>, ads: seq<Adapter>, rest: seq<Part>): Check
    decreases |rest|
  {
    if rest == [] then Fine
    else
      match CheckPart(parts, ads, rest[0])
      case Fine => CheckParts(parts, ads, rest[1..])
      case Fails(e) => Fails(e)
  }

  function UsedNames(parts: seq<Part>): set<string> {
    set k | 0 <= k < |parts| :: parts[k].adapter
  }

  // The validation in New.
  function NewSpec(parts: seq<Part>, ads: seq<Adapter>): Answer {
    var all := WithDefaults(ads);
    match CheckParts(parts, all, parts)
    case Fails(e) => Refused(e)
    case Fine => if |all| > |UsedNames(parts)| then Refused(ErrUnusedAdapter) else Accepted(all)
  }

  // ----- the loops of New -----

  method CheckPrevLoop(parts: seq<Part>, a: Adapter, prev: seq<string>) returns (r: Check)
    ensures r == CheckPrev(parts, a, prev)
  {
    assert prev[0..] == prev;
    for i := 0 to |prev|
      invariant CheckPrev(parts, a, prev[i..]) == CheckPrev(parts, a, prev)
    {
      assert prev[i..][1..] == prev[i + 1..];
      if prev[i] == START {
        continue;
      }
      if Find(prev[i], parts) < 0 {
        return Fails(NilPart);
      }
      var found := false;
      for j := 0 to |a.reqs|
        invariant found <==> exists k :: 0 <= k < j && a.reqs[k].name == PartOf(prev[i], parts).adapter
      {
        found := found || PartOf(prev[i], parts).adapter == a.reqs[j].name;
      }
      assert found <==> Requires(a, PartOf(prev[i], parts).adapter);
      if !found {
        return Fails(ErrUnmetPart);
      }
    }
    return Fine;
  }

  method CheckReqsLoop(parts: seq<Part>, prev: seq<string>, reqs: seq<Fingerprint>) returns (r: Check)
    ensures r == CheckReqs(parts, prev, reqs)
  {
    assert reqs[0..] == reqs;
    for i := 0 to |reqs|
      invariant CheckReqs(parts, prev, reqs[i..]) == CheckReqs(parts, prev, reqs)
    {
      assert reqs[i..][1..] == reqs[i + 1..];
      if reqs[i].name == ANY {
        continue;
      }
      var found := false;
      var j := 0;
      assert prev[0..] == prev;
      while j < |prev| && !found
        invariant 0 <= j <= |prev|
        invariant CheckReq(parts, reqs[i].name, prev) == if found then Fine
            else CheckReq(parts, reqs[i].name, prev[j..])
        decreases |prev| - j, !found
      {
        assert prev[j..][1..] == prev[j + 1..];
        if Find(prev[j], parts) < 0 {
          return Fails(NilPart);
        }
        if PartOf(prev[j], parts).adapter == reqs[i].name {
          found := true;
        } else {
          j := j + 1;
        }
      }
      if !found {
        return Fails(ErrUnmetAdapter);
      }
    }
    return Fine;
  }

  // The body of New's loop over the parts.
  method CheckOnePart(parts: seq<Part>, all: seq<Adapter>, p: Part) returns (r: Check)
    ensures r == CheckPart(parts, all, p)
  {
    hide CheckPrev;
    hide CheckReqs;
    var a := GetAdapter(p.adapter, all);
    if a.None? {
      return Fails(ErrMissingAdapter);
    }
    if p.id != END {
      var c := CheckPrevLoop(parts, a.value, p.incoming);
      if c.Fails? {
        return c;
      }
    }
    if p.id != START {
      r := CheckReqsLoop(parts, p.incoming, a.value.reqs);
    } else {
      r := Fine;
    }
  }

  method New(parts: seq<Part>, ads: seq<Adapter>) returns (r: Answer)
    ensures r == NewSpec(parts, ads)
  {
    hide CheckPart;
    var all := ads;
    if GetAdapter(START_ADAPTER, all).None? {
      all := all + [DEFAULT_START];
    }
    if GetAdapter(END_ADAPTER, all).None? {
      all := all + [DEFAULT_END];
    }
    assert all == WithDefaults(ads);
    hide WithDefaults;
    hide GetAdapter;
    var m: set<string> := {};
    assert parts[0..] == parts;
    for i := 0 to |parts|
      invariant CheckParts(parts, all, parts[i..]) == CheckParts(parts, all, parts)
      invariant m == set k | 0 <= k < i :: parts[k].adapter
    {
      assert parts[i..][1..] == parts[i + 1..];
      var c := CheckOnePart(parts, all, parts[i]);
      if c.Fails? {
        return Refused(c.error);
      }
      m := m + {parts[i].adapter};
    }
    if |all| > |m| {
      return Refused(ErrUnusedAdapter);
    }
    return Accepted(all);
  }

  // ----- what acceptance means -----

  ghost predicate PrevServed(parts: seq<Part>, a: Adapter, prev: seq<string>) {
    forall q :: q in prev && q != START ==> Find(q, parts) >= 0 && Requires(a, PartOf(q, parts).adapter)
  }

  ghost predicate ReqsServed(parts: seq<Part>, a: Adapter, prev: seq<string>) {
    forall r :: r in a.reqs && r.name != ANY ==>
      exists q :: q in prev && Find(q, parts) >= 0 && PartOf(q, parts).adapter == r.name
  }

  ghost predicate PartServed(parts: seq<Part>, ads: seq<Adapter>, p: Part) {
    exists a :: a in ads && a.name == p.adapter
      && (p.id != END ==> PrevServed(parts, a, p.incoming))
      && (p.id != START ==> ReqsServed(parts, a, p.incoming))
  }

  // Adapter names are distinct and are exactly the names that the parts use.
  ghost predicate Bijective(parts: seq<Part>, ads: seq<Adapter>) {
    && Distinct(seq(|ads|, k requires 0 <= k < |ads| => ads[k].name))
    && (forall a :: a in ads ==> a.name in UsedNames(parts))
    && (forall n :: n in UsedNames(parts) ==> exists a :: a in ads && a.name == n)
  }

  ghost predicate Declared(parts: seq<Part>) {
    forall k, q :: 0 <= k < |parts| && q in parts[k].incoming ==> Find(q, parts) >= 0
  }

  lemma {:induction false} CheckPrevMeans(parts: seq<Part>, a: Adapter, prev: seq<string>)
    ensures CheckPrev(parts, a, prev).Fine? <==> PrevServed(parts, a, prev)
    decreases |prev|
  {
    if prev != [] {
      CheckPrevMeans(parts, a, prev[1..]);
      assert forall q :: q in prev <==> q == prev[0] || q in prev[1..];
    }
  }

  lemma {:induction false} CheckReqMeans(parts: seq<Part>, name: string, prev: seq<string>)
    requires forall q :: q in prev ==> Find(q, parts) >= 0
    ensures CheckReq(parts, name, prev).Fine? <==> exists q :: q in prev && PartOf(q, parts).adapter == name
    ensures CheckReq(parts, name, prev).Fails? ==> CheckReq(parts, name, prev).error == ErrUnmetAdapter
    decreases |prev|
  {
    if prev != [] {
      CheckReqMeans(parts, name, prev[1..]);
      assert forall q :: q in prev <==> q == prev[0] || q in prev[1..];
    }
  }

  lemma {:induction false} CheckReqSound(parts: seq<Part>, name: string, prev: seq<string>)
    requires CheckReq(parts, name, prev).Fine?
    ensures exists q :: q in prev && Find(q, parts) >= 0 && PartOf(q, parts).adapter == name
    decreases |prev|
  {
    if PartOf(prev[0], parts).adapter != name {
      CheckReqSound(parts, name, prev[1..]);
    }
  }

  lemma {:induction false} CheckReqsMeans(parts: seq<Part>, a: Adapter, prev: seq<string>, n: nat)
    requires n <= |a.reqs|
    ensures CheckReqs(parts, prev, a.reqs[n..]).Fine? ==>
              forall r :: r in a.reqs[n..] && r.name != ANY ==>
                exists q :: q in prev && Find(q, parts) >= 0 && PartOf(q, parts).adapter == r.name
    ensures (forall q :: q in prev ==> Find(q, parts) >= 0)
            && (forall r :: r in a.reqs[n..] && r.name != ANY ==>
              exists q :: q in prev && PartOf(q, parts).adapter == r.name)
            ==> CheckReqs(parts, prev, a.reqs[n..]).Fine?
    decreases |a.reqs| - n
  {
    if n < |a.reqs| {
      var reqs := a.reqs[n..];
      assert reqs[1..] == a.reqs[n + 1..];
      CheckReqsMeans(parts, a, prev, n + 1);
      if CheckReq(parts, reqs[0].name, prev).Fine? {
        CheckReqSound(parts, reqs[0].name, prev);
      }
      if forall q :: q in prev ==> Find(q, parts) >= 0 {
        CheckReqMeans(parts, reqs[0].name, prev);
      }
      assert forall r :: r in reqs <==> r == reqs[0] || r in reqs[1..];
    }
  }

  lemma CheckPartMeans(parts: seq<Part>, ads: seq<Adapter>, p: Part)
    requires forall q :: q in p.incoming ==> Find(q, parts) >= 0
    ensures CheckPart(parts, ads, p).Fine? <==>
            var a := GetAdapter(p.adapter, ads);
            && a.Some?
            && (p.id != END ==> PrevServed(parts, a.value, p.incoming))
            && (p.id != START ==> ReqsServed(parts, a.value, p.incoming))
  {
    var a := GetAdapter(p.adapter, ads);
    if a.Some? {
      CheckPrevMeans(parts, a.value, p.incoming);
      CheckReqsMeans(parts, a.value, p.incoming, 0);
      assert a.value.reqs[0..] == a.value.reqs;
    }
  }

  lemma {:induction false} CheckPartsMeans(parts: seq<Part>, ads: seq<Adapter>, rest: seq<Part>)
    ensures CheckParts(parts, ads, rest).Fine? <==>
            forall k :: 0 <= k < |rest| ==> CheckPart(parts, ads, rest[k]).Fine?
    decreases |rest|
  {
    hide CheckPart;
    if rest != [] {
      CheckPartsMeans(parts, ads, rest[1..]);
      assert forall k :: 1 <= k < |rest| ==> rest[k] == rest[1..][k - 1];
    }
  }

  lemma {:induction false} UniqueAdapter(ads: seq<Adapter>, a: Adapter)
    requires a in ads && Distinct(seq(|ads|, k requires 0 <= k < |ads| => ads[k].name))
    ensures GetAdapter(a.name, ads) == Some(a)
  {
    var names := seq(|ads|, k requires 0 <= k < |ads| => ads[k].name);
    var b := GetAdapter(a.name, ads).value;
    var i :| 0 <= i < |ads| && ads[i] == a;
    var j :| 0 <= j < |ads| && ads[j] == b;
    assert names[i] == names[j];
  }

  // No more adapters than names in use, and every name served: then names and adapters pair up.
  lemma CountedBijection(parts: seq<Part>, ads: seq<Adapter>)
    requires |ads| <= |UsedNames(parts)|
    requires forall k :: 0 <= k < |parts| ==> GetAdapter(parts[k].adapter, ads).Some?
    ensures Bijective(parts, ads)
  {
    var names := seq(|ads|, k requires 0 <= k < |ads| => ads[k].name);
    forall n | n in UsedNames(parts) ensures n in names && exists a :: a in ads && a.name == n {
      var a := GetAdapter(n, ads).value;
      var i :| 0 <= i < |ads| && ads[i] == a;
      assert names[i] == n;
    }
    TightCover(names, UsedNames(parts));
    forall a | a in ads ensures a.name in UsedNames(parts) {
      var i :| 0 <= i < |ads| && ads[i] == a;
      assert names[i] == a.name;
    }
  }

  lemma BijectionCounts(parts: seq<Part>, ads: seq<Adapter>)
    requires Bijective(parts, ads)
    ensures |ads| <= |UsedNames(parts)|
  {
    var names := seq(|ads|, k requires 0 <= k < |ads| => ads[k].name);
    forall n | n in names ensures n in UsedNames(parts) {
      var i :| 0 <= i < |ads| && names[i] == n;
      assert ads[i].name == n;
    }
    DistinctFits(names, UsedNames(parts));
  }

  lemma ServedIsFine(parts: seq<Part>, all: seq<Adapter>, p: Part)
    requires forall q :: q in p.incoming ==> Find(q, parts) >= 0
    ensures CheckPart(parts, all, p).Fine? ==> PartServed(parts, all, p) && GetAdapter(p.adapter, all).Some?
    ensures Bijective(parts, all) && PartServed(parts, all, p) ==> CheckPart(parts, all, p).Fine?
  {
    hide PrevServed;
    hide ReqsServed;
    hide CheckPart;
    CheckPartMeans(parts, all, p);
    if Bijective(parts, all) && PartServed(parts, all, p) {
      var a :| a in all && a.name == p.adapter
        && (p.id != END ==> PrevServed(parts, a, p.incoming))
        && (p.id != START ==> ReqsServed(parts, a, p.incoming));
      UniqueAdapter(all, a);
    }
  }

  // ----- the adapters that are given, with the defaults that are missing -----

  ghost predicate Lacks(ads: seq<Adapter>, name: string) {
    forall a :: a in ads ==> a.name != name
  }

  // The given adapters, and then the default for S and the default for E, each exactly if no adapter
  // of its name is given.
  ghost predicate Completed(ads: seq<Adapter>, all: seq<Adapter>) {
    && ads <= all
    && var added := all[|ads|..];
       && (DEFAULT_START in added <==> Lacks(ads, START_ADAPTER))
       && (DEFAULT_END in added <==> Lacks(ads, END_ADAPTER))
       && (forall a :: a in added ==> a == DEFAULT_START || a == DEFAULT_END)
       && (|added| > 1 ==> added == [DEFAULT_START, DEFAULT_END])
  }

  lemma DefaultsDiffer()
    ensures START_ADAPTER != END_ADAPTER && DEFAULT_START != DEFAULT_END
  {
    assert START_ADAPTER[0] != END_ADAPTER[0];
  }

  lemma LacksNone(ads: seq<Adapter>, name: string)
    ensures GetAdapter(name, ads).None? <==> Lacks(ads, name)
  {
  }

  lemma LacksBoth(ads: seq<Adapter>, more: seq<Adapter>, name: string)
    ensures Lacks(ads + more, name) <==> Lacks(ads, name) && Lacks(more, name)
  {
    forall a ensures a in ads + more <==> a in ads || a in more {
    }
  }

  lemma DefaultsComplete(ads: seq<Adapter>)
    ensures Completed(ads, WithDefaults(ads))
    ensures !Lacks(WithDefaults(ads), START_ADAPTER) && !Lacks(WithDefaults(ads), END_ADAPTER)
  {
    DefaultsDiffer();
    LacksNone(ads, START_ADAPTER);
    LacksNone(ads, END_ADAPTER);
    var s := if Lacks(ads, START_ADAPTER) then [DEFAULT_START] else [];
    var e := if Lacks(ads, END_ADAPTER) then [DEFAULT_END] else [];
    LacksNone(ads + s, END_ADAPTER);
    LacksBoth(ads, s, END_ADAPTER);
    LacksBoth(ads, s, START_ADAPTER);
    LacksBoth(ads + s, e, START_ADAPTER);
    LacksBoth(ads + s, e, END_ADAPTER);
    hide GetAdapter;
    assert ads + [] == ads && ads + s + [] == ads + s;
    var all := ads + s + e;
    assert all == WithDefaults(ads) && all[|ads|..] == s + e;
    assert s != [] ==> DEFAULT_START in s && !Lacks(s, START_ADAPTER);
    assert e != [] ==> DEFAULT_END in e && !Lacks(e, END_ADAPTER);
    hide Lacks;
    assert Completed(ads, all) by { CompletedBy(ads, all, s, e); }
  }

  lemma CompletedBy(ads: seq<Adapter>, all: seq<Adapter>, s: seq<Adapter>, e: seq<Adapter>)
    requires ads <= all && all[|ads|..] == s + e
    requires s == if Lacks(ads, START_ADAPTER) then [DEFAULT_START] else []
    requires e == if Lacks(ads, END_ADAPTER) then [DEFAULT_END] else []
    ensures Completed(ads, all)
  {
    hide Lacks;
    DefaultsDiffer();
    assert forall x :: x in s + e <==> x in s || x in e;
  }

  // There is one such list.
  lemma CompletedOnce(ads: seq<Adapter>, all: seq<Adapter>, all': seq<Adapter>)
    requires Completed(ads, all) && Completed(ads, all')
    ensures all == all'
  {
    DefaultsDiffer();
    AddedIs(ads, all);
    AddedIs(ads, all');
    assert all == ads + all[|ads|..] && all' == ads + all'[|ads|..];
  }

  lemma AddedIs(ads: seq<Adapter>, all: seq<Adapter>)
    requires Completed(ads, all)
    ensures all[|ads|..] == (if Lacks(ads, START_ADAPTER) then [DEFAULT_START] else [])
                            + (if Lacks(ads, END_ADAPTER) then [DEFAULT_END] else [])
  {
    DefaultsDiffer();
    var added := all[|ads|..];
    assert |added| > 0 ==> added[0] in added;
    assert |added| > 1 ==> added[1] in added;
  }

  // New accepts exactly when, with the missing defaults, adapters and adapter names pair up one to
  // one, every part but E has an adapter that asks for all its predecessors but S, and every part
  // but S has a predecessor for each requirement except "any".
  lemma NewExact(parts: seq<Part>, ads: seq<Adapter>, all: seq<Adapter>)
    requires Declared(parts) && Completed(ads, all)
    ensures NewSpec(parts, ads).Accepted? <==>
            && Bijective(parts, all)
            && forall k :: 0 <= k < |parts| ==> PartServed(parts, all, parts[k])
    ensures NewSpec(parts, ads).Accepted? ==> NewSpec(parts, ads).adapters == all
  {
    hide WithDefaults;
    hide PartServed;
    hide CheckPart;
    DefaultsComplete(ads);
    CompletedOnce(ads, all, WithDefaults(ads));
    hide Completed;
    CheckPartsMeans(parts, all, parts);
    forall k | 0 <= k < |parts|
      ensures CheckPart(parts, all, parts[k]).Fine? ==>
          PartServed(parts, all, parts[k]) && GetAdapter(parts[k].adapter, all).Some?
      ensures Bijective(parts, all) && PartServed(parts, all, parts[k]) ==> CheckPart(parts, all, parts[k]).Fine?
    {
      ServedIsFine(parts, all, parts[k]);
    }
    if NewSpec(parts, ads).Accepted? { CountedBijection(parts, all); }
    if Bijective(parts, all) { BijectionCounts(parts, all); }
  }

  // ----- which error -----

  // Adapters are found in the order in which they are given.
  lemma {:induction false} GetsFirst(name: string, ads: seq<Adapter>, k: nat)
    requires k < |ads| && ads[k].name == name && forall j :: 0 <= j < k ==> ads[j].name != name
    ensures GetAdapter(name, ads) == Some(ads[k])
  {
    if k > 0 {
      GetsFirst(name, ads[1..], k - 1);
    }
  }

  // The part's adapter is there and serves it.
  ghost predicate PartFine(parts: seq<Part>, all: seq<Adapter>, p: Part) {
    var a := GetAdapter(p.adapter, all);
    && a.Some?
    && (p.id != END ==> PrevServed(parts, a.value, p.incoming))
    && (p.id != START ==> ReqsServed(parts, a.value, p.incoming))
  }

  lemma {:induction false} CheckPrevError(parts: seq<Part>, a: Adapter, prev: seq<string>)
    requires forall q :: q in prev ==> Find(q, parts) >= 0
    ensures CheckPrev(parts, a, prev).Fails? ==> CheckPrev(parts, a, prev).error == ErrUnmetPart
    decreases |prev|
  {
    if prev != [] {
      CheckPrevError(parts, a, prev[1..]);
    }
  }

  lemma {:induction false} CheckReqsError(parts: seq<Part>, prev: seq<string>, reqs: seq<Fingerprint>)
    requires forall q :: q in prev ==> Find(q, parts) >= 0
    ensures CheckReqs(parts, prev, reqs).Fails? ==> CheckReqs(parts, prev, reqs).error == ErrUnmetAdapter
    decreases |reqs|
  {
    if reqs != [] {
      CheckReqsError(parts, prev, reqs[1..]);
      CheckReqMeans(parts, reqs[0].name, prev);
    }
  }

  lemma CheckPartError(parts: seq<Part>, all: seq<Adapter>, p: Part)
    requires forall q :: q in p.incoming ==> Find(q, parts) >= 0
    ensures CheckPart(parts, all, p).Fine? <==> PartFine(parts, all, p)
    ensures CheckPart(parts, all, p) == Fails(ErrMissingAdapter) <==> Lacks(all, p.adapter)
    ensures var a := GetAdapter(p.adapter, all);
      CheckPart(parts, all, p) == Fails(ErrUnmetPart) <==>
        a.Some? && p.id != END && !PrevServed(parts, a.value, p.incoming)
    ensures !CheckPart(parts, all, p).Fine? ==>
              CheckPart(parts, all, p).error in {ErrMissingAdapter, ErrUnmetPart, ErrUnmetAdapter}
  {
    hide PrevServed;
    hide ReqsServed;
    hide CheckPrev;
    hide CheckReqs;
    CheckPartMeans(parts, all, p);
    var a := GetAdapter(p.adapter, all);
    if a.Some? {
      CheckPrevMeans(parts, a.value, p.incoming);
      CheckPrevError(parts, a.value, p.incoming);
      CheckReqsError(parts, p.incoming, a.value.reqs);
    }
  }

  lemma {:induction false} CheckPartsError(parts: seq<Part>, all: seq<Adapter>, rest: seq<Part>, k: nat)
    requires k < |rest| && CheckPart(parts, all, rest[k]).Fails?
    requires forall j :: 0 <= j < k ==> CheckPart(parts, all, rest[j]).Fine?
    ensures CheckParts(parts, all, rest) == CheckPart(parts, all, rest[k])
    decreases |rest|
  {
    hide CheckPart;
    if k > 0 {
      assert CheckPart(parts, all, rest[0]).Fine?;
      CheckPartsError(parts, all, rest[1..], k - 1);
    }
  }

  // The first part that is not served tells the error: no adapter of the name; a predecessor that
  // the adapter does not ask for; or else a requirement that no predecessor meets.
  lemma RefusedForPart(parts: seq<Part>, ads: seq<Adapter>, all: seq<Adapter>, k: nat)
    requires Declared(parts) && Completed(ads, all) && k < |parts|
    requires !PartFine(parts, all, parts[k]) && forall j :: 0 <= j < k ==> PartFine(parts, all, parts[j])
    ensures var p, a := parts[k], GetAdapter(parts[k].adapter, all);
      NewSpec(parts, ads) == Refused(
        if Lacks(all, p.adapter) then ErrMissingAdapter
        else if p.id != END && !PrevServed(parts, a.value, p.incoming) then ErrUnmetPart
        else ErrUnmetAdapter)
  {
    hide WithDefaults;
    hide CheckPart;
    hide PartFine;
    hide CheckParts;
    hide PrevServed;
    DefaultsComplete(ads);
    CompletedOnce(ads, all, WithDefaults(ads));
    hide Completed;
    forall j | 0 <= j <= k ensures CheckPart(parts, all, parts[j]).Fine? <==> PartFine(parts, all, parts[j]) {
      CheckPartError(parts, all, parts[j]);
    }
    CheckPartError(parts, all, parts[k]);
    CheckPartsError(parts, all, parts, k);
  }

  // Where every part is served, New refuses exactly if adapters and names do not pair up, and then
  // for an adapter that is not used.
  lemma RefusedForAdapter(parts: seq<Part>, ads: seq<Adapter>, all: seq<Adapter>)
    requires Declared(parts) && Completed(ads, all) && forall k :: 0 <= k < |parts| ==> PartFine(parts, all, parts[k])
    ensures NewSpec(parts, ads) == if Bijective(parts, all) then Accepted(all) else Refused(ErrUnusedAdapter)
  {
    hide WithDefaults;
    hide CheckPart;
    hide PartFine;
    DefaultsComplete(ads);
    CompletedOnce(ads, all, WithDefaults(ads));
    hide Completed;
    CheckPartsMeans(parts, all, parts);
    forall k | 0 <= k < |parts|
      ensures CheckPart(parts, all, parts[k]).Fine? && GetAdapter(parts[k].adapter, all).Some?
    {
      CheckPartError(parts, all, parts[k]);
      assert PartFine(parts, all, parts[k]);
      FineHasAdapter(parts, all, parts[k]);
    }
    if Bijective(parts, all) { BijectionCounts(parts, all); }
    if |all| <= |UsedNames(parts)| { CountedBijection(parts, all); }
  }

  lemma FineHasAdapter(parts: seq<Part>, all: seq<Adapter>, p: Part)
    requires PartFine(parts, all, p)
    ensures GetAdapter(p.adapter, all).Some?
  {
  }

  // ----- a story that relies on both defaults -----

  // S -> a -> E, as End builds it.
  const CHAIN := [
    Part(START, [], ["a"], START_ADAPTER), Part("a", [START], [END], "A"), Part(END, ["a"], [], END_ADAPTER)]
  const ALONE := Adapter("A", "T", [])

  lemma ChainNames()
    ensures Find(START, CHAIN) == 0 && Find("a", CHAIN) == 1 && Find(END, CHAIN) == 2
    ensures START != END && "a" != START && "a" != END
    ensures START_ADAPTER != END_ADAPTER && "A" != START_ADAPTER && "A" != END_ADAPTER
  {
    assert START[0] != END[0] && "a"[0] != START[0] && "a"[0] != END[0];
    assert START_ADAPTER[0] != END_ADAPTER[0] && "A"[0] != START_ADAPTER[0] && "A"[0] != END_ADAPTER[0];
    assert CHAIN[1..][0].id == "a" && CHAIN[1..][1..][0].id == END;
  }

  const CHAIN_ALL := [ALONE, DEFAULT_START, DEFAULT_END]

  lemma ChainAdapters()
    ensures GetAdapter("A", CHAIN_ALL) == Some(ALONE) && GetAdapter(START_ADAPTER, CHAIN_ALL) == Some(DEFAULT_START)
    ensures GetAdapter(END_ADAPTER, CHAIN_ALL) == Some(DEFAULT_END)
  {
    ChainNames();
    GetsFirst("A", CHAIN_ALL, 0);
    GetsFirst(START_ADAPTER, CHAIN_ALL, 1);
    GetsFirst(END_ADAPTER, CHAIN_ALL, 2);
  }

  lemma ChainFine(k: nat)
    requires k < |CHAIN|
    ensures PartFine(CHAIN, CHAIN_ALL, CHAIN[k])
  {
    ChainNames();
    ChainAdapters();
    hide GetAdapter;
    hide Find;
  }

  lemma ChainUses()
    ensures UsedNames(CHAIN) == {"A", START_ADAPTER, END_ADAPTER} && |UsedNames(CHAIN)| == 3
    ensures forall k :: 0 <= k < |CHAIN| ==> GetAdapter(CHAIN[k].adapter, CHAIN_ALL).Some?
  {
    ChainNames();
    ChainAdapters();
    hide GetAdapter;
    assert CHAIN[0].adapter == START_ADAPTER && CHAIN[1].adapter == "A" && CHAIN[2].adapter == END_ADAPTER;
  }

  lemma ChainDeclared()
    ensures Declared(CHAIN) && Completed([ALONE], CHAIN_ALL)
  {
    ChainNames();
    hide Find;
    assert CHAIN_ALL[|[ALONE]|..] == [DEFAULT_START] + [DEFAULT_END];
    CompletedBy([ALONE], CHAIN_ALL, [DEFAULT_START], [DEFAULT_END]);
  }

  lemma ChainAccepted()
    ensures NewSpec(CHAIN, [ALONE]) == Accepted([ALONE, DEFAULT_START, DEFAULT_END])
  {
    hide Declared;
    hide Completed;
    hide PartFine;
    hide Bijective;
    hide UsedNames;
    hide GetAdapter;
    hide NewSpec;
    ChainDeclared();
    ChainUses();
    forall k | 0 <= k < |CHAIN| ensures PartFine(CHAIN, CHAIN_ALL, CHAIN[k]) {
      ChainFine(k);
    }
    CountedBijection(CHAIN, CHAIN_ALL);
    RefusedForAdapter(CHAIN, [ALONE], CHAIN_ALL);
  }

  // Named adapters leave no room for the blank slots of unreachable parts.
  lemma NoBlankAccepted(parts: seq<Part>, ads: seq<Adapter>)
    requires NewSpec(parts, ads).Accepted?
    requires forall a :: a in ads ==> a.name != ""
    ensures BLANK !in parts
  {
    hide CheckPrev;
    hide CheckReqs;
    var all := WithDefaults(ads);
    CheckPartsMeans(parts, all, parts);
    forall k | 0 <= k < |parts| ensures parts[k].adapter != "" {
      assert CheckPart(parts, all, parts[k]).Fine?;
    }
  }
}
