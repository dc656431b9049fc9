// The story graph: parts, links, and the three passes that End makes over them. Every
// function here follows one Go function step by step, the index panics included.
module Story {
  import opened Seqs
  import opened Walks

  const START := "S"
  const END := "E"
  const START_ADAPTER := "Start"
  const END_ADAPTER := "End"

  datatype Part = Part(id: string, incoming: seq<string>, outgoing: seq<string>, adapter: string)

  // The zero value of a part; sortGraph leaves it in the slots it does not fill.
  const BLANK := Part("", [], [], "")

  datatype Verdict = NoCycle | CycleSeen | OutOfRange

  datatype SortState = Sorting(nodes: seq<Part>, next: nat) | Missing | Overrun

  datatype EndResult = Built(parts: seq<Part>) | ErrMissingNode | ErrSyclicGraph | Panics

  function Ids(parts: seq<Part>): set<string> {
    set k | 0 <= k < |parts| :: parts[k].id
  }

  // The ids, slot by slot.
  function PartIdList(parts: seq<Part>): seq<string> {
    seq(|parts|, k requires 0 <= k < |parts| => parts[k].id)
  }

  ghost predicate DistinctIds(parts: seq<Part>) {
    forall j, k :: 0 <= j < k < |parts| ==> parts[j].id != parts[k].id
  }

  // containsNode: the first slot that holds the id, or -1.
  function Find(id: string, parts: seq<Part>): (k: int)
    ensures -1 <= k < |parts|
    ensures k >= 0 ==> parts[k].id == id && forall j :: 0 <= j < k ==> parts[j].id != id
    ensures k < 0 ==> forall j :: 0 <= j < |parts| ==> parts[j].id != id
  {
    if parts == [] then -1
    else if parts[0].id == id then 0
    else
      var k := Find(id, parts[1..]);
      assert forall j :: 0 < j < |parts| ==> parts[j] == parts[1..][j - 1];
      if k < 0 then -1 else k + 1
  }

  // part.Outgoing and part.Inngoing: append the names that are not there yet.
  function AppendNew(have: seq<string>, ids: seq<string>): (r: seq<string>)
    ensures have <= r
    ensures forall x :: x in r <==> x in have || x in ids
    ensures Distinct(have) ==> Distinct(r)
    decreases |ids|
  {
    if ids == [] then have
    else AppendNew(if ids[0] in have then have else have + [ids[0]], ids[1..])
  }

  lemma {:induction false} AppendOne(have: seq<string>, ids: seq<string>, x: string)
    ensures AppendNew(AppendNew(have, ids), [x]) == AppendNew(have, ids + [x])
    decreases |ids|
  {
    if ids == [] {
      assert ids + [x] == [x];
    } else {
      assert (ids + [x])[1..] == ids[1..] + [x];
      AppendOne(if ids[0] in have then have else have + [ids[0]], ids[1..], x);
    }
  }

  // The ids of the parts that link to id, in declaration order.
  function Linkers(parts: seq<Part>, id: string): (r: seq<string>)
    ensures forall x :: x in r <==> exists k :: 0 <= k < |parts| && parts[k].id == x && id in parts[k].outgoing
    ensures DistinctIds(parts) ==> Distinct(r)
    decreases |parts|
  {
    if parts == [] then []
    else
      var n := |parts| - 1;
      var front := Linkers(parts[..n], id);
      assert forall k :: 0 <= k < n ==> parts[..n][k] == parts[k];
      assert DistinctIds(parts) ==> DistinctIds(parts[..n]) && parts[n].id !in front;
      if id in parts[n].outgoing then front + [parts[n].id] else front
  }

  // buildInnLinks
  function WithIncoming(parts: seq<Part>): (r: seq<Part>)
    ensures |r| == |parts|
    ensures forall k {:trigger r[k]} :: 0 <= k < |r| ==>
              r[k] == parts[k].(incoming := AppendNew(parts[k].incoming, Linkers(parts, parts[k].id)))
  {
    seq(|parts|, k requires 0 <= k < |parts| =>
      parts[k].(incoming := AppendNew(parts[k].incoming, Linkers(parts, parts[k].id))))
  }

  // The inner loop of sortGraph: place what the part at cur links to. outs is what is left of
  // the link list that the loop started on; nodes[cur] itself may have been swapped away.
  function Expand(parts: seq<Part>, nodes: seq<Part>, i: nat, cur: nat, outs: seq<string>): (r: SortState)
    requires cur < |nodes|
    ensures r.Sorting? ==> |r.nodes| == |nodes|
    decreases |outs|
  {
    if outs == [] then Sorting(nodes, i)
    else if outs[0] == END then Expand(parts, nodes, i, cur, outs[1..])
    else
      var k := Find(outs[0], nodes[..cur]);
      if k >= 0 then
        Expand(parts, nodes[k := nodes[cur]][cur := nodes[k]], i, cur, outs[1..])
      else if Find(outs[0], nodes[cur..]) >= 0 then
        Expand(parts, nodes, i, cur, outs[1..])
      else
        var n := Find(outs[0], parts);
        if n < 0 then Missing
        else if i >= |nodes| then Overrun
        else Expand(parts, nodes[i := parts[n]], i + 1, cur, outs[1..])
  }

  // The outer loop of sortGraph, and the write that follows it.
  function SortFrom(parts: seq<Part>, nodes: seq<Part>, i: nat, cur: nat): (r: SortState)
    requires cur < |nodes|
    ensures r.Sorting? ==> |r.nodes| == |nodes|
    decreases |nodes| - cur
  {
    if i < |nodes| && cur < |nodes| - 1 then
      match Expand(parts, nodes, i, cur, nodes[cur].outgoing)
      case Sorting(nodes', i') => SortFrom(parts, nodes', i', cur + 1)
      case Missing => Missing
      case Overrun => Overrun
    else
      var e := Find(END, parts);
      if e < 0 then Overrun else Sorting(nodes[cur := parts[e]], i)
  }

  function FirstSlots(parts: seq<Part>, s: nat): (r: seq<Part>)
    requires s < |parts|
    ensures |r| == |parts| && r[0] == parts[s]
  {
    seq(|parts|, k => if k == 0 then parts[s] else BLANK)
  }

  function SortGraph(parts: seq<Part>): (r: SortState)
    ensures r.Sorting? ==> |r.nodes| == |parts| > 0
  {
    var s := Find(START, parts);
    if s < 0 then Overrun else SortFrom(parts, FirstSlots(parts, s), 1, 0)
  }

  function Unseen(seen: seq<bool>): nat {
    if seen == [] then 0 else (if seen[0] then 0 else 1) + Unseen(seen[1..])
  }

  lemma {:induction false} UnseenDrops(seen: seq<bool>, i: nat)
    requires i < |seen| && !seen[i]
    ensures Unseen(seen[i := true]) < Unseen(seen)
  {
    if i > 0 {
      UnseenDrops(seen[1..], i - 1);
      assert seen[i := true][1..] == seen[1..][i - 1 := true];
    }
  }

  // validateAsyclic on the slot i; every recursive call gets its own copy of the marks.
  function Explore(parts: seq<Part>, i: nat, seen: seq<bool>): Verdict
    requires i < |parts| == |seen|
    decreases Unseen(seen), 0
  {
    if seen[i] then CycleSeen
    else
      UnseenDrops(seen, i);
      ExploreAll(parts, parts[i].outgoing, seen[i := true])
  }

  function ExploreAll(parts: seq<Part>, outs: seq<string>, seen: seq<bool>): Verdict
    requires |parts| == |seen|
    decreases Unseen(seen), |outs|
  {
    if outs == [] then NoCycle
    else
      var k := Find(outs[0], parts);
      if k < 0 then OutOfRange
      else
        match Explore(parts, k, seen)
        case NoCycle => ExploreAll(parts, outs[1..], seen)
        case CycleSeen => CycleSeen
        case OutOfRange => OutOfRange
  }

  // b.Id(id).Adapter(adapter)
  function SetAdapter(parts: seq<Part>, id: string, adapter: string): (r: seq<Part>)
    ensures DistinctIds(parts) ==> DistinctIds(r)
    ensures |parts| <= |r| <= |parts| + 1
    ensures forall k :: 0 <= k < |parts| ==> r[k] == parts[k].(adapter := r[k].adapter)
    ensures |r| > |parts| ==> r[|parts|] == Part(id, [], [], adapter)
    ensures exists k :: 0 <= k < |r| && r[k].id == id && r[k].adapter == adapter
  {
    var k := Find(id, parts);
    if k >= 0 then
      var r := parts[k := parts[k].(adapter := adapter)];
      assert r[k].id == id;
      r
    else
      var r := parts + [Part(id, [], [], adapter)];
      assert r[|parts|].id == id;
      r
  }

  // The parts as End looks at them: E declared, incoming links filled in.
  function Prepared(parts: seq<Part>): seq<Part> {
    WithIncoming(SetAdapter(parts, END, END_ADAPTER))
  }

  function EndSpec(parts: seq<Part>): EndResult {
    match SortGraph(Prepared(parts))
    case Missing => ErrMissingNode
    case Overrun => Panics
    case Sorting(nodes, _) =>
      match Explore(nodes, 0, seq(|nodes|, _ => false))
      case NoCycle => Built(nodes)
      case CycleSeen => ErrSyclicGraph
      case OutOfRange => Panics
  }

  function GraphOf(parts: seq<Part>): Graph {
    map id | id in Ids(parts) :: var k := Find(id, parts); if k >= 0 then parts[k].outgoing else []
  }
}
