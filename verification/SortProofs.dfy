// sortGraph lists exactly the parts that can be reached from S, whatever it swaps on the way.
module SortProofs {
  import opened Seqs
  import opened Walks
  import opened Story

  // What End guarantees before it sorts: distinct ids, with S and E among them.
  ghost predicate Ready(parts: seq<Part>) {
    DistinctIds(parts) && Find(START, parts) >= 0 && Find(END, parts) >= 0
  }

  ghost predicate NothingLinksToStart(parts: seq<Part>) {
    forall k :: 0 <= k < |parts| ==> START !in parts[k].outgoing
  }

  // Reached from S without passing E or an empty name: the links that sortGraph follows.
  ghost predicate InnerWalk(g: Graph, w: seq<string>, v: string) {
    WalkFromTo(g, w, START, v) && END !in w && "" !in w
  }

  ghost predicate InnerReach(g: Graph, v: string) {
    exists w :: InnerWalk(g, w, v)
  }

  ghost predicate Listed(nodes: seq<Part>, i: nat, id: string) {
    exists k :: 0 <= k < i && k < |nodes| && nodes[k].id == id
  }

  // Every link of the part leads to a listed part, to E, or is empty.
  ghost predicate Expanded(nodes: seq<Part>, i: nat, p: Part) {
    forall o :: o in p.outgoing ==> o == END || o == "" || Listed(nodes, i, o)
  }

  // The first i slots hold distinct reachable declared parts, the rest are blank.
  ghost predicate Filled(parts: seq<Part>, nodes: seq<Part>, i: nat) {
    && |nodes| == |parts|
    && 1 <= i < |nodes|
    && (forall k :: 0 <= k < i ==> nodes[k] in parts)
    && (forall k :: 0 <= k < i ==> InnerReach(GraphOf(parts), nodes[k].id))
    && (forall j, k :: 0 <= j < k < i ==> nodes[j].id != nodes[k].id)
    && (forall k :: i <= k < |nodes| ==> nodes[k] == BLANK)
    && Listed(nodes, i, START)
    && (NothingLinksToStart(parts) ==> nodes[0].id == START)
  }

  // The loop invariant of sortGraph's outer loop.
  ghost predicate SortInv(parts: seq<Part>, nodes: seq<Part>, i: nat, cur: nat) {
    && Filled(parts, nodes, i)
    && cur < |nodes|
    && (forall k :: 0 <= k < cur ==> Expanded(nodes, i, nodes[k]))
  }

  // The loop invariant of the inner loop, while it expands the part me.
  ghost predicate ExpandInv(parts: seq<Part>, nodes: seq<Part>, i: nat, cur: nat, outs: seq<string>, me: Part) {
    && Filled(parts, nodes, i)
    && cur < |nodes| - 1
    && (outs == [] || (cur < i && me in parts && InnerReach(GraphOf(parts), me.id)))
    && (forall k :: 0 <= k <= cur ==> nodes[k] == me || Expanded(nodes, i, nodes[k]))
    && (forall o :: o in outs ==> o in me.outgoing)
    && (forall o :: o in me.outgoing ==> o in outs || o == END || o == "" || Listed(nodes, i, o))
  }

  // What a successful sort returns: m listed parts, blanks, then E.
  ghost predicate SortedStory(parts: seq<Part>, nodes: seq<Part>, m: nat) {
    && |nodes| == |parts|
    && 1 <= m < |nodes|
    && (forall k :: 0 <= k < m ==> nodes[k] in parts && nodes[k].id != END && nodes[k].id != "")
    && (forall j, k :: 0 <= j < k < m ==> nodes[j].id != nodes[k].id)
    && (forall k :: m <= k < |nodes| - 1 ==> nodes[k] == BLANK)
    && nodes[|nodes| - 1] in parts && nodes[|nodes| - 1].id == END
    && (forall v :: Listed(nodes, m, v) <==> InnerReach(GraphOf(parts), v))
    && (forall k :: 0 <= k < m ==> Expanded(nodes, m, nodes[k]))
    && (NothingLinksToStart(parts) ==> nodes[0].id == START)
  }

  lemma FindsItself(parts: seq<Part>, p: Part)
    requires DistinctIds(parts) && p in parts
    ensures var k := Find(p.id, parts); k >= 0 && parts[k] == p
  {
    var j :| 0 <= j < |parts| && parts[j] == p;
    var k := Find(p.id, parts);
    assert parts[j].id == p.id;
  }

  lemma LinksOf(parts: seq<Part>, p: Part)
    requires DistinctIds(parts) && p in parts
    ensures p.id in GraphOf(parts) && GraphOf(parts)[p.id] == p.outgoing
  {
    FindsItself(parts, p);
    assert parts[Find(p.id, parts)].id in Ids(parts);
  }

  lemma IdsFit(parts: seq<Part>)
    ensures |Ids(parts)| <= |parts|
  {
    if parts == [] {
      assert Ids(parts) == {};
    } else {
      var n := |parts| - 1;
      IdsFit(parts[..n]);
      forall x | x in Ids(parts) ensures x in Ids(parts[..n]) + {parts[n].id} {
        var k :| 0 <= k < |parts| && parts[k].id == x;
        if k < n { assert parts[..n][k].id == x; }
      }
      var bigger := Ids(parts[..n]) + {parts[n].id};
      assert Ids(parts) <= bigger;
      SubsetSize(Ids(parts), bigger);
    }
  }

  lemma SubsetSize<T>(a: set<T>, b: set<T>)
    requires a <= b
    ensures |a| <= |b|
  {
    assert b == a + (b - a);
  }

  lemma InnerIsOther(parts: seq<Part>, p: Part)
    requires DistinctIds(parts) && p in parts && InnerReach(GraphOf(parts), p.id)
    ensures p.id in Ids(parts) && p.id != END && p.id != ""
  {
    LinksOf(parts, p);
    var w :| InnerWalk(GraphOf(parts), w, p.id);
    assert w[|w| - 1] in w;
  }

  // There is always room for one more reachable part: E keeps a slot of its own.
  lemma RoomForOneMore(parts: seq<Part>, nodes: seq<Part>, i: nat, out: string)
    requires Ready(parts) && Filled(parts, nodes, i)
    requires out in Ids(parts) && out != END && !Listed(nodes, i, out)
    ensures i + 1 < |nodes|
  {
    hide GraphOf;
    hide InnerReach;
    var s := seq(i, k requires 0 <= k < i => nodes[k].id) + [out];
    var names := Ids(parts) - {END};
    forall k | 0 <= k < i ensures s[k] in names && Listed(nodes, i, s[k]) {
      InnerIsOther(parts, nodes[k]);
    }
    DistinctFits(s, names);
    IdsFit(parts);
    assert parts[Find(END, parts)].id in Ids(parts);
  }

  lemma InnerStep(parts: seq<Part>, p: Part, out: string)
    requires DistinctIds(parts) && p in parts && InnerReach(GraphOf(parts), p.id)
    requires out in p.outgoing && out != END && out != ""
    ensures InnerReach(GraphOf(parts), out)
  {
    var g := GraphOf(parts);
    LinksOf(parts, p);
    var w :| InnerWalk(g, w, p.id);
    WalkJoin(g, w, [p.id, out]);
    assert [p.id, out][1..] == [out];
    assert InnerWalk(g, w + [out], out);
  }

  // Swapping two filled slots changes none of the facts about the filled part.
  lemma SwapKeeps(parts: seq<Part>, nodes: seq<Part>, i: nat, cur: nat, k: nat, outs: seq<string>, me: Part)
    requires Ready(parts) && ExpandInv(parts, nodes, i, cur, outs, me) && outs != []
    requires k < cur && nodes[k].id == outs[0] && outs[0] != END
    ensures ExpandInv(parts, nodes[k := nodes[cur]][cur := nodes[k]], i, cur, outs[1..], me)
  {
    hide GraphOf;
    hide InnerReach;
    hide Ready;
    var nodes' := nodes[k := nodes[cur]][cur := nodes[k]];
    forall id | Listed(nodes, i, id) ensures Listed(nodes', i, id) {
      var j :| 0 <= j < i && nodes[j].id == id;
      var j' := if j == k then cur else if j == cur then k else j;
      assert nodes'[j'].id == id;
    }
    if NothingLinksToStart(parts) {
      assert outs[0] in me.outgoing;
      assert k != 0;
    }
    assert Filled(parts, nodes', i);
  }

  lemma PlaceKeeps(parts: seq<Part>, nodes: seq<Part>, i: nat, cur: nat, n: nat, outs: seq<string>, me: Part)
    requires Ready(parts) && ExpandInv(parts, nodes, i, cur, outs, me) && outs != [] && i + 1 < |nodes|
    requires n < |parts| && parts[n].id == outs[0] && outs[0] != END && outs[0] != "" && !Listed(nodes, i, outs[0])
    ensures ExpandInv(parts, nodes[i := parts[n]], i + 1, cur, outs[1..], me)
  {
    var nodes' := nodes[i := parts[n]];
    forall id | Listed(nodes, i, id) ensures Listed(nodes', i + 1, id) {
      var j :| 0 <= j < i && nodes[j].id == id;
      assert nodes'[j].id == id;
    }
    assert nodes'[i].id == outs[0];
    assert Listed(nodes', i + 1, outs[0]);
    assert outs[0] in me.outgoing;
    InnerStep(parts, me, outs[0]);
    forall j | 0 <= j < i ensures nodes'[j].id != nodes'[i].id {
      assert nodes[j].id != outs[0];
    }
    assert Filled(parts, nodes', i + 1);
  }

  // A link whose target is in no slot leads to a reachable part that is not listed yet.
  lemma NotPlacedYet(parts: seq<Part>, nodes: seq<Part>, i: nat, cur: nat, outs: seq<string>, me: Part)
    requires Ready(parts) && ExpandInv(parts, nodes, i, cur, outs, me) && outs != [] && outs[0] != END
    requires Find(outs[0], nodes[..cur]) < 0 && Find(outs[0], nodes[cur..]) < 0
    ensures outs[0] != "" && !Listed(nodes, i, outs[0]) && InnerReach(GraphOf(parts), outs[0])
  {
    assert outs[0] in me.outgoing;
    assert nodes[cur..][|nodes| - 1 - cur] == BLANK;
    InnerStep(parts, me, outs[0]);
    forall j | 0 <= j < |nodes| ensures nodes[j].id != outs[0] {
      if j < cur { assert nodes[..cur][j] == nodes[j]; } else { assert nodes[cur..][j - cur] == nodes[j]; }
    }
  }

  // Such a link is either the missing node, or its target gets the next slot.
  lemma PlaceOrMissing(parts: seq<Part>, nodes: seq<Part>, i: nat, cur: nat, outs: seq<string>, me: Part)
    requires Ready(parts) && ExpandInv(parts, nodes, i, cur, outs, me) && outs != [] && outs[0] != END
    requires Find(outs[0], nodes[..cur]) < 0 && Find(outs[0], nodes[cur..]) < 0
    ensures
      var n := Find(outs[0], parts);
      if n < 0 then exists v :: InnerReach(GraphOf(parts), v) && v !in GraphOf(parts)
      else i + 1 < |nodes| && ExpandInv(parts, nodes[i := parts[n]], i + 1, cur, outs[1..], me)
  {
    NotPlacedYet(parts, nodes, i, cur, outs, me);
    var n := Find(outs[0], parts);
    if n < 0 {
      assert InnerReach(GraphOf(parts), outs[0]) && outs[0] !in GraphOf(parts);
    } else {
      assert parts[n].id in Ids(parts);
      RoomForOneMore(parts, nodes, i, outs[0]);
      PlaceKeeps(parts, nodes, i, cur, n, outs, me);
    }
  }

  lemma SkipKeeps(parts: seq<Part>, nodes: seq<Part>, i: nat, cur: nat, outs: seq<string>, me: Part)
    requires Ready(parts) && ExpandInv(parts, nodes, i, cur, outs, me) && outs != []
    requires outs[0] == END || Find(outs[0], nodes[cur..]) >= 0
    ensures ExpandInv(parts, nodes, i, cur, outs[1..], me)
  {
    if outs[0] != END {
      var l := Find(outs[0], nodes[cur..]);
      assert nodes[cur + l].id == outs[0];
      assert outs[0] != "" ==> Listed(nodes, i, outs[0]);
    }
  }

  lemma ExpandEnds(parts: seq<Part>, nodes: seq<Part>, i: nat, cur: nat, me: Part)
    requires ExpandInv(parts, nodes, i, cur, [], me)
    ensures SortInv(parts, nodes, i, cur + 1)
  {
    assert forall o :: o in me.outgoing ==> o == END || o == "" || Listed(nodes, i, o);
  }

  ghost predicate ExpandResult(parts: seq<Part>, cur: nat, r: SortState) {
    match r
    case Sorting(nodes', i') => SortInv(parts, nodes', i', cur + 1)
    case Missing => exists v :: InnerReach(GraphOf(parts), v) && v !in GraphOf(parts)
    case Overrun => false
  }

  lemma {:induction false} ExpandKeeps(parts: seq<Part>, nodes: seq<Part>, i: nat, cur: nat, outs: seq<string>,
                                       me: Part)
    requires Ready(parts) && cur < |nodes| && ExpandInv(parts, nodes, i, cur, outs, me)
    ensures ExpandResult(parts, cur, Expand(parts, nodes, i, cur, outs))
    decreases |outs|
  {
    hide Filled;
    hide InnerReach;
    hide Expanded;
    hide ExpandInv;
    hide SortInv;
    if outs == [] {
      ExpandEnds(parts, nodes, i, cur, me);
    } else if outs[0] == END {
      SkipKeeps(parts, nodes, i, cur, outs, me);
      ExpandKeeps(parts, nodes, i, cur, outs[1..], me);
    } else if Find(outs[0], nodes[..cur]) >= 0 {
      var k := Find(outs[0], nodes[..cur]);
      SwapKeeps(parts, nodes, i, cur, k, outs, me);
      ExpandKeeps(parts, nodes[k := nodes[cur]][cur := nodes[k]], i, cur, outs[1..], me);
    } else if Find(outs[0], nodes[cur..]) >= 0 {
      SkipKeeps(parts, nodes, i, cur, outs, me);
      ExpandKeeps(parts, nodes, i, cur, outs[1..], me);
    } else {
      PlaceOrMissing(parts, nodes, i, cur, outs, me);
      var n := Find(outs[0], parts);
      if n >= 0 {
        ExpandKeeps(parts, nodes[i := parts[n]], i + 1, cur, outs[1..], me);
      }
    }
  }

  // A link of a listed part leads to a listed part once all of them are expanded.
  lemma ListedLeadsOn(parts: seq<Part>, nodes: seq<Part>, i: nat, u: string, v: string)
    requires DistinctIds(parts) && i <= |nodes| && Listed(nodes, i, u)
    requires forall k :: 0 <= k < i ==> nodes[k] in parts && Expanded(nodes, i, nodes[k])
    requires Edge(GraphOf(parts), u, v) && v != END && v != ""
    ensures Listed(nodes, i, v)
  {
    hide DistinctIds;
    hide GraphOf;
    var k :| 0 <= k < i && nodes[k].id == u;
    LinksOf(parts, nodes[k]);
    assert Expanded(nodes, i, nodes[k]) && v in nodes[k].outgoing;
  }

  // An inner walk never leaves the listed parts once all of them are expanded.
  lemma {:induction false} WalkStaysListed(parts: seq<Part>, nodes: seq<Part>, i: nat, w: seq<string>, v: string)
    requires DistinctIds(parts) && i <= |nodes| && Listed(nodes, i, START)
    requires forall k :: 0 <= k < i ==> nodes[k] in parts && Expanded(nodes, i, nodes[k])
    requires InnerWalk(GraphOf(parts), w, v)
    ensures Listed(nodes, i, v)
    decreases |w|
  {
    hide DistinctIds;
    hide GraphOf;
    hide Listed;
    hide Expanded;
    if |w| > 1 {
      var g, u, front := GraphOf(parts), w[|w| - 2], w[..|w| - 1];
      WalkPart(g, w, 0, |w| - 1);
      assert front == w[0..|w| - 1] && InnerWalk(g, front, u);
      WalkStaysListed(parts, nodes, i, front, u);
      assert w[|w| - 1] in w && Edge(g, u, v);
      ListedLeadsOn(parts, nodes, i, u, v);
    }
  }

  lemma ListedMeansReached(parts: seq<Part>, nodes: seq<Part>, i: nat, v: string)
    requires Ready(parts) && |nodes| > 0 && SortInv(parts, nodes, i, |nodes| - 1)
    ensures Listed(nodes, i, v) <==> InnerReach(GraphOf(parts), v)
  {
    if InnerReach(GraphOf(parts), v) {
      var w :| InnerWalk(GraphOf(parts), w, v);
      WalkStaysListed(parts, nodes, i, w, v);
    }
  }

  lemma LastIsNotListed(nodes: seq<Part>, i: nat, last: Part, v: string)
    requires i < |nodes|
    ensures Listed(nodes[|nodes| - 1 := last], i, v) <==> Listed(nodes, i, v)
  {
    var nodes' := nodes[|nodes| - 1 := last];
    if k :| 0 <= k < i && nodes[k].id == v { assert nodes'[k].id == v; }
    if k :| 0 <= k < i && nodes'[k].id == v { assert nodes[k].id == v; }
  }

  // When the outer loop is done, putting E last completes the sorted story.
  lemma SortDone(parts: seq<Part>, nodes: seq<Part>, i: nat)
    requires Ready(parts) && |nodes| > 0 && SortInv(parts, nodes, i, |nodes| - 1)
    ensures SortedStory(parts, nodes[|nodes| - 1 := parts[Find(END, parts)]], i)
  {
    hide GraphOf;
    hide Listed;
    hide InnerReach;
    var last := parts[Find(END, parts)];
    var nodes' := nodes[|nodes| - 1 := last];
    forall v
      ensures Listed(nodes', i, v) <==> Listed(nodes, i, v)
      ensures Listed(nodes', i, v) <==> InnerReach(GraphOf(parts), v)
    {
      LastIsNotListed(nodes, i, last, v);
      ListedMeansReached(parts, nodes, i, v);
    }
    forall k | 0 <= k < i ensures nodes'[k].id != END && nodes'[k].id != "" && Expanded(nodes', i, nodes'[k]) {
      InnerIsOther(parts, nodes[k]);
      assert Expanded(nodes, i, nodes[k]);
    }
  }

  ghost predicate SortResult(parts: seq<Part>, r: SortState) {
    match r
    case Sorting(nodes', m) => SortedStory(parts, nodes', m)
    case Missing => exists v :: InnerReach(GraphOf(parts), v) && v !in GraphOf(parts)
    case Overrun => false
  }

  lemma ExpandStarts(parts: seq<Part>, nodes: seq<Part>, i: nat, cur: nat)
    requires Ready(parts) && SortInv(parts, nodes, i, cur) && cur < |nodes| - 1
    ensures ExpandInv(parts, nodes, i, cur, nodes[cur].outgoing, nodes[cur])
  {
    if cur >= i {
      assert nodes[cur] == BLANK;
    }
  }

  // The outer loop of sortGraph under its invariant.
  lemma {:induction false} SortFromExact(parts: seq<Part>, nodes: seq<Part>, i: nat, cur: nat)
    requires Ready(parts) && SortInv(parts, nodes, i, cur)
    ensures SortResult(parts, SortFrom(parts, nodes, i, cur))
    decreases |nodes| - cur
  {
    hide Expand;
    hide SortedStory;
    hide InnerReach;
    if cur < |nodes| - 1 {
      ExpandStarts(parts, nodes, i, cur);
      ExpandKeeps(parts, nodes, i, cur, nodes[cur].outgoing, nodes[cur]);
      match Expand(parts, nodes, i, cur, nodes[cur].outgoing)
      case Sorting(nodes', i') => SortFromExact(parts, nodes', i', cur + 1);
      case Missing =>
    } else {
      SortDone(parts, nodes, i);
    }
  }

  lemma FirstIsSorted(parts: seq<Part>)
    requires Ready(parts)
    ensures SortInv(parts, FirstSlots(parts, Find(START, parts)), 1, 0)
  {
    var g, first := GraphOf(parts), FirstSlots(parts, Find(START, parts));
    assert InnerWalk(g, [START], START);
    assert parts[Find(END, parts)].id == END;
    assert first[0].id == START;
  }

  // sortGraph never runs off the array. It misses a node exactly when a link that it follows
  // leads to an undeclared id, and otherwise lists exactly the reachable parts.
  lemma SortGraphExact(parts: seq<Part>)
    requires Ready(parts)
    ensures !SortGraph(parts).Overrun?
    ensures SortGraph(parts).Missing? <==> exists v :: InnerReach(GraphOf(parts), v) && v !in GraphOf(parts)
    ensures SortGraph(parts).Sorting? ==> SortedStory(parts, SortGraph(parts).nodes, SortGraph(parts).next)
  {
    var g := GraphOf(parts);
    FirstIsSorted(parts);
    SortFromExact(parts, FirstSlots(parts, Find(START, parts)), 1, 0);
    if SortGraph(parts).Sorting? {
      var nodes, m := SortGraph(parts).nodes, SortGraph(parts).next;
      forall v | InnerReach(g, v) ensures v in g {
        assert Listed(nodes, m, v);
        var k :| 0 <= k < m && nodes[k].id == v;
        LinksOf(parts, nodes[k]);
      }
    }
  }
}
