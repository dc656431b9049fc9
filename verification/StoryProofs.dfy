// End decides the graph: what validateAsyclic finds, and what End answers for every story.
module StoryProofs {
  import opened Seqs
  import opened Walks
  import opened Story
  import opened SortProofs

  // ----- validateAsyclic -----

  ghost predicate Hop(parts: seq<Part>, i: nat, j: nat) {
    i < |parts| && exists o :: o in parts[i].outgoing && Find(o, parts) == j
  }

  ghost predicate SlotWalk(parts: seq<Part>, w: seq<nat>) {
    && |w| > 0
    && (forall k :: 0 <= k < |w| ==> w[k] < |parts|)
    && (forall k :: 0 < k < |w| ==> Hop(parts, w[k - 1], w[k]))
  }

  // The walk ends on a marked slot, or meets itself.
  ghost predicate Trapped(parts: seq<Part>, w: seq<nat>, seen: seq<bool>)
    requires SlotWalk(parts, w) && |seen| == |parts|
  {
    seen[w[|w| - 1]] || MeetsItself(w)
  }

  ghost predicate MeetsItself(w: seq<nat>) {
    exists j, k :: 0 <= j < k < |w| && w[j] == w[k]
  }

  ghost predicate TrapFrom(parts: seq<Part>, i: nat, seen: seq<bool>)
    requires |seen| == |parts|
  {
    exists w :: SlotWalk(parts, w) && w[0] == i && Trapped(parts, w, seen)
  }

  ghost predicate LinksResolve(parts: seq<Part>) {
    forall k, o :: 0 <= k < |parts| && o in parts[k].outgoing ==> Find(o, parts) >= 0
  }

  // The depth-first search reports a cycle exactly when some walk is trapped, and on resolved
  // links it never indexes outside the parts.
  lemma {:induction false} ExploreExact(parts: seq<Part>, i: nat, seen: seq<bool>)
    requires i < |parts| == |seen| && LinksResolve(parts)
    ensures Explore(parts, i, seen) != OutOfRange
    ensures Explore(parts, i, seen) == CycleSeen <==> TrapFrom(parts, i, seen)
    decreases Unseen(seen), 0
  {
    if seen[i] {
      assert SlotWalk(parts, [i]) && Trapped(parts, [i], seen);
    } else {
      UnseenDrops(seen, i);
      var seen' := seen[i := true];
      ExploreAllExact(parts, parts[i].outgoing, seen');
      if Explore(parts, i, seen) == CycleSeen {
        var o :| o in parts[i].outgoing && Explore(parts, Find(o, parts), seen') == CycleSeen;
        ExploreExact(parts, Find(o, parts), seen');
        TrapAbove(parts, i, Find(o, parts), seen);
      }
      if TrapFrom(parts, i, seen) {
        var j := TrapBelow(parts, i, seen);
        ExploreExact(parts, j, seen');
      }
    }
  }

  lemma {:induction false} ExploreAllExact(parts: seq<Part>, outs: seq<string>, seen: seq<bool>)
    requires |parts| == |seen| && LinksResolve(parts)
    requires forall o :: o in outs ==> Find(o, parts) >= 0
    ensures ExploreAll(parts, outs, seen) != OutOfRange
    ensures ExploreAll(parts, outs, seen) == CycleSeen <==>
            exists o :: o in outs && Explore(parts, Find(o, parts), seen) == CycleSeen
    decreases Unseen(seen), |outs|
  {
    if outs != [] {
      var first, rest := outs[0], outs[1..];
      ExploreExact(parts, Find(first, parts), seen);
      ExploreAllExact(parts, rest, seen);
      FirstOrRest(parts, outs, seen);
      hide Explore;
      if Explore(parts, Find(first, parts), seen) == CycleSeen {
        assert first in outs;
      } else {
        assert ExploreAll(parts, outs, seen) == ExploreAll(parts, rest, seen);
      }
    }
  }

  lemma FirstOrRest(parts: seq<Part>, outs: seq<string>, seen: seq<bool>)
    requires |parts| == |seen| && outs != [] && forall o :: o in outs ==> Find(o, parts) >= 0
    ensures (exists o :: o in outs && Explore(parts, Find(o, parts), seen) == CycleSeen) <==>
              Explore(parts, Find(outs[0], parts), seen) == CycleSeen
              || exists o :: o in outs[1..] && Explore(parts, Find(o, parts), seen) == CycleSeen
  {
    hide Explore;
    assert forall o :: o in outs <==> o == outs[0] || o in outs[1..];
  }

  lemma SlotWalkGrows(parts: seq<Part>, i: nat, w: seq<nat>)
    requires SlotWalk(parts, w) && Hop(parts, i, w[0])
    ensures SlotWalk(parts, [i] + w)
  {
    var w' := [i] + w;
    forall k | 0 < k < |w'| ensures Hop(parts, w'[k - 1], w'[k]) {
      if k > 1 { assert w'[k - 1] == w[k - 2] && w'[k] == w[k - 1]; }
    }
  }

  lemma MeetsAbove(i: nat, w: seq<nat>)
    requires MeetsItself(w) || i in w
    ensures MeetsItself([i] + w)
  {
    if i in w {
      var k :| 0 <= k < |w| && w[k] == i;
      assert ([i] + w)[0] == ([i] + w)[k + 1];
    } else {
      var j, k :| 0 <= j < k < |w| && w[j] == w[k];
      assert ([i] + w)[j + 1] == ([i] + w)[k + 1];
    }
  }

  lemma TrapAbove(parts: seq<Part>, i: nat, j: nat, seen: seq<bool>)
    requires i < |parts| == |seen| && j < |parts| && Hop(parts, i, j) && TrapFrom(parts, j, seen[i := true])
    ensures TrapFrom(parts, i, seen)
  {
    hide Hop;
    hide MeetsItself;
    var w :| SlotWalk(parts, w) && w[0] == j && Trapped(parts, w, seen[i := true]);
    SlotWalkGrows(parts, i, w);
    if MeetsItself(w) || i in w {
      MeetsAbove(i, w);
    } else {
      assert w[|w| - 1] != i;
      assert ([i] + w)[|w|] == w[|w| - 1];
    }
    assert Trapped(parts, [i] + w, seen);
  }

  lemma TrapBelow(parts: seq<Part>, i: nat, seen: seq<bool>) returns (j: nat)
    requires i < |parts| == |seen| && !seen[i] && TrapFrom(parts, i, seen)
    ensures j < |parts| && TrapFrom(parts, j, seen[i := true])
    ensures exists o :: o in parts[i].outgoing && Find(o, parts) == j
  {
    hide Find;
    var w :| SlotWalk(parts, w) && w[0] == i && Trapped(parts, w, seen);
    assert |w| > 1;
    j := w[1];
    assert Hop(parts, w[0], w[1]);
    SlotWalkTail(parts, w);
    hide Hop;
    hide SlotWalk;
    if seen[w[|w| - 1]] {
      SeenBelow(parts, w, seen);
    } else {
      var a, b :| 0 <= a < b < |w| && w[a] == w[b];
      if a == 0 {
        LoopBelow(parts, w, seen, b);
      } else {
        MeetBelow(parts, w, seen, a, b);
      }
    }
  }

  lemma SlotWalkTail(parts: seq<Part>, w: seq<nat>)
    requires SlotWalk(parts, w) && |w| > 1
    ensures SlotWalk(parts, w[1..])
    ensures forall b :: 0 < b < |w| ==> SlotWalk(parts, w[1..][..b])
  {
    hide Hop;
    var tail := w[1..];
    forall k | 0 < k < |tail| ensures Hop(parts, tail[k - 1], tail[k]) {
      assert tail[k - 1] == w[k] && tail[k] == w[k + 1];
    }
  }

  // The three ways to be trapped, one hop further: at a marked slot, back at the first slot, and
  // at a slot met later.
  lemma SeenBelow(parts: seq<Part>, w: seq<nat>, seen: seq<bool>)
    requires SlotWalk(parts, w) && SlotWalk(parts, w[1..]) && |w| > 1 && |seen| == |parts| && seen[w[|w| - 1]]
    ensures TrapFrom(parts, w[1], seen[w[0] := true])
  {
    hide Hop;
    var tail := w[1..];
    assert tail[|tail| - 1] == w[|w| - 1];
    assert Trapped(parts, tail, seen[w[0] := true]);
  }

  lemma LoopBelow(parts: seq<Part>, w: seq<nat>, seen: seq<bool>, b: nat)
    requires SlotWalk(parts, w) && 0 < b < |w| && w[b] == w[0] && |seen| == |parts| && SlotWalk(parts, w[1..][..b])
    ensures TrapFrom(parts, w[1], seen[w[0] := true])
  {
    hide Hop;
    var loop := w[1..][..b];
    assert loop[|loop| - 1] == w[b];
    assert Trapped(parts, loop, seen[w[0] := true]);
  }

  lemma MeetBelow(parts: seq<Part>, w: seq<nat>, seen: seq<bool>, a: nat, b: nat)
    requires SlotWalk(parts, w) && SlotWalk(parts, w[1..]) && 0 < a < b < |w| && w[a] == w[b] && |seen| == |parts|
    ensures TrapFrom(parts, w[1], seen[w[0] := true])
  {
    hide Hop;
    var tail := w[1..];
    assert tail[a - 1] == tail[b - 1];
    assert Trapped(parts, tail, seen[w[0] := true]);
  }

  // ----- End -----

  // The builder's own invariant: ids are distinct, S is declared, no incoming links yet.
  ghost predicate Open(parts: seq<Part>) {
    && DistinctIds(parts)
    && Find(START, parts) >= 0
    && (forall k :: 0 <= k < |parts| ==> parts[k].incoming == [] && Distinct(parts[k].outgoing))
  }

  // No link to the empty name, and E links to nothing.
  ghost predicate Tidy(parts: seq<Part>) {
    && (forall k :: 0 <= k < |parts| ==> "" !in parts[k].outgoing)
    && (forall k :: 0 <= k < |parts| && parts[k].id == END ==> parts[k].outgoing == [])
  }

  // The graph that the builder declares; End adds E to it.
  function StoryGraph(parts: seq<Part>): Graph {
    GraphOf(Prepared(parts))
  }

  // The id that sortGraph leaves in slot 0, where validateAsyclic starts.
  function Top(parts: seq<Part>): string {
    match SortGraph(Prepared(parts))
    case Sorting(nodes, _) => nodes[0].id
    case _ => START
  }

  ghost predicate LinkMissing(parts: seq<Part>) {
    exists v :: Reaches(StoryGraph(parts), START, v) && v !in StoryGraph(parts)
  }

  // What Prepared does to each part: only E's adapter and the incoming lists change.
  ghost predicate Shape(parts: seq<Part>, declared: seq<Part>, r: seq<Part>) {
    && |parts| <= |declared| == |r|
    && (forall k :: 0 <= k < |r| ==> r[k].id == declared[k].id && r[k].outgoing == declared[k].outgoing)
    && (forall k :: 0 <= k < |r| ==> r[k].incoming == AppendNew([], Linkers(declared, declared[k].id)))
    && (forall k :: 0 <= k < |parts| ==> r[k].id == parts[k].id && r[k].outgoing == parts[k].outgoing)
    && (forall k :: |parts| <= k < |r| ==> r[k].id == END && r[k].outgoing == [])
  }

  lemma PreparedShape(parts: seq<Part>)
    requires Open(parts)
    ensures Shape(parts, SetAdapter(parts, END, END_ADAPTER), Prepared(parts))
  {
    hide Linkers;
    hide AppendNew;
    hide SetAdapter;
    var declared := SetAdapter(parts, END, END_ADAPTER);
    forall k | 0 <= k < |declared| ensures declared[k].incoming == [] {
      if k < |parts| { assert declared[k] == parts[k].(adapter := declared[k].adapter); }
    }
  }

  lemma PreparedReady(parts: seq<Part>)
    requires Open(parts)
    ensures Ready(Prepared(parts))
  {
    hide Linkers;
    hide AppendNew;
    hide SetAdapter;
    hide Prepared;
    PreparedShape(parts);
    var declared, r := SetAdapter(parts, END, END_ADAPTER), Prepared(parts);
    assert r[Find(START, parts)].id == START;
    var e :| 0 <= e < |declared| && declared[e].id == END;
    assert r[e].id == END;
  }

  lemma PreparedLinks(parts: seq<Part>)
    requires Open(parts)
    ensures Tidy(parts) ==> Tidy(Prepared(parts))
    ensures NothingLinksToStart(parts) ==> NothingLinksToStart(Prepared(parts))
    ensures forall k :: 0 <= k < |Prepared(parts)| ==> Distinct(Prepared(parts)[k].outgoing)
  {
    hide Linkers;
    hide AppendNew;
    hide SetAdapter;
    hide Prepared;
    PreparedShape(parts);
  }

  // New names are appended in the order in which they are first given.
  lemma {:induction false} AppendsInOrder(have: seq<string>, ids: seq<string>, r: seq<string>, i: nat, j: nat)
    returns (a: nat)
    requires r == AppendNew(have, ids) && |have| <= i < j < |r|
    ensures a < |ids| && ids[a] == r[i] && forall k :: 0 <= k <= a ==> ids[k] != r[j]
    decreases |ids|
  {
    hide AppendNew;
    AppendsNext(have, ids, r, j);
    var x, rest := ids[0], ids[1..];
    var next := if x in have then have else have + [x];
    FirstGiven(have, x, next, r, i, j);
    if i >= |next| {
      var b := AppendsInOrder(next, rest, r, i, j);
      a := b + 1;
      forall k | 0 <= k <= a ensures ids[k] != r[j] {
        assert k > 0 ==> ids[k] == rest[k - 1];
      }
    } else {
      a := 0;
    }
  }

  lemma AppendsNext(have: seq<string>, ids: seq<string>, r: seq<string>, j: nat)
    requires r == AppendNew(have, ids) && |have| < j < |r|
    ensures ids != []
    ensures var next := if ids[0] in have then have else have + [ids[0]];
      r == AppendNew(next, ids[1..]) && next <= r && (j >= |next| ==> r[j] !in next)
  {
    AppendedOnce(if ids[0] in have then have else have + [ids[0]], ids[1..], j);
  }

  lemma FirstGiven(have: seq<string>, x: string, next: seq<string>, r: seq<string>, i: nat, j: nat)
    requires next == (if x in have then have else have + [x]) && next <= r && |have| <= i < j < |r|
    requires j >= |next| ==> r[j] !in next
    ensures r[j] != x && (i < |next| ==> r[i] == x)
  {
    assert x in next;
  }

  lemma {:induction false} AppendedOnce(have: seq<string>, ids: seq<string>, j: nat)
    requires |have| <= j
    ensures j < |AppendNew(have, ids)| ==> AppendNew(have, ids)[j] !in have
    decreases |ids|
  {
    if ids != [] {
      var next := if ids[0] in have then have else have + [ids[0]];
      if j >= |next| {
        AppendedOnce(next, ids[1..], j);
        assert forall x :: x in have ==> x in next;
      }
    }
  }

  lemma {:induction false} LinkersInOrder(parts: seq<Part>, id: string, i: nat, j: nat, a: nat, b: nat)
    requires DistinctIds(parts) && i < j < |Linkers(parts, id)| && a < |parts| && b < |parts|
    requires parts[a].id == Linkers(parts, id)[i] && parts[b].id == Linkers(parts, id)[j]
    ensures a < b
    decreases |parts|
  {
    var n := |parts| - 1;
    var front, r := Linkers(parts[..n], id), Linkers(parts, id);
    assert DistinctIds(parts[..n]);
    assert front[i] in front;
    var k :| 0 <= k < |parts[..n]| && parts[..n][k].id == front[i];
    assert a == k;
    if j < |front| {
      assert front[j] in front;
      var l :| 0 <= l < |parts[..n]| && parts[..n][l].id == front[j];
      assert b == l;
      LinkersInOrder(parts[..n], id, i, j, a, b);
    } else {
      assert b == n;
    }
  }

  // Predecessors are listed in the order in which they are declared.
  lemma IncomingInOrder(parts: seq<Part>, k: nat)
    requires Open(parts) && k < |Prepared(parts)|
    ensures var r := Prepared(parts);
      forall i, j, a, b | 0 <= i < j < |r[k].incoming| && 0 <= a < |r| && 0 <= b < |r| ::
        r[a].id == r[k].incoming[i] && r[b].id == r[k].incoming[j] ==> a < b
  {
    hide Linkers;
    hide SetAdapter;
    hide Prepared;
    hide AppendNew;
    PreparedShape(parts);
    var declared, r := SetAdapter(parts, END, END_ADAPTER), Prepared(parts);
    var linkers := Linkers(declared, r[k].id);
    assert DistinctIds(declared) && r[k].incoming == AppendNew([], linkers);
    forall i, j, a, b | 0 <= i < j < |r[k].incoming| && 0 <= a < |r| && 0 <= b < |r|
      && r[a].id == r[k].incoming[i] && r[b].id == r[k].incoming[j]
      ensures a < b
    {
      var m := AppendsInOrder([], linkers, r[k].incoming, i, j);
      assert r[k].incoming[j] in linkers;
      var n :| 0 <= n < |linkers| && linkers[n] == r[k].incoming[j];
      LinkersInOrder(declared, r[k].id, m, n, a, b);
    }
  }

  // Incoming links are exactly the outgoing links read backwards, each named once.
  lemma PreparedIncoming(parts: seq<Part>, k: nat)
    requires Open(parts) && k < |Prepared(parts)|
    ensures Distinct(Prepared(parts)[k].incoming)
    ensures forall x :: x in Prepared(parts)[k].incoming <==> Edge(StoryGraph(parts), x, Prepared(parts)[k].id)
  {
    hide Linkers;
    hide SetAdapter;
    hide Prepared;
    PreparedShape(parts);
    PreparedReady(parts);
    var declared, r := SetAdapter(parts, END, END_ADAPTER), Prepared(parts);
    var id := r[k].id;
    assert r[k].incoming == AppendNew([], Linkers(declared, id));
    forall x ensures x in Linkers(declared, id) <==> Edge(GraphOf(r), x, id) {
      LinkersAreEdges(declared, r, x, id);
    }
  }

  lemma LinkersAreEdges(declared: seq<Part>, r: seq<Part>, x: string, id: string)
    requires DistinctIds(r) && |declared| == |r|
    requires forall k :: 0 <= k < |r| ==> r[k].id == declared[k].id && r[k].outgoing == declared[k].outgoing
    ensures x in Linkers(declared, id) <==> Edge(GraphOf(r), x, id)
  {
    if x in Linkers(declared, id) {
      var j :| 0 <= j < |declared| && declared[j].id == x && id in declared[j].outgoing;
      LinksOf(r, r[j]);
    }
    if Edge(GraphOf(r), x, id) {
      var j := Find(x, r);
      assert declared[j].id == x && id in declared[j].outgoing;
    }
  }

  lemma InnerIsReach(g: Graph, v: string)
    requires InnerReach(g, v)
    ensures Reaches(g, START, v)
  {
    var w :| InnerWalk(g, w, v);
    assert WalkFromTo(g, w, START, v);
  }

  lemma EndHasNoLinks(parts: seq<Part>, v: string)
    requires Ready(parts) && Tidy(parts)
    ensures !Edge(GraphOf(parts), END, v)
  {
    assert parts[Find(END, parts)].id in Ids(parts);
  }

  // Under tidy links only the end of a walk can be E, so sortGraph follows every walk.
  lemma ReachIsInner(parts: seq<Part>, w: seq<string>, v: string)
    requires Ready(parts) && Tidy(parts) && WalkFromTo(GraphOf(parts), w, START, v) && v != END
    ensures InnerWalk(GraphOf(parts), w, v)
  {
    var g := GraphOf(parts);
    forall k | 0 <= k < |w| ensures w[k] != END && w[k] != "" {
      if k > 0 {
        assert Edge(g, w[k - 1], w[k]);
        assert w[k] in parts[Find(w[k - 1], parts)].outgoing;
      }
      if k + 1 < |w| {
        EndHasNoLinks(parts, w[k + 1]);
        assert Edge(g, w[k], w[k + 1]);
      }
    }
  }

  lemma SortedResolves(parts: seq<Part>, nodes: seq<Part>, m: nat)
    requires Ready(parts) && Tidy(parts) && SortedStory(parts, nodes, m)
    ensures LinksResolve(nodes)
  {
    forall k, o | 0 <= k < |nodes| && o in nodes[k].outgoing ensures Find(o, nodes) >= 0 {
      if k < m {
        assert Expanded(nodes, m, nodes[k]);
        assert nodes[|nodes| - 1].id == END;
      }
    }
  }

  lemma HopIsEdge(parts: seq<Part>, nodes: seq<Part>, m: nat, i: nat, j: nat)
    requires Ready(parts) && SortedStory(parts, nodes, m)
    requires i < |nodes| && j < |nodes| && Hop(nodes, i, j)
    ensures Edge(GraphOf(parts), nodes[i].id, nodes[j].id)
  {
    assert i < m || nodes[i] == BLANK || i == |nodes| - 1;
    LinksOf(parts, nodes[i]);
  }

  // A trapped walk over slots whose hops are edges is a cycle.
  lemma SlotTrapIsCycle(g: Graph, nodes: seq<Part>)
    requires |nodes| > 0 && TrapFrom(nodes, 0, seq(|nodes|, _ => false))
    requires forall i: nat, j: nat :: i < |nodes| && j < |nodes| && Hop(nodes, i, j) ==>
        Edge(g, nodes[i].id, nodes[j].id)
    ensures CycleFrom(g, nodes[0].id)
  {
    var w :| SlotWalk(nodes, w) && w[0] == 0 && Trapped(nodes, w, seq(|nodes|, _ => false));
    var v := seq(|w|, k requires 0 <= k < |w| => nodes[w[k]].id);
    var a, b :| 0 <= a < b < |w| && w[a] == w[b];
    assert IsWalk(g, v) by {
      hide Hop;
      forall k | 0 < k < |v| ensures Edge(g, v[k - 1], v[k]) {
        assert Hop(nodes, w[k - 1], w[k]);
      }
    }
    MeetingIsCycle(g, v, a, b);
  }

  lemma MeetingIsCycle(g: Graph, v: seq<string>, a: nat, b: nat)
    requires IsWalk(g, v) && a < b < |v| && v[a] == v[b]
    ensures CycleFrom(g, v[0])
  {
    hide IsWalk;
    assert Repeats(v);
  }

  // A cycle among ids whose slots hold their declared links is a trapped walk over slots.
  lemma CycleIsSlotTrap(g: Graph, nodes: seq<Part>, v: seq<string>)
    requires IsWalk(g, v) && Repeats(v) && |nodes| > 0 && v[0] == nodes[0].id
    requires forall k :: 0 <= k < |v| ==> Find(v[k], nodes) >= 0
    requires forall k :: 0 <= k < |v| && v[k] in g ==> nodes[Find(v[k], nodes)].outgoing == g[v[k]]
    ensures TrapFrom(nodes, 0, seq(|nodes|, _ => false))
  {
    FirstIsFound(nodes);
    SlotsWalk(g, nodes, v);
    hide Find;
    hide SlotWalk;
    hide IsWalk;
    var a, b :| 0 <= a < b < |v| && v[a] == v[b];
    var w := SlotsOf(nodes, v);
    assert w[a] == w[b];
    MeetingTraps(nodes, w, a, b);
  }

  // The slots of listed ids.
  function SlotsOf(nodes: seq<Part>, v: seq<string>): (w: seq<nat>)
    requires forall k :: 0 <= k < |v| ==> Find(v[k], nodes) >= 0
    ensures |w| == |v| && forall k :: 0 <= k < |v| ==> w[k] == Find(v[k], nodes)
  {
    seq(|v|, k requires 0 <= k < |v| => Find(v[k], nodes))
  }

  lemma SlotsWalk(g: Graph, nodes: seq<Part>, v: seq<string>)
    requires IsWalk(g, v) && forall k :: 0 <= k < |v| ==> Find(v[k], nodes) >= 0
    requires forall k :: 0 <= k < |v| && v[k] in g ==> nodes[Find(v[k], nodes)].outgoing == g[v[k]]
    ensures SlotWalk(nodes, SlotsOf(nodes, v))
  {
    hide Find;
    hide Hop;
    hide SlotsOf;
    var w := SlotsOf(nodes, v);
    forall k | 0 < k < |w| ensures Hop(nodes, w[k - 1], w[k]) {
      EdgeIsHop(g, nodes, v, k);
    }
  }

  lemma FirstIsFound(nodes: seq<Part>)
    requires |nodes| > 0
    ensures Find(nodes[0].id, nodes) == 0
  {
  }

  lemma EdgeIsHop(g: Graph, nodes: seq<Part>, v: seq<string>, k: nat)
    requires IsWalk(g, v) && 0 < k < |v| && Find(v[k], nodes) >= 0 && Find(v[k - 1], nodes) >= 0
    requires v[k - 1] in g ==> nodes[Find(v[k - 1], nodes)].outgoing == g[v[k - 1]]
    ensures Hop(nodes, Find(v[k - 1], nodes), Find(v[k], nodes))
  {
    hide Find;
    assert Edge(g, v[k - 1], v[k]);
    assert v[k] in nodes[Find(v[k - 1], nodes)].outgoing;
  }

  lemma MeetingTraps(nodes: seq<Part>, w: seq<nat>, a: nat, b: nat)
    requires SlotWalk(nodes, w) && w[0] == 0 && a < b < |w| && w[a] == w[b] && |nodes| > 0
    ensures TrapFrom(nodes, 0, seq(|nodes|, _ => false))
  {
    hide SlotWalk;
    assert Trapped(nodes, w, seq(|nodes|, _ => false));
  }

  // The slot of a listed id, or of E, holds the links that were declared for it.
  lemma SlotHasLinks(parts: seq<Part>, nodes: seq<Part>, m: nat, id: string)
    requires Ready(parts) && Tidy(parts) && SortedStory(parts, nodes, m)
    requires id != "" && Find(id, nodes) >= 0
    ensures id in GraphOf(parts) && nodes[Find(id, nodes)].outgoing == GraphOf(parts)[id]
  {
    var k := Find(id, nodes);
    assert nodes[k] in parts by { NamedIsDeclared(parts, nodes, m, k); }
    hide SortedStory;
    hide GraphOf;
    LinksOf(parts, nodes[k]);
  }

  lemma NamedIsDeclared(parts: seq<Part>, nodes: seq<Part>, m: nat, k: nat)
    requires SortedStory(parts, nodes, m) && k < |nodes| && nodes[k].id != ""
    ensures nodes[k] in parts
  {
    hide InnerReach;
    hide Expanded;
    hide Listed;
    hide NothingLinksToStart;
  }

  lemma {:induction false} WalkFindsSlots(parts: seq<Part>, nodes: seq<Part>, m: nat, v: seq<string>)
    requires Ready(parts) && Tidy(parts) && SortedStory(parts, nodes, m)
    requires IsWalk(GraphOf(parts), v) && v[0] == nodes[0].id
    ensures forall k :: 0 <= k < |v| ==> Find(v[k], nodes) >= 0 && v[k] != ""
  {
    if |v| > 1 {
      var g, n := GraphOf(parts), |v| - 1;
      WalkPart(g, v, 0, n);
      WalkFindsSlots(parts, nodes, m, v[..n]);
      assert v[..n][n - 1] == v[n - 1];
      assert Edge(g, v[n - 1], v[n]);
      SlotHasLinks(parts, nodes, m, v[n - 1]);
      SortedResolves(parts, nodes, m);
      assert parts[Find(v[n - 1], parts)] in parts;
      forall k | 0 <= k < |v| ensures Find(v[k], nodes) >= 0 && v[k] != "" {
        if k < n { assert v[..n][k] == v[k]; }
      }
    } else {
      assert nodes[0].id != "";
    }
  }

  // sortGraph, seen from the whole graph.
  lemma SortSeesMissing(parts: seq<Part>)
    requires Open(parts) && Tidy(parts)
    ensures SortGraph(Prepared(parts)).Missing? <==> LinkMissing(parts)
    ensures !SortGraph(Prepared(parts)).Overrun?
  {
    var ready, g := Prepared(parts), StoryGraph(parts);
    PreparedReady(parts);
    PreparedLinks(parts);
    SortGraphExact(ready);
    if v :| InnerReach(g, v) && v !in g {
      InnerIsReach(g, v);
    }
    if LinkMissing(parts) {
      var v :| Reaches(g, START, v) && v !in g;
      var w :| WalkFromTo(g, w, START, v);
      assert ready[Find(END, ready)].id in Ids(ready);
      ReachIsInner(ready, w, v);
    }
  }

  // validateAsyclic on sorted parts finds exactly the cycles below slot 0.
  lemma SearchIsExact(parts: seq<Part>, nodes: seq<Part>, m: nat)
    requires Ready(parts) && Tidy(parts) && SortedStory(parts, nodes, m)
    ensures Explore(nodes, 0, seq(|nodes|, _ => false)) != OutOfRange
    ensures Explore(nodes, 0, seq(|nodes|, _ => false)) == CycleSeen <==> CycleFrom(GraphOf(parts), nodes[0].id)
  {
    SortedResolves(parts, nodes, m);
    ExploreExact(nodes, 0, seq(|nodes|, _ => false));
    if CycleFrom(GraphOf(parts), nodes[0].id) {
      var v :| IsWalk(GraphOf(parts), v) && v[0] == nodes[0].id && Repeats(v);
      WalkFindsSlots(parts, nodes, m, v);
      forall k | 0 <= k < |v|
        ensures v[k] in GraphOf(parts) ==> nodes[Find(v[k], nodes)].outgoing == GraphOf(parts)[v[k]]
      {
        SlotHasLinks(parts, nodes, m, v[k]);
      }
      CycleIsSlotTrap(GraphOf(parts), nodes, v);
    }
    if TrapFrom(nodes, 0, seq(|nodes|, _ => false)) {
      forall i: nat, j: nat | i < |nodes| && j < |nodes| && Hop(nodes, i, j)
        ensures Edge(GraphOf(parts), nodes[i].id, nodes[j].id)
      {
        HopIsEdge(parts, nodes, m, i, j);
      }
      SlotTrapIsCycle(GraphOf(parts), nodes);
    }
  }

  // End's answer for every tidy story: missing nodes first, then exactly the cycles that can be
  // reached from the part that the sort left in slot 0; it never panics.
  lemma EndExact(parts: seq<Part>)
    requires Open(parts) && Tidy(parts)
    ensures EndSpec(parts).ErrMissingNode? <==> LinkMissing(parts)
    ensures EndSpec(parts).ErrSyclicGraph? <==> !LinkMissing(parts) && CycleFrom(StoryGraph(parts), Top(parts))
    ensures !EndSpec(parts).Panics?
    ensures NothingLinksToStart(parts) ==> Top(parts) == START
    ensures !LinkMissing(parts) ==> Reaches(StoryGraph(parts), START, Top(parts))
    ensures EndSpec(parts).Built? ==>
              exists m :: SortedStory(Prepared(parts), EndSpec(parts).parts, m)
  {
    hide Prepared;
    hide Explore;
    hide SortGraph;
    hide CycleFrom;
    hide InnerReach;
    hide Open;
    hide Tidy;
    var ready := Prepared(parts);
    PreparedReady(parts);
    PreparedLinks(parts);
    SortSeesMissing(parts);
    SortGraphExact(ready);
    if SortGraph(ready).Sorting? {
      var nodes, m := SortGraph(ready).nodes, SortGraph(ready).next;
      SearchIsExact(ready, nodes, m);
      assert Listed(nodes, m, nodes[0].id);
      InnerIsReach(StoryGraph(parts), nodes[0].id);
    }
  }

  // The promise of End: where nothing links to S, the three answers are exactly "a link leads
  // nowhere", "a cycle can be reached", and "neither".
  lemma EndDecides(parts: seq<Part>)
    requires Open(parts) && Tidy(parts) && NothingLinksToStart(parts)
    ensures EndSpec(parts).ErrMissingNode? <==> LinkMissing(parts)
    ensures EndSpec(parts).ErrSyclicGraph? <==> !LinkMissing(parts) && CycleFrom(StoryGraph(parts), START)
    ensures EndSpec(parts).Built? <==> !LinkMissing(parts) && !CycleFrom(StoryGraph(parts), START)
  {
    EndExact(parts);
  }

  // Whatever links to S, End never rejects an acyclic story; it accepts a cyclic one exactly
  // when the part in slot 0 leads to no cycle.
  lemma EndMissesExactly(parts: seq<Part>)
    requires Open(parts) && Tidy(parts) && !LinkMissing(parts)
    ensures EndSpec(parts).ErrSyclicGraph? ==> CycleFrom(StoryGraph(parts), START)
    ensures EndSpec(parts).Built? && CycleFrom(StoryGraph(parts), START) <==>
            CycleFrom(StoryGraph(parts), START) && !CycleFrom(StoryGraph(parts), Top(parts))
  {
    EndExact(parts);
    if CycleFrom(StoryGraph(parts), Top(parts)) {
      CycleBeyond(StoryGraph(parts), START, Top(parts));
    }
  }

  lemma TwoSwapsIds(ready: seq<Part>)
    requires |ready| == 4
    requires ready[0].id == START && ready[1].id == "a" && ready[2].id == "P" && ready[3].id == END
    ensures Find(START, ready) == 0 && Find("a", ready) == 1 && Find("P", ready) == 2 && Find(END, ready) == 3
    ensures START != END && "a" != START && "a" != END && "P" != START && "P" != END && "a" != "P"
  {
    var ids := [START, "a", "P", END];
    assert ids[0][0] == 'S' && ids[1][0] == 'a' && ids[2][0] == 'P' && ids[3][0] == 'E';
  }

  lemma BothPlaced(ready: seq<Part>)
    requires |ready| == 4
    requires ready[0].id == START && ready[1].id == "a" && ready[2].id == "P" && ready[3].id == END
    ensures Expand(ready, [ready[0], BLANK, BLANK, BLANK], 1, 0, ["a", "P"]) ==
            Sorting([ready[0], ready[1], ready[2], BLANK], 3)
  {
    TwoSwapsIds(ready);
    var s, a, p := ready[0], ready[1], ready[2];
    assert [s, BLANK, BLANK, BLANK][1 := a] == [s, a, BLANK, BLANK];
    assert ["a", "P"][1..] == ["P"];
    assert Expand(ready, [s, a, BLANK, BLANK], 2, 0, ["P"]) == Sorting([s, a, p, BLANK], 3);
  }

  // Both links lead back: S gives slot 0 to P, and then P to "a".
  lemma BothSwapped(ready: seq<Part>)
    requires |ready| == 4
    requires ready[0].id == START && ready[1].id == "a" && ready[2].id == "P" && ready[3].id == END
    ensures Expand(ready, [ready[0], ready[1], ready[2], BLANK], 3, 2, ["a", START]) ==
            Sorting([ready[1], ready[2], ready[0], BLANK], 3)
  {
    TwoSwapsIds(ready);
    var s, a, p := ready[0], ready[1], ready[2];
    assert [s, a, p, BLANK][..2] == [s, a] && Find("a", [s, a]) == 1;
    assert [s, p, a, BLANK][..2] == [s, p] && Find(START, [s, p]) == 0;
    assert ["a", START][1..] == [START];
    assert [s, a, p, BLANK][1 := p][2 := a] == [s, p, a, BLANK];
    assert [s, p, a, BLANK][0 := a][2 := s] == [a, p, s, BLANK];
    assert Expand(ready, [s, p, a, BLANK], 3, 2, [START]) == Sorting([a, p, s, BLANK], 3);
  }

  // Two swaps in one iteration move S off slot 0.
  lemma TwoSwaps(ready: seq<Part>)
    requires |ready| == 4
    requires ready[0].id == START && ready[1].id == "a" && ready[2].id == "P" && ready[3].id == END
    requires ready[0].outgoing == ["a", "P"] && ready[1].outgoing == [END]
    requires ready[2].outgoing == ["a", START] && ready[3].outgoing == []
    ensures SortGraph(ready) == Sorting([ready[1], ready[2], ready[0], ready[3]], 3)
  {
    TwoSwapsIds(ready);
    BothPlaced(ready);
    BothSwapped(ready);
    hide Find;
    var s, a, p, e := ready[0], ready[1], ready[2], ready[3];
    assert Expand(ready, [s, a, p, BLANK], 3, 1, [END]) == Sorting([s, a, p, BLANK], 3);
    hide Expand;
    assert FirstSlots(ready, 0) == [s, BLANK, BLANK, BLANK];
    assert [a, p, s, BLANK][3 := e] == [a, p, s, e];
    assert SortFrom(ready, [a, p, s, BLANK], 3, 3) == Sorting([a, p, s, e], 3);
    assert SortFrom(ready, [s, a, p, BLANK], 3, 2) == Sorting([a, p, s, e], 3);
    assert SortFrom(ready, [s, a, p, BLANK], 3, 1) == Sorting([a, p, s, e], 3);
  }

  // S -> a, P;  a -> E;  P -> a, S.
  const SWAPPED := [
    Part(START, [], ["a", "P"], START_ADAPTER),
    Part("a", [], [END], "A"),
    Part("P", [], ["a", START], "B")]

  lemma SwappedIsOpen()
    ensures Open(SWAPPED) && Find(END, SWAPPED) < 0
  {
    var ids := ["S", "a", "P", "E"];
    assert ids[0][0] != ids[1][0] && ids[0][0] != ids[2][0] && ids[1][0] != ids[2][0];
    assert ids[3][0] != ids[0][0] && ids[3][0] != ids[1][0] && ids[3][0] != ids[2][0];
  }

  lemma SwappedIsTidy()
    ensures Tidy(SWAPPED)
  {
    assert SWAPPED[0].outgoing == ["a", "P"] && SWAPPED[1].outgoing == ["E"] && SWAPPED[2].outgoing == ["a", "S"];
  }

  // ... so the cycle S -> P -> S is not seen, and End builds the story.
  lemma CycleThroughStartAccepted()
    ensures Open(SWAPPED) && Tidy(SWAPPED)
    ensures CycleFrom(StoryGraph(SWAPPED), START) && EndSpec(SWAPPED).Built?
  {
    SwappedIsOpen();
    SwappedIsTidy();
    StartCycleUnseen(SWAPPED);
  }

  lemma StartCycleUnseen(parts: seq<Part>)
    requires Open(parts) && |parts| == 3 && Find(END, parts) < 0
    requires parts[0].id == START && parts[1].id == "a" && parts[2].id == "P"
    requires parts[0].outgoing == ["a", "P"] && parts[1].outgoing == [END] && parts[2].outgoing == ["a", START]
    ensures CycleFrom(StoryGraph(parts), START) && EndSpec(parts).Built?
  {
    PreparedShape(parts);
    PreparedReady(parts);
    var ready := Prepared(parts);
    TwoSwaps(ready);
    SearchEndsAtOnce([ready[1], ready[2], ready[0], ready[3]]);
    LinksOf(ready, ready[0]);
    LinksOf(ready, ready[2]);
    ThereAndBack(StoryGraph(parts), START, "P");
  }

  lemma ThereAndBack(g: Graph, u: string, v: string)
    requires Edge(g, u, v) && Edge(g, v, u)
    ensures CycleFrom(g, u)
  {
    var w := [u, v, u];
    assert w[0] == w[2];
    assert IsWalk(g, w) && Repeats(w);
  }

  // A search that starts on a part whose only link is E finds nothing.
  lemma SearchEndsAtOnce(sorted: seq<Part>)
    requires |sorted| == 4 && sorted[0].outgoing == [END] && sorted[3].outgoing == []
    requires sorted[0].id != END && sorted[1].id != END && sorted[2].id != END && sorted[3].id == END
    ensures Explore(sorted, 0, seq(4, _ => false)) == NoCycle
  {
    var seen := seq(4, _ => false)[0 := true];
    assert Find(END, sorted) == 3;
    assert Explore(sorted, 3, seen) == NoCycle;
    assert ExploreAll(sorted, [END], seen) == NoCycle;
  }
}
