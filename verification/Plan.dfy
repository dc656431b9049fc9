// The facts about an accepted story that the two readers rely on.
module Plan {
  import opened Seqs
  import opened Walks
  import opened Story
  import opened SortProofs
  import opened StoryProofs
  import opened Acceptance

  function Next(parts: seq<Part>, id: string): seq<string> {
    PartOf(id, parts).outgoing
  }

  function Prev(parts: seq<Part>, id: string): seq<string> {
    PartOf(id, parts).incoming
  }

  predicate IsPart(parts: seq<Part>, id: string) {
    Find(id, parts) >= 0
  }

  // Parts that a join may create.
  ghost predicate Targets(parts: seq<Part>, rest: seq<string>) {
    forall n :: n in rest ==> IsPart(parts, n) && n != START && Prev(parts, n) != []
  }

  // A story that End built and New accepted.
  ghost predicate Sound(parts: seq<Part>) {
    && DistinctIds(parts)
    && IsPart(parts, START) && IsPart(parts, END) && !IsPart(parts, "")
    && (forall p, n :: n in Next(parts, p) ==> IsPart(parts, n))
    && (forall p, n {:trigger n in Next(parts, p)} {:trigger p in Prev(parts, n)} ::
          IsPart(parts, n) ==> (n in Next(parts, p) <==> p in Prev(parts, n)))
    && (forall n :: Distinct(Prev(parts, n)))
    && (forall n :: Distinct(Next(parts, n)))
    && Prev(parts, START) == [] && Next(parts, END) == []
    && (forall n :: IsPart(parts, n) && n != END && n != START ==> Prev(parts, n) != [])
    && Acyclic(GraphOf(parts))
  }

  lemma LinkIsEdge(parts: seq<Part>, p: string, n: string)
    requires DistinctIds(parts)
    ensures n in Next(parts, p) <==> Edge(GraphOf(parts), p, n)
  {
    var k := Find(p, parts);
    if k >= 0 { LinksOf(parts, parts[k]); }
  }

  // Links to different parts are no more than the parts.
  lemma LinksFit(parts: seq<Part>, names: seq<string>)
    requires Distinct(names) && forall n :: n in names ==> IsPart(parts, n)
    ensures |names| <= |parts|
  {
    forall n | n in names ensures n in Ids(parts) {
      assert parts[Find(n, parts)].id in Ids(parts);
    }
    DistinctFits(names, Ids(parts));
    IdsFit(parts);
  }

  lemma PredecessorDeclared(parts: seq<Part>, p: string, n: string)
    requires Sound(parts) && p in Prev(parts, n)
    ensures IsPart(parts, p) && n in Next(parts, p)
  {
  }

  lemma NextFits(parts: seq<Part>, p: string)
    requires Sound(parts)
    ensures |Next(parts, p)| <= |parts|
  {
    LinksFit(parts, Next(parts, p));
  }

  lemma PrevFits(parts: seq<Part>, n: string)
    requires Sound(parts)
    ensures |Prev(parts, n)| <= |parts|
  {
    forall p | p in Prev(parts, n) ensures IsPart(parts, p) {
      PredecessorDeclared(parts, p, n);
    }
    LinksFit(parts, Prev(parts, n));
  }

  lemma HasPrev(parts: seq<Part>, n: string)
    requires Sound(parts) && IsPart(parts, n) && n != START && (n != END || Prev(parts, END) != [])
    ensures Prev(parts, n) != []
  {
  }

  lemma PrevFacts(parts: seq<Part>, p: string, n: string)
    requires Sound(parts) && p in Prev(parts, n)
    ensures IsPart(parts, p) && p != END && Edge(GraphOf(parts), p, n) && Acyclic(GraphOf(parts))
  {
    PredecessorDeclared(parts, p, n);
    LinkIsEdge(parts, p, n);
  }

  lemma SoundStart(parts: seq<Part>)
    requires Sound(parts)
    ensures IsPart(parts, START)
  {
  }

  lemma NextAreTargets(parts: seq<Part>, p: string)
    requires Sound(parts)
    ensures Targets(parts, Next(parts, p))
  {
    forall n | n in Next(parts, p) ensures n != START && Prev(parts, n) != [] {
      assert p in Prev(parts, n);
    }
  }

  // Without blanks the built parts are the declared ones in another order.
  lemma SortedIsPermutation(ready: seq<Part>, nodes: seq<Part>, m: nat)
    requires Ready(ready) && SortedStory(ready, nodes, m) && BLANK !in nodes
    ensures m == |nodes| - 1
    ensures DistinctIds(nodes)
    ensures forall p :: p in nodes <==> p in ready
  {
    SortedAreReady(ready, nodes, m);
    assert |nodes| == |ready| && DistinctIds(ready);
    hide SortedStory;
    hide Ready;
    var ids := seq(|nodes|, k requires 0 <= k < |nodes| => nodes[k].id);
    forall x | x in ids ensures x in Ids(ready) {
      var k :| 0 <= k < |nodes| && ids[k] == x;
      assert nodes[k] in nodes;
      IdListed(ready, nodes[k]);
    }
    IdsFit(ready);
    DistinctCovers(ids, Ids(ready));
    forall p | p in ready ensures p in nodes {
      IdListed(ready, p);
      var k :| 0 <= k < |nodes| && ids[k] == p.id;
      SameId(ready, p, nodes[k]);
    }
  }

  lemma SortedAreReady(ready: seq<Part>, nodes: seq<Part>, m: nat)
    requires Ready(ready) && SortedStory(ready, nodes, m) && BLANK !in nodes
    ensures m == |nodes| - 1 && DistinctIds(nodes)
    ensures forall p :: p in nodes ==> p in ready
  {
    assert nodes[m] in nodes;
  }

  lemma IdListed(parts: seq<Part>, p: Part)
    requires p in parts
    ensures p.id in Ids(parts)
  {
  }

  lemma SameId(parts: seq<Part>, p: Part, q: Part)
    requires DistinctIds(parts) && p in parts && q in parts && p.id == q.id
    ensures p == q
  {
    FindsItself(parts, p);
    FindsItself(parts, q);
  }

  // The sorted list is a permutation of the declared parts, E last, exactly when every declared
  // part but E can be reached from S without passing E.
  lemma PermutationExactly(ready: seq<Part>, nodes: seq<Part>, m: nat)
    requires Ready(ready) && SortedStory(ready, nodes, m) && !IsPart(ready, "")
    ensures (forall p :: p in ready && p.id != END ==> InnerReach(GraphOf(ready), p.id)) <==>
            DistinctIds(nodes) && (forall p :: p in nodes <==> p in ready)
  {
    hide InnerReach;
    hide Expanded;
    hide NothingLinksToStart;
    hide GraphOf;
    if forall p :: p in ready && p.id != END ==> InnerReach(GraphOf(ready), p.id) {
      NoSlotLeft(ready, nodes, m);
      SortedIsPermutation(ready, nodes, m);
    }
    if forall p :: p in nodes <==> p in ready {
      forall p | p in ready && p.id != END ensures InnerReach(GraphOf(ready), p.id) {
        ListedIsReached(ready, nodes, m, p);
      }
    }
  }

  lemma ListedIsReached(ready: seq<Part>, nodes: seq<Part>, m: nat, p: Part)
    requires SortedStory(ready, nodes, m) && !IsPart(ready, "") && DistinctIds(ready)
    requires p in ready && p in nodes && p.id != END
    ensures InnerReach(GraphOf(ready), p.id)
  {
    hide InnerReach;
    hide Expanded;
    hide NothingLinksToStart;
    hide GraphOf;
    FindsItself(ready, p);
    var k :| 0 <= k < |nodes| && nodes[k] == p;
    assert k < m && Listed(nodes, m, p.id);
  }

  // Where every part is listed, no slot stays blank.
  lemma NoSlotLeft(ready: seq<Part>, nodes: seq<Part>, m: nat)
    requires Ready(ready) && SortedStory(ready, nodes, m) && !IsPart(ready, "")
    requires forall p :: p in ready && p.id != END ==> InnerReach(GraphOf(ready), p.id)
    ensures BLANK !in nodes
  {
    hide InnerReach;
    hide Expanded;
    hide NothingLinksToStart;
    hide GraphOf;
    var listed := seq(m, k requires 0 <= k < m => nodes[k].id) + [END];
    forall x | x in Ids(ready) ensures x in listed {
      var k :| 0 <= k < |ready| && ready[k].id == x;
      if x != END {
        assert ready[k] in ready && Listed(nodes, m, x);
        var j :| 0 <= j < m && nodes[j].id == x;
        assert listed[j] == x;
      } else {
        assert listed[m] == END;
      }
    }
    CoverSize(listed, Ids(ready));
    IdsCount(ready);
    assert m == |nodes| - 1;
  }

  lemma IdsCount(ready: seq<Part>)
    requires DistinctIds(ready)
    ensures |ready| <= |Ids(ready)|
  {
    var ids := seq(|ready|, k requires 0 <= k < |ready| => ready[k].id);
    DistinctFits(ids, Ids(ready));
  }

  lemma SameParts(ready: seq<Part>, nodes: seq<Part>, id: string)
    requires DistinctIds(ready) && DistinctIds(nodes) && forall p :: p in nodes <==> p in ready
    ensures PartOf(id, nodes) == PartOf(id, ready)
    ensures IsPart(nodes, id) <==> IsPart(ready, id)
    ensures id in GraphOf(nodes) <==> id in GraphOf(ready)
    ensures id in GraphOf(nodes) ==> GraphOf(nodes)[id] == GraphOf(ready)[id]
  {
    hide Find;
    var k, l := Find(id, nodes), Find(id, ready);
    if k >= 0 {
      FindsItself(ready, nodes[k]);
      LinksOf(nodes, nodes[k]);
      LinksOf(ready, nodes[k]);
    } else if l >= 0 {
      FindsItself(nodes, ready[l]);
    }
  }

  // A walk ends on a part that some part links to.
  lemma ReachedHasLinker(parts: seq<Part>, v: string)
    requires Reaches(GraphOf(parts), START, v) && v != START
    ensures exists u :: Edge(GraphOf(parts), u, v)
  {
    var w :| WalkFromTo(GraphOf(parts), w, START, v);
    assert Edge(GraphOf(parts), w[|w| - 2], w[|w| - 1]);
  }

  lemma PreparedNames(declared: seq<Part>, id: string)
    requires Open(declared)
    ensures IsPart(Prepared(declared), id) <==> id == END || IsPart(declared, id)
  {
    hide Prepared;
    hide Linkers;
    PreparedShape(declared);
    PreparedReady(declared);
    var ready := Prepared(declared);
    var k, l := Find(id, ready), Find(id, declared);
    assert l >= 0 ==> ready[l].id == id;
    assert 0 <= k < |declared| ==> declared[k].id == id;
  }

  lemma ReachableIsAcyclic(nodes: seq<Part>)
    requires !CycleFrom(GraphOf(nodes), START)
    requires forall n :: IsPart(nodes, n) && n != END ==> Reaches(GraphOf(nodes), START, n)
    requires forall n :: !Edge(GraphOf(nodes), END, n)
    ensures Acyclic(GraphOf(nodes))
  {
    var g := GraphOf(nodes);
    forall v ensures !Follows(g, v, v) {
      if Follows(g, v, v) {
        var w :| WalkFromTo(g, w, v, v) && |w| >= 2;
        assert Edge(g, w[0], w[1]);
        LoopIsCycle(g, START, v);
      }
    }
  }

  // No link of a reachable part leads out of a graph without missing nodes.
  lemma LinksStayInside(nodes: seq<Part>, p: string, n: string)
    requires DistinctIds(nodes)
    requires forall n :: IsPart(nodes, n) && n != END ==> Reaches(GraphOf(nodes), START, n)
    requires forall n :: !Edge(GraphOf(nodes), END, n)
    requires forall v :: Reaches(GraphOf(nodes), START, v) ==> v in GraphOf(nodes)
    requires n in Next(nodes, p)
    ensures IsPart(nodes, n)
  {
    LinkIsEdge(nodes, p, n);
    assert IsPart(nodes, p);
    ReachesExtends(GraphOf(nodes), START, p, n);
  }

  // The links of the prepared parts, read through a list that holds the same parts.
  lemma PreparedSymmetry(declared: seq<Part>, nodes: seq<Part>, n: string)
    requires Open(declared) && DistinctIds(nodes)
    requires GraphOf(nodes) == StoryGraph(declared)
    requires PartOf(n, nodes) == PartOf(n, Prepared(declared))
    requires IsPart(nodes, n) <==> IsPart(Prepared(declared), n)
    ensures Distinct(Prev(nodes, n)) && Distinct(Next(nodes, n))
    ensures IsPart(nodes, n) ==> forall p :: n in Next(nodes, p) <==> p in Prev(nodes, n)
  {
    hide Prepared;
    PreparedLinks(declared);
    var k := Find(n, Prepared(declared));
    if k >= 0 {
      PreparedIncoming(declared, k);
      forall p ensures n in Next(nodes, p) <==> p in Prev(nodes, n) {
        LinkIsEdge(nodes, p, n);
      }
    }
  }

  lemma NothingEdgesToStart(declared: seq<Part>, p: string)
    requires Open(declared) && NothingLinksToStart(declared)
    ensures !Edge(StoryGraph(declared), p, START)
  {
    hide Prepared;
    PreparedLinks(declared);
    PreparedReady(declared);
  }

  // The five facts that make a story sound.
  lemma SoundFrom(nodes: seq<Part>)
    requires DistinctIds(nodes) && IsPart(nodes, START) && IsPart(nodes, END) && !IsPart(nodes, "")
    requires forall n :: IsPart(nodes, n) && n != END ==> Reaches(GraphOf(nodes), START, n)
    requires forall n :: !Edge(GraphOf(nodes), END, n) && !Edge(GraphOf(nodes), n, START)
    requires forall v :: Reaches(GraphOf(nodes), START, v) ==> v in GraphOf(nodes)
    requires forall n :: Distinct(Prev(nodes, n)) && Distinct(Next(nodes, n))
    requires forall n, p {:trigger n in Next(nodes, p)} {:trigger p in Prev(nodes, n)} ::
               IsPart(nodes, n) ==> (n in Next(nodes, p) <==> p in Prev(nodes, n))
    requires !CycleFrom(GraphOf(nodes), START)
    ensures Sound(nodes)
  {
    hide Next;
    hide Prev;
    ReachableIsAcyclic(nodes);
    forall p, n | n in Next(nodes, p) ensures IsPart(nodes, n) {
      LinksStayInside(nodes, p, n);
    }
    forall n | IsPart(nodes, n) && n != END && n != START ensures Prev(nodes, n) != [] {
      ReachedHasLinker(nodes, n);
      var u :| Edge(GraphOf(nodes), u, n);
      LinkIsEdge(nodes, u, n);
      assert u in Prev(nodes, n);
    }
    if Next(nodes, END) != [] {
      LinkIsEdge(nodes, END, Next(nodes, END)[0]);
    }
    if Prev(nodes, START) != [] {
      var p := Prev(nodes, START)[0];
      assert p in Prev(nodes, START);
      LinkIsEdge(nodes, p, START);
    }
  }

  // Every story that End builds, from tidy declarations in which nothing links to S, and whose
  // sorted list has no blank slot, is sound.
  lemma BuiltIsSound(declared: seq<Part>, nodes: seq<Part>)
    requires Open(declared) && Tidy(declared) && NothingLinksToStart(declared)
    requires EndSpec(declared) == Built(nodes) && BLANK !in nodes
    ensures Sound(nodes)
    ensures forall n :: IsPart(nodes, n) && n != END ==> Reaches(GraphOf(nodes), START, n)
    ensures forall id :: IsPart(nodes, id) <==> id == END || IsPart(declared, id)
  {
    hide *;
    var ready := Prepared(declared);
    BuiltFacts(declared, nodes);
    forall id ensures IsPart(nodes, id) <==> id == END || IsPart(declared, id) {
      PreparedNames(declared, id);
    }
    SoundFrom(nodes);
  }

  lemma BuiltFacts(declared: seq<Part>, nodes: seq<Part>)
    requires Open(declared) && Tidy(declared) && NothingLinksToStart(declared)
    requires EndSpec(declared) == Built(nodes) && BLANK !in nodes
    ensures DistinctIds(nodes) && IsPart(nodes, START) && IsPart(nodes, END) && !IsPart(nodes, "")
    ensures GraphOf(nodes) == StoryGraph(declared)
    ensures forall id :: IsPart(nodes, id) <==> IsPart(Prepared(declared), id)
    ensures forall n :: IsPart(nodes, n) && n != END ==> Reaches(GraphOf(nodes), START, n)
    ensures forall n :: !Edge(GraphOf(nodes), END, n) && !Edge(GraphOf(nodes), n, START)
    ensures forall v :: Reaches(GraphOf(nodes), START, v) ==> v in GraphOf(nodes)
    ensures forall n :: Distinct(Prev(nodes, n)) && Distinct(Next(nodes, n))
    ensures forall n, p {:trigger n in Next(nodes, p)} {:trigger p in Prev(nodes, n)} ::
               IsPart(nodes, n) ==> (n in Next(nodes, p) <==> p in Prev(nodes, n))
    ensures !CycleFrom(GraphOf(nodes), START)
  {
    hide Prepared;
    hide EndSpec;
    hide GraphOf;
    hide Open;
    hide Tidy;
    hide CycleFrom;
    hide NothingLinksToStart;
    EndExact(declared);
    PreparedReady(declared);
    PreparedLinks(declared);
    var ready := Prepared(declared);
    var m :| SortedStory(ready, nodes, m);
    SortedIsPermutation(ready, nodes, m);
    SamePartsEverywhere(ready, nodes);
    assert forall k :: 0 <= k < |nodes| ==> nodes[k].id != "";
    forall n ensures !Edge(GraphOf(nodes), END, n) && !Edge(GraphOf(nodes), n, START) {
      EndHasNoLinks(ready, n);
      NothingEdgesToStart(declared, n);
    }
    forall n | IsPart(nodes, n) && n != END ensures Reaches(GraphOf(nodes), START, n) {
      assert Listed(nodes, m, n);
      InnerIsReach(GraphOf(nodes), n);
    }
    forall n
      ensures Distinct(Prev(nodes, n)) && Distinct(Next(nodes, n))
      ensures IsPart(nodes, n) ==> forall p :: n in Next(nodes, p) <==> p in Prev(nodes, n)
    {
      PreparedSymmetry(declared, nodes, n);
    }
  }

  lemma SamePartsEverywhere(ready: seq<Part>, nodes: seq<Part>)
    requires DistinctIds(ready) && DistinctIds(nodes) && forall p :: p in nodes <==> p in ready
    ensures forall id :: PartOf(id, nodes) == PartOf(id, ready) && (IsPart(nodes, id) <==> IsPart(ready, id))
    ensures GraphOf(nodes) == GraphOf(ready)
  {
    hide PartOf;
    hide IsPart;
    hide GraphOf;
    forall id
      ensures PartOf(id, nodes) == PartOf(id, ready) && (IsPart(nodes, id) <==> IsPart(ready, id))
      ensures id in GraphOf(nodes) <==> id in GraphOf(ready)
      ensures id in GraphOf(nodes) ==> GraphOf(nodes)[id] == GraphOf(ready)[id]
    {
      SameParts(ready, nodes, id);
    }
  }

  // If only parts with completed predecessors are created, and only created parts complete, then
  // everything that leads to a created part has completed.
  lemma {:induction false} ClosureAlongWalk(parts: seq<Part>, created: set<string>, done: set<string>, w: seq<string>)
    requires Sound(parts)
    requires forall n, p :: n in created && p in Prev(parts, n) ==> p in done
    requires done <= created
    requires IsWalk(GraphOf(parts), w) && |w| >= 2 && w[|w| - 1] in created
    ensures w[0] in done
    decreases |w|
  {
    hide Sound;
    var n := |w| - 1;
    assert Edge(GraphOf(parts), w[n - 1], w[n]);
    EdgeIsLink(parts, w[n - 1], w[n]);
    assert w[n - 1] in done;
    if n > 1 {
      WalkPart(GraphOf(parts), w, 0, n);
      assert w[..n] == w[0..n];
      ClosureAlongWalk(parts, created, done, w[..n]);
    }
  }

  lemma EdgeIsLink(parts: seq<Part>, p: string, n: string)
    requires Sound(parts) && Edge(GraphOf(parts), p, n)
    ensures n in Next(parts, p) && p in Prev(parts, n) && IsPart(parts, p) && IsPart(parts, n)
  {
    LinkIsEdge(parts, p, n);
  }

  // Where every part but E links on, every part but E leads to E.
  lemma {:induction false} LeadsToEnd(parts: seq<Part>, p: string)
    requires Sound(parts) && IsPart(parts, p) && p != END
    requires forall q :: IsPart(parts, q) && q != END ==> Next(parts, q) != []
    ensures Follows(GraphOf(parts), p, END)
    decreases Descendants(GraphOf(parts), p)
  {
    var g, n := GraphOf(parts), Next(parts, p)[0];
    assert n in Next(parts, p);
    LinkIsEdge(parts, p, n);
    EdgeFollows(g, p, n);
    if n != END {
      assert n in g;
      DescendantsShrink(g, p, n);
      LeadsToEnd(parts, n);
      FollowsTransitive(g, p, n, END);
    }
  }
}
