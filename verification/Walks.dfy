// Directed graphs over part names, and walks in them.
module Walks {

  // Each declared name with the names it links to, in link order.
  type Graph = map<string, seq<string>>

  ghost predicate Edge(g: Graph, u: string, v: string) {
    u in g && v in g[u]
  }

  ghost predicate IsWalk(g: Graph, w: seq<string>) {
    |w| > 0 && forall k :: 0 < k < |w| ==> Edge(g, w[k - 1], w[k])
  }

  ghost predicate WalkFromTo(g: Graph, w: seq<string>, u: string, v: string) {
    IsWalk(g, w) && w[0] == u && w[|w| - 1] == v
  }

  // v can be reached from u in any number of steps.
  ghost predicate Reaches(g: Graph, u: string, v: string) {
    exists w :: WalkFromTo(g, w, u, v)
  }

  // v can be reached from u in at least one step.
  ghost predicate Follows(g: Graph, u: string, v: string) {
    exists w :: WalkFromTo(g, w, u, v) && |w| >= 2
  }

  ghost predicate Repeats(w: seq<string>) {
    exists j, k :: 0 <= j < k < |w| && w[j] == w[k]
  }

  // Some walk that starts at u comes back to a name it has visited.
  ghost predicate CycleFrom(g: Graph, u: string) {
    exists w :: IsWalk(g, w) && w[0] == u && Repeats(w)
  }

  ghost predicate Acyclic(g: Graph) {
    forall u :: !Follows(g, u, u)
  }

  lemma WalkJoin(g: Graph, w1: seq<string>, w2: seq<string>)
    requires IsWalk(g, w1) && IsWalk(g, w2) && w1[|w1| - 1] == w2[0]
    ensures IsWalk(g, w1 + w2[1..])
  {
    var w := w1 + w2[1..];
    forall k | 0 < k < |w| ensures Edge(g, w[k - 1], w[k]) {
      if k < |w1| {
        assert w[k - 1] == w1[k - 1] && w[k] == w1[k];
      } else {
        var m := k - (|w1| - 1);
        assert w[k - 1] == w2[m - 1] && w[k] == w2[m];
      }
    }
  }

  lemma WalkPart(g: Graph, w: seq<string>, j: nat, k: nat)
    requires IsWalk(g, w) && j < k <= |w|
    ensures IsWalk(g, w[j..k])
  {
    var v := w[j..k];
    forall m | 0 < m < |v| ensures Edge(g, v[m - 1], v[m]) {
      assert v[m - 1] == w[j + m - 1] && v[m] == w[j + m];
    }
  }

  lemma EdgeFollows(g: Graph, u: string, v: string)
    requires Edge(g, u, v)
    ensures Follows(g, u, v)
  {
    assert WalkFromTo(g, [u, v], u, v);
  }

  lemma FollowsTransitive(g: Graph, u: string, v: string, x: string)
    requires Follows(g, u, v) && Follows(g, v, x)
    ensures Follows(g, u, x)
  {
    var w1 :| WalkFromTo(g, w1, u, v) && |w1| >= 2;
    var w2 :| WalkFromTo(g, w2, v, x) && |w2| >= 2;
    WalkJoin(g, w1, w2);
    assert WalkFromTo(g, w1 + w2[1..], u, x);
  }

  lemma ReachesExtends(g: Graph, u: string, v: string, x: string)
    requires Reaches(g, u, v) && Edge(g, v, x)
    ensures Reaches(g, u, x)
  {
    var w :| WalkFromTo(g, w, u, v);
    WalkJoin(g, w, [v, x]);
    assert WalkFromTo(g, w + [v, x][1..], u, x);
  }

  // A name reachable from itself lies on a cycle that a walk from u runs into.
  lemma LoopIsCycle(g: Graph, u: string, v: string)
    requires Reaches(g, u, v) && Follows(g, v, v)
    ensures CycleFrom(g, u)
  {
    var w1 :| WalkFromTo(g, w1, u, v);
    var w2 :| WalkFromTo(g, w2, v, v) && |w2| >= 2;
    WalkJoin(g, w1, w2);
    var w := w1 + w2[1..];
    assert w[|w1| - 1] == v && w[|w| - 1] == v;
    assert IsWalk(g, w) && w[0] == u && Repeats(w);
  }

  // A cycle that can be reached from v can be reached from wherever v can.
  lemma CycleBeyond(g: Graph, u: string, v: string)
    requires Reaches(g, u, v) && CycleFrom(g, v)
    ensures CycleFrom(g, u)
  {
    var w1 :| WalkFromTo(g, w1, u, v);
    var w2 :| IsWalk(g, w2) && w2[0] == v && Repeats(w2);
    var j, k :| 0 <= j < k < |w2| && w2[j] == w2[k];
    WalkJoin(g, w1, w2);
    var w := w1 + w2[1..];
    assert forall i :: 0 <= i < |w2| ==> w[|w1| - 1 + i] == w2[i];
    assert w[|w1| - 1 + j] == w[|w1| - 1 + k];
    assert IsWalk(g, w) && w[0] == u && Repeats(w);
  }

  // The declared names that lead to v.
  ghost function Ancestors(g: Graph, v: string): set<string> {
    set u | u in g && Follows(g, u, v)
  }

  // The declared names that v leads to.
  ghost function Descendants(g: Graph, v: string): set<string> {
    set u | u in g && Follows(g, v, u)
  }

  // In an acyclic graph the ancestors shrink along every link taken backwards.
  lemma AncestorsShrink(g: Graph, u: string, v: string)
    requires Acyclic(g) && Edge(g, u, v)
    ensures Ancestors(g, u) < Ancestors(g, v)
  {
    EdgeFollows(g, u, v);
    forall x | x in Ancestors(g, u) ensures x in Ancestors(g, v) {
      FollowsTransitive(g, x, u, v);
    }
    assert u in Ancestors(g, v) && u !in Ancestors(g, u);
  }

  // In an acyclic graph the descendants shrink along every link to a declared name.
  lemma DescendantsShrink(g: Graph, u: string, v: string)
    requires Acyclic(g) && Edge(g, u, v) && v in g
    ensures Descendants(g, v) < Descendants(g, u)
  {
    EdgeFollows(g, u, v);
    forall x | x in Descendants(g, v) ensures x in Descendants(g, u) {
      FollowsTransitive(g, u, v, x);
    }
    assert v in Descendants(g, u) && v !in Descendants(g, v);
  }
}
