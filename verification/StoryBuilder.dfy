// The builder object: its methods update the node list in place, and each is proved equal to
// the function of module Story that the theorems are about.
module StoryBuilding {
  import opened Story
  import opened StoryProofs

  // containsNode as the loop that it is.
  method ContainsNode(id: string, nodes: seq<Part>) returns (r: int)
    ensures r == Find(id, nodes)
  {
    for i := 0 to |nodes|
      invariant forall j :: 0 <= j < i ==> nodes[j].id != id
    {
      if nodes[i].id == id {
        return i;
      }
    }
    return -1;
  }

  class StoryBuilder {
    var name: string
    var nodes: seq<Part>

    ghost predicate Valid()
      reads this
    {
      Open(nodes)
    }

    // story.Start
    constructor Start(name: string)
      ensures Valid() && this.name == name
      ensures nodes == [Part(START, [], [], START_ADAPTER)]
    {
      this.name := name;
      nodes := [Part(START, [], [], START_ADAPTER)];
    }

    // Id: the slot of the part, which is appended when it is new.
    method Id(id: string) returns (slot: nat)
      modifies this`nodes
      ensures slot < |nodes| && nodes[slot].id == id
      ensures nodes == old(nodes) || (nodes == old(nodes) + [Part(id, [], [], "")] && Find(id, old(nodes)) < 0)
      ensures old(Valid()) ==> Valid()
    {
      var i := ContainsNode(id, nodes);
      if i >= 0 {
        return i;
      }
      nodes := nodes + [Part(id, [], [], "")];
      assert forall k :: 0 <= k < |old(nodes)| ==> nodes[k] == old(nodes)[k];
      assert old(Valid()) ==> nodes[Find(START, old(nodes))].id == START;
      return |nodes| - 1;
    }

    method Adapter(slot: nat, adapter: string)
      requires slot < |nodes|
      modifies this`nodes
      ensures nodes == old(nodes)[slot := old(nodes)[slot].(adapter := adapter)]
      ensures old(Valid()) ==> Valid()
    {
      nodes := nodes[slot := nodes[slot].(adapter := adapter)];
      assert old(Valid()) ==> nodes[Find(START, old(nodes))].id == START;
    }

    // LinkTo appends the links that the part does not have yet.
    method LinkTo(slot: nat, ids: seq<string>)
      requires slot < |nodes|
      modifies this`nodes
      ensures nodes == old(nodes)[slot := old(nodes)[slot].(outgoing := AppendNew(old(nodes)[slot].outgoing, ids))]
      ensures old(Valid()) ==> Valid()
    {
      var out := nodes[slot].outgoing;
      for i := 0 to |ids|
        invariant AppendNew(out, ids[i..]) == AppendNew(nodes[slot].outgoing, ids)
      {
        if ids[i] !in out {
          out := out + [ids[i]];
        }
      }
      nodes := nodes[slot := nodes[slot].(outgoing := out)];
      assert old(Valid()) ==> nodes[Find(START, old(nodes))].id == START;
    }

    // buildInnLinks: for every part, every part that links to it.
    method BuildInnLinks()
      modifies this`nodes
      ensures nodes == WithIncoming(old(nodes))
    {
      hide Linkers;
      hide AppendNew;
      var all := nodes;
      for i := 0 to |all|
        invariant |nodes| == |all|
        invariant forall k :: 0 <= k < i ==> nodes[k] == WithIncoming(all)[k]
        invariant forall k :: i <= k < |all| ==> nodes[k] == all[k]
      {
        var id := all[i].id;
        ghost var before := nodes;
        NoLinkers(all[i].incoming, all, id);
        for j := 0 to |all|
          invariant nodes == before[i := all[i].(incoming := AppendNew(all[i].incoming, Linkers(all[..j], id)))]
        {
          NextLinker(all[i].incoming, all, j, id);
          if id in all[j].outgoing {
            var p := nodes[i];
            nodes := nodes[i := p.(incoming := AppendNew(p.incoming, [all[j].id]))];
          }
        }
        assert all[..|all|] == all;
      }
    }

    // sortGraph: fills a fresh array from the links, swapping as it goes.
    method SortNodes() returns (r: SortState)
      modifies this`nodes
      ensures r == SortGraph(old(nodes))
      ensures nodes == if r.Sorting? then r.nodes else old(nodes)
    {
      hide Expand;
      hide Find;
      var start := ContainsNode(START, nodes);
      if start < 0 {
        return Overrun;
      }
      var i: nat, cur: nat := 1, 0;
      var sorted := new Part[|nodes|](_ => BLANK);
      sorted[cur] := nodes[start];
      assert sorted[..] == FirstSlots(nodes, start);
      while i < sorted.Length && cur < sorted.Length - 1
        invariant 0 <= cur < sorted.Length == |nodes| && nodes == old(nodes)
        invariant SortFrom(nodes, sorted[..], i, cur) == SortGraph(nodes)
        decreases sorted.Length - cur
      {
        r := ExpandSlot(nodes, sorted, i, cur);
        if !r.Sorting? {
          return;
        }
        i, cur := r.next, cur + 1;
      }
      var e := ContainsNode(END, nodes);
      if e < 0 {
        return Overrun;
      }
      ghost var was := sorted[..];
      sorted[cur] := nodes[e];
      assert sorted[..] == was[cur := nodes[e]];
      nodes := sorted[..];
      return Sorting(nodes, i);
    }

    // The body of sortGraph's outer loop.
    static method ExpandSlot(all: seq<Part>, sorted: array<Part>, first: nat, cur: nat) returns (r: SortState)
      requires cur < sorted.Length
      modifies sorted
      ensures r == Expand(all, old(sorted[..]), first, cur, old(sorted[cur].outgoing))
      ensures r.Sorting? ==> sorted[..] == r.nodes
    {
      hide Find;
      var i: nat, outs := first, sorted[cur].outgoing;
      assert outs[0..] == outs;
      for o := 0 to |outs|
        invariant Expand(all, sorted[..], i, cur, outs[o..]) == Expand(all, old(sorted[..]), first, cur, outs)
      {
        var out := outs[o];
        assert outs[o..][1..] == outs[o + 1..];
        if out == END {
          continue;
        }
        ghost var was := sorted[..];
        assert was[..cur] == sorted[..cur] && was[cur..] == sorted[cur..];
        var outI := ContainsNode(out, sorted[..cur]);
        if outI >= 0 {
          var n := sorted[outI];
          sorted[outI] := sorted[cur];
          sorted[cur] := n;
          assert sorted[..] == was[outI := was[cur]][cur := was[outI]];
          continue;
        }
        var placed := ContainsNode(out, sorted[cur..]);
        if placed >= 0 {
          continue;
        }
        var ni := ContainsNode(out, all);
        if ni < 0 {
          return Missing;
        }
        if i >= sorted.Length {
          return Overrun;
        }
        sorted[i] := all[ni];
        assert sorted[..] == was[i := all[ni]];
        i := i + 1;
      }
      return Sorting(sorted[..], i);
    }

    // validateAsyclic: marks the slot, then searches below every link on a copy of the marks.
    method ValidateAsyclic(i: nat, seen: array<bool>) returns (v: Verdict)
      requires i < |nodes| == seen.Length
      modifies seen
      ensures v == Explore(nodes, i, old(seen[..]))
      decreases Unseen(seen[..])
    {
      if seen[i] {
        return CycleSeen;
      }
      ghost var marks := seen[..];
      UnseenDrops(marks, i);
      seen[i] := true;
      assert seen[..] == marks[i := true];
      var outs := nodes[i].outgoing;
      for o := 0 to |outs|
        invariant seen[..] == marks[i := true]
        invariant ExploreAll(nodes, outs[o..], seen[..]) == ExploreAll(nodes, outs, seen[..])
      {
        assert outs[o..][1..] == outs[o + 1..];
        var s := new bool[seen.Length];
        var k := 0;
        while k < seen.Length
          invariant 0 <= k <= seen.Length && s[..k] == seen[..k]
          invariant seen[..] == marks[i := true]
        {
          s[k] := seen[k];
          k := k + 1;
        }
        assert s[..] == s[..k] && seen[..] == seen[..k];
        var j := ContainsNode(outs[o], nodes);
        if j < 0 {
          return OutOfRange;
        }
        v := ValidateAsyclic(j, s);
        if v != NoCycle {
          return v;
        }
      }
      return NoCycle;
    }

    // The first steps of End: E and its adapter, and the incoming links.
    method Prepare()
      modifies this`nodes
      ensures nodes == Prepared(old(nodes))
    {
      hide WithIncoming;
      hide Find;
      var slot := ContainsNode(END, nodes);
      if slot >= 0 {
        Adapter(slot, END_ADAPTER);
      } else {
        nodes := nodes + [Part(END, [], [], END_ADAPTER)];
      }
      assert nodes == SetAdapter(old(nodes), END, END_ADAPTER);
      BuildInnLinks();
    }

    // End closes the story: it declares E, fills the incoming links, sorts and checks.
    method End() returns (r: EndResult)
      modifies this`nodes
      ensures r == EndSpec(old(nodes))
      ensures r.Built? ==> nodes == r.parts
    {
      hide Explore;
      hide SortGraph;
      hide Prepared;
      Prepare();
      var s := SortNodes();
      match s {
        case Missing => return ErrMissingNode;
        case Overrun => return Panics;
        case Sorting(_, _) =>
      }
      var seen := new bool[|nodes|](_ => false);
      assert seen[..] == seq(|nodes|, _ => false);
      var v := ValidateAsyclic(0, seen);
      match v {
        case CycleSeen => return ErrSyclicGraph;
        case OutOfRange => return Panics;
        case NoCycle => return Built(nodes);
      }
    }
  }

  lemma NoLinkers(have: seq<string>, all: seq<Part>, id: string)
    ensures AppendNew(have, Linkers(all[..0], id)) == have
  {
    assert all[..0] == [];
  }

  // One more part looked at adds at most that part's id.
  lemma NextLinker(have: seq<string>, all: seq<Part>, j: nat, id: string)
    requires j < |all|
    ensures AppendNew(have, Linkers(all[..j + 1], id)) ==
            if id in all[j].outgoing then AppendNew(AppendNew(have, Linkers(all[..j], id)), [all[j].id])
            else AppendNew(have, Linkers(all[..j], id))
  {
    assert all[..j + 1][..j] == all[..j];
    AppendOne(have, Linkers(all[..j], id), all[j].id);
  }
}
