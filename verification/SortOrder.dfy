// The order in which sortGraph lists the parts, told from the links alone: parts are expanded in
// the order in which they are met, whatever is swapped, and a link back makes two parts exchange
// places.
module SortOrder {
  import opened Seqs
  import opened Walks
  import opened Story
  import opened SortProofs
  import opened StoryProofs

  // The names met so far, with those that these links add.
  function Met(found: seq<string>, outs: seq<string>): seq<string>
    decreases |outs|
  {
    if outs == [] then found
    else Met(if outs[0] == END || outs[0] in found then found else found + [outs[0]], outs[1..])
  }

  // The two names change places.
  function Exchanged(names: seq<string>, a: string, b: string): (r: seq<string>)
    ensures |r| == |names|
  {
    seq(|names|, k requires 0 <= k < |names| => if names[k] == a then b else if names[k] == b then a else names[k])
  }

  // While the links of one part are followed, a link back to another part that was met no later
  // makes that part change places with the holder, and become the holder: holder is who has the
  // last place, order who has which.
  datatype Places = Places(holder: string, order: seq<string>)

  function Handed(p: Places, outs: seq<string>): Places
    decreases |outs|
  {
    if outs == [] then p
    else if outs[0] == END || outs[0] !in p.order || outs[0] == p.holder then Handed(p, outs[1..])
    else Handed(Places(outs[0], Exchanged(p.order, p.holder, outs[0])), outs[1..])
  }

  // The order of the parts from the first to the last expanded, when those from cur on, up to n,
  // have been expanded in the order met.
  function OrderAfter(g: Graph, found: seq<string>, cur: nat, n: nat, order: seq<string>): seq<string>
    decreases n - cur
  {
    if cur < n && cur < |found| && found[cur] in g then
      var p := found[cur];
      OrderAfter(g, Met(found, g[p]), cur + 1, n, Handed(Places(p, order + [p]), g[p]).order)
    else order
  }

  // The names met when those from cur on, up to n, have been expanded.
  function Discovered(g: Graph, found: seq<string>, cur: nat, n: nat): seq<string>
    decreases n - cur
  {
    if cur < n && cur < |found| && found[cur] in g then Discovered(g, Met(found, g[found[cur]]), cur + 1, n) else found
  }

  // The parts as they are met from S on, level by level, in link order.
  function DiscoveryOrder(parts: seq<Part>): seq<string> {
    Discovered(StoryGraph(parts), [START], 0, |Prepared(parts)| - 1)
  }

  // The names of the sorted parts in their order; E is never expanded.
  function SortedNames(parts: seq<Part>): seq<string> {
    OrderAfter(StoryGraph(parts), [START], 0, |Prepared(parts)| - 1, [])
  }

  // ----- the array follows -----

  // The slots after cur hold the names met later, in order, and then come blanks.
  ghost predicate Later(nodes: seq<Part>, i: nat, cur: nat, found: seq<string>) {
    && |found| == i <= |nodes| && cur < i
    && (forall k :: cur < k < i ==> nodes[k].id == found[k])
    && Distinct(found)
    && "" !in found
    && (forall k :: i <= k < |nodes| ==> nodes[k] == BLANK)
  }

  ghost predicate Holds(nodes: seq<Part>, order: seq<string>) {
    |order| <= |nodes| && forall k :: 0 <= k < |order| ==> nodes[k].id == order[k]
  }

  // The same names, each once.
  ghost predicate Rearranged(order: seq<string>, names: seq<string>) {
    Distinct(order) && |order| == |names| && forall x :: x in order <==> x in names
  }

  // The slots up to cur hold the names met up to then, in this order; the holder is at cur.
  ghost predicate Arranged(nodes: seq<Part>, i: nat, cur: nat, found: seq<string>, p: Places) {
    && Later(nodes, i, cur, found)
    && cur < |nodes| && |p.order| == cur + 1 && p.order[cur] == p.holder
    && Holds(nodes, p.order)
    && Rearranged(p.order, found[..cur + 1])
  }

  lemma ExchangedIsRearranged(order: seq<string>, names: seq<string>, j: nat, k: nat)
    requires Rearranged(order, names) && j < k < |order|
    ensures Exchanged(order, order[k], order[j]) == order[j := order[k]][k := order[j]]
    ensures Rearranged(Exchanged(order, order[k], order[j]), names)
  {
    var r := order[j := order[k]][k := order[j]];
    assert Exchanged(order, order[k], order[j]) == r;
    forall x ensures x in r <==> x in order {
      if i :| 0 <= i < |order| && order[i] == x {
        assert r[if i == j then k else if i == k then j else i] == x;
      }
      if i :| 0 <= i < |order| && r[i] == x {
        assert order[if i == j then k else if i == k then j else i] == x;
      }
    }
  }

  lemma SwapArranged(nodes: seq<Part>, i: nat, cur: nat, found: seq<string>, p: Places, k: nat)
    requires Arranged(nodes, i, cur, found, p) && k < cur
    ensures var out := nodes[k].id;
      && out in p.order && out in found && out != p.holder
      && Arranged(nodes[k := nodes[cur]][cur := nodes[k]], i, cur, found,
                  Places(out, Exchanged(p.order, p.holder, out)))
  {
    hide Rearranged;
    ExchangedIsRearranged(p.order, found[..cur + 1], k, cur);
    PlacesDiffer(p.order, found, cur, k);
  }

  lemma PlacesDiffer(order: seq<string>, found: seq<string>, cur: nat, k: nat)
    requires k < cur < |found| && Rearranged(order, found[..cur + 1])
    ensures order[k] in order && order[k] in found && order[k] != order[cur]
  {
    assert order[k] in found[..cur + 1];
  }

  // A link to a name that has a slot from cur on: the holder, or a name met later.
  lemma LaterIsMet(nodes: seq<Part>, i: nat, cur: nat, found: seq<string>, p: Places, out: string)
    requires Arranged(nodes, i, cur, found, p) && out != "" && Find(out, nodes[cur..]) >= 0
    ensures out in found && (out == p.holder || out !in p.order)
  {
    var l := Find(out, nodes[cur..]);
    assert nodes[cur..][l] == nodes[cur + l] && nodes[cur + l].id == out;
    if l == 0 {
      assert out in p.order && out in found[..cur + 1];
    } else {
      assert found[cur + l] == out;
      assert out !in found[..cur + 1];
    }
  }

  lemma NotMetYet(nodes: seq<Part>, i: nat, cur: nat, found: seq<string>, p: Places, out: string)
    requires Arranged(nodes, i, cur, found, p) && Find(out, nodes[..cur]) < 0 && Find(out, nodes[cur..]) < 0
    ensures out !in found && out !in p.order
  {
    forall k | 0 <= k < |nodes| ensures nodes[k].id != out {
      if k < cur { assert nodes[..cur][k] == nodes[k]; } else { assert nodes[cur..][k - cur] == nodes[k]; }
    }
    forall k | 0 <= k < |found| ensures found[k] != out {
      if k <= cur {
        assert found[..cur + 1][k] in p.order;
        var j :| 0 <= j < |p.order| && p.order[j] == found[k];
        assert nodes[j].id == found[k];
      }
    }
  }

  lemma PlaceArranged(nodes: seq<Part>, i: nat, cur: nat, found: seq<string>, p: Places, part: Part)
    requires Arranged(nodes, i, cur, found, p) && i < |nodes| && part.id != "" && part.id !in found
    ensures Arranged(nodes[i := part], i + 1, cur, found + [part.id], p)
  {
    hide Rearranged;
    assert (found + [part.id])[..cur + 1] == found[..cur + 1];
  }

  // The inner loop of the sort keeps the arrangement.
  lemma {:induction false} ExpandArranged(parts: seq<Part>, nodes: seq<Part>, i: nat, cur: nat, outs: seq<string>,
                                          found: seq<string>, p: Places)
    requires Arranged(nodes, i, cur, found, p) && "" !in outs && cur < |nodes|
    requires Expand(parts, nodes, i, cur, outs).Sorting?
    ensures var r := Expand(parts, nodes, i, cur, outs);
      |r.nodes| == |nodes| && Arranged(r.nodes, r.next, cur, Met(found, outs), Handed(p, outs))
    decreases |outs|
  {
    hide Arranged;
    hide Exchanged;
    if outs != [] {
      var out, rest := outs[0], outs[1..];
      assert out in outs && forall x :: x in rest ==> x in outs;
      if out == END {
        ExpandArranged(parts, nodes, i, cur, rest, found, p);
      } else if Find(out, nodes[..cur]) >= 0 {
        var k := Find(out, nodes[..cur]);
        assert nodes[..cur][k] == nodes[k];
        SwapArranged(nodes, i, cur, found, p, k);
        ExpandArranged(parts, nodes[k := nodes[cur]][cur := nodes[k]], i, cur, rest, found,
                       Places(out, Exchanged(p.order, p.holder, out)));
      } else if Find(out, nodes[cur..]) >= 0 {
        LaterIsMet(nodes, i, cur, found, p, out);
        ExpandArranged(parts, nodes, i, cur, rest, found, p);
      } else {
        NotMetYet(nodes, i, cur, found, p, out);
        var n := Find(out, parts);
        PlaceArranged(nodes, i, cur, found, p, parts[n]);
        ExpandArranged(parts, nodes[i := parts[n]], i + 1, cur, rest, found + [out], p);
      }
    }
  }

  // ----- the outer loop -----

  // The parts before cur have been expanded; the next one stands at cur, as it was met.
  ghost predicate Next(nodes: seq<Part>, i: nat, cur: nat, found: seq<string>, order: seq<string>) {
    && |found| == i <= |nodes| && cur < |nodes|
    && if cur < i then |order| == cur && Arranged(nodes, i, cur, found, Places(found[cur], order + [found[cur]]))
       else Holds(nodes, order) && Rearranged(order, found)
  }

  // The next part is a declared one with its declared links.
  lemma NextLinks(parts: seq<Part>, nodes: seq<Part>, i: nat, cur: nat)
    requires Ready(parts) && SortInv(parts, nodes, i, cur) && cur < i
    ensures nodes[cur].id in GraphOf(parts) && nodes[cur].outgoing == GraphOf(parts)[nodes[cur].id]
    ensures nodes[cur] in parts
  {
    hide InnerReach;
    hide Expanded;
    LinksOf(parts, nodes[cur]);
  }

  // After a part has been expanded, the next one is at its place.
  lemma NextOn(nodes: seq<Part>, i: nat, cur: nat, found: seq<string>, p: Places)
    requires Arranged(nodes, i, cur, found, p) && cur + 1 < |nodes|
    ensures Next(nodes, i, cur + 1, found, p.order)
  {
    if cur + 1 < i {
      OneMore(p.order, found, cur + 1);
    } else {
      assert found[..cur + 1] == found;
    }
  }

  lemma OneMore(order: seq<string>, found: seq<string>, cur: nat)
    requires cur < |found| && Distinct(found) && Rearranged(order, found[..cur])
    ensures Rearranged(order + [found[cur]], found[..cur + 1])
  {
    assert found[..cur + 1] == found[..cur] + [found[cur]];
    assert found[cur] !in found[..cur];
  }

  // What the sort has listed in the end: these names, in the first slots.
  ghost predicate ListsAs(r: SortState, order: seq<string>) {
    r.Sorting? && |order| == r.next && Holds(r.nodes, order)
  }

  // The outer loop lists the names as the rule says.
  lemma {:induction false} SortFollows(parts: seq<Part>, nodes: seq<Part>, i: nat, cur: nat, found: seq<string>,
                                       order: seq<string>)
    requires Ready(parts) && Tidy(parts) && SortInv(parts, nodes, i, cur) && Next(nodes, i, cur, found, order)
    requires |nodes| > 1 && SortFrom(parts, nodes, i, cur).Sorting?
    ensures ListsAs(SortFrom(parts, nodes, i, cur), OrderAfter(GraphOf(parts), found, cur, |nodes| - 1, order))
    ensures Rearranged(OrderAfter(GraphOf(parts), found, cur, |nodes| - 1, order),
                       Discovered(GraphOf(parts), found, cur, |nodes| - 1))
    decreases |nodes| - cur
  {
    hide SortInv;
    hide Arranged;
    hide Ready;
    hide Tidy;
    hide GraphOf;
    hide Expand;
    hide Met;
    hide Handed;
    hide Rearranged;
    assert i < |nodes| by { FilledBounds(parts, nodes, i, cur); }
    if cur < |nodes| - 1 {
      ExpandStarts(parts, nodes, i, cur);
      ExpandKeeps(parts, nodes, i, cur, nodes[cur].outgoing, nodes[cur]);
      var r := Expand(parts, nodes, i, cur, nodes[cur].outgoing);
      if cur < i {
        var p := Places(found[cur], order + [found[cur]]);
        HolderIsNext(nodes, i, cur, found, p);
        NextLinks(parts, nodes, i, cur);
        assert "" !in nodes[cur].outgoing by { TidyLinks(parts, nodes[cur]); }
        ExpandArranged(parts, nodes, i, cur, nodes[cur].outgoing, found, p);
        var p' := Handed(p, nodes[cur].outgoing);
        NextOn(r.nodes, r.next, cur, Met(found, nodes[cur].outgoing), p');
        SortFollows(parts, r.nodes, r.next, cur + 1, Met(found, nodes[cur].outgoing), p'.order);
      } else {
        assert r == Sorting(nodes, i) by { BlankExpands(parts, nodes, i, cur); }
        SortFollows(parts, nodes, i, cur + 1, found, order);
      }
    } else {
      LastSlot(parts, nodes, i, cur, found, order);
    }
  }

  lemma LastSlot(parts: seq<Part>, nodes: seq<Part>, i: nat, cur: nat, found: seq<string>, order: seq<string>)
    requires cur == |nodes| - 1 && i <= cur && Next(nodes, i, cur, found, order)
    requires SortFrom(parts, nodes, i, cur).Sorting?
    ensures ListsAs(SortFrom(parts, nodes, i, cur), order) && Rearranged(order, found)
  {
  }

  lemma FilledBounds(parts: seq<Part>, nodes: seq<Part>, i: nat, cur: nat)
    requires SortInv(parts, nodes, i, cur)
    ensures i < |nodes|
  {
  }

  lemma HolderIsNext(nodes: seq<Part>, i: nat, cur: nat, found: seq<string>, p: Places)
    requires Arranged(nodes, i, cur, found, p)
    ensures nodes[cur].id == p.holder
  {
  }

  lemma TidyLinks(parts: seq<Part>, p: Part)
    requires Tidy(parts) && p in parts
    ensures "" !in p.outgoing
  {
  }

  lemma BlankExpands(parts: seq<Part>, nodes: seq<Part>, i: nat, cur: nat)
    requires cur < |nodes| && nodes[cur] == BLANK
    ensures Expand(parts, nodes, i, cur, nodes[cur].outgoing) == Sorting(nodes, i)
  {
  }

  // ----- the sorted list -----

  lemma FirstIsNext(parts: seq<Part>)
    requires Ready(parts)
    ensures var first := FirstSlots(parts, Find(START, parts)); Next(first, 1, 0, [START], []) && |parts| > 1
  {
    var first := FirstSlots(parts, Find(START, parts));
    assert parts[Find(END, parts)].id == END;
    assert first[0].id == START && [] + [START] == [START] == [START][..1];
  }

  // The sorted list holds the parts in the order that the links say, then blanks, then E.
  lemma SortedByLinks(parts: seq<Part>)
    requires Open(parts) && Tidy(parts) && !LinkMissing(parts)
    ensures var r, order, n := SortGraph(Prepared(parts)), SortedNames(parts), |Prepared(parts)| - 1;
      && r.Sorting? && 1 <= |order| <= n
      && PartIdList(r.nodes) == order + seq(n - |order|, _ => "") + [END]
      && (forall p :: p in r.nodes ==> p in Prepared(parts) || p == BLANK)
    ensures Rearranged(SortedNames(parts), DiscoveryOrder(parts))
  {
    hide Prepared;
    hide Open;
    hide SortFrom;
    hide SortInv;
    hide Next;
    hide Ready;
    hide Rearranged;
    hide InnerReach;
    hide Expanded;
    hide OrderAfter;
    hide Discovered;
    var ready := Prepared(parts);
    PreparedReady(parts);
    PreparedLinks(parts);
    SortSeesMissing(parts);
    FirstIsNext(ready);
    FirstIsSorted(ready);
    assert Find(START, ready) >= 0 by { assert Ready(ready); StartIsThere(ready); }
    SortFollows(ready, FirstSlots(ready, Find(START, ready)), 1, 0, [START], []);
    SortGraphExact(ready);
    var r := SortGraph(ready);
    NamesOf(ready, r.nodes, r.next, SortedNames(parts));
  }

  lemma StartIsThere(ready: seq<Part>)
    requires Ready(ready)
    ensures Find(START, ready) >= 0
  {
  }

  lemma NamesOf(ready: seq<Part>, nodes: seq<Part>, m: nat, order: seq<string>)
    requires SortedStory(ready, nodes, m) && |order| == m && Holds(nodes, order)
    ensures PartIdList(nodes) == order + seq(|nodes| - 1 - m, _ => "") + [END]
    ensures forall p :: p in nodes ==> p in ready || p == BLANK
  {
  }

  // ... and that is what End builds.
  lemma BuiltByLinks(parts: seq<Part>)
    requires Open(parts) && Tidy(parts) && EndSpec(parts).Built?
    ensures var nodes, order, n := EndSpec(parts).parts, SortedNames(parts), |Prepared(parts)| - 1;
      1 <= |order| <= n && PartIdList(nodes) == order + seq(n - |order|, _ => "") + [END]
  {
    hide Prepared;
    hide SortGraph;
    hide SortedNames;
    hide Explore;
    EndExact(parts);
    SortedByLinks(parts);
  }

  // ----- what one part's links do to the order -----

  // The links that lead back, in link order.
  function Backs(order: seq<string>, outs: seq<string>): seq<string>
    decreases |outs|
  {
    if outs == [] then []
    else if outs[0] == END || outs[0] !in order then Backs(order, outs[1..])
    else [outs[0]] + Backs(order, outs[1..])
  }

  lemma {:induction false} BacksAreLinks(order: seq<string>, outs: seq<string>)
    ensures forall x :: x in Backs(order, outs) <==> x in outs && x in order && x != END
    ensures Distinct(outs) ==> Distinct(Backs(order, outs))
    decreases |outs|
  {
    if outs != [] {
      BacksAreLinks(order, outs[1..]);
      assert Distinct(outs) ==> outs[0] !in outs[1..] && Distinct(outs[1..]);
    }
  }

  lemma {:induction false} SameBacks(order: seq<string>, order': seq<string>, outs: seq<string>)
    requires forall x :: x in order <==> x in order'
    ensures Backs(order, outs) == Backs(order', outs)
    decreases |outs|
  {
    if outs != [] {
      SameBacks(order, order', outs[1..]);
    }
  }

  // Exchanging two names of the order leaves the same names.
  lemma ExchangedHolds(order: seq<string>, a: string, b: string)
    requires a in order && b in order
    ensures forall x :: x in Exchanged(order, a, b) <==> x in order
  {
    var r := Exchanged(order, a, b);
    forall x ensures x in r <==> x in order {
      if x in order {
        var y := if x == a then b else if x == b then a else x;
        var k :| 0 <= k < |order| && order[k] == y;
        assert r[k] == x;
      }
      if k :| 0 <= k < |r| && r[k] == x {
        assert order[k] in order;
      }
    }
  }

  lemma {:induction false} HandedKeepsLength(p: Places, outs: seq<string>)
    ensures |Handed(p, outs).order| == |p.order|
    decreases |outs|
  {
    if outs != [] {
      if outs[0] == END || outs[0] !in p.order || outs[0] == p.holder {
        HandedKeepsLength(p, outs[1..]);
      } else {
        HandedKeepsLength(Places(outs[0], Exchanged(p.order, p.holder, outs[0])), outs[1..]);
      }
    }
  }

  // y gets the place of x: the holder that of the first one, each the next one's, the last one the
  // holder's.
  ghost predicate Takes(holder: string, backs: seq<string>, x: string, y: string) {
    && (x == holder ==> y == if backs == [] then holder else backs[|backs| - 1])
    && (x != holder && x !in backs ==> y == x)
    && (forall j {:trigger backs[j]} :: 0 <= j < |backs| && backs[j] == x ==>
      y == if j == 0 then holder else backs[j - 1])
  }

  lemma TakesOn(holder: string, out: string, rest: seq<string>, x: string, y: string)
    requires holder != out && holder !in rest && out !in rest && Distinct(rest)
    requires Takes(out, rest, if x == holder then out else if x == out then holder else x, y)
    ensures Takes(holder, [out] + rest, x, y)
  {
    var backs := [out] + rest;
    assert backs[|backs| - 1] == if rest == [] then out else rest[|rest| - 1];
    if x != holder && x != out && x in rest {
      assert Takes(out, rest, x, y);
      var j :| 0 <= j < |rest| && rest[j] == x;
      assert y == if j == 0 then out else rest[j - 1];
      forall k | 0 <= k < |backs| && backs[k] == x ensures y == if k == 0 then holder else backs[k - 1] {
        assert k == j + 1;
      }
    }
  }

  lemma {:induction false} ShiftAt(p: Places, outs: seq<string>, k: nat)
    requires p.holder in p.order && p.holder !in outs && Distinct(outs) && k < |p.order|
    ensures var r := Handed(p, outs).order;
      k < |r| && Takes(p.holder, Backs(p.order, outs), p.order[k], r[k])
    decreases |outs|
  {
    hide Takes;
    hide Exchanged;
    HandedKeepsLength(p, outs);
    if outs == [] {
      assert Takes(p.holder, [], p.order[k], p.order[k]) by { TakesItself(p.holder, p.order[k]); }
    } else {
      var out, rest := outs[0], outs[1..];
      assert out !in rest && Distinct(rest) && forall x :: x in rest ==> x in outs;
      if out == END || out !in p.order {
        ShiftAt(p, rest, k);
      } else {
        var p' := Places(out, Exchanged(p.order, p.holder, out));
        ExchangedHolds(p.order, p.holder, out);
        ExchangedAt(p.order, p.holder, out, k);
        SameBacks(p.order, p'.order, rest);
        BacksAreLinks(p.order, rest);
        ShiftAt(p', rest, k);
        TakesOn(p.holder, out, Backs(p.order, rest), p.order[k], Handed(p, outs).order[k]);
      }
    }
  }

  lemma TakesItself(holder: string, x: string)
    ensures Takes(holder, [], x, x)
  {
  }

  lemma ExchangedAt(order: seq<string>, a: string, b: string, k: nat)
    requires k < |order|
    ensures Exchanged(order, a, b)[k] == if order[k] == a then b else if order[k] == b then a else order[k]
  {
  }

  // Along the links back the parts move on by one: the expanded part takes the place of the first
  // one, each of them the place of the next, and the last one the place of the expanded part. All
  // others stay.
  lemma LinksBackShift(p: Places, outs: seq<string>)
    requires p.holder in p.order && p.holder !in outs && Distinct(outs)
    ensures var r := Handed(p, outs).order;
      && |r| == |p.order|
      && forall k :: 0 <= k < |r| ==> Takes(p.holder, Backs(p.order, outs), p.order[k], r[k])
  {
    hide Takes;
    HandedKeepsLength(p, outs);
    forall k | 0 <= k < |p.order|
      ensures Takes(p.holder, Backs(p.order, outs), p.order[k], Handed(p, outs).order[k])
    {
      ShiftAt(p, outs, k);
    }
  }

  // ----- the first place, and what End misses -----

  // The part that ends up in slot 0.
  function FirstSlot(parts: seq<Part>): string {
    var order := SortedNames(parts);
    if order == [] then START else order[0]
  }

  // The sort's slot 0 is told by the links.
  lemma TopIsFirstSlot(parts: seq<Part>)
    requires Open(parts) && Tidy(parts) && !LinkMissing(parts)
    ensures Top(parts) == FirstSlot(parts)
  {
    hide Prepared;
    hide SortGraph;
    hide SortedNames;
    SortedByLinks(parts);
    var nodes := SortGraph(Prepared(parts)).nodes;
    assert PartIdList(nodes)[0] == SortedNames(parts)[0];
  }

  // End accepts a cyclic story exactly when the part that the links put in slot 0 leads to no
  // cycle; it never rejects an acyclic one.
  lemma MissedExactly(parts: seq<Part>)
    requires Open(parts) && Tidy(parts) && !LinkMissing(parts)
    ensures EndSpec(parts).ErrSyclicGraph? <==> CycleFrom(StoryGraph(parts), FirstSlot(parts))
    ensures EndSpec(parts).ErrSyclicGraph? ==> CycleFrom(StoryGraph(parts), START)
    ensures EndSpec(parts).Built? && CycleFrom(StoryGraph(parts), START) <==>
            CycleFrom(StoryGraph(parts), START) && !CycleFrom(StoryGraph(parts), FirstSlot(parts))
  {
    hide FirstSlot;
    hide Top;
    hide CycleFrom;
    TopIsFirstSlot(parts);
    EndExact(parts);
    EndMissesExactly(parts);
  }

  // ----- where no link leads back -----

  // No part links to one that was met before it.
  ghost predicate NoLinkBack(g: Graph, met: seq<string>) {
    forall j, k :: 0 <= j < k < |met| && met[k] in g ==> met[j] !in g[met[k]]
  }

  lemma {:induction false} MetGrows(found: seq<string>, outs: seq<string>)
    ensures found <= Met(found, outs)
    ensures Distinct(found) ==> Distinct(Met(found, outs))
    ensures END !in found ==> END !in Met(found, outs)
    decreases |outs|
  {
    if outs != [] {
      MetGrows(if outs[0] == END || outs[0] in found then found else found + [outs[0]], outs[1..]);
    }
  }

  lemma {:induction false} DiscoveredGrows(g: Graph, found: seq<string>, cur: nat, n: nat)
    ensures found <= Discovered(g, found, cur, n)
    decreases n - cur
  {
    if cur < n && cur < |found| && found[cur] in g {
      MetGrows(found, g[found[cur]]);
      DiscoveredGrows(g, Met(found, g[found[cur]]), cur + 1, n);
    }
  }

  lemma {:induction false} NothingHanded(p: Places, outs: seq<string>)
    requires forall x :: x in outs && x in p.order ==> x == p.holder
    ensures Handed(p, outs) == p
    decreases |outs|
  {
    if outs != [] {
      NothingHanded(p, outs[1..]);
    }
  }

  lemma {:induction false} OrderIsDiscovery(g: Graph, found: seq<string>, cur: nat, n: nat)
    requires cur <= |found| && NoLinkBack(g, Discovered(g, found, cur, n))
    ensures OrderAfter(g, found, cur, n, found[..cur]) <= Discovered(g, found, cur, n)
    decreases n - cur
  {
    DiscoveredGrows(g, found, cur, n);
    if cur < n && cur < |found| && found[cur] in g {
      var p, met := found[cur], Met(found, g[found[cur]]);
      MetGrows(found, g[p]);
      assert found[..cur] + [p] == met[..cur + 1];
      forall x | x in g[p] && x in met[..cur + 1] ensures x == p {
        var j :| 0 <= j <= cur && met[j] == x;
        assert Discovered(g, found, cur, n)[j] == x && Discovered(g, found, cur, n)[cur] == p;
      }
      NothingHanded(Places(p, met[..cur + 1]), g[p]);
      OrderIsDiscovery(g, met, cur + 1, n);
    }
  }

  // Where no link leads back, the parts stand in the order in which they are met.
  lemma NoLinkBackKeepsOrder(parts: seq<Part>)
    requires Open(parts) && Tidy(parts) && !LinkMissing(parts)
    requires NoLinkBack(StoryGraph(parts), DiscoveryOrder(parts))
    ensures SortedNames(parts) == DiscoveryOrder(parts)
  {
    hide StoryGraph;
    hide NoLinkBack;
    hide OrderAfter;
    hide Discovered;
    SortedByLinks(parts);
    assert [START][..0] == [];
    OrderIsDiscovery(StoryGraph(parts), [START], 0, |Prepared(parts)| - 1);
  }

  // ----- a condition on single parts -----

  // No part that S reaches lists a link to a part, other than E, that leads to no cycle before a
  // link to one that does.
  ghost predicate CyclesFirst(g: Graph) {
    forall p, i, j :: p in g && Reaches(g, START, p) && 0 <= i < j < |g[p]| && g[p][i] != END && CycleFrom(g, g[p][j])
      ==> CycleFrom(g, g[p][i])
  }

  // The last place is the holder's, and nobody has two.
  ghost predicate InPlace(p: Places, names: seq<string>) {
    Rearranged(p.order, names) && p.order != [] && p.order[|p.order| - 1] == p.holder
  }

  lemma HandedOne(p: Places, names: seq<string>, out: string)
    requires InPlace(p, names) && out in p.order && out != p.holder
    ensures InPlace(Places(out, Exchanged(p.order, p.holder, out)), names)
    ensures Exchanged(p.order, p.holder, out)[0] == if p.order[0] == out then p.holder else p.order[0]
  {
    var j :| 0 <= j < |p.order| && p.order[j] == out;
    ExchangedIsRearranged(p.order, names, j, |p.order| - 1);
  }

  lemma {:induction false} HandedKeepsPlaces(p: Places, names: seq<string>, outs: seq<string>)
    requires InPlace(p, names)
    ensures InPlace(Handed(p, outs), names)
    decreases |outs|
  {
    hide InPlace;
    hide Exchanged;
    if outs != [] {
      if outs[0] == END || outs[0] !in p.order || outs[0] == p.holder {
        HandedKeepsPlaces(p, names, outs[1..]);
      } else {
        HandedOne(p, names, outs[0]);
        HandedKeepsPlaces(Places(outs[0], Exchanged(p.order, p.holder, outs[0])), names, outs[1..]);
      }
    }
  }

  // Whoever has the first place leads to a cycle if whoever had it before did.
  lemma {:induction false} HandedKeepsCycle(g: Graph, part: string, k: nat, names: seq<string>, p: Places)
    requires CyclesFirst(g) && part in g && Reaches(g, START, part) && k <= |g[part]| && InPlace(p, names)
    requires p.order != [] && CycleFrom(g, p.order[0])
    requires p.holder == part || exists i :: 0 <= i < k && g[part][i] == p.holder && p.holder != END
    ensures var order := Handed(p, g[part][k..]).order; order != [] && CycleFrom(g, order[0])
    decreases |g[part]| - k
  {
    hide CycleFrom;
    hide Reaches;
    hide InPlace;
    hide Exchanged;
    if k < |g[part]| {
      var outs := g[part][k..];
      assert outs[1..] == g[part][k + 1..];
      var out := g[part][k];
      if out == END || out !in p.order || out == p.holder {
        HandedKeepsCycle(g, part, k + 1, names, p);
      } else {
        var p' := Places(out, Exchanged(p.order, p.holder, out));
        HandedOne(p, names, out);
        if out == p.order[0] {
          if p.holder == part {
            assert Edge(g, part, out);
            EdgeFollows(g, part, out);
            FollowsReaches(g, part, out);
            CycleBeyond(g, part, out);
          } else {
            var i :| 0 <= i < k && g[part][i] == p.holder;
            assert CycleFrom(g, g[part][k]);
          }
        }
        HandedKeepsCycle(g, part, k + 1, names, p');
      }
    }
  }

  lemma FollowsReaches(g: Graph, u: string, v: string)
    requires Follows(g, u, v)
    ensures Reaches(g, u, v)
  {
  }

  // Everything that is met can be reached.
  lemma {:induction false} MetIsReached(g: Graph, part: string, found: seq<string>, k: nat)
    requires part in g && Reaches(g, START, part) && k <= |g[part]| && forall x :: x in found ==> Reaches(g, START, x)
    ensures forall x :: x in Met(found, g[part][k..]) ==> Reaches(g, START, x)
    decreases |g[part]| - k
  {
    hide Reaches;
    if k < |g[part]| {
      var outs := g[part][k..];
      assert outs[1..] == g[part][k + 1..];
      var next := if outs[0] == END || outs[0] in found then found else found + [outs[0]];
      ReachesExtends(g, START, part, outs[0]);
      MetIsReached(g, part, next, k + 1);
    }
  }

  lemma {:induction false} FirstKeepsCycle(g: Graph, found: seq<string>, cur: nat, n: nat, order: seq<string>)
    requires CyclesFirst(g) && forall x :: x in found ==> Reaches(g, START, x)
    requires cur <= |found| && Distinct(found) && Rearranged(order, found[..cur])
    requires if order == [] then found != [] && CycleFrom(g, found[0]) else CycleFrom(g, order[0])
    ensures var r := OrderAfter(g, found, cur, n, order); r != [] ==> CycleFrom(g, r[0])
    decreases n - cur
  {
    hide CyclesFirst;
    hide CycleFrom;
    hide Reaches;
    if cur < n && cur < |found| && found[cur] in g {
      var p, met := found[cur], Met(found, g[found[cur]]);
      assert g[p][0..] == g[p];
      MetIsReached(g, p, found, 0);
      MetGrows(found, g[p]);
      OneMore(order, found, cur);
      var was := Places(p, order + [p]);
      HandedKeepsPlaces(was, found[..cur + 1], g[p]);
      HandedKeepsCycle(g, p, 0, found[..cur + 1], was);
      assert met[..cur + 1] == found[..cur + 1];
      FirstKeepsCycle(g, met, cur + 1, n, Handed(was, g[p]).order);
    }
  }

  lemma SomePart(parts: seq<Part>)
    requires Open(parts)
    ensures |Prepared(parts)| > 0
  {
    hide Prepared;
    PreparedReady(parts);
  }

  lemma FirstSlotLeads(parts: seq<Part>)
    requires |Prepared(parts)| > 0 && CyclesFirst(StoryGraph(parts)) && CycleFrom(StoryGraph(parts), START)
    ensures CycleFrom(StoryGraph(parts), FirstSlot(parts))
  {
    hide Prepared;
    hide CyclesFirst;
    hide CycleFrom;
    hide Reaches;
    hide OrderAfter;
    StartReachesItself(StoryGraph(parts));
    assert [START][..0] == [];
    FirstKeepsCycle(StoryGraph(parts), [START], 0, |Prepared(parts)| - 1, []);
  }

  // Where every part lists its links to cycles first, End decides the story whatever links to S.
  lemma EndDecidesCyclesFirst(parts: seq<Part>)
    requires Open(parts) && Tidy(parts) && CyclesFirst(StoryGraph(parts))
    ensures EndSpec(parts).ErrMissingNode? <==> LinkMissing(parts)
    ensures EndSpec(parts).ErrSyclicGraph? <==> !LinkMissing(parts) && CycleFrom(StoryGraph(parts), START)
  {
    hide Open;
    hide Tidy;
    hide CyclesFirst;
    hide CycleFrom;
    hide Reaches;
    hide EndSpec;
    hide Prepared;
    hide FirstSlot;
    hide Top;
    EndExact(parts);
    SomePart(parts);
    if !LinkMissing(parts) {
      MissedExactly(parts);
      if CycleFrom(StoryGraph(parts), START) {
        FirstSlotLeads(parts);
      }
    }
  }

  lemma StartReachesItself(g: Graph)
    ensures Reaches(g, START, START)
  {
    assert WalkFromTo(g, [START], START, START);
  }

  // ----- a story with links back -----

  // S -> rdbms, graph, objectstore;  rdbms -> pubsub, barf;  graph -> barf;  barf -> pubsub;
  // objectstore -> pubsub;  pubsub -> E.
  const SAGA := [
    Part(START, [], ["rdbms", "graph", "objectstore"], START_ADAPTER),
    Part("graph", [], ["barf"], "WriteToGraph"),
    Part("barf", [], ["pubsub"], "WriteToBarf"),
    Part("rdbms", [], ["pubsub", "barf"], "WriteToRDBMS"),
    Part("pubsub", [], [END], "PublishToPubSub"),
    Part("objectstore", [], ["pubsub"], "WriteToObjectStore")]

  // The names of the story, each with a letter of its own in front.
  lemma SagaNames()
    ensures Distinct([START, "graph", "barf", "rdbms", "pubsub", "objectstore", END])
  {
    var ids := [START, "graph", "barf", "rdbms", "pubsub", "objectstore", END];
    assert ids[0][0] == 'S' && ids[1][0] == 'g' && ids[2][0] == 'b' && ids[3][0] == 'r' && ids[4][0] == 'p';
    assert ids[5][0] == 'o' && ids[6][0] == 'E';
  }

  lemma SagaIsOpen()
    ensures Open(SAGA) && Tidy(SAGA) && NothingLinksToStart(SAGA) && Find(END, SAGA) < 0
  {
    SagaNames();
    SagaOutgoing();
    var ids := [START, "graph", "barf", "rdbms", "pubsub", "objectstore", END];
    assert forall k :: 0 <= k < 6 ==> SAGA[k].id == ids[k] && ids[k] != ids[6];
  }

  lemma SagaOutgoing()
    ensures forall k :: 0 <= k < |SAGA| ==>
              Distinct(SAGA[k].outgoing) && "" !in SAGA[k].outgoing && START !in SAGA[k].outgoing
  {
    assert "rdbms"[0] != "graph"[0] && "rdbms"[0] != "objectstore"[0] && "graph"[0] != "objectstore"[0];
    assert "pubsub"[0] != "barf"[0];
    forall k | 0 <= k < |SAGA| ensures "" !in SAGA[k].outgoing && START !in SAGA[k].outgoing {
      forall o | o in SAGA[k].outgoing ensures o != "" && o != START {
        assert o[0] != START[0];
      }
    }
  }

  // A declared part has its links in the graph; E, where it is not declared, has none.
  lemma DeclaredLinks(parts: seq<Part>, k: nat)
    requires Open(parts) && k < |parts|
    ensures parts[k].id in StoryGraph(parts) && StoryGraph(parts)[parts[k].id] == parts[k].outgoing
  {
    hide Prepared;
    hide GraphOf;
    PreparedShape(parts);
    PreparedReady(parts);
    LinksOf(Prepared(parts), Prepared(parts)[k]);
  }

  lemma AddedEnd(parts: seq<Part>)
    requires Open(parts) && Find(END, parts) < 0
    ensures |Prepared(parts)| == |parts| + 1
    ensures END in StoryGraph(parts) && StoryGraph(parts)[END] == []
  {
    hide Prepared;
    hide GraphOf;
    PreparedShape(parts);
    PreparedReady(parts);
    assert |SetAdapter(parts, END, END_ADAPTER)| == |parts| + 1;
    LinksOf(Prepared(parts), Prepared(parts)[|parts|]);
  }

  ghost predicate SagaLinks(g: Graph) {
    && START in g && g[START] == ["rdbms", "graph", "objectstore"]
    && "graph" in g && g["graph"] == ["barf"]
    && "barf" in g && g["barf"] == ["pubsub"]
    && "rdbms" in g && g["rdbms"] == ["pubsub", "barf"]
    && "pubsub" in g && g["pubsub"] == [END]
    && "objectstore" in g && g["objectstore"] == ["pubsub"]
    && END in g && g[END] == []
  }

  lemma SagaGraph()
    ensures SagaLinks(StoryGraph(SAGA)) && |Prepared(SAGA)| == 7
  {
    hide StoryGraph;
    hide Prepared;
    hide Open;
    SagaIsOpen();
    AddedEnd(SAGA);
    DeclaredLinks(SAGA, 0);
    DeclaredLinks(SAGA, 1);
    DeclaredLinks(SAGA, 2);
    DeclaredLinks(SAGA, 3);
    DeclaredLinks(SAGA, 4);
    DeclaredLinks(SAGA, 5);
  }

  lemma {:induction false} MetBefore(found: seq<string>, outs: seq<string>)
    requires forall x :: x in outs ==> x == END || x in found
    ensures Met(found, outs) == found
    decreases |outs|
  {
    if outs != [] {
      MetBefore(found, outs[1..]);
    }
  }

  lemma {:induction false} MetFirst(found: seq<string>, outs: seq<string>)
    requires Distinct(outs) && END !in outs && forall x :: x in outs ==> x !in found
    ensures Met(found, outs) == found + outs
    decreases |outs|
  {
    if outs != [] {
      assert outs[0] !in outs[1..];
      MetFirst(found + [outs[0]], outs[1..]);
      assert found + [outs[0]] + outs[1..] == found + outs;
    } else {
      assert found + outs == found;
    }
  }

  // A part without a link back leaves the order as it is.
  lemma StepOn(g: Graph, found: seq<string>, cur: nat, n: nat, met: seq<string>)
    requires cur < n && cur < |found| <= |met| && found[cur] in g && Met(found, g[found[cur]]) == met
    requires forall x :: x in g[found[cur]] ==> x !in found[..cur + 1]
    ensures OrderAfter(g, found, cur, n, found[..cur]) == OrderAfter(g, met, cur + 1, n, met[..cur + 1])
  {
    var p := found[cur];
    MetGrows(found, g[p]);
    assert found[..cur] + [p] == found[..cur + 1] == met[..cur + 1];
    NothingHanded(Places(p, found[..cur + 1]), g[p]);
  }

  const SAGA_MET := [START, "rdbms", "graph", "objectstore", "pubsub", "barf"]

  lemma SagaMet(g: Graph)
    requires SagaLinks(g)
    ensures OrderAfter(g, [START], 0, 6, [START][..0]) == OrderAfter(g, SAGA_MET, 2, 6, SAGA_MET[..2])
  {
    hide OrderAfter;
    hide Met;
    hide Handed;
    SagaNames();
    SagaOutgoing();
    var four := [START, "rdbms", "graph", "objectstore"];
    assert [START] + g[START] == four && SAGA[0].outgoing == g[START];
    MetFirst([START], g[START]);
    StepOn(g, [START], 0, 6, four);
    assert four + g["rdbms"] == SAGA_MET && SAGA[3].outgoing == g["rdbms"];
    MetFirst(four, g["rdbms"]);
    StepOn(g, four, 1, 6, SAGA_MET);
  }

  lemma SagaForward(g: Graph, k: nat)
    requires SagaLinks(g) && 2 <= k < 5
    ensures OrderAfter(g, SAGA_MET, k, 6, SAGA_MET[..k]) == OrderAfter(g, SAGA_MET, k + 1, 6, SAGA_MET[..k + 1])
  {
    hide OrderAfter;
    hide Met;
    hide Handed;
    SagaNames();
    var o := if k == 2 then "barf" else if k == 3 then "pubsub" else END;
    assert g[SAGA_MET[k]] == [o];
    assert k == 2 ==> SAGA_MET[5] == o;
    assert k == 3 ==> SAGA_MET[4] == o;
    MetBefore(SAGA_MET, [o]);
    StepOn(g, SAGA_MET, k, 6, SAGA_MET);
  }

  // "barf" leads back to "pubsub", which was met before it, and changes places with it.
  lemma SagaOrder(g: Graph)
    requires SagaLinks(g)
    ensures OrderAfter(g, [START], 0, 6, []) == [START, "rdbms", "graph", "objectstore", "barf", "pubsub"]
  {
    hide OrderAfter;
    assert [START][..0] == [];
    SagaMet(g);
    SagaForward(g, 2);
    SagaForward(g, 3);
    SagaForward(g, 4);
    MetBefore(SAGA_MET, ["pubsub"]);
    LastStep(g, SAGA_MET);
  }

  lemma LastStep(g: Graph, all: seq<string>)
    requires all == SAGA_MET && SagaLinks(g)
    requires Met(all, g["barf"]) == all
    ensures OrderAfter(g, all, 5, 6, all[..5]) == [START, "rdbms", "graph", "objectstore", "barf", "pubsub"]
  {
    SagaNames();
    assert all[..5] + ["barf"] == all;
    var changed := [START, "rdbms", "graph", "objectstore", "barf", "pubsub"];
    assert Exchanged(all, "barf", "pubsub") == changed;
    assert Handed(Places("barf", all), ["pubsub"]) == Places("pubsub", changed);
  }

  // What a link leads to comes later in the list.
  lemma RankedHasNoCycle(g: Graph, rank: string -> int, u: string)
    requires forall x, y :: Edge(g, x, y) ==> rank(x) < rank(y)
    ensures !CycleFrom(g, u)
  {
    forall w | IsWalk(g, w) ensures !Repeats(w) {
      forall j, k | 0 <= j < k < |w| ensures rank(w[j]) < rank(w[k]) {
        WalkClimbs(g, rank, w, j, k);
      }
    }
  }

  lemma {:induction false} WalkClimbs(g: Graph, rank: string -> int, w: seq<string>, j: nat, k: nat)
    requires (forall x, y :: Edge(g, x, y) ==> rank(x) < rank(y)) && IsWalk(g, w) && j < k < |w|
    ensures rank(w[j]) < rank(w[k])
    decreases k
  {
    assert Edge(g, w[k - 1], w[k]);
    if j < k - 1 {
      WalkClimbs(g, rank, w, j, k - 1);
    }
  }

  lemma ClosedIsWhole(g: Graph, u: string, v: string)
    requires u in g && (forall x, y :: Edge(g, x, y) ==> y in g) && Reaches(g, u, v)
    ensures v in g
  {
    var w :| WalkFromTo(g, w, u, v);
    if |w| > 1 {
      assert Edge(g, w[|w| - 2], w[|w| - 1]);
    }
  }

  function SagaRank(x: string): int {
    if x == START then 0 else if x == "barf" then 2 else if x == "pubsub" then 3 else if x == END then 4 else 1
  }

  lemma GraphIsDeclared(parts: seq<Part>, x: string)
    requires Open(parts) && x in StoryGraph(parts)
    ensures x == END || exists k :: 0 <= k < |parts| && parts[k].id == x
  {
    hide Prepared;
    PreparedShape(parts);
    var k :| 0 <= k < |Prepared(parts)| && Prepared(parts)[k].id == x;
    if k < |parts| {
      assert parts[k].id == x;
    }
  }

  lemma SagaEdges(x: string, y: string)
    requires Edge(StoryGraph(SAGA), x, y)
    ensures y in StoryGraph(SAGA) && SagaRank(x) < SagaRank(y)
  {
    hide StoryGraph;
    hide Open;
    SagaIsOpen();
    SagaNames();
    SagaGraph();
    GraphIsDeclared(SAGA, x);
  }

  // The repository's own example: the list that End builds.
  lemma SagaIsSorted()
    ensures EndSpec(SAGA).Built?
    ensures PartIdList(EndSpec(SAGA).parts) == [START, "rdbms", "graph", "objectstore", "barf", "pubsub", END]
  {
    hide StoryGraph;
    hide Prepared;
    hide EndSpec;
    hide OrderAfter;
    hide CycleFrom;
    hide LinkMissing;
    hide Open;
    hide Tidy;
    var g := StoryGraph(SAGA);
    SagaIsOpen();
    SagaGraph();
    SagaOrder(g);
    forall x, y | Edge(g, x, y) ensures y in g && SagaRank(x) < SagaRank(y) {
      SagaEdges(x, y);
    }
    RankedHasNoCycle(g, SagaRank, START);
    assert !LinkMissing(SAGA) by { NothingMissing(SAGA); }
    EndDecides(SAGA);
    BuiltByLinks(SAGA);
    assert START in g;
    assert SortedNames(SAGA) == [START, "rdbms", "graph", "objectstore", "barf", "pubsub"];
  }

  lemma NothingMissing(parts: seq<Part>)
    requires START in StoryGraph(parts) && forall x, y :: Edge(StoryGraph(parts), x, y) ==> y in StoryGraph(parts)
    ensures !LinkMissing(parts)
  {
    hide StoryGraph;
    forall v | Reaches(StoryGraph(parts), START, v) ensures v in StoryGraph(parts) {
      ClosedIsWhole(StoryGraph(parts), START, v);
    }
  }
}
