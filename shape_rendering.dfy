/**
 * The scene flattener of src/wireframes/renderer/shape-rendering.ts: a
 * pre-order depth-first walk of the root container into group children that
 * emits only shapes, in paint order, skipping ids with no item.
 */
module ShapeRendering {
  import opened Wrappers
  import opened Diagrams

  /** The shapes of a container in paint order (the recursive `handleContainer`). */
  function Flatten(items: map<Id, Item>, ids: seq<Id>, ghost rank: map<Id, nat>, ghost bound: nat): seq<Item>
    requires Ranked(items, rank) && Below(items, ids, rank, bound)
    decreases bound, |ids|
  {
    if ids == [] then [] else Visit(items, ids[0], rank, bound) + Flatten(items, ids[1..], rank, bound)
  }

  /** What one entry of a container contributes: nothing when missing, itself when a shape, its children's shapes when a group. */
  function Visit(items: map<Id, Item>, id: Id, ghost rank: map<Id, nat>, ghost bound: nat): seq<Item>
    requires Ranked(items, rank) && Below(items, [id], rank, bound)
    decreases bound, 0
  {
    if id !in items then []
    else if items[id].Shape? then [items[id]]
    else ChildrenBelow(items, id, rank); Flatten(items, items[id].childIds, rank, rank[id])
  }

  /** The shapes of a diagram in paint order; none without a diagram. */
  function OrderedShapes(diagram: Option<Diagram>, ghost rank: map<Id, nat>): seq<Item>
    requires diagram.Some? ==> Ranked(diagram.value.items, rank)
  {
    match diagram
    case None => []
    case Some(d) => RootBelow(d.items, d.root, rank); Flatten(d.items, d.root, rank, |d.items|)
  }

  /**
   * `handleContainer` as the source runs it: a loop over the container that
   * pushes shapes onto the shared output and recurses into groups.
   */
  method HandleContainer(items: map<Id, Item>, ids: seq<Id>, ghost rank: map<Id, nat>, ghost bound: nat, flat: seq<Item>)
    returns (out: seq<Item>)
    requires Ranked(items, rank) && Below(items, ids, rank, bound)
    ensures out == flat + Flatten(items, ids, rank, bound)
    decreases bound, |ids|
  {
    out := flat;
    for i := 0 to |ids|
      invariant out == flat + Flatten(items, ids[..i], rank, bound)
    {
      var id := ids[i];
      assert ids[..i + 1] == ids[..i] + [id];
      FlattenAppend(items, ids[..i], [id], rank, bound);
      assert Flatten(items, [id], rank, bound) == Visit(items, id, rank, bound);
      if id in items {
        var item := items[id];
        if item.Shape? {
          out := out + [item];
        }
        if item.Group? {
          ChildrenBelow(items, id, rank);
          out := HandleContainer(items, item.childIds, rank, rank[id], out);
        }
      }
    }
    assert ids[..|ids|] == ids;
  }

  /** `getOrderedShapes`: flattens the diagram's root container, or yields nothing without a diagram. */
  method GetOrderedShapes(diagram: Option<Diagram>, ghost rank: map<Id, nat>) returns (flat: seq<Item>)
    requires diagram.Some? ==> Ranked(diagram.value.items, rank)
    ensures flat == OrderedShapes(diagram, rank)
    ensures diagram.None? ==> flat == []
  {
    flat := [];
    if diagram.Some? {
      var d := diagram.value;
      RootBelow(d.items, d.root, rank);
      flat := HandleContainer(d.items, d.root, rank, |d.items|, flat);
    }
  }

  /** Flattening distributes over concatenation of containers. */
  lemma {:induction false} FlattenAppend(items: map<Id, Item>, a: seq<Id>, b: seq<Id>, rank: map<Id, nat>, bound: nat)
    requires Ranked(items, rank) && Below(items, a, rank, bound) && Below(items, b, rank, bound)
    ensures Below(items, a + b, rank, bound)
    ensures Flatten(items, a + b, rank, bound) == Flatten(items, a, rank, bound) + Flatten(items, b, rank, bound)
    decreases |a|
  {
    if a == [] {
      assert a + b == b;
    } else {
      assert (a + b)[0] == a[0];
      assert (a + b)[1..] == a[1..] + b;
      FlattenAppend(items, a[1..], b, rank, bound);
    }
  }

  /** Every emitted item is a shape stored in the diagram under its own id. */
  lemma {:induction false} FlattenEmitsStoredShapes(items: map<Id, Item>, ids: seq<Id>, rank: map<Id, nat>, bound: nat)
    requires Ranked(items, rank) && Below(items, ids, rank, bound) && Keyed(items)
    ensures forall item :: item in Flatten(items, ids, rank, bound) ==>
              item.Shape? && item.id in items && items[item.id] == item
    decreases bound, |ids|
  {
    if ids != [] {
      var id := ids[0];
      if id in items && items[id].Group? {
        ChildrenBelow(items, id, rank);
        FlattenEmitsStoredShapes(items, items[id].childIds, rank, rank[id]);
      }
      FlattenEmitsStoredShapes(items, ids[1..], rank, bound);
    }
  }

  /** An id with no item contributes nothing and does not disturb its neighbours. */
  lemma MissingIdSkipped(items: map<Id, Item>, before: seq<Id>, id: Id, after: seq<Id>, rank: map<Id, nat>, bound: nat)
    requires Ranked(items, rank) && Below(items, before + after, rank, bound) && id !in items
    ensures Below(items, before + [id] + after, rank, bound)
    ensures Flatten(items, before + [id] + after, rank, bound) == Flatten(items, before + after, rank, bound)
  {
    assert Below(items, before, rank, bound) && Below(items, after, rank, bound);
    FlattenAppend(items, before, [id], rank, bound);
    FlattenAppend(items, before + [id], after, rank, bound);
    FlattenAppend(items, before, after, rank, bound);
  }

  /** A group's shapes appear contiguously at the group's own position, in child order. */
  lemma GroupFlattenedInPlace(items: map<Id, Item>, before: seq<Id>, g: Id, after: seq<Id>, rank: map<Id, nat>, bound: nat)
    requires Ranked(items, rank) && Below(items, before + [g] + after, rank, bound)
    requires g in items && items[g].Group?
    ensures g in rank && Below(items, items[g].childIds, rank, rank[g])
    ensures Flatten(items, before + [g] + after, rank, bound)
         == Flatten(items, before, rank, bound) + Flatten(items, items[g].childIds, rank, rank[g]) + Flatten(items, after, rank, bound)
  {
    ChildrenBelow(items, g, rank);
    assert Below(items, before, rank, bound) && Below(items, [g], rank, bound) && Below(items, after, rank, bound);
    FlattenAppend(items, before, [g], rank, bound);
    FlattenAppend(items, before + [g], after, rank, bound);
    assert Flatten(items, [g], rank, bound) == Visit(items, g, rank, bound);
  }

  /** A container holding only shapes is returned item for item, in order. */
  lemma {:induction false} FlatContainerUnchanged(items: map<Id, Item>, ids: seq<Id>, rank: map<Id, nat>, bound: nat)
    requires Ranked(items, rank) && Below(items, ids, rank, bound)
    requires forall id :: id in ids ==> id in items && items[id].Shape?
    ensures |Flatten(items, ids, rank, bound)| == |ids|
    ensures forall k :: 0 <= k < |ids| ==> Flatten(items, ids, rank, bound)[k] == items[ids[k]]
  {
    if ids != [] {
      FlatContainerUnchanged(items, ids[1..], rank, bound);
    }
  }

  /** With items stored under their ids, the emitted ids are the shape ids of the pre-order reachable walk. */
  lemma {:induction false} FlattenFollowsReached(items: map<Id, Item>, ids: seq<Id>, rank: map<Id, nat>, bound: nat)
    requires Ranked(items, rank) && Below(items, ids, rank, bound) && Keyed(items)
    ensures IdsOf(Flatten(items, ids, rank, bound)) == ShapeIdsAmong(items, Reached(items, ids, rank, bound))
    decreases bound, |ids|
  {
    if ids != [] {
      VisitFollowsReached(items, ids[0], rank, bound);
      FlattenFollowsReached(items, ids[1..], rank, bound);
      IdsOfAppend(Visit(items, ids[0], rank, bound), Flatten(items, ids[1..], rank, bound));
      ShapeIdsAmongAppend(items, ReachedFrom(items, ids[0], rank, bound), Reached(items, ids[1..], rank, bound));
    }
  }

  /** One entry's emitted ids are the shape ids of what it reaches. */
  lemma {:induction false} VisitFollowsReached(items: map<Id, Item>, id: Id, rank: map<Id, nat>, bound: nat)
    requires Ranked(items, rank) && Below(items, [id], rank, bound) && Keyed(items)
    ensures IdsOf(Visit(items, id, rank, bound)) == ShapeIdsAmong(items, ReachedFrom(items, id, rank, bound))
    decreases bound, 0
  {
    if id in items {
      if items[id].Shape? {
        assert [id][1..] == [];
      } else {
        ChildrenBelow(items, id, rank);
        var inner := Reached(items, items[id].childIds, rank, rank[id]);
        FlattenFollowsReached(items, items[id].childIds, rank, rank[id]);
        ShapeIdsAmongAppend(items, [id], inner);
        assert [id][1..] == [];
      }
    }
  }

  lemma IdsOfAppend(a: seq<Item>, b: seq<Item>)
    ensures IdsOf(a + b) == IdsOf(a) + IdsOf(b)
  {
  }

  /** A reachable tree without repeated ids flattens to shapes with pairwise distinct ids. */
  lemma OrderedShapesDistinct(d: Diagram, rank: map<Id, nat>)
    requires Ranked(d.items, rank) && Keyed(d.items)
    requires Distinct(Reached(d.items, d.root, rank, |d.items|))
    ensures Distinct(IdsOf(OrderedShapes(Some(d), rank)))
  {
    FlattenFollowsReached(d.items, d.root, rank, |d.items|);
    ShapeIdsAmongDistinct(d.items, Reached(d.items, d.root, rank, |d.items|));
  }

  /** The renderer's view of a well-formed diagram: stored shapes with pairwise distinct ids. */
  lemma OrderedShapesOfWellFormed(diagram: Option<Diagram>, rank: map<Id, nat>)
    requires diagram.Some? ==> WellFormed(diagram.value, rank)
    ensures Distinct(IdsOf(OrderedShapes(diagram, rank)))
    ensures forall s :: s in OrderedShapes(diagram, rank) ==> s.Shape?
  {
    if diagram.Some? {
      var d := diagram.value;
      OrderedShapesDistinct(d, rank);
      FlattenEmitsStoredShapes(d.items, d.root, rank, |d.items|);
    }
  }

  /** The worked example: root [A, G[B, C], D], with A, B, C, D shapes, paints A, B, C, D. */
  lemma PreOrderExample(items: map<Id, Item>, rank: map<Id, nat>, a: Id, g: Id, b: Id, c: Id, d: Id)
    requires Ranked(items, rank)
    requires a in items && b in items && c in items && d in items && g in items
    requires items[a].Shape? && items[b].Shape? && items[c].Shape? && items[d].Shape?
    requires items[g].Group? && items[g].childIds == [b, c]
    ensures OrderedShapes(Some(Diagram("d", items, [a, g, d])), rank) == [items[a], items[b], items[c], items[d]]
  {
    ChildrenBelow(items, g, rank);
    FlatContainerUnchanged(items, [b, c], rank, rank[g]);
    assert Flatten(items, [b, c], rank, rank[g]) == [items[b], items[c]];
    FlatContainerUnchanged(items, [a], rank, |items|);
    FlatContainerUnchanged(items, [d], rank, |items|);
    assert [a] + [g] + [d] == [a, g, d];
    GroupFlattenedInPlace(items, [a], g, [d], rank, |items|);
  }
}
