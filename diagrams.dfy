/**
 * The diagram scene model the renderer works on: transforms, items (shapes
 * and groups), diagrams and the editor state holding them. The model classes
 * themselves live outside the modelled core; only what the renderer and the
 * reducers rely on is captured here.
 */
module Diagrams {
  import opened Wrappers

  type Id = string
  type RendererId = string

  datatype Vec2 = Vec2(x: real, y: real)
  datatype Rotation = Rotation(degree: real)

  /** Position is the centre of the item; size is its width and height. */
  datatype Transform = Transform(position: Vec2, size: Vec2, rotation: Rotation)

  /** An appearance value (the source stores arbitrary JavaScript values). */
  datatype Value = Text(text: string) | Number(number: real) | Flag(flag: bool)

  type Appearance = map<string, Value>

  datatype Item =
    | Shape(id: Id, renderer: RendererId, transform: Transform, appearance: Appearance, opacity: real)
    | Group(id: Id, transform: Transform, childIds: seq<Id>)

  datatype Diagram = Diagram(id: Id, items: map<Id, Item>, root: seq<Id>)

  datatype EditorState = EditorState(diagrams: map<Id, Diagram>)

  /** Every item is stored under its own id. */
  ghost predicate Keyed(items: map<Id, Item>) {
    forall id :: id in items ==> items[id].id == id
  }

  /**
   * The group structure is acyclic, witnessed by a rank: every item has a
   * rank below the number of items, and a child that exists ranks strictly
   * below its group.
   */
  ghost predicate Ranked(items: map<Id, Item>, rank: map<Id, nat>) {
    && (forall id :: id in items ==> id in rank && rank[id] < |items|)
    && (forall id, c :: id in items && items[id].Group? && c in items[id].childIds && c in items ==>
          c in rank && rank[c] < rank[id])
  }

  /** Every listed id that exists ranks below `bound`. */
  ghost predicate Below(items: map<Id, Item>, ids: seq<Id>, rank: map<Id, nat>, bound: nat) {
    forall id :: id in ids && id in items ==> id in rank && rank[id] < bound
  }

  lemma RootBelow(items: map<Id, Item>, ids: seq<Id>, rank: map<Id, nat>)
    requires Ranked(items, rank)
    ensures Below(items, ids, rank, |items|)
  {
  }

  lemma ChildrenBelow(items: map<Id, Item>, id: Id, rank: map<Id, nat>)
    requires Ranked(items, rank) && id in items && items[id].Group?
    ensures id in rank && Below(items, items[id].childIds, rank, rank[id])
  {
  }

  predicate Distinct(s: seq<Id>) {
    forall i, j :: 0 <= i < j < |s| ==> s[i] != s[j]
  }

  function IdsOf(items: seq<Item>): seq<Id> {
    seq(|items|, k requires 0 <= k < |items| => items[k].id)
  }

  /**
   * The ids reachable from `ids`, in pre-order: each existing id, then (for a
   * group) everything reachable from its children. Missing ids are skipped.
   */
  function Reached(items: map<Id, Item>, ids: seq<Id>, ghost rank: map<Id, nat>, ghost bound: nat): (r: seq<Id>)
    requires Ranked(items, rank) && Below(items, ids, rank, bound)
    ensures forall id :: id in r ==> id in items
    decreases bound, |ids|
  {
    if ids == [] then [] else ReachedFrom(items, ids[0], rank, bound) + Reached(items, ids[1..], rank, bound)
  }

  /** What one entry contributes to `Reached`: nothing when missing, itself, and for a group what its children reach. */
  function ReachedFrom(items: map<Id, Item>, id: Id, ghost rank: map<Id, nat>, ghost bound: nat): (r: seq<Id>)
    requires Ranked(items, rank) && Below(items, [id], rank, bound)
    ensures forall x :: x in r ==> x in items
    decreases bound, 0
  {
    if id !in items then []
    else if items[id].Shape? then [id]
    else ChildrenBelow(items, id, rank); [id] + Reached(items, items[id].childIds, rank, rank[id])
  }

  /**
   * The diagram invariant: acyclic, every item stored under its own id, and
   * no id reached twice from the root.
   */
  ghost predicate WellFormed(d: Diagram, rank: map<Id, nat>) {
    && Ranked(d.items, rank)
    && Keyed(d.items)
    && Distinct(Reached(d.items, d.root, rank, |d.items|))
  }

  /** The shape ids among `s`, in order. */
  function ShapeIdsAmong(items: map<Id, Item>, s: seq<Id>): (r: seq<Id>)
    ensures forall id :: id in r ==> id in s && id in items && items[id].Shape?
  {
    if s == [] then []
    else (if s[0] in items && items[s[0]].Shape? then [s[0]] else []) + ShapeIdsAmong(items, s[1..])
  }

  lemma {:induction false} ShapeIdsAmongAppend(items: map<Id, Item>, a: seq<Id>, b: seq<Id>)
    ensures ShapeIdsAmong(items, a + b) == ShapeIdsAmong(items, a) + ShapeIdsAmong(items, b)
  {
    if a == [] {
      assert a + b == b;
    } else {
      assert (a + b)[1..] == a[1..] + b;
      ShapeIdsAmongAppend(items, a[1..], b);
    }
  }

  /** Filtering keeps a list free of duplicates. */
  lemma {:induction false} ShapeIdsAmongDistinct(items: map<Id, Item>, s: seq<Id>)
    requires Distinct(s)
    ensures Distinct(ShapeIdsAmong(items, s))
  {
    if s != [] {
      assert Distinct(s[1..]);
      ShapeIdsAmongDistinct(items, s[1..]);
    }
  }
}
