/**
 * The incremental reconciler shared by src/wireframes/renderer/RenderLayer.tsx
 * and src/wireframes/renderer/Editor.tsx: a persistent table from shape id to
 * a retained drawing handle (a ShapeRef), diffed against the flattened paint
 * order on every pass in a fixed sequence: remove stale refs, create missing
 * refs, check every index, detach everything if any index moved, draw every
 * shape in paint order.
 */
module Reconciler {
  import opened Wrappers
  import opened Diagrams
  import opened Plugins

  /** What a pass does to the drawing surface and its caller, in order. */
  datatype Event =
    | Removed(id: Id)
    | Created(id: Id)
    | Detached(id: Id)
    | Drawn(id: Id, index: nat)
    | Completed

  /**
   * A retained drawing handle. `handle` identifies the allocation (two refs
   * are the same object exactly when their handles agree); `plugin` is the
   * renderer the ref was created with, none when the renderer id was not
   * registered; `attached` says whether its node is on the surface;
   * `lastIndex` is the paint position recorded by the last index check;
   * `current` is the last shape drawn and `preview` the preview override.
   */
  datatype ShapeRef = ShapeRef(
    handle: nat,
    plugin: Option<ShapePlugin>,
    attached: bool,
    lastIndex: int,
    current: Option<Item>,
    preview: Option<Item>)

  /** A new ref: detached, no recorded position, nothing drawn, no preview. */
  function NewRef(handle: nat, plugin: Option<ShapePlugin>): ShapeRef {
    ShapeRef(handle, plugin, false, -1, None, None)
  }

  /** `ShapeRef.render`: only a ref with a plugin draws and attaches its node. */
  function Draw(r: ShapeRef, shape: Item): ShapeRef {
    if r.plugin.Some? then r.(attached := true, current := Some(shape)) else r
  }

  /** A ref after the index check recorded position `k` and a re-link detached it or not. */
  function Checked(r: ShapeRef, k: nat, relink: bool): ShapeRef {
    r.(lastIndex := k, attached := r.attached && !relink)
  }

  /** The ids of a list of shapes. */
  function IdSet(ordered: seq<Item>): set<Id> {
    if ordered == [] then {} else IdSet(ordered[..|ordered| - 1]) + {ordered[|ordered| - 1].id}
  }

  /** An id is in `IdSet(ordered)` exactly when some position holds it. */
  lemma {:induction false} IdSetAt(ordered: seq<Item>)
    ensures forall k :: 0 <= k < |ordered| ==> ordered[k].id in IdSet(ordered)
    ensures forall id :: id in IdSet(ordered) ==> exists k :: 0 <= k < |ordered| && ordered[k].id == id
  {
    if ordered != [] {
      var init := ordered[..|ordered| - 1];
      IdSetAt(init);
      assert forall k :: 0 <= k < |init| ==> init[k] == ordered[k];
    }
  }

  predicate AllShapes(ordered: seq<Item>) {
    forall s :: s in ordered ==> s.Shape?
  }

  function Elems(s: seq<Id>): set<Id> {
    set id | id in s
  }

  /** No two shapes share an id. */
  predicate UniqueIds(ordered: seq<Item>) {
    forall i, j :: 0 <= i < |ordered| && 0 <= j < |ordered| && i != j ==> ordered[i].id != ordered[j].id
  }

  lemma UniqueIdsOf(ordered: seq<Item>)
    requires Distinct(IdsOf(ordered))
    ensures UniqueIds(ordered)
  {
    forall i, j | 0 <= i < |ordered| && 0 <= j < |ordered| && i != j ensures ordered[i].id != ordered[j].id {
      if i < j {
        assert IdsOf(ordered)[i] != IdsOf(ordered)[j];
      } else {
        assert IdsOf(ordered)[j] != IdsOf(ordered)[i];
      }
    }
  }

  lemma AppendNew(s: seq<Id>, x: Id)
    requires Distinct(s) && x !in Elems(s)
    ensures Distinct(s + [x]) && Elems(s + [x]) == Elems(s) + {x}
  {
  }

  lemma NoElems(s: seq<Id>)
    ensures Elems(s) == {} <==> s == []
  {
    if s != [] {
      assert s[0] in Elems(s);
    }
  }

  /** Some shape is not at the position its ref recorded (a shape without a ref counts as moved). */
  predicate Mismatch(indices: map<Id, int>, ordered: seq<Item>) {
    exists k :: 0 <= k < |ordered| && (ordered[k].id !in indices || indices[ordered[k].id] != k)
  }

  /** The recorded positions are exactly the paint order. */
  predicate Settled(indices: map<Id, int>, ordered: seq<Item>) {
    && indices.Keys == IdSet(ordered)
    && forall k :: 0 <= k < |ordered| ==> ordered[k].id in indices && indices[ordered[k].id] == k
  }

  /**
   * Dropping the last shapes keeps every remaining position, so no re-link;
   * dropping any other shape shifts its successor, which forces one.
   */
  lemma {:induction false} RemovalRelinksUnlessLast(indices: map<Id, int>, ordered: seq<Item>, j: nat)
    requires Settled(indices, ordered) && UniqueIds(ordered) && j < |ordered|
    ensures !Mismatch(indices, ordered[..j])
    ensures Mismatch(indices, ordered[..j] + ordered[j + 1..]) <==> j < |ordered| - 1
  {
    var after := ordered[..j] + ordered[j + 1..];
    if j < |ordered| - 1 {
      assert after[j] == ordered[j + 1];
    } else {
      assert after == ordered[..j];
    }
  }

  /** Swapping two shapes of a settled table forces a re-link. */
  lemma {:induction false} SwapForcesRelink(indices: map<Id, int>, ordered: seq<Item>, i: nat, j: nat)
    requires Settled(indices, ordered) && UniqueIds(ordered) && i < j < |ordered|
    ensures Mismatch(indices, ordered[i := ordered[j]][j := ordered[i]])
  {
    assert ordered[i := ordered[j]][j := ordered[i]][i] == ordered[j];
  }

  /** A shape without a recorded position (a new shape) forces a re-link, wherever it is painted. */
  lemma {:induction false} NewShapeForcesRelink(indices: map<Id, int>, ordered: seq<Item>, shape: Item, at: nat)
    requires at <= |ordered| && shape.id !in indices
    ensures Mismatch(indices, ordered[..at] + [shape] + ordered[at..])
  {
    assert (ordered[..at] + [shape] + ordered[at..])[at] == shape;
  }

  /** The ids of `ordered`, in order, that have no ref yet. */
  function Missing(ordered: seq<Item>, present: set<Id>): (r: seq<Id>)
    ensures forall id :: id in r ==> id !in present && id in IdSet(ordered)
  {
    if ordered == [] then []
    else
      var last := ordered[|ordered| - 1];
      Missing(ordered[..|ordered| - 1], present) + (if last.id in present then [] else [last.id])
  }

  /** Once every id has a ref, none is missing. */
  lemma {:induction false} NoneMissing(ordered: seq<Item>, present: set<Id>)
    requires IdSet(ordered) <= present
    ensures Missing(ordered, present) == []
  {
    if ordered != [] {
      var init := ordered[..|ordered| - 1];
      assert IdSet(init) <= IdSet(ordered);
      NoneMissing(init, present);
    }
  }

  /** Only the ids of `ordered` matter to `Missing`. */
  lemma {:induction false} MissingWithin(ordered: seq<Item>, present: set<Id>, within: set<Id>)
    requires IdSet(ordered) <= within
    ensures Missing(ordered, present * within) == Missing(ordered, present)
  {
    if ordered != [] {
      MissingWithin(ordered[..|ordered| - 1], present, within);
    }
  }

  /** Extending a prefix of a list of shapes with unique ids by its next shape. */
  lemma PrefixStep(ordered: seq<Item>, i: nat, present: set<Id>)
    requires i < |ordered| && UniqueIds(ordered)
    ensures IdSet(ordered[..i + 1]) == IdSet(ordered[..i]) + {ordered[i].id}
    ensures ordered[i].id !in IdSet(ordered[..i])
    ensures ordered[i].id in present ==> Missing(ordered[..i + 1], present) == Missing(ordered[..i], present)
    ensures ordered[i].id !in present ==> Missing(ordered[..i + 1], present) == Missing(ordered[..i], present) + [ordered[i].id]
  {
    assert ordered[..i + 1][..i] == ordered[..i];
    IdSetAt(ordered[..i]);
    forall k | 0 <= k < i ensures ordered[..i][k].id != ordered[i].id {
    }
  }

  function Removals(ids: seq<Id>): seq<Event> {
    seq(|ids|, k requires 0 <= k < |ids| => Removed(ids[k]))
  }

  function Creations(ids: seq<Id>): seq<Event> {
    seq(|ids|, k requires 0 <= k < |ids| => Created(ids[k]))
  }

  lemma CreationsSnoc(ids: seq<Id>, id: Id)
    ensures Creations(ids + [id]) == Creations(ids) + [Created(id)]
  {
  }

  function Detachments(ids: seq<Id>): seq<Event> {
    seq(|ids|, k requires 0 <= k < |ids| => Detached(ids[k]))
  }

  /** The draw events for the first `n` shapes. */
  function Draws(ordered: seq<Item>, n: nat): seq<Event>
    requires n <= |ordered|
  {
    seq(n, k requires 0 <= k < n => Drawn(ordered[k].id, k))
  }

  /**
   * The preview a ref shows after `items` were offered in order, starting
   * from `initial`: the last item carrying `id` wins; without one the
   * preview is left as it was.
   */
  function PreviewAfter(items: seq<Item>, id: Id, initial: Option<Item>): Option<Item> {
    if items == [] then initial
    else if items[|items| - 1].id == id then Some(items[|items| - 1])
    else PreviewAfter(items[..|items| - 1], id, initial)
  }

  /** Items for other shapes leave the preview as it was. */
  lemma {:induction false} PreviewUntouched(items: seq<Item>, id: Id, initial: Option<Item>)
    requires forall k :: 0 <= k < |items| ==> items[k].id != id
    ensures PreviewAfter(items, id, initial) == initial
  {
    if items != [] {
      PreviewUntouched(items[..|items| - 1], id, initial);
    }
  }

  /** The last item offered for a shape is the one it previews. */
  lemma {:induction false} PreviewLastWins(items: seq<Item>, id: Id, initial: Option<Item>, k: nat)
    requires k < |items| && items[k].id == id
    requires forall j :: k < j < |items| ==> items[j].id != id
    ensures PreviewAfter(items, id, initial) == Some(items[k])
  {
    if k < |items| - 1 {
      PreviewLastWins(items[..|items| - 1], id, initial, k);
    }
  }

  /** New refs carry no recorded position, so creating them does not change which shapes count as moved. */
  lemma MismatchAfterCreation(before: map<Id, int>, after: map<Id, int>, ordered: seq<Item>)
    requires forall k :: 0 <= k < |ordered| ==> ordered[k].id in after
    requires forall k :: 0 <= k < |ordered| && ordered[k].id in before ==> after[ordered[k].id] == before[ordered[k].id]
    requires forall k :: 0 <= k < |ordered| && ordered[k].id !in before ==> after[ordered[k].id] < 0
    ensures Mismatch(after, ordered) == Mismatch(before, ordered)
  {
  }

  /**
   * Distinct ids own distinct refs, every handle was handed out, and a ref
   * that cannot draw is never attached.
   */
  ghost predicate ValidRefs(refs: map<Id, ShapeRef>, handles: nat) {
    && (forall id :: id in refs ==> refs[id].handle < handles && (refs[id].plugin.None? ==> !refs[id].attached))
    && (forall a, b :: a in refs && b in refs && a != b ==> refs[a].handle != refs[b].handle)
  }

  /** `b` is `a` after a step that keeps its identity and plugin and attaches it only if it can draw. */
  ghost predicate Evolves(a: ShapeRef, b: ShapeRef) {
    b.handle == a.handle && b.plugin == a.plugin && (b.attached ==> a.attached || b.plugin.Some?)
  }

  lemma EvolvedValid(before: map<Id, ShapeRef>, after: map<Id, ShapeRef>, handles: nat)
    requires ValidRefs(before, handles) && after.Keys == before.Keys
    requires forall id :: id in after ==> Evolves(before[id], after[id])
    ensures ValidRefs(after, handles)
  {
  }

  lemma AddedValid(refs: map<Id, ShapeRef>, handles: nat, id: Id, plugin: Option<ShapePlugin>)
    requires ValidRefs(refs, handles) && id !in refs
    ensures ValidRefs(refs[id := NewRef(handles, plugin)], handles + 1)
  {
  }

  lemma KeptValid(before: map<Id, ShapeRef>, after: map<Id, ShapeRef>, handles: nat)
    requires ValidRefs(before, handles) && after.Keys <= before.Keys
    requires forall id :: id in after ==> after[id] == before[id]
    ensures ValidRefs(after, handles)
  {
  }

  /**
   * The creation loop after its first `i` shapes, started from `refs0`,
   * `handles0` and `trace0`.
   */
  ghost predicate CreatedUpTo(ordered: seq<Item>, i: nat, registry: Registry,
                              refs0: map<Id, ShapeRef>, handles0: nat, trace0: seq<Event>,
                              refs: map<Id, ShapeRef>, handles: nat, trace: seq<Event>)
    requires i <= |ordered| && AllShapes(ordered)
  {
    && ValidRefs(refs, handles) && handles0 <= handles
    && refs.Keys == refs0.Keys + IdSet(ordered[..i])
    && (forall k :: 0 <= k < i ==> ordered[k].id in refs)
    && (forall id :: id in refs0 ==> refs[id] == refs0[id])
    && (forall k :: 0 <= k < i && ordered[k].id !in refs0 ==>
          var r := refs[ordered[k].id];
          handles0 <= r.handle && r == NewRef(r.handle, Lookup(registry, ordered[k].renderer)))
    && trace == trace0 + Creations(Missing(ordered[..i], refs0.Keys))
  }

  /** A shape without a ref gets a new one. */
  lemma CreateStep(ordered: seq<Item>, i: nat, registry: Registry,
                   refs0: map<Id, ShapeRef>, handles0: nat, trace0: seq<Event>,
                   refs: map<Id, ShapeRef>, handles: nat, trace: seq<Event>)
    requires i < |ordered| && AllShapes(ordered) && UniqueIds(ordered) && ordered[i].id !in refs
    requires CreatedUpTo(ordered, i, registry, refs0, handles0, trace0, refs, handles, trace)
    ensures CreatedUpTo(ordered, i + 1, registry, refs0, handles0, trace0,
                        refs[ordered[i].id := NewRef(handles, Lookup(registry, ordered[i].renderer))],
                        handles + 1, trace + [Created(ordered[i].id)])
  {
    PrefixStep(ordered, i, refs0.Keys);
    CreationsSnoc(Missing(ordered[..i], refs0.Keys), ordered[i].id);
    AddedValid(refs, handles, ordered[i].id, Lookup(registry, ordered[i].renderer));
  }

  /** A shape that already has a ref keeps it. */
  lemma KeepStep(ordered: seq<Item>, i: nat, registry: Registry,
                 refs0: map<Id, ShapeRef>, handles0: nat, trace0: seq<Event>,
                 refs: map<Id, ShapeRef>, handles: nat, trace: seq<Event>)
    requires i < |ordered| && AllShapes(ordered) && UniqueIds(ordered) && ordered[i].id in refs
    requires CreatedUpTo(ordered, i, registry, refs0, handles0, trace0, refs, handles, trace)
    ensures CreatedUpTo(ordered, i + 1, registry, refs0, handles0, trace0, refs, handles, trace)
  {
    PrefixStep(ordered, i, refs0.Keys);
  }

  /** The index-check loop after its first `i` shapes, started from `refs0`. */
  ghost predicate CheckedUpTo(ordered: seq<Item>, i: nat, refs0: map<Id, ShapeRef>, refs: map<Id, ShapeRef>, changed: bool)
    requires i <= |ordered|
  {
    && refs.Keys == refs0.Keys
    && (forall k :: 0 <= k < |ordered| ==> ordered[k].id in refs)
    && (forall id :: id in refs ==> refs[id].(lastIndex := 0) == refs0[id].(lastIndex := 0))
    && (forall id :: id in refs && id !in IdSet(ordered) ==> refs[id] == refs0[id])
    && (forall k :: 0 <= k < i ==> refs[ordered[k].id].lastIndex == k)
    && (forall k :: i <= k < |ordered| ==> refs[ordered[k].id].lastIndex == refs0[ordered[k].id].lastIndex)
    && (changed <==> exists k :: 0 <= k < i && refs0[ordered[k].id].lastIndex != k)
  }

  /** Recording the position of shape `i` and noting whether it moved. */
  lemma CheckStep(ordered: seq<Item>, i: nat, refs0: map<Id, ShapeRef>, refs: map<Id, ShapeRef>, changed: bool)
    requires i < |ordered| && UniqueIds(ordered) && CheckedUpTo(ordered, i, refs0, refs, changed)
    ensures CheckedUpTo(ordered, i + 1, refs0, refs[ordered[i].id := refs[ordered[i].id].(lastIndex := i)],
                        changed || refs[ordered[i].id].lastIndex != i)
  {
    IdSetAt(ordered);
  }

  /** The drawing loop has drawn shapes `0..i` and touched no other ref. */
  ghost predicate DrawnUpTo(ordered: seq<Item>, i: nat, refs0: map<Id, ShapeRef>, refs: map<Id, ShapeRef>)
    requires i <= |ordered|
  {
    && refs.Keys == refs0.Keys
    && (forall k :: 0 <= k < |ordered| ==> ordered[k].id in refs)
    && (forall id :: id in refs ==> Evolves(refs0[id], refs[id]) && refs[id].lastIndex == refs0[id].lastIndex)
    && (forall id :: id in refs && id !in IdSet(ordered) ==> refs[id] == refs0[id])
    && (forall k :: 0 <= k < i ==> refs[ordered[k].id] == Draw(refs0[ordered[k].id], ordered[k]))
    && (forall k :: i <= k < |ordered| ==> refs[ordered[k].id] == refs0[ordered[k].id])
  }

  /** Drawing shape `i` by its ref. */
  lemma DrawStep(ordered: seq<Item>, i: nat, refs0: map<Id, ShapeRef>, refs: map<Id, ShapeRef>)
    requires i < |ordered| && UniqueIds(ordered) && DrawnUpTo(ordered, i, refs0, refs)
    ensures DrawnUpTo(ordered, i + 1, refs0, refs[ordered[i].id := Draw(refs[ordered[i].id], ordered[i])])
  {
    IdSetAt(ordered);
  }

  /** The recorded paint position of every ref. */
  ghost function IndicesOf(refs: map<Id, ShapeRef>): map<Id, int> {
    map id | id in refs :: refs[id].lastIndex
  }

  /**
   * Index check (`r0` to `r1`), full detach when `relinked` (`r1` to `r2`)
   * and drawing (`r2` to `r3`) compose to: every shape's ref records its
   * position, loses its attachment when re-linking, and is drawn again.
   */
  lemma RelinkEffect(ordered: seq<Item>, relinked: bool, r0: map<Id, ShapeRef>, r1: map<Id, ShapeRef>,
                     r2: map<Id, ShapeRef>, r3: map<Id, ShapeRef>)
    requires UniqueIds(ordered) && r0.Keys == IdSet(ordered)
    requires forall k :: 0 <= k < |ordered| ==> ordered[k].id in r0
    requires r1.Keys == r0.Keys && r2.Keys == r1.Keys && r3.Keys == r2.Keys
    requires forall k :: 0 <= k < |ordered| ==> r1[ordered[k].id] == r0[ordered[k].id].(lastIndex := k)
    requires relinked ==> forall id :: id in r2 ==> r2[id] == r1[id].(attached := false)
    requires !relinked ==> r2 == r1
    requires forall k :: 0 <= k < |ordered| ==> r3[ordered[k].id] == Draw(r2[ordered[k].id], ordered[k])
    ensures forall k :: 0 <= k < |ordered| ==> r3[ordered[k].id] == Draw(Checked(r0[ordered[k].id], k, relinked), ordered[k])
    ensures Settled(IndicesOf(r3), ordered)
  {
    forall k | 0 <= k < |ordered|
      ensures r3[ordered[k].id] == Draw(Checked(r0[ordered[k].id], k, relinked), ordered[k])
    {
      assert r2[ordered[k].id] == Checked(r0[ordered[k].id], k, relinked);
    }
  }

  /**
   * Removal (`r0` to `r1`) then creation (`r1` to `r2`) leave exactly one
   * ref per shape: the old one when the shape had one, a new one otherwise.
   */
  lemma PrepareEffect(ordered: seq<Item>, registry: Registry, handles0: nat,
                      r0: map<Id, ShapeRef>, r1: map<Id, ShapeRef>, r2: map<Id, ShapeRef>)
    requires AllShapes(ordered)
    requires r1.Keys == r0.Keys * IdSet(ordered) && forall id :: id in r1 ==> r1[id] == r0[id]
    requires r2.Keys == r1.Keys + IdSet(ordered)
    requires forall k :: 0 <= k < |ordered| ==> ordered[k].id in r2
    requires forall id :: id in r1 ==> r2[id] == r1[id]
    requires forall k :: 0 <= k < |ordered| && ordered[k].id !in r1 ==>
               var r := r2[ordered[k].id];
               handles0 <= r.handle && r == NewRef(r.handle, Lookup(registry, ordered[k].renderer))
    ensures r2.Keys == IdSet(ordered)
    ensures forall id :: id in r0 && id in r2 ==> r2[id] == r0[id]
    ensures forall k :: 0 <= k < |ordered| && ordered[k].id !in r0 ==>
              var r := r2[ordered[k].id];
              handles0 <= r.handle && r == NewRef(r.handle, Lookup(registry, ordered[k].renderer))
    ensures Mismatch(IndicesOf(r2), ordered) == Mismatch(IndicesOf(r0), ordered)
  {
    MismatchAfterCreation(IndicesOf(r0), IndicesOf(r2), ordered);
  }

  /** Preparation (`r0` to `r1`) then re-linking (`r1` to `r2`): the whole pass per shape. */
  lemma PassEffect(ordered: seq<Item>, registry: Registry, handles0: nat, relinked: bool,
                   r0: map<Id, ShapeRef>, r1: map<Id, ShapeRef>, r2: map<Id, ShapeRef>)
    requires AllShapes(ordered) && r1.Keys == IdSet(ordered) && r2.Keys == r1.Keys
    requires forall k :: 0 <= k < |ordered| ==> ordered[k].id in r1
    requires forall id :: id in r0 && id in r1 ==> r1[id] == r0[id]
    requires forall k :: 0 <= k < |ordered| && ordered[k].id !in r0 ==>
               var r := r1[ordered[k].id];
               handles0 <= r.handle && r == NewRef(r.handle, Lookup(registry, ordered[k].renderer))
    requires forall k :: 0 <= k < |ordered| ==> r2[ordered[k].id] == Draw(Checked(r1[ordered[k].id], k, relinked), ordered[k])
    ensures forall k :: 0 <= k < |ordered| && ordered[k].id in r0 ==>
              r2[ordered[k].id] == Draw(Checked(r0[ordered[k].id], k, relinked), ordered[k])
    ensures forall k :: 0 <= k < |ordered| && ordered[k].id !in r0 ==>
              var r := r2[ordered[k].id];
              && handles0 <= r.handle
              && r == Draw(Checked(NewRef(r.handle, Lookup(registry, ordered[k].renderer)), k, relinked), ordered[k])
    ensures forall k :: 0 <= k < |ordered| && r2[ordered[k].id].plugin.Some? ==>
              r2[ordered[k].id].attached && r2[ordered[k].id].current == Some(ordered[k])
  {
  }

  /** A pass that starts settled on its paint order removes, creates and detaches nothing. */
  lemma SettledPassEffect(ordered: seq<Item>, r0: map<Id, ShapeRef>, relinked: bool, removed: seq<Id>, detached: seq<Id>)
    requires relinked == Mismatch(IndicesOf(r0), ordered)
    requires Elems(removed) == r0.Keys - IdSet(ordered)
    requires Elems(detached) == (if relinked then IdSet(ordered) else {})
    ensures Settled(IndicesOf(r0), ordered) ==>
              && !relinked && r0.Keys == IdSet(ordered)
              && removed == [] && Missing(ordered, r0.Keys) == [] && detached == []
  {
    if Settled(IndicesOf(r0), ordered) {
      NoElems(removed);
      NoneMissing(ordered, r0.Keys);
      NoElems(detached);
    }
  }

  /** The table of retained refs (`shapeRefsById`). */
  class RefTable {
    var refs: map<Id, ShapeRef>
    /** The number of handles handed out so far: every new ref gets a handle no other ref ever had. */
    var handles: nat
    ghost var trace: seq<Event>

    ghost predicate Valid()
      reads this
    {
      ValidRefs(refs, handles)
    }

    /** The recorded paint position of every ref. */
    ghost function Indices(): map<Id, int>
      reads this
    {
      IndicesOf(refs)
    }

    constructor ()
      ensures Valid() && refs == map[] && trace == []
    {
      refs := map[];
      handles := 0;
      trace := [];
    }

    /** Removal: every ref whose id is not kept is detached and dropped. */
    method RemoveStale(keep: set<Id>) returns (ghost removed: seq<Id>)
      requires Valid()
      modifies this
      ensures Valid() && handles == old(handles)
      ensures refs.Keys == old(refs.Keys) * keep
      ensures forall id :: id in refs ==> refs[id] == old(refs[id])
      ensures Distinct(removed) && Elems(removed) == old(refs.Keys) - keep
      ensures trace == old(trace) + Removals(removed)
    {
      removed := [];
      var todo := refs.Keys;
      while todo != {}
        invariant todo <= old(refs.Keys) && handles == old(handles)
        invariant refs.Keys == old(refs.Keys) * keep + todo
        invariant forall id :: id in refs ==> refs[id] == old(refs[id])
        invariant Distinct(removed) && Elems(removed) == old(refs.Keys) - keep - todo
        invariant trace == old(trace) + Removals(removed)
        decreases todo
      {
        var id :| id in todo;
        if id !in keep {
          refs := refs - {id};
          trace := trace + [Removed(id)];
          AppendNew(removed, id);
          removed := removed + [id];
        }
        todo := todo - {id};
      }
      KeptValid(old(refs), refs, handles);
    }

    /** Creation: each shape without a ref gets a new one bound to its registered plugin, if any. */
    method CreateMissing(ordered: seq<Item>, registry: Registry)
      requires Valid() && AllShapes(ordered) && UniqueIds(ordered)
      modifies this
      ensures Valid() && old(handles) <= handles
      ensures refs.Keys == old(refs.Keys) + IdSet(ordered)
      ensures forall k :: 0 <= k < |ordered| ==> ordered[k].id in refs
      ensures forall id :: id in old(refs) ==> refs[id] == old(refs[id])
      ensures forall k :: 0 <= k < |ordered| && ordered[k].id !in old(refs) ==>
                var r := refs[ordered[k].id];
                old(handles) <= r.handle && r == NewRef(r.handle, Lookup(registry, ordered[k].renderer))
      ensures trace == old(trace) + Creations(Missing(ordered, old(refs.Keys)))
    {
      for i := 0 to |ordered|
        invariant CreatedUpTo(ordered, i, registry, old(refs), old(handles), old(trace), refs, handles, trace)
      {
        var shape := ordered[i];
        if shape.id !in refs {
          CreateStep(ordered, i, registry, old(refs), old(handles), old(trace), refs, handles, trace);
          refs := refs[shape.id := NewRef(handles, Lookup(registry, shape.renderer))];
          handles := handles + 1;
          trace := trace + [Created(shape.id)];
        } else {
          KeepStep(ordered, i, registry, old(refs), old(handles), old(trace), refs, handles, trace);
        }
      }
      assert ordered[..|ordered|] == ordered;
    }

    /** Index check: records every shape's position and reports whether any moved. */
    method CheckIndices(ordered: seq<Item>) returns (changed: bool)
      requires Valid() && UniqueIds(ordered)
      requires forall k :: 0 <= k < |ordered| ==> ordered[k].id in refs
      modifies this
      ensures Valid() && handles == old(handles) && trace == old(trace)
      ensures changed == Mismatch(old(Indices()), ordered)
      ensures refs.Keys == old(refs.Keys)
      ensures forall id :: id in refs ==> refs[id].(lastIndex := 0) == old(refs[id]).(lastIndex := 0)
      ensures forall k :: 0 <= k < |ordered| ==> refs[ordered[k].id] == old(refs[ordered[k].id]).(lastIndex := k)
      // refs of shapes no longer painted are not touched
      ensures forall id :: id in refs && id !in IdSet(ordered) ==> refs[id] == old(refs[id])
    {
      changed := false;
      for i := 0 to |ordered|
        invariant handles == old(handles) && trace == old(trace)
        invariant CheckedUpTo(ordered, i, old(refs), refs, changed)
      {
        var id := ordered[i].id;
        var same := refs[id].lastIndex == i;
        CheckStep(ordered, i, old(refs), refs, changed);
        refs := refs[id := refs[id].(lastIndex := i)];
        if !same {
          changed := true;
        }
      }
      EvolvedValid(old(refs), refs, handles);
    }

    /** Full re-link: every ref is detached. */
    method DetachAll() returns (ghost detached: seq<Id>)
      requires Valid()
      modifies this
      ensures Valid() && handles == old(handles)
      ensures refs.Keys == old(refs.Keys)
      ensures forall id :: id in refs ==> refs[id] == old(refs[id]).(attached := false)
      ensures Distinct(detached) && Elems(detached) == refs.Keys
      ensures trace == old(trace) + Detachments(detached)
    {
      detached := [];
      var todo := refs.Keys;
      while todo != {}
        invariant refs.Keys == old(refs.Keys) && handles == old(handles) && todo <= refs.Keys
        invariant forall id :: id in refs && id in todo ==> refs[id] == old(refs[id])
        invariant forall id :: id in refs && id !in todo ==> refs[id] == old(refs[id]).(attached := false)
        invariant Distinct(detached) && Elems(detached) == refs.Keys - todo
        invariant trace == old(trace) + Detachments(detached)
        decreases todo
      {
        var id :| id in todo;
        refs := refs[id := refs[id].(attached := false)];
        trace := trace + [Detached(id)];
        AppendNew(detached, id);
        detached := detached + [id];
        todo := todo - {id};
      }
      EvolvedValid(old(refs), refs, handles);
    }

    /** Drawing: every shape is rendered by its ref, in paint order. */
    method DrawAll(ordered: seq<Item>)
      requires Valid() && UniqueIds(ordered)
      requires forall k :: 0 <= k < |ordered| ==> ordered[k].id in refs
      modifies this
      ensures Valid() && handles == old(handles)
      ensures refs.Keys == old(refs.Keys)
      ensures forall k :: 0 <= k < |ordered| ==> refs[ordered[k].id] == Draw(old(refs[ordered[k].id]), ordered[k])
      ensures forall id :: id in refs ==> Evolves(old(refs[id]), refs[id]) && refs[id].lastIndex == old(refs[id]).lastIndex
      // refs of shapes no longer painted are not touched
      ensures forall id :: id in refs && id !in IdSet(ordered) ==> refs[id] == old(refs[id])
      ensures trace == old(trace) + Draws(ordered, |ordered|)
    {
      for i := 0 to |ordered|
        invariant handles == old(handles)
        invariant DrawnUpTo(ordered, i, old(refs), refs)
        invariant trace == old(trace) + Draws(ordered, i)
      {
        var shape := ordered[i];
        DrawStep(ordered, i, old(refs), refs);
        refs := refs[shape.id := Draw(refs[shape.id], shape)];
        trace := trace + [Drawn(shape.id, i)];
      }
      EvolvedValid(old(refs), refs, handles);
    }

    /** The set of ids to keep (`allShapesById`). */
    static method PresentIds(ordered: seq<Item>) returns (present: set<Id>)
      ensures present == IdSet(ordered)
    {
      present := {};
      for i := 0 to |ordered|
        invariant present == IdSet(ordered[..i])
      {
        assert ordered[..i + 1][..i] == ordered[..i];
        present := present + {ordered[i].id};
      }
      assert ordered[..|ordered|] == ordered;
    }

    /** Removal then creation: afterwards the table holds exactly one ref per shape of `ordered`. */
    method Prepare(ordered: seq<Item>, registry: Registry) returns (ghost removed: seq<Id>)
      requires Valid() && AllShapes(ordered) && UniqueIds(ordered)
      modifies this
      ensures Valid() && old(handles) <= handles
      ensures refs.Keys == IdSet(ordered) && forall k :: 0 <= k < |ordered| ==> ordered[k].id in refs
      ensures forall id :: id in old(refs) && id in refs ==> refs[id] == old(refs[id])
      ensures forall k :: 0 <= k < |ordered| && ordered[k].id !in old(refs) ==>
                var r := refs[ordered[k].id];
                old(handles) <= r.handle && r == NewRef(r.handle, Lookup(registry, ordered[k].renderer))
      ensures Mismatch(Indices(), ordered) == Mismatch(old(Indices()), ordered)
      ensures Distinct(removed) && Elems(removed) == old(refs.Keys) - IdSet(ordered)
      ensures trace == old(trace) + Removals(removed) + Creations(Missing(ordered, old(refs.Keys)))
    {
      var present := PresentIds(ordered);
      removed := RemoveStale(present);
      ghost var kept := refs;
      MissingWithin(ordered, old(refs.Keys), present);
      CreateMissing(ordered, registry);
      PrepareEffect(ordered, registry, old(handles), old(refs), kept, refs);
    }

    /** Index check, full detach when anything moved, then drawing every shape in paint order. */
    method Relink(ordered: seq<Item>) returns (relinked: bool, ghost detached: seq<Id>)
      requires Valid() && UniqueIds(ordered) && refs.Keys == IdSet(ordered)
      requires forall k :: 0 <= k < |ordered| ==> ordered[k].id in refs
      modifies this
      ensures Valid() && handles == old(handles) && refs.Keys == old(refs.Keys)
      ensures relinked == Mismatch(old(Indices()), ordered)
      ensures forall k :: 0 <= k < |ordered| ==>
                refs[ordered[k].id] == Draw(Checked(old(refs[ordered[k].id]), k, relinked), ordered[k])
      ensures Settled(Indices(), ordered)
      ensures Distinct(detached) && Elems(detached) == (if relinked then IdSet(ordered) else {})
      ensures trace == old(trace) + Detachments(detached) + Draws(ordered, |ordered|)
    {
      relinked := CheckIndices(ordered);
      ghost var recorded := refs;
      if relinked {
        detached := DetachAll();
      } else {
        detached := [];
      }
      ghost var unlinked := refs;
      DrawAll(ordered);
      RelinkEffect(ordered, relinked, old(refs), recorded, unlinked, refs);
    }

    /**
     * One reconciliation pass over the paint order `ordered`; `notify` says
     * whether a completion callback is installed.
     */
    method Pass(ordered: seq<Item>, registry: Registry, notify: bool)
      returns (relinked: bool, ghost removed: seq<Id>, ghost detached: seq<Id>)
      requires Valid() && AllShapes(ordered) && UniqueIds(ordered)
      modifies this
      ensures Valid() && old(handles) <= handles
      // exactly one ref per painted shape
      ensures refs.Keys == IdSet(ordered) && forall k :: 0 <= k < |ordered| ==> ordered[k].id in refs
      // everything is re-linked exactly when some shape is not at its recorded position
      ensures relinked == Mismatch(old(Indices()), ordered)
      // a shape that had a ref keeps it; a new shape gets a new ref bound to its registered plugin
      ensures forall k :: 0 <= k < |ordered| && ordered[k].id in old(refs) ==>
                refs[ordered[k].id] == Draw(Checked(old(refs[ordered[k].id]), k, relinked), ordered[k])
      ensures forall k :: 0 <= k < |ordered| && ordered[k].id !in old(refs) ==>
                var r := refs[ordered[k].id];
                && old(handles) <= r.handle
                && r == Draw(Checked(NewRef(r.handle, Lookup(registry, ordered[k].renderer)), k, relinked), ordered[k])
      // every shape that can be drawn is on the surface showing its current state
      ensures forall k :: 0 <= k < |ordered| && refs[ordered[k].id].plugin.Some? ==>
                refs[ordered[k].id].attached && refs[ordered[k].id].current == Some(ordered[k])
      ensures Settled(Indices(), ordered)
      ensures Distinct(removed) && Elems(removed) == old(refs.Keys) - IdSet(ordered)
      ensures Distinct(detached) && Elems(detached) == (if relinked then IdSet(ordered) else {})
      ensures trace == old(trace) + Removals(removed) + Creations(Missing(ordered, old(refs.Keys)))
                       + Detachments(detached) + Draws(ordered, |ordered|) + (if notify then [Completed] else [])
      // repeating a pass over an unchanged paint order only redraws
      ensures old(Settled(Indices(), ordered)) ==>
                && !relinked && refs.Keys == old(refs.Keys)
                && removed == [] && Missing(ordered, old(refs.Keys)) == [] && detached == []
    {
      removed := Prepare(ordered, registry);
      ghost var prepared := refs;
      relinked, detached := Relink(ordered);
      PassEffect(ordered, registry, old(handles), relinked, old(refs), prepared, refs);
      Complete(notify);
      SettledPassEffect(ordered, old(refs), relinked, removed, detached);
    }

    /** The completion callback, when one is installed. */
    method Complete(notify: bool)
      modifies this
      ensures refs == old(refs) && handles == old(handles)
      ensures trace == old(trace) + (if notify then [Completed] else [])
    {
      if notify {
        trace := trace + [Completed];
      }
    }

    /** Preview: each offered item that has a ref becomes that ref's preview; the others are ignored. */
    method SetPreviews(items: seq<Item>)
      requires Valid()
      modifies this
      ensures Valid() && handles == old(handles) && trace == old(trace) && refs.Keys == old(refs.Keys)
      ensures forall id :: id in refs ==> refs[id] == old(refs[id]).(preview := PreviewAfter(items, id, old(refs[id]).preview))
    {
      for i := 0 to |items|
        invariant refs.Keys == old(refs.Keys) && handles == old(handles) && trace == old(trace)
        invariant forall id :: id in refs ==>
                    refs[id] == old(refs[id]).(preview := PreviewAfter(items[..i], id, old(refs[id]).preview))
      {
        assert items[..i + 1][..i] == items[..i];
        var item := items[i];
        if item.id in refs {
          refs := refs[item.id := refs[item.id].(preview := Some(item))];
        }
      }
      assert items[..|items|] == items;
      EvolvedValid(old(refs), refs, handles);
    }

    /** End of preview: every ref drops its preview. */
    method ClearPreviews()
      requires Valid()
      modifies this
      ensures Valid() && handles == old(handles) && trace == old(trace) && refs.Keys == old(refs.Keys)
      ensures forall id :: id in refs ==> refs[id] == old(refs[id]).(preview := None)
    {
      var todo := refs.Keys;
      while todo != {}
        invariant refs.Keys == old(refs.Keys) && handles == old(handles) && trace == old(trace) && todo <= refs.Keys
        invariant forall id :: id in refs && id in todo ==> refs[id] == old(refs[id])
        invariant forall id :: id in refs && id !in todo ==> refs[id] == old(refs[id]).(preview := None)
        decreases todo
      {
        var id :| id in todo;
        refs := refs[id := refs[id].(preview := None)];
        todo := todo - {id};
      }
      EvolvedValid(old(refs), refs, handles);
    }
  }
}
