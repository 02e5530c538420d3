/**
 * The render layer component (src/wireframes/renderer/RenderLayer.tsx): a
 * retained table of shape refs, reconciled against the flattened diagram
 * whenever the paint order changes, and a preview effect that overrides or
 * clears what the refs show.
 */
module RenderLayers {
  import opened Wrappers
  import opened Diagrams
  import opened Plugins
  import opened ShapeRendering
  import opened Reconciler

  class RenderLayer {
    /** The ref table kept across renders (`shapeRefsById`). */
    const shapeRefsById: RefTable
    /** Whether a completion callback was captured when the layer was mounted (`shapesRendered`). */
    const shapesRendered: bool

    /** Mounting: an empty ref table; the callback is captured once and never replaced. */
    constructor (onRender: bool)
      ensures fresh(shapeRefsById) && shapeRefsById.Valid()
      ensures shapeRefsById.refs == map[] && shapeRefsById.trace == []
      ensures shapesRendered == onRender
    {
      shapeRefsById := new RefTable();
      shapesRendered := onRender;
    }

    /**
     * The reconciliation effect: flatten the diagram, then run one pass over
     * the ref table, notifying the captured callback at the end if there is one.
     */
    method RenderEffect(diagram: Option<Diagram>, ghost rank: map<Id, nat>, registry: Registry)
      returns (orderedShapes: seq<Item>, relinked: bool, ghost removed: seq<Id>, ghost detached: seq<Id>)
      requires shapeRefsById.Valid()
      requires diagram.Some? ==> WellFormed(diagram.value, rank)
      modifies shapeRefsById
      ensures orderedShapes == OrderedShapes(diagram, rank)
      ensures diagram.None? ==> orderedShapes == []
      ensures shapeRefsById.Valid()
      // one ref per painted shape, none for anything else
      ensures AllShapes(orderedShapes) && UniqueIds(orderedShapes)
      ensures shapeRefsById.refs.Keys == IdSet(orderedShapes)
      ensures forall k :: 0 <= k < |orderedShapes| ==> orderedShapes[k].id in shapeRefsById.refs
      ensures relinked == Mismatch(old(shapeRefsById.Indices()), orderedShapes)
      // kept refs are the same allocation; new ones are fresh allocations with the registered plugin
      ensures forall k :: 0 <= k < |orderedShapes| && orderedShapes[k].id in old(shapeRefsById.refs) ==>
                shapeRefsById.refs[orderedShapes[k].id]
                  == Draw(Checked(old(shapeRefsById.refs[orderedShapes[k].id]), k, relinked), orderedShapes[k])
      ensures forall k :: 0 <= k < |orderedShapes| && orderedShapes[k].id !in old(shapeRefsById.refs) ==>
                var r := shapeRefsById.refs[orderedShapes[k].id];
                && old(shapeRefsById.handles) <= r.handle
                && r == Draw(Checked(NewRef(r.handle, Lookup(registry, orderedShapes[k].renderer)), k, relinked), orderedShapes[k])
      ensures Settled(shapeRefsById.Indices(), orderedShapes)
      ensures Elems(removed) == old(shapeRefsById.refs.Keys) - IdSet(orderedShapes)
      ensures Elems(detached) == (if relinked then IdSet(orderedShapes) else {})
      ensures shapeRefsById.trace
                == old(shapeRefsById.trace) + Removals(removed)
                   + Creations(Missing(orderedShapes, old(shapeRefsById.refs.Keys)))
                   + Detachments(detached) + Draws(orderedShapes, |orderedShapes|)
                   + (if shapesRendered then [Completed] else [])
      // re-running over an unchanged paint order only redraws
      ensures old(Settled(shapeRefsById.Indices(), orderedShapes)) ==>
                && !relinked && shapeRefsById.refs.Keys == old(shapeRefsById.refs.Keys)
                && removed == [] && Missing(orderedShapes, old(shapeRefsById.refs.Keys)) == [] && detached == []
    {
      orderedShapes := GetOrderedShapes(diagram, rank);
      OrderedShapesOfWellFormed(diagram, rank);
      UniqueIdsOf(orderedShapes);
      relinked, removed, detached := shapeRefsById.Pass(orderedShapes, registry, shapesRendered);
    }

    /**
     * The preview effect: with preview items, each listed item that has a
     * ref becomes that ref's preview (the last listing wins); without, every
     * ref's preview is cleared.
     */
    method PreviewEffect(previewItems: Option<seq<Item>>)
      requires shapeRefsById.Valid()
      modifies shapeRefsById
      ensures shapeRefsById.Valid() && shapeRefsById.refs.Keys == old(shapeRefsById.refs.Keys)
      ensures shapeRefsById.handles == old(shapeRefsById.handles) && shapeRefsById.trace == old(shapeRefsById.trace)
      ensures previewItems.Some? ==>
                forall id :: id in shapeRefsById.refs ==>
                  shapeRefsById.refs[id]
                    == old(shapeRefsById.refs[id]).(preview := PreviewAfter(previewItems.value, id, old(shapeRefsById.refs[id]).preview))
      ensures previewItems.None? ==>
                forall id :: id in shapeRefsById.refs ==> shapeRefsById.refs[id] == old(shapeRefsById.refs[id]).(preview := None)
    {
      if previewItems.Some? {
        shapeRefsById.SetPreviews(previewItems.value);
      } else {
        shapeRefsById.ClearPreviews();
      }
    }
  }
}
