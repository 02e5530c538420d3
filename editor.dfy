/**
 * The older editor component (src/wireframes/renderer/Editor.tsx): the same
 * reconciler as the render layer, held in a field of the component and run
 * on every update once the interaction service exists, plus the preview
 * callbacks handed to the adorners.
 */
module Editors {
  import opened Wrappers
  import opened Diagrams
  import opened Plugins
  import opened ShapeRendering
  import opened Reconciler

  class Editor {
    /** The ref table (`shapeRefsById`). */
    const shapeRefsById: RefTable
    /** Whether the interaction service has been created (`initDiagramScope` has run). */
    var interactionReady: bool
    /** The selected diagram (`props.diagram`), with the rank witnessing that its groups are acyclic. */
    var diagram: Option<Diagram>
    ghost var rank: map<Id, nat>
    /** The registered renderers (`props.rendererService.registeredRenderers`). */
    var registry: Registry
    /** Whether a completion callback is supplied (`props.onRender`). */
    var onRender: bool

    ghost predicate Valid()
      reads this, shapeRefsById
    {
      && shapeRefsById.Valid()
      && (diagram.Some? ==> WellFormed(diagram.value, rank))
    }

    /** The paint order of the current diagram. */
    ghost function Ordered(): seq<Item>
      reads this
      requires diagram.Some? ==> Ranked(diagram.value.items, rank)
    {
      OrderedShapes(diagram, rank)
    }

    constructor (diagram: Option<Diagram>, ghost rank: map<Id, nat>, registry: Registry, onRender: bool)
      requires diagram.Some? ==> WellFormed(diagram.value, rank)
      ensures Valid() && fresh(shapeRefsById) && !interactionReady
      ensures shapeRefsById.refs == map[] && shapeRefsById.trace == []
      ensures this.diagram == diagram && this.rank == rank && this.registry == registry && this.onRender == onRender
    {
      shapeRefsById := new RefTable();
      interactionReady := false;
      this.diagram := diagram;
      this.rank := rank;
      this.registry := registry;
      this.onRender := onRender;
    }

    /** The flattener, rooted at `diagram.root`; no diagram gives no shapes. */
    method GetOrderedShapes() returns (flattenShapes: seq<Item>)
      requires Valid()
      ensures flattenShapes == Ordered()
      ensures diagram.None? ==> flattenShapes == []
    {
      flattenShapes := ShapeRendering.GetOrderedShapes(diagram, rank);
    }

    /**
     * Reconciles the ref table with the current diagram and calls back when
     * done; does nothing at all before the interaction service exists.
     */
    method ForceRender() returns (ghost relinked: bool, ghost removed: seq<Id>, ghost detached: seq<Id>)
      requires Valid()
      modifies shapeRefsById
      ensures Valid()
      ensures !interactionReady ==>
                && shapeRefsById.refs == old(shapeRefsById.refs)
                && shapeRefsById.handles == old(shapeRefsById.handles)
                && shapeRefsById.trace == old(shapeRefsById.trace)
      ensures interactionReady ==>
                && shapeRefsById.refs.Keys == IdSet(Ordered())
                && relinked == Mismatch(old(shapeRefsById.Indices()), Ordered())
                && Settled(shapeRefsById.Indices(), Ordered())
                && Elems(removed) == old(shapeRefsById.refs.Keys) - IdSet(Ordered())
                && Elems(detached) == (if relinked then IdSet(Ordered()) else {})
                && shapeRefsById.trace
                     == old(shapeRefsById.trace) + Removals(removed)
                        + Creations(Missing(Ordered(), old(shapeRefsById.refs.Keys)))
                        + Detachments(detached) + Draws(Ordered(), |Ordered()|)
                        + (if onRender then [Completed] else [])
      ensures interactionReady ==>
                forall k :: 0 <= k < |Ordered()| ==>
                  && Ordered()[k].Shape?
                  && Ordered()[k].id in shapeRefsById.refs
                  && (Ordered()[k].id in old(shapeRefsById.refs) ==>
                        shapeRefsById.refs[Ordered()[k].id]
                          == Draw(Checked(old(shapeRefsById.refs[Ordered()[k].id]), k, relinked), Ordered()[k]))
                  && (Ordered()[k].id !in old(shapeRefsById.refs) ==>
                        var r := shapeRefsById.refs[Ordered()[k].id];
                        && old(shapeRefsById.handles) <= r.handle
                        && r == Draw(Checked(NewRef(r.handle, Lookup(registry, Ordered()[k].renderer)), k, relinked), Ordered()[k]))
    {
      if !interactionReady {
        relinked, removed, detached := false, [], [];
        return;
      }
      var allShapes := GetOrderedShapes();
      OrderedShapesOfWellFormed(diagram, rank);
      UniqueIdsOf(allShapes);
      relinked, removed, detached := shapeRefsById.Pass(allShapes, registry, onRender);
    }

    /** Creating the interaction service enables rendering, and renders once. */
    method InitDiagramScope() returns (ghost relinked: bool, ghost removed: seq<Id>, ghost detached: seq<Id>)
      requires Valid()
      modifies this, shapeRefsById
      ensures Valid() && interactionReady
      ensures diagram == old(diagram) && rank == old(rank) && registry == old(registry) && onRender == old(onRender)
      ensures shapeRefsById.refs.Keys == IdSet(Ordered())
      ensures relinked == Mismatch(old(shapeRefsById.Indices()), Ordered())
      ensures Settled(shapeRefsById.Indices(), Ordered())
      ensures Elems(removed) == old(shapeRefsById.refs.Keys) - IdSet(Ordered())
      ensures Elems(detached) == (if relinked then IdSet(Ordered()) else {})
      ensures shapeRefsById.trace
                == old(shapeRefsById.trace) + Removals(removed)
                   + Creations(Missing(Ordered(), old(shapeRefsById.refs.Keys)))
                   + Detachments(detached) + Draws(Ordered(), |Ordered()|)
                   + (if onRender then [Completed] else [])
      ensures forall k :: 0 <= k < |Ordered()| ==>
                && Ordered()[k].Shape?
                && Ordered()[k].id in shapeRefsById.refs
                && (Ordered()[k].id in old(shapeRefsById.refs) ==>
                      shapeRefsById.refs[Ordered()[k].id]
                        == Draw(Checked(old(shapeRefsById.refs)[Ordered()[k].id], k, relinked), Ordered()[k]))
                && (Ordered()[k].id !in old(shapeRefsById.refs) ==>
                      var r := shapeRefsById.refs[Ordered()[k].id];
                      && old(shapeRefsById.handles) <= r.handle
                      && r == Draw(Checked(NewRef(r.handle, Lookup(registry, Ordered()[k].renderer)), k, relinked), Ordered()[k]))
    {
      interactionReady := true;
      relinked, removed, detached := ForceRender();
    }

    /** New props arrive: the diagram, renderers and callback are replaced and the editor re-renders. */
    method ComponentDidUpdate(diagram: Option<Diagram>, ghost rank: map<Id, nat>, registry: Registry, onRender: bool)
      returns (ghost relinked: bool, ghost removed: seq<Id>, ghost detached: seq<Id>)
      requires Valid()
      requires diagram.Some? ==> WellFormed(diagram.value, rank)
      modifies this, shapeRefsById
      ensures Valid() && interactionReady == old(interactionReady)
      ensures this.diagram == diagram && this.rank == rank && this.registry == registry && this.onRender == onRender
      ensures !interactionReady ==>
                && shapeRefsById.refs == old(shapeRefsById.refs)
                && shapeRefsById.handles == old(shapeRefsById.handles)
                && shapeRefsById.trace == old(shapeRefsById.trace)
      ensures interactionReady ==>
                && shapeRefsById.refs.Keys == IdSet(Ordered())
                && relinked == Mismatch(old(shapeRefsById.Indices()), Ordered())
                && Settled(shapeRefsById.Indices(), Ordered())
                && Elems(removed) == old(shapeRefsById.refs.Keys) - IdSet(Ordered())
                && Elems(detached) == (if relinked then IdSet(Ordered()) else {})
                && shapeRefsById.trace
                     == old(shapeRefsById.trace) + Removals(removed)
                        + Creations(Missing(Ordered(), old(shapeRefsById.refs.Keys)))
                        + Detachments(detached) + Draws(Ordered(), |Ordered()|)
                        + (if onRender then [Completed] else [])
      ensures interactionReady ==>
                forall k :: 0 <= k < |Ordered()| ==>
                  && Ordered()[k].Shape?
                  && Ordered()[k].id in shapeRefsById.refs
                  && (Ordered()[k].id in old(shapeRefsById.refs) ==>
                        shapeRefsById.refs[Ordered()[k].id]
                          == Draw(Checked(old(shapeRefsById.refs)[Ordered()[k].id], k, relinked), Ordered()[k]))
                  && (Ordered()[k].id !in old(shapeRefsById.refs) ==>
                        var r := shapeRefsById.refs[Ordered()[k].id];
                        && old(shapeRefsById.handles) <= r.handle
                        && r == Draw(Checked(NewRef(r.handle, Lookup(registry, Ordered()[k].renderer)), k, relinked), Ordered()[k]))
    {
      this.diagram := diagram;
      this.rank := rank;
      this.registry := registry;
      this.onRender := onRender;
      relinked, removed, detached := ForceRender();
    }

    /** Preview: each listed item that has a ref becomes that ref's preview; unknown ids are ignored. */
    method OnPreview(items: seq<Item>)
      requires Valid()
      modifies shapeRefsById
      ensures Valid() && shapeRefsById.refs.Keys == old(shapeRefsById.refs.Keys)
      ensures shapeRefsById.handles == old(shapeRefsById.handles) && shapeRefsById.trace == old(shapeRefsById.trace)
      ensures forall id :: id in shapeRefsById.refs ==>
                shapeRefsById.refs[id]
                  == old(shapeRefsById.refs[id]).(preview := PreviewAfter(items, id, old(shapeRefsById.refs[id]).preview))
    {
      shapeRefsById.SetPreviews(items);
    }

    /** End of preview: every ref's preview is cleared. */
    method OnEndPreview()
      requires Valid()
      modifies shapeRefsById
      ensures Valid() && shapeRefsById.refs.Keys == old(shapeRefsById.refs.Keys)
      ensures shapeRefsById.handles == old(shapeRefsById.handles) && shapeRefsById.trace == old(shapeRefsById.trace)
      ensures forall id :: id in shapeRefsById.refs ==> shapeRefsById.refs[id] == old(shapeRefsById.refs[id]).(preview := None)
    {
      shapeRefsById.ClearPreviews();
    }
  }
}
