/**
 * The appearance and transform actions of
 * src/wireframes/model/actions/appearance.ts: two action creators that
 * package a request as a plain record, and the two reducer cases that apply
 * it to one diagram of the editor state. A style key reaches a shape only
 * when the shape's renderer is registered and either the request is forced
 * or the renderer declares the key among its default appearance.
 */
module Appearances {
  import opened Wrappers
  import opened Diagrams
  import opened Plugins

  /** The plain, serialisable form of a transform carried in an action payload. */
  datatype TransformJS = TransformJS(x: real, y: real, w: real, h: real, rotation: real)

  function ToJS(t: Transform): TransformJS {
    TransformJS(t.position.x, t.position.y, t.size.x, t.size.y, t.rotation.degree)
  }

  function FromJS(j: TransformJS): Transform {
    Transform(Vec2(j.x, j.y), Vec2(j.w, j.h), Rotation(j.rotation))
  }

  /** Bounds survive the payload, and the plain form is canonical. */
  lemma TransformRoundTrip(t: Transform, j: TransformJS)
    ensures FromJS(ToJS(t)) == t
    ensures ToJS(FromJS(j)) == j
  {
  }

  /** The payload of an items action: the target diagram and items, plus what to do to them. */
  datatype Action =
    | ChangeItemsAppearance(diagramId: Id, itemIds: seq<Id>, key: string, value: Value, force: bool)
    | TransformItems(diagramId: Id, itemIds: seq<Id>, oldBounds: TransformJS, newBounds: TransformJS)

  /** The `changeItemsAppearance` creator; `force` is false unless given. */
  function ChangeItemsAppearanceAction(diagramId: Id, itemIds: seq<Id>, key: string, value: Value, force: bool := false): (a: Action)
    ensures a.ChangeItemsAppearance? && a.diagramId == diagramId && a.itemIds == itemIds
    ensures a.key == key && a.value == value && a.force == force
  {
    ChangeItemsAppearance(diagramId, itemIds, key, value, force)
  }

  /** The `transformItems` creator: the bounds travel in their plain form. */
  function TransformItemsAction(diagramId: Id, itemIds: seq<Id>, oldBounds: Transform, newBounds: Transform): (a: Action)
    ensures a.TransformItems? && a.diagramId == diagramId && a.itemIds == itemIds
    ensures FromJS(a.oldBounds) == oldBounds && FromJS(a.newBounds) == newBounds
  {
    TransformItems(diagramId, itemIds, ToJS(oldBounds), ToJS(newBounds))
  }

  /** Leaving out `force` gives an unforced request. */
  lemma ForceDefaultsToFalse(diagramId: Id, itemIds: seq<Id>, key: string, value: Value)
    ensures !ChangeItemsAppearanceAction(diagramId, itemIds, key, value).force
    ensures ChangeItemsAppearanceAction(diagramId, itemIds, key, value)
            == ChangeItemsAppearanceAction(diagramId, itemIds, key, value, false)
  {
  }

  /**
   * The result of `DiagramItemSet.createFromDiagram`: a list of items and a
   * list of shapes. The expansion itself is supplied by the caller and is
   * not constrained here.
   */
  datatype DiagramItemSet = DiagramItemSet(allItems: seq<Item>, allShapes: seq<Item>)

  /** `diagram.updateItems`: the updater replaces each listed item that exists; nothing else changes. */
  function UpdateItems(d: Diagram, ids: seq<Id>, update: Item -> Item): (r: Diagram)
    ensures r.id == d.id && r.root == d.root && r.items.Keys == d.items.Keys
    ensures forall id :: id in d.items && id !in ids ==> r.items[id] == d.items[id]
    ensures forall id :: id in d.items && id in ids ==> r.items[id] == update(d.items[id])
  {
    d.(items := map id | id in d.items :: if id in ids then update(d.items[id]) else d.items[id])
  }

  /** `state.updateDiagram`: the updater replaces the named diagram if there is one; other diagrams stay. */
  function UpdateDiagram(state: EditorState, diagramId: Id, update: Diagram -> Diagram): (r: EditorState)
    ensures r.diagrams.Keys == state.diagrams.Keys
    ensures forall id :: id in state.diagrams && id != diagramId ==> r.diagrams[id] == state.diagrams[id]
    ensures diagramId in state.diagrams ==> r.diagrams[diagramId] == update(state.diagrams[diagramId])
    ensures diagramId !in state.diagrams ==> r == state
  {
    if diagramId in state.diagrams then
      EditorState(state.diagrams[diagramId := update(state.diagrams[diagramId])])
    else
      state
  }

  /** Whether the request may set `key` on a shape of `renderer`. */
  predicate Applies(registry: Registry, renderer: RendererId, key: string, force: bool) {
    renderer in registry && (force || key in registry[renderer].defaultAppearance)
  }

  /**
   * The per-item updater of the appearance case: a shape whose renderer is
   * registered gets `appearance[key] = value` when forced or when the
   * renderer declares the key; anything else is returned as it is.
   */
  function SetAppearanceIfDeclared(item: Item, registry: Registry, key: string, value: Value, force: bool): (r: Item)
    // an unregistered renderer blocks the change, forced or not
    ensures item.Shape? && Lookup(registry, item.renderer).None? ==> r == item
    // unforced, an undeclared key is ignored
    ensures (item.Shape? && !force && Lookup(registry, item.renderer).Some?
             && key !in Lookup(registry, item.renderer).value.defaultAppearance) ==> r == item
    // otherwise exactly that key changes
    ensures (item.Shape? && Lookup(registry, item.renderer).Some?
             && (force || key in Lookup(registry, item.renderer).value.defaultAppearance)) ==>
              && r.Shape? && r.appearance == item.appearance[key := value]
              && r.(appearance := item.appearance) == item
    ensures item.Group? ==> r == item
  {
    if item.Shape? && Applies(registry, item.renderer, key, force) then
      item.(appearance := item.appearance[key := value])
    else
      item
  }

  /** The appearance case on one diagram: the updater applied to the expanded shapes. */
  function ChangeAppearanceOf(d: Diagram, itemIds: seq<Id>, key: string, value: Value, force: bool,
                              registry: Registry, createFromDiagram: (seq<Id>, Diagram) -> DiagramItemSet): Diagram
  {
    UpdateItems(d, IdsOf(createFromDiagram(itemIds, d).allShapes),
                item => SetAppearanceIfDeclared(item, registry, key, value, force))
  }

  /** The transform case on one diagram: every expanded item, groups included, is transformed by the bounds. */
  function TransformOf(d: Diagram, itemIds: seq<Id>, boundsOld: Transform, boundsNew: Transform,
                       createFromDiagram: (seq<Id>, Diagram) -> DiagramItemSet,
                       transformByBounds: (Item, Transform, Transform) -> Item): Diagram
  {
    UpdateItems(d, IdsOf(createFromDiagram(itemIds, d).allItems),
                item => transformByBounds(item, boundsOld, boundsNew))
  }

  /**
   * The two reducer cases of `buildAppearance`. The item-set expansion and
   * `transformByBounds` belong to the model classes and are parameters.
   */
  function Reduce(state: EditorState, action: Action, registry: Registry,
                  createFromDiagram: (seq<Id>, Diagram) -> DiagramItemSet,
                  transformByBounds: (Item, Transform, Transform) -> Item): (r: EditorState)
    ensures r.diagrams.Keys == state.diagrams.Keys
    ensures forall id :: id in state.diagrams && id != action.diagramId ==> r.diagrams[id] == state.diagrams[id]
  {
    match action
    case ChangeItemsAppearance(diagramId, itemIds, key, value, force) =>
      UpdateDiagram(state, diagramId, d => ChangeAppearanceOf(d, itemIds, key, value, force, registry, createFromDiagram))
    case TransformItems(diagramId, itemIds, oldBounds, newBounds) =>
      UpdateDiagram(state, diagramId, d => TransformOf(d, itemIds, FromJS(oldBounds), FromJS(newBounds),
                                                       createFromDiagram, transformByBounds))
  }

  /**
   * An appearance action changes one item exactly when it is among the
   * expanded shapes, is a shape with a registered renderer, and the key is
   * forced or declared: then that key, and nothing else, takes the value.
   * Every other item, and the diagram's id and root, stay as they were.
   */
  lemma AppearanceChangesOnlyDeclaredTargets(state: EditorState, diagramId: Id, itemIds: seq<Id>, key: string,
                                             value: Value, force: bool, registry: Registry,
                                             createFromDiagram: (seq<Id>, Diagram) -> DiagramItemSet,
                                             transformByBounds: (Item, Transform, Transform) -> Item)
    requires diagramId in state.diagrams
    ensures var d := state.diagrams[diagramId];
            var r := Reduce(state, ChangeItemsAppearance(diagramId, itemIds, key, value, force), registry,
                            createFromDiagram, transformByBounds).diagrams[diagramId];
            var targets := IdsOf(createFromDiagram(itemIds, d).allShapes);
            && r.id == d.id && r.root == d.root && r.items.Keys == d.items.Keys
            && (forall id :: id in d.items && id !in targets ==> r.items[id] == d.items[id])
            && (forall id :: (id in d.items && id in targets && d.items[id].Shape?
                              && Applies(registry, d.items[id].renderer, key, force)) ==>
                    r.items[id] == d.items[id].(appearance := d.items[id].appearance[key := value]))
            && (forall id :: id in d.items && d.items[id].Shape? && !Applies(registry, d.items[id].renderer, key, force) ==>
                  r.items[id] == d.items[id])
            && (forall id :: id in d.items && d.items[id].Group? ==> r.items[id] == d.items[id])
  {
    var d := state.diagrams[diagramId];
    var targets := IdsOf(createFromDiagram(itemIds, d).allShapes);
    var r := ChangeAppearanceOf(d, itemIds, key, value, force, registry, createFromDiagram);
    forall id | id in d.items && id in targets
      ensures r.items[id] == SetAppearanceIfDeclared(d.items[id], registry, key, value, force)
    {
    }
  }

  /**
   * A transform action made by the creator moves every expanded item,
   * groups included, by exactly the bounds it was created with, and
   * leaves every other item as it was.
   */
  lemma TransformMovesExactlyTheExpandedItems(state: EditorState, diagramId: Id, itemIds: seq<Id>,
                                              oldBounds: Transform, newBounds: Transform, registry: Registry,
                                              createFromDiagram: (seq<Id>, Diagram) -> DiagramItemSet,
                                              transformByBounds: (Item, Transform, Transform) -> Item)
    requires diagramId in state.diagrams
    ensures var d := state.diagrams[diagramId];
            var r := Reduce(state, TransformItemsAction(diagramId, itemIds, oldBounds, newBounds), registry,
                            createFromDiagram, transformByBounds).diagrams[diagramId];
            var targets := IdsOf(createFromDiagram(itemIds, d).allItems);
            && r.id == d.id && r.root == d.root && r.items.Keys == d.items.Keys
            && (forall id :: id in d.items && id in targets ==> r.items[id] == transformByBounds(d.items[id], oldBounds, newBounds))
            && (forall id :: id in d.items && id !in targets ==> r.items[id] == d.items[id])
  {
    TransformRoundTrip(oldBounds, ToJS(oldBounds));
    TransformRoundTrip(newBounds, ToJS(newBounds));
  }

  /** An action aimed at a diagram the state does not hold changes nothing. */
  lemma UnknownDiagramUnchanged(state: EditorState, action: Action, registry: Registry,
                                createFromDiagram: (seq<Id>, Diagram) -> DiagramItemSet,
                                transformByBounds: (Item, Transform, Transform) -> Item)
    requires action.diagramId !in state.diagrams
    ensures Reduce(state, action, registry, createFromDiagram, transformByBounds) == state
  {
  }

  /**
   * Worked case: a renderer whose default appearance declares only `fill`
   * ignores an unforced `stroke` and takes a forced one.
   */
  lemma StrokeNeedsForce(shape: Item, plugin: ShapePlugin, stroke: Value)
    requires shape.Shape? && plugin.defaultAppearance == map["fill" := Text("#fff")]
    ensures SetAppearanceIfDeclared(shape, map[shape.renderer := plugin], "stroke", stroke, false) == shape
    ensures SetAppearanceIfDeclared(shape, map[shape.renderer := plugin], "stroke", stroke, true).appearance["stroke"] == stroke
  {
  }
}
