# mydraft incremental scene renderer, modelled in Dafny

This project models the core of the mydraft wireframe editor's renderer and proves properties of it:

- **Scene flattener.** `getOrderedShapes` walks a diagram's root container in pre-order, descends into groups, skips ids that have no item, and emits only shapes, in paint order.
  - `ShapeRendering.HandleContainer` is the imperative walk, which pushes into an accumulator.
  - It is proved equal to the recursive `ShapeRendering.Flatten`.
  - A ghost rank stands in for the acyclicity of the group tree, which the source assumes and never checks.
- **Reconciler.** The render layer's effect and the editor's `forceRender` keep a table from shape id to a retained drawing handle (`ShapeRef`). On every pass they:
  1. remove refs whose shapes are gone;
  2. create refs for new shapes;
  3. check every shape's index;
  4. detach every ref if any index moved;
  5. draw every shape in paint order;
  6. call the completion callback.
  
  The table is the class `Reconciler.RefTable`, whose `refs` map the methods update in loops. A ghost `trace` records, in order, the removals, creations, detaches and draws a pass makes on refs, and the completion callback. The index checks are not traced; their effect is stated on the recorded positions. A ref is a value whose `handle` identifies its allocation, so "kept, not recreated" reads as "same handle".
- **Preview effect.** It sets a preview on every listed shape that has a ref, or clears every ref's preview.
- **Appearance and transform reducers.** A style key reaches a shape only if the shape's renderer is registered and either the request is forced or the renderer declares the key in its default appearance. A transform request moves exactly the expanded item set.
- **`AbstractControl`.** This is the wrapper every shape plugin is drawn through. It builds or reuses a group node, fits the reserved children to the content rectangle, and lets the plugin draw after them. It then applies the outer transform and opacity unless switched off, and restores the shared renderer's container.

Modules, in dependency order: `Wrappers`, `Diagrams` (scene data), `Svg` (the drawing-surface slice), `Plugins` (plugin contract and registry), `ShapeRendering`, `Reconciler`, `RenderLayers`, `Editors`, `Appearances`, `AbstractControls`.

## Model

| member | source | states |
|---|---|---|
| ShapeRendering.HandleContainer | src/wireframes/renderer/shape-rendering.ts:57-71 | The loop that pushes shapes and recurses into groups appends exactly the pre-order flattening of the container to what was already collected. |
| ShapeRendering.GetOrderedShapes | src/wireframes/renderer/shape-rendering.ts:50-77 | Returns the flattening of the diagram's root container; no diagram gives the empty list. |
| ShapeRendering.FlattenAppend | src/wireframes/renderer/shape-rendering.ts:58-70 | Flattening two containers one after the other gives the two flattenings concatenated. |
| ShapeRendering.FlattenEmitsStoredShapes | src/wireframes/renderer/shape-rendering.ts:59-64 | Every emitted item is a `Shape` stored in the diagram under its own id; groups are never emitted. |
| ShapeRendering.MissingIdSkipped | src/wireframes/renderer/shape-rendering.ts:59-61 | Inserting an id that has no item, anywhere in a container, leaves the output unchanged. |
| ShapeRendering.GroupFlattenedInPlace | src/wireframes/renderer/shape-rendering.ts:66-68 | A group's descendant shapes appear contiguously at the group's position, in child order. |
| ShapeRendering.FlatContainerUnchanged | src/wireframes/renderer/shape-rendering.ts:58-64 | A container listing only stored shapes comes back as those shapes, in the same order. |
| ShapeRendering.FlattenFollowsReached | src/wireframes/renderer/shape-rendering.ts:57-71 | The output ids are the shape ids among the pre-order of every reached id. |
| ShapeRendering.OrderedShapesDistinct | src/wireframes/renderer/shape-rendering.ts:57-71 | If no id is reached twice, the output ids are pairwise distinct. |
| ShapeRendering.OrderedShapesOfWellFormed | src/wireframes/renderer/shape-rendering.ts:50-77 | For a well-formed diagram, or none, the output has distinct ids and holds only shapes. |
| ShapeRendering.PreOrderExample | src/wireframes/renderer/shape-rendering.ts:58-73 | The root `[A, G[B, C], D]` is painted as `[A, B, C, D]`. |
| Plugins.Lookup | src/wireframes/renderer/RenderLayer.tsx:71 | The renderer service yields a plugin exactly when the id is registered, and then the registered one. |
| Reconciler.IdSetAt | src/wireframes/renderer/RenderLayer.tsx:50-55 | An id is among the ordered shapes' ids exactly when some position holds it. |
| Reconciler.Missing | src/wireframes/renderer/RenderLayer.tsx:69-75 | The ids the creation loop will create are ordered ids that have no ref yet. |
| Reconciler.NoneMissing | src/wireframes/renderer/RenderLayer.tsx:69-75 | Once every ordered id has a ref, the creation loop creates nothing. |
| Reconciler.MismatchAfterCreation | src/wireframes/renderer/RenderLayer.tsx:68-83 | Refs created with no recorded position do not change which shapes count as moved. |
| Reconciler.RemovalRelinksUnlessLast | src/wireframes/renderer/RenderLayer.tsx:77-90 | After a settled pass, removing the last shape forces no re-link, and removing any other shape forces one. |
| Reconciler.SwapForcesRelink | src/wireframes/renderer/RenderLayer.tsx:77-90 | After a settled pass, swapping two shapes forces every ref to be detached and redrawn. |
| Reconciler.NewShapeForcesRelink | src/wireframes/renderer/RenderLayer.tsx:68-90 | A shape without a recorded position forces a re-link, wherever it is inserted. |
| Reconciler.SettledPassEffect | src/wireframes/renderer/RenderLayer.tsx:59-90 | When the recorded positions already match the paint order, a pass removes nothing, creates nothing and detaches nothing. |
| Reconciler.PreviewUntouched | src/wireframes/renderer/RenderLayer.tsx:103-105 | Preview items for other ids leave a ref's preview as it was. |
| Reconciler.PreviewLastWins | src/wireframes/renderer/RenderLayer.tsx:103-105 | A ref previews the last item listed for its id. |
| Reconciler.RefTable.constructor | src/wireframes/renderer/RenderLayer.tsx:43 | The table starts empty. |
| Reconciler.RefTable.PresentIds | src/wireframes/renderer/RenderLayer.tsx:50-55 | The marked ids (`allShapesById`) are exactly the ids of the ordered shapes. |
| Reconciler.RefTable.RemoveStale | src/wireframes/renderer/RenderLayer.tsx:59-66 | The keys shrink to those still present; surviving refs are untouched; each stale ref is removed exactly once. |
| Reconciler.RefTable.CreateMissing | src/wireframes/renderer/RenderLayer.tsx:68-75 | Every ordered id gains a ref. Existing refs are untouched. Each missing id gets one new ref, with a handle never used before and the plugin registered for its renderer. The creations follow paint order. |
| Reconciler.RefTable.CheckIndices | src/wireframes/renderer/RenderLayer.tsx:77-83 | The flag is set exactly when some shape is not at its recorded position. Every shape's ref records its new position, and nothing else changes; refs of ids outside the paint order are left untouched. |
| Reconciler.RefTable.DetachAll | src/wireframes/renderer/RenderLayer.tsx:85-90 | Every ref is detached exactly once and is otherwise unchanged. |
| Reconciler.RefTable.DrawAll | src/wireframes/renderer/RenderLayer.tsx:92-94 | Every shape is drawn once, in paint order, by its own ref. Refs of ids outside the paint order are left untouched. |
| Reconciler.RefTable.Prepare | src/wireframes/renderer/RenderLayer.tsx:50-75 | After removal and creation, the keys are exactly the ordered ids. Kept refs are unchanged, new refs are fresh, and which shapes count as moved is unchanged. |
| Reconciler.RefTable.Relink | src/wireframes/renderer/RenderLayer.tsx:77-94 | A re-link happens exactly on a position mismatch, and then every ref is detached before drawing. Afterwards the recorded positions are the paint order. |
| Reconciler.RefTable.Pass | src/wireframes/renderer/RenderLayer.tsx:49-99 | One pass: keys equal the ordered ids, and kept refs keep their handle. A new ref is bound to its registered plugin. Every drawable shape is attached and shows its shape, and positions end settled. The call sequence is removals, creations, detaches, draws in order, then one completion call if requested. A pass that starts settled removes, creates and detaches nothing. |
| Reconciler.RefTable.Complete | src/wireframes/renderer/RenderLayer.tsx:96-98 | The completion callback is called once exactly when one is installed; the refs are untouched. |
| Reconciler.RefTable.SetPreviews | src/wireframes/renderer/RenderLayer.tsx:102-105 | Each ref previews the last listed item with its id; unknown ids are ignored; nothing else changes. |
| Reconciler.RefTable.ClearPreviews | src/wireframes/renderer/RenderLayer.tsx:106-110 | Every ref's preview is cleared and nothing else changes. |
| RenderLayers.RenderLayer.constructor | src/wireframes/renderer/RenderLayer.tsx:42-43 | Mounting starts an empty table and captures the completion callback once. |
| RenderLayers.RenderLayer.RenderEffect | src/wireframes/renderer/RenderLayer.tsx:45-99 | Flattens the diagram and runs one pass over it. It has the pass's guarantees over the flattened order, notifying the callback captured at mount. |
| RenderLayers.RenderLayer.PreviewEffect | src/wireframes/renderer/RenderLayer.tsx:101-111 | With preview items, the listed refs that exist get their preview; without, every preview is cleared. |
| Editors.Editor.constructor | src/wireframes/renderer/Editor.tsx:61-67 | The editor starts with an empty table and no interaction service. |
| Editors.Editor.GetOrderedShapes | src/wireframes/renderer/Editor.tsx:157-186 | The same flattening from `diagram.root`; no diagram gives the empty list. |
| Editors.Editor.ForceRender | src/wireframes/renderer/Editor.tsx:85-139 | Without the interaction service it changes nothing and makes no call. Otherwise it runs one pass over the flattened diagram: keys equal the ordered ids, and new refs use the registered renderer. A position mismatch detaches every ref. Shapes are drawn in order, then `onRender` is called if supplied. |
| Editors.Editor.InitDiagramScope | src/wireframes/renderer/Editor.tsx:73-83 | Creating the interaction service enables rendering and runs one forced render, with all of `ForceRender`'s guarantees, per shape included: the removed ids are the stale ones, and a position mismatch detaches every ref. The `forceUpdate` that follows belongs to React; it re-enters through `componentDidUpdate`, which `Editors.Editor.ComponentDidUpdate` models. |
| Editors.Editor.ComponentDidUpdate | src/wireframes/renderer/Editor.tsx:69-71 | New props are stored and then rendered by a forced render. Before the interaction service exists, the table does not change. Afterwards that render has all of `ForceRender`'s guarantees, per shape included: the removed ids are the stale ones, and a position mismatch detaches every ref. |
| Editors.Editor.OnPreview | src/wireframes/renderer/Editor.tsx:141-149 | Only refs that exist for listed ids get a preview (the last listed wins). |
| Editors.Editor.OnEndPreview | src/wireframes/renderer/Editor.tsx:151-155 | Every ref's preview is cleared. |
| Appearances.ChangeItemsAppearanceAction | src/wireframes/model/actions/appearance.ts:13-16 | The creator carries the diagram, the items, the key, the value and the force flag unchanged. |
| Appearances.ForceDefaultsToFalse | src/wireframes/model/actions/appearance.ts:14 | Leaving out `force` gives an unforced request. |
| Appearances.TransformRoundTrip | src/wireframes/model/actions/appearance.ts:48-49 | Bounds survive the payload: converting to the plain form and back gives the same transform, and the reverse also holds. |
| Appearances.TransformItemsAction | src/wireframes/model/actions/appearance.ts:18-21 | The creator carries the diagram and the items; its bounds decode to the bounds it was given. |
| Appearances.UpdateItems | src/wireframes/model/actions/appearance.ts:33 | Only listed existing items are replaced, by the updater; the diagram's id, root and key set stay. |
| Appearances.UpdateDiagram | src/wireframes/model/actions/appearance.ts:28 | Only the named diagram is replaced; an unknown id leaves the state as it was. |
| Appearances.SetAppearanceIfDeclared | src/wireframes/model/actions/appearance.ts:33-41 | An unregistered renderer blocks the change even when forced, and an unforced undeclared key is ignored. Otherwise exactly that key takes the value. |
| Appearances.Reduce | src/wireframes/model/actions/appearance.ts:23-57 | Either case keeps the set of diagrams and leaves every other diagram unchanged. |
| Appearances.AppearanceChangesOnlyDeclaredTargets | src/wireframes/model/actions/appearance.ts:25-43 | An item outside the expanded shapes is unchanged, and so are groups and shapes that do not qualify. Every qualifying target gets exactly `appearance[key] = value`. |
| Appearances.TransformMovesExactlyTheExpandedItems | src/wireframes/model/actions/appearance.ts:44-56 | A transform action from the creator applies `transformByBounds` with its original bounds to every expanded item, groups included, and to nothing else. |
| Appearances.UnknownDiagramUnchanged | src/wireframes/model/actions/appearance.ts:28 | An action aimed at a diagram the state does not hold changes nothing. |
| Appearances.StrokeNeedsForce | src/wireframes/model/actions/appearance.ts:36-40 | With a default appearance of only `fill`, an unforced `stroke` is ignored and a forced one is applied. |
| AbstractControls.FactoriesCarryTheirArguments | src/wireframes/shapes/utils/abstract-control.ts:15-61 | Each factory method builds its namesake constraint or configurable from exactly its arguments. |
| AbstractControls.OuterTransformOf | src/wireframes/shapes/utils/abstract-control.ts:128-139 | The box has the shape's size and is centred on its position, rotated by its angle about that position. |
| AbstractControls.GlobalContext.constructor | src/wireframes/shapes/utils/abstract-control.ts:63 | The shared render context starts with no shape. |
| AbstractControls.AbstractControl.constructor | src/wireframes/shapes/utils/abstract-control.ts:66-69 | The control wraps the given plugin. |
| AbstractControls.AbstractControl.Identifier | src/wireframes/shapes/utils/abstract-control.ts:71-73 | The plugin's identifier. |
| AbstractControls.AbstractControl.Plugin | src/wireframes/shapes/utils/abstract-control.ts:75-77 | The wrapped plugin itself. |
| AbstractControls.AbstractControl.DefaultAppearance | src/wireframes/shapes/utils/abstract-control.ts:79-81 | The plugin's default appearance. |
| AbstractControls.AbstractControl.SetContext | src/wireframes/shapes/utils/abstract-control.ts:83-86 | The shared renderer's container becomes the context, and the control returns itself. |
| AbstractControls.AbstractControl.CreateDefaultShape | src/wireframes/shapes/utils/abstract-control.ts:88-96 | The renderer id, size and appearance come from the plugin. Constraint and configurables are present exactly when the plugin defines them, and are built with the default factories. |
| AbstractControls.AbstractControl.NewNode | src/wireframes/shapes/utils/abstract-control.ts:105-112 | A new node holds the hit area and, in debug mode, the debug outline. |
| AbstractControls.AbstractControl.Render | src/wireframes/shapes/utils/abstract-control.ts:98-150 | A supplied node is the one returned. The reserved children are fitted to the content rectangle, and the plugin's drawing follows them. The outer transform and opacity are applied unless switched off. When switched off they are left as they were, which for a new node means no transform and opacity 1. The shared container is restored and the context holds the shape. |
| Svg.Group.FitLeading | src/wireframes/shapes/utils/abstract-control.ts:120-122 | Exactly the first `n` children are fitted to the rectangle; the other children, transform and opacity stay. |
| Svg.SharedRenderer.SetContainer | src/wireframes/shapes/utils/abstract-control.ts:124 | The container and the number of reserved children are set. |

## Left out

- `exportDiagram` (PDF export through jsPDF and svg2pdf) is input/output and is not modelled.
- React plumbing is not modelled:
  - JSX rendering;
  - `useMemo`: the render effect flattens on every call;
  - `useEffect` scheduling and dependencies: each effect body is a method;
  - adorners;
  - the interaction service, which is only a flag here;
  - `forceUpdate` at the end of `initDiagramScope` (src/wireframes/renderer/Editor.tsx:82): React then calls `componentDidUpdate`, so in the running editor a second forced render follows. `Editors.Editor.InitDiagramScope` covers only the first.
- `shape-ref.ts` is not part of this model. The model assumes a `ShapeRef` behaves as follows:
  - `checkIndex(i)` reports whether `i` equals the recorded index, then records `i`;
  - `remove()` detaches the node;
  - `render(shape)` attaches and draws when the ref has a plugin and does nothing otherwise;
  - `setPreview(x)` sets the preview;
  - a new ref starts with no recorded position: `NewRef` records the index -1, so the first `checkIndex` on it always reports a move. `Reconciler.NewShapeForcesRelink`, `Reconciler.MismatchAfterCreation`, `Reconciler.RefTable.Prepare` (which shapes count as moved is unchanged) and `Reconciler.RefTable.Pass` (`relinked` is the mismatch of the old positions) rest on this.
  
  Object identity is modelled by the `handle` counter.
- The removal and detach loops visit keys in an arbitrary order, standing for `Object.entries` and `Object.values` order. Their contracts fix the set of ids visited and record the order only in the trace.
- Reconciler.RefTable.Pass requires the ordered shapes to have distinct ids. The render layer and the editor obtain this from a well-formed diagram (no id reached twice). A paint order with repeated ids is not modelled.
- The ghost `rank` requires the group structure to be acyclic; the source has no cycle guard and would recurse forever on a cycle.
- svg.js internals are not modelled:
  - `SVGHelper.transform` is modelled as the record of its arguments;
  - `SVGRenderer2.cleanupAll` is left out;
  - the plugin's own `render` is a function field returning the elements it leaves after the reserved children.
- `TextSizeConstraint` text measurement is not modelled; the factory only carries its arguments.
- `DiagramItemSet.createFromDiagram`, `updateItems`, `updateDiagram` and `transformByBounds` are not part of this model:
  - the expansion and `transformByBounds` are parameters;
  - `updateItems` is assumed to apply the updater once to each distinct listed id that exists;
  - `updateDiagram` is assumed to leave the state unchanged for an unknown diagram id.
- `createItemsAction` is not part of this model. Diagram and item references are taken as already resolved to ids. The action type strings are replaced by the `Action` variants.
- Appearance values are text, number or flag, and `Types.isUndefined(defaultAppearance()[key])` is read as "the key is absent".
- AbstractControls.AbstractControl.DefaultAppearance: the optional call `defaultAppearance?.()` is modelled with the plugin's default appearance always present.
- Numbers are exact `real`s; floating-point rounding is not modelled.
- The current code detaches every ref on a re-link but keeps the refs and redraws them; the model follows the code.
- The render layer flattens from `diagram.itemIds` (src/wireframes/renderer/shape-rendering.ts:73) and the editor from `diagram.root` (src/wireframes/renderer/Editor.tsx:182). Both are the diagram's root container, so the model keeps one field, `Diagram.root`, and both flatten from it.
- AbstractControls.AbstractControl.Render: requires a supplied node to hold at least the reserved children. In the source, a node built without `debug` and rendered with `debug` makes `existing.get(1)` (src/wireframes/shapes/utils/abstract-control.ts:120-122) reach a child that does not exist; that error path is not modelled. `svg-renderer2.ts` is not part of this model either. `setContainer(context)` (line 84) and `setContainer(container)` (line 147) are assumed to reset the reserved count to 0, which is why `SetContext` and `Render` ensure `reserved == 0`.
- `Transform.toJS`/`fromJS` are not part of this model. The plain form chosen here makes the round trip hold by construction.
