/**
 * The base renderer every shape plugin is wrapped in
 * (src/wireframes/shapes/utils/abstract-control.ts): it exposes the plugin's
 * identity and defaults, assembles the default shape, and draws a shape into
 * a group node: background hit area, optional debug outline, the plugin's own
 * drawing, then the outer transform and opacity.
 */
module AbstractControls {
  import opened Wrappers
  import opened Diagrams
  import opened Svg
  import opened Plugins

  /** The constraint factory handed to plugins: each method builds its namesake constraint. */
  const DefaultConstraintFactory: ConstraintFactory := ConstraintFactory(
    (width, height) => SizeConstraint(width, height),
    () => MinSizeConstraint,
    padding => TextHeightConstraint(padding),
    (paddingX, paddingY, lineHeight, resizeWidth, minWidth) =>
      TextSizeConstraint(paddingX, paddingY, lineHeight, resizeWidth, minWidth))

  /** The configurable factory handed to plugins: each method builds its namesake descriptor. */
  const DefaultConfigurableFactory: ConfigurableFactory := ConfigurableFactory(
    (name, labelText, options) => SelectionConfigurable(name, labelText, options),
    (name, labelText, min, max) => SliderConfigurable(name, labelText, min, max),
    (name, labelText, min, max) => NumberConfigurable(name, labelText, min, max),
    (name, labelText) => ColorConfigurable(name, labelText),
    (name, labelText) => TextConfigurable(name, labelText),
    (name, labelText) => ToggleConfigurable(name, labelText))

  /** The factories pass their arguments through unchanged. */
  lemma FactoriesCarryTheirArguments(w: Option<real>, h: Option<real>, padding: real, name: string, caption: string, lo: real, hi: real,
                                     options: seq<string>, paddingX: Option<real>, paddingY: Option<real>, lineHeight: Option<real>,
                                     resizeWidth: Option<bool>, minWidth: Option<real>)
    ensures DefaultConstraintFactory.size(w, h) == SizeConstraint(w, h)
    ensures DefaultConstraintFactory.size(w, h).width == w && DefaultConstraintFactory.size(w, h).height == h
    ensures DefaultConstraintFactory.minSize() == MinSizeConstraint
    ensures DefaultConstraintFactory.textHeight(padding) == TextHeightConstraint(padding)
    ensures DefaultConstraintFactory.textSize(paddingX, paddingY, lineHeight, resizeWidth, minWidth)
            == TextSizeConstraint(paddingX, paddingY, lineHeight, resizeWidth, minWidth)
    ensures DefaultConfigurableFactory.selection(name, caption, options) == SelectionConfigurable(name, caption, options)
    ensures DefaultConfigurableFactory.slider(name, caption, lo, hi) == SliderConfigurable(name, caption, lo, hi)
    ensures DefaultConfigurableFactory.number(name, caption, lo, hi) == NumberConfigurable(name, caption, lo, hi)
    ensures DefaultConfigurableFactory.color(name, caption) == ColorConfigurable(name, caption)
    ensures DefaultConfigurableFactory.text(name, caption) == TextConfigurable(name, caption)
    ensures DefaultConfigurableFactory.toggle(name, caption) == ToggleConfigurable(name, caption)
  {
  }

  /** The record `createDefaultShape` returns. */
  datatype DefaultShape = DefaultShape(
    renderer: RendererId,
    size: Vec2,
    appearance: Appearance,
    configurables: Option<seq<Configurable>>,
    constraint: Option<Constraint>)

  /** The optional render flags; an absent flag is false. */
  datatype RenderOptions = RenderOptions(debug: bool, noOpacity: bool, noTransform: bool)

  predicate Debug(options: Option<RenderOptions>) { options.Some? && options.value.debug }
  predicate NoOpacity(options: Option<RenderOptions>) { options.Some? && options.value.noOpacity }
  predicate NoTransform(options: Option<RenderOptions>) { options.Some? && options.value.noTransform }

  /** The background hit area every node starts with: white at opacity 0.001. */
  const HitArea := Element("#ffffff", 0.001, None, None)
  /** The debug outline: white fill with a red stroke. */
  const DebugOutline := Element("#ffffff", 1.0, Some("#ff0000"), None)

  /** How many leading children of the node are the renderer's own (not the plugin's). */
  function ReservedChildren(options: Option<RenderOptions>): nat {
    if Debug(options) then 2 else 1
  }

  /** The shape's content rectangle: its own size, at the origin. */
  function ContentRect(t: Transform): Rect2 {
    Rect2(0.0, 0.0, t.size.x, t.size.y)
  }

  /** The outer transform: a box of the shape's size centred on its position, rotated about that centre. */
  function OuterTransformOf(t: Transform): (o: OuterTransform)
    ensures o.w == t.size.x && o.h == t.size.y
    ensures o.x + o.w / 2.0 == t.position.x && o.y + o.h / 2.0 == t.position.y
    ensures o.rx == t.position.x && o.ry == t.position.y && o.rotation == t.rotation.degree
  {
    OuterTransform(t.position.x - 0.5 * t.size.x, t.position.y - 0.5 * t.size.y,
                   t.size.x, t.size.y, t.position.x, t.position.y, t.rotation.degree)
  }

  /** The shared render context (`GLOBAL_CONTEXT`): the shape being drawn and its content rectangle. */
  class GlobalContext {
    var shape: Option<Item>
    var rect: Rect2

    constructor ()
      ensures shape == None
    {
      shape := None;
      rect := Rect2(0.0, 0.0, 0.0, 0.0);
    }
  }

  class AbstractControl {
    const shapePlugin: ShapePlugin

    constructor (shapePlugin: ShapePlugin)
      ensures this.shapePlugin == shapePlugin
    {
      this.shapePlugin := shapePlugin;
    }

    function Identifier(): (id: RendererId)
      ensures id == shapePlugin.identifier
    {
      shapePlugin.identifier
    }

    function Plugin(): (p: ShapePlugin)
      ensures p == shapePlugin
    {
      shapePlugin
    }

    function DefaultAppearance(): (a: Appearance)
      ensures a == shapePlugin.defaultAppearance
    {
      shapePlugin.defaultAppearance
    }

    /** Points the shared renderer at `context` and returns this control. */
    method SetContext(context: Group?, renderer2: SharedRenderer) returns (r: AbstractControl)
      modifies renderer2
      ensures renderer2.container == context && renderer2.reserved == 0
      ensures r == this
    {
      renderer2.SetContainer(context, 0);
      r := this;
    }

    /**
     * The default shape of this kind: the plugin's id, size and appearance,
     * plus a constraint and configurables only where the plugin defines them,
     * built with the default factories.
     */
    function CreateDefaultShape(): (s: DefaultShape)
      ensures s.renderer == shapePlugin.identifier
      ensures s.size == shapePlugin.defaultSize && s.appearance == shapePlugin.defaultAppearance
      ensures s.constraint.Some? <==> shapePlugin.constraint.Some?
      ensures shapePlugin.constraint.Some? ==> s.constraint.value == shapePlugin.constraint.value(DefaultConstraintFactory)
      ensures s.configurables.Some? <==> shapePlugin.configurables.Some?
      ensures shapePlugin.configurables.Some? ==>
                s.configurables.value == shapePlugin.configurables.value(DefaultConfigurableFactory)
    {
      var appearance := shapePlugin.defaultAppearance;
      var constraint := if shapePlugin.constraint.Some? then Some(shapePlugin.constraint.value(DefaultConstraintFactory)) else None;
      var configurables :=
        if shapePlugin.configurables.Some? then Some(shapePlugin.configurables.value(DefaultConfigurableFactory)) else None;
      DefaultShape(Identifier(), shapePlugin.defaultSize, appearance, configurables, constraint)
    }

    /** A fresh node holding the hit area and, in debug mode, the debug outline. */
    static method NewNode(options: Option<RenderOptions>) returns (node: Group)
      ensures fresh(node) && node.transform == None && node.opacity == 1.0
      ensures node.children == [HitArea] + (if Debug(options) then [DebugOutline] else [])
    {
      node := new Group();
      node.children := node.children + [HitArea];
      if Debug(options) {
        node.children := node.children + [DebugOutline];
      }
    }

    /**
     * Draws `shape` into `existing`, or into a new node when there is none,
     * and returns the node. The reserved children are fitted to the content
     * rectangle, the plugin draws after them into the shared renderer, and the
     * shared renderer's container is restored afterwards.
     */
    method Render(shape: Item, existing: Group?, options: Option<RenderOptions>, context: GlobalContext, renderer2: SharedRenderer)
      returns (node: Group)
      requires shape.Shape?
      requires existing != null ==> |existing.children| >= ReservedChildren(options)
      modifies context, renderer2, existing
      ensures existing != null ==> node == existing
      ensures existing == null ==> fresh(node) && |node.children| >= ReservedChildren(options)
      ensures existing == null ==> node.children[0].fill == HitArea.fill && node.children[0].opacity == HitArea.opacity
      ensures existing == null && Debug(options) ==> node.children[1].stroke == DebugOutline.stroke
      ensures existing != null ==>
                && |node.children| >= ReservedChildren(options)
                && forall k :: 0 <= k < ReservedChildren(options) ==>
                     node.children[k] == old(existing.children[k]).(fitted := Some(ContentRect(shape.transform)))
      ensures forall k :: 0 <= k < ReservedChildren(options) ==> node.children[k].fitted == Some(ContentRect(shape.transform))
      ensures node.children[ReservedChildren(options)..] == shapePlugin.render(DrawContext(shape, ContentRect(shape.transform)))
      ensures !NoTransform(options) ==> node.transform == Some(OuterTransformOf(shape.transform))
      ensures NoTransform(options) && existing != null ==> node.transform == old(existing.transform)
      ensures NoTransform(options) && existing == null ==> node.transform == None
      ensures !NoOpacity(options) ==> node.opacity == shape.opacity
      ensures NoOpacity(options) && existing != null ==> node.opacity == old(existing.opacity)
      ensures NoOpacity(options) && existing == null ==> node.opacity == 1.0
      ensures renderer2.container == old(renderer2.container) && renderer2.reserved == 0
      ensures context.shape == Some(shape) && context.rect == ContentRect(shape.transform)
    {
      context.shape := Some(shape);
      context.rect := Rect2(0.0, 0.0, shape.transform.size.x, shape.transform.size.y);

      var container := renderer2.container;

      if existing == null {
        node := NewNode(options);
      } else {
        node := existing;
      }

      var index := 1;
      if Debug(options) {
        index := 2;
      }

      node.FitLeading(index, context.rect);

      renderer2.SetContainer(node, index);

      // The plugin's own drawing keeps the reserved children and draws after them.
      node.children := node.children[..renderer2.reserved]
        + shapePlugin.render(DrawContext(shape, context.rect));

      if !NoTransform(options) {
        var to := shape.transform;
        node.transform := Some(OuterTransform(
          to.position.x - 0.5 * to.size.x,
          to.position.y - 0.5 * to.size.y,
          to.size.x,
          to.size.y,
          to.position.x,
          to.position.y,
          to.rotation.degree));
      }

      if !NoOpacity(options) {
        node.opacity := shape.opacity;
      }

      renderer2.SetContainer(container, 0);
    }
  }
}
