/**
 * The shape plugin contract: the capability bundle each shape kind
 * registers under its renderer id, and the constraint and configurable
 * values its factories build.
 */
module Plugins {
  import opened Wrappers
  import opened Diagrams
  import opened Svg

  /** Size policies a plugin may ask for. */
  datatype Constraint =
    | SizeConstraint(width: Option<real>, height: Option<real>)
    | MinSizeConstraint
    | TextHeightConstraint(padding: real)
    | TextSizeConstraint(paddingX: Option<real>, paddingY: Option<real>, lineHeight: Option<real>,
                         resizeWidth: Option<bool>, minWidth: Option<real>)

  /** Editable property descriptors for the property panel. */
  datatype Configurable =
    | SelectionConfigurable(name: string, labelText: string, options: seq<string>)
    | SliderConfigurable(name: string, labelText: string, min: real, max: real)
    | NumberConfigurable(name: string, labelText: string, min: real, max: real)
    | ColorConfigurable(name: string, labelText: string)
    | TextConfigurable(name: string, labelText: string)
    | ToggleConfigurable(name: string, labelText: string)

  datatype ConstraintFactory = ConstraintFactory(
    size: (Option<real>, Option<real>) -> Constraint,
    minSize: () -> Constraint,
    textHeight: real -> Constraint,
    textSize: (Option<real>, Option<real>, Option<real>, Option<bool>, Option<real>) -> Constraint)

  datatype ConfigurableFactory = ConfigurableFactory(
    selection: (string, string, seq<string>) -> Configurable,
    slider: (string, string, real, real) -> Configurable,
    number: (string, string, real, real) -> Configurable,
    color: (string, string) -> Configurable,
    text: (string, string) -> Configurable,
    toggle: (string, string) -> Configurable)

  /** What a plugin's own drawing sees: the shape and its content rectangle. */
  datatype DrawContext = DrawContext(shape: Item, rect: Rect2)

  /**
   * A shape plugin. `constraint` and `configurables` are optional members
   * that receive a factory; `render` is the plugin's own drawing, given as
   * the elements it leaves in the node after the reserved children.
   */
  datatype ShapePlugin = ShapePlugin(
    identifier: RendererId,
    defaultAppearance: Appearance,
    defaultSize: Vec2,
    constraint: Option<ConstraintFactory -> Constraint>,
    configurables: Option<ConfigurableFactory -> seq<Configurable>>,
    render: DrawContext -> seq<Element>)

  /** The renderer service: plugins by renderer id. */
  type Registry = map<RendererId, ShapePlugin>

  function Lookup(registry: Registry, id: RendererId): (r: Option<ShapePlugin>)
    ensures r.Some? <==> id in registry
    ensures r.Some? ==> r.value == registry[id]
  {
    if id in registry then Some(registry[id]) else None
  }
}
