/**
 * The slice of the vector drawing surface (svg.js) that the renderer
 * touches: group nodes with child elements, an outer transform and an
 * opacity, and the shared renderer that holds the current drawing container.
 */
module Svg {
  import opened Wrappers

  datatype Rect2 = Rect2(x: real, y: real, width: real, height: real)

  /** A child element of a group: its fill, opacity, optional stroke colour, and the rectangle it was fitted to, if any. */
  datatype Element = Element(fill: string, opacity: real, stroke: Option<string>, fitted: Option<Rect2>)

  /** The arguments of the outer `SVGHelper.transform` call: a box and a rotation about a centre. */
  datatype OuterTransform = OuterTransform(x: real, y: real, w: real, h: real, rx: real, ry: real, rotation: real)

  /** A group node (`svg.G`). */
  class Group {
    var children: seq<Element>
    var transform: Option<OuterTransform>
    var opacity: real

    constructor ()
      ensures children == [] && transform == None && opacity == 1.0
    {
      children := [];
      transform := None;
      opacity := 1.0;
    }

    /** Fits the first `n` children to `rect`; the other children, the transform and the opacity stay. */
    method FitLeading(n: nat, rect: Rect2)
      requires n <= |children|
      modifies this
      ensures |children| == |old(children)| && transform == old(transform) && opacity == old(opacity)
      ensures forall k :: 0 <= k < n ==> children[k] == old(children[k]).(fitted := Some(rect))
      ensures forall k :: n <= k < |children| ==> children[k] == old(children[k])
    {
      var i := 0;
      while i < n
        invariant 0 <= i <= n <= |children| == |old(children)|
        invariant transform == old(transform) && opacity == old(opacity)
        invariant forall k :: 0 <= k < i ==> children[k] == old(children[k]).(fitted := Some(rect))
        invariant forall k :: i <= k < |children| ==> children[k] == old(children[k])
      {
        children := children[i := children[i].(fitted := Some(rect))];
        i := i + 1;
      }
    }
  }

  /**
   * The shared renderer (`SVGRenderer2.INSTANCE`): the container later
   * drawing goes to, and how many of its leading children drawing must keep.
   */
  class SharedRenderer {
    var container: Group?
    var reserved: nat

    constructor ()
      ensures container == null && reserved == 0
    {
      container := null;
      reserved := 0;
    }

    method SetContainer(c: Group?, index: nat)
      modifies this
      ensures container == c && reserved == index
    {
      container := c;
      reserved := index;
    }
  }
}
