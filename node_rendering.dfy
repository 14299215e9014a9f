/** The per-node drawing rules of the mindmap visualization: colour, circle
    radius (at rest and hovered), label truncation, font size, the placing of
    the root at the centre, and the hover state that feeds the tooltip.
    `depth` is the node's distance from the synthetic root, which is the
    level Hierarchy writes (Hierarchy.TreeAnnotation). */
module NodeRendering {
  import opened MindmapModel
  import MindmapTooltip

  function Max(a: int, b: int): int {
    if a >= b then a else b
  }

  /** The five palette entries, in order (purple, cyan, orange, green, pink). */
  datatype Hue = Purple | Cyan | Orange | Green | Pink

  const Palette: seq<Hue> := [Purple, Cyan, Orange, Green, Pink]

  /** getNodeColor(depth): the first five depths take the palette in order,
      and from then on the colours repeat with period five. */
  function NodeColor(depth: nat): (h: Hue)
    ensures depth < |Palette| ==> h == Palette[depth]
    ensures depth >= |Palette| ==> h == NodeColor(depth - |Palette|)
  {
    Palette[depth % |Palette|]
  }

  /** Two depths less than five apart never share a colour. */
  lemma NearbyDepthsDiffer(d1: nat, d2: nat)
    requires d1 < d2 < d1 + |Palette|
    ensures NodeColor(d1) != NodeColor(d2)
  {
  }

  /** The circle's radius at rest: 40 at the root, 8 less per level, never
      under 20 (reached from depth 3 on). */
  function CircleRadius(depth: nat): (r: int)
    ensures 20 <= r <= 40
    ensures depth == 0 ==> r == 40
    ensures depth >= 3 ==> r == 20
  {
    Max(20, 40 - depth * 8)
  }

  lemma CircleRadiusNonIncreasing(d1: nat, d2: nat)
    requires d1 <= d2
    ensures CircleRadius(d2) <= CircleRadius(d1)
  {
  }

  /** The radius under the pointer is always 5 more than the radius at rest. */
  function HoverRadius(depth: nat): (r: int)
    ensures r == CircleRadius(depth) + 5
  {
    Max(25, 45 - depth * 8)
  }

  /** The number of title characters a label keeps: 20 at the root, 3 fewer
      per level, never under 8. */
  function MaxLabelLength(depth: nat): (m: nat)
    ensures 8 <= m <= 20
    ensures depth == 0 ==> m == 20
    ensures depth >= 4 ==> m == 8
  {
    Max(8, 20 - depth * 3)
  }

  /** The text drawn in a node: a title longer than MaxLabelLength is cut to
      that many characters and gets "..."; a shorter one is drawn whole. */
  function Label(title: string, depth: nat): (text: string)
    ensures var m := MaxLabelLength(depth);
      if |title| > m then
        |text| == m + 3 && text[..m] == title[..m] && text[m..] == "..."
      else
        text == title
  {
    var m := MaxLabelLength(depth);
    if |title| > m then title[..m] + "..." else title
  }

  /** The label drawn never shows more of the title than the bound. */
  lemma LabelBound(title: string, depth: nat)
    ensures |Label(title, depth)| <= MaxLabelLength(depth) + 3
    ensures |Label(title, depth)| <= |title| || |title| > MaxLabelLength(depth)
  {
  }

  /** The label's font size: 14 at the root, 2 less per level, never under 10. */
  function FontSize(depth: nat): (f: int)
    ensures 10 <= f <= 14
    ensures depth == 0 ==> f == 14
    ensures depth >= 2 ==> f == 10
  {
    Max(10, 14 - depth * 2)
  }

  lemma FontSizeNonIncreasing(d1: nat, d2: nat)
    requires d1 <= d2
    ensures FontSize(d2) <= FontSize(d1)
  {
  }

  /** A point of the layout: (angle, radius) before the conversion, (x, y) after. */
  datatype Point = Point(x: real, y: real)

  /** Converts the layout's polar coordinates to screen coordinates for every
      laid-out node, in place. The root (depth 0) is put at the origin; every
      other node goes through `polar`, which stands for the cosine/sine
      conversion with the quarter-turn rotation. */
  method ToCartesian(depth: seq<nat>, points: array<Point>, polar: Point -> Point)
    requires points.Length == |depth|
    modifies points
    ensures forall i :: 0 <= i < points.Length ==>
      points[i] == (if depth[i] == 0 then Point(0.0, 0.0) else polar(old(points[i])))
  {
    var i := 0;
    while i < points.Length
      invariant 0 <= i <= points.Length
      invariant forall j :: 0 <= j < i ==>
        points[j] == (if depth[j] == 0 then Point(0.0, 0.0) else polar(old(points[j])))
      invariant forall j :: i <= j < points.Length ==> points[j] == old(points[j])
    {
      if depth[i] == 0 {
        points[i] := Point(0.0, 0.0);
      } else {
        points[i] := polar(points[i]);
      }
      i := i + 1;
    }
  }

  /** The offset of the visualization's container on the page. */
  datatype Rect = Rect(left: int, top: int)

  /** The selected node and the tooltip position, the visualization's two
      state cells. */
  class HoverState {
    var selected: Option<Node>
    var x: int
    var y: int

    constructor ()
      ensures selected == None && x == 0 && y == 0
    {
      selected, x, y := None, 0, 0;
    }

    /** The pointer enters a node's circle: it grows to the hover radius;
        when the container can be measured, the pointer position relative
        to the container is stored and the node is selected. */
    method MouseOver(node: Node, depth: nat, clientX: int, clientY: int, container: Option<Rect>)
      returns (radius: int)
      modifies this
      ensures radius == CircleRadius(depth) + 5
      ensures container.Some? ==>
        selected == Some(node) && x == clientX - container.value.left && y == clientY - container.value.top
      ensures container.None? ==> selected == old(selected) && x == old(x) && y == old(y)
    {
      radius := HoverRadius(depth);
      if container.Some? {
        x, y := clientX - container.value.left, clientY - container.value.top;
        selected := Some(node);
      }
    }

    /** The pointer leaves: the circle returns to its rest radius and the
        selection is cleared; the stored position is kept. */
    method MouseOut(depth: nat) returns (radius: int)
      modifies this
      ensures radius == CircleRadius(depth)
      ensures selected == None && x == old(x) && y == old(y)
    {
      radius := CircleRadius(depth);
      selected := None;
    }

    /** The tooltip shown: one exactly while a node is selected, for that
        node at the stored position. */
    function Tooltip(): (t: Option<MindmapTooltip.Panel>)
      reads this
      ensures t.Some? <==> selected.Some?
      ensures t.Some? ==> t.value == MindmapTooltip.Tooltip(selected.value, x, y)
    {
      match selected
      case Some(node) => Some(MindmapTooltip.Tooltip(node, x, y))
      case None => None
    }
  }
}
