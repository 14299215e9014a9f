/** The tooltip panel shown next to a hovered node: where it goes, whether it
    flips to the left of the pointer, and what it says. It has no state. */
module MindmapTooltip {
  import opened MindmapModel
  import JsText

  /** The panel's CSS transform when it flips to the left of the pointer. */
  const FlipLeft: string := "translateX(-100%) translateX(-20px)"

  /** The pointer x beyond which the panel flips. */
  const FlipThreshold: int := 600

  /** The rendered panel: its style (left, top, transform) and its three
      lines of text; `badge` is None when the badge is not rendered. */
  datatype Panel = Panel(left: int, top: int, transform: string,
                         heading: string, body: string, badge: Option<string>)

  /** The text of the badge for n direct children: the count, " subtopic",
      and an "s" unless the count is exactly one. */
  function BadgeText(n: nat): (s: string)
    ensures |s| == |JsText.DecimalString(n)| + 9 + (if n != 1 then 1 else 0)
    ensures s[..|JsText.DecimalString(n)|] == JsText.DecimalString(n)
    ensures s[|JsText.DecimalString(n)|..|JsText.DecimalString(n)| + 9] == " subtopic"
    ensures (s[|s| - 1] == 's') <==> n != 1
  {
    JsText.DecimalString(n) + " subtopic" + (if n != 1 then "s" else "")
  }

  /** The badge states the number of direct children: reading its leading
      digits back gives that number. */
  lemma BadgeCount(n: nat)
    ensures var digits := BadgeText(n)[..|JsText.DecimalString(n)|];
      JsText.IsDigits(digits) && JsText.DecimalValue(digits) == n
  {
    JsText.DecimalRoundTrip(n);
  }

  /** MindmapTooltip({node, position}). */
  function Tooltip(node: Node, x: int, y: int): (p: Panel)
    ensures p.left == x + 20 && p.top == y - 10
    ensures p.transform != "none" <==> x > FlipThreshold
    ensures p.transform != "none" ==> p.transform == FlipLeft
    ensures p.heading == node.title && p.body == node.description
    ensures p.badge.Some? <==> |node.children| > 0
    ensures p.badge.Some? ==> p.badge.value == BadgeText(|node.children|)
  {
    Panel(x + 20, y - 10,
          if x > FlipThreshold then FlipLeft else "none",
          node.title, node.description,
          if |node.children| > 0 then Some(BadgeText(|node.children|)) else None)
  }
}
