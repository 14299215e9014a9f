# AI Mindmap Visualizer — a verified model of its client logic

The application takes a free-text topic description and sends it to a remote
generation service. The service returns a tree of topics: a root title plus
nested nodes. The client draws that tree as a radial diagram with hover
tooltips. This project models the client's own logic in Dafny and proves what
that logic promises:

- **Hierarchy** (`hierarchy.dfy`): `transformData` wraps the response in a
  synthetic root with id 0. Its recursive helper `addLevelInfo` then writes
  `level` and `parent` into every node object.
  - The tree's ids, titles, descriptions and child lists are never written,
    so the tree is a datatype value.
  - The two properties the walk writes live in the class `NodeStore`. Its
    `annotation` map is keyed by each node object's position: the child
    indexes from the synthetic root.
  - A JSON tree never shares a node between two positions, so a position names
    exactly one object. Position `[i]` is the response's own
    `data.nodes[i]`, because the root's children list *is* `data.nodes`.
  - `AddLevelInfo` is a recursive method with a loop over the children, like
    the source's recursive `forEach`.
- **Node rendering** (`node_rendering.dfy`): the palette index, circle radius
  at rest and hovered, label truncation and font size. Also the in-place loop
  that pins the root at the origin, and the hover state (selected node and
  tooltip position) that feeds the tooltip.
- **Tooltip** (`mindmap_tooltip.dfy`): the anchor offset, the horizontal flip
  past x = 600, the displayed text, and the subtopic badge with its
  pluralisation.
- **Page** (`index_page.dfy`): the three state cells `isLoading`,
  `mindmapData` and `error`, the submit handler, the "new mindmap" handler,
  and the render conditions that choose the panels.
  - The submit handler is split at its `await`. `BeginGenerate` is the
    synchronous part, and `FinishGenerate` is the try/catch/finally that runs
    when the request ends.
  - The request's outcome is a parameter covering each way it can end: the
    fetch rejects, the response is not ok, the body fails to parse, or it
    parses.
- **Shared code**: `mindmap_model.dfy` holds the response's data types.
  `js_text.dfy` holds JavaScript's `trim` and its decimal rendering of a
  count, with the inverse parse.

`transformData` is not pure. `addLevelInfo` writes `level` and `parent` into
the response's own node objects (src/components/MindmapVisualization.tsx:45,
50-51). `Hierarchy.InputNodesAnnotated` states which objects it writes.

The source declares its node type three times, not identically:
- src/components/MindmapVisualization.tsx:8-23 declares `MindmapNode`, with the
  `x`, `y`, `level` and `parent` fields the drawing adds, and `MindmapData`.
- src/components/MindmapTooltip.tsx:3-9 declares only `MindmapNode`, without
  those fields.
- src/pages/Index.tsx:7-16 declares only `MindmapData`, with an inline node
  type whose `children` is `any[]`.

The model has one `MindmapModel.Node` with the fields the service sends. The
fields the drawing adds are kept elsewhere: `level` and `parent` in
`Hierarchy.NodeStore`, and the coordinates in `NodeRendering.ToCartesian`.

## Model

| member | source | states |
|---|---|---|
| Hierarchy.NodeStore.AddLevelInfo | src/components/MindmapVisualization.tsx:49-55 | The node at `at` gets `level` and `parent`, then each child's subtree in order gets `level + 1` with this node as parent. Nothing outside that subtree changes. |
| Hierarchy.TransformData | src/components/MindmapVisualization.tsx:40-59 | The root has id 0, title `data.root`, description `"Main topic: " + data.root`, and children `data.nodes` (empty when absent). The whole tree is then annotated from level 0 with an undefined parent. |
| Hierarchy.AnnotatedAt | src/components/MindmapVisualization.tsx:49-55 | The walk started at `at` writes exactly the positions of the subtree below `at`. Each gets the start level plus its distance from `at`, and its parent is the position one step up. |
| Hierarchy.ChildAnnotatedAt | src/components/MindmapVisualization.tsx:52-54 | The walks on the first i children write exactly the positions whose first step below `at` is a child index under i. |
| Hierarchy.TreeAnnotation | src/components/MindmapVisualization.tsx:49-57 | After `addLevelInfo(root)`, a position is annotated iff it is a node of the tree. It carries its depth as level and the position one step up as parent; the root's parent is undefined. |
| Hierarchy.RootAnnotation | src/components/MindmapVisualization.tsx:57 | The synthetic root gets level 0 and an undefined parent. |
| Hierarchy.ChildPath | src/components/MindmapVisualization.tsx:53 | Each child of a node of the tree is itself a node of the tree, one step further down. |
| Hierarchy.EdgeAnnotation | src/components/MindmapVisualization.tsx:50-53 | At every depth and branching, a child's level is its parent's plus one. Its `parent` is the node whose `children` list holds it. |
| Hierarchy.InputNodesAnnotated | src/components/MindmapVisualization.tsx:45 | The response's own node objects are the ones annotated: `data.nodes[i]` and its descendants get their depth under the synthetic root. |
| Hierarchy.TopLevelNodes | src/components/MindmapVisualization.tsx:45 | The root's children are `data.nodes` when it is present, and the empty list when it is absent. |
| Hierarchy.TransformDataTwice | src/components/MindmapVisualization.tsx:90 | When the drawing effect runs `transformData` again on the same response, both runs build the same root value. After the second run every node's level is the one the first run gave it, its depth. |
| Hierarchy.MusicExample | src/components/MindmapVisualization.tsx:40-59 | A response with root "Music" and one node "Genres" gives a two-node tree: root at level 0, child at level 1. |
| NodeRendering.NodeColor | src/components/MindmapVisualization.tsx:61-70 | Depths 0 to 4 take the five palette entries in order; after that the colour repeats with period 5. |
| NodeRendering.NearbyDepthsDiffer | src/components/MindmapVisualization.tsx:69 | Two depths fewer than five apart never get the same colour. |
| NodeRendering.CircleRadius | src/components/MindmapVisualization.tsx:145 | The rest radius is in [20, 40]: 40 at the root, and 20 from depth 3 on. |
| NodeRendering.CircleRadiusNonIncreasing | src/components/MindmapVisualization.tsx:145 | A deeper node never has a larger circle. |
| NodeRendering.HoverRadius | src/components/MindmapVisualization.tsx:155 | At every depth the hover radius is exactly the rest radius plus 5. |
| NodeRendering.MaxLabelLength | src/components/MindmapVisualization.tsx:183 | A label keeps between 8 and 20 characters: 20 at the root, and 8 from depth 4 on. |
| NodeRendering.Label | src/components/MindmapVisualization.tsx:182-187 | A title longer than the bound m becomes its first m characters followed by "...", of length m + 3. A shorter title is shown unchanged. |
| NodeRendering.LabelBound | src/components/MindmapVisualization.tsx:183-186 | A label is never longer than the bound plus the ellipsis. It is longer than the title only when the title was cut. |
| NodeRendering.FontSize | src/components/MindmapVisualization.tsx:188 | The font size is in [10, 14]: 14 at the root, and 10 from depth 2 on. |
| NodeRendering.FontSizeNonIncreasing | src/components/MindmapVisualization.tsx:188 | A deeper node never has a larger font. |
| NodeRendering.ToCartesian | src/components/MindmapVisualization.tsx:103-113 | Each laid-out node is overwritten in place: the depth-0 node goes to (0, 0), every other node goes through the polar conversion. |
| NodeRendering.HoverState.constructor | src/components/MindmapVisualization.tsx:33-34 | Initially no node is selected and the tooltip position is (0, 0). |
| NodeRendering.HoverState.MouseOver | src/components/MindmapVisualization.tsx:151-167 | The circle grows to the hover radius. When the container can be measured, the node is selected and the pointer position relative to the container is stored; otherwise the selection is unchanged. |
| NodeRendering.HoverState.MouseOut | src/components/MindmapVisualization.tsx:168-176 | The circle returns to its rest radius and the selection is cleared. |
| NodeRendering.HoverState.Tooltip | src/components/MindmapVisualization.tsx:295-300 | A tooltip is shown exactly while a node is selected, for that node at the stored position. |
| MindmapTooltip.Tooltip | src/components/MindmapTooltip.tsx:16-43 | The panel sits at left = x + 20 and top = y - 10. It is flipped iff x > 600 (otherwise its transform is "none"). Title and description are shown verbatim. The badge is shown iff the node has a child. |
| MindmapTooltip.BadgeText | src/components/MindmapTooltip.tsx:36 | The badge starts with the count's digits, then " subtopic". It ends in "s" iff the count is not 1. |
| MindmapTooltip.BadgeCount | src/components/MindmapTooltip.tsx:36 | Reading the badge's leading digits back gives the number of direct children. |
| JsText.TrimStart | src/pages/Index.tsx:24 | The result is a suffix of the input. Every character dropped is whitespace or a line terminator, and the result does not start with one. |
| JsText.TrimEnd | src/pages/Index.tsx:24 | The result is a prefix of the input. Every character dropped is whitespace or a line terminator, and the result does not end with one. |
| JsText.Trim | src/pages/Index.tsx:24 | `description.trim()` is a slice of the description. Only whitespace and line terminators are dropped, from the front and from the back, and neither end of the result is one. |
| JsText.TrimEmptyIff | src/pages/Index.tsx:24 | A description trims to the empty string iff every character of it is whitespace or a line terminator. |
| JsText.DecimalString | src/components/MindmapTooltip.tsx:36 | A count is rendered as one or more decimal digits with no leading zero. |
| JsText.DecimalRoundTrip | src/components/MindmapTooltip.tsx:36 | Parsing the rendered count gives the count back. |
| IndexPage.ErrorMessage | src/pages/Index.tsx:52 | A thrown Error contributes its own message; any other thrown value gives "An error occurred". |
| IndexPage.Settle | src/pages/Index.tsx:32-54 | A non-ok response fails with "Failed to generate mindmap". A thrown Error fails with its message, and any other thrown value with "An error occurred". Only an ok response with a parsed body yields data, and then exactly that body. |
| IndexPage.View | src/pages/Index.tsx:77-106 | While loading, only the loading panel shows. Otherwise the form shows iff there is no data, the visualization iff there is data, and the error panel iff the error is a non-empty string. |
| IndexPage.Index.constructor | src/pages/Index.tsx:19-21 | The page starts not loading, with no data and no error. |
| IndexPage.Index.BeginGenerate | src/pages/Index.tsx:23-42 | A blank description changes nothing and sends nothing. Otherwise `isLoading` becomes true and `error` null, the untrimmed description is sent, and until the request ends only the loading panel shows. |
| IndexPage.Index.FinishGenerate | src/pages/Index.tsx:44-57 | `isLoading` ends false. On success `mindmapData` is the parsed body and `error` is untouched. On failure `mindmapData` is kept and `error` holds the message. |
| IndexPage.Index.HandleGenerateMindmap | src/pages/Index.tsx:23-58 | The whole handler: the blank case as above; otherwise `isLoading` ends false, with the data and null error on success, or the data kept and the message set on failure. Started from the form, the page never ends showing both the visualization and an error. |
| IndexPage.Index.HandleNewMindmap | src/pages/Index.tsx:60-63 | `mindmapData` and `error` are cleared, whatever they held before. |
| IndexPage.BlankDescriptionScenario | src/pages/Index.tsx:24-27 | A whitespace-only description sends no request, and the idle form stays. |
| IndexPage.FailedRequestScenario | src/pages/Index.tsx:44-63 | A non-ok response from the idle page shows both the form and the error panel with the fixed message. "Try Again" returns to the idle form. |
| IndexPage.GeneratedScenario | src/pages/Index.tsx:48-49 | A successful request from the idle page shows only the visualization. |

## Left out

- The radial layout itself (d3 `tree().size(...).separation(...)`) is a
  foreign library. Its sibling/cross-family separation weighting is visual
  tuning.
- The cosine/sine conversion of non-root nodes is floating-point work.
  `NodeRendering.ToCartesian` takes it as a function parameter, and the link
  path strings are not modelled.
- Zoom and pan (scale extent [0.1, 4], zoom in/out by 1.5, reset, and the
  callbacks attached to the SVG element) are behaviour enforced inside d3.
- Entrance transitions, staggered delays, drop shadows and the HSL colour
  strings are cosmetic. A colour is a palette entry (`NodeRendering.Hue`).
- The HTTP request, JSON parsing and toast notifications are I/O. The request
  is an `IndexPage.Outcome` parameter. A parsed body is either a value of the
  response's shape or JSON null; other parsed shapes are not modelled.
- A request that never ends (the page stays loading) is `BeginGenerate` with
  no `FinishGenerate` after it.
- The loading panel (`LoadingState.tsx`) is static markup. The input form
  (`MindmapInput.tsx`) is form wiring whose own `trim` check only disables its
  button; the binding check is the page's.
- The `resources` field of a node is never read by the client, and
  `MindmapModel.Node` omits it.
- A node's missing `children` field is modelled as an empty list. Both
  readers (the annotation walk and the badge) treat the two the same.
- Node object identity is modelled by a node's position in the tree. Within
  one run of `transformData` this is exact, because a tree that comes from
  JSON cannot share a node between two positions. A `NodeStore` stands for
  the nodes of one response only; reusing it for a different response would
  merge different nodes that sit at the same position.
- Hierarchy.TransformDataTwice: states that levels are the same after a
  re-run, not parents. Each run builds a new synthetic root object, and the
  top-level nodes' `parent` then points at that new object. Position `[]`
  does not tell the two root objects apart, so the model cannot state that
  the parent changed.
- NodeRendering.Label: lengths and cuts count Unicode characters, whereas
  JavaScript counts UTF-16 code units. The two differ only for titles with
  characters outside the Basic Multilingual Plane.
- NodeRendering.HoverState.MouseOver: the pointer and container coordinates
  are integers, whereas `clientX`/`clientY` and `getBoundingClientRect` give
  JavaScript numbers, which may be fractional.
- MindmapTooltip.Tooltip: positions are integers, whereas the source's are
  JavaScript numbers, which may be fractional.
