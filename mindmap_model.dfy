/** The data the generation service returns, shared by the visualization,
    the tooltip and the page. */
module MindmapModel {

  datatype Option<+T> = None | Some(value: T)

  /** A mindmap node as the service sends it. The fields the visualization
      adds later (level, parent, the layout coordinates) are not part of the
      value: they are kept by Hierarchy.NodeStore and NodeRendering.
      A node whose `children` field is absent is represented with [],
      which every reader of the field treats the same way. */
  datatype Node = Node(id: int, title: string, description: string, children: seq<Node>)

  /** The response body: the root topic's title and the top-level nodes.
      `nodes` is None when the field is absent or null. */
  datatype MindmapData = MindmapData(root: string, nodes: Option<seq<Node>>)
}
