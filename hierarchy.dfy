/** transformData and addLevelInfo of the mindmap visualization: wrap the
    response in a synthetic root and write `level` and `parent` into every
    node of the tree.

    The tree's id, title, description and children are never written, so the
    tree is a value (MindmapModel.Node). The two properties the walk does
    write belong to the node objects; NodeStore keeps them, indexed by each
    node's position in the tree: the sequence of child indexes that leads
    from the synthetic root to it. A JSON tree shares no node between two
    positions, so a position stands for exactly one node object; position
    [i] is the object data.nodes[i] itself, because the root's children list
    is data.nodes. */
module Hierarchy {
  import opened MindmapModel

  /** A node's position: child indexes from the synthetic root. */
  type Path = seq<nat>

  /** What addLevelInfo writes into one node: its level and its parent
      (None for `undefined`, else the parent's position). */
  datatype Annotation = Annotation(level: nat, parent: Option<Path>)

  /** `data.nodes || []`. */
  function TopLevelNodes(data: MindmapData): (nodes: seq<Node>)
    ensures data.nodes.Some? ==> nodes == data.nodes.value
    ensures data.nodes.None? ==> nodes == []
  {
    match data.nodes
    case Some(nodes) => nodes
    case None => []
  }

  /** p leads from n to a node of n's tree. */
  predicate IsPath(n: Node, p: Path)
    decreases p
  {
    p == [] || (p[0] < |n.children| && IsPath(n.children[p[0]], p[1..]))
  }

  /** The node at position p of n's tree. */
  function Subtree(n: Node, p: Path): Node
    requires IsPath(n, p)
    decreases p
  {
    if p == [] then n else Subtree(n.children[p[0]], p[1..])
  }

  /** What addLevelInfo(n, level, parent) writes when n sits at position `at`:
      n first, then each child's subtree in order. */
  function Annotated(n: Node, at: Path, level: nat, parent: Option<Path>): map<Path, Annotation>
    decreases n, 1
  {
    map[at := Annotation(level, parent)] + ChildAnnotated(n, at, level + 1, |n.children|)
  }

  /** What the calls on n's first i children write. */
  function ChildAnnotated(n: Node, at: Path, level: nat, i: nat): map<Path, Annotation>
    requires i <= |n.children|
    decreases n, 0, i
  {
    if i == 0 then map[]
    else ChildAnnotated(n, at, level, i - 1) + Annotated(n.children[i - 1], at + [i - 1], level, Some(at))
  }

  lemma UnionAssoc<K, V>(a: map<K, V>, b: map<K, V>, c: map<K, V>)
    ensures (a + b) + c == a + (b + c)
  {
  }

  /** The node objects' `level` and `parent` properties. */
  class NodeStore {
    var annotation: map<Path, Annotation>

    constructor ()
      ensures annotation == map[]
    {
      annotation := map[];
    }

    /** addLevelInfo(node, level, parent) for the node at position `at`. */
    method AddLevelInfo(node: Node, at: Path, level: nat, parent: Option<Path>)
      modifies this
      ensures annotation == old(annotation) + Annotated(node, at, level, parent)
      decreases node
    {
      annotation := annotation[at := Annotation(level, parent)];
      ghost var start := annotation;
      assert start == old(annotation) + map[at := Annotation(level, parent)];
      var i := 0;
      while i < |node.children|
        invariant i <= |node.children|
        invariant annotation == start + ChildAnnotated(node, at, level + 1, i)
      {
        AddLevelInfo(node.children[i], at + [i], level + 1, Some(at));
        UnionAssoc(start, ChildAnnotated(node, at, level + 1, i),
          Annotated(node.children[i], at + [i], level + 1, Some(at)));
        i := i + 1;
      }
      UnionAssoc(old(annotation), map[at := Annotation(level, parent)],
        ChildAnnotated(node, at, level + 1, |node.children|));
    }
  }

  /** transformData(data): builds the synthetic root and annotates its tree. */
  method TransformData(data: MindmapData, store: NodeStore) returns (root: Node)
    modifies store
    ensures root.id == 0 && root.title == data.root
    ensures root.description == "Main topic: " + data.root
    ensures data.nodes.Some? ==> root.children == data.nodes.value
    ensures data.nodes.None? ==> root.children == []
    ensures store.annotation == old(store.annotation) + Annotated(root, [], 0, None)
  {
    root := Node(0, data.root, "Main topic: " + data.root, TopLevelNodes(data));
    store.AddLevelInfo(root, [], 0, None);
  }

  /** The positions addLevelInfo(n, level, parent) writes at `at` are exactly
      those of n's tree below `at`; each gets `level` plus its distance from
      `at`, and its parent is the position one step up (`parent` for `at`). */
  lemma {:induction false} AnnotatedAt(n: Node, at: Path, level: nat, parent: Option<Path>, k: Path)
    ensures k in Annotated(n, at, level, parent) <==>
      |at| <= |k| && k[..|at|] == at && IsPath(n, k[|at|..])
    ensures k in Annotated(n, at, level, parent) ==>
      Annotated(n, at, level, parent)[k] ==
        Annotation(level + |k| - |at|, if k == at then parent else Some(k[..|k| - 1]))
    decreases n, 1
  {
    ChildAnnotatedAt(n, at, level + 1, |n.children|, k);
    if |at| <= |k| && k[..|at|] == at && k != at {
      var rest := k[|at|..];
      assert rest != [];
      assert rest[0] == k[|at|] && rest[1..] == k[|at| + 1..];
    }
    if |at| == |k| && k[..|at|] == at {
      assert k == at;
    }
  }

  /** The positions the calls on n's first i children write: those below
      `at` whose first step is a child index under i. */
  lemma {:induction false} ChildAnnotatedAt(n: Node, at: Path, level: nat, i: nat, k: Path)
    requires i <= |n.children|
    ensures k in ChildAnnotated(n, at, level, i) <==>
      |at| < |k| && k[..|at|] == at && k[|at|] < i && IsPath(n.children[k[|at|]], k[|at| + 1..])
    ensures k in ChildAnnotated(n, at, level, i) ==>
      ChildAnnotated(n, at, level, i)[k] == Annotation(level + |k| - |at| - 1, Some(k[..|k| - 1]))
    decreases n, 0, i
  {
    if i > 0 {
      var child := n.children[i - 1];
      var at' := at + [i - 1];
      ChildAnnotatedAt(n, at, level, i - 1, k);
      AnnotatedAt(child, at', level, Some(at), k);
      if |at'| <= |k| && k[..|at'|] == at' {
        assert k[..|at|] == at && k[|at|] == i - 1;
        assert k[|at'|..] == k[|at| + 1..];
        if k == at' {
          assert k[..|k| - 1] == at;
        }
      }
      if |at| < |k| && k[..|at|] == at && k[|at|] == i - 1 {
        assert k[..|at'|] == at';
      }
    }
  }

  /** What addLevelInfo(root) writes: every node of the tree, and nothing
      else, gets its depth as `level` and the position one step up as
      `parent`; the root's parent is undefined. */
  lemma TreeAnnotation(root: Node, k: Path)
    ensures k in Annotated(root, [], 0, None) <==> IsPath(root, k)
    ensures k in Annotated(root, [], 0, None) ==>
      Annotated(root, [], 0, None)[k] ==
        Annotation(|k|, if k == [] then None else Some(k[..|k| - 1]))
  {
    AnnotatedAt(root, [], 0, None, k);
    assert k[..0] == [] && k[0..] == k;
  }

  /** The root gets level 0 and an undefined parent. */
  lemma RootAnnotation(root: Node)
    ensures [] in Annotated(root, [], 0, None)
    ensures Annotated(root, [], 0, None)[[]] == Annotation(0, None)
  {
    TreeAnnotation(root, []);
  }

  lemma {:induction false} ChildPath(n: Node, p: Path, i: nat)
    requires IsPath(n, p) && i < |Subtree(n, p).children|
    ensures IsPath(n, p + [i]) && Subtree(n, p + [i]) == Subtree(n, p).children[i]
    decreases p
  {
    if p == [] {
      assert [] + [i] == [i] && [i][1..] == [];
    } else {
      ChildPath(n.children[p[0]], p[1..], i);
      assert (p + [i])[1..] == p[1..] + [i];
    }
  }

  /** Along every edge of the tree, at any depth: the child's level is its
      parent's plus one, and the child's `parent` is the node whose children
      list holds it. */
  lemma EdgeAnnotation(root: Node, p: Path, i: nat)
    requires IsPath(root, p) && i < |Subtree(root, p).children|
    ensures IsPath(root, p + [i]) && Subtree(root, p + [i]) == Subtree(root, p).children[i]
    ensures p in Annotated(root, [], 0, None) && p + [i] in Annotated(root, [], 0, None)
    ensures Annotated(root, [], 0, None)[p + [i]].level == Annotated(root, [], 0, None)[p].level + 1
    ensures Annotated(root, [], 0, None)[p + [i]].parent == Some(p)
  {
    ChildPath(root, p, i);
    TreeAnnotation(root, p);
    TreeAnnotation(root, p + [i]);
    assert (p + [i])[..|p + [i]| - 1] == p;
  }

  /** The response's own node objects are annotated: data.nodes[i] and
      everything below it get their depth under the synthetic root. */
  lemma InputNodesAnnotated(data: MindmapData, i: nat, q: Path)
    requires i < |TopLevelNodes(data)| && IsPath(TopLevelNodes(data)[i], q)
    ensures
      var root := Node(0, data.root, "Main topic: " + data.root, TopLevelNodes(data));
      var k := [i] + q;
      IsPath(root, k) && Subtree(root, k) == Subtree(TopLevelNodes(data)[i], q) &&
      k in Annotated(root, [], 0, None) && Annotated(root, [], 0, None)[k].level == 1 + |q|
  {
    var root := Node(0, data.root, "Main topic: " + data.root, TopLevelNodes(data));
    var k := [i] + q;
    assert k[0] == i && k[1..] == q;
    TreeAnnotation(root, k);
  }

  /** The drawing effect runs transformData again on the same response: both
      runs build the same root value, and after the second run every node of
      the tree has the level the first run gave it, its depth. */
  method TransformDataTwice(data: MindmapData, store: NodeStore)
    returns (first: Node, firstLevels: map<Path, nat>, second: Node)
    modifies store
    ensures first == second
    ensures forall k :: IsPath(first, k) ==>
      k in firstLevels && k in store.annotation &&
      store.annotation[k].level == firstLevels[k] == |k|
  {
    first := TransformData(data, store);
    firstLevels := map k | k in store.annotation :: store.annotation[k].level;
    ghost var afterFirst := store.annotation;
    second := TransformData(data, store);
    forall k | IsPath(first, k)
      ensures k in firstLevels && k in store.annotation &&
        store.annotation[k].level == firstLevels[k] == |k|
    {
      TreeAnnotation(first, k);
    }
  }

  /** A response with root "Music" and one node "Genres". */
  method MusicExample() returns (root: Node, rootLevel: nat, childLevel: nat)
    ensures root.title == "Music" && |root.children| == 1 && root.children[0].title == "Genres"
    ensures rootLevel == 0 && childLevel == 1
  {
    var store := new NodeStore();
    var genres := Node(1, "Genres", "...", []);
    root := TransformData(MindmapData("Music", Some([genres])), store);
    RootAnnotation(root);
    EdgeAnnotation(root, [], 0);
    assert [] + [0] == [0];
    rootLevel := store.annotation[[]].level;
    childLevel := store.annotation[[0]].level;
  }
}
