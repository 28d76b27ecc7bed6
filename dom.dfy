/**
 * The DOM tree of the browser engine.
 *
 * The source builds the tree from reference-counted nodes whose `children`
 * and `parent` cells are updated in place. Here the nodes live in an arena
 * (`Arena`, a map from node id to the node's record) owned by a `Document`
 * object; read-only queries work on the value `Node` tree of a subtree,
 * obtained from the arena by `Subtree`.
 */
module Dom {
  import opened Wrappers

  /** The three kinds of node: the document root, an element and a text run. */
  datatype NodeKind =
    | DocumentNode
    | Element(tagName: string, attributes: map<string, string>)
    | Text(text: string)

  /** A node of the tree seen as a value: its id, its kind and its children in order. */
  datatype Node = Node(id: nat, kind: NodeKind, children: seq<Node>)

  // ---------------------------------------------------------------------
  // Queries on a subtree
  // ---------------------------------------------------------------------

  /** Concatenation of a sequence of strings. */
  function Concat(ss: seq<string>): string {
    if ss == [] then [] else ss[0] + Concat(ss[1..])
  }

  lemma {:induction false} ConcatAppend(a: seq<string>, b: seq<string>)
    ensures Concat(a + b) == Concat(a) + Concat(b)
  {
    if a == [] {
      assert a + b == b;
    } else {
      assert (a + b)[1..] == a[1..] + b;
      ConcatAppend(a[1..], b);
    }
  }

  /** `Node::text_content`: a text node's own string, else the children's text contents in order. */
  function TextContent(n: Node): string
    decreases n, 1
  {
    match n.kind
    case Text(t) => t
    case _ => ForestTextContent(n.children)
  }

  function ForestTextContent(ns: seq<Node>): string
    decreases ns, 0
  {
    if ns == [] then [] else TextContent(ns[0]) + ForestTextContent(ns[1..])
  }

  /** Preorder: the node, then the preorder of each child in turn. */
  function Preorder(n: Node): (r: seq<Node>)
    ensures |r| >= 1 && r[0] == n
    decreases n, 1
  {
    [n] + ForestPreorder(n.children)
  }

  function ForestPreorder(ns: seq<Node>): seq<Node>
    decreases ns, 0
  {
    if ns == [] then [] else Preorder(ns[0]) + ForestPreorder(ns[1..])
  }

  lemma {:induction false} ForestPreorderAppend(a: seq<Node>, b: seq<Node>)
    ensures ForestPreorder(a + b) == ForestPreorder(a) + ForestPreorder(b)
  {
    if a == [] {
      assert a + b == b;
    } else {
      assert (a + b)[1..] == a[1..] + b;
      ForestPreorderAppend(a[1..], b);
    }
  }

  /** Text nodes are leaves, as in every tree the engine builds. */
  predicate TextLeaves(n: Node)
    decreases n, 1
  {
    (n.kind.Text? ==> n.children == []) && ForestTextLeaves(n.children)
  }

  predicate ForestTextLeaves(ns: seq<Node>)
    decreases ns, 0
  {
    ns == [] || (TextLeaves(ns[0]) && ForestTextLeaves(ns[1..]))
  }

  /** The strings of the text nodes in a list of nodes, in order. */
  function TextsOf(ns: seq<Node>): seq<string> {
    if ns == [] then []
    else (if ns[0].kind.Text? then [ns[0].kind.text] else []) + TextsOf(ns[1..])
  }

  lemma {:induction false} TextsOfAppend(a: seq<Node>, b: seq<Node>)
    ensures TextsOf(a + b) == TextsOf(a) + TextsOf(b)
  {
    if a == [] {
      assert a + b == b;
    } else {
      assert (a + b)[1..] == a[1..] + b;
      TextsOfAppend(a[1..], b);
    }
  }

  /**
   * `text_content` is the in-order concatenation of the text nodes of the
   * subtree, visited in preorder.
   */
  lemma {:induction false} TextContentIsPreorderText(n: Node)
    requires TextLeaves(n)
    ensures TextContent(n) == Concat(TextsOf(Preorder(n)))
    decreases n, 1
  {
    if n.kind.Text? {
      assert Preorder(n) == [n];
      assert TextsOf([n]) == [n.kind.text] + TextsOf([]);
    } else {
      assert ForestTextLeaves(n.children);
      ForestTextContentIsPreorderText(n.children);
      assert TextContent(n) == ForestTextContent(n.children);
      assert Preorder(n) == [n] + ForestPreorder(n.children);
      TextsOfAppend([n], ForestPreorder(n.children));
      assert TextsOf([n]) == [] + TextsOf([]);
      assert TextsOf(Preorder(n)) == TextsOf(ForestPreorder(n.children));
    }
  }

  lemma {:induction false} ForestTextContentIsPreorderText(ns: seq<Node>)
    requires ForestTextLeaves(ns)
    ensures ForestTextContent(ns) == Concat(TextsOf(ForestPreorder(ns)))
    decreases ns, 0
  {
    if ns != [] {
      TextContentIsPreorderText(ns[0]);
      ForestTextContentIsPreorderText(ns[1..]);
      TextsOfAppend(Preorder(ns[0]), ForestPreorder(ns[1..]));
      ConcatAppend(TextsOf(Preorder(ns[0])), TextsOf(ForestPreorder(ns[1..])));
    }
  }

  predicate IsElementNamed(n: Node, tag: string) {
    n.kind.Element? && n.kind.tagName == tag
  }

  /** The copy the source returns for a match: same id and kind, no children. */
  function Detached(n: Node): Node {
    Node(n.id, n.kind, [])
  }

  /** Detached copies of the nodes of `ns` that are elements named `tag`, in order. */
  function MatchesIn(ns: seq<Node>, tag: string): seq<Node> {
    if ns == [] then []
    else (if IsElementNamed(ns[0], tag) then [Detached(ns[0])] else []) + MatchesIn(ns[1..], tag)
  }

  lemma {:induction false} MatchesInAppend(a: seq<Node>, b: seq<Node>, tag: string)
    ensures MatchesIn(a + b, tag) == MatchesIn(a, tag) + MatchesIn(b, tag)
  {
    if a == [] {
      assert a + b == b;
    } else {
      assert (a + b)[1..] == a[1..] + b;
      MatchesInAppend(a[1..], b, tag);
    }
  }

  /** `Node::get_elements_by_tag_name`: the node itself if it matches, then each child's matches. */
  function ElementsByTagName(n: Node, tag: string): seq<Node>
    decreases n, 1
  {
    (if IsElementNamed(n, tag) then [Detached(n)] else []) + ForestElementsByTagName(n.children, tag)
  }

  function ForestElementsByTagName(ns: seq<Node>, tag: string): seq<Node>
    decreases ns, 0
  {
    if ns == [] then [] else ElementsByTagName(ns[0], tag) + ForestElementsByTagName(ns[1..], tag)
  }

  /**
   * `get_elements_by_tag_name` returns the childless copies of exactly the
   * preorder nodes that are elements with that tag, in preorder, the node itself included.
   */
  lemma {:induction false} ElementsByTagNameIsPreorderFilter(n: Node, tag: string)
    ensures ElementsByTagName(n, tag) == MatchesIn(Preorder(n), tag)
    decreases n, 1
  {
    ForestElementsByTagNameIsPreorderFilter(n.children, tag);
    MatchesInAppend([n], ForestPreorder(n.children), tag);
    assert MatchesIn([n], tag) == (if IsElementNamed(n, tag) then [Detached(n)] else []) + MatchesIn([], tag);
  }

  lemma {:induction false} ForestElementsByTagNameIsPreorderFilter(ns: seq<Node>, tag: string)
    ensures ForestElementsByTagName(ns, tag) == MatchesIn(ForestPreorder(ns), tag)
    decreases ns, 0
  {
    if ns != [] {
      ElementsByTagNameIsPreorderFilter(ns[0], tag);
      ForestElementsByTagNameIsPreorderFilter(ns[1..], tag);
      MatchesInAppend(Preorder(ns[0]), ForestPreorder(ns[1..]), tag);
    }
  }

  /** Every result of `get_elements_by_tag_name` is a childless element with the requested tag. */
  lemma {:induction false} MatchesInShape(ns: seq<Node>, tag: string)
    ensures forall i :: 0 <= i < |MatchesIn(ns, tag)| ==>
      IsElementNamed(MatchesIn(ns, tag)[i], tag) && MatchesIn(ns, tag)[i].children == []
  {
    if ns != [] {
      MatchesInShape(ns[1..], tag);
    }
  }

  /** `Node::get_element_by_tag_name`: depth-first search for the first match. */
  function ElementByTagName(n: Node, tag: string): Option<Node>
    decreases n, 1
  {
    if IsElementNamed(n, tag) then Some(Detached(n)) else ForestElementByTagName(n.children, tag)
  }

  function ForestElementByTagName(ns: seq<Node>, tag: string): Option<Node>
    decreases ns, 0
  {
    if ns == [] then None
    else
      match ElementByTagName(ns[0], tag)
      case Some(found) => Some(found)
      case None => ForestElementByTagName(ns[1..], tag)
  }

  function FirstOf(ns: seq<Node>): Option<Node> {
    if ns == [] then None else Some(ns[0])
  }

  /** `get_element_by_tag_name` is the first element of `get_elements_by_tag_name`, or None. */
  lemma {:induction false} ElementByTagNameIsFirst(n: Node, tag: string)
    ensures ElementByTagName(n, tag) == FirstOf(ElementsByTagName(n, tag))
    decreases n, 1
  {
    ForestElementByTagNameIsFirst(n.children, tag);
  }

  lemma {:induction false} ForestElementByTagNameIsFirst(ns: seq<Node>, tag: string)
    ensures ForestElementByTagName(ns, tag) == FirstOf(ForestElementsByTagName(ns, tag))
    decreases ns, 0
  {
    if ns != [] {
      ElementByTagNameIsFirst(ns[0], tag);
      ForestElementByTagNameIsFirst(ns[1..], tag);
    }
  }

  // ---------------------------------------------------------------------
  // The arena and the Document object
  // ---------------------------------------------------------------------

  /** The record of one node: its kind, its parent link and its children's ids. */
  datatype NodeData = NodeData(kind: NodeKind, parent: Option<nat>, children: seq<nat>)

  type Arena = map<nat, NodeData>

  /**
   * The arena is a forest: every id is below `bound`, every child has a larger
   * id than its parent and links back to it, and every parent link points to
   * a node that lists the child.
   */
  ghost predicate WellFormed(a: Arena, bound: nat) {
    (forall id :: id in a ==> id < bound)
    && (forall id, i :: id in a && 0 <= i < |a[id].children| ==>
          a[id].children[i] in a && id < a[id].children[i] && a[a[id].children[i]].parent == Some(id))
    && (forall id :: id in a && a[id].parent.Some? ==>
          a[id].parent.value in a && a[id].parent.value < id && id in a[a[id].parent.value].children)
  }

  /** The arena after `child` is appended to `parent`'s children and linked back to it. */
  function Linked(a: Arena, parent: nat, child: nat): (r: Arena)
    requires parent in a && child in a && parent != child
    ensures r.Keys == a.Keys
    ensures r[parent].children == a[parent].children + [child] && r[parent].kind == a[parent].kind
    ensures r[child].parent == Some(parent) && r[child].kind == a[child].kind
    ensures forall id :: id in a && id != parent && id != child ==> r[id] == a[id]
  {
    a[parent := a[parent].(children := a[parent].children + [child])][child := a[child].(parent := Some(parent))]
  }

  /** Linking a parentless node under a node with a smaller id keeps the arena well formed. */
  lemma LinkedWellFormed(a: Arena, bound: nat, parent: nat, child: nat)
    requires WellFormed(a, bound) && parent in a && child in a
    requires a[child].parent == None && parent < child
    ensures WellFormed(Linked(a, parent, child), bound)
  {
    var r := Linked(a, parent, child);
    forall id, i | id in r && 0 <= i < |r[id].children|
      ensures r[id].children[i] in r && id < r[id].children[i] && r[r[id].children[i]].parent == Some(id)
    {
      if id == parent && i == |a[parent].children| {
        assert r[id].children[i] == child;
      } else {
        assert r[id].children[i] == a[id].children[i];
        var c := a[id].children[i];
        assert a[c].parent == Some(id);
        assert c != child;
      }
    }
    forall id | id in r && r[id].parent.Some?
      ensures r[id].parent.value in r && r[id].parent.value < id && id in r[r[id].parent.value].children
    {
      if id != child {
        var p := a[id].parent.value;
        assert id in a[p].children;
        assert id in r[p].children;
      }
    }
  }

  /** The value tree rooted at `id`. */
  function Subtree(a: Arena, bound: nat, id: nat): Node
    requires WellFormed(a, bound) && id in a
    decreases bound - id
  {
    var cs := a[id].children;
    Node(id, a[id].kind, seq(|cs|, i requires 0 <= i < |cs| => Subtree(a, bound, cs[i])))
  }

  lemma {:induction false} InForestPreorder(ns: seq<Node>, m: Node)
    requires m in ForestPreorder(ns)
    ensures exists i :: 0 <= i < |ns| && m in Preorder(ns[i])
  {
    if m !in Preorder(ns[0]) {
      InForestPreorder(ns[1..], m);
      var i :| 0 <= i < |ns[1..]| && m in Preorder(ns[1..][i]);
      assert ns[1..][i] == ns[i + 1];
    }
  }

  /** Every node of a subtree is a node of the arena. */
  lemma {:induction false} SubtreeNodesInArena(a: Arena, bound: nat, id: nat, m: Node)
    requires WellFormed(a, bound) && id in a && m in Preorder(Subtree(a, bound, id))
    ensures m.id in a
    decreases bound - id
  {
    var t := Subtree(a, bound, id);
    if m != t {
      assert m in ForestPreorder(t.children);
      InForestPreorder(t.children, m);
      var i :| 0 <= i < |t.children| && m in Preorder(t.children[i]);
      var c := a[id].children[i];
      assert t.children[i] == Subtree(a, bound, c);
      SubtreeNodesInArena(a, bound, c, m);
    }
  }

  class Document {
    /** Every node created through this document, by id. */
    var nodes: Arena
    /** The id counter: the next id `create_node` or `get_next_id` hands out. */
    var nextId: nat

    ghost predicate Valid()
      reads this
    {
      WellFormed(nodes, nextId)
      && 0 in nodes && nodes[0].kind == DocumentNode && nodes[0].parent == None
    }

    /** `Document::new`: a lone Document root with id 0, and the counter at 1. */
    constructor ()
      ensures Valid()
      ensures nodes == map[0 := NodeData(DocumentNode, None, [])] && nextId == 1
    {
      nodes := map[0 := NodeData(DocumentNode, None, [])];
      nextId := 1;
    }

    /** `Document::get_next_id`: hands out the counter and increments it. */
    method GetNextId() returns (id: nat)
      requires Valid()
      modifies this`nextId
      ensures Valid()
      ensures id == old(nextId) && nextId == id + 1 && id > 0
      ensures id !in nodes
    {
      id := nextId;
      nextId := nextId + 1;
    }

    /**
     * `Document::create_node` followed by `Node::new`: a fresh id, a node of
     * the given kind with no parent and no children, and the counter moved on.
     */
    method CreateNode(kind: NodeKind) returns (id: nat)
      requires Valid()
      modifies this
      ensures Valid()
      ensures id == old(nextId) && nextId == id + 1 && id > 0
      ensures id !in old(nodes)
      ensures nodes == old(nodes)[id := NodeData(kind, None, [])]
    {
      id := nextId;
      nodes := nodes[id := NodeData(kind, None, [])];
      nextId := nextId + 1;
    }

    /** `Document::create_element`: an element with no attributes. */
    method CreateElement(tag: string) returns (id: nat)
      requires Valid()
      modifies this
      ensures Valid()
      ensures id == old(nextId) && nextId == id + 1 && id !in old(nodes)
      ensures nodes == old(nodes)[id := NodeData(Element(tag, map[]), None, [])]
    {
      id := CreateNode(Element(tag, map[]));
    }

    /** `Document::create_text_node`. */
    method CreateTextNode(content: string) returns (id: nat)
      requires Valid()
      modifies this
      ensures Valid()
      ensures id == old(nextId) && nextId == id + 1 && id !in old(nodes)
      ensures nodes == old(nodes)[id := NodeData(Text(content), None, [])]
    {
      id := CreateNode(Text(content));
    }

    /**
     * `Node::append_child`: the child becomes the last child of `parent` and
     * its parent link is set; nothing else changes.
     */
    method AppendChild(parent: nat, child: nat)
      requires Valid()
      requires parent in nodes && child in nodes
      requires nodes[child].parent == None && parent < child
      modifies this`nodes
      ensures Valid()
      ensures nodes == Linked(old(nodes), parent, child)
    {
      LinkedWellFormed(nodes, nextId, parent, child);
      nodes := nodes[parent := nodes[parent].(children := nodes[parent].children + [child])][child := nodes[child].(parent := Some(parent))];
    }

    /** The whole document as a value tree. */
    function Root(): (r: Node)
      reads this
      requires Valid()
      ensures r.id == 0 && r.kind == DocumentNode
    {
      Subtree(nodes, nextId, 0)
    }

    /** `Document::document_element`: the first `html` element in preorder. */
    function DocumentElement(): (r: Option<Node>)
      reads this
      requires Valid()
      ensures r == FirstOf(ElementsByTagName(Root(), "html"))
    {
      ElementByTagNameIsFirst(Root(), "html");
      ElementByTagName(Root(), "html")
    }

    /** `Document::body`: the first `body` element in preorder. */
    function Body(): (r: Option<Node>)
      reads this
      requires Valid()
      ensures r == FirstOf(ElementsByTagName(Root(), "body"))
    {
      ElementByTagNameIsFirst(Root(), "body");
      ElementByTagName(Root(), "body")
    }
  }
}
