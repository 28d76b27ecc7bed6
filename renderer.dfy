/**
 * Text serialisers of the DOM tree (renderer/src/lib.rs): the indented tag
 * dump of `TextRenderer`, the space-joined text extraction of
 * `TextContentRenderer`, and `Renderer::render_document`, which walks a
 * document for either backend.
 *
 * Each backend appends to its `output` string while it walks the tree. Here
 * each backend is a class whose `output` field the methods extend, and every
 * method is proved equal to a specification function: the tag dump is a list
 * of `Line`s serialised to text, the extraction a list of texts joined by
 * spaces. The lemmas then state what those lists are: the dump is properly
 * nested, its quoted texts are the document's non-empty trimmed texts in
 * preorder, and the extraction joins those same texts.
 *
 * The `RenderBackend` trait is not reproduced: `render_document` and
 * `render_node` are written once per backend, as `RenderDocument` and
 * `RenderNode` on each class.
 */
module Renderer {
  import opened Wrappers
  import opened Text
  import opened Dom

  // ---------------------------------------------------------------------
  // Shapes of sequences, stated once for every element type
  // ---------------------------------------------------------------------

  lemma Associate<T>(a: seq<T>, b: seq<T>, c: seq<T>)
    ensures (a + b) + c == a + (b + c)
  {
  }

  lemma SplitLast<T>(s: seq<T>)
    requires s != []
    ensures s[..|s| - 1] + [s[|s| - 1]] == s
  {
  }

  lemma AppendInit<T>(a: seq<T>, b: seq<T>)
    requires b != []
    ensures |a + b| > 0 && (a + b)[..|a + b| - 1] == a + b[..|b| - 1] && (a + b)[|a + b| - 1] == b[|b| - 1]
  {
  }

  lemma PrefixStep<T>(s: seq<T>, i: nat)
    requires i < |s|
    ensures s[..i + 1][..i] == s[..i] && s[..i + 1][i] == s[i] && |s[..i + 1]| == i + 1
  {
  }

  lemma AppendTail<T>(a: seq<T>, b: seq<T>)
    requires a != []
    ensures (a + b)[0] == a[0] && (a + b)[1..] == a[1..] + b
  {
  }

  function ElementOr<T>(s: seq<T>, i: nat, d: T): T {
    if i < |s| then s[i] else d
  }

  /** A sequence of pairwise distinct values drawn from two values has at most two elements. */
  lemma DistinctInPair<T>(ks: seq<T>, k1: T, k2: T)
    requires forall m :: 0 <= m < |ks| ==> ks[m] == k1 || ks[m] == k2
    requires forall m, n :: 0 <= m < n < |ks| ==> ks[m] != ks[n]
    ensures |ks| <= 2
  {
    ghost var first, second, third := ElementOr(ks, 0, k1), ElementOr(ks, 1, k1), ElementOr(ks, 2, k1);
    if |ks| > 2 {
      assert false;
    }
  }

  lemma AppendEmpty<T>(a: seq<T>)
    ensures a + [] == a && [] + a == a
  {
  }

  // ---------------------------------------------------------------------
  // Attributes
  // ---------------------------------------------------------------------

  /**
   * The order in which a `HashMap` of attributes yields its entries. Rust
   * leaves that order unspecified, so the renderers take it as a parameter.
   */
  type AttributeOrder = map<string, string> -> seq<(string, string)>

  /** `ps` yields every attribute of `attrs` exactly once, with its value. */
  ghost predicate Enumerates<K, V>(ps: seq<(K, V)>, attrs: map<K, V>) {
    (forall i :: 0 <= i < |ps| ==> ps[i].0 in attrs && attrs[ps[i].0] == ps[i].1)
    && (forall i, j :: 0 <= i < j < |ps| ==> ps[i].0 != ps[j].0)
    && (forall k :: k in attrs ==> exists i :: 0 <= i < |ps| && ps[i].0 == k)
  }

  /** One attribute as printed: the bare name for an empty value, else `name="value"`. */
  function AttributeWord(name: string, value: string): string {
    if value == [] then name else name + "=\"" + value + "\""
  }

  function Words(ps: seq<(string, string)>): (r: seq<string>)
    ensures |r| == |ps|
    ensures forall i :: 0 <= i < |ps| ==> r[i] == AttributeWord(ps[i].0, ps[i].1)
  {
    seq(|ps|, i requires 0 <= i < |ps| => AttributeWord(ps[i].0, ps[i].1))
  }

  /** The attribute part of an open tag: empty, or a space and the words joined by spaces. */
  function AttributeText(attrs: map<string, string>, ps: seq<(string, string)>): string {
    if |attrs| == 0 then [] else " " + Join(Words(ps), " ")
  }

  /** Every attribute is printed, as its bare name when its value is empty and as `name="value"` otherwise. */
  lemma EveryAttributePrinted(attrs: map<string, string>, ps: seq<(string, string)>)
    requires Enumerates(ps, attrs)
    ensures forall k :: k in attrs ==> AttributeWord(k, attrs[k]) in Words(ps)
  {
    forall k | k in attrs
      ensures AttributeWord(k, attrs[k]) in Words(ps)
    {
      var i :| 0 <= i < |ps| && ps[i].0 == k;
      assert Words(ps)[i] == AttributeWord(k, attrs[k]);
    }
  }

  /** Nothing but attributes is printed. */
  lemma OnlyAttributesPrinted(attrs: map<string, string>, ps: seq<(string, string)>)
    requires Enumerates(ps, attrs)
    ensures forall w :: w in Words(ps) ==> exists k :: k in attrs && w == AttributeWord(k, attrs[k])
  {
    forall w | w in Words(ps)
      ensures exists k :: k in attrs && w == AttributeWord(k, attrs[k])
    {
      var i :| 0 <= i < |ps| && Words(ps)[i] == w;
      assert ps[i].0 in attrs && w == AttributeWord(ps[i].0, attrs[ps[i].0]);
    }
  }

  /**
   * The attribute part is empty exactly for an element without attributes;
   * otherwise it is a space and one word per attribute, joined by spaces.
   */
  lemma AttributeTextLists(attrs: map<string, string>, ps: seq<(string, string)>)
    requires Enumerates(ps, attrs)
    ensures attrs == map[] <==> AttributeText(attrs, ps) == []
    ensures attrs != map[] ==> ps != [] && AttributeText(attrs, ps) == " " + Join(Words(ps), " ")
  {
    if attrs != map[] {
      var k :| k in attrs;
      assert exists i :: 0 <= i < |ps| && ps[i].0 == k;
    }
  }

  /** A map of two entries is enumerated in one of its two orders. */
  lemma TwoEntries<K, V>(ps: seq<(K, V)>, m: map<K, V>, k1: K, v1: V, k2: K, v2: V)
    requires k1 != k2 && m == map[k1 := v1, k2 := v2]
    requires Enumerates(ps, m)
    ensures ps == [(k1, v1), (k2, v2)] || ps == [(k2, v2), (k1, v1)]
  {
    assert k1 in m && k2 in m;
    var i :| 0 <= i < |ps| && ps[i].0 == k1;
    var j :| 0 <= j < |ps| && ps[j].0 == k2;
    assert forall n :: 0 <= n < |ps| ==> ps[n].0 == k1 || ps[n].0 == k2;
    assert |ps| <= 2 by {
      DistinctInPair(seq(|ps|, n requires 0 <= n < |ps| => ps[n].0), k1, k2);
    }
    assert ps[i] == (k1, v1) && ps[j] == (k2, v2);
  }

  /** Two attributes come out as both words, in whichever order the map yields them. */
  lemma TwoAttributes(attrs: map<string, string>, ps: seq<(string, string)>, k1: string, v1: string, k2: string, v2: string)
    requires k1 != k2 && attrs == map[k1 := v1, k2 := v2]
    requires Enumerates(ps, attrs)
    ensures AttributeText(attrs, ps) == " " + (AttributeWord(k1, v1) + " " + AttributeWord(k2, v2))
         || AttributeText(attrs, ps) == " " + (AttributeWord(k2, v2) + " " + AttributeWord(k1, v1))
  {
    TwoEntries(ps, attrs, k1, v1, k2, v2);
    assert k1 in attrs;
    var w1, w2 := AttributeWord(k1, v1), AttributeWord(k2, v2);
    if ps == [(k1, v1), (k2, v2)] {
      assert Words(ps) == [w1, w2];
      JoinTwo(w1, w2, " ");
    } else {
      assert Words(ps) == [w2, w1];
      JoinTwo(w2, w1, " ");
    }
  }

  lemma JoinTwo(a: string, b: string, sep: string)
    ensures Join([a, b], sep) == a + sep + b
  {
    assert [a, b][1..] == [b];
  }

  // ---------------------------------------------------------------------
  // The tag dump of `TextRenderer`
  // ---------------------------------------------------------------------

  /** What a line of the dump holds, before indentation. */
  datatype LineContent =
    | OpenTag(tag: string, attributes: string)
    | CloseTag(tag: string)
    | Quoted(text: string)

  /** A line of the dump: its nesting depth and its content. */
  datatype Line = Line(depth: nat, content: LineContent)

  function ContentText(c: LineContent): string {
    match c
    case OpenTag(t, a) => "<" + t + a + ">"
    case CloseTag(t) => "</" + t + ">"
    case Quoted(s) => "\"" + s + "\""
  }

  /** `add_indent`: `depth` copies of the indent string. */
  function Indentation(indent: string, depth: nat): string {
    if depth == 0 then [] else Indentation(indent, depth - 1) + indent
  }

  /** `add_line`: the indentation, the content, a newline. */
  function LineText(indent: string, l: Line): string {
    Indentation(indent, l.depth) + ContentText(l.content) + "\n"
  }

  /** The text of a list of lines. */
  function Serialize(indent: string, ls: seq<Line>): string {
    if ls == [] then [] else Serialize(indent, ls[..|ls| - 1]) + LineText(indent, ls[|ls| - 1])
  }

  lemma {:induction false} SerializeAppend(indent: string, a: seq<Line>, b: seq<Line>)
    ensures Serialize(indent, a + b) == Serialize(indent, a) + Serialize(indent, b)
    decreases |b|
  {
    if b == [] {
      AppendEmpty(a);
    } else {
      AppendInit(a, b);
      SerializeAppend(indent, a, b[..|b| - 1]);
      Associate(Serialize(indent, a), Serialize(indent, b[..|b| - 1]), LineText(indent, b[|b| - 1]));
    }
  }

  /** The non-empty trimmed text of a text node, as a list of at most one text. */
  function TextOf(n: Node): (r: seq<string>)
    ensures |r| <= 1
    ensures r != [] <==> n.kind.Text? && Trim(n.kind.text) != []
  {
    if n.kind.Text? && Trim(n.kind.text) != [] then [Trim(n.kind.text)] else []
  }

  /**
   * `render_node_recursive` (equally `Renderer::render_node` with this
   * backend): an element opens at `depth`, its children follow one level
   * deeper and it closes at `depth`; a text node gives its quoted trimmed
   * text unless that is empty; a document node gives its children at the
   * same depth.
   */
  function NodeLines(n: Node, depth: nat, order: AttributeOrder): seq<Line>
    decreases n, 1
  {
    match n.kind
    case Element(tag, attrs) =>
      [Line(depth, OpenTag(tag, AttributeText(attrs, order(attrs))))]
      + ForestLines(n.children, depth + 1, order)
      + [Line(depth, CloseTag(tag))]
    case Text(_) => if TextOf(n) == [] then [] else [Line(depth, Quoted(TextOf(n)[0]))]
    case DocumentNode => ForestLines(n.children, depth, order)
  }

  function ForestLines(ns: seq<Node>, depth: nat, order: AttributeOrder): seq<Line>
    decreases ns, 0
  {
    if ns == [] then [] else ForestLines(ns[..|ns| - 1], depth, order) + NodeLines(ns[|ns| - 1], depth, order)
  }

  /** `render_as_text`: the header line, then each child of the root at depth 0. */
  function TextDump(root: Node, indent: string, order: AttributeOrder): string {
    "Document:\n" + Serialize(indent, ForestLines(root.children, 0, order))
  }

  // Nesting of the dump

  /**
   * Reads lines as a tag dump. An open tag must sit at the current nesting
   * level and opens its tag; a close tag must close the innermost open tag
   * at that tag's level; a quoted text sits at the current level. The
   * result is the list of tags still open, or None at the first line out of
   * place.
   */
  function TagNesting(ls: seq<Line>, base: nat, open: seq<string>): Option<seq<string>>
    decreases |ls|
  {
    if ls == [] then Some(open)
    else
      match ls[0].content
      case OpenTag(t, _) =>
        if ls[0].depth == base + |open| then TagNesting(ls[1..], base, open + [t]) else None
      case CloseTag(t) =>
        if open != [] && open[|open| - 1] == t && ls[0].depth + 1 == base + |open|
        then TagNesting(ls[1..], base, open[..|open| - 1]) else None
      case Quoted(_) =>
        if ls[0].depth == base + |open| then TagNesting(ls[1..], base, open) else None
  }

  lemma {:induction false} TagNestingAppend(a: seq<Line>, b: seq<Line>, base: nat, open: seq<string>)
    ensures TagNesting(a + b, base, open)
         == (match TagNesting(a, base, open) case None => None case Some(o) => TagNesting(b, base, o))
    decreases |a|
  {
    if a != [] {
      AppendTail(a, b);
      match a[0].content
      case OpenTag(t, _) =>
        if a[0].depth == base + |open| {
          TagNestingAppend(a[1..], b, base, open + [t]);
        }
      case CloseTag(t) =>
        if open != [] && open[|open| - 1] == t && a[0].depth + 1 == base + |open| {
          TagNestingAppend(a[1..], b, base, open[..|open| - 1]);
        }
      case Quoted(_) =>
        if a[0].depth == base + |open| {
          TagNestingAppend(a[1..], b, base, open);
        }
    } else {
      AppendEmpty(b);
    }
  }

  lemma {:induction false} NodeLinesNested(n: Node, base: nat, open: seq<string>, order: AttributeOrder)
    ensures TagNesting(NodeLines(n, base + |open|, order), base, open) == Some(open)
    decreases n, 1
  {
    var d := base + |open|;
    match n.kind
    case Element(tag, attrs) =>
      var o := Line(d, OpenTag(tag, AttributeText(attrs, order(attrs))));
      var f := ForestLines(n.children, d + 1, order);
      var c := Line(d, CloseTag(tag));
      assert NodeLines(n, d, order) == [o] + (f + [c]);
      ForestLinesNested(n.children, base, open + [tag], order);
      TagNestingAppend(f, [c], base, open + [tag]);
      assert (open + [tag])[..|open|] == open;
      assert TagNesting([c], base, open + [tag]) == TagNesting([], base, open);
    case Text(_) =>
    case DocumentNode =>
      ForestLinesNested(n.children, base, open, order);
  }

  lemma {:induction false} ForestLinesNested(ns: seq<Node>, base: nat, open: seq<string>, order: AttributeOrder)
    ensures TagNesting(ForestLines(ns, base + |open|, order), base, open) == Some(open)
    decreases ns, 0
  {
    if ns != [] {
      ForestLinesNested(ns[..|ns| - 1], base, open, order);
      NodeLinesNested(ns[|ns| - 1], base, open, order);
      TagNestingAppend(ForestLines(ns[..|ns| - 1], base + |open|, order), NodeLines(ns[|ns| - 1], base + |open|, order), base, open);
    }
  }

  /**
   * The dump is properly nested: every line is indented by the number of
   * tags open around it, every close tag closes the innermost open tag, and
   * every tag opened is closed.
   */
  lemma TextDumpNested(root: Node, order: AttributeOrder)
    ensures TagNesting(ForestLines(root.children, 0, order), 0, []) == Some([])
  {
    ForestLinesNested(root.children, 0, [], order);
  }

  // Texts of the dump

  /** The texts of the quoted lines, in order. */
  function QuotedTexts(ls: seq<Line>): seq<string> {
    if ls == [] then []
    else (if ls[0].content.Quoted? then [ls[0].content.text] else []) + QuotedTexts(ls[1..])
  }

  lemma {:induction false} QuotedTextsAppend(a: seq<Line>, b: seq<Line>)
    ensures QuotedTexts(a + b) == QuotedTexts(a) + QuotedTexts(b)
  {
    if a == [] {
      AppendEmpty(b);
    } else {
      AppendTail(a, b);
      QuotedTextsAppend(a[1..], b);
    }
  }

  /** The non-empty trimmed texts of the text nodes of a node list, in order. */
  function Kept(ns: seq<Node>): seq<string> {
    if ns == [] then [] else TextOf(ns[0]) + Kept(ns[1..])
  }

  lemma {:induction false} KeptAppend(a: seq<Node>, b: seq<Node>)
    ensures Kept(a + b) == Kept(a) + Kept(b)
  {
    if a == [] {
      AppendEmpty(b);
    } else {
      AppendTail(a, b);
      KeptAppend(a[1..], b);
    }
  }

  /** A node's preorder, split as the preorder of the node list before it and its own. */
  lemma ForestPreorderSnoc(ns: seq<Node>)
    requires ns != []
    ensures ForestPreorder(ns) == ForestPreorder(ns[..|ns| - 1]) + Preorder(ns[|ns| - 1])
  {
    var init, last := ns[..|ns| - 1], ns[|ns| - 1];
    ForestPreorderSingle(last);
    SplitLast(ns);
    ForestPreorderAppend(init, [last]);
  }

  lemma ForestPreorderSingle(n: Node)
    ensures ForestPreorder([n]) == Preorder(n)
  {
    assert [n][1..] == [];
    assert [n][0] == n;
    ghost var p := Preorder(n);
    assert ForestPreorder([n]) == p + ForestPreorder([]);
    AppendEmpty(p);
  }

  lemma {:induction false} NodeLinesQuote(n: Node, depth: nat, order: AttributeOrder)
    requires TextLeaves(n)
    ensures QuotedTexts(NodeLines(n, depth, order)) == Kept(Preorder(n))
    decreases n, 1
  {
    KeptAppend([n], ForestPreorder(n.children));
    assert Kept([n]) == TextOf(n) + Kept([]);
    match n.kind
    case Element(tag, attrs) =>
      var o := Line(depth, OpenTag(tag, AttributeText(attrs, order(attrs))));
      var f := ForestLines(n.children, depth + 1, order);
      var c := Line(depth, CloseTag(tag));
      assert NodeLines(n, depth, order) == [o] + (f + [c]);
      QuotedTextsAppend([o], f + [c]);
      QuotedTextsAppend(f, [c]);
      assert QuotedTexts([o]) == [] + QuotedTexts([]);
      assert QuotedTexts([c]) == [] + QuotedTexts([]);
      ForestLinesQuote(n.children, depth + 1, order);
    case Text(_) =>
      assert n.children == [];
      if TextOf(n) != [] {
        assert QuotedTexts([Line(depth, Quoted(TextOf(n)[0]))]) == [TextOf(n)[0]] + QuotedTexts([]);
      }
    case DocumentNode =>
      ForestLinesQuote(n.children, depth, order);
  }

  lemma {:induction false} ForestLinesQuote(ns: seq<Node>, depth: nat, order: AttributeOrder)
    requires ForestTextLeaves(ns)
    ensures QuotedTexts(ForestLines(ns, depth, order)) == Kept(ForestPreorder(ns))
    decreases ns, 0
  {
    if ns != [] {
      ForestTextLeavesSplit(ns);
      ForestLinesQuote(ns[..|ns| - 1], depth, order);
      NodeLinesQuote(ns[|ns| - 1], depth, order);
      QuotedTextsAppend(ForestLines(ns[..|ns| - 1], depth, order), NodeLines(ns[|ns| - 1], depth, order));
      ForestPreorderSnoc(ns);
      KeptAppend(ForestPreorder(ns[..|ns| - 1]), Preorder(ns[|ns| - 1]));
    }
  }

  lemma {:induction false} ForestTextLeavesSplit(ns: seq<Node>)
    requires ForestTextLeaves(ns) && ns != []
    ensures ForestTextLeaves(ns[..|ns| - 1]) && TextLeaves(ns[|ns| - 1])
  {
    if |ns| > 1 {
      ForestTextLeavesSplit(ns[1..]);
      assert ns[1..][..|ns[1..]| - 1] == ns[..|ns| - 1][1..];
    }
  }

  /**
   * The quoted lines of the dump are exactly the non-empty trimmed texts of
   * the document's text nodes, in preorder: empty texts are omitted and
   * nothing else is quoted.
   */
  lemma TextDumpQuotes(root: Node, order: AttributeOrder)
    requires TextLeaves(root)
    ensures QuotedTexts(ForestLines(root.children, 0, order)) == Kept(ForestPreorder(root.children))
  {
    ForestLinesQuote(root.children, 0, order);
  }

  // ---------------------------------------------------------------------
  // `TextRenderer`
  // ---------------------------------------------------------------------

  class TextRenderer {
    var output: string
    const indentString: string
    /** How the attribute maps of this run yield their entries. */
    const attributeOrder: AttributeOrder

    /** `TextRenderer::new`: empty output, two spaces per level. */
    constructor (order: AttributeOrder)
      ensures output == [] && indentString == "  " && attributeOrder == order
    {
      output := [];
      indentString := "  ";
      attributeOrder := order;
    }

    /** `TextRenderer::with_indent`. */
    constructor WithIndent(indent: string, order: AttributeOrder)
      ensures output == [] && indentString == indent && attributeOrder == order
    {
      output := [];
      indentString := indent;
      attributeOrder := order;
    }

    /** `add_indent`: one copy of the indent string per level. */
    method AddIndent(depth: nat)
      modifies this
      ensures output == old(output) + Indentation(indentString, depth)
    {
      var i := 0;
      while i < depth
        invariant i <= depth
        invariant output == old(output) + Indentation(indentString, i)
      {
        Associate(old(output), Indentation(indentString, i), indentString);
        output := output + indentString;
        i := i + 1;
      }
    }

    /** `add_line`. */
    method AddLine(content: string, depth: nat)
      modifies this
      ensures output == old(output) + (Indentation(indentString, depth) + content + "\n")
    {
      AddIndent(depth);
      output := output + content;
      output := output + "\n";
      Associate(old(output), Indentation(indentString, depth), content);
      Associate(old(output), Indentation(indentString, depth) + content, "\n");
    }

    /** `start_document`: the header line. */
    method StartDocument()
      modifies this
      ensures output == old(output) + "Document:\n"
    {
      output := output + "Document:\n";
    }

    /** `end_document` adds nothing. */
    method EndDocument()
      ensures output == old(output)
    {
    }

    /** `render_element`: open tag, the children one level deeper, close tag; nothing for another kind. */
    method RenderElement(node: Node, depth: nat)
      modifies this
      ensures output == old(output) + (if node.kind.Element? then Serialize(indentString, NodeLines(node, depth, attributeOrder)) else [])
      decreases node, 0
    {
      if node.kind.Element? {
        var tag, attrs := node.kind.tagName, node.kind.attributes;
        var open := Line(depth, OpenTag(tag, AttributeText(attrs, attributeOrder(attrs))));
        var close := Line(depth, CloseTag(tag));
        ghost var children := ForestLines(node.children, depth + 1, attributeOrder);
        AddLine(ContentText(open.content), depth);
        ghost var head := output;
        RenderChildren(node.children, depth + 1);
        AddLine(ContentText(close.content), depth);
        assert Serialize(indentString, [open]) == LineText(indentString, open);
        assert Serialize(indentString, [close]) == LineText(indentString, close);
        SerializeAppend(indentString, [open], children);
        SerializeAppend(indentString, [open] + children, [close]);
        Associate(old(output), LineText(indentString, open), Serialize(indentString, children));
        Associate(old(output), LineText(indentString, open) + Serialize(indentString, children), LineText(indentString, close));
      }
    }

    /** `render_text`: the trimmed text in quotes, unless it is empty; nothing for another kind. */
    method RenderText(node: Node, depth: nat)
      modifies this
      ensures output == old(output) + (if node.kind.Text? then Serialize(indentString, NodeLines(node, depth, attributeOrder)) else [])
    {
      if node.kind.Text? {
        var trimmed := Trim(node.kind.text);
        if trimmed != [] {
          AddLine("\"" + trimmed + "\"", depth);
          assert Serialize(indentString, [Line(depth, Quoted(trimmed))]) == LineText(indentString, Line(depth, Quoted(trimmed)));
        }
      }
    }

    /**
     * `render_node_recursive`, which is also what `Renderer::render_node`
     * does with this backend.
     */
    method RenderNode(node: Node, depth: nat)
      modifies this
      ensures output == old(output) + Serialize(indentString, NodeLines(node, depth, attributeOrder))
      decreases node, 1
    {
      match node.kind
      case Element(_, _) =>
        RenderElement(node, depth);
      case Text(_) =>
        RenderText(node, depth);
      case DocumentNode =>
        RenderChildren(node.children, depth);
    }

    /** The loop over a node list: each node in turn at the same depth. */
    method RenderChildren(cs: seq<Node>, depth: nat)
      modifies this
      ensures output == old(output) + Serialize(indentString, ForestLines(cs, depth, attributeOrder))
      decreases cs, 2
    {
      var i := 0;
      while i < |cs|
        invariant i <= |cs|
        invariant output == old(output) + Serialize(indentString, ForestLines(cs[..i], depth, attributeOrder))
      {
        ghost var prev := ForestLines(cs[..i], depth, attributeOrder);
        ghost var next := NodeLines(cs[i], depth, attributeOrder);
        RenderNode(cs[i], depth);
        PrefixStep(cs, i);
        assert ForestLines(cs[..i + 1], depth, attributeOrder) == prev + next;
        SerializeAppend(indentString, prev, next);
        Associate(old(output), Serialize(indentString, prev), Serialize(indentString, next));
        i := i + 1;
      }
      assert cs[..i] == cs;
    }

    /** `Renderer::render_document`: header, each child of the root at depth 0, and the output. */
    method RenderDocument(root: Node) returns (s: string)
      modifies this
      ensures output == old(output) + "Document:\n" + Serialize(indentString, ForestLines(root.children, 0, attributeOrder))
      ensures s == output
    {
      StartDocument();
      RenderChildren(root.children, 0);
      EndDocument();
      s := output;
    }
  }

  /** `render_as_text`: a fresh `TextRenderer` over the whole document. */
  method RenderAsText(doc: Document, order: AttributeOrder) returns (s: string)
    requires doc.Valid()
    ensures s == TextDump(doc.Root(), "  ", order)
  {
    var r := new TextRenderer(order);
    s := r.RenderDocument(doc.Root());
  }

  // ---------------------------------------------------------------------
  // The text extraction of `TextContentRenderer`
  // ---------------------------------------------------------------------

  /**
   * `render_element` of this backend, as the texts it appends: over the
   * children, an element recurses, a text contributes its trimmed text and a
   * document child is walked one level only (its document children are
   * skipped).
   */
  function ElementTexts(n: Node): seq<string>
    decreases n, 0
  {
    ChildrenTexts(n.children)
  }

  function ChildrenTexts(cs: seq<Node>): seq<string>
    decreases cs, 2
  {
    if cs == [] then [] else ChildrenTexts(cs[..|cs| - 1]) + ChildTexts(cs[|cs| - 1])
  }

  function ChildTexts(c: Node): seq<string>
    decreases c, 1
  {
    match c.kind
    case Element(_, _) => ElementTexts(c)
    case Text(_) => TextOf(c)
    case DocumentNode => GrandchildrenTexts(c.children)
  }

  function GrandchildrenTexts(gs: seq<Node>): seq<string>
    decreases gs, 2
  {
    if gs == [] then []
    else
      var g := gs[|gs| - 1];
      GrandchildrenTexts(gs[..|gs| - 1])
      + (match g.kind
         case Element(_, _) => ElementTexts(g)
         case Text(_) => TextOf(g)
         case DocumentNode => [])
  }

  /** `Renderer::render_node` with this backend, as the texts it appends. */
  function NodeTexts(n: Node): seq<string>
    decreases n, 1
  {
    match n.kind
    case Element(_, _) => ElementTexts(n)
    case Text(_) => TextOf(n)
    case DocumentNode => ForestTexts(n.children)
  }

  function ForestTexts(ns: seq<Node>): seq<string>
    decreases ns, 2
  {
    if ns == [] then [] else ForestTexts(ns[..|ns| - 1]) + NodeTexts(ns[|ns| - 1])
  }

  /** `render_text`'s append: a space first unless the output is still empty. */
  function AddText(out: string, t: string): string {
    if out == [] then t else out + " " + t
  }

  function Extend(out: string, ts: seq<string>): string {
    if ts == [] then out else AddText(Extend(out, ts[..|ts| - 1]), ts[|ts| - 1])
  }

  lemma {:induction false} ExtendAppend(out: string, a: seq<string>, b: seq<string>)
    ensures Extend(out, a + b) == Extend(Extend(out, a), b)
    decreases |b|
  {
    if b == [] {
      AppendEmpty(a);
    } else {
      AppendInit(a, b);
      ExtendAppend(out, a, b[..|b| - 1]);
    }
  }

  /** `extract_text_content`: the texts of the root's children, appended to an empty output. */
  function TextContentOf(root: Node): string {
    Extend([], ForestTexts(root.children))
  }

  // Properties of the extraction

  predicate NonEmpty(ts: seq<string>) {
    forall i :: 0 <= i < |ts| ==> ts[i] != []
  }

  lemma {:induction false} JoinSnoc(ts: seq<string>, t: string, sep: string)
    requires ts != []
    ensures Join(ts + [t], sep) == Join(ts, sep) + sep + t
  {
    if |ts| == 1 {
      assert (ts + [t])[1..] == [t];
    } else {
      assert (ts + [t])[1..] == ts[1..] + [t];
      JoinSnoc(ts[1..], t, sep);
    }
  }

  /** Appending non-empty texts one by one to an empty output joins them with single spaces. */
  lemma {:induction false} ExtendIsJoin(ts: seq<string>)
    requires NonEmpty(ts)
    ensures Extend([], ts) == Join(ts, " ")
    ensures Extend([], ts) == [] <==> ts == []
  {
    if ts != [] {
      var init := ts[..|ts| - 1];
      ExtendIsJoin(init);
      if init == [] {
        assert ts == [ts[0]];
      } else {
        JoinSnoc(init, ts[|ts| - 1], " ");
        SplitLast(ts);
      }
    }
  }

  /** The text nodes reached by a node list, as far as it has no document nodes. */
  predicate NoDocuments(ns: seq<Node>) {
    forall i :: 0 <= i < |ns| ==> !ns[i].kind.DocumentNode?
  }

  lemma {:induction false} ElementTextsKept(n: Node)
    requires TextLeaves(n) && NoDocuments(ForestPreorder(n.children))
    ensures ElementTexts(n) == Kept(ForestPreorder(n.children))
    decreases n, 0
  {
    ChildrenTextsKept(n.children);
  }

  lemma {:induction false} ChildrenTextsKept(cs: seq<Node>)
    requires ForestTextLeaves(cs) && NoDocuments(ForestPreorder(cs))
    ensures ChildrenTexts(cs) == Kept(ForestPreorder(cs))
    decreases cs, 2
  {
    if cs != [] {
      var init, c := cs[..|cs| - 1], cs[|cs| - 1];
      ForestTextLeavesSplit(cs);
      ForestPreorderSnoc(cs);
      assert NoDocuments(ForestPreorder(init)) by {
        forall i | 0 <= i < |ForestPreorder(init)|
          ensures !ForestPreorder(init)[i].kind.DocumentNode?
        {
          assert ForestPreorder(cs)[i] == ForestPreorder(init)[i];
        }
      }
      assert NoDocuments(Preorder(c)) by {
        forall i | 0 <= i < |Preorder(c)|
          ensures !Preorder(c)[i].kind.DocumentNode?
        {
          assert ForestPreorder(cs)[|ForestPreorder(init)| + i] == Preorder(c)[i];
        }
      }
      ChildrenTextsKept(init);
      ChildTextsKept(c);
      KeptAppend(ForestPreorder(init), Preorder(c));
    }
  }

  lemma {:induction false} ChildTextsKept(c: Node)
    requires TextLeaves(c) && NoDocuments(Preorder(c))
    ensures ChildTexts(c) == Kept(Preorder(c))
    decreases c, 1
  {
    KeptAppend([c], ForestPreorder(c.children));
    assert Kept([c]) == TextOf(c) + Kept([]);
    assert Preorder(c)[0] == c;
    assert NoDocuments(ForestPreorder(c.children)) by {
      forall i | 0 <= i < |ForestPreorder(c.children)|
        ensures !ForestPreorder(c.children)[i].kind.DocumentNode?
      {
        assert Preorder(c)[1 + i] == ForestPreorder(c.children)[i];
      }
    }
    match c.kind
    case Element(_, _) =>
      ElementTextsKept(c);
    case Text(_) =>
      assert c.children == [];
  }

  /**
   * Below an element, the extraction collects the non-empty trimmed texts
   * of the text nodes in preorder, provided no document node sits below it.
   */
  lemma {:induction false} NodeTextsKept(n: Node)
    requires TextLeaves(n) && NoDocuments(ForestPreorder(n.children))
    ensures NodeTexts(n) == Kept(Preorder(n))
    decreases n, 1
  {
    KeptAppend([n], ForestPreorder(n.children));
    assert Kept([n]) == TextOf(n) + Kept([]);
    match n.kind
    case Element(_, _) =>
      ElementTextsKept(n);
    case Text(_) =>
      assert n.children == [];
    case DocumentNode =>
      ForestTextsKept(n.children);
  }

  lemma {:induction false} ForestTextsKept(ns: seq<Node>)
    requires ForestTextLeaves(ns) && NoDocuments(ForestPreorder(ns))
    ensures ForestTexts(ns) == Kept(ForestPreorder(ns))
    decreases ns, 2
  {
    if ns != [] {
      var init, c := ns[..|ns| - 1], ns[|ns| - 1];
      ForestTextLeavesSplit(ns);
      ForestPreorderSnoc(ns);
      assert NoDocuments(ForestPreorder(init)) by {
        forall i | 0 <= i < |ForestPreorder(init)|
          ensures !ForestPreorder(init)[i].kind.DocumentNode?
        {
          assert ForestPreorder(ns)[i] == ForestPreorder(init)[i];
        }
      }
      assert NoDocuments(ForestPreorder(c.children)) by {
        forall i | 0 <= i < |ForestPreorder(c.children)|
          ensures !ForestPreorder(c.children)[i].kind.DocumentNode?
        {
          assert Preorder(c)[1 + i] == ForestPreorder(c.children)[i];
          assert ForestPreorder(ns)[|ForestPreorder(init)| + 1 + i] == Preorder(c)[1 + i];
        }
      }
      ForestTextsKept(init);
      NodeTextsKept(c);
      KeptAppend(ForestPreorder(init), Preorder(c));
    }
  }

  lemma {:induction false} KeptNonEmpty(ns: seq<Node>)
    ensures NonEmpty(Kept(ns))
  {
    if ns != [] {
      KeptNonEmpty(ns[1..]);
    }
  }

  /**
   * The extraction joins, with single spaces, exactly the texts the tag
   * dump quotes, when no document node sits below the root; it is empty
   * only when there is no such text.
   */
  lemma TextContentJoinsQuotes(root: Node, order: AttributeOrder)
    requires TextLeaves(root) && NoDocuments(ForestPreorder(root.children))
    ensures TextContentOf(root) == Join(QuotedTexts(ForestLines(root.children, 0, order)), " ")
    ensures TextContentOf(root) == [] <==> Kept(ForestPreorder(root.children)) == []
  {
    ForestTextsKept(root.children);
    ForestLinesQuote(root.children, 0, order);
    KeptNonEmpty(ForestPreorder(root.children));
    ExtendIsJoin(Kept(ForestPreorder(root.children)));
  }

  /**
   * A document node inside a document node inside an element is skipped:
   * its texts never reach the output, while the tag dump keeps them.
   */
  lemma NestedDocumentSkipped(n: Node, d1: Node, d2: Node, t: Node)
    requires t.kind == Text("x") && t.children == []
    requires d2.kind == DocumentNode && d2.children == [t]
    requires d1.kind == DocumentNode && d1.children == [d2]
    requires n.kind.Element? && n.children == [d1]
    ensures ElementTexts(n) == []
    ensures Kept(ForestPreorder(n.children)) == ["x"]
  {
    assert Trim("x") == "x";
    assert ChildrenTexts([d1]) == ChildrenTexts([]) + ChildTexts(d1);
    assert GrandchildrenTexts([d2]) == GrandchildrenTexts([]) + [];
    assert ForestPreorder([t]) == Preorder(t) + ForestPreorder([]);
    assert ForestPreorder([d2]) == Preorder(d2) + ForestPreorder([]);
    assert ForestPreorder([d1]) == Preorder(d1) + ForestPreorder([]);
    assert ForestPreorder(n.children) == [d1, d2, t];
    assert Kept([t]) == ["x"] + Kept([]);
    assert Kept([d2, t]) == [] + Kept([t]);
    assert Kept([d1, d2, t]) == [] + Kept([d2, t]);
  }

  // ---------------------------------------------------------------------
  // `TextContentRenderer`
  // ---------------------------------------------------------------------

  class TextContentRenderer {
    var output: string

    /** `TextContentRenderer::new`. */
    constructor ()
      ensures output == []
    {
      output := [];
    }

    /** `start_document` adds nothing. */
    method StartDocument()
      ensures output == old(output)
    {
    }

    /** `end_document` adds nothing. */
    method EndDocument()
      ensures output == old(output)
    {
    }

    /** `render_text`: the trimmed text, after a space unless the output is empty; nothing if it is empty. */
    method RenderText(node: Node)
      modifies this
      ensures output == Extend(old(output), TextOf(node))
    {
      if node.kind.Text? {
        var trimmed := Trim(node.kind.text);
        if trimmed != [] {
          if output != [] {
            output := output + " ";
          }
          output := output + trimmed;
          assert Extend(old(output), [trimmed]) == AddText(Extend(old(output), []), trimmed);
        }
      }
    }

    /** `render_element`: the children, with a document child walked one level only. */
    method RenderElement(node: Node)
      modifies this
      ensures output == Extend(old(output), ElementTexts(node))
      decreases node, 0
    {
      var cs := node.children;
      var i := 0;
      while i < |cs|
        invariant i <= |cs|
        invariant output == Extend(old(output), ChildrenTexts(cs[..i]))
      {
        var c := cs[i];
        ghost var before := output;
        match c.kind {
          case Element(_, _) =>
            RenderElement(c);
          case Text(_) =>
            RenderText(c);
          case DocumentNode =>
            RenderGrandchildren(c);
        }
        assert output == Extend(before, ChildTexts(c));
        PrefixStep(cs, i);
        ExtendAppend(old(output), ChildrenTexts(cs[..i]), ChildTexts(c));
        i := i + 1;
      }
      assert cs[..i] == cs;
    }

    /** The inner loop of `render_element` over a document child's children. */
    method RenderGrandchildren(c: Node)
      modifies this
      ensures output == Extend(old(output), GrandchildrenTexts(c.children))
      decreases c, 1
    {
      var gs := c.children;
      var i := 0;
      while i < |gs|
        invariant i <= |gs|
        invariant output == Extend(old(output), GrandchildrenTexts(gs[..i]))
      {
        var g := gs[i];
        ghost var before := output;
        match g.kind {
          case Element(_, _) =>
            RenderElement(g);
          case Text(_) =>
            RenderText(g);
          case DocumentNode =>
        }
        PrefixStep(gs, i);
        assert GrandchildrenTexts(gs[..i + 1]) == GrandchildrenTexts(gs[..i])
            + (match g.kind case Element(_, _) => ElementTexts(g) case Text(_) => TextOf(g) case DocumentNode => []);
        ExtendAppend(old(output), GrandchildrenTexts(gs[..i]), if g.kind.DocumentNode? then [] else NodeTexts(g));
        i := i + 1;
      }
      assert gs[..i] == gs;
    }

    /** `Renderer::render_node` with this backend. */
    method RenderNode(node: Node)
      modifies this
      ensures output == Extend(old(output), NodeTexts(node))
      decreases node, 2
    {
      match node.kind
      case Element(_, _) =>
        RenderElement(node);
      case Text(_) =>
        RenderText(node);
      case DocumentNode =>
        RenderChildren(node.children);
    }

    method RenderChildren(cs: seq<Node>)
      modifies this
      ensures output == Extend(old(output), ForestTexts(cs))
      decreases cs, 3
    {
      var i := 0;
      while i < |cs|
        invariant i <= |cs|
        invariant output == Extend(old(output), ForestTexts(cs[..i]))
      {
        RenderNode(cs[i]);
        PrefixStep(cs, i);
        ExtendAppend(old(output), ForestTexts(cs[..i]), NodeTexts(cs[i]));
        i := i + 1;
      }
      assert cs[..i] == cs;
    }

    /** `Renderer::render_document`. */
    method RenderDocument(root: Node) returns (s: string)
      modifies this
      ensures output == Extend(old(output), ForestTexts(root.children))
      ensures s == output
    {
      StartDocument();
      RenderChildren(root.children);
      EndDocument();
      s := output;
    }
  }

  /** `extract_text_content`: a fresh `TextContentRenderer` over the whole document. */
  method ExtractTextContent(doc: Document) returns (s: string)
    requires doc.Valid()
    ensures s == TextContentOf(doc.Root())
  {
    var r := new TextContentRenderer();
    s := r.RenderDocument(doc.Root());
  }
}
