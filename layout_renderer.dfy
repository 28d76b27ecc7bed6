/**
 * `LayoutRenderer` (renderer/src/lib.rs): a dump of a layout tree in which
 * each element line is followed by a line of its computed styles and a line
 * of its laid-out rectangle, and each text line carries its text styles.
 *
 * The renderer appends lines to its `output`. The lines are kept here as
 * structured values (`RenderedLine`): which items each line holds and in
 * which order. How Rust prints an `f32` is not part of the model, so the
 * final text of a line is not produced.
 */
module LayoutRendering {
  import opened Wrappers
  import opened Text
  import opened Dom
  import opened LayoutStyles
  import opened LayoutEngine
  import R = Renderer

  // ---------------------------------------------------------------------
  // Lines
  // ---------------------------------------------------------------------

  /** One entry of `format_style_info` or `format_text_style_info`. */
  datatype StyleItem =
    | DisplayItem(display: DisplayType)
    | WidthItem(width: real)
    | HeightItem(height: real)
    | ColorItem(color: string)
    | BackgroundItem(background: string)
    | FontSizeItem(size: real)
    | FontFamilyItem(family: string)
    | FontWeightItem(weight: string)

  /** One entry of `format_dimensions_info`. */
  datatype DimensionItem =
    | XItem(x: real)
    | YItem(y: real)
    | WItem(w: real)
    | HItem(h: real)
    | MarginItem(margin: BoxSides)
    | PaddingItem(padding: BoxSides)

  /** A line of the dump, before indentation. */
  datatype BoxLine =
    | BoxOpen(tag: string, attributes: string)
    | StylesLine(styles: seq<StyleItem>)
    | LayoutLine(dimensions: seq<DimensionItem>)
    | TextLine(text: string, textStyles: seq<StyleItem>)
    | BoxClose(tag: string)

  /** A line and the depth `add_line` indents it to. */
  datatype RenderedLine = RenderedLine(depth: nat, line: BoxLine)

  // ---------------------------------------------------------------------
  // The `format_*` helpers
  // ---------------------------------------------------------------------

  /** `format_style_info`: display, then width, height, color, background and font size when set. */
  function StyleInfo(s: Styles): seq<StyleItem> {
    [DisplayItem(s.display)]
    + (if s.width.Some? then [WidthItem(s.width.value)] else [])
    + (if s.height.Some? then [HeightItem(s.height.value)] else [])
    + (if s.color.Some? then [ColorItem(s.color.value)] else [])
    + (if s.backgroundColor.Some? then [BackgroundItem(s.backgroundColor.value)] else [])
    + (if s.fontSize.Some? then [FontSizeItem(s.fontSize.value)] else [])
  }

  /** `format_text_style_info`: color, font size, font family and font weight when set. */
  function TextStyleInfo(s: Styles): seq<StyleItem> {
    (if s.color.Some? then [ColorItem(s.color.value)] else [])
    + (if s.fontSize.Some? then [FontSizeItem(s.fontSize.value)] else [])
    + (if s.fontFamily.Some? then [FontFamilyItem(s.fontFamily.value)] else [])
    + (if s.fontWeight.Some? then [FontWeightItem(s.fontWeight.value)] else [])
  }

  /** Some side is strictly positive. */
  predicate AnyPositive(b: BoxSides) {
    b.top > 0.0 || b.right > 0.0 || b.bottom > 0.0 || b.left > 0.0
  }

  /**
   * `format_dimensions_info`: the content rectangle, then the styled margin
   * and padding, each only when some side is positive.
   */
  function DimensionsInfo(b: LayoutBox): seq<DimensionItem> {
    [XItem(b.content.x), YItem(b.content.y), WItem(b.content.width), HItem(b.content.height)]
    + (if AnyPositive(b.styles.margin) then [MarginItem(b.styles.margin)] else [])
    + (if AnyPositive(b.styles.padding) then [PaddingItem(b.styles.padding)] else [])
  }

  /** The style line holds the display first and only there, and never the font family or weight. */
  lemma StyleInfoShape(s: Styles)
    ensures StyleInfo(s) != [] && StyleInfo(s)[0] == DisplayItem(s.display)
    ensures forall i :: 1 <= i < |StyleInfo(s)| ==> !StyleInfo(s)[i].DisplayItem?
    ensures forall i :: 0 <= i < |StyleInfo(s)| ==> !StyleInfo(s)[i].FontFamilyItem? && !StyleInfo(s)[i].FontWeightItem?
  {
  }

  /**
   * The style line holds each of width, height and color exactly when it
   * is set, with its value.
   */
  lemma StyleInfoValues(s: Styles)
    ensures forall w :: WidthItem(w) in StyleInfo(s) <==> s.width == Some(w)
    ensures forall h :: HeightItem(h) in StyleInfo(s) <==> s.height == Some(h)
    ensures forall c :: ColorItem(c) in StyleInfo(s) <==> s.color == Some(c)
  {
  }

  /** The style line holds the background and the font size exactly when they are set. */
  lemma StyleInfoColors(s: Styles)
    ensures forall c :: BackgroundItem(c) in StyleInfo(s) <==> s.backgroundColor == Some(c)
    ensures forall f :: FontSizeItem(f) in StyleInfo(s) <==> s.fontSize == Some(f)
  {
  }

  /** The text style list holds no display, width, height or background, and is empty exactly when none of its four styles is set. */
  lemma TextStyleInfoShape(s: Styles)
    ensures forall i :: 0 <= i < |TextStyleInfo(s)| ==>
              !(TextStyleInfo(s)[i].DisplayItem? || TextStyleInfo(s)[i].WidthItem?
                || TextStyleInfo(s)[i].HeightItem? || TextStyleInfo(s)[i].BackgroundItem?)
    ensures TextStyleInfo(s) == [] <==> s.color.None? && s.fontSize.None? && s.fontFamily.None? && s.fontWeight.None?
  {
  }

  /** The text style list holds the color and the font size exactly when they are set. */
  lemma TextStyleInfoValues(s: Styles)
    ensures forall c :: ColorItem(c) in TextStyleInfo(s) <==> s.color == Some(c)
    ensures forall f :: FontSizeItem(f) in TextStyleInfo(s) <==> s.fontSize == Some(f)
  {
  }

  /** The text style list holds the font family and font weight exactly when they are set. */
  lemma TextStyleInfoFonts(s: Styles)
    ensures forall f :: FontFamilyItem(f) in TextStyleInfo(s) <==> s.fontFamily == Some(f)
    ensures forall w :: FontWeightItem(w) in TextStyleInfo(s) <==> s.fontWeight == Some(w)
  {
  }

  /**
   * The layout line starts with the content rectangle's x, y, width and
   * height; it shows the styled margin exactly when some margin side is
   * positive and the styled padding exactly when some padding side is,
   * and never any other margin or padding.
   */
  lemma DimensionsInfoContents(b: LayoutBox)
    ensures 4 <= |DimensionsInfo(b)| <= 6
    ensures DimensionsInfo(b)[..4] == [XItem(b.content.x), YItem(b.content.y), WItem(b.content.width), HItem(b.content.height)]
    ensures MarginItem(b.styles.margin) in DimensionsInfo(b) <==> AnyPositive(b.styles.margin)
    ensures PaddingItem(b.styles.padding) in DimensionsInfo(b) <==> AnyPositive(b.styles.padding)
    ensures forall m :: MarginItem(m) in DimensionsInfo(b) ==> m == b.styles.margin
    ensures forall p :: PaddingItem(p) in DimensionsInfo(b) ==> p == b.styles.padding
  {
  }

  // ---------------------------------------------------------------------
  // `render_layout_box`
  // ---------------------------------------------------------------------

  /** Every box of the tree refers to a node of the arena (the source's boxes hold their node). */
  predicate NodesKnown(b: LayoutBox, a: Arena)
    decreases b
  {
    b.node in a && forall i :: 0 <= i < |b.children| ==> NodesKnown(b.children[i], a)
  }

  predicate AllKnown(bs: seq<LayoutBox>, a: Arena) {
    forall i :: 0 <= i < |bs| ==> NodesKnown(bs[i], a)
  }

  /** The styles and layout lines printed under an element's open tag, one level deeper. */
  function Details(b: LayoutBox, depth: nat): seq<RenderedLine> {
    (if StyleInfo(b.styles) != [] then [RenderedLine(depth, StylesLine(StyleInfo(b.styles)))] else [])
    + (if DimensionsInfo(b) != [] then [RenderedLine(depth, LayoutLine(DimensionsInfo(b)))] else [])
  }

  /**
   * `render_layout_box`: nothing for a `display: none` box. Otherwise an
   * element gives its open tag, its style and layout lines and its children
   * one level deeper, and its close tag; a text node gives its trimmed text
   * with its text styles unless the text is empty; a document node gives
   * its children at the same depth.
   */
  function BoxLines(b: LayoutBox, depth: nat, a: Arena, order: R.AttributeOrder): seq<RenderedLine>
    requires NodesKnown(b, a)
    decreases b, 1
  {
    if b.styles.display == DisplayNone then []
    else
      match a[b.node].kind
      case Element(tag, attrs) =>
        [RenderedLine(depth, BoxOpen(tag, R.AttributeText(attrs, order(attrs))))]
        + Details(b, depth + 1)
        + ChildBoxLines(b.children, depth + 1, a, order)
        + [RenderedLine(depth, BoxClose(tag))]
      case Text(content) =>
        if Trim(content) == [] then [] else [RenderedLine(depth, TextLine(Trim(content), TextStyleInfo(b.styles)))]
      case DocumentNode => ChildBoxLines(b.children, depth, a, order)
  }

  function ChildBoxLines(bs: seq<LayoutBox>, depth: nat, a: Arena, order: R.AttributeOrder): seq<RenderedLine>
    requires AllKnown(bs, a)
    decreases bs, 0
  {
    if bs == [] then []
    else ChildBoxLines(bs[..|bs| - 1], depth, a, order) + BoxLines(bs[|bs| - 1], depth, a, order)
  }

  // Hidden boxes

  /** The boxes of a list that are displayed. */
  function Shown(bs: seq<LayoutBox>): (r: seq<LayoutBox>)
    ensures forall i :: 0 <= i < |r| ==> r[i] in bs
  {
    if bs == [] then []
    else if bs[|bs| - 1].styles.display == DisplayNone then Shown(bs[..|bs| - 1])
    else Shown(bs[..|bs| - 1]) + [bs[|bs| - 1]]
  }

  /**
   * A `display: none` box contributes nothing, whatever lies below it: a
   * list of boxes renders exactly as the list of its displayed boxes.
   */
  lemma {:induction false} HiddenBoxesOmitted(bs: seq<LayoutBox>, depth: nat, a: Arena, order: R.AttributeOrder)
    requires AllKnown(bs, a)
    ensures AllKnown(Shown(bs), a)
    ensures ChildBoxLines(bs, depth, a, order) == ChildBoxLines(Shown(bs), depth, a, order)
  {
    if bs != [] {
      var init, last := bs[..|bs| - 1], bs[|bs| - 1];
      assert AllKnown(init, a);
      HiddenBoxesOmitted(init, depth, a, order);
      if last.styles.display == DisplayNone {
        R.AppendEmpty(ChildBoxLines(init, depth, a, order));
      } else {
        var s := Shown(init) + [last];
        R.AppendInit(Shown(init), [last]);
        assert s[..|s| - 1] == Shown(init) && s[|s| - 1] == last;
      }
    }
  }

  // Nesting

  /**
   * Reads lines as a layout dump: an open tag sits at the current nesting
   * level and opens its tag; a close tag closes the innermost open tag at
   * that tag's level; style, layout and text lines sit at the current level.
   * The result is the tags still open, or None at the first line out of place.
   */
  function BoxScan(ls: seq<RenderedLine>, base: nat, open: seq<string>): Option<seq<string>>
    decreases |ls|
  {
    if ls == [] then Some(open)
    else
      match ls[0].line
      case BoxOpen(t, _) =>
        if ls[0].depth == base + |open| then BoxScan(ls[1..], base, open + [t]) else None
      case BoxClose(t) =>
        if open != [] && open[|open| - 1] == t && ls[0].depth + 1 == base + |open|
        then BoxScan(ls[1..], base, open[..|open| - 1]) else None
      case _ =>
        if ls[0].depth == base + |open| then BoxScan(ls[1..], base, open) else None
  }

  lemma {:induction false} BoxScanAppend(x: seq<RenderedLine>, y: seq<RenderedLine>, base: nat, open: seq<string>)
    ensures BoxScan(x + y, base, open)
         == (match BoxScan(x, base, open) case None => None case Some(o) => BoxScan(y, base, o))
    decreases |x|
  {
    if x != [] {
      R.AppendTail(x, y);
      match x[0].line
      case BoxOpen(t, _) =>
        if x[0].depth == base + |open| {
          BoxScanAppend(x[1..], y, base, open + [t]);
        }
      case BoxClose(t) =>
        if open != [] && open[|open| - 1] == t && x[0].depth + 1 == base + |open| {
          BoxScanAppend(x[1..], y, base, open[..|open| - 1]);
        }
      case _ =>
        if x[0].depth == base + |open| {
          BoxScanAppend(x[1..], y, base, open);
        }
    } else {
      R.AppendEmpty(y);
    }
  }

  lemma DetailsNested(b: LayoutBox, base: nat, open: seq<string>)
    ensures BoxScan(Details(b, base + |open|), base, open) == Some(open)
  {
    var s := if StyleInfo(b.styles) != [] then [RenderedLine(base + |open|, StylesLine(StyleInfo(b.styles)))] else [];
    var l := if DimensionsInfo(b) != [] then [RenderedLine(base + |open|, LayoutLine(DimensionsInfo(b)))] else [];
    BoxScanAppend(s, l, base, open);
  }

  lemma {:induction false} BoxLinesNested(b: LayoutBox, base: nat, open: seq<string>, a: Arena, order: R.AttributeOrder)
    requires NodesKnown(b, a)
    ensures BoxScan(BoxLines(b, base + |open|, a, order), base, open) == Some(open)
    decreases b, 1
  {
    var d := base + |open|;
    if b.styles.display != DisplayNone {
      match a[b.node].kind
      case Element(tag, attrs) =>
        var o := RenderedLine(d, BoxOpen(tag, R.AttributeText(attrs, order(attrs))));
        var det := Details(b, d + 1);
        var cs := ChildBoxLines(b.children, d + 1, a, order);
        var c := RenderedLine(d, BoxClose(tag));
        var inner := open + [tag];
        assert |inner| == |open| + 1;
        R.Associate([o], det, cs);
        R.Associate([o], det + cs, [c]);
        assert BoxLines(b, d, a, order) == [o] + ((det + cs) + [c]);
        R.AppendTail([o], (det + cs) + [c]);
        DetailsNested(b, base, inner);
        ChildBoxLinesNested(b.children, base, inner, a, order);
        BoxScanAppend(det + cs, [c], base, inner);
        BoxScanAppend(det, cs, base, inner);
        assert inner[..|open|] == open;
        assert BoxScan([c], base, inner) == BoxScan([], base, open);
      case Text(_) =>
      case DocumentNode =>
        ChildBoxLinesNested(b.children, base, open, a, order);
    }
  }

  lemma {:induction false} ChildBoxLinesNested(bs: seq<LayoutBox>, base: nat, open: seq<string>, a: Arena, order: R.AttributeOrder)
    requires AllKnown(bs, a)
    ensures BoxScan(ChildBoxLines(bs, base + |open|, a, order), base, open) == Some(open)
    decreases bs, 0
  {
    if bs != [] {
      var init, last := bs[..|bs| - 1], bs[|bs| - 1];
      assert AllKnown(init, a);
      ChildBoxLinesNested(init, base, open, a, order);
      BoxLinesNested(last, base, open, a, order);
      BoxScanAppend(ChildBoxLines(init, base + |open|, a, order), BoxLines(last, base + |open|, a, order), base, open);
    }
  }

  /**
   * The layout dump is properly nested: every line is indented by the
   * number of tags open around it (the style and layout lines of an element
   * one level below its tag), every close tag closes the innermost open tag,
   * and every tag opened is closed.
   */
  lemma LayoutDumpNested(b: LayoutBox, a: Arena, order: R.AttributeOrder)
    requires NodesKnown(b, a)
    ensures BoxScan(BoxLines(b, 0, a, order), 0, []) == Some([])
  {
    BoxLinesNested(b, 0, [], a, order);
  }

  /**
   * A displayed element's dump opens with its tag, followed one level
   * deeper by its style line and its layout line, and ends with its close
   * tag; a text box's line carries the trimmed text.
   */
  lemma ElementLines(b: LayoutBox, depth: nat, a: Arena, order: R.AttributeOrder)
    requires NodesKnown(b, a) && b.styles.display != DisplayNone
    ensures a[b.node].kind.Element? ==>
              var ls := BoxLines(b, depth, a, order);
              var tag := a[b.node].kind.tagName;
              |ls| >= 4
              && ls[0] == RenderedLine(depth, BoxOpen(tag, R.AttributeText(a[b.node].kind.attributes, order(a[b.node].kind.attributes))))
              && ls[1] == RenderedLine(depth + 1, StylesLine(StyleInfo(b.styles)))
              && ls[2] == RenderedLine(depth + 1, LayoutLine(DimensionsInfo(b)))
              && ls[|ls| - 1] == RenderedLine(depth, BoxClose(tag))
    ensures a[b.node].kind.Text? ==>
              (BoxLines(b, depth, a, order) == [] <==> Trim(a[b.node].kind.text) == [])
  {
    StyleInfoShape(b.styles);
    DimensionsInfoContents(b);
  }

  // ---------------------------------------------------------------------
  // The renderer object
  // ---------------------------------------------------------------------

  class LayoutRenderer {
    var output: seq<RenderedLine>
    /** How the attribute maps of this run yield their entries. */
    const attributeOrder: R.AttributeOrder

    /** `LayoutRenderer::new`: no output yet. */
    constructor (order: R.AttributeOrder)
      ensures output == [] && attributeOrder == order
    {
      output := [];
      attributeOrder := order;
    }

    /** `add_line`: one line at the given depth. */
    method AddLine(line: BoxLine, depth: nat)
      modifies this
      ensures output == old(output) + [RenderedLine(depth, line)]
    {
      output := output + [RenderedLine(depth, line)];
    }

    /** `format_style_info`, pushing the entries one by one. */
    method FormatStyleInfo(styles: Styles) returns (info: seq<StyleItem>)
      ensures info == StyleInfo(styles)
      ensures info != [] && info[0] == DisplayItem(styles.display)
    {
      info := [DisplayItem(styles.display)];
      ghost var p1 := if styles.width.Some? then [WidthItem(styles.width.value)] else [];
      ghost var p2 := if styles.height.Some? then [HeightItem(styles.height.value)] else [];
      ghost var p3 := if styles.color.Some? then [ColorItem(styles.color.value)] else [];
      ghost var p4 := if styles.backgroundColor.Some? then [BackgroundItem(styles.backgroundColor.value)] else [];
      ghost var p5 := if styles.fontSize.Some? then [FontSizeItem(styles.fontSize.value)] else [];
      ghost var prev := info;
      if styles.width.Some? {
        info := info + [WidthItem(styles.width.value)];
      } else {
        R.AppendEmpty(info);
      }
      assert info == prev + p1;
      prev := info;
      if styles.height.Some? {
        info := info + [HeightItem(styles.height.value)];
      } else {
        R.AppendEmpty(info);
      }
      assert info == prev + p2;
      prev := info;
      if styles.color.Some? {
        info := info + [ColorItem(styles.color.value)];
      } else {
        R.AppendEmpty(info);
      }
      assert info == prev + p3;
      prev := info;
      if styles.backgroundColor.Some? {
        info := info + [BackgroundItem(styles.backgroundColor.value)];
      } else {
        R.AppendEmpty(info);
      }
      assert info == prev + p4;
      prev := info;
      if styles.fontSize.Some? {
        info := info + [FontSizeItem(styles.fontSize.value)];
      } else {
        R.AppendEmpty(info);
      }
      assert info == prev + p5;
    }

    /** `format_text_style_info`, pushing the entries one by one. */
    method FormatTextStyleInfo(styles: Styles) returns (info: seq<StyleItem>)
      ensures info == TextStyleInfo(styles)
      ensures info == [] <==> styles.color.None? && styles.fontSize.None? && styles.fontFamily.None? && styles.fontWeight.None?
    {
      info := [];
      if styles.color.Some? {
        info := info + [ColorItem(styles.color.value)];
      }
      if styles.fontSize.Some? {
        info := info + [FontSizeItem(styles.fontSize.value)];
      }
      if styles.fontFamily.Some? {
        info := info + [FontFamilyItem(styles.fontFamily.value)];
      }
      if styles.fontWeight.Some? {
        info := info + [FontWeightItem(styles.fontWeight.value)];
      }
    }

    /** `format_dimensions_info`, pushing the entries one by one. */
    method FormatDimensionsInfo(b: LayoutBox) returns (info: seq<DimensionItem>)
      ensures info == DimensionsInfo(b)
      ensures |info| >= 4 && info[0] == XItem(b.content.x) && info[3] == HItem(b.content.height)
    {
      info := [XItem(b.content.x), YItem(b.content.y), WItem(b.content.width), HItem(b.content.height)];
      var m := b.styles.margin;
      if m.top > 0.0 || m.right > 0.0 || m.bottom > 0.0 || m.left > 0.0 {
        info := info + [MarginItem(m)];
      }
      var p := b.styles.padding;
      if p.top > 0.0 || p.right > 0.0 || p.bottom > 0.0 || p.left > 0.0 {
        info := info + [PaddingItem(p)];
      }
    }

    /** The style and layout lines of an element, one level below it. */
    method RenderDetails(b: LayoutBox, depth: nat)
      modifies this
      ensures output == old(output) + Details(b, depth)
    {
      var styleInfo := FormatStyleInfo(b.styles);
      var dimensionsInfo := FormatDimensionsInfo(b);
      if styleInfo != [] {
        AddLine(StylesLine(styleInfo), depth);
      }
      ghost var mid := output;
      if dimensionsInfo != [] {
        AddLine(LayoutLine(dimensionsInfo), depth);
      }
      ghost var s := if styleInfo != [] then [RenderedLine(depth, StylesLine(styleInfo))] else [];
      ghost var l := if dimensionsInfo != [] then [RenderedLine(depth, LayoutLine(dimensionsInfo))] else [];
      R.AppendEmpty(old(output));
      R.AppendEmpty(mid);
      R.Associate(old(output), s, l);
    }

    /** `render_layout_box`. */
    method RenderLayoutBox(b: LayoutBox, depth: nat, a: Arena)
      requires NodesKnown(b, a)
      modifies this
      ensures output == old(output) + BoxLines(b, depth, a, attributeOrder)
      decreases b, 1
    {
      if b.styles.display == DisplayNone {
        R.AppendEmpty(output);
        return;
      }
      match a[b.node].kind
      case Element(tag, attrs) =>
        RenderElementBox(b, depth, a, tag, attrs);
      case Text(content) =>
        var trimmed := Trim(content);
        if trimmed != [] {
          var styleInfo := FormatTextStyleInfo(b.styles);
          AddLine(TextLine(trimmed, styleInfo), depth);
        } else {
          R.AppendEmpty(output);
        }
      case DocumentNode =>
        RenderChildBoxes(b.children, depth, a);
    }

    /** The element branch of `render_layout_box`. */
    method RenderElementBox(b: LayoutBox, depth: nat, a: Arena, tag: string, attrs: map<string, string>)
      requires NodesKnown(b, a) && b.styles.display != DisplayNone
      requires a[b.node].kind == Element(tag, attrs)
      modifies this
      ensures output == old(output) + BoxLines(b, depth, a, attributeOrder)
      decreases b, 0
    {
      var o := RenderedLine(depth, BoxOpen(tag, R.AttributeText(attrs, attributeOrder(attrs))));
      var c := RenderedLine(depth, BoxClose(tag));
      ghost var det := Details(b, depth + 1);
      ghost var cs := ChildBoxLines(b.children, depth + 1, a, attributeOrder);
      AddLine(o.line, depth);
      RenderDetails(b, depth + 1);
      RenderChildBoxes(b.children, depth + 1, a);
      AddLine(c.line, depth);
      R.Associate(old(output), [o], det);
      R.Associate(old(output), [o] + det, cs);
      R.Associate(old(output), [o] + det + cs, [c]);
    }

    /** The loop over a box's children, each at the same depth. */
    method RenderChildBoxes(bs: seq<LayoutBox>, depth: nat, a: Arena)
      requires AllKnown(bs, a)
      modifies this
      ensures output == old(output) + ChildBoxLines(bs, depth, a, attributeOrder)
      decreases bs, 2
    {
      var i := 0;
      while i < |bs|
        invariant i <= |bs|
        invariant AllKnown(bs[..i], a)
        invariant output == old(output) + ChildBoxLines(bs[..i], depth, a, attributeOrder)
      {
        ghost var prev := ChildBoxLines(bs[..i], depth, a, attributeOrder);
        ghost var next := BoxLines(bs[i], depth, a, attributeOrder);
        RenderLayoutBox(bs[i], depth, a);
        R.PrefixStep(bs, i);
        assert AllKnown(bs[..i + 1], a);
        assert ChildBoxLines(bs[..i + 1], depth, a, attributeOrder) == prev + next;
        R.Associate(old(output), prev, next);
        i := i + 1;
      }
      assert bs[..i] == bs;
    }

    /** `get_output`. */
    function GetOutput(): (r: seq<RenderedLine>)
      reads this
      ensures r == output
    {
      output
    }
  }

  /** The free function `render_layout_box`: a fresh renderer, the tree at depth 0. */
  method RenderLayoutTree(b: LayoutBox, a: Arena, order: R.AttributeOrder) returns (lines: seq<RenderedLine>)
    requires NodesKnown(b, a)
    ensures lines == BoxLines(b, 0, a, order)
  {
    var r := new LayoutRenderer(order);
    r.RenderLayoutBox(b, 0, a);
    lines := r.GetOutput();
  }
}
