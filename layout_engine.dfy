/**
 * `LayoutEngine`: the layout tree of boxes, the box-model accumulation of
 * `calculate_box_dimensions`, block stacking, flex lines, grid tracks and
 * the recursive `layout_element`. A layout box is a value here: the
 * source's `&mut LayoutBox` updates become methods that return the
 * updated box.
 */
module LayoutEngine {
  import opened Wrappers
  import opened LayoutStyles
  import CS = CssStylesheet
  import Dom

  /** A box of the layout tree: its node, styles, four nested rectangles and child boxes. */
  datatype LayoutBox = LayoutBox(
    node: nat,
    styles: Styles,
    content: Dimensions,
    padding: Dimensions,
    border: Dimensions,
    margin: Dimensions,
    children: seq<LayoutBox>)

  const Origin := Dimensions(0.0, 0.0, 0.0, 0.0)

  /** The box `layout_element` returns for `display: none`: all rectangles zero, no children. */
  function HiddenBox(node: nat, styles: Styles): LayoutBox {
    LayoutBox(node, styles, Origin, Origin, Origin, Origin, [])
  }

  // ---------------------------------------------------------------------
  // `calculate_box_dimensions`
  // ---------------------------------------------------------------------

  /** A rectangle grown by the sides, at the same position. */
  function Grow(d: Dimensions, s: BoxSides): Dimensions {
    Dimensions(d.x, d.y, d.width + s.left + s.right, d.height + s.top + s.bottom)
  }

  /** `calculate_box_dimensions`: padding around the content, border around the padding, margin around the border. */
  function BoxDimensions(b: LayoutBox): LayoutBox {
    var padding := Grow(b.content, b.styles.padding);
    var border := Grow(padding, b.styles.border);
    b.(padding := padding, border := border, margin := Grow(border, b.styles.margin))
  }

  predicate NonNegative(s: BoxSides) {
    s.top >= 0.0 && s.right >= 0.0 && s.bottom >= 0.0 && s.left >= 0.0
  }

  /**
   * The margin box is the content plus the padding, border and margin of
   * each side, as in section 8.1 of CSS 2.1; all four rectangles share
   * the content's position, and with non-negative sides each one contains
   * the next.
   */
  lemma BoxesNest(b: LayoutBox)
    ensures var r := BoxDimensions(b); var s := b.styles;
      r.content == b.content && r.children == b.children
      && r.margin.x == r.border.x == r.padding.x == b.content.x
      && r.margin.y == r.border.y == r.padding.y == b.content.y
      && r.margin.width == b.content.width + s.padding.left + s.padding.right + s.border.left + s.border.right
                           + s.margin.left + s.margin.right
      && r.margin.height == b.content.height + s.padding.top + s.padding.bottom + s.border.top + s.border.bottom
                            + s.margin.top + s.margin.bottom
    ensures var r := BoxDimensions(b); var s := b.styles;
      NonNegative(s.padding) && NonNegative(s.border) && NonNegative(s.margin) ==>
        r.content.Right() <= r.padding.Right() <= r.border.Right() <= r.margin.Right()
        && r.content.Bottom() <= r.padding.Bottom() <= r.border.Bottom() <= r.margin.Bottom()
  {
  }

  // ---------------------------------------------------------------------
  // `layout_block_children`
  // ---------------------------------------------------------------------

  /** How far `layout_block_children` moves down after a child, as the source writes it. */
  function AdvanceAsWritten(c: LayoutBox): real {
    c.margin.height + c.border.height + c.padding.height + c.content.height
  }

  /** The sum of the written advances of the first `k` children. */
  function OffsetAsWritten(cs: seq<LayoutBox>, k: nat): real
    requires k <= |cs|
  {
    if k == 0 then 0.0 else OffsetAsWritten(cs, k - 1) + AdvanceAsWritten(cs[k - 1])
  }

  /** The children as the source positions them: only `content.y` moves, to the running written offset. */
  function StackAsWritten(cs: seq<LayoutBox>): (r: seq<LayoutBox>)
    ensures |r| == |cs|
  {
    seq(|cs|, i requires 0 <= i < |cs| => MoveTo(cs[i], OffsetAsWritten(cs, i)))
  }

  /** Styles whose padding, border and margin are all zero. */
  predicate Bare(s: Styles) {
    s.padding == Uniform(0.0) && s.border == Uniform(0.0) && s.margin == Uniform(0.0)
  }

  /** With zero sides, all four rectangles of a box are its content rectangle. */
  lemma BareBoxesCoincide(b: LayoutBox)
    requires Bare(b.styles)
    ensures var r := BoxDimensions(b);
      r.padding == r.border == r.margin == b.content && AdvanceAsWritten(r) == 4.0 * b.content.height
  {
  }

  /**
   * The margin box already holds the border, padding and content boxes,
   * so the written advance counts a bare child's height four times.
   */
  lemma {:induction false} StackAsWrittenCountsFourTimes(cs: seq<LayoutBox>, k: nat)
    requires k <= |cs|
    requires forall i :: 0 <= i < |cs| ==> Bare(cs[i].styles) && cs[i] == BoxDimensions(cs[i])
    ensures OffsetAsWritten(cs, k) == 4.0 * HeightSum(cs, k)
  {
    if k > 0 {
      StackAsWrittenCountsFourTimes(cs, k - 1);
      BareBoxesCoincide(cs[k - 1]);
    }
  }

  /** The sum of the content heights of the first `k` children. */
  function HeightSum(cs: seq<LayoutBox>, k: nat): real
    requires k <= |cs|
  {
    if k == 0 then 0.0 else HeightSum(cs, k - 1) + cs[k - 1].content.height
  }

  /**
   * The written stacking leaves a 30px gap between two bare 10px
   * children: the first ends at 10, the second starts at 40.
   */
  lemma StackAsWrittenLeavesGap(c0: LayoutBox, c1: LayoutBox)
    requires Bare(c0.styles) && c0 == BoxDimensions(c0) && c0.content.height == 10.0
    ensures var cs := StackAsWritten([c0, c1]);
      cs[0].content.Bottom() == 10.0 && cs[1].content.y == 40.0
  {
    BareBoxesCoincide(c0);
  }

  /** The corrected stacking: each child moves down by its margin-box height. */
  function Offset(cs: seq<LayoutBox>, k: nat): real
    requires k <= |cs|
  {
    if k == 0 then 0.0 else Offset(cs, k - 1) + cs[k - 1].margin.height
  }

  /** A box whose content rectangle is moved to height `y`. */
  function MoveTo(b: LayoutBox, y: real): LayoutBox {
    b.(content := b.content.(y := y))
  }

  /** The corrected stacking of the children: only `content.y` moves, as in the source. */
  function Stack(cs: seq<LayoutBox>): (r: seq<LayoutBox>)
    ensures |r| == |cs|
  {
    seq(|cs|, i requires 0 <= i < |cs| => MoveTo(cs[i], Offset(cs, i)))
  }

  /**
   * The first stacked child starts at 0 and each next one starts one
   * margin-box height below the previous one, so margin boxes placed at
   * the content positions neither overlap nor leave gaps; nothing but
   * the position changes.
   */
  lemma StackTiles(cs: seq<LayoutBox>)
    ensures var r := Stack(cs);
      (|r| > 0 ==> r[0].content.y == 0.0)
      && (forall i :: 0 < i < |r| ==> r[i].content.y == r[i - 1].content.y + cs[i - 1].margin.height)
      && (forall i :: 0 <= i < |r| ==> r[i] == cs[i].(content := r[i].content) && r[i].content.height == cs[i].content.height)
  {
  }

  /** The font size used for the minimum height of a childless block. */
  function FontSizeOf(s: Styles): real {
    s.fontSize.GetOr(16.0)
  }

  function Max(x: real, y: real): real {
    if x < y then y else x
  }

  /** `layout_block_children` as written: append the stacked children and grow the height to the written offset. */
  function BlockChildren(parent: LayoutBox, cs: seq<LayoutBox>): LayoutBox {
    var children := parent.children + StackAsWritten(cs);
    var h := parent.content.height;
    var height := if children != [] then Max(OffsetAsWritten(cs, |cs|), h) else Max(h, FontSizeOf(parent.styles) * 1.2);
    parent.(children := children, content := parent.content.(height := height))
  }

  /**
   * The block grows to hold its children at their written offsets and
   * never shrinks; only the content position of a child moves; a block
   * with no children is at least one line (1.2 times its font size) high.
   */
  lemma BlockChildrenContains(parent: LayoutBox, cs: seq<LayoutBox>)
    ensures var r := BlockChildren(parent, cs);
      r.children == parent.children + StackAsWritten(cs)
      && r.content.height >= parent.content.height
      && (cs != [] ==> r.content.height >= OffsetAsWritten(cs, |cs|))
      && (parent.children == [] && cs == [] ==> r.content.height >= FontSizeOf(parent.styles) * 1.2)
    ensures forall i :: 0 <= i < |cs| ==>
      var c := BlockChildren(parent, cs).children[|parent.children| + i];
      c == cs[i].(content := c.content) && c.content.height == cs[i].content.height
      && c.content.y == OffsetAsWritten(cs, i)
  {
    var r := BlockChildren(parent, cs);
    var st := StackAsWritten(cs);
    assert r.children == parent.children + st;
    forall i | 0 <= i < |cs|
      ensures r.children[|parent.children| + i] == MoveTo(cs[i], OffsetAsWritten(cs, i))
    {
      assert r.children[|parent.children| + i] == st[i];
    }
  }

  /** The stacking loop of `layout_block_children`, advancing by the four heights as the source does. */
  method LayoutBlockChildren(parent: LayoutBox, cs: seq<LayoutBox>) returns (r: LayoutBox)
    ensures r == BlockChildren(parent, cs)
  {
    var currentY := 0.0;
    var placed: seq<LayoutBox> := [];
    for i := 0 to |cs|
      invariant currentY == OffsetAsWritten(cs, i)
      invariant placed == StackAsWritten(cs)[..i]
    {
      var positioned := MoveTo(cs[i], currentY);
      placed := placed + [positioned];
      currentY := currentY + positioned.margin.height + positioned.border.height
                           + positioned.padding.height + positioned.content.height;
    }
    var children := parent.children + placed;
    var height := parent.content.height;
    if children != [] {
      height := Max(currentY, height);
    } else {
      height := Max(height, FontSizeOf(parent.styles) * 1.2);
    }
    r := parent.(children := children, content := parent.content.(height := height));
  }

  // ---------------------------------------------------------------------
  // `layout_flex_row` and `layout_flex_column`
  // ---------------------------------------------------------------------

  /**
   * The main axis of a flex line. `layout_flex_row` and
   * `layout_flex_column` are the same algorithm with x and y (and width
   * and height) exchanged; `FlexLine` is that algorithm for either axis.
   */
  datatype Axis = Horizontal | Vertical

  function MainPos(d: Dimensions, ax: Axis): real {
    if ax == Horizontal then d.x else d.y
  }

  function MainSize(d: Dimensions, ax: Axis): real {
    if ax == Horizontal then d.width else d.height
  }

  function CrossPos(d: Dimensions, ax: Axis): real {
    if ax == Horizontal then d.y else d.x
  }

  function CrossSize(d: Dimensions, ax: Axis): real {
    if ax == Horizontal then d.height else d.width
  }

  /** The rectangle at main position `main` and cross position `cross`. */
  function PlaceAt(d: Dimensions, ax: Axis, main: real, cross: real): Dimensions {
    if ax == Horizontal then d.(x := main, y := cross) else d.(x := cross, y := main)
  }

  function WithCrossPos(d: Dimensions, ax: Axis, cross: real): Dimensions {
    if ax == Horizontal then d.(y := cross) else d.(x := cross)
  }

  function WithCrossSize(d: Dimensions, ax: Axis, size: real): Dimensions {
    if ax == Horizontal then d.(height := size) else d.(width := size)
  }

  function ShiftMain(d: Dimensions, ax: Axis, delta: real): Dimensions {
    if ax == Horizontal then d.(x := d.x + delta) else d.(y := d.y + delta)
  }

  /** `align-items` applied to an item placed on a line starting at `cross`. */
  function Align(d: Dimensions, ax: Axis, cross: real, availCross: real, align: AlignItems): Dimensions {
    match align
    case AlignEnd => WithCrossPos(d, ax, cross + availCross - CrossSize(d, ax))
    case AlignCenter => WithCrossPos(d, ax, cross + (availCross - CrossSize(d, ax)) / 2.0)
    case AlignStretch => WithCrossSize(d, ax, availCross)
    case _ => d
  }

  /** The running state of the placement loop: items placed so far, main and cross position, line size. */
  datatype LineState = LineState(placed: seq<LayoutBox>, main: real, cross: real, line: real)

  /** One turn of the placement loop: wrap if needed, place, align, advance. */
  function FlexStep(st: LineState, c: LayoutBox, ax: Axis, availMain: real, availCross: real,
                    align: AlignItems, wrap: FlexWrap): LineState
  {
    var wrapNow := wrap == Wrap && st.main + MainSize(c.content, ax) > availMain && st.main > 0.0;
    var main := if wrapNow then 0.0 else st.main;
    var cross := if wrapNow then st.cross + st.line else st.cross;
    var line := if wrapNow then 0.0 else st.line;
    var d := Align(PlaceAt(c.content, ax, main, cross), ax, cross, availCross, align);
    LineState(st.placed + [c.(content := d)], main + MainSize(d, ax), cross, Max(line, CrossSize(d, ax)))
  }

  /** The state after the first `k` items are placed. */
  function FlexPlace(cs: seq<LayoutBox>, k: nat, ax: Axis, availMain: real, availCross: real,
                     align: AlignItems, wrap: FlexWrap): (st: LineState)
    requires k <= |cs|
    ensures |st.placed| == k
  {
    if k == 0 then LineState([], 0.0, 0.0, 0.0)
    else FlexStep(FlexPlace(cs, k - 1, ax, availMain, availCross, align, wrap), cs[k - 1], ax, availMain, availCross, align, wrap)
  }

  /** The sum of the main sizes of the first `k` items. */
  function MainSum(cs: seq<LayoutBox>, k: nat, ax: Axis): real
    requires k <= |cs|
  {
    if k == 0 then 0.0 else MainSum(cs, k - 1, ax) + MainSize(cs[k - 1].content, ax)
  }

  /** How far `justify-content` moves item `i` of `n` along the main axis, given the free space. */
  function JustifyOffset(justify: JustifyContent, i: nat, n: nat, extra: real): real
    requires i < n
  {
    match justify
    case JustifyStart => 0.0
    case JustifyEnd => extra
    case JustifyCenter => extra / 2.0
    case SpaceBetween => if n > 1 && i > 0 then extra / (n - 1) as real * i as real else 0.0
    case SpaceAround => extra / n as real * (i as real + 0.5)
    case SpaceEvenly => extra / (n + 1) as real * (i as real + 1.0)
  }

  /** The placed items shifted by `justify-content`, which shares out the free main-axis space. */
  function Justify(placed: seq<LayoutBox>, ax: Axis, availMain: real, justify: JustifyContent): (r: seq<LayoutBox>)
    ensures |r| == |placed|
  {
    var extra := availMain - MainSum(placed, |placed|, ax);
    seq(|placed|, i requires 0 <= i < |placed| =>
      placed[i].(content := ShiftMain(placed[i].content, ax, JustifyOffset(justify, i, |placed|, extra))))
  }

  /** `layout_flex_row` (horizontal axis) and `layout_flex_column` (vertical axis). */
  function FlexLine(cs: seq<LayoutBox>, ax: Axis, availMain: real, availCross: real,
                    justify: JustifyContent, align: AlignItems, wrap: FlexWrap): (r: seq<LayoutBox>)
    ensures |r| == |cs|
  {
    Justify(FlexPlace(cs, |cs|, ax, availMain, availCross, align, wrap).placed, ax, availMain, justify)
  }

  /** Aligning never changes an item's main position or main size. */
  lemma AlignKeepsMain(d: Dimensions, ax: Axis, main: real, cross: real, availCross: real, align: AlignItems)
    ensures var e := Align(PlaceAt(d, ax, main, cross), ax, cross, availCross, align);
      MainPos(e, ax) == main && MainSize(e, ax) == MainSize(d, ax)
  {
  }

  /** An item keeps its place once it is placed. */
  lemma {:induction false} FlexPlaceStable(cs: seq<LayoutBox>, k: nat, i: nat, ax: Axis, availMain: real,
                                            availCross: real, align: AlignItems, wrap: FlexWrap)
    requires i < k <= |cs|
    ensures FlexPlace(cs, k, ax, availMain, availCross, align, wrap).placed[i]
         == FlexPlace(cs, i + 1, ax, availMain, availCross, align, wrap).placed[i]
  {
    if k > i + 1 {
      FlexPlaceStable(cs, k - 1, i, ax, availMain, availCross, align, wrap);
    }
  }

  /** Without wrapping, the running main position is the sum of the main sizes placed so far, on one line. */
  lemma {:induction false} FlexPlaceNoWrap(cs: seq<LayoutBox>, k: nat, ax: Axis, availMain: real,
                                            availCross: real, align: AlignItems, wrap: FlexWrap)
    requires k <= |cs| && wrap != Wrap
    ensures var st := FlexPlace(cs, k, ax, availMain, availCross, align, wrap);
      st.main == MainSum(cs, k, ax) && st.cross == 0.0
  {
    if k > 0 {
      FlexPlaceNoWrap(cs, k - 1, ax, availMain, availCross, align, wrap);
      var st := FlexPlace(cs, k - 1, ax, availMain, availCross, align, wrap);
      AlignKeepsMain(cs[k - 1].content, ax, st.main, st.cross, availCross, align);
    }
  }

  /** Placed item `i` (any wrapping): its main size is kept; without wrapping it starts at the sum of the earlier main sizes. */
  lemma PlacedItem(cs: seq<LayoutBox>, i: nat, ax: Axis, availMain: real, availCross: real,
                   align: AlignItems, wrap: FlexWrap)
    requires i < |cs|
    ensures var p := FlexPlace(cs, |cs|, ax, availMain, availCross, align, wrap).placed[i];
      MainSize(p.content, ax) == MainSize(cs[i].content, ax)
      && (align == AlignStretch ==> CrossSize(p.content, ax) == availCross)
      && (wrap != Wrap ==> MainPos(p.content, ax) == MainSum(cs, i, ax))
  {
    FlexPlaceStable(cs, |cs|, i, ax, availMain, availCross, align, wrap);
    var st := FlexPlace(cs, i, ax, availMain, availCross, align, wrap);
    var wrapNow := wrap == Wrap && st.main + MainSize(cs[i].content, ax) > availMain && st.main > 0.0;
    AlignKeepsMain(cs[i].content, ax, if wrapNow then 0.0 else st.main,
                   if wrapNow then st.cross + st.line else st.cross, availCross, align);
    if wrap != Wrap {
      FlexPlaceNoWrap(cs, i, ax, availMain, availCross, align, wrap);
    }
  }

  /** Placing keeps every item's main size, so the free space is the same before and after placing. */
  lemma {:induction false} PlacedMainSum(cs: seq<LayoutBox>, k: nat, ax: Axis, availMain: real, availCross: real,
                                          align: AlignItems, wrap: FlexWrap)
    requires k <= |cs|
    ensures var placed := FlexPlace(cs, |cs|, ax, availMain, availCross, align, wrap).placed;
      MainSum(placed, k, ax) == MainSum(cs, k, ax)
  {
    if k > 0 {
      PlacedMainSum(cs, k - 1, ax, availMain, availCross, align, wrap);
      PlacedItem(cs, k - 1, ax, availMain, availCross, align, wrap);
    }
  }

  /**
   * Item `i` of a flex line, without wrapping: it starts at the sum of the
   * earlier main sizes plus its `justify-content` offset, and keeps its
   * main size; with `align-items: stretch` it fills the cross axis.
   */
  lemma FlexItem(cs: seq<LayoutBox>, i: nat, ax: Axis, availMain: real, availCross: real,
                 justify: JustifyContent, align: AlignItems, wrap: FlexWrap)
    requires i < |cs|
    ensures var r := FlexLine(cs, ax, availMain, availCross, justify, align, wrap)[i];
      MainSize(r.content, ax) == MainSize(cs[i].content, ax)
      && (align == AlignStretch ==> CrossSize(r.content, ax) == availCross)
      && (wrap != Wrap ==>
            MainPos(r.content, ax) == MainSum(cs, i, ax) + JustifyOffset(justify, i, |cs|, availMain - MainSum(cs, |cs|, ax)))
  {
    PlacedItem(cs, i, ax, availMain, availCross, align, wrap);
    PlacedMainSum(cs, |cs|, ax, availMain, availCross, align, wrap);
  }

  /** `justify-content: flex-start` without wrapping packs the items from 0: each starts where the previous ends. */
  lemma FlexStartPacks(cs: seq<LayoutBox>, ax: Axis, availMain: real, availCross: real, align: AlignItems, wrap: FlexWrap)
    requires wrap != Wrap
    ensures var r := FlexLine(cs, ax, availMain, availCross, JustifyStart, align, wrap);
      forall i :: 0 <= i < |r| ==> MainPos(r[i].content, ax) == MainSum(cs, i, ax)
  {
    var r := FlexLine(cs, ax, availMain, availCross, JustifyStart, align, wrap);
    forall i | 0 <= i < |r|
      ensures MainPos(r[i].content, ax) == MainSum(cs, i, ax)
    {
      FlexItem(cs, i, ax, availMain, availCross, JustifyStart, align, wrap);
    }
  }

  /**
   * `flex-end`, and `space-between` with more than one item, end the last
   * item exactly at the available main size; `space-between` also starts
   * the first item at 0.
   */
  lemma FlexEndsFlush(cs: seq<LayoutBox>, ax: Axis, availMain: real, availCross: real,
                      justify: JustifyContent, align: AlignItems, wrap: FlexWrap)
    requires wrap != Wrap && |cs| > 0
    requires justify == JustifyEnd || (justify == SpaceBetween && |cs| > 1)
    ensures var r := FlexLine(cs, ax, availMain, availCross, justify, align, wrap);
      MainPos(r[|r| - 1].content, ax) + MainSize(r[|r| - 1].content, ax) == availMain
      && (justify == SpaceBetween ==> MainPos(r[0].content, ax) == 0.0)
  {
    var n := |cs|;
    FlexItem(cs, n - 1, ax, availMain, availCross, justify, align, wrap);
    FlexItem(cs, 0, ax, availMain, availCross, justify, align, wrap);
    var extra := availMain - MainSum(cs, n, ax);
    if justify == SpaceBetween {
      assert JustifyOffset(justify, n - 1, n, extra) == extra by {
        assert extra / (n - 1) as real * (n - 1) as real == extra;
      }
    }
  }

  /** `justify-content: center` without wrapping leaves equal space before the first item and after the last. */
  lemma FlexCenterBalanced(cs: seq<LayoutBox>, ax: Axis, availMain: real, availCross: real, align: AlignItems, wrap: FlexWrap)
    requires wrap != Wrap && |cs| > 0
    ensures var r := FlexLine(cs, ax, availMain, availCross, JustifyCenter, align, wrap);
      MainPos(r[0].content, ax) == availMain - (MainPos(r[|r| - 1].content, ax) + MainSize(r[|r| - 1].content, ax))
  {
    FlexItem(cs, |cs| - 1, ax, availMain, availCross, JustifyCenter, align, wrap);
    FlexItem(cs, 0, ax, availMain, availCross, JustifyCenter, align, wrap);
  }

  /** The largest of 0 and the far edges of the first `k` items along x (or y). */
  function FarEdge(cs: seq<LayoutBox>, k: nat, ax: Axis): real
    requires k <= |cs|
  {
    if k == 0 then 0.0 else Max(FarEdge(cs, k - 1, ax), MainPos(cs[k - 1].content, ax) + MainSize(cs[k - 1].content, ax))
  }

  /** The far-edge fold bounds every item it has seen, and is one of them (or 0). */
  lemma {:induction false} FarEdgeBounds(cs: seq<LayoutBox>, k: nat, ax: Axis)
    requires k <= |cs|
    ensures FarEdge(cs, k, ax) >= 0.0
    ensures forall i :: 0 <= i < k ==> MainPos(cs[i].content, ax) + MainSize(cs[i].content, ax) <= FarEdge(cs, k, ax)
    ensures FarEdge(cs, k, ax) == 0.0
         || (exists i :: 0 <= i < k && FarEdge(cs, k, ax) == MainPos(cs[i].content, ax) + MainSize(cs[i].content, ax))
  {
    if k > 0 {
      FarEdgeBounds(cs, k - 1, ax);
    }
  }

  /** `layout_flex_children`: lay the children out on a flex line, then grow the parent to hold them. */
  function FlexChildren(parent: LayoutBox, cs: seq<LayoutBox>): LayoutBox {
    var s := parent.styles;
    var direction := s.flexDirection.GetOr(Row);
    var ax := if direction == Row || direction == RowReverse then Horizontal else Vertical;
    var availMain := MainSize(parent.content, ax);
    var availCross := CrossSize(parent.content, ax);
    var laid := FlexLine(cs, ax, availMain, availCross, s.justifyContent.GetOr(JustifyStart),
                         s.alignItems.GetOr(AlignStretch), s.flexWrap.GetOr(Nowrap));
    var content :=
      if laid == [] then parent.content
      else parent.content.(width := Max(FarEdge(laid, |laid|, Horizontal), parent.content.width),
                           height := Max(FarEdge(laid, |laid|, Vertical), parent.content.height));
    parent.(children := laid, content := content)
  }

  /** The flex container replaces its children by the laid-out items and grows, never shrinks, to hold every one. */
  lemma FlexChildrenContains(parent: LayoutBox, cs: seq<LayoutBox>)
    ensures var r := FlexChildren(parent, cs);
      |r.children| == |cs|
      && r.content.width >= parent.content.width && r.content.height >= parent.content.height
      && (forall i :: 0 <= i < |r.children| ==>
            r.children[i].content.Right() <= r.content.width && r.children[i].content.Bottom() <= r.content.height)
  {
    var r := FlexChildren(parent, cs);
    FarEdgeBounds(r.children, |r.children|, Horizontal);
    FarEdgeBounds(r.children, |r.children|, Vertical);
  }

  /** The `align-items` match of the placement loop. */
  method AlignItem(d: Dimensions, ax: Axis, cross: real, availCross: real, align: AlignItems) returns (e: Dimensions)
    ensures e == Align(d, ax, cross, availCross, align)
  {
    e := d;
    match align {
      case AlignEnd => e := WithCrossPos(d, ax, cross + availCross - CrossSize(d, ax));
      case AlignCenter => e := WithCrossPos(d, ax, cross + (availCross - CrossSize(d, ax)) / 2.0);
      case AlignStretch => e := WithCrossSize(d, ax, availCross);
      case AlignStart =>
      case AlignBaseline =>
    }
  }

  /** One turn of the placement loop: wrap if the item does not fit, place it, align it, advance. */
  method PlaceItem(st: LineState, c: LayoutBox, ax: Axis, availMain: real, availCross: real,
                   align: AlignItems, wrap: FlexWrap) returns (next: LineState)
    ensures next == FlexStep(st, c, ax, availMain, availCross, align, wrap)
  {
    var main, cross, line := st.main, st.cross, st.line;
    if wrap == Wrap && main + MainSize(c.content, ax) > availMain && main > 0.0 {
      main := 0.0;
      cross := cross + line;
      line := 0.0;
    }
    var d := AlignItem(PlaceAt(c.content, ax, main, cross), ax, cross, availCross, align);
    next := LineState(st.placed + [c.(content := d)], main + MainSize(d, ax), cross, Max(line, CrossSize(d, ax)));
  }

  /** The placement loop of `layout_flex_row` / `layout_flex_column`. */
  method PlaceItems(cs: seq<LayoutBox>, ax: Axis, availMain: real, availCross: real,
                    align: AlignItems, wrap: FlexWrap) returns (placed: seq<LayoutBox>)
    ensures placed == FlexPlace(cs, |cs|, ax, availMain, availCross, align, wrap).placed
  {
    var st := LineState([], 0.0, 0.0, 0.0);
    for i := 0 to |cs|
      invariant st == FlexPlace(cs, i, ax, availMain, availCross, align, wrap)
    {
      st := PlaceItem(st, cs[i], ax, availMain, availCross, align, wrap);
    }
    placed := st.placed;
  }

  /** The `justify-content` pass: total main size, free space, then each item's offset. */
  method JustifyItems(placed: seq<LayoutBox>, ax: Axis, availMain: real, justify: JustifyContent)
    returns (r: seq<LayoutBox>)
    ensures r == Justify(placed, ax, availMain, justify)
  {
    var total := 0.0;
    for i := 0 to |placed|
      invariant total == MainSum(placed, i, ax)
    {
      total := total + MainSize(placed[i].content, ax);
    }
    var extra := availMain - total;
    ghost var justified := Justify(placed, ax, availMain, justify);
    r := [];
    for i := 0 to |placed|
      invariant r == justified[..i]
    {
      r := r + [placed[i].(content := ShiftMain(placed[i].content, ax, JustifyOffset(justify, i, |placed|, extra)))];
    }
    assert r == justified;
  }

  /** `layout_flex_row` (horizontal axis) or `layout_flex_column` (vertical axis); nothing is justified on an empty line. */
  method LayoutFlexLine(cs: seq<LayoutBox>, ax: Axis, availMain: real, availCross: real,
                        justify: JustifyContent, align: AlignItems, wrap: FlexWrap) returns (r: seq<LayoutBox>)
    ensures r == FlexLine(cs, ax, availMain, availCross, justify, align, wrap)
  {
    r := PlaceItems(cs, ax, availMain, availCross, align, wrap);
    if r != [] {
      r := JustifyItems(r, ax, availMain, justify);
    }
  }

  /** The far-edge fold of `layout_flex_children` along one axis. */
  method FarEdgeOf(cs: seq<LayoutBox>, ax: Axis) returns (edge: real)
    ensures edge == FarEdge(cs, |cs|, ax)
  {
    edge := 0.0;
    for i := 0 to |cs|
      invariant edge == FarEdge(cs, i, ax)
    {
      edge := Max(edge, MainPos(cs[i].content, ax) + MainSize(cs[i].content, ax));
    }
  }

  /** `layout_flex_children` on children already laid out. */
  method LayoutFlexChildren(parent: LayoutBox, cs: seq<LayoutBox>) returns (r: LayoutBox)
    ensures r == FlexChildren(parent, cs)
  {
    var s := parent.styles;
    var direction := s.flexDirection.GetOr(Row);
    var ax := if direction == Row || direction == RowReverse then Horizontal else Vertical;
    var laid := LayoutFlexLine(cs, ax, MainSize(parent.content, ax), CrossSize(parent.content, ax),
                               s.justifyContent.GetOr(JustifyStart), s.alignItems.GetOr(AlignStretch),
                               s.flexWrap.GetOr(Nowrap));
    var content := parent.content;
    if laid != [] {
      var maxX := FarEdgeOf(laid, Horizontal);
      var maxY := FarEdgeOf(laid, Vertical);
      content := content.(width := Max(maxX, content.width), height := Max(maxY, content.height));
    }
    r := parent.(children := laid, content := content);
  }

  // ---------------------------------------------------------------------
  // `calculate_grid_tracks`
  // ---------------------------------------------------------------------

  /** The size a track takes before flexible space is shared out; an `fr` track starts at 0. */
  function BaseSize(t: GridTrack): real {
    match t
    case Fixed(size) => size
    case Fractional(_) => 0.0
    case Auto => 100.0
    case MinContent => 50.0
    case MaxContent => 200.0
  }

  /** The sum of the base sizes of the first `k` tracks (`fixed_width`). */
  function FixedSum(ts: seq<GridTrack>, k: nat): real
    requires k <= |ts|
  {
    if k == 0 then 0.0 else FixedSum(ts, k - 1) + BaseSize(ts[k - 1])
  }

  /** How many of the first `k` tracks are `fr` tracks. */
  function FrCount(ts: seq<GridTrack>, k: nat): nat
    requires k <= |ts|
  {
    if k == 0 then 0 else FrCount(ts, k - 1) + (if ts[k - 1].Fractional? then 1 else 0)
  }

  /** The sum of the flex factors of the first `k` tracks. */
  function FrSum(ts: seq<GridTrack>, k: nat): real
    requires k <= |ts|
  {
    if k == 0 then 0.0 else FrSum(ts, k - 1) + (if ts[k - 1].Fractional? then ts[k - 1].fr else 0.0)
  }

  /** The space left for `fr` tracks: the available size less the base sizes and the gaps between tracks. */
  function Leftover(ts: seq<GridTrack>, avail: real, gap: real): real {
    avail - FixedSum(ts, |ts|) - gap * (|ts| - 1) as real
  }

  /** Every track at its base size, and each `fr` track at `unit` times its flex factor. */
  function SizesWith(ts: seq<GridTrack>, unit: real): (r: seq<real>)
    ensures |r| == |ts|
  {
    seq(|ts|, i requires 0 <= i < |ts| => if ts[i].Fractional? then unit * ts[i].fr else BaseSize(ts[i]))
  }

  /** `calculate_grid_tracks` as written: the leftover divided by the number of `fr` tracks, times the flex factor. */
  function TrackSizesAsWritten(ts: seq<GridTrack>, avail: real, gap: real): (r: seq<real>)
    ensures |r| == |ts|
  {
    var count := FrCount(ts, |ts|);
    SizesWith(ts, if count > 0 then Leftover(ts, avail, gap) / count as real else 0.0)
  }

  /**
   * The corrected track sizing: the leftover divided by the sum of the
   * flex factors (at least 1), as in section 12.7.1 of CSS Grid Layout
   * Module Level 1.
   */
  function TrackSizes(ts: seq<GridTrack>, avail: real, gap: real): (r: seq<real>)
    ensures |r| == |ts|
  {
    var count := FrCount(ts, |ts|);
    SizesWith(ts, if count > 0 then Leftover(ts, avail, gap) / Max(FrSum(ts, |ts|), 1.0) else 0.0)
  }

  /** The sum of the first `k` sizes. */
  function Sum(xs: seq<real>, k: nat): real
    requires k <= |xs|
  {
    if k == 0 then 0.0 else Sum(xs, k - 1) + xs[k - 1]
  }

  /**
   * Fixed tracks keep their size, `auto` is 100, `min-content` 50 and
   * `max-content` 200 (in both versions); an `fr` track's size is in
   * proportion to its flex factor.
   */
  lemma TrackSizeTable(ts: seq<GridTrack>, avail: real, gap: real, i: nat)
    requires i < |ts|
    ensures var r := TrackSizes(ts, avail, gap);
      (ts[i].Fixed? ==> r[i] == ts[i].size) && (ts[i] == Auto ==> r[i] == 100.0)
      && (ts[i] == MinContent ==> r[i] == 50.0) && (ts[i] == MaxContent ==> r[i] == 200.0)
      && (!ts[i].Fractional? ==> r[i] == TrackSizesAsWritten(ts, avail, gap)[i])
  {
  }

  /** In both versions two `fr` tracks share the leftover in proportion to their flex factors. */
  lemma FrTracksProportional(ts: seq<GridTrack>, avail: real, gap: real, i: nat, j: nat)
    requires i < |ts| && j < |ts| && ts[i].Fractional? && ts[j].Fractional?
    ensures var r := TrackSizesAsWritten(ts, avail, gap); r[i] * ts[j].fr == r[j] * ts[i].fr
    ensures var r := TrackSizes(ts, avail, gap); r[i] * ts[j].fr == r[j] * ts[i].fr
  {
    FrTrackCounted(ts, |ts|, i);
    var w := TrackSizesAsWritten(ts, avail, gap);
    var u := Leftover(ts, avail, gap) / FrCount(ts, |ts|) as real;
    assert w[i] == u * ts[i].fr && w[j] == u * ts[j].fr;
    var r := TrackSizes(ts, avail, gap);
    var unit := Leftover(ts, avail, gap) / Max(FrSum(ts, |ts|), 1.0);
    assert r[i] == unit * ts[i].fr && r[j] == unit * ts[j].fr;
  }

  /** An `fr` track among the first `k` is counted. */
  lemma {:induction false} FrTrackCounted(ts: seq<GridTrack>, k: nat, j: nat)
    requires j < k <= |ts| && ts[j].Fractional?
    ensures FrCount(ts, k) > 0
  {
    if k > j + 1 {
      FrTrackCounted(ts, k - 1, j);
    }
  }

  /** The sized tracks add up to the base sizes plus `unit` times the flex factors. */
  lemma {:induction false} SizesWithSum(ts: seq<GridTrack>, unit: real, k: nat)
    requires k <= |ts|
    ensures Sum(SizesWith(ts, unit), k) == FixedSum(ts, k) + unit * FrSum(ts, k)
  {
    if k > 0 {
      SizesWithSum(ts, unit, k - 1);
      var t := ts[k - 1];
      var x := SizesWith(ts, unit)[k - 1];
      if t.Fractional? {
        assert x == unit * t.fr;
        assert FrSum(ts, k) == FrSum(ts, k - 1) + t.fr && FixedSum(ts, k) == FixedSum(ts, k - 1) + 0.0;
        assert unit * FrSum(ts, k) == unit * FrSum(ts, k - 1) + unit * t.fr;
      } else {
        assert x == BaseSize(t);
        assert FrSum(ts, k) == FrSum(ts, k - 1);
      }
    }
  }

  /** Every flex factor is 1. */
  predicate AllOnes(ts: seq<GridTrack>) {
    forall i :: 0 <= i < |ts| && ts[i].Fractional? ==> ts[i].fr == 1.0
  }

  /** With all flex factors 1, the sum of the factors is the number of `fr` tracks. */
  lemma {:induction false} OnesSumToCount(ts: seq<GridTrack>, k: nat)
    requires k <= |ts| && AllOnes(ts)
    ensures FrSum(ts, k) == FrCount(ts, k) as real
  {
    if k > 0 {
      OnesSumToCount(ts, k - 1);
    }
  }

  /**
   * When there is an `fr` track and all flex factors are 1, the written
   * sizing fills the available size exactly: the tracks plus the gaps
   * between them add up to `avail`.
   */
  lemma OnesFillAsWritten(ts: seq<GridTrack>, avail: real, gap: real)
    requires AllOnes(ts) && FrCount(ts, |ts|) > 0
    ensures Sum(TrackSizesAsWritten(ts, avail, gap), |ts|) + gap * (|ts| - 1) as real == avail
  {
    var count := FrCount(ts, |ts|);
    var unit := Leftover(ts, avail, gap) / count as real;
    SizesWithSum(ts, unit, |ts|);
    OnesSumToCount(ts, |ts|);
  }

  /**
   * The written sizing divides by the number of `fr` tracks, not by the
   * sum of their factors: `1fr 2fr` in 300px with no gap gives 150 and
   * 300, which overflow the grid by 150.
   */
  lemma AsWrittenOverflows()
    ensures var r := TrackSizesAsWritten([Fractional(1.0), Fractional(2.0)], 300.0, 0.0);
      r == [150.0, 300.0] && Sum(r, 2) == 450.0
  {
    var ts := [Fractional(1.0), Fractional(2.0)];
    assert FrCount(ts, 1) == 1 && FrCount(ts, 2) == 2;
    assert FixedSum(ts, 1) == 0.0 && FixedSum(ts, 2) == 0.0;
    assert Leftover(ts, 300.0, 0.0) == 300.0;
    var r := SizesWith(ts, 150.0);
    assert TrackSizesAsWritten(ts, 300.0, 0.0) == r;
    assert r[0] == 150.0 && r[1] == 300.0;
    assert r == [150.0, 300.0];
  }

  /**
   * The corrected sizing fills the available size whenever there is an
   * `fr` track and the flex factors add up to at least 1.
   */
  lemma TracksFill(ts: seq<GridTrack>, avail: real, gap: real)
    requires FrCount(ts, |ts|) > 0 && FrSum(ts, |ts|) >= 1.0
    ensures Sum(TrackSizes(ts, avail, gap), |ts|) + gap * (|ts| - 1) as real == avail
  {
    var unit := Leftover(ts, avail, gap) / FrSum(ts, |ts|);
    SizesWithSum(ts, unit, |ts|);
  }

  /** With all flex factors 1 the corrected sizing is the written one. */
  lemma CorrectedAgreesOnOnes(ts: seq<GridTrack>, avail: real, gap: real)
    requires AllOnes(ts)
    ensures TrackSizes(ts, avail, gap) == TrackSizesAsWritten(ts, avail, gap)
  {
    OnesSumToCount(ts, |ts|);
  }

  /** The first loop of `calculate_grid_tracks`: base sizes, `fixed_width`, the `fr` count and the flex-factor sum. */
  method BaseSizes(ts: seq<GridTrack>) returns (sizes: seq<real>, fixed: real, count: nat, frSum: real)
    ensures sizes == SizesWith(ts, 0.0)
    ensures fixed == FixedSum(ts, |ts|) && count == FrCount(ts, |ts|) && frSum == FrSum(ts, |ts|)
  {
    sizes := [];
    fixed, count, frSum := 0.0, 0, 0.0;
    for i := 0 to |ts|
      invariant sizes == SizesWith(ts, 0.0)[..i]
      invariant fixed == FixedSum(ts, i) && count == FrCount(ts, i) && frSum == FrSum(ts, i)
    {
      match ts[i] {
        case Fixed(size) =>
          sizes := sizes + [size];
          fixed := fixed + size;
        case Fractional(fr) =>
          sizes := sizes + [0.0];
          count := count + 1;
          frSum := frSum + fr;
        case Auto =>
          sizes := sizes + [100.0];
          fixed := fixed + 100.0;
        case MinContent =>
          sizes := sizes + [50.0];
          fixed := fixed + 50.0;
        case MaxContent =>
          sizes := sizes + [200.0];
          fixed := fixed + 200.0;
      }
    }
  }

  /** No track among the first `k` is an `fr` track when none is counted. */
  lemma {:induction false} NoFrTracks(ts: seq<GridTrack>, k: nat)
    requires k <= |ts| && FrCount(ts, k) == 0
    ensures forall j :: 0 <= j < k ==> !ts[j].Fractional?
  {
    if k > 0 {
      NoFrTracks(ts, k - 1);
    }
  }

  /** The sizing loops of `calculate_grid_tracks` for one list of tracks, dividing by the `fr` count as written. */
  method SizeTracks(ts: seq<GridTrack>, avail: real, gap: real) returns (sizes: seq<real>)
    ensures sizes == TrackSizesAsWritten(ts, avail, gap)
  {
    var fixed, count, frSum;
    sizes, fixed, count, frSum := BaseSizes(ts);
    if count > 0 {
      var remaining := avail - fixed - gap * (|ts| - 1) as real;
      var unit := remaining / count as real;
      ghost var target := SizesWith(ts, unit);
      for i := 0 to |ts|
        invariant |sizes| == |ts|
        invariant forall j :: 0 <= j < i ==> sizes[j] == target[j]
        invariant forall j :: i <= j < |ts| ==> sizes[j] == SizesWith(ts, 0.0)[j]
      {
        if ts[i].Fractional? {
          sizes := sizes[i := unit * ts[i].fr];
        }
      }
    } else {
      NoFrTracks(ts, |ts|);
      assert sizes == TrackSizesAsWritten(ts, avail, gap);
    }
  }

  /** `calculate_grid_tracks`: the column widths and the row heights. */
  method CalculateGridTracks(columns: seq<GridTrack>, rows: seq<GridTrack>, availWidth: real,
                             availHeight: real, gap: real) returns (widths: seq<real>, heights: seq<real>)
    ensures widths == TrackSizesAsWritten(columns, availWidth, gap) && heights == TrackSizesAsWritten(rows, availHeight, gap)
  {
    widths := SizeTracks(columns, availWidth, gap);
    heights := SizeTracks(rows, availHeight, gap);
  }

  // ---------------------------------------------------------------------
  // `layout_grid_children`
  // ---------------------------------------------------------------------

  /** Where track `i` starts: the sizes of the tracks before it plus one gap after each of them. */
  function TrackStart(sizes: seq<real>, gap: real, i: nat): real
    requires i <= |sizes|
  {
    Sum(sizes, i) + gap * i as real
  }

  /** The tracks plus the gaps between them (`total_width`, `total_height`). */
  function Extent(sizes: seq<real>, gap: real): real {
    Sum(sizes, |sizes|) + gap * (|sizes| - 1) as real
  }

  /** The row of cell `k` in a grid `cols` wide, counting cells in row-major order. */
  function RowOf(k: nat, cols: nat): nat
    requires cols > 0
  {
    if k < cols then 0 else RowOf(k - cols, cols) + 1
  }

  /** The column of cell `k` in a grid `cols` wide. */
  function ColOf(k: nat, cols: nat): nat
    requires cols > 0
  {
    if k < cols then k else ColOf(k - cols, cols)
  }

  /** A grid with a cell `k` has columns. */
  lemma GridHasColumns(k: nat, cols: nat, rows: nat)
    requires k < rows * cols
    ensures cols > 0 && rows > 0
  {
  }

  /** Cell `k` of a grid with `rows` rows is in one of them, and in one of its columns. */
  lemma {:induction false} CellInGrid(k: nat, cols: nat, rows: nat)
    requires k < rows * cols
    ensures cols > 0 && RowOf(k, cols) < rows && ColOf(k, cols) < cols
  {
    GridHasColumns(k, cols, rows);
    if k >= cols {
      assert k - cols < (rows - 1) * cols;
      CellInGrid(k - cols, cols, rows - 1);
    }
  }

  /** Child `k` moved into cell `k` of the grid: its column's x and width, its row's y and height. */
  function CellBox(c: LayoutBox, cols: seq<real>, rows: seq<real>, gap: real, k: nat): LayoutBox
    requires k < |rows| * |cols|
  {
    CellInGrid(k, |cols|, |rows|);
    var row := RowOf(k, |cols|);
    var col := ColOf(k, |cols|);
    c.(content := Dimensions(TrackStart(cols, gap, col), TrackStart(rows, gap, row), cols[col], rows[row]))
  }

  /** The children placed into the cells in row-major order; children beyond the last cell keep their place. */
  function GridPlace(cs: seq<LayoutBox>, cols: seq<real>, rows: seq<real>, gap: real): (r: seq<LayoutBox>)
    ensures |r| == |cs|
  {
    seq(|cs|, k requires 0 <= k < |cs| => if k < |rows| * |cols| then CellBox(cs[k], cols, rows, gap, k) else cs[k])
  }

  /** `layout_grid_children` on children already laid out. */
  function GridChildren(parent: LayoutBox, cs: seq<LayoutBox>): LayoutBox {
    var s := parent.styles;
    var gap := s.gridGap.GetOr(0.0);
    GridWithTracks(parent, cs, TrackSizesAsWritten(s.gridTemplateColumns.GetOr([Fractional(1.0)]), parent.content.width, gap),
                   TrackSizesAsWritten(s.gridTemplateRows.GetOr([Fractional(1.0)]), parent.content.height, gap), gap)
  }

  /** The grid container once its tracks are sized: children in cells, grown to the tracks' extent. */
  function GridWithTracks(parent: LayoutBox, cs: seq<LayoutBox>, widths: seq<real>, heights: seq<real>, gap: real): LayoutBox {
    var content :=
      if cs == [] then parent.content
      else parent.content.(width := Max(Extent(widths, gap), parent.content.width),
                           height := Max(Extent(heights, gap), parent.content.height));
    parent.(children := GridPlace(cs, widths, heights, gap), content := content)
  }

  predicate NonNegativeSizes(sizes: seq<real>) {
    forall i :: 0 <= i < |sizes| ==> sizes[i] >= 0.0
  }

  /** The next track starts one gap after this one ends. */
  lemma TrackStartStep(sizes: seq<real>, gap: real, i: nat)
    requires i < |sizes|
    ensures TrackStart(sizes, gap, i + 1) == TrackStart(sizes, gap, i) + sizes[i] + gap
  {
    assert gap * (i + 1) as real == gap * i as real + gap;
  }

  /** With non-negative sizes and gap, a track ends no later than any later track starts. */
  lemma {:induction false} TracksApart(sizes: seq<real>, gap: real, i: nat, j: nat)
    requires NonNegativeSizes(sizes) && gap >= 0.0 && i < j <= |sizes|
    ensures TrackStart(sizes, gap, i) + sizes[i] <= TrackStart(sizes, gap, j)
  {
    TrackStartStep(sizes, gap, j - 1);
    if i < j - 1 {
      TracksApart(sizes, gap, i, j - 1);
    }
  }

  /** With non-negative sizes and gap, every track ends within the extent. */
  lemma TrackWithinExtent(sizes: seq<real>, gap: real, i: nat)
    requires NonNegativeSizes(sizes) && gap >= 0.0 && i < |sizes|
    ensures TrackStart(sizes, gap, i) + sizes[i] <= Extent(sizes, gap)
  {
    var n := |sizes|;
    TrackStartStep(sizes, gap, n - 1);
    if i < n - 1 {
      TracksApart(sizes, gap, i, n - 1);
    }
  }

  /** Cells of a row-major grid: a later cell is in a later column of the same row, or in a later row. */
  lemma {:induction false} CellOrder(k1: nat, k2: nat, cols: nat)
    requires k1 < k2 && cols > 0
    ensures RowOf(k1, cols) < RowOf(k2, cols) || (RowOf(k1, cols) == RowOf(k2, cols) && ColOf(k1, cols) < ColOf(k2, cols))
  {
    if k1 >= cols {
      CellOrder(k1 - cols, k2 - cols, cols);
    }
  }

  /**
   * With non-negative track sizes and gap, grid cells do not overlap: of
   * two placed children, the later one is to the right in the same row
   * or below in a later row.
   */
  lemma GridCellsApart(cs: seq<LayoutBox>, cols: seq<real>, rows: seq<real>, gap: real, k1: nat, k2: nat)
    requires NonNegativeSizes(cols) && NonNegativeSizes(rows) && gap >= 0.0
    requires k1 < k2 < |cs| && k2 < |rows| * |cols|
    ensures |cols| > 0
    ensures var r := GridPlace(cs, cols, rows, gap);
      (RowOf(k1, |cols|) == RowOf(k2, |cols|) && r[k1].content.Right() <= r[k2].content.x)
      || (RowOf(k1, |cols|) < RowOf(k2, |cols|) && r[k1].content.Bottom() <= r[k2].content.y)
  {
    CellInGrid(k1, |cols|, |rows|);
    CellInGrid(k2, |cols|, |rows|);
    assert k1 < |rows| * |cols|;
    CellOrder(k1, k2, |cols|);
    if RowOf(k1, |cols|) == RowOf(k2, |cols|) {
      TracksApart(cols, gap, ColOf(k1, |cols|), ColOf(k2, |cols|));
    } else {
      TracksApart(rows, gap, RowOf(k1, |cols|), RowOf(k2, |cols|));
    }
  }

  /**
   * A grid container with children grows, never shrinks, to its tracks'
   * extent, and with non-negative tracks and gap every child placed in a
   * cell lies inside it.
   */
  lemma GridChildrenContains(parent: LayoutBox, cs: seq<LayoutBox>, k: nat)
    requires k < |cs|
    ensures var r := GridChildren(parent, cs);
      |r.children| == |cs| && r.content.width >= parent.content.width && r.content.height >= parent.content.height
    ensures var r := GridChildren(parent, cs); var s := parent.styles; var gap := s.gridGap.GetOr(0.0);
      var widths := TrackSizesAsWritten(s.gridTemplateColumns.GetOr([Fractional(1.0)]), parent.content.width, gap);
      var heights := TrackSizesAsWritten(s.gridTemplateRows.GetOr([Fractional(1.0)]), parent.content.height, gap);
      NonNegativeSizes(widths) && NonNegativeSizes(heights) && gap >= 0.0 && k < |heights| * |widths| ==>
        r.children[k].content.Right() <= r.content.width && r.children[k].content.Bottom() <= r.content.height
  {
    var s := parent.styles;
    var gap := s.gridGap.GetOr(0.0);
    var widths := TrackSizesAsWritten(s.gridTemplateColumns.GetOr([Fractional(1.0)]), parent.content.width, gap);
    var heights := TrackSizesAsWritten(s.gridTemplateRows.GetOr([Fractional(1.0)]), parent.content.height, gap);
    if NonNegativeSizes(widths) && NonNegativeSizes(heights) && gap >= 0.0 && k < |heights| * |widths| {
      CellInGrid(k, |widths|, |heights|);
      TrackWithinExtent(widths, gap, ColOf(k, |widths|));
      TrackWithinExtent(heights, gap, RowOf(k, |widths|));
    }
  }

  /** `iter().sum()` over the first `k` sizes. */
  method SumOf(xs: seq<real>, k: nat) returns (t: real)
    requires k <= |xs|
    ensures t == Sum(xs, k)
  {
    t := 0.0;
    for i := 0 to k
      invariant t == Sum(xs, i)
    {
      t := t + xs[i];
    }
  }

  function MinNat(x: nat, y: nat): nat {
    if x < y then x else y
  }

  /** Cell `row * cols + col` is in row `row` and column `col`. */
  lemma {:induction false} CellOfRowColumn(row: nat, col: nat, cols: nat, rows: nat)
    requires row < rows && col < cols
    ensures var k := row * cols + col; k < rows * cols && RowOf(k, cols) == row && ColOf(k, cols) == col
  {
    var k := row * cols + col;
    assert k < (row + 1) * cols <= rows * cols;
    if row > 0 {
      assert k - cols == (row - 1) * cols + col;
      CellOfRowColumn(row - 1, col, cols, rows);
    }
  }

  /** The first `i` children are placed as in `target`, the rest are as they came. */
  ghost predicate PlacedUpTo(children: seq<LayoutBox>, cs: seq<LayoutBox>, target: seq<LayoutBox>, i: nat) {
    |children| == |cs| == |target| && i <= |cs|
    && (forall k :: 0 <= k < i ==> children[k] == target[k])
    && (forall k :: i <= k < |cs| ==> children[k] == cs[k])
  }

  lemma PlacedOneMore(children: seq<LayoutBox>, cs: seq<LayoutBox>, target: seq<LayoutBox>, i: nat)
    requires PlacedUpTo(children, cs, target, i) && i < |cs|
    ensures PlacedUpTo(children[i := target[i]], cs, target, i + 1)
  {
  }

  /** One row of the placement loops of `layout_grid_children`. */
  method PlaceRow(children: seq<LayoutBox>, childIndex: nat, row: nat, ghost cs: seq<LayoutBox>,
                  widths: seq<real>, heights: seq<real>, gap: real) returns (children': seq<LayoutBox>, childIndex': nat)
    requires row < |heights| && childIndex == MinNat(row * |widths|, |cs|)
    requires PlacedUpTo(children, cs, GridPlace(cs, widths, heights, gap), childIndex)
    ensures childIndex' == MinNat((row + 1) * |widths|, |cs|)
    ensures PlacedUpTo(children', cs, GridPlace(cs, widths, heights, gap), childIndex')
  {
    ghost var target := GridPlace(cs, widths, heights, gap);
    children', childIndex' := children, childIndex;
    for col := 0 to |widths|
      invariant childIndex' == MinNat(row * |widths| + col, |cs|)
      invariant PlacedUpTo(children', cs, target, childIndex')
    {
      if childIndex' < |children'| {
        var x := SumOf(widths, col);
        var y := SumOf(heights, row);
        CellOfRowColumn(row, col, |widths|, |heights|);
        var placed := children'[childIndex'].(content :=
          Dimensions(x + gap * col as real, y + gap * row as real, widths[col], heights[row]));
        assert placed == target[childIndex'];
        PlacedOneMore(children', cs, target, childIndex');
        children' := children'[childIndex' := placed];
        childIndex' := childIndex' + 1;
      }
    }
    assert row * |widths| + |widths| == (row + 1) * |widths|;
  }

  /** The placement loops of `layout_grid_children`: rows, then columns, one child per cell. */
  method PlaceInGrid(cs: seq<LayoutBox>, widths: seq<real>, heights: seq<real>, gap: real) returns (children: seq<LayoutBox>)
    ensures children == GridPlace(cs, widths, heights, gap)
  {
    children := cs;
    var childIndex := 0;
    ghost var target := GridPlace(cs, widths, heights, gap);
    for row := 0 to |heights|
      invariant childIndex == MinNat(row * |widths|, |cs|)
      invariant PlacedUpTo(children, cs, target, childIndex)
    {
      children, childIndex := PlaceRow(children, childIndex, row, cs, widths, heights, gap);
    }
    assert children == target;
  }

  /** The placement and the container update of `layout_grid_children`, once the tracks are sized. */
  method FillGrid(parent: LayoutBox, cs: seq<LayoutBox>, widths: seq<real>, heights: seq<real>, gap: real)
    returns (r: LayoutBox)
    ensures r == GridWithTracks(parent, cs, widths, heights, gap)
  {
    var children := PlaceInGrid(cs, widths, heights, gap);
    var content := parent.content;
    if children != [] {
      var totalWidth := SumOf(widths, |widths|);
      var totalHeight := SumOf(heights, |heights|);
      content := content.(width := Max(totalWidth + gap * (|widths| - 1) as real, content.width),
                          height := Max(totalHeight + gap * (|heights| - 1) as real, content.height));
    }
    r := parent.(children := children, content := content);
  }

  /** `layout_grid_children` on children already laid out, with the track sizing as written. */
  method LayoutGridChildren(parent: LayoutBox, cs: seq<LayoutBox>) returns (r: LayoutBox)
    ensures r == GridChildren(parent, cs)
  {
    var s := parent.styles;
    var gap := s.gridGap.GetOr(0.0);
    var widths, heights := CalculateGridTracks(s.gridTemplateColumns.GetOr([Fractional(1.0)]),
                                               s.gridTemplateRows.GetOr([Fractional(1.0)]),
                                               parent.content.width, parent.content.height, gap);
    r := FillGrid(parent, cs, widths, heights, gap);
  }

  // ---------------------------------------------------------------------
  // `layout_element`, `layout_children` and `layout_document`
  // ---------------------------------------------------------------------

  /** The containing block `layout_document` starts from: an 800 by 600 viewport. */
  const Viewport := Dimensions(0.0, 0.0, 800.0, 600.0)

  /** `layout_children`: flex and grid containers lay out their children their own way, every other box stacks them. */
  function LayoutChildren(b: LayoutBox, kids: seq<LayoutBox>): LayoutBox {
    match b.styles.display
    case Flex => FlexChildren(b, kids)
    case Grid => GridChildren(b, kids)
    case _ => BlockChildren(b, kids)
  }

  /** The dispatch of `layout_children`. */
  method LayoutChildrenOf(b: LayoutBox, kids: seq<LayoutBox>) returns (r: LayoutBox)
    ensures r == LayoutChildren(b, kids)
  {
    match b.styles.display {
      case Flex => r := LayoutFlexChildren(b, kids);
      case Grid => r := LayoutGridChildren(b, kids);
      case _ => r := LayoutBlockChildren(b, kids);
    }
  }

  /** The box `layout_element` starts from before laying out the children. */
  function StartBox(id: nat, styles: Styles, cb: Dimensions): LayoutBox {
    LayoutBox(id, styles, Dimensions(0.0, 0.0, styles.width.GetOr(cb.width), styles.height.GetOr(0.0)),
              Origin, Origin, Origin, [])
  }

  /**
   * `layout_element`: a `display: none` element yields a zero box; any
   * other gets its styled width (or the containing block's) and height
   * (or 0), lays its children out in the same containing block, then
   * adds padding, border and margin.
   */
  function LayoutOf(sheet: CS.Stylesheet, a: Dom.Arena, bound: nat, id: nat, cb: Dimensions): LayoutBox
    requires Dom.WellFormed(a, bound) && id in a
    decreases bound - id, 1
  {
    var styles := StylesFor(sheet, a, bound, id);
    if styles.display == DisplayNone then HiddenBox(id, styles)
    else BoxDimensions(LayoutChildren(StartBox(id, styles, cb), ChildLayouts(sheet, a, bound, id, cb)))
  }

  /** The layout boxes of a node's children, in document order. */
  function ChildLayouts(sheet: CS.Stylesheet, a: Dom.Arena, bound: nat, id: nat, cb: Dimensions): (r: seq<LayoutBox>)
    requires Dom.WellFormed(a, bound) && id in a
    ensures |r| == |a[id].children|
    decreases bound - id, 0
  {
    var cs := a[id].children;
    seq(|cs|, i requires 0 <= i < |cs| => LayoutOf(sheet, a, bound, cs[i], cb))
  }

  /**
   * `layout_document`: the root laid out in the 800 by 600 viewport, so a
   * displayed root without a styled width is 800 wide, and every child is
   * laid out in the same viewport.
   */
  function LayoutDocument(sheet: CS.Stylesheet, a: Dom.Arena, bound: nat, root: nat): (r: LayoutBox)
    requires Dom.WellFormed(a, bound) && root in a
    ensures r.node == root && r.styles == StylesFor(sheet, a, bound, root)
    ensures var styles := StylesFor(sheet, a, bound, root);
      styles.display != DisplayNone ==>
        r.content.width == styles.width.GetOr(800.0)
        && r.children == StackAsWritten(ChildLayouts(sheet, a, bound, root, Viewport))
  {
    LayoutOfShape(sheet, a, bound, root, Viewport);
    LayoutOf(sheet, a, bound, root, Viewport)
  }

  /**
   * Every box is its node's, with the node's computed styles. A
   * `display: none` element has a zero box and no children. Any other
   * element is a block (no declaration yields flex or grid) that stacks
   * one box per child, each one the written advance (its margin, border,
   * padding and content heights added) below the previous, keeps its
   * styled or inherited width, is at least as high as that stack, and has
   * its margin box around its content.
   */
  lemma LayoutOfShape(sheet: CS.Stylesheet, a: Dom.Arena, bound: nat, id: nat, cb: Dimensions)
    requires Dom.WellFormed(a, bound) && id in a
    ensures var r := LayoutOf(sheet, a, bound, id, cb); var styles := StylesFor(sheet, a, bound, id);
      r.node == id && r.styles == styles
      && (styles.display == DisplayNone ==>
            r.children == [] && r.content == r.padding == r.border == r.margin == Origin)
      && (styles.display != DisplayNone ==>
            var kids := ChildLayouts(sheet, a, bound, id, cb);
            r.children == StackAsWritten(kids)
            && r.content.width == styles.width.GetOr(cb.width)
            && (kids != [] ==> r.content.height >= OffsetAsWritten(kids, |kids|))
            && r.margin.x == r.content.x && r.margin.y == r.content.y)
  {
    var styles := StylesFor(sheet, a, bound, id);
    ComputedDisplayNeverFlexOrGrid(sheet, a, bound, id);
    if styles.display != DisplayNone {
      var kids := ChildLayouts(sheet, a, bound, id, cb);
      var start := StartBox(id, styles, cb);
      BlockChildrenContains(start, kids);
      BoxesNest(BlockChildren(start, kids));
    }
  }

  /** The layout loop of `layout_element`, with the children laid out by recursion. */
  method LayoutElement(sheet: CS.Stylesheet, a: Dom.Arena, bound: nat, id: nat, cb: Dimensions) returns (b: LayoutBox)
    requires Dom.WellFormed(a, bound) && id in a
    ensures b == LayoutOf(sheet, a, bound, id, cb)
    decreases bound - id
  {
    var styles := ComputeStyles(sheet, a, bound, id);
    if styles.display == DisplayNone {
      return HiddenBox(id, styles);
    }
    var start := StartBox(id, styles, cb);
    var cs := a[id].children;
    var kids: seq<LayoutBox> := [];
    for i := 0 to |cs|
      invariant kids == ChildLayouts(sheet, a, bound, id, cb)[..i]
    {
      var kid := LayoutElement(sheet, a, bound, cs[i], cb);
      kids := kids + [kid];
    }
    assert kids == ChildLayouts(sheet, a, bound, id, cb);
    var laid := LayoutChildrenOf(start, kids);
    b := BoxDimensions(laid);
    assert LayoutOf(sheet, a, bound, id, cb) == BoxDimensions(LayoutChildren(start, kids));
  }
}
