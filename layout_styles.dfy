/**
 * The style side of the layout crate: the box-model value types, the
 * default styles of `StyleMatcher`, its unit conversion and declaration
 * handling, and `compute_styles`, which applies every matching rule in
 * style-sheet order (no specificity sort) on top of the defaults and then
 * inherits the text properties from the parent. Lengths are `real`; the
 * source's `f32` rounding is not modelled.
 */
module LayoutStyles {
  import opened Wrappers
  import opened CssSelectors
  import CS = CssStylesheet
  import CssCascade
  import Dom

  /** `DisplayType`; `DisplayNone` is the source's `None`. */
  datatype DisplayType = Block | Inline | InlineBlock | Flex | Grid | DisplayNone

  datatype FlexDirection = Row | RowReverse | Column | ColumnReverse
  datatype FlexWrap = Nowrap | Wrap | WrapReverse
  datatype JustifyContent = JustifyStart | JustifyEnd | JustifyCenter | SpaceBetween | SpaceAround | SpaceEvenly
  datatype AlignItems = AlignStretch | AlignStart | AlignEnd | AlignCenter | AlignBaseline

  /** A grid track: a fixed size, a share of the free space, or one of three keyword sizes. */
  datatype GridTrack = Fixed(size: real) | Fractional(fr: real) | Auto | MinContent | MaxContent

  /** The four sides of a box. */
  datatype BoxSides = BoxSides(top: real, right: real, bottom: real, left: real)

  /** `BoxSides::new`: one value for every side. */
  function Uniform(all: real): BoxSides {
    BoxSides(all, all, all, all)
  }

  /** `BoxSides::new_vertical_horizontal`: top and bottom share one value, left and right the other. */
  function VerticalHorizontal(vertical: real, horizontal: real): BoxSides {
    BoxSides(vertical, horizontal, vertical, horizontal)
  }

  /**
   * The two constructors agree exactly when the vertical and horizontal
   * values agree, and each gives opposite sides equal values.
   */
  lemma BoxSidesConstructors(vertical: real, horizontal: real)
    ensures VerticalHorizontal(vertical, horizontal) == Uniform(vertical) <==> vertical == horizontal
    ensures var b := VerticalHorizontal(vertical, horizontal); b.top == b.bottom && b.left == b.right
    ensures var u := Uniform(vertical); u.top == u.right == u.bottom == u.left == vertical
  {
  }

  /** A rectangle: its position and size. */
  datatype Dimensions = Dimensions(x: real, y: real, width: real, height: real) {
    /** The right edge. */
    function Right(): real {
      x + width
    }

    /** The bottom edge. */
    function Bottom(): real {
      y + height
    }
  }

  /** The rectangle of the unit test: at (10, 20), 100 wide and 50 high. */
  lemma DimensionsExample()
    ensures Dimensions(10.0, 20.0, 100.0, 50.0).Right() == 110.0
    ensures Dimensions(10.0, 20.0, 100.0, 50.0).Bottom() == 70.0
  {
  }

  /**
   * The layout crate's `ComputedStyles`, without the animation and
   * transition fields and the per-item flex and grid placement fields,
   * which no operation modelled here reads.
   */
  datatype Styles = Styles(
    display: DisplayType,
    width: Option<real>,
    height: Option<real>,
    margin: BoxSides,
    border: BoxSides,
    padding: BoxSides,
    backgroundColor: Option<string>,
    color: Option<string>,
    fontSize: Option<real>,
    fontFamily: Option<string>,
    fontWeight: Option<string>,
    textAlign: Option<string>,
    flexDirection: Option<FlexDirection>,
    flexWrap: Option<FlexWrap>,
    justifyContent: Option<JustifyContent>,
    alignItems: Option<AlignItems>,
    gridTemplateColumns: Option<seq<GridTrack>>,
    gridTemplateRows: Option<seq<GridTrack>>,
    gridGap: Option<real>)

  // ---------------------------------------------------------------------
  // `get_default_styles`
  // ---------------------------------------------------------------------

  /** The tags `get_default_styles` lays out inline. */
  predicate InlineTag(tag: string) {
    tag == "span" || tag == "a" || tag == "em" || tag == "strong" || tag == "code"
  }

  /** The default display of a node: inline for text and the inline tags, block for everything else. */
  function DefaultDisplay(k: Dom.NodeKind): DisplayType {
    match k
    case Element(tag, _) =>
      if tag in ["h1", "h2", "h3", "h4", "h5", "h6", "p", "div", "ul", "ol", "li", "body", "html"] then Block
      else if InlineTag(tag) then Inline
      else Block
    case Text(_) => Inline
    case DocumentNode => Block
  }

  /** Text runs and the five inline tags are inline; every other element and the document are blocks. */
  lemma DefaultDisplayTable(k: Dom.NodeKind)
    ensures DefaultDisplay(k) == Inline <==> k.Text? || (k.Element? && InlineTag(k.tagName))
    ensures DefaultDisplay(k) != Inline ==> DefaultDisplay(k) == Block
  {
  }

  /** `get_default_styles`: no sizes, zero sides, black 16px serif left-aligned normal text. */
  function DefaultStyles(k: Dom.NodeKind): Styles {
    Styles(DefaultDisplay(k), None, None, Uniform(0.0), Uniform(0.0), Uniform(0.0), None,
           Some("black"), Some(16.0), Some("serif"), Some("normal"), Some("left"),
           None, None, None, None, None, None, None)
  }

  // ---------------------------------------------------------------------
  // `convert_length`, `parse_box_sides`, `apply_declaration`
  // ---------------------------------------------------------------------

  /** `convert_length`: pixels per unit; `em` and `rem` assume a 16px font; unknown units count as pixels. */
  function ConvertLength(value: real, unit: string): real {
    if unit == "px" then value
    else if unit == "em" then value * 16.0
    else if unit == "rem" then value * 16.0
    else if unit == "pt" then value * 1.33
    else if unit == "pc" then value * 16.0
    else if unit == "in" then value * 96.0
    else if unit == "cm" then value * 37.8
    else if unit == "mm" then value * 3.78
    else value
  }

  /**
   * Against the absolute units of section 6.2 of CSS Values and Units
   * Level 3 (1in = 96px = 2.54cm = 72pt = 6pc, 1cm = 10mm): inches,
   * picas and pixels are exact; points, centimetres and millimetres use
   * rounded factors, off by less than a quarter of a percent.
   */
  lemma AbsoluteUnitsAgainstStandard(v: real)
    requires v >= 0.0
    ensures ConvertLength(v, "px") == v
    ensures ConvertLength(v, "in") == v * 96.0
    ensures ConvertLength(v, "pc") == v * 96.0 / 6.0
    ensures v * 96.0 / 72.0 * 0.9975 <= ConvertLength(v, "pt") <= v * 96.0 / 72.0
    ensures v * 96.0 / 2.54 <= ConvertLength(v, "cm") <= v * 96.0 / 2.54 * 1.0002
    ensures v * 96.0 / 25.4 <= ConvertLength(v, "mm") <= v * 96.0 / 25.4 * 1.0002
    ensures ConvertLength(v, "mm") * 10.0 == ConvertLength(v, "cm")
  {
  }

  /** Conversion scales: the factor does not depend on the value, and an unknown unit is read as pixels. */
  lemma ConvertLengthIsLinear(v: real, w: real, unit: string)
    ensures ConvertLength(v + w, unit) == ConvertLength(v, unit) + ConvertLength(w, unit)
    ensures ConvertLength(v, unit) == v * ConvertLength(1.0, unit)
    ensures unit !in ["px", "em", "rem", "pt", "pc", "in", "cm", "mm"] ==> ConvertLength(v, unit) == v
  {
  }

  /** `parse_box_sides`: a dimension on every side, anything else zero. */
  function ParseBoxSides(value: CS.CssValue): (b: BoxSides)
    ensures b == Uniform(b.top)
    ensures b.top == if value.Dimension? then ConvertLength(value.number, value.unit) else 0.0
  {
    match value
    case Dimension(n, unit) => Uniform(ConvertLength(n, unit))
    case _ => Uniform(0.0)
  }

  /** The display a declaration sets: only `block`, `inline`, `inline-block` and `none` are recognised. */
  function DisplayOf(d: CS.Declaration): Option<DisplayType> {
    if d.property == "display" && d.value.Keyword? then
      var w := d.value.word;
      if w == "block" then Some(Block)
      else if w == "inline" then Some(Inline)
      else if w == "inline-block" then Some(InlineBlock)
      else if w == "none" then Some(DisplayNone)
      else None
    else None
  }

  /** `apply_declaration` of the layout crate. */
  function ApplyDeclaration(s: Styles, d: CS.Declaration): Styles {
    var v := d.value;
    match d.property
    case "display" => if DisplayOf(d).Some? then s.(display := DisplayOf(d).value) else s
    case "width" => if v.Dimension? then s.(width := Some(ConvertLength(v.number, v.unit))) else s
    case "height" => if v.Dimension? then s.(height := Some(ConvertLength(v.number, v.unit))) else s
    case "margin" => s.(margin := ParseBoxSides(v))
    case "padding" => s.(padding := ParseBoxSides(v))
    case "border" => s.(border := ParseBoxSides(v))
    case "background-color" => if v.Color? then s.(backgroundColor := Some(v.color)) else s
    case "background" => if v.Color? then s.(backgroundColor := Some(v.color)) else s
    case "color" =>
      if v.Color? then s.(color := Some(v.color))
      else if v.Keyword? then s.(color := Some(v.word))
      else s
    case "font-size" => if v.Dimension? then s.(fontSize := Some(ConvertLength(v.number, v.unit))) else s
    case "font-family" => if v.Quoted? then s.(fontFamily := Some(v.text)) else s
    case "font-weight" => if v.Keyword? then s.(fontWeight := Some(v.word)) else s
    case "text-align" => if v.Keyword? then s.(textAlign := Some(v.word)) else s
    case _ => s
  }

  /**
   * A declaration changes the display only through one of the four
   * recognised keywords, and then sets exactly that display; a box side
   * property always resets its four sides.
   */
  lemma DisplayDeclarations(s: Styles, d: CS.Declaration)
    ensures ApplyDeclaration(s, d).display == if DisplayOf(d).Some? then DisplayOf(d).value else s.display
    ensures DisplayOf(d).Some? ==> DisplayOf(d).value in {Block, Inline, InlineBlock, DisplayNone}
    ensures d.property == "margin" ==> ApplyDeclaration(s, d).margin == ParseBoxSides(d.value)
  {
  }

  /** Declarations applied one after the other. */
  function ApplyAll(s: Styles, ds: seq<CS.Declaration>): Styles {
    if ds == [] then s else ApplyDeclaration(ApplyAll(s, ds[..|ds| - 1]), ds[|ds| - 1])
  }

  lemma {:induction false} ApplyAllAppend(s: Styles, xs: seq<CS.Declaration>, ys: seq<CS.Declaration>)
    ensures ApplyAll(s, xs + ys) == ApplyAll(ApplyAll(s, xs), ys)
    decreases |ys|
  {
    if ys == [] {
      assert xs + ys == xs;
    } else {
      var n := |ys| - 1;
      assert (xs + ys)[..|xs + ys| - 1] == xs + ys[..n];
      ApplyAllAppend(s, xs, ys[..n]);
    }
  }

  /** The last recognised display keyword decides the display. */
  lemma {:induction false} LastDisplayWins(s: Styles, ds: seq<CS.Declaration>, i: nat)
    requires i < |ds| && DisplayOf(ds[i]).Some?
    requires forall j :: i < j < |ds| ==> DisplayOf(ds[j]).None?
    ensures ApplyAll(s, ds).display == DisplayOf(ds[i]).value
  {
    var n := |ds| - 1;
    DisplayDeclarations(ApplyAll(s, ds[..n]), ds[n]);
    if i < n {
      assert ds[..n][i] == ds[i];
      assert forall j :: i < j < n ==> ds[..n][j] == ds[j];
      LastDisplayWins(s, ds[..n], i);
    }
  }

  /** Without a recognised display keyword the display is kept. */
  lemma {:induction false} UnrecognisedDisplayKept(s: Styles, ds: seq<CS.Declaration>)
    requires forall j :: 0 <= j < |ds| ==> DisplayOf(ds[j]).None?
    ensures ApplyAll(s, ds).display == s.display
  {
    if ds != [] {
      var n := |ds| - 1;
      assert forall j :: 0 <= j < n ==> ds[..n][j] == ds[j];
      UnrecognisedDisplayKept(s, ds[..n]);
      DisplayDeclarations(ApplyAll(s, ds[..n]), ds[n]);
    }
  }

  // ---------------------------------------------------------------------
  // `compute_styles`
  // ---------------------------------------------------------------------

  /**
   * The declarations `compute_styles` applies to a node: those of every
   * rule, once per matching selector, in style-sheet order.
   */
  function MatchedDeclarations(sheet: CS.Stylesheet, a: Dom.Arena, bound: nat, id: nat): seq<CS.Declaration>
    requires Dom.WellFormed(a, bound) && id in a
  {
    CssCascade.DeclarationsOf(CssCascade.SheetEntries(a, bound, id, sheet.rules, |sheet.rules|))
  }

  /** The node's styles before inheritance. */
  function OwnStyles(sheet: CS.Stylesheet, a: Dom.Arena, bound: nat, id: nat): Styles
    requires Dom.WellFormed(a, bound) && id in a
  {
    ApplyAll(DefaultStyles(a[id].kind), MatchedDeclarations(sheet, a, bound, id))
  }

  /** `apply_inherited_styles`: the five text properties the node leaves unset come from the parent. */
  function Inherit(own: Styles, parent: Styles): Styles {
    own.(color := if own.color.None? then parent.color else own.color,
         fontSize := if own.fontSize.None? then parent.fontSize else own.fontSize,
         fontFamily := if own.fontFamily.None? then parent.fontFamily else own.fontFamily,
         fontWeight := if own.fontWeight.None? then parent.fontWeight else own.fontWeight,
         textAlign := if own.textAlign.None? then parent.textAlign else own.textAlign)
  }

  /** `compute_styles`: the own styles, then inheritance from the parent's computed styles. */
  function StylesFor(sheet: CS.Stylesheet, a: Dom.Arena, bound: nat, id: nat): Styles
    requires Dom.WellFormed(a, bound) && id in a
    decreases id
  {
    var own := OwnStyles(sheet, a, bound, id);
    match a[id].parent
    case None => own
    case Some(p) => Inherit(own, StylesFor(sheet, a, bound, p))
  }

  /** All five inherited text properties are set. */
  predicate TextPropertiesSet(s: Styles) {
    s.color.Some? && s.fontSize.Some? && s.fontFamily.Some? && s.fontWeight.Some? && s.textAlign.Some?
  }

  lemma {:induction false} ApplyAllKeepsTextPropertiesSet(s: Styles, ds: seq<CS.Declaration>)
    requires TextPropertiesSet(s)
    ensures TextPropertiesSet(ApplyAll(s, ds))
  {
    if ds != [] {
      ApplyAllKeepsTextPropertiesSet(s, ds[..|ds| - 1]);
    }
  }

  /**
   * The defaults already set every inherited property and no declaration
   * unsets one, so inheritance never changes anything: a node's styles are
   * its own styles, whatever its ancestors are.
   */
  lemma InheritanceChangesNothing(sheet: CS.Stylesheet, a: Dom.Arena, bound: nat, id: nat)
    requires Dom.WellFormed(a, bound) && id in a
    ensures StylesFor(sheet, a, bound, id) == OwnStyles(sheet, a, bound, id)
    ensures TextPropertiesSet(StylesFor(sheet, a, bound, id))
  {
    ApplyAllKeepsTextPropertiesSet(DefaultStyles(a[id].kind), MatchedDeclarations(sheet, a, bound, id));
  }

  lemma {:induction false} ApplyAllNeverFlexOrGrid(s: Styles, ds: seq<CS.Declaration>)
    requires s.display != Flex && s.display != Grid
    ensures ApplyAll(s, ds).display != Flex && ApplyAll(s, ds).display != Grid
  {
    if ds != [] {
      ApplyAllNeverFlexOrGrid(s, ds[..|ds| - 1]);
      DisplayDeclarations(ApplyAll(s, ds[..|ds| - 1]), ds[|ds| - 1]);
    }
  }

  /** `compute_styles` never yields a flex or grid display, so `layout_element` always lays out children as blocks. */
  lemma ComputedDisplayNeverFlexOrGrid(sheet: CS.Stylesheet, a: Dom.Arena, bound: nat, id: nat)
    requires Dom.WellFormed(a, bound) && id in a
    ensures StylesFor(sheet, a, bound, id).display in {Block, Inline, InlineBlock, DisplayNone}
  {
    InheritanceChangesNothing(sheet, a, bound, id);
    ApplyAllNeverFlexOrGrid(DefaultStyles(a[id].kind), MatchedDeclarations(sheet, a, bound, id));
  }

  /** `apply_rule`: the rule's declarations in order. */
  method ApplyRule(styles: Styles, r: CS.Rule) returns (s: Styles)
    ensures s == ApplyAll(styles, r.declarations)
  {
    s := styles;
    for i := 0 to |r.declarations|
      invariant s == ApplyAll(styles, r.declarations[..i])
    {
      assert r.declarations[..i + 1][..i] == r.declarations[..i];
      s := ApplyDeclaration(s, r.declarations[i]);
    }
    assert r.declarations[..|r.declarations|] == r.declarations;
  }

  /** One matching selector: the rule is applied once more. */
  lemma AppliedOnceMore(base: Styles, entries: seq<CS.Rule>, r: CS.Rule)
    ensures ApplyAll(ApplyAll(base, CssCascade.DeclarationsOf(entries)), r.declarations)
         == ApplyAll(base, CssCascade.DeclarationsOf(entries + [r]))
  {
    CssCascade.DeclarationsOfAppend(entries, [r]);
    assert [r][..0] == [];
    assert CssCascade.DeclarationsOf([r]) == r.declarations;
    ApplyAllAppend(base, CssCascade.DeclarationsOf(entries), r.declarations);
  }

  /**
   * `compute_styles`: the defaults, every rule applied once per matching
   * selector in style-sheet order, then the parent's computed styles for
   * the unset text properties.
   */
  method ComputeStyles(sheet: CS.Stylesheet, a: Dom.Arena, bound: nat, id: nat) returns (styles: Styles)
    requires Dom.WellFormed(a, bound) && id in a
    ensures styles == StylesFor(sheet, a, bound, id)
    decreases id
  {
    styles := DefaultStyles(a[id].kind);
    ghost var base := styles;
    var rules := sheet.rules;
    ghost var entries: seq<CS.Rule> := [];
    for j := 0 to |rules|
      invariant entries == CssCascade.SheetEntries(a, bound, id, rules, j)
      invariant styles == ApplyAll(base, CssCascade.DeclarationsOf(entries))
    {
      var r := rules[j];
      ghost var before := entries;
      for k := 0 to |r.selectors|
        invariant entries == before + CssCascade.RuleEntries(a, bound, id, r, k)
        invariant styles == ApplyAll(base, CssCascade.DeclarationsOf(entries))
      {
        if Matches(a, bound, r.selectors[k], id) {
          AppliedOnceMore(base, entries, r);
          styles := ApplyRule(styles, r);
          entries := entries + [r];
        }
      }
    }
    if a[id].parent.Some? {
      var parentStyles := ComputeStyles(sheet, a, bound, a[id].parent.value);
      styles := Inherit(styles, parentStyles);
    }
  }
}
