/**
 * The cascade of `CSSCascadeEngine`: which rules match a node, the stable
 * sort by specificity, the ordered overwrite of `ComputedStyles` by the
 * declarations, the fixed fallbacks of `apply_inheritance`, the walk that
 * fills the node-id map, and the engine's style-sheet list and URL cache.
 */
module CssCascade {
  import opened Wrappers
  import opened CssSelectors
  import CS = CssStylesheet
  import Dom

  /** The fields of `ComputedStyles`. */
  datatype Field =
    | Display | Width | Height
    | MarginTop | MarginRight | MarginBottom | MarginLeft
    | PaddingTop | PaddingRight | PaddingBottom | PaddingLeft
    | BorderWidth | BorderStyle | BorderColor
    | Color | BackgroundColor | FontFamily | FontSize | FontWeight
    | TextAlign | LineHeight | Position | Top | Right | Bottom | Left
    | ZIndex | Overflow | Visibility | Opacity

  /**
   * A field's value: a copied string, or a number and its unit (or `%`)
   * before `format!` writes them out.
   */
  datatype StyleValue = Literal(text: string) | Measure(amount: real, unit: string) | Percent(amount: real)

  /** `ComputedStyles`: a field that is not in the map is `None`. */
  type ComputedStyles = map<Field, StyleValue>

  // ---------------------------------------------------------------------
  // `apply_declaration`
  // ---------------------------------------------------------------------

  /** The four sides of a box property set to one value. */
  function Sides(top: Field, right: Field, bottom: Field, left: Field, v: StyleValue): map<Field, StyleValue> {
    map[top := v, right := v, bottom := v, left := v]
  }

  /** `width` and `height` take a length or a percentage. */
  function LengthOrPercent(f: Field, v: CS.CssValue): map<Field, StyleValue> {
    if v.Dimension? then map[f := Measure(v.number, v.unit)]
    else if v.Percentage? then map[f := Percent(v.number)]
    else map[]
  }

  /**
   * The fields one declaration sets and their new values: nothing for an
   * unknown property or a value of the wrong kind. The `important` flag
   * plays no part.
   */
  function Effect(d: CS.Declaration): map<Field, StyleValue> {
    var v := d.value;
    if d.property == "display" then (if v.Keyword? then map[Display := Literal(v.word)] else map[])
    else if d.property == "color" then (if v.Color? then map[Color := Literal(v.color)] else map[])
    else if d.property == "background-color" then (if v.Color? then map[BackgroundColor := Literal(v.color)] else map[])
    else if d.property == "font-family" then (if v.Quoted? then map[FontFamily := Literal(v.text)] else map[])
    else if d.property == "font-size" then
      (if v.Dimension? then map[FontSize := Measure(v.number, v.unit)]
       else if v.Keyword? then map[FontSize := Literal(v.word)]
       else map[])
    else if d.property == "width" then LengthOrPercent(Width, v)
    else if d.property == "height" then LengthOrPercent(Height, v)
    else if d.property == "margin" then
      (if v.Dimension? then Sides(MarginTop, MarginRight, MarginBottom, MarginLeft, Measure(v.number, v.unit)) else map[])
    else if d.property == "padding" then
      (if v.Dimension? then Sides(PaddingTop, PaddingRight, PaddingBottom, PaddingLeft, Measure(v.number, v.unit)) else map[])
    else map[]
  }

  /** The fields a declaration may set, by property name. */
  function FieldsOf(property: string): set<Field> {
    if property == "display" then {Display}
    else if property == "color" then {Color}
    else if property == "background-color" then {BackgroundColor}
    else if property == "font-family" then {FontFamily}
    else if property == "font-size" then {FontSize}
    else if property == "width" then {Width}
    else if property == "height" then {Height}
    else if property == "margin" then {MarginTop, MarginRight, MarginBottom, MarginLeft}
    else if property == "padding" then {PaddingTop, PaddingRight, PaddingBottom, PaddingLeft}
    else {}
  }

  /** A declaration sets only its property's fields, all of them or none; `margin` and `padding` give the four sides one value. */
  lemma EffectWithinProperty(d: CS.Declaration)
    ensures Effect(d).Keys <= FieldsOf(d.property)
    ensures Effect(d) == map[] || Effect(d).Keys == FieldsOf(d.property)
    ensures (d.property == "margin" || d.property == "padding") && Effect(d) != map[] ==>
      d.value.Dimension? && forall f :: f in Effect(d) ==> Effect(d)[f] == Measure(d.value.number, d.value.unit)
  {
  }

  /** Which values each property takes: a colour for `color`, a keyword for `display`, a quoted string for `font-family`. */
  lemma EffectValueKinds(d: CS.Declaration)
    ensures d.property == "display" ==> (Effect(d) != map[] <==> d.value.Keyword?)
    ensures d.property == "color" || d.property == "background-color" ==> (Effect(d) != map[] <==> d.value.Color?)
    ensures d.property == "font-family" ==> (Effect(d) != map[] <==> d.value.Quoted?)
    ensures d.property == "font-size" ==> (Effect(d) != map[] <==> d.value.Dimension? || d.value.Keyword?)
    ensures d.property == "width" || d.property == "height" ==>
      (Effect(d) != map[] <==> d.value.Dimension? || d.value.Percentage?)
  {
    if d.property == "width" || d.property == "height" {
      var f := if d.property == "width" then Width else Height;
      if d.value.Dimension? || d.value.Percentage? {
        assert f in Effect(d);
      }
    } else if d.property == "display" && d.value.Keyword? {
      assert Display in Effect(d);
    } else if (d.property == "color" || d.property == "background-color") && d.value.Color? {
      assert (if d.property == "color" then Color else BackgroundColor) in Effect(d);
    } else if d.property == "font-family" && d.value.Quoted? {
      assert FontFamily in Effect(d);
    } else if d.property == "font-size" && (d.value.Dimension? || d.value.Keyword?) {
      assert FontSize in Effect(d);
    }
  }

  /** `apply_declaration`: the declaration's fields take its values, the other fields are kept. */
  function ApplyDeclaration(styles: ComputedStyles, d: CS.Declaration): ComputedStyles {
    styles + Effect(d)
  }

  /** Field updates applied one after the other, each replacing what it sets. */
  function Overwrite(styles: ComputedStyles, es: seq<map<Field, StyleValue>>): ComputedStyles {
    if es == [] then styles else Overwrite(styles, es[..|es| - 1]) + es[|es| - 1]
  }

  /** The updates of a sequence of declarations, in order. */
  function EffectsOf(ds: seq<CS.Declaration>): (es: seq<map<Field, StyleValue>>)
    ensures |es| == |ds| && forall i :: 0 <= i < |ds| ==> es[i] == Effect(ds[i])
  {
    seq(|ds|, i requires 0 <= i < |ds| => Effect(ds[i]))
  }

  /** The declarations applied one after the other. */
  function ApplyAll(styles: ComputedStyles, ds: seq<CS.Declaration>): ComputedStyles {
    Overwrite(styles, EffectsOf(ds))
  }

  /** The last update that sets a field decides it. */
  lemma {:induction false} LastUpdateWins(styles: ComputedStyles, es: seq<map<Field, StyleValue>>, f: Field, i: nat)
    requires i < |es| && f in es[i]
    requires forall j :: i < j < |es| ==> f !in es[j]
    ensures f in Overwrite(styles, es) && Overwrite(styles, es)[f] == es[i][f]
  {
    var n := |es| - 1;
    if i < n {
      var init := es[..n];
      assert init[i] == es[i];
      assert forall j :: i < j < |init| ==> init[j] == es[j];
      LastUpdateWins(styles, init, f, i);
    }
  }

  /** A field no update sets keeps its value, or stays unset. */
  lemma {:induction false} UnsetFieldKept(styles: ComputedStyles, es: seq<map<Field, StyleValue>>, f: Field)
    requires forall i :: 0 <= i < |es| ==> f !in es[i]
    ensures f in Overwrite(styles, es) <==> f in styles
    ensures f in styles ==> Overwrite(styles, es)[f] == styles[f]
  {
    if es != [] {
      var init := es[..|es| - 1];
      assert forall i :: 0 <= i < |init| ==> init[i] == es[i];
      UnsetFieldKept(styles, init, f);
    }
  }

  /**
   * `apply_declaration` in order: the last declaration that sets a field
   * decides it; a field no declaration sets keeps its value (or stays unset).
   */
  lemma LastDeclarationWins(styles: ComputedStyles, ds: seq<CS.Declaration>, f: Field)
    ensures forall i :: 0 <= i < |ds| && f in Effect(ds[i]) && (forall j :: i < j < |ds| ==> f !in Effect(ds[j])) ==>
      f in ApplyAll(styles, ds) && ApplyAll(styles, ds)[f] == Effect(ds[i])[f]
    ensures (forall i :: 0 <= i < |ds| ==> f !in Effect(ds[i])) ==>
      (f in ApplyAll(styles, ds) <==> f in styles) && (f in styles ==> ApplyAll(styles, ds)[f] == styles[f])
  {
    var es := EffectsOf(ds);
    forall i | 0 <= i < |ds| && f in Effect(ds[i]) && (forall j :: i < j < |ds| ==> f !in Effect(ds[j]))
      ensures f in ApplyAll(styles, ds) && ApplyAll(styles, ds)[f] == Effect(ds[i])[f]
    {
      LastUpdateWins(styles, es, f, i);
    }
    if forall i :: 0 <= i < |ds| ==> f !in Effect(ds[i]) {
      UnsetFieldKept(styles, es, f);
    }
  }

  /** Applying declarations one after another is applying the first ones, then the rest. */
  lemma {:induction false} OverwriteAppend(styles: ComputedStyles, xs: seq<map<Field, StyleValue>>, ys: seq<map<Field, StyleValue>>)
    ensures Overwrite(styles, xs + ys) == Overwrite(Overwrite(styles, xs), ys)
    decreases |ys|
  {
    if ys == [] {
      assert xs + ys == xs;
    } else {
      var n := |ys| - 1;
      assert (xs + ys)[..|xs + ys| - 1] == xs + ys[..n];
      OverwriteAppend(styles, xs, ys[..n]);
    }
  }

  // ---------------------------------------------------------------------
  // `apply_inheritance`
  // ---------------------------------------------------------------------

  /** The fixed values a node with a parent gets for the fields it left unset. */
  const Fallbacks: ComputedStyles :=
    map[Color := Literal("black"), FontFamily := Literal("Arial, sans-serif"), FontSize := Literal("16px")]

  /** `apply_inheritance`: with a parent, the unset fallback fields are filled in; the parent's own styles play no part. */
  function Inherit(styles: ComputedStyles, hasParent: bool): ComputedStyles {
    if hasParent then Fallbacks + styles else styles
  }

  /** Inheritance only fills fields that were unset, and only with a parent. */
  lemma InheritOnlyFills(styles: ComputedStyles, hasParent: bool)
    ensures forall f :: f in styles ==> f in Inherit(styles, hasParent) && Inherit(styles, hasParent)[f] == styles[f]
    ensures Inherit(styles, hasParent).Keys == styles.Keys + (if hasParent then {Color, FontFamily, FontSize} else {})
    ensures forall f :: f in Inherit(styles, hasParent) && f !in styles ==>
      hasParent && Inherit(styles, hasParent)[f] == Fallbacks[f]
  {
  }

  /** One more declaration is one more overwrite. */
  lemma ApplyAllSnoc(styles: ComputedStyles, ds: seq<CS.Declaration>, d: CS.Declaration)
    ensures ApplyAll(styles, ds + [d]) == ApplyDeclaration(ApplyAll(styles, ds), d)
  {
    var es := EffectsOf(ds + [d]);
    assert es[..|ds|] == EffectsOf(ds);
  }

  // ---------------------------------------------------------------------
  // Collecting the matching rules
  // ---------------------------------------------------------------------

  /** A rule applies to a node when one of its selectors matches it. */
  predicate Applies(a: Dom.Arena, bound: nat, id: nat, r: CS.Rule)
    requires Dom.WellFormed(a, bound) && id in a
  {
    exists i :: 0 <= i < |r.selectors| && Matches(a, bound, r.selectors[i], id)
  }

  /** The entries pushed for the first `k` selectors of a rule: the rule once per matching selector. */
  function RuleEntries(a: Dom.Arena, bound: nat, id: nat, r: CS.Rule, k: nat): seq<CS.Rule>
    requires Dom.WellFormed(a, bound) && id in a && k <= |r.selectors|
  {
    if k == 0 then []
    else RuleEntries(a, bound, id, r, k - 1) + (if Matches(a, bound, r.selectors[k - 1], id) then [r] else [])
  }

  /** The entries pushed for the first `k` rules of a style sheet. */
  function SheetEntries(a: Dom.Arena, bound: nat, id: nat, rules: seq<CS.Rule>, k: nat): seq<CS.Rule>
    requires Dom.WellFormed(a, bound) && id in a && k <= |rules|
  {
    if k == 0 then []
    else SheetEntries(a, bound, id, rules, k - 1) + RuleEntries(a, bound, id, rules[k - 1], |rules[k - 1].selectors|)
  }

  /** The entries pushed for the first `k` style sheets, in style-sheet and rule order. */
  function MatchingEntries(a: Dom.Arena, bound: nat, id: nat, sheets: seq<CS.Stylesheet>, k: nat): seq<CS.Rule>
    requires Dom.WellFormed(a, bound) && id in a && k <= |sheets|
  {
    if k == 0 then []
    else MatchingEntries(a, bound, id, sheets, k - 1) + SheetEntries(a, bound, id, sheets[k - 1].rules, |sheets[k - 1].rules|)
  }

  /** All entries of `compute_node_styles` before the sort. */
  function MatchingRules(a: Dom.Arena, bound: nat, id: nat, sheets: seq<CS.Stylesheet>): seq<CS.Rule>
    requires Dom.WellFormed(a, bound) && id in a
  {
    MatchingEntries(a, bound, id, sheets, |sheets|)
  }

  /** A rule has an entry exactly when one of its first `k` selectors matches. */
  lemma {:induction false} RuleEntriesMembership(a: Dom.Arena, bound: nat, id: nat, r: CS.Rule, k: nat, x: CS.Rule)
    requires Dom.WellFormed(a, bound) && id in a && k <= |r.selectors|
    ensures x in RuleEntries(a, bound, id, r, k) <==>
      x == r && exists i :: 0 <= i < k && Matches(a, bound, r.selectors[i], id)
  {
    if k > 0 {
      RuleEntriesMembership(a, bound, id, r, k - 1, x);
    }
  }

  /** An entry of a style sheet is one of its first `k` rules that applies, and each such rule has one. */
  lemma {:induction false} SheetEntriesMembership(a: Dom.Arena, bound: nat, id: nat, rules: seq<CS.Rule>, k: nat, x: CS.Rule)
    requires Dom.WellFormed(a, bound) && id in a && k <= |rules|
    ensures x in SheetEntries(a, bound, id, rules, k) <==>
      exists j :: 0 <= j < k && rules[j] == x && Applies(a, bound, id, x)
  {
    if k > 0 {
      SheetEntriesMembership(a, bound, id, rules, k - 1, x);
      var r := rules[k - 1];
      var last := RuleEntries(a, bound, id, r, |r.selectors|);
      RuleEntriesMembership(a, bound, id, r, |r.selectors|, x);
      assert x in last <==> r == x && Applies(a, bound, id, x);
      if exists j :: 0 <= j < k && rules[j] == x && Applies(a, bound, id, x) {
        var j :| 0 <= j < k && rules[j] == x && Applies(a, bound, id, x);
        if j < k - 1 {
          assert x in SheetEntries(a, bound, id, rules, k - 1);
        } else {
          assert x in last;
        }
      }
    }
  }

  /** `compute_node_styles` collects exactly the rules, of any style sheet, one of whose selectors matches the node. */
  lemma {:induction false} MatchingEntriesMembership(a: Dom.Arena, bound: nat, id: nat, sheets: seq<CS.Stylesheet>, k: nat, x: CS.Rule)
    requires Dom.WellFormed(a, bound) && id in a && k <= |sheets|
    ensures x in MatchingEntries(a, bound, id, sheets, k) <==>
      Applies(a, bound, id, x) && exists s, j :: 0 <= s < k && 0 <= j < |sheets[s].rules| && sheets[s].rules[j] == x
  {
    if k > 0 {
      MatchingEntriesMembership(a, bound, id, sheets, k - 1, x);
      var rules := sheets[k - 1].rules;
      SheetEntriesMembership(a, bound, id, rules, |rules|, x);
      if x in SheetEntries(a, bound, id, rules, |rules|) {
        var j :| 0 <= j < |rules| && rules[j] == x && Applies(a, bound, id, x);
        assert sheets[k - 1].rules[j] == x;
      }
      if Applies(a, bound, id, x) && x !in MatchingEntries(a, bound, id, sheets, k - 1) {
        if exists s, j :: 0 <= s < k && 0 <= j < |sheets[s].rules| && sheets[s].rules[j] == x {
          var s, j :| 0 <= s < k && 0 <= j < |sheets[s].rules| && sheets[s].rules[j] == x;
          assert s == k - 1;
          assert rules[j] == x;
        }
      }
    }
  }

  // ---------------------------------------------------------------------
  // The stable sort by specificity
  // ---------------------------------------------------------------------

  /** Place `r` before the first entry whose specificity is not lower. */
  function Insert(r: CS.Rule, s: seq<CS.Rule>): seq<CS.Rule> {
    if s == [] || LessEq(r.specificity, s[0].specificity) then [r] + s
    else [s[0]] + Insert(r, s[1..])
  }

  /** `sort_by` on the specificity: a stable insertion sort is the reference. */
  function SortBySpecificity(rs: seq<CS.Rule>): seq<CS.Rule> {
    if rs == [] then [] else Insert(rs[0], SortBySpecificity(rs[1..]))
  }

  /** No entry is followed by one of lower specificity. */
  predicate SortedBySpecificity(rs: seq<CS.Rule>) {
    forall i, j :: 0 <= i < j < |rs| ==> LessEq(rs[i].specificity, rs[j].specificity)
  }

  /** The entries of one specificity, in order. */
  function WithSpecificity(rs: seq<CS.Rule>, k: Specificity): seq<CS.Rule> {
    if rs == [] then []
    else (if rs[0].specificity == k then [rs[0]] else []) + WithSpecificity(rs[1..], k)
  }

  lemma {:induction false} InsertPermutes(r: CS.Rule, s: seq<CS.Rule>)
    ensures multiset(Insert(r, s)) == multiset(s) + multiset{r}
  {
    if s != [] && !LessEq(r.specificity, s[0].specificity) {
      InsertPermutes(r, s[1..]);
      assert s == [s[0]] + s[1..];
    }
  }

  /** Every entry has at least specificity `k`. */
  predicate AllAtLeast(s: seq<CS.Rule>, k: Specificity) {
    forall i :: 0 <= i < |s| ==> LessEq(k, s[i].specificity)
  }

  lemma LessEqTransitive(x: Specificity, y: Specificity, z: Specificity)
    requires LessEq(x, y) && LessEq(y, z)
    ensures LessEq(x, z)
  {
  }

  lemma {:induction false} InsertKeepsBound(r: CS.Rule, s: seq<CS.Rule>, k: Specificity)
    requires AllAtLeast(s, k) && LessEq(k, r.specificity)
    ensures AllAtLeast(Insert(r, s), k)
  {
    if s != [] && !LessEq(r.specificity, s[0].specificity) {
      InsertKeepsBound(r, s[1..], k);
    }
  }

  lemma SortedCons(x: CS.Rule, t: seq<CS.Rule>)
    requires AllAtLeast(t, x.specificity) && SortedBySpecificity(t)
    ensures SortedBySpecificity([x] + t)
  {
    forall i, j | 0 <= i < j < |[x] + t|
      ensures LessEq(([x] + t)[i].specificity, ([x] + t)[j].specificity)
    {
      if i > 0 {
        assert ([x] + t)[i] == t[i - 1] && ([x] + t)[j] == t[j - 1];
      }
    }
  }

  lemma {:induction false} InsertSorted(r: CS.Rule, s: seq<CS.Rule>)
    requires SortedBySpecificity(s)
    ensures SortedBySpecificity(Insert(r, s))
  {
    if s == [] {
      SortedCons(r, s);
    } else {
      var x := s[0];
      var rest := s[1..];
      assert SortedBySpecificity(rest) by {
        forall i, j | 0 <= i < j < |rest| ensures LessEq(rest[i].specificity, rest[j].specificity) {
          assert rest[i] == s[i + 1] && rest[j] == s[j + 1];
        }
      }
      assert AllAtLeast(rest, x.specificity) by {
        forall i | 0 <= i < |rest| ensures LessEq(x.specificity, rest[i].specificity) {
          assert rest[i] == s[i + 1];
        }
      }
      if LessEq(r.specificity, x.specificity) {
        forall i | 0 <= i < |s| ensures LessEq(r.specificity, s[i].specificity) {
          if i > 0 {
            LessEqTransitive(r.specificity, x.specificity, s[i].specificity);
          }
        }
        SortedCons(r, s);
      } else {
        InsertSorted(r, rest);
        assert LessEq(x.specificity, r.specificity);
        InsertKeepsBound(r, rest, x.specificity);
        SortedCons(x, Insert(r, rest));
      }
    }
  }

  lemma {:induction false} InsertStable(r: CS.Rule, s: seq<CS.Rule>, k: Specificity)
    ensures WithSpecificity(Insert(r, s), k) == WithSpecificity([r], k) + WithSpecificity(s, k)
  {
    assert [r][1..] == [];
    if s == [] || LessEq(r.specificity, s[0].specificity) {
      assert ([r] + s)[1..] == s;
    } else {
      InsertStable(r, s[1..], k);
      assert ([s[0]] + Insert(r, s[1..]))[1..] == Insert(r, s[1..]);
    }
  }

  /** The sort is a permutation of its input. */
  lemma {:induction false} SortPermutes(rs: seq<CS.Rule>)
    ensures multiset(SortBySpecificity(rs)) == multiset(rs)
  {
    if rs != [] {
      SortPermutes(rs[1..]);
      InsertPermutes(rs[0], SortBySpecificity(rs[1..]));
      assert rs == [rs[0]] + rs[1..];
    }
  }

  /** The sort leaves no entry before one of lower specificity. */
  lemma {:induction false} SortSorts(rs: seq<CS.Rule>)
    ensures SortedBySpecificity(SortBySpecificity(rs))
  {
    if rs != [] {
      SortSorts(rs[1..]);
      InsertSorted(rs[0], SortBySpecificity(rs[1..]));
    }
  }

  /** The sort is stable: the entries of any one specificity keep their collection order. */
  lemma {:induction false} SortIsStable(rs: seq<CS.Rule>, k: Specificity)
    ensures WithSpecificity(SortBySpecificity(rs), k) == WithSpecificity(rs, k)
  {
    if rs != [] {
      SortIsStable(rs[1..], k);
      InsertStable(rs[0], SortBySpecificity(rs[1..]), k);
      assert [rs[0]][1..] == [];
    }
  }

  /** Two entries: the lower specificity goes first, and with equal ones the collection order is kept. */
  lemma SortTwo(x: CS.Rule, y: CS.Rule)
    ensures Less(y.specificity, x.specificity) ==> SortBySpecificity([x, y]) == [y, x]
    ensures !Less(y.specificity, x.specificity) ==> SortBySpecificity([x, y]) == [x, y]
  {
    assert [x, y][1..] == [y];
    assert [y][1..] == [];
    assert SortBySpecificity([y]) == Insert(y, []) == [y];
    assert Insert(x, []) == [x];
    assert LessEq(x.specificity, y.specificity) <==> !Less(y.specificity, x.specificity);
    assert Insert(x, [y]) == if LessEq(x.specificity, y.specificity) then [x, y] else [y, x];
  }

  // ---------------------------------------------------------------------
  // `compute_node_styles`
  // ---------------------------------------------------------------------

  /** The declarations of the entries, entry after entry. */
  function DeclarationsOf(rs: seq<CS.Rule>): seq<CS.Declaration> {
    if rs == [] then [] else DeclarationsOf(rs[..|rs| - 1]) + rs[|rs| - 1].declarations
  }

  /** Declarations of later entries come after those of earlier ones. */
  lemma {:induction false} DeclarationsOfAppend(xs: seq<CS.Rule>, ys: seq<CS.Rule>)
    ensures DeclarationsOf(xs + ys) == DeclarationsOf(xs) + DeclarationsOf(ys)
    decreases |ys|
  {
    if ys == [] {
      assert xs + ys == xs;
    } else {
      var n := |ys| - 1;
      assert (xs + ys)[..|xs + ys| - 1] == xs + ys[..n];
      DeclarationsOfAppend(xs, ys[..n]);
    }
  }

  /** The styles `compute_node_styles` gives a node. */
  function NodeStyles(sheets: seq<CS.Stylesheet>, a: Dom.Arena, bound: nat, id: nat): ComputedStyles
    requires Dom.WellFormed(a, bound) && id in a
  {
    Inherit(ApplyAll(map[], DeclarationsOf(SortBySpecificity(MatchingRules(a, bound, id, sheets)))), a[id].parent.Some?)
  }

  /**
   * Of two entries that set the same field, the one of strictly higher
   * specificity wins whatever the collection order; with equal
   * specificity the later one wins.
   */
  lemma {:induction false} HigherSpecificityWins(styles: ComputedStyles, x: CS.Rule, y: CS.Rule, f: Field)
    requires exists i :: 0 <= i < |x.declarations| && f in Effect(x.declarations[i])
    requires exists i :: 0 <= i < |y.declarations| && f in Effect(y.declarations[i])
    ensures var winner := if Less(y.specificity, x.specificity) then x else y;
      f in ApplyAll(styles, DeclarationsOf(SortBySpecificity([x, y]))) && f in ApplyAll(map[], winner.declarations)
      && ApplyAll(styles, DeclarationsOf(SortBySpecificity([x, y])))[f] == ApplyAll(map[], winner.declarations)[f]
  {
    SortTwo(x, y);
    var first, winner := if Less(y.specificity, x.specificity) then y else x, if Less(y.specificity, x.specificity) then x else y;
    assert [first, winner][..1] == [first];
    assert [first][..0] == [];
    assert DeclarationsOf([first]) == first.declarations;
    assert DeclarationsOf([first, winner]) == first.declarations + winner.declarations;
    LastSetterWins(styles, first.declarations, winner.declarations, f);
  }

  /** Once some update sets a field, the starting styles play no part in its value. */
  lemma {:induction false} SetFieldForgetsStart(s1: ComputedStyles, s2: ComputedStyles, es: seq<map<Field, StyleValue>>, f: Field)
    requires exists i :: 0 <= i < |es| && f in es[i]
    ensures f in Overwrite(s1, es) && f in Overwrite(s2, es) && Overwrite(s1, es)[f] == Overwrite(s2, es)[f]
  {
    var n := |es| - 1;
    if f !in es[n] {
      var init := es[..n];
      var i :| 0 <= i < |es| && f in es[i];
      assert init[i] == es[i];
      SetFieldForgetsStart(s1, s2, init, f);
    }
  }

  /** When the later declarations set a field, the earlier ones play no part in its value. */
  lemma LastSetterWins(styles: ComputedStyles, ds: seq<CS.Declaration>, es: seq<CS.Declaration>, f: Field)
    requires exists i :: 0 <= i < |es| && f in Effect(es[i])
    ensures f in ApplyAll(styles, ds + es) && f in ApplyAll(map[], es)
    ensures ApplyAll(styles, ds + es)[f] == ApplyAll(map[], es)[f]
  {
    assert EffectsOf(ds + es) == EffectsOf(ds) + EffectsOf(es);
    OverwriteAppend(styles, EffectsOf(ds), EffectsOf(es));
    var i :| 0 <= i < |es| && f in Effect(es[i]);
    assert f in EffectsOf(es)[i];
    SetFieldForgetsStart(ApplyAll(styles, ds), map[], EffectsOf(es), f);
  }

  /** Adding declarations at the end: the last declaration is applied last. */
  lemma DeclarationsOfSnoc(rs: seq<CS.Rule>, i: nat)
    requires i < |rs|
    ensures DeclarationsOf(rs[..i + 1]) == DeclarationsOf(rs[..i]) + rs[i].declarations
  {
    assert rs[..i + 1][..i] == rs[..i];
  }

  // ---------------------------------------------------------------------
  // The nodes `apply_styles_recursive` visits
  // ---------------------------------------------------------------------

  /** The ids of the subtree rooted at `id`. */
  function SubtreeIds(a: Dom.Arena, bound: nat, id: nat): (r: set<nat>)
    requires Dom.WellFormed(a, bound) && id in a
    ensures id in r
    ensures forall x :: x in r ==> x in a && id <= x
    decreases bound - id, 1
  {
    {id} + ChildIds(a, bound, id, |a[id].children|)
  }

  /** The ids of the subtrees of the first `k` children of `id`. */
  function ChildIds(a: Dom.Arena, bound: nat, id: nat, k: nat): (r: set<nat>)
    requires Dom.WellFormed(a, bound) && id in a && k <= |a[id].children|
    ensures forall x :: x in r ==> x in a && id < x
    decreases bound - id, 0, k
  {
    if k == 0 then {}
    else ChildIds(a, bound, id, k - 1) + SubtreeIds(a, bound, a[id].children[k - 1])
  }

  /** The ancestors of an ancestor are ancestors. */
  lemma {:induction false} AncestorsNest(a: Dom.Arena, bound: nat, x: nat, c: nat)
    requires Dom.WellFormed(a, bound) && x in a && c in Ancestors(a, bound, x)
    ensures c in a && forall y :: y in Ancestors(a, bound, c) ==> y in Ancestors(a, bound, x)
    decreases x
  {
    var p := a[x].parent.value;
    if c != p {
      AncestorsNest(a, bound, p, c);
    }
  }

  /** Every node of the subtree rooted at `id` is `id` or has `id` among its ancestors. */
  lemma {:induction false} SubtreeIdsAreDescendants(a: Dom.Arena, bound: nat, id: nat, x: nat)
    requires Dom.WellFormed(a, bound) && id in a && x in SubtreeIds(a, bound, id)
    ensures x == id || id in Ancestors(a, bound, x)
    decreases bound - id, 1
  {
    if x != id {
      ChildIdsAreDescendants(a, bound, id, |a[id].children|, x);
    }
  }

  lemma {:induction false} ChildIdsAreDescendants(a: Dom.Arena, bound: nat, id: nat, k: nat, x: nat)
    requires Dom.WellFormed(a, bound) && id in a && k <= |a[id].children| && x in ChildIds(a, bound, id, k)
    ensures id in Ancestors(a, bound, x)
    decreases bound - id, 0, k
  {
    var c := a[id].children[k - 1];
    if x in ChildIds(a, bound, id, k - 1) {
      ChildIdsAreDescendants(a, bound, id, k - 1, x);
    } else {
      SubtreeIdsAreDescendants(a, bound, c, x);
      assert a[c].parent == Some(id);
      assert id in Ancestors(a, bound, c);
      if x != c {
        AncestorsNest(a, bound, x, c);
      }
    }
  }

  /** Every node that has `id` among its ancestors is in the subtree rooted at `id`. */
  lemma {:induction false} DescendantsInSubtreeIds(a: Dom.Arena, bound: nat, id: nat, x: nat)
    requires Dom.WellFormed(a, bound) && id in a && x in a && id in Ancestors(a, bound, x)
    ensures x in SubtreeIds(a, bound, id)
    decreases x
  {
    var p := a[x].parent.value;
    var cs := a[p].children;
    var k :| 0 <= k < |cs| && cs[k] == x;
    ChildIdsHaveChild(a, bound, p, |cs|, k);
    if p != id {
      DescendantsInSubtreeIds(a, bound, id, p);
      SubtreeIdsClosed(a, bound, id, p);
    }
  }

  lemma {:induction false} ChildIdsHaveChild(a: Dom.Arena, bound: nat, id: nat, k: nat, j: nat)
    requires Dom.WellFormed(a, bound) && id in a && j < k <= |a[id].children|
    ensures SubtreeIds(a, bound, a[id].children[j]) <= ChildIds(a, bound, id, k)
    decreases k
  {
    if j < k - 1 {
      ChildIdsHaveChild(a, bound, id, k - 1, j);
    }
  }

  /** A subtree contains the subtree of each of its nodes. */
  lemma {:induction false} SubtreeIdsClosed(a: Dom.Arena, bound: nat, id: nat, y: nat)
    requires Dom.WellFormed(a, bound) && id in a && y in SubtreeIds(a, bound, id)
    ensures SubtreeIds(a, bound, y) <= SubtreeIds(a, bound, id)
    decreases bound - id, 1
  {
    if y != id {
      ChildIdsClosed(a, bound, id, |a[id].children|, y);
    }
  }

  lemma {:induction false} ChildIdsClosed(a: Dom.Arena, bound: nat, id: nat, k: nat, y: nat)
    requires Dom.WellFormed(a, bound) && id in a && k <= |a[id].children| && y in ChildIds(a, bound, id, k)
    ensures SubtreeIds(a, bound, y) <= ChildIds(a, bound, id, k)
    decreases bound - id, 0, k
  {
    if y in ChildIds(a, bound, id, k - 1) {
      ChildIdsClosed(a, bound, id, k - 1, y);
    } else {
      SubtreeIdsClosed(a, bound, a[id].children[k - 1], y);
    }
  }

  /** The subtree rooted at `id` is `id` and exactly the nodes that have it among their ancestors. */
  lemma SubtreeIdsAreExactlyDescendants(a: Dom.Arena, bound: nat, id: nat, x: nat)
    requires Dom.WellFormed(a, bound) && id in a && x in a
    ensures x in SubtreeIds(a, bound, id) <==> x == id || id in Ancestors(a, bound, x)
  {
    if x in SubtreeIds(a, bound, id) {
      SubtreeIdsAreDescendants(a, bound, id, x);
    } else if x != id && id in Ancestors(a, bound, x) {
      DescendantsInSubtreeIds(a, bound, id, x);
    }
  }

  // ---------------------------------------------------------------------
  // The engine
  // ---------------------------------------------------------------------

  /**
   * `out` is `computed` with the styles of the nodes `ids` written in:
   * its keys are the old keys and `ids`, a node of `ids` maps to its
   * styles and every other entry is unchanged.
   */
  ghost predicate Filled(sheets: seq<CS.Stylesheet>, a: Dom.Arena, bound: nat, computed: map<nat, ComputedStyles>,
                         ids: set<nat>, out: map<nat, ComputedStyles>)
  {
    Dom.WellFormed(a, bound)
    && (forall x :: x in ids ==> x in a)
    && out.Keys == computed.Keys + ids
    && forall x :: x in out ==>
         out[x] == if x in ids then NodeStyles(sheets, a, bound, x) else computed[x]
  }

  lemma FilledOne(sheets: seq<CS.Stylesheet>, a: Dom.Arena, bound: nat, computed: map<nat, ComputedStyles>,
                  id: nat, out: map<nat, ComputedStyles>)
    requires Dom.WellFormed(a, bound) && id in a
    requires out == computed[id := NodeStyles(sheets, a, bound, id)]
    ensures Filled(sheets, a, bound, computed, {id} + ChildIds(a, bound, id, 0), out)
  {
  }

  lemma FilledTwice(sheets: seq<CS.Stylesheet>, a: Dom.Arena, bound: nat, computed: map<nat, ComputedStyles>,
                    ids1: set<nat>, mid: map<nat, ComputedStyles>, ids2: set<nat>, out: map<nat, ComputedStyles>)
    requires Filled(sheets, a, bound, computed, ids1, mid) && Filled(sheets, a, bound, mid, ids2, out)
    ensures Filled(sheets, a, bound, computed, ids1 + ids2, out)
  {
  }

  lemma FilledChild(sheets: seq<CS.Stylesheet>, a: Dom.Arena, bound: nat, computed: map<nat, ComputedStyles>,
                    id: nat, k: nat, mid: map<nat, ComputedStyles>, out: map<nat, ComputedStyles>)
    requires Dom.WellFormed(a, bound) && id in a && k < |a[id].children|
    requires Filled(sheets, a, bound, computed, {id} + ChildIds(a, bound, id, k), mid)
    requires Filled(sheets, a, bound, mid, SubtreeIds(a, bound, a[id].children[k]), out)
    ensures Filled(sheets, a, bound, computed, {id} + ChildIds(a, bound, id, k + 1), out)
  {
    var before := {id} + ChildIds(a, bound, id, k);
    var child := SubtreeIds(a, bound, a[id].children[k]);
    FilledTwice(sheets, a, bound, computed, before, mid, child, out);
    assert before + child == {id} + ChildIds(a, bound, id, k + 1) by {
      assert ChildIds(a, bound, id, k + 1) == ChildIds(a, bound, id, k) + child;
    }
  }

  /** The rules of all style sheets together. */
  function RuleCount(sheets: seq<CS.Stylesheet>): nat {
    if sheets == [] then 0 else RuleCount(sheets[..|sheets| - 1]) + |sheets[|sheets| - 1].rules|
  }

  /** `CSSCascadeEngine`: the style sheets in the order they were added, and the sheets fetched by URL. */
  class CssCascadeEngine {
    var stylesheets: seq<CS.Stylesheet>
    var cache: map<string, CS.Stylesheet>

    constructor ()
      ensures stylesheets == [] && cache == map[]
    {
      stylesheets := [];
      cache := map[];
    }

    /** `add_stylesheet`: the sheet goes last, so its rules come after all earlier ones. */
    method AddStylesheet(sheet: CS.Stylesheet)
      modifies this
      ensures stylesheets == old(stylesheets) + [sheet] && cache == old(cache)
      ensures RuleCount(stylesheets) == RuleCount(old(stylesheets)) + |sheet.rules|
    {
      stylesheets := stylesheets + [sheet];
      assert stylesheets[..|stylesheets| - 1] == old(stylesheets);
    }

    /**
     * `add_stylesheet_from_url`: a URL already in the cache adds nothing;
     * otherwise the content is parsed, tagged with its URL, cached and added.
     */
    method AddStylesheetFromUrl(url: string, content: string) returns (r: Result<(), CS.CssError>)
      modifies this
      ensures r.Ok?
      ensures url in old(cache) ==> stylesheets == old(stylesheets) && cache == old(cache)
      ensures url !in old(cache) ==>
        var sheet := CS.ParseStylesheetAsWritten(content).(sourceUrl := Some(url));
        stylesheets == old(stylesheets) + [sheet] && cache == old(cache)[url := sheet]
    {
      if url in cache {
        return Ok(());
      }
      var parser := new CS.CssParser(content);
      var parsed := parser.ParseStylesheet();
      var sheet := parsed.value.(sourceUrl := Some(url));
      cache := cache[url := sheet];
      stylesheets := stylesheets + [sheet];
      return Ok(());
    }

    /** `get_total_rules`: the rule counts of the sheets, summed. */
    method GetTotalRules() returns (n: nat)
      ensures n == RuleCount(stylesheets)
    {
      n := 0;
      for i := 0 to |stylesheets|
        invariant n == RuleCount(stylesheets[..i])
      {
        assert stylesheets[..i + 1][..i] == stylesheets[..i];
        n := n + |stylesheets[i].rules|;
      }
      assert stylesheets[..|stylesheets|] == stylesheets;
    }

    /** The entries for one rule's selectors, appended to `entries`. */
    method CollectRule(a: Dom.Arena, bound: nat, id: nat, r: CS.Rule, entries: seq<CS.Rule>) returns (out: seq<CS.Rule>)
      requires Dom.WellFormed(a, bound) && id in a
      ensures out == entries + RuleEntries(a, bound, id, r, |r.selectors|)
    {
      out := entries;
      for k := 0 to |r.selectors|
        invariant out == entries + RuleEntries(a, bound, id, r, k)
      {
        if Matches(a, bound, r.selectors[k], id) {
          out := out + [r];
        }
      }
    }

    /** The collection loop of `compute_node_styles`: every matching selector of every rule of every sheet, in order. */
    method CollectMatching(a: Dom.Arena, bound: nat, id: nat) returns (entries: seq<CS.Rule>)
      requires Dom.WellFormed(a, bound) && id in a
      ensures entries == MatchingRules(a, bound, id, stylesheets)
    {
      entries := [];
      for s := 0 to |stylesheets|
        invariant entries == MatchingEntries(a, bound, id, stylesheets, s)
      {
        var rules := stylesheets[s].rules;
        ghost var before := entries;
        for j := 0 to |rules|
          invariant entries == before + SheetEntries(a, bound, id, rules, j)
        {
          entries := CollectRule(a, bound, id, rules[j], entries);
        }
      }
    }

    /** `compute_node_styles`: collect, sort stably by specificity, apply every declaration in order, then inherit. */
    method ComputeNodeStyles(a: Dom.Arena, bound: nat, id: nat) returns (styles: ComputedStyles)
      requires Dom.WellFormed(a, bound) && id in a
      ensures styles == NodeStyles(stylesheets, a, bound, id)
    {
      var matching := CollectMatching(a, bound, id);
      var sorted := SortBySpecificity(matching);
      styles := map[];
      for i := 0 to |sorted|
        invariant styles == ApplyAll(map[], DeclarationsOf(sorted[..i]))
      {
        var ds := sorted[i].declarations;
        assert DeclarationsOf(sorted[..i]) + ds[..0] == DeclarationsOf(sorted[..i]);
        for j := 0 to |ds|
          invariant styles == ApplyAll(map[], DeclarationsOf(sorted[..i]) + ds[..j])
        {
          ApplyAllSnoc(map[], DeclarationsOf(sorted[..i]) + ds[..j], ds[j]);
          assert (DeclarationsOf(sorted[..i]) + ds[..j]) + [ds[j]] == DeclarationsOf(sorted[..i]) + ds[..j + 1];
          styles := ApplyDeclaration(styles, ds[j]);
        }
        DeclarationsOfSnoc(sorted, i);
        assert ds[..|ds|] == ds;
      }
      assert sorted[..|sorted|] == sorted;
      styles := Inherit(styles, a[id].parent.Some?);
    }

    /** `apply_styles_recursive`: every node of the subtree gets its styles; other entries are kept. */
    method ApplyStylesRecursive(a: Dom.Arena, bound: nat, id: nat, computed: map<nat, ComputedStyles>)
      returns (out: map<nat, ComputedStyles>)
      requires Dom.WellFormed(a, bound) && id in a
      ensures Filled(stylesheets, a, bound, computed, SubtreeIds(a, bound, id), out)
      decreases bound - id
    {
      var styles := ComputeNodeStyles(a, bound, id);
      out := computed[id := styles];
      FilledOne(stylesheets, a, bound, computed, id, out);
      var cs := a[id].children;
      for k := 0 to |cs|
        invariant Filled(stylesheets, a, bound, computed, {id} + ChildIds(a, bound, id, k), out)
      {
        ghost var before := out;
        out := ApplyStylesRecursive(a, bound, cs[k], out);
        FilledChild(stylesheets, a, bound, computed, id, k, before, out);
      }
    }

    /** `compute_styles`: the styles of every node of the document, by node id. */
    method ComputeStyles(a: Dom.Arena, bound: nat, root: nat) returns (out: map<nat, ComputedStyles>)
      requires Dom.WellFormed(a, bound) && root in a
      ensures out.Keys == SubtreeIds(a, bound, root)
      ensures forall x :: x in out ==> x in a && out[x] == NodeStyles(stylesheets, a, bound, x)
    {
      out := ApplyStylesRecursive(a, bound, root, map[]);
    }
  }
}
