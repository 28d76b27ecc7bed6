// Selectors, their specificity and the cascade engine's matching rules.
//
// `Specificity::calculate` is pure recursion over the selector, and the
// derived `Ord` of the four-counter record is lexicographic, as in section 9
// of Selectors Level 3. `selector_matches` and `has_matching_ancestor` walk
// parent links; over the DOM arena a parent always has a smaller id, which is
// what makes the walk terminate.

module CssSelectors {
  import opened Wrappers
  import opened Text
  import opened Dom
  import DomEventIntegration

  /** A selector as the style-sheet model holds it; combinators keep their two sides. */
  datatype Selector =
    | Universal
    | Type(tag: string)
    | Class(className: string)
    | Id(idName: string)
    | Attribute(attrName: string, operator: Option<string>, attrValue: Option<string>)
    | PseudoClass(pseudo: string)
    | PseudoElement(pseudo: string)
    | Descendant(ancestor: Selector, subject: Selector)
    | Child(parent: Selector, subject: Selector)
    | AdjacentSibling(left: Selector, right: Selector)
    | GeneralSibling(left: Selector, right: Selector)
    | Group(selectors: seq<Selector>)

  // ---------------------------------------------------------------------
  // Specificity
  // ---------------------------------------------------------------------

  /**
   * Id selectors, class-like selectors (class, attribute, pseudo-class),
   * type-like selectors (type, pseudo-element) and universal selectors.
   */
  datatype Specificity = Specificity(a: nat, b: nat, c: nat, d: nat)

  const Zero := Specificity(0, 0, 0, 0)

  /** The derived order: compare `a`, then `b`, then `c`, then `d`. */
  predicate Less(x: Specificity, y: Specificity) {
    x.a < y.a
    || (x.a == y.a && x.b < y.b)
    || (x.a == y.a && x.b == y.b && x.c < y.c)
    || (x.a == y.a && x.b == y.b && x.c == y.c && x.d < y.d)
  }

  predicate LessEq(x: Specificity, y: Specificity) {
    x == y || Less(x, y)
  }

  /** The order is a strict total order, so sorting by it is well defined. */
  lemma LessIsStrictTotalOrder(x: Specificity, y: Specificity, z: Specificity)
    ensures !Less(x, x)
    ensures Less(x, y) && Less(y, z) ==> Less(x, z)
    ensures x == y || Less(x, y) || Less(y, x)
    ensures !(Less(x, y) && Less(y, x))
  {
  }

  function Add(x: Specificity, y: Specificity): Specificity {
    Specificity(x.a + y.a, x.b + y.b, x.c + y.c, x.d + y.d)
  }

  /** The larger of two specificities. */
  function Max(x: Specificity, y: Specificity): (m: Specificity)
    ensures LessEq(x, m) && LessEq(y, m)
    ensures m == x || m == y
  {
    if Less(x, y) then y else x
  }

  /** `Specificity::calculate`: fixed weights for simple selectors, sums for combinators, the maximum for a group. */
  function Calculate(sel: Selector): Specificity
    decreases sel, 1
  {
    match sel
    case Universal => Specificity(0, 0, 0, 1)
    case Type(_) => Specificity(0, 0, 1, 0)
    case Class(_) => Specificity(0, 1, 0, 0)
    case Attribute(_, _, _) => Specificity(0, 1, 0, 0)
    case PseudoClass(_) => Specificity(0, 1, 0, 0)
    case Id(_) => Specificity(1, 0, 0, 0)
    case PseudoElement(_) => Specificity(0, 0, 1, 0)
    case Descendant(l, r) => Add(Calculate(l), Calculate(r))
    case Child(l, r) => Add(Calculate(l), Calculate(r))
    case AdjacentSibling(l, r) => Add(Calculate(l), Calculate(r))
    case GeneralSibling(l, r) => Add(Calculate(l), Calculate(r))
    case Group(sels) => GroupMax(sels)
  }

  /** The largest specificity among `sels`, or zero for an empty group. */
  function GroupMax(sels: seq<Selector>): Specificity
    decreases sels, 0
  {
    if sels == [] then Zero else Max(Calculate(sels[0]), GroupMax(sels[1..]))
  }

  /** A group's specificity is at least each member's and is one of them (zero when empty). */
  lemma {:induction false} GroupIsMaximum(sels: seq<Selector>)
    ensures forall i :: 0 <= i < |sels| ==> LessEq(Calculate(sels[i]), Calculate(Group(sels)))
    ensures sels == [] ==> Calculate(Group(sels)) == Zero
    ensures sels != [] ==> exists i :: 0 <= i < |sels| && Calculate(sels[i]) == Calculate(Group(sels))
  {
    if sels != [] {
      GroupIsMaximum(sels[1..]);
      var m := GroupMax(sels[1..]);
      forall i | 0 <= i < |sels|
        ensures LessEq(Calculate(sels[i]), GroupMax(sels))
      {
        if i > 0 {
          assert sels[i] == sels[1..][i - 1];
          LessIsStrictTotalOrder(Calculate(sels[i]), m, GroupMax(sels));
        }
      }
      if GroupMax(sels) != Calculate(sels[0]) {
        assert GroupMax(sels) == m;
        if |sels| == 1 {
          assert false;
        }
        var j :| 0 <= j < |sels[1..]| && Calculate(sels[1..][j]) == m;
        assert Calculate(sels[j + 1]) == GroupMax(sels);
      }
    }
  }

  // The reference count of section 9 of Selectors Level 3.

  /** The kinds of simple selector the four counters count. */
  datatype Weight = IdWeight | ClassWeight | TypeWeight | UniversalWeight

  /** The simple selectors of a combinator chain, left to right. */
  function SimpleSelectors(sel: Selector): seq<Selector> {
    match sel
    case Descendant(l, r) => SimpleSelectors(l) + SimpleSelectors(r)
    case Child(l, r) => SimpleSelectors(l) + SimpleSelectors(r)
    case AdjacentSibling(l, r) => SimpleSelectors(l) + SimpleSelectors(r)
    case GeneralSibling(l, r) => SimpleSelectors(l) + SimpleSelectors(r)
    case _ => [sel]
  }

  /** Whether a simple selector counts toward the counter `w`. */
  predicate Weighs(sel: Selector, w: Weight) {
    match w
    case IdWeight => sel.Id?
    case ClassWeight => sel.Class? || sel.Attribute? || sel.PseudoClass?
    case TypeWeight => sel.Type? || sel.PseudoElement?
    case UniversalWeight => sel.Universal?
  }

  /** How many of `ss` count toward `w`. */
  function CountOf(ss: seq<Selector>, w: Weight): nat {
    if ss == [] then 0 else (if Weighs(ss[0], w) then 1 else 0) + CountOf(ss[1..], w)
  }

  lemma {:induction false} CountOfAppend(x: seq<Selector>, y: seq<Selector>, w: Weight)
    ensures CountOf(x + y, w) == CountOf(x, w) + CountOf(y, w)
  {
    if x == [] {
      assert x + y == y;
    } else {
      assert (x + y)[1..] == x[1..] + y;
      CountOfAppend(x[1..], y, w);
    }
  }

  /** A selector with no group anywhere in it. */
  predicate GroupFree(sel: Selector) {
    match sel
    case Descendant(l, r) => GroupFree(l) && GroupFree(r)
    case Child(l, r) => GroupFree(l) && GroupFree(r)
    case AdjacentSibling(l, r) => GroupFree(l) && GroupFree(r)
    case GeneralSibling(l, r) => GroupFree(l) && GroupFree(r)
    case Group(_) => false
    case _ => true
  }

  /** The counter of `sp` that counts toward `w`. */
  function Counter(sp: Specificity, w: Weight): nat {
    match w
    case IdWeight => sp.a
    case ClassWeight => sp.b
    case TypeWeight => sp.c
    case UniversalWeight => sp.d
  }

  /** Each counter of `sp` is the count of its kind among `ss`. */
  predicate CountsAgree(sp: Specificity, ss: seq<Selector>) {
    forall w :: Counter(sp, w) == CountOf(ss, w)
  }

  lemma {:induction false} CountsAgreeAppend(sx: Specificity, x: seq<Selector>, sy: Specificity, y: seq<Selector>)
    requires CountsAgree(sx, x) && CountsAgree(sy, y)
    ensures CountsAgree(Add(sx, sy), x + y)
  {
    forall w
      ensures Counter(Add(sx, sy), w) == CountOf(x + y, w)
    {
      CountOfAppend(x, y, w);
    }
  }

  /** One simple selector weighs one on exactly the counters it counts toward. */
  lemma {:induction false} CountsOfOne(sel: Selector, w: Weight)
    ensures CountOf([sel], w) == if Weighs(sel, w) then 1 else 0
  {
    assert [sel][1..] == [];
  }

  /** Without groups, each counter is the number of simple selectors of its kind in the chain. */
  lemma {:induction false} SpecificityCountsSimpleSelectors(sel: Selector)
    requires GroupFree(sel)
    ensures CountsAgree(Calculate(sel), SimpleSelectors(sel))
  {
    match sel
    case Descendant(l, r) =>
      SpecificityCountsSimpleSelectors(l);
      SpecificityCountsSimpleSelectors(r);
      CountsAgreeAppend(Calculate(l), SimpleSelectors(l), Calculate(r), SimpleSelectors(r));
    case Child(l, r) =>
      SpecificityCountsSimpleSelectors(l);
      SpecificityCountsSimpleSelectors(r);
      CountsAgreeAppend(Calculate(l), SimpleSelectors(l), Calculate(r), SimpleSelectors(r));
    case AdjacentSibling(l, r) =>
      SpecificityCountsSimpleSelectors(l);
      SpecificityCountsSimpleSelectors(r);
      CountsAgreeAppend(Calculate(l), SimpleSelectors(l), Calculate(r), SimpleSelectors(r));
    case GeneralSibling(l, r) =>
      SpecificityCountsSimpleSelectors(l);
      SpecificityCountsSimpleSelectors(r);
      CountsAgreeAppend(Calculate(l), SimpleSelectors(l), Calculate(r), SimpleSelectors(r));
    case Group(_) =>
      assert false;
    case _ =>
      assert SimpleSelectors(sel) == [sel];
      forall w
        ensures Counter(Calculate(sel), w) == CountOf([sel], w)
      {
        CountsOfOne(sel, w);
      }
  }

  /** No id selector anywhere, groups included. */
  predicate IdFree(sel: Selector)
    decreases sel, 1
  {
    match sel
    case Id(_) => false
    case Descendant(l, r) => IdFree(l) && IdFree(r)
    case Child(l, r) => IdFree(l) && IdFree(r)
    case AdjacentSibling(l, r) => IdFree(l) && IdFree(r)
    case GeneralSibling(l, r) => IdFree(l) && IdFree(r)
    case Group(sels) => AllIdFree(sels)
    case _ => true
  }

  predicate AllIdFree(sels: seq<Selector>)
    decreases sels, 0
  {
    sels == [] || (IdFree(sels[0]) && AllIdFree(sels[1..]))
  }

  /** No id and no class-like selector anywhere: only types, pseudo-elements and universals. */
  predicate TypesOnly(sel: Selector)
    decreases sel, 1
  {
    match sel
    case Id(_) => false
    case Class(_) => false
    case Attribute(_, _, _) => false
    case PseudoClass(_) => false
    case Descendant(l, r) => TypesOnly(l) && TypesOnly(r)
    case Child(l, r) => TypesOnly(l) && TypesOnly(r)
    case AdjacentSibling(l, r) => TypesOnly(l) && TypesOnly(r)
    case GeneralSibling(l, r) => TypesOnly(l) && TypesOnly(r)
    case Group(sels) => AllTypesOnly(sels)
    case _ => true
  }

  predicate AllTypesOnly(sels: seq<Selector>)
    decreases sels, 0
  {
    sels == [] || (TypesOnly(sels[0]) && AllTypesOnly(sels[1..]))
  }

  lemma {:induction false} IdFreeHasNoIdCount(sel: Selector)
    requires IdFree(sel)
    ensures Calculate(sel).a == 0
    decreases sel, 1
  {
    match sel
    case Descendant(l, r) => IdFreeHasNoIdCount(l); IdFreeHasNoIdCount(r);
    case Child(l, r) => IdFreeHasNoIdCount(l); IdFreeHasNoIdCount(r);
    case AdjacentSibling(l, r) => IdFreeHasNoIdCount(l); IdFreeHasNoIdCount(r);
    case GeneralSibling(l, r) => IdFreeHasNoIdCount(l); IdFreeHasNoIdCount(r);
    case Group(sels) => AllIdFreeHasNoIdCount(sels);
    case _ =>
  }

  lemma {:induction false} AllIdFreeHasNoIdCount(sels: seq<Selector>)
    requires AllIdFree(sels)
    ensures GroupMax(sels).a == 0
    decreases sels, 0
  {
    if sels != [] {
      IdFreeHasNoIdCount(sels[0]);
      AllIdFreeHasNoIdCount(sels[1..]);
    }
  }

  lemma {:induction false} TypesOnlyHasNoClassCount(sel: Selector)
    requires TypesOnly(sel)
    ensures Calculate(sel).a == 0 && Calculate(sel).b == 0
    decreases sel, 1
  {
    match sel
    case Descendant(l, r) => TypesOnlyHasNoClassCount(l); TypesOnlyHasNoClassCount(r);
    case Child(l, r) => TypesOnlyHasNoClassCount(l); TypesOnlyHasNoClassCount(r);
    case AdjacentSibling(l, r) => TypesOnlyHasNoClassCount(l); TypesOnlyHasNoClassCount(r);
    case GeneralSibling(l, r) => TypesOnlyHasNoClassCount(l); TypesOnlyHasNoClassCount(r);
    case Group(sels) => AllTypesOnlyHasNoClassCount(sels);
    case _ =>
  }

  lemma {:induction false} AllTypesOnlyHasNoClassCount(sels: seq<Selector>)
    requires AllTypesOnly(sels)
    ensures GroupMax(sels).a == 0 && GroupMax(sels).b == 0
    decreases sels, 0
  {
    if sels != [] {
      TypesOnlyHasNoClassCount(sels[0]);
      AllTypesOnlyHasNoClassCount(sels[1..]);
    }
  }

  /** A single id outranks any selector without an id, however many classes and types it combines. */
  lemma IdOutranksIdFree(sel: Selector, name: string)
    requires IdFree(sel)
    ensures Less(Calculate(sel), Calculate(Id(name)))
  {
    IdFreeHasNoIdCount(sel);
  }

  /** A single class outranks any selector made only of types, pseudo-elements and universals. */
  lemma ClassOutranksTypesOnly(sel: Selector, name: string)
    requires TypesOnly(sel)
    ensures Less(Calculate(sel), Calculate(Class(name)))
  {
    TypesOnlyHasNoClassCount(sel);
  }

  /** The unit test's three selectors: id above class above type. */
  lemma SpecificityExample()
    ensures Less(Calculate(Class("test")), Calculate(Id("test")))
    ensures Less(Calculate(Type("div")), Calculate(Class("test")))
  {
  }

  // ---------------------------------------------------------------------
  // Matching against the DOM arena
  // ---------------------------------------------------------------------

  /** The whitespace-separated tokens of an element's `class` attribute include `name`. */
  predicate HasClassToken(k: NodeKind, name: string) {
    k.Element? && "class" in k.attributes && name in SplitWhitespace(k.attributes["class"])
  }

  /**
   * `selector_matches`: universal, type, class, id, descendant and child
   * selectors are checked; every other kind never matches.
   */
  function Matches(a: Arena, bound: nat, sel: Selector, id: nat): bool
    requires WellFormed(a, bound) && id in a
    decreases sel, id
  {
    var k := a[id].kind;
    match sel
    case Universal => true
    case Type(tag) => k.Element? && k.tagName == tag
    case Class(name) => HasClassToken(k, name)
    case Id(name) => k.Element? && "id" in k.attributes && k.attributes["id"] == name
    case Descendant(ancestor, subject) =>
      Matches(a, bound, subject, id) && HasMatchingAncestor(a, bound, id, ancestor)
    case Child(parent, subject) =>
      Matches(a, bound, subject, id) && a[id].parent.Some? && Matches(a, bound, parent, a[id].parent.value)
    case _ => false
  }

  /** `has_matching_ancestor`: the parent matches, or the parent has a matching ancestor. */
  function HasMatchingAncestor(a: Arena, bound: nat, id: nat, sel: Selector): bool
    requires WellFormed(a, bound) && id in a
    decreases sel, id
  {
    match a[id].parent
    case None => false
    case Some(p) => Matches(a, bound, sel, p) || HasMatchingAncestor(a, bound, p, sel)
  }

  /** The proper ancestors of `id`, nearest first. */
  function Ancestors(a: Arena, bound: nat, id: nat): (anc: seq<nat>)
    requires WellFormed(a, bound) && id in a
    ensures forall x :: x in anc ==> x in a && x < id
    decreases id
  {
    match a[id].parent
    case None => []
    case Some(p) => [p] + Ancestors(a, bound, p)
  }

  /** The node followed by its ancestors is the parent path a dispatched event travels. */
  lemma {:induction false} AncestorsFormParentPath(a: Arena, bound: nat, id: nat)
    requires WellFormed(a, bound) && id in a
    ensures DomEventIntegration.IsParentPath(a, id, [id] + Ancestors(a, bound, id))
    decreases id
  {
    var path := [id] + Ancestors(a, bound, id);
    match a[id].parent
    case None =>
    case Some(p) =>
      AncestorsFormParentPath(a, bound, p);
      var rest := [p] + Ancestors(a, bound, p);
      assert path == [id] + rest;
      forall i | 0 <= i < |path| - 1
        ensures a[path[i]].parent == Some(path[i + 1])
      {
        if i > 0 {
          assert path[i] == rest[i - 1] && path[i + 1] == rest[i];
        }
      }
  }

  /** A matching proper ancestor makes `has_matching_ancestor` true. */
  lemma {:induction false} MatchingAncestorFound(a: Arena, bound: nat, id: nat, sel: Selector, x: nat)
    requires WellFormed(a, bound) && id in a
    requires x in Ancestors(a, bound, id) && Matches(a, bound, sel, x)
    ensures HasMatchingAncestor(a, bound, id, sel)
    decreases id
  {
    var p := a[id].parent.value;
    assert Ancestors(a, bound, id) == [p] + Ancestors(a, bound, p);
    if x != p {
      MatchingAncestorFound(a, bound, p, sel, x);
    }
  }

  /** When `has_matching_ancestor` holds, one of the proper ancestors matches. */
  lemma {:induction false} MatchingAncestorWitness(a: Arena, bound: nat, id: nat, sel: Selector) returns (x: nat)
    requires WellFormed(a, bound) && id in a
    requires HasMatchingAncestor(a, bound, id, sel)
    ensures x in Ancestors(a, bound, id) && Matches(a, bound, sel, x)
    decreases id
  {
    var p := a[id].parent.value;
    assert Ancestors(a, bound, id) == [p] + Ancestors(a, bound, p);
    if Matches(a, bound, sel, p) {
      x := p;
    } else {
      x := MatchingAncestorWitness(a, bound, p, sel);
    }
  }

  /** Some proper ancestor matches exactly when `has_matching_ancestor` says so. */
  lemma AncestorMatchIffSomeAncestor(a: Arena, bound: nat, id: nat, sel: Selector)
    requires WellFormed(a, bound) && id in a
    ensures HasMatchingAncestor(a, bound, id, sel)
        <==> exists x :: x in Ancestors(a, bound, id) && Matches(a, bound, sel, x)
  {
    if HasMatchingAncestor(a, bound, id, sel) {
      var x := MatchingAncestorWitness(a, bound, id, sel);
    }
    forall x | x in Ancestors(a, bound, id) && Matches(a, bound, sel, x)
      ensures HasMatchingAncestor(a, bound, id, sel)
    {
      MatchingAncestorFound(a, bound, id, sel, x);
    }
  }

  /** A descendant selector matches when its subject matches the node and its left side some proper ancestor. */
  lemma DescendantMatches(a: Arena, bound: nat, ancestor: Selector, subject: Selector, id: nat)
    requires WellFormed(a, bound) && id in a
    ensures Matches(a, bound, Descendant(ancestor, subject), id)
        <==> Matches(a, bound, subject, id)
             && exists x :: x in Ancestors(a, bound, id) && Matches(a, bound, ancestor, x)
  {
    AncestorMatchIffSomeAncestor(a, bound, id, ancestor);
  }

  /** A child selector matches when its subject matches the node and its left side the node's parent. */
  lemma ChildMatches(a: Arena, bound: nat, parent: Selector, subject: Selector, id: nat)
    requires WellFormed(a, bound) && id in a
    ensures Matches(a, bound, Child(parent, subject), id)
        <==> Matches(a, bound, subject, id)
             && |Ancestors(a, bound, id)| > 0 && Matches(a, bound, parent, Ancestors(a, bound, id)[0])
  {
  }

  /** A child match is also a descendant match: the parent is the nearest ancestor. */
  lemma ChildImpliesDescendant(a: Arena, bound: nat, parent: Selector, subject: Selector, id: nat)
    requires WellFormed(a, bound) && id in a
    requires Matches(a, bound, Child(parent, subject), id)
    ensures Matches(a, bound, Descendant(parent, subject), id)
  {
  }

  /** Class selectors look for a whole token of the `class` attribute; only elements match type, class and id. */
  lemma SimpleSelectorMatches(a: Arena, bound: nat, id: nat, name: string)
    requires WellFormed(a, bound) && id in a
    ensures Matches(a, bound, Class(name), id)
        <==> a[id].kind.Element? && "class" in a[id].kind.attributes
             && exists i :: 0 <= i < |SplitWhitespace(a[id].kind.attributes["class"])|
                  && SplitWhitespace(a[id].kind.attributes["class"])[i] == name
    ensures !a[id].kind.Element? ==> !Matches(a, bound, Type(name), id) && !Matches(a, bound, Id(name), id)
  {
    var k := a[id].kind;
    if k.Element? && "class" in k.attributes {
      var ws := SplitWhitespace(k.attributes["class"]);
      assert Matches(a, bound, Class(name), id) == (name in ws);
      if name in ws {
        var i :| 0 <= i < |ws| && ws[i] == name;
        assert SplitWhitespace(a[id].kind.attributes["class"])[i] == name;
      } else {
        assert forall i :: 0 <= i < |ws| ==> ws[i] != name;
      }
    }
  }

  /** Sibling combinators, attribute selectors, pseudo-classes, pseudo-elements and groups never match. */
  lemma UnsupportedNeverMatch(a: Arena, bound: nat, sel: Selector, id: nat)
    requires WellFormed(a, bound) && id in a
    requires sel.AdjacentSibling? || sel.GeneralSibling? || sel.Attribute? || sel.PseudoClass?
             || sel.PseudoElement? || sel.Group?
    ensures !Matches(a, bound, sel, id)
  {
  }
}
