// Style sheets: their values, declarations and rules, the one-rule
// token-driven `CSSParser::parse_stylesheet`, and the line-oriented
// `parse_css`.

module CssStylesheet {
  import opened Wrappers
  import opened Text
  import opened CssSelectors
  import CssTokenizer
  import Dom

  type Token = CssTokenizer.CssToken

  /** A declared value; numbers are kept exact rather than as 32-bit floats. */
  datatype CssValue =
    | Keyword(word: string)
    | Quoted(text: string)
    | Number(number: real)
    | Dimension(number: real, unit: string)
    | Percentage(number: real)
    | Color(color: string)
    | Url(url: string)
    | Function(name: string, args: seq<CssValue>)
    | List(items: seq<CssValue>)

  datatype Declaration = Declaration(property: string, value: CssValue, important: bool)

  datatype Rule = Rule(selectors: seq<Selector>, declarations: seq<Declaration>, specificity: Specificity)

  datatype Stylesheet = Stylesheet(rules: seq<Rule>, sourceUrl: Option<string>)

  datatype CssError =
    | ParseError(pos: nat, message: string)
    | InvalidSelector(message: string)
    | InvalidPropertyValue(message: string)
    | NetworkError(message: string)

  /** Some declarations in front of a parse outcome; an error stays the error. */
  function Prepend(ds: seq<Declaration>, r: Result<seq<Declaration>, CssError>): Result<seq<Declaration>, CssError> {
    match r
    case Ok(rest) => Ok(ds + rest)
    case Err(e) => Err(e)
  }

  lemma PrependNothing(r: Result<seq<Declaration>, CssError>)
    ensures Prepend([], r) == r
  {
    if r.Ok? {
      assert [] + r.value == r.value;
    }
  }

  lemma PrependTwice(ds: seq<Declaration>, d: Declaration, r: Result<seq<Declaration>, CssError>)
    ensures Prepend(ds, Prepend([d], r)) == Prepend(ds + [d], r)
  {
    if r.Ok? {
      assert ds + ([d] + r.value) == (ds + [d]) + r.value;
    }
  }

  // ---------------------------------------------------------------------
  // `CSSParser`: what each step reads
  // ---------------------------------------------------------------------

  /** Comments and the lone-slash Whitespace token are what `skip_whitespace_and_comments` passes over. */
  predicate IsTrivia(t: Token) {
    t.Comment? || t.Whitespace?
  }

  /**
   * `skip_whitespace_and_comments` as the source writes it: at the first
   * token that is not trivia the cursor steps back ONE character, which puts
   * back only the last character of that token.
   */
  function SkipTriviaAsWritten(cs: seq<char>, p: nat): (q: nat)
    requires p <= |cs|
    ensures q <= |cs|
    decreases |cs| - p
  {
    var s := CssTokenizer.NextTokenAt(cs, p);
    CssTokenizer.NextTokenAdvances(cs, p);
    if s.value.Eof? then s.pos
    else if IsTrivia(s.value) then SkipTriviaAsWritten(cs, s.pos)
    else if s.pos > 0 then s.pos - 1
    else s.pos
  }

  /** The skip with the token put back whole: the cursor returns to where that token's read began. */
  function SkipTrivia(cs: seq<char>, p: nat): (q: nat)
    requires p <= |cs|
    ensures p <= q <= |cs|
    decreases |cs| - p
  {
    var s := CssTokenizer.NextTokenAt(cs, p);
    CssTokenizer.NextTokenAdvances(cs, p);
    if s.value.Eof? then s.pos
    else if IsTrivia(s.value) then SkipTrivia(cs, s.pos)
    else p
  }

  /** The first token from `p` on that is not trivia (Eof if none). */
  function SignificantToken(cs: seq<char>, p: nat): Scan<Token>
    requires p <= |cs|
    decreases |cs| - p
  {
    var s := CssTokenizer.NextTokenAt(cs, p);
    CssTokenizer.NextTokenAdvances(cs, p);
    if !s.value.Eof? && IsTrivia(s.value) then SignificantToken(cs, s.pos) else s
  }

  /** After the corrected skip, the next token read is the first significant one. */
  lemma {:induction false} SkipTriviaPutsBack(cs: seq<char>, p: nat)
    requires p <= |cs|
    ensures CssTokenizer.NextTokenAt(cs, SkipTrivia(cs, p)) == SignificantToken(cs, p)
    decreases |cs| - p
  {
    var s := CssTokenizer.NextTokenAt(cs, p);
    CssTokenizer.NextTokenAdvances(cs, p);
    CssTokenizer.NextTokenEof(cs, p);
    if s.value.Eof? {
      CssTokenizer.NextTokenEof(cs, s.pos);
    } else if IsTrivia(s.value) {
      SkipTriviaPutsBack(cs, s.pos);
    }
  }

  /** `parse_simple_rule`'s declaration loop: `name: keyword` pairs and stray semicolons up to `}`. */
  function DeclarationsFrom(cs: seq<char>, p: nat): Result<seq<Declaration>, CssError>
    requires p <= |cs|
    decreases |cs| - p
  {
    var s := CssTokenizer.NextTokenAt(cs, p);
    CssTokenizer.NextTokenAdvances(cs, p);
    match s.value
    case RightBrace => Ok([])
    case Semicolon => DeclarationsFrom(cs, s.pos)
    case Ident(property) =>
      var c := CssTokenizer.NextTokenAt(cs, s.pos);
      CssTokenizer.NextTokenAdvances(cs, s.pos);
      if !c.value.Colon? then Err(ParseError(0, "Expected ':'"))
      else
        var v := CssTokenizer.NextTokenAt(cs, c.pos);
        CssTokenizer.NextTokenAdvances(cs, c.pos);
        if !v.value.Ident? then Err(ParseError(0, "Expected value"))
        else Prepend([Declaration(property, Keyword(v.value.name), false)], DeclarationsFrom(cs, v.pos))
    case _ => Err(ParseError(0, "Expected property or '}'"))
  }

  /** The specificity every parsed rule is given: that of the type selector `div`. */
  const RuleSpecificity := Calculate(Type("div"))

  /** `parse_simple_rule`: an identifier as a type selector, `{`, then the declarations. */
  function SimpleRuleAt(cs: seq<char>, p: nat): Result<Rule, CssError>
    requires p <= |cs|
  {
    var s := CssTokenizer.NextTokenAt(cs, p);
    CssTokenizer.NextTokenAdvances(cs, p);
    if !s.value.Ident? then Err(InvalidSelector("Expected type selector"))
    else
      var b := CssTokenizer.NextTokenAt(cs, s.pos);
      CssTokenizer.NextTokenAdvances(cs, s.pos);
      if !b.value.LeftBrace? then Err(ParseError(0, "Expected '{'"))
      else match DeclarationsFrom(cs, b.pos)
        case Err(e) => Err(e)
        case Ok(ds) => Ok(Rule([Type(s.value.name)], ds, RuleSpecificity))
  }

  /** `parse_stylesheet` once the cursor is at `q`: at most one rule, and none when that rule fails to parse. */
  function StylesheetFrom(cs: seq<char>, q: nat): Stylesheet
    requires q <= |cs|
  {
    var rules := if q < |cs| then (match SimpleRuleAt(cs, q) case Ok(r) => [r] case Err(_) => []) else [];
    Stylesheet(rules, None)
  }

  /** `parse_stylesheet` on a fresh parser, as the source writes it. */
  function ParseStylesheetAsWritten(cs: seq<char>): Stylesheet {
    StylesheetFrom(cs, SkipTriviaAsWritten(cs, 0))
  }

  /** `parse_stylesheet` on a fresh parser, with the first token put back whole. */
  function ParseStylesheet(cs: seq<char>): Stylesheet {
    StylesheetFrom(cs, SkipTrivia(cs, 0))
  }

  /** A parsed style sheet has at most one rule, with one type selector, keyword values and the type specificity. */
  lemma StylesheetShape(cs: seq<char>, q: nat)
    requires q <= |cs|
    ensures var sheet := StylesheetFrom(cs, q);
      |sheet.rules| <= 1 && sheet.sourceUrl == None
      && forall r :: r in sheet.rules ==>
           |r.selectors| == 1 && r.selectors[0].Type? && r.specificity == Calculate(r.selectors[0])
           && forall d :: d in r.declarations ==> d.value.Keyword? && !d.important
  {
    if q < |cs| {
      var s := CssTokenizer.NextTokenAt(cs, q);
      CssTokenizer.NextTokenAdvances(cs, q);
      if s.value.Ident? {
        var b := CssTokenizer.NextTokenAt(cs, s.pos);
        CssTokenizer.NextTokenAdvances(cs, s.pos);
        DeclarationsAreKeywords(cs, b.pos);
      }
    }
  }

  lemma {:induction false} DeclarationsAreKeywords(cs: seq<char>, p: nat)
    requires p <= |cs|
    ensures DeclarationsFrom(cs, p).Ok? ==>
      forall d :: d in DeclarationsFrom(cs, p).value ==> d.value.Keyword? && !d.important
    decreases |cs| - p
  {
    var s := CssTokenizer.NextTokenAt(cs, p);
    CssTokenizer.NextTokenAdvances(cs, p);
    if s.value.Semicolon? {
      DeclarationsAreKeywords(cs, s.pos);
    } else if s.value.Ident? {
      var c := CssTokenizer.NextTokenAt(cs, s.pos);
      CssTokenizer.NextTokenAdvances(cs, s.pos);
      if c.value.Colon? {
        var v := CssTokenizer.NextTokenAt(cs, c.pos);
        CssTokenizer.NextTokenAdvances(cs, c.pos);
        if v.value.Ident? {
          DeclarationsAreKeywords(cs, v.pos);
        }
      }
    }
  }

  /**
   * The written skip stops one character before the end of the first
   * significant token, or at the end of the input when only trivia
   * remain.
   */
  lemma {:induction false} SkipTriviaAsWrittenStepsBack(cs: seq<char>, p: nat)
    requires p <= |cs|
    ensures var t := SignificantToken(cs, p);
      (t.value.Eof? ==> SkipTriviaAsWritten(cs, p) == t.pos)
      && (!t.value.Eof? ==> t.pos > 0 && SkipTriviaAsWritten(cs, p) == t.pos - 1)
    decreases |cs| - p
  {
    var s := CssTokenizer.NextTokenAt(cs, p);
    CssTokenizer.NextTokenAdvances(cs, p);
    if !s.value.Eof? && IsTrivia(s.value) {
      SkipTriviaAsWrittenStepsBack(cs, s.pos);
    }
  }

  /** When only trivia remain, the search for a significant token ends at the end of the input. */
  lemma {:induction false} SignificantEofAtEnd(cs: seq<char>, p: nat)
    requires p <= |cs|
    ensures SignificantToken(cs, p).value.Eof? ==> SignificantToken(cs, p).pos == |cs|
    decreases |cs| - p
  {
    var s := CssTokenizer.NextTokenAt(cs, p);
    CssTokenizer.NextTokenAdvances(cs, p);
    CssTokenizer.NextTokenEof(cs, p);
    if !s.value.Eof? && IsTrivia(s.value) {
      SignificantEofAtEnd(cs, s.pos);
    }
  }

  /**
   * With the token put back whole, a parsed rule's selector is the first
   * significant token. As written, the selector is instead the identifier
   * read from the last character of that token.
   */
  lemma ParsedSelectorIsFirstToken(cs: seq<char>)
    ensures var sheet := ParseStylesheet(cs);
      sheet.rules != [] ==>
        SignificantToken(cs, 0).value.Ident?
        && sheet.rules[0].selectors == [Type(SignificantToken(cs, 0).value.name)]
    ensures var sheet := ParseStylesheetAsWritten(cs); var t := SignificantToken(cs, 0);
      sheet.rules != [] ==>
        !t.value.Eof? && t.pos > 0
        && CssTokenizer.NextTokenAt(cs, t.pos - 1).value.Ident?
        && sheet.rules[0].selectors == [Type(CssTokenizer.NextTokenAt(cs, t.pos - 1).value.name)]
  {
    SkipTriviaPutsBack(cs, 0);
    SkipTriviaAsWrittenStepsBack(cs, 0);
    var t := SignificantToken(cs, 0);
    if t.value.Eof? {
      CssTokenizer.NextTokenAdvances(cs, 0);
      SignificantEofAtEnd(cs, 0);
    }
  }

  /** The declarations of `div { color: red; }`, read from just after its `{`. */
  lemma ExampleDeclarations(cs: string)
    requires cs == "div { color: red; }"
    ensures DeclarationsFrom(cs, 5) == Ok([Declaration("color", Keyword("red"), false)])
  {
    ExampleDeclarationsTail(cs);
    CssTokenizer.RuleTokensProperty(cs);
    CssTokenizer.RuleTokensValue(cs);
    var d := Declaration("color", Keyword("red"), false);
    assert DeclarationsFrom(cs, 5) == Prepend([d], DeclarationsFrom(cs, 16));
    assert [d] + [] == [d];
  }

  lemma ExampleDeclarationsTail(cs: string)
    requires cs == "div { color: red; }"
    ensures DeclarationsFrom(cs, 16) == Ok([])
  {
    CssTokenizer.RuleTokensValue(cs);
    CssTokenizer.RuleTokensClose(cs);
    assert DeclarationsFrom(cs, 17) == Ok([]);
  }

  /** `parse_stylesheet` as written on `div { color: red; }`: the selector keeps only its last letter. */
  lemma AsWrittenKeepsLastLetter(cs: string)
    requires cs == "div { color: red; }"
    ensures SkipTriviaAsWritten(cs, 0) == 2
    ensures ParseStylesheetAsWritten(cs).rules
         == [Rule([Type("v")], [Declaration("color", Keyword("red"), false)], RuleSpecificity)]
  {
    CssTokenizer.RuleTokensSelector(cs);
    RuleFromLastLetter(cs);
  }

  lemma RuleFromLastLetter(cs: string)
    requires cs == "div { color: red; }"
    ensures SimpleRuleAt(cs, 2)
         == Ok(Rule([Type("v")], [Declaration("color", Keyword("red"), false)], RuleSpecificity))
  {
    CssTokenizer.RuleTokensSelector(cs);
    assert cs[2] == 'v' && cs[3] == ' ';
    CssTokenizer.IdentExample(cs, 2, 3);
    assert cs[2..3] == [cs[2]];
    ExampleDeclarations(cs);
    RuleFromTokens(cs, 2, 3, 5, "v");
  }

  /** A rule read from an identifier, then `{`, then declarations that parse. */
  lemma RuleFromTokens(cs: seq<char>, p: nat, q: nat, b: nat, name: string)
    requires p <= q <= b <= |cs|
    requires CssTokenizer.NextTokenAt(cs, p) == Scan(CssTokenizer.Ident(name), q)
    requires CssTokenizer.NextTokenAt(cs, q) == Scan(CssTokenizer.LeftBrace, b)
    requires DeclarationsFrom(cs, b).Ok?
    ensures SimpleRuleAt(cs, p) == Ok(Rule([Type(name)], DeclarationsFrom(cs, b).value, RuleSpecificity))
  {
  }

  /** The corrected `parse_stylesheet` on `div { color: red; }`: the whole selector. */
  lemma CorrectedKeepsSelector(cs: string)
    requires cs == "div { color: red; }"
    ensures SkipTrivia(cs, 0) == 0
    ensures ParseStylesheet(cs).rules
         == [Rule([Type("div")], [Declaration("color", Keyword("red"), false)], RuleSpecificity)]
  {
    CssTokenizer.RuleTokensSelector(cs);
    ExampleDeclarations(cs);
    RuleFromTokens(cs, 0, 3, 5, "div");
  }

  // ---------------------------------------------------------------------
  // The parser object
  // ---------------------------------------------------------------------

  class CssParser {
    const tokenizer: CssTokenizer.CssTokenizer

    constructor (input: string)
      ensures fresh(tokenizer)
      ensures tokenizer.input == input && tokenizer.position == 0
    {
      tokenizer := new CssTokenizer.CssTokenizer(input);
    }

    /**
     * `parse_stylesheet`: skip the leading trivia, stepping back one
     * character as the source does, then read one rule if any input is left.
     */
    method ParseStylesheet() returns (r: Result<Stylesheet, CssError>)
      requires tokenizer.position <= |tokenizer.input|
      modifies tokenizer
      ensures r == Ok(StylesheetFrom(tokenizer.input, SkipTriviaAsWritten(tokenizer.input, old(tokenizer.position))))
    {
      SkipWhitespaceAndComments();
      var rules := [];
      if tokenizer.position < |tokenizer.input| {
        var rule := ParseSimpleRule();
        if rule.Ok? {
          rules := [rule.value];
        }
      }
      return Ok(Stylesheet(rules, None));
    }

    /**
     * `skip_whitespace_and_comments`: at the first significant token the
     * cursor steps back one character, as the source writes it.
     */
    method SkipWhitespaceAndComments()
      requires tokenizer.position <= |tokenizer.input|
      modifies tokenizer
      ensures tokenizer.position == SkipTriviaAsWritten(tokenizer.input, old(tokenizer.position))
    {
      while true
        invariant tokenizer.position <= |tokenizer.input|
        invariant SkipTriviaAsWritten(tokenizer.input, tokenizer.position)
               == SkipTriviaAsWritten(tokenizer.input, old(tokenizer.position))
        decreases |tokenizer.input| - tokenizer.position
      {
        CssTokenizer.NextTokenAdvances(tokenizer.input, tokenizer.position);
        var t := tokenizer.NextToken();
        if t.Eof? {
          return;
        }
        if !IsTrivia(t) {
          if tokenizer.position > 0 {
            tokenizer.position := tokenizer.position - 1;
          }
          return;
        }
      }
    }

    /** `parse_simple_rule`. */
    method ParseSimpleRule() returns (r: Result<Rule, CssError>)
      requires tokenizer.position <= |tokenizer.input|
      modifies tokenizer
      ensures r == SimpleRuleAt(tokenizer.input, old(tokenizer.position))
    {
      CssTokenizer.NextTokenAdvances(tokenizer.input, tokenizer.position);
      var t := tokenizer.NextToken();
      if !t.Ident? {
        return Err(InvalidSelector("Expected type selector"));
      }
      CssTokenizer.NextTokenAdvances(tokenizer.input, tokenizer.position);
      var brace := tokenizer.NextToken();
      if !brace.LeftBrace? {
        return Err(ParseError(0, "Expected '{'"));
      }
      var ds := ReadDeclarations();
      if ds.Err? {
        return Err(ds.error);
      }
      return Ok(Rule([Type(t.name)], ds.value, Calculate(Type("div"))));
    }

    /** The declaration loop of `parse_simple_rule`. */
    method ReadDeclarations() returns (r: Result<seq<Declaration>, CssError>)
      requires tokenizer.position <= |tokenizer.input|
      modifies tokenizer
      ensures r == DeclarationsFrom(tokenizer.input, old(tokenizer.position))
    {
      var declarations: seq<Declaration> := [];
      PrependNothing(DeclarationsFrom(tokenizer.input, tokenizer.position));
      while true
        invariant tokenizer.position <= |tokenizer.input|
        invariant DeclarationsFrom(tokenizer.input, old(tokenizer.position))
               == Prepend(declarations, DeclarationsFrom(tokenizer.input, tokenizer.position))
        decreases |tokenizer.input| - tokenizer.position
      {
        ghost var p := tokenizer.position;
        CssTokenizer.NextTokenAdvances(tokenizer.input, p);
        var t := tokenizer.NextToken();
        if t.RightBrace? {
          assert declarations + [] == declarations;
          return Ok(declarations);
        } else if t.Semicolon? {
        } else if t.Ident? {
          CssTokenizer.NextTokenAdvances(tokenizer.input, tokenizer.position);
          var colon := tokenizer.NextToken();
          if !colon.Colon? {
            return Err(ParseError(0, "Expected ':'"));
          }
          CssTokenizer.NextTokenAdvances(tokenizer.input, tokenizer.position);
          var value := tokenizer.NextToken();
          if !value.Ident? {
            return Err(ParseError(0, "Expected value"));
          }
          var d := Declaration(t.name, Keyword(value.name), false);
          PrependTwice(declarations, d, DeclarationsFrom(tokenizer.input, tokenizer.position));
          declarations := declarations + [d];
        } else {
          return Err(ParseError(0, "Expected property or '}'"));
        }
      }
    }
  }

  // ---------------------------------------------------------------------
  // `parse_css`: the line-oriented reader
  // ---------------------------------------------------------------------

  /** A selector as `parse_css` reads it: `.name` a class, `#name` an id, anything else a type. */
  function SelectorOfText(t: string): Selector {
    if StartsWith(t, ".") then Class(t[1..])
    else if StartsWith(t, "#") then Id(t[1..])
    else Type(t)
  }

  /** The text of a class, id or type selector. */
  function SelectorText(sel: Selector): string {
    match sel
    case Class(name) => "." + name
    case Id(name) => "#" + name
    case Type(name) => name
    case _ => []
  }

  /** Reading a selector's text and writing it back gives the text unchanged. */
  lemma SelectorOfTextRoundTrip(t: string)
    ensures SelectorOfText(t).Class? || SelectorOfText(t).Id? || SelectorOfText(t).Type?
    ensures SelectorText(SelectorOfText(t)) == t
  {
    if StartsWith(t, ".") || StartsWith(t, "#") {
      assert t == t[..1] + t[1..];
    }
  }

  /** Every class and id selector, and every type selector whose name starts with neither `.` nor `#`, is read back from its text. */
  lemma SelectorTextRoundTrip(sel: Selector)
    requires sel.Class? || sel.Id? || (sel.Type? && !StartsWith(sel.tag, ".") && !StartsWith(sel.tag, "#"))
    ensures SelectorOfText(SelectorText(sel)) == sel
  {
    var t := SelectorText(sel);
    if !sel.Type? {
      assert t[1..] == (if sel.Class? then sel.className else sel.idName);
    }
  }

  /** A value as `parse_css` reads it: `#...` a colour, a number (exponent allowed) before `px` a length, `0` a number, anything else a keyword. */
  function ValueOfText(v: string): CssValue {
    if StartsWith(v, "#") then Color(v)
    else if EndsWith(v, "px") then
      match CssTokenizer.ParseFloat(v[..|v| - 2])
      case Some(n) => Dimension(n, "px")
      case None => Keyword(v)
    else if v == "0" then Number(0.0)
    else Keyword(v)
  }

  /** How a value's kind follows from its text, and that no text is lost. */
  lemma ValueClassification(v: string)
    ensures ValueOfText(v).Color? <==> StartsWith(v, "#")
    ensures ValueOfText(v).Color? ==> ValueOfText(v).color == v
    ensures ValueOfText(v).Number? <==> v == "0"
    ensures ValueOfText(v).Dimension? <==>
      !StartsWith(v, "#") && EndsWith(v, "px") && CssTokenizer.IsFloat(v[..|v| - 2])
    ensures ValueOfText(v).Dimension? ==>
      ValueOfText(v) == Dimension(CssTokenizer.ParseFloat(v[..|v| - 2]).value, "px")
    ensures ValueOfText(v).Keyword? ==> ValueOfText(v).word == v
    ensures ValueOfText(v).Color? || ValueOfText(v).Number? || ValueOfText(v).Dimension? || ValueOfText(v).Keyword?
  {
    if v == "0" {
      assert v[..1] == "0";
      assert !StartsWith(v, "#") && !EndsWith(v, "px");
    }
  }

  /** A whole number of pixels reads back as that length. */
  lemma ValueOfPixels(n: nat)
    ensures ValueOfText(NatToString(n) + "px") == Dimension(n as real, "px")
  {
    var digits := NatToString(n);
    var v := digits + "px";
    assert v[0] == digits[0];
    assert !StartsWith(v, "#");
    assert v[|v| - 2..] == "px";
    assert v[..|v| - 2] == digits;
    CssTokenizer.ParseNatToString(n);
    CssTokenizer.ParseFloatWithoutExponent(digits);
  }

  /** A length written with an exponent is read at its value. */
  lemma ValueOfExponent()
    ensures ValueOfText("1e2px") == Dimension(100.0, "px")
  {
    var v := "1e2px";
    assert v[0] == '1' && v[..1] != "#";
    assert v[|v| - 2..] == "px";
    assert v[..|v| - 2] == "1e2";
    CssTokenizer.ParseFloatHundred();
  }

  /** One `;`-separated piece: `property: value` once trimmed, or nothing when it has no colon. */
  function DeclarationOfText(part: string): Option<Declaration> {
    var decl := Trim(part);
    if ':' in decl then
      var pieces := SplitOn(decl, ':');
      if |pieces| >= 2 then Some(Declaration(Trim(pieces[0]), ValueOfText(Trim(pieces[1])), false))
      else None
    else None
  }

  /** A piece yields a declaration exactly when it holds a colon; the property never holds one, and nothing is important. */
  lemma DeclarationOfTextShape(part: string)
    ensures DeclarationOfText(part).Some? <==> ':' in part
    ensures DeclarationOfText(part).Some? ==>
      var d := DeclarationOfText(part).value;
      ':' !in d.property && !d.important
  {
    var decl := Trim(part);
    if ':' in decl {
      TrimAddsNothing(part, ':');
      SplitOnSeparates(decl, ':');
      SplitOnRoundTrip(decl, ':');
      var pieces := SplitOn(decl, ':');
      if ':' in Trim(pieces[0]) {
        TrimAddsNothing(pieces[0], ':');
      }
    } else if ':' in part {
      TrimKeepsNonWhitespace(part, ':');
    }
  }

  /** The declarations of the pieces, in order, skipping those without a colon. */
  function DeclarationsOfParts(parts: seq<string>): seq<Declaration> {
    if parts == [] then []
    else
      var rest := DeclarationsOfParts(parts[1..]);
      match DeclarationOfText(parts[0])
      case Some(d) => [d] + rest
      case None => rest
  }

  /** The declarations of a rule's gathered text. */
  function DeclarationsOfText(body: string): seq<Declaration> {
    DeclarationsOfParts(SplitOn(body, ';'))
  }

  /** Every declaration comes from a piece with a colon, has a property without one, and is not important. */
  lemma {:induction false} DeclarationsOfPartsShape(parts: seq<string>)
    ensures forall d :: d in DeclarationsOfParts(parts) ==> ':' !in d.property && !d.important
    ensures DeclarationsOfParts(parts) == [] <==> forall i :: 0 <= i < |parts| ==> ':' !in parts[i]
  {
    if parts != [] {
      DeclarationsOfPartsShape(parts[1..]);
      DeclarationOfTextShape(parts[0]);
      if DeclarationsOfParts(parts) == [] {
        forall i | 0 <= i < |parts|
          ensures ':' !in parts[i]
        {
          if i > 0 {
            assert parts[i] == parts[1..][i - 1];
          }
        }
      }
    }
  }

  /**
   * The lines after a rule's opening line that `parse_css` appends to its
   * body: every line up to and including the first one holding `}`, or up
   * to the end. The line at `j` is taken even when the body already holds
   * `}`.
   */
  function Gather(lines: seq<string>, j: nat, body: string): (r: (string, nat))
    requires j <= |lines|
    ensures j <= r.1 <= |lines|
    decreases |lines| - j
  {
    if j == |lines| then (body, j)
    else if '}' in lines[j] then (body + lines[j], j + 1)
    else Gather(lines, j + 1, body + lines[j])
  }

  /** What `Gather` appends, and where it stops. */
  lemma {:induction false} GatherTakesThrough(lines: seq<string>, j: nat, body: string)
    requires j <= |lines|
    ensures var r := Gather(lines, j, body);
      (forall k :: j <= k < r.1 - 1 ==> '}' !in lines[k])
      && (r.1 == |lines| || (j < r.1 && '}' in lines[r.1 - 1]))
      && (j < |lines| ==> j < r.1)
      && r.0 == body + Dom.Concat(lines[j..r.1])
    decreases |lines| - j
  {
    if j < |lines| {
      assert lines[j..j + 1] == [lines[j]];
      assert Dom.Concat([lines[j]]) == lines[j] + Dom.Concat([]);
      if '}' !in lines[j] {
        GatherTakesThrough(lines, j + 1, body + lines[j]);
        var r := Gather(lines, j + 1, body + lines[j]);
        assert lines[j..r.1] == [lines[j]] + lines[j + 1..r.1];
        Dom.ConcatAppend([lines[j]], lines[j + 1..r.1]);
      }
    }
  }

  /** A rule whose declarations are empty is dropped; otherwise it gets one selector and zero specificity. */
  function RuleOfText(selectorText: string, body: string): seq<Rule> {
    var declarations := DeclarationsOfText(body);
    if declarations == [] then [] else [Rule([SelectorOfText(selectorText)], declarations, Zero)]
  }

  /** Whether `parse_css` passes over a trimmed line without looking for a rule. */
  predicate Skipped(line: string) {
    line == [] || StartsWith(line, "/" + "*") || StartsWith(line, "//") || '{' !in line
  }

  /** The rules `parse_css` reads from the line at `i` on. */
  function RulesFrom(lines: seq<string>, i: nat): seq<Rule>
    requires i <= |lines|
    decreases |lines| - i
  {
    if i == |lines| then []
    else
      var line := Trim(lines[i]);
      if Skipped(line) then RulesFrom(lines, i + 1)
      else
        var parts := SplitOn(line, '{');
        if |parts| < 2 then RulesFrom(lines, i + 1)
        else
          var g := Gather(lines, i + 1, parts[1]);
          RuleOfText(Trim(parts[0]), g.0) + RulesFrom(lines, g.1)
  }

  /** `parse_css`. */
  function ParseCss(input: string): Stylesheet {
    Stylesheet(RulesFrom(Lines(input), 0), None)
  }

  /** Every rule `parse_css` yields has one class, id or type selector, zero specificity, and declarations that are neither empty nor important. */
  lemma {:induction false} RulesFromShape(lines: seq<string>, i: nat)
    requires i <= |lines|
    ensures forall r :: r in RulesFrom(lines, i) ==>
      |r.selectors| == 1 && (r.selectors[0].Class? || r.selectors[0].Id? || r.selectors[0].Type?)
      && r.specificity == Zero && r.declarations != []
      && forall d :: d in r.declarations ==> !d.important && ':' !in d.property
    decreases |lines| - i
  {
    if i < |lines| {
      var line := Trim(lines[i]);
      if Skipped(line) {
        RulesFromShape(lines, i + 1);
      } else {
        var parts := SplitOn(line, '{');
        if |parts| < 2 {
          RulesFromShape(lines, i + 1);
        } else {
          var g := Gather(lines, i + 1, parts[1]);
          RulesFromShape(lines, g.1);
          SelectorOfTextRoundTrip(Trim(parts[0]));
          DeclarationsOfPartsShape(SplitOn(g.0, ';'));
        }
      }
    }
  }

  lemma ParseCssShape(input: string)
    ensures ParseCss(input).sourceUrl == None
    ensures forall r :: r in ParseCss(input).rules ==>
      |r.selectors| == 1 && (r.selectors[0].Class? || r.selectors[0].Id? || r.selectors[0].Type?)
      && r.specificity == Zero && r.declarations != []
      && forall d :: d in r.declarations ==> !d.important && ':' !in d.property
  {
    RulesFromShape(Lines(input), 0);
  }

  /** A line that opens a rule contributes that rule, and reading goes on after its body. */
  lemma RulesFromOpening(lines: seq<string>, i: nat)
    requires i < |lines| && !Skipped(Trim(lines[i])) && |SplitOn(Trim(lines[i]), '{')| >= 2
    ensures var parts := SplitOn(Trim(lines[i]), '{');
      var g := Gather(lines, i + 1, parts[1]);
      RulesFrom(lines, i) == RuleOfText(Trim(parts[0]), g.0) + RulesFrom(lines, g.1)
  {
  }

  /**
   * A rule whose opening line already holds `}` still takes the next line
   * into its body, with every line after it up to the next one holding `}`.
   */
  lemma OpeningLineSwallowsNext(lines: seq<string>, i: nat)
    requires i + 1 < |lines| && !Skipped(Trim(lines[i])) && |SplitOn(Trim(lines[i]), '{')| >= 2
    ensures var parts := SplitOn(Trim(lines[i]), '{');
      var g := Gather(lines, i + 1, parts[1]);
      i + 2 <= g.1
      && RulesFrom(lines, i) == RuleOfText(Trim(parts[0]), parts[1] + Dom.Concat(lines[i + 1..g.1])) + RulesFrom(lines, g.1)
  {
    var parts := SplitOn(Trim(lines[i]), '{');
    RulesFromOpening(lines, i);
    GatherTakesThrough(lines, i + 1, parts[1]);
  }

  /** The two lines of the swallowing example: two one-line rules. */
  const SwallowLines: seq<string> := ["a{x:y}", "b{z:w}"]

  lemma SwallowOpening(line: string)
    requires line == "a{x:y}"
    ensures Trim(line) == line && !Skipped(line)
    ensures Trim(line[..1]) == "a"
  {
    assert line[0] == 'a' && line[1] == '{';
    assert NoWhitespace(line[..1]);
    TrimNoWhitespace(line[..1]);
    forall i | 0 <= i < |line|
      ensures !IsWhitespace(line[i])
    {
    }
    TrimNoWhitespace(line);
  }

  lemma SwallowSelector(line: string)
    requires line == "a{x:y}"
    ensures SplitOn(line, '{') == ["a", "x:y}"]
  {
    assert line == "a" + ['{'] + "x:y}";
    SplitOnAfter("a", '{', "x:y}");
    SplitOnNone("x:y}", '{');
  }

  lemma SwallowValue(v: string)
    requires v == "y}b{z"
    ensures NoWhitespace(v) && ValueOfText(v) == Keyword(v)
  {
    assert v[0] == 'y' && v[1] == '}' && v[2] == 'b' && v[3] == '{' && v[4] == 'z';
    assert !StartsWith(v, "#");
    assert !EndsWith(v, "px") by {
      assert v[3..][0] == '{';
    }
  }

  lemma SwallowColonSplit(body: string)
    requires body == "x:y}b{z:w}"
    ensures |SplitOn(body, ':')| >= 2 && SplitOn(body, ':')[0] == "x" && SplitOn(body, ':')[1] == "y}b{z"
  {
    assert body == "x" + [':'] + ("y}b{z" + [':'] + "w}");
    assert ':' !in "y}b{z";
    SplitOnAfter("x", ':', "y}b{z" + [':'] + "w}");
    SplitOnAfter("y}b{z", ':', "w}");
  }

  lemma SwallowBodyChars(body: string)
    requires body == "x:y}b{z:w}"
    ensures ';' !in body && ':' in body && NoWhitespace(body)
  {
    assert body[1] == ':';
    forall i | 0 <= i < |body|
      ensures body[i] != ';' && !IsWhitespace(body[i])
    {
    }
  }

  lemma SwallowDeclarationText(body: string)
    requires body == "x:y}b{z:w}"
    ensures ';' !in body
    ensures DeclarationOfText(body) == Some(Declaration("x", Keyword("y}b{z"), false))
  {
    SwallowColonSplit(body);
    SwallowBodyChars(body);
    TrimNoWhitespace(body);
    assert NoWhitespace("x");
    TrimNoWhitespace("x");
    SwallowValue("y}b{z");
    TrimNoWhitespace("y}b{z");
  }

  lemma SwallowDeclaration(body: string)
    requires body == "x:y}b{z:w}"
    ensures DeclarationsOfText(body) == [Declaration("x", Keyword("y}b{z"), false)]
  {
    SwallowDeclarationText(body);
    SplitOnNone(body, ';');
    var d := Declaration("x", Keyword("y}b{z"), false);
    assert [body][1..] == [];
    assert DeclarationsOfParts([body]) == [d] + DeclarationsOfParts([]);
    assert [d] + [] == [d];
  }

  /** The first rule's body in the swallowing example: its own rest and the whole next line. */
  lemma SwallowGather(lines: seq<string>)
    requires lines == SwallowLines
    ensures Gather(lines, 1, "x:y}") == ("x:y}b{z:w}", 2)
  {
    assert lines[1] == "b{z:w}";
    assert lines[1][5] == '}';
    assert "x:y}" + "b{z:w}" == "x:y}b{z:w}";
  }

  /**
   * `parse_css` on two one-line rules: the first rule's body takes in the
   * second line, so the second rule's selector ends up inside a value and
   * the second rule is lost.
   */
  lemma OneLineRuleSwallowsNext(lines: seq<string>)
    requires lines == SwallowLines
    ensures RulesFrom(lines, 0) == [Rule([Type("a")], [Declaration("x", Keyword("y}b{z"), false)], Zero)]
  {
    SwallowOpening(lines[0]);
    SwallowSelector(lines[0]);
    SwallowGather(lines);
    RulesFromOpening(lines, 0);
    SwallowDeclaration("x:y}b{z:w}");
  }

  /** `parse_css`: the loop over the input's lines. */
  method ReadCss(input: string) returns (sheet: Stylesheet)
    ensures sheet == ParseCss(input)
  {
    var lines := Lines(input);
    var rules: seq<Rule> := [];
    var i := 0;
    while i < |lines|
      invariant i <= |lines|
      invariant rules + RulesFrom(lines, i) == RulesFrom(lines, 0)
      decreases |lines| - i
    {
      var found, next := ReadLine(lines, i);
      assert rules + (found + RulesFrom(lines, next)) == (rules + found) + RulesFrom(lines, next);
      rules := rules + found;
      i := next;
    }
    return Stylesheet(rules, None);
  }

  /** One turn of `parse_css`'s loop: the line at `i`, and the body lines it pulls after it. */
  method ReadLine(lines: seq<string>, i: nat) returns (found: seq<Rule>, next: nat)
    requires i < |lines|
    ensures i < next <= |lines|
    ensures RulesFrom(lines, i) == found + RulesFrom(lines, next)
  {
    var line := Trim(lines[i]);
    next := i + 1;
    found := [];
    if Skipped(line) {
      return;
    }
    var parts := SplitOn(line, '{');
    if |parts| < 2 {
      return;
    }
    var selectorText := Trim(parts[0]);
    var body := GatherBody(lines, next, parts[1]);
    next := body.1;
    var declarations := ReadDeclarations(body.0);
    RulesFromOpening(lines, i);
    if declarations != [] {
      found := [Rule([SelectorOfText(selectorText)], declarations, Zero)];
    }
  }

  /** The inner loop of `parse_css` that appends the following lines to a rule's body. */
  method GatherBody(lines: seq<string>, start: nat, first: string) returns (r: (string, nat))
    requires start <= |lines|
    ensures r == Gather(lines, start, first)
  {
    var body := first;
    var j := start;
    var closed := false;
    while j < |lines| && !closed
      invariant start <= j <= |lines|
      invariant !closed ==> Gather(lines, j, body) == Gather(lines, start, first)
      invariant closed ==> (body, j) == Gather(lines, start, first)
      decreases |lines| - j, if closed then 0 else 1
    {
      var next := lines[j];
      j := j + 1;
      body := body + next;
      if '}' in next {
        closed := true;
      }
    }
    return (body, j);
  }

  /** The declaration loop of `parse_css` over the `;`-separated pieces of a body. */
  method ReadDeclarations(body: string) returns (declarations: seq<Declaration>)
    ensures declarations == DeclarationsOfText(body)
  {
    var parts := SplitOn(body, ';');
    declarations := [];
    var k := 0;
    while k < |parts|
      invariant k <= |parts|
      invariant declarations + DeclarationsOfParts(parts[k..]) == DeclarationsOfParts(parts)
    {
      assert parts[k..][1..] == parts[k + 1..];
      var d := DeclarationOfText(parts[k]);
      if d.Some? {
        declarations := declarations + [d.value];
      }
      k := k + 1;
    }
    assert parts[k..] == [];
  }
}
