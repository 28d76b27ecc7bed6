/**
 * The CSS tokenizer: a cursor over the characters of a style sheet that
 * emits identifiers, strings, numbers, colour and url functions,
 * punctuation, comments and end of input.
 *
 * As for the HTML tokenizer, every scanning step of the source is a method
 * of `CssTokenizer` that moves `position` in a loop, proved against a
 * function of the characters and the starting position (`StringAt`,
 * `NumberAt`, `IdentAt`, `CommentOrSlashAt`, `NextTokenAt`). Numbers are
 * read into exact decimal values.
 */
module CssTokenizer {
  import opened Wrappers
  import opened Text

  datatype CssToken =
    | Ident(name: string)
    | QuotedString(text: string)
    | Number(value: real)
    | Dimension(value: real, unit: string)
    | Percentage(value: real)
    | Color(text: string)
    | Url(url: string)
    | LeftBrace | RightBrace | LeftParen | RightParen | LeftBracket | RightBracket
    | Colon | Semicolon | Comma | Period | Hash | Asterisk | Plus | GreaterThan
    | Tilde | Equals | Pipe | Exclamation
    | Whitespace
    | Comment(text: string)
    | Eof

  /** The single characters that are tokens on their own. */
  function Punctuation(c: char): Option<CssToken> {
    match c
    case '{' => Some(LeftBrace)
    case '}' => Some(RightBrace)
    case '(' => Some(LeftParen)
    case ')' => Some(RightParen)
    case '[' => Some(LeftBracket)
    case ']' => Some(RightBracket)
    case ':' => Some(Colon)
    case ';' => Some(Semicolon)
    case ',' => Some(Comma)
    case '.' => Some(Period)
    case '#' => Some(Hash)
    case '*' => Some(Asterisk)
    case '+' => Some(Plus)
    case '>' => Some(GreaterThan)
    case '~' => Some(Tilde)
    case '=' => Some(Equals)
    case '|' => Some(Pipe)
    case '!' => Some(Exclamation)
    case _ => None
  }

  // ---------------------------------------------------------------------
  // Reading numbers
  // ---------------------------------------------------------------------

  function Pow10(n: nat): (r: nat)
    ensures r >= 1
  {
    if n == 0 then 1 else 10 * Pow10(n - 1)
  }

  predicate AllDigits(s: string) {
    forall i :: 0 <= i < |s| ==> IsAsciiDigit(s[i])
  }

  /** The position of the first `.` in `s`, or `|s|`. */
  function DotIndex(s: string): (k: nat)
    ensures k <= |s|
    ensures forall i :: 0 <= i < k ==> s[i] != '.'
    ensures k < |s| ==> s[k] == '.'
  {
    if s == [] then 0
    else if s[0] == '.' then 0
    else 1 + DotIndex(s[1..])
  }

  /** Digits with at most one `.` among them, and at least one digit: the decimal forms `f32::from_str` accepts. */
  predicate IsDecimal(s: string) {
    var k := DotIndex(s);
    AllDigits(s[..k]) && (k < |s| ==> AllDigits(s[k + 1..])) && (exists i :: 0 <= i < |s| && IsAsciiDigit(s[i]))
  }

  /** The value of a decimal: the digits before the point, plus those after it scaled down. */
  function DecimalValue(s: string): real
    requires IsDecimal(s)
  {
    var k := DotIndex(s);
    if k == |s| then DigitsValue(s) as real
    else DigitsValue(s[..k]) as real + DigitsValue(s[k + 1..]) as real / Pow10(|s| - k - 1) as real
  }

  /**
   * `str::parse::<f32>` on text made of an optional sign and a decimal: its
   * exact value, or `None` when the text is not of that form.
   */
  function ParseF32(s: string): (r: Option<real>)
    ensures r.Some? <==> (if s != [] && (s[0] == '-' || s[0] == '+') then IsDecimal(s[1..]) else IsDecimal(s))
  {
    if s != [] && (s[0] == '-' || s[0] == '+') then
      if IsDecimal(s[1..]) then Some(if s[0] == '-' then -DecimalValue(s[1..]) else DecimalValue(s[1..])) else None
    else if IsDecimal(s) then Some(DecimalValue(s))
    else None
  }

  /** Reading the digits of a natural number gives the number. */
  lemma ParseNatToString(n: nat)
    ensures ParseF32(NatToString(n)) == Some(n as real)
  {
    var s := NatToString(n);
    assert IsAsciiDigit(s[0]);
    assert DotIndex(s) == |s|;
    assert s[..|s|] == s;
    DigitsValueOfNatToString(n);
  }

  /** A sign alone, or a point alone, is not a number. */
  lemma SignOrPointAlone()
    ensures ParseF32("-") == None && ParseF32(".") == None && ParseF32("") == None
  {
    assert DotIndex(".") == 0;
  }

  /** The position of the first `e` or `E` in `s`, or `|s|`. */
  function ExpIndex(s: string): (k: nat)
    ensures k <= |s|
    ensures forall i :: 0 <= i < k ==> s[i] != 'e' && s[i] != 'E'
    ensures k < |s| ==> s[k] == 'e' || s[k] == 'E'
  {
    if s == [] then 0
    else if s[0] == 'e' || s[0] == 'E' then 0
    else 1 + ExpIndex(s[1..])
  }

  /** Text after a leading `+` or `-`, if it has one. */
  function Unsigned(s: string): (u: string)
    ensures |u| <= |s|
  {
    if s != [] && (s[0] == '-' || s[0] == '+') then s[1..] else s
  }

  /** An exponent: an optional sign and at least one digit. */
  predicate IsExponent(s: string) {
    Unsigned(s) != [] && AllDigits(Unsigned(s))
  }

  function ExponentValue(s: string): int
    requires IsExponent(s)
  {
    var u := Unsigned(s);
    if s[0] == '-' then -(DigitsValue(u) as int) else DigitsValue(u)
  }

  /** `x` times ten to the power `e`. */
  function Scale(x: real, e: int): real {
    if e >= 0 then x * Pow10(e) as real else x / Pow10(-e) as real
  }

  /** The finite forms `f32::from_str` accepts: an optional sign, a decimal, and an optional exponent. */
  predicate IsFloat(s: string) {
    var u := Unsigned(s);
    var k := ExpIndex(u);
    IsDecimal(u[..k]) && (k < |u| ==> IsExponent(u[k + 1..]))
  }

  /**
   * `str::parse::<f32>` on any text, for its finite forms: the exact
   * value, or `None` when the text is not a sign, a decimal and an
   * optional exponent.
   */
  function ParseFloat(s: string): (r: Option<real>)
    ensures r.Some? <==> IsFloat(s)
  {
    var u := Unsigned(s);
    var k := ExpIndex(u);
    if IsFloat(s) then
      var m := Scale(DecimalValue(u[..k]), if k < |u| then ExponentValue(u[k + 1..]) else 0);
      Some(if s != [] && s[0] == '-' then -m else m)
    else None
  }

  /** Without an exponent, `ParseFloat` reads a text exactly as `ParseF32` does. */
  lemma ParseFloatWithoutExponent(s: string)
    requires forall i :: 0 <= i < |s| ==> s[i] != 'e' && s[i] != 'E'
    ensures ParseFloat(s) == ParseF32(s)
  {
    var u := Unsigned(s);
    assert ExpIndex(u) == |u| by {
      assert forall i :: 0 <= i < |u| ==> u[i] != 'e' && u[i] != 'E' by {
        if u != s {
          assert forall i :: 0 <= i < |u| ==> u[i] == s[i + 1];
        }
      }
    }
    assert u[..|u|] == u;
    assert IsFloat(s) <==> IsDecimal(u);
    if IsDecimal(u) {
      assert Scale(DecimalValue(u), 0) == DecimalValue(u) by {
        assert Pow10(0) == 1;
      }
    }
  }

  /** Exact values of one-digit decimals and exponents. */
  lemma DigitFacts()
    ensures IsDecimal("1") && DecimalValue("1") == 1.0
    ensures IsExponent("2") && ExponentValue("2") == 2
    ensures IsExponent("-1") && ExponentValue("-1") == -1
    ensures IsExponent("+3") && ExponentValue("+3") == 3
    ensures Pow10(1) == 10 && Pow10(2) == 100 && Pow10(3) == 1000
  {
    assert DotIndex("1") == 1 && "1"[..1] == "1" && IsAsciiDigit("1"[0]);
    assert Unsigned("-1") == "1" && Unsigned("+3") == "3";
  }

  /** An exponent scales the decimal by a power of ten. */
  lemma ParseFloatHundred()
    ensures ParseFloat("1e2") == Some(100.0)
  {
    DigitFacts();
    var a := "1e2";
    assert Unsigned(a) == a && ExpIndex(a) == 1;
    assert a[..1] == "1" && a[2..] == "2";
  }

  /** The exponent letter may be upper case, and the exponent negative. */
  lemma ParseFloatTenth()
    ensures ParseFloat("1E-1") == Some(0.1)
  {
    DigitFacts();
    var b := "1E-1";
    assert Unsigned(b) == b && ExpIndex(b) == 1;
    assert b[..1] == "1" && b[2..] == "-1";
  }

  /** A signed decimal with a signed exponent. */
  lemma ParseFloatSigned()
    ensures ParseFloat("-2.5e+3") == Some(-2500.0)
  {
    DigitFacts();
    var s := "-2.5e+3";
    var c := "2.5e+3";
    assert Unsigned(s) == c;
    assert ExpIndex(c) == 3;
    assert c[..3] == "2.5" && c[4..] == "+3";
    var m := "2.5";
    assert DotIndex(m) == 1 && m[..1] == "2" && m[2..] == "5";
    assert IsAsciiDigit(m[0]);
    assert DigitsValue("2") == 2 && DigitsValue("5") == 5;
    assert IsDecimal(m) && DecimalValue(m) == 2.5;
  }

  /** An exponent needs digits, and a mantissa needs a digit. */
  lemma ParseFloatIncomplete()
    ensures ParseFloat("1e") == None && ParseFloat("e2") == None
  {
    assert Unsigned("1e") == "1e" && ExpIndex("1e") == 1 && "1e"[2..] == [];
    assert Unsigned("e2") == "e2" && ExpIndex("e2") == 0 && "e2"[..0] == [];
  }

  // ---------------------------------------------------------------------
  // Where the scanning loops stop
  // ---------------------------------------------------------------------

  /** The character classes the tokenizer's loops run over. */
  datatype Run = IdentChars | UnitChars | NumberChars

  predicate InRun(k: Run, c: char) {
    match k
    case IdentChars => IsAlphanumeric(c) || c == '_' || c == '-'
    case UnitChars => IsAlphanumeric(c) || c == '-'
    case NumberChars => IsAsciiDigit(c) || c == '.'
  }

  /** The first position at or after `p` whose character is not in the run `k`, or the end. */
  function RunEnd(cs: seq<char>, p: nat, k: Run): (r: nat)
    ensures p <= r && (r == p || r <= |cs|)
    ensures r < |cs| ==> !InRun(k, cs[r])
    ensures p <= |cs| ==> r <= |cs|
    decreases |cs| - p
  {
    if p < |cs| && InRun(k, cs[p]) then RunEnd(cs, p + 1, k) else p
  }

  /** Everything `RunEnd` passes over is in the run. */
  lemma {:induction false} RunEndSkipsRun(cs: seq<char>, p: nat, k: Run)
    ensures forall i :: p <= i < RunEnd(cs, p, k) ==> InRun(k, cs[i])
    decreases |cs| - p
  {
    if p < |cs| && InRun(k, cs[p]) {
      RunEndSkipsRun(cs, p + 1, k);
    }
  }

  /** A run that ends at `e` is exactly what `RunEnd` passes over. */
  lemma {:induction false} RunEndAt(cs: seq<char>, p: nat, e: nat, k: Run)
    requires p <= e <= |cs|
    requires forall i :: p <= i < e ==> InRun(k, cs[i])
    requires e == |cs| || !InRun(k, cs[e])
    ensures RunEnd(cs, p, k) == e
    decreases e - p
  {
    if p < e {
      RunEndAt(cs, p + 1, e, k);
    }
  }

  /** `i` starts the comment closer `*` `/`. */
  predicate CommentCloserAt(cs: seq<char>, i: nat) {
    i + 1 < |cs| && cs[i] == '*' && cs[i + 1] == '/'
  }

  /** Where the comment loop stops: at the first closer, or where fewer than two characters remain. */
  function CommentCloseFrom(cs: seq<char>, i: nat): (r: nat)
    ensures i <= r
    ensures i + 1 <= |cs| ==> r + 1 <= |cs|
    ensures r + 1 < |cs| ==> CommentCloserAt(cs, r)
    decreases |cs| - i
  {
    if i + 1 >= |cs| || CommentCloserAt(cs, i) then i else CommentCloseFrom(cs, i + 1)
  }

  /** No closer starts before the place the comment loop stops. */
  lemma {:induction false} CommentCloseIsFirst(cs: seq<char>, i: nat)
    ensures forall j :: i <= j < CommentCloseFrom(cs, i) ==> !CommentCloserAt(cs, j)
    decreases |cs| - i
  {
    if !(i + 1 >= |cs| || CommentCloserAt(cs, i)) {
      CommentCloseIsFirst(cs, i + 1);
    }
  }

  // ---------------------------------------------------------------------
  // What each step reads
  // ---------------------------------------------------------------------

  /** `parse_string` at the opening quote `p`: the text up to the matching quote, or to the end when there is none. */
  function StringAt(cs: seq<char>, p: nat): (s: Scan<CssToken>)
    requires p < |cs|
    ensures p < s.pos <= |cs| && s.value.QuotedString?
  {
    var e := FindChar(cs, p + 1, cs[p]);
    Scan(QuotedString(Slice(cs, p + 1, e)), PastIfInside(cs, e))
  }

  /**
   * `parse_number` at `p`: an optional sign and a run of digits and points.
   * Text that is not a number gives 0; a number is followed by a unit (a
   * letter, then letters, digits and `-`), by `%`, or by nothing.
   */
  function NumberAt(cs: seq<char>, p: nat): (s: Scan<CssToken>)
    requires p < |cs| && (IsAsciiDigit(cs[p]) || cs[p] == '-' || cs[p] == '+')
    ensures p < s.pos <= |cs|
  {
    var start := if cs[p] == '-' || cs[p] == '+' then p + 1 else p;
    var e := RunEnd(cs, start, NumberChars);
    match ParseF32(Slice(cs, p, e))
    case None => Scan(Number(0.0), e)
    case Some(v) =>
      if e < |cs| && IsAsciiAlpha(cs[e]) then
        var u := RunEnd(cs, e, UnitChars);
        Scan(Dimension(v, Slice(cs, e, u)), u)
      else if e < |cs| && cs[e] == '%' then Scan(Percentage(v), e + 1)
      else Scan(Number(v), e)
  }

  /** The names of the colour functions. */
  predicate IsColorFunction(name: string) {
    name == "rgb" || name == "rgba" || name == "hsl" || name == "hsla"
  }

  /**
   * `parse_identifier` at `p`: a run of letters, digits, `_` and `-`. Followed
   * by `(`, the name `url` reads a trimmed URL up to `)`, and a colour
   * function name reads its arguments up to `)`.
   */
  function IdentAt(cs: seq<char>, p: nat): (s: Scan<CssToken>)
    requires p <= |cs|
    ensures p <= s.pos <= |cs|
  {
    var e := RunEnd(cs, p, IdentChars);
    var name := Slice(cs, p, e);
    if e < |cs| && cs[e] == '(' && name == "url" then
      var u := SkipWs(cs, e + 1);
      var c := FindChar(cs, u, ')');
      Scan(Url(Trim(Slice(cs, u, c))), PastIfInside(cs, c))
    else if e < |cs| && cs[e] == '(' && IsColorFunction(name) then
      var c := FindChar(cs, e + 1, ')');
      Scan(Color(name + "(" + Slice(cs, e + 1, c) + ")"), PastIfInside(cs, c))
    else Scan(Ident(name), e)
  }

  /** `parse_comment_or_slash` at a `/`: a comment up to the first closer (or the end), or else a lone slash read as whitespace. */
  function CommentOrSlashAt(cs: seq<char>, p: nat): (s: Scan<CssToken>)
    requires p < |cs|
    ensures p < s.pos <= |cs|
  {
    if p + 1 < |cs| && cs[p + 1] == '*' then
      var e := CommentCloseFrom(cs, p + 2);
      if e + 1 < |cs| then Scan(Comment(Slice(cs, p + 2, e)), e + 2)
      else Scan(Comment(Slice(cs, p + 2, |cs|)), |cs|)
    else Scan(Whitespace, p + 1)
  }

  /** The token starting at `q`, a non-whitespace character: the dispatch of `next_token`. */
  function TokenAt(cs: seq<char>, q: nat): (s: Scan<CssToken>)
    requires q < |cs|
  {
    var c := cs[q];
    if Punctuation(c).Some? then Scan(Punctuation(c).value, q + 1)
    else if c == '"' || c == '\'' then StringAt(cs, q)
    else if IsAsciiDigit(c) || c == '-' then NumberAt(cs, q)
    else if IsAsciiAlpha(c) || c == '_' then IdentAt(cs, q)
    else if c == '/' then CommentOrSlashAt(cs, q)
    else Scan(Whitespace, q + 1)
  }

  /** `next_token` at `p`: whitespace skipped, then Eof at the end or the token there. */
  function NextTokenAt(cs: seq<char>, p: nat): Scan<CssToken> {
    var q := SkipWs(cs, p);
    if q >= |cs| then Scan(Eof, q) else TokenAt(cs, q)
  }

  // ---------------------------------------------------------------------
  // Properties of the steps
  // ---------------------------------------------------------------------

  /** Every token read at a character is not Eof, takes at least that character, and stays inside the input. */
  lemma TokenProgress(cs: seq<char>, q: nat)
    requires q < |cs|
    ensures var s := TokenAt(cs, q);
      s.value != Eof && q < s.pos <= |cs|
  {
    var c := cs[q];
    if Punctuation(c).Some? {
      assert Punctuation(c).value != Eof;
    } else if c == '"' || c == '\'' {
    } else if IsAsciiDigit(c) || c == '-' {
    } else if IsAsciiAlpha(c) || c == '_' {
      assert InRun(IdentChars, c);
      assert RunEnd(cs, q, IdentChars) > q;
    }
  }

  /**
   * `next_token` returns Eof exactly when only whitespace is left; otherwise
   * it reads the token at the first non-whitespace position and stops inside
   * the input.
   */
  lemma NextTokenEof(cs: seq<char>, p: nat)
    ensures NextTokenAt(cs, p).value == Eof <==> SkipWs(cs, p) >= |cs|
    ensures NextTokenAt(cs, p).value == Eof ==> NextTokenAt(cs, p).pos == SkipWs(cs, p)
    ensures p <= |cs| ==> NextTokenAt(cs, p).pos <= |cs|
  {
    if SkipWs(cs, p) < |cs| {
      TokenProgress(cs, SkipWs(cs, p));
    }
  }

  /** A token other than Eof moves the cursor forward, and the cursor never leaves the input. */
  lemma NextTokenAdvances(cs: seq<char>, p: nat)
    requires p <= |cs|
    ensures NextTokenAt(cs, p).value != Eof ==> p < NextTokenAt(cs, p).pos
    ensures NextTokenAt(cs, p).pos <= |cs|
  {
    NextTokenEof(cs, p);
    if SkipWs(cs, p) < |cs| {
      TokenProgress(cs, SkipWs(cs, p));
    }
  }

  /** A punctuation character is read as its token and moves the cursor by exactly one. */
  lemma PunctuationStep(cs: seq<char>, p: nat)
    requires SkipWs(cs, p) < |cs| && Punctuation(cs[SkipWs(cs, p)]).Some?
    ensures NextTokenAt(cs, p) == Scan(Punctuation(cs[SkipWs(cs, p)]).value, SkipWs(cs, p) + 1)
  {
  }

  /**
   * An identifier absorbs every letter, digit, `_` and `-` that follows, and
   * stops at the first other character: the name is exactly that run.
   */
  lemma IdentifierRun(cs: seq<char>, p: nat)
    requires p < |cs| && (IsAsciiAlpha(cs[p]) || cs[p] == '_')
    ensures IdentAt(cs, p).value.Ident? ==>
      var name := IdentAt(cs, p).value.name;
      var e := IdentAt(cs, p).pos;
      name != [] && name == cs[p..e] && (forall i :: 0 <= i < |name| ==> InRun(IdentChars, name[i]))
      && (e < |cs| ==> !InRun(IdentChars, cs[e]))
  {
    var e := RunEnd(cs, p, IdentChars);
    RunEndSkipsRun(cs, p, IdentChars);
    SliceIsSubsequence(cs, p, e);
  }

  /**
   * A string ends at the first quote of its own kind after the opening one:
   * the text between them is the value and the cursor moves past the closing
   * quote. Without a closing quote the value is the rest of the input and
   * the cursor moves to the end.
   */
  lemma StringBetweenQuotes(cs: seq<char>, p: nat)
    requires p < |cs|
    ensures var s := StringAt(cs, p);
      (forall i :: 0 <= i < |s.value.text| ==> s.value.text[i] != cs[p])
      && (if exists i :: p < i < |cs| && cs[i] == cs[p]
          then s.pos - 1 < |cs| && cs[s.pos - 1] == cs[p] && s.value.text == cs[p + 1..s.pos - 1]
          else s.value.text == cs[p + 1..] && s.pos == |cs|)
  {
    var e := FindChar(cs, p + 1, cs[p]);
    FindCharSkipsOthers(cs, p + 1, cs[p]);
    SliceIsSubsequence(cs, p + 1, e);
  }

  /**
   * A comment runs from a slash and star to the first closer: the text between is the
   * value and the cursor moves past the closer. Without a closer the value
   * is the rest of the input and the cursor moves to the end. A `/` not
   * followed by `*` is read as whitespace and skipped.
   */
  lemma CommentBetweenDelimiters(cs: seq<char>, p: nat)
    requires p < |cs| && cs[p] == '/'
    ensures var s := CommentOrSlashAt(cs, p);
      if p + 1 < |cs| && cs[p + 1] == '*' then
        (forall j :: p + 2 <= j && j + 1 < s.pos - 1 ==> !CommentCloserAt(cs, j))
        && if exists j :: p + 2 <= j && CommentCloserAt(cs, j)
           then CommentCloserAt(cs, s.pos - 2) && s.value == Comment(cs[p + 2..s.pos - 2])
           else s.pos == |cs| && s.value == Comment(cs[p + 2..])
      else s == Scan(Whitespace, p + 1)
  {
    if p + 1 < |cs| && cs[p + 1] == '*' {
      var e := CommentCloseFrom(cs, p + 2);
      CommentCloseIsFirst(cs, p + 2);
      if e + 1 < |cs| {
        SliceIsSubsequence(cs, p + 2, e);
      } else {
        SliceIsSubsequence(cs, p + 2, |cs|);
      }
    }
  }

  /** The first two tokens of `div { color: red; }`: the selector and the brace. */
  lemma RuleTokensSelector(cs: string)
    requires cs == "div { color: red; }"
    ensures NextTokenAt(cs, 0) == Scan(Ident("div"), 3)
    ensures NextTokenAt(cs, 3) == Scan(LeftBrace, 5)
  {
    IdentExample(cs, 0, 3);
    assert cs[0..3] == "div";
    assert SkipWs(cs, 3) == 4;
  }

  /** The property tokens of `div { color: red; }`: the name and the colon. */
  lemma RuleTokensProperty(cs: string)
    requires cs == "div { color: red; }"
    ensures NextTokenAt(cs, 5) == Scan(Ident("color"), 11)
    ensures NextTokenAt(cs, 11) == Scan(Colon, 12)
  {
    assert SkipWs(cs, 5) == 6;
    IdentExample(cs, 6, 11);
    assert cs[6..11] == "color";
  }

  /** The value tokens of `div { color: red; }`: the keyword and the semicolon. */
  lemma RuleTokensValue(cs: string)
    requires cs == "div { color: red; }"
    ensures NextTokenAt(cs, 12) == Scan(Ident("red"), 16)
    ensures NextTokenAt(cs, 16) == Scan(Semicolon, 17)
  {
    assert SkipWs(cs, 12) == 13;
    IdentExample(cs, 13, 16);
    assert cs[13..16] == "red";
  }

  /** The last tokens of `div { color: red; }`: the closing brace, then Eof for good. */
  lemma RuleTokensClose(cs: string)
    requires cs == "div { color: red; }"
    ensures NextTokenAt(cs, 17) == Scan(RightBrace, 19)
    ensures NextTokenAt(cs, 19) == Scan(Eof, 19)
  {
    assert SkipWs(cs, 17) == 18;
  }

  /** A run of letters that ends before a character other than `(` reads as one identifier. */
  lemma IdentExample(cs: seq<char>, p: nat, e: nat)
    requires p < e < |cs| && cs[e] != '('
    requires forall i :: p <= i < e ==> IsAsciiAlpha(cs[i])
    requires !InRun(IdentChars, cs[e])
    ensures IsAsciiAlpha(cs[p]) && SkipWs(cs, p) == p
    ensures TokenAt(cs, p) == Scan(Ident(cs[p..e]), e)
  {
    RunEndAt(cs, p, e, IdentChars);
    SliceIsSubsequence(cs, p, e);
  }

  // ---------------------------------------------------------------------
  // The tokenizer object
  // ---------------------------------------------------------------------

  class CssTokenizer {
    /** The style sheet's characters. */
    const input: seq<char>
    /** The cursor, an index into `input`. */
    var position: nat

    /** `CSSTokenizer::new`: the cursor at the start. */
    constructor (input: seq<char>)
      ensures this.input == input && position == 0
    {
      this.input := input;
      position := 0;
    }

    /** `next_token`. */
    method NextToken() returns (t: CssToken)
      modifies this`position
      ensures Scan(t, position) == NextTokenAt(input, old(position))
    {
      SkipWhitespace();
      if position >= |input| {
        return Eof;
      }
      var c := input[position];
      var punctuation := Punctuation(c);
      if punctuation.Some? {
        position := position + 1;
        t := punctuation.value;
      } else if c == '"' || c == '\'' {
        t := ParseString();
      } else if IsAsciiDigit(c) || c == '-' {
        t := ParseNumber();
      } else if IsAsciiAlpha(c) || c == '_' {
        t := ParseIdentifier();
      } else if c == '/' {
        t := ParseCommentOrSlash();
      } else {
        position := position + 1;
        t := Whitespace;
      }
    }

    /** `skip_whitespace`. */
    method SkipWhitespace()
      modifies this`position
      ensures position == SkipWs(input, old(position))
    {
      while position < |input| && IsWhitespace(input[position])
        invariant SkipWs(input, position) == SkipWs(input, old(position))
        decreases |input| - position
      {
        position := position + 1;
      }
    }

    /** `parse_string`, at the opening quote. */
    method ParseString() returns (t: CssToken)
      requires position < |input|
      modifies this`position
      ensures Scan(t, position) == StringAt(input, old(position))
    {
      var quote := input[position];
      position := position + 1;
      var start := position;
      while position < |input|
        invariant start <= position <= |input|
        invariant FindChar(input, position, quote) == FindChar(input, start, quote)
        decreases |input| - position
      {
        if input[position] == quote {
          SliceIsSubsequence(input, start, position);
          t := QuotedString(input[start..position]);
          position := position + 1;
          return;
        }
        position := position + 1;
      }
      SliceIsSubsequence(input, start, |input|);
      t := QuotedString(input[start..|input|]);
      position := |input|;

    }

    /** Moves the cursor to the end of the run `k`. */
    method SkipRun(k: Run)
      requires position <= |input|
      modifies this`position
      ensures position == RunEnd(input, old(position), k)
    {
      while position < |input| && InRun(k, input[position])
        invariant position <= |input|
        invariant RunEnd(input, position, k) == RunEnd(input, old(position), k)
        decreases |input| - position
      {
        position := position + 1;
      }
    }

    /** `parse_number`. */
    method ParseNumber() returns (t: CssToken)
      requires position < |input| && (IsAsciiDigit(input[position]) || input[position] == '-' || input[position] == '+')
      modifies this`position
      ensures Scan(t, position) == NumberAt(input, old(position))
    {
      var start := position;
      if input[position] == '-' || input[position] == '+' {
        position := position + 1;
      }
      SkipRun(NumberChars);
      SliceIsSubsequence(input, start, position);
      var value := ParseF32(input[start..position]);
      if value.None? {
        return Number(0.0);
      }
      if position < |input| {
        var c := input[position];
        if IsAsciiAlpha(c) {
          var unitStart := position;
          SkipRun(UnitChars);
          SliceIsSubsequence(input, unitStart, position);
          return Dimension(value.value, input[unitStart..position]);
        } else if c == '%' {
          position := position + 1;
          return Percentage(value.value);
        }
      }
      t := Number(value.value);
    }

    /** Moves the cursor to the next `c`, or to the end. */
    method SkipTo(c: char)
      requires position <= |input|
      modifies this`position
      ensures position == FindChar(input, old(position), c)
    {
      while position < |input| && input[position] != c
        invariant position <= |input|
        invariant FindChar(input, position, c) == FindChar(input, old(position), c)
        decreases |input| - position
      {
        position := position + 1;
      }
    }

    /** `parse_identifier`, with the `url(...)` and colour functions. */
    method ParseIdentifier() returns (t: CssToken)
      requires position <= |input|
      modifies this`position
      ensures Scan(t, position) == IdentAt(input, old(position))
    {
      var start := position;
      SkipRun(IdentChars);
      SliceIsSubsequence(input, start, position);
      var name := input[start..position];
      if position < |input| && input[position] == '(' {
        if name == "url" {
          position := position + 1;
          SkipWhitespace();
          var urlStart := position;
          SkipTo(')');
          SliceIsSubsequence(input, urlStart, position);
          var url := Trim(input[urlStart..position]);
          if position < |input| {
            position := position + 1;
          }
          return Url(url);
        } else if IsColorFunction(name) {
          position := position + 1;
          var colorStart := position;
          SkipTo(')');
          SliceIsSubsequence(input, colorStart, position);
          var arguments := input[colorStart..position];
          if position < |input| {
            position := position + 1;
          }
          return Color(name + "(" + arguments + ")");
        }
      }
      t := Ident(name);
    }

    /** `parse_comment_or_slash`, at a `/`. */
    method ParseCommentOrSlash() returns (t: CssToken)
      requires position < |input|
      modifies this`position
      ensures Scan(t, position) == CommentOrSlashAt(input, old(position))
    {
      if position + 1 < |input| && input[position + 1] == '*' {
        position := position + 2;
        var start := position;
        while position + 1 < |input|
          invariant start <= position && start <= |input|
          invariant CommentCloseFrom(input, position) == CommentCloseFrom(input, start)
          decreases |input| - position
        {
          if input[position] == '*' && input[position + 1] == '/' {
            SliceIsSubsequence(input, start, position);
            t := Comment(input[start..position]);
            position := position + 2;
            return;
          }
          position := position + 1;
        }
        SliceIsSubsequence(input, start, |input|);
        t := Comment(input[start..|input|]);
        position := |input|;
      } else {
        position := position + 1;
        t := Whitespace;
      }
    }
  }
}
