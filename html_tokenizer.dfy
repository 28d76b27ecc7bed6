/**
 * The HTML tokenizer: a cursor over the decoded characters of the input that
 * emits start tags, end tags, text, comments, doctypes and end of input, and
 * decodes a small set of character references in text.
 *
 * Every scanning step of the source is a method of `Tokenizer` that moves
 * `charPosition` in a loop; each is proved against a function of the
 * characters and the starting position that says what the step reads and
 * where it stops (`TagNameAt`, `AttributeAt`, `NextTokenAt`, ...). The
 * properties the parser relies on (progress, the bound on the position, the
 * shape of names) are lemmas about those functions.
 */
module HtmlTokenizer {
  import opened Wrappers
  import opened Text

  datatype Token =
    | StartTag(name: string, attributes: map<string, string>, selfClosing: bool)
    | EndTag(name: string)
    | TextToken(text: string)
    | Comment(text: string)
    | Doctype(doctypeName: Option<string>, publicId: Option<string>, systemId: Option<string>, forceQuirks: bool)
    | Eof

  datatype ParseError =
    | InvalidUtf8(message: string)
    | UnexpectedEof
    | InvalidTagName(message: string)
    | InvalidAttribute(message: string)
    | ParseErrorAt(position: nat, message: string)

  // ---------------------------------------------------------------------
  // Where the scanning loops stop
  // ---------------------------------------------------------------------

  /** A tag name ends at whitespace, `>` or `/`. */
  predicate EndsTagName(c: char) {
    IsWhitespace(c) || c == '>' || c == '/'
  }

  /** An attribute name ends at whitespace, `=`, `>` or `/`. */
  predicate EndsAttributeName(c: char) {
    IsWhitespace(c) || c == '=' || c == '>' || c == '/'
  }

  function TagNameEnd(cs: seq<char>, p: nat): (r: nat)
    ensures p <= r && (r == p || r <= |cs|)
    ensures r < |cs| ==> EndsTagName(cs[r])
    ensures p <= |cs| ==> r <= |cs|
    decreases |cs| - p
  {
    if p < |cs| && !EndsTagName(cs[p]) then TagNameEnd(cs, p + 1) else p
  }

  /** A tag name read by `TagNameEnd` holds none of the characters that end it. */
  lemma {:induction false} TagNameEndSkipsNameChars(cs: seq<char>, p: nat)
    ensures forall i :: p <= i < TagNameEnd(cs, p) ==> !EndsTagName(cs[i])
    decreases |cs| - p
  {
    if p < |cs| && !EndsTagName(cs[p]) {
      TagNameEndSkipsNameChars(cs, p + 1);
    }
  }

  function AttributeNameEnd(cs: seq<char>, p: nat): (r: nat)
    ensures p <= r && (r == p || r <= |cs|)
    ensures r < |cs| ==> EndsAttributeName(cs[r])
    ensures p <= |cs| ==> r <= |cs|
    decreases |cs| - p
  {
    if p < |cs| && !EndsAttributeName(cs[p]) then AttributeNameEnd(cs, p + 1) else p
  }

  /** `i` starts the comment closer `-->`. */
  predicate CloserAt(cs: seq<char>, i: nat) {
    i + 2 < |cs| && cs[i] == '-' && cs[i + 1] == '-' && cs[i + 2] == '>'
  }

  /** Where the comment loop stops: at the first `-->`, or where fewer than three characters remain. */
  function CommentEnd(cs: seq<char>, i: nat): (r: nat)
    ensures i <= r
    ensures i + 2 <= |cs| ==> r + 2 <= |cs|
    ensures r + 2 < |cs| ==> CloserAt(cs, r)
    decreases |cs| - i
  {
    if i + 2 >= |cs| || CloserAt(cs, i) then i else CommentEnd(cs, i + 1)
  }

  /** No comment closer starts before `CommentEnd`. */
  lemma {:induction false} CommentEndIsFirst(cs: seq<char>, i: nat)
    ensures forall j :: i <= j < CommentEnd(cs, i) ==> j + 2 < |cs| && !CloserAt(cs, j)
    decreases |cs| - i
  {
    if !(i + 2 >= |cs| || CloserAt(cs, i)) {
      CommentEndIsFirst(cs, i + 1);
      assert CommentEnd(cs, i) == CommentEnd(cs, i + 1);
      forall j | i <= j < CommentEnd(cs, i) ensures j + 2 < |cs| && !CloserAt(cs, j) {
        if j == i {
          assert i + 2 < |cs| && !CloserAt(cs, i);
        }
      }
    } else {
      assert CommentEnd(cs, i) == i;
    }
  }

  // ---------------------------------------------------------------------
  // What each step reads
  // ---------------------------------------------------------------------

  /**
   * `parse_tag_name` at `p`: the characters up to whitespace, `>` or `/`,
   * trimmed and lowercased. An empty name is an error, after skipping past
   * the next `>`.
   */
  function TagNameAt(cs: seq<char>, p: nat): (s: Scan<Result<string, ParseError>>)
    requires p <= |cs|
    ensures p <= s.pos <= |cs|
  {
    var e := TagNameEnd(cs, p);
    if e == p then
      Scan(Err(InvalidTagName("Empty tag name - recovered")), PastIfInside(cs, FindChar(cs, p, '>')))
    else
      var t := Trim(Slice(cs, p, e));
      if t == [] then Scan(Err(InvalidTagName("Empty tag name after trimming")), e)
      else Scan(Ok(ToLower(t)), e)
  }

  /** A name as the tokenizer produces it: not empty, lowercase, and free of the characters that end it. */
  predicate IsLowerName(n: string) {
    n != [] && NoUpper(n) && forall i :: 0 <= i < |n| ==> !EndsTagName(n[i])
  }

  /** Tag names are trimmed and lowercased, and a successful read consumes the name. */
  lemma TagNameShape(cs: seq<char>, p: nat)
    requires p <= |cs|
    ensures var s := TagNameAt(cs, p);
      (s.value.Ok? ==> IsLowerName(s.value.value) && p < s.pos)
      && (s.value.Err? && p < |cs| ==> p < s.pos)
  {
    var e := TagNameEnd(cs, p);
    if e > p {
      TagNameEndSkipsNameChars(cs, p);
      SliceIsSubsequence(cs, p, e);
      var t := Slice(cs, p, e);
      assert NoWhitespace(t);
      TrimNoWhitespace(t);
      ToLowerIdempotent(t);
      var n := ToLower(t);
      forall i | 0 <= i < |n| ensures !EndsTagName(n[i]) {
        assert !EndsTagName(t[i]);
      }
    }
  }

  /** `parse_quoted_string` at `p`: the text between matching quotes, up to the end when unterminated. */
  function QuotedAt(cs: seq<char>, p: nat): (s: Scan<Option<string>>)
    requires p <= |cs|
    ensures p <= s.pos <= |cs|
  {
    if p >= |cs| || (cs[p] != '"' && cs[p] != '\'') then Scan(None, p)
    else
      var e := FindChar(cs, p + 1, cs[p]);
      Scan(Some(Slice(cs, p + 1, e)), PastIfInside(cs, e))
  }

  /**
   * `parse_attribute` at `p`: a trimmed, lowercased name, then `=` and a
   * quoted value, or the empty value when there is no `=` or no quote.
   */
  function AttributeAt(cs: seq<char>, p: nat): (s: Scan<Result<(string, string), ParseError>>)
    requires p <= |cs|
    ensures p <= s.pos <= |cs|
    ensures s.value.Ok? ==> p < s.pos
  {
    var e := AttributeNameEnd(cs, p);
    if e == p then Scan(Err(InvalidAttribute("Empty attribute name")), p)
    else
      var v := AttributeValueAt(cs, SkipWs(cs, e));
      Scan(Ok((ToLower(Trim(Slice(cs, p, e))), v.value)), v.pos)
  }

  /** The value of an attribute whose name is followed (after whitespace) by `q`: a quoted string after `=`, else empty. */
  function AttributeValueAt(cs: seq<char>, q: nat): (s: Scan<string>)
    requires q <= |cs|
    ensures q <= s.pos <= |cs|
  {
    if q < |cs| && cs[q] == '=' then
      var v := QuotedAt(cs, SkipWs(cs, q + 1));
      Scan(v.value.GetOr(""), v.pos)
    else Scan("", q)
  }

  /** An attribute with no `=` gets the empty value. */
  lemma AttributeWithoutValue(cs: seq<char>, p: nat)
    requires p <= |cs|
    requires AttributeNameEnd(cs, p) > p
    requires var q := SkipWs(cs, AttributeNameEnd(cs, p)); q >= |cs| || cs[q] != '='
    ensures AttributeAt(cs, p).value == Ok((ToLower(Trim(cs[p..AttributeNameEnd(cs, p)])), ""))
  {
    SliceIsSubsequence(cs, p, AttributeNameEnd(cs, p));
  }

  /**
   * The attribute loop of `parse_start_tag` from `p`: attributes are read
   * until `>` or `/>` or the end; a repeated name keeps the last value.
   */
  function AttributesFrom(cs: seq<char>, p: nat, attrs: map<string, string>): (s: Scan<Result<(map<string, string>, bool), ParseError>>)
    requires p <= |cs|
    ensures p <= s.pos <= |cs|
    decreases |cs| - p
  {
    if p >= |cs| then Scan(Ok((attrs, false)), p)
    else if cs[p] == '>' then Scan(Ok((attrs, false)), p + 1)
    else if cs[p] == '/' && p + 1 < |cs| && cs[p + 1] == '>' then Scan(Ok((attrs, true)), p + 2)
    else
      var a := AttributeAt(cs, p);
      match a.value
      case Err(e) => Scan(Err(e), a.pos)
      case Ok(nv) => AttributesFrom(cs, SkipWs(cs, a.pos), attrs[nv.0 := nv.1])
  }

  /** A successful attribute loop reported self-closing after `/>`, and otherwise stopped after `>` or at the end. */
  predicate ClosedBy(cs: seq<char>, s: Scan<Result<(map<string, string>, bool), ParseError>>) {
    s.value.Ok? ==>
      (s.value.value.1 ==> 2 <= s.pos <= |cs| && cs[s.pos - 2] == '/' && cs[s.pos - 1] == '>')
      && (!s.value.value.1 ==> s.pos == |cs| || (1 <= s.pos <= |cs| && cs[s.pos - 1] == '>'))
  }

  /** A tag reported self-closing ended with `/>`; any other ended with `>` or at the end of the input. */
  lemma {:induction false} AttributesEndAtClose(cs: seq<char>, p: nat, attrs: map<string, string>)
    requires p <= |cs|
    ensures ClosedBy(cs, AttributesFrom(cs, p, attrs))
    decreases |cs| - p
  {
    if p < |cs| && cs[p] != '>' && !(cs[p] == '/' && p + 1 < |cs| && cs[p + 1] == '>') {
      var a := AttributeAt(cs, p);
      if a.value.Ok? {
        var nv := a.value.value;
        assert AttributesFrom(cs, p, attrs) == AttributesFrom(cs, SkipWs(cs, a.pos), attrs[nv.0 := nv.1]);
        AttributesEndAtClose(cs, SkipWs(cs, a.pos), attrs[nv.0 := nv.1]);
      }
    }
  }

  /** Attributes already read are kept unless a later one has the same name. */
  lemma {:induction false} AttributesKept(cs: seq<char>, p: nat, attrs: map<string, string>, k: string)
    requires p <= |cs| && k in attrs
    ensures var s := AttributesFrom(cs, p, attrs);
      s.value.Ok? ==> k in s.value.value.0
    decreases |cs| - p
  {
    if p < |cs| && cs[p] != '>' && !(cs[p] == '/' && p + 1 < |cs| && cs[p + 1] == '>') {
      var a := AttributeAt(cs, p);
      if a.value.Ok? {
        var nv := a.value.value;
        assert AttributesFrom(cs, p, attrs) == AttributesFrom(cs, SkipWs(cs, a.pos), attrs[nv.0 := nv.1]);
        AttributesKept(cs, SkipWs(cs, a.pos), attrs[nv.0 := nv.1], k);
      }
    }
  }

  /** `parse_start_tag` with `<` at `p`. */
  function StartTagAt(cs: seq<char>, p: nat): (s: Scan<Result<Token, ParseError>>)
    requires p < |cs|
    ensures p < s.pos <= |cs|
    ensures s.value.Ok? ==> s.value.value.StartTag?
  {
    var n := TagNameAt(cs, p + 1);
    match n.value
    case Err(e) => Scan(Err(e), n.pos)
    case Ok(name) =>
      var a := AttributesFrom(cs, SkipWs(cs, n.pos), map[]);
      match a.value
      case Err(e) => Scan(Err(e), a.pos)
      case Ok(r) => Scan(Ok(StartTag(name, r.0, r.1)), a.pos)
  }

  /** `parse_end_tag` with `</` at `p`: the name, then everything up to and including the next `>`. */
  function EndTagAt(cs: seq<char>, p: nat): (s: Scan<Result<Token, ParseError>>)
    requires p + 1 < |cs|
    ensures p < s.pos <= |cs|
    ensures s.value.Ok? ==> s.value.value.EndTag?
  {
    var n := TagNameAt(cs, p + 2);
    match n.value
    case Err(e) => Scan(Err(e), n.pos)
    case Ok(name) => Scan(Ok(EndTag(name)), PastIfInside(cs, FindChar(cs, n.pos, '>')))
  }

  /**
   * `parse_comment`, entered at `q` just after `<!`: it skips two more
   * characters (meant to be the `--`), then reads up to `-->`.
   */
  function CommentFrom(cs: seq<char>, q: nat): (s: Scan<Result<Token, ParseError>>)
    requires q <= |cs|
    ensures q < s.pos <= |cs| + 2
    ensures s.value.Ok? && s.value.value.Comment?
  {
    var start := q + 2;
    var e := CommentEnd(cs, start);
    var content := if start + 2 < |cs| then Slice(cs, start, e) else [];
    Scan(Ok(Comment(content)), if e + 2 < |cs| then e + 3 else e)
  }

  /** A comment's text is everything between `<!--` and the first `-->` after it. */
  lemma CommentText(cs: seq<char>, q: nat, e: nat)
    requires q + 2 <= e && CloserAt(cs, e)
    requires forall j :: q + 2 <= j < e ==> !CloserAt(cs, j)
    ensures CommentFrom(cs, q) == Scan(Ok(Comment(cs[q + 2..e])), e + 3)
  {
    CommentEndIsFirst(cs, q + 2);
    SliceIsSubsequence(cs, q + 2, e);
  }

  /** `parse_processing_instruction` at `<?`: everything up to and including `>`, reported as a fixed comment. */
  function ProcessingInstructionAt(cs: seq<char>, p: nat): (s: Scan<Result<Token, ParseError>>)
    requires p < |cs|
    ensures p < s.pos <= |cs|
  {
    Scan(Ok(Comment("processing instruction")), PastIfInside(cs, FindChar(cs, p, '>')))
  }

  /** `parse_doctype`, entered at `q` just after `<!` with `DOCTYPE` (any case) there. */
  function DoctypeFrom(cs: seq<char>, q: nat): (s: Scan<Result<Token, ParseError>>)
    requires q + 7 < |cs|
    ensures q < s.pos <= |cs|
    ensures s.value.Ok? ==> s.value.value.Doctype? && !s.value.value.forceQuirks
  {
    var n := DoctypeNameAt(cs, SkipWs(cs, q + 7));
    match n.value
    case Err(e) => Scan(Err(e), n.pos)
    case Ok(name) =>
      var pub := PublicIdAt(cs, SkipWs(cs, n.pos));
      var sys := SystemIdAt(cs, SkipWs(cs, pub.pos));
      Scan(Ok(Doctype(name, pub.value, sys.value, false)), PastIfInside(cs, FindChar(cs, sys.pos, '>')))
  }

  /** The doctype name: a tag name when one starts at `a`, else none. */
  function DoctypeNameAt(cs: seq<char>, a: nat): (s: Scan<Result<Option<string>, ParseError>>)
    requires a <= |cs|
    ensures a <= s.pos <= |cs|
  {
    if a < |cs| && !IsWhitespace(cs[a]) then
      var t := TagNameAt(cs, a);
      match t.value
      case Err(e) => Scan(Err(e), t.pos)
      case Ok(name) => Scan(Ok(Some(name)), t.pos)
    else Scan(Ok(None), a)
  }

  /** The public identifier: a quoted string after the keyword `PUBLIC` (any case) at `b`, else none. */
  function PublicIdAt(cs: seq<char>, b: nat): (s: Scan<Option<string>>)
    requires b <= |cs|
    ensures b <= s.pos <= |cs|
  {
    if b + 6 < |cs| && ToUpper(Slice(cs, b, b + 6)) == "PUBLIC" then QuotedAt(cs, SkipWs(cs, b + 6)) else Scan(None, b)
  }

  /** The system identifier: a quoted string at `c`, if any. */
  function SystemIdAt(cs: seq<char>, c: nat): (s: Scan<Option<string>>)
    requires c <= |cs|
    ensures c <= s.pos <= |cs|
  {
    if c < |cs| then QuotedAt(cs, c) else Scan(None, c)
  }

  /** The keyword `DOCTYPE`, in any case, at `q` with at least one more character after it. */
  predicate DoctypeAhead(cs: seq<char>, q: nat) {
    q + 7 < |cs| && ToUpper(Slice(cs, q, q + 7)) == "DOCTYPE"
  }

  /** `parse_markup_declaration` with `<!` at `p`: a doctype when `DOCTYPE` follows (any case), else a comment. */
  function MarkupAt(cs: seq<char>, p: nat): (s: Scan<Result<Token, ParseError>>)
    requires p + 1 < |cs|
    ensures p < s.pos <= |cs| + 2
    ensures s.value.Err? ==> s.pos <= |cs|
  {
    var q := p + 2;
    if DoctypeAhead(cs, q) then DoctypeFrom(cs, q) else CommentFrom(cs, q)
  }

  /** `parse_text` at `p`: the characters up to the next `<`, with character references decoded. */
  function TextAt(cs: seq<char>, p: nat): (s: Scan<Result<Token, ParseError>>)
    requires p <= |cs|
    ensures p <= s.pos <= |cs|
  {
    var e := FindChar(cs, p, '<');
    Scan(Ok(TextToken(Decoded(Slice(cs, p, e)))), e)
  }

  /** `next_token` at `p`: skip whitespace, then read the token there (`TokenAt`). */
  function NextTokenAt(cs: seq<char>, p: nat): (s: Scan<Result<Token, ParseError>>)
    decreases |cs| - p
  {
    if p < |cs| && IsWhitespace(cs[p]) then NextTokenAt(cs, p + 1) else TokenAt(cs, p)
  }

  /** The dispatch of `next_token` at a position `q` after the whitespace: Eof, or `<`, `</`, `<!`, `<?` or text. */
  function TokenAt(cs: seq<char>, q: nat): (s: Scan<Result<Token, ParseError>>)
  {
    if q >= |cs| then Scan(Ok(Eof), q)
    else if cs[q] == '<' then
      if q + 1 < |cs| then
        if cs[q + 1] == '/' then EndTagAt(cs, q)
        else if cs[q + 1] == '!' then MarkupAt(cs, q)
        else if cs[q + 1] == '?' then ProcessingInstructionAt(cs, q)
        else StartTagAt(cs, q)
      else StartTagAt(cs, q)
    else TextAt(cs, q)
  }

  /** `next_token` reads the token after the whitespace that `SkipWs` skips. */
  lemma {:induction false} NextTokenSkipsWhitespace(cs: seq<char>, p: nat)
    ensures NextTokenAt(cs, p) == TokenAt(cs, SkipWs(cs, p))
    decreases |cs| - p
  {
    if p < |cs| && IsWhitespace(cs[p]) {
      NextTokenSkipsWhitespace(cs, p + 1);
    }
  }

  /**
   * Progress of the tokenizer: Eof comes exactly when only whitespace is
   * left; any other outcome, token or error, moves the cursor forward; and
   * the cursor never runs more than two past the end (a `<!` at the very end
   * is skipped as an empty comment), nor past the end at all after an error.
   */
  lemma NextTokenProgress(cs: seq<char>, p: nat)
    requires p <= |cs| + 2
    ensures var s := NextTokenAt(cs, p);
      (s.value == Ok(Eof) <==> SkipWs(cs, p) >= |cs|)
      && (s.value != Ok(Eof) ==> p < s.pos)
      && s.pos <= |cs| + 2
      && (s.value.Err? ==> s.pos <= |cs|)
  {
    var q := SkipWs(cs, p);
    NextTokenSkipsWhitespace(cs, p);
    if q < |cs| && cs[q] != '<' {
      var e := FindChar(cs, q, '<');
      assert e > q;
    }
  }

  /** Whitespace-free text up to `<` is one text token and the cursor stops at the `<`. */
  lemma TextRunsToAngle(cs: seq<char>, p: nat)
    requires p < |cs| && !IsWhitespace(cs[p]) && cs[p] != '<'
    ensures NextTokenAt(cs, p) == Scan(Ok(TextToken(Decoded(cs[p..FindChar(cs, p, '<')]))), FindChar(cs, p, '<'))
  {
    SliceIsSubsequence(cs, p, FindChar(cs, p, '<'));
  }

  /**
   * Recovery after an empty tag name skips past the `>` already; the extra
   * step of the parser's error recovery then also drops the character after it.
   */
  lemma EmptyTagNameRecovery()
    ensures NextTokenAt("<>a", 0) == Scan(Err(InvalidTagName("Empty tag name - recovered")), 2)
  {
    assert TagNameEnd("<>a", 1) == 1;
    assert FindChar("<>a", 1, '>') == 1;
  }

  // ---------------------------------------------------------------------
  // Character references
  // ---------------------------------------------------------------------

  /** Characters that may continue a reference name: ASCII letters and digits, and `#`. */
  predicate InReference(c: char) {
    IsAlphanumeric(c) || c == '#'
  }

  function ReferenceEnd(s: string, i: nat): (r: nat)
    ensures i <= r && (r == i || r <= |s|)
    ensures r < |s| ==> !InReference(s[r])
    ensures i <= |s| ==> r <= |s|
    decreases |s| - i
  {
    if i < |s| && InReference(s[i]) then ReferenceEnd(s, i + 1) else i
  }

  /** Decimal digits only. */
  predicate AllDigits(s: string) {
    forall i :: 0 <= i < |s| ==> IsAsciiDigit(s[i])
  }

  /** `str::parse::<u32>`: an optional `+` and at least one digit, at most `u32::MAX`. */
  function ParseU32(s: string): (r: Option<nat>)
    ensures r.Some? ==> r.value <= 0xFFFF_FFFF
  {
    var d := if s != [] && s[0] == '+' then s[1..] else s;
    if d != [] && AllDigits(d) && DigitsValue(d) <= 0xFFFF_FFFF then Some(DigitsValue(d)) else None
  }

  /** `char::from_u32` succeeds on Unicode scalar values: below 0x110000 and outside the surrogates. */
  predicate IsScalarValue(n: nat) {
    n < 0xD800 || (0xE000 <= n < 0x11_0000)
  }

  /**
   * `decode_entity`: the five markup references and `nbsp` by name, a decimal
   * reference `#N` for any scalar value N, and otherwise the reference
   * written back as `&name;`.
   */
  function DecodeEntity(entity: string): (r: string)
  {
    if entity == "lt" then "<"
    else if entity == "gt" then ">"
    else if entity == "amp" then "&"
    else if entity == "quot" then "\""
    else if entity == "apos" then "'"
    else if entity == "nbsp" then "\U{A0}"
    else if entity != [] && entity[0] == '#' && ParseU32(entity[1..]).Some? && IsScalarValue(ParseU32(entity[1..]).value) then
      [ParseU32(entity[1..]).value as char]
    else "&" + entity + ";"
  }

  /** The named references decode to the characters they name. */
  lemma NamedReferences()
    ensures DecodeEntity("lt") == "<" && DecodeEntity("gt") == ">" && DecodeEntity("amp") == "&"
    ensures DecodeEntity("quot") == "\"" && DecodeEntity("apos") == "'" && DecodeEntity("nbsp") == "\U{A0}"
  {
  }

  /** `&#60;` is `<`. */
  lemma DecimalLessThan()
    ensures DecodeEntity("#60") == "<"
  {
    assert "#60"[1..] == "60";
    assert DigitsValue("60") == 60;
  }

  /** An unknown name that does not start with `#` is written back as `&name;`. */
  lemma UnknownReference(entity: string)
    requires entity !in {"lt", "gt", "amp", "quot", "apos", "nbsp"}
    requires entity == [] || entity[0] != '#'
    ensures DecodeEntity(entity) == "&" + entity + ";"
  {
  }

  /** A decimal reference decodes to the one character with that code. */
  lemma DecimalReference(digits: string)
    requires digits != [] && AllDigits(digits) && IsScalarValue(DigitsValue(digits))
    ensures DecodeEntity("#" + digits) == [DigitsValue(digits) as char]
  {
    var e := "#" + digits;
    assert e[1..] == digits;
    assert digits[0] != '+';
  }

  /**
   * `decode_html_entities` from index `i`: a `&` followed by a run of
   * letters, digits and `#` (and an optional `;`, which is consumed) is
   * replaced by its decoding; a `&` with an empty run is kept.
   */
  function DecodedFrom(s: string, i: nat): string
    decreases |s| - i
  {
    if i >= |s| then []
    else if s[i] != '&' then [s[i]] + DecodedFrom(s, i + 1)
    else ReferencePiece(s, i) + DecodedFrom(s, ReferenceNext(s, i))
  }

  /** What the reference starting with the `&` at `i` decodes to: `&` alone when no name follows. */
  function ReferencePiece(s: string, i: nat): string
    requires i < |s|
  {
    var e := ReferenceEnd(s, i + 1);
    if e == i + 1 then "&" else DecodeEntity(s[i + 1..e])
  }

  /** Where decoding resumes after the reference at `i`: after the name, and after a `;` that ends it. */
  function ReferenceNext(s: string, i: nat): (r: nat)
    requires i < |s|
    ensures i < r <= |s|
  {
    var e := ReferenceEnd(s, i + 1);
    if e < |s| && s[e] == ';' then e + 1 else e
  }

  function Decoded(s: string): string {
    DecodedFrom(s, 0)
  }

  lemma AppendAssoc(a: string, b: string, c: string)
    ensures a + (b + c) == (a + b) + c
  {
  }

  /** Text with no `&` is left unchanged. */
  lemma {:induction false} DecodedIdentity(s: string, i: nat)
    requires i <= |s|
    requires forall j :: i <= j < |s| ==> s[j] != '&'
    ensures DecodedFrom(s, i) == s[i..]
    decreases |s| - i
  {
    if i < |s| {
      DecodedIdentity(s, i + 1);
      assert s[i..] == [s[i]] + s[i + 1..];
    }
  }

  /** A `&` followed by a character that is neither part of a name nor `;` is copied unchanged. */
  lemma LoneAmpersand(s: string, i: nat)
    requires i < |s| && s[i] == '&'
    requires i + 1 == |s| || (!InReference(s[i + 1]) && s[i + 1] != ';')
    ensures DecodedFrom(s, i) == "&" + DecodedFrom(s, i + 1)
  {
  }

  /** An unterminated unknown reference is written back with a `;` it did not have. */
  lemma UnterminatedReferenceGainsSemicolon()
    ensures Decoded("AT&T") == "AT&T;"
  {
    var s := "AT&T";
    assert ReferenceEnd(s, 3) == 4;
    assert s[3..4] == "T";
    assert DecodeEntity("T") == "&T;";
    assert DecodedFrom(s, 2) == "&T;";
  }

  /** Markup references are decoded in running text. */
  lemma DecodedExample()
    ensures Decoded("a&amp;b") == "a&b"
  {
    var s := "a&amp;b";
    assert ReferenceEnd(s, 2) == 5;
    assert s[2..5] == "amp";
    assert DecodedFrom(s, 6) == "b";
  }

  // ---------------------------------------------------------------------
  // The Tokenizer object
  // ---------------------------------------------------------------------

  class Tokenizer {
    /** The decoded input. */
    const chars: seq<char>
    /** The cursor, an index into `chars`; error recovery may move it past the end. */
    var charPosition: nat

    /** `Tokenizer::new` after decoding: the cursor at the start. */
    constructor (chars: seq<char>)
      ensures this.chars == chars && charPosition == 0
    {
      this.chars := chars;
      charPosition := 0;
    }

    /** `next_token`. */
    method NextToken() returns (r: Result<Token, ParseError>)
      modifies this`charPosition
      ensures Scan(r, charPosition) == NextTokenAt(chars, old(charPosition))
    {
      NextTokenSkipsWhitespace(chars, charPosition);
      SkipWhitespace();
      if charPosition >= |chars| {
        return Ok(Eof);
      }
      var c := chars[charPosition];
      if c == '<' {
        if charPosition + 1 < |chars| {
          var next := chars[charPosition + 1];
          if next == '/' {
            r := ParseEndTag();
          } else if next == '!' {
            r := ParseMarkupDeclaration();
          } else if next == '?' {
            r := ParseProcessingInstruction();
          } else {
            r := ParseStartTag();
          }
        } else {
          r := ParseStartTag();
        }
      } else {
        r := ParseText();
      }
    }

    /** `parse_start_tag`, with the cursor on `<`. */
    method ParseStartTag() returns (r: Result<Token, ParseError>)
      requires charPosition < |chars|
      modifies this`charPosition
      ensures Scan(r, charPosition) == StartTagAt(chars, old(charPosition))
    {
      charPosition := charPosition + 1;
      var name := ParseTagName();
      if name.Err? {
        return Err(name.error);
      }
      var attributes: map<string, string> := map[];
      var selfClosing := false;
      SkipWhitespace();
      ghost var whole := AttributesFrom(chars, charPosition, map[]);
      while charPosition < |chars|
        invariant charPosition <= |chars|
        invariant AttributesFrom(chars, charPosition, attributes) == whole
        decreases |chars| - charPosition
      {
        var c := chars[charPosition];
        if c == '>' {
          charPosition := charPosition + 1;
          break;
        } else if c == '/' && charPosition + 1 < |chars| && chars[charPosition + 1] == '>' {
          selfClosing := true;
          charPosition := charPosition + 2;
          break;
        } else {
          var a := ParseAttribute();
          if a.Err? {
            return Err(a.error);
          }
          attributes := attributes[a.value.0 := a.value.1];
          SkipWhitespace();
        }
      }
      r := Ok(StartTag(name.value, attributes, selfClosing));
    }

    /** `parse_end_tag`, with the cursor on `</`. */
    method ParseEndTag() returns (r: Result<Token, ParseError>)
      requires charPosition + 1 < |chars|
      modifies this`charPosition
      ensures Scan(r, charPosition) == EndTagAt(chars, old(charPosition))
    {
      charPosition := charPosition + 2;
      var name := ParseTagName();
      if name.Err? {
        return Err(name.error);
      }
      SkipTo('>');
      r := Ok(EndTag(name.value));
    }

    /** The `while pos < len && chars[pos] != c { pos += 1 }` loop followed by a step over `c` when present. */
    method SkipTo(c: char)
      modifies this`charPosition
      ensures charPosition == PastIfInside(chars, FindChar(chars, old(charPosition), c))
    {
      while charPosition < |chars| && chars[charPosition] != c
        invariant FindChar(chars, charPosition, c) == FindChar(chars, old(charPosition), c)
        decreases |chars| - charPosition
      {
        charPosition := charPosition + 1;
      }
      if charPosition < |chars| {
        charPosition := charPosition + 1;
      }
    }

    /** `parse_markup_declaration`, with the cursor on `<!`. */
    method ParseMarkupDeclaration() returns (r: Result<Token, ParseError>)
      requires charPosition + 1 < |chars|
      modifies this`charPosition
      ensures Scan(r, charPosition) == MarkupAt(chars, old(charPosition))
    {
      charPosition := charPosition + 2;
      var doctype := false;
      if charPosition + 7 < |chars| {
        SliceIsSubsequence(chars, charPosition, charPosition + 7);
        var nextChars := chars[charPosition..charPosition + 7];
        doctype := ToUpper(nextChars) == "DOCTYPE";
      }
      assert doctype == DoctypeAhead(chars, charPosition);
      if doctype {
        r := ParseDoctype();
      } else {
        r := ParseComment();
      }
    }

    /** `parse_doctype`, with the cursor on `DOCTYPE`. */
    method ParseDoctype() returns (r: Result<Token, ParseError>)
      requires charPosition + 7 < |chars|
      modifies this`charPosition
      ensures Scan(r, charPosition) == DoctypeFrom(chars, old(charPosition))
    {
      charPosition := charPosition + 7;
      SkipWhitespace();
      var name := ReadDoctypeName();
      if name.Err? {
        return Err(name.error);
      }
      SkipWhitespace();
      var publicId := ReadPublicId();
      SkipWhitespace();
      var systemId: Option<string> := None;
      if charPosition < |chars| {
        systemId := ParseQuotedString();
      }
      SkipTo('>');
      r := Ok(Doctype(name.value, publicId, systemId, false));
    }

    /** The name step of `parse_doctype`. */
    method ReadDoctypeName() returns (r: Result<Option<string>, ParseError>)
      requires charPosition <= |chars|
      modifies this`charPosition
      ensures Scan(r, charPosition) == DoctypeNameAt(chars, old(charPosition))
    {
      r := Ok(None);
      if charPosition < |chars| && !IsWhitespace(chars[charPosition]) {
        var t := ParseTagName();
        if t.Err? {
          return Err(t.error);
        }
        r := Ok(Some(t.value));
      }
    }

    /** The public identifier step of `parse_doctype`. */
    method ReadPublicId() returns (r: Option<string>)
      requires charPosition <= |chars|
      modifies this`charPosition
      ensures Scan(r, charPosition) == PublicIdAt(chars, old(charPosition))
    {
      r := None;
      if charPosition + 6 < |chars| {
        SliceIsSubsequence(chars, charPosition, charPosition + 6);
        var nextChars := chars[charPosition..charPosition + 6];
        if ToUpper(nextChars) == "PUBLIC" {
          charPosition := charPosition + 6;
          SkipWhitespace();
          r := ParseQuotedString();
        }
      }
    }

    /** `parse_comment`, with the cursor just after `<!`. */
    method ParseComment() returns (r: Result<Token, ParseError>)
      requires charPosition <= |chars|
      modifies this`charPosition
      ensures Scan(r, charPosition) == CommentFrom(chars, old(charPosition))
    {
      charPosition := charPosition + 2;
      ghost var start := charPosition;
      var content: string := [];
      while charPosition + 2 < |chars|
        invariant start <= charPosition <= CommentEnd(chars, start)
        invariant CommentEnd(chars, charPosition) == CommentEnd(chars, start)
        invariant start + 2 < |chars| ==> content == chars[start..charPosition]
        invariant start + 2 >= |chars| ==> content == [] && charPosition == start
        decreases |chars| - charPosition
      {
        if chars[charPosition] == '-' && chars[charPosition + 1] == '-' && chars[charPosition + 2] == '>' {
          break;
        }
        assert chars[start..charPosition + 1] == chars[start..charPosition] + [chars[charPosition]];
        content := content + [chars[charPosition]];
        charPosition := charPosition + 1;
      }
      if start + 2 < |chars| {
        SliceIsSubsequence(chars, start, charPosition);
      }
      if charPosition + 2 < |chars| {
        charPosition := charPosition + 3;
      }
      r := Ok(Comment(content));
    }

    /** `parse_processing_instruction`, with the cursor on `<?`. */
    method ParseProcessingInstruction() returns (r: Result<Token, ParseError>)
      requires charPosition < |chars|
      modifies this`charPosition
      ensures Scan(r, charPosition) == ProcessingInstructionAt(chars, old(charPosition))
    {
      SkipTo('>');
      r := Ok(Comment("processing instruction"));
    }

    /** `parse_text`, with the cursor on a character other than `<`. */
    method ParseText() returns (r: Result<Token, ParseError>)
      requires charPosition <= |chars|
      modifies this`charPosition
      ensures Scan(r, charPosition) == TextAt(chars, old(charPosition))
    {
      var start := charPosition;
      while charPosition < |chars|
        invariant start <= charPosition <= |chars|
        invariant FindChar(chars, charPosition, '<') == FindChar(chars, start, '<')
        decreases |chars| - charPosition
      {
        if chars[charPosition] == '<' {
          break;
        }
        charPosition := charPosition + 1;
      }
      SliceIsSubsequence(chars, start, charPosition);
      var text := chars[start..charPosition];
      var decoded := DecodeHtmlEntities(text);
      r := Ok(TextToken(decoded));
    }

    /** `parse_tag_name`. */
    method ParseTagName() returns (r: Result<string, ParseError>)
      requires charPosition <= |chars|
      modifies this`charPosition
      ensures Scan(r, charPosition) == TagNameAt(chars, old(charPosition))
    {
      var start := charPosition;
      while charPosition < |chars|
        invariant start <= charPosition <= |chars|
        invariant TagNameEnd(chars, charPosition) == TagNameEnd(chars, start)
        decreases |chars| - charPosition
      {
        var c := chars[charPosition];
        if IsWhitespace(c) || c == '>' || c == '/' {
          break;
        }
        if IsControl(c) && c != '\t' && c != '\n' && c != '\r' {
          charPosition := charPosition + 1;
          continue;
        }
        charPosition := charPosition + 1;
      }
      if charPosition == start {
        SkipTo('>');
        return Err(InvalidTagName("Empty tag name - recovered"));
      }
      SliceIsSubsequence(chars, start, charPosition);
      var name := chars[start..charPosition];
      var trimmed := Trim(name);
      if trimmed == [] {
        return Err(InvalidTagName("Empty tag name after trimming"));
      }
      r := Ok(ToLower(trimmed));
    }

    /** `parse_attribute`. */
    method ParseAttribute() returns (r: Result<(string, string), ParseError>)
      requires charPosition <= |chars|
      modifies this`charPosition
      ensures Scan(r, charPosition) == AttributeAt(chars, old(charPosition))
    {
      var start := charPosition;
      while charPosition < |chars|
        invariant start <= charPosition <= |chars|
        invariant AttributeNameEnd(chars, charPosition) == AttributeNameEnd(chars, start)
        decreases |chars| - charPosition
      {
        var c := chars[charPosition];
        if IsWhitespace(c) || c == '=' || c == '>' || c == '/' {
          break;
        }
        charPosition := charPosition + 1;
      }
      if charPosition == start {
        return Err(InvalidAttribute("Empty attribute name"));
      }
      SliceIsSubsequence(chars, start, charPosition);
      var name := ToLower(Trim(chars[start..charPosition]));
      SkipWhitespace();
      var value := ReadAttributeValue();
      r := Ok((name, value));
    }

    /** The value step of `parse_attribute`: a quoted string after `=`, or the empty string. */
    method ReadAttributeValue() returns (value: string)
      requires charPosition <= |chars|
      modifies this`charPosition
      ensures Scan(value, charPosition) == AttributeValueAt(chars, old(charPosition))
    {
      value := "";
      if charPosition < |chars| && chars[charPosition] == '=' {
        charPosition := charPosition + 1;
        SkipWhitespace();
        var q := ParseQuotedString();
        value := q.GetOr("");
      }
    }

    /** `parse_quoted_string`. */
    method ParseQuotedString() returns (r: Option<string>)
      requires charPosition <= |chars|
      modifies this`charPosition
      ensures Scan(r, charPosition) == QuotedAt(chars, old(charPosition))
    {
      if charPosition >= |chars| {
        return None;
      }
      var quote := chars[charPosition];
      if quote != '"' && quote != '\'' {
        return None;
      }
      charPosition := charPosition + 1;
      var start := charPosition;
      while charPosition < |chars| && chars[charPosition] != quote
        invariant start <= charPosition <= |chars|
        invariant FindChar(chars, charPosition, quote) == FindChar(chars, start, quote)
        decreases |chars| - charPosition
      {
        charPosition := charPosition + 1;
      }
      SliceIsSubsequence(chars, start, charPosition);
      r := Some(chars[start..charPosition]);
      if charPosition < |chars| {
        charPosition := charPosition + 1;
      }
    }

    /** `skip_whitespace`. */
    method SkipWhitespace()
      modifies this`charPosition
      ensures charPosition == SkipWs(chars, old(charPosition))
    {
      while charPosition < |chars| && IsWhitespace(chars[charPosition])
        invariant SkipWs(chars, charPosition) == SkipWs(chars, old(charPosition))
        decreases |chars| - charPosition
      {
        charPosition := charPosition + 1;
      }
    }

    /** `decode_html_entities`: one pass over the text, reading a reference name after each `&`. */
    method DecodeHtmlEntities(text: string) returns (result: string)
      ensures result == Decoded(text)
    {
      result := [];
      var i := 0;
      while i < |text|
        invariant 0 <= i <= |text|
        invariant result + DecodedFrom(text, i) == Decoded(text)
        decreases |text| - i
      {
        var ch := text[i];
        if ch == '&' {
          var entity, next := ReadReference(text, i);
          var piece := if entity != [] then DecodeEntity(entity) else [ch];
          assert piece == ReferencePiece(text, i);
          AppendAssoc(result, piece, DecodedFrom(text, next));
          result := result + piece;
          i := next;
        } else {
          AppendAssoc(result, [ch], DecodedFrom(text, i + 1));
          result := result + [ch];
          i := i + 1;
        }
      }
    }

    /** The inner loop of `decode_html_entities`: the name after the `&` at `at`, and the index after it and its `;`. */
    method ReadReference(text: string, at: nat) returns (entity: string, i: nat)
      requires at < |text| && text[at] == '&'
      ensures entity == text[at + 1..ReferenceEnd(text, at + 1)]
      ensures i == ReferenceNext(text, at)
    {
      entity := [];
      i := at + 1;
      while i < |text|
        invariant at + 1 <= i <= ReferenceEnd(text, at + 1)
        invariant ReferenceEnd(text, i) == ReferenceEnd(text, at + 1)
        invariant entity == text[at + 1..i]
        decreases |text| - i
      {
        var next := text[i];
        if next == ';' {
          i := i + 1;
          return;
        } else if IsAlphanumeric(next) || next == '#' {
          assert text[at + 1..i + 1] == entity + [next];
          entity := entity + [next];
          i := i + 1;
        } else {
          break;
        }
      }
    }
  }
}
