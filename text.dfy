/**
 * ASCII character classes and the string helpers of Rust's standard library
 * that the browser engine relies on: `trim`, `to_lowercase`,
 * `split_whitespace` and `join`. Only ASCII input is modelled.
 */
module Text {

  /** `char::is_whitespace` restricted to ASCII: space, and tab through carriage return. */
  predicate IsWhitespace(c: char) {
    c == ' ' || ('\t' <= c <= '\r')
  }

  predicate IsAsciiDigit(c: char) {
    '0' <= c <= '9'
  }

  predicate IsAsciiAlpha(c: char) {
    ('a' <= c <= 'z') || ('A' <= c <= 'Z')
  }

  /** `char::is_alphanumeric` restricted to ASCII. */
  predicate IsAlphanumeric(c: char) {
    IsAsciiAlpha(c) || IsAsciiDigit(c)
  }

  /** `char::is_control` restricted to ASCII. */
  predicate IsControl(c: char) {
    c < ' ' || c as int == 127
  }

  function ToLowerChar(c: char): (r: char)
    ensures 'A' <= c <= 'Z' ==> r as int == c as int + 32
    ensures !('A' <= c <= 'Z') ==> r == c
  {
    if 'A' <= c <= 'Z' then (c as int + 32) as char else c
  }

  function ToUpperChar(c: char): (r: char)
    ensures 'a' <= c <= 'z' ==> r as int == c as int - 32
    ensures !('a' <= c <= 'z') ==> r == c
  {
    if 'a' <= c <= 'z' then (c as int - 32) as char else c
  }

  /** `str::to_lowercase` on ASCII text. */
  function ToLower(s: string): (r: string)
    ensures |r| == |s|
  {
    seq(|s|, i requires 0 <= i < |s| => ToLowerChar(s[i]))
  }

  /** `str::to_uppercase` on ASCII text. */
  function ToUpper(s: string): (r: string)
    ensures |r| == |s|
  {
    seq(|s|, i requires 0 <= i < |s| => ToUpperChar(s[i]))
  }

  /**
   * The characters of `s` from `p` up to `e`, that is `s[p..e]`, built one
   * character at a time so that its contents are unfolded only where a proof
   * asks for them (`SliceIsSubsequence`).
   */
  function Slice(s: string, p: nat, e: nat): (r: string)
    requires p <= e <= |s|
    ensures |r| == e - p
    decreases e - p
  {
    if p == e then [] else Slice(s, p, e - 1) + [s[e - 1]]
  }

  lemma {:induction false} SliceIsSubsequence(s: string, p: nat, e: nat)
    requires p <= e <= |s|
    ensures Slice(s, p, e) == s[p..e]
    decreases e - p
  {
    if p < e {
      SliceIsSubsequence(s, p, e - 1);
      assert s[p..e] == s[p..e - 1] + [s[e - 1]];
    }
  }

  predicate NoUpper(s: string) {
    forall i :: 0 <= i < |s| ==> !('A' <= s[i] <= 'Z')
  }

  /** Lowercasing leaves no uppercase letter, so lowercasing twice is lowercasing once. */
  lemma ToLowerIdempotent(s: string)
    ensures NoUpper(ToLower(s))
    ensures ToLower(ToLower(s)) == ToLower(s)
  {
  }

  predicate NoWhitespace(s: string) {
    forall i :: 0 <= i < |s| ==> !IsWhitespace(s[i])
  }

  /** Where `str::trim_start` cuts: the first index at or after `i` that is not whitespace. */
  function TrimStartIndex(s: string, i: nat): (r: nat)
    requires i <= |s|
    ensures i <= r <= |s|
    ensures r < |s| ==> !IsWhitespace(s[r])
    decreases |s| - i
  {
    if i < |s| && IsWhitespace(s[i]) then TrimStartIndex(s, i + 1) else i
  }

  /** Where `str::trim_end` cuts `s[lo..j]`: just after its last character that is not whitespace. */
  function TrimEndIndex(s: string, lo: nat, j: nat): (r: nat)
    requires lo <= j <= |s|
    ensures lo <= r <= j
    ensures r > lo ==> !IsWhitespace(s[r - 1])
    decreases j
  {
    if j > lo && IsWhitespace(s[j - 1]) then TrimEndIndex(s, lo, j - 1) else j
  }

  /** `str::trim`: the longest slice with no leading or trailing whitespace. */
  function Trim(s: string): (r: string)
    ensures |r| <= |s|
    ensures r == [] || (!IsWhitespace(r[0]) && !IsWhitespace(r[|r| - 1]))
  {
    var a := TrimStartIndex(s, 0);
    s[a..TrimEndIndex(s, a, |s|)]
  }

  /** Everything before `TrimStartIndex` is whitespace. */
  lemma {:induction false} TrimStartSkipsWhitespace(s: string, i: nat)
    requires i <= |s|
    ensures forall k :: i <= k < TrimStartIndex(s, i) ==> IsWhitespace(s[k])
    decreases |s| - i
  {
    if i < |s| && IsWhitespace(s[i]) {
      TrimStartSkipsWhitespace(s, i + 1);
    }
  }

  /** Everything from `TrimEndIndex` on is whitespace. */
  lemma {:induction false} TrimEndSkipsWhitespace(s: string, lo: nat, j: nat)
    requires lo <= j <= |s|
    ensures forall k :: TrimEndIndex(s, lo, j) <= k < j ==> IsWhitespace(s[k])
    decreases j
  {
    if j > lo && IsWhitespace(s[j - 1]) {
      TrimEndSkipsWhitespace(s, lo, j - 1);
    }
  }

  /** Trimming a string that contains only whitespace gives the empty string, and conversely. */
  lemma TrimEmptyIff(s: string)
    ensures Trim(s) == [] <==> forall i :: 0 <= i < |s| ==> IsWhitespace(s[i])
  {
    var a := TrimStartIndex(s, 0);
    TrimStartSkipsWhitespace(s, 0);
    if a < |s| {
      assert TrimEndIndex(s, a, |s|) > a by {
        if TrimEndIndex(s, a, |s|) == a {
          TrimEndSkipsWhitespace(s, a, |s|);
        }
      }
    }
  }

  /** A string without whitespace is its own trim. */
  lemma TrimNoWhitespace(s: string)
    requires NoWhitespace(s)
    ensures Trim(s) == s
  {
    assert TrimStartIndex(s, 0) == 0;
    if s != [] {
      assert TrimEndIndex(s, 0, |s|) == |s|;
    }
  }

  /** Length of the leading run of non-whitespace characters. */
  function WordLength(s: string): (n: nat)
    ensures n <= |s|
    ensures forall i :: 0 <= i < n ==> !IsWhitespace(s[i])
    ensures n == |s| || IsWhitespace(s[n])
  {
    if s == [] || IsWhitespace(s[0]) then 0 else 1 + WordLength(s[1..])
  }

  /** `str::split_whitespace`: the maximal runs of non-whitespace characters, in order. */
  function SplitWhitespace(s: string): (ws: seq<string>)
    decreases |s|
  {
    if s == [] then []
    else if IsWhitespace(s[0]) then SplitWhitespace(s[1..])
    else
      var n := WordLength(s);
      [s[..n]] + SplitWhitespace(s[n..])
  }

  /** A class name or similar token: non-empty and free of whitespace. */
  predicate IsToken(t: string) {
    t != [] && NoWhitespace(t)
  }

  predicate AllTokens(ts: seq<string>) {
    forall i :: 0 <= i < |ts| ==> IsToken(ts[i])
  }

  /** Every word produced by `split_whitespace` is a token. */
  lemma {:induction false} SplitWhitespaceTokens(s: string)
    ensures AllTokens(SplitWhitespace(s))
    decreases |s|
  {
    if s == [] {
    } else if IsWhitespace(s[0]) {
      SplitWhitespaceTokens(s[1..]);
    } else {
      var n := WordLength(s);
      SplitWhitespaceTokens(s[n..]);
    }
  }

  /** `[String]::join(sep)`. */
  function Join(ts: seq<string>, sep: string): (r: string)
  {
    if ts == [] then []
    else if |ts| == 1 then ts[0]
    else ts[0] + sep + Join(ts[1..], sep)
  }

  /** Removing the leading whitespace run does not change the words. */
  lemma {:induction false} SplitSkipsLeadingWhitespace(w: string, s: string)
    requires forall i :: 0 <= i < |w| ==> IsWhitespace(w[i])
    ensures SplitWhitespace(w + s) == SplitWhitespace(s)
    decreases |w|
  {
    if w != [] {
      assert (w + s)[1..] == w[1..] + s;
      SplitSkipsLeadingWhitespace(w[1..], s);
    } else {
      assert w + s == s;
    }
  }

  /** A token followed by nothing or by whitespace is read back as one word. */
  lemma WordLengthOfToken(t: string, rest: string)
    requires IsToken(t)
    requires rest == [] || IsWhitespace(rest[0])
    ensures WordLength(t + rest) == |t|
    decreases |t|
  {
    if |t| > 1 {
      assert (t + rest)[1..] == t[1..] + rest;
      WordLengthOfToken(t[1..], rest);
    }
  }

  /**
   * Round trip: splitting the space-join of tokens gives the tokens back.
   * This is what keeps an element's class list and its `class` attribute in sync.
   */
  lemma {:induction false} SplitJoinRoundTrip(ts: seq<string>)
    requires AllTokens(ts)
    ensures SplitWhitespace(Join(ts, " ")) == ts
  {
    if ts == [] {
    } else if |ts| == 1 {
      var t := ts[0];
      WordLengthOfToken(t, []);
      assert t + [] == t;
      assert t[..|t|] == t;
      assert t[|t|..] == [];
    } else {
      var t := ts[0];
      var rest := " " + Join(ts[1..], " ");
      var s := Join(ts, " ");
      assert s == t + rest;
      WordLengthOfToken(t, rest);
      assert s[..|t|] == t;
      assert s[|t|..] == rest;
      SplitSkipsLeadingWhitespace(" ", Join(ts[1..], " "));
      SplitJoinRoundTrip(ts[1..]);
      assert ts == [t] + ts[1..];
    }
  }

  /** Decimal digits of a natural number, as Rust's `to_string` writes it. */
  function NatToString(n: nat): (r: string)
    ensures r != []
    ensures forall i :: 0 <= i < |r| ==> IsAsciiDigit(r[i])
    decreases n
  {
    if n < 10 then [DigitChar(n)] else NatToString(n / 10) + [DigitChar(n % 10)]
  }

  function DigitChar(d: nat): (c: char)
    requires d < 10
    ensures IsAsciiDigit(c) && c as int - '0' as int == d
  {
    ('0' as int + d) as char
  }

  /** Value of a non-empty run of decimal digits. */
  function DigitsValue(s: string): (n: nat)
    requires forall i :: 0 <= i < |s| ==> IsAsciiDigit(s[i])
    decreases |s|
  {
    if s == [] then 0
    else
      var d := s[|s| - 1];
      assert IsAsciiDigit(d);
      DigitsValue(s[..|s| - 1]) * 10 + (d as int - '0' as int)
  }

  /** Reading back the digits of a number gives the number. */
  lemma {:induction false} DigitsValueOfNatToString(n: nat)
    ensures DigitsValue(NatToString(n)) == n
    decreases n
  {
    var r := NatToString(n);
    if n >= 10 {
      DigitsValueOfNatToString(n / 10);
      assert r[..|r| - 1] == NatToString(n / 10);
    }
  }

  // ---------------------------------------------------------------------
  // Cursors over characters
  // ---------------------------------------------------------------------

  /** What a scanning step read, and the position it left the cursor at. */
  datatype Scan<T> = Scan(value: T, pos: nat)

  /** The first position at or after `p` that is not whitespace (`p` itself when past the end). */
  function SkipWs(cs: seq<char>, p: nat): (r: nat)
    ensures p <= r && (r == p || r <= |cs|)
    ensures r < |cs| ==> !IsWhitespace(cs[r])
    decreases |cs| - p
  {
    if p < |cs| && IsWhitespace(cs[p]) then SkipWs(cs, p + 1) else p
  }

  /** The first position at or after `p` holding `c`, or the end. */
  function FindChar(cs: seq<char>, p: nat, c: char): (r: nat)
    ensures p <= r && (r == p || r <= |cs|)
    ensures r < |cs| ==> cs[r] == c
    ensures p <= |cs| ==> r <= |cs|
    decreases |cs| - p
  {
    if p < |cs| && cs[p] != c then FindChar(cs, p + 1, c) else p
  }

  /** Everything `SkipWs` skips is whitespace. */
  lemma {:induction false} SkipWsSkipsWhitespace(cs: seq<char>, p: nat)
    ensures forall i :: p <= i < SkipWs(cs, p) ==> IsWhitespace(cs[i])
    decreases |cs| - p
  {
    if p < |cs| && IsWhitespace(cs[p]) {
      SkipWsSkipsWhitespace(cs, p + 1);
    }
  }

  /** Everything `FindChar` passes over differs from the character sought. */
  lemma {:induction false} FindCharSkipsOthers(cs: seq<char>, p: nat, c: char)
    ensures forall i :: p <= i < FindChar(cs, p, c) ==> cs[i] != c
    decreases |cs| - p
  {
    if p < |cs| && cs[p] != c {
      FindCharSkipsOthers(cs, p + 1, c);
    }
  }

  /** One past the position `p` when it is inside the input (the `if pos < len { pos += 1 }` steps). */
  function PastIfInside(cs: seq<char>, p: nat): nat {
    if p < |cs| then p + 1 else p
  }

  // ---------------------------------------------------------------------
  // Splitting on a character
  // ---------------------------------------------------------------------

  predicate StartsWith(s: string, prefix: string) {
    |prefix| <= |s| && s[..|prefix|] == prefix
  }

  predicate EndsWith(s: string, suffix: string) {
    |suffix| <= |s| && s[|s| - |suffix|..] == suffix
  }

  /** `str::split(c)`: the pieces between occurrences of `c`, empty pieces included. */
  function SplitOn(s: string, c: char): (parts: seq<string>)
    ensures |parts| >= 1
    decreases |s|
  {
    var e := FindChar(s, 0, c);
    if e < |s| then [s[..e]] + SplitOn(s[e + 1..], c) else [s]
  }

  /** Joining the pieces with `c` gives the text back, and no piece contains `c`. */
  lemma {:induction false} SplitOnRoundTrip(s: string, c: char)
    ensures Join(SplitOn(s, c), [c]) == s
    ensures forall i :: 0 <= i < |SplitOn(s, c)| ==> c !in SplitOn(s, c)[i]
    decreases |s|
  {
    var e := FindChar(s, 0, c);
    FindCharSkipsOthers(s, 0, c);
    if e < |s| {
      var rest := s[e + 1..];
      SplitOnRoundTrip(rest, c);
      var parts := SplitOn(s, c);
      assert parts == [s[..e]] + SplitOn(rest, c);
      assert parts[1..] == SplitOn(rest, c);
      assert s == s[..e] + [c] + rest;
      forall i | 0 <= i < |parts|
        ensures c !in parts[i]
      {
        if i > 0 {
          assert parts[i] == SplitOn(rest, c)[i - 1];
        }
      }
    }
  }

  /** A separator that occurs cuts the text into at least two pieces. */
  lemma SplitOnSeparates(s: string, c: char)
    requires c in s
    ensures |SplitOn(s, c)| >= 2
  {
    FindCharSkipsOthers(s, 0, c);
  }

  /** Trimming adds no character. */
  lemma TrimAddsNothing(s: string, c: char)
    requires c in Trim(s)
    ensures c in s
  {
    var a := TrimStartIndex(s, 0);
    var k :| 0 <= k < |Trim(s)| && Trim(s)[k] == c;
    assert s[a + k] == c;
  }

  /** Trimming keeps every character that is not whitespace. */
  lemma TrimKeepsNonWhitespace(s: string, c: char)
    requires c in s && !IsWhitespace(c)
    ensures c in Trim(s)
  {
    var k :| 0 <= k < |s| && s[k] == c;
    var a := TrimStartIndex(s, 0);
    TrimStartSkipsWhitespace(s, 0);
    TrimEndSkipsWhitespace(s, a, |s|);
    assert Trim(s)[k - a] == c;
  }

  /** The cut points of `Trim`, when the ends of the kept slice are known. */
  lemma TrimTo(s: string, a: nat, b: nat)
    requires a < b <= |s| && !IsWhitespace(s[a]) && !IsWhitespace(s[b - 1])
    requires forall k :: 0 <= k < a ==> IsWhitespace(s[k])
    requires forall k :: b <= k < |s| ==> IsWhitespace(s[k])
    ensures Trim(s) == s[a..b]
  {
    TrimStartAt(s, 0, a);
    TrimEndAt(s, a, |s|, b);
  }

  lemma {:induction false} TrimStartAt(s: string, i: nat, a: nat)
    requires i <= a < |s| && !IsWhitespace(s[a])
    requires forall k :: i <= k < a ==> IsWhitespace(s[k])
    ensures TrimStartIndex(s, i) == a
    decreases a - i
  {
    if i < a {
      TrimStartAt(s, i + 1, a);
    }
  }

  lemma {:induction false} TrimEndAt(s: string, lo: nat, j: nat, b: nat)
    requires lo < b <= j <= |s| && !IsWhitespace(s[b - 1])
    requires forall k :: b <= k < j ==> IsWhitespace(s[k])
    ensures TrimEndIndex(s, lo, j) == b
    decreases j
  {
    if b < j {
      TrimEndAt(s, lo, j - 1, b);
    }
  }

  /** Splitting at the first separator: the piece before it, then the pieces of the rest. */
  lemma SplitOnFirst(s: string, c: char, k: nat)
    requires k < |s| && s[k] == c && c !in s[..k]
    ensures SplitOn(s, c) == [s[..k]] + SplitOn(s[k + 1..], c)
  {
    FindCharIsFirst(s, 0, c, k);
  }

  /** Splitting text made of a piece, the separator and a rest. */
  lemma SplitOnAfter(a: string, c: char, b: string)
    requires c !in a
    ensures SplitOn(a + [c] + b, c) == [a] + SplitOn(b, c)
  {
    var s := a + [c] + b;
    assert s[..|a|] == a && s[|a| + 1..] == b;
    SplitOnFirst(s, c, |a|);
  }

  /** Without the separator, the text is one piece. */
  lemma SplitOnNone(s: string, c: char)
    requires c !in s
    ensures SplitOn(s, c) == [s]
  {
  }

  /** A line as `str::lines` yields it: without one trailing carriage return. */
  function StripCr(line: string): (r: string) {
    if line != [] && line[|line| - 1] == '\r' then line[..|line| - 1] else line
  }

  /**
   * `str::lines`: the text cut at each line feed, a carriage return just
   * before a line feed dropped, and no empty last line after a final line feed.
   */
  function Lines(s: string): (ls: seq<string>)
    decreases |s|
  {
    if s == [] then []
    else
      var e := FindChar(s, 0, '\n');
      if e < |s| then [StripCr(s[..e])] + Lines(s[e + 1..]) else [s]
  }

  /** No line contains a line feed. */
  lemma {:induction false} LinesHaveNoLineFeed(s: string)
    ensures forall i :: 0 <= i < |Lines(s)| ==> '\n' !in Lines(s)[i]
    decreases |s|
  {
    if s != [] {
      var e := FindChar(s, 0, '\n');
      FindCharSkipsOthers(s, 0, '\n');
      if e < |s| {
        var rest := s[e + 1..];
        LinesHaveNoLineFeed(rest);
        var ls := Lines(s);
        assert ls[1..] == Lines(rest);
        forall i | 0 <= i < |ls|
          ensures '\n' !in ls[i]
        {
          if i > 0 {
            assert ls[i] == Lines(rest)[i - 1];
          }
        }
      }
    }
  }

  /** Without carriage returns, joining the lines with line feeds gives the text back, less one final line feed. */
  lemma {:induction false} LinesRoundTrip(s: string)
    requires '\r' !in s
    ensures Join(Lines(s), "\n") == if s != [] && s[|s| - 1] == '\n' then s[..|s| - 1] else s
    decreases |s|
  {
    if s != [] {
      var e := FindChar(s, 0, '\n');
      FindCharSkipsOthers(s, 0, '\n');
      if e < |s| {
        var rest := s[e + 1..];
        assert s == s[..e] + "\n" + rest;
        assert '\r' !in rest by {
          forall k | 0 <= k < |rest| ensures rest[k] != '\r' { assert rest[k] == s[e + 1 + k]; }
        }
        assert '\r' !in s[..e] && '\n' !in s[..e] by {
          forall k | 0 <= k < e ensures s[..e][k] != '\r' && s[..e][k] != '\n' { assert s[..e][k] == s[k]; }
        }
        LinesRoundTrip(rest);
        LineThenRest(s[..e], rest);
      }
    }
  }

  /** One step of `LinesRoundTrip`: a first line and its line feed in front of the rest. */
  lemma LineThenRest(line: string, rest: string)
    requires '\r' !in line && '\n' !in line
    requires Join(Lines(rest), "\n") == if rest != [] && rest[|rest| - 1] == '\n' then rest[..|rest| - 1] else rest
    ensures var s := line + "\n" + rest;
      Join(Lines(s), "\n") == if s[|s| - 1] == '\n' then s[..|s| - 1] else s
  {
    var s := line + "\n" + rest;
    assert FindChar(s, 0, '\n') == |line| by {
      FindCharIsFirst(s, 0, '\n', |line|);
    }
    assert s[..|line|] == line && s[|line| + 1..] == rest;
    assert StripCr(line) == line;
    var ls := Lines(s);
    assert ls == [line] + Lines(rest);
    if rest == [] {
      assert ls == [line];
      assert s[..|s| - 1] == line;
    } else {
      assert Lines(rest) != [];
      assert Join(ls, "\n") == line + "\n" + Join(Lines(rest), "\n");
      assert s[|s| - 1] == rest[|rest| - 1];
      if rest[|rest| - 1] == '\n' {
        assert s[..|s| - 1] == line + "\n" + rest[..|rest| - 1];
      }
    }
  }

  /** `FindChar` stops at the first occurrence. */
  lemma {:induction false} FindCharIsFirst(cs: seq<char>, p: nat, c: char, k: nat)
    requires p <= k < |cs| && cs[k] == c
    requires forall i :: p <= i < k ==> cs[i] != c
    ensures FindChar(cs, p, c) == k
    decreases k - p
  {
    if p < k {
      FindCharIsFirst(cs, p + 1, c, k);
    }
  }
}
