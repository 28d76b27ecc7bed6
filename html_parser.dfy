/**
 * The HTML tree builder: `HtmlParser` pulls tokens from the tokenizer and
 * builds the document, keeping a stack of open elements whose bottom is the
 * Document root. Start tags append an element to the top of the stack and,
 * unless void or self-closing, push it; end tags pop back to the topmost open
 * element of that name; text that is not blank is appended to the top. Link,
 * script and image tags are recorded as external resources in document order.
 *
 * The effect of each token on the document, the stack and the resource list
 * is the function `TokenStep` on a `TreeState` value; `Build` folds it over a
 * token sequence and `ParsedTokens` is the sequence the tokenizer yields, so
 * `HtmlParser.Parse` is proved to produce `Build(start, ParsedTokens(input))`.
 */
module HtmlParsing {
  import opened Wrappers
  import opened Text
  import opened Dom
  import opened HtmlTokenizer

  datatype ResourceType = Stylesheet | Script | Image | Other

  /** A resource the page needs fetched: its kind, its URL and the attributes of the tag that named it. */
  datatype ExternalResource = ExternalResource(resourceType: ResourceType, url: string, attributes: map<string, string>)

  /** The parser gives up after this many errors. */
  const MaxErrors: nat := 100

  /** `is_void_element`: the elements that never have content. */
  predicate IsVoidElement(name: string) {
    name in {"area", "base", "br", "col", "embed", "hr", "img", "input", "link", "meta", "param", "source", "track", "wbr"}
  }

  /**
   * `check_external_resources`: a stylesheet link with an `href`, or a
   * script or image with a `src`, names one resource; any other tag none.
   */
  function ResourcesOf(tag: string, attrs: map<string, string>): (r: seq<ExternalResource>)
    ensures |r| <= 1
    ensures r != [] ==> r[0].attributes == attrs && r[0].resourceType != Other
    ensures r != [] && r[0].resourceType == Stylesheet ==> tag == "link" && "href" in attrs && r[0].url == attrs["href"]
    ensures r != [] && r[0].resourceType != Stylesheet ==> tag in {"script", "img"} && "src" in attrs && r[0].url == attrs["src"]
    ensures tag !in {"link", "script", "img"} ==> r == []
  {
    if tag == "link" && "rel" in attrs && attrs["rel"] == "stylesheet" && "href" in attrs then
      [ExternalResource(Stylesheet, attrs["href"], attrs)]
    else if tag == "script" && "src" in attrs then [ExternalResource(Script, attrs["src"], attrs)]
    else if tag == "img" && "src" in attrs then [ExternalResource(Image, attrs["src"], attrs)]
    else []
  }

  /** A link names a stylesheet only with `rel="stylesheet"` and an `href`; a script or image exactly when it has a `src`. */
  lemma ResourcesNamed(tag: string, attrs: map<string, string>)
    ensures tag == "link" ==> (ResourcesOf(tag, attrs) != [] <==> "rel" in attrs && attrs["rel"] == "stylesheet" && "href" in attrs)
    ensures tag in {"script", "img"} ==> (ResourcesOf(tag, attrs) != [] <==> "src" in attrs)
  {
  }

  // ---------------------------------------------------------------------
  // The tree-building state and the effect of one token
  // ---------------------------------------------------------------------

  /** The document's arena and id counter, the open-element stack (ids, root first) and the resources found. */
  datatype TreeState = TreeState(nodes: Arena, nextId: nat, open: seq<nat>, resources: seq<ExternalResource>)

  /** `id` is an element named `name`. */
  predicate IsOpenTag(nodes: Arena, id: nat, name: string) {
    id in nodes && nodes[id].kind.Element? && nodes[id].kind.tagName == name
  }

  /**
   * The stack of open elements: the Document root at the bottom, then
   * elements that are not void, each a child of the one below it.
   */
  ghost predicate StackOk(nodes: Arena, open: seq<nat>) {
    |open| >= 1 && open[0] == 0
    && (forall i :: 0 <= i < |open| ==> open[i] in nodes)
    && (forall i :: 1 <= i < |open| ==> nodes[open[i]].kind.Element? && !IsVoidElement(nodes[open[i]].kind.tagName))
    && (forall i :: 1 <= i < |open| ==> nodes[open[i]].parent == Some(open[i - 1]))
  }

  /** A well-formed document with a Document root, and a well-formed stack over it. */
  ghost predicate Good(st: TreeState) {
    WellFormed(st.nodes, st.nextId)
    && 0 in st.nodes && st.nodes[0].kind == DocumentNode && st.nodes[0].parent == None
    && StackOk(st.nodes, st.open)
  }

  /** The state `HtmlParser::new` starts from: a lone root, open. */
  function Initial(): (st: TreeState)
    ensures Good(st)
  {
    TreeState(map[0 := NodeData(DocumentNode, None, [])], 1, [0], [])
  }

  function Top(open: seq<nat>): nat
    requires open != []
  {
    open[|open| - 1]
  }

  /** The arena with a new parentless node of `kind` under id `id`, appended as the last child of `parent`. */
  function AppendNew(nodes: Arena, parent: nat, id: nat, kind: NodeKind): Arena
    requires parent in nodes && parent != id
  {
    Linked(nodes[id := NodeData(kind, None, [])], parent, id)
  }

  /** The top of the stack is a node other than `nextId`, so a new node can be appended to it; good states satisfy this. */
  predicate CanAppend(st: TreeState) {
    st.open != [] && Top(st.open) in st.nodes && Top(st.open) != st.nextId
  }

  /**
   * The arena with a new node of `kind`, id `nextId`, appended to the top of
   * the stack (on a state that cannot take one, the arena as it was).
   */
  function WithNewLeaf(st: TreeState, kind: NodeKind): Arena {
    if CanAppend(st) then AppendNew(st.nodes, Top(st.open), st.nextId, kind) else st.nodes
  }

  /** `handle_start_tag`: record resources, append a new element to the top of the stack, and push it unless void or self-closing. */
  ghost function StartTagStep(st: TreeState, name: string, attrs: map<string, string>, selfClosing: bool): TreeState {
    var id := st.nextId;
    TreeState(
      WithNewLeaf(st, Element(name, attrs)),
      id + 1,
      st.open + (if IsVoidElement(name) || selfClosing then [] else [id]),
      st.resources + ResourcesOf(name, attrs))
  }

  /**
   * The index the loop of `handle_end_tag` stops at among `open[..k]`: the
   * topmost open element named `name`, if any.
   */
  function TopmostOpen(nodes: Arena, open: seq<nat>, name: string, k: nat): (r: Option<nat>)
    requires k <= |open|
    ensures r.Some? ==> r.value < k && IsOpenTag(nodes, open[r.value], name)
    ensures forall j :: (if r.Some? then r.value else -1) < j < k ==> !IsOpenTag(nodes, open[j], name)
  {
    if k == 0 then None
    else if IsOpenTag(nodes, open[k - 1], name) then Some(k - 1)
    else TopmostOpen(nodes, open, name, k - 1)
  }

  /** `handle_end_tag`: close the topmost open element of that name and everything above it; otherwise nothing. */
  ghost function EndTagStep(st: TreeState, name: string): TreeState {
    match TopmostOpen(st.nodes, st.open, name, |st.open|)
    case Some(i) => st.(open := st.open[..i])
    case None => st
  }

  /** `handle_text`: a text node appended to the top of the stack. */
  ghost function TextStep(st: TreeState, text: string): TreeState {
    st.(nodes := WithNewLeaf(st, Text(text)), nextId := st.nextId + 1)
  }

  /** The effect of one token in `parse`: blank text, comments and doctypes change nothing. */
  ghost function TokenStep(st: TreeState, t: Token): TreeState {
    match t
    case StartTag(name, attrs, selfClosing) => StartTagStep(st, name, attrs, selfClosing)
    case EndTag(name) => EndTagStep(st, name)
    case TextToken(text) => if Trim(text) == [] then st else TextStep(st, text)
    case _ => st
  }

  /** Adding a fresh parentless leaf keeps the arena well formed. */
  lemma InsertLeafWellFormed(a: Arena, bound: nat, kind: NodeKind)
    requires WellFormed(a, bound)
    ensures WellFormed(a[bound := NodeData(kind, None, [])], bound + 1)
  {
    var r := a[bound := NodeData(kind, None, [])];
    forall id, i | id in r && 0 <= i < |r[id].children|
      ensures r[id].children[i] in r && id < r[id].children[i] && r[r[id].children[i]].parent == Some(id)
    {
      assert id in a;
      assert a[id].children[i] in a;
    }
  }

  /** A good state can take a new node, and appending it keeps the arena well formed. */
  lemma NewLeafWellFormed(st: TreeState, kind: NodeKind)
    requires Good(st)
    ensures CanAppend(st) && WellFormed(WithNewLeaf(st, kind), st.nextId + 1)
  {
    var id := st.nextId;
    InsertLeafWellFormed(st.nodes, id, kind);
    assert Top(st.open) < id;
    LinkedWellFormed(st.nodes[id := NodeData(kind, None, [])], id + 1, Top(st.open), id);
  }

  /** Appending a new node to the top of a good stack keeps the root and the stack as they were. */
  lemma NewLeafKeepsStack(st: TreeState, kind: NodeKind)
    requires Good(st)
    ensures var nodes := WithNewLeaf(st, kind);
      nodes.Keys == st.nodes.Keys + {st.nextId}
      && 0 in nodes && nodes[0].kind == DocumentNode && nodes[0].parent == None
      && StackOk(nodes, st.open)
      && nodes[st.nextId].parent == Some(Top(st.open)) && nodes[st.nextId].kind == kind
  {
    var id := st.nextId;
    assert Top(st.open) < id;
    var nodes := WithNewLeaf(st, kind);
    forall i | 0 <= i < |st.open|
      ensures nodes[st.open[i]].kind == st.nodes[st.open[i]].kind && nodes[st.open[i]].parent == st.nodes[st.open[i]].parent
    {
      assert st.open[i] != id;
    }
  }

  /** Pushing a non-void child of the top element keeps the stack good. */
  lemma PushKeepsStack(nodes: Arena, open: seq<nat>, id: nat)
    requires StackOk(nodes, open) && id in nodes
    requires nodes[id].kind.Element? && !IsVoidElement(nodes[id].kind.tagName) && nodes[id].parent == Some(Top(open))
    ensures StackOk(nodes, open + [id])
  {
  }

  /** A start tag keeps the document well formed and the stack good: the new element is pushed only when it is not void. */
  lemma StartTagStepGood(st: TreeState, name: string, attrs: map<string, string>, selfClosing: bool)
    requires Good(st)
    ensures Good(StartTagStep(st, name, attrs, selfClosing))
  {
    var r := StartTagStep(st, name, attrs, selfClosing);
    var nodes := WithNewLeaf(st, Element(name, attrs));
    NewLeafWellFormed(st, Element(name, attrs));
    NewLeafKeepsStack(st, Element(name, attrs));
    assert r.nodes == nodes && r.nextId == st.nextId + 1;
    if IsVoidElement(name) || selfClosing {
      assert r.open == st.open;
    } else {
      PushKeepsStack(nodes, st.open, st.nextId);
      assert r.open == st.open + [st.nextId];
    }
  }

  /** Text keeps the document well formed and the stack as it was. */
  lemma TextStepGood(st: TreeState, text: string)
    requires Good(st)
    ensures Good(TextStep(st, text))
  {
    NewLeafWellFormed(st, Text(text));
    NewLeafKeepsStack(st, Text(text));
  }

  /** An end tag only shortens the stack, never below the root. */
  lemma EndTagStepGood(st: TreeState, name: string)
    requires Good(st)
    ensures Good(EndTagStep(st, name))
  {
    var m := TopmostOpen(st.nodes, st.open, name, |st.open|);
    if m.Some? {
      assert m.value != 0;
    }
  }

  /** Every token keeps the document well formed and the stack of open elements good. */
  lemma TokenStepGood(st: TreeState, t: Token)
    requires Good(st)
    ensures Good(TokenStep(st, t))
  {
    match t
    case StartTag(name, attrs, selfClosing) =>
      StartTagStepGood(st, name, attrs, selfClosing);
    case EndTag(name) =>
      EndTagStepGood(st, name);
    case TextToken(text) =>
      if Trim(text) != [] {
        TextStepGood(st, text);
      }
    case _ =>
  }

  /** The effect of a token sequence, in order. */
  ghost function Build(st: TreeState, ts: seq<Token>): TreeState
    decreases |ts|
  {
    if ts == [] then st else Build(TokenStep(st, ts[0]), ts[1..])
  }

  /** Parsing any token sequence from a good state ends in a good state. */
  lemma {:induction false} BuildGood(st: TreeState, ts: seq<Token>)
    requires Good(st)
    ensures Good(Build(st, ts))
    decreases |ts|
  {
    if ts != [] {
      TokenStepGood(st, ts[0]);
      BuildGood(TokenStep(st, ts[0]), ts[1..]);
    }
  }

  /** The resources named by the start tags of a token sequence, in order. */
  function TokenResources(ts: seq<Token>): seq<ExternalResource> {
    if ts == [] then []
    else (if ts[0].StartTag? then ResourcesOf(ts[0].name, ts[0].attributes) else []) + TokenResources(ts[1..])
  }

  /** The resources of a token sequence are those of its first token and then the rest's. */
  lemma TokenResourcesCons(t: Token, rest: seq<Token>)
    ensures TokenResources([t] + rest) == (if t.StartTag? then ResourcesOf(t.name, t.attributes) else []) + TokenResources(rest)
  {
    assert ([t] + rest)[1..] == rest;
  }

  /** One token adds the resources its start tag names, if any. */
  lemma TokenStepResources(st: TreeState, t: Token)
    ensures TokenStep(st, t).resources == st.resources + (if t.StartTag? then ResourcesOf(t.name, t.attributes) else [])
  {
  }

  /** Concatenation regroups freely. */
  lemma AppendAssociative<T>(a: seq<T>, b: seq<T>, c: seq<T>)
    ensures (a + b) + c == a + (b + c)
  {
  }

  /** Resources are collected in document order: one per start tag that names one, and nothing else adds any. */
  lemma {:induction false} BuildResources(st: TreeState, ts: seq<Token>)
    ensures Build(st, ts).resources == st.resources + TokenResources(ts)
    decreases |ts|
  {
    if ts != [] {
      var next := TokenStep(st, ts[0]);
      var named := if ts[0].StartTag? then ResourcesOf(ts[0].name, ts[0].attributes) else [];
      TokenStepResources(st, ts[0]);
      BuildResources(next, ts[1..]);
      AppendAssociative(st.resources, named, TokenResources(ts[1..]));
    }
  }

  /** A stylesheet link followed by a script yields a stylesheet and then a script. */
  lemma StylesheetThenScript()
    ensures var ts := [
      StartTag("html", map[], false), StartTag("head", map[], false),
      StartTag("link", map["rel" := "stylesheet", "href" := "style.css"], false),
      StartTag("script", map["src" := "script.js"], false), EndTag("script"),
      EndTag("head"), EndTag("html")];
      var rs := TokenResources(ts);
      |rs| == 2 && rs[0].resourceType == Stylesheet && rs[0].url == "style.css"
      && rs[1].resourceType == Script && rs[1].url == "script.js"
  {
    var link := map["rel" := "stylesheet", "href" := "style.css"];
    var script := map["src" := "script.js"];
    assert "rel" in link && link["rel"] == "stylesheet" && "href" in link && link["href"] == "style.css";
    assert ResourcesOf("link", link) == [ExternalResource(Stylesheet, "style.css", link)];
    assert ResourcesOf("script", script) == [ExternalResource(Script, "script.js", script)];
    var closing := [EndTag("script"), EndTag("head"), EndTag("html")];
    assert TokenResources(closing) == [] by {
      TokenResourcesCons(EndTag("script"), closing[1..]);
      TokenResourcesCons(EndTag("head"), closing[2..]);
      TokenResourcesCons(EndTag("html"), []);
    }
    var fromScript := [StartTag("script", script, false)] + closing;
    TokenResourcesCons(StartTag("script", script, false), closing);
    var fromLink := [StartTag("link", link, false)] + fromScript;
    TokenResourcesCons(StartTag("link", link, false), fromScript);
    var fromHead := [StartTag("head", map[], false)] + fromLink;
    TokenResourcesCons(StartTag("head", map[], false), fromLink);
    TokenResourcesCons(StartTag("html", map[], false), fromHead);
    assert [StartTag("html", map[], false)] + fromHead == [
      StartTag("html", map[], false), StartTag("head", map[], false),
      StartTag("link", link, false),
      StartTag("script", script, false), EndTag("script"),
      EndTag("head"), EndTag("html")];
  }

  /** After an end tag the stack is a prefix of what it was, and no element above the new top has that name. */
  lemma EndTagCloses(st: TreeState, name: string)
    requires Good(st)
    ensures var r := EndTagStep(st, name);
      r.nodes == st.nodes && |r.open| >= 1 && r.open == st.open[..|r.open|]
      && (r.open != st.open ==> IsOpenTag(st.nodes, st.open[|r.open|], name))
      && forall j :: |r.open| < j < |st.open| ==> !IsOpenTag(st.nodes, st.open[j], name)
  {
    var m := TopmostOpen(st.nodes, st.open, name, |st.open|);
    if m.Some? {
      assert m.value != 0;
    }
  }

  // ---------------------------------------------------------------------
  // What the tokenizer yields
  // ---------------------------------------------------------------------

  /**
   * The scans the loop of `parse` takes from position `p`, up to and
   * including the first Eof: after an error the cursor is moved one more
   * character before the next scan.
   */
  ghost function ScansFrom(cs: seq<char>, p: nat): (ss: seq<Scan<Result<Token, ParseError>>>)
    requires p <= |cs| + 2
    decreases |cs| + 3 - p
  {
    var s := NextTokenAt(cs, p);
    NextTokenProgress(cs, p);
    if s.value == Ok(Eof) then [s]
    else if s.value.Err? then [s] + ScansFrom(cs, s.pos + 1)
    else [s] + ScansFrom(cs, s.pos)
  }

  /** The scans from `p` once the scan at `p` is known to be `Scan(t, q)`: the cursor moves forward, and the rest follow from where it stops. */
  lemma ScansStep(cs: seq<char>, p: nat, t: Result<Token, ParseError>, q: nat)
    requires p <= |cs| + 2 && NextTokenAt(cs, p) == Scan(t, q)
    ensures t != Ok(Eof) ==> p < q
    ensures t.Err? ==> q + 1 <= |cs| + 2
    ensures t.Ok? ==> q <= |cs| + 2
    ensures ScansFrom(cs, p)
      == if t == Ok(Eof) then [Scan(t, q)]
         else if t.Err? then [Scan(t, q)] + ScansFrom(cs, q + 1)
         else [Scan(t, q)] + ScansFrom(cs, q)
  {
    NextTokenProgress(cs, p);
  }

  /** The tokens among the scans before the first Eof. */
  function TokensOf(ss: seq<Scan<Result<Token, ParseError>>>): seq<Token> {
    if ss == [] || ss[0].value == Ok(Eof) then []
    else if ss[0].value.Err? then TokensOf(ss[1..])
    else [ss[0].value.value] + TokensOf(ss[1..])
  }

  /** The number of errors among the scans before the first Eof. */
  function ErrorsOf(ss: seq<Scan<Result<Token, ParseError>>>): nat {
    if ss == [] || ss[0].value == Ok(Eof) then 0
    else if ss[0].value.Err? then 1 + ErrorsOf(ss[1..])
    else ErrorsOf(ss[1..])
  }

  /**
   * The loop of `parse` over the scans `ss`, with the state `st` built and
   * `errors` errors counted so far: more than `MaxErrors` errors abort the
   * parse, Eof ends it, an error is counted, a token is handled.
   */
  ghost function Outcome(ss: seq<Scan<Result<Token, ParseError>>>, st: TreeState, errors: nat): Result<TreeState, ParseError> {
    if errors > MaxErrors then Err(ParseErrorAt(0, "Too many parsing errors"))
    else if ss == [] || ss[0].value == Ok(Eof) then Ok(st)
    else if ss[0].value.Err? then Outcome(ss[1..], st, errors + 1)
    else Outcome(ss[1..], TokenStep(st, ss[0].value.value), errors)
  }

  /** The loop of `parse`, resumed at position `p` with the state `st` and `errors` errors so far, ends in `outcome`. */
  ghost predicate ResumesTo(cs: seq<char>, p: nat, st: TreeState, errors: nat, outcome: Result<TreeState, ParseError>) {
    p <= |cs| + 2 && Outcome(ScansFrom(cs, p), st, errors) == outcome
  }

  /**
   * `resumes` names `ResumesTo` on the input `cs` towards `outcome`; the
   * loop of `parse` carries it in this form, so that only the step that
   * reads a token looks into the scans.
   */
  ghost predicate Tracks(resumes: (nat, TreeState, nat) -> bool, cs: seq<char>, outcome: Result<TreeState, ParseError>) {
    forall p, st, errors {:trigger ResumesTo(cs, p, st, errors, outcome)} ::
      resumes(p, st, errors) == ResumesTo(cs, p, st, errors, outcome)
  }

  /**
   * One pass of the loop of `parse` once the scan at `p` is known to be
   * `Scan(t, q)`: Eof ends it, an error is counted and the cursor moved one
   * more character, a token is handled.
   */
  lemma ResumeStep(cs: seq<char>, p: nat, st: TreeState, errors: nat, outcome: Result<TreeState, ParseError>, t: Result<Token, ParseError>, q: nat)
    requires p <= |cs| + 2 && errors <= MaxErrors && NextTokenAt(cs, p) == Scan(t, q)
    requires ResumesTo(cs, p, st, errors, outcome)
    ensures q <= |cs| + 2
    ensures t != Ok(Eof) ==> p < q
    ensures t == Ok(Eof) ==> outcome == Ok(st)
    ensures t.Err? ==> q + 1 <= |cs| + 2 && ResumesTo(cs, q + 1, st, errors + 1, outcome)
    ensures t.Ok? && t != Ok(Eof) ==> ResumesTo(cs, q, TokenStep(st, t.value), errors, outcome)
  {
    ScansStep(cs, p, t, q);
    var ss := ScansFrom(cs, p);
    if t.Err? {
      assert ss[1..] == ScansFrom(cs, q + 1);
    } else if t != Ok(Eof) {
      assert ss[1..] == ScansFrom(cs, q);
    }
  }

  /** Building from a token followed by more tokens is one step and then the rest. */
  lemma BuildCons(st: TreeState, t: Token, rest: seq<Token>)
    ensures Build(st, [t] + rest) == Build(TokenStep(st, t), rest)
  {
    assert ([t] + rest)[0] == t && ([t] + rest)[1..] == rest;
  }

  /** The loop of `parse` aborts exactly when the errors so far and those still to come exceed `MaxErrors`. */
  lemma {:induction false} OutcomeFails(ss: seq<Scan<Result<Token, ParseError>>>, st: TreeState, errors: nat)
    ensures Outcome(ss, st, errors).Err? <==> errors + ErrorsOf(ss) > MaxErrors
  {
    if errors <= MaxErrors && ss != [] && ss[0].value != Ok(Eof) {
      if ss[0].value.Err? {
        OutcomeFails(ss[1..], st, errors + 1);
      } else {
        OutcomeFails(ss[1..], TokenStep(st, ss[0].value.value), errors);
      }
    }
  }

  /** When the loop of `parse` does not abort, it has built every token onto the state, in order. */
  lemma {:induction false} OutcomeBuilds(ss: seq<Scan<Result<Token, ParseError>>>, st: TreeState, errors: nat)
    ensures Outcome(ss, st, errors).Ok? ==> Outcome(ss, st, errors).value == Build(st, TokensOf(ss))
  {
    if errors <= MaxErrors && ss != [] && ss[0].value != Ok(Eof) {
      if ss[0].value.Err? {
        OutcomeBuilds(ss[1..], st, errors + 1);
      } else {
        var t := ss[0].value.value;
        OutcomeBuilds(ss[1..], TokenStep(st, t), errors);
        BuildCons(st, t, TokensOf(ss[1..]));
      }
    }
  }

  // ---------------------------------------------------------------------
  // The HtmlParser object
  // ---------------------------------------------------------------------

  class HtmlParser {
    const tokenizer: Tokenizer
    const document: Document
    /** The ids of the open elements, the Document root first. */
    var openElements: seq<nat>
    var externalResources: seq<ExternalResource>

    ghost function State(): TreeState
      reads this, document
    {
      TreeState(document.nodes, document.nextId, openElements, externalResources)
    }

    ghost predicate Valid()
      reads this, document, tokenizer
    {
      Good(State()) && tokenizer.charPosition <= |tokenizer.chars| + 2
    }

    /** `HtmlParser::new` on decoded input: a tokenizer at the start, a new document, and only the root open. */
    constructor (input: seq<char>)
      ensures Valid() && fresh(tokenizer) && fresh(document)
      ensures tokenizer.chars == input && tokenizer.charPosition == 0
      ensures State() == Initial()
    {
      tokenizer := new Tokenizer(input);
      document := new Document();
      openElements := [0];
      externalResources := [];
    }

    /** `parse`: tokens until Eof; each error is counted and skipped, and more than `MaxErrors` of them abort the parse. */
    method Parse() returns (r: Result<(Document, seq<ExternalResource>), ParseError>)
      requires Valid()
      modifies this`openElements, this`externalResources, document, tokenizer`charPosition
      ensures var ss := ScansFrom(tokenizer.chars, old(tokenizer.charPosition));
        && (r.Err? <==> ErrorsOf(ss) > MaxErrors)
        && (r.Ok? ==> r.value == (document, externalResources) && State() == Build(old(State()), TokensOf(ss)))
    {
      var errorCount: nat := 0;
      ghost var cs := tokenizer.chars;
      ghost var scans := ScansFrom(cs, tokenizer.charPosition);
      ghost var outcome := Outcome(scans, State(), 0);
      OutcomeFails(scans, State(), 0);
      OutcomeBuilds(scans, State(), 0);
      ghost var resumes := (p: nat, st: TreeState, errors: nat) => ResumesTo(cs, p, st, errors, outcome);
      while true
        invariant Valid() && tokenizer.chars == cs
        invariant errorCount <= MaxErrors
        invariant resumes(tokenizer.charPosition, State(), errorCount)
        decreases |tokenizer.chars| + 3 - tokenizer.charPosition
      {
        var done;
        done, errorCount := ParseStep(errorCount, resumes, outcome);
        if done {
          if errorCount > MaxErrors {
            return Err(ParseErrorAt(0, "Too many parsing errors"));
          }
          break;
        }
      }
      r := Ok((document, externalResources));
    }

    /**
     * One pass of the loop of `parse`: the next token or error. Eof ends the
     * loop, and so does one error too many; any other error is counted and
     * one more character skipped; a token is handled.
     */
    method ParseStep(errorCount: nat, ghost resumes: (nat, TreeState, nat) -> bool, ghost outcome: Result<TreeState, ParseError>)
        returns (done: bool, errors: nat)
      requires Valid() && errorCount <= MaxErrors
      requires Tracks(resumes, tokenizer.chars, outcome) && resumes(tokenizer.charPosition, State(), errorCount)
      modifies this`openElements, this`externalResources, document, tokenizer`charPosition
      ensures Valid()
      ensures done ==> outcome == if errors > MaxErrors then Err(ParseErrorAt(0, "Too many parsing errors")) else Ok(State())
      ensures !done ==> errors <= MaxErrors && old(tokenizer.charPosition) < tokenizer.charPosition
      ensures !done ==> resumes(tokenizer.charPosition, State(), errors)
    {
      ghost var st := State();
      var t := ReadToken(st, errorCount, resumes, outcome);
      done, errors := false, errorCount;
      if t == Ok(Eof) {
        done := true;
      } else if t.Err? {
        errors := errors + 1;
        if errors > MaxErrors {
          done := true;
        } else {
          tokenizer.charPosition := tokenizer.charPosition + 1;
        }
      } else {
        ghost var cs, q := tokenizer.chars, tokenizer.charPosition;
        HandleToken(t.value);
        assert tokenizer.chars == cs && tokenizer.charPosition == q;
      }
    }

    /** The `next_token` call of the loop of `parse`, and where the loop resumes after it. */
    method ReadToken(ghost st: TreeState, errorCount: nat, ghost resumes: (nat, TreeState, nat) -> bool, ghost outcome: Result<TreeState, ParseError>)
        returns (t: Result<Token, ParseError>)
      requires errorCount <= MaxErrors
      requires Tracks(resumes, tokenizer.chars, outcome) && resumes(tokenizer.charPosition, st, errorCount)
      modifies tokenizer`charPosition
      ensures tokenizer.charPosition <= |tokenizer.chars| + 2
      ensures t == Ok(Eof) ==> outcome == Ok(st)
      ensures t.Err? && errorCount == MaxErrors ==> outcome == Err(ParseErrorAt(0, "Too many parsing errors"))
      ensures t != Ok(Eof) ==> old(tokenizer.charPosition) < tokenizer.charPosition
      ensures t.Err? ==>
        (tokenizer.charPosition + 1 <= |tokenizer.chars| + 2
         && resumes(tokenizer.charPosition + 1, st, errorCount + 1))
      ensures t.Ok? && t != Ok(Eof) ==> resumes(tokenizer.charPosition, TokenStep(st, t.value), errorCount)
    {
      ghost var p := tokenizer.charPosition;
      assert ResumesTo(tokenizer.chars, p, st, errorCount, outcome);
      t := tokenizer.NextToken();
      ResumeStep(tokenizer.chars, p, st, errorCount, outcome, t, tokenizer.charPosition);
    }

    /** The `Ok` arms of the loop in `parse` other than Eof. */
    method HandleToken(t: Token)
      requires Valid()
      modifies this`openElements, this`externalResources, document
      ensures Valid()
      ensures State() == TokenStep(old(State()), t)
    {
      match t {
        case StartTag(name, attributes, selfClosing) =>
          HandleStartTag(name, attributes, selfClosing);
        case EndTag(name) =>
          HandleEndTag(name);
        case TextToken(text) =>
          if Trim(text) != [] {
            HandleText(text);
          }
        case _ =>
      }
    }

    /** `handle_start_tag`. */
    method HandleStartTag(name: string, attributes: map<string, string>, selfClosing: bool)
      requires Valid()
      modifies this`openElements, this`externalResources, document
      ensures Valid()
      ensures State() == StartTagStep(old(State()), name, attributes, selfClosing)
    {
      ghost var next := StartTagStep(State(), name, attributes, selfClosing);
      StartTagStepGood(State(), name, attributes, selfClosing);
      CheckExternalResources(name, attributes);
      var id := AppendToTop(Element(name, attributes));
      if !IsVoidElement(name) && !selfClosing {
        openElements := openElements + [id];
      }
      assert State() == next;
    }

    /** `handle_end_tag`: search the stack from the top and truncate at the first element with that name. */
    method HandleEndTag(name: string)
      requires Valid()
      modifies this`openElements
      ensures Valid()
      ensures State() == EndTagStep(old(State()), name)
    {
      EndTagStepGood(State(), name);
      ghost var open := openElements;
      var i := |openElements|;
      while i > 0
        invariant 0 <= i <= |open| && openElements == open
        invariant TopmostOpen(document.nodes, open, name, i) == TopmostOpen(document.nodes, open, name, |open|)
        decreases i
      {
        i := i - 1;
        var kind := document.nodes[openElements[i]].kind;
        if kind.Element? && kind.tagName == name {
          ghost var closed := EndTagStep(State(), name);
          assert TopmostOpen(document.nodes, open, name, i + 1) == Some(i);
          openElements := openElements[..i];
          assert State() == closed;
          return;
        }
      }
    }

    /** `handle_text`: a text node appended to the top of the stack. */
    method HandleText(text: string)
      requires Valid()
      modifies document
      ensures Valid()
      ensures State() == TextStep(old(State()), text)
    {
      ghost var next := TextStep(State(), text);
      TextStepGood(State(), text);
      var id := AppendToTop(Text(text));
      assert State() == next;
    }

    /** `create_node` followed by `append_child` to the element on top of the stack. */
    method AppendToTop(kind: NodeKind) returns (id: nat)
      requires document.Valid() && openElements != [] && Top(openElements) in document.nodes
      modifies document
      ensures id == old(document.nextId) && document.nextId == id + 1
      ensures document.nodes == AppendNew(old(document.nodes), Top(openElements), id, kind)
    {
      ghost var before := document.nodes;
      assert Top(openElements) < document.nextId;
      id := document.CreateNode(kind);
      var parent := openElements[|openElements| - 1];
      assert parent in before && parent < id;
      ghost var created := document.nodes;
      document.AppendChild(parent, id);
      assert document.nodes == Linked(created, parent, id);
    }

    /** `check_external_resources`. */
    method CheckExternalResources(tagName: string, attributes: map<string, string>)
      modifies this`externalResources
      ensures externalResources == old(externalResources) + ResourcesOf(tagName, attributes)
    {
      if tagName == "link" {
        if "rel" in attributes && attributes["rel"] == "stylesheet" {
          if "href" in attributes {
            externalResources := externalResources + [ExternalResource(Stylesheet, attributes["href"], attributes)];
          }
        }
      } else if tagName == "script" {
        if "src" in attributes {
          externalResources := externalResources + [ExternalResource(Script, attributes["src"], attributes)];
        }
      } else if tagName == "img" {
        if "src" in attributes {
          externalResources := externalResources + [ExternalResource(Image, attributes["src"], attributes)];
        }
      }
    }
  }
}
