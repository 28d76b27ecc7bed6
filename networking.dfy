/**
 * The networking crate's value types and its simulated `XMLHttpRequest`
 * (networking/src/lib.rs): HTTP method names, status codes and their
 * classes (section 15 of RFC 9110), header lookup, and the ready-state
 * machine of a request whose network exchange is replaced by a fixed
 * "Hello, World!" response.
 */
module Networking {
  import W = Wrappers
  import opened Text

  /** An unsigned 16-bit status code. */
  type U16 = c: int | 0 <= c < 0x1_0000

  /** The error of every failing operation modelled here (`NetworkError::ParseError`). */
  datatype NetworkError = ParseError(message: string)

  // ---------------------------------------------------------------------
  // Methods
  // ---------------------------------------------------------------------

  datatype HttpMethod = GET | POST | PUT | DELETE | PATCH | HEAD | OPTIONS

  /** The upper-case name of a method, as `from_str` matches it. */
  function MethodName(m: HttpMethod): string {
    match m
    case GET => "GET"
    case POST => "POST"
    case PUT => "PUT"
    case DELETE => "DELETE"
    case PATCH => "PATCH"
    case HEAD => "HEAD"
    case OPTIONS => "OPTIONS"
  }

  /** `HttpMethod::from_str`: the name upper-cased, then one of the seven names. */
  function MethodFromStr(s: string): W.Result<HttpMethod, NetworkError> {
    var u := ToUpper(s);
    if u == "GET" then W.Ok(GET)
    else if u == "POST" then W.Ok(POST)
    else if u == "PUT" then W.Ok(PUT)
    else if u == "DELETE" then W.Ok(DELETE)
    else if u == "PATCH" then W.Ok(PATCH)
    else if u == "HEAD" then W.Ok(HEAD)
    else if u == "OPTIONS" then W.Ok(OPTIONS)
    else W.Err(ParseError("Invalid HTTP method: " + s))
  }

  /**
   * Parsing accepts exactly the strings whose upper-casing is a method
   * name, and then gives that method; anything else is a ParseError that
   * quotes the input.
   */
  lemma MethodFromStrAccepts(s: string)
    ensures MethodFromStr(s).Ok? <==> exists m :: MethodName(m) == ToUpper(s)
    ensures MethodFromStr(s).Ok? ==> MethodName(MethodFromStr(s).value) == ToUpper(s)
    ensures MethodFromStr(s).Err? ==> MethodFromStr(s).error == ParseError("Invalid HTTP method: " + s)
  {
    if MethodFromStr(s).Ok? {
      assert MethodName(MethodFromStr(s).value) == ToUpper(s);
    }
  }

  lemma UpperOfLower(s: string)
    ensures ToUpper(ToLower(s)) == ToUpper(s)
  {
    assert forall i :: 0 <= i < |s| ==> ToUpperChar(ToLowerChar(s[i])) == ToUpperChar(s[i]);
  }

  lemma UpperOfUpper(s: string)
    requires forall i :: 0 <= i < |s| ==> 'A' <= s[i] <= 'Z'
    ensures ToUpper(s) == s
  {
  }

  /**
   * Every method's name parses back to that method, in upper or lower
   * case, and a string parses as its lower-case form does.
   */
  lemma {:induction false} MethodNameRoundTrip(m: HttpMethod, s: string)
    ensures MethodFromStr(MethodName(m)) == W.Ok(m)
    ensures MethodFromStr(ToLower(MethodName(m))) == W.Ok(m)
    ensures MethodFromStr(ToLower(s)).Ok? == MethodFromStr(s).Ok?
  {
    UpperOfUpper(MethodName(m));
    UpperOfLower(MethodName(m));
    UpperOfLower(s);
  }

  // ---------------------------------------------------------------------
  // Status codes
  // ---------------------------------------------------------------------

  datatype HttpStatus =
    | Ok | Created | Accepted | NoContent
    | MovedPermanently | Found | NotModified
    | BadRequest | Unauthorized | Forbidden | NotFound | MethodNotAllowed
    | InternalServerError | BadGateway | ServiceUnavailable | GatewayTimeout
    | Custom(code: U16)

  /** `HttpStatus::from_code`: a named status for the sixteen known codes, `Custom` otherwise. */
  function FromCode(code: U16): HttpStatus {
    match code
    case 200 => Ok
    case 201 => Created
    case 202 => Accepted
    case 204 => NoContent
    case 301 => MovedPermanently
    case 302 => Found
    case 304 => NotModified
    case 400 => BadRequest
    case 401 => Unauthorized
    case 403 => Forbidden
    case 404 => NotFound
    case 405 => MethodNotAllowed
    case 500 => InternalServerError
    case 502 => BadGateway
    case 503 => ServiceUnavailable
    case 504 => GatewayTimeout
    case _ => Custom(code)
  }

  /** The numeric code a status stands for. */
  function CodeOf(s: HttpStatus): U16 {
    match s
    case Ok => 200
    case Created => 201
    case Accepted => 202
    case NoContent => 204
    case MovedPermanently => 301
    case Found => 302
    case NotModified => 304
    case BadRequest => 400
    case Unauthorized => 401
    case Forbidden => 403
    case NotFound => 404
    case MethodNotAllowed => 405
    case InternalServerError => 500
    case BadGateway => 502
    case ServiceUnavailable => 503
    case GatewayTimeout => 504
    case Custom(c) => c
  }

  /** A status as `from_code` produces it: a `Custom` status never carries a named code. */
  predicate Canonical(s: HttpStatus) {
    s.Custom? ==> FromCode(s.code) == s
  }

  predicate IsSuccess(s: HttpStatus) {
    match s
    case Ok | Created | Accepted | NoContent => true
    case Custom(c) => 200 <= c < 300
    case _ => false
  }

  predicate IsRedirect(s: HttpStatus) {
    match s
    case MovedPermanently | Found => true
    case Custom(c) => 300 <= c < 400
    case _ => false
  }

  predicate IsClientError(s: HttpStatus) {
    match s
    case BadRequest | Unauthorized | Forbidden | NotFound | MethodNotAllowed => true
    case Custom(c) => 400 <= c < 500
    case _ => false
  }

  predicate IsServerError(s: HttpStatus) {
    match s
    case InternalServerError | BadGateway | ServiceUnavailable | GatewayTimeout => true
    case Custom(c) => 500 <= c < 600
    case _ => false
  }

  /** `from_code` keeps the code, and gives back every status it can produce. */
  lemma FromCodeRoundTrip(c: U16, s: HttpStatus)
    ensures CodeOf(FromCode(c)) == c
    ensures Canonical(FromCode(c))
    ensures Canonical(s) ==> FromCode(CodeOf(s)) == s
  {
  }

  /** Success, client error and server error are the code ranges 2xx, 4xx and 5xx. */
  lemma StatusClasses(c: U16)
    ensures IsSuccess(FromCode(c)) <==> 200 <= c < 300
    ensures IsClientError(FromCode(c)) <==> 400 <= c < 500
    ensures IsServerError(FromCode(c)) <==> 500 <= c < 600
  {
  }

  /** A redirect is a 3xx code other than 304: Not Modified is not a redirect. */
  lemma RedirectClass(c: U16)
    ensures IsRedirect(FromCode(c)) <==> 300 <= c < 400 && c != 304
    ensures !IsRedirect(NotModified)
  {
  }

  function Count(b: bool): nat { if b then 1 else 0 }

  /** No status, whatever its code, is in two classes. */
  lemma AtMostOneClass(s: HttpStatus)
    ensures Count(IsSuccess(s)) + Count(IsRedirect(s)) + Count(IsClientError(s)) + Count(IsServerError(s)) <= 1
  {
  }

  // ---------------------------------------------------------------------
  // Requests and responses
  // ---------------------------------------------------------------------

  /** `HttpRequest`; the timeout is kept in whole seconds. */
  datatype HttpRequest = HttpRequest(
    httpMethod: HttpMethod,
    url: string,
    headers: map<string, string>,
    body: W.Option<seq<bv8>>,
    timeoutSeconds: W.Option<nat>,
    followRedirects: bool,
    maxRedirects: nat,
    credentials: bool)

  /** `HttpRequest::new`: no headers, no body, a 30 second timeout, up to 5 redirects, no credentials. */
  function NewRequest(m: HttpMethod, url: string): (r: HttpRequest)
    ensures r.httpMethod == m && r.url == url && r.headers == map[] && r.body.None?
    ensures r.timeoutSeconds == W.Some(30) && r.followRedirects && r.maxRedirects == 5 && !r.credentials
  {
    HttpRequest(m, url, map[], W.None, W.Some(30), true, 5, false)
  }

  /** `HttpRequest::set_header`: the name as given, the value replacing any earlier one. */
  function SetHeader(r: HttpRequest, name: string, value: string): (r': HttpRequest)
    ensures name in r'.headers && r'.headers[name] == value
    ensures forall n :: n != name ==> (n in r'.headers <==> n in r.headers)
    ensures forall n :: n != name && n in r.headers ==> r'.headers[n] == r.headers[n]
    ensures r' == r.(headers := r'.headers)
  {
    r.(headers := r.headers[name := value])
  }

  datatype HttpResponse = HttpResponse(
    status: HttpStatus,
    statusCode: U16,
    headers: map<string, string>,
    body: seq<bv8>,
    url: string)

  /** `HttpResponse::get_header`: the stored headers are looked up by the lower-cased name. */
  function GetHeader(r: HttpResponse, name: string): W.Option<string> {
    var key := ToLower(name);
    if key in r.headers then W.Some(r.headers[key]) else W.None
  }

  /** Header lookup ignores the case of the queried name. */
  lemma GetHeaderIgnoresCase(r: HttpResponse, name: string)
    ensures GetHeader(r, name) == GetHeader(r, ToLower(name))
    ensures GetHeader(r, name).Some? <==> ToLower(name) in r.headers
  {
    ToLowerIdempotent(name);
  }

  /** `str::parse::<usize>`: an optional `+`, then at least one digit, in range. */
  function ParseUsize(s: string): W.Option<nat> {
    var digits := if |s| > 0 && s[0] == '+' then s[1..] else s;
    if digits != [] && forall i :: 0 <= i < |digits| ==> IsAsciiDigit(digits[i]) then
      var v := DigitsValue(digits);
      if v < 0x1_0000_0000_0000_0000 then W.Some(v) else W.None
    else W.None
  }

  /** Reading back the decimal form of a `usize` gives the number. */
  lemma ParseUsizeOfNatToString(n: nat)
    requires n < 0x1_0000_0000_0000_0000
    ensures ParseUsize(NatToString(n)) == W.Some(n)
  {
    var r := NatToString(n);
    assert IsAsciiDigit(r[0]);
    DigitsValueOfNatToString(n);
  }

  /** `HttpResponse::content_length`. */
  function ContentLength(r: HttpResponse): W.Option<nat> {
    match GetHeader(r, "content-length")
    case None => W.None
    case Some(v) => ParseUsize(v)
  }

  /** `FetchResponse`: a wrapped response. */
  datatype FetchResponse = FetchResponse(response: HttpResponse)

  /** `FetchResponse::ok`. */
  predicate FetchOk(f: FetchResponse) {
    IsSuccess(f.response.status)
  }

  /** A response whose status was made from its code is ok exactly for a 2xx code. */
  lemma FetchOkIsSuccessCode(f: FetchResponse)
    requires f.response.status == FromCode(f.response.statusCode)
    ensures FetchOk(f) <==> 200 <= f.response.statusCode < 300
  {
    StatusClasses(f.response.statusCode);
  }

  // ---------------------------------------------------------------------
  // XMLHttpRequest
  // ---------------------------------------------------------------------

  datatype ReadyState = Unsent | Opened | HeadersReceived | Loading | Done

  /**
   * A point at which a registered callback runs: `onreadystatechange`
   * with the state just entered, or `onload`.
   */
  datatype XhrEvent = ReadyStateChange(state: ReadyState) | LoadEvent

  /** The fields of an `XMLHttpRequest` other than its callbacks, plus the events it fired. */
  datatype Xhr = Xhr(
    request: HttpRequest,
    response: W.Option<HttpResponse>,
    readyState: ReadyState,
    status: U16,
    statusText: string,
    responseText: string,
    responseXml: W.Option<string>,
    isAborted: bool,
    events: seq<XhrEvent>)

  /** `XMLHttpRequest::new`. */
  function InitialXhr(): Xhr {
    Xhr(NewRequest(GET, ""), W.None, Unsent, 0, "", "", W.None, false, [])
  }

  /** The body of the simulated response, the bytes of "Hello, World!". */
  const HelloBody: seq<bv8> := [0x48, 0x65, 0x6c, 0x6c, 0x6f, 0x2c, 0x20, 0x57, 0x6f, 0x72, 0x6c, 0x64, 0x21]

  /** `String::from_utf8_lossy` on ASCII bytes: one character per byte. */
  function AsciiText(b: seq<bv8>): (t: string)
    requires forall i :: 0 <= i < |b| ==> b[i] < 0x80
    ensures |t| == |b|
    ensures forall i :: 0 <= i < |b| ==> t[i] as int == b[i] as int
  {
    seq(|b|, i requires 0 <= i < |b| => (b[i] as int) as char)
  }

  /** The simulated response to a request for `url`. */
  function SimulatedResponse(url: string): HttpResponse {
    HttpResponse(Ok, 200,
      map["content-type" := "text/plain", "content-length" := NatToString(|HelloBody|)],
      HelloBody, url)
  }

  /** `simulate_request`: Loading, then the simulated response and Done, then `onload`. */
  function Simulate(x: Xhr): Xhr {
    var resp := SimulatedResponse(x.request.url);
    x.(readyState := Done, response := W.Some(resp), status := 200, statusText := "OK",
       responseText := AsciiText(resp.body),
       events := x.events + [ReadyStateChange(Loading), ReadyStateChange(Done), LoadEvent])
  }

  /** `open`: only from Unsent, and only for a known method; then a new request and Opened. */
  function OpenStep(x: Xhr, methodName: string, url: string): (Xhr, W.Result<(), NetworkError>) {
    if x.readyState != Unsent then (x, W.Err(ParseError("Request already opened")))
    else
      match MethodFromStr(methodName)
      case Err(e) => (x, W.Err(e))
      case Ok(m) =>
        (x.(request := NewRequest(m, url), readyState := Opened, events := x.events + [ReadyStateChange(Opened)]), W.Ok(()))
  }

  /** `set_request_header`: only when Opened. */
  function SetRequestHeaderStep(x: Xhr, name: string, value: string): (Xhr, W.Result<(), NetworkError>) {
    if x.readyState != Opened then (x, W.Err(ParseError("Request not opened")))
    else (x.(request := SetHeader(x.request, name, value)), W.Ok(()))
  }

  /** `send`: only when Opened; the body is stored, HeadersReceived, then the simulated exchange. */
  function SendStep(x: Xhr, body: W.Option<seq<bv8>>): (Xhr, W.Result<(), NetworkError>) {
    if x.readyState != Opened then (x, W.Err(ParseError("Request not opened")))
    else
      var sent := x.(request := x.request.(body := body), readyState := HeadersReceived,
                     events := x.events + [ReadyStateChange(HeadersReceived)]);
      (Simulate(sent), W.Ok(()))
  }

  /** `abort`: from any state, back to Unsent and marked aborted. */
  function AbortStep(x: Xhr): Xhr {
    x.(isAborted := true, readyState := Unsent, events := x.events + [ReadyStateChange(Unsent)])
  }

  /**
   * `open` succeeds exactly from Unsent with a known method, and then the
   * request is a fresh one for that method and URL and the state Opened;
   * when it fails nothing changes.
   */
  lemma OpenOnlyFromUnsent(x: Xhr, methodName: string, url: string)
    ensures OpenStep(x, methodName, url).1.Ok? <==> x.readyState == Unsent && MethodFromStr(methodName).Ok?
    ensures x.readyState != Unsent ==> OpenStep(x, methodName, url).1 == W.Err(ParseError("Request already opened"))
    ensures OpenStep(x, methodName, url).1.Err? ==> OpenStep(x, methodName, url).0 == x
    ensures OpenStep(x, methodName, url).1.Ok? ==>
              var y := OpenStep(x, methodName, url).0;
              y.readyState == Opened && y.request == NewRequest(MethodFromStr(methodName).value, url)
              && y.response == x.response && y.status == x.status && y.isAborted == x.isAborted
              && y.events == x.events + [ReadyStateChange(Opened)]
  {
  }

  /** A header can be set only on an opened request, and then it is recorded. */
  lemma SetHeaderOnlyWhenOpened(x: Xhr, name: string, value: string)
    ensures SetRequestHeaderStep(x, name, value).1.Ok? <==> x.readyState == Opened
    ensures SetRequestHeaderStep(x, name, value).1.Err? ==> SetRequestHeaderStep(x, name, value).0 == x
    ensures SetRequestHeaderStep(x, name, value).1.Ok? ==>
              var y := SetRequestHeaderStep(x, name, value).0;
              y.readyState == Opened && y.request.headers == x.request.headers[name := value]
              && y.request.httpMethod == x.request.httpMethod && y.request.url == x.request.url
  {
  }

  /**
   * `send` succeeds exactly on an opened request and then completes: Done,
   * status 200 "OK", a non-empty response text that is the body's text, a
   * content length equal to the body's length, a plain-text content type,
   * and the states HeadersReceived, Loading, Done announced in that order
   * before `onload`. When it fails nothing changes.
   */
  lemma SendCompletes(x: Xhr, body: W.Option<seq<bv8>>)
    ensures SendStep(x, body).1.Ok? <==> x.readyState == Opened
    ensures SendStep(x, body).1.Err? ==> SendStep(x, body).0 == x
    ensures SendStep(x, body).1.Ok? ==>
              var y := SendStep(x, body).0;
              y.readyState == Done && y.status == 200 && y.statusText == "OK"
              && y.responseText != [] && y.request.body == body && y.request.url == x.request.url
              && y.response.Some?
              && y.responseText == AsciiText(y.response.value.body)
              && IsSuccess(y.response.value.status)
              && ContentLength(y.response.value) == W.Some(|y.response.value.body|)
              && GetHeader(y.response.value, "Content-Type") == W.Some("text/plain")
              && y.events == x.events + [ReadyStateChange(HeadersReceived), ReadyStateChange(Loading),
                                         ReadyStateChange(Done), LoadEvent]
  {
    ParseUsizeOfNatToString(|HelloBody|);
    assert ToLower("content-length") == "content-length";
    assert ToLower("Content-Type") == "content-type";
  }

  /** `abort` works from any state, and afterwards the request can be opened again. */
  lemma AbortThenOpen(x: Xhr, methodName: string, url: string)
    ensures AbortStep(x).readyState == Unsent && AbortStep(x).isAborted
    ensures OpenStep(AbortStep(x), methodName, url).1.Ok? <==> MethodFromStr(methodName).Ok?
  {
  }

  /**
   * The request lifecycle of the crate's own example: open a GET, set a
   * header, send; the request ends Done with status 200 and a response text.
   */
  lemma GetSession(url: string, name: string, value: string)
    ensures var a := OpenStep(InitialXhr(), "GET", url);
            var b := SetRequestHeaderStep(a.0, name, value);
            var c := SendStep(b.0, W.None);
            a.1.Ok? && b.1.Ok? && c.1.Ok?
            && c.0.readyState == Done && c.0.status == 200 && c.0.responseText != []
  {
    MethodNameRoundTrip(GET, "");
  }

  /** `XMLHttpRequest`, its fields updated in place by its methods. */
  class XMLHttpRequest {
    var request: HttpRequest
    var response: W.Option<HttpResponse>
    var readyState: ReadyState
    var status: U16
    var statusText: string
    var responseText: string
    var responseXml: W.Option<string>
    var isAborted: bool
    /** The callback points reached so far, in order. */
    var events: seq<XhrEvent>

    /** All fields as one value. */
    function State(): Xhr
      reads this
    {
      Xhr(request, response, readyState, status, statusText, responseText, responseXml, isAborted, events)
    }

    constructor ()
      ensures State() == InitialXhr()
    {
      request := NewRequest(GET, "");
      response := W.None;
      readyState := Unsent;
      status := 0;
      statusText := "";
      responseText := "";
      responseXml := W.None;
      isAborted := false;
      events := [];
    }

    /** `trigger_readystatechange`: the callback, if any, sees the current state. */
    method TriggerReadyStateChange()
      modifies this
      ensures State() == old(State()).(events := old(events) + [ReadyStateChange(readyState)])
    {
      events := events + [ReadyStateChange(readyState)];
    }

    method Open(methodName: string, url: string) returns (r: W.Result<(), NetworkError>)
      modifies this
      ensures (State(), r) == OpenStep(old(State()), methodName, url)
    {
      if readyState != Unsent {
        return W.Err(ParseError("Request already opened"));
      }
      var parsed := MethodFromStr(methodName);
      if parsed.Err? {
        return W.Err(parsed.error);
      }
      request := NewRequest(parsed.value, url);
      readyState := Opened;
      TriggerReadyStateChange();
      r := W.Ok(());
    }

    method SetRequestHeader(name: string, value: string) returns (r: W.Result<(), NetworkError>)
      modifies this
      ensures (State(), r) == SetRequestHeaderStep(old(State()), name, value)
    {
      if readyState != Opened {
        return W.Err(ParseError("Request not opened"));
      }
      request := SetHeader(request, name, value);
      r := W.Ok(());
    }

    method Send(body: W.Option<seq<bv8>>) returns (r: W.Result<(), NetworkError>)
      modifies this
      ensures (State(), r) == SendStep(old(State()), body)
    {
      if readyState != Opened {
        return W.Err(ParseError("Request not opened"));
      }
      request := request.(body := body);
      readyState := HeadersReceived;
      TriggerReadyStateChange();
      SimulateRequest();
      r := W.Ok(());
    }

    /** `simulate_request`. */
    method SimulateRequest()
      modifies this
      ensures State() == Simulate(old(State()))
    {
      readyState := Loading;
      TriggerReadyStateChange();
      var resp := HttpResponse(Ok, 200, map[], HelloBody, request.url);
      resp := resp.(headers := resp.headers["content-type" := "text/plain"]);
      resp := resp.(headers := resp.headers["content-length" := NatToString(|resp.body|)]);
      response := W.Some(resp);
      status := 200;
      statusText := "OK";
      responseText := AsciiText(resp.body);
      readyState := Done;
      TriggerReadyStateChange();
      events := events + [LoadEvent];
    }

    method Abort()
      modifies this
      ensures State() == AbortStep(old(State()))
    {
      isAborted := true;
      readyState := Unsent;
      TriggerReadyStateChange();
    }
  }
}
