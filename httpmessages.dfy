/**
 * The HTTP/1.1 messages of the desktop application's remote-control endpoint:
 * the request parser (request line, header/body split at the first empty line,
 * JSON object body) and the response writer (status line, fixed headers,
 * Content-Length, payload).
 *
 * A message is a start line, header lines, an empty line and a body, all lines
 * ended by CRLF (RFC 9112, section 2.1). JSON decoding and encoding are Qt
 * calls and are parameters here: `decode` answers the top-level object of a
 * text, or None when the text is not JSON or not an object; `encode` is the
 * compact JSON text of a value.
 */
module HttpMessages {
  import opened Wrappers
  import opened Json
  import opened Text

  const CRLF := "\r\n"

  /** The parsed request: verb, request-target, JSON object body, verdict and its reason. */
  datatype HttpRequest = HttpRequest(
    verb: string,
    path: string,
    body: map<string, Json>,
    isValid: bool,
    errorMessage: string)

  // ---------------------------------------------------------------- message layout

  /** Header lines, each ended by CRLF. */
  function HeaderBlock(headers: seq<string>): string
    decreases |headers|
  {
    if |headers| == 0 then "" else headers[0] + CRLF + HeaderBlock(headers[1..])
  }

  /** start-line CRLF *( field-line CRLF ) CRLF [ message-body ] */
  function Message(startLine: string, headers: seq<string>, body: string): string
  {
    startLine + CRLF + (HeaderBlock(headers) + CRLF + body)
  }

  predicate LineText(s: string)
  {
    '\r' !in s
  }

  lemma {:induction false} HeaderLines(headers: seq<string>, body: string)
    requires forall k :: 0 <= k < |headers| ==> LineText(headers[k])
    ensures SplitOn(HeaderBlock(headers) + CRLF + body, CRLF) == headers + [""] + SplitOn(body, CRLF)
    decreases |headers|
  {
    if |headers| == 0 {
      StartLineSplit("", body, SplitOn(body, CRLF));
      assert "" + CRLF + body == CRLF + body;
    } else {
      var rest := HeaderBlock(headers[1..]) + CRLF + body;
      HeaderBlockCons(headers, body);
      HeaderLines(headers[1..], body);
      StartLineSplit(headers[0], rest, headers[1..] + [""] + SplitOn(body, CRLF));
      HeadersRegroup(headers, SplitOn(body, CRLF));
    }
  }

  lemma HeaderBlockCons(headers: seq<string>, body: string)
    requires |headers| > 0
    ensures HeaderBlock(headers) + CRLF + body == headers[0] + CRLF + (HeaderBlock(headers[1..]) + CRLF + body)
  {
    var tail := HeaderBlock(headers[1..]);
    assert HeaderBlock(headers) == headers[0] + CRLF + tail;
    Regroup(headers[0], CRLF, tail, CRLF, body);
  }

  lemma Regroup(a: string, b: string, c: string, d: string, e: string)
    ensures a + b + c + d + e == a + b + (c + d + e)
  {
  }

  lemma HeadersRegroup(headers: seq<string>, last: seq<string>)
    requires |headers| > 0
    ensures [headers[0]] + (headers[1..] + [""] + last) == headers + [""] + last
  {
    assert headers == [headers[0]] + headers[1..];
  }

  /**
   * Splitting a message at CRLF gives back its start line, its header lines,
   * the empty line and the lines of its body.
   */
  lemma MessageLines(startLine: string, headers: seq<string>, body: string)
    requires LineText(startLine)
    requires forall k :: 0 <= k < |headers| ==> LineText(headers[k])
    ensures SplitOn(Message(startLine, headers, body), CRLF)
      == [startLine] + headers + [""] + SplitOn(body, CRLF)
  {
    var rest := HeaderBlock(headers) + CRLF + body;
    HeaderLines(headers, body);
    StartLineSplit(startLine, rest, headers + [""] + SplitOn(body, CRLF));
    LinesRegroup(startLine, headers, SplitOn(body, CRLF));
  }

  lemma StartLineSplit(startLine: string, rest: string, restLines: seq<string>)
    requires LineText(startLine) && SplitOn(rest, CRLF) == restLines
    ensures SplitOn(startLine + CRLF + rest, CRLF) == [startLine] + restLines
  {
    SplitAtFirst(startLine, CRLF, rest);
  }

  lemma LinesRegroup(first: string, middle: seq<string>, last: seq<string>)
    ensures [first] + (middle + [""] + last) == [first] + middle + [""] + last
  {
  }

  // ---------------------------------------------------------------- request parsing

  /** Index of the first empty line at or after `from`, if any. */
  function FirstEmptyLine(lines: seq<string>, from: nat): (r: Option<nat>)
    ensures r.Some? ==> (from <= r.value < |lines| && lines[r.value] == ""
                         && forall k :: from <= k < r.value ==> lines[k] != "")
    ensures r.None? ==> forall k :: from <= k < |lines| ==> lines[k] != ""
    decreases |lines| - from
  {
    if from >= |lines| then None
    else if lines[from] == "" then Some(from)
    else FirstEmptyLine(lines, from + 1)
  }

  /** What the parser makes of the body lines once the request line is read. */
  function ParseBody(verb: string, path: string, bodyText: string,
                     decode: string -> Option<map<string, Json>>): HttpRequest
  {
    if IsBlank(bodyText) then HttpRequest(verb, path, map[], true, "")
    else match decode(bodyText)
      case None => HttpRequest(verb, path, map[], false, "Invalid JSON")
      case Some(obj) =>
        if verb != "GET" && ("symbol" !in obj || "exchange" !in obj) then
          HttpRequest(verb, path, obj, false, "Missing required fields: symbol, exchange")
        else HttpRequest(verb, path, obj, true, "")
  }

  /**
   * The request the parser reads from the received text. A request line with
   * fewer than three space-separated tokens is rejected; otherwise the verb is
   * the first token and the path the second. Every rejected request carries a
   * reason, and an accepted request other than GET either has no body or has
   * both a "symbol" and an "exchange" field.
   */
  function ParseRequest(data: string, decode: string -> Option<map<string, Json>>): (r: HttpRequest)
    ensures var tokens := SplitOn(SplitOn(data, CRLF)[0], " ");
      (|tokens| < 3 ==> !r.isValid && r.errorMessage == "Invalid request line")
      && (|tokens| >= 3 ==> r.verb == tokens[0] && r.path == tokens[1])
    ensures !r.isValid <==> r.errorMessage != ""
    ensures r.isValid && r.verb != "GET" && r.body != map[] ==> "symbol" in r.body && "exchange" in r.body
  {
    var lines := SplitOn(data, CRLF);
    var requestLine := SplitOn(lines[0], " ");
    if |requestLine| < 3 then HttpRequest("", "", map[], false, "Invalid request line")
    else
      var empty := FirstEmptyLine(lines, 1);
      if empty.Some? && empty.value + 1 < |lines| then
        ParseBody(requestLine[0], requestLine[1], Join(lines[empty.value + 1..], CRLF), decode)
      else HttpRequest(requestLine[0], requestLine[1], map[], true, "")
  }

  /**
   * `parseHttpRequest`: reads the request line, scans for the first empty line
   * after it and parses what follows as the JSON body.
   */
  method ParseHttpRequest(data: string, decode: string -> Option<map<string, Json>>)
    returns (request: HttpRequest)
    ensures request == ParseRequest(data, decode)
  {
    var lines := SplitOn(data, CRLF);
    var requestLine := SplitOn(lines[0], " ");
    if |requestLine| < 3 {
      return HttpRequest("", "", map[], false, "Invalid request line");
    }
    var verb := requestLine[0];
    var path := requestLine[1];
    var emptyLineIndex := -1;
    var i := 1;
    while i < |lines|
      invariant 1 <= i <= |lines|
      invariant emptyLineIndex == -1
      invariant FirstEmptyLine(lines, 1) == FirstEmptyLine(lines, i)
      decreases |lines| - i
    {
      if lines[i] == "" {
        emptyLineIndex := i;
        break;
      }
      i := i + 1;
    }
    assert emptyLineIndex >= 0 ==> FirstEmptyLine(lines, 1) == Some(emptyLineIndex);
    assert emptyLineIndex < 0 ==> FirstEmptyLine(lines, 1).None?;
    if emptyLineIndex >= 0 && emptyLineIndex + 1 < |lines| {
      var bodyStr := Join(lines[emptyLineIndex + 1..], CRLF);
      if !IsBlank(bodyStr) {
        var parsed := decode(bodyStr);
        if parsed.None? {
          return HttpRequest(verb, path, map[], false, "Invalid JSON");
        }
        var body := parsed.value;
        if verb != "GET" {
          if "symbol" !in body || "exchange" !in body {
            return HttpRequest(verb, path, body, false, "Missing required fields: symbol, exchange");
          }
        }
        return HttpRequest(verb, path, body, true, "");
      }
    }
    request := HttpRequest(verb, path, map[], true, "");
  }

  /** The request text a client writes: request line, header lines, empty line, body. */
  function RequestText(verb: string, target: string, headers: seq<string>, body: string): string
  {
    Message(verb + " " + target + " HTTP/1.1", headers, body)
  }

  /**
   * The parser reads back what a well-formed client wrote: verb and
   * request-target (free of spaces and CR), non-empty header lines, and the
   * whole body after the empty line, CRLFs inside it included. A blank body is
   * no body, a body the decoder refuses is "Invalid JSON", and a decoded object
   * becomes the request body when the verb is GET or it names both fields.
   */
  lemma ParseRequestText(verb: string, target: string, headers: seq<string>, body: string,
                         decode: string -> Option<map<string, Json>>)
    requires ' ' !in verb && ' ' !in target && LineText(verb) && LineText(target)
    requires forall k :: 0 <= k < |headers| ==> LineText(headers[k]) && headers[k] != ""
    ensures var r := ParseRequest(RequestText(verb, target, headers, body), decode);
      r.verb == verb && r.path == target
      && (IsBlank(body) ==> r.isValid && r.body == map[])
      && (!IsBlank(body) && decode(body).None? ==> !r.isValid && r.errorMessage == "Invalid JSON")
      && (!IsBlank(body) && decode(body).Some?
          && (verb == "GET" || ("symbol" in decode(body).value && "exchange" in decode(body).value))
          ==> r.isValid && r.body == decode(body).value)
  {
    var lines := SplitOn(RequestText(verb, target, headers, body), CRLF);
    RequestTextLines(verb, target, headers, body);
    var e := 1 + |headers|;
    assert FirstEmptyLine(lines, 1) == Some(e);
    JoinSplit(body, CRLF);
    assert ParseRequest(RequestText(verb, target, headers, body), decode)
      == ParseBody(verb, target, body, decode);
  }

  /** The lines of a client's request text, with the request line already split at spaces. */
  lemma RequestTextLines(verb: string, target: string, headers: seq<string>, body: string)
    requires ' ' !in verb && ' ' !in target && LineText(verb) && LineText(target)
    requires forall k :: 0 <= k < |headers| ==> LineText(headers[k]) && headers[k] != ""
    ensures var lines := SplitOn(RequestText(verb, target, headers, body), CRLF);
      |lines| > 2 + |headers|
      && SplitOn(lines[0], " ") == [verb, target, "HTTP/1.1"]
      && (forall k :: 1 <= k < 1 + |headers| ==> lines[k] != "")
      && lines[1 + |headers|] == ""
      && lines[2 + |headers|..] == SplitOn(body, CRLF)
  {
    var startLine := verb + " " + target + " HTTP/1.1";
    assert LineText(startLine) by {
      assert LineText(" HTTP/1.1");
    }
    MessageLines(startLine, headers, body);
    RequestLineTokens(verb, target);
    var lines := SplitOn(RequestText(verb, target, headers, body), CRLF);
    assert lines == [startLine] + headers + [""] + SplitOn(body, CRLF);
    assert forall k :: 1 <= k < 1 + |headers| ==> lines[k] == headers[k - 1];
  }

  lemma RequestLineTokens(verb: string, target: string)
    requires ' ' !in verb && ' ' !in target
    ensures SplitOn(verb + " " + target + " HTTP/1.1", " ") == [verb, target, "HTTP/1.1"]
  {
    TargetThenVersion(verb, target);
    SplitAtFirst(verb, " ", target + " " + "HTTP/1.1");
    SplitAtFirst(target, " ", "HTTP/1.1");
    assert ' ' !in "HTTP/1.1";
    SplitNoSeparator("HTTP/1.1", ' ');
  }

  lemma TargetThenVersion(verb: string, target: string)
    ensures verb + " " + target + " HTTP/1.1" == verb + " " + (target + " " + "HTTP/1.1")
  {
    assert " HTTP/1.1" == " " + "HTTP/1.1";
  }

  // ---------------------------------------------------------------- responses

  /** The JSON object sent back: the handler's body, plus an "error" key for a non-empty error. */
  function ResponseBody(body: map<string, Json>, errorMessage: string): (r: map<string, Json>)
    ensures "error" in r <==> errorMessage != "" || "error" in body
    ensures errorMessage != "" ==> r["error"] == JString(errorMessage)
    ensures forall k :: k in body && k != "error" ==> k in r && r[k] == body[k]
    ensures forall k :: k in r && k != "error" ==> k in body
    ensures r == map[] <==> body == map[] && errorMessage == ""
  {
    if errorMessage != "" then body["error" := JString(errorMessage)] else body
  }

  /** The payload bytes: nothing for an empty object, its compact JSON text otherwise. */
  function Payload(body: map<string, Json>, errorMessage: string, encode: Json -> string): string
  {
    var responseBody := ResponseBody(body, errorMessage);
    if responseBody == map[] then "" else encode(JObject(responseBody))
  }

  function StatusLine(statusCode: int, statusMessage: string): string
  {
    "HTTP/1.1 " + IntToString(statusCode) + " " + statusMessage
  }

  function ResponseHeaders(payload: string): seq<string>
  {
    ["Content-Type: application/json",
     "Access-Control-Allow-Origin: *",
     "Connection: close",
     "Content-Length: " + Decimal(|payload|)]
  }

  /** The response text written to the socket: status line, fixed headers, Content-Length, payload. */
  function ResponseText(statusCode: int, statusMessage: string, payload: string): string
  {
    Message(StatusLine(statusCode, statusMessage), ResponseHeaders(payload), payload)
  }

  /** `sendHttpResponse`: the response for a handler's status, body and error message. */
  function HttpResponse(statusCode: int, statusMessage: string, body: map<string, Json>,
                        errorMessage: string, encode: Json -> string): string
  {
    ResponseText(statusCode, statusMessage, Payload(body, errorMessage, encode))
  }

  lemma ResponseLines(statusCode: nat, statusMessage: string, payload: string)
    requires LineText(statusMessage)
    ensures SplitOn(ResponseText(statusCode, statusMessage, payload), CRLF)
      == [StatusLine(statusCode, statusMessage)] + ResponseHeaders(payload) + [""] + SplitOn(payload, CRLF)
  {
    StatusLineText(statusCode, statusMessage);
    ResponseHeadersText(payload);
    MessageLines(StatusLine(statusCode, statusMessage), ResponseHeaders(payload), payload);
  }

  /** A decimal numeral holds neither CR nor space. */
  lemma DecimalPlain(n: nat)
    ensures LineText(Decimal(n)) && ' ' !in Decimal(n)
  {
    var d := Decimal(n);
    assert forall k :: 0 <= k < |d| ==> IsDigit(d[k]);
  }

  lemma StatusLineText(statusCode: nat, statusMessage: string)
    requires LineText(statusMessage)
    ensures LineText(StatusLine(statusCode, statusMessage))
  {
    DecimalPlain(statusCode);
    assert LineText("HTTP/1.1 ") && LineText(" ");
  }

  lemma ResponseHeadersText(payload: string)
    ensures forall k :: 0 <= k < |ResponseHeaders(payload)| ==> LineText(ResponseHeaders(payload)[k])
  {
    var headers := ResponseHeaders(payload);
    assert LineText(headers[0]);
    assert LineText(headers[1]);
    assert LineText(headers[2]);
    DecimalPlain(|payload|);
    assert LineText("Content-Length: ");
    assert LineText(headers[3]);
  }

  /**
   * The status line reads back as version, numeric status code and reason
   * phrase (RFC 9112, section 4): the first line splits at spaces into
   * "HTTP/1.1", the decimal code, and the reason's own words.
   */
  lemma StatusLineRoundTrip(statusCode: nat, statusMessage: string, payload: string)
    requires LineText(statusMessage)
    ensures var line := SplitOn(ResponseText(statusCode, statusMessage, payload), CRLF)[0];
      var parts := SplitOn(line, " ");
      |parts| >= 3 && parts[0] == "HTTP/1.1"
      && AllDigits(parts[1]) && DecimalValue(parts[1]) == statusCode
      && Join(parts[2..], " ") == statusMessage
  {
    ResponseLines(statusCode, statusMessage, payload);
    StatusLineParts(statusCode, statusMessage);
    DecimalRoundTrip(statusCode);
    JoinSplit(statusMessage, " ");
  }

  /** The status line splits at spaces into the version, the code's numeral and the reason's words. */
  lemma StatusLineParts(statusCode: nat, statusMessage: string)
    ensures SplitOn(StatusLine(statusCode, statusMessage), " ")
      == ["HTTP/1.1", Decimal(statusCode)] + SplitOn(statusMessage, " ")
  {
    var d := Decimal(statusCode);
    DecimalPlain(statusCode);
    assert StatusLine(statusCode, statusMessage) == "HTTP/1.1" + " " + (d + " " + statusMessage);
    SplitAtFirst("HTTP/1.1", " ", d + " " + statusMessage);
    SplitAtFirst(d, " ", statusMessage);
  }

  /**
   * Framing (RFC 9110, section 8.6): the header lines are the three fixed ones
   * and a Content-Length whose value is the number of payload bytes, and the
   * text after the empty line is exactly the payload.
   */
  lemma ResponseFraming(statusCode: nat, statusMessage: string, payload: string)
    requires LineText(statusMessage)
    ensures var lines := SplitOn(ResponseText(statusCode, statusMessage, payload), CRLF);
      |lines| >= 7
      && lines[1] == "Content-Type: application/json"
      && lines[2] == "Access-Control-Allow-Origin: *"
      && lines[3] == "Connection: close"
      && StartsWith(lines[4], "Content-Length: ")
      && AllDigits(lines[4][16..]) && DecimalValue(lines[4][16..]) == |payload|
      && lines[5] == ""
      && Join(lines[6..], CRLF) == payload
  {
    ResponseLines(statusCode, statusMessage, payload);
    var lines := SplitOn(ResponseText(statusCode, statusMessage, payload), CRLF);
    assert lines[4] == "Content-Length: " + Decimal(|payload|);
    assert lines[4][16..] == Decimal(|payload|);
    DecimalRoundTrip(|payload|);
    assert lines[6..] == SplitOn(payload, CRLF);
    JoinSplit(payload, CRLF);
  }

  /** With an empty body and no error message the response announces and carries no payload. */
  lemma EmptyResponsePayload(statusCode: int, statusMessage: string, encode: Json -> string)
    ensures Payload(map[], "", encode) == ""
    ensures HttpResponse(statusCode, statusMessage, map[], "", encode)
      == Message(StatusLine(statusCode, statusMessage),
                 ["Content-Type: application/json", "Access-Control-Allow-Origin: *",
                  "Connection: close", "Content-Length: 0"], "")
  {
    assert Decimal(0) == "0";
    assert "Content-Length: " + Decimal(0) == "Content-Length: 0";
    assert ResponseHeaders("") == ["Content-Type: application/json", "Access-Control-Allow-Origin: *",
                                   "Connection: close", "Content-Length: 0"];
  }
}
