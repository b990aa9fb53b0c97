// What a request header says, line by line, and that the parser reads it so and the server
// answers it so.
module HeaderMeaning {
  import opened Text
  import opened DynamicBuffers
  import opened HttpParser
  import opened Framing
  import opened Connections

  // ---------------------------------------------------------------- the request line

  // A known method, a target without blanks and a known version, one blank between them.
  ghost predicate IsRequestLine(line: string, verb: string, uri: string, version: string) {
    && line == verb + " " + uri + " " + version
    && (verb == "GET" || verb == "POST") && uri != "" && ' ' !in uri
    && (version == "HTTP/1.1" || version == "HTTP/1.0")
  }

  function VerbOf(token: string): HttpMethod {
    if token == "POST" then Post else Get
  }

  lemma ThreeParts(a: string, b: string, c: string)
    ensures var line, second := a + " " + b + " " + c, |a| + 1 + |b|;
            && second < |line| && line[..|a|] == a && line[|a| + 1..second] == b && line[second + 1..] == c
            && line[|a| + 1..|line|] == b + " " + c && line[0..|line|] == a + " " + (b + " " + c)
  {
  }

  lemma NextBlank(line: string, from: nat, word: string, rest: string)
    requires from <= |line| && line[from..|line|] == word + " " + rest && ' ' !in word
    ensures Find(line, " ", from) == Some(from + |word|)
  {
    FindAfter(word, " ", rest);
    FindInPart(line, from, |line|, " ");
  }

  lemma VerbIsRead(verb: string)
    requires verb == "GET" || verb == "POST"
    ensures ' ' !in verb && ParseMethodToken(verb) == VerbOf(verb) != Unknown
  {
  }

  // Such a line is taken apart ...
  lemma RequestLineIsRead(line: string, verb: string, uri: string, version: string, request: HttpRequest)
    requires IsRequestLine(line, verb, uri, version)
    ensures RequestLine(line, request) == ParseResult(NoError, request.(verb := VerbOf(verb), uri := uri, version := version))
  {
    VerbIsRead(verb);
    ThreeParts(verb, uri, version);
    NextBlank(line, 0, verb, uri + " " + version);
    NextBlank(line, |verb| + 1, uri, version);
  }

  lemma Reassemble(line: string, i: nat, j: nat)
    requires i < j < |line| && OccursAt(line, " ", i) && OccursAt(line, " ", j)
    ensures line == line[..i] + " " + line[i + 1..j] + " " + line[j + 1..]
  {
    assert line == line[..i] + line[i..i + 1] + line[i + 1..j] + line[j..j + 1] + line[j + 1..];
  }

  // ... and no other.
  lemma RequestLineIsOne(line: string, request: HttpRequest) returns (verb: string, uri: string, version: string)
    requires RequestLine(line, request).error == NoError
    ensures IsRequestLine(line, verb, uri, version)
  {
    var first := Find(line, " ", 0).value;
    var second := Find(line, " ", first + 1).value;
    FindIsFirst(line, " ", 0);
    FindIsFirst(line, " ", first + 1);
    verb, uri, version := line[..first], line[first + 1..second], line[second + 1..];
    Reassemble(line, first, second);
    AcceptedRequestLine(line, request);
  }

  // ---------------------------------------------------------------- one header line

  // The name before the first colon, in lower case, and the value behind it; white space around
  // either does not matter. No colon, no name.
  function NameOf(line: string): string {
    match Find(line, ":", 0)
    case None => ""
    case Some(colon) => Lower(Trimmed(line[..colon]))
  }

  function ValueOf(line: string): string {
    match Find(line, ":", 0)
    case None => ""
    case Some(colon) => Trimmed(line[colon + 1..])
  }

  lemma FieldOfLine(before: string, after: string)
    requires ':' !in before
    ensures NameOf(before + ":" + after) == Lower(Trimmed(before)) && ValueOf(before + ":" + after) == Trimmed(after)
  {
    var line := before + ":" + after;
    FindAfter(before, ":", after);
    assert line[..|before|] == before && line[|before| + 1..] == after;
  }

  // A line without a name, or with a length that is not a number.
  predicate IsMalformed(line: string) {
    NameOf(line) == "" || (NameOf(line) == "content-length" && ContentLengthValue(ValueOf(line)).None?)
  }

  ghost predicate SaysChunked(line: string) {
    NameOf(line) == "transfer-encoding" && exists k :: OccursAt(Lower(ValueOf(line)), "chunked", k)
  }

  lemma TokenIsFound(value: string, token: string)
    ensures ContainsToken(value, token) <==> exists k :: OccursAt(Lower(value), token, k)
  {
    FindIsFirst(Lower(value), token, 0);
  }

  lemma NamelessLine(line: string)
    requires Find(line, ":", 0) == Some(0)
    ensures NameOf(line) == ""
  {
    assert line[..0] == "";
  }

  lemma LineIsRead(line: string, request: HttpRequest)
    ensures var r, name, value := HeaderLine(line, request), NameOf(line), ValueOf(line);
            && r.error == (if IsMalformed(line) then BadRequest else NoError)
            && (r.request.chunkedTransferEncoding <==> request.chunkedTransferEncoding || SaysChunked(line))
            && (!IsMalformed(line) ==>
                  r.request == request.(headers := request.headers[name := value],
                                        chunkedTransferEncoding := r.request.chunkedTransferEncoding,
                                        contentLength := if name == "content-length" then ContentLengthValue(value) else request.contentLength))
  {
    TokenIsFound(ValueOf(line), "chunked");
    if Find(line, ":", 0) == Some(0) {
      NamelessLine(line);
    }
  }

  // ---------------------------------------------------------------- all header lines

  ghost predicate AllReadable(lines: seq<string>) {
    forall line :: line in lines ==> !IsMalformed(line)
  }

  // The lines are read until one is malformed.
  lemma {:induction false} LinesAreRead(lines: seq<string>, request: HttpRequest)
    ensures var r := FoldLines(HeaderLine, lines, request);
            && r.error == (if AllReadable(lines) then NoError else BadRequest)
            && r.request.verb == request.verb && r.request.uri == request.uri && r.request.version == request.version
  {
    if lines != [] {
      LineIsRead(lines[0], request);
      assert lines == [lines[0]] + lines[1..];
      if !IsMalformed(lines[0]) {
        LinesAreRead(lines[1..], HeaderLine(lines[0], request).request);
      }
      OnlyRequestLineSets(lines[0], request);
    }
  }

  lemma OnlyRequestLineSets(line: string, request: HttpRequest)
    ensures var r := HeaderLine(line, request).request;
            r.verb == request.verb && r.uri == request.uri && r.version == request.version
  {
  }

  // One of the lines says chunked, and everything in front of it can be read.
  ghost predicate SomeSaysChunked(lines: seq<string>) {
    exists i :: 0 <= i < |lines| && SaysChunked(lines[i]) && AllReadable(lines[..i])
  }

  lemma ReadableBehind(lines: seq<string>, i: nat)
    requires 0 < i <= |lines|
    ensures AllReadable(lines[..i]) <==> !IsMalformed(lines[0]) && AllReadable(lines[1..][..i - 1])
  {
    assert lines[..i] == [lines[0]] + lines[1..][..i - 1];
  }

  lemma SaidLater(lines: seq<string>)
    requires lines != [] && !IsMalformed(lines[0]) && SomeSaysChunked(lines[1..])
    ensures SomeSaysChunked(lines)
  {
    var i :| 0 <= i < |lines[1..]| && SaysChunked(lines[1..][i]) && AllReadable(lines[1..][..i]);
    ReadableBehind(lines, i + 1);
    assert SaysChunked(lines[i + 1]) && AllReadable(lines[..i + 1]);
  }

  lemma SaidFirstOrLater(lines: seq<string>)
    requires lines != []
    ensures SomeSaysChunked(lines) <==> SaysChunked(lines[0]) || (!IsMalformed(lines[0]) && SomeSaysChunked(lines[1..]))
  {
    if SaysChunked(lines[0]) {
      assert AllReadable(lines[..0]);
    } else if SomeSaysChunked(lines) {
      var i :| 0 <= i < |lines| && SaysChunked(lines[i]) && AllReadable(lines[..i]);
      ReadableBehind(lines, i);
      assert SaysChunked(lines[1..][i - 1]);
    } else if !IsMalformed(lines[0]) && SomeSaysChunked(lines[1..]) {
      SaidLater(lines);
    }
  }

  lemma {:induction false} ChunksAreNoticed(lines: seq<string>, request: HttpRequest)
    ensures FoldLines(HeaderLine, lines, request).request.chunkedTransferEncoding
            <==> request.chunkedTransferEncoding || SomeSaysChunked(lines)
  {
    if lines != [] {
      LineIsRead(lines[0], request);
      SaidFirstOrLater(lines);
      if !IsMalformed(lines[0]) {
        ChunksAreNoticed(lines[1..], HeaderLine(lines[0], request).request);
      }
    }
  }

  // The value of the last line of a name, if there is one.
  function LastValue(lines: seq<string>, name: string): Option<string> {
    if lines == [] then None
    else
      var later := LastValue(lines[1..], name);
      if later.Some? then later else if NameOf(lines[0]) == name then Some(ValueOf(lines[0])) else None
  }

  lemma {:induction false} LastValueIsLast(lines: seq<string>, name: string)
    ensures match LastValue(lines, name)
            case None => forall line :: line in lines ==> NameOf(line) != name
            case Some(value) => exists i :: 0 <= i < |lines| && NameOf(lines[i]) == name && ValueOf(lines[i]) == value
                                            && forall j :: i < j < |lines| ==> NameOf(lines[j]) != name
  {
    if lines != [] {
      var rest := lines[1..];
      LastValueIsLast(rest, name);
      if LastValue(rest, name).Some? {
        var i :| 0 <= i < |rest| && NameOf(rest[i]) == name && ValueOf(rest[i]) == LastValue(rest, name).value
                 && forall j :: i < j < |rest| ==> NameOf(rest[j]) != name;
        assert lines[i + 1] == rest[i];
        forall j | i + 1 < j < |lines| ensures NameOf(lines[j]) != name {
          assert lines[j] == rest[j - 1];
        }
      } else {
        forall j | 0 < j < |lines| ensures NameOf(lines[j]) != name {
          assert lines[j] == rest[j - 1];
        }
      }
    }
  }

  // Every name has the value of its last line.
  lemma {:induction false} LastLineWins(lines: seq<string>, request: HttpRequest, name: string)
    requires AllReadable(lines)
    ensures var headers, value := FoldLines(HeaderLine, lines, request).request.headers, LastValue(lines, name);
            if value.Some? then name in headers && headers[name] == value.value
            else (name in headers <==> name in request.headers) && (name in headers ==> headers[name] == request.headers[name])
  {
    if lines != [] {
      LineIsRead(lines[0], request);
      LastLineWins(lines[1..], HeaderLine(lines[0], request).request, name);
    }
  }

  lemma {:induction false} LastLengthWins(lines: seq<string>, request: HttpRequest)
    requires AllReadable(lines)
    ensures var value := LastValue(lines, "content-length");
            FoldLines(HeaderLine, lines, request).request.contentLength ==
            if value.Some? then ContentLengthValue(value.value) else request.contentLength
  {
    if lines != [] {
      LineIsRead(lines[0], request);
      LastLengthWins(lines[1..], HeaderLine(lines[0], request).request);
    }
  }

  // ---------------------------------------------------------------- whole headers

  // The lines of a header that the buffer can pop: the request line and the header lines.
  function HeaderLines(header: string): (lines: seq<string>)
    requires IsWholeHeader(header)
    ensures lines != []
  {
    Lines(header[..|header| - 4])
  }

  ghost predicate HasRequestLine(header: string)
    requires IsWholeHeader(header)
  {
    exists verb, uri, version :: IsRequestLine(HeaderLines(header)[0], verb, uri, version)
  }

  ghost predicate IsPost(header: string)
    requires IsWholeHeader(header)
  {
    exists uri, version :: IsRequestLine(HeaderLines(header)[0], "POST", uri, version)
  }

  ghost predicate IsReadable(header: string)
    requires IsWholeHeader(header)
  {
    HasRequestLine(header) && AllReadable(HeaderLines(header)[1..])
  }

  // Some header line says chunked and can be reached.
  ghost predicate IsChunked(header: string)
    requires IsWholeHeader(header)
  {
    SomeSaysChunked(HeaderLines(header)[1..])
  }

  // What a header gives for a name: the value of the last line of that name.
  function FieldValue(header: string, name: string): Option<string>
    requires IsWholeHeader(header)
  {
    LastValue(HeaderLines(header)[1..], name)
  }

  // A header whose request line is in order: the rest is a fold over its other lines.
  lemma ParsedBehindRequestLine(header: string, verb: string, uri: string, version: string)
    requires IsWholeHeader(header) && IsRequestLine(HeaderLines(header)[0], verb, uri, version)
    ensures var first := EMPTY_REQUEST.(verb := VerbOf(verb), uri := uri, version := version);
            Parse(header) == Verdict(FoldLines(HeaderLine, HeaderLines(header)[1..], first))
    ensures IsPost(header) <==> verb == "POST"
  {
    ParserFoldsEveryLine(header);
    var line := HeaderLines(header)[0];
    RequestLineIsRead(line, verb, uri, version, EMPTY_REQUEST);
    if IsPost(header) {
      var uri', version' :| IsRequestLine(line, "POST", uri', version');
      RequestLineIsRead(line, "POST", uri', version', EMPTY_REQUEST);
    }
  }

  lemma WithoutRequestLine(header: string)
    requires IsWholeHeader(header) && !HasRequestLine(header)
    ensures Parse(header).error == BadRequest
  {
    ParserFoldsEveryLine(header);
    var line := HeaderLines(header)[0];
    if RequestLine(line, EMPTY_REQUEST).error == NoError {
      var verb, uri, version := RequestLineIsOne(line, EMPTY_REQUEST);
      assert false;
    }
  }

  // The verdict on a header, from its lines alone.
  lemma VerdictOnHeader(header: string)
    requires IsWholeHeader(header)
    ensures Parse(header).error ==
            if !IsReadable(header) then BadRequest
            else if IsChunked(header) then NotImplementedChunked
            else if IsPost(header) && FieldValue(header, "content-length").None? then LengthRequired
            else NoError
    ensures HasRequestLine(header) ==> (Parse(header).request.chunkedTransferEncoding <==> IsChunked(header))
  {
    if HasRequestLine(header) {
      var verb, uri, version :| IsRequestLine(HeaderLines(header)[0], verb, uri, version);
      ParsedBehindRequestLine(header, verb, uri, version);
      var fields, first := HeaderLines(header)[1..], EMPTY_REQUEST.(verb := VerbOf(verb), uri := uri, version := version);
      LinesAreRead(fields, first);
      ChunksAreNoticed(fields, first);
      if AllReadable(fields) {
        LastLengthWins(fields, first);
        LengthIsReadable(fields);
      }
    } else {
      WithoutRequestLine(header);
    }
  }

  lemma LengthIsReadable(lines: seq<string>)
    requires AllReadable(lines)
    ensures var value := LastValue(lines, "content-length"); value.Some? ==> ContentLengthValue(value.value).Some?
  {
    if LastValue(lines, "content-length").Some? {
      var line := LineOfLastValue(lines, "content-length");
      assert !IsMalformed(line);
    }
  }

  lemma LineOfLastValue(lines: seq<string>, name: string) returns (line: string)
    requires LastValue(lines, name).Some?
    ensures line in lines && NameOf(line) == name && LastValue(lines, name) == Some(ValueOf(line))
  {
    LastValueIsLast(lines, name);
    var i :| 0 <= i < |lines| && NameOf(lines[i]) == name && ValueOf(lines[i]) == LastValue(lines, name).value;
    line := lines[i];
  }

  // What an accepted header has been read as: the parts of its request line, and for every name
  // the value of its last line. None of its lines says chunked.
  lemma AcceptedHeader(header: string) returns (verb: string, uri: string, version: string)
    requires IsWholeHeader(header) && Parse(header).error == NoError
    ensures IsRequestLine(HeaderLines(header)[0], verb, uri, version)
    ensures forall line :: line in HeaderLines(header)[1..] ==> !IsMalformed(line) && !SaysChunked(line)
    ensures var request := Parse(header).request;
            && request.verb == VerbOf(verb) && request.uri == uri && request.version == version
            && (forall name :: match FieldValue(header, name)
                               case None => name !in request.headers
                               case Some(value) => name in request.headers && request.headers[name] == value)
            && request.contentLength == (match FieldValue(header, "content-length")
                                         case None => None
                                         case Some(value) => ContentLengthValue(value))
  {
    VerdictOnHeader(header);
    verb, uri, version :| IsRequestLine(HeaderLines(header)[0], verb, uri, version);
    ParsedBehindRequestLine(header, verb, uri, version);
    var fields, first := HeaderLines(header)[1..], EMPTY_REQUEST.(verb := VerbOf(verb), uri := uri, version := version);
    LinesAreRead(fields, first);
    NobodySaysChunked(fields);
    LastLengthWins(fields, first);
    forall name ensures match FieldValue(header, name)
                        case None => name !in Parse(header).request.headers
                        case Some(value) => name in Parse(header).request.headers && Parse(header).request.headers[name] == value {
      LastLineWins(fields, first, name);
    }
  }

  lemma NobodySaysChunked(lines: seq<string>)
    requires AllReadable(lines) && !SomeSaysChunked(lines)
    ensures forall line :: line in lines ==> !SaysChunked(line)
  {
    forall i | 0 <= i < |lines| ensures !SaysChunked(lines[i]) {
      assert AllReadable(lines[..i]);
    }
  }

  // What the server does with a header, from its lines alone.
  lemma AdmissionOfHeader(header: string)
    requires IsWholeHeader(header)
    ensures var length := FieldValue(header, "content-length");
            Admit(Parse(header)) ==
            if !IsReadable(header) then Refused(400)
            else if IsChunked(header) then Refused(501)
            else if IsPost(header) && length.None? then Refused(411)
            else if length.Some? && ContentLengthValue(length.value).Some? && ContentLengthValue(length.value).value > 8388608 then Refused(413)
            else Accepted(Parse(header).request)
  {
    VerdictOnHeader(header);
    if Parse(header).error == NoError {
      var verb, uri, version := AcceptedHeader(header);
    }
  }

  ghost predicate Mentions(value: Option<string>, token: string) {
    value.Some? && exists k :: OccursAt(Lower(value.value), token, k)
  }

  lemma ConnectionIsRead(request: HttpRequest, connection: Option<string>, token: string)
    requires match connection
             case None => "connection" !in request.headers
             case Some(value) => "connection" in request.headers && request.headers["connection"] == value
    ensures Mentions(connection, token) <==> "connection" in request.headers && ContainsToken(request.headers["connection"], token)
  {
    if connection.Some? {
      TokenIsFound(connection.value, token);
    }
  }

  // A request keeps its connection alive, under HTTP/1.1 unless its last Connection line mentions
  // close, under HTTP/1.0 only if it mentions keep-alive.
  lemma KeepAliveOfHeader(header: string)
    requires IsWholeHeader(header) && Parse(header).error == NoError
    ensures var request, connection := Parse(header).request, FieldValue(header, "connection");
            && (request.version == "HTTP/1.1" || request.version == "HTTP/1.0")
            && (ShouldKeepAlive(request) <==>
                if request.version == "HTTP/1.1" then !Mentions(connection, "close") else Mentions(connection, "keep-alive"))
  {
    var verb, uri, version := AcceptedHeader(header);
    ConnectionIsRead(Parse(header).request, FieldValue(header, "connection"), "close");
    ConnectionIsRead(Parse(header).request, FieldValue(header, "connection"), "keep-alive");
  }

  // ---------------------------------------------------------------- whole requests

  // What a client sends for one request: a header, and as many bytes of body as it announces.
  datatype Message = Message(header: string, body: string)

  ghost predicate IsMessage(m: Message) {
    && IsWholeHeader(m.header) && Admit(Parse(m.header)).Accepted?
    && (match FieldValue(m.header, "content-length")
        case None => m.body == ""
        case Some(value) => ContentLengthValue(value) == Some(|m.body|))
  }

  function Bytes(messages: seq<Message>): string {
    if messages == [] then "" else messages[0].header + messages[0].body + Bytes(messages[1..])
  }

  function RequestsOf(messages: seq<Message>): seq<HttpRequest> {
    if messages == [] then [] else [Parse(messages[0].header).request] + RequestsOf(messages[1..])
  }

  lemma HeaderComesFirst(header: string, more: string)
    requires IsWholeHeader(header)
    ensures HasCompleteHeader(header + more) && FirstHeader(header + more) == header && AfterFirstHeader(header + more) == more
  {
    FirstHeaderInExtension(header, more);
    assert FirstHeader(header) == header && AfterFirstHeader(header) == "";
    assert "" + more == more;
  }

  lemma AnnouncedIsFramed(m: Message)
    requires IsMessage(m)
    ensures Parse(m.header).error == NoError && BodyLength(Parse(m.header).request) == |m.body| <= MAX_BODY_BYTES
  {
    var verb, uri, version := AcceptedHeader(m.header);
  }

  lemma MessageIsSplit(m: Message, rest: string)
    requires IsMessage(m)
    ensures Split(Parse, AtHeader, m.header + m.body + rest) == Prepend([Parse(m.header).request], Split(Parse, AtHeader, rest))
  {
    var stream, request := m.header + m.body + rest, Parse(m.header).request;
    assert stream == m.header + (m.body + rest);
    HeaderComesFirst(m.header, m.body + rest);
    AnnouncedIsFramed(m);
    BodyIsSplit(request, m.body, rest);
  }

  lemma BodyIsSplit(request: HttpRequest, body: string, rest: string)
    ensures Split(Parse, InBody(request, |body|), body + rest) == Prepend([request], Split(Parse, AtHeader, rest))
  {
    assert (body + rest)[|body|..] == rest;
  }

  // Whatever requests are sent one behind the other, the splitter finds just those.
  lemma {:induction false} SplitUndoesSending(messages: seq<Message>, rest: string)
    requires forall m :: m in messages ==> IsMessage(m)
    ensures Split(Parse, AtHeader, Bytes(messages) + rest) == Prepend(RequestsOf(messages), Split(Parse, AtHeader, rest))
  {
    if messages == [] {
      assert "" + rest == rest;
      PrependNothing(Split(Parse, AtHeader, rest));
    } else {
      var m, later := messages[0], Bytes(messages[1..]);
      assert m.header + m.body + later + rest == m.header + m.body + (later + rest);
      MessageIsSplit(m, later + rest);
      SplitUndoesSending(messages[1..], rest);
      PrependTwice([Parse(m.header).request], RequestsOf(messages[1..]), Split(Parse, AtHeader, rest));
    }
  }
}
