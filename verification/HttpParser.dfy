// The request header parser: a cursor walks over the CRLF separated lines of one header.
module HttpParser {
  import opened Text
  import opened DynamicBuffers
  import Decimal

  datatype HttpMethod = Unknown | Get | Post

  datatype HttpRequest = HttpRequest(
    verb: HttpMethod,
    uri: string,
    version: string,
    headers: map<string, string>,
    contentLength: Option<nat>,
    chunkedTransferEncoding: bool)

  const EMPTY_REQUEST := HttpRequest(Unknown, "", "", map[], None, false)

  datatype ParseError = NoError | BadRequest | LengthRequired | NotImplementedChunked

  // The error code together with the request filled in so far.
  datatype ParseResult = ParseResult(error: ParseError, request: HttpRequest)

  const UINT64_RANGE: nat := 0x1_0000_0000_0000_0000

  // ---------------------------------------------------------------- specification

  function ParseMethodToken(token: string): HttpMethod {
    if token == "GET" then Get else if token == "POST" then Post else Unknown
  }

  predicate IsSupportedVersion(version: string) {
    version == "HTTP/1.1" || version == "HTTP/1.0"
  }

  function RequestLine(line: string, request: HttpRequest): ParseResult {
    match Find(line, " ", 0)
    case None => ParseResult(BadRequest, request)
    case Some(first) =>
      match Find(line, " ", first + 1)
      case None => ParseResult(BadRequest, request)
      case Some(second) =>
        var verb := ParseMethodToken(line[..first]);
        var uri := line[first + 1..second];
        var version := line[second + 1..];
        if verb == Unknown || uri == "" || !IsSupportedVersion(version) then ParseResult(BadRequest, request)
        else ParseResult(NoError, request.(verb := verb, uri := uri, version := version))
  }

  predicate ContainsToken(value: string, token: string) {
    Find(Lower(value), token, 0).Some?
  }

  // std::stoull on the whole value: an optional sign, then digits that fit 64 bits; a minus
  // sign negates modulo 2^64.
  function ContentLengthValue(value: string): (r: Option<nat>)
    ensures r.Some? ==> r.value < UINT64_RANGE
  {
    var text := Trimmed(value);
    var signed := text != "" && (text[0] == '+' || text[0] == '-');
    var digits := if signed then text[1..] else text;
    if digits == "" || !Decimal.AllDigits(digits) || Decimal.Value(digits) >= UINT64_RANGE then None
    else if signed && text[0] == '-' then Some((UINT64_RANGE - Decimal.Value(digits)) % UINT64_RANGE)
    else Some(Decimal.Value(digits))
  }

  lemma TrimmedKeeps(text: string)
    requires text != "" && !IsSpace(text[0]) && !IsSpace(text[|text| - 1])
    ensures Trimmed(text) == text
  {
  }

  lemma NumeralIsRead(digits: string)
    requires digits != "" && Decimal.AllDigits(digits)
    ensures ContentLengthValue(digits) == if Decimal.Value(digits) < UINT64_RANGE then Some(Decimal.Value(digits)) else None
  {
    TrimmedKeeps(digits);
  }

  lemma SignedNumeralIsRead(sign: char, digits: string)
    requires (sign == '+' || sign == '-') && digits != "" && Decimal.AllDigits(digits)
    ensures var value := Decimal.Value(digits);
            ContentLengthValue([sign] + digits) ==
            if value >= UINT64_RANGE then None else if sign == '+' || value == 0 then Some(value) else Some(UINT64_RANGE - value)
  {
    var text := [sign] + digits;
    assert text[1..] == digits && text[|text| - 1] == digits[|digits| - 1];
    TrimmedKeeps(text);
  }

  ghost predicate IsNumeral(text: string, sign: string, digits: string) {
    && (sign == "" || sign == "+" || sign == "-") && digits != "" && Decimal.AllDigits(digits)
    && Decimal.Value(digits) < 18446744073709551616 && text == sign + digits
  }

  // Nothing but a numeral that fits 64 bits, with or without a sign, is read as a length.
  lemma OnlyNumeralsAreRead(value: string)
    ensures ContentLengthValue(value).Some? <==> exists sign, digits :: IsNumeral(Trimmed(value), sign, digits)
  {
    var text := Trimmed(value);
    if ContentLengthValue(value).Some? {
      var signed := text[0] == '+' || text[0] == '-';
      var sign, digits := if signed then [text[0]] else "", if signed then text[1..] else text;
      assert text == sign + digits && IsNumeral(text, sign, digits);
    }
    if exists sign, digits :: IsNumeral(text, sign, digits) {
      var sign, digits :| IsNumeral(text, sign, digits);
      NumeralIsOne(text, sign, digits);
    }
  }

  lemma NumeralIsOne(text: string, sign: string, digits: string)
    requires IsNumeral(text, sign, digits)
    ensures text != "" && (if text[0] == '+' || text[0] == '-' then text[1..] == digits else text == digits)
  {
    if sign == "" {
      assert text == digits && Decimal.IsDigit(digits[0]);
    } else {
      assert text[0] == sign[0] && text[1..] == digits;
    }
  }

  // A printed number reads back unless it takes more than 64 bits.
  lemma ContentLengthReadsBack(n: nat)
    ensures ContentLengthValue(Decimal.Digits(n)) == if n < 18446744073709551616 then Some(n) else None
  {
    Decimal.ValueOfDigits(n);
    NumeralIsRead(Decimal.Digits(n));
  }

  // A plus sign in front of it changes nothing, a minus sign wraps around.
  lemma SignedLengthReadsBack(n: nat)
    ensures ContentLengthValue(['+'] + Decimal.Digits(n)) == if n < 18446744073709551616 then Some(n) else None
    ensures ContentLengthValue(['-'] + Decimal.Digits(n)) ==
            if n >= 18446744073709551616 then None else if n == 0 then Some(0) else Some(18446744073709551616 - n)
  {
    Decimal.ValueOfDigits(n);
    SignedNumeralIsRead('+', Decimal.Digits(n));
    SignedNumeralIsRead('-', Decimal.Digits(n));
  }

  function HeaderLine(line: string, request: HttpRequest): ParseResult {
    match Find(line, ":", 0)
    case None => ParseResult(BadRequest, request)
    case Some(colon) =>
      var key := Lower(Trimmed(line[..colon]));
      var value := Trimmed(line[colon + 1..]);
      if colon == 0 || key == "" then ParseResult(BadRequest, request) else HeaderField(key, value, request)
  }

  function HeaderField(key: string, value: string, request: HttpRequest): ParseResult {
    var added := request.(headers := request.headers[key := value]);
    var marked :=
      if key == "transfer-encoding" && ContainsToken(value, "chunked")
      then added.(chunkedTransferEncoding := true) else added;
    if key != "content-length" then ParseResult(NoError, marked)
    else
      match ContentLengthValue(value)
      case None => ParseResult(BadRequest, marked)
      case Some(n) => ParseResult(NoError, marked.(contentLength := Some(n)))
  }

  // How one header line is read into the request.
  type LineReader = (string, HttpRequest) -> ParseResult

  // What the cursor loop computes from position cursor on.
  function ScanLines(read: LineReader, header: string, cursor: nat, request: HttpRequest): ParseResult
    decreases |header| - cursor
  {
    if cursor >= |header| then ParseResult(NoError, request)
    else
      match Find(header, CRLF, cursor)
      case None => ParseResult(BadRequest, request)
      case Some(end) =>
        if end == cursor then ParseResult(NoError, request)
        else
          var r := read(header[cursor..end], request);
          if r.error != NoError then r else ScanLines(read, header, end + 2, r.request)
  }

  // The two checks made once every line has been read.
  function Verdict(r: ParseResult): ParseResult {
    if r.error != NoError then r
    else if r.request.chunkedTransferEncoding then r.(error := NotImplementedChunked)
    else if r.request.verb == Post && r.request.contentLength.None? then r.(error := LengthRequired)
    else r
  }

  function Parse(header: string): ParseResult {
    match Find(header, CRLF, 0)
    case None => ParseResult(BadRequest, EMPTY_REQUEST)
    case Some(end) =>
      var r := RequestLine(header[..end], EMPTY_REQUEST);
      if r.error != NoError then r else Verdict(ScanLines(HeaderLine, header, end + 2, r.request))
  }

  // ---------------------------------------------------------------- the parser

  method Trim(text: string) returns (r: string)
    ensures r == Trimmed(text)
  {
    var begin := 0;
    assert text[0..] == text;
    while begin < |text| && IsSpace(text[begin])
      invariant begin <= |text|
      invariant Trimmed(text) == Trimmed(text[begin..])
    {
      assert text[begin..][1..] == text[begin + 1..];
      begin := begin + 1;
    }
    var end := |text|;
    assert text[begin..end] == text[begin..];
    while end > begin && IsSpace(text[end - 1])
      invariant begin <= end <= |text|
      invariant Trimmed(text) == Trimmed(text[begin..end])
      invariant begin < end ==> !IsSpace(text[begin])
    {
      var rest := text[begin..end];
      assert rest[..|rest| - 1] == text[begin..end - 1];
      end := end - 1;
    }
    r := text[begin..end];
  }

  method LowercaseCopy(text: string) returns (r: string)
    ensures r == Lower(text)
  {
    r := "";
    for i := 0 to |text|
      invariant |r| == i
      invariant forall j :: 0 <= j < i ==> r[j] == ToLower(text[j])
    {
      r := r + [ToLower(text[i])];
    }
  }

  method ParseHeaderLine(line: string, request: HttpRequest) returns (error: ParseError, filled: HttpRequest)
    ensures ParseResult(error, filled) == HeaderLine(line, request)
  {
    filled := request;
    var colon := Find(line, ":", 0);
    if colon.None? || colon.value == 0 {
      return BadRequest, filled;
    }
    var key := Trim(line[..colon.value]);
    key := LowercaseCopy(key);
    var value := Trim(line[colon.value + 1..]);
    if key == "" {
      return BadRequest, filled;
    }
    assert HeaderLine(line, request) == HeaderField(key, value, request);
    filled := filled.(headers := filled.headers[key := value]);
    if key == "transfer-encoding" && ContainsToken(value, "chunked") {
      filled := filled.(chunkedTransferEncoding := true);
    }
    if key == "content-length" {
      var length := ContentLengthValue(value);
      if length.None? {
        return BadRequest, filled;
      }
      filled := filled.(contentLength := length);
    }
    return NoError, filled;
  }

  // The cursor loop.
  method ParseHeaderLines(header: string, start: nat, partial: HttpRequest) returns (error: ParseError, request: HttpRequest)
    ensures ParseResult(error, request) == ScanLines(HeaderLine, header, start, partial)
  {
    var cursor := start;
    error, request := NoError, partial;
    while cursor < |header|
      invariant error == NoError
      invariant ScanLines(HeaderLine, header, start, partial) == ScanLines(HeaderLine, header, cursor, request)
      decreases |header| - cursor
    {
      var nextLineEnd := Find(header, CRLF, cursor);
      if nextLineEnd.None? {
        return BadRequest, request;
      }
      if header[cursor..nextLineEnd.value] == "" {
        return NoError, request;
      }
      error, request := ParseHeaderLine(header[cursor..nextLineEnd.value], request);
      if error != NoError {
        return;
      }
      cursor := nextLineEnd.value + 2;
    }
  }

  method ParseRequestHeader(header: string) returns (error: ParseError, request: HttpRequest)
    ensures ParseResult(error, request) == Parse(header)
  {
    request := EMPTY_REQUEST;
    var firstLineEnd := Find(header, CRLF, 0);
    if firstLineEnd.None? {
      return BadRequest, request;
    }
    var line := RequestLine(header[..firstLineEnd.value], request);
    error, request := line.error, line.request;
    if error != NoError {
      return;
    }
    var cursor := firstLineEnd.value + 2;
    error, request := ParseHeaderLines(header, cursor, request);
    if error != NoError {
      return;
    }
    if request.chunkedTransferEncoding {
      return NotImplementedChunked, request;
    }
    if request.verb == Post && request.contentLength.None? {
      return LengthRequired, request;
    }
    return NoError, request;
  }

  // ---------------------------------------------------------------- reference: split, then fold

  function Lines(text: string): seq<string>
    decreases |text|
  {
    match Find(text, CRLF, 0)
    case None => [text]
    case Some(end) => [text[..end]] + Lines(text[end + 2..])
  }

  function FoldLines(read: LineReader, lines: seq<string>, request: HttpRequest): ParseResult {
    if lines == [] then ParseResult(NoError, request)
    else
      var r := read(lines[0], request);
      if r.error != NoError then r else FoldLines(read, lines[1..], r.request)
  }

  function Reference(lines: seq<string>): ParseResult
    requires lines != []
  {
    var r := RequestLine(lines[0], EMPTY_REQUEST);
    if r.error != NoError then r else Verdict(FoldLines(HeaderLine, lines[1..], r.request))
  }

  // A part of a text up to its first line end is one line ...
  lemma LinesOfPart(text: string, lo: nat, hi: nat, end: nat)
    requires lo <= hi <= |text| && Find(text, CRLF, lo) == Some(end) && end + 2 <= hi
    ensures Lines(text[lo..hi]) == [text[lo..end]] + Lines(text[end + 2..hi])
  {
    FindInPart(text, lo, hi, CRLF);
    var part := text[lo..hi];
    assert part[..end - lo] == text[lo..end];
    assert part[end - lo + 2..] == text[end + 2..hi];
  }

  // ... and a part without a line end is one line altogether.
  lemma LastLineOfPart(text: string, lo: nat, hi: nat, end: nat)
    requires lo <= hi <= |text| && Find(text, CRLF, lo) == Some(end) && hi < end + 2
    ensures Lines(text[lo..hi]) == [text[lo..hi]]
  {
    FindInPart(text, lo, hi, CRLF);
  }

  // The blank line of a whole header, seen as two line ends.
  lemma BlankLineOfWholeHeader(header: string)
    requires IsWholeHeader(header)
    ensures OccursAt(header, CRLF, |header| - 4) && header[|header| - 4] == '\r' && header[|header| - 3] == '\n'
    ensures OccursAt(header, CRLF, |header| - 2)
  {
    FindIsFirst(header, CRLFCRLF, 0);
    BlankLineAt(header, |header| - 4);
    LineEndAt(header, |header| - 4);
  }

  // Every line before the blank line is ended by a line end at or before it.
  lemma NextLineOfWholeHeader(header: string, cursor: nat)
    requires IsWholeHeader(header) && cursor <= |header| - 4
    ensures match Find(header, CRLF, cursor)
            case None => false
            case Some(end) => OccursAt(header, CRLF, end) && (end == |header| - 4 || end + 2 <= |header| - 4)
  {
    BlankLineOfWholeHeader(header);
    FindIsFirst(header, CRLF, cursor);
    LineEndAt(header, Find(header, CRLF, cursor).value);
  }

  // Just after a line end a whole header has another one only at its very end.
  lemma NoEarlierBlankLine(header: string, at: nat)
    requires IsWholeHeader(header) && OccursAt(header, CRLF, at) && OccursAt(header, CRLF, at + 2)
    ensures at == |header| - 4
  {
    FindIsFirst(header, CRLFCRLF, 0);
    BlankLineAt(header, at);
  }

  // The lines of a whole header from a position on, the blank line left out.
  function LinesFrom(header: string, cursor: nat): seq<string>
    requires |header| >= 4
  {
    if cursor > |header| - 4 then [] else Lines(header[cursor..|header| - 4])
  }

  // A cursor that has just passed a line end stands at a non-empty line or at the blank line.
  ghost predicate AtLineStart(header: string, cursor: nat) {
    && IsWholeHeader(header) && 2 <= cursor && OccursAt(header, CRLF, cursor - 2)
    && (cursor <= |header| - 4 || cursor == |header| - 2)
  }

  lemma LinesFromStep(header: string, cursor: nat, end: nat)
    requires |header| >= 4 && cursor <= |header| - 4 && Find(header, CRLF, cursor) == Some(end)
    requires end == |header| - 4 || end + 2 <= |header| - 4
    ensures LinesFrom(header, cursor) == [header[cursor..end]] + LinesFrom(header, end + 2)
  {
    if end == |header| - 4 {
      LastLineOfPart(header, cursor, end, end);
      AloneIsAll(header[cursor..end]);
    } else {
      LinesOfPart(header, cursor, |header| - 4, end);
    }
  }

  lemma AloneIsAll(line: string)
    ensures [line] + [] == [line]
  {
  }

  // A cursor at the start of a line, and the lines still ahead of it. Kept under seal: it comes
  // into view where LinesAhead is called.
  ghost predicate Ahead(header: string, cursor: nat, lines: seq<string>) {
    forall key: int {:trigger InSight(header, key)} :: InSight(header, key) ==>
      AtLineStart(header, cursor) && lines == LinesFrom(header, cursor)
  }

  ghost predicate InSight(header: string, key: int) {
    true
  }

  lemma LinesAhead(header: string, cursor: nat, lines: seq<string>)
    requires Ahead(header, cursor, lines)
    ensures AtLineStart(header, cursor) && lines == LinesFrom(header, cursor)
  {
    assert InSight(header, 0);
  }

  lemma NextLine(header: string, cursor: nat) returns (end: nat)
    requires AtLineStart(header, cursor) && cursor <= |header| - 4
    ensures Find(header, CRLF, cursor) == Some(end) && cursor < end && AtLineStart(header, end + 2)
    ensures LinesFrom(header, cursor) == [header[cursor..end]] + LinesFrom(header, end + 2)
  {
    NextLineOfWholeHeader(header, cursor);
    end := Find(header, CRLF, cursor).value;
    LinesFromStep(header, cursor, end);
    if end == cursor {
      NoEarlierBlankLine(header, cursor - 2);
    }
  }

  lemma NextAhead(header: string, cursor: nat, lines: seq<string>) returns (end: nat)
    requires Ahead(header, cursor, lines) && lines != []
    ensures Find(header, CRLF, cursor) == Some(end) && cursor < end
    ensures lines[0] == header[cursor..end] && Ahead(header, end + 2, lines[1..])
  {
    LinesAhead(header, cursor, lines);
    end := NextLine(header, cursor);
    assert lines[1..] == LinesFrom(header, end + 2);
  }

  lemma NothingAhead(header: string, cursor: nat)
    requires Ahead(header, cursor, [])
    ensures Find(header, CRLF, cursor) == Some(cursor)
  {
    LinesAhead(header, cursor, []);
    if cursor <= |header| - 4 {
      var end := NextLine(header, cursor);
    } else {
      BlankLineOfWholeHeader(header);
      FindIs(header, CRLF, cursor, cursor);
    }
  }

  // These are the lines a cursor walks over until it meets an empty one.
  ghost predicate Walks(header: string, cursor: nat, lines: seq<string>)
    decreases |lines|
  {
    match Find(header, CRLF, cursor)
    case None => false
    case Some(end) =>
      if lines == [] then end == cursor
      else end != cursor && lines[0] == header[cursor..end] && Walks(header, end + 2, lines[1..])
  }

  lemma {:induction false} ScanFoldsWalk(read: LineReader, header: string, cursor: nat, lines: seq<string>, request: HttpRequest)
    requires Walks(header, cursor, lines)
    ensures ScanLines(read, header, cursor, request) == FoldLines(read, lines, request)
    decreases |lines|
  {
    if lines != [] {
      var r := read(lines[0], request);
      if r.error == NoError {
        ScanFoldsWalk(read, header, Find(header, CRLF, cursor).value + 2, lines[1..], r.request);
      }
    }
  }

  lemma {:induction false} LinesAreWalked(header: string, cursor: nat, lines: seq<string>)
    requires Ahead(header, cursor, lines)
    ensures Walks(header, cursor, lines)
    decreases |lines|
  {
    if lines == [] {
      NothingAhead(header, cursor);
    } else {
      var end := NextAhead(header, cursor, lines);
      LinesAreWalked(header, end + 2, lines[1..]);
    }
  }

  lemma ScanStopsAtBlankLine(read: LineReader, header: string, cursor: nat, request: HttpRequest)
    requires AtLineStart(header, cursor)
    ensures ScanLines(read, header, cursor, request) == FoldLines(read, LinesFrom(header, cursor), request)
  {
    LinesAreWalked(header, cursor, LinesFrom(header, cursor));
    ScanFoldsWalk(read, header, cursor, LinesFrom(header, cursor), request);
  }

  // On everything the buffer can pop, the cursor loop is split-at-CRLF followed by a fold over
  // all lines in order: it stops at the final two bytes and never misses a CRLF.
  lemma ParserFoldsEveryLine(header: string)
    requires IsWholeHeader(header)
    ensures Parse(header) == Reference(Lines(header[..|header| - 4]))
  {
    NextLineOfWholeHeader(header, 0);
    var end := Find(header, CRLF, 0).value;
    LinesFromStep(header, 0, end);
    assert header[0..end] == header[..end] && header[0..|header| - 4] == header[..|header| - 4];
    var lines := [header[..end]] + LinesFrom(header, end + 2);
    assert lines[1..] == LinesFrom(header, end + 2);
    var r := RequestLine(header[..end], EMPTY_REQUEST);
    if r.error == NoError {
      ScanStopsAtBlankLine(HeaderLine, header, end + 2, r.request);
    }
  }

  // ---------------------------------------------------------------- what an accepted request is

  // Content-Length is the number in the Content-Length header that was kept (the last one).
  predicate LengthMatchesHeader(request: HttpRequest) {
    request.contentLength ==
      if "content-length" in request.headers then ContentLengthValue(request.headers["content-length"]) else None
  }

  ghost predicate ScannedFrom(before: HttpRequest, after: HttpRequest) {
    && after.verb == before.verb && after.uri == before.uri && after.version == before.version
    && LengthMatchesHeader(after)
  }

  ghost predicate KeepsRequestLine(read: LineReader) {
    forall line, request :: LengthMatchesHeader(request) && read(line, request).error == NoError ==>
      ScannedFrom(request, read(line, request).request)
  }

  lemma FieldKeepsRequestLine(key: string, value: string, request: HttpRequest)
    requires LengthMatchesHeader(request)
    ensures var r := HeaderField(key, value, request); r.error == NoError ==> ScannedFrom(request, r.request)
  {
  }

  lemma HeaderLineKeepsRequestLine()
    ensures KeepsRequestLine(HeaderLine)
  {
    forall line, request | LengthMatchesHeader(request) && HeaderLine(line, request).error == NoError
      ensures ScannedFrom(request, HeaderLine(line, request).request)
    {
      var colon := Find(line, ":", 0).value;
      FieldKeepsRequestLine(Lower(Trimmed(line[..colon])), Trimmed(line[colon + 1..]), request);
    }
  }

  lemma {:induction false} ScanKeepsRequestLine(read: LineReader, header: string, cursor: nat, request: HttpRequest)
    requires KeepsRequestLine(read) && LengthMatchesHeader(request)
    ensures var r := ScanLines(read, header, cursor, request);
            r.error == NoError ==> ScannedFrom(request, r.request)
    decreases |header| - cursor
  {
    if cursor < |header| && Find(header, CRLF, cursor).Some? && Find(header, CRLF, cursor).value != cursor {
      var end := Find(header, CRLF, cursor).value;
      var r := read(header[cursor..end], request);
      if r.error == NoError {
        ScanKeepsRequestLine(read, header, end + 2, r.request);
      }
    }
  }

  lemma AcceptedRequestLine(line: string, request: HttpRequest)
    requires RequestLine(line, request).error == NoError
    ensures var r := RequestLine(line, request).request;
            && (r.verb == Get || r.verb == Post) && r.uri != "" && ' ' !in r.uri && IsSupportedVersion(r.version)
            && r == request.(verb := r.verb, uri := r.uri, version := r.version)
  {
    var first := Find(line, " ", 0).value;
    var second := Find(line, " ", first + 1).value;
    FindIsFirst(line, " ", first + 1);
    var uri := line[first + 1..second];
    forall k | 0 <= k < |uri| ensures uri[k] != ' ' {
      assert !OccursAt(line, " ", first + 1 + k);
      assert line[first + 1 + k..first + 2 + k] == [uri[k]];
    }
  }

  // A request that gets past the parser is one the server can answer: known method, a target
  // without spaces, a supported version, no chunked body, and a length for every POST.
  lemma AcceptedRequest(header: string)
    requires Parse(header).error == NoError
    ensures var request := Parse(header).request;
            && (request.verb == Get || request.verb == Post)
            && request.uri != "" && ' ' !in request.uri
            && IsSupportedVersion(request.version)
            && !request.chunkedTransferEncoding
            && (request.verb == Post ==> request.contentLength.Some?)
            && LengthMatchesHeader(request)
  {
    var end := Find(header, CRLF, 0).value;
    var r := RequestLine(header[..end], EMPTY_REQUEST);
    AcceptedRequestLine(header[..end], EMPTY_REQUEST);
    HeaderLineKeepsRequestLine();
    ScanKeepsRequestLine(HeaderLine, header, end + 2, r.request);
  }
}
