// The incremental response reader of the smoke test, and the proof that it undoes the printers.
module ResponseReader {
  import opened Text
  import opened HttpParser
  import opened HttpResponse
  import Decimal
  import Framing

  datatype ReadError = HeaderCutShort | InvalidStatusLine | NotANumber | BodyCutShort

  datatype Reply = Reply(status: int, body: string) | Failed(error: ReadError)

  // ---------------------------------------------------------------- Python text

  // str.strip on latin-1 text.
  predicate IsPythonSpace(c: char) {
    c == ' ' || '\t' <= c <= '\r' || 0x1c <= c as int <= 0x1f || c as int == 0x85 || c as int == 0xa0
  }

  function Strip(text: string): string
    decreases |text|
  {
    if text == "" then ""
    else if IsPythonSpace(text[0]) then Strip(text[1..])
    else if IsPythonSpace(text[|text| - 1]) then Strip(text[..|text| - 1])
    else text
  }

  function ParseNumeral(text: string): Option<nat> {
    if text != "" && Decimal.AllDigits(text) then Some(Decimal.Value(text)) else None
  }

  // int(text); None is the ValueError.
  function ParseInt(text: string): Option<int> {
    var t := Strip(text);
    if t != "" && t[0] == '-' then
      match ParseNumeral(t[1..]) case None => None case Some(n) => var m: int := n; Some(-m)
    else ParseNumeral(if t != "" && t[0] == '+' then t[1..] else t)
  }

  // text[:n]
  function PrefixSlice(text: string, n: int): string {
    if n >= |text| then text else if n >= 0 then text[..n] else if |text| + n >= 0 then text[..|text| + n] else ""
  }

  // ---------------------------------------------------------------- one-shot decoding

  // The second blank-separated field of the status line.
  function StatusField(line: string): Option<string> {
    match Find(line, " ", 0)
    case None => None
    case Some(first) =>
      match Find(line, " ", first + 1)
      case None => Some(line[first + 1..])
      case Some(second) => Some(line[first + 1..second])
  }

  function AddHeader(headers: map<string, string>, line: string): map<string, string> {
    match Find(line, ":", 0)
    case None => headers
    case Some(colon) => headers[Lower(Strip(line[..colon])) := Strip(line[colon + 1..])]
  }

  function Headers(lines: seq<string>): map<string, string> {
    if lines == [] then map[] else AddHeader(Headers(lines[..|lines| - 1]), lines[|lines| - 1])
  }

  // The announced body length, read from the lines after the status line.
  function AnnouncedLength(lines: seq<string>): Option<int> {
    var headers := Headers(lines);
    ParseInt(if "content-length" in headers then headers["content-length"] else "0")
  }

  // What the header lines and the bytes after the blank line amount to.
  function DecodeMessage(lines: seq<string>, body: string): Reply
    requires lines != []
  {
    match StatusField(lines[0])
    case None => Failed(InvalidStatusLine)
    case Some(field) =>
      match AnnouncedLength(lines[1..])
      case None => Failed(NotANumber)
      case Some(length) =>
        if |body| < length then Failed(BodyCutShort)
        else
          match ParseInt(field)
          case None => Failed(NotANumber)
          case Some(status) => Reply(status, PrefixSlice(body, length))
  }

  function Decode(stream: string): Reply {
    match Find(stream, CRLFCRLF, 0)
    case None => Failed(HeaderCutShort)
    case Some(end) => DecodeMessage(Lines(stream[..end]), stream[end + 4..])
  }

  // The status line and the header dictionary that the reader finds at the start of a stream.
  function HeadLines(stream: string): seq<string> {
    match Find(stream, CRLFCRLF, 0)
    case None => []
    case Some(end) => Lines(stream[..end])
  }

  function HeadersOf(stream: string): map<string, string> {
    var lines := HeadLines(stream);
    if lines == [] then map[] else Headers(lines[1..])
  }

  // A negative Content-Length slices from the end of whatever has arrived so far.
  predicate HasNegativeLength(lines: seq<string>)
    requires lines != []
  {
    AnnouncedLength(lines[1..]).Some? && AnnouncedLength(lines[1..]).value < 0
  }

  predicate AnnouncesNegativeLength(stream: string) {
    match Find(stream, CRLFCRLF, 0)
    case None => false
    case Some(end) => HasNegativeLength(Lines(stream[..end]))
  }

  // ---------------------------------------------------------------- the reader

  // recv() yields the pieces in order, then empty strings for end of stream.
  class Socket {
    var pieces: seq<string>

    ghost predicate Valid()
      reads this
    {
      "" !in pieces
    }

    ghost function Unread(): string
      reads this
    {
      Framing.Concat(pieces)
    }

    method Recv() returns (chunk: string)
      requires Valid()
      modifies this
      ensures Valid() && old(Unread()) == chunk + Unread()
      ensures chunk == "" <==> old(pieces) == []
      ensures chunk == "" <==> old(Unread()) == ""
      ensures |pieces| == if chunk == "" then 0 else |old(pieces)| - 1
    {
      ConcatHead(pieces);
      if pieces == [] {
        return "";
      }
      chunk := pieces[0];
      pieces := pieces[1..];
    }
  }

  lemma {:induction false} ConcatHead(pieces: seq<string>)
    ensures pieces != [] ==> Framing.Concat(pieces) == pieces[0] + Framing.Concat(pieces[1..])
  {
    if |pieces| == 1 {
      assert pieces[..0] == [] && pieces[1..] == [];
    } else if |pieces| > 1 {
      var front, last := pieces[..|pieces| - 1], pieces[|pieces| - 1];
      ConcatHead(front);
      assert front[1..] == pieces[1..][..|pieces| - 2];
      assert pieces[1..][|pieces| - 2] == last;
    }
  }

  method ReadHttpResponse(sock: Socket) returns (reply: Reply)
    requires sock.Valid()
    modifies sock
    ensures !AnnouncesNegativeLength(old(sock.Unread())) ==> reply == Decode(old(sock.Unread()))
  {
    ghost var stream := sock.Unread();
    var data := "";
    while Find(data, CRLFCRLF, 0).None?
      invariant sock.Valid() && stream == data + sock.Unread()
      decreases |sock.pieces|
    {
      var chunk := sock.Recv();
      if chunk == "" {
        assert data + "" == data;
        return Failed(HeaderCutShort);
      }
      data := data + chunk;
    }
    FindInExtension(data, sock.Unread(), CRLFCRLF, 0);
    var end := Find(data, CRLFCRLF, 0).value;
    assert stream[..end] == data[..end] && stream[end + 4..] == data[end + 4..] + sock.Unread();
    reply := ReadMessage(sock, Lines(data[..end]), data[end + 4..]);
  }

  // The part of the reader after the blank line: interpret the header lines, then receive
  // until the announced number of body bytes is there.
  method ReadMessage(sock: Socket, lines: seq<string>, received: string) returns (reply: Reply)
    requires sock.Valid() && lines != []
    modifies sock
    ensures !HasNegativeLength(lines) ==> reply == DecodeMessage(lines, received + old(sock.Unread()))
  {
    ghost var whole := received + sock.Unread();
    var field := StatusField(lines[0]);
    if field.None? {
      return Failed(InvalidStatusLine);
    }
    var length := ReadLength(lines);
    if length.None? {
      return Failed(NotANumber);
    }
    var body := received;
    while |body| < length.value
      invariant sock.Valid() && whole == body + sock.Unread()
      decreases |sock.pieces|
    {
      var chunk := sock.Recv();
      if chunk == "" {
        assert body + "" == body;
        return Failed(BodyCutShort);
      }
      body := body + chunk;
    }
    var status := ParseInt(field.value);
    if status.None? {
      return Failed(NotANumber);
    }
    reply := Reply(status.value, PrefixSlice(body, length.value));
  }

  // Fills the header dictionary line by line and looks the length up.
  method ReadLength(lines: seq<string>) returns (length: Option<int>)
    requires lines != []
    ensures length == AnnouncedLength(lines[1..])
  {
    var headers := map[];
    for i := 1 to |lines|
      invariant headers == Headers(lines[1..i])
    {
      assert lines[1..i + 1][..i - 1] == lines[1..i];
      headers := AddHeader(headers, lines[i]);
    }
    assert lines[1..|lines|] == lines[1..];
    length := ParseInt(if "content-length" in headers then headers["content-length"] else "0");
  }

  // ---------------------------------------------------------------- round trip

  // Lines separated by CRLF.
  function Join(lines: seq<string>): string
    requires lines != []
  {
    if |lines| == 1 then lines[0] else lines[0] + CRLF + Join(lines[1..])
  }

  ghost predicate IsPlainLine(line: string) {
    line != "" && '\r' !in line
  }

  lemma LastLine(line: string)
    requires IsPlainLine(line)
    ensures Lines(line) == [line]
  {
    forall j | 0 <= j ensures !OccursAt(line, CRLF, j) {
      OccurrenceHead(line, CRLF, j);
    }
    FindIsNone(line, CRLF, 0);
  }

  lemma FirstLine(line: string, rest: string)
    requires IsPlainLine(line)
    ensures Lines(line + CRLF + rest) == [line] + Lines(rest)
  {
    var text := line + CRLF + rest;
    FindAfter(line, CRLF, rest);
    assert text[..|line|] == line && text[|line| + 2..] == rest;
  }

  lemma {:induction false} LinesOfJoin(lines: seq<string>)
    requires lines != [] && forall l :: l in lines ==> IsPlainLine(l)
    ensures Lines(Join(lines)) == lines
  {
    assert IsPlainLine(lines[0]);
    if |lines| == 1 {
      LastLine(lines[0]);
    } else {
      LinesOfJoin(lines[1..]);
      FirstLine(lines[0], Join(lines[1..]));
    }
  }

  lemma JoinStartsPlain(lines: seq<string>)
    requires lines != [] && IsPlainLine(lines[0])
    ensures Join(lines) != "" && Join(lines)[0] != '\r'
  {
  }

  // The blank line is found right after the joined lines, whatever the body contains.
  lemma {:induction false} BlankLineAfterJoin(lines: seq<string>, body: string)
    requires lines != [] && forall l :: l in lines ==> IsPlainLine(l)
    ensures Find(Join(lines) + CRLFCRLF + body, CRLFCRLF, 0) == Some(|Join(lines)|)
  {
    var head := Join(lines);
    if |lines| == 1 {
      assert IsPlainLine(lines[0]);
      FindAfter(head, CRLFCRLF, body);
    } else {
      var line, rest := lines[0], Join(lines[1..]) + CRLFCRLF + body;
      var text := head + CRLFCRLF + body;
      var skip := |line| + 2;
      assert text == line + CRLF + rest;
      BlankLineAfterJoin(lines[1..], body);
      assert text[skip..|text|] == rest;
      FindInPart(text, skip, |text|, CRLFCRLF);
      FindIsFirst(text, CRLFCRLF, skip);
      assert IsPlainLine(line) && IsPlainLine(lines[1..][0]);
      JoinStartsPlain(lines[1..]);
      assert text[skip] == rest[0] == Join(lines[1..])[0];
      forall j | 0 <= j < skip ensures !OccursAt(text, CRLFCRLF, j) {
        assert j < |line| ==> text[j] == line[j];
        assert j == |line| + 1 ==> text[j] == '\n';
        BlankLineAt(text, j);
        LineEndAt(text, j);
        LineEndAt(text, j + 2);
      }
      FindIs(text, CRLFCRLF, 0, |head|);
    }
  }

  lemma {:induction false} RenderIsJoin(lines: seq<string>, body: string)
    requires lines != []
    ensures Render(lines, body) == Join(lines) + CRLFCRLF + body
  {
    if |lines| == 1 {
      assert lines[1..] == [];
    } else {
      RenderIsJoin(lines[1..], body);
    }
  }

  lemma StripKeeps(text: string)
    requires text != "" && !IsPythonSpace(text[0]) && !IsPythonSpace(text[|text| - 1])
    ensures Strip(text) == text
  {
  }

  lemma NumeralParses(digits: string)
    requires digits != "" && Decimal.AllDigits(digits)
    ensures ParseInt(digits) == Some(Decimal.Value(digits) as int)
    ensures ParseInt("-" + digits) == Some(-(Decimal.Value(digits) as int))
  {
    StripKeeps(digits);
    var text := "-" + digits;
    assert text[1..] == digits && text[|text| - 1] == digits[|digits| - 1];
    StripKeeps(text);
  }

  lemma PrintIsPlain(n: int)
    ensures Decimal.Print(n) != "" && ' ' !in Decimal.Print(n) && '\r' !in Decimal.Print(n)
  {
  }

  lemma PrintIsNumeral(n: int)
    ensures Decimal.Print(n) != "" && ' ' !in Decimal.Print(n) && '\r' !in Decimal.Print(n)
    ensures ParseInt(Decimal.Print(n)) == Some(n)
  {
    PrintIsPlain(n);
    var magnitude: nat := if n < 0 then -n else n;
    Decimal.ValueOfDigits(magnitude);
    NumeralParses(Decimal.Digits(magnitude));
  }

  lemma StatusFieldOf(number: string, reason: string)
    requires ' ' !in number
    ensures StatusField("HTTP/1.1 " + number + " " + reason) == Some(number)
  {
    var version, line := "HTTP/1.1", "HTTP/1.1 " + number + " " + reason;
    assert line == version + " " + (number + " " + reason);
    FindAfter(version, " ", number + " " + reason);
    assert line[9..|line|] == number + " " + reason;
    FindAfter(number, " ", reason);
    FindInPart(line, 9, |line|, " ");
    FindIsFirst(line, " ", 9);
    assert line[9..9 + |number|] == number;
  }

  ghost predicate IsStripped(text: string) {
    text != "" && !IsPythonSpace(text[0]) && !IsPythonSpace(text[|text| - 1])
  }

  lemma FieldLine(key: string, value: string, headers: map<string, string>)
    requires IsStripped(key) && ':' !in key && IsStripped(value)
    ensures AddHeader(headers, key + ": " + value) == headers[Lower(key) := value]
  {
    var line, after := key + ": " + value, " " + value;
    assert line == key + ":" + after;
    FindAfter(key, ":", after);
    assert line[..|key|] == key && line[|key| + 1..] == after && after[1..] == value;
    StripKeeps(key);
    StripKeeps(value);
  }

  lemma PrintedKeys()
    ensures Lower("Connection") == "connection" && Lower("Content-Type") == "content-type" && Lower("Content-Length") == "content-length"
  {
  }

  // The header dictionary of a printed response, all of it.
  function PrintedHeaders(connection: string, length: nat): map<string, string> {
    map["connection" := connection, "content-type" := "text/plain", "content-length" := Decimal.Digits(length)]
  }

  lemma ConnectionLine(connection: string, headers: map<string, string>)
    requires IsStripped(connection)
    ensures AddHeader(headers, "Connection: " + connection) == headers["connection" := connection]
  {
    assert "Connection" + ": " + connection == "Connection: " + connection;
    FieldLine("Connection", connection, headers);
    PrintedKeys();
  }

  lemma TypeLine(headers: map<string, string>)
    ensures AddHeader(headers, "Content-Type: text/plain") == headers["content-type" := "text/plain"]
  {
    assert "Content-Type" + ": " + "text/plain" == "Content-Type: text/plain";
    FieldLine("Content-Type", "text/plain", headers);
    PrintedKeys();
  }

  lemma LengthLine(digits: string, headers: map<string, string>)
    requires IsStripped(digits)
    ensures AddHeader(headers, "Content-Length: " + digits) == headers["content-length" := digits]
  {
    assert "Content-Length" + ": " + digits == "Content-Length: " + digits;
    FieldLine("Content-Length", digits, headers);
    PrintedKeys();
  }

  lemma HeadersPrinted(statusLine: string, connection: string, length: nat)
    requires IsStripped(connection)
    ensures Headers(HeaderLines(statusLine, connection, length)[1..]) == PrintedHeaders(connection, length)
  {
    var digits := Decimal.Digits(length);
    ConnectionLine(connection, map[]);
    TypeLine(map["connection" := connection]);
    LengthLine(digits, map["connection" := connection, "content-type" := "text/plain"]);
    ThreeHeaders("Connection: " + connection, "Content-Type: text/plain", "Content-Length: " + digits);
  }

  lemma OneMoreHeader(lines: seq<string>, line: string)
    ensures Headers(lines + [line]) == AddHeader(Headers(lines), line)
  {
    assert (lines + [line])[..|lines|] == lines;
  }

  lemma ThreeHeaders(first: string, second: string, third: string)
    ensures Headers([first, second, third]) == AddHeader(AddHeader(AddHeader(map[], first), second), third)
  {
    OneMoreHeader([], first);
    OneMoreHeader([first], second);
    OneMoreHeader([first, second], third);
    assert [] + [first] == [first] && [first] + [second] == [first, second] && [first, second] + [third] == [first, second, third];
  }

  lemma DecodeRendered(lines: seq<string>, body: string)
    requires lines != [] && forall l :: l in lines ==> IsPlainLine(l)
    ensures Decode(Render(lines, body)) == DecodeMessage(lines, body)
    ensures HeadLines(Render(lines, body)) == lines
    ensures AnnouncesNegativeLength(Render(lines, body)) == HasNegativeLength(lines)
  {
    var head, stream := Join(lines), Render(lines, body);
    RenderIsJoin(lines, body);
    BlankLineAfterJoin(lines, body);
    assert stream[..|head|] == head && stream[|head| + 4..] == body;
    LinesOfJoin(lines);
  }

  lemma {:induction false} RenderThen(lines: seq<string>, body: string, rest: string)
    ensures Render(lines, body) + rest == Render(lines, body + rest)
  {
    if lines == [] {
      assert CRLF + body + rest == CRLF + (body + rest);
    } else {
      RenderThen(lines[1..], body, rest);
      assert Render(lines, body) + rest == lines[0] + CRLF + (Render(lines[1..], body) + rest);
    }
  }

  lemma PrintedLength(statusLine: string, connection: string, length: nat)
    requires IsStripped(connection)
    ensures AnnouncedLength(HeaderLines(statusLine, connection, length)[1..]) == Some(length)
  {
    HeadersPrinted(statusLine, connection, length);
    PrintIsNumeral(length);
  }

  lemma StatusLineIsPlain(number: string, reason: string)
    requires '\r' !in number && '\r' !in reason
    ensures IsPlainLine("HTTP/1.1 " + number + " " + reason)
  {
  }

  lemma HeaderLinesArePlain(statusLine: string, connection: string, length: nat)
    requires IsPlainLine(statusLine) && '\r' !in connection
    ensures forall l :: l in HeaderLines(statusLine, connection, length) ==> IsPlainLine(l)
  {
    PrintIsNumeral(length);
  }

  lemma DecodeLines(lines: seq<string>, status: int, body: string, rest: string)
    requires lines != [] && forall l :: l in lines ==> IsPlainLine(l)
    requires StatusField(lines[0]) == Some(Decimal.Print(status)) && AnnouncedLength(lines[1..]) == Some(|body|)
    ensures var stream := Render(lines, body) + rest;
            Decode(stream) == Reply(status, body) && HeadLines(stream) == lines && !AnnouncesNegativeLength(stream)
  {
    PrintIsNumeral(status);
    RenderThen(lines, body, rest);
    DecodeRendered(lines, body + rest);
    assert PrefixSlice(body + rest, |body|) == body;
  }

  // Reading back what was printed: status, headers and body come out whole, even a body with blank
  // lines in it, and whatever follows is left alone. With ReadHttpResponse this holds for every way
  // recv may cut the stream.
  lemma ErrorResponseRoundTrip(status: int, reason: string, body: string, rest: string)
    requires '\r' !in reason
    ensures var stream := BuildSimpleErrorResponse(status, reason, body) + rest;
            && Decode(stream) == Reply(status, body) && !AnnouncesNegativeLength(stream)
            && HeadersOf(stream) == PrintedHeaders("close", |body|)
            && HeadLines(stream) != [] && HeadLines(stream)[0] == "HTTP/1.1 " + Decimal.Print(status) + " " + reason
  {
    var statusLine := "HTTP/1.1 " + Decimal.Print(status) + " " + reason;
    PrintIsNumeral(status);
    StatusFieldOf(Decimal.Print(status), reason);
    StatusLineIsPlain(Decimal.Print(status), reason);
    HeaderLinesArePlain(statusLine, "close", |body|);
    PrintedLength(statusLine, "close", |body|);
    HeadersPrinted(statusLine, "close", |body|);
    DecodeLines(HeaderLines(statusLine, "close", |body|), status, body, rest);
  }

  lemma OkStatusLine()
    ensures StatusField("HTTP/1.1 200 OK") == Some(Decimal.Print(200))
  {
    assert Decimal.Digits(2) == "2" && Decimal.Digits(20) == "20" && Decimal.Print(200) == "200";
    StatusFieldOf("200", "OK");
    assert "HTTP/1.1 " + "200" + " " + "OK" == "HTTP/1.1 200 OK";
  }

  lemma ConnectionWords()
    ensures IsStripped("keep-alive") && IsStripped("close")
  {
  }

  lemma OkResponseRoundTrip(body: string, keepAlive: bool, rest: string)
    ensures var stream := BuildSimpleOkResponse(body, keepAlive) + rest;
            && Decode(stream) == Reply(200, body) && !AnnouncesNegativeLength(stream)
            && HeadersOf(stream) == PrintedHeaders(if keepAlive then "keep-alive" else "close", |body|)
            && HeadLines(stream) != [] && HeadLines(stream)[0] == "HTTP/1.1 200 OK"
  {
    var connection := if keepAlive then "keep-alive" else "close";
    OkStatusLine();
    HeaderLinesArePlain("HTTP/1.1 200 OK", connection, |body|);
    ConnectionWords();
    PrintedLength("HTTP/1.1 200 OK", connection, |body|);
    HeadersPrinted("HTTP/1.1 200 OK", connection, |body|);
    DecodeLines(HeaderLines("HTTP/1.1 200 OK", connection, |body|), 200, body, rest);
  }

  lemma BodyComesLast(lines: seq<string>, body: string)
    ensures Render(lines, body) == Render(lines, "") + body
  {
    RenderThen(lines, "", body);
    assert "" + body == body;
  }

  lemma CutAndFilled(head: string, body: string, k: nat, rest: string)
    requires k <= |body| <= k + |rest|
    ensures var n := |body| - k;
            (head + body)[..|head + body| - n] + rest == head + (body[..k] + rest[..n]) + rest[n..]
  {
    assert (head + body)[..|head + body| - (|body| - k)] == head + body[..k];
  }

  lemma CutRender(lines: seq<string>, body: string, k: nat, rest: string)
    requires k <= |body| <= k + |rest|
    ensures var whole, n := Render(lines, body), |body| - k;
            n <= |whole| && whole[..|whole| - n] + rest == Render(lines, body[..k] + rest[..n]) + rest[n..]
  {
    var head, filled := Render(lines, ""), body[..k] + rest[..|body| - k];
    BodyComesLast(lines, body);
    BodyComesLast(lines, filled);
    CutAndFilled(head, body, k, rest);
  }

  // A 200 that is cut off in its body is completed by whatever follows: the bytes are those of a
  // whole 200 with another body.
  lemma CutIsFilled(body: string, keepAlive: bool, k: nat, rest: string)
    requires k <= |body| <= k + |rest|
    ensures var whole, n := BuildSimpleOkResponse(body, keepAlive), |body| - k;
            && n <= |whole|
            && whole[..|whole| - n] + rest == BuildSimpleOkResponse(body[..k] + rest[..n], keepAlive) + rest[n..]
  {
    CutRender(OkLines(keepAlive, |body|), body, k, rest);
  }
}
