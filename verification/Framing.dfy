// Cutting a request stream into frames: a header up to its blank line, then as many body bytes
// as Content-Length announces (section 6.3 of RFC 9112). Everything here holds for any parser.
module Framing {
  import opened Text
  import opened DynamicBuffers
  import opened HttpParser

  type HeaderParser = string -> ParseResult

  const MAX_HEADER_BYTES: nat := 8192
  const MAX_BODY_BYTES: nat := 8 * 1024 * 1024

  function BodyLength(request: HttpRequest): nat {
    if request.contentLength.Some? then request.contentLength.value else 0
  }

  datatype Admission = Accepted(request: HttpRequest) | Refused(status: nat)

  // Which status a parsed header is refused with, if any, in the order the checks are made.
  function Admit(r: ParseResult): Admission {
    match r.error
    case NotImplementedChunked => Refused(501)
    case LengthRequired => Refused(411)
    case BadRequest => Refused(400)
    case NoError => if BodyLength(r.request) > MAX_BODY_BYTES then Refused(413) else Accepted(r.request)
  }

  // Where in a frame the next byte belongs.
  datatype Cursor = AtHeader | InBody(request: HttpRequest, remaining: nat)

  datatype Tail =
    | NeedHeader(rest: string)
    | NeedBody(request: HttpRequest, missing: nat)
    | Rejected(status: nat)

  // The requests completed by a stretch of bytes, and where it leaves off.
  datatype Frames = Frames(requests: seq<HttpRequest>, tail: Tail)

  function Prepend(requests: seq<HttpRequest>, frames: Frames): Frames {
    Frames(requests + frames.requests, frames.tail)
  }

  // The one-shot splitter.
  function Split(parse: HeaderParser, cursor: Cursor, bytes: string): Frames
    decreases |bytes|, if cursor.InBody? then 1 else 0
  {
    match cursor
    case InBody(request, remaining) =>
      if |bytes| < remaining then Frames([], NeedBody(request, remaining - |bytes|))
      else Prepend([request], Split(parse, AtHeader, bytes[remaining..]))
    case AtHeader =>
      if !HasCompleteHeader(bytes) then Frames([], NeedHeader(bytes))
      else
        match Admit(parse(FirstHeader(bytes)))
        case Refused(status) => Frames([], Rejected(status))
        case Accepted(request) =>
          var rest := AfterFirstHeader(bytes);
          if BodyLength(request) == 0 then Prepend([request], Split(parse, AtHeader, rest))
          else Split(parse, InBody(request, BodyLength(request)), rest)
  }

  // Picking up where a tail left off.
  function Resume(parse: HeaderParser, tail: Tail, bytes: string): Frames {
    match tail
    case NeedHeader(rest) => Split(parse, AtHeader, rest + bytes)
    case NeedBody(request, missing) => Split(parse, InBody(request, missing), bytes)
    case Rejected(status) => Frames([], tail)
  }

  function Continue(parse: HeaderParser, frames: Frames, bytes: string): Frames {
    Prepend(frames.requests, Resume(parse, frames.tail, bytes))
  }

  lemma PrependTwice(first: seq<HttpRequest>, second: seq<HttpRequest>, frames: Frames)
    ensures Prepend(first, Prepend(second, frames)) == Prepend(first + second, frames)
  {
    assert first + (second + frames.requests) == first + second + frames.requests;
  }

  lemma PrependNothing(frames: Frames)
    ensures Prepend([], frames) == frames
  {
    assert [] + frames.requests == frames.requests;
  }

  // Splitting is incremental: the frames of a + b are those of a, continued with b.
  lemma {:induction false} SplitContinues(parse: HeaderParser, cursor: Cursor, a: string, b: string)
    ensures Split(parse, cursor, a + b) == Continue(parse, Split(parse, cursor, a), b)
    decreases |a|, if cursor.InBody? then 1 else 0
  {
    match cursor
    case InBody(request, remaining) =>
      if |a| < remaining {
        if |a + b| >= remaining {
          assert (a + b)[remaining..] == b[remaining - |a|..];
        }
        PrependNothing(Split(parse, InBody(request, remaining - |a|), b));
      } else {
        assert (a + b)[remaining..] == a[remaining..] + b;
        SplitContinues(parse, AtHeader, a[remaining..], b);
        ContinueAfter([request], parse, Split(parse, AtHeader, a[remaining..]), b);
      }
    case AtHeader =>
      if !HasCompleteHeader(a) {
        PrependNothing(Split(parse, AtHeader, a + b));
      } else {
        FirstHeaderInExtension(a, b);
        match Admit(parse(FirstHeader(a)))
        case Refused(status) =>
        case Accepted(request) =>
          var rest := AfterFirstHeader(a);
          if BodyLength(request) == 0 {
            SplitContinues(parse, AtHeader, rest, b);
            ContinueAfter([request], parse, Split(parse, AtHeader, rest), b);
          } else {
            SplitContinues(parse, InBody(request, BodyLength(request)), rest, b);
          }
      }
  }

  lemma ContinueAfter(done: seq<HttpRequest>, parse: HeaderParser, frames: Frames, bytes: string)
    ensures Continue(parse, Prepend(done, frames), bytes) == Prepend(done, Continue(parse, frames, bytes))
  {
    PrependTwice(done, frames.requests, Resume(parse, frames.tail, bytes));
  }

  // However a stream is chopped into reads, feeding it piece by piece finds the same frames.
  function Feed(parse: HeaderParser, chunks: seq<string>): Frames {
    if chunks == [] then Frames([], NeedHeader(""))
    else Continue(parse, Feed(parse, chunks[..|chunks| - 1]), chunks[|chunks| - 1])
  }

  function Concat(chunks: seq<string>): string {
    if chunks == [] then "" else Concat(chunks[..|chunks| - 1]) + chunks[|chunks| - 1]
  }

  lemma {:induction false} ChunkingIsInvisible(parse: HeaderParser, chunks: seq<string>)
    ensures Feed(parse, chunks) == Split(parse, AtHeader, Concat(chunks))
  {
    if chunks == [] {
      assert !OccursAt("", CRLFCRLF, 0);
    } else {
      ChunkingIsInvisible(parse, chunks[..|chunks| - 1]);
      SplitContinues(parse, AtHeader, Concat(chunks[..|chunks| - 1]), chunks[|chunks| - 1]);
    }
  }

  // ---------------------------------------------------------------- the live view of a stream

  // Of everything received, the frames in done are complete, and the buffered bytes, which are
  // its end, belong at the cursor: nothing was lost, duplicated or cut in the wrong place.
  // Kept under seal: it comes into view where SplitOf is called.
  ghost predicate Framed(parse: HeaderParser, received: string, done: seq<HttpRequest>, cursor: Cursor, buffered: string) {
    forall key: int {:trigger InView(received, key)} :: InView(received, key) ==>
      && Split(parse, AtHeader, received) == Prepend(done, Split(parse, cursor, buffered))
      && EndsWith(received, buffered)
  }

  predicate EndsWith(text: string, end: string) {
    |end| <= |text| && text[|text| - |end|..] == end
  }

  ghost predicate InView(received: string, key: int) {
    true
  }

  lemma SplitOf(parse: HeaderParser, received: string, done: seq<HttpRequest>, cursor: Cursor, buffered: string)
    requires Framed(parse, received, done, cursor, buffered)
    ensures Split(parse, AtHeader, received) == Prepend(done, Split(parse, cursor, buffered))
    ensures EndsWith(received, buffered)
  {
    assert InView(received, 0);
  }

  // The whole stream ends in a header that is refused with status, after the requests in done.
  // Under seal as well.
  ghost predicate Refuses(parse: HeaderParser, received: string, done: seq<HttpRequest>, status: nat) {
    forall key: int {:trigger InView(received, key)} :: InView(received, key) ==>
      Split(parse, AtHeader, received) == Frames(done, Rejected(status))
  }

  lemma RefusalOf(parse: HeaderParser, received: string, done: seq<HttpRequest>, status: nat)
    requires Refuses(parse, received, done, status)
    ensures Split(parse, AtHeader, received) == Frames(done, Rejected(status))
  {
    assert InView(received, 0);
  }

  lemma FramedRefusal(parse: HeaderParser, received: string, done: seq<HttpRequest>, buffered: string)
    requires Framed(parse, received, done, AtHeader, buffered) && HasCompleteHeader(buffered)
    requires Admit(parse(FirstHeader(buffered))).Refused?
    ensures Refuses(parse, received, done, Admit(parse(FirstHeader(buffered))).status)
  {
    SplitOf(parse, received, done, AtHeader, buffered);
    assert done + [] == done;
  }

  // Behind the requests in done, the stream goes on with a header that is over the limit.
  ghost predicate Oversized(parse: HeaderParser, received: string, done: seq<HttpRequest>) {
    exists rest :: Framed(parse, received, done, AtHeader, rest) && HeaderExceedsLimit(rest, MAX_HEADER_BYTES)
  }

  lemma FramedAppend(parse: HeaderParser, received: string, done: seq<HttpRequest>, cursor: Cursor, buffered: string, more: string)
    requires Framed(parse, received, done, cursor, buffered)
    ensures Framed(parse, received + more, done, cursor, buffered + more)
  {
    SplitOf(parse, received, done, cursor, buffered);
    SplitContinues(parse, AtHeader, received, more);
    SplitContinues(parse, cursor, buffered, more);
    assert (received + more)[|received| - |buffered|..] == buffered + more;
    ContinueAfter(done, parse, Split(parse, cursor, buffered), more);
  }

  // The cursor after an accepted header has been taken off the buffer.
  function AfterHeader(request: HttpRequest): Cursor {
    if BodyLength(request) == 0 then AtHeader else InBody(request, BodyLength(request))
  }

  function DoneAtHeader(request: HttpRequest): seq<HttpRequest> {
    if BodyLength(request) == 0 then [request] else []
  }

  lemma FramedPop(parse: HeaderParser, received: string, done: seq<HttpRequest>, buffered: string)
    requires Framed(parse, received, done, AtHeader, buffered)
    requires HasCompleteHeader(buffered) && Admit(parse(FirstHeader(buffered))).Accepted?
    ensures var request := Admit(parse(FirstHeader(buffered))).request;
            Framed(parse, received, done + DoneAtHeader(request), AfterHeader(request), AfterFirstHeader(buffered))
  {
    SplitOf(parse, received, done, AtHeader, buffered);
    var request := Admit(parse(FirstHeader(buffered))).request;
    if BodyLength(request) == 0 {
      PrependTwice(done, [request], Split(parse, AtHeader, AfterFirstHeader(buffered)));
    } else {
      assert done + [] == done;
    }
  }

  lemma FramedConsume(parse: HeaderParser, received: string, done: seq<HttpRequest>, request: HttpRequest, remaining: nat, buffered: string, n: nat)
    requires Framed(parse, received, done, InBody(request, remaining), buffered)
    requires n <= remaining && n <= |buffered|
    ensures Framed(parse, received, done, InBody(request, remaining - n), buffered[n..])
  {
    SplitOf(parse, received, done, InBody(request, remaining), buffered);
    if |buffered| >= remaining {
      assert buffered[n..][remaining - n..] == buffered[remaining..];
    }
  }

  lemma FramedComplete(parse: HeaderParser, received: string, done: seq<HttpRequest>, request: HttpRequest, buffered: string)
    requires Framed(parse, received, done, InBody(request, 0), buffered)
    ensures Framed(parse, received, done + [request], AtHeader, buffered)
  {
    SplitOf(parse, received, done, InBody(request, 0), buffered);
    assert buffered[0..] == buffered;
    PrependTwice(done, [request], Split(parse, AtHeader, buffered));
  }
}
