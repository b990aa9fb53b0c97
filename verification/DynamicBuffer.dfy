// The application input buffer: bytes accumulate until a whole request header can be cut off.
module DynamicBuffers {
  import opened Text

  function FindHeaderEnd(storage: string): Option<nat> {
    Find(storage, CRLFCRLF, 0)
  }

  predicate HasCompleteHeader(storage: string) {
    FindHeaderEnd(storage).Some?
  }

  predicate HeaderExceedsLimit(storage: string, limit: nat) {
    match FindHeaderEnd(storage)
    case None => |storage| > limit
    case Some(end) => end + 4 > limit
  }

  // The first header including its blank line, and what follows it.
  function FirstHeader(storage: string): string
    requires HasCompleteHeader(storage)
  {
    storage[..FindHeaderEnd(storage).value + 4]
  }

  function AfterFirstHeader(storage: string): string
    requires HasCompleteHeader(storage)
  {
    storage[FindHeaderEnd(storage).value + 4..]
  }

  class DynamicBuffer {
    var storage: string

    constructor ()
      ensures storage == ""
    {
      storage := "";
    }

    method Append(data: string)
      modifies this
      ensures storage == old(storage) + data
    {
      storage := storage + data;
    }

    method Clear()
      modifies this
      ensures storage == ""
    {
      storage := "";
    }

    // None stands for the logic_error thrown when no complete header is buffered.
    method PopNextHeader() returns (header: Option<string>)
      modifies this
      ensures header.Some? <==> HasCompleteHeader(old(storage))
      ensures header.None? ==> storage == old(storage)
      ensures header.Some? ==> header.value == FirstHeader(old(storage)) && storage == AfterFirstHeader(old(storage))
      ensures header.Some? ==> header.value + storage == old(storage)
      ensures header.Some? ==> IsWholeHeader(header.value)
      ensures forall limit :: header.Some? && !HeaderExceedsLimit(old(storage), limit) ==> |header.value| <= limit
    {
      var headerEnd := FindHeaderEnd(storage);
      if headerEnd.None? {
        return None;
      }
      var headerSize := headerEnd.value + 4;
      FirstHeaderIsWhole(storage);
      header := Some(storage[..headerSize]);
      storage := storage[headerSize..];
    }

    // False stands for the out_of_range thrown when fewer bytes are buffered.
    method ConsumePrefix(size: nat) returns (ok: bool)
      modifies this
      ensures ok <==> size <= |old(storage)|
      ensures storage == if ok then old(storage)[size..] else old(storage)
    {
      ok := size <= |storage|;
      if ok {
        storage := storage[size..];
      }
    }
  }

  // Exactly one blank line, and it ends the text: the shape of everything PopNextHeader returns.
  predicate IsWholeHeader(header: string) {
    |header| >= 4 && FindHeaderEnd(header) == Some(|header| - 4)
  }

  lemma FirstHeaderIsWhole(storage: string)
    requires HasCompleteHeader(storage)
    ensures IsWholeHeader(FirstHeader(storage))
  {
    var end := FindHeaderEnd(storage).value;
    assert storage[0..end + 4] == FirstHeader(storage);
    FindInPart(storage, 0, end + 4, CRLFCRLF);
  }

  // A header that is complete stays the same header whatever arrives later.
  lemma FirstHeaderInExtension(storage: string, more: string)
    requires HasCompleteHeader(storage)
    ensures HasCompleteHeader(storage + more)
    ensures FirstHeader(storage + more) == FirstHeader(storage)
    ensures AfterFirstHeader(storage + more) == AfterFirstHeader(storage) + more
  {
    FindInExtension(storage, more, CRLFCRLF, 0);
  }

  // The 431 decision taken on what has arrived so far is exact: it is taken as soon as more
  // than limit bytes are buffered and never otherwise, and it agrees with the decision that
  // would be taken on the whole stream.
  lemma EarlyLimitDecisionIsExact(seen: string, unseen: string, limit: nat)
    ensures HeaderExceedsLimit(seen, limit) <==> |seen| > limit && HeaderExceedsLimit(seen + unseen, limit)
  {
    var stream := seen + unseen;
    assert stream[0..|seen|] == seen;
    FindInPart(stream, 0, |seen|, CRLFCRLF);
  }
}
