// Byte strings and the handful of std::string / <cctype> operations the program relies on.
// A byte is a char; nothing below depends on the value of a char outside the ASCII range.
module Text {
  datatype Option<+T> = None | Some(value: T)

  const CRLF: string := "\r\n"
  const CRLFCRLF: string := "\r\n\r\n"

  // pattern occurs in text at position i
  predicate OccursAt(text: string, pattern: string, i: int) {
    0 <= i && i + |pattern| <= |text| && text[i..i + |pattern|] == pattern
  }

  // std::string::find: the first occurrence at or after from (None is npos).
  function Find(text: string, pattern: string, from: nat): (r: Option<nat>)
    ensures r.Some? ==> from <= r.value && r.value + |pattern| <= |text|
    decreases |text| - from
  {
    if from + |pattern| > |text| then None
    else if text[from..from + |pattern|] == pattern then Some(from)
    else Find(text, pattern, from + 1)
  }

  ghost predicate NoneBetween(text: string, pattern: string, from: int, to: int) {
    forall j :: from <= j < to ==> !OccursAt(text, pattern, j)
  }

  // What Find returns is an occurrence, and the first one.
  lemma {:induction false} FindIsFirst(text: string, pattern: string, from: nat)
    ensures match Find(text, pattern, from)
            case None => NoneBetween(text, pattern, from, |text| + 1)
            case Some(i) => OccursAt(text, pattern, i) && NoneBetween(text, pattern, from, i)
    decreases |text| - from
  {
    if from + |pattern| <= |text| && text[from..from + |pattern|] != pattern {
      FindIsFirst(text, pattern, from + 1);
    }
  }

  // std::string::rfind with npos: the last occurrence of a character.
  function FindLast(text: string, c: char): (r: Option<nat>)
    ensures r.Some? ==> r.value < |text| && text[r.value] == c && c !in text[r.value + 1..]
    ensures r.None? ==> c !in text
  {
    if text == "" then None
    else if text[|text| - 1] == c then Some(|text| - 1)
    else
      var r := FindLast(text[..|text| - 1], c);
      assert text == text[..|text| - 1] + [text[|text| - 1]];
      r
  }

  // Those facts determine it.
  lemma FindIs(text: string, pattern: string, from: nat, i: nat)
    requires from <= i && OccursAt(text, pattern, i) && NoneBetween(text, pattern, from, i)
    ensures Find(text, pattern, from) == Some(i)
  {
    FindIsFirst(text, pattern, from);
  }

  lemma FindIsNone(text: string, pattern: string, from: nat)
    requires NoneBetween(text, pattern, from, |text| + 1)
    ensures Find(text, pattern, from) == None
  {
    FindIsFirst(text, pattern, from);
  }

  // An occurrence that lies inside a part of the text is an occurrence in that part.
  lemma OccursInPart(text: string, lo: nat, hi: nat, pattern: string, i: int)
    requires lo <= hi <= |text| && 0 <= i && lo + i + |pattern| <= hi
    ensures OccursAt(text[lo..hi], pattern, i) <==> OccursAt(text, pattern, lo + i)
  {
    var inPart, inText := text[lo..hi][i..i + |pattern|], text[lo + i..lo + i + |pattern|];
    assert |inPart| == |inText| && forall k :: 0 <= k < |inPart| ==> inPart[k] == inText[k];
  }

  lemma FindInPartIs(text: string, lo: nat, hi: nat, pattern: string, i: nat)
    requires lo <= i && i + |pattern| <= hi <= |text|
    requires OccursAt(text, pattern, i) && NoneBetween(text, pattern, lo, i)
    ensures Find(text[lo..hi], pattern, 0) == Some(i - lo)
  {
    forall j | 0 <= j < i - lo ensures !OccursAt(text[lo..hi], pattern, j) {
      OccursInPart(text, lo, hi, pattern, j);
      assert !OccursAt(text, pattern, lo + j);
    }
    OccursInPart(text, lo, hi, pattern, i - lo);
    FindIs(text[lo..hi], pattern, 0, i - lo);
  }

  lemma FindInPartIsNone(text: string, lo: nat, hi: nat, pattern: string, until: nat)
    requires lo <= hi <= |text| && NoneBetween(text, pattern, lo, until) && hi < until + |pattern|
    ensures Find(text[lo..hi], pattern, 0) == None
  {
    forall j | 0 <= j <= hi - lo ensures !OccursAt(text[lo..hi], pattern, j) {
      if lo + j + |pattern| <= hi {
        OccursInPart(text, lo, hi, pattern, j);
        assert !OccursAt(text, pattern, lo + j);
      }
    }
    FindIsNone(text[lo..hi], pattern, 0);
  }

  ghost predicate IsFirst(text: string, pattern: string, from: nat, r: Option<nat>) {
    match r
    case None => NoneBetween(text, pattern, from, |text| + 1)
    case Some(i) => from <= i && OccursAt(text, pattern, i) && NoneBetween(text, pattern, from, i)
  }

  lemma FirstInPart(text: string, lo: nat, hi: nat, pattern: string, r: Option<nat>)
    requires lo <= hi <= |text| && IsFirst(text, pattern, lo, r)
    ensures Find(text[lo..hi], pattern, 0) ==
            match r
            case None => None
            case Some(i) => if i + |pattern| <= hi then Some(i - lo) else None
  {
    match r
    case None =>
      FindInPartIsNone(text, lo, hi, pattern, |text| + 1);
    case Some(i) =>
      if i + |pattern| <= hi {
        FindInPartIs(text, lo, hi, pattern, i);
      } else {
        FindInPartIsNone(text, lo, hi, pattern, i);
      }
  }

  lemma FirstFound(text: string, pattern: string, from: nat) returns (r: Option<nat>)
    ensures r == Find(text, pattern, from) && IsFirst(text, pattern, from, r)
  {
    FindIsFirst(text, pattern, from);
    r := Find(text, pattern, from);
  }

  // Searching a part of the text is searching the text from an offset, as long as the first
  // occurrence found lies inside the part.
  lemma FindInPart(text: string, lo: nat, hi: nat, pattern: string)
    requires lo <= hi <= |text|
    ensures Find(text[lo..hi], pattern, 0) ==
            match Find(text, pattern, lo)
            case None => None
            case Some(i) => if i + |pattern| <= hi then Some(i - lo) else None
  {
    var r := FirstFound(text, pattern, lo);
    FirstInPart(text, lo, hi, pattern, r);
  }

  // Bytes appended later never move an occurrence that was already found.
  lemma FindInExtension(text: string, more: string, pattern: string, from: nat)
    requires Find(text, pattern, from).Some?
    ensures Find(text + more, pattern, from) == Find(text, pattern, from)
  {
    var i := Find(text, pattern, from).value;
    FindIsFirst(text, pattern, from);
    var whole := text + more;
    assert whole[0..|text|] == text;
    forall j | from <= j <= i ensures OccursAt(whole, pattern, j) <==> OccursAt(text, pattern, j) {
      OccursInPart(whole, 0, |text|, pattern, j);
    }
    FindIs(whole, pattern, from, i);
  }

  lemma OccurrenceHead(text: string, pattern: string, i: int)
    requires pattern != ""
    ensures OccursAt(text, pattern, i) ==> text[i] == pattern[0]
  {
    if OccursAt(text, pattern, i) {
      assert text[i..i + |pattern|][0] == text[i];
    }
  }

  lemma LineEndAt(text: string, i: int)
    ensures OccursAt(text, CRLF, i) <==> 0 <= i && i + 2 <= |text| && text[i] == '\r' && text[i + 1] == '\n'
  {
    if 0 <= i && i + 2 <= |text| {
      assert text[i..i + 2] == [text[i], text[i + 1]];
    }
  }

  // A blank line is two line ends in a row.
  lemma BlankLineAt(text: string, i: int)
    ensures OccursAt(text, CRLFCRLF, i) <==> OccursAt(text, CRLF, i) && OccursAt(text, CRLF, i + 2)
  {
    if 0 <= i && i + 4 <= |text| {
      assert text[i..i + 4] == [text[i], text[i + 1], text[i + 2], text[i + 3]];
    }
    LineEndAt(text, i);
    LineEndAt(text, i + 2);
  }

  // The first occurrence of a delimiter whose first character does not appear before it.
  lemma FindAfter(before: string, pattern: string, after: string)
    requires pattern != "" && pattern[0] !in before
    ensures Find(before + pattern + after, pattern, 0) == Some(|before|)
  {
    var text := before + pattern + after;
    assert text[|before|..|before| + |pattern|] == pattern;
    forall j | 0 <= j < |before| ensures !OccursAt(text, pattern, j) {
      assert text[j] == before[j];
      OccurrenceHead(text, pattern, j);
    }
    FindIs(text, pattern, 0, |before|);
  }

  // std::isspace in the C locale.
  predicate IsSpace(c: char) {
    c == ' ' || '\t' <= c <= '\r'
  }

  // std::tolower in the C locale.
  function ToLower(c: char): char {
    if 'A' <= c <= 'Z' then c - 'A' + 'a' else c
  }

  function Lower(text: string): (r: string)
    ensures |r| == |text| && forall i :: 0 <= i < |text| ==> r[i] == ToLower(text[i])
  {
    seq(|text|, i requires 0 <= i < |text| => ToLower(text[i]))
  }

  // The text without its leading and trailing white space.
  function Trimmed(text: string): (r: string)
    ensures r != "" ==> !IsSpace(r[0]) && !IsSpace(r[|r| - 1])
    decreases |text|
  {
    if text == "" then ""
    else if IsSpace(text[0]) then Trimmed(text[1..])
    else if IsSpace(text[|text| - 1]) then Trimmed(text[..|text| - 1])
    else text
  }

  // Blank, tab, line feed, vertical tab, form feed and carriage return.
  lemma SpacesAre(c: char)
    ensures IsSpace(c) <==> c in {' ', '\t', '\n', '\U{0B}', '\U{0C}', '\r'}
  {
  }

  ghost predicate AllSpace(text: string) {
    forall i :: 0 <= i < |text| ==> IsSpace(text[i])
  }

  // That, and no more of it.
  lemma {:induction false} TrimmedIsCore(before: string, core: string, after: string)
    requires AllSpace(before) && AllSpace(after)
    requires core != "" ==> !IsSpace(core[0]) && !IsSpace(core[|core| - 1])
    ensures Trimmed(before + core + after) == core
    decreases |before| + |after|
  {
    var text := before + core + after;
    if before != "" {
      assert text[1..] == before[1..] + core + after;
      TrimmedIsCore(before[1..], core, after);
    } else if core == "" && after != "" {
      assert text == after && text[1..] == "" + core + after[1..];
      TrimmedIsCore("", core, after[1..]);
    } else if after != "" {
      assert text == core + after && text[..|text| - 1] == "" + core + after[..|after| - 1];
      TrimmedIsCore("", core, after[..|after| - 1]);
    } else {
      assert text == core;
    }
  }
}
