/**
 Incremental Server-Sent Events framing over transport byte chunks.
 Source: adapters/openai-responses/src/sse.rs. UTF-8 decoding is a parameter.
 */
module Sse {
  import opened Common
  import opened SseFields
  import Splitting
  import opened Framing

  const LF_LF: seq<byte> := [10, 10]
  const CRLF_CRLF: seq<byte> := [13, 10, 13, 10]

  type Decoding = seq<byte> -> Option<string>

  // ---- Frame boundaries ----

  predicate Occurs(s: seq<byte>, pattern: seq<byte>, i: nat)
  {
    i + |pattern| <= |s| && s[i..i + |pattern|] == pattern
  }

  /** `windows(n).position(..)`: the first occurrence at or after `from`. */
  function Position(s: seq<byte>, pattern: seq<byte>, from: nat): (r: Option<nat>)
    ensures r.Some? ==> from <= r.value && Occurs(s, pattern, r.value)
    ensures r.Some? ==> forall j: nat :: from <= j < r.value ==> !Occurs(s, pattern, j)
    ensures r.None? ==> forall j: nat :: from <= j ==> !Occurs(s, pattern, j)
    decreases |s| - from
  {
    if |s| < from + |pattern| then None
    else if s[from..from + |pattern|] == pattern then Some(from)
    else if from == |s| then None
    else Position(s, pattern, from + 1)
  }

  lemma OccursBytes(s: seq<byte>, i: nat)
    ensures Occurs(s, LF_LF, i) <==> i + 2 <= |s| && s[i] == 10 && s[i + 1] == 10
    ensures Occurs(s, CRLF_CRLF, i) <==> i + 4 <= |s| && s[i] == 13 && s[i + 1] == 10 && s[i + 2] == 13 && s[i + 3] == 10
  {
    if i + 2 <= |s| {
      assert s[i..i + 2] == [s[i], s[i + 1]];
    }
    if i + 4 <= |s| {
      assert s[i..i + 4] == [s[i], s[i + 1], s[i + 2], s[i + 3]];
    }
  }

  /** Whether one of the two delimiters of the given length starts at `i`. */
  predicate Delimited(bytes: seq<byte>, i: nat, length: nat)
  {
    (length == 2 && Occurs(bytes, LF_LF, i)) || (length == 4 && Occurs(bytes, CRLF_CRLF, i))
  }

  /** The leftmost delimiter of either kind, as its index and length. */
  function FrameBoundary(bytes: seq<byte>): (r: Option<(nat, nat)>)
    ensures r.Some? ==> r.value.0 + r.value.1 <= |bytes| && r.value.1 > 0
    ensures r.Some? ==> Delimited(bytes, r.value.0, r.value.1)
    ensures r.Some? ==> forall j: nat, n: nat :: j < r.value.0 ==> !Delimited(bytes, j, n)
    ensures r.None? ==> forall j: nat, n: nat :: !Delimited(bytes, j, n)
  {
    var lf := Position(bytes, LF_LF, 0);
    var crlf := Position(bytes, CRLF_CRLF, 0);
    match (lf, crlf)
    case (Some(left), Some(right)) => if left <= right then Some((left, 2)) else Some((right, 4))
    case (Some(left), None) => Some((left, 2))
    case (None, Some(right)) => Some((right, 4))
    case (None, None) => None
  }

  /** The contract of `FrameBoundary` has one solution: two delimiters cannot start together. */
  lemma BoundaryUnique(bytes: seq<byte>, i: nat, n: nat)
    requires Delimited(bytes, i, n)
    requires forall j: nat, m: nat :: j < i ==> !Delimited(bytes, j, m)
    ensures FrameBoundary(bytes) == Some((i, n))
  {
    var r := FrameBoundary(bytes);
    assert Delimited(bytes, r.value.0, r.value.1);
    OccursBytes(bytes, i);
  }

  /** A boundary never moves when bytes are appended, even with mixed delimiters. */
  lemma BoundaryStable(a: seq<byte>, b: seq<byte>)
    requires FrameBoundary(a).Some?
    ensures FrameBoundary(a + b) == FrameBoundary(a)
  {
    var (i, n) := FrameBoundary(a).value;
    assert (a + b)[i..i + n] == a[i..i + n];
    forall j: nat, m: nat | j < i
      ensures !Delimited(a + b, j, m)
    {
      if Delimited(a + b, j, m) {
        EarlierDelimiterInside(a, b, i, n, j, m);
      }
    }
    BoundaryUnique(a + b, i, n);
  }

  lemma EarlierDelimiterInside(a: seq<byte>, b: seq<byte>, i: nat, n: nat, j: nat, m: nat)
    requires j < i && Delimited(a, i, n) && Delimited(a + b, j, m)
    ensures Delimited(a, j, m)
  {
    // Only a CRLF pair straddling the end by one byte could start before an LF pair.
    OccursBytes(a, i);
    OccursBytes(a, j);
    OccursBytes(a + b, j);
  }

  // ---- Draining a buffer ----

  function ParseFrame(utf8: Decoding, bytes: seq<byte>): (r: Result<Option<Frame>, AdapterError>)
  {
    var text := utf8(bytes);
    if text.None? then Err(InvalidSse) else FrameOf(text.value)
  }

  function FrameParser(utf8: Decoding): (parse: Parser<Frame>)
  {
    bytes => ParseFrame(utf8, bytes)
  }

  method ParseBytes(utf8: Decoding, bytes: seq<byte>) returns (r: Result<Option<Frame>, AdapterError>)
    ensures r == FrameParser(utf8)(bytes)
  {
    var text := utf8(bytes);
    if text.None? {
      return Err(InvalidSse);
    }
    r := ParseText(text.value);
  }

  // ---- Cutting the first frame off a buffer ----

  /** The bytes of the first frame and the bytes after its delimiter. */
  function Cut(buffer: seq<byte>): (r: Option<(seq<byte>, seq<byte>)>)
    ensures r.Some? ==> |r.value.1| < |buffer|
  {
    var boundary := FrameBoundary(buffer);
    if boundary.None? then None
    else Some((buffer[..boundary.value.0], buffer[boundary.value.0 + boundary.value.1..]))
  }

  lemma CutStable(a: seq<byte>, b: seq<byte>)
    requires Cut(a).Some?
    ensures Cut(a + b) == Some((Cut(a).value.0, Cut(a).value.1 + b))
  {
    var (end, n) := FrameBoundary(a).value;
    BoundaryStable(a, b);
    assert (a + b)[..end] == a[..end];
    assert (a + b)[end + n..] == a[end + n..] + b;
  }

  lemma CutIsStable()
    ensures Stable(Cut)
  {
    forall a: seq<byte>, b: seq<byte> | Cut(a).Some?
      ensures Cut(a + b) == Some((Cut(a).value.0, Cut(a).value.1 + b))
    {
      CutStable(a, b);
    }
  }

  /** Chunk invariance of the SSE decoder, from the empty buffer a new decoder has. */
  lemma SseChunkInvariance(utf8: Decoding, chunks: seq<seq<byte>>)
    ensures var pieces, whole := PushAll(Cut, FrameParser(utf8), [], chunks), Drain(Cut, FrameParser(utf8), Concat(chunks));
            && pieces.failed == whole.failed
            && (!whole.failed ==> pieces == whole)
            && pieces.frames <= whole.frames
  {
    CutIsStable();
    assert [] + Concat(chunks) == Concat(chunks);
    ChunkInvariance(Cut, FrameParser(utf8), [], chunks);
  }

  /** What one round of the loop does to the frames read so far. */
  lemma RoundDrains(parse: Parser<Frame>, buffer: seq<byte>, end: nat, n: nat, earlier: seq<Frame>)
    requires FrameBoundary(buffer) == Some((end, n))
    ensures var frame, rest := parse(buffer[..end]), buffer[end + n..];
            Prepend(earlier, Drain(Cut, parse, buffer)) ==
            if frame.Err? then Drained(earlier, rest, true) else Prepend(earlier + AsSeq(frame.value), Drain(Cut, parse, rest))
  {
    assert Cut(buffer) == Some((buffer[..end], buffer[end + n..]));
    DrainStep(Cut, parse, buffer, earlier);
  }

  // ---- End of stream ----

  /** Unicode White_Space, as `str::trim` uses it. */
  predicate Whitespace(c: char)
  {
    var n := c as int;
    9 <= n <= 13 || n in {0x20, 0x85, 0xA0, 0x1680, 0x2028, 0x2029, 0x202F, 0x205F, 0x3000} || 0x2000 <= n <= 0x200A
  }

  /** Only blank lines and comments may trail the last frame. */
  predicate OnlyComments(utf8: Decoding, buffer: seq<byte>)
  {
    var text := utf8(buffer);
    text.Some? && forall line :: line in Splitting.Split(text.value, '\n') ==>
                                   (forall c :: c in line ==> Whitespace(c)) || line[0] == ':'
  }

  /** The characters with Unicode's White_Space property, from lowest to highest. */
  const SPACES: seq<int> :=
    [0x9, 0xA, 0xB, 0xC, 0xD, 0x20, 0x85, 0xA0, 0x1680, 0x2000, 0x2001, 0x2002, 0x2003, 0x2004, 0x2005, 0x2006, 0x2007, 0x2008,
     0x2009, 0x200A, 0x2028, 0x2029, 0x202F, 0x205F, 0x3000]

  lemma WhitespaceIsListed(c: char)
    ensures Whitespace(c) <==> c as int in SPACES
  {
  }

  ghost predicate BlankOrComment(line: string)
  {
    (forall k :: 0 <= k < |line| ==> line[k] as int in SPACES) || ":" <= line
  }

  /** A stream may end after these lines exactly when each of them is blank or a comment. */
  lemma EndsAfter(utf8: Decoding, buffer: seq<byte>, lines: seq<string>)
    requires lines != [] && (forall line :: line in lines ==> '\n' !in line) && utf8(buffer) == Some(Splitting.Join(lines, '\n'))
    ensures OnlyComments(utf8, buffer) <==> forall line :: line in lines ==> BlankOrComment(line)
  {
    Splitting.SplitJoin(lines, '\n');
    forall line: string
      ensures BlankOrComment(line) <==> (forall c :: c in line ==> Whitespace(c)) || line[0] == ':'
    {
      LineMayTrail(line);
    }
  }

  lemma LineMayTrail(line: string)
    ensures BlankOrComment(line) <==> (forall c :: c in line ==> Whitespace(c)) || line[0] == ':'
  {
    forall c: char ensures Whitespace(c) <==> c as int in SPACES {
      WhitespaceIsListed(c);
    }
    assert forall k :: 0 <= k < |line| ==> line[k] in line;
  }

  class SseDecoder {
    const utf8: Decoding
    var buffer: seq<byte>

    constructor (utf8: Decoding)
      ensures this.utf8 == utf8 && buffer == []
    {
      this.utf8 := utf8;
      buffer := [];
    }

    /** One round of the loop: takes the first frame off the buffer and parses it. */
    method TakeFrame(end: nat, n: nat, earlier: seq<Frame>, ghost whole: Drained<Frame>) returns (frames: seq<Frame>, failed: bool)
      requires FrameBoundary(buffer) == Some((end, n)) && whole == Prepend(earlier, Drain(Cut, FrameParser(utf8), buffer))
      modifies this
      ensures |buffer| < |old(buffer)|
      ensures whole == if failed then Drained(earlier, buffer, true) else Prepend(frames, Drain(Cut, FrameParser(utf8), buffer))
    {
      RoundDrains(FrameParser(utf8), buffer, end, n, earlier);
      var frame := ParseBytes(utf8, buffer[..end]);
      buffer := buffer[end + n..];
      if frame.Err? {
        return earlier, true;
      }
      return earlier + AsSeq(frame.value), false;
    }

    method Push(bytes: seq<byte>) returns (r: Result<seq<Frame>, AdapterError>)
      modifies this
      ensures var d := Drain(Cut, FrameParser(utf8), old(buffer) + bytes);
              buffer == d.rest && r == if d.failed then Err(InvalidSse) else Ok(d.frames)
    {
      buffer := buffer + bytes;
      ghost var whole := Drain(Cut, FrameParser(utf8), buffer);
      var frames: seq<Frame> := [];
      PrependNothing(whole);
      var boundary := FrameBoundary(buffer);
      while boundary.Some?
        invariant boundary == FrameBoundary(buffer)
        invariant whole == Prepend(frames, Drain(Cut, FrameParser(utf8), buffer))
        decreases |buffer|
      {
        var failed;
        frames, failed := TakeFrame(boundary.value.0, boundary.value.1, frames, whole);
        if failed {
          return Err(InvalidSse);
        }
        boundary := FrameBoundary(buffer);
      }
      assert frames + [] == frames;
      return Ok(frames);
    }

    method Finish() returns (r: Result<(), AdapterError>)
      modifies this
      ensures r.Ok? <==> OnlyComments(utf8, old(buffer))
      ensures r.Ok? ==> buffer == []
      ensures r.Err? ==> r.error == TruncatedStream && buffer == old(buffer)
    {
      var text := utf8(buffer);
      if text.None? {
        return Err(TruncatedStream);
      }
      var lines := Splitting.Split(text.value, '\n');
      for k := 0 to |lines|
        invariant forall line :: line in lines[..k] ==> (forall c :: c in line ==> Whitespace(c)) || line[0] == ':'
        invariant buffer == old(buffer)
      {
        if !(forall c :: c in lines[k] ==> Whitespace(c)) && lines[k][0] != ':' {
          assert lines[k] in lines;
          return Err(TruncatedStream);
        }
      }
      assert lines[..|lines|] == lines;
      buffer := [];
      return Ok(());
    }
  }
}
