/**
 A well-formed SSE producer is decoded exactly, however the transport cuts its bytes.
 Source: adapters/openai-responses/src/sse.rs with the promise of adapters/openai-responses/tests/sse.rs.
 */
module SseWire {
  import opened Common
  import opened SseFields
  import opened Splitting
  import Framing
  import opened Sse

  type Encoding = string -> seq<byte>

  /** What is used of UTF-8: decoding inverts encoding, code points are encoded one by one, and line-ending bytes occur only for line endings. */
  ghost predicate Utf8Codec(encode: Encoding, decode: Decoding)
  {
    && (forall t :: decode(encode(t)) == Some(t))
    && (forall s, t :: encode(s + t) == encode(s) + encode(t))
    && (forall c: char :: encode([c]) != [])
    && encode(['\n']) == [10] && encode(['\r']) == [13]
    && (forall c: char :: c != '\n' && c != '\r' ==> LineBytesFree(encode([c])))
  }

  predicate LineBytesFree(s: seq<byte>)
  {
    forall k :: 0 <= k < |s| ==> s[k] != 10 && s[k] != 13
  }

  /** No newline is followed by another line-ending character. */
  predicate NoBlank(t: string)
  {
    forall j :: 0 <= j < |t| - 1 && t[j] == '\n' ==> t[j + 1] != '\n' && t[j + 1] != '\r'
  }

  predicate NoBlankBytes(s: seq<byte>)
  {
    forall j :: 0 <= j < |s| - 1 && s[j] == 10 ==> s[j + 1] != 10 && s[j + 1] != 13
  }

  predicate Inner(c: char) { c != '\n' && c != '\r' }

  predicate InnerByte(b: byte) { b != 10 && b != 13 }

  lemma EncodeSplit(encode: Encoding, decode: Decoding, t: string)
    requires Utf8Codec(encode, decode) && t != []
    ensures encode(t) == encode([t[0]]) + encode(t[1..])
    ensures encode(t) == encode(t[..|t| - 1]) + encode([t[|t| - 1]])
  {
    assert t == [t[0]] + t[1..];
    assert t == t[..|t| - 1] + [t[|t| - 1]];
  }

  /** First and last characters that are not line endings give such bytes. */
  lemma EncodeEnds(encode: Encoding, decode: Decoding, t: string)
    requires Utf8Codec(encode, decode) && t != []
    ensures encode(t) != []
    ensures Inner(t[0]) ==> InnerByte(encode(t)[0])
    ensures Inner(t[|t| - 1]) ==> InnerByte(encode(t)[|encode(t)| - 1])
  {
    EncodeSplit(encode, decode, t);
    var first, last := encode([t[0]]), encode([t[|t| - 1]]);
    assert first != [] && last != [];
    assert encode(t)[0] == first[0];
    assert encode(t)[|encode(t)| - 1] == last[|last| - 1];
  }

  lemma {:induction false} EncodeNoBlank(encode: Encoding, decode: Decoding, t: string)
    requires Utf8Codec(encode, decode) && NoBlank(t)
    ensures NoBlankBytes(encode(t))
  {
    if t == [] {
      assert encode([] + []) == encode([]) + encode([]);
    } else {
      EncodeSplit(encode, decode, t);
      var head, tail := encode([t[0]]), encode(t[1..]);
      EncodeNoBlank(encode, decode, t[1..]);
      if t[1..] == [] {
        assert encode([] + []) == encode([]) + encode([]);
      } else {
        EncodeEnds(encode, decode, t[1..]);
        assert t[1..][0] == t[1];
      }
    }
  }

  /** Bytes of a frame body: not empty, no line ending at either end, no blank line inside. */
  predicate Body(s: seq<byte>)
  {
    s != [] && InnerByte(s[|s| - 1]) && NoBlankBytes(s)
  }

  function Delimiter(crlf: bool): (d: seq<byte>)
  {
    if crlf then CRLF_CRLF else LF_LF
  }

  lemma BodyIsCut(body: seq<byte>, crlf: bool, rest: seq<byte>)
    requires Body(body)
    ensures Cut(body + Delimiter(crlf) + rest) == Some((body, rest))
  {
    var s, d := body + Delimiter(crlf) + rest, Delimiter(crlf);
    assert s[|body|..|body| + |d|] == d;
    forall j: nat, m: nat | j < |body|
      ensures !Delimited(s, j, m)
    {
      assert s == body + (d + rest);
      BodyHasNoDelimiter(body, d + rest, j, m);
    }
    BoundaryUnique(s, |body|, |d|);
    assert s[..|body|] == body;
    assert s[|body| + |d|..] == rest;
  }

  lemma BodyHasNoDelimiter(body: seq<byte>, after: seq<byte>, j: nat, m: nat)
    requires Body(body) && j < |body|
    ensures !Delimited(body + after, j, m)
  {
    OccursBytes(body + after, j);
  }

  // ---- Producers ----

  /** A frame to send: what it says, the lines that say it, and the line ending of the closing blank line. */
  datatype Outgoing = Outgoing(entries: seq<Entry>, wire: seq<string>, crlf: bool)
  {
    /** The last line's own ending belongs to the delimiter. */
    predicate Sendable()
    {
      AllProper(entries) && WritesAll(wire, entries) && Plain(wire)
    }

    /** The frame it stands for, if it has data. */
    function Received(): (frames: seq<Frame>)
    {
      Framing.AsSeq(Meant(entries))
    }
  }

  function SpacedLine(field: Field, value: string): (line: string)
    requires !field.OtherField?
  {
    Name(field) + ": " + value
  }

  /** A frame of one data line, with a name or none, and plain line feeds. */
  function PlainFrame(event: Option<string>, data: string): (o: Outgoing)
  {
    if event.None? then Outgoing([Given(DataField, data)], [SpacedLine(DataField, data)], false)
    else
      Outgoing([Given(EventField, event.value), Given(DataField, data)],
               [SpacedLine(EventField, event.value), SpacedLine(DataField, data)], false)
  }

  lemma LineIsWritten(field: Field, value: string)
    requires !field.OtherField? && Clean(value)
    ensures Writes(SpacedLine(field, value), Given(field, value)) && StripCr(SpacedLine(field, value)) == SpacedLine(field, value)
  {
    var line := SpacedLine(field, value);
    assert line[|line| - 1] == if value == [] then ' ' else value[|value| - 1];
  }

  lemma PlainMeans(event: Option<string>, data: string)
    ensures Meant(PlainFrame(event, data).entries) == Some(Frame(event, data, None, None))
  {
    var d := Given(DataField, data);
    assert [d][..0] == [];
    assert DataLines([d]) == [] + [data] == [data];
    if event.Some? {
      var e := Given(EventField, event.value);
      assert [e][..0] == [] && [e, d][..1] == [e];
      assert DataLines([e]) == [] + [] == [];
      assert DataLines([e, d]) == [] + [data] == [data];
      assert Latest([e], EventField) == event && Latest([e], IdField) == None && LatestDelay([e]) == None;
    } else {
      assert Latest([d], EventField) == None && Latest([d], IdField) == None && LatestDelay([d]) == None;
    }
  }

  lemma PlainSends(event: Option<string>, data: string)
    requires Clean(data) && (event.Some? ==> Clean(event.value))
    ensures var o := PlainFrame(event, data); o.Sendable() && o.Received() == [Frame(event, data, None, None)]
  {
    LineIsWritten(DataField, data);
    if event.Some? {
      LineIsWritten(EventField, event.value);
    }
    PlainMeans(event, data);
  }

  predicate AllSendable(frames: seq<Outgoing>)
  {
    forall k :: 0 <= k < |frames| ==> frames[k].Sendable()
  }

  function Wire(encode: Encoding, frames: seq<Outgoing>): (s: seq<byte>)
    requires AllSendable(frames)
  {
    if frames == [] then []
    else
      assert frames[0].Sendable();
      encode(Join(frames[0].wire, '\n')) + Delimiter(frames[0].crlf) + Wire(encode, frames[1..])
  }

  function AllReceived(frames: seq<Outgoing>): (r: seq<Frame>)
    requires AllSendable(frames)
  {
    if frames == [] then []
    else
      assert frames[0].Sendable();
      frames[0].Received() + AllReceived(frames[1..])
  }

  lemma ReceivedMore(first: Outgoing, later: seq<Outgoing>)
    requires first.Sendable() && AllSendable(later)
    ensures AllSendable([first] + later) && AllReceived([first] + later) == first.Received() + AllReceived(later)
  {
    assert ([first] + later)[1..] == later;
  }

  predicate WireLine(line: string)
  {
    line != [] && '\n' !in line && line[0] != '\r'
  }

  /** The last line ends in no carriage return. */
  predicate Plain(lines: seq<string>)
  {
    lines != [] && StripCr(lines[|lines| - 1]) == lines[|lines| - 1]
  }

  lemma {:induction false} JoinedLines(lines: seq<string>)
    requires lines != [] && forall k :: 0 <= k < |lines| ==> WireLine(lines[k])
    ensures var t := Join(lines, '\n'); t != [] && NoBlank(t) && Inner(t[0]) && (Plain(lines) ==> Inner(t[|t| - 1]))
  {
    if |lines| == 1 {
      assert forall j :: 0 <= j < |lines[0]| ==> lines[0][j] in lines[0];
    } else {
      JoinedLines(lines[1..]);
      var head, tail := lines[0], Join(lines[1..], '\n');
      var t := Join(lines, '\n');
      assert t == head + ['\n'] + tail;
      assert forall j :: 0 <= j < |head| ==> t[j] == head[j] && t[j] in head;
      assert forall j :: |head| < j < |t| ==> t[j] == tail[j - |head| - 1];
    }
  }

  lemma OutgoingText(o: Outgoing)
    requires o.Sendable()
    ensures var t := Join(o.wire, '\n'); t != [] && NoBlank(t) && Inner(t[|t| - 1])
  {
    forall k | 0 <= k < |o.wire| ensures WireLine(o.wire[k]) {
      RawReads(o.wire[k], o.entries[k], OtherField);
    }
    JoinedLines(o.wire);
  }

  lemma OutgoingBody(encode: Encoding, decode: Decoding, o: Outgoing)
    requires Utf8Codec(encode, decode) && o.Sendable()
    ensures Body(encode(Join(o.wire, '\n')))
    ensures FrameParser(decode)(encode(Join(o.wire, '\n'))) == Ok(Meant(o.entries))
  {
    var text := Join(o.wire, '\n');
    OutgoingText(o);
    EncodeNoBlank(encode, decode, text);
    EncodeEnds(encode, decode, text);
    WrittenParses(o.wire, o.entries);
    assert decode(encode(text)) == Some(text);
  }

  lemma {:induction false} WireDrains(encode: Encoding, decode: Decoding, frames: seq<Outgoing>)
    requires AllSendable(frames) && Utf8Codec(encode, decode)
    ensures Framing.Drain(Cut, FrameParser(decode), Wire(encode, frames)) == Framing.Drained(AllReceived(frames), [], false)
    decreases |frames|
  {
    if frames == [] {
    } else {
      var o, rest := frames[0], Wire(encode, frames[1..]);
      var body := encode(Join(o.wire, '\n'));
      OutgoingBody(encode, decode, o);
      BodyIsCut(body, o.crlf, rest);
      WireDrains(encode, decode, frames[1..]);
    }
  }

  /** Every producer choice and every cut of its bytes gives back exactly the frames that were sent. */
  lemma WireRoundTrip(encode: Encoding, decode: Decoding, frames: seq<Outgoing>, chunks: seq<seq<byte>>)
    requires AllSendable(frames) && Utf8Codec(encode, decode)
    requires Concat(chunks) == Wire(encode, frames)
    ensures Framing.PushAll(Cut, FrameParser(decode), [], chunks) == Framing.Drained(AllReceived(frames), [], false)
  {
    WireDrains(encode, decode, frames);
    SseChunkInvariance(decode, chunks);
  }
}
