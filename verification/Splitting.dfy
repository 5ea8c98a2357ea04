/** Splitting a sequence at a separator and joining the pieces again. */
module Splitting {
  /** Index of the first `c`, or the length when there is none. */
  function IndexOf<T(==)>(text: seq<T>, c: T): (i: nat)
    ensures i <= |text|
    ensures i < |text| ==> text[i] == c
    ensures c !in text[..i]
  {
    if text == [] || text[0] == c then 0
    else
      var i := 1 + IndexOf(text[1..], c);
      assert text[..i] == [text[0]] + text[1..][..i - 1];
      i
  }

  lemma IndexOfUnique<T>(text: seq<T>, c: T, i: nat)
    requires i < |text| && text[i] == c && c !in text[..i]
    ensures IndexOf(text, c) == i
  {
  }

  function Join<T>(parts: seq<seq<T>>, c: T): (text: seq<T>)
    requires parts != []
  {
    if |parts| == 1 then parts[0] else parts[0] + [c] + Join(parts[1..], c)
  }

  /** The pieces between separators: no piece holds a separator and joining restores the text. */
  function Split<T(==)>(text: seq<T>, c: T): (parts: seq<seq<T>>)
    ensures parts != []
    ensures forall p :: p in parts ==> c !in p
    ensures Join(parts, c) == text
    decreases |text|
  {
    var i := IndexOf(text, c);
    if i == |text| then
      assert text[..i] == text;
      [text]
    else
      assert text == text[..i] + [c] + text[i + 1..];
      [text[..i]] + Split(text[i + 1..], c)
  }

  lemma {:induction false} SplitJoin<T>(parts: seq<seq<T>>, c: T)
    requires parts != []
    requires forall p :: p in parts ==> c !in p
    ensures Split(Join(parts, c), c) == parts
  {
    var text := Join(parts, c);
    if |parts| == 1 {
      assert c !in parts[0];
      assert IndexOf(text, c) == |text|;
    } else {
      var i := |parts[0]|;
      assert text[..i] == parts[0];
      IndexOfUnique(text, c, i);
      assert text[i + 1..] == Join(parts[1..], c);
      SplitJoin(parts[1..], c);
    }
  }

  // ---- The pieces, by position ----

  /** The part stands at `i` between two separators or ends of the text, and holds none. */
  ghost predicate Segment<T(!new)>(text: seq<T>, c: T, i: nat, part: seq<T>)
  {
    var j := i + |part|;
    && j <= |text| && text[i..j] == part && c !in part
    && (i == 0 || text[i - 1] == c) && (j == |text| || text[j] == c)
  }

  lemma SegmentShift<T(!new)>(text: seq<T>, c: T, at: nat, i: nat, part: seq<T>)
    requires at < |text| && text[at] == c
    ensures Segment(text, c, at + 1 + i, part) <==> Segment(text[at + 1..], c, i, part)
  {
    if at + 1 + i + |part| <= |text| {
      assert text[at + 1..][i..i + |part|] == text[at + 1 + i..at + 1 + i + |part|];
    }
  }

  /** Before the first separator there is one segment. */
  lemma FirstSegment<T(!new)>(text: seq<T>, c: T, at: nat, i: nat, part: seq<T>)
    requires at <= |text| && c !in text[..at] && (at < |text| ==> text[at] == c)
    requires Segment(text, c, i, part)
    ensures (i == 0 && part == text[..at]) || at < i
  {
    assert forall k :: 0 <= k < at ==> text[k] in text[..at];
    assert forall k :: 0 <= k < |part| ==> text[i + k] == part[k] && part[k] in part;
  }

  /** A joined part stands in the text as a segment. */
  lemma {:induction false} PartIsSegment<T(!new)>(parts: seq<seq<T>>, c: T, k: nat) returns (i: nat)
    requires k < |parts| && forall p :: p in parts ==> c !in p
    ensures Segment(Join(parts, c), c, i, parts[k])
    decreases |parts|
  {
    var at, text := |parts[0]|, Join(parts, c);
    if k == 0 {
      i := 0;
      assert text[0..at] == parts[0];
    } else {
      assert text[at + 1..] == Join(parts[1..], c);
      var p := PartIsSegment(parts[1..], c, k - 1);
      SegmentShift(text, c, at, p, parts[k]);
      i := at + 1 + p;
    }
  }

  /** Every segment of joined parts is one of them. */
  lemma {:induction false} SegmentIsPart<T(!new)>(parts: seq<seq<T>>, c: T, i: nat, part: seq<T>)
    requires parts != [] && forall p :: p in parts ==> c !in p
    requires Segment(Join(parts, c), c, i, part)
    ensures part in parts
    decreases |parts|
  {
    var at, text := |parts[0]|, Join(parts, c);
    assert text[..at] == parts[0];
    FirstSegment(text, c, at, i, part);
    if i <= at {
    } else {
      assert text[at + 1..] == Join(parts[1..], c);
      SegmentShift(text, c, at, i - at - 1, part);
      SegmentIsPart(parts[1..], c, i - at - 1, part);
    }
  }

  /** The pieces of a text are exactly its segments. */
  lemma SplitIsSegments<T(!new)>(text: seq<T>, c: T, part: seq<T>)
    ensures part in Split(text, c) <==> exists i: nat :: Segment(text, c, i, part)
  {
    var parts := Split(text, c);
    if part in parts {
      var k :| 0 <= k < |parts| && parts[k] == part;
      var i := PartIsSegment(parts, c, k);
    }
    if i: nat :| Segment(text, c, i, part) {
      SegmentIsPart(parts, c, i, part);
    }
  }
}
