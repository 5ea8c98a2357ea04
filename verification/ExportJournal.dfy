/**
 The journal file of the export service: what is written for a pending set, what reading a file gives, and the service's restart.
 Source: desktop/backend/src/artifact_export.rs. JSON parsing is a parameter.
 */
module ExportJournal {
  import opened ArtifactExport
  import opened Common
  import Splitting

  const MAX_JOURNAL_BYTES := 8 * 1024

  const SCHEMA_VERSION := 1

  datatype Journal = Journal(schemaVersion: nat, ids: seq<Id>)

  datatype JournalFile = Missing | Unreadable | Content(bytes: Bytes)

  type Parse = Bytes -> Option<Journal>

  // ---- Reading ----

  function ReadJournal(parse: Parse, file: JournalFile): (r: Result<set<Id>, ExportError>)
  {
    match file
    case Missing => Ok({})
    case Unreadable => Err(Unavailable)
    case Content(bytes) =>
      if |bytes| > MAX_JOURNAL_BYTES then Err(BoundExceeded)
      else
        var journal := parse(bytes);
        if journal.None? then Err(Unavailable)
        else if journal.value.schemaVersion != SCHEMA_VERSION || |journal.value.ids| > MAX_TARGETS then Err(BoundExceeded)
        else if exists id :: id in journal.value.ids && !ValidTargetId(id) then Err(Invalid)
        else Ok(set id | id in journal.value.ids)
  }

  /** Which files are read, and which error any other one gives. */
  lemma ReadExactly(parse: Parse, file: JournalFile)
    ensures file == Missing ==> ReadJournal(parse, file) == Ok({})
    ensures file == Unreadable ==> ReadJournal(parse, file) == Err(Unavailable)
    ensures file.Content? ==>
              var journal := parse(file.bytes);
              ReadJournal(parse, file) ==
              if |file.bytes| > 8_192 || (journal.Some? && (journal.value.schemaVersion != 1 || |journal.value.ids| > 16)) then Err(BoundExceeded)
              else if journal == None then Err(Unavailable)
              else if forall k :: 0 <= k < |journal.value.ids| ==> ValidTargetId(journal.value.ids[k]) then Ok(set id | id in journal.value.ids)
              else Err(Invalid)
  {
    if file.Content? && parse(file.bytes).Some? {
      var ids := parse(file.bytes).value.ids;
      assert (exists id :: id in ids && !ValidTargetId(id)) <==> !forall k :: 0 <= k < |ids| ==> ValidTargetId(ids[k]);
    }
  }

  lemma {:induction false} FewIds(ids: seq<Id>)
    ensures |set id | id in ids| <= |ids|
    decreases |ids|
  {
    if ids == [] {
    } else {
      FewIds(ids[1..]);
      assert (set id | id in ids) == (set id | id in ids[1..]) + {ids[0]};
    }
  }

  /** Whatever the file holds, a pending set read from it is one the service could have written. */
  lemma ReadIsValid(parse: Parse, file: JournalFile)
    ensures ReadJournal(parse, file).Ok? ==> ValidJournal(ReadJournal(parse, file).value)
  {
    if file.Content? && parse(file.bytes).Some? {
      FewIds(parse(file.bytes).value.ids);
    }
  }

  // ---- Writing ----

  predicate Plain(text: string) { forall k :: 0 <= k < |text| ==> text[k] as int < 128 }

  function Ascii(text: string): (bytes: Bytes)
    requires Plain(text)
    ensures |bytes| == |text|
  {
    seq(|text|, k requires 0 <= k < |text| => text[k] as int as byte)
  }

  lemma IdIsPlain(id: Id)
    requires ValidTargetId(id)
    ensures Plain(id)
  {
    forall k | 0 <= k < |id| ensures id[k] as int < 128 {
      assert id[k] in id;
    }
  }

  /** Valid ids as JSON strings, which need no escapes, separated by commas. */
  function Listed(ids: seq<Id>): (text: string)
    requires forall id :: id in ids ==> ValidTargetId(id)
    ensures Plain(text) && |text| <= 67 * |ids|
  {
    if ids == [] then ""
    else
      var first := "\"" + ids[0] + "\"";
      IdIsPlain(ids[0]);
      if |ids| == 1 then first else first + "," + Listed(ids[1..])
  }

  const HEAD := "{\"schema_version\":1,\"pending_target_ids\":["

  const TAIL := "]}"

  lemma PlainAround(text: string)
    requires Plain(text)
    ensures Plain(HEAD + text + TAIL)
  {
    assert Plain(HEAD) && Plain(TAIL);
  }

  /** The bytes written for a pending set. */
  function Rendered(ids: set<Id>): (bytes: Bytes)
    requires ValidJournal(ids)
    ensures |bytes| <= MAX_JOURNAL_BYTES
  {
    InOrderSize(ids);
    PlainAround(Listed(InOrder(ids)));
    Ascii(HEAD + Listed(InOrder(ids)) + TAIL)
  }

  /** Parsing inverts the rendering of every pending set the service writes. */
  ghost predicate ReadsBack(parse: Parse)
  {
    forall ids :: ValidJournal(ids) ==> parse(Rendered(ids)) == Some(Journal(SCHEMA_VERSION, InOrder(ids)))
  }

  function Quoted(ids: seq<Id>): (texts: seq<string>)
    ensures |texts| == |ids| && forall k :: 0 <= k < |ids| ==> texts[k] == "\"" + ids[k] + "\""
  {
    seq(|ids|, k requires 0 <= k < |ids| => "\"" + ids[k] + "\"")
  }

  /** The list is the quoted ids with commas between them. */
  lemma {:induction false} ListedIsJoined(ids: seq<Id>)
    requires ids != [] && forall id :: id in ids ==> ValidTargetId(id)
    ensures Listed(ids) == Splitting.Join(Quoted(ids), ',')
    decreases |ids|
  {
    var first := "\"" + ids[0] + "\"";
    if |ids| == 1 {
      assert Quoted(ids) == [first];
    } else {
      ListedIsJoined(ids[1..]);
      assert Quoted(ids)[1..] == Quoted(ids[1..]);
    }
  }

  lemma QuotedHasNoComma(ids: seq<Id>)
    requires forall id :: id in ids ==> ValidTargetId(id)
    ensures forall text :: text in Quoted(ids) ==> ',' !in text
  {
    forall k | 0 <= k < |ids| ensures ',' !in Quoted(ids)[k] {
      assert ValidTargetId(ids[k]);
    }
  }

  lemma QuotedInjective(a: seq<Id>, b: seq<Id>)
    requires Quoted(a) == Quoted(b)
    ensures a == b
  {
    forall k | 0 <= k < |a| ensures a[k] == b[k] {
      var x, y := Quoted(a)[k], Quoted(b)[k];
      assert x[1..|x| - 1] == a[k] && y[1..|y| - 1] == b[k];
    }
  }

  lemma ListedNonEmpty(ids: seq<Id>)
    requires ids != [] && forall id :: id in ids ==> ValidTargetId(id)
    ensures Listed(ids) != ""
  {
  }

  /** A list of valid ids can be read back from its text. */
  lemma ListedInjective(a: seq<Id>, b: seq<Id>)
    requires (forall id :: id in a ==> ValidTargetId(id)) && (forall id :: id in b ==> ValidTargetId(id)) && Listed(a) == Listed(b)
    ensures a == b
  {
    if a == [] || b == [] {
      if a != [] {
        ListedNonEmpty(a);
      }
      if b != [] {
        ListedNonEmpty(b);
      }
    } else {
      ListedIsJoined(a);
      ListedIsJoined(b);
      QuotedHasNoComma(a);
      QuotedHasNoComma(b);
      Splitting.SplitJoin(Quoted(a), ',');
      Splitting.SplitJoin(Quoted(b), ',');
      QuotedInjective(a, b);
    }
  }

  lemma AsciiInjective(a: string, b: string)
    requires Plain(a) && Plain(b) && Ascii(a) == Ascii(b)
    ensures a == b
  {
    forall k | 0 <= k < |a| ensures a[k] == b[k] {
      assert Ascii(a)[k] == Ascii(b)[k];
    }
  }

  lemma MiddleEqual(head: string, a: string, b: string, tail: string)
    requires head + a + tail == head + b + tail
    ensures a == b
  {
    var x, y := head + a + tail, head + b + tail;
    assert x[|head|..|x| - |tail|] == a && y[|head|..|y| - |tail|] == b;
  }

  /** No two pending sets are written alike. */
  lemma RenderedInjective(a: set<Id>, b: set<Id>)
    requires ValidJournal(a) && ValidJournal(b) && Rendered(a) == Rendered(b)
    ensures a == b
  {
    PlainAround(Listed(InOrder(a)));
    PlainAround(Listed(InOrder(b)));
    AsciiInjective(HEAD + Listed(InOrder(a)) + TAIL, HEAD + Listed(InOrder(b)) + TAIL);
    MiddleEqual(HEAD, Listed(InOrder(a)), Listed(InOrder(b)), TAIL);
    ListedInjective(InOrder(a), InOrder(b));
    assert forall id :: id in a <==> id in InOrder(a);
  }

  ghost predicate RendersTo(ids: set<Id>, bytes: Bytes) { ValidJournal(ids) && Rendered(ids) == bytes }

  /** So there is a parser that reads every journal back. */
  lemma ParserExists() returns (parse: Parse)
    ensures ReadsBack(parse)
  {
    parse := (bytes: Bytes) =>
      if exists ids :: RendersTo(ids, bytes) then
        var ids :| RendersTo(ids, bytes);
        Some(Journal(SCHEMA_VERSION, InOrder(ids)))
      else None;
    forall ids | ValidJournal(ids) ensures parse(Rendered(ids)) == Some(Journal(SCHEMA_VERSION, InOrder(ids))) {
      assert RendersTo(ids, Rendered(ids));
      var other :| RendersTo(other, Rendered(ids)) && parse(Rendered(ids)) == Some(Journal(SCHEMA_VERSION, InOrder(other)));
      RenderedInjective(ids, other);
    }
  }

  /** Every pending set is read back as it was written, within the file's byte bound. */
  lemma JournalRoundTrip(parse: Parse, ids: set<Id>)
    requires ReadsBack(parse) && ValidJournal(ids)
    ensures ReadJournal(parse, Content(Rendered(ids))) == Ok(ids)
  {
    InOrderSize(ids);
    var order := InOrder(ids);
    assert (set id | id in order) == ids;
  }

  // ---- Restarting ----

  /** A journal without repeated ids is read as a restart from a disk with those ids would be: the same state or the same error. */
  lemma ReopenedAgrees(parse: Parse, bytes: Bytes, ids: seq<Id>, files: map<string, Bytes>)
    requires |bytes| <= 8_192 && parse(bytes) == Some(Journal(1, ids)) && |set id | id in ids| == |ids|
    ensures var read, d := ReadJournal(parse, Content(bytes)), Disk((set id | id in ids), files);
            Reopened(d) == if read.Ok? then Ok(State(d, read.value, map[])) else Err(read.error)
  {
  }

  /** A service starts exactly from a file that can be read, with what it lists pending and no target. */
  method Durable(sha256: Sha256, parse: Parse, file: JournalFile, files: map<string, Bytes>) returns (r: Result<ExportService, ExportError>)
    ensures r.Ok? <==> ReadJournal(parse, file).Ok?
    ensures r.Err? ==> r.error == ReadJournal(parse, file).error
    ensures r.Ok? ==>
              var pending := ReadJournal(parse, file).value;
              && fresh(r.value) && r.value.sha256 == sha256 && r.value.passed == []
              && r.value.View() == State(Disk(pending, files), pending, map[]) && ValidJournal(pending)
  {
    var pending := ReadJournal(parse, file);
    if pending.Err? {
      return Err(pending.error);
    }
    ReadIsValid(parse, file);
    var service := new ExportService(sha256, State(Disk(pending.value, files), pending.value, map[]));
    return Ok(service);
  }
}
