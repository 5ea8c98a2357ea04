/**
 Field parsing of one Server-Sent Events frame, after UTF-8 decoding.
 Source: adapters/openai-responses/src/sse.rs (the Anthropic adapter carries the same algorithm).
 */
module SseFields {
  import opened Common
  import opened Framing
  import opened Sequences
  import opened Splitting

  datatype Frame = Frame(event: Option<string>, data: string, id: Option<string>, retry: Option<nat>)

  // ---- Lines and fields ----

  function StripCr(raw: string): (line: string)
  {
    if raw != [] && raw[|raw| - 1] == '\r' then raw[..|raw| - 1] else raw
  }

  predicate Ignored(line: string)
  {
    line == [] || line[0] == ':'
  }

  /** The fields a frame can carry; every other name is skipped. */
  datatype Field = EventField | DataField | IdField | RetryField | OtherField

  function Name(field: Field): (name: string)
    requires !field.OtherField?
  {
    match field
    case EventField => "event"
    case DataField => "data"
    case IdField => "id"
    case RetryField => "retry"
  }

  function FieldNamed(name: string): (field: Field)
    ensures !field.OtherField? ==> Name(field) == name
    ensures forall f: Field :: !f.OtherField? && Name(f) == name ==> f == field
  {
    if name == "event" then EventField
    else if name == "data" then DataField
    else if name == "id" then IdField
    else if name == "retry" then RetryField
    else OtherField
  }

  function FieldOf(line: string): (field: Field)
  {
    FieldNamed(line[..IndexOf(line, ':')])
  }

  function FieldValue(line: string): (value: string)
  {
    var i := IndexOf(line, ':');
    if i == |line| then []
    else
      var rest := line[i + 1..];
      if rest != [] && rest[0] == ' ' then rest[1..] else rest
  }

  /** Decimal value of a digit string, or None when some character is not a digit. */
  function Digits(s: string): (n: Option<nat>)
  {
    if s == [] then Some(0)
    else
      var prefix := Digits(s[..|s| - 1]);
      var d := s[|s| - 1];
      if prefix.Some? && '0' <= d <= '9' then Some(10 * prefix.value + (d as int - '0' as int)) else None
  }

  /** Rust's `str::parse::<u64>`: an optional plus sign, at least one digit, no overflow. */
  function ParseU64(s: string): (n: Option<nat>)
    ensures n.Some? ==> n.value <= U64_MAX
  {
    var body := if s != [] && s[0] == '+' then s[1..] else s;
    if body == [] then None
    else
      var n := Digits(body);
      if n.Some? && n.value <= U64_MAX then n else None
  }

  function Decimal(n: nat): (s: string)
    ensures s != []
    ensures forall c :: c in s ==> '0' <= c <= '9'
    ensures Digits(s) == Some(n)
    decreases n
  {
    var d := ('0' as int + n % 10) as char;
    if n < 10 then
      assert [d][..0] == [];
      [d]
    else
      var high := Decimal(n / 10);
      assert (high + [d])[..|high|] == high;
      high + [d]
  }

  // ---- What a frame means ----

  /** The value a line carries for a field, if any. */
  function LineValue(raw: string, field: Field): (values: seq<string>)
  {
    var line := StripCr(raw);
    if !Ignored(line) && FieldOf(line) == field then [FieldValue(line)] else []
  }

  function Reader(field: Field): (read: string -> seq<string>) { raw => LineValue(raw, field) }

  /** Values carried by the lines of one field, in order. */
  function Values(lines: seq<string>, field: Field): (values: seq<string>)
  {
    Collect(Reader(field), lines)
  }

  /** Identifiers holding a NUL are ignored. */
  function WithoutNul(values: seq<string>): (kept: seq<string>)
  {
    Collect(UnlessNul, values)
  }

  function UnlessNul(value: string): (kept: seq<string>) { if '\0' in value then [] else [value] }

  predicate RetriesParse(values: seq<string>)
  {
    forall v :: v in values ==> ParseU64(v).Some?
  }

  function LastRetry(values: seq<string>): (r: Option<nat>)
  {
    if values == [] then None else ParseU64(values[|values| - 1])
  }

  /**
   The frame a decoded text stands for: the last event, id and retry win, data lines are joined by
   one newline, any malformed retry makes the frame an error, and a frame without data is dropped.
   */
  function FrameOf(text: string): (r: Result<Option<Frame>, AdapterError>)
  {
    FrameOfLines(Split(text, '\n'))
  }

  function FrameOfLines(lines: seq<string>): (r: Result<Option<Frame>, AdapterError>)
  {
    Assemble(Values(lines, EventField), Values(lines, DataField), Values(lines, IdField), Values(lines, RetryField))
  }

  function Assemble(events: seq<string>, data: seq<string>, ids: seq<string>, retries: seq<string>): (r: Result<Option<Frame>, AdapterError>)
  {
    if !RetriesParse(retries) then Err(InvalidSse)
    else if data == [] then Ok(None)
    else Ok(Some(Frame(Last(events), Join(data, '\n'), Last(WithoutNul(ids)), LastRetry(retries))))
  }

  /** What a pass over some lines remembers of them. */
  ghost predicate Remembers(lines: seq<string>, event: Option<string>, data: seq<string>, id: Option<string>, retry: Option<nat>)
  {
    && event == Last(Values(lines, EventField)) && data == Values(lines, DataField)
    && id == Last(WithoutNul(Values(lines, IdField)))
    && RetriesParse(Values(lines, RetryField)) && retry == LastRetry(Values(lines, RetryField))
  }

  lemma LastAppend<T>(xs: seq<T>, more: seq<T>)
    requires |more| <= 1
    ensures Last(xs + more) == if more == [] then Last(xs) else Some(more[0])
  {
    if more == [] { assert xs + more == xs; }
  }

  lemma NextId(lines: seq<string>, k: nat)
    requires k < |lines|
    ensures var i := WithoutNul(LineValue(lines[k], IdField));
            Last(WithoutNul(Values(lines[..k + 1], IdField))) == if i == [] then Last(WithoutNul(Values(lines[..k], IdField))) else Last(i)
  {
    var ids, i := Values(lines[..k], IdField), LineValue(lines[k], IdField);
    CollectStep(Reader(IdField), lines, k);
    CollectConcat(UnlessNul, ids, i);
    if i != [] { CollectOne(UnlessNul, i[0]); }
    LastAppend(WithoutNul(ids), WithoutNul(i));
  }

  lemma NextRetry(lines: seq<string>, k: nat)
    requires k < |lines| && RetriesParse(Values(lines[..k], RetryField)) && RetriesParse(LineValue(lines[k], RetryField))
    ensures var r, all := LineValue(lines[k], RetryField), Values(lines[..k + 1], RetryField);
            RetriesParse(all) && LastRetry(all) == if r == [] then LastRetry(Values(lines[..k], RetryField)) else LastRetry(r)
  {
    CollectStep(Reader(RetryField), lines, k);
    var before, r := Values(lines[..k], RetryField), LineValue(lines[k], RetryField);
    if r == [] { assert before + r == before; }
  }

  /** One more line adds its value to its own field only. */
  lemma RememberNext(lines: seq<string>, k: nat, event: Option<string>, data: seq<string>, id: Option<string>, retry: Option<nat>)
    requires k < |lines| && Remembers(lines[..k], event, data, id, retry)
    requires RetriesParse(LineValue(lines[k], RetryField))
    ensures var e, d := LineValue(lines[k], EventField), LineValue(lines[k], DataField);
            var i, r := WithoutNul(LineValue(lines[k], IdField)), LineValue(lines[k], RetryField);
            Remembers(lines[..k + 1], if e == [] then event else Last(e), data + d, if i == [] then id else Last(i),
                      if r == [] then retry else LastRetry(r))
  {
    CollectStep(Reader(EventField), lines, k);
    LastAppend(Values(lines[..k], EventField), LineValue(lines[k], EventField));
    CollectStep(Reader(DataField), lines, k);
    NextId(lines, k);
    NextRetry(lines, k);
  }

  /** The decoder's single pass over the lines computes `FrameOf`, stopping at the first bad retry. */
  method ParseText(text: string) returns (r: Result<Option<Frame>, AdapterError>)
    ensures r == FrameOf(text)
  {
    var lines := Split(text, '\n');
    var event, id, retry := None, None, None;
    var data: seq<string> := [];
    for k := 0 to |lines|
      invariant Remembers(lines[..k], event, data, id, retry)
    {
      var line := StripCr(lines[k]);
      if Ignored(line) {
        RememberNext(lines, k, event, data, id, retry);
        continue;
      }
      var field, value := FieldOf(line), FieldValue(line);
      if field == RetryField && ParseU64(value).None? {
        RetryFails(lines, k, value);
        return Err(InvalidSse);
      }
      RememberNext(lines, k, event, data, id, retry);
      if field == EventField {
        event := Some(value);
      } else if field == DataField {
        data := data + [value];
      } else if field == IdField {
        CollectOne(UnlessNul, value);
        if '\0' !in value {
          id := Some(value);
        }
      } else if field == RetryField {
        retry := ParseU64(value);
      }
    }
    assert lines[..|lines|] == lines;
    if data == [] {
      return Ok(None);
    }
    return Ok(Some(Frame(event, Join(data, '\n'), id, retry)));
  }

  lemma RetryFails(lines: seq<string>, k: nat, value: string)
    requires k < |lines| && LineValue(lines[k], RetryField) == [value] && ParseU64(value).None?
    ensures FrameOfLines(lines) == Err(InvalidSse)
  {
    assert lines == lines[..k + 1] + lines[k + 1..];
    CollectConcat(Reader(RetryField), lines[..k + 1], lines[k + 1..]);
    CollectStep(Reader(RetryField), lines, k);
    assert value in Values(lines, RetryField);
  }

  // ---- What a producer may write ----

  /** One line's worth of a frame: a value of a field, a reconnection delay, a comment, or a field nobody reads. */
  datatype Entry =
    | Given(field: Field, value: string)
    | Delay(milliseconds: nat, plus: bool)
    | Comment(text: string)
    | Unknown(name: string, value: string)

  /** Text that fits on a line: no newline in it and no carriage return at its end. */
  predicate Clean(value: string)
  {
    '\n' !in value && (value != [] ==> value[|value| - 1] != '\r')
  }

  function DelayText(milliseconds: nat, plus: bool): (text: string)
  {
    if plus then "+" + Decimal(milliseconds) else Decimal(milliseconds)
  }

  predicate Proper(e: Entry)
  {
    match e
    case Given(field, value) => (field.EventField? || field.DataField? || field.IdField?) && Clean(value)
    case Delay(milliseconds, _) => milliseconds <= U64_MAX
    case Comment(text) => Clean(text)
    case Unknown(name, value) =>
      name !in {"", "event", "data", "id", "retry"} && ':' !in name && '\n' !in name && name[0] != '\r' && Clean(value)
  }

  predicate AllProper(entries: seq<Entry>) { forall k :: 0 <= k < |entries| ==> Proper(entries[k]) }

  /** A field's line: one space after the colon is not part of the value, and a name alone has the empty value. */
  predicate WritesField(line: string, name: string, value: string)
  {
    || line == name + ": " + value
    || (line == name + ":" + value && (value == [] || value[0] != ' '))
    || (line == name && value == [])
  }

  predicate WritesLine(line: string, e: Entry)
  {
    match e
    case Given(field, value) => !field.OtherField? && WritesField(line, Name(field), value)
    case Delay(milliseconds, plus) => WritesField(line, "retry", DelayText(milliseconds, plus))
    case Comment(text) => line == ":" + text
    case Unknown(name, value) => line == name + ":" + value
  }

  /** A written line, possibly with the carriage return of a CRLF line ending. */
  predicate Writes(raw: string, e: Entry)
  {
    WritesLine(StripCr(raw), e)
  }

  predicate WritesAll(wire: seq<string>, entries: seq<Entry>)
  {
    |wire| == |entries| && forall k :: 0 <= k < |entries| ==> Writes(wire[k], entries[k])
  }

  // ---- What it means ----

  /** The last value that counts: an identifier with a NUL in it does not. */
  function Latest(entries: seq<Entry>, field: Field): (value: Option<string>)
  {
    if entries == [] then None
    else
      var last := entries[|entries| - 1];
      if last.Given? && last.field == field && (field.IdField? ==> '\0' !in last.value) then Some(last.value)
      else Latest(entries[..|entries| - 1], field)
  }

  function LatestDelay(entries: seq<Entry>): (milliseconds: Option<nat>)
  {
    if entries == [] then None
    else if entries[|entries| - 1].Delay? then Some(entries[|entries| - 1].milliseconds)
    else LatestDelay(entries[..|entries| - 1])
  }

  function DataLines(entries: seq<Entry>): (lines: seq<string>)
  {
    if entries == [] then []
    else
      var last := entries[|entries| - 1];
      DataLines(entries[..|entries| - 1]) + if last.Given? && last.field.DataField? then [last.value] else []
  }

  /** The frame these entries stand for; without data there is none. */
  function Meant(entries: seq<Entry>): (frame: Option<Frame>)
  {
    var data := DataLines(entries);
    if data == [] then None
    else Some(Frame(Latest(entries, EventField), Join(data, '\n'), Latest(entries, IdField), LatestDelay(entries)))
  }

  // ---- Parsing reads back what was written ----

  /** The text an entry gives a field. */
  function TextFor(e: Entry, field: Field): (texts: seq<string>)
  {
    if e.Given? && e.field == field then [e.value]
    else if e.Delay? && field.RetryField? then [DelayText(e.milliseconds, e.plus)]
    else if e.Unknown? && field.OtherField? then [FieldValue(e.name + ":" + e.value)]
    else []
  }

  function Texts(field: Field): (read: Entry -> seq<string>) { e => TextFor(e, field) }

  /** A line as written: not empty, no newline, and no carriage return at either end. */
  predicate PlainLine(line: string)
  {
    line != [] && '\n' !in line && line[0] != '\r' && StripCr(line) == line
  }

  lemma NamesArePlain(field: Field)
    requires !field.OtherField?
    ensures Name(field) != [] && ':' !in Name(field) && '\n' !in Name(field)
    ensures Name(field)[0] != ':' && Name(field)[0] != '\r' && Name(field)[|Name(field)| - 1] != '\r'
  {
  }

  /** A line that begins with a name and a colon is read as that name's field. */
  lemma NameReads(line: string, name: string, rest: string)
    requires name != [] && ':' !in name && line == name + ":" + rest
    ensures !Ignored(line) && FieldOf(line) == FieldNamed(name)
    ensures FieldValue(line) == if rest != [] && rest[0] == ' ' then rest[1..] else rest
  {
    assert line[..|name|] == name && line[|name| + 1..] == rest;
    IndexOfUnique(line, ':', |name|);
  }

  lemma NameAloneReads(name: string)
    requires name != [] && ':' !in name
    ensures !Ignored(name) && FieldOf(name) == FieldNamed(name) && FieldValue(name) == []
  {
    assert name[..|name|] == name;
  }

  lemma FieldReads(line: string, field: Field, value: string)
    requires !field.OtherField? && WritesField(line, Name(field), value)
    ensures !Ignored(line) && FieldOf(line) == field && FieldValue(line) == value
  {
    var name := Name(field);
    NamesArePlain(field);
    if line == name + ": " + value {
      assert line == name + ":" + ([' '] + value);
      NameReads(line, name, [' '] + value);
    } else if line == name {
      NameAloneReads(name);
    } else {
      NameReads(line, name, value);
    }
  }

  lemma FieldIsPlain(line: string, field: Field, value: string)
    requires !field.OtherField? && WritesField(line, Name(field), value) && Clean(value)
    ensures PlainLine(line)
  {
    NamesArePlain(field);
    if value != [] {
      assert line[|line| - 1] == value[|value| - 1];
    }
  }

  lemma {:induction false} NotANumber(s: string)
    requires exists k :: 0 <= k < |s| && !('0' <= s[k] <= '9')
    ensures Digits(s).None?
    decreases |s|
  {
    var k :| 0 <= k < |s| && !('0' <= s[k] <= '9');
    if k == |s| - 1 {
    } else {
      assert s[..|s| - 1][k] == s[k];
      NotANumber(s[..|s| - 1]);
    }
  }

  /** The number after an optional plus sign. */
  lemma PlusIsOptional(body: string)
    requires body != [] && body[0] != '+'
    ensures ParseU64("+" + body) == ParseU64(body)
  {
    assert ("+" + body)[1..] == body;
  }

  lemma DecimalStarts(n: nat)
    ensures '0' <= Decimal(n)[0] <= '9' && '0' <= Decimal(n)[|Decimal(n)| - 1] <= '9'
  {
    var s := Decimal(n);
    assert s[0] in s && s[|s| - 1] in s;
  }

  /** A number is read back, with or without a plus sign, exactly when it fits 64 bits. */
  lemma NumbersParse(n: nat, plus: bool)
    ensures ParseU64(DelayText(n, plus)) == (if n <= U64_MAX then Some(n) else None)
    ensures Clean(DelayText(n, plus)) && DelayText(n, plus) != []
  {
    DecimalStarts(n);
    PlusIsOptional(Decimal(n));
    var text := DelayText(n, plus);
    assert text[|text| - 1] == Decimal(n)[|Decimal(n)| - 1];
  }

  /** Nothing without digits, or with any other character behind the optional plus sign, is a number. */
  lemma OthersRefused(text: string)
    requires text == [] || (text[0] != '+' && exists k :: 0 <= k < |text| && !('0' <= text[k] <= '9'))
    ensures ParseU64(text) == None && ParseU64("+" + text) == None
  {
    if text == [] {
      assert ("+" + text)[1..] == [];
    } else {
      NotANumber(text);
      PlusIsOptional(text);
    }
  }

  /** A line that carries this value for this field and for no other. */
  ghost predicate CarriesOnly(line: string, own: Field, value: string)
  {
    PlainLine(line) && !Ignored(line) && FieldOf(line) == own && FieldValue(line) == value
  }

  lemma CommentIsIgnored(line: string, text: string)
    requires line == ":" + text && Clean(text)
    ensures PlainLine(line) && Ignored(line)
  {
    assert text != [] ==> line[|line| - 1] == text[|text| - 1];
  }

  lemma UnknownReads(line: string, name: string, value: string)
    requires Proper(Unknown(name, value)) && line == name + ":" + value
    ensures CarriesOnly(line, OtherField, FieldValue(line))
  {
    NameReads(line, name, value);
    assert value != [] ==> line[|line| - 1] == value[|value| - 1];
  }

  lemma GivenReads(line: string, field: Field, value: string)
    requires !field.OtherField? && WritesField(line, Name(field), value) && Clean(value)
    ensures CarriesOnly(line, field, value)
  {
    FieldReads(line, field, value);
    FieldIsPlain(line, field, value);
  }

  lemma EntryReads(line: string, e: Entry)
    requires WritesLine(line, e) && Proper(e)
    ensures match e
            case Given(own, value) => CarriesOnly(line, own, value)
            case Delay(milliseconds, plus) => CarriesOnly(line, RetryField, DelayText(milliseconds, plus))
            case Comment(_) => PlainLine(line) && Ignored(line)
            case Unknown(name, value) => CarriesOnly(line, OtherField, FieldValue(line)) && line == name + ":" + value
  {
    match e
    case Given(own, value) => GivenReads(line, own, value);
    case Delay(milliseconds, plus) =>
      NumbersParse(milliseconds, plus);
      GivenReads(line, RetryField, DelayText(milliseconds, plus));
    case Comment(text) => CommentIsIgnored(line, text);
    case Unknown(name, value) => UnknownReads(line, name, value);
  }

  /** A raw line starts no blank line and reads as its entry, whichever line ending it has. */
  lemma RawReads(raw: string, e: Entry, field: Field)
    requires Writes(raw, e) && Proper(e)
    ensures raw != [] && '\n' !in raw && raw[0] != '\r'
    ensures LineValue(raw, field) == TextFor(e, field)
  {
    EntryReads(StripCr(raw), e);
    assert raw == StripCr(raw) || raw == StripCr(raw) + ['\r'];
  }

  /** Values do not depend on line endings, on spaces after the colon, or on comments and unknown fields. */
  lemma WrittenValues(wire: seq<string>, entries: seq<Entry>, field: Field)
    requires WritesAll(wire, entries) && AllProper(entries)
    ensures Values(wire, field) == Collect(Texts(field), entries)
  {
    forall k | 0 <= k < |wire| ensures Reader(field)(wire[k]) == Texts(field)(entries[k]) {
      RawReads(wire[k], entries[k], field);
    }
    CollectAgree(Reader(field), Texts(field), wire, entries);
  }

  lemma {:induction false} TextsMean(entries: seq<Entry>)
    requires AllProper(entries)
    ensures Last(Collect(Texts(EventField), entries)) == Latest(entries, EventField)
    ensures Collect(Texts(DataField), entries) == DataLines(entries)
    decreases |entries|
  {
    if entries == [] {
    } else {
      var init, last := entries[..|entries| - 1], entries[|entries| - 1];
      TextsMean(init);
      LastAppend(Collect(Texts(EventField), init), TextFor(last, EventField));
    }
  }

  lemma {:induction false} IdsMean(entries: seq<Entry>)
    requires AllProper(entries)
    ensures Last(WithoutNul(Collect(Texts(IdField), entries))) == Latest(entries, IdField)
    decreases |entries|
  {
    if entries == [] {
    } else {
      var init, last := entries[..|entries| - 1], entries[|entries| - 1];
      IdsMean(init);
      var text := TextFor(last, IdField);
      CollectConcat(UnlessNul, Collect(Texts(IdField), init), text);
      if text != [] { CollectOne(UnlessNul, text[0]); }
      LastAppend(WithoutNul(Collect(Texts(IdField), init)), WithoutNul(text));
    }
  }

  lemma {:induction false} DelaysMean(entries: seq<Entry>)
    requires AllProper(entries)
    ensures var texts := Collect(Texts(RetryField), entries); RetriesParse(texts) && LastRetry(texts) == LatestDelay(entries)
    decreases |entries|
  {
    if entries == [] {
    } else {
      var init, last := entries[..|entries| - 1], entries[|entries| - 1];
      DelaysMean(init);
      if last.Delay? {
        NumbersParse(last.milliseconds, last.plus);
      } else {
        assert Collect(Texts(RetryField), init) + [] == Collect(Texts(RetryField), init);
      }
    }
  }

  /** Parsing reads exactly what was meant, however it was written: any order, spacing and line endings, comments and repeats. */
  lemma WrittenParses(wire: seq<string>, entries: seq<Entry>)
    requires WritesAll(wire, entries) && AllProper(entries) && wire != []
    ensures FrameOf(Join(wire, '\n')) == Ok(Meant(entries))
  {
    forall line | line in wire ensures '\n' !in line {
      var k :| 0 <= k < |wire| && wire[k] == line;
      RawReads(wire[k], entries[k], EventField);
    }
    SplitJoin(wire, '\n');
    WrittenValues(wire, entries, EventField);
    WrittenValues(wire, entries, DataField);
    WrittenValues(wire, entries, IdField);
    WrittenValues(wire, entries, RetryField);
    TextsMean(entries);
    IdsMean(entries);
    DelaysMean(entries);
  }
}
