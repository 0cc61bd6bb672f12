/** Reading an event file and repairing its tail (electron/sessionEvents.ts). The file is a sequence of bytes, the text
    the program sees is its UTF-8 decoding, and string offsets count UTF-16 units. */
module TailRecovery {

  /** A Unicode code point. */
  type Char = nat

  const NEWLINE: Char := 10
  const CLOSING_BRACE: Char := 125
  const REPLACEMENT: Char := 0xFFFD

  /** The `index`-th byte of the encoding of `code`. */
  datatype Byte = Byte(code: Char, index: nat)

  function Width(c: Char): nat {
    if c < 0x80 then 1 else if c < 0x800 then 2 else if c < 0x1_0000 then 3 else 4
  }

  function Units(c: Char): nat {
    if c < 0x1_0000 then 1 else 2
  }

  function EncodeChar(c: Char): (bytes: seq<Byte>)
    ensures |bytes| == Width(c)
  {
    seq(Width(c), i requires 0 <= i < Width(c) => Byte(c, i))
  }

  function Encode(text: seq<Char>): seq<Byte> {
    if text == [] then [] else EncodeChar(text[0]) + Encode(text[1..])
  }

  /** Decoding; a byte that does not start a complete character reads as the replacement character. */
  function Decode(bytes: seq<Byte>): seq<Char>
    decreases |bytes|
  {
    if bytes == [] then []
    else
      var c := bytes[0].code;
      if Width(c) <= |bytes| && bytes[..Width(c)] == EncodeChar(c) then [c] + Decode(bytes[Width(c)..])
      else [REPLACEMENT] + Decode(bytes[1..])
  }

  /** `text.length` */
  function Length(text: seq<Char>): nat {
    if text == [] then 0 else Units(text[0]) + Length(text[1..])
  }

  predicate SingleByte(text: seq<Char>) {
    forall i | 0 <= i < |text| :: Width(text[i]) == 1
  }

  // ---------------------------------------------------------------- the reader

  /** What parsing one line gives: an event, a syntax error, or valid JSON that is no event. */
  datatype Parsed = Event(id: nat) | SyntaxError | InvalidEvent

  type Parser = seq<Char> -> Parsed

  datatype Code = MalformedJson | InvalidEventCode | TornTail

  datatype Issue = Issue(code: Code, line: nat, truncated: bool, dataLossPossible: bool)

  datatype Integrity = Complete | RecoveredTail | Degraded

  datatype ReadResult = ReadResult(events: seq<nat>, issues: seq<Issue>, bytes: seq<Byte>)

  /** `text.split('\n')` */
  function Split(text: seq<Char>): (lines: seq<seq<Char>>)
    ensures lines != []
  {
    if text == [] then [[]]
    else if text[0] == NEWLINE then [[]] + Split(text[1..])
    else
      var rest := Split(text[1..]);
      [[text[0]] + rest[0]] + rest[1..]
  }

  predicate EndsWithNewline(text: seq<Char>) {
    text != [] && text[|text| - 1] == NEWLINE
  }

  predicate Blank(c: Char) {
    c == 32 || 9 <= c <= 13 || c == 0xA0 || c == 0xFEFF || c == 0x1680 || 0x2000 <= c <= 0x200A || c == 0x2028
        || c == 0x2029
    || c == 0x202F || c == 0x205F || c == 0x3000
  }

  /** `line.trimEnd().endsWith('}')` */
  predicate ClosesBrace(line: seq<Char>) {
    line != [] && (if Blank(line[|line| - 1]) then ClosesBrace(line[..|line| - 1])
                   else line[|line| - 1] == CLOSING_BRACE)
  }

  function IssueOf(line: seq<Char>, parsed: Parsed, index: nat, last: bool, trailing: bool): Issue {
    var torn := last && !trailing && parsed == SyntaxError && !ClosesBrace(line);
    Issue(if torn then TornTail else if parsed == SyntaxError then MalformedJson
                                     else InvalidEventCode, index + 1, torn, !torn)
  }

  /** Events and issues of the first `n` lines. */
  function EventsOf(lines: seq<seq<Char>>, parse: Parser, n: nat): seq<nat>
    requires n <= |lines|
  {
    if n == 0 then []
    else EventsOf(lines, parse, n - 1) + if lines[n - 1] != [] && parse(lines[n - 1]).Event?
         then [parse(lines[n - 1]).id] else []
  }

  function IssuesOf(lines: seq<seq<Char>>, parse: Parser, trailing: bool, n: nat): seq<Issue>
    requires n <= |lines|
  {
    if n == 0 then []
    else IssuesOf(lines, parse, trailing, n - 1)
         + if lines[n - 1] != [] && !parse(lines[n - 1]).Event?
           then [IssueOf(lines[n - 1], parse(lines[n - 1]), n - 1, n == |lines|, trailing)] else []
  }

  lemma NoLineRead(lines: seq<seq<Char>>, parse: Parser, trailing: bool)
    ensures EventsOf(lines, parse, 0) == [] && IssuesOf(lines, parse, trailing, 0) == []
  {
  }

  lemma LineRead(lines: seq<seq<Char>>, parse: Parser, trailing: bool, i: nat)
    requires i < |lines|
    ensures EventsOf(lines, parse, i + 1)
            == EventsOf(lines, parse, i)
               + if lines[i] != [] && parse(lines[i]).Event? then [parse(lines[i]).id] else []
    ensures IssuesOf(lines, parse, trailing, i + 1)
            == IssuesOf(lines, parse, trailing, i)
               + if lines[i] != [] && !parse(lines[i]).Event?
                 then [IssueOf(lines[i], parse(lines[i]), i, i + 1 == |lines|, trailing)] else []
  {
    hide IssueOf;
  }

  /** The string offset just behind the last newline. */
  function TailStart(text: seq<Char>): nat {
    if text == [] then 0
    else if text[|text| - 1] == NEWLINE then Length(text)
    else TailStart(text[..|text| - 1])
  }

  /** `fs.truncate`: the offset counts bytes. */
  function Truncated(bytes: seq<Byte>, size: nat): seq<Byte> {
    if size <= |bytes| then bytes[..size] else bytes
  }

  /** Reading with tail repair. */
  function Repair(bytes: seq<Byte>, parse: Parser): ReadResult {
    var text := Decode(bytes);
    var lines := Split(text);
    var trailing := EndsWithNewline(text);
    var events := EventsOf(lines, parse, |lines|);
    var issues := IssuesOf(lines, parse, trailing, |lines|);
    var torn := issues != [] && issues[|issues| - 1].truncated && forall i | 0 <= i < |issues| :: issues[i].truncated;
    ReadResult(events, issues,
               if torn then Truncated(bytes, TailStart(text))
               else if text != [] && !trailing && events != [] && issues == [] then bytes + EncodeChar(NEWLINE)
               else bytes)
  }

  function IntegrityOf(issues: seq<Issue>): Integrity {
    if exists i | 0 <= i < |issues| :: !issues[i].truncated then Degraded
    else if issues != [] then RecoveredTail else Complete
  }

  /** An event file on disk. */
  class EventsFile {
    var bytes: seq<Byte>

    constructor (bytes: seq<Byte>)
      ensures this.bytes == bytes
    {
      this.bytes := bytes;
    }

    /** `readSessionEventsDetailed` with `repairTail`. */
    method ReadDetailed(parse: Parser) returns (events: seq<nat>, issues: seq<Issue>, integrity: Integrity)
      modifies this
      ensures ReadResult(events, issues, bytes) == Repair(old(bytes), parse)
      ensures integrity == IntegrityOf(issues)
    {
      hide Decode, Split, EndsWithNewline, ClosesBrace, TailStart, EventsOf, IssuesOf, Truncated;
      var text := Decode(bytes);
      var lines := Split(text);
      var trailing := EndsWithNewline(text);
      events, issues := [], [];
      NoLineRead(lines, parse, trailing);
      var degraded := false;
      var i := 0;
      while i < |lines|
        invariant 0 <= i <= |lines|
        invariant events == EventsOf(lines, parse, i) && issues == IssuesOf(lines, parse, trailing, i)
        invariant degraded <==> exists k | 0 <= k < |issues| :: !issues[k].truncated
        invariant i < |lines| ==> bytes == old(bytes) && forall k | 0 <= k < |issues| :: !issues[k].truncated
        invariant i == |lines| ==> forall k | 0 <= k < |issues| - 1 :: !issues[k].truncated
        invariant i == |lines| && issues != [] && !degraded ==> bytes == Truncated(old(bytes), TailStart(text))
        invariant issues == [] || degraded ==> bytes == old(bytes)
      {
        var line := lines[i];
        LineRead(lines, parse, trailing, i);
        assert issues != [] ==> !issues[0].truncated;
        if line != [] {
          var parsed := parse(line);
          if parsed.Event? {
            events := events + [parsed.id];
          } else {
            var issue := IssueOf(line, parsed, i, i + 1 == |lines|, trailing);
            ghost var before := issues;
            issues := issues + [issue];
            assert issues[..|before|] == before && issues[|before|] == issue;
            assert forall k | 0 <= k < |before| :: issues[k] == before[k];
            degraded := degraded || !issue.truncated;
            if issue.truncated && !degraded {
              bytes := Truncated(bytes, TailStart(text));
            }
          }
        }
        i := i + 1;
      }
      if text != [] && !trailing && events != [] && issues == [] {
        bytes := bytes + EncodeChar(NEWLINE);
      }
      integrity := if degraded then Degraded else if issues != [] then RecoveredTail else Complete;
    }

    /** The append of one batch: `ensureTerminatedLine`, repair when the last line is open, then the data on lines of
        its own. */
    method AppendLines(data: seq<Char>, parse: Parser)
      modifies this
      ensures bytes == Appended(old(bytes), data, parse)
    {
      if !Terminated(bytes) {
        var _, _, _ := ReadDetailed(parse);
      }
      if Terminated(bytes) {
        bytes := bytes + Encode(data);
      } else {
        bytes := bytes + EncodeChar(NEWLINE) + Encode(data);
      }
    }
  }

  /** The last byte of the file is a newline, or there is none. */
  predicate Terminated(bytes: seq<Byte>) {
    bytes != [] ==> bytes[|bytes| - 1] == Byte(NEWLINE, 0)
  }

  function Appended(bytes: seq<Byte>, data: seq<Char>, parse: Parser): seq<Byte> {
    var repaired := if Terminated(bytes) then bytes else Repair(bytes, parse).bytes;
    repaired + (if Terminated(repaired) then [] else EncodeChar(NEWLINE)) + Encode(data)
  }

  // ---------------------------------------------------------------- encoding

  lemma {:induction false} EncodeConcat(a: seq<Char>, b: seq<Char>)
    ensures Encode(a + b) == Encode(a) + Encode(b)
    decreases |a|
  {
    if a == [] {
      assert a + b == b;
    } else {
      assert (a + b)[1..] == a[1..] + b;
      EncodeConcat(a[1..], b);
    }
  }

  lemma DecodeHead(c: Char, tail: seq<Byte>)
    ensures Decode(EncodeChar(c) + tail) == [c] + Decode(tail)
  {
  }

  /** Complete characters decode to themselves, whatever follows. */
  lemma {:induction false} DecodeEncoded(a: seq<Char>, rest: seq<Byte>)
    ensures Decode(Encode(a) + rest) == a + Decode(rest)
    decreases |a|
  {
    hide Decode, EncodeChar;
    if a == [] {
      assert Encode(a) + rest == rest;
    } else {
      var bytes := Encode(a) + rest;
      var tail := Encode(a[1..]) + rest;
      assert bytes == EncodeChar(a[0]) + tail;
      DecodeEncoded(a[1..], rest);
      DecodeHead(a[0], tail);
      assert [a[0]] + (a[1..] + Decode(rest)) == a + Decode(rest);
    }
  }

  lemma {:induction false} LengthConcat(a: seq<Char>, b: seq<Char>)
    ensures Length(a + b) == Length(a) + Length(b)
    decreases |a|
  {
    if a == [] {
      assert a + b == b;
    } else {
      assert (a + b)[1..] == a[1..] + b;
      LengthConcat(a[1..], b);
    }
  }

  /** A text has at most as many UTF-16 units as bytes, and as many only if every character is a single byte. */
  lemma {:induction false} UnitsAgainstBytes(text: seq<Char>)
    ensures Length(text) <= |Encode(text)|
    ensures Length(text) == |Encode(text)| <==> SingleByte(text)
    decreases |text|
  {
    if text != [] {
      UnitsAgainstBytes(text[1..]);
      assert SingleByte(text) <==> Width(text[0]) == 1 && SingleByte(text[1..]) by {
        assert forall i | 0 < i < |text| :: text[i] == text[1..][i - 1];
      }
    }
  }

  /** Truncating at a byte offset never reaches behind the file when it was computed from its text. */
  lemma {:induction false} DecodedLength(bytes: seq<Byte>)
    ensures Length(Decode(bytes)) <= |bytes|
    decreases |bytes|
  {
    if bytes != [] {
      var c := bytes[0].code;
      if Width(c) <= |bytes| && bytes[..Width(c)] == EncodeChar(c) {
        DecodedLength(bytes[Width(c)..]);
      } else {
        DecodedLength(bytes[1..]);
      }
    }
  }

  // ---------------------------------------------------------------- lines

  predicate OneLine(text: seq<Char>) {
    forall i | 0 <= i < |text| :: text[i] != NEWLINE
  }

  lemma {:induction false} SplitOneLine(text: seq<Char>)
    requires OneLine(text)
    ensures Split(text) == [text]
    decreases |text|
  {
    if text != [] {
      SplitOneLine(text[1..]);
      assert [text[0]] + text[1..] == text;
    }
  }

  lemma {:induction false} SplitFirstLine(line: seq<Char>, rest: seq<Char>)
    requires OneLine(line)
    ensures Split(line + [NEWLINE] + rest) == [line] + Split(rest)
    decreases |line|
  {
    var text := line + [NEWLINE] + rest;
    if line == [] {
      assert text[1..] == rest;
    } else {
      assert text[1..] == line[1..] + [NEWLINE] + rest;
      SplitFirstLine(line[1..], rest);
      assert [line[0]] + line[1..] == line;
      assert text[0] == line[0] && Split(text[1..])[1..] == Split(rest);
    }
  }

  /** The lines of a log. */
  function LogText(records: seq<seq<Char>>): seq<Char> {
    if records == [] then [] else records[0] + [NEWLINE] + LogText(records[1..])
  }

  /** A log every line of which is a record. */
  predicate WellFormed(records: seq<seq<Char>>, parse: Parser) {
    forall i | 0 <= i < |records| :: records[i] != [] && OneLine(records[i]) && parse(records[i]).Event?
  }

  lemma {:induction false} SplitLog(records: seq<seq<Char>>, tail: seq<Char>)
    requires (forall i | 0 <= i < |records| :: OneLine(records[i])) && OneLine(tail)
    ensures Split(LogText(records) + tail) == records + [tail]
    decreases |records|
  {
    if records == [] {
      assert LogText(records) + tail == tail;
      SplitOneLine(tail);
    } else {
      assert LogText(records) + tail == records[0] + [NEWLINE] + (LogText(records[1..]) + tail);
      SplitFirstLine(records[0], LogText(records[1..]) + tail);
      SplitLog(records[1..], tail);
      HeadAndLast(records, tail);
    }
  }

  lemma HeadAndLast<T>(s: seq<T>, last: T)
    requires s != []
    ensures [s[0]] + (s[1..] + [last]) == s + [last]
  {
  }

  lemma {:induction false} LogEndsWithNewline(records: seq<seq<Char>>)
    ensures records == [] ==> LogText(records) == []
    ensures records != [] ==> EndsWithNewline(LogText(records))
    decreases |records|
  {
    if records != [] {
      LogEndsWithNewline(records[1..]);
    }
  }

  lemma {:induction false} TailStartIs(log: seq<Char>, tail: seq<Char>)
    requires log == [] || EndsWithNewline(log)
    requires OneLine(tail)
    ensures TailStart(log + tail) == Length(log)
    decreases |tail|
  {
    if tail == [] {
      assert log + tail == log;
    } else {
      var text := log + tail;
      assert text[|text| - 1] == tail[|tail| - 1];
      assert text[..|text| - 1] == log + tail[..|tail| - 1];
      TailStartIs(log, tail[..|tail| - 1]);
    }
  }

  function Ids(records: seq<seq<Char>>, parse: Parser): seq<nat>
    requires WellFormed(records, parse)
  {
    if records == [] then [] else Ids(records[..|records| - 1], parse) + [parse(records[|records| - 1]).id]
  }

  /** The records of a log are all read, without an issue. */
  lemma {:induction false} RecordsRead(records: seq<seq<Char>>, tail: seq<Char>, parse: Parser, trailing: bool, n: nat)
    requires WellFormed(records, parse) && n <= |records|
    ensures EventsOf(records + [tail], parse, n) == Ids(records[..n], parse)
    ensures IssuesOf(records + [tail], parse, trailing, n) == []
  {
    if n > 0 {
      RecordsRead(records, tail, parse, trailing, n - 1);
      assert records[..n][..n - 1] == records[..n - 1];
    }
  }

  // ---------------------------------------------------------------- torn tails

  /** Section 4 of RFC 8259: a proper prefix of an object is not JSON; here also when the cut falls inside a
      character. */
  predicate PrefixesAreNotJson(record: seq<Char>, parse: Parser) {
    && record != [] && OneLine(record)
    && (forall k | 0 < k < |Encode(record)| :: parse(Decode(Encode(record)[..k])) == SyntaxError)
  }

  lemma {:induction false} PrefixDecodesToOneLine(record: seq<Char>, k: nat)
    requires OneLine(record) && k <= |Encode(record)|
    ensures OneLine(Decode(Encode(record)[..k])) && (k > 0 ==> Decode(Encode(record)[..k]) != [])
    decreases |record|
  {
    if k > 0 {
      var bytes := Encode(record)[..k];
      var c := record[0];
      assert bytes[0] == EncodeChar(c)[0];
      if Width(c) <= k {
        assert bytes[..Width(c)] == EncodeChar(c);
        assert bytes[Width(c)..] == Encode(record[1..])[..k - Width(c)];
        PrefixDecodesToOneLine(record[1..], k - Width(c));
        assert Decode(bytes) == [c] + Decode(bytes[Width(c)..]);
      } else {
        assert bytes == EncodeChar(c)[..k];
        PartialChar(c, k);
      }
    }
  }

  lemma {:induction false} PartialBytes(c: Char, from: nat, k: nat)
    requires 0 < from <= k < Width(c)
    ensures OneLine(Decode(EncodeChar(c)[from..k]))
    decreases k - from
  {
    if from < k {
      var bytes := EncodeChar(c)[from..k];
      assert bytes[0] == Byte(c, from) && bytes[1..] == EncodeChar(c)[from + 1..k];
      PartialBytes(c, from + 1, k);
    }
  }

  lemma PartialChar(c: Char, k: nat)
    requires 0 < k < Width(c)
    ensures OneLine(Decode(EncodeChar(c)[..k])) && Decode(EncodeChar(c)[..k]) != []
  {
    var bytes := EncodeChar(c)[..k];
    assert bytes[0] == Byte(c, 0) && bytes[1..] == EncodeChar(c)[1..k];
    PartialBytes(c, 1, k);
  }

  /** What the reader makes of a well-formed log followed by one unterminated line. */
  lemma ReadLog(records: seq<seq<Char>>, tail: seq<Byte>, parse: Parser)
    requires WellFormed(records, parse) && OneLine(Decode(tail))
    ensures var line := Decode(tail);
            var r := Repair(Encode(LogText(records)) + tail, parse);
            var log := Encode(LogText(records));
            && r.events == Ids(records, parse) + (if line != [] && parse(line).Event? then [parse(line).id] else [])
            && r.issues == (if line != [] && !parse(line).Event?
                            then [IssueOf(line, parse(line), |records|, true, false)] else [])
            && r.bytes == (if r.issues != [] && r.issues[0].truncated
                           then Truncated(log + tail, Length(LogText(records)))
                           else if line != [] && r.events != [] && r.issues == [] then log + tail + EncodeChar(NEWLINE)
                           else log + tail)
  {
    hide Encode, Decode, Split, Length, TailStart, EventsOf, IssuesOf, IssueOf, Ids, LogText, EndsWithNewline,
        WellFormed, OneLine;
    var text := LogText(records);
    var line := Decode(tail);
    DecodeEncoded(text, tail);
    WellFormedLines(records, parse);
    SplitLog(records, line);
    RecordsRead(records, line, parse, EndsWithNewline(text + line), |records|);
    assert records[..|records|] == records;
    assert (records + [line])[|records|] == line;
    EventsStep(records + [line], parse, EndsWithNewline(text + line));
    LogEndsWithNewline(records);
    LastLineOpen(text, line);
    TailStartIs(text, line);
    NotTrailing(line, parse, |records|, EndsWithNewline(text + line));
  }

  lemma WellFormedLines(records: seq<seq<Char>>, parse: Parser)
    requires WellFormed(records, parse)
    ensures forall i | 0 <= i < |records| :: OneLine(records[i])
  {
  }

  lemma LastLineOpen(text: seq<Char>, line: seq<Char>)
    requires OneLine(line)
    ensures line != [] ==> text + line != [] && !EndsWithNewline(text + line)
    ensures line == [] ==> text + line == text
  {
  }

  lemma NotTrailing(line: seq<Char>, parse: Parser, index: nat, trailing: bool)
    requires line != [] ==> !trailing
    ensures line != [] ==> IssueOf(line, parse(line), index, true, trailing)
                           == IssueOf(line, parse(line), index, true, false)
  {
  }

  lemma EventsStep(lines: seq<seq<Char>>, parse: Parser, trailing: bool)
    requires lines != []
    ensures var n := |lines| - 1;
            && EventsOf(lines, parse, |lines|) == EventsOf(lines, parse, n)
                + (if lines[n] != [] && parse(lines[n]).Event? then [parse(lines[n]).id] else [])
            && IssuesOf(lines, parse, trailing, |lines|)
               == IssuesOf(lines, parse, trailing, n)
                  + if lines[n] != [] && !parse(lines[n]).Event?
                      then [IssueOf(lines[n], parse(lines[n]), n, true, trailing)] else []
  {
  }

  /** A crash inside the append of one more record. Every complete record is read. Unless the cut happens to close a
      brace, the file is cut at the number of UTF-16 units of the log: this restores exactly the log if and only if all
      its characters are single bytes, and otherwise removes a part of the log itself. A cut behind a closing brace is
      reported, and the file left alone. */
  lemma TornRecord(records: seq<seq<Char>>, record: seq<Char>, k: nat, parse: Parser)
    requires WellFormed(records, parse) && PrefixesAreNotJson(record, parse) && 0 < k < |Encode(record)|
    ensures var log := LogText(records);
            var tail := Encode(record)[..k];
            var r := Repair(Encode(log) + tail, parse);
            && r.events == Ids(records, parse)
            && (if ClosesBrace(Decode(tail)) then IntegrityOf(r.issues) == Degraded && r.bytes == Encode(log) + tail
                else
                  && IntegrityOf(r.issues) == RecoveredTail
                  && (r.bytes == Encode(log) <==> SingleByte(log))
                  && (r.bytes != Encode(log) ==> r.bytes < Encode(log)))
  {
    var log := LogText(records);
    var tail := Encode(record)[..k];
    PrefixDecodesToOneLine(record, k);
    ReadLog(records, tail, parse);
    UnitsAgainstBytes(log);
    var r := Repair(Encode(log) + tail, parse);
    assert r.issues == [IssueOf(Decode(tail), SyntaxError, |records|, true, false)];
    if !ClosesBrace(Decode(tail)) {
      assert r.bytes == (Encode(log) + tail)[..Length(log)] == Encode(log)[..Length(log)];
    } else {
      assert !r.issues[0].truncated;
    }
  }

  /** A record that only lost its newline is kept, and gets it back. */
  lemma WholeRecordIsKept(records: seq<seq<Char>>, record: seq<Char>, parse: Parser)
    requires WellFormed(records + [record], parse)
    ensures var r := Repair(Encode(LogText(records)) + Encode(record), parse);
            && r.events == Ids(records + [record], parse) && r.issues == []
            && r.bytes == Encode(LogText(records + [record]))
  {
    hide Encode, Decode, Repair, LogText, Ids;
    WellFormedPrefix(records, record, parse);
    DecodeEncoded(record, []);
    EmptyDecode();
    assert Encode(record) + [] == Encode(record) && record + [] == record;
    ReadLog(records, Encode(record), parse);
    IdsAppend(records, record, parse);
    BytesAppend(records, record);
  }

  lemma EmptyDecode()
    ensures Decode([]) == [] && Encode([]) == []
  {
  }

  lemma WellFormedPrefix(records: seq<seq<Char>>, record: seq<Char>, parse: Parser)
    requires WellFormed(records + [record], parse)
    ensures WellFormed(records, parse) && record != [] && OneLine(record) && parse(record).Event?
  {
    assert (records + [record])[|records|] == record;
    assert forall i | 0 <= i < |records| :: (records + [record])[i] == records[i];
  }

  lemma IdsAppend(records: seq<seq<Char>>, record: seq<Char>, parse: Parser)
    requires WellFormed(records + [record], parse) && WellFormed(records, parse) && parse(record).Event?
    ensures Ids(records + [record], parse) == Ids(records, parse) + [parse(record).id]
  {
  }

  lemma BytesAppend(records: seq<seq<Char>>, record: seq<Char>)
    ensures Encode(LogText(records + [record])) == Encode(LogText(records)) + Encode(record + [NEWLINE])
    ensures Encode(LogText(records + [record])) == Encode(LogText(records)) + Encode(record) + EncodeChar(NEWLINE)
  {
    hide LogText;
    LogAppend(records, record);
    EncodeConcat(LogText(records), record + [NEWLINE]);
    EncodeConcat(record, [NEWLINE]);
    assert Encode([NEWLINE]) == EncodeChar(NEWLINE) + Encode([]);
    hide Encode;
    assert Encode(LogText(records)) + (Encode(record) + EncodeChar(NEWLINE)) == Encode(LogText(records))
        + Encode(record) + EncodeChar(NEWLINE);
  }

  lemma {:induction false} LogAppend(records: seq<seq<Char>>, record: seq<Char>)
    ensures LogText(records + [record]) == LogText(records) + (record + [NEWLINE])
    decreases |records|
  {
    if records == [] {
      assert records + [record] == [record];
      assert LogText([record]) == record + [NEWLINE] + LogText([record][1..]);
    } else {
      assert (records + [record])[1..] == records[1..] + [record];
      LogAppend(records[1..], record);
    }
  }

  /** A file without a torn or unterminated tail is left as it is, and read without an issue. */
  lemma LogIsComplete(records: seq<seq<Char>>, parse: Parser)
    requires WellFormed(records, parse)
    ensures var r := Repair(Encode(LogText(records)), parse);
            r.events == Ids(records, parse) && r.issues == [] && r.bytes == Encode(LogText(records))
  {
    assert Encode(LogText(records)) + [] == Encode(LogText(records));
    ReadLog(records, [], parse);
  }

  /** Repairing again after a repaired tail changes nothing, when the log is single-byte text. */
  lemma RepairIsIdempotent(records: seq<seq<Char>>, record: seq<Char>, k: nat, parse: Parser)
    requires WellFormed(records + [record], parse) && PrefixesAreNotJson(record, parse) && SingleByte(LogText(records))
    requires k <= |Encode(record)|
    ensures var once := Repair(Encode(LogText(records)) + Encode(record)[..k], parse);
            var twice := Repair(once.bytes, parse);
            twice.bytes == once.bytes && twice.events == once.events
            && (IntegrityOf(once.issues) != Degraded ==> twice.issues == [])
  {
    assert forall i | 0 <= i < |records| :: (records + [record])[i] == records[i];
    if k == |Encode(record)| {
      assert Encode(record)[..k] == Encode(record);
      WholeRecordIsKept(records, record, parse);
      LogIsComplete(records + [record], parse);
    } else if k == 0 {
      assert Encode(LogText(records)) + Encode(record)[..k] == Encode(LogText(records));
      LogIsComplete(records, parse);
    } else {
      TornRecord(records, record, k, parse);
      LogIsComplete(records, parse);
    }
  }

  // ---------------------------------------------------------------- repairing again

  /** A log whose records are all such that no proper prefix is JSON. */
  predicate Cuttable(records: seq<seq<Char>>, parse: Parser) {
    WellFormed(records, parse) && forall i | 0 <= i < |records| :: PrefixesAreNotJson(records[i], parse)
  }

  /** The log cut off inside its i-th record, or just before or behind it. */
  function CutLog(records: seq<seq<Char>>, i: nat, k: nat): seq<Byte>
    requires i < |records| && k <= |Encode(records[i])|
  {
    Encode(LogText(records[..i])) + Encode(records[i])[..k]
  }

  /** Every proper byte prefix of a log is such a cut. */
  lemma {:induction false} CutInside(records: seq<seq<Char>>, m: nat) returns (i: nat, k: nat)
    requires m < |Encode(LogText(records))|
    ensures i < |records| && k <= |Encode(records[i])| && Encode(LogText(records))[..m] == CutLog(records, i, k)
    ensures |Encode(LogText(records[..i]))| <= m
    decreases |records|
  {
    hide Encode, LogText;
    NoBytes();
    assert records != [] by {
      if records == [] {
        assert false;
      }
    }
    var n := |records| - 1;
    assert records == records[..n] + [records[n]];
    BytesAppend(records[..n], records[n]);
    var front := Encode(LogText(records[..n]));
    if m < |front| {
      i, k := CutInside(records[..n], m);
      assert records[..n][..i] == records[..i];
    } else {
      i, k := n, m - |front|;
    }
  }

  lemma NoBytes()
    ensures Encode(LogText([])) == []
  {
  }

  /** A cut a repair leaves alone: at the start of a record, or behind a closing brace inside it. */
  predicate Settled(records: seq<seq<Char>>, i: nat, k: nat)
    requires i < |records| && k <= |Encode(records[i])|
  {
    k == 0 || (k < |Encode(records[i])| && ClosesBrace(Decode(Encode(records[i])[..k])))
  }

  /** The effect of a repair on a cut log: the missing newline, nothing, or a truncation at the number of UTF-16 units
      of the records before the cut. */
  lemma RepairOfCutLog(records: seq<seq<Char>>, i: nat, k: nat, parse: Parser)
    requires Cuttable(records, parse) && i < |records| && k <= |Encode(records[i])|
    ensures var log := LogText(records[..i]);
            Repair(CutLog(records, i, k), parse).bytes ==
              if k == |Encode(records[i])| then Encode(LogText(records[..i + 1]))
              else if Settled(records, i, k) then CutLog(records, i, k)
              else Truncated(Encode(log), Length(log))
  {
    hide Encode, Decode, Repair, LogText, Ids, ClosesBrace, Length, PrefixesAreNotJson;
    CutRecords(records, i, parse);
    if k == |Encode(records[i])| {
      assert Encode(records[i])[..k] == Encode(records[i]);
      WholeRecordIsKept(records[..i], records[i], parse);
    } else if k == 0 {
      assert CutLog(records, i, k) == Encode(LogText(records[..i]));
      LogIsComplete(records[..i], parse);
    } else {
      TornRecord(records[..i], records[i], k, parse);
      if !ClosesBrace(Decode(Encode(records[i])[..k])) {
        TornBytes(records[..i], records[i], k, parse);
      }
    }
  }

  lemma CutRecords(records: seq<seq<Char>>, i: nat, parse: Parser)
    requires Cuttable(records, parse) && i < |records|
    ensures records[..i] + [records[i]] == records[..i + 1]
    ensures WellFormed(records[..i], parse) && WellFormed(records[..i + 1], parse)
        && PrefixesAreNotJson(records[i], parse)
  {
    hide PrefixesAreNotJson;
  }

  /** The bytes a torn record leaves. */
  lemma TornBytes(records: seq<seq<Char>>, record: seq<Char>, k: nat, parse: Parser)
    requires WellFormed(records, parse) && PrefixesAreNotJson(record, parse) && 0 < k < |Encode(record)|
    requires !ClosesBrace(Decode(Encode(record)[..k]))
    ensures var log := LogText(records);
            Repair(Encode(log) + Encode(record)[..k], parse).bytes == Truncated(Encode(log), Length(log))
  {
    hide Encode, Decode, Repair, LogText, Ids, ClosesBrace, Length;
    var log := LogText(records);
    var tail := Encode(record)[..k];
    PrefixDecodesToOneLine(record, k);
    ReadLog(records, tail, parse);
    UnitsAgainstBytes(log);
    assert (Encode(log) + tail)[..Length(log)] == Encode(log)[..Length(log)];
  }

  /** A repair changes a cut log exactly when the cut is not settled. */
  lemma CutLogStaysIff(records: seq<seq<Char>>, i: nat, k: nat, parse: Parser)
    requires Cuttable(records, parse) && i < |records| && k <= |Encode(records[i])|
    ensures Repair(CutLog(records, i, k), parse).bytes == CutLog(records, i, k) <==> Settled(records, i, k)
  {
    hide Encode, Decode, Repair, LogText, ClosesBrace, Length, PrefixesAreNotJson;
    RepairOfCutLog(records, i, k, parse);
    var log := LogText(records[..i]);
    UnitsAgainstBytes(log);
    if k == |Encode(records[i])| {
      CutRecords(records, i, parse);
      BytesAppend(records[..i], records[i]);
      RecordHasBytes(records[i]);
    }
  }

  lemma RecordHasBytes(record: seq<Char>)
    ensures record != [] ==> Encode(record) != []
  {
  }

  /** A second repair after a torn record, for any log: when some character of it takes several bytes the first repair
      has cut into the log itself, and the second one leaves the file alone exactly when that cut is settled. */
  lemma SecondRepair(records: seq<seq<Char>>, record: seq<Char>, k: nat, parse: Parser) returns (i: nat, cut: nat)
    requires Cuttable(records, parse) && PrefixesAreNotJson(record, parse) && 0 < k < |Encode(record)|
    requires !ClosesBrace(Decode(Encode(record)[..k])) && !SingleByte(LogText(records))
    ensures var once := Repair(Encode(LogText(records)) + Encode(record)[..k], parse);
            var twice := Repair(once.bytes, parse);
            && i < |records| && cut <= |Encode(records[i])| && once.bytes == CutLog(records, i, cut)
            && (twice.bytes == once.bytes <==> Settled(records, i, cut))
  {
    hide Encode, Decode, Repair, LogText, ClosesBrace, Length, PrefixesAreNotJson, SingleByte;
    var log := LogText(records);
    TornBytes(records, record, k, parse);
    UnitsAgainstBytes(log);
    i, cut := CutInside(records, Length(log));
    CutLogStaysIff(records, i, cut, parse);
  }

  /** The file after n repairs. */
  function Repaired(bytes: seq<Byte>, parse: Parser, n: nat): seq<Byte>
    decreases n
  {
    if n == 0 then bytes else Repaired(Repair(bytes, parse).bytes, parse, n - 1)
  }

  /** Repairs come to an end: after at most one for each record before the cut and one more, the file is a part of the
      log that further repairs leave alone. */
  lemma {:induction false} RepairsSettle(records: seq<seq<Char>>, i: nat, k: nat, parse: Parser) returns (n: nat)
    requires Cuttable(records, parse) && i < |records| && k <= |Encode(records[i])|
    ensures n <= i + 1
    ensures var file := Repaired(CutLog(records, i, k), parse, n);
            file <= Encode(LogText(records)) && Repair(file, parse).bytes == file
    decreases i
  {
    hide Encode, Decode, Repair, LogText, ClosesBrace, Length, PrefixesAreNotJson, WellFormed, Repaired;
    RepairOfCutLog(records, i, k, parse);
    CutRecords(records, i, parse);
    var file := CutLog(records, i, k);
    var next := Repair(file, parse).bytes;
    LogPrefix(records, i);
    NoRepair(file, parse);
    NoRepair(next, parse);
    if k == |Encode(records[i])| {
      n := 1;
      OneRepair(file, parse, 0);
      LogPrefix(records, i + 1);
      LogIsComplete(records[..i + 1], parse);
    } else if Settled(records, i, k) {
      n := 0;
      CutIsPrefix(records, i, k);
    } else {
      var log := LogText(records[..i]);
      UnitsAgainstBytes(log);
      if Length(log) < |Encode(log)| {
        var j, cut := CutInside(records[..i], Length(log));
        assert records[..i][..j] == records[..j] && records[..i][j] == records[j];
        var m := RepairsSettle(records, j, cut, parse);
        n := m + 1;
        OneRepair(file, parse, m);
      } else {
        n := 1;
        assert Encode(log)[..Length(log)] == Encode(log);
        OneRepair(file, parse, 0);
        LogIsComplete(records[..i], parse);
      }
    }
  }

  lemma NoRepair(bytes: seq<Byte>, parse: Parser)
    ensures Repaired(bytes, parse, 0) == bytes
  {
  }

  lemma OneRepair(bytes: seq<Byte>, parse: Parser, n: nat)
    ensures Repaired(bytes, parse, n + 1) == Repaired(Repair(bytes, parse).bytes, parse, n)
  {
  }

  lemma {:induction false} LogTextConcat(a: seq<seq<Char>>, b: seq<seq<Char>>)
    ensures LogText(a + b) == LogText(a) + LogText(b)
    decreases |a|
  {
    if a == [] {
      assert a + b == b;
    } else {
      assert (a + b)[1..] == a[1..] + b;
      LogTextConcat(a[1..], b);
    }
  }

  lemma LogPrefix(records: seq<seq<Char>>, i: nat)
    requires i <= |records|
    ensures Encode(LogText(records[..i])) <= Encode(LogText(records))
  {
    hide Encode, LogText;
    assert records == records[..i] + records[i..];
    LogTextConcat(records[..i], records[i..]);
    EncodeConcat(LogText(records[..i]), LogText(records[i..]));
  }

  lemma CutIsPrefix(records: seq<seq<Char>>, i: nat, k: nat)
    requires i < |records| && k <= |Encode(records[i])|
    ensures CutLog(records, i, k) <= Encode(LogText(records))
  {
    hide Encode, LogText;
    assert records[..i + 1] == records[..i] + [records[i]];
    BytesAppend(records[..i], records[i]);
    LogPrefix(records, i + 1);
  }

  lemma OneRecord(record: seq<Char>)
    ensures LogText([record]) == record + [NEWLINE] && LogText([]) == []
    ensures Length(record + [NEWLINE]) == Length(record) + 1
    ensures Encode(record + [NEWLINE]) == Encode(record) + EncodeChar(NEWLINE)
  {
    assert [record][1..] == [];
    assert [NEWLINE][1..] == [];
    assert Length([NEWLINE]) == 1 + Length([]);
    LengthConcat(record, [NEWLINE]);
    EncodeConcat(record, [NEWLINE]);
    assert Encode([NEWLINE]) == EncodeChar(NEWLINE) + Encode([]);
  }

  /** What two repairs make of a log of one record behind which an append was torn: the first one cuts it at its number
      of UTF-16 units, and the second one puts a lost newline back, keeps what ends in a closing brace, and removes
      everything else. */
  lemma TwoRepairsOfOneRecord(record: seq<Char>, torn: seq<Char>, k: nat, parse: Parser)
    requires Cuttable([record], parse)
    requires PrefixesAreNotJson(torn, parse) && 0 < k < |Encode(torn)| && !ClosesBrace(Decode(Encode(torn)[..k]))
    ensures var file := Encode(record + [NEWLINE]) + Encode(torn)[..k];
            var cut := Length(record) + 1;
            && cut <= |Encode(record + [NEWLINE])|
            && Repaired(file, parse, 1) == Encode(record + [NEWLINE])[..cut]
            && Repaired(file, parse, 2) ==
               if cut >= |Encode(record)| then Encode(record + [NEWLINE])
               else if ClosesBrace(Decode(Encode(record)[..cut])) then Encode(record)[..cut]
               else []
  {
    hide Encode, Decode, Repair, LogText, ClosesBrace, Length, PrefixesAreNotJson, WellFormed;
    var file := Encode(record + [NEWLINE]) + Encode(torn)[..k];
    var cut := Length(record) + 1;
    OneRecord(record);
    UnitsAgainstBytes(record);
    TornBytes([record], torn, k, parse);
    var once := Encode(record + [NEWLINE])[..cut];
    OneRepair(file, parse, 0);
    OneRepair(file, parse, 1);
    OneRepair(once, parse, 0);
    NoRepair(once, parse);
    NoRepair(Repair(once, parse).bytes, parse);
    if cut == |Encode(record)| + 1 {
      assert once == Encode(record + [NEWLINE]);
      LogIsComplete([record], parse);
    } else {
      SecondOfOneRecord(record, cut, parse);
      assert once == Encode(record)[..cut];
    }
  }

  lemma SecondOfOneRecord(record: seq<Char>, cut: nat, parse: Parser)
    requires Cuttable([record], parse) && 0 < cut <= |Encode(record)|
    ensures Repair(Encode(record)[..cut], parse).bytes ==
            if cut == |Encode(record)| then Encode(record + [NEWLINE])
            else if ClosesBrace(Decode(Encode(record)[..cut])) then Encode(record)[..cut]
            else []
  {
    hide Encode, Decode, Repair, LogText, ClosesBrace, Cuttable;
    var records := [record];
    assert records[..0] == [] && records[..1] == records;
    OneRecord(record);
    EmptyDecode();
    assert Encode([]) + Encode(record)[..cut] == Encode(record)[..cut];
    RepairOfCutLog(records, 0, cut, parse);
  }

  /** A character of three bytes and one UTF-16 unit that `trimEnd` keeps. */
  predicate Wide(c: Char) {
    Width(c) == 3 && !Blank(c)
  }

  predicate AllWide(text: seq<Char>) {
    forall i | 0 <= i < |text| :: Wide(text[i])
  }

  /** The end of an event whose payload ends in a string: the quote, and the braces of payload and event. */
  const STRING_END: seq<Char> := [34, CLOSING_BRACE, CLOSING_BRACE]

  lemma {:induction false} WideSize(text: seq<Char>)
    requires AllWide(text)
    ensures Length(text) == |text| && |Encode(text)| == 3 * |text|
    decreases |text|
  {
    if text != [] {
      WideSize(text[1..]);
    }
  }

  lemma {:induction false} NarrowSize(text: seq<Char>)
    requires SingleByte(text)
    ensures Length(text) == |text| && |Encode(text)| == |text|
    decreases |text|
  {
    if text != [] {
      NarrowSize(text[1..]);
    }
  }

  /** However a text of wide characters is cut, it does not end in a brace or in a blank. */
  lemma {:induction false} WideCut(text: seq<Char>, m: nat)
    requires AllWide(text) && 0 < m <= |Encode(text)|
    ensures var t := Decode(Encode(text)[..m]); t != [] && !Blank(t[|t| - 1]) && t[|t| - 1] != CLOSING_BRACE
    decreases |text|
  {
    var bytes := Encode(text)[..m];
    var c := text[0];
    assert bytes[0] == EncodeChar(c)[0];
    if m < 3 {
      assert bytes == EncodeChar(c)[..m];
      WidePartial(c, m);
    } else {
      assert bytes[..3] == EncodeChar(c);
      assert bytes[3..] == Encode(text[1..])[..m - 3];
      if m > 3 {
        WideCut(text[1..], m - 3);
      }
    }
  }

  lemma WidePartial(c: Char, m: nat)
    requires Wide(c) && 0 < m < 3
    ensures var t := Decode(EncodeChar(c)[..m]); t != [] && t[|t| - 1] == REPLACEMENT
  {
    var bytes := EncodeChar(c)[..m];
    assert bytes[0] == Byte(c, 0) && Decode(bytes) == [REPLACEMENT] + Decode(bytes[1..]);
    if m == 2 {
      var second := [Byte(c, 1)];
      assert bytes[1..] == second;
      assert second[0].code == c && second[1..] == [];
      assert Decode(second) == [REPLACEMENT] + Decode([]);
    } else {
      assert bytes[1..] == [];
    }
  }

  lemma LastDecides(text: seq<Char>)
    requires text != [] && !Blank(text[|text| - 1])
    ensures ClosesBrace(text) <==> text[|text| - 1] == CLOSING_BRACE
  {
  }

  /** The size of a record whose payload ends in a string that ends in wide characters. */
  lemma WideRecordSize(head: seq<Char>, wide: seq<Char>, end: seq<Char>)
    requires SingleByte(head) && AllWide(wide) && SingleByte(end)
    ensures Encode(head + wide + end) == Encode(head) + Encode(wide) + Encode(end)
    ensures |Encode(head + wide + end)| == |head| + 3 * |wide| + |end|
    ensures Length(head + wide + end) == |head| + |wide| + |end|
  {
    EncodeConcat(head + wide, end);
    EncodeConcat(head, wide);
    LengthConcat(head + wide, end);
    LengthConcat(head, wide);
    NarrowSize(head);
    WideSize(wide);
    NarrowSize(end);
  }

  /** An event whose payload ends in a string with wide characters at its end and single bytes before them, as the only
      record of its log: when there is one wide character, a torn append costs the event its last brace, and no further
      repair changes the file; when there are more, two repairs leave an empty file. */
  lemma TwoRepairsEmptyTheLogIff(head: seq<Char>, wide: seq<Char>, torn: seq<Char>, k: nat, parse: Parser)
    requires SingleByte(head) && AllWide(wide) && wide != [] && Cuttable([head + wide + STRING_END], parse)
    requires PrefixesAreNotJson(torn, parse) && 0 < k < |Encode(torn)| && !ClosesBrace(Decode(Encode(torn)[..k]))
    ensures var file := Encode(head + wide + STRING_END + [NEWLINE]) + Encode(torn)[..k];
            && (|wide| == 1 ==>
                  && Repaired(file, parse, 1) == Encode(head + wide + [34, CLOSING_BRACE])
                  && Repaired(file, parse, 2) == Repaired(file, parse, 1))
            && (|wide| > 1 <==> Repaired(file, parse, 2) == [])
  {
    hide Encode, Decode, Repair, ClosesBrace, Length, PrefixesAreNotJson, Cuttable, Repaired, SingleByte, AllWide;
    if |wide| == 1 {
      OneWideCharacter(head, wide, torn, k, parse);
    } else {
      MoreWideCharacters(head, wide, torn, k, parse);
    }
  }

  lemma OneWideCharacter(head: seq<Char>, wide: seq<Char>, torn: seq<Char>, k: nat, parse: Parser)
    requires SingleByte(head) && AllWide(wide) && |wide| == 1 && Cuttable([head + wide + STRING_END], parse)
    requires PrefixesAreNotJson(torn, parse) && 0 < k < |Encode(torn)| && !ClosesBrace(Decode(Encode(torn)[..k]))
    ensures var file := Encode(head + wide + STRING_END + [NEWLINE]) + Encode(torn)[..k];
            var half := Encode(head + wide + [34, CLOSING_BRACE]);
            Repaired(file, parse, 1) == half && Repaired(file, parse, 2) == half && half != []
  {
    hide Encode, Decode, Repair, ClosesBrace, Length, PrefixesAreNotJson, Cuttable, Repaired, SingleByte, AllWide;
    var record, half := head + wide + STRING_END, Encode(head + wide + [34, CLOSING_BRACE]);
    NarrowEnds();
    WideRecordSize(head, wide, STRING_END);
    WideRecordSize(head, wide, [34, CLOSING_BRACE]);
    CutBehindBrace(head + wide);
    TwoRepairsOfOneRecord(record, torn, k, parse);
    OneRecord(record);
    var cut := Length(record) + 1;
    assert |half| == cut && half <= Encode(record);
    assert Encode(record)[..cut] == half && Encode(record + [NEWLINE])[..cut] == half;
  }

  lemma MoreWideCharacters(head: seq<Char>, wide: seq<Char>, torn: seq<Char>, k: nat, parse: Parser)
    requires SingleByte(head) && AllWide(wide) && |wide| > 1 && Cuttable([head + wide + STRING_END], parse)
    requires PrefixesAreNotJson(torn, parse) && 0 < k < |Encode(torn)| && !ClosesBrace(Decode(Encode(torn)[..k]))
    ensures Repaired(Encode(head + wide + STRING_END + [NEWLINE]) + Encode(torn)[..k], parse, 2) == []
  {
    hide Encode, Decode, Repair, ClosesBrace, Length, PrefixesAreNotJson, Cuttable, Repaired, SingleByte, AllWide;
    NarrowEnds();
    WideRecordSize(head, wide, STRING_END);
    TwoRepairsOfOneRecord(head + wide + STRING_END, torn, k, parse);
    CutInWide(head, wide, |wide| + 4);
  }

  lemma NarrowEnds()
    ensures SingleByte(STRING_END) && SingleByte([34, CLOSING_BRACE]) && SingleByte([CLOSING_BRACE])
  {
  }

  lemma CutBehindBrace(text: seq<Char>)
    ensures Encode(text + STRING_END) == Encode(text + [34, CLOSING_BRACE]) + Encode([CLOSING_BRACE])
    ensures ClosesBrace(Decode(Encode(text + [34, CLOSING_BRACE])))
  {
    hide Encode, Decode;
    var most := text + [34, CLOSING_BRACE];
    EncodeConcat(most, [CLOSING_BRACE]);
    assert most + [CLOSING_BRACE] == text + STRING_END;
    DecodeEncoded(most, []);
    EmptyDecode();
    assert Encode(most) + [] == Encode(most) && most + [] == most;
    LastDecides(most);
  }

  lemma CutInWide(head: seq<Char>, wide: seq<Char>, m: nat)
    requires SingleByte(head) && AllWide(wide) && 0 < m <= 3 * |wide|
    ensures |head| + m <= |Encode(head + wide + STRING_END)|
    ensures !ClosesBrace(Decode(Encode(head + wide + STRING_END)[..|head| + m]))
  {
    hide Encode, Decode, ClosesBrace, SingleByte, AllWide, Length;
    NarrowEnds();
    WideRecordSize(head, wide, STRING_END);
    WideSize(wide);
    NarrowSize(head);
    WideCut(wide, m);
    var part := Encode(wide)[..m];
    assert Encode(head + wide + STRING_END)[..|head| + m] == Encode(head) + part;
    DecodeEncoded(head, part);
    var text := head + Decode(part);
    assert text[|text| - 1] == Decode(part)[|Decode(part)| - 1];
    LastDecides(text);
  }

  // ---------------------------------------------------------------- the next batch

  /** Whatever was in the file, damaged or not, a later batch starts on a line of its own. */
  lemma BatchNeverMerges(bytes: seq<Byte>, data: seq<Char>, parse: Parser)
    ensures exists before: seq<Byte> :: Appended(bytes, data, parse) == before + Encode(data) && Terminated(before)
  {
    var repaired := if Terminated(bytes) then bytes else Repair(bytes, parse).bytes;
    var before := repaired + if Terminated(repaired) then [] else EncodeChar(NEWLINE);
    assert Terminated(before);
    assert Appended(bytes, data, parse) == before + Encode(data);
  }

  /** After a torn append to a single-byte log the next record ends up right behind the complete ones, and the file
      reads back whole. */
  lemma AppendAfterTornRecord(records: seq<seq<Char>>, torn: seq<Char>, k: nat, next: seq<Char>, parse: Parser)
    requires WellFormed(records + [next], parse) && PrefixesAreNotJson(torn, parse) && 0 < k < |Encode(torn)|
    requires SingleByte(LogText(records)) && !ClosesBrace(Decode(Encode(torn)[..k]))
    ensures var file := Appended(Encode(LogText(records)) + Encode(torn)[..k], next + [NEWLINE], parse);
            && file == Encode(LogText(records + [next]))
            && Repair(file, parse) == ReadResult(Ids(records + [next], parse), [], file)
  {
    hide Encode, Decode, Repair, LogText, Ids, SingleByte, ClosesBrace;
    WellFormedPrefix(records, next, parse);
    TornRecord(records, torn, k, parse);
    NoNewlineByte(torn);
    LogBytesTerminated(records);
    BytesAppend(records, next);
    assert Encode(LogText(records)) + [] + Encode(next + [NEWLINE]) == Encode(LogText(records + [next]));
    LogIsComplete(records + [next], parse);
  }

  lemma {:induction false} NoNewlineByte(text: seq<Char>)
    requires OneLine(text)
    ensures forall i | 0 <= i < |Encode(text)| :: Encode(text)[i].code != NEWLINE
    decreases |text|
  {
    if text != [] {
      NoNewlineByte(text[1..]);
    }
  }

  lemma LogBytesTerminated(records: seq<seq<Char>>)
    ensures Terminated(Encode(LogText(records)))
  {
    LogEndsWithNewline(records);
    var text := LogText(records);
    if text != [] {
      assert text == text[..|text| - 1] + [NEWLINE];
      EncodeConcat(text[..|text| - 1], [NEWLINE]);
      assert Encode([NEWLINE]) == EncodeChar(NEWLINE) + Encode([]);
    }
  }
}
