/** What the reader of an event file reports, and the text encoding under it (electron/sessionEvents.ts). */
module TailReading {
  import opened TailRecovery

  // ---------------------------------------------------------------- text

  function PowerOfTwo(n: nat): nat {
    if n == 0 then 1 else 2 * PowerOfTwo(n - 1)
  }

  /** How many code points fit into `width` bytes: the lead byte gives up one bit per byte, each further byte holds
      six. */
  function Capacity(width: nat): nat
    requires 1 <= width <= 4
  {
    PowerOfTwo(if width == 1 then 7 else 7 - width + 6 * (width - 1))
  }

  /** A code point is encoded with as few bytes as can hold it (section 3 of RFC 3629). */
  lemma WidthIsLeast(c: Char)
    requires c <= 0x10_FFFF
    ensures 1 <= Width(c) <= 4 && c < Capacity(Width(c))
    ensures forall width: nat | 1 <= width < Width(c) :: Capacity(width) <= c
  {
    assert PowerOfTwo(7) == 0x80 && PowerOfTwo(11) == 0x800;
    assert PowerOfTwo(16) == 0x1_0000 && PowerOfTwo(21) == 0x20_0000;
    assert Capacity(1) == 0x80 && Capacity(2) == 0x800 && Capacity(3) == 0x1_0000;
  }

  /** What `trimEnd` removes: tabulators, line ends, the byte order mark and the space separators of Unicode. */
  lemma BlankIff(c: Char)
    ensures Blank(c) <==>
            || c in [9, 11, 12, 0xFEFF]
            || c in [10, 13, 0x2028, 0x2029]
            || c in [0x20, 0xA0, 0x1680, 0x202F, 0x205F, 0x3000]
            || c in [0x2000, 0x2001, 0x2002, 0x2003, 0x2004, 0x2005, 0x2006, 0x2007, 0x2008, 0x2009, 0x200A]
  {
  }

  // ---------------------------------------------------------------- issues

  /** The last line of a file that does not end in a newline, no JSON, and without a closing brace at its end. */
  predicate TornLine(lines: seq<seq<Char>>, parse: Parser, trailing: bool, i: nat)
    requires i < |lines|
  {
    i == |lines| - 1 && !trailing && parse(lines[i]) == SyntaxError && !ClosesBrace(lines[i])
  }

  /** What is reported of a line that is no event, under its number counted from one. */
  function Report(lines: seq<seq<Char>>, parse: Parser, trailing: bool, i: nat): Issue
    requires i < |lines|
  {
    match parse(lines[i])
    case InvalidEvent => Issue(InvalidEventCode, i + 1, false, true)
    case _ => if TornLine(lines, parse, trailing, i) then Issue(TornTail, i + 1, true, false)
        else Issue(MalformedJson, i + 1, false, true)
  }

  predicate NoEvent(lines: seq<seq<Char>>, parse: Parser, i: nat)
    requires i < |lines|
  {
    lines[i] != [] && !parse(lines[i]).Event?
  }

  predicate ReportedAt(lines: seq<seq<Char>>, parse: Parser, trailing: bool, issue: Issue, i: nat)
    requires i < |lines|
  {
    NoEvent(lines, parse, i) && issue == Report(lines, parse, trailing, i)
  }

  /** The reader reports exactly the lines that are not empty and no event: a torn tail as recoverable, anything else
      as a possible loss, no JSON apart from JSON that is no event. */
  lemma {:induction false} ReportedIff(lines: seq<seq<Char>>, parse: Parser, trailing: bool, issue: Issue, n: nat)
    requires n <= |lines|
    ensures issue in IssuesOf(lines, parse, trailing, n) <==>
            exists i | 0 <= i < n :: ReportedAt(lines, parse, trailing, issue, i)
    decreases n
  {
    if n > 0 {
      ReportedIff(lines, parse, trailing, issue, n - 1);
      assert NoEvent(lines, parse, n - 1) ==>
          Report(lines, parse, trailing, n - 1)
          == IssueOf(lines[n - 1], parse(lines[n - 1]), n - 1, n == |lines|, trailing);
      hide ClosesBrace, Report, IssueOf, NoEvent;
      if ReportedAt(lines, parse, trailing, issue, n - 1) {
        assert issue in IssuesOf(lines, parse, trailing, n);
      }
    }
  }

  /** A file is complete exactly when every line that is not empty is an event, recovered exactly when only its last
      line is torn, and degraded otherwise. */
  lemma IntegrityIff(lines: seq<seq<Char>>, parse: Parser, trailing: bool)
    ensures var integrity := IntegrityOf(IssuesOf(lines, parse, trailing, |lines|));
            && (integrity == Complete <==> forall i | 0 <= i < |lines| :: !NoEvent(lines, parse, i))
            && (integrity == Degraded <==> exists i | 0 <= i < |lines| ::
                  NoEvent(lines, parse, i) && !TornLine(lines, parse, trailing, i))
  {
    var issues := IssuesOf(lines, parse, trailing, |lines|);
    forall issue ensures issue in issues <==>
        exists i | 0 <= i < |lines| :: ReportedAt(lines, parse, trailing, issue, i)
    {
      ReportedIff(lines, parse, trailing, issue, |lines|);
    }
    hide IssuesOf, ClosesBrace;
    forall i | 0 <= i < |lines| && NoEvent(lines, parse, i)
      ensures Report(lines, parse, trailing, i) in issues
      ensures Report(lines, parse, trailing, i).truncated <==> TornLine(lines, parse, trailing, i)
    {
      assert ReportedAt(lines, parse, trailing, Report(lines, parse, trailing, i), i);
    }
    if issues != [] {
      assert issues[0] in issues;
    }
    if k :| 0 <= k < |issues| && !issues[k].truncated {
      assert issues[k] in issues;
    }
    if i :| 0 <= i < |lines| && NoEvent(lines, parse, i) && !TornLine(lines, parse, trailing, i) {
      var issue := Report(lines, parse, trailing, i);
      var k :| 0 <= k < |issues| && issues[k] == issue;
      assert !issues[k].truncated;
    }
  }
}
