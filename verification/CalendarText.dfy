/** The iCalendar printer: text escaping, line folding and the assembled calendar, against the
    reading rules of RFC 5545. Text is a sequence of code points. */
module CalendarText {
  import opened Prelude

  const CRLF := "\r\n"
  const MAX_OCTETS := 75

  function Utf8Length(c: char): (n: nat)
    ensures 1 <= n <= 4
  {
    if c as int < 0x80 then 1 else if c as int < 0x800 then 2 else if c as int < 0x1_0000 then 3 else 4
  }

  function Octets(s: string): nat {
    if s == "" then 0 else Octets(s[..|s| - 1]) + Utf8Length(s[|s| - 1])
  }

  predicate Clean(s: string) {
    '\r' !in s && '\n' !in s
  }

  // ---------------------------------------------------------------- escaping

  function ReplaceChar(s: string, c: char, text: string): string {
    if s == "" then "" else (if s[0] == c then text else [s[0]]) + ReplaceChar(s[1..], c, text)
  }

  predicate StartsWithBreakPair(s: string) {
    2 <= |s| && s[0] == '\r' && s[1] == '\n'
  }

  /** Each line break, in any of its three spellings, becomes `text`. */
  function ReplaceBreaks(s: string, text: string): string
    decreases |s|
  {
    if s == "" then ""
    else if StartsWithBreakPair(s) then text + ReplaceBreaks(s[2..], text)
    else if s[0] == '\r' || s[0] == '\n' then text + ReplaceBreaks(s[1..], text)
    else [s[0]] + ReplaceBreaks(s[1..], text)
  }

  lemma {:induction false} NormalizedHasNoReturns(s: string)
    ensures '\r' !in NormalizeBreaks(s)
    ensures '\r' !in s ==> NormalizeBreaks(s) == s
    decreases |s|
  {
    if s != "" {
      var n := if StartsWithBreakPair(s) then 2 else 1;
      NormalizedHasNoReturns(s[n..]);
      assert s[1..] == if n == 2 then [s[1]] + s[2..] else s[1..];
    }
  }

  /** Four replacement passes, in this order. */
  function EscapeText(value: string): string {
    ReplaceChar(ReplaceChar(ReplaceBreaks(ReplaceChar(value, '\\', "\\\\"), "\\n"), ';', "\\;"), ',', "\\,")
  }

  /** The same escaping read left to right once. */
  function EscapeOnce(s: string): string
    decreases |s|
  {
    if s == "" then ""
    else if StartsWithBreakPair(s) then "\\n" + EscapeOnce(s[2..])
    else (match s[0]
          case '\\' => "\\\\"
          case '\r' => "\\n"
          case '\n' => "\\n"
          case ';' => "\\;"
          case ',' => "\\,"
          case c => [c]) + EscapeOnce(s[1..])
  }

  /** Reading a TEXT value (section 3.3.11 of RFC 5545). */
  function Unescape(s: string): string
    decreases |s|
  {
    if s == "" then ""
    else if 2 <= |s| && s[0] == '\\' && (s[1] == 'n' || s[1] == 'N') then "\n" + Unescape(s[2..])
    else if 2 <= |s| && s[0] == '\\' && (s[1] == '\\' || s[1] == ';' || s[1] == ',') then [s[1]] + Unescape(s[2..])
    else [s[0]] + Unescape(s[1..])
  }

  function NormalizeBreaks(s: string): string {
    ReplaceBreaks(s, "\n")
  }

  lemma {:induction false} ReplaceCharSplits(a: string, b: string, c: char, text: string)
    ensures ReplaceChar(a + b, c, text) == ReplaceChar(a, c, text) + ReplaceChar(b, c, text)
  {
    if a == "" {
      assert a + b == b;
    } else {
      assert (a + b)[1..] == a[1..] + b;
      ReplaceCharSplits(a[1..], b, c, text);
    }
  }

  lemma BreakPairFirst(tail: string, text: string)
    ensures ReplaceBreaks(CRLF + tail, text) == text + ReplaceBreaks(tail, text)
  {
    assert (CRLF + tail)[2..] == tail;
  }

  lemma BreakOrNotFirst(c: char, tail: string, text: string)
    requires c == '\r' && tail != "" ==> tail[0] != '\n'
    ensures ReplaceBreaks([c] + tail, text) == (if c == '\r' || c == '\n' then text else [c]) + ReplaceBreaks(tail, text)
  {
    assert ([c] + tail)[1..] == tail;
  }

  lemma Regrouped(a: string, b: string, c: string)
    ensures (a + b) + c == a + (b + c)
  {
  }

  lemma NoBreaksInNothing(text: string)
    ensures ReplaceBreaks("", text) == ""
  {
  }

  lemma {:induction false} ReplaceBreaksSplits(a: string, b: string, text: string)
    requires a != "" && b != "" ==> !(a[|a| - 1] == '\r' && b[0] == '\n')
    ensures ReplaceBreaks(a + b, text) == ReplaceBreaks(a, text) + ReplaceBreaks(b, text)
    decreases |a|
  {
    hide ReplaceBreaks;
    if a == "" {
      NoBreaksInNothing(text);
      assert a + b == b;
    } else {
      var n := if StartsWithBreakPair(a) then 2 else 1;
      var head, tail := a[..n], a[n..];
      assert a == head + tail;
      Regrouped(head, tail, b);
      ReplaceBreaksSplits(tail, b, text);
      var first := if n == 2 || a[0] == '\r' || a[0] == '\n' then text else head;
      if n == 2 {
        assert head == CRLF;
        BreakPairFirst(tail, text);
        BreakPairFirst(tail + b, text);
      } else {
        assert head == [a[0]];
        BreakOrNotFirst(a[0], tail, text);
        BreakOrNotFirst(a[0], tail + b, text);
      }
      Regrouped(first, ReplaceBreaks(tail, text), ReplaceBreaks(b, text));
    }
  }

  lemma EscapeSplits(a: string, b: string)
    requires a != "" && b != "" ==> !(a[|a| - 1] == '\r' && b[0] == '\n')
    ensures EscapeText(a + b) == EscapeText(a) + EscapeText(b)
  {
    var pa, pb := ReplaceChar(a, '\\', "\\\\"), ReplaceChar(b, '\\', "\\\\");
    ReplaceCharSplits(a, b, '\\', "\\\\");
    EndsOfFirstPass(a);
    EndsOfFirstPass(b);
    ReplaceBreaksSplits(pa, pb, "\\n");
    var qa, qb := ReplaceBreaks(pa, "\\n"), ReplaceBreaks(pb, "\\n");
    ReplaceCharSplits(qa, qb, ';', "\\;");
    ReplaceCharSplits(ReplaceChar(qa, ';', "\\;"), ReplaceChar(qb, ';', "\\;"), ',', "\\,");
  }

  /** The first pass leaves a break at either end where it was. */
  lemma {:induction false} EndsOfFirstPass(s: string)
    ensures var p := ReplaceChar(s, '\\', "\\\\");
      && (p == "" <==> s == "")
      && (s != "" ==> (p[0] == '\n' <==> s[0] == '\n') && (p[|p| - 1] == '\r' <==> s[|s| - 1] == '\r'))
  {
    if s != "" {
      EndsOfFirstPass(s[1..]);
      assert |s| == 1 ==> s[1..] == "";
    }
  }

  lemma {:induction false} ReplaceCharAbsent(s: string, c: char, text: string)
    requires c !in s
    ensures ReplaceChar(s, c, text) == s
  {
    if s != "" { ReplaceCharAbsent(s[1..], c, text); }
  }

  lemma {:induction false} ReplaceBreaksAbsent(s: string, text: string)
    requires Clean(s)
    ensures ReplaceBreaks(s, text) == s
    decreases |s|
  {
    if s != "" { ReplaceBreaksAbsent(s[1..], text); }
  }

  lemma EscapeBreak(s: string)
    requires s == "\r" || s == "\n" || s == CRLF
    ensures EscapeText(s) == "\\n"
  {
    ReplaceCharAbsent(s, '\\', "\\\\");
    assert ReplaceBreaks(s, "\\n") == "\\n" by { assert s[1..] == "" || s[2..] == ""; }
    ReplaceCharAbsent("\\n", ';', "\\;");
    ReplaceCharAbsent("\\n", ',', "\\,");
  }

  lemma ReplaceCharAlone(c: char, text: string)
    ensures ReplaceChar([c], c, text) == text
  {
    assert [c][1..] == "";
  }

  lemma OnceBreak(s: string)
    requires s == "\r" || s == "\n" || s == CRLF
    ensures EscapeOnce(s) == "\\n"
  {
    assert s[1..] == "" || s[2..] == "";
  }

  lemma OncePlain(c: char)
    requires c != '\r' && c != '\n'
    ensures EscapeOnce([c]) == if c in {'\\', ';', ','} then ['\\', c] else [c]
  {
    assert [c][1..] == "";
  }

  lemma EscapeOneCharacter(s: string)
    requires |s| == 1 || s == CRLF
    ensures EscapeText(s) == EscapeOnce(s)
  {
    hide EscapeText, EscapeOnce;
    if s == CRLF || s == "\r" || s == "\n" {
      EscapeBreak(s);
      OnceBreak(s);
    } else {
      assert s == [s[0]];
      EscapePlain(s[0]);
      OncePlain(s[0]);
    }
  }

  /** Each pass touches its own character only. */
  lemma EscapePlain(c: char)
    requires c != '\r' && c != '\n'
    ensures EscapeText([c]) == if c in {'\\', ';', ','} then ['\\', c] else [c]
  {
    hide ReplaceChar, ReplaceBreaks;
    var p := if c == '\\' then "\\\\" else [c];
    if c == '\\' { ReplaceCharAlone(c, "\\\\"); } else { ReplaceCharAbsent([c], '\\', "\\\\"); }
    ReplaceBreaksAbsent(p, "\\n");
    var q := if c == ';' then "\\;" else p;
    if c == ';' { ReplaceCharAlone(c, "\\;"); } else { ReplaceCharAbsent(p, ';', "\\;"); }
    if c == ',' { ReplaceCharAlone(c, "\\,"); } else { ReplaceCharAbsent(q, ',', "\\,"); }
  }

  /** The four passes equal the single pass. */
  lemma {:induction false} EscapePassesAreOne(s: string)
    ensures EscapeText(s) == EscapeOnce(s)
    decreases |s|
  {
    if s != "" {
      var n := if StartsWithBreakPair(s) then 2 else 1;
      assert s == s[..n] + s[n..];
      assert n == 2 ==> s[..n] == CRLF;
      EscapeSplits(s[..n], s[n..]);
      EscapeOneCharacter(s[..n]);
      EscapePassesAreOne(s[n..]);
      assert EscapeOnce(s) == EscapeOnce(s[..n]) + EscapeOnce(s[n..]) by { EscapeOnceHead(s, n); }
    }
  }

  lemma EscapeOnceHead(s: string, n: nat)
    requires s != "" && n == (if StartsWithBreakPair(s) then 2 else 1)
    ensures EscapeOnce(s) == EscapeOnce(s[..n]) + EscapeOnce(s[n..])
  {
    var head := s[..n];
    if n == 2 || s[0] == '\r' || s[0] == '\n' {
      assert n == 2 ==> head == CRLF;
      OnceBreak(head);
    } else {
      assert head == [s[0]];
      OncePlain(s[0]);
    }
  }

  /** Escaped text holds no line break, and reading it gives back the text with every line
      break in its one normal spelling. */
  lemma {:induction false} EscapeOnceReads(s: string)
    ensures Unescape(EscapeOnce(s)) == NormalizeBreaks(s) && Clean(EscapeOnce(s))
    decreases |s|
  {
    if s != "" {
      var n := if StartsWithBreakPair(s) then 2 else 1;
      EscapeOnceReads(s[n..]);
      var rest := EscapeOnce(s[n..]);
      var e := EscapeOnce(s);
      if n == 2 || s[0] in {'\r', '\n', '\\', ';', ','} {
        assert e[2..] == rest && e[0] == '\\';
      } else {
        assert e == [s[0]] + rest && e[1..] == rest;
      }
    }
  }

  lemma EscapeThenRead(s: string)
    ensures Unescape(EscapeText(s)) == NormalizeBreaks(s) && Clean(EscapeText(s))
  {
    EscapePassesAreOne(s);
    EscapeOnceReads(s);
  }

  /** A text without carriage returns reads back unchanged. */
  lemma PlainReadsBack(s: string)
    requires '\r' !in s
    ensures Unescape(EscapeText(s)) == s
  {
    EscapeThenRead(s);
    NormalizedHasNoReturns(s);
    hide NormalizeBreaks, EscapeText, Unescape;
  }

  // ---------------------------------------------------------------- folding

  /** The text that `foldLine` produces when `bytes` octets already stand on the line. */
  function Folded(line: string, bytes: nat): string {
    if line == "" then ""
    else
      var n := Utf8Length(line[0]);
      if MAX_OCTETS < bytes + n then CRLF + " " + [line[0]] + Folded(line[1..], 1 + n)
      else [line[0]] + Folded(line[1..], bytes + n)
  }

  function JoinLines(lines: seq<string>): string {
    if lines == [] then ""
    else if |lines| == 1 then lines[0]
    else JoinLines(lines[..|lines| - 1]) + CRLF + lines[|lines| - 1]
  }

  method FoldLine(line: string) returns (r: string)
    ensures r == Folded(line, 0)
  {
    hide Folded, JoinLines;
    var lines: seq<string> := [];
    var current := "";
    var bytes := 0;
    FoldStart(line);
    for i := 0 to |line|
      invariant JoinLines(lines + [current]) + Folded(line[i..], bytes) == Folded(line, 0)
    {
      FoldTurn(line, i, bytes, lines, current);
      var character := line[i];
      var length := Utf8Length(character);
      if MAX_OCTETS < bytes + length {
        lines := lines + [current];
        current := " ";
        bytes := 1;
      }
      current := current + [character];
      bytes := bytes + length;
    }
    FoldEnd(line, bytes);
    lines := lines + [current];
    r := JoinLines(lines);
    assert r + "" == r;
  }

  lemma FoldStart(line: string)
    ensures JoinLines([] + [""]) + Folded(line[0..], 0) == Folded(line, 0)
  {
    assert line[0..] == line && [] + [""] == [""];
  }

  lemma FoldEnd(line: string, bytes: nat)
    ensures Folded(line[|line|..], bytes) == ""
  {
  }

  /** One turn of the loop. */
  lemma FoldTurn(line: string, i: nat, bytes: nat, lines: seq<string>, current: string)
    requires i < |line|
    ensures var c := line[i];
      JoinLines(lines + [current]) + Folded(line[i..], bytes) ==
        if MAX_OCTETS < bytes + Utf8Length(c)
        then JoinLines(lines + [current] + [" " + [c]]) + Folded(line[i + 1..], 1 + Utf8Length(c))
        else JoinLines(lines + [current + [c]]) + Folded(line[i + 1..], bytes + Utf8Length(c))
  {
    FoldedFrom(line, i, bytes);
    hide JoinLines, Folded;
  }

  lemma FoldedFrom(line: string, i: nat, bytes: nat)
    requires i < |line|
    ensures var n := Utf8Length(line[i]);
      Folded(line[i..], bytes) ==
        if MAX_OCTETS < bytes + n then CRLF + " " + [line[i]] + Folded(line[i + 1..], 1 + n)
        else [line[i]] + Folded(line[i + 1..], bytes + n)
  {
    assert line[i..][1..] == line[i + 1..];
  }

  // ---------------------------------------------------------------- reading

  /** Unfolding (section 3.1 of RFC 5545): a line break followed by one white space goes. */
  function Unfold(s: string): string
    decreases |s|
  {
    if s == "" then ""
    else if 3 <= |s| && s[0] == '\r' && s[1] == '\n' && (s[2] == ' ' || s[2] == '\t') then Unfold(s[3..])
    else [s[0]] + Unfold(s[1..])
  }

  /** The lines of a text, each ended by CRLF; `current` was read before `s`. */
  function Lines(s: string, current: string): seq<string>
    decreases |s|
  {
    if s == "" then (if current == "" then [] else [current])
    else if StartsWithBreakPair(s) then [current] + Lines(s[2..], "")
    else Lines(s[1..], current + [s[0]])
  }

  function Content(lines: seq<string>): string {
    if lines == [] then "" else Folded(lines[0], 0) + CRLF + Content(lines[1..])
  }

  predicate StartsProperty(s: string) {
    s == "" || (s[0] != ' ' && s[0] != '\t')
  }

  lemma UnfoldCharacter(c: char, tail: string)
    requires c != '\r'
    ensures Unfold([c] + tail) == [c] + Unfold(tail)
  {
    assert ([c] + tail)[1..] == tail;
  }

  lemma UnfoldFoldMark(tail: string)
    ensures Unfold(CRLF + " " + tail) == Unfold(tail)
  {
    assert (CRLF + " " + tail)[3..] == tail;
  }

  lemma UnfoldLineEnd(rest: string)
    requires StartsProperty(rest)
    ensures Unfold(CRLF + rest) == CRLF + Unfold(rest)
  {
    var whole := CRLF + rest;
    assert whole[1..] == "\n" + rest;
    UnfoldCharacter('\n', rest);
    assert whole[0] == '\r' && CRLF == ['\r'] + "\n";
  }

  lemma {:induction false} UnfoldFolded(line: string, bytes: nat, rest: string)
    requires Clean(line) && StartsProperty(rest)
    ensures Unfold(Folded(line, bytes) + CRLF + rest) == line + CRLF + Unfold(rest)
  {
    hide Unfold;
    var whole := Folded(line, bytes) + CRLF + rest;
    if line == "" {
      assert whole == CRLF + rest;
      UnfoldLineEnd(rest);
    } else {
      var n := Utf8Length(line[0]);
      var used := if MAX_OCTETS < bytes + n then 1 + n else bytes + n;
      var tail := Folded(line[1..], used) + CRLF + rest;
      UnfoldFolded(line[1..], used, rest);
      UnfoldCharacter(line[0], tail);
      if MAX_OCTETS < bytes + n {
        assert whole == CRLF + " " + ([line[0]] + tail);
        UnfoldFoldMark([line[0]] + tail);
      } else {
        assert whole == [line[0]] + tail;
      }
      assert [line[0]] + (line[1..] + CRLF + Unfold(rest)) == line + CRLF + Unfold(rest);
    }
  }

  lemma LinesBreak(s: string, current: string)
    ensures Lines(CRLF + s, current) == [current] + Lines(s, "")
  {
    assert (CRLF + s)[2..] == s;
  }

  lemma LinesCharacter(c: char, s: string, current: string)
    requires c != '\r'
    ensures Lines([c] + s, current) == Lines(s, current + [c])
  {
    assert ([c] + s)[1..] == s;
  }

  lemma {:induction false} LinesOfLine(line: string, rest: string, current: string)
    requires Clean(line)
    ensures Lines(line + CRLF + rest, current) == [current + line] + Lines(rest, "")
    decreases |line|
  {
    var whole := line + CRLF + rest;
    if line == "" {
      assert whole[2..] == rest && current + line == current;
    } else {
      assert whole[1..] == line[1..] + CRLF + rest && whole[0] == line[0];
      LinesOfLine(line[1..], rest, current + [line[0]]);
      assert current + [line[0]] + line[1..] == current + line;
    }
  }

  predicate Properties(lines: seq<string>) {
    forall i :: 0 <= i < |lines| ==> lines[i] != "" && Clean(lines[i]) && StartsProperty(lines[i])
  }

  /** Unfolded and split, the content is exactly the intended property lines. */
  lemma {:induction false} ContentReadsBack(lines: seq<string>)
    requires Properties(lines)
    ensures Lines(Unfold(Content(lines)), "") == lines
  {
    if lines != [] {
      var rest := Content(lines[1..]);
      UnfoldFolded(lines[0], 0, rest);
      LinesOfLine(lines[0], Unfold(rest), "");
      assert "" + lines[0] == lines[0];
      ContentReadsBack(lines[1..]);
    }
  }

  predicate Short(lines: seq<string>) {
    forall i :: 0 <= i < |lines| ==> Octets(lines[i]) <= MAX_OCTETS
  }

  lemma OctetsAfter(current: string, c: char)
    ensures Octets(current + [c]) == Octets(current) + Utf8Length(c)
  {
    assert (current + [c])[..|current|] == current;
  }

  lemma OneSpace()
    ensures Octets(" ") == 1
  {
    OctetsAfter("", ' ');
    assert "" + [' '] == " ";
  }

  lemma FirstShort(first: string, rest: seq<string>)
    requires Octets(first) <= MAX_OCTETS && Short(rest)
    ensures Short([first] + rest)
  {
  }

  lemma LinesFold(c: char, tail: string, current: string)
    requires c != '\r'
    ensures Lines(CRLF + " " + [c] + tail, current) == [current] + Lines(tail, " " + [c])
  {
    hide Lines;
    assert CRLF + " " + [c] + tail == CRLF + ([' '] + ([c] + tail));
    LinesBreak([' '] + ([c] + tail), current);
    LinesCharacter(' ', [c] + tail, "");
    assert "" + [' '] == " ";
    LinesCharacter(c, tail, " ");
  }

  lemma {:induction false} FoldedIsShort(line: string, bytes: nat, rest: string, current: string)
    requires Clean(line) && Octets(current) == bytes <= MAX_OCTETS && Short(Lines(rest, ""))
    ensures Short(Lines(Folded(line, bytes) + CRLF + rest, current))
  {
    hide Lines, Octets, Short;
    var whole := Folded(line, bytes) + CRLF + rest;
    if line == "" {
      assert whole == CRLF + rest;
      LinesBreak(rest, current);
      FirstShort(current, Lines(rest, ""));
    } else {
      var c := line[0];
      var n := Utf8Length(c);
      if MAX_OCTETS < bytes + n {
        var tail := Folded(line[1..], 1 + n) + CRLF + rest;
        OneSpace();
        OctetsAfter(" ", c);
        FoldedIsShort(line[1..], 1 + n, rest, " " + [c]);
        assert whole == CRLF + " " + [c] + tail;
        LinesFold(c, tail, current);
        FirstShort(current, Lines(tail, " " + [c]));
      } else {
        var tail := Folded(line[1..], bytes + n) + CRLF + rest;
        OctetsAfter(current, c);
        FoldedIsShort(line[1..], bytes + n, rest, current + [c]);
        assert whole == [c] + tail;
        LinesCharacter(c, tail, current);
      }
    }
  }

  /** Every physical line of the content has at most 75 octets. */
  lemma {:induction false} PhysicalLinesAreShort(lines: seq<string>)
    requires Properties(lines)
    ensures Short(Lines(Content(lines), ""))
  {
    if lines != [] {
      PhysicalLinesAreShort(lines[1..]);
      FoldedIsShort(lines[0], 0, Content(lines[1..]), "");
    }
  }

  // ---------------------------------------------------------------- the calendar

  datatype Invitation = Invitation(
    eventId: string,
    sequence: nat,
    title: string,
    description: string,
    startAt: int,
    endAt: int,
    joinUrl: string,
    organizer: string,
    attendee: string,
    cancelled: bool,
    updatedAt: int)

  datatype Calendar = Calendar(verb: Verb, content: string)

  function Decimal(n: nat): (r: string)
    ensures r != "" && forall i :: 0 <= i < |r| ==> '0' <= r[i] <= '9'
  {
    if n < 10 then ['0' + (n as char)] else Decimal(n / 10) + ['0' + ((n % 10) as char)]
  }

  const PRODUCT := "-//ATF//ACMP Brief Events//EN"

  /** `stamp` prints an instant in the basic UTC format. */
  function Heading(x: Invitation, stamp: int -> string): seq<string> {
    ["BEGIN:VCALENDAR", "VERSION:2.0", "PRODID:" + PRODUCT, "CALSCALE:GREGORIAN",
     "METHOD:" + (if x.cancelled then "CANCEL" else "REQUEST"), "BEGIN:VEVENT",
     "UID:brief-event-" + x.eventId + "@acmp.atf.africa", "SEQUENCE:" + Decimal(x.sequence),
     "DTSTAMP:" + stamp(x.updatedAt), "DTSTART:" + stamp(x.startAt), "DTEND:" + stamp(x.endAt)]
  }

  function FullDescription(x: Invitation): string {
    x.description + "\n\nJoin Zoom: " + x.joinUrl
  }

  function Texts(x: Invitation): seq<string> {
    ["SUMMARY:" + EscapeText(x.title), "DESCRIPTION:" + EscapeText(FullDescription(x)), "LOCATION:" + EscapeText(x.joinUrl)]
  }

  function Closing(x: Invitation): seq<string> {
    ["ORGANIZER:mailto:" + x.organizer, "ATTENDEE;RSVP=TRUE:mailto:" + x.attendee,
     "STATUS:" + (if x.cancelled then "CANCELLED" else "CONFIRMED"),
     "END:VEVENT", "END:VCALENDAR"]
  }

  function PropertyLines(x: Invitation, stamp: int -> string): seq<string> {
    Heading(x, stamp) + Texts(x) + Closing(x)
  }

  method CalendarInvitation(x: Invitation, stamp: int -> string) returns (r: Result<Calendar, string>)
    ensures r.Ok? <==> Clean(x.organizer) && Clean(x.attendee)
    ensures r.Err? ==> '\r' in x.organizer || '\n' in x.organizer || '\r' in x.attendee || '\n' in x.attendee
    ensures r.Ok? ==> r.value.content == Content(PropertyLines(x, stamp))
    ensures r.Ok? ==> (r.value.verb == Cancel <==> x.cancelled)
  {
    if !(Clean(x.organizer) && Clean(x.attendee)) {
      return Err("Invalid calendar email address");
    }
    var lines := PropertyLines(x, stamp);
    var content := "";
    for i := 0 to |lines|
      invariant content + Content(lines[i..]) == Content(lines)
    {
      var folded := FoldLine(lines[i]);
      content := content + (folded + CRLF);
    }
    assert content + "" == content;
    r := Ok(Calendar(if x.cancelled then Cancel else Request, content));
  }

  ghost predicate CleanStamps(stamp: int -> string) {
    forall instant :: Clean(stamp(instant))
  }

  /** A property name and its value. */
  predicate IsProperty(s: string) {
    s != "" && Clean(s) && StartsProperty(s)
  }

  lemma PropertyOf(name: string, value: string)
    requires IsProperty(name) && Clean(value)
    ensures IsProperty(name + value)
  {
  }

  lemma TextsAreProperties(x: Invitation)
    ensures forall i :: 0 <= i < 3 ==> IsProperty(Texts(x)[i])
  {
    EscapeThenRead(x.title);
    EscapeThenRead(FullDescription(x));
    EscapeThenRead(x.joinUrl);
    hide EscapeText;
    PropertyOf("SUMMARY:", EscapeText(x.title));
    PropertyOf("DESCRIPTION:", EscapeText(FullDescription(x)));
    PropertyOf("LOCATION:", EscapeText(x.joinUrl));
    hide IsProperty;
  }

  lemma FirstPropertiesAreProperties()
    ensures IsProperty("BEGIN:VCALENDAR") && IsProperty("VERSION:2.0") && IsProperty("CALSCALE:GREGORIAN")
  {
  }

  lemma BeginIsProperty()
    ensures IsProperty("BEGIN:VEVENT")
  {
  }

  lemma ProductIsProperty()
    ensures IsProperty("PRODID:" + PRODUCT)
  {
    PropertyOf("PRODID:", PRODUCT);
    hide IsProperty;
  }

  lemma VerbIsProperty(x: Invitation)
    ensures IsProperty("METHOD:" + (if x.cancelled then "CANCEL" else "REQUEST"))
  {
    PropertyOf("METHOD:", if x.cancelled then "CANCEL" else "REQUEST");
    hide IsProperty, Clean;
  }

  lemma UidIsProperty(x: Invitation)
    requires Clean(x.eventId)
    ensures IsProperty("UID:brief-event-" + x.eventId + "@acmp.atf.africa")
  {
    PropertyOf("UID:brief-event-", x.eventId);
    PropertyOf("UID:brief-event-" + x.eventId, "@acmp.atf.africa");
    hide IsProperty, Clean;
  }

  lemma SequenceIsProperty(x: Invitation)
    ensures IsProperty("SEQUENCE:" + Decimal(x.sequence))
  {
    PropertyOf("SEQUENCE:", Decimal(x.sequence));
  }

  lemma TimesAreProperties(x: Invitation, stamp: int -> string)
    requires CleanStamps(stamp)
    ensures IsProperty("DTSTAMP:" + stamp(x.updatedAt)) && IsProperty("DTSTART:" + stamp(x.startAt)) && IsProperty("DTEND:" + stamp(x.endAt))
  {
    PropertyOf("DTSTAMP:", stamp(x.updatedAt));
    PropertyOf("DTSTART:", stamp(x.startAt));
    PropertyOf("DTEND:", stamp(x.endAt));
  }

  lemma HeadingIsProperties(x: Invitation, stamp: int -> string)
    requires Clean(x.eventId) && CleanStamps(stamp)
    ensures forall i :: 0 <= i < 11 ==> IsProperty(Heading(x, stamp)[i])
  {
    hide IsProperty, Clean, CleanStamps, Decimal;
    FirstPropertiesAreProperties();
    BeginIsProperty();
    ProductIsProperty();
    VerbIsProperty(x);
    UidIsProperty(x);
    SequenceIsProperty(x);
    TimesAreProperties(x, stamp);
  }

  lemma StatusIsProperty(x: Invitation)
    ensures IsProperty("STATUS:" + (if x.cancelled then "CANCELLED" else "CONFIRMED"))
  {
    PropertyOf("STATUS:", if x.cancelled then "CANCELLED" else "CONFIRMED");
    hide IsProperty, Clean;
  }

  lemma ClosingIsProperties(x: Invitation)
    requires Clean(x.organizer) && Clean(x.attendee)
    ensures forall i :: 0 <= i < 5 ==> IsProperty(Closing(x)[i])
  {
    hide IsProperty, Clean;
    LastPropertiesAreProperties();
    PropertyOf("ORGANIZER:mailto:", x.organizer);
    PropertyOf("ATTENDEE;RSVP=TRUE:mailto:", x.attendee);
    StatusIsProperty(x);
  }

  lemma LastPropertiesAreProperties()
    ensures IsProperty("END:VEVENT") && IsProperty("END:VCALENDAR")
  {
  }

  lemma PropertyLinesAreProperties(x: Invitation, stamp: int -> string)
    requires Clean(x.eventId) && CleanStamps(stamp) && Clean(x.organizer) && Clean(x.attendee)
    ensures Properties(PropertyLines(x, stamp))
  {
    HeadingIsProperties(x, stamp);
    TextsAreProperties(x);
    ClosingIsProperties(x);
    var heading, texts, closing := Heading(x, stamp), Texts(x), Closing(x);
    assert |heading| == 11 && |texts| == 3 && |closing| == 5;
    hide Heading, Texts, Closing;
    forall i | 0 <= i < 19 ensures IsProperty(PropertyLines(x, stamp)[i]) {
    }
  }

  /** For every title, description and URL: the calendar reads back as exactly the intended
      property lines, whose text values read back as the intended texts with normal line
      breaks; and no physical line is longer than 75 octets. */
  lemma CalendarReadsBack(x: Invitation, stamp: int -> string)
    requires Clean(x.eventId) && CleanStamps(stamp) && Clean(x.organizer) && Clean(x.attendee)
    ensures var content := Content(PropertyLines(x, stamp));
      var lines := Lines(Unfold(content), "");
      && lines == PropertyLines(x, stamp) && |lines| == 19
      && Short(Lines(content, ""))
      && lines[11][..8] == "SUMMARY:" && Unescape(lines[11][8..]) == NormalizeBreaks(x.title)
      && lines[12][..12] == "DESCRIPTION:" && Unescape(lines[12][12..]) == NormalizeBreaks(x.description + "\n\nJoin Zoom: " + x.joinUrl)
      && lines[13][..9] == "LOCATION:" && Unescape(lines[13][9..]) == NormalizeBreaks(x.joinUrl)
  {
    hide EscapeText, Content, Lines, Unfold, NormalizeBreaks, Unescape, Short, Heading, Closing, Properties;
    var lines := PropertyLines(x, stamp);
    PropertyLinesAreProperties(x, stamp);
    ContentReadsBack(lines);
    PhysicalLinesAreShort(lines);
    EscapeThenRead(x.title);
    EscapeThenRead(FullDescription(x));
    EscapeThenRead(x.joinUrl);
    PartLengths(x, stamp);
    assert lines[11] == Texts(x)[0] && lines[12] == Texts(x)[1] && lines[13] == Texts(x)[2];
    assert lines[11][8..] == EscapeText(x.title);
    assert lines[12][12..] == EscapeText(FullDescription(x));
    assert lines[13][9..] == EscapeText(x.joinUrl);
  }

  lemma PartLengths(x: Invitation, stamp: int -> string)
    ensures |Heading(x, stamp)| == 11 && |Texts(x)| == 3 && |Closing(x)| == 5
  {
  }

  // ---------------------------------------------------------------- reading by name

  /** Exactly one value stands under `name`. */
  ghost predicate Says(lines: seq<string>, name: string, value: string) {
    && name + value in lines
    && forall i :: 0 <= i < |lines| && name <= lines[i] ==> lines[i] == name + value
  }

  predicate Marked(s: string, mark: string)
    requires |mark| == 3
  {
    3 <= |s| && s[0] == mark[0] && s[1] == mark[1] && s[2] == mark[2]
  }

  /** The first three characters of the property lines. */
  const MARKS := ["BEG", "VER", "PRO", "CAL", "MET", "BEG", "UID", "SEQ", "DTS", "DTS", "DTE",
                  "SUM", "DES", "LOC", "ORG", "ATT", "STA", "END", "END"]

  lemma HeadingMarks(x: Invitation, stamp: int -> string)
    ensures forall i :: 0 <= i < 11 ==> Marked(Heading(x, stamp)[i], MARKS[i])
  {
    hide Decimal;
  }

  lemma OtherMarks(x: Invitation)
    ensures forall i :: 0 <= i < 3 ==> Marked(Texts(x)[i], MARKS[11 + i])
    ensures forall i :: 0 <= i < 5 ==> Marked(Closing(x)[i], MARKS[14 + i])
  {
    hide EscapeText, FullDescription;
  }

  function ReadDecimal(s: string): nat {
    if s == "" then 0
    else 10 * ReadDecimal(s[..|s| - 1]) + (if '0' <= s[|s| - 1] <= '9' then (s[|s| - 1] - '0') as nat else 0)
  }

  lemma {:induction false} DecimalReads(n: nat)
    ensures ReadDecimal(Decimal(n)) == n
  {
    if n < 10 {
      assert Decimal(n)[..0] == "";
    } else {
      DecimalReads(n / 10);
      assert Decimal(n)[..|Decimal(n)| - 1] == Decimal(n / 10);
    }
  }

  lemma AllMarks(x: Invitation, stamp: int -> string)
    ensures |PropertyLines(x, stamp)| == 19
    ensures forall i :: 0 <= i < 19 ==> Marked(PropertyLines(x, stamp)[i], MARKS[i])
  {
    hide Heading, Texts, Closing, Marked;
    PartLengths(x, stamp);
    HeadingMarks(x, stamp);
    OtherMarks(x);
    var lines := PropertyLines(x, stamp);
    forall i | 0 <= i < 19 ensures Marked(lines[i], MARKS[i]) {
      if i < 11 {
        assert lines[i] == Heading(x, stamp)[i];
      } else if i < 14 {
        assert lines[i] == Texts(x)[i - 11] && Marked(Texts(x)[i - 11], MARKS[11 + (i - 11)]);
      } else {
        assert lines[i] == Closing(x)[i - 14] && Marked(Closing(x)[i - 14], MARKS[14 + (i - 14)]);
      }
    }
  }

  /** A line whose mark no other line has is the only one under its name. */
  lemma OnlyLine(lines: seq<string>, name: string, value: string, i: nat)
    requires |lines| == 19 && i < 19 && lines[i] == name + value && Marked(name, MARKS[i])
    requires forall j :: 0 <= j < 19 ==> Marked(lines[j], MARKS[j])
    requires forall j :: 0 <= j < 19 && j != i ==> MARKS[j] != MARKS[i] || !(name <= lines[j])
    ensures Says(lines, name, value)
  {
    forall j | 0 <= j < 19 && name <= lines[j] ensures lines[j] == name + value {
      assert Marked(lines[j], MARKS[j]);
      assert lines[j][..3] == name[..3] && MARKS[j] == lines[j][..3] && MARKS[i] == name[..3];
    }
  }

  lemma MarksDiffer(i: nat)
    requires i in {4, 6, 7, 10, 14, 15, 16}
    ensures forall j :: 0 <= j < 19 && j != i ==> MARKS[j] != MARKS[i]
  {
    forall j | 0 <= j < 19 && j != i ensures MARKS[j] != MARKS[i] {
      assert MARKS[j][0] != MARKS[i][0] || MARKS[j][1] != MARKS[i][1] || MARKS[j][2] != MARKS[i][2];
    }
  }

  lemma HeadingSays(x: Invitation, stamp: int -> string)
    ensures var lines := PropertyLines(x, stamp);
      && Says(lines, "METHOD:", if x.cancelled then "CANCEL" else "REQUEST")
      && Says(lines, "SEQUENCE:", Decimal(x.sequence))
      && Says(lines, "DTEND:", stamp(x.endAt))
  {
    var lines := PropertyLines(x, stamp);
    AllMarks(x, stamp);
    PartLengths(x, stamp);
    MarksDiffer(4);
    MarksDiffer(7);
    MarksDiffer(10);
    assert lines[4] == Heading(x, stamp)[4] && lines[7] == Heading(x, stamp)[7] && lines[10] == Heading(x, stamp)[10];
    OnlyLine(lines, "METHOD:", if x.cancelled then "CANCEL" else "REQUEST", 4);
    OnlyLine(lines, "SEQUENCE:", Decimal(x.sequence), 7);
    OnlyLine(lines, "DTEND:", stamp(x.endAt), 10);
    hide Says, Decimal;
  }

  lemma StampSays(x: Invitation, stamp: int -> string)
    ensures Says(PropertyLines(x, stamp), "DTSTAMP:", stamp(x.updatedAt))
  {
    var lines := PropertyLines(x, stamp);
    AllMarks(x, stamp);
    PartLengths(x, stamp);
    assert lines[8] == Heading(x, stamp)[8] && lines[9] == Heading(x, stamp)[9];
    assert lines[8][5] == 'M' && lines[9][5] == 'R';
    OnlyLine(lines, "DTSTAMP:", stamp(x.updatedAt), 8);
    hide Says, Decimal;
  }

  lemma StartSays(x: Invitation, stamp: int -> string)
    ensures Says(PropertyLines(x, stamp), "DTSTART:", stamp(x.startAt))
  {
    var lines := PropertyLines(x, stamp);
    AllMarks(x, stamp);
    PartLengths(x, stamp);
    assert lines[8] == Heading(x, stamp)[8] && lines[9] == Heading(x, stamp)[9];
    assert lines[8][5] == 'M' && lines[9][5] == 'R';
    OnlyLine(lines, "DTSTART:", stamp(x.startAt), 9);
    hide Says, Decimal;
  }

  lemma UidText(id: string)
    ensures "UID:brief-event-" + id + "@acmp.atf.africa" == "UID:" + ("brief-event-" + id + "@acmp.atf.africa")
  {
    assert "UID:brief-event-" == "UID:" + "brief-event-";
  }

  lemma UidSays(x: Invitation, stamp: int -> string)
    ensures Says(PropertyLines(x, stamp), "UID:", "brief-event-" + x.eventId + "@acmp.atf.africa")
  {
    var lines := PropertyLines(x, stamp);
    AllMarks(x, stamp);
    PartLengths(x, stamp);
    MarksDiffer(6);
    assert lines[6] == Heading(x, stamp)[6];
    UidText(x.eventId);
    OnlyLine(lines, "UID:", "brief-event-" + x.eventId + "@acmp.atf.africa", 6);
    hide Says, Decimal;
  }

  lemma ClosingSays(x: Invitation, stamp: int -> string)
    ensures var lines := PropertyLines(x, stamp);
      && Says(lines, "ORGANIZER:mailto:", x.organizer) && Says(lines, "ATTENDEE;RSVP=TRUE:mailto:", x.attendee)
      && Says(lines, "STATUS:", if x.cancelled then "CANCELLED" else "CONFIRMED")
  {
    var lines := PropertyLines(x, stamp);
    AllMarks(x, stamp);
    PartLengths(x, stamp);
    MarksDiffer(14);
    MarksDiffer(15);
    MarksDiffer(16);
    assert lines[14] == Closing(x)[0] && lines[15] == Closing(x)[1] && lines[16] == Closing(x)[2];
    OnlyLine(lines, "ORGANIZER:mailto:", x.organizer, 14);
    OnlyLine(lines, "ATTENDEE;RSVP=TRUE:mailto:", x.attendee, 15);
    OnlyLine(lines, "STATUS:", if x.cancelled then "CANCELLED" else "CONFIRMED", 16);
    hide Says, Heading;
  }

  /** Read by name, the calendar gives back what the invitation says: each property stands there
      once, times and addresses are not swapped, and the SEQUENCE reads back as its number. */
  lemma CalendarSays(x: Invitation, stamp: int -> string)
    requires Clean(x.eventId) && CleanStamps(stamp) && Clean(x.organizer) && Clean(x.attendee)
    ensures var lines := Lines(Unfold(Content(PropertyLines(x, stamp))), "");
      && Says(lines, "METHOD:", if x.cancelled then "CANCEL" else "REQUEST")
      && Says(lines, "STATUS:", if x.cancelled then "CANCELLED" else "CONFIRMED")
      && Says(lines, "UID:", "brief-event-" + x.eventId + "@acmp.atf.africa")
      && Says(lines, "SEQUENCE:", Decimal(x.sequence)) && ReadDecimal(Decimal(x.sequence)) == x.sequence
      && Says(lines, "DTSTAMP:", stamp(x.updatedAt))
      && Says(lines, "DTSTART:", stamp(x.startAt)) && Says(lines, "DTEND:", stamp(x.endAt))
      && Says(lines, "ORGANIZER:mailto:", x.organizer) && Says(lines, "ATTENDEE;RSVP=TRUE:mailto:", x.attendee)
  {
    hide Says, Content, Lines, Unfold, PropertyLines, Decimal, ReadDecimal, Clean, CleanStamps, Properties;
    PropertyLinesAreProperties(x, stamp);
    ContentReadsBack(PropertyLines(x, stamp));
    HeadingSays(x, stamp);
    StampSays(x, stamp);
    StartSays(x, stamp);
    UidSays(x, stamp);
    ClosingSays(x, stamp);
    DecimalReads(x.sequence);
  }
}
