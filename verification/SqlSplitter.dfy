/** The splitter that cuts a schema dump into statements: a loop with four lexer variables,
    against a recursive lexer. */
module SqlSplitter {
  import opened Prelude
  import opened TextTools

  datatype Mode = Normal | LineComment | BlockComment | Quoted(mark: char)

  /** One step of the lexer: how many characters it takes, the mode after them, and whether
      they are a statement terminator. */
  datatype Token = Token(length: nat, mode: Mode, cuts: bool)

  predicate StartsWith(s: string, a: char, b: char) {
    2 <= |s| && s[0] == a && s[1] == b
  }

  function NextToken(s: string, mode: Mode): (t: Token)
    requires s != ""
    ensures 1 <= t.length <= |s|
    ensures t.cuts ==> t.length == 1 && t.mode == Normal
  {
    match mode
    case Normal =>
      if StartsWith(s, '-', '-') then Token(1, LineComment, false)
      else if StartsWith(s, '/', '*') then Token(1, BlockComment, false)
      else if s[0] == '\'' || s[0] == '"' then Token(1, Quoted(s[0]), false)
      else Token(1, Normal, s[0] == ';')
    case LineComment => Token(1, if s[0] == '\n' then Normal else LineComment, false)
    case BlockComment => if StartsWith(s, '*', '/') then Token(2, Normal, false) else Token(1, BlockComment, false)
    case Quoted(mark) =>
      if s[0] != mark then Token(1, mode, false)
      else if StartsWith(s, mark, mark) then Token(2, mode, false)
      else Token(1, Normal, false)
  }

  /** The raw text between terminators; `current` was read before `s`. */
  function Segments(s: string, mode: Mode, current: string): (r: seq<string>)
    ensures r != []
    decreases |s|
  {
    if s == "" then [current]
    else
      var t := NextToken(s, mode);
      if t.cuts then [current] + Segments(s[1..], Normal, "")
      else Segments(s[t.length..], t.mode, current + s[..t.length])
  }

  lemma SegmentsOf(s: string, mode: Mode, current: string)
    requires s != ""
    ensures Segments(s, mode, current) ==
            if NextToken(s, mode).cuts then [current] + Segments(s[1..], Normal, "")
            else Segments(s[NextToken(s, mode).length..], NextToken(s, mode).mode, current + s[..NextToken(s, mode).length])
  {
  }

  lemma SegmentsOfNothing(mode: Mode, current: string)
    ensures Segments("", mode, current) == [current]
  {
  }

  lemma CutsAtSemicolon(s: string, mode: Mode)
    requires s != ""
    ensures NextToken(s, mode).cuts <==> s[0] == ';' && mode == Normal
  {
  }

  // ---------------------------------------------------------------- the comment test

  function DropLine(s: string): (r: string)
    ensures |r| <= |s| && (r == "" || r[0] == '\n')
  {
    if s == "" || s[0] == '\n' then s else DropLine(s[1..])
  }

  /** Removes "--" and the rest of its line, wherever it stands. */
  function StripLines(s: string): string
    decreases |s|
  {
    if s == "" then ""
    else if StartsWith(s, '-', '-') then StripLines(DropLine(s[2..]))
    else [s[0]] + StripLines(s[1..])
  }

  /** What follows the first closing mark; `s` itself when there is none. */
  function PastClose(s: string): (r: string)
    ensures |r| <= |s| && (r == s || |r| + 2 <= |s|)
  {
    if |s| < 2 then s
    else if StartsWith(s, '*', '/') then s[2..]
    else if PastClose(s[1..]) == s[1..] then s
    else PastClose(s[1..])
  }

  /** Removes each opening mark with everything up to the nearest closing mark. */
  function StripBlocks(s: string): string
    decreases |s|
  {
    if s == "" then ""
    else if StartsWith(s, '/', '*') && PastClose(s[2..]) != s[2..] then StripBlocks(PastClose(s[2..]))
    else [s[0]] + StripBlocks(s[1..])
  }

  predicate IsOnlyComments(s: string) {
    Trim(StripBlocks(StripLines(s))) == ""
  }

  function Statements(segments: seq<string>): seq<string> {
    if segments == [] then []
    else
      var trimmed := Trim(segments[0]);
      (if trimmed != "" && !IsOnlyComments(trimmed) then [trimmed] else []) + Statements(segments[1..])
  }

  // ---------------------------------------------------------------- the loop

  predicate FlagsMean(mode: Mode, inLine: bool, inBlock: bool, inString: bool, mark: char) {
    match mode
    case Normal => !inLine && !inBlock && !inString
    case LineComment => inLine && !inBlock && !inString
    case BlockComment => !inLine && inBlock && !inString
    case Quoted(m) => !inLine && !inBlock && inString && mark == m && (m == '\'' || m == '"')
  }

  lemma {:induction false} StatementsAppend(a: seq<string>, b: seq<string>)
    ensures Statements(a + b) == Statements(a) + Statements(b)
  {
    hide IsOnlyComments, Trim;
    if a == [] {
      assert a + b == b;
    } else {
      assert (a + b)[1..] == a[1..] + b;
      StatementsAppend(a[1..], b);
    }
  }

  /** What the loop does with the text gathered so far when it meets a terminator or the end. */
  method Flush(statements: seq<string>, current: string) returns (r: seq<string>)
    ensures r == statements + Statements([current])
  {
    var trimmed := Trim(current);
    r := statements;
    if trimmed != "" && !IsOnlyComments(trimmed) {
      r := r + [trimmed];
    }
  }

  /** One turn of the loop, in terms of the lexer. */
  lemma OneTurn(sql: string, i: nat, mode: Mode, current: string)
    requires i < |sql|
    ensures forall a, b :: StartsWith(sql[i..], a, b) <==> sql[i] == a && Follows(sql, i, b)
    ensures var t := NextToken(sql[i..], mode);
      Segments(sql[i..], mode, current) ==
        if t.cuts then [current] + Segments(sql[i + 1..], Normal, "")
        else Segments(sql[i + t.length..], t.mode, current + sql[i..i + t.length])
  {
    var t := NextToken(sql[i..], mode);
    SegmentsOf(sql[i..], mode, current);
    hide Segments, NextToken;
    assert sql[i..][t.length..] == sql[i + t.length..] && sql[i..][..t.length] == sql[i..i + t.length];
    assert sql[i..][1..] == sql[i + 1..];
  }

  /** The loop's one character of lookahead. */
  predicate Follows(sql: string, i: nat, c: char) {
    i + 1 < |sql| && sql[i + 1] == c
  }

  method ParseSqlStatements(sql: string) returns (statements: seq<string>)
    ensures statements == Statements(Segments(sql, Normal, ""))
  {
    hide Statements, IsOnlyComments, Trim, Segments;
    statements := [];
    var current := "";
    var inLine, inBlock, inString, mark := false, false, false, ' ';
    ghost var mode := Normal;
    var i := 0;
    while i < |sql|
      invariant i <= |sql|
      invariant FlagsMean(mode, inLine, inBlock, inString, mark)
      invariant statements + Statements(Segments(sql[i..], mode, current)) == Statements(Segments(sql, Normal, ""))
    {
      var c := sql[i];
      ghost var token := NextToken(sql[i..], mode);
      OneTurn(sql, i, mode, current);
      assert sql[i..i + 1] == [c];
      if !inString && !inBlock && c == '-' && Follows(sql, i, '-') {
        inLine := true;
        current := current + [c];
        i := i + 1;
        mode := LineComment;
        continue;
      }
      if inLine && c == '\n' {
        inLine := false;
        current := current + [c];
        i := i + 1;
        mode := Normal;
        continue;
      }
      if !inString && !inLine && c == '/' && Follows(sql, i, '*') {
        inBlock := true;
        current := current + [c];
        i := i + 1;
        mode := BlockComment;
        continue;
      }
      if inBlock && c == '*' && Follows(sql, i, '/') {
        inBlock := false;
        current := current + [c, sql[i + 1]];
        i := i + 2;
        mode := Normal;
        assert sql[i - 2..i] == [c, sql[i - 1]];
        continue;
      }
      if !inLine && !inBlock && (c == '\'' || c == '"') {
        if !inString {
          inString := true;
          mark := c;
        } else if c == mark {
          if Follows(sql, i, c) {
            current := current + [c, sql[i + 1]];
            i := i + 2;
            assert sql[i - 2..i] == [c, sql[i - 1]];
            continue;
          }
          inString := false;
        }
      }
      if !inLine && !inBlock && !inString && c == ';' {
        StatementsAppend([current], Segments(sql[i + 1..], Normal, ""));
        statements := Flush(statements, current);
        current := "";
        i := i + 1;
        continue;
      }
      current := current + [c];
      i := i + 1;
      mode := token.mode;
    }
    assert Segments(sql[i..], mode, current) == [current] by { SegmentsOfNothing(mode, current); assert sql[i..] == ""; }
    statements := Flush(statements, current);
  }

  // ---------------------------------------------------------------- nothing is lost, only terminators cut

  function Join(parts: seq<string>, glue: string): string {
    if parts == [] then ""
    else if |parts| == 1 then parts[0]
    else parts[0] + glue + Join(parts[1..], glue)
  }

  lemma JoinHead(first: string, rest: seq<string>)
    requires rest != []
    ensures Join([first] + rest, ";") == first + ";" + Join(rest, ";")
  {
    assert ([first] + rest)[1..] == rest;
  }

  /** The raw segments, rejoined, give back the input. */
  lemma {:induction false} SegmentsRejoin(s: string, mode: Mode, current: string)
    ensures Join(Segments(s, mode, current), ";") == current + s
    decreases |s|
  {
    hide Join, Segments, NextToken;
    if s == "" {
      SegmentsOfNothing(mode, current);
      JoinOne(current);
      assert current + s == current;
    } else {
      var t := NextToken(s, mode);
      SegmentsOf(s, mode, current);
      if t.cuts {
        CutsAtSemicolon(s, mode);
        SegmentsRejoin(s[1..], Normal, "");
        JoinHead(current, Segments(s[1..], Normal, ""));
      } else {
        SegmentsRejoin(s[t.length..], t.mode, current + s[..t.length]);
      }
    }
  }

  lemma JoinOne(current: string)
    ensures Join([current], ";") == current
  {
  }

  /** A ';' at position `i` that the lexer reads in normal mode. */
  predicate Terminator(s: string, mode: Mode, i: nat)
    decreases |s|
  {
    s != "" &&
    var t := NextToken(s, mode);
    if i == 0 then s[0] == ';' && mode == Normal
    else t.length <= i && Terminator(s[t.length..], t.mode, i - t.length)
  }

  /** Where segment `k` ends, counting from the start of `current`. */
  function EndOf(segments: seq<string>, k: nat): nat
    requires k < |segments|
  {
    if k == 0 then |segments[0]| else |segments[0]| + 1 + EndOf(segments[1..], k - 1)
  }

  predicate EndsAt(segments: seq<string>, k: nat, position: nat) {
    k + 1 < |segments| && EndOf(segments, k) == position
  }

  ghost predicate CutAt(segments: seq<string>, position: nat) {
    exists k: nat :: EndsAt(segments, k, position)
  }

  lemma CutAfterFirst(first: string, rest: seq<string>, position: nat)
    requires rest != []
    ensures CutAt([first] + rest, position) <==>
            position == |first| || (|first| < position && CutAt(rest, position - |first| - 1))
  {
    var all := [first] + rest;
    assert all[1..] == rest;
    if position == |first| {
      assert EndsAt(all, 0, position);
    }
    if |first| < position && CutAt(rest, position - |first| - 1) {
      var k: nat :| EndsAt(rest, k, position - |first| - 1);
      assert EndsAt(all, k + 1, position);
    }
    if CutAt(all, position) && position != |first| {
      var k: nat :| EndsAt(all, k, position);
      assert k != 0 && EndsAt(rest, k - 1, position - |first| - 1);
    }
  }

  lemma {:induction false} NoEarlyCut(s: string, mode: Mode, current: string, position: nat)
    requires position < |current|
    ensures !CutAt(Segments(s, mode, current), position)
    decreases |s|
  {
    if s != "" {
      var t := NextToken(s, mode);
      if t.cuts {
        CutAfterFirst(current, Segments(s[1..], Normal, ""), position);
      } else {
        NoEarlyCut(s[t.length..], t.mode, current + s[..t.length], position);
      }
    }
  }

  lemma NoCutAlone(current: string, position: nat)
    ensures !CutAt([current], position)
  {
  }

  /** The input is cut exactly at the semicolons met in normal mode. */
  lemma {:induction false} CutsExactlyAtTerminators(s: string, mode: Mode, current: string, i: nat)
    ensures Terminator(s, mode, i) <==> CutAt(Segments(s, mode, current), |current| + i)
    decreases |s|
  {
    hide CutAt, Segments, NextToken;
    if s == "" {
      SegmentsOfNothing(mode, current);
      NoCutAlone(current, |current| + i);
    } else {
      var t := NextToken(s, mode);
      SegmentsOf(s, mode, current);
      CutsAtSemicolon(s, mode);
      if t.cuts {
        CutAfterFirst(current, Segments(s[1..], Normal, ""), |current| + i);
        if 0 < i {
          CutsExactlyAtTerminators(s[1..], Normal, "", i - 1);
        }
      } else if t.length <= i {
        CutsExactlyAtTerminators(s[t.length..], t.mode, current + s[..t.length], i - t.length);
      } else {
        NoEarlyCut(s[t.length..], t.mode, current + s[..t.length], |current| + i);
      }
    }
  }

  // ---------------------------------------------------------------- printing and splitting

  /** Read from normal mode, the text has no terminator and ends in normal mode. */
  predicate Balanced(s: string, mode: Mode)
    decreases |s|
  {
    if s == "" then mode == Normal
    else !NextToken(s, mode).cuts && Balanced(s[NextToken(s, mode).length..], NextToken(s, mode).mode)
  }

  predicate Printable(s: string) {
    s != "" && Trimmed(s) && Balanced(s, Normal) && !IsOnlyComments(s)
  }

  function Print(statements: seq<string>): string {
    if statements == [] then "" else statements[0] + ";\n" + Print(statements[1..])
  }

  /** Only quotation marks quote. */
  predicate Quotes(mode: Mode) {
    mode.Quoted? ==> mode.mark == '\'' || mode.mark == '"'
  }

  /** What follows a balanced text does not change how it is read, because no token looks
      ahead to a ';'. */
  lemma {:induction false} BalancedThenTerminator(s: string, mode: Mode, current: string, rest: string)
    requires Balanced(s, mode) && Quotes(mode)
    ensures Segments(s + ";" + rest, mode, current) == [current + s] + Segments(rest, Normal, "")
    decreases |s|
  {
    var whole := s + ";" + rest;
    if s == "" {
      assert whole == ";" + rest && whole[1..] == rest && current + s == current;
    } else {
      var t := NextToken(s, mode);
      assert whole[0] == s[0] && (|s| == 1 ==> whole[1] == ';') && (2 <= |s| ==> whole[1] == s[1]);
      assert NextToken(whole, mode) == t;
      assert whole[t.length..] == s[t.length..] + ";" + rest && whole[..t.length] == s[..t.length];
      BalancedThenTerminator(s[t.length..], t.mode, current + s[..t.length], rest);
      assert current + s[..t.length] + s[t.length..] == current + s;
    }
  }

  lemma BlankSegment(blank: string)
    requires Blank(blank)
    ensures Statements([blank]) == []
  {
    TrimBlank(blank);
  }

  lemma PrintedSegment(blank: string, s: string, rest: seq<string>)
    requires Blank(blank) && Printable(s)
    ensures Statements([blank + s] + rest) == [s] + Statements(rest)
  {
    TrimOf(blank, s, "");
    assert blank + s + "" == blank + s;
    assert ([blank + s] + rest)[1..] == rest;
  }

  /** Printing trimmed, balanced statements that are not just comments, and splitting the
      result, gives back the same statements. */
  lemma {:induction false} PrintThenSplit(statements: seq<string>, blank: string)
    requires forall k :: 0 <= k < |statements| ==> Printable(statements[k])
    requires blank == "" || blank == "\n"
    ensures Statements(Segments(Print(statements), Normal, blank)) == statements
  {
    hide Statements, IsOnlyComments, Trim, Balanced;
    if statements == [] {
      BlankSegment(blank);
    } else {
      var s, rest := statements[0], Print(statements[1..]);
      assert Print(statements) == s + ";" + ("\n" + rest);
      BalancedThenTerminator(s, Normal, blank, "\n" + rest);
      OneNewline(rest);
      hide Segments;
      PrintedSegment(blank, s, Segments(rest, Normal, "\n"));
      PrintThenSplit(statements[1..], "\n");
    }
  }

  lemma OneNewline(rest: string)
    ensures Segments("\n" + rest, Normal, "") == Segments(rest, Normal, "\n")
  {
    var after := "\n" + rest;
    assert NextToken(after, Normal) == Token(1, Normal, false);
    assert after[1..] == rest && "" + after[..1] == "\n";
  }

  // ---------------------------------------------------------------- which statements are dropped

  predicate OpensComment(s: string) {
    StartsWith(s, '-', '-') || StartsWith(s, '/', '*')
  }

  /** Something that is neither white space nor comment. */
  predicate HasCode(s: string, mode: Mode)
    decreases |s|
  {
    s != "" &&
    var t := NextToken(s, mode);
    (mode == Normal && !OpensComment(s) && !IsSpace(s[0])) || HasCode(s[t.length..], t.mode)
  }

  lemma {:induction false} LineCommentEnds(s: string)
    ensures HasCode(s, LineComment) == HasCode(DropLine(s), Normal)
  {
    if s != "" && s[0] != '\n' {
      LineCommentEnds(s[1..]);
    }
  }

  /** What stands before the first closing mark, with that mark. */
  function UpToClose(s: string): string {
    s[..|s| - |PastClose(s)|]
  }

  /** A comment that closes, with no dashes before its close. */
  predicate ClosesPlainly(s: string) {
    s != "" && !StartsWith(s, '-', '-') && (StartsWith(s, '*', '/') || ClosesPlainly(s[1..]))
  }

  /** The rest of the text once the lexer leaves a block comment. */
  lemma {:induction false} BlockCommentEnds(s: string)
    requires ClosesPlainly(s)
    ensures PastClose(s) != s
    ensures HasCode(s, BlockComment) == HasCode(PastClose(s), Normal)
  {
    if !StartsWith(s, '*', '/') {
      BlockCommentEnds(s[1..]);
    }
  }

  lemma OneKept(s: string)
    requires s != "" && !StartsWith(s, '-', '-')
    ensures StripLines(s) == [s[0]] + StripLines(s[1..])
  {
  }

  lemma CloseKept(s: string)
    requires StartsWith(s, '*', '/')
    ensures StripLines(s) == UpToClose(s) + StripLines(PastClose(s))
  {
    hide StripLines;
    OneKept(s);
    OneKept(s[1..]);
    assert PastClose(s) == s[2..] && s[1..][1..] == s[2..] && s[1..][0] == s[1];
    assert UpToClose(s) == [s[0]] + [s[1]];
    assert [s[0]] + ([s[1]] + StripLines(s[2..])) == [s[0]] + [s[1]] + StripLines(s[2..]);
  }

  /** A character of the comment before its close. */
  lemma InsideKept(s: string)
    requires ClosesPlainly(s) && !StartsWith(s, '*', '/') && PastClose(s) != s
    ensures ClosesPlainly(s[1..]) && PastClose(s[1..]) == PastClose(s) != s[1..]
    ensures UpToClose(s) == [s[0]] + UpToClose(s[1..]) && StripLines(s) == [s[0]] + StripLines(s[1..])
  {
  }

  lemma {:induction false} BlockCommentKept(s: string)
    requires ClosesPlainly(s) && PastClose(s) != s
    ensures StripLines(s) == UpToClose(s) + StripLines(PastClose(s))
  {
    hide StripLines, PastClose, UpToClose, ClosesPlainly;
    if StartsWith(s, '*', '/') {
      CloseKept(s);
    } else {
      InsideKept(s);
      BlockCommentKept(s[1..]);
      assert [s[0]] + (UpToClose(s[1..]) + StripLines(PastClose(s))) == [s[0]] + UpToClose(s[1..]) + StripLines(PastClose(s));
    }
  }

  /** Changing what follows the first close does not move it. */
  lemma {:induction false} SameClose(s: string, tail: string)
    requires PastClose(s) != s
    ensures PastClose(UpToClose(s) + tail) == tail && UpToClose(s) + tail != tail
  {
    var head := UpToClose(s);
    var whole := head + tail;
    if StartsWith(s, '*', '/') {
      assert whole[2..] == tail;
    } else {
      SameClose(s[1..], tail);
      var inner := UpToClose(s[1..]);
      assert head == [s[0]] + inner && whole[1..] == inner + tail && |inner| >= 2;
      assert whole[0] == s[0] && whole[1] == s[1];
      assert |whole[1..]| != |tail|;
    }
  }

  lemma EntersBlock(s: string)
    requires StartsWith(s, '/', '*') && (|s| == 2 || s[2] != '/')
    ensures HasCode(s, Normal) == HasCode(s[2..], BlockComment)
    ensures Balanced(s, Normal) == Balanced(s[2..], BlockComment)
  {
    var t := s[1..];
    assert t[1..] == s[2..];
    assert NextToken(s, Normal) == Token(1, BlockComment, false) && NextToken(t, BlockComment) == Token(1, BlockComment, false);
  }

  lemma OpensKept(s: string)
    requires StartsWith(s, '/', '*')
    ensures StripLines(s) == "/*" + StripLines(s[2..])
  {
    assert s[1..][1..] == s[2..];
    assert StripLines(s) == ['/'] + StripLines(s[1..]) && StripLines(s[1..]) == ['*'] + StripLines(s[2..]);
  }

  lemma StripsBlock(s: string)
    requires StartsWith(s, '/', '*') && ClosesPlainly(s[2..]) && PastClose(s[2..]) != s[2..]
    ensures StripBlocks(StripLines(s)) == StripBlocks(StripLines(PastClose(s[2..])))
  {
    hide ClosesPlainly, PastClose;
    var inner := s[2..];
    BlockCommentKept(inner);
    var tail := StripLines(PastClose(inner));
    var head := UpToClose(inner);
    SameClose(inner, tail);
    OpensKept(s);
    var stripped := StripLines(s);
    assert stripped[2..] == head + tail;
  }

  /** A block comment that closes with a mark of its own and has no dashes inside. */
  predicate PlainComment(s: string) {
    StartsWith(s, '/', '*') && (|s| == 2 || s[2] != '/') && ClosesPlainly(s[2..])
  }

  lemma StripPlainComment(s: string)
    requires PlainComment(s)
    ensures var rest := PastClose(s[2..]);
      && |rest| < |s| && HasCode(s, Normal) == HasCode(rest, Normal)
      && StripBlocks(StripLines(s)) == StripBlocks(StripLines(rest))
  {
    hide HasCode, PastClose, StripBlocks, StripLines;
    EntersBlock(s);
    BlockCommentEnds(s[2..]);
    StripsBlock(s);
  }

  /** The text from the first block comment that is not plain, if one stands before any code. */
  function FirstOdd(s: string): (r: Option<string>)
    ensures r.Some? ==> StartsWith(r.value, '/', '*') && !PlainComment(r.value)
    decreases |s|
  {
    if s == "" then None
    else if StartsWith(s, '-', '-') then FirstOdd(DropLine(s[2..]))
    else if PlainComment(s) then FirstOdd(PastClose(s[2..]))
    else if StartsWith(s, '/', '*') then Some(s)
    else if IsSpace(s[0]) then FirstOdd(s[1..])
    else None
  }

  /** Without the dashes and what follows them on their lines, the comment still closes, and only
      comments follow that close. */
  predicate Swallowed(odd: string)
    requires StartsWith(odd, '/', '*')
  {
    var rest := StripLines(odd[2..]);
    PastClose(rest) != rest && Blank(StripBlocks(PastClose(rest)))
  }

  lemma OddCommentJudged(s: string)
    requires StartsWith(s, '/', '*')
    ensures Blank(StripBlocks(StripLines(s))) <==> Swallowed(s)
  {
    OpensKept(s);
    var stripped, rest := StripLines(s), StripLines(s[2..]);
    assert stripped[2..] == rest && stripped[0] == '/' && stripped[1] == '*';
    if PastClose(rest) == rest {
      assert StripBlocks(stripped)[0] == '/';
    }
  }

  lemma LineJudged(s: string)
    requires StartsWith(s, '-', '-')
    ensures HasCode(s, Normal) == HasCode(DropLine(s[2..]), Normal)
    ensures StripLines(s) == StripLines(DropLine(s[2..]))
  {
    LineCommentEnds(s[1..]);
    assert DropLine(s[1..]) == DropLine(s[2..]) by { assert s[1..][1..] == s[2..]; }
  }

  lemma OtherJudged(s: string)
    requires s != "" && !OpensComment(s)
    ensures Blank(StripBlocks(StripLines(s))) <==> IsSpace(s[0]) && Blank(StripBlocks(StripLines(s[1..])))
  {
    var stripped := StripLines(s);
    assert stripped[1..] == StripLines(s[1..]) && stripped[0] == s[0];
    FirstOfStripped(s[1..]);
    assert !StartsWith(stripped, '/', '*');
    assert StripBlocks(stripped) == [s[0]] + StripBlocks(stripped[1..]);
    if IsSpace(s[0]) {
      BlankCons(s[0], StripBlocks(stripped[1..]));
    } else {
      assert StripBlocks(stripped)[0] == s[0];
    }
  }

  lemma SpaceHasNoCode(s: string)
    requires s != "" && !OpensComment(s)
    ensures HasCode(s, Normal) <==> !IsSpace(s[0]) || HasCode(s[1..], Normal)
  {
  }

  /** How the comment test judges any text: when every block comment before the code is plain, it
      finds only comments exactly when the lexer finds no code; otherwise it depends on the first
      odd comment alone. */
  lemma {:induction false} CommentTest(s: string)
    ensures FirstOdd(s).None? ==> (Blank(StripBlocks(StripLines(s))) <==> !HasCode(s, Normal))
    ensures FirstOdd(s).Some? ==>
      && (Blank(StripBlocks(StripLines(s))) <==> Swallowed(FirstOdd(s).value))
      && HasCode(s, Normal) == HasCode(FirstOdd(s).value, Normal)
    decreases |s|
  {
    hide StripLines, StripBlocks, HasCode, Swallowed, PastClose, ClosesPlainly;
    if s == "" {
      NothingIsOnlyComments();
    } else if StartsWith(s, '-', '-') {
      LineJudged(s);
      CommentTest(DropLine(s[2..]));
    } else if PlainComment(s) {
      StripPlainComment(s);
      CommentTest(PastClose(s[2..]));
    } else if StartsWith(s, '/', '*') {
      OddCommentJudged(s);
    } else {
      OtherJudged(s);
      SpaceHasNoCode(s);
      if IsSpace(s[0]) {
        CommentTest(s[1..]);
      }
    }
  }

  lemma NothingIsOnlyComments()
    ensures StripBlocks(StripLines("")) == "" && !HasCode("", Normal)
  {
  }

  lemma BlankCons(c: char, s: string)
    requires IsSpace(c)
    ensures Blank([c] + s) <==> Blank(s)
  {
    if Blank([c] + s) {
      forall i | 0 <= i < |s| ensures IsSpace(s[i]) { assert ([c] + s)[i + 1] == s[i]; }
    }
  }

  lemma FirstOfStripped(s: string)
    ensures StripLines(s) != "" ==> s != "" && (StripLines(s)[0] == s[0] || StripLines(s)[0] == '\n')
  {
    if StartsWith(s, '-', '-') {
      var rest := DropLine(s[2..]);
      if rest != "" { assert StripLines(rest)[0] == '\n'; }
    }
  }

  lemma TrimmedToNothing(s: string)
    ensures Trim(s) == "" <==> Blank(s)
  {
    TrimIsTrimmed(s);
    if Blank(s) { TrimBlank(s); }
  }

  /** So for every text: it passes for comments exactly when it has no code, or, if an odd comment
      stands before the code, exactly when that comment swallows the rest. */
  lemma OnlyCommentsExactly(s: string)
    ensures IsOnlyComments(s) <==>
      if FirstOdd(s).Some? then Swallowed(FirstOdd(s).value) else !HasCode(s, Normal)
  {
    CommentTest(s);
    TrimmedToNothing(StripBlocks(StripLines(s)));
  }

  /** The test is right about a text if and only if no odd comment stands before the code, or that
      comment swallows the rest exactly when the rest has no code. */
  lemma CommentTestIsRight(s: string)
    ensures (IsOnlyComments(s) <==> !HasCode(s, Normal)) <==>
      (FirstOdd(s).Some? ==> (Swallowed(FirstOdd(s).value) <==> !HasCode(FirstOdd(s).value, Normal)))
  {
    OnlyCommentsExactly(s);
    CommentTest(s);
  }

  /** For the splitter: a segment is dropped if and only if, trimmed, it has no code, or, with an
      odd comment before the code, that comment swallows the rest. */
  lemma DroppedExactly(segment: string)
    ensures var t := Trim(segment);
      Statements([segment]) == [] <==> if FirstOdd(t).Some? then Swallowed(FirstOdd(t).value) else !HasCode(t, Normal)
  {
    OnlyCommentsExactly(Trim(segment));
    hide IsOnlyComments, Swallowed, Trim;
  }

  lemma {:induction false} BalancedAlone(s: string, mode: Mode, current: string)
    requires Balanced(s, mode)
    ensures Segments(s, mode, current) == [current + s]
    decreases |s|
  {
    if s == "" {
      assert current + s == current;
    } else {
      var t := NextToken(s, mode);
      BalancedAlone(s[t.length..], t.mode, current + s[..t.length]);
      assert current + s[..t.length] + s[t.length..] == current + s;
    }
  }

  const CODE := "X\n/**/"
  const COMMENTED_DASHES := "/*--*/" + CODE

  lemma {:induction false} WithoutDashes(s: string)
    requires '-' !in s
    ensures StripLines(s) == s
  {
    if s != "" { WithoutDashes(s[1..]); }
  }

  lemma DashesCut(rest: string)
    ensures StripLines("/*--" + rest) == "/*" + StripLines(DropLine(rest))
  {
    var s := "/*--" + rest;
    var t, u := "*--" + rest, "--" + rest;
    assert s[1..] == t && t[1..] == u && u[2..] == rest;
    assert StripLines(t) == "*" + StripLines(u) && StripLines(s) == "/" + StripLines(t);
  }

  lemma {:induction false} DropsToNewline(a: string, b: string)
    requires '\n' !in a && b != "" && b[0] == '\n'
    ensures DropLine(a + b) == b
  {
    if a == "" {
      assert a + b == b;
    } else {
      assert (a + b)[1..] == a[1..] + b;
      DropsToNewline(a[1..], b);
    }
  }

  lemma DashesSwallowCode()
    ensures StripLines(COMMENTED_DASHES) == "/*\n/**/"
  {
    hide StripLines, DropLine;
    var kept := "\n/**/";
    DashesCut("*/X" + kept);
    DropsToNewline("*/X", kept);
    WithoutDashes(kept);
    assert COMMENTED_DASHES == "/*--" + ("*/X" + kept);
  }

  lemma WhatIsLeftIsOneComment()
    ensures StripBlocks("/*\n/**/") == ""
  {
    var s := "/*\n/**/";
    var t := s[2..];
    assert t == "\n/**/" && t[1..] == "/**/" && t[2..] == "**/" && t[3..] == "*/" && t[5..] == "";
    assert PastClose(t[3..]) == t[5..] by { assert t[3..][2..] == t[5..]; }
    assert PastClose(t[2..]) == "" by { assert t[2..][1..] == t[3..]; }
    assert PastClose(t[1..]) == "" by { assert t[1..][1..] == t[2..]; }
    assert PastClose(t) == "";
  }

  lemma {:induction false} InsideBlock(a: string, b: string)
    requires '*' !in a
    ensures HasCode(a + b, BlockComment) == HasCode(b, BlockComment)
    ensures Balanced(a + b, BlockComment) == Balanced(b, BlockComment)
  {
    if a == "" {
      assert a + b == b;
    } else {
      assert (a + b)[1..] == a[1..] + b;
      InsideBlock(a[1..], b);
    }
  }

  lemma LeavesBlock(s: string)
    requires StartsWith(s, '*', '/')
    ensures HasCode(s, BlockComment) == HasCode(s[2..], Normal)
    ensures Balanced(s, BlockComment) == Balanced(s[2..], Normal)
  {
  }

  lemma DashesAreOneComment(code: string)
    ensures HasCode("/*--*/" + code, Normal) == HasCode(code, Normal)
    ensures Balanced("/*--*/" + code, Normal) == Balanced(code, Normal)
  {
    hide HasCode, Balanced;
    var s := "/*--*/" + code;
    var t := "*/" + code;
    EntersBlock(s);
    InsideBlock("--", t);
    LeavesBlock(t);
    assert t[2..] == code && s[2..] == "--" + t;
  }

  lemma CommentIsBalanced()
    ensures Balanced("**/", BlockComment)
  {
    assert "**/"[1..] == "*/" && "*/"[2..] == "";
    assert Balanced("*/", BlockComment);
  }

  /** One character of code before a balanced text. */
  lemma CodeBefore(c: char, rest: string)
    requires Balanced(rest, Normal) && c !in {'-', '/', '\'', '"', ';'}
    ensures Balanced([c] + rest, Normal) && (!IsSpace(c) ==> HasCode([c] + rest, Normal))
  {
    var s := [c] + rest;
    assert s[1..] == rest && s[0] == c;
  }

  lemma CodeIsBalanced()
    ensures HasCode(CODE, Normal) && Balanced(CODE, Normal)
  {
    CommentIsBalanced();
    assert "/**/"[1..] == "**/" && Balanced("/**/", Normal);
    hide Balanced, HasCode;
    CodeBefore('\n', "/**/");
    CodeBefore('X', "\n/**/");
    assert ['\n'] + "/**/" == "\n/**/" && ['X'] + "\n/**/" == CODE;
  }

  /** The condition on block comments is needed: dashes inside a block comment make the test
      swallow code, and the statement is dropped. */
  lemma CodeCanBeDropped()
    ensures var s := COMMENTED_DASHES;
      Trimmed(s) && HasCode(s, Normal) && Statements(Segments(s, Normal, "")) == []
  {
    var s := COMMENTED_DASHES;
    DashesAreOneComment(CODE);
    CodeIsBalanced();
    DashesSwallowCode();
    WhatIsLeftIsOneComment();
    TrimBlank("");
    BalancedAlone(s, Normal, "");
    assert "" + s == s;
    TrimTrimmed(s);
    hide HasCode, Balanced, StripLines, StripBlocks, Trim, Segments;
  }
}
