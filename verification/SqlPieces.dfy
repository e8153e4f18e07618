/** What a statement is made of, piece by piece: plain text, quoted text and comments. Whatever stands
    inside a quoted text or a comment, the splitter does not cut there. */
module SqlPieces {
  import opened Prelude
  import opened SqlSplitter
  import TextTools

  datatype Piece =
    | Plain(text: string)
    | Quote(mark: char, text: string)
    | Line(text: string)
    | Block(text: string)

  /** Inside a quoted text the mark is written twice. */
  function Doubled(text: string, mark: char): string {
    if text == "" then ""
    else (if text[0] == mark then [mark, mark] else [text[0]]) + Doubled(text[1..], mark)
  }

  function Written(p: Piece): string {
    match p
    case Plain(text) => text
    case Quote(mark, text) => [mark] + Doubled(text, mark) + [mark]
    case Line(text) => "--" + text + "\n"
    case Block(text) => "/*" + text + "*/"
  }

  predicate PairAt(s: string, i: nat, a: char, b: char) {
    i + 1 < |s| && s[i] == a && s[i + 1] == b
  }

  predicate Contains(s: string, a: char, b: char) {
    exists i :: 0 <= i < |s| && PairAt(s, i, a, b)
  }

  /** The pair stands at the front or in the rest. */
  lemma ContainedSomewhere(c: char, s: string, a: char, b: char)
    ensures Contains([c] + s, a, b) <==> Contains(s, a, b) || (s != "" && c == a && s[0] == b)
  {
    var all := [c] + s;
    assert forall i :: 0 <= i < |s| ==> all[i + 1] == s[i];
    if Contains(s, a, b) {
      var i :| 0 <= i < |s| && PairAt(s, i, a, b);
      assert PairAt(all, i + 1, a, b);
    } else if s != "" && c == a && s[0] == b {
      assert PairAt(all, 0, a, b);
    }
    if Contains(all, a, b) {
      var i :| 0 <= i < |all| && PairAt(all, i, a, b);
      assert 0 < i ==> PairAt(s, i - 1, a, b);
    }
  }

  /** Plain text has no quotation mark, no semicolon and no start of a comment, and does not end in half
      of one. A quoted text is any text at all. A line comment has no line break, and a block comment does
      not contain its end. */
  predicate Proper(p: Piece) {
    match p
    case Plain(text) =>
      && (forall c <- text :: c != '\'' && c != '"' && c != ';')
      && !Contains(text, '-', '-') && !Contains(text, '/', '*')
      && (text != "" ==> text[|text| - 1] != '-' && text[|text| - 1] != '/')
    case Quote(mark, _) => mark == '\'' || mark == '"'
    case Line(text) => '\n' !in text
    case Block(text) => !Contains(text, '*', '/') && (text != "" ==> text[0] != '/')
  }

  function WrittenAll(pieces: seq<Piece>): string {
    if pieces == [] then "" else Written(pieces[0]) + WrittenAll(pieces[1..])
  }

  /** Two quoted texts with one mark do not stand side by side: they would read as one. */
  predicate Apart(pieces: seq<Piece>) {
    forall i :: 0 <= i < |pieces| ==> Proper(pieces[i]) && (pieces[i].Quote? ==>
      WrittenAll(pieces[i + 1..]) == "" || WrittenAll(pieces[i + 1..])[0] != pieces[i].mark)
  }

  lemma BalancedStep(s: string, mode: Mode, n: nat, next: Mode)
    requires s != "" && NextToken(s, mode) == Token(n, next, false)
    ensures Balanced(s, mode) <==> Balanced(s[n..], next)
  {
  }

  lemma ShorterIsProper(text: string)
    requires Proper(Plain(text)) && text != ""
    ensures Proper(Plain(text[1..]))
    ensures text[0] != '\'' && text[0] != '"' && text[0] != ';'
    ensures !StartsWith(text, '-', '-') && !StartsWith(text, '/', '*')
    ensures |text| == 1 ==> text[0] != '-' && text[0] != '/'
  {
    var rest := text[1..];
    assert text == [text[0]] + rest;
    ContainedSomewhere(text[0], rest, '-', '-');
    ContainedSomewhere(text[0], rest, '/', '*');
    assert text[0] in text;
    forall c | c in rest ensures c in text {
    }
    hide Contains;
  }

  lemma {:induction false} PlainRead(text: string, rest: string)
    requires Proper(Plain(text))
    ensures Balanced(text + rest, Normal) <==> Balanced(rest, Normal)
  {
    hide Proper, Balanced;
    if text == "" {
      assert text + rest == rest;
    } else {
      var s := text + rest;
      assert s[1..] == text[1..] + rest;
      assert 1 < |text| ==> s[1] == text[1];
      ShorterIsProper(text);
      BalancedStep(s, Normal, 1, Normal);
      PlainRead(text[1..], rest);
    }
  }

  lemma {:induction false} QuoteRead(text: string, mark: char, rest: string)
    requires mark == '\'' || mark == '"'
    requires rest == "" || rest[0] != mark
    ensures Balanced(Doubled(text, mark) + [mark] + rest, Quoted(mark)) <==> Balanced(rest, Normal)
  {
    var s := Doubled(text, mark) + [mark] + rest;
    if text == "" {
      assert s == [mark] + rest && s[1..] == rest;
      BalancedStep(s, Quoted(mark), 1, Normal);
    } else {
      var n := if text[0] == mark then 2 else 1;
      assert s[n..] == Doubled(text[1..], mark) + [mark] + rest;
      BalancedStep(s, Quoted(mark), n, Quoted(mark));
      QuoteRead(text[1..], mark, rest);
    }
  }

  lemma {:induction false} LineRead(text: string, rest: string)
    requires '\n' !in text
    ensures Balanced(text + "\n" + rest, LineComment) <==> Balanced(rest, Normal)
  {
    var s := text + "\n" + rest;
    if text == "" {
      assert s[1..] == rest;
      BalancedStep(s, LineComment, 1, Normal);
    } else {
      assert s[1..] == text[1..] + "\n" + rest && s[0] == text[0] && text[0] in text;
      BalancedStep(s, LineComment, 1, LineComment);
      LineRead(text[1..], rest);
    }
  }

  lemma {:induction false} BlockRead(text: string, rest: string)
    requires !Contains(text, '*', '/')
    ensures Balanced(text + "*/" + rest, BlockComment) <==> Balanced(rest, Normal)
  {
    hide Contains, Balanced;
    var s := text + "*/" + rest;
    if text == "" {
      assert s[2..] == rest;
      BalancedStep(s, BlockComment, 2, Normal);
    } else {
      var shorter := text[1..];
      assert text == [text[0]] + shorter;
      ContainedSomewhere(text[0], shorter, '*', '/');
      assert s[1..] == shorter + "*/" + rest;
      assert s[1] == if 1 < |text| then shorter[0] else '*';
      BalancedStep(s, BlockComment, 1, BlockComment);
      BlockRead(shorter, rest);
    }
  }

  lemma QuotedPiece(mark: char, text: string, rest: string)
    requires Proper(Quote(mark, text)) && (rest == "" || rest[0] != mark)
    ensures Balanced(Written(Quote(mark, text)) + rest, Normal) <==> Balanced(rest, Normal)
  {
    hide Balanced;
    var s := Written(Quote(mark, text)) + rest;
    assert s[1..] == Doubled(text, mark) + [mark] + rest;
    BalancedStep(s, Normal, 1, Quoted(mark));
    QuoteRead(text, mark, rest);
  }

  lemma LinePiece(text: string, rest: string)
    requires Proper(Line(text))
    ensures Balanced(Written(Line(text)) + rest, Normal) <==> Balanced(rest, Normal)
  {
    hide Balanced;
    var s := Written(Line(text)) + rest;
    assert s[1..] == ("-" + text) + "\n" + rest;
    BalancedStep(s, Normal, 1, LineComment);
    LineRead("-" + text, rest);
  }

  lemma BlockPiece(text: string, rest: string)
    requires Proper(Block(text))
    ensures Balanced(Written(Block(text)) + rest, Normal) <==> Balanced(rest, Normal)
  {
    hide Balanced, Contains;
    var s := Written(Block(text)) + rest;
    assert s[1..] == (['*'] + text) + "*/" + rest;
    BalancedStep(s, Normal, 1, BlockComment);
    ContainedSomewhere('*', text, '*', '/');
    BlockRead(['*'] + text, rest);
  }

  lemma PieceRead(p: Piece, rest: string)
    requires Proper(p) && (p.Quote? ==> rest == "" || rest[0] != p.mark)
    ensures Balanced(Written(p) + rest, Normal) <==> Balanced(rest, Normal)
  {
    match p
    case Plain(text) => PlainRead(text, rest);
    case Quote(mark, text) => QuotedPiece(mark, text, rest);
    case Line(text) => LinePiece(text, rest);
    case Block(text) => BlockPiece(text, rest);
    hide Balanced, Contains, Doubled;
  }

  /** A text made of such pieces is one statement to the splitter, whatever its quoted texts and comments
      contain: it is balanced, so it is cut at the semicolon after it and nowhere before. */
  lemma {:induction false} PiecesAreBalanced(pieces: seq<Piece>)
    requires Apart(pieces)
    ensures Balanced(WrittenAll(pieces), Normal)
  {
    if pieces != [] {
      var rest := pieces[1..];
      forall i | 0 <= i < |rest| ensures rest[i] == pieces[i + 1] && rest[i + 1..] == pieces[i + 1 + 1..] {
      }
      PiecesAreBalanced(rest);
      PieceRead(pieces[0], WrittenAll(rest));
    }
    hide Proper, Written;
  }

  /** So any list of statements made of pieces comes back from the splitter as it was written. */
  lemma PiecesComeBack(statements: seq<seq<Piece>>, texts: seq<string>)
    requires |texts| == |statements|
    requires forall k :: 0 <= k < |texts| ==> Apart(statements[k]) && texts[k] == WrittenAll(statements[k])
    requires forall k :: 0 <= k < |texts| ==> texts[k] != "" && TextTools.Trimmed(texts[k]) && !IsOnlyComments(texts[k])
    ensures Statements(Segments(Print(texts), Normal, "")) == texts
  {
    forall k | 0 <= k < |texts| ensures Printable(texts[k]) {
      PiecesAreBalanced(statements[k]);
    }
    PrintThenSplit(texts, "");
    hide Balanced, IsOnlyComments, Statements, Segments, Print, WrittenAll;
  }
}
