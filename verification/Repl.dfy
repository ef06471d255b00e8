/** The command line of the interactive mode is split into words (include/proxchunk/repl.hpp:44-104).

    The reference is a grammar: a line is a list of pieces, possibly followed by a quote that is
    never closed, and the words are what the pieces say. */
module Repl {
  import opened Wrappers

  datatype Piece =
    | Bare(c: char)                    // a character that stands for itself
    | Escaped(c: char)                 // backslash and a character
    | Quoted(q: char, text: string)    // quote, text, the same quote
    | Blank(c: char)

  datatype End = Done | Inside(q: char, tail: string)

  predicate IsQuote(c: char) { c == '\'' || c == '"' }

  predicate IsBlank(c: char) { c == ' ' || c == '\t' || c == '\r' || c == '\n' }

  function PieceText(p: Piece): string {
    match p
    case Bare(c) => [c]
    case Escaped(c) => ['\\', c]
    case Quoted(q, text) => [q] + text + [q]
    case Blank(c) => [c]
  }

  function EndText(e: End): string { if e.Done? then "" else [e.q] + e.tail }

  function LineOf(ps: seq<Piece>, e: End): string {
    if ps == [] then EndText(e) else PieceText(ps[0]) + LineOf(ps[1..], e)
  }

  /** The pieces are as the grammar has them. A backslash stands for itself only at the very end. */
  predicate Grammatical(ps: seq<Piece>, e: End) {
    && (e.Inside? ==> IsQuote(e.q) && e.q !in e.tail)
    && (ps != [] ==>
          && Grammatical(ps[1..], e)
          && match ps[0]
             case Bare(c) => !IsQuote(c) && !IsBlank(c) && (c == '\\' ==> |ps| == 1 && e.Done?)
             case Escaped(_) => true
             case Quoted(q, text) => IsQuote(q) && q !in text
             case Blank(c) => IsBlank(c))
  }

  function Said(p: Piece): string {
    match p
    case Bare(c) => [c]
    case Escaped(c) => [c]
    case Quoted(_, text) => text
    case Blank(_) => ""
  }

  function Flush(cur: Option<string>): seq<string> { if cur.Some? then [cur.value] else [] }

  function Add(cur: Option<string>, text: string): Option<string> {
    Some(if cur.Some? then cur.value + text else text)
  }

  /** The words: what the pieces between blanks say together. */
  function Words(ps: seq<Piece>, cur: Option<string>): seq<string>
    decreases |ps|
  {
    if ps == [] then Flush(cur)
    else if ps[0].Blank? then Flush(cur) + Words(ps[1..], None)
    else Words(ps[1..], Add(cur, Said(ps[0])))
  }

  // ---- reading a line ----

  function Find(s: string, c: char): (n: nat)
    ensures n <= |s| && c !in s[..n] && (n < |s| ==> s[n] == c)
  {
    if s == "" || s[0] == c then 0 else Find(s[1..], c) + 1
  }

  function Pieces(line: string): (seq<Piece>, End)
    decreases |line|, 0
  {
    if line == "" then ([], Done)
    else if IsQuote(line[0]) then
      var n := Find(line[1..], line[0]);
      if n == |line| - 1 then ([], Inside(line[0], line[1..]))
      else Before(Quoted(line[0], line[1..][..n]), line[n + 2..])
    else if line[0] == '\\' && |line| > 1 then Before(Escaped(line[1]), line[2..])
    else if IsBlank(line[0]) then Before(Blank(line[0]), line[1..])
    else Before(Bare(line[0]), line[1..])
  }

  function Before(p: Piece, rest: string): (seq<Piece>, End)
    decreases |rest|, 1
  {
    var (ps, e) := Pieces(rest);
    ([p] + ps, e)
  }

  /** A piece may stand before the rest of a line. */
  predicate Allowed(p: Piece, rest: string) {
    match p
    case Bare(c) => !IsQuote(c) && !IsBlank(c) && (c == '\\' ==> rest == "")
    case Escaped(_) => true
    case Quoted(q, text) => IsQuote(q) && q !in text
    case Blank(c) => IsBlank(c)
  }

  /** What the grammar, the text and the words make of one more piece in front. */
  lemma FrontPiece(p: Piece, ps: seq<Piece>, e: End)
    requires Grammatical(ps, e) && Allowed(p, LineOf(ps, e))
    ensures Grammatical([p] + ps, e) && LineOf([p] + ps, e) == PieceText(p) + LineOf(ps, e)
  {
    var all := [p] + ps;
    assert all[1..] == ps;
    if ps != [] { assert |LineOf(ps, e)| >= |PieceText(ps[0])| >= 1; }
  }

  lemma FrontWords(p: Piece, ps: seq<Piece>, cur: Option<string>)
    ensures Words([p] + ps, cur) == if p.Blank? then Flush(cur) + Words(ps, None) else Words(ps, Add(cur, Said(p)))
  {
    assert ([p] + ps)[1..] == ps;
  }

  /** The line is the text of its pieces. */
  predicate IsRead(line: string) {
    var (ps, e) := Pieces(line);
    Grammatical(ps, e) && LineOf(ps, e) == line
  }

  lemma BeforeSound(p: Piece, rest: string)
    requires IsRead(rest) && Allowed(p, rest)
    ensures var (ps, e) := Before(p, rest); Grammatical(ps, e) && LineOf(ps, e) == PieceText(p) + rest
  {
    var (ps, e) := Pieces(rest);
    FrontPiece(p, ps, e);
  }

  lemma FindIs(text: string, c: char, rest: string)
    requires c !in text
    ensures Find(text + rest, c) == |text| + Find(rest, c)
  {
    if text == "" {
      assert text + rest == rest;
    } else {
      assert (text + rest)[1..] == text[1..] + rest;
      FindIs(text[1..], c, rest);
    }
  }

  lemma QuotedFirst(q: char, text: string, rest: string)
    requires IsQuote(q) && q !in text
    ensures Pieces([q] + text + [q] + rest) == Before(Quoted(q, text), rest)
  {
    var line := [q] + text + [q] + rest;
    assert line[1..] == text + ([q] + rest);
    FindIs(text, q, [q] + rest);
    assert line[1..][..|text|] == text && line[|text| + 2..] == rest;
  }

  lemma ShortFirst(p: Piece, rest: string)
    requires !p.Quoted? && Allowed(p, rest)
    ensures Pieces(PieceText(p) + rest) == Before(p, rest)
  {
    var line := PieceText(p) + rest;
    assert line[|PieceText(p)|..] == rest;
  }

  lemma FirstSound(p: Piece, rest: string)
    requires IsRead(rest) && Allowed(p, rest)
    ensures IsRead(PieceText(p) + rest)
  {
    BeforeSound(p, rest);
    if p.Quoted? {
      QuotedFirst(p.q, p.text, rest);
    } else {
      ShortFirst(p, rest);
    }
  }

  lemma CutQuoted(line: string, n: nat)
    requires line != "" && n == Find(line[1..], line[0]) < |line| - 1
    ensures line[0] !in line[1..][..n]
    ensures line == PieceText(Quoted(line[0], line[1..][..n])) + line[n + 2..]
  {
    var text := line[1..][..n];
    assert line == [line[0]] + text + [line[0]] + line[n + 2..];
  }

  /** Every line has pieces. */
  lemma {:induction false} PiecesSound(line: string)
    ensures IsRead(line)
    decreases |line|
  {
    if line == "" {
    } else if IsQuote(line[0]) {
      var n := Find(line[1..], line[0]);
      if n < |line| - 1 {
        CutQuoted(line, n);
        PiecesSound(line[n + 2..]);
        FirstSound(Quoted(line[0], line[1..][..n]), line[n + 2..]);
      }
    } else if line[0] == '\\' && |line| > 1 {
      PiecesSound(line[2..]);
      FirstSound(Escaped(line[1]), line[2..]);
      assert line == ['\\', line[1]] + line[2..];
    } else {
      PiecesSound(line[1..]);
      FirstSound(if IsBlank(line[0]) then Blank(line[0]) else Bare(line[0]), line[1..]);
      assert line == [line[0]] + line[1..];
    }
  }

  /** No line has two readings. */
  lemma {:induction false} PiecesUnique(ps: seq<Piece>, e: End)
    requires Grammatical(ps, e)
    ensures Pieces(LineOf(ps, e)) == (ps, e)
    decreases |ps|
  {
    if ps == [] {
      if e.Inside? {
        assert EndText(e)[1..] == e.tail == e.tail + "";
        FindIs(e.tail, e.q, "");
      }
    } else {
      var rest := LineOf(ps[1..], e);
      PiecesUnique(ps[1..], e);
      assert [ps[0]] + ps[1..] == ps;
      assert Before(ps[0], rest) == (ps, e);
      if ps[0].Quoted? {
        QuotedFirst(ps[0].q, ps[0].text, rest);
      } else {
        ShortFirst(ps[0], rest);
      }
    }
  }

  // ---- the program's loop ----

  /** What the loop still has to do, from position i on with the given token under construction. */
  function Outcome(done: seq<string>, cur: Option<string>, rest: string): (seq<string>, bool) {
    OutcomeOf(done, cur, Pieces(rest))
  }

  function OutcomeOf(done: seq<string>, cur: Option<string>, read: (seq<Piece>, End)): (seq<string>, bool) {
    if read.1.Inside? then ([], true) else (done + Words(read.0, cur), false)
  }

  /** The same, inside a quotation. */
  function QuotedOutcome(done: seq<string>, cur: string, q: char, rest: string): (seq<string>, bool) {
    var n := Find(rest, q);
    if n == |rest| then ([], true) else Outcome(done, Some(cur + rest[..n]), rest[n + 1..])
  }

  lemma QuotedStep(done: seq<string>, cur: string, q: char, rest: string)
    requires rest != ""
    ensures rest[0] == q ==> QuotedOutcome(done, cur, q, rest) == Outcome(done, Some(cur), rest[1..])
    ensures rest[0] != q ==> QuotedOutcome(done, cur, q, rest) == QuotedOutcome(done, cur + [rest[0]], q, rest[1..])
  {
    var n := Find(rest, q);
    if rest[0] == q {
      assert cur + rest[..0] == cur;
    } else if n < |rest| {
      assert cur + rest[..n] == cur + [rest[0]] + rest[1..][..n - 1];
      assert rest[n + 1..] == rest[1..][n..];
    }
  }

  lemma OutcomeFront(done: seq<string>, cur: Option<string>, p: Piece, ps: seq<Piece>, e: End)
    ensures OutcomeOf(done, cur, ([p] + ps, e))
         == if p.Blank? then OutcomeOf(done + Flush(cur), None, (ps, e)) else OutcomeOf(done, Add(cur, Said(p)), (ps, e))
  {
    FrontWords(p, ps, cur);
    if p.Blank? {
      assert done + (Flush(cur) + Words(ps, None)) == done + Flush(cur) + Words(ps, None);
    }
  }

  lemma OutcomeBefore(done: seq<string>, cur: Option<string>, p: Piece, rest: string)
    ensures OutcomeOf(done, cur, Before(p, rest))
         == if p.Blank? then Outcome(done + Flush(cur), None, rest) else Outcome(done, Add(cur, Said(p)), rest)
  {
    var (ps, e) := Pieces(rest);
    OutcomeFront(done, cur, p, ps, e);
  }

  lemma FindsQuote(q: char, text: string, rest: string)
    requires q !in text
    ensures var s := text + ([q] + rest);
            Find(s, q) == |text| < |s| && s[..|text|] == text && s[|text| + 1..] == rest
  {
    FindIs(text, q, [q] + rest);
  }

  lemma AddAfterQuote(cur: Option<string>, text: string)
    ensures Some(Add(cur, "").value + text) == Add(cur, text)
  {
    if cur.Some? { assert cur.value + "" + text == cur.value + text; } else { assert "" + text == text; }
  }

  /** A quotation that is closed, seen from before it and from inside it. */
  lemma ClosedQuote(done: seq<string>, cur: Option<string>, q: char, text: string, rest: string)
    requires IsQuote(q) && q !in text
    ensures Outcome(done, cur, [q] + text + [q] + rest) == Outcome(done, Add(cur, text), rest)
    ensures QuotedOutcome(done, Add(cur, "").value, q, text + ([q] + rest)) == Outcome(done, Add(cur, text), rest)
  {
    QuotedFirst(q, text, rest);
    OutcomeBefore(done, cur, Quoted(q, text), rest);
    FindsQuote(q, text, rest);
    AddAfterQuote(cur, text);
  }

  lemma NeverClosed(done: seq<string>, cur: Option<string>, line: string)
    requires line != "" && IsQuote(line[0]) && Find(line[1..], line[0]) == |line| - 1
    ensures Outcome(done, cur, line) == ([], true)
    ensures QuotedOutcome(done, Add(cur, "").value, line[0], line[1..]) == ([], true)
  {
  }

  lemma AfterCut(line: string, n: nat, text: string, rest: string)
    requires line != "" && n == Find(line[1..], line[0]) < |line| - 1 && text == line[1..][..n] && rest == line[n + 2..]
    ensures line[0] !in text && line == [line[0]] + text + [line[0]] + rest && line[1..] == text + ([line[0]] + rest)
  {
  }

  lemma OpenQuote(done: seq<string>, cur: Option<string>, line: string)
    requires line != "" && IsQuote(line[0])
    ensures Outcome(done, cur, line) == QuotedOutcome(done, Add(cur, "").value, line[0], line[1..])
  {
    var n := Find(line[1..], line[0]);
    if n == |line| - 1 {
      NeverClosed(done, cur, line);
    } else {
      AfterCut(line, n, line[1..][..n], line[n + 2..]);
      ClosedQuote(done, cur, line[0], line[1..][..n], line[n + 2..]);
    }
  }

  lemma EscapeStep(done: seq<string>, cur: Option<string>, rest: string)
    requires |rest| > 1 && rest[0] == '\\'
    ensures Outcome(done, cur, rest) == Outcome(done, Add(cur, [rest[1]]), rest[2..])
  {
    OutcomeBefore(done, cur, Escaped(rest[1]), rest[2..]);
  }

  lemma PlainStep(done: seq<string>, cur: Option<string>, rest: string)
    requires rest != "" && !IsQuote(rest[0]) && !(rest[0] == '\\' && |rest| > 1)
    ensures Outcome(done, cur, rest)
         == if IsBlank(rest[0]) then Outcome(done + Flush(cur), None, rest[1..])
            else Outcome(done, Add(cur, [rest[0]]), rest[1..])
  {
    OutcomeBefore(done, cur, if IsBlank(rest[0]) then Blank(rest[0]) else Bare(rest[0]), rest[1..]);
  }

  /** tokenize_repl_line: the words of the line, or an error exactly if the line ends inside a
      quotation. */
  method Tokenize(line: string) returns (words: seq<string>, err: bool)
    ensures var (ps, e) := Pieces(line);
            err == e.Inside? && words == if err then [] else Words(ps, None)
  {
    var out: seq<string>, cur, inToken, quote: Option<char> := [], "", false, None;
    var i := 0;
    assert line[0..] == line;
    while i < |line|
      invariant 0 <= i <= |line| && (!inToken ==> cur == "") && (quote.Some? ==> inToken)
      invariant Outcome([], None, line) ==
                match quote
                case None => Outcome(out, if inToken then Some(cur) else None, line[i..])
                case Some(q) => QuotedOutcome(out, cur, q, line[i..])
    {
      var c := line[i];
      assert line[i..][1..] == line[i + 1..] && cur + "" == cur && "" + [c] == [c] && out + [] == out;
      if quote.Some? {
        QuotedStep(out, cur, quote.value, line[i..]);
        if c == quote.value {
          quote := None;
        } else {
          cur := cur + [c];
        }
        i := i + 1;
        continue;
      }
      if c == '\\' && i + 1 < |line| {
        assert line[i..][2..] == line[i + 2..] && "" + [line[i + 1]] == [line[i + 1]];
        EscapeStep(out, if inToken then Some(cur) else None, line[i..]);
        inToken := true;
        cur := cur + [line[i + 1]];
        i := i + 2;
        continue;
      }
      if c == '\'' || c == '"' {
        OpenQuote(out, if inToken then Some(cur) else None, line[i..]);
        inToken := true;
        quote := Some(c);
        i := i + 1;
        continue;
      }
      PlainStep(out, if inToken then Some(cur) else None, line[i..]);
      if c == ' ' || c == '\t' || c == '\r' || c == '\n' {
        if inToken {
          out, cur, inToken := out + [cur], "", false;
        }
      } else {
        inToken := true;
        cur := cur + [c];
      }
      i := i + 1;
    }
    assert line[i..] == "" && [] + out == out && out + [] == out;
    if quote.Some? {
      return [], true;
    }
    if inToken {
      out := out + [cur];
    }
    return out, false;
  }

  // ---- printing words so that they are read back ----

  function EscapedPieces(w: string): seq<Piece> {
    seq(|w|, i requires 0 <= i < |w| => Escaped(w[i]))
  }

  function WordPieces(w: string): seq<Piece> { if w == "" then [Quoted('"', "")] else EscapedPieces(w) }

  function PrintPieces(words: seq<string>): seq<Piece> {
    if words == [] then []
    else if |words| == 1 then WordPieces(words[0])
    else WordPieces(words[0]) + [Blank(' ')] + PrintPieces(words[1..])
  }

  /** A backslash before every character. */
  function Escape(w: string): string {
    if w == "" then "" else ['\\', w[0]] + Escape(w[1..])
  }

  /** The printed line: escaped words, an empty one as a pair of quotes, with spaces between. */
  function Print(words: seq<string>): string {
    if words == [] then ""
    else
      PrintWord(words[0])
      + (if |words| == 1 then "" else " " + Print(words[1..]))
  }

  lemma OneMoreEscaped(w: string, more: seq<Piece>)
    requires w != ""
    ensures EscapedPieces(w) + more == [Escaped(w[0])] + (EscapedPieces(w[1..]) + more)
  {
  }

  lemma {:induction false} LineOfEscaped(w: string, more: seq<Piece>)
    requires Grammatical(more, Done)
    ensures Grammatical(EscapedPieces(w) + more, Done)
    ensures LineOf(EscapedPieces(w) + more, Done) == Escape(w) + LineOf(more, Done)
    decreases |w|
  {
    if w == "" {
      assert EscapedPieces(w) + more == more;
    } else {
      LineOfEscaped(w[1..], more);
      OneMoreEscaped(w, more);
      FrontPiece(Escaped(w[0]), EscapedPieces(w[1..]) + more, Done);
    }
  }

  lemma AddInParts(cur: Option<string>, w: string)
    ensures w == "" && cur.Some? ==> Add(cur, w) == cur
    ensures w != "" ==> Add(Add(cur, [w[0]]), w[1..]) == Add(cur, w)
  {
    if w != "" {
      assert w == [w[0]] + w[1..];
      if cur.Some? { assert cur.value + [w[0]] + w[1..] == cur.value + w; }
    } else if cur.Some? {
      assert cur.value + w == cur.value;
    }
  }

  lemma {:induction false} WordsOfEscaped(w: string, more: seq<Piece>, cur: Option<string>)
    requires w != "" || cur.Some?
    ensures Words(EscapedPieces(w) + more, cur) == Words(more, Add(cur, w))
    decreases |w|
  {
    AddInParts(cur, w);
    if w == "" {
      assert EscapedPieces(w) + more == more;
    } else {
      var rest := EscapedPieces(w[1..]) + more;
      WordsOfEscaped(w[1..], more, Add(cur, [w[0]]));
      OneMoreEscaped(w, more);
      FrontWords(Escaped(w[0]), rest, cur);
    }
  }

  /** The text that stands for a word. */
  function PrintWord(w: string): string { if w == "" then "\"\"" else Escape(w) }

  lemma WordPiecesAre(w: string, more: seq<Piece>)
    requires Grammatical(more, Done)
    ensures Grammatical(WordPieces(w) + more, Done)
    ensures LineOf(WordPieces(w) + more, Done) == PrintWord(w) + LineOf(more, Done)
    ensures Words(WordPieces(w) + more, None) == Words(more, Some(w))
  {
    if w == "" {
      FrontPiece(Quoted('"', ""), more, Done);
      FrontWords(Quoted('"', ""), more, None);
    } else {
      LineOfEscaped(w, more);
      WordsOfEscaped(w, more, None);
    }
  }

  /** The pieces stand for the line, and say the words. */
  predicate Stands(ps: seq<Piece>, line: string, words: seq<string>) {
    Grammatical(ps, Done) && LineOf(ps, Done) == line && Words(ps, None) == words
  }

  lemma LastWord(w: string)
    ensures Stands(WordPieces(w), PrintWord(w), [w])
  {
    WordPiecesAre(w, []);
    assert WordPieces(w) + [] == WordPieces(w) && PrintWord(w) + "" == PrintWord(w);
  }

  lemma OneMoreWord(w: string, ps: seq<Piece>, line: string, words: seq<string>)
    requires Stands(ps, line, words)
    ensures Stands(WordPieces(w) + [Blank(' ')] + ps, PrintWord(w) + (" " + line), [w] + words)
  {
    var more := [Blank(' ')] + ps;
    FrontPiece(Blank(' '), ps, Done);
    FrontWords(Blank(' '), ps, Some(w));
    WordPiecesAre(w, more);
    assert WordPieces(w) + more == WordPieces(w) + [Blank(' ')] + ps;
  }

  lemma {:induction false} PrintIsRead(words: seq<string>)
    ensures Stands(PrintPieces(words), Print(words), words)
    decreases |words|
  {
    if |words| == 1 {
      LastWord(words[0]);
      assert words == [words[0]] && PrintWord(words[0]) + "" == PrintWord(words[0]);
    } else if |words| > 1 {
      PrintIsRead(words[1..]);
      OneMoreWord(words[0], PrintPieces(words[1..]), Print(words[1..]), words[1..]);
      assert words == [words[0]] + words[1..];
    }
  }

  /** Every list of words, printed, is read back as that list. */
  lemma PrintRoundTrip(words: seq<string>)
    ensures Pieces(Print(words)).1.Done? && Words(Pieces(Print(words)).0, None) == words
  {
    PrintIsRead(words);
    PiecesUnique(PrintPieces(words), Done);
  }

  // ---- what a user can rely on ----

  /** The words of a line; none if it is an error. */
  function Read(line: string): Option<seq<string>> {
    var (ps, e) := Pieces(line);
    if e.Inside? then None else Some(Words(ps, None))
  }

  /** A word in quotes, single or double, is taken as it stands, whatever else is in it. */
  lemma QuotedIsOneWord(q: char, w: string)
    requires (q == '\'' || q == '"') && q !in w
    ensures Read([q] + w + [q]) == Some([w])
  {
    QuotedFirst(q, w, "");
    assert [q] + w + [q] + "" == [q] + w + [q];
    FrontWords(Quoted(q, w), [], None);
  }

  /** So is a word without quotes, blanks and backslashes. */
  lemma PlainIsOneWord(w: string)
    requires w != "" && forall i :: 0 <= i < |w| ==> w[i] !in {'\'', '"', '\\', ' ', '\t', '\r', '\n'}
    ensures Read(w) == Some([w])
  {
    PlainPieces(w, None);
  }

  lemma {:induction false} PlainPieces(w: string, cur: Option<string>)
    requires forall i :: 0 <= i < |w| ==> w[i] !in {'\'', '"', '\\', ' ', '\t', '\r', '\n'}
    ensures Pieces(w).1 == Done && Words(Pieces(w).0, cur) == if w == "" then Flush(cur) else [Add(cur, w).value]
    decreases |w|
  {
    if w != "" {
      var c, rest := w[0], w[1..];
      PlainPieces(rest, Add(cur, [c]));
      FrontWords(Bare(c), Pieces(rest).0, cur);
      AddInParts(cur, w);
      if rest == "" { AddInParts(Add(cur, [c]), ""); }
    }
  }

  predicate IsComplete(ps: seq<Piece>) { forall i :: 0 <= i < |ps| ==> ps[i] != Bare('\\') }

  /** A piece that may stand before some line may stand before any, unless it is a single backslash. */
  lemma FirstIsAllowed(ps: seq<Piece>, e: End, rest: string)
    requires ps != [] && Grammatical(ps, e) && ps[0] != Bare('\\')
    ensures Allowed(ps[0], rest)
  {
  }

  lemma OnePieceMore(p: Piece, ps: seq<Piece>, all: seq<Piece>, back: string, e: End)
    requires Grammatical(ps, Done) && Allowed(p, LineOf(ps, Done)) && Grammatical(all, e) && Allowed(p, LineOf(all, e))
    requires LineOf(all, e) == LineOf(ps, Done) + back
    ensures Grammatical([p] + all, e) && LineOf([p] + all, e) == LineOf([p] + ps, Done) + back
  {
    FrontPiece(p, all, e);
    FrontPiece(p, ps, Done);
    InTurn(PieceText(p), LineOf(ps, Done), back);
  }

  lemma JoinFront(ps: seq<Piece>, more: seq<Piece>, e: End)
    requires ps != [] && Grammatical(ps, Done) && ps[0] != Bare('\\')
    requires var all := ps[1..] + more; Grammatical(all, e) && LineOf(all, e) == LineOf(ps[1..], Done) + LineOf(more, e)
    ensures Grammatical(ps + more, e) && LineOf(ps + more, e) == LineOf(ps, Done) + LineOf(more, e)
  {
    var p, rest := ps[0], ps[1..];
    FirstIsAllowed(ps, Done, LineOf(rest, Done));
    FirstIsAllowed(ps, Done, LineOf(rest + more, e));
    OnePieceMore(p, rest, rest + more, LineOf(more, e), e);
    assert [p] + rest == ps;
    assert ps + more == [p] + (rest + more);
  }

  lemma {:induction false} JoinPieces(ps: seq<Piece>, more: seq<Piece>, e: End)
    requires Grammatical(ps, Done) && Grammatical(more, e) && IsComplete(ps)
    ensures Grammatical(ps + more, e) && LineOf(ps + more, e) == LineOf(ps, Done) + LineOf(more, e)
    decreases |ps|
  {
    if ps == [] {
      assert ps + more == more;
    } else {
      JoinPieces(ps[1..], more, e);
      JoinFront(ps, more, e);
    }
  }

  lemma InTurn(a: string, b: string, c: string)
    ensures a + (b + c) == a + b + c
  {
  }

  lemma WordsFirst(p: Piece, ps: seq<Piece>, cur: Option<string>, back: seq<string>, all: seq<Piece>)
    requires p.Blank? ==> Words(all, None) == Words(ps, None) + back
    requires !p.Blank? ==> Words(all, Add(cur, Said(p))) == Words(ps, Add(cur, Said(p))) + back
    ensures Words([p] + all, cur) == Words([p] + ps, cur) + back
  {
    FrontWords(p, ps, cur);
    FrontWords(p, all, cur);
    if p.Blank? { assert Flush(cur) + (Words(ps, None) + back) == Flush(cur) + Words(ps, None) + back; }
  }

  lemma {:induction false} JoinWords(ps: seq<Piece>, qs: seq<Piece>, cur: Option<string>, b: char)
    ensures Words(ps + ([Blank(b)] + qs), cur) == Words(ps, cur) + Words(qs, None)
    decreases |ps|
  {
    var more := [Blank(b)] + qs;
    if ps == [] {
      assert ps + more == more;
      FrontWords(Blank(b), qs, cur);
    } else {
      JoinWords(ps[1..], qs, if ps[0].Blank? then None else Add(cur, Said(ps[0])), b);
      WordsFirst(ps[0], ps[1..], cur, Words(qs, None), ps[1..] + more);
      assert ps + more == [ps[0]] + (ps[1..] + more);
      assert ps == [ps[0]] + ps[1..];
    }
  }

  /** A space, tab, return or newline after a line that is no error separates its words from those of
      what follows, unless the line ends in a single backslash. */
  lemma BlankSeparates(front: string, b: char, rest: string)
    requires b in {' ', '\t', '\r', '\n'} && Read(front).Some? && IsComplete(Pieces(front).0)
    ensures Read(front + [b] + rest)
            == if Read(rest).None? then None else Some(Read(front).value + Read(rest).value)
  {
    PiecesSound(front);
    PiecesSound(rest);
    var ps := Pieces(front).0;
    var (qs, e) := Pieces(rest);
    FrontPiece(Blank(b), qs, e);
    JoinPieces(ps, [Blank(b)] + qs, e);
    JoinWords(ps, qs, None, b);
    PiecesUnique(ps + ([Blank(b)] + qs), e);
    assert front + [b] + rest == front + ([b] + rest);
  }

  predicate ReadsAs(line: string, ps: seq<Piece>, e: End) { Grammatical(ps, e) && line == LineOf(ps, e) }

  /** A line is an error exactly if some quotation in it is opened and never closed. */
  lemma UnmatchedExactly(line: string)
    ensures Pieces(line).1.Inside? <==> exists ps, e: End :: ReadsAs(line, ps, e) && e.Inside?
  {
    PiecesSound(line);
    assert ReadsAs(line, Pieces(line).0, Pieces(line).1);
    forall ps, e: End | ReadsAs(line, ps, e)
      ensures Pieces(line) == (ps, e)
    {
      PiecesUnique(ps, e);
    }
  }
}
