/** `copyEscapedString` of lexer.l: quotes and backslashes are taken out of a token's text. */
module Escapes {
  import opened Scanning
  import opened ShellLexer
  import opened WordAutomaton

  predicate IsQuote(c: char) { c == '"' || c == '\'' }

  /** The text without its quoting, read from left to right; `quote` is the open quote or NUL. */
  function Unquote(z: seq<char>, quote: char): (r: seq<char>)
    ensures |r| <= |z|
    ensures NoNul(z) ==> NoNul(r)
  {
    if z == [] then []
    else if z[0] == quote then Unquote(z[1..], NUL)
    else if IsQuote(z[0]) && quote == NUL then Unquote(z[1..], z[0])
    else if z[0] == '\\' && quote == NUL then
      if |z| == 1 then [] else [z[1]] + Unquote(z[2..], NUL)
    else [z[0]] + Unquote(z[1..], quote)
  }

  /* ---- what quoting means ---- */

  /** The pieces of a text: a character that stands for itself, one behind a backslash, and a quoted part. */
  datatype Piece = Bare(c: char) | Escape(c: char) | Quoted(q: char, s: seq<char>)

  predicate IsPiece(p: Piece) {
    match p
    case Bare(c) => c != '"' && c != '\'' && c != '\\' && c != NUL
    case Escape(c) => c != NUL
    case Quoted(q, s) => (q == '"' || q == '\'') && q !in s && NoNul(s)
  }

  predicate ArePieces(ps: seq<Piece>) { forall i | 0 <= i < |ps| :: IsPiece(ps[i]) }

  function PieceText(p: Piece): seq<char> {
    match p
    case Bare(c) => [c]
    case Escape(c) => ['\\', c]
    case Quoted(q, s) => [q] + s + [q]
  }

  function PieceMeans(p: Piece): seq<char> {
    match p
    case Bare(c) => [c]
    case Escape(c) => [c]
    case Quoted(_, s) => s
  }

  function Written(ps: seq<Piece>): seq<char> { if ps == [] then [] else PieceText(ps[0]) + Written(ps[1..]) }

  function Meant(ps: seq<Piece>): seq<char> { if ps == [] then [] else PieceMeans(ps[0]) + Meant(ps[1..]) }

  /** How a text may break off: at a backslash, or in a part whose quote is not closed. */
  predicate IsTail(tail: seq<char>) {
    tail == [] || tail == ['\\'] || ((tail[0] == '"' || tail[0] == '\'') && tail[0] !in tail[1..] && NoNul(tail))
  }

  function TailMeans(tail: seq<char>): seq<char>
    requires IsTail(tail)
  {
    if tail == [] || tail == ['\\'] then [] else tail[1..]
  }

  /** Up to its closing quote a text is kept as it is. */
  lemma {:induction false} InsideQuotes(q: char, s: seq<char>, rest: seq<char>)
    requires q != NUL && q !in s
    ensures Unquote(s + rest, q) == s + Unquote(rest, q)
  {
    if s == [] {
      assert s + rest == rest;
    } else {
      assert s[0] in s;
      assert (s + rest)[1..] == s[1..] + rest;
      InsideQuotes(q, s[1..], rest);
    }
  }

  /** Quotes of either kind come off, and what they enclose stays, backslashes and the other quote included. */
  lemma QuotesComeOff(q: char, s: seq<char>, rest: seq<char>)
    requires (q == '"' || q == '\'') && q !in s
    ensures Unquote([q] + s + [q] + rest, NUL) == s + Unquote(rest, NUL)
  {
    var z := [q] + s + [q] + rest;
    assert z[1..] == s + ([q] + rest);
    InsideQuotes(q, s, [q] + rest);
    assert ([q] + rest)[1..] == rest;
  }

  lemma PieceComesOff(p: Piece, rest: seq<char>)
    requires IsPiece(p)
    ensures Unquote(PieceText(p) + rest, NUL) == PieceMeans(p) + Unquote(rest, NUL)
  {
    match p
    case Bare(c) => assert ([c] + rest)[1..] == rest;
    case Escape(c) => assert (['\\', c] + rest)[2..] == rest;
    case Quoted(q, s) => QuotesComeOff(q, s, rest);
  }

  /** Every text of pieces stands for what its pieces stand for, in order, also where it breaks off. */
  lemma {:induction false} PiecesComeOff(ps: seq<Piece>, tail: seq<char>)
    requires ArePieces(ps) && IsTail(tail)
    ensures Unquote(Written(ps) + tail, NUL) == Meant(ps) + TailMeans(tail)
    decreases |ps|
  {
    hide Unquote, IsPiece, PieceText, PieceMeans;
    if ps == [] {
      TailComesOff(tail);
      assert Written(ps) + tail == tail;
    } else {
      assert Written(ps) + tail == PieceText(ps[0]) + (Written(ps[1..]) + tail);
      PieceComesOff(ps[0], Written(ps[1..]) + tail);
      PiecesComeOff(ps[1..], tail);
    }
  }

  lemma TailComesOff(tail: seq<char>)
    requires IsTail(tail)
    ensures Unquote(tail, NUL) == TailMeans(tail)
  {
    if tail != [] && tail != ['\\'] {
      var s := tail[1..];
      assert tail == [tail[0]] + s && tail[0] in tail;
      InsideQuotes(tail[0], s, []);
      assert s + [] == s;
    }
  }

  /** There is no other text: each is made of pieces up to where it breaks off. */
  lemma {:induction false} EveryText(z: seq<char>) returns (ps: seq<Piece>, tail: seq<char>)
    requires NoNul(z)
    ensures ArePieces(ps) && IsTail(tail) && z == Written(ps) + tail
    decreases |z|
  {
    hide NoNul, PieceText, IsPiece, IsTail;
    ps, tail := [], z;
    if IsTail(z) {
      assert z == Written([]) + z;
    } else {
      var p := FirstPiece(z);
      var n := |PieceText(p)|;
      NoNulBehind(z, n);
      var more;
      more, tail := EveryText(z[n..]);
      ps := [p] + more;
      OnePieceMore(p, more, tail);
      assert z == z[..n] + z[n..];
    }
  }

  lemma NoNulBehind(z: seq<char>, n: nat)
    requires NoNul(z) && n <= |z|
    ensures NoNul(z[n..])
  {
  }

  lemma OnePieceMore(p: Piece, more: seq<Piece>, tail: seq<char>)
    requires IsPiece(p) && ArePieces(more)
    ensures ArePieces([p] + more) && Written([p] + more) + tail == PieceText(p) + (Written(more) + tail)
  {
    hide IsPiece, PieceText;
    assert ([p] + more)[1..] == more;
  }

  lemma FirstPiece(z: seq<char>) returns (p: Piece)
    requires NoNul(z) && !IsTail(z)
    ensures IsPiece(p) && 0 < |PieceText(p)| <= |z| && z[..|PieceText(p)|] == PieceText(p)
  {
    if z[0] == '\\' {
      assert z[1] in z;
      p := Escape(z[1]);
    } else if z[0] == '"' || z[0] == '\'' {
      var i := ClosingQuote(z);
      p := Quoted(z[0], z[1..i]);
      assert z[..i + 1] == [z[0]] + z[1..i] + [z[0]];
    } else {
      assert z[0] in z;
      p := Bare(z[0]);
    }
  }

  lemma ClosingQuote(z: seq<char>) returns (i: nat)
    requires z != [] && z[0] in z[1..]
    ensures 0 < i < |z| && z[i] == z[0] && z[0] !in z[1..i]
  {
    var k :| 1 <= k < |z| && z[1..][k - 1] == z[0];
    i := 1;
    while z[i] != z[0]
      invariant 0 < i <= k && forall m | 1 <= m < i :: z[m] != z[0]
      decreases k - i
    {
      i := i + 1;
    }
  }

  /**
   The scanner lets a backslash escape a quote inside quotes, the copy does not: the word `"a\"b"` is one word, and
   its copy keeps the backslash and loses the inner quote.
   */
  lemma BackslashInsideQuotes()
    ensures IsWord("\"a\\\"b\"") && Unquote("\"a\\\"b\"", NUL) == "a\\b"
  {
    QuotedIsWord();
    hide IsWord, Unquote, ClosesQuote;
    QuotedIsWritten();
    PiecesComeOff([Quoted('"', "a\\"), Bare('b')], "\"");
  }

  lemma QuotedIsWord()
    ensures IsWord("\"a\\\"b\"")
  {
    var z := "\"a\\\"b\"";
    assert z[1..] == "a\\\"b\"" && z[1..][1..] == "\\\"b\"" && z[1..][1..][2..] == "b\"";
    assert "b\""[1..] == "\"" && "\""[1..] == "";
  }

  lemma QuotedIsWritten()
    ensures var ps := [Quoted('"', "a\\"), Bare('b')];
      && "\"a\\\"b\"" == Written(ps) + "\"" && ArePieces(ps) && IsTail("\"")
      && Meant(ps) + TailMeans("\"") == "a\\b"
  {
    var ps := [Quoted('"', "a\\"), Bare('b')];
    assert ps[1..] == [Bare('b')] && [Bare('b')][1..] == [];
    assert Written([Bare('b')]) == "b" && Meant([Bare('b')]) == "b";
  }

  /* ---- the copy ---- */

  /** `text` stands at the start of the buffer, NUL-terminated. */
  ghost predicate CString(b: seq<char>, text: seq<char>) {
    |text| < |b| && b[..|text|] == text && b[|text|] == NUL
  }

  /** The source character at `i`: the text, then its terminator. */
  function At(text: seq<char>, i: nat): char { if i < |text| then text[i] else NUL }

  /** The copy so far: what is in `dest`, then the unquoted rest, is the unquoted text. */
  ghost predicate Progress(text: seq<char>, dest: seq<char>, iDest: nat, iSrc: nat, quote: char) {
    && |dest| == |text| + 1 && iDest <= iSrc <= |text| + 1
    && if iSrc <= |text| then
         && dest[..iDest] + Unquote(text[iSrc..], quote) == Unquote(text, NUL)
         && forall j | iDest <= j < |dest| :: dest[j] == NUL
       else CString(dest, Unquote(text, NUL))
  }

  lemma QuoteCloses(text: seq<char>, dest: seq<char>, iDest: nat, iSrc: nat, quote: char)
    requires Progress(text, dest, iDest, iSrc, quote) && iSrc <= |text| && At(text, iSrc) == quote && NoNul(text)
    ensures Progress(text, dest, iDest, iSrc + 1, NUL)
  {
    if iSrc < |text| {
      assert text[iSrc] in text;
      assert text[iSrc..][1..] == text[iSrc + 1..];
    } else {
      assert text[iSrc..] == [];
      assert dest[..iDest] == Unquote(text, NUL);
    }
  }

  lemma QuoteOpens(text: seq<char>, dest: seq<char>, iDest: nat, iSrc: nat)
    requires Progress(text, dest, iDest, iSrc, NUL) && iSrc <= |text| && IsQuote(At(text, iSrc))
    ensures Progress(text, dest, iDest, iSrc + 1, At(text, iSrc))
  {
    assert text[iSrc..][1..] == text[iSrc + 1..];
  }

  lemma Copies(text: seq<char>, dest: seq<char>, iDest: nat, iSrc: nat, quote: char)
    requires Progress(text, dest, iDest, iSrc, quote) && iSrc <= |text| && NoNul(text)
    requires At(text, iSrc) != quote && (quote == NUL ==> !IsQuote(At(text, iSrc)) && At(text, iSrc) != '\\')
    ensures Progress(text, dest[iDest := At(text, iSrc)], iDest + 1, iSrc + 1, quote)
  {
    var d := dest[iDest := At(text, iSrc)];
    if iSrc < |text| {
      assert text[iSrc..][1..] == text[iSrc + 1..];
      assert d[..iDest + 1] == dest[..iDest] + [text[iSrc]];
    } else {
      assert text[iSrc..] == [] && d == dest;
      assert dest[..iDest] == Unquote(text, NUL);
    }
  }

  lemma Escaped(text: seq<char>, dest: seq<char>, iDest: nat, iSrc: nat)
    requires Progress(text, dest, iDest, iSrc, NUL) && iSrc < |text| && text[iSrc] == '\\' && NoNul(text)
    ensures Progress(text, dest[iDest := At(text, iSrc + 1)], iDest + 1, iSrc + 2, NUL)
  {
    var d := dest[iDest := At(text, iSrc + 1)];
    if iSrc + 1 < |text| {
      assert text[iSrc..][2..] == text[iSrc + 2..];
      assert d[..iDest + 1] == dest[..iDest] + [text[iSrc + 1]];
    } else {
      assert |text[iSrc..]| == 1 && d == dest;
      assert dest[..iDest] == Unquote(text, NUL);
    }
  }

  /** The copy loop; the terminator itself is visited too, and a backslash before it swallows it. */
  method CopyEscapedString(zSrc: array<char>, ghost text: seq<char>) returns (zDest: array<char>)
    requires CString(zSrc[..], text) && NoNul(text)
    ensures fresh(zDest) && zDest.Length == |text| + 1 && CString(zDest[..], Unquote(text, NUL))
    ensures forall ps, tail | ArePieces(ps) && IsTail(tail) && text == Written(ps) + tail ::
      CString(zDest[..], Meant(ps) + TailMeans(tail))
  {
    hide Unquote, NoNul, Progress;
    var maxlen := StrLen(zSrc, text);
    maxlen := maxlen + 1;
    zDest := new char[maxlen](_ => NUL);
    var quotechar, iDest, iSrc := NUL, 0, 0;
    Begins(text, zDest[..]);
    while iSrc < maxlen
      invariant 0 <= iSrc <= maxlen && 0 <= iDest <= iSrc && zDest.Length == maxlen && fresh(zDest)
      invariant Progress(text, zDest[..], iDest, iSrc, quotechar)
    {
      SourceAt(zSrc[..], text, iSrc);
      if zSrc[iSrc] == quotechar {
        QuoteCloses(text, zDest[..], iDest, iSrc, quotechar);
        quotechar := NUL;
      } else if IsQuote(zSrc[iSrc]) && quotechar == NUL {
        QuoteOpens(text, zDest[..], iDest, iSrc);
        quotechar := zSrc[iSrc];
      } else if zSrc[iSrc] == '\\' && quotechar == NUL {
        Escaped(text, zDest[..], iDest, iSrc);
        SourceAt(zSrc[..], text, iSrc + 1);
        ghost var before := zDest[..];
        iSrc := iSrc + 1;
        zDest[iDest] := zSrc[iSrc];
        iDest := iDest + 1;
        assert zDest[..] == before[iDest - 1 := zSrc[iSrc]];
      } else {
        Copies(text, zDest[..], iDest, iSrc, quotechar);
        ghost var before := zDest[..];
        zDest[iDest] := zSrc[iSrc];
        iDest := iDest + 1;
        assert zDest[..] == before[iDest - 1 := zSrc[iSrc]];
      }
      iSrc := iSrc + 1;
    }
    Ends(text, zDest[..], iDest, iSrc, quotechar);
    forall ps, tail | ArePieces(ps) && IsTail(tail) && text == Written(ps) + tail
      ensures CString(zDest[..], Meant(ps) + TailMeans(tail))
    {
      PiecesComeOff(ps, tail);
    }
  }

  lemma Begins(text: seq<char>, dest: seq<char>)
    requires |dest| == |text| + 1 && forall j | 0 <= j < |dest| :: dest[j] == NUL
    ensures Progress(text, dest, 0, 0, NUL)
  {
    assert text[0..] == text;
  }

  lemma Ends(text: seq<char>, dest: seq<char>, iDest: nat, iSrc: nat, quote: char)
    requires Progress(text, dest, iDest, iSrc, quote) && iSrc == |text| + 1
    ensures CString(dest, Unquote(text, NUL))
  {}

  lemma SourceAt(b: seq<char>, text: seq<char>, i: nat)
    requires CString(b, text) && i <= |text|
    ensures b[i] == At(text, i)
  {
    if i < |text| { assert b[i] == b[..|text|][i]; }
  }

  /** `strlen`. */
  method StrLen(z: array<char>, ghost text: seq<char>) returns (n: nat)
    requires CString(z[..], text) && NoNul(text)
    ensures n == |text|
  {
    n := 0;
    SourceAt(z[..], text, 0);
    while z[n] != NUL
      invariant n <= |text| && z[n] == At(text, n)
      decreases |text| - n
    {
      n := n + 1;
      SourceAt(z[..], text, n);
    }
    NulIsEnd(text, n);
  }

  lemma NulIsEnd(text: seq<char>, n: nat)
    requires NoNul(text) && n <= |text| && At(text, n) == NUL
    ensures n == |text|
  {}

  /** A backslash before every character. */
  function EscapeAll(s: seq<char>): seq<char> {
    if s == [] then [] else ['\\', s[0]] + EscapeAll(s[1..])
  }

  /** Unquoting undoes escaping, for any characters. */
  lemma {:induction false} UnquoteUndoesEscape(s: seq<char>)
    ensures Unquote(EscapeAll(s), NUL) == s
  {
    if s != [] {
      UnquoteUndoesEscape(s[1..]);
      assert EscapeAll(s)[2..] == EscapeAll(s[1..]);
    }
  }

  /** An escaped text of characters that may follow a backslash is one word of lexer.l. */
  lemma {:induction false} EscapedIsWord(s: seq<char>)
    requires forall i | 0 <= i < |s| :: Special(s[i])
    ensures IsWord(EscapeAll(s))
  {
    if s != [] {
      EscapedIsWord(s[1..]);
      assert EscapeAll(s)[2..] == EscapeAll(s[1..]);
    }
  }

  predicate AllLiteral(w: seq<char>) { forall i | 0 <= i < |w| :: Literal(w[i]) }

  /** Words of literal characters stand for themselves. */
  lemma {:induction false} LiteralWord(w: seq<char>)
    requires AllLiteral(w)
    ensures IsWord(w) && Unquote(w, NUL) == w && NoNul(w)
  {
    hide Literal;
    if w != [] {
      LiteralIsPlain(w[0]);
      LiteralWord(w[1..]);
    }
  }
}
