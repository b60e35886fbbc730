/** Printing a command tree, scanning the text and parsing the tokens gives the tree back. */
module RoundTrip {
  import opened Syntax
  import opened Scanning
  import opened ShellLexer
  import opened WordAutomaton
  import opened Escapes
  import opened Meaning
  import Driver
  import Parser

  // What printCommand, printArguments and printRedirect write.

  function PrintCommand(c: Command): string {
    c.zCmd + " " + PrintArguments(if c.args == [] then [] else c.args[1..]) + PrintRedirect(c.redirects) +
    (if c.background then "& " else if c.next.Some? then "; " else "") +
    (if c.next.Some? then PrintCommand(c.next.command) else "")
  }

  function PrintArguments(args: seq<string>): string {
    if args == [] then "" else args[0] + " " + PrintArguments(args[1..])
  }

  function PrintRedirect(r: Redirects): string {
    match r
    case NoRedirect => ""
    case File(k, name, next) => Sign(k) + " " + name + " " + PrintRedirect(next)
    case Pipe(k, c, next) => Sign(k) + " " + PrintCommand(c) + PrintRedirect(next)
  }

  /** How an operator is written. */
  function Sign(k: Kind): string {
    match k
    case REDIRECT_IN => "<" case REDIRECT_OUT => ">" case REDIRECT_ERROR => ">&" case APPEND => ">>"
    case APPEND_ERROR => ">>&" case PIPE => "|" case PIPE_ERROR => "|&" case BACKGROUND => "&"
    case SEMICOLON => ";" case EOLN => "\n" case LOGICAL_AND => "&&" case LOGICAL_OR => "||" case _ => ""
  }

  predicate IsText(k: Kind) { k.COMMAND? || k.WORD? || k.FILENAME? }

  function TokenText(t: Token): string { if IsText(t.kind) then t.text else Sign(t.kind) }

  function TextOf(ts: seq<Token>): string {
    if ts == [] then "" else TokenText(ts[0]) + " " + TextOf(ts[1..])
  }

  lemma {:induction false} TextAppend(a: seq<Token>, b: seq<Token>)
    ensures TextOf(a + b) == TextOf(a) + TextOf(b)
  {
    hide TokenText;
    if a == [] {
      assert a + b == b;
    } else {
      assert (a + b)[0] == a[0] && (a + b)[1..] == a[1..] + b;
      TextAppend(a[1..], b);
    }
  }

  lemma TextOne(t: Token)
    ensures TextOf([t]) == TokenText(t) + " "
  {
    assert [t][1..] == [];
    assert TextOf([]) == "";
  }

  lemma {:induction false} ArgumentsText(args: seq<string>)
    ensures PrintArguments(args) == TextOf(Words(args))
  {
    if args != [] {
      ArgumentsText(args[1..]);
      assert Words(args)[1..] == Words(args[1..]);
    }
  }

  lemma {:induction false} RedirectText(r: Redirects)
    ensures PrintRedirect(r) == TextOf(RedirectSpelling(r))
    decreases r
  {
    hide TokenText, PrintCommand, Spelling;
    match r
    case NoRedirect =>
    case File(k, name, next) =>
      RedirectText(next);
      var a, b := Token(k, ""), Token(FILENAME, name);
      TextAppend([a] + [b], RedirectSpelling(next));
      TextAppend([a], [b]);
      TextOne(a);
      TextOne(b);
      FileTexts(k, name);
      assert [a, b] == [a] + [b];
    case Pipe(k, c, next) =>
      CommandText(c);
      RedirectText(next);
      TextAppend([Token(k, "")] + Spelling(c), RedirectSpelling(next));
      TextAppend([Token(k, "")], Spelling(c));
      TextOne(Token(k, ""));
      FileTexts(k, "");
  }

  lemma FileTexts(k: Kind, name: string)
    ensures TokenText(Token(k, "")) == Sign(k) && TokenText(Token(FILENAME, name)) == name
  {}

  /** The printer writes exactly the texts of the tree's spelling, each followed by a space. */
  lemma {:induction false} CommandText(c: Command)
    ensures PrintCommand(c) == TextOf(Spelling(c))
    decreases c
  {
    hide TokenText, PrintRedirect, PrintArguments, RedirectSpelling, Words;
    var args := if c.args == [] then [] else c.args[1..];
    var name, sep := [Token(COMMAND, c.zCmd)], SeparatorTokens(c);
    var tail := if c.next.Some? then Spelling(c.next.command) else [];
    ArgumentsText(args);
    RedirectText(c.redirects);
    if c.next.Some? { CommandText(c.next.command); }
    TextAppend(name + Words(args) + RedirectSpelling(c.redirects) + sep, tail);
    TextAppend(name + Words(args) + RedirectSpelling(c.redirects), sep);
    TextAppend(name + Words(args), RedirectSpelling(c.redirects));
    TextAppend(name, Words(args));
    TextOne(name[0]);
    SeparatorText(c);
    assert TextOf([]) == "";
    assert TokenText(name[0]) == c.zCmd by { FileTexts(COMMAND, c.zCmd); CommandTokenText(c.zCmd); }
  }

  lemma CommandTokenText(name: string)
    ensures TokenText(Token(COMMAND, name)) == name
  {}

  function SeparatorTokens(c: Command): seq<Token> {
    if c.background then [Token(BACKGROUND, "")] else if c.next.Some? then [Token(SEMICOLON, "")] else []
  }

  lemma SeparatorText(c: Command)
    ensures TextOf(SeparatorTokens(c)) == if c.background then "& " else if c.next.Some? then "; " else ""
  {
    TextOne(Token(BACKGROUND, ""));
    TextOne(Token(SEMICOLON, ""));
  }

  // Scanning.

  /** The token a rule returns, with its text unquoted where the rule keeps it. */
  function ToToken(x: Lexeme): Token {
    var k := KindOfAct(x.act);
    Token(k, if IsText(k) then Unquote(x.text, NUL) else "")
  }

  function KindOfAct(act: int): Kind {
    match act
    case 1 => COMMAND case 2 => FILENAME case 3 => WORD case 4 => APPEND_ERROR case 5 => APPEND
    case 6 => PIPE_ERROR case 7 => REDIRECT_ERROR case 8 => REDIRECT_IN case 9 => REDIRECT_OUT
    case 10 => LOGICAL_OR case 11 => LOGICAL_AND case 12 => BACKGROUND case 13 => PIPE
    case 14 => SEMICOLON case 15 => EOLN case _ => YEOF
  }

  function ActOf(k: Kind): int {
    match k
    case COMMAND => 1 case FILENAME => 2 case WORD => 3 case APPEND_ERROR => 4 case APPEND => 5
    case PIPE_ERROR => 6 case REDIRECT_ERROR => 7 case REDIRECT_IN => 8 case REDIRECT_OUT => 9
    case LOGICAL_OR => 10 case LOGICAL_AND => 11 case BACKGROUND => 12 case PIPE => 13
    case SEMICOLON => 14 case EOLN => 15 case _ => YY_STATE_EOF
  }

  /** The tokens of a stream of characters, as the parser gets them. */
  ghost function TokenStream(s: int, w: seq<char>): (ts: seq<Token>)
    requires IsStart(s) && NoNul(w)
  {
    AutomatonSound();
    var xs := Tokens(AUTOMATON, RULES, STARTS, s, w);
    seq(|xs|, i requires 0 <= i < |xs| => ToToken(xs[i]))
  }

  /** Nothing, or something other than a blank, comes next. */
  predicate NoBlankAhead(w: seq<char>) { w == [] || !Blank(w[0]) }

  /** `text` leads from `s` to the accepting state `q`. */
  ghost predicate Reaches(s: int, text: seq<char>, q: int) {
    NoNul(text) && text != [] && Run(s, text) == q && Accept(q) != 0
  }

  /** A text that cannot go on is a match of its own. */
  lemma MatchesExactly(s: int, text: seq<char>, v: seq<char>, q: int)
    requires IsStart(s) && Reaches(s, text, q) && NoNul(v)
    requires v == [] || Stops(q) || (!Stops(q) && Delta(q, v[0]) == JAM)
    ensures Head(AUTOMATON, s, text + v) == Lexeme(Accept(q), text)
  {
    hide Delta, Accept, Stops, Literal;
    var w, n := text + v, |text|;
    assert w[..n] == text;
    PrefixRun(s, w, n);
    AcceptedUnstopped(s, w, n);
    Unfinished(INITIAL);
    if v == [] || Stops(q) {
      StopIs(AUTOMATON, s, w, 0, n);
    } else {
      assert w[n] == v[0];
      assert State(AUTOMATON, s, w, n + 1) == JAM;
      JamIsStop();
      StopIs(AUTOMATON, s, w, 0, n + 1);
      assert Last(AUTOMATON, s, w, n + 1) == n;
    }
  }

  /** The state behind a printed token. */
  function EndState(s: int, k: Kind): int {
    match k
    case REDIRECT_IN => LESS case REDIRECT_OUT => GREATER case REDIRECT_ERROR => GREATER_AMP
    case APPEND => GREATER_GREATER case APPEND_ERROR => GREATER_GREATER_AMP case PIPE => BAR
    case PIPE_ERROR => BAR_AMP case BACKGROUND => AMP case SEMICOLON => SEMI case EOLN => NEWLINE
    case LOGICAL_AND => AMP_AMP case LOGICAL_OR => BAR_BAR case _ => 10 * WORD_MODE + s
  }

  /** The token can be scanned in start state `s` as written. */
  predicate TokenFits(s: int, t: Token) {
    && IsStart(s) && t.kind != YEOF && t.kind != STRING
    && (IsText(t.kind) ==> ActOf(t.kind) == WordRule(s) && t.text != "" && AllLiteral(t.text))
    && (!IsText(t.kind) ==> t.text == "")
  }

  lemma {:induction false} LiteralRun(s: int, w: seq<char>, k: nat)
    requires IsStart(s) && AllLiteral(w) && 1 <= k <= |w|
    ensures State(AUTOMATON, s, w, k) == 10 * WORD_MODE + s
  {
    hide Delta, Literal;
    LiteralIsPlain(w[k - 1]);
    if k == 1 {
      assert State(AUTOMATON, s, w, 0) == s;
      StartStep(s, w[0]);
    } else {
      LiteralRun(s, w, k - 1);
      WordStep(s, w[k - 1]);
    }
  }

  lemma TokenReaches(s: int, t: Token)
    requires TokenFits(s, t)
    ensures Reaches(s, TokenText(t), EndState(s, t.kind)) && Accept(EndState(s, t.kind)) == ActOf(t.kind)
    ensures Stops(EndState(s, t.kind)) || Delta(EndState(s, t.kind), ' ') == JAM
  {
    hide Delta, Accept, Stops, Literal, AllLiteral, Begin;
    if IsText(t.kind) {
      LiteralRun(s, t.text, |t.text|);
      LiteralWord(t.text);
      Unfinished(s);
      WordStep(s, ' ');
      SpaceIsNotLiteral();
    } else {
      SignReaches(s, t.kind);
    }
  }

  lemma SpaceIsNotLiteral()
    ensures !Literal(' ')
  {}

  lemma SignReaches(s: int, k: Kind)
    requires IsStart(s) && !IsText(k) && k != YEOF && k != STRING
    ensures Reaches(s, Sign(k), EndState(s, k)) && Accept(EndState(s, k)) == ActOf(k)
    ensures Stops(EndState(s, k)) || Delta(EndState(s, k), ' ') == JAM
  {
    hide Delta, Accept, Stops, Literal;
    var w := Sign(k);
    SignStates(s, k);
    if |w| == 1 { Run1(s, w); } else if |w| == 2 { Run2(s, w); } else { Run3(s, w); }
    SignText(k);
  }

  lemma SignText(k: Kind)
    ensures NoNul(Sign(k)) && |Sign(k)| <= 3 && (!IsText(k) && k != YEOF && k != STRING ==> Sign(k) != "")
  {}

  lemma Run1(s: int, w: seq<char>)
    requires |w| == 1
    ensures Run(s, w) == Delta(s, w[0])
  {
    hide Delta;
    RunCons(s, w);
    RunNil(Delta(s, w[0]));
    assert w[1..] == [];
  }

  lemma Run2(s: int, w: seq<char>)
    requires |w| == 2
    ensures Run(s, w) == Delta(Delta(s, w[0]), w[1])
  {
    hide Delta, Run;
    RunCons(s, w);
    Run1(Delta(s, w[0]), w[1..]);
  }

  lemma Run3(s: int, w: seq<char>)
    requires |w| == 3
    ensures Run(s, w) == Delta(Delta(Delta(s, w[0]), w[1]), w[2])
  {
    hide Delta, Run;
    RunCons(s, w);
    Run2(Delta(s, w[0]), w[1..]);
  }

  /** The automaton on the operator texts. */
  lemma SignStates(s: int, k: Kind)
    requires IsStart(s) && !IsText(k) && k != YEOF && k != STRING
    ensures var w, q := Sign(k), EndState(s, k);
            && (|w| == 1 ==> Delta(s, w[0]) == q) && (|w| == 2 ==> Delta(Delta(s, w[0]), w[1]) == q)
            && (|w| == 3 ==> Delta(Delta(Delta(s, w[0]), w[1]), w[2]) == q)
    ensures Accept(EndState(s, k)) == ActOf(k) != 0
    ensures Stops(EndState(s, k)) || Delta(EndState(s, k), ' ') == JAM
  {
    hide Literal;
    SignsAreNotLiteral();
  }

  lemma SignsAreNotLiteral()
    ensures !Literal('<') && !Literal('>') && !Literal('&') && !Literal('|') && !Literal(';') && !Literal('\n')
      && !Literal(' ')
  {}

  lemma TokensUnfold(s: int, w: seq<char>, h: Lexeme)
    requires IsStart(s) && NoNul(w) && w != [] && Head(AUTOMATON, s, w) == h && Emits(h.act) && h.act != YY_STATE_EOF
    ensures 0 < |h.text| <= |w| && IsStart(Begin(h.act, s)) && Scannable(AUTOMATON, RULES, STARTS, s, w)
    ensures Scannable(AUTOMATON, RULES, STARTS, Begin(h.act, s), w[|h.text|..])
    ensures Tokens(AUTOMATON, RULES, STARTS, s, w)
      == [h] + Tokens(AUTOMATON, RULES, STARTS, Begin(h.act, s), w[|h.text|..])
  {
    hide Delta, Accept, Stops, Sound, Head;
    AutomatonSound();
    HeadShrinks(AUTOMATON, RULES, STARTS, s, w);
  }

  /** A blank in front of something else is skipped. */
  lemma BlankSkipped(s: int, rest: seq<char>)
    requires IsStart(s) && NoNul(rest) && NoBlankAhead(rest)
    ensures Scannable(AUTOMATON, RULES, STARTS, s, " " + rest) && Scannable(AUTOMATON, RULES, STARTS, s, rest)
    ensures Tokens(AUTOMATON, RULES, STARTS, s, " " + rest) == Tokens(AUTOMATON, RULES, STARTS, s, rest)
  {
    hide Delta, Accept, Stops, Sound, Head;
    AutomatonSound();
    var w := " " + rest;
    BlankState(s);
    Run1(s, " ");
    if rest != [] { assert rest[0] in rest; BlankEnds(rest[0]); }
    MatchesExactly(s, " ", rest, BLANKS);
    HeadShrinks(AUTOMATON, RULES, STARTS, s, w);
    assert w[1..] == rest;
    assert NextToken(AUTOMATON, RULES, STARTS, s, w) == NextToken(AUTOMATON, RULES, STARTS, s, rest);
    NextTokenShrinks(AUTOMATON, RULES, STARTS, s, rest);
  }

  lemma BlankState(s: int)
    requires IsStart(s)
    ensures Delta(s, ' ') == BLANKS && Accept(BLANKS) == 16 && !Stops(BLANKS) && ' ' != NUL
  {
    hide Literal;
    SpaceIsNotLiteral();
  }

  lemma BlankEnds(c: char)
    requires !Blank(c) && c != NUL
    ensures Delta(BLANKS, c) == JAM
  {}

  /** A printed token is scanned back, and scanning goes on behind its space. */
  lemma TokenScansBack(s: int, t: Token, rest: seq<char>)
    requires TokenFits(s, t) && NoNul(rest) && NoBlankAhead(rest)
    ensures IsStart(Begin(ActOf(t.kind), s)) && NoNul(TokenText(t) + " " + rest)
    ensures TokenStream(s, TokenText(t) + " " + rest) == [t] + TokenStream(Begin(ActOf(t.kind), s), rest)
  {
    hide Delta, Accept, Stops, Sound, Head, Literal, Tokens, Begin;
    var text, v, q := TokenText(t), " " + rest, EndState(s, t.kind);
    TokenReaches(s, t);
    MatchesExactly(s, text, v, q);
    assert text + v == text + " " + rest;
    ActEmits(t.kind);
    var h := Lexeme(ActOf(t.kind), text);
    TokensUnfold(s, text + v, h);
    assert (text + v)[|text|..] == v;
    BlankSkipped(Begin(h.act, s), rest);
    TokenOfLexeme(s, t);
  }

  lemma ActEmits(k: Kind)
    requires k != YEOF && k != STRING
    ensures Emits(ActOf(k)) && ActOf(k) != YY_STATE_EOF && KindOfAct(ActOf(k)) == k
  {}

  lemma TokenOfLexeme(s: int, t: Token)
    requires TokenFits(s, t)
    ensures ToToken(Lexeme(ActOf(t.kind), TokenText(t))) == t
  {
    hide Literal, AllLiteral;
    ActEmits(t.kind);
    if IsText(t.kind) { LiteralWord(t.text); }
  }

  lemma NewlineScans(s: int, rest: seq<char>)
    requires IsStart(s) && NoNul(rest)
    ensures NoNul("\n" + rest)
    ensures TokenStream(s, "\n" + rest) == [Token(EOLN, "")] + TokenStream(INITIAL, rest)
  {
    hide Delta, Accept, Stops, Sound, Head, Literal, Tokens;
    SignReaches(s, EOLN);
    NewlineStops();
    MatchesExactly(s, "\n", rest, NEWLINE);
    TokensUnfold(s, "\n" + rest, Lexeme(15, "\n"));
    assert ("\n" + rest)[1..] == rest;
  }

  lemma NewlineStops()
    ensures Stops(NEWLINE) && Accept(NEWLINE) == 15
  {}

  /** Each token of the list can be scanned in the start state its predecessors leave. */
  predicate Fits(s: int, ts: seq<Token>)
    decreases |ts|
  {
    ts == [] || (TokenFits(s, ts[0]) && Fits(Begin(ActOf(ts[0].kind), s), ts[1..]))
  }

  lemma FirstIsNotBlank(s: int, t: Token)
    requires TokenFits(s, t)
    ensures TokenText(t) != "" && !Blank(TokenText(t)[0]) && NoNul(TokenText(t))
  {
    hide Literal;
    if IsText(t.kind) {
      LiteralIsPlain(t.text[0]);
      LiteralWord(t.text);
    } else {
      SignText(t.kind);
      SignNotBlank(t.kind);
    }
  }

  lemma SignNotBlank(k: Kind)
    ensures Sign(k) == "" || !Blank(Sign(k)[0])
  {}

  /** A printed line is scanned back to its tokens. */
  lemma {:induction false} LineScansBack(s: int, ts: seq<Token>, rest: seq<char>)
    requires IsStart(s) && Fits(s, ts) && NoNul(rest)
    ensures NoNul(TextOf(ts) + "\n" + rest) && NoBlankAhead(TextOf(ts) + "\n" + rest)
    ensures TokenStream(s, TextOf(ts) + "\n" + rest) == ts + [Token(EOLN, "")] + TokenStream(INITIAL, rest)
    decreases |ts|
  {
    hide TokenText, TokenFits, TokenStream, Begin, ActOf;
    var tail := "\n" + rest;
    NewlineScans(s, rest);
    if ts == [] {
      assert TextOf(ts) + "\n" + rest == tail;
    } else {
      var t, next := ts[0], Begin(ActOf(ts[0].kind), s);
      FirstIsNotBlank(s, t);
      BeginIsStart(s, t);
      LineScansBack(next, ts[1..], rest);
      var more := TextOf(ts[1..]) + "\n" + rest;
      TokenScansBack(s, t, more);
      assert TextOf(ts) + "\n" + rest == TokenText(t) + " " + more;
      assert ts == [t] + ts[1..];
    }
  }

  lemma BeginIsStart(s: int, t: Token)
    requires TokenFits(s, t)
    ensures IsStart(Begin(ActOf(t.kind), s))
  {}

  /** The start state behind a list of tokens. */
  function AfterAll(s: int, ts: seq<Token>): int
    decreases |ts|
  {
    if ts == [] then s else AfterAll(Begin(ActOf(ts[0].kind), s), ts[1..])
  }

  lemma {:induction false} FitsAppend(s: int, a: seq<Token>, b: seq<Token>)
    requires Fits(s, a) && Fits(AfterAll(s, a), b)
    ensures Fits(s, a + b) && AfterAll(s, a + b) == AfterAll(AfterAll(s, a), b)
    decreases |a|
  {
    hide TokenFits, Begin, ActOf;
    if a == [] {
      assert a + b == b;
    } else {
      FitsAppend(Begin(ActOf(a[0].kind), s), a[1..], b);
      assert (a + b)[0] == a[0] && (a + b)[1..] == a[1..] + b;
    }
  }

  lemma FitsOne(s: int, t: Token)
    requires TokenFits(s, t)
    ensures Fits(s, [t]) && AfterAll(s, [t]) == Begin(ActOf(t.kind), s)
  {
    hide TokenFits, Begin, ActOf;
    assert [t][1..] == [];
    assert Fits(0, []);
  }

  /** Non-empty words of literal characters throughout the tree. */
  predicate LiteralText(w: string) { w != "" && AllLiteral(w) }

  predicate LiteralCommand(c: Command) {
    && LiteralText(c.zCmd) && (forall i | 1 <= i < |c.args| :: LiteralText(c.args[i]))
    && LiteralRedirects(c.redirects) && (c.next.Some? ==> LiteralCommand(c.next.command))
  }

  predicate LiteralRedirects(r: Redirects) {
    match r
    case NoRedirect => true
    case File(k, name, next) => (k.REDIRECT_IN? || IsOut(k)) && LiteralText(name) && LiteralRedirects(next)
    case Pipe(k, c, next) => (k.PIPE? || k.PIPE_ERROR?) && LiteralCommand(c) && LiteralRedirects(next)
  }

  lemma {:induction false} WordsFit(args: seq<string>)
    requires forall i | 0 <= i < |args| :: LiteralText(args[i])
    ensures Fits(PARAM, Words(args)) && AfterAll(PARAM, Words(args)) == PARAM
    decreases |args|
  {
    hide AllLiteral;
    if args != [] {
      WordsFit(args[1..]);
      FitsOne(PARAM, Token(WORD, args[0]));
      FitsAppend(PARAM, [Token(WORD, args[0])], Words(args[1..]));
    }
  }

  lemma OperatorFits(s: int, k: Kind)
    requires IsStart(s) && !IsText(k) && k != YEOF && k != STRING
    ensures Fits(s, [Token(k, "")]) && IsStart(AfterAll(s, [Token(k, "")]))
    ensures k.REDIRECT_IN? || IsOut(k) ==> AfterAll(s, [Token(k, "")]) == FNAME
    ensures k.PIPE? || k.PIPE_ERROR? || k.BACKGROUND? || k.SEMICOLON? ==> AfterAll(s, [Token(k, "")]) == INITIAL
  {
    FitsOne(s, Token(k, ""));
  }

  lemma {:induction false} RedirectsFit(s: int, r: Redirects)
    requires IsStart(s) && LiteralRedirects(r)
    ensures Fits(s, RedirectSpelling(r)) && IsStart(AfterAll(s, RedirectSpelling(r)))
    decreases r
  {
    hide Spelling, LiteralCommand, AllLiteral;
    match r
    case NoRedirect =>
    case File(k, name, next) =>
      OperatorFits(s, k);
      FitsOne(FNAME, Token(FILENAME, name));
      FitsAppend(s, [Token(k, "")], [Token(FILENAME, name)]);
      assert [Token(k, "")] + [Token(FILENAME, name)] == [Token(k, ""), Token(FILENAME, name)];
      RedirectsFit(PARAM, next);
      FitsAppend(s, [Token(k, ""), Token(FILENAME, name)], RedirectSpelling(next));
    case Pipe(k, c, next) =>
      OperatorFits(s, k);
      SpellingFits(c);
      FitsAppend(s, [Token(k, "")], Spelling(c));
      var mid := AfterAll(INITIAL, Spelling(c));
      RedirectsFit(mid, next);
      FitsAppend(s, [Token(k, "")] + Spelling(c), RedirectSpelling(next));
  }

  lemma {:induction false} SpellingFits(c: Command)
    requires LiteralCommand(c)
    ensures Fits(INITIAL, Spelling(c)) && IsStart(AfterAll(INITIAL, Spelling(c)))
    decreases c
  {
    hide RedirectSpelling, Words, LiteralRedirects, AllLiteral, Fits, AfterAll, IsStart;
    var args := if c.args == [] then [] else c.args[1..];
    var name, sep := [Token(COMMAND, c.zCmd)], SeparatorTokens(c);
    StartsAreStarts();
    FitsOne(INITIAL, name[0]);
    WordsFit(args);
    FitsAppend(INITIAL, name, Words(args));
    RedirectsFit(PARAM, c.redirects);
    FitsAppend(INITIAL, name + Words(args), RedirectSpelling(c.redirects));
    var head := name + Words(args) + RedirectSpelling(c.redirects);
    SeparatorFits(AfterAll(INITIAL, head), c);
    FitsAppend(INITIAL, head, sep);
    if c.next.Some? {
      SpellingFits(c.next.command);
      FitsAppend(INITIAL, head + sep, Spelling(c.next.command));
    } else {
      assert Spelling(c) == head + sep;
    }
  }

  lemma StartsAreStarts()
    ensures IsStart(INITIAL) && IsStart(PARAM) && IsStart(FNAME)
  {}

  lemma SeparatorFits(s: int, c: Command)
    requires IsStart(s)
    ensures Fits(s, SeparatorTokens(c)) && IsStart(AfterAll(s, SeparatorTokens(c)))
    ensures c.next.Some? ==> AfterAll(s, SeparatorTokens(c)) == INITIAL
  {
    OperatorFits(s, BACKGROUND);
    OperatorFits(s, SEMICOLON);
  }

  /**
   The round trip: the text printed for a printable tree of literal words, ended by a newline, is
   scanned to the tree's spelling and parsed to the tree itself, and exactly its tokens are used up.
   */
  lemma PrintedTextParsesBack(c: Command, rest: seq<char>)
    requires Buildable(c) && LiteralCommand(c) && NoNul(rest)
    ensures NoNul(PrintCommand(c) + "\n" + rest)
    ensures var ts := TokenStream(INITIAL, PrintCommand(c) + "\n" + rest);
            var outcome := Driver.Parse(ts);
            && ts == Spelling(c) + [Token(EOLN, "")] + TokenStream(INITIAL, rest)
            && outcome.Accepted? && outcome.rule == 2 && outcome.config.pos == |Spelling(c)| + 1
            && |outcome.config.trees| == 2 && Actions.TreeOf(outcome.config.trees[0]) == Some(c)
  {
    hide PrintCommand, Spelling, Buildable, LiteralCommand, Fits, TokenStream, Driver.Parse;
    SpellingFits(c);
    CommandText(c);
    StartsAreStarts();
    LineScansBack(INITIAL, Spelling(c), rest);
    Parser.SpellingParsesBack(c, Token(EOLN, ""), TokenStream(INITIAL, rest));
  }
}
