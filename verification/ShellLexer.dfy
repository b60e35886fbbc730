/**
 The rules of lexer.l as an automaton: what counts as a word, the operators, the three start
 conditions, and the tokens the actions return.
 */
module ShellLexer {
  import opened Scanning

  /** Start states, as BEGIN sets them. */
  const INITIAL := 1
  const PARAM := 3
  const FNAME := 5
  const STARTS: set<int> := {INITIAL, PARAM, FNAME}

  // Character classes of lexer.l.

  predicate Alnum(c: char) { 'a' <= c <= 'z' || 'A' <= c <= 'Z' || '0' <= c <= '9' }

  predicate Others(c: char) {
    c == '+' || c == ',' || c == '%' || c == '_' || c == '#' || c == '@' || c == '$' || c == '.' ||
    c == '*' || c == '/' || c == ':' || c == '!' || c == '?' || c == '-'
  }

  /** A character that stands for itself in a word. */
  predicate Literal(c: char) { Alnum(c) || Others(c) }

  predicate Blank(c: char) { c == ' ' || c == '\t' }

  predicate Separator(c: char) { c == '&' || c == '|' || c == ';' }

  /** What may follow a backslash. */
  predicate Special(c: char) {
    Literal(c) || Separator(c) || c == '<' || c == '>' || c == '\n' || Blank(c) || c == '\\' || c == '\'' || c == '"'
  }

  /** What may stand unescaped between quotes, other than quotes. */
  predicate NonQuote(c: char) { Literal(c) || Blank(c) || c == '\n' || c == '<' || c == '>' }

  // The word rule, from left to right: outside quotes, and inside double or single ones.

  predicate IsWord(w: seq<char>)
    decreases |w|
  {
    w == [] ||
    (Literal(w[0]) && IsWord(w[1..])) ||
    (w[0] == '\\' && |w| >= 2 && Special(w[1]) && IsWord(w[2..])) ||
    (w[0] == '"' && ClosesQuote('"', w[1..])) ||
    (w[0] == '\'' && ClosesQuote('\'', w[1..]))
  }

  /** The rest of a quoted part opened by `q`, and of the word behind it. */
  predicate ClosesQuote(q: char, w: seq<char>)
    decreases |w|
  {
    w != [] &&
    if w[0] == q then IsWord(w[1..])
    else if w[0] == '\\' then |w| >= 2 && Special(w[1]) && ClosesQuote(q, w[2..])
    else (NonQuote(w[0]) || w[0] == '"' || w[0] == '\'') && ClosesQuote(q, w[1..])
  }

  // The automaton. A word state is 10 * mode + start state.

  const WORD_MODE := 1
  const DOUBLE := 2         // between double quotes
  const SINGLE := 3         // between single quotes
  const ESCAPE := 4         // behind a backslash outside quotes
  const DOUBLE_ESCAPE := 5
  const SINGLE_ESCAPE := 6
  const FIRST := 10         // added to DOUBLE, SINGLE, ESCAPE behind the very first character

  const JAM := 0
  const EOB := 7
  const BLANKS := 201
  const NEWLINE := 202
  const AMP := 203
  const AMP_AMP := 204
  const SEMI := 205
  const LESS := 206
  const GREATER := 207
  const GREATER_AMP := 208
  const GREATER_GREATER := 209
  const GREATER_GREATER_AMP := 210
  const BAR := 211
  const BAR_AMP := 212
  const BAR_BAR := 213
  const INVALID := 214

  predicate IsStart(s: int) { s == INITIAL || s == PARAM || s == FNAME }

  /** Mode `m` of start state `x`. */
  predicate InMode(s: int, m: int) { s == 10 * m + INITIAL || s == 10 * m + PARAM || s == 10 * m + FNAME }

  /** The start state a word state belongs to. */
  function StartOf(s: int): int { s % 10 }

  predicate IsDouble(s: int) { InMode(s, DOUBLE) || InMode(s, FIRST + DOUBLE) }

  predicate IsSingle(s: int) { InMode(s, SINGLE) || InMode(s, FIRST + SINGLE) }

  predicate IsEscape(s: int) { InMode(s, ESCAPE) || InMode(s, FIRST + ESCAPE) }

  function Delta(s: int, c: char): int {
    if IsStart(s) then FromStart(s, c)
    else if s == EOB || Stops(s) then JAM
    else if c == NUL then EOB
    else if s >= BLANKS then FromOperator(s, c)
    else FromWord(s, c)
  }

  function FromStart(s: int, c: char): int {
    if c == NUL then EOB
    else if Literal(c) then 10 * WORD_MODE + s
    else if c == '"' then 10 * (FIRST + DOUBLE) + s
    else if c == '\'' then 10 * (FIRST + SINGLE) + s
    else if c == '\\' then 10 * (FIRST + ESCAPE) + s
    else if Blank(c) then BLANKS
    else if c == '\n' then NEWLINE
    else if c == '&' then AMP
    else if c == ';' then SEMI
    else if c == '<' then LESS
    else if c == '>' then GREATER
    else if c == '|' then BAR
    else INVALID
  }

  function FromOperator(s: int, c: char): int {
    if s == BLANKS && Blank(c) then BLANKS
    else if s == AMP && c == '&' then AMP_AMP
    else if s == GREATER && c == '&' then GREATER_AMP
    else if s == GREATER && c == '>' then GREATER_GREATER
    else if s == GREATER_GREATER && c == '&' then GREATER_GREATER_AMP
    else if s == BAR && c == '&' then BAR_AMP
    else if s == BAR && c == '|' then BAR_BAR
    else JAM
  }

  function FromWord(s: int, c: char): int {
    var x := StartOf(s);
    if InMode(s, WORD_MODE) then
      if Literal(c) then 10 * WORD_MODE + x
      else if c == '"' then 10 * DOUBLE + x
      else if c == '\'' then 10 * SINGLE + x
      else if c == '\\' then 10 * ESCAPE + x
      else JAM
    else if IsDouble(s) then
      if c == '"' then 10 * WORD_MODE + x
      else if c == '\\' then 10 * DOUBLE_ESCAPE + x
      else if NonQuote(c) || c == '\'' then 10 * DOUBLE + x
      else JAM
    else if IsSingle(s) then
      if c == '\'' then 10 * WORD_MODE + x
      else if c == '\\' then 10 * SINGLE_ESCAPE + x
      else if NonQuote(c) || c == '"' then 10 * SINGLE + x
      else JAM
    else if !Special(c) then JAM
    else if IsEscape(s) then 10 * WORD_MODE + x
    else if InMode(s, DOUBLE_ESCAPE) then 10 * DOUBLE + x
    else 10 * SINGLE + x
  }

  predicate IsWordState(s: int) {
    || InMode(s, WORD_MODE) || IsDouble(s) || IsSingle(s)
    || IsEscape(s) || InMode(s, DOUBLE_ESCAPE) || InMode(s, SINGLE_ESCAPE)
  }

  /** Where matching stops at once. */
  predicate Stops(s: int) {
    s == NEWLINE || s == AMP_AMP || s == SEMI || s == LESS || s == GREATER_AMP || s == GREATER_GREATER_AMP ||
    s == BAR_AMP || s == BAR_BAR || s == INVALID ||
    !(IsStart(s) || IsWordState(s) || s == EOB || s == BLANKS || s == AMP || s == GREATER ||
      s == GREATER_GREATER || s == BAR)
  }

  /** The rule numbers of lexer.l, in order; 0 accepts nothing. */
  function Accept(s: int): int {
    if IsStart(s) then WordRule(s)
    else if InMode(s, WORD_MODE) then WordRule(StartOf(s))
    else if InMode(s, FIRST + DOUBLE) || InMode(s, FIRST + SINGLE) || InMode(s, FIRST + ESCAPE) then 17
    else match s
      case 7 => YY_END_OF_BUFFER case 201 => 16 case 202 => 15 case 203 => 12 case 204 => 11
      case 205 => 14 case 206 => 8 case 207 => 9 case 208 => 7 case 209 => 5 case 210 => 4
      case 211 => 13 case 212 => 6 case 213 => 10 case 214 => 17 case _ => 0
  }

  /** Which word rule applies: COMMAND, WORD or FILENAME. */
  function WordRule(start: int): int {
    if start == INITIAL then 1 else if start == PARAM then 3 else 2
  }

  const AUTOMATON: Dfa := Dfa((s, c) => Delta(s, c), s => Accept(s), s => Stops(s), EOB)

  /** BEGIN in the action of each rule. */
  function Begin(act: int, start: int): int {
    if act == 1 || act == 2 then PARAM
    else if act == 4 || act == 5 || act == 7 || act == 8 || act == 9 then FNAME
    else if act == 3 || act == 16 || act == 17 then start
    else INITIAL
  }

  /** Blanks and invalid characters return no token. */
  predicate Emits(act: int) { act != 16 && act != 17 }

  const RULES: Rules := Rules((act, start) => Begin(act, start), act => Emits(act))

  lemma OnNul(s: int)
    requires !Stops(s) && s != EOB
    ensures Delta(s, NUL) == EOB
  {}

  lemma OnChar(s: int, c: char)
    requires c != NUL
    ensures Delta(s, c) != EOB && Accept(Delta(s, c)) != YY_END_OF_BUFFER
  {
    hide Literal, Blank, Special, NonQuote;
  }

  lemma AtStart(s: int, c: char)
    requires IsStart(s)
    ensures !Stops(s) && s != EOB && Accept(s) != YY_END_OF_BUFFER
    ensures c != NUL ==> Accept(Delta(s, c)) != 0
  {
    hide Literal, Blank;
  }

  lemma NoEof(s: int)
    ensures Accept(s) != YY_STATE_EOF
  {}

  lemma AtEob()
    ensures !Stops(EOB) && Accept(EOB) == YY_END_OF_BUFFER && Stops(Delta(EOB, NUL)) && Accept(Delta(EOB, NUL)) == 0
  {}

  /** The automaton has what flex guarantees of its tables. */
  lemma AutomatonSound()
    ensures SoundRules(AUTOMATON, RULES, STARTS)
  {
    hide Delta, Stops, Accept, Literal;
    var d := AUTOMATON;
    AtEob();
    assert d.eob == EOB;
    forall s | !d.stop(s) && s != d.eob ensures d.delta(s, NUL) == d.eob { OnNul(s); }
    forall s, c | c != NUL && !d.stop(s) && s != d.eob
      ensures d.delta(s, c) != d.eob && d.accept(d.delta(s, c)) != YY_END_OF_BUFFER
    {
      OnChar(s, c);
    }
    forall s | s in STARTS ensures !d.stop(s) && s != d.eob && d.accept(s) != YY_END_OF_BUFFER { AtStart(s, NUL); }
    forall s, c | s in STARTS && c != NUL ensures d.accept(d.delta(s, c)) != 0 { AtStart(s, c); }
    forall s ensures d.accept(s) != YY_STATE_EOF { NoEof(s); }
    assert RULES.emits(YY_STATE_EOF);
    forall act, s | s in STARTS ensures RULES.begin(act, s) in STARTS { assert RULES.begin(act, s) == Begin(act, s); }
  }
}
