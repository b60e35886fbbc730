/** The automaton of `ShellLexer` recognises exactly the word rule of lexer.l. */
module WordAutomaton {
  import opened Scanning
  import opened ShellLexer

  /** The state after all of `w`. */
  function Run(s: int, w: seq<char>): int { State(AUTOMATON, s, w, |w|) }

  lemma {:induction false} StateCons(s: int, w: seq<char>, k: nat)
    requires 1 <= k <= |w|
    ensures State(AUTOMATON, s, w, k) == State(AUTOMATON, Delta(s, w[0]), w[1..], k - 1)
  {
    hide Delta;
    if k > 1 { StateCons(s, w, k - 1); } else { assert State(AUTOMATON, s, w, 0) == s; }
  }

  lemma RunCons(s: int, w: seq<char>)
    requires w != []
    ensures Run(s, w) == Run(Delta(s, w[0]), w[1..])
  {
    hide Delta;
    StateCons(s, w, |w|);
  }

  lemma RunCons2(s: int, w: seq<char>)
    requires |w| >= 2
    ensures Run(s, w) == Run(Delta(Delta(s, w[0]), w[1]), w[2..])
  {
    hide Delta, Run;
    RunCons(s, w);
    RunCons(Delta(s, w[0]), w[1..]);
    assert w[1..][1..] == w[2..];
  }

  lemma JamStep(c: char)
    ensures Delta(JAM, c) == JAM
  {}

  lemma {:induction false} JamStays(w: seq<char>, k: nat)
    requires k <= |w|
    ensures State(AUTOMATON, JAM, w, k) == JAM
  {
    hide Delta;
    if k > 0 {
      JamStays(w, k - 1);
      JamStep(w[k - 1]);
    }
  }

  /** Steps of the word states, one character at a time. */
  lemma WordStep(x: int, c: char)
    requires IsStart(x) && c != NUL
    ensures var s := 10 * WORD_MODE + x;
            Delta(s, c) == if Literal(c) then s else if c == '"' then 10 * DOUBLE + x
                           else if c == '\'' then 10 * SINGLE + x else if c == '\\' then 10 * ESCAPE + x else JAM
  {
    hide Literal;
  }

  lemma EscapeStep(x: int, c: char)
    requires IsStart(x) && c != NUL
    ensures Delta(10 * ESCAPE + x, c) == if Special(c) then 10 * WORD_MODE + x else JAM
    ensures Delta(10 * DOUBLE_ESCAPE + x, c) == if Special(c) then 10 * DOUBLE + x else JAM
    ensures Delta(10 * SINGLE_ESCAPE + x, c) == if Special(c) then 10 * SINGLE + x else JAM
  {
    hide Special;
  }

  function QuoteState(q: char, x: int): int { 10 * (if q == '"' then DOUBLE else SINGLE) + x }

  lemma QuoteStep(q: char, x: int, c: char)
    requires IsStart(x) && c != NUL && (q == '"' || q == '\'')
    ensures Delta(QuoteState(q, x), c) ==
            if c == q then 10 * WORD_MODE + x
            else if c == '\\' then 10 * (if q == '"' then DOUBLE_ESCAPE else SINGLE_ESCAPE) + x
            else if NonQuote(c) || c == '"' || c == '\'' then QuoteState(q, x) else JAM
  {
    hide NonQuote;
  }

  /** Before the end of a word nothing is accepted as a word. */
  lemma Unfinished(x: int)
    requires IsStart(x)
    ensures Accept(10 * WORD_MODE + x) == WordRule(x) && Accept(JAM) == 0
    ensures Accept(10 * ESCAPE + x) == 0 && Accept(10 * DOUBLE_ESCAPE + x) == 0 && Accept(10 * SINGLE_ESCAPE + x) == 0
    ensures Accept(10 * DOUBLE + x) == 0 && Accept(10 * SINGLE + x) == 0 && WordRule(x) != 0
  {}

  lemma {:induction false} WordFrom(x: int, w: seq<char>)
    requires IsStart(x) && NoNul(w)
    ensures Accept(Run(10 * WORD_MODE + x, w)) == WordRule(x) <==> IsWord(w)
    decreases |w|
  {
    hide Delta, Accept, WordRule, Literal, Special, Run;
    Unfinished(x);
    var s := 10 * WORD_MODE + x;
    if w == [] {
      RunNil(s);
    } else {
      assert w[0] in w;
      WordStep(x, w[0]);
      RunCons(s, w);
      if Literal(w[0]) { WordFrom(x, w[1..]); LiteralIsPlain(w[0]); }
      else if w[0] == '"' { QuoteFrom('"', x, w[1..]); }
      else if w[0] == '\'' { QuoteFrom('\'', x, w[1..]); }
      else if w[0] == '\\' { EscapeFrom(x, w); }
      else { RunJam(w[1..]); }
    }
  }

  lemma LiteralIsPlain(c: char)
    requires Literal(c)
    ensures c != '\\' && c != '"' && c != '\'' && c != NUL && !Blank(c)
  {}

  lemma RunNil(s: int)
    ensures Run(s, []) == s
  {}

  lemma RunJam(w: seq<char>)
    ensures Run(JAM, w) == JAM
  {
    JamStays(w, |w|);
  }

  lemma {:induction false} EscapeFrom(x: int, w: seq<char>)
    requires IsStart(x) && NoNul(w) && w != [] && w[0] == '\\'
    ensures Accept(Run(10 * WORD_MODE + x, w)) == WordRule(x) <==> (|w| >= 2 && Special(w[1]) && IsWord(w[2..]))
    decreases |w|, 0
  {
    hide Delta, Accept, WordRule, Literal, Special, Run;
    Unfinished(x);
    Backslash();
    WordStep(x, w[0]);
    RunCons(10 * WORD_MODE + x, w);
    if |w| == 1 {
      assert w[1..] == [];
      RunNil(10 * ESCAPE + x);
    } else {
      assert w[1] in w;
      EscapeStep(x, w[1]);
      RunCons2(10 * WORD_MODE + x, w);
      if Special(w[1]) { WordFrom(x, w[2..]); } else { RunJam(w[2..]); }
    }
  }

  lemma Backslash()
    ensures !Literal('\\') && !NonQuote('\\')
  {}

  lemma {:induction false} QuoteFrom(q: char, x: int, w: seq<char>)
    requires IsStart(x) && NoNul(w) && (q == '"' || q == '\'')
    ensures Accept(Run(QuoteState(q, x), w)) == WordRule(x) <==> ClosesQuote(q, w)
    decreases |w|
  {
    hide Delta, Accept, WordRule, Literal, Special, NonQuote, Run;
    Unfinished(x);
    if w == [] {
      RunNil(QuoteState(q, x));
    } else {
      assert w[0] in w;
      QuoteStep(q, x, w[0]);
      RunCons(QuoteState(q, x), w);
      if w[0] == q { WordFrom(x, w[1..]); }
      else if w[0] == '\\' { QuotedEscapeFrom(q, x, w); }
      else if NonQuote(w[0]) || w[0] == '"' || w[0] == '\'' { QuoteFrom(q, x, w[1..]); }
      else { RunJam(w[1..]); }
    }
  }

  lemma {:induction false} QuotedEscapeFrom(q: char, x: int, w: seq<char>)
    requires IsStart(x) && NoNul(w) && w != [] && w[0] == '\\' && (q == '"' || q == '\'')
    ensures Accept(Run(QuoteState(q, x), w)) == WordRule(x) <==> (|w| >= 2 && Special(w[1]) && ClosesQuote(q, w[2..]))
    decreases |w|, 0
  {
    hide Delta, Accept, WordRule, Literal, Special, NonQuote, Run;
    Unfinished(x);
    QuoteStep(q, x, w[0]);
    RunCons(QuoteState(q, x), w);
    if |w| == 1 {
      assert w[1..] == [];
      RunNil(Delta(QuoteState(q, x), w[0]));
    } else {
      assert w[1] in w;
      EscapeStep(x, w[1]);
      RunCons2(QuoteState(q, x), w);
      if Special(w[1]) { QuoteFrom(q, x, w[2..]); } else { RunJam(w[2..]); }
    }
  }

  lemma FirstAgrees(m: int, x: int, c: char)
    requires IsStart(x) && 2 <= m <= 4 && c != NUL
    ensures Delta(10 * (FIRST + m) + x, c) == Delta(10 * m + x, c)
    ensures Accept(10 * (FIRST + m) + x) == 17 != WordRule(x)
  {
    hide Literal, NonQuote, Special;
  }

  lemma StartStep(x: int, c: char)
    requires IsStart(x) && c != NUL
    ensures var t := Delta(x, c);
            if Literal(c) then t == 10 * WORD_MODE + x
            else if c == '"' then t == 10 * (FIRST + DOUBLE) + x
            else if c == '\'' then t == 10 * (FIRST + SINGLE) + x
            else if c == '\\' then t == 10 * (FIRST + ESCAPE) + x
            else (Stops(t) || t >= BLANKS) && t != EOB && Accept(t) != WordRule(x)
  {
    hide Literal;
  }

  /** A text is accepted by the word rule exactly if it is a word of lexer.l. */
  lemma RecognisesWords(x: int, w: seq<char>)
    requires IsStart(x) && NoNul(w) && w != []
    ensures Accept(Run(x, w)) == WordRule(x) <==> IsWord(w)
  {
    hide Delta, Accept, WordRule, Literal, Special, Run, Stops;
    var c, v := w[0], w[1..];
    assert c in w;
    StartStep(x, c);
    RunCons(x, w);
    if Literal(c) {
      WordFrom(x, v);
      LiteralIsPlain(c);
    } else if c == '"' || c == '\'' {
      QuoteFrom(c, x, v);
      FirstQuote(c, x, v);
    } else if c == '\\' {
      FirstEscape(x, w);
    } else {
      NotWordState(x, Delta(x, c), v);
    }
  }

  lemma FirstQuote(q: char, x: int, v: seq<char>)
    requires IsStart(x) && NoNul(v) && (q == '"' || q == '\'')
    ensures v != [] ==> Run(QuoteState(q, x) + 10 * FIRST, v) == Run(QuoteState(q, x), v)
    ensures v == [] ==> Accept(Run(QuoteState(q, x) + 10 * FIRST, v)) != WordRule(x) && !ClosesQuote(q, v)
  {
    hide Delta, Accept, WordRule, Run;
    FirstAgrees(if q == '"' then DOUBLE else SINGLE, x, 'a');
    if v == [] {
      RunNil(QuoteState(q, x) + 10 * FIRST);
    } else {
      assert v[0] in v;
      FirstAgrees(if q == '"' then DOUBLE else SINGLE, x, v[0]);
      RunCons(QuoteState(q, x), v);
      RunCons(QuoteState(q, x) + 10 * FIRST, v);
    }
  }

  lemma FirstEscape(x: int, w: seq<char>)
    requires IsStart(x) && NoNul(w) && w != [] && w[0] == '\\'
    ensures Accept(Run(10 * (FIRST + ESCAPE) + x, w[1..])) == WordRule(x) <==> IsWord(w)
  {
    hide Delta, Accept, WordRule, Literal, Special, Run;
    var s, v := 10 * (FIRST + ESCAPE) + x, w[1..];
    FirstAgrees(ESCAPE, x, 'a');
    Backslash();
    if v == [] {
      RunNil(s);
    } else {
      assert v[0] in w;
      FirstAgrees(ESCAPE, x, v[0]);
      RunCons(s, v);
      RunCons(10 * ESCAPE + x, v);
      EscapeFrom(x, w);
      WordStep(x, w[0]);
      RunCons(10 * WORD_MODE + x, w);
    }
  }

  lemma NotWordState(x: int, t: int, v: seq<char>)
    requires IsStart(x) && (Stops(t) || t >= BLANKS) && t != EOB && Accept(t) != WordRule(x) && NoNul(v)
    ensures Accept(Run(t, v)) != WordRule(x)
    decreases |v|
  {
    hide Literal, Special, Run;
    if v == [] {
      RunNil(t);
    } else {
      assert v[0] in v;
      RunCons(t, v);
      OperatorStep(x, t, v[0]);
      NotWordState(x, Delta(t, v[0]), v[1..]);
    }
  }

  lemma OperatorStep(x: int, t: int, c: char)
    requires IsStart(x) && (Stops(t) || t >= BLANKS) && t != EOB && c != NUL
    ensures var u := Delta(t, c); (Stops(u) || u >= BLANKS) && u != EOB && Accept(u) != WordRule(x)
  {}

  lemma {:induction false} StopThenJam(s: int, w: seq<char>, i: nat, k: nat)
    requires i < k <= |w| && Stops(State(AUTOMATON, s, w, i)) && NoNul(w)
    ensures State(AUTOMATON, s, w, k) == JAM
    decreases k
  {
    hide Accept, Delta, Stops;
    assert w[k - 1] in w;
    if i + 1 < k { StopThenJam(s, w, i, k - 1); JamIsStop(); }
    StoppedDelta(State(AUTOMATON, s, w, k - 1), w[k - 1]);
  }

  lemma StoppedDelta(s: int, c: char)
    requires Stops(s)
    ensures c != NUL ==> Delta(s, c) == JAM
  {}

  lemma JamIsStop()
    ensures Stops(JAM)
  {}

  lemma AcceptedUnstopped(s: int, w: seq<char>, k: nat)
    requires k <= |w| && NoNul(w) && Accept(State(AUTOMATON, s, w, k)) != 0
    ensures NoStop(AUTOMATON, s, w, k)
  {
    hide Delta, Accept, Stops;
    Unfinished(INITIAL);
    forall j | 0 <= j < k ensures !AUTOMATON.stop(State(AUTOMATON, s, w, j)) {
      if Stops(State(AUTOMATON, s, w, j)) { StopThenJam(s, w, j, k); }
    }
  }

  lemma PrefixRun(x: int, w: seq<char>, k: nat)
    requires k <= |w|
    ensures State(AUTOMATON, x, w, k) == Run(x, w[..k])
  {
    assert w[..k][..k] == w[..k];
    StatePrefix(AUTOMATON, x, w, w[..k], k);
  }

  /**
   The word token at the head of a stream is the longest prefix that lexer.l calls a word: whenever
   some non-empty prefix is a word, the match is a word, and no longer prefix is one.
   */
  lemma LongestWord(x: int, w: seq<char>, k: nat)
    requires IsStart(x) && NoNul(w) && 1 <= k <= |w| && IsWord(w[..k])
    ensures var n := MatchLength(AUTOMATON, x, w);
            && k <= n <= |w| && IsWord(w[..n]) && Head(AUTOMATON, x, w) == Lexeme(WordRule(x), w[..n])
  {
    hide Delta, Accept, Stops, IsWord, Run, MatchLength;
    AutomatonSound();
    MatchIsLongest(AUTOMATON, STARTS, x, w);
    var n := MatchLength(AUTOMATON, x, w);
    PrefixRun(x, w, k);
    PrefixRun(x, w, n);
    RecognisesWords(x, w[..k]);
    Unfinished(x);
    AcceptedUnstopped(x, w, k);
    if k < n { WordGoesOn(x, w, k, n); }
    RecognisesWords(x, w[..n]);
  }

  /** Once in a word, every longer accepted prefix is a word. */
  lemma {:induction false} WordGoesOn(x: int, w: seq<char>, k: nat, n: nat)
    requires IsStart(x) && NoNul(w) && 1 <= k <= n <= |w|
    requires Accept(State(AUTOMATON, x, w, k)) == WordRule(x) && Accept(State(AUTOMATON, x, w, n)) != 0
    ensures Accept(State(AUTOMATON, x, w, n)) == WordRule(x)
  {
    hide Delta, Accept, Stops;
    FirstIsWordMode(x, w, k);
    StaysInWord(x, w, k, n);
    WordModes(x, State(AUTOMATON, x, w, n));
  }

  /** The states that lie on the way through a word, past its first character. */
  predicate InWord(x: int, s: int) {
    s == JAM || s == 10 * WORD_MODE + x || s == 10 * ESCAPE + x || s == 10 * DOUBLE + x || s == 10 * SINGLE + x ||
    s == 10 * DOUBLE_ESCAPE + x || s == 10 * SINGLE_ESCAPE + x
  }

  lemma WordModes(x: int, s: int)
    requires IsStart(x) && InWord(x, s)
    ensures Accept(s) == 0 || Accept(s) == WordRule(x)
  {
    Unfinished(x);
  }

  lemma FirstIsWordMode(x: int, w: seq<char>, k: nat)
    requires IsStart(x) && 1 <= k <= |w| && NoNul(w) && Accept(State(AUTOMATON, x, w, k)) == WordRule(x)
    ensures InWord(x, State(AUTOMATON, x, w, k))
  {
    hide Delta, Accept, InWord, Near;
    assert w[k - 1] in w;
    NearWord(x, w, k - 1);
    WordAcceptors(x, State(AUTOMATON, x, w, k - 1), w[k - 1]);
  }

  /** From a start state `x` only states of `x` and operator states are reached. */
  predicate Near(x: int, s: int) {
    s == x || InWord(x, s) || s == 10 * (FIRST + DOUBLE) + x || s == 10 * (FIRST + SINGLE) + x ||
    s == 10 * (FIRST + ESCAPE) + x || s >= BLANKS
  }

  lemma {:induction false} NearWord(x: int, w: seq<char>, k: nat)
    requires IsStart(x) && k <= |w| && NoNul(w)
    ensures Near(x, State(AUTOMATON, x, w, k))
  {
    hide Delta, Near;
    if k > 0 {
      NearWord(x, w, k - 1);
      assert w[k - 1] in w;
      NearStep(x, State(AUTOMATON, x, w, k - 1), w[k - 1]);
    } else {
      StartIsNear(x);
    }
  }

  lemma StartIsNear(x: int)
    ensures Near(x, x)
  {}

  lemma NearStep(x: int, s: int, c: char)
    requires IsStart(x) && Near(x, s) && c != NUL
    ensures Near(x, Delta(s, c))
  {
    hide Delta, Literal, NonQuote, Special, Stops, Accept;
    if s == x { StartStep(x, c); FromStartIsNear(x, c); }
    else if InWord(x, s) { InWordStep(x, s, c); }
    else if s >= BLANKS { FromOperatorIsNear(s, c); }
    else {
      var m :=
        if s == 10 * (FIRST + DOUBLE) + x then DOUBLE
        else if s == 10 * (FIRST + SINGLE) + x then SINGLE
        else ESCAPE;
      FirstAgrees(m, x, c);
      InWordStep(x, 10 * m + x, c);
    }
  }

  lemma FromStartIsNear(x: int, c: char)
    requires IsStart(x) && c != NUL
    ensures Near(x, Delta(x, c))
  {
    hide Literal;
  }

  lemma FromOperatorIsNear(s: int, c: char)
    requires s >= BLANKS && c != NUL
    ensures Delta(s, c) == JAM || Delta(s, c) >= BLANKS
  {}

  lemma WordAcceptors(x: int, s: int, c: char)
    requires IsStart(x) && Near(x, s) && c != NUL && Accept(Delta(s, c)) == WordRule(x)
    ensures InWord(x, Delta(s, c))
  {
    hide Literal, Blank, Special, NonQuote;
  }

  lemma {:induction false} StaysInWord(x: int, w: seq<char>, k: nat, n: nat)
    requires IsStart(x) && NoNul(w) && k <= n <= |w| && InWord(x, State(AUTOMATON, x, w, k))
    ensures InWord(x, State(AUTOMATON, x, w, n))
  {
    hide Delta, InWord;
    if k < n {
      StaysInWord(x, w, k, n - 1);
      assert w[n - 1] in w;
      InWordStep(x, State(AUTOMATON, x, w, n - 1), w[n - 1]);
    }
  }

  lemma InWordStep(x: int, s: int, c: char)
    requires IsStart(x) && InWord(x, s) && c != NUL
    ensures InWord(x, Delta(s, c))
  {
    hide Delta, Literal, Special, NonQuote;
    WordStep(x, c);
    EscapeStep(x, c);
    QuoteStep('"', x, c);
    QuoteStep('\'', x, c);
    JamStep(c);
  }
}
