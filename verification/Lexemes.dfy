/** What the tokens of a line of text are, said of the texts of lexer.l's rules and not of the automaton. */
module Lexemes {
  import opened Scanning
  import opened ShellLexer
  import opened WordAutomaton

  /** The text of an operator's rule. */
  function OperatorText(act: int): string {
    match act
    case 4 => ">>&" case 5 => ">>" case 6 => "|&" case 7 => ">&" case 8 => "<" case 9 => ">" case 10 => "||"
    case 11 => "&&" case 12 => "&" case 13 => "|" case 14 => ";" case 15 => "\n" case _ => ""
  }

  /** A character no rule but the last begins with, or only a rule that needs more: a quote or a backslash. */
  predicate Stray(c: char) { !Literal(c) && !Blank(c) && !Separator(c) && c != '<' && c != '>' && c != '\n' }

  /** The text fits the rule: a word by the start condition, an operator, blanks, or a stray character. */
  predicate Fits(h: Lexeme, x: int) {
    && h.text != [] && 1 <= h.act <= 17
    && (h.act == 1 ==> IsWord(h.text) && x == INITIAL)
    && (h.act == 2 ==> IsWord(h.text) && x == FNAME)
    && (h.act == 3 ==> IsWord(h.text) && x == PARAM)
    && (4 <= h.act <= 15 ==> h.text == OperatorText(h.act))
    && (h.act == 16 ==> forall c | c in h.text :: Blank(c))
    && (h.act == 17 ==> |h.text| == 1 && Stray(h.text[0]))
  }

  /** A word, or the text of an operator. */
  predicate IsToken(u: string) { IsWord(u) || exists act | 4 <= act <= 15 :: u == OperatorText(act) }

  /** What a state other than a word's says of the characters that led to it. */
  predicate Behind(s: int, u: seq<char>) {
    && u != []
    && (s == BLANKS ==> forall c | c in u :: Blank(c))
    && (s == NEWLINE ==> u == "\n") && (s == SEMI ==> u == ";") && (s == LESS ==> u == "<")
    && (s == AMP ==> u == "&") && (s == AMP_AMP ==> u == "&&")
    && (s == GREATER ==> u == ">") && (s == GREATER_AMP ==> u == ">&") && (s == GREATER_GREATER ==> u == ">>")
    && (s == GREATER_GREATER_AMP ==> u == ">>&")
    && (s == BAR ==> u == "|") && (s == BAR_AMP ==> u == "|&") && (s == BAR_BAR ==> u == "||")
    && (s == INVALID || IsFirst(s) ==> |u| == 1 && Stray(u[0]))
  }

  /** Behind a quote or a backslash with which the match began. */
  predicate IsFirst(s: int) { InMode(s, FIRST + DOUBLE) || InMode(s, FIRST + SINGLE) || InMode(s, FIRST + ESCAPE) }

  lemma BehindFirst(x: int, c: char)
    requires IsStart(x) && c != NUL
    ensures Behind(Delta(x, c), [c])
  {
    hide Literal;
  }

  lemma BehindNext(s: int, u: seq<char>, c: char)
    requires Behind(s, u) && c != NUL && !IsStart(s)
    ensures Behind(Delta(s, c), u + [c]) && !IsStart(Delta(s, c))
  {
    hide Literal, Special, NonQuote, Behind;
    if s >= BLANKS && !Stops(s) && s != EOB {
      BehindOperator(s, u, c);
    } else {
      NotOperator(s, c);
      BehindNone(Delta(s, c), u + [c]);
    }
  }

  lemma BehindOperator(s: int, u: seq<char>, c: char)
    requires Behind(s, u) && s >= BLANKS
    ensures Behind(FromOperator(s, c), u + [c])
  {
  }

  lemma NotOperator(s: int, c: char)
    requires !IsStart(s) && c != NUL && (s < BLANKS || Stops(s) || s == EOB)
    ensures var t := Delta(s, c); t < BLANKS && !IsFirst(t) && !IsStart(t)
  {
    hide Literal, Special, NonQuote;
  }

  lemma BehindNone(s: int, u: seq<char>)
    requires s < BLANKS && !IsFirst(s) && u != []
    ensures Behind(s, u)
  {
  }

  lemma {:induction false} BehindAll(x: int, w: seq<char>, k: nat)
    requires IsStart(x) && NoNul(w) && 1 <= k <= |w|
    ensures Behind(State(AUTOMATON, x, w, k), w[..k]) && !IsStart(State(AUTOMATON, x, w, k))
  {
    hide Delta, Behind;
    assert w[k - 1] in w;
    assert w[..k - 1] + [w[k - 1]] == w[..k];
    if k == 1 {
      assert State(AUTOMATON, x, w, 0) == x && w[..1] == [w[0]];
      BehindFirst(x, w[0]);
      LeavesStart(x, w[0]);
    } else {
      BehindAll(x, w, k - 1);
      BehindNext(State(AUTOMATON, x, w, k - 1), w[..k - 1], w[k - 1]);
    }
  }

  lemma LeavesStart(x: int, c: char)
    requires IsStart(x)
    ensures !IsStart(Delta(x, c))
  {
    hide Literal;
  }

  /** The rule accepted in a state near the start state `x`. */
  lemma AcceptIs(x: int, s: int, u: seq<char>)
    requires IsStart(x) && Near(x, s) && !IsStart(s) && Behind(s, u) && Accept(s) != 0 && s != EOB
    ensures Accept(s) == WordRule(x) || (4 <= Accept(s) <= 17 && Fits(Lexeme(Accept(s), u), x))
  {
    hide Literal, IsWord, Stray;
  }

  lemma WordFits(x: int, u: seq<char>)
    requires IsStart(x) && u != [] && IsWord(u)
    ensures Fits(Lexeme(WordRule(x), u), x)
  {
    hide IsWord;
  }

  /** The match at the head of a stream fits its rule. */
  lemma HeadFits(x: int, w: seq<char>)
    requires IsStart(x) && NoNul(w) && w != []
    ensures var h := Head(AUTOMATON, x, w);
      |h.text| <= |w| && h.text == w[..|h.text|] && Fits(h, x)
  {
    hide Delta, Accept, Stops, IsWord, Run, MatchLength, Behind, Near, Fits, WordRule;
    AutomatonSound();
    MatchIsLongest(AUTOMATON, STARTS, x, w);
    var n := MatchLength(AUTOMATON, x, w);
    var s := State(AUTOMATON, x, w, n);
    OrdinaryState(AUTOMATON, STARTS, x, w, n);
    BehindAll(x, w, n);
    NearWord(x, w, n);
    AcceptIs(x, s, w[..n]);
    if Accept(s) == WordRule(x) {
      PrefixRun(x, w, n);
      RecognisesWords(x, w[..n]);
      WordFits(x, w[..n]);
    }
  }

  /* ---- longest ---- */

  lemma OneChar(x: int, c: char)
    requires IsStart(x)
    ensures Run(x, [c]) == Delta(x, c)
  {
    hide Delta;
    RunNil(Delta(x, c));
    RunCons(x, [c]);
  }

  lemma TwoChars(x: int, a: char, b: char)
    requires IsStart(x)
    ensures Run(x, [a, b]) == Delta(Delta(x, a), b)
  {
    hide Delta, Run;
    RunCons2(x, [a, b]);
    assert [a, b][2..] == [];
    RunNil(Delta(Delta(x, a), b));
  }

  lemma ThreeChars(x: int, a: char, b: char, c: char)
    requires IsStart(x)
    ensures Run(x, [a, b, c]) == Delta(Delta(Delta(x, a), b), c)
  {
    hide Delta, Run;
    RunCons2(x, [a, b, c]);
    assert [a, b, c][2..] == [c] && [c][1..] == [];
    RunCons(Delta(Delta(x, a), b), [c]);
    RunNil(Delta(Delta(Delta(x, a), b), c));
  }

  lemma FirstSteps(x: int)
    requires IsStart(x)
    ensures Delta(x, '&') == AMP && Delta(x, '<') == LESS && Delta(x, '>') == GREATER && Delta(x, '|') == BAR
    ensures Delta(x, ';') == SEMI && Delta(x, '\n') == NEWLINE
  {
  }

  lemma LaterSteps()
    ensures Delta(AMP, '&') == AMP_AMP && Delta(BAR, '&') == BAR_AMP && Delta(BAR, '|') == BAR_BAR
    ensures Delta(GREATER, '&') == GREATER_AMP && Delta(GREATER, '>') == GREATER_GREATER
    ensures Delta(GREATER_GREATER, '&') == GREATER_GREATER_AMP
    ensures forall s | AMP <= s <= BAR_BAR || s == NEWLINE :: Accept(s) != 0
  {
  }

  lemma OperatorAccepted(x: int, act: int)
    requires IsStart(x) && 4 <= act <= 15
    ensures OperatorText(act) != [] && NoNul(OperatorText(act)) && Accept(Run(x, OperatorText(act))) != 0
  {
    hide Delta, Accept, Run;
    FirstSteps(x);
    LaterSteps();
    var u := OperatorText(act);
    if |u| == 1 {
      OneChar(x, u[0]);
      assert u == [u[0]];
    } else if |u| == 2 {
      TwoChars(x, u[0], u[1]);
      assert u == [u[0], u[1]];
    } else {
      ThreeChars(x, u[0], u[1], u[2]);
      assert u == [u[0], u[1], u[2]];
    }
  }

  /** No longer prefix of the stream is an operator or a word. */
  lemma HeadIsLongest(x: int, w: seq<char>, k: nat)
    requires IsStart(x) && NoNul(w) && 1 <= k <= |w|
    requires IsToken(w[..k])
    ensures k <= |Head(AUTOMATON, x, w).text|
  {
    hide Delta, Accept, Stops, IsWord, Run, MatchLength, OperatorText;
    AutomatonSound();
    MatchIsLongest(AUTOMATON, STARTS, x, w);
    if IsWord(w[..k]) {
      LongestWord(x, w, k);
    } else {
      var act :| 4 <= act <= 15 && w[..k] == OperatorText(act);
      OperatorAccepted(x, act);
      PrefixRun(x, w, k);
      AcceptedUnstopped(x, w, k);
    }
  }

  /* ---- what a call returns ---- */

  /** What the scanner passes over without a token: blanks and stray characters. */
  predicate PassedOver(u: seq<char>) { forall c | c in u :: Blank(c) || Stray(c) }

  /** The start condition behind a token. */
  predicate LeavesIn(act: int, next: int) {
    if act == 1 || act == 2 || act == 3 then next == PARAM
    else if act == 4 || act == 5 || act == 7 || act == 8 || act == 9 then next == FNAME
    else next == INITIAL
  }

  /** Token `h` stands at position `k` of the stream, behind what is passed over, and `rest` is behind it. */
  predicate StandsAt(h: Lexeme, x: int, w: seq<char>, k: nat, next: int, rest: seq<char>) {
    && k <= |w| && PassedOver(w[..k]) && w[k..] == h.text + rest && LeavesIn(h.act, next)
    && if h.act == YY_STATE_EOF then h.text == [] == rest
       else
         && 1 <= h.act <= 15 && Fits(h, x)
         && forall e | k < e <= |w| :: IsToken(w[k..e]) ==> e - k <= |h.text|
  }

  /**
   Every call of the scanner passes over blanks and stray characters, if any, and returns the longest word or
   operator that begins there, a word as the start condition has it, or the end of the file where nothing is left;
   and it leaves the start condition of the token's rule.
   */
  lemma {:induction false} NextTokenStands(x: int, w: seq<char>) returns (k: nat)
    requires IsStart(x) && NoNul(w) && Scannable(AUTOMATON, RULES, STARTS, x, w)
    ensures var (h, next, rest) := NextToken(AUTOMATON, RULES, STARTS, x, w);
      StandsAt(h, x, w, k, next, rest)
    decreases |w|
  {
    hide Sound, Head, Fits, Stray, PassedOver, IsToken, NextToken;
    k := 0;
    if w == [] {
      NoneLeft(x);
    } else {
      HeadFits(x, w);
      var h := Head(AUTOMATON, x, w);
      if RULES.emits(h.act) {
        StandsHere(x, w);
        Returned(x, w);
      } else {
        PassesOn(x, w);
        var m := NextTokenStands(x, w[|h.text|..]);
        k := |h.text| + m;
        var (t, next, rest) := NextToken(AUTOMATON, RULES, STARTS, x, w);
        StandsLater(t, x, w, h.text, m, next, rest);
      }
    }
  }

  lemma NoneLeft(x: int)
    requires IsStart(x) && Scannable(AUTOMATON, RULES, STARTS, x, [])
    ensures var (h, next, rest) := NextToken(AUTOMATON, RULES, STARTS, x, []);
      StandsAt(h, x, [], 0, next, rest)
  {
    hide Sound, Fits, IsToken;
    HeadShrinks(AUTOMATON, RULES, STARTS, x, []);
    HeadAtEnd(x);
  }

  lemma Returned(x: int, w: seq<char>)
    requires IsStart(x) && Scannable(AUTOMATON, RULES, STARTS, x, w) && RULES.emits(Head(AUTOMATON, x, w).act)
    ensures var h := Head(AUTOMATON, x, w);
      |h.text| <= |w| && NextToken(AUTOMATON, RULES, STARTS, x, w) == (h, RULES.begin(h.act, x), w[|h.text|..])
  {
    hide Sound, Head;
    HeadShrinks(AUTOMATON, RULES, STARTS, x, w);
  }

  lemma HeadAtEnd(x: int)
    ensures Head(AUTOMATON, x, []) == Lexeme(YY_STATE_EOF, [])
  {
  }

  lemma StandsHere(x: int, w: seq<char>)
    requires IsStart(x) && NoNul(w) && w != []
    requires var h := Head(AUTOMATON, x, w);
      |h.text| <= |w| && h.text == w[..|h.text|] && Fits(h, x) && RULES.emits(h.act)
    ensures var h := Head(AUTOMATON, x, w);
      StandsAt(h, x, w, 0, RULES.begin(h.act, x), w[|h.text|..])
  {
    hide IsToken, Head;
    var h := Head(AUTOMATON, x, w);
    assert w[0..] == w && w[..0] == [] && w == w[..|h.text|] + w[|h.text|..];
    forall e | 0 < e <= |w| && IsToken(w[0..e]) ensures e <= |h.text| {
      assert w[0..e] == w[..e];
      HeadIsLongest(x, w, e);
    }
  }

  /** A match without a token is passed over, and the start condition stays. */
  lemma PassesOn(x: int, w: seq<char>)
    requires IsStart(x) && w != [] && Scannable(AUTOMATON, RULES, STARTS, x, w)
    requires var h := Head(AUTOMATON, x, w); Fits(h, x) && !RULES.emits(h.act)
    ensures var h := Head(AUTOMATON, x, w);
      && 0 < |h.text| <= |w| && Scannable(AUTOMATON, RULES, STARTS, x, w[|h.text|..]) && PassedOver(h.text)
      && NextToken(AUTOMATON, RULES, STARTS, x, w) == NextToken(AUTOMATON, RULES, STARTS, x, w[|h.text|..])
  {
    hide IsWord, Sound, Head, Stray, Blank;
    HeadShrinks(AUTOMATON, RULES, STARTS, x, w);
    var h := Head(AUTOMATON, x, w);
    assert RULES.begin(h.act, x) == Begin(h.act, x) == x && RULES.emits(h.act) == Emits(h.act);
  }

  lemma StandsLater(h: Lexeme, x: int, w: seq<char>, u: seq<char>, m: nat, next: int, rest: seq<char>)
    requires |u| <= |w| && u == w[..|u|] && PassedOver(u) && StandsAt(h, x, w[|u|..], m, next, rest)
    ensures StandsAt(h, x, w, |u| + m, next, rest)
  {
    hide IsToken, Stray, Blank, Fits;
    var v, k := w[|u|..], |u| + m;
    assert w[..k] == u + v[..m] && w[k..] == v[m..];
    forall e | k < e <= |w| ensures w[k..e] == v[m..e - |u|] {
    }
  }

  /** The tokens of a whole stream, one after the other, up to the end of the file and no further. */
  ghost predicate Lexed(x: int, w: seq<char>, tokens: seq<Lexeme>)
    decreases |w|
  {
    && tokens != []
    && exists k: nat, next, rest :: StandsAt(tokens[0], x, w, k, next, rest) &&
         if tokens[0].act == YY_STATE_EOF then |tokens| == 1
         else |rest| < |w| && IsStart(next) && Lexed(next, rest, tokens[1..])
  }

  lemma {:induction false} TokensAreLexed(x: int, w: seq<char>)
    requires IsStart(x) && NoNul(w) && Scannable(AUTOMATON, RULES, STARTS, x, w)
    ensures Lexed(x, w, Tokens(AUTOMATON, RULES, STARTS, x, w))
    decreases |w|
  {
    hide Sound, SoundRules, StandsAt, NextToken, Tokens;
    var k := NextTokenStands(x, w);
    TokensStep(AUTOMATON, RULES, STARTS, x, w);
    var (h, next, rest) := NextToken(AUTOMATON, RULES, STARTS, x, w);
    var tokens := Tokens(AUTOMATON, RULES, STARTS, x, w);
    if h.act != YY_STATE_EOF {
      TokensAreLexed(next, rest);
      assert tokens[1..] == Tokens(AUTOMATON, RULES, STARTS, next, rest);
    }
    assert StandsAt(tokens[0], x, w, k, next, rest);
  }
}
