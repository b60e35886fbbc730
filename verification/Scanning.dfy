/**
 What a flex scanner means: longest match of an arbitrary automaton over a whole stream, with
 back-up to the last accepting position, and the tokens of a stream under changing start states.
 */
module Scanning {

  const NUL: char := '\0'
  const YY_END_OF_BUFFER := 19
  const YY_STATE_EOF := 20

  /**
   A compressed scanner automaton: transitions, the rule accepted in a state (0 for none), the
   states in which matching stops at once (`yy_base[s] == 254`), and the state entered on the
   end-of-buffer character.
   */
  datatype Dfa = Dfa(delta: (int, char) -> int, accept: int -> int, stop: int -> bool, eob: int)

  /** What flex guarantees of the tables it writes, for a set of start states. */
  ghost predicate Sound(d: Dfa, starts: set<int>) {
    && (forall s :: !d.stop(s) && s != d.eob ==> d.delta(s, NUL) == d.eob)
    && !d.stop(d.eob) && d.accept(d.eob) == YY_END_OF_BUFFER
    && d.stop(d.delta(d.eob, NUL)) && d.accept(d.delta(d.eob, NUL)) == 0
    && (forall s, c :: c != NUL && !d.stop(s) && s != d.eob ==>
          d.delta(s, c) != d.eob && d.accept(d.delta(s, c)) != YY_END_OF_BUFFER)
    && (forall s :: s in starts ==> !d.stop(s) && s != d.eob && d.accept(s) != YY_END_OF_BUFFER)
    && (forall s, c :: s in starts && c != NUL ==> d.accept(d.delta(s, c)) != 0)
    && (forall s :: d.accept(s) != YY_STATE_EOF)
  }

  /** The state after `k` characters. */
  function State(d: Dfa, s: int, w: seq<char>, k: nat): int
    requires k <= |w|
  {
    if k == 0 then s else d.delta(State(d, s, w, k - 1), w[k - 1])
  }

  /** The last position before `k` in an accepting state; -1 if there is none. */
  function Last(d: Dfa, s: int, w: seq<char>, k: nat): (r: int)
    requires k <= |w|
    ensures -1 <= r < k
  {
    if k == 0 then -1
    else if d.accept(State(d, s, w, k - 1)) != 0 then k - 1
    else Last(d, s, w, k - 1)
  }

  /** Where matching stops: at a stopping state or at the end of the stream. */
  function StopAt(d: Dfa, s: int, w: seq<char>, k: nat): (r: nat)
    requires k <= |w|
    ensures k <= r <= |w|
    decreases |w| - k
  {
    if k == |w| || d.stop(State(d, s, w, k)) then k else StopAt(d, s, w, k + 1)
  }

  /** The match once scanning has stopped at `k`: there if accepting, else the last accepting position. */
  function Found(d: Dfa, s: int, w: seq<char>, k: nat): int
    requires k <= |w|
  {
    if d.accept(State(d, s, w, k)) != 0 then k else Last(d, s, w, k)
  }

  /** The length of the token at the head of the stream. */
  function MatchLength(d: Dfa, s: int, w: seq<char>): int {
    Found(d, s, w, StopAt(d, s, w, 0))
  }

  predicate NoStop(d: Dfa, s: int, w: seq<char>, k: nat)
    requires k <= |w|
  {
    forall j | 0 <= j < k :: !d.stop(State(d, s, w, j))
  }

  predicate NoNul(w: seq<char>) { NUL !in w }

  /** One character more. */
  lemma Onward(d: Dfa, s: int, w: seq<char>, k: nat)
    requires k < |w|
    ensures State(d, s, w, k + 1) == d.delta(State(d, s, w, k), w[k])
    ensures Last(d, s, w, k + 1) == if d.accept(State(d, s, w, k)) != 0 then k else Last(d, s, w, k)
    ensures NoStop(d, s, w, k + 1) <==> NoStop(d, s, w, k) && !d.stop(State(d, s, w, k))
  {
  }

  /** States depend only on the characters read. */
  lemma {:induction false} StatePrefix(d: Dfa, s: int, w: seq<char>, v: seq<char>, k: nat)
    requires k <= |w| && k <= |v| && w[..k] == v[..k]
    ensures State(d, s, w, k) == State(d, s, v, k) && Last(d, s, w, k) == Last(d, s, v, k)
  {
    if k > 0 {
      assert w[..k - 1] == w[..k][..k - 1] == v[..k][..k - 1] == v[..k - 1];
      assert w[k - 1] == w[..k][k - 1] == v[..k][k - 1] == v[k - 1];
      StatePrefix(d, s, w, v, k - 1);
    }
  }

  lemma {:induction false} StopIs(d: Dfa, s: int, w: seq<char>, j: nat, k: nat)
    requires j <= k <= |w| && NoStop(d, s, w, k) && (k == |w| || d.stop(State(d, s, w, k)))
    ensures StopAt(d, s, w, j) == k
    decreases k - j
  {
    if j < k { StopIs(d, s, w, j + 1, k); }
  }

  lemma {:induction false} StopIsFirst(d: Dfa, s: int, w: seq<char>, k: nat)
    requires k <= |w| && NoStop(d, s, w, k)
    ensures var r := StopAt(d, s, w, k); NoStop(d, s, w, r) && (r == |w| || d.stop(State(d, s, w, r)))
    decreases |w| - k
  {
    if k < |w| && !d.stop(State(d, s, w, k)) { StopIsFirst(d, s, w, k + 1); }
  }

  lemma {:induction false} LastIsLast(d: Dfa, s: int, w: seq<char>, k: nat)
    requires k <= |w|
    ensures var r := Last(d, s, w, k);
            && (r >= 0 ==> d.accept(State(d, s, w, r)) != 0)
            && forall j | r < j < k && 0 <= j :: d.accept(State(d, s, w, j)) == 0
  {
    if k > 0 && d.accept(State(d, s, w, k - 1)) == 0 { LastIsLast(d, s, w, k - 1); }
  }

  /**
   The token is the longest: its end is accepting, and no longer prefix that the automaton reads
   without stopping before is accepting. It is never empty.
   */
  lemma MatchIsLongest(d: Dfa, starts: set<int>, s: int, w: seq<char>)
    requires Sound(d, starts) && s in starts && w != [] && NoNul(w)
    ensures var n := MatchLength(d, s, w);
            && 1 <= n <= |w| && d.accept(State(d, s, w, n)) != 0 && NoStop(d, s, w, n)
            && forall j | n < j <= |w| && NoStop(d, s, w, j) :: d.accept(State(d, s, w, j)) == 0
  {
    StopIsFirst(d, s, w, 0);
    var k := StopAt(d, s, w, 0);
    LastIsLast(d, s, w, k);
    FirstAccepts(d, starts, s, w);
    assert State(d, s, w, 0) == s;
    var n := MatchLength(d, s, w);
  }

  lemma FirstAccepts(d: Dfa, starts: set<int>, s: int, w: seq<char>)
    requires Sound(d, starts) && s in starts && w != [] && NoNul(w)
    ensures d.accept(State(d, s, w, 1)) != 0
  {
    assert w[0] in w;
    assert State(d, s, w, 0) == s;
  }

  /** Away from the end of the buffer the automaton never enters its end-of-buffer state. */
  lemma {:induction false} OrdinaryState(d: Dfa, starts: set<int>, s: int, w: seq<char>, k: nat)
    requires Sound(d, starts) && s in starts && NoNul(w) && k <= |w| && NoStop(d, s, w, k)
    ensures State(d, s, w, k) != d.eob && d.accept(State(d, s, w, k)) != YY_END_OF_BUFFER
  {
    if k > 0 {
      OrdinaryState(d, starts, s, w, k - 1);
      assert w[k - 1] in w;
      assert !d.stop(State(d, s, w, k - 1));
    }
  }

  /** The rules' actions: the start state each one leaves behind, and whether it returns a token. */
  datatype Rules = Rules(begin: (int, int) -> int, emits: int -> bool)

  /** An action number with the matched text. */
  datatype Lexeme = Lexeme(act: int, text: seq<char>)

  ghost predicate SoundRules(d: Dfa, rules: Rules, starts: set<int>) {
    Sound(d, starts) && rules.emits(YY_STATE_EOF) && forall act, s :: s in starts ==> rules.begin(act, s) in starts
  }

  /** A stream in front of the scanner: the start state and the characters. */
  ghost predicate Scannable(d: Dfa, rules: Rules, starts: set<int>, s: int, w: seq<char>) {
    SoundRules(d, rules, starts) && s in starts && NoNul(w)
  }

  /** The action and text of one match at the head of a stream. */
  function Head(d: Dfa, s: int, w: seq<char>): Lexeme {
    var n := MatchLength(d, s, w);
    if w == [] || n < 0 then Lexeme(YY_STATE_EOF, []) else Lexeme(d.accept(State(d, s, w, n)), w[..n])
  }

  lemma BeginInStarts(d: Dfa, rules: Rules, starts: set<int>, act: int, s: int)
    requires SoundRules(d, rules, starts) && s in starts
    ensures rules.begin(act, s) in starts
  {
    hide Sound;
  }

  /** A match uses up its text, and the rest is scannable again. */
  lemma HeadShrinks(d: Dfa, rules: Rules, starts: set<int>, s: int, w: seq<char>)
    requires Scannable(d, rules, starts, s, w)
    ensures var h := Head(d, s, w);
            && |h.text| <= |w| && (w != [] ==> 0 < |h.text|) && (w == [] ==> h.act == YY_STATE_EOF)
            && Scannable(d, rules, starts, rules.begin(h.act, s), w[|h.text|..])
  {
    hide Sound, MatchLength;
    if w != [] { MatchIsLongest(d, starts, s, w); }
  }

  /** What one call of the scanner skips and returns: the token, and the stream behind it. */
  ghost function NextToken(d: Dfa, rules: Rules, starts: set<int>, s: int, w: seq<char>): (Lexeme, int, seq<char>)
    requires Scannable(d, rules, starts, s, w)
    decreases |w|
  {
    HeadShrinks(d, rules, starts, s, w);
    var h := Head(d, s, w);
    var next, rest := rules.begin(h.act, s), w[|h.text|..];
    if rules.emits(h.act) || w == [] then (h, next, rest) else NextToken(d, rules, starts, next, rest)
  }

  lemma {:induction false} NextTokenShrinks(d: Dfa, rules: Rules, starts: set<int>, s: int, w: seq<char>)
    requires Scannable(d, rules, starts, s, w)
    ensures var (h, next, rest) := NextToken(d, rules, starts, s, w);
            && Scannable(d, rules, starts, next, rest)
            && (|rest| < |w| || (rest == w == [] && h == Lexeme(YY_STATE_EOF, [])))
    decreases |w|
  {
    hide Sound, Head;
    HeadShrinks(d, rules, starts, s, w);
    var h := Head(d, s, w);
    if !rules.emits(h.act) && w != [] {
      NextTokenShrinks(d, rules, starts, rules.begin(h.act, s), w[|h.text|..]);
    }
  }

  /** All tokens of a stream, up to and including the end-of-file token. */
  ghost function Tokens(d: Dfa, rules: Rules, starts: set<int>, s: int, w: seq<char>): seq<Lexeme>
    requires Scannable(d, rules, starts, s, w)
    decreases |w|
  {
    NextTokenShrinks(d, rules, starts, s, w);
    var (h, next, rest) := NextToken(d, rules, starts, s, w);
    if h.act == YY_STATE_EOF || |rest| >= |w| then [h] else [h] + Tokens(d, rules, starts, next, rest)
  }

  lemma TokensStep(d: Dfa, rules: Rules, starts: set<int>, s: int, w: seq<char>)
    requires Scannable(d, rules, starts, s, w)
    ensures var (h, next, rest) := NextToken(d, rules, starts, s, w);
      && Scannable(d, rules, starts, next, rest)
      && (h.act == YY_STATE_EOF ==> Tokens(d, rules, starts, s, w) == [h])
      && (h.act != YY_STATE_EOF ==>
            |rest| < |w| && Tokens(d, rules, starts, s, w) == [h] + Tokens(d, rules, starts, next, rest))
  {
    hide SoundRules, NextToken;
    NextTokenShrinks(d, rules, starts, s, w);
  }
}
