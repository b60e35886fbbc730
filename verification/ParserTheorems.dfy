/** What one call of `yyparse` does with any token stream. */
module ParserTheorems {
  import opened Syntax
  import opened LalrTables
  import opened Derivations
  import opened Driver
  import opened Completeness

  /** Position `k` holds the first terminator of the stream. */
  predicate LineEndsAt(tokens: seq<Token>, k: nat) {
    k < |tokens| && IsTerminator(tokens[k]) && NoTerminator(tokens, k)
  }

  /** The derivation of a terminator token. */
  function TerminatorTree(token: Token): Tree {
    Node(if token.kind.YEOF? then 5 else 6, [Leaf(token)])
  }

  /** A call reads exactly up to and including the first terminator, on good and bad lines alike. */
  lemma ConsumesOneLine(tokens: seq<Token>)
    ensures match Parse(tokens)
            case Accepted(_, c) => 0 < c.pos <= |tokens| && LineEndsAt(tokens, c.pos - 1)
            case Aborted(c) => c.pos == |tokens| && NoTerminator(tokens, |tokens|)
  {
    hide StackOk, Decide, Live, PastTerminator, ModeOk;
    StartInv(tokens);
    RunEnds(tokens, START);
    var last := Parse(tokens).config;
    EndShape(tokens, last);
    NotPast1();
  }

  lemma NotPast1()
    ensures !PastTerminator(1)
  {}

  /** A terminator tree is a single EOLN or YEOF token. */
  lemma TerminatorShape(t: Tree)
    requires WellFormed(t) && Symbol(t) == TERMINATOR
    ensures t.Node? && |t.kids| == 1 && t.kids[0].Leaf? && t == TerminatorTree(t.kids[0].token)
    ensures Yield(t) == [t.kids[0].token]
  {
    hide Rhs, Lhs, Yyr2;
    NoLeafIsNonterminal(t);
    TerminatorRule(t.rule);
    KidIsOrdinary(t, 0);
    NoNodeIsTerminal(t.kids[0]);
    assert t.kids == [t.kids[0]];
    YieldOne(t.kids[0]);
  }

  lemma NoLeafIsNonterminal(t: Tree)
    ensures Symbol(t) >= YYNTOKENS && WellFormed(t) ==> t.Node?
  {}

  lemma NoNodeIsTerminal(t: Tree)
    requires WellFormed(t)
    ensures 1 < Symbol(t) < YYNTOKENS ==> t.Leaf?
  {
    hide Rhs, Lhs;
    if t.Node? { TablesMatchGrammar(t.rule); }
  }

  lemma TerminatorRule(r: int)
    requires IsRule(r) && Lhs(r) == TERMINATOR
    ensures (r == 5 && Rhs(r) == [Code(YEOF)]) || (r == 6 && Rhs(r) == [Code(EOLN)])
  {}

  /** Soundness: a line that is accepted as commands derives from cmd_seq, by the tree on the stack. */
  lemma AcceptedLineDerives(tokens: seq<Token>)
    requires Parse(tokens).Accepted? && Parse(tokens).rule == 2
    ensures var c := Parse(tokens).config;
            && 0 < c.pos <= |tokens| && c.nerrs == 0 && |c.trees| == 2
            && DerivationOf(c.trees[0], CMD_SEQ, tokens[..c.pos - 1])
            && c.trees[1] == TerminatorTree(tokens[c.pos - 1])
  {
    hide Decide, Live, PastTerminator, Edge, Rhs, Lhs, Run, LineOk;
    StartInv(tokens);
    RunEnds(tokens, START);
    var c := Parse(tokens).config;
    EndShape(tokens, c);
    ConsumesOneLine(tokens);
    assert c.states[1] == 7 && c.states[2] == 12;
    assert Symbol(c.trees[0]) == Yystos(7) && Symbol(c.trees[1]) == Yystos(12);
    TerminatorShape(c.trees[1]);
    assert c.trees == [c.trees[0], c.trees[1]];
    YieldTwo(c.trees[0], c.trees[1]);
    assert tokens[..c.pos] == tokens[..c.pos - 1] + [tokens[c.pos - 1]];
  }

  /** An empty line is a terminator alone. */
  lemma BlankLineIsEmpty(tokens: seq<Token>)
    requires Parse(tokens).Accepted? && Parse(tokens).rule == 3
    ensures Parse(tokens).config.pos == 1 && Parse(tokens).config.nerrs == 0
  {
    hide Decide, Live, PastTerminator, Edge, Rhs, Lhs, Run, LineOk;
    StartInv(tokens);
    RunEnds(tokens, START);
    var c := Parse(tokens).config;
    EndShape(tokens, c);
    ConsumesOneLine(tokens);
    assert c.states[1] == 6;
    assert Symbol(c.trees[0]) == Yystos(6);
    TerminatorShape(c.trees[0]);
    assert c.trees == [c.trees[0]];
    YieldOne(c.trees[0]);
  }

  lemma BadLineReported(tokens: seq<Token>)
    requires Parse(tokens).Aborted? || Parse(tokens).rule == 4
    ensures Parse(tokens).config.nerrs == 1
  {
    hide Decide, Live, PastTerminator, Edge, Rhs, Lhs, Run, LineOk, WellFormed;
    StartInv(tokens);
    RunEnds(tokens, START);
    var c := Parse(tokens).config;
    EndShape(tokens, c);
    assert c.states[1] == 1;
  }

  /** Completeness: every line the grammar derives is accepted with that very derivation. */
  lemma DerivedLineAccepted(tokens: seq<Token>, k: nat, t: Tree)
    requires LineEndsAt(tokens, k) && DerivationOf(t, CMD_SEQ, tokens[..k])
    ensures Parse(tokens).Accepted? && Parse(tokens).rule == 2
    ensures Parse(tokens).config == Config([0, 7, 12], [t, TerminatorTree(tokens[k])], k + 1, 0, 0)
  {
    hide Run, Inv, Live, Rhs, Lhs, Decide, After, Follow, CanGo, Step;
    StartInv(tokens);
    CommandsThenTerminator(tokens[k]);
    NoLeafIsNonterminal(t);
    CommandRule(t.rule);
    Drive(tokens, START, t);
    var c := Pushed(START, t);
    assert c.pos == k && Top(c) == 7;
    TerminatorYield(tokens[k]);
    assert tokens[k..k + 1] == [tokens[k]];
    Drive(tokens, c, TerminatorTree(tokens[k]));
    var d := Pushed(c, TerminatorTree(tokens[k]));
    assert d.states == [0, 7, 12];
    AcceptsAt(tokens, d, 12, 2);
  }

  lemma CommandsThenTerminator(token: Token)
    requires IsTerminator(token)
    ensures CanGo(0, CMD_SEQ) && After(0, CMD_SEQ) == 7 && Follow(CMD_SEQ, Code(token.kind))
    ensures CanGo(7, TERMINATOR) && After(7, TERMINATOR) == 12
    ensures CanGo(0, TERMINATOR) && After(0, TERMINATOR) == 6
  {}

  lemma CommandRule(r: int)
    ensures Lhs(r) == CMD_SEQ && IsRule(r) ==> 5 <= r
  {}

  lemma TerminatorYield(token: Token)
    requires IsTerminator(token)
    ensures var t := TerminatorTree(token);
            && WellFormed(t) && Symbol(t) == TERMINATOR && Yield(t) == [token]
            && forall la :: Follow(TERMINATOR, la)
  {
    YieldOne(Leaf(token));
  }

  lemma AcceptsAt(tokens: seq<Token>, c: Config, q: int, r: int)
    requires Inv(tokens, c) && Top(c) == q
    requires (q == 12 && r == 2) || (q == 6 && r == 3)
    ensures Run(tokens, c) == Accepted(r, c)
  {
    hide Inv, Decide;
    DecideIs(q, Look(tokens, c.pos));
  }

  lemma BlankLineAccepted(tokens: seq<Token>)
    requires LineEndsAt(tokens, 0)
    ensures Parse(tokens).Accepted? && Parse(tokens).rule == 3
  {
    hide Run, Inv, Live, Rhs, Lhs, Decide, After, Follow, CanGo, Step;
    StartInv(tokens);
    CommandsThenTerminator(tokens[0]);
    TerminatorYield(tokens[0]);
    assert tokens[0..1] == [tokens[0]];
    Drive(tokens, START, TerminatorTree(tokens[0]));
    var d := Pushed(START, TerminatorTree(tokens[0]));
    assert d.states == [0, 6];
    AcceptsAt(tokens, d, 6, 3);
  }

  /**
   The whole meaning of a call on a stream whose first terminator is at `k`: the terminator is the
   last token read; the line is accepted as commands exactly when it derives from cmd_seq, as blank
   exactly when it is empty, and otherwise as an error, reported once.
   */
  lemma ParseClassifies(tokens: seq<Token>, k: nat)
    requires LineEndsAt(tokens, k)
    ensures Parse(tokens).Accepted?
    ensures var Accepted(rule, c) := Parse(tokens);
            && c.pos == k + 1 && rule in {2, 3, 4}
            && (rule == 2 <==> Derives(CMD_SEQ, tokens[..k]))
            && (rule == 2 ==> |c.trees| == 2 && DerivationOf(c.trees[0], CMD_SEQ, tokens[..k]))
            && (rule == 3 <==> k == 0)
            && c.nerrs == (if rule == 4 then 1 else 0)
  {
    hide Run, DerivationOf, Inv, Step, StackOk;
    ConsumesOneLine(tokens);
    StartInv(tokens);
    RunEnds(tokens, START);
    EndShape(tokens, Parse(tokens).config);
    if Derives(CMD_SEQ, tokens[..k]) {
      var t :| DerivationOf(t, CMD_SEQ, tokens[..k]);
      DerivedLineAccepted(tokens, k, t);
    }
    if k == 0 { BlankLineAccepted(tokens); }
    match Parse(tokens).rule
    case 2 => AcceptedLineDerives(tokens);
    case 3 => BlankLineIsEmpty(tokens);
    case _ => BadLineReported(tokens);
  }

  /** The grammar is unambiguous on lines: the tables find the only derivation there is. */
  lemma Unambiguous(line: seq<Token>, t: Tree, u: Tree)
    requires DerivationOf(t, CMD_SEQ, line) && DerivationOf(u, CMD_SEQ, line)
    ensures t == u
  {
    hide DerivationOf, Parse;
    var tokens := line + [Token(EOLN, "")];
    assert tokens[..|line|] == line;
    assert LineEndsAt(tokens, |line|) by { LineHasNoTerminator(line, t); }
    DerivedLineAccepted(tokens, |line|, t);
    DerivedLineAccepted(tokens, |line|, u);
  }

  lemma LineHasNoTerminator(line: seq<Token>, t: Tree)
    requires DerivationOf(t, CMD_SEQ, line)
    ensures NoTerminator(line, |line|)
  {
    InnerTokens(t);
  }

  /** The symbols below cmd_seq: none of them derives a terminator. */
  predicate Inner(symbol: int) { 2 < symbol < 18 || 25 <= symbol }

  lemma InnerRule(r: int, i: nat)
    requires IsRule(r) && Inner(Lhs(r)) && i < |Rhs(r)| && r >= 5
    ensures Inner(Rhs(r)[i])
  {}

  lemma InnerIsLate(r: int)
    ensures IsRule(r) && Inner(Lhs(r)) ==> 5 <= r
  {}

  lemma {:induction false} InnerTokens(t: Tree)
    requires WellFormed(t) && Inner(Symbol(t))
    ensures NoTerminator(Yield(t), |Yield(t)|)
    decreases t, 1, 0
  {
    hide Rhs, Lhs;
    match t
    case Leaf(_) =>
    case ErrorLeaf =>
    case Node(r, kids) =>
      InnerIsLate(r);
      assert kids[0..] == kids;
      InnerKids(t, 0);
  }

  lemma {:induction false} InnerKids(t: Tree, i: nat)
    requires t.Node? && WellFormed(t) && Inner(Symbol(t)) && 5 <= t.rule && i <= |t.kids|
    ensures NoTerminator(YieldAll(t.kids[i..]), |YieldAll(t.kids[i..])|)
    decreases t, 0, |t.kids| - i
  {
    hide Rhs, Lhs, Inner;
    if i < |t.kids| {
      KidIsOrdinary(t, i);
      InnerRule(t.rule, i);
      InnerTokens(t.kids[i]);
      InnerKids(t, i + 1);
      assert t.kids[i..][0] == t.kids[i] && t.kids[i..][1..] == t.kids[i + 1..];
      assert YieldAll(t.kids[i..]) == Yield(t.kids[i]) + YieldAll(t.kids[i + 1..]);
    }
  }
}
