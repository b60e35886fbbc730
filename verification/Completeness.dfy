/** Whatever the grammar derives, the table driver accepts: it drives over any derivation tree. */
module Completeness {
  import opened Syntax
  import opened LalrTables
  import opened Derivations
  import opened Driver

  /** `symbol` can be shifted or gone to from state `s`. */
  predicate CanGo(s: int, symbol: int) {
    if symbol < YYNTOKENS then Shifts(s, symbol)
    else 24 <= symbol < 36 && Edge(s, Target(s, symbol)) && Yystos(Target(s, symbol)) == symbol
  }

  function After(s: int, symbol: int): int {
    if symbol < YYNTOKENS then ShiftTarget(s, symbol) else Target(s, symbol)
  }

  /** The state reached from `s` over the first `i` symbols of `rule`. */
  function Along(s: int, rule: int, i: nat): int
    requires i <= |Rhs(rule)|
  {
    if i == 0 then s else After(Along(s, rule, i - 1), Rhs(rule)[i - 1])
  }

  /** The tokens that can come right after a nonterminal (its FOLLOW set). */
  predicate Follow(symbol: int, token: int) {
    match symbol
    case 25 => token == 18 || token == 19
    case 26 => CommandEnd(token)
    case 27 => CommandEnd(token)
    case 28 => CommandEnd(token) || token == 7 || token == 8
    case 29 => CommandEnd(token) || token == 7 || token == 8 || 11 <= token <= 14
    case 30 => CommandEnd(token) || token == 7 || token == 8 || token == 10
    case 31 => CommandEnd(token)
    case 32 => token == 4 || token == 18 || token == 19
    case 33 => token == 4
    case 34 => CommandEnd(token) || token == 3 || token == 7 || token == 8 || 10 <= token <= 15
    case 35 => CommandEnd(token) || token == 3 || token == 7 || token == 8 || 10 <= token <= 15
    case _ => true
  }

  predicate CommandEnd(token: int) { token == 6 || token == 9 || token == 18 || token == 19 }

  /** The tokens that can begin a symbol (its FIRST set). */
  predicate First(symbol: int, token: int) {
    match symbol
    case 24 => token == 18 || token == 19
    case 25 => token == 4
    case 26 => token == 4
    case 27 => token == 7 || token == 8 || 10 <= token <= 14
    case 28 => 10 <= token <= 14
    case 29 => token == 10
    case 30 => 11 <= token <= 14
    case 31 => token == 7 || token == 8
    case 32 => token == 6 || token == 9
    case 33 => token == 7 || token == 8
    case 34 => token == 3 || token == 15
    case 35 => token == 3 || token == 15
    case _ => token == symbol
  }

  /** The two symbols that derive the empty string. */
  predicate Nullable(symbol: int) { symbol == 27 || symbol == 34 }

  lemma RuleStartsRight(r: int, token: int)
    requires 5 <= r < 33
    ensures Rhs(r) == [] ==> Nullable(Lhs(r))
    ensures Rhs(r) != [] && First(Rhs(r)[0], token) ==> First(Lhs(r), token)
    ensures Rhs(r) != [] && Nullable(Rhs(r)[0]) ==> r == 29
  {}

  lemma RuleFollows(r: int, i: nat, token: int)
    requires 5 <= r < 33 && i < |Rhs(r)| && YYNTOKENS <= Rhs(r)[i]
    ensures i + 1 == |Rhs(r)| && Follow(Lhs(r), token) ==> Follow(Rhs(r)[i], token)
    ensures i + 1 < |Rhs(r)| && First(Rhs(r)[i + 1], token) ==> Follow(Rhs(r)[i], token)
    ensures i + 1 < |Rhs(r)| && Nullable(Rhs(r)[i + 1]) ==>
              i + 2 == |Rhs(r)| && (Follow(Lhs(r), token) ==> Follow(Rhs(r)[i], token))
  {}

  /** From any state that expects a nonterminal, each of its rules can be followed symbol by symbol. */
  lemma RuleGoes(s: int, r: int, i: nat)
    requires Live(s) && 5 <= r < 33 && CanGo(s, Lhs(r)) && i < |Rhs(r)|
    ensures CanGo(Along(s, r, i), Rhs(r)[i])
  {
    hide CanGo, After, Lhs, Rhs, Live;
    TablesMatchGrammar(r);
    if i == 0 { RuleGoes0(s, r); } else if i == 1 { RuleGoes1(s, r); } else { RuleGoes2(s, r); }
    Unroll(s, r);
  }

  /** A path over at most three symbols, written out. */
  lemma Unroll(s: int, r: int)
    ensures Along(s, r, 0) == s
    ensures |Rhs(r)| > 0 ==> Along(s, r, 1) == After(s, Rhs(r)[0])
    ensures |Rhs(r)| > 1 ==> Along(s, r, 2) == After(After(s, Rhs(r)[0]), Rhs(r)[1])
    ensures |Rhs(r)| > 2 ==> Along(s, r, 3) == After(After(After(s, Rhs(r)[0]), Rhs(r)[1]), Rhs(r)[2])
  {
    hide After, Rhs;
  }

  lemma RuleGoes0(s: int, r: int)
    requires Live(s) && 5 <= r < 33 && CanGo(s, Lhs(r)) && 0 < |Rhs(r)|
    ensures CanGo(s, Rhs(r)[0])
  {}

  lemma RuleGoes1(s: int, r: int)
    requires Live(s) && 5 <= r < 33 && CanGo(s, Lhs(r)) && 1 < |Rhs(r)|
    ensures CanGo(After(s, Rhs(r)[0]), Rhs(r)[1])
  {}

  lemma RuleGoes2(s: int, r: int)
    requires Live(s) && 5 <= r < 33 && CanGo(s, Lhs(r)) && 2 < |Rhs(r)|
    ensures CanGo(After(After(s, Rhs(r)[0]), Rhs(r)[1]), Rhs(r)[2])
  {}

  /** The state that has seen the whole right-hand side of `r`. */
  function EndOf(r: int): int {
    match r
    case 5 => 4 case 6 => 3 case 7 => 32 case 8 => 15 case 9 => 8 case 10 => 25 case 11 => 26
    case 12 => 29 case 13 => 38 case 14 => 10 case 15 => 27 case 16 => 28 case 17 => 39
    case 18 => 40 case 19 => 33 case 20 => 34 case 21 => 35 case 22 => 36 case 23 => 37
    case 24 => 41 case 25 => 13 case 26 => 14 case 27 => 17 case 28 => 18 case 29 => 31
    case 30 => 2 case 31 => 16 case _ => 24
  }

  lemma RuleEnds(s: int, r: int)
    requires Live(s) && 5 <= r < 33 && CanGo(s, Lhs(r))
    ensures Along(s, r, |Rhs(r)|) == EndOf(r)
  {
    hide CanGo, After, Lhs, Rhs, EndOf, Live;
    TablesMatchGrammar(r);
    Unroll(s, r);
    var n := |Rhs(r)|;
    if n == 0 { RuleEnds0(s, r); } else if n == 1 { RuleEnds1(s, r); }
    else if n == 2 { RuleEnds2(s, r); } else { RuleEnds3(s, r); }
  }

  lemma RuleEnds0(s: int, r: int)
    requires Live(s) && 5 <= r < 33 && CanGo(s, Lhs(r)) && |Rhs(r)| == 0
    ensures s == EndOf(r)
  {}

  lemma RuleEnds1(s: int, r: int)
    requires Live(s) && 5 <= r < 33 && CanGo(s, Lhs(r)) && |Rhs(r)| == 1
    ensures After(s, Rhs(r)[0]) == EndOf(r)
  {}

  lemma RuleEnds2(s: int, r: int)
    requires Live(s) && 5 <= r < 33 && CanGo(s, Lhs(r)) && |Rhs(r)| == 2
    ensures After(After(s, Rhs(r)[0]), Rhs(r)[1]) == EndOf(r)
  {}

  lemma RuleEnds3(s: int, r: int)
    requires Live(s) && 5 <= r < 33 && CanGo(s, Lhs(r)) && |Rhs(r)| == 3
    ensures After(After(After(s, Rhs(r)[0]), Rhs(r)[1]), Rhs(r)[2]) == EndOf(r)
  {}

  /** Behind the last symbol, every token that may follow makes the driver reduce by that rule. */
  lemma EndReduces(r: int, token: int)
    requires 5 <= r < 33 && Follow(Lhs(r), token)
    ensures Yydefact(EndOf(r)) == r && !Shifts(EndOf(r), token)
  {}

  /** A tree starts with a token of its FIRST set, or is empty and its symbol is nullable. */
  lemma {:induction false} TreeStarts(t: Tree)
    requires WellFormed(t) && !t.ErrorLeaf? && (t.Node? ==> 5 <= t.rule)
    ensures Yield(t) == [] ==> Nullable(Symbol(t))
    ensures Yield(t) != [] ==> First(Symbol(t), Code(Yield(t)[0].kind))
  {
    hide First, Rhs, Lhs, Nullable;
    match t
    case Leaf(token) => LeafStarts(token);
    case Node(r, kids) =>
      if kids == [] {
        RuleStartsRight(r, 0);
      } else {
        KidIsOrdinary(t, 0);
        TreeStarts(kids[0]);
        assert Yield(t) == Yield(kids[0]) + YieldAll(kids[1..]);
        if Yield(kids[0]) != [] {
          RuleStartsRight(r, Code(Yield(kids[0])[0].kind));
        } else {
          RuleStartsRight(r, 0);
          LongList(t);
          KidIsOrdinary(t, 1);
          TreeStarts(kids[1]);
          assert kids == [kids[0], kids[1]];
          YieldTwo(kids[0], kids[1]);
          ParameterStarts(if Yield(kids[1]) == [] then 0 else Code(Yield(kids[1])[0].kind));
        }
      }
  }

  lemma LeafStarts(token: Token)
    ensures First(Code(token.kind), Code(token.kind))
  {}

  lemma KidIsOrdinary(t: Tree, i: nat)
    requires WellFormed(t) && t.Node? && 5 <= t.rule && i < |t.kids|
    ensures var k := t.kids[i];
            WellFormed(k) && Symbol(k) == Rhs(t.rule)[i] && !k.ErrorLeaf? && (k.Node? ==> 5 <= k.rule)
  {}

  lemma LongList(t: Tree)
    requires WellFormed(t) && t.Node? && t.rule == 29
    ensures |t.kids| == 2 && Symbol(t.kids[1]) == 35 && Lhs(29) == 34
  {}

  lemma ParameterStarts(token: int)
    ensures !Nullable(35)
    ensures First(35, token) ==> First(34, token)
  {}

  /** The tokens from `pos` on begin with `line`. */
  predicate Ahead(tokens: seq<Token>, pos: nat, line: seq<Token>) {
    pos + |line| <= |tokens| && tokens[pos..pos + |line|] == line
  }

  /** `c` after reading `t` and pushing it as one symbol. */
  function Pushed(c: Config, t: Tree): Config
    requires c.states != []
  {
    Config(c.states + [After(Top(c), Symbol(t))], c.trees + [t], c.pos + |Yield(t)|, 0, c.nerrs)
  }

  /** `c` is `c0` after driving over the first `i` children of `t`. */
  predicate Partway(c0: Config, c: Config, t: Tree, i: nat)
    requires t.Node? && i <= |t.kids| == |Rhs(t.rule)| && c0.states != []
  {
    && |c.states| == |c0.states| + i && c.states[..|c0.states|] == c0.states
    && c.trees == c0.trees + t.kids[..i] && c.err == 0 && c.nerrs == c0.nerrs
    && Top(c) == Along(Top(c0), t.rule, i)
    && c.pos == c0.pos + |YieldAll(t.kids[..i])|
  }

  /**
   Completeness of the tables: where a symbol is expected and a token that may follow it comes
   after, the driver reads exactly the tree's tokens and pushes the tree.
   */
  lemma {:induction false} Drive(tokens: seq<Token>, c: Config, t: Tree)
    requires Inv(tokens, c) && c.err == 0 && CanGo(Top(c), Symbol(t))
    requires WellFormed(t) && !t.ErrorLeaf? && (t.Node? ==> 5 <= t.rule)
    requires Ahead(tokens, c.pos, Yield(t))
    requires t.Node? ==> Follow(Symbol(t), Look(tokens, c.pos + |Yield(t)|))
    ensures Inv(tokens, Pushed(c, t)) && Run(tokens, c) == Run(tokens, Pushed(c, t))
    decreases t, 1, 0
  {
    hide Inv, CanGo, Follow, Run, After, Along, Live, Rhs, Lhs;
    match t
    case Leaf(token) => DriveLeaf(tokens, c, token);
    case Node(r, kids) =>
      assert kids[..0] == [] && kids[0..] == kids;
      StartPartway(tokens, c, t);
      DriveKids(tokens, c, c, t, 0);
  }

  lemma StartPartway(tokens: seq<Token>, c: Config, t: Tree)
    requires Inv(tokens, c) && c.err == 0 && t.Node? && WellFormed(t)
    ensures Partway(c, c, t, 0)
  {
    assert t.kids[..0] == [];
  }

  lemma DriveLeaf(tokens: seq<Token>, c: Config, token: Token)
    requires Inv(tokens, c) && c.err == 0 && CanGo(Top(c), Code(token.kind))
    requires Ahead(tokens, c.pos, [token])
    ensures Inv(tokens, Pushed(c, Leaf(token))) && Run(tokens, c) == Run(tokens, Pushed(c, Leaf(token)))
  {
    hide Inv, Shifts, Live, ShiftTarget, Decide, Yydefact;
    InvBasics(tokens, c);
    assert tokens[c.pos] == tokens[c.pos..c.pos + 1][0];
    DecideIs(Top(c), Look(tokens, c.pos));
    ShiftKeepsInv(tokens, c);
    assert Step(tokens, c) == Go(Pushed(c, Leaf(token)));
  }

  lemma {:induction false} DriveKids(tokens: seq<Token>, c0: Config, c: Config, t: Tree, i: nat)
    requires Inv(tokens, c0) && c0.err == 0 && CanGo(Top(c0), Symbol(t))
    requires t.Node? && 5 <= t.rule && WellFormed(t) && i <= |t.kids|
    requires Inv(tokens, c) && Partway(c0, c, t, i)
    requires Ahead(tokens, c.pos, YieldAll(t.kids[i..]))
    requires Follow(Symbol(t), Look(tokens, c.pos + |YieldAll(t.kids[i..])|))
    ensures Inv(tokens, Pushed(c0, t)) && Run(tokens, c) == Run(tokens, Pushed(c0, t))
    decreases t, 0, |t.kids| - i
  {
    hide Inv, CanGo, Follow, Run, After, Along, Live, Rhs, Lhs, Partway, First, Ahead, Pushed;
    InvBasics(tokens, c0);
    if i == |t.kids| {
      FinishNode(tokens, c0, c, t);
    } else {
      var k := t.kids[i];
      KidIsOrdinary(t, i);
      RuleGoes(Top(c0), t.rule, i);
      SplitAhead(tokens, c.pos, t.kids, i);
      if k.Node? { KidFollows(tokens, c.pos, t, i); }
      PartwayTop(c0, c, t, i);
      Drive(tokens, c, k);
      PartwayNext(c0, c, t, i);
      DriveKids(tokens, c0, Pushed(c, k), t, i + 1);
    }
  }

  lemma PartwayTop(c0: Config, c: Config, t: Tree, i: nat)
    requires t.Node? && WellFormed(t) && i <= |t.kids| && c0.states != [] && Partway(c0, c, t, i)
    ensures c.states != [] && c.err == 0 && Top(c) == Along(Top(c0), t.rule, i)
  {}

  lemma PartwayNext(c0: Config, c: Config, t: Tree, i: nat)
    requires t.Node? && WellFormed(t) && i < |t.kids| && c0.states != [] && c.states != [] && Partway(c0, c, t, i)
    ensures Partway(c0, Pushed(c, t.kids[i]), t, i + 1)
    ensures Pushed(c, t.kids[i]).pos == c.pos + |Yield(t.kids[i])|
  {
    hide After, Rhs;
    assert t.kids[..i + 1] == t.kids[..i] + [t.kids[i]];
    YieldPush(t.kids[..i], t.kids[i]);
  }

  lemma SplitAhead(tokens: seq<Token>, pos: nat, ts: seq<Tree>, i: nat)
    requires i < |ts| && Ahead(tokens, pos, YieldAll(ts[i..]))
    ensures Ahead(tokens, pos, Yield(ts[i]))
    ensures Ahead(tokens, pos + |Yield(ts[i])|, YieldAll(ts[i + 1..]))
    ensures |YieldAll(ts[i..])| == |Yield(ts[i])| + |YieldAll(ts[i + 1..])|
  {
    hide Yield, Ahead;
    assert ts[i..][0] == ts[i] && ts[i..][1..] == ts[i + 1..];
    AheadOfBoth(tokens, pos, Yield(ts[i]), YieldAll(ts[i + 1..]));
  }

  lemma AheadOfBoth(tokens: seq<Token>, pos: nat, y: seq<Token>, z: seq<Token>)
    requires Ahead(tokens, pos, y + z)
    ensures Ahead(tokens, pos, y) && Ahead(tokens, pos + |y|, z)
  {
    assert tokens[pos..pos + |y|] == tokens[pos..pos + |y + z|][..|y|] == y;
    assert tokens[pos + |y|..pos + |y| + |z|] == tokens[pos..pos + |y + z|][|y|..] == z;
  }

  /** What comes after a nonterminal child may follow it. */
  lemma KidFollows(tokens: seq<Token>, pos: nat, t: Tree, i: nat)
    requires t.Node? && 5 <= t.rule && WellFormed(t) && i < |t.kids| && t.kids[i].Node?
    requires Ahead(tokens, pos, YieldAll(t.kids[i..]))
    requires Follow(Symbol(t), Look(tokens, pos + |YieldAll(t.kids[i..])|))
    ensures Follow(Symbol(t.kids[i]), Look(tokens, pos + |Yield(t.kids[i])|))
  {
    hide Follow, First, Rhs, Lhs, Ahead, Nullable;
    KidIsOrdinary(t, i);
    TablesMatchGrammar(t.kids[i].rule);
    SplitAhead(tokens, pos, t.kids, i);
    var p := pos + |Yield(t.kids[i])|;
    RuleFollows(t.rule, i, Look(tokens, p));
    if i + 1 < |t.kids| {
      NextKidStarts(tokens, p, t, i + 1);
      NothingAfter(t.kids, i + 2);
    } else {
      NothingAfter(t.kids, i + 1);
    }
  }

  /** The look-ahead in front of a child begins it, unless the child is empty. */
  lemma NextKidStarts(tokens: seq<Token>, p: nat, t: Tree, i: nat)
    requires t.Node? && 5 <= t.rule && WellFormed(t) && i < |t.kids|
    requires Ahead(tokens, p, YieldAll(t.kids[i..]))
    ensures First(Rhs(t.rule)[i], Look(tokens, p)) ||
            (Nullable(Rhs(t.rule)[i]) && |YieldAll(t.kids[i..])| == |YieldAll(t.kids[i + 1..])|)
  {
    hide First, Rhs, Lhs, Ahead, Nullable;
    var k := t.kids[i];
    KidIsOrdinary(t, i);
    TreeStarts(k);
    SplitAhead(tokens, p, t.kids, i);
    if Yield(k) != [] { AheadLook(tokens, p, Yield(k)); }
  }

  lemma NothingAfter(ts: seq<Tree>, i: nat)
    ensures i == |ts| ==> YieldAll(ts[i..]) == []
  {}

  lemma AheadLook(tokens: seq<Token>, pos: nat, line: seq<Token>)
    requires Ahead(tokens, pos, line) && line != []
    ensures Look(tokens, pos) == Code(line[0].kind)
  {
    assert tokens[pos] == tokens[pos..pos + |line|][0];
  }

  /** Behind the last child the driver reduces, and the node replaces its children. */
  lemma FinishNode(tokens: seq<Token>, c0: Config, c: Config, t: Tree)
    requires Inv(tokens, c0) && c0.err == 0 && CanGo(Top(c0), Symbol(t))
    requires t.Node? && 5 <= t.rule && WellFormed(t) && Inv(tokens, c) && Partway(c0, c, t, |t.kids|)
    requires Follow(Symbol(t), Look(tokens, c.pos))
    ensures Inv(tokens, Pushed(c0, t)) && Run(tokens, c) == Run(tokens, Pushed(c0, t))
  {
    hide Inv, CanGo, Follow, Along, Live, Rhs, Lhs, EndOf, Yydefact, Shifts, Decide, Step, Slack, Yyr2;
    InvBasics(tokens, c0);
    InvBasics(tokens, c);
    RuleEnds(Top(c0), t.rule);
    EndReduces(t.rule, Look(tokens, c.pos));
    DecideIs(Top(c), Look(tokens, c.pos));
    ReduceKeepsInv(tokens, c);
    ReduceSteps(tokens, c);
    ReducedIsPushed(c0, c, t);
  }

  lemma ReduceSteps(tokens: seq<Token>, c: Config)
    requires Inv(tokens, c) && 5 <= Yydefact(Top(c)) && Decide(Top(c), Look(tokens, c.pos)) == Reduce(Yydefact(Top(c)))
    ensures IsRule(Yydefact(Top(c))) && Yyr2(Yydefact(Top(c))) < |c.states| == |c.trees| + 1
    ensures Step(tokens, c) == Go(Reduced(c, Yydefact(Top(c))))
  {
    hide Decide, Yydefact, Inv, Yyr2;
    StepSafe(tokens, c);
    InvBasics(tokens, c);
  }

  lemma ReducedIsPushed(c0: Config, c: Config, t: Tree)
    requires |c0.states| == |c0.trees| + 1 && Live(Top(c0))
    requires t.Node? && 5 <= t.rule && WellFormed(t) && Partway(c0, c, t, |t.kids|)
    ensures Yyr2(t.rule) == |t.kids| && |c.states| == |c.trees| + 1
    ensures Reduced(c, t.rule) == Pushed(c0, t)
  {
    hide Along, Rhs, Live, Lhs, Yyr1, Yyr2, Goto, Target;
    TablesMatchGrammar(t.rule);
    GotoIs(Top(c0), Lhs(t.rule));
    assert t.kids[..|t.kids|] == t.kids;
    var n := |t.kids|;
    assert c.states[..|c.states| - n] == c0.states;
    assert c.trees[..|c.trees| - n] == c0.trees && c.trees[|c.trees| - n..] == t.kids;
  }
}
