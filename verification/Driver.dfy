/**
 The shift-reduce machine of `yyparse` as a function of its configuration: one step per pass
 through yybackup, and the run of a whole call.
 */
module Driver {
  import opened Syntax
  import opened LalrTables
  import opened Derivations

  /** The stacks, the number of tokens shifted or discarded, `yyerrstatus`, `yynerrs`. */
  datatype Config = Config(states: seq<int>, trees: seq<Tree>, pos: nat, err: nat, nerrs: nat)

  /** How a call ends: YYACCEPT in the action of `rule`, or YYABORT. */
  datatype Outcome = Accepted(rule: int, config: Config) | Aborted(config: Config)

  datatype Next = Go(config: Config) | Done(outcome: Outcome)

  const START := Config([0], [], 0, 0, 0)

  /** The look-ahead symbol; `yylex` returns 0 at the end of its stream. */
  function Look(tokens: seq<Token>, pos: nat): (c: int)
    ensures 0 <= c < 20 && c != YYTERROR
  {
    if pos < |tokens| then Code(tokens[pos].kind) else 0
  }

  function Top(c: Config): int
    requires c.states != []
  {
    c.states[|c.states| - 1]
  }

  /** The stack is a path of the automaton, its trees spelling the states' entry symbols. */
  predicate StackOk(states: seq<int>, trees: seq<Tree>) {
    |states| == |trees| + 1 && states[0] == 0 &&
    (forall i | 1 <= i < |states| :: Edge(states[i - 1], states[i])) &&
    (forall i | 0 <= i < |trees| :: WellFormed(trees[i]) && Symbol(trees[i]) == Yystos(states[i + 1]))
  }

  predicate NoTerminator(tokens: seq<Token>, n: nat)
    requires n <= |tokens|
  {
    forall i | 0 <= i < n :: !IsTerminator(tokens[i])
  }

  /** Nothing past the line's terminator has been consumed. */
  predicate LineOk(tokens: seq<Token>, c: Config)
    requires c.states != [] && c.pos <= |tokens|
  {
    if PastTerminator(Top(c))
    then
      c.pos > 0 && NoTerminator(tokens, c.pos - 1) && IsTerminator(tokens[c.pos - 1]) &&
      (Top(c) == 3 ==> tokens[c.pos - 1].kind.EOLN?) && (Top(c) == 4 ==> tokens[c.pos - 1].kind.YEOF?)
    else NoTerminator(tokens, c.pos)
  }

  /** Before an error the trees cover the input read; after one only `error terminator` can follow. */
  predicate ModeOk(tokens: seq<Token>, c: Config)
    requires c.states != [] && c.pos <= |tokens|
  {
    if c.err == 0 then
      c.nerrs == 0 && YieldAll(c.trees) == tokens[..c.pos] && (|c.states| > 1 ==> c.states[1] != 1)
    else
      c.nerrs == 1 &&
      if PastTerminator(Top(c)) then c.err == 2 && |c.states| == 3 && c.states[1] == 1
      else c.err == 3 && c.states == [0, 1]
  }

  predicate Inv(tokens: seq<Token>, c: Config) {
    StackOk(c.states, c.trees) && c.pos <= |tokens| && Live(Top(c)) &&
    LineOk(tokens, c) && ModeOk(tokens, c)
  }

  function Shifted(tokens: seq<Token>, c: Config, s: int): Config
    requires c.pos < |tokens|
  {
    Config(c.states + [s], c.trees + [Leaf(tokens[c.pos])], c.pos + 1,
           if c.err > 0 then c.err - 1 else 0, c.nerrs)
  }

  function Reduced(c: Config, r: int): Config
    requires IsRule(r) && Yyr2(r) < |c.states| == |c.trees| + 1
  {
    var n := Yyr2(r);
    var base := c.states[..|c.states| - n];
    var keep := |c.trees| - n;
    c.(states := base + [Goto(base[|base| - 1], Yyr1(r))],
       trees := c.trees[..keep] + [Node(r, c.trees[keep..])])
  }

  /** Pop to the only state that shifts `error`, and shift it. */
  function Recovered(c: Config, pos: nat): Config {
    Config([0, 1], [ErrorLeaf], pos, 3, if c.err == 0 then c.nerrs + 1 else c.nerrs)
  }

  lemma InvBasics(tokens: seq<Token>, c: Config)
    requires Inv(tokens, c)
    ensures |c.states| == |c.trees| + 1 && c.states[0] == 0 && Live(Top(c)) && c.pos <= |tokens|
  {}

  /** The states a reduction in the top state looks at, as edges. */
  lemma ReducePath(tokens: seq<Token>, c: Config)
    requires Inv(tokens, c) && Yydefact(Top(c)) != 0
    ensures IsRule(Yydefact(Top(c))) && Yyr2(Yydefact(Top(c))) == |Rhs(Yydefact(Top(c)))| < |c.states|
    ensures var n := |Rhs(Yydefact(Top(c)))|;
            forall i | 0 <= i < n :: Rhs(Yydefact(Top(c)))[i] == Symbol(c.trees[|c.trees| - n + i])
  {
    hide Edge, Yystos, Yydefact, Rhs, Yyr2, Live;
    var q := Top(c);
    ReduceTop(q);
    TablesMatchGrammar(Yydefact(q));
    var n := |Rhs(Yydefact(q))|;
    var k := |c.trees|;
    if n > 1 {
      assert Edge(c.states[k - 1], c.states[k]);
      ReduceSecond(c.states[k - 1], q);
    }
    if n > 2 {
      assert Edge(c.states[k - 2], c.states[k - 1]);
      ReduceThird(c.states[k - 2], c.states[k - 1], q);
    }
  }

  /** What `yyparse` can do next is well defined. */
  lemma StepSafe(tokens: seq<Token>, c: Config)
    requires Inv(tokens, c)
    ensures var act := Decide(Top(c), Look(tokens, c.pos));
            && (act.Shift? ==> c.pos < |tokens|)
            && (act.Reduce? ==> IsRule(act.rule) && Yyr2(act.rule) < |c.states|)
            && !act.Final?
  {
    hide Edge, Yystos, Yydefact, Rhs, Yyr2, Live, Decide, LineOk, ModeOk;
    DecideIs(Top(c), Look(tokens, c.pos));
    if Yydefact(Top(c)) != 0 { ReducePath(tokens, c); }
  }

  /** One pass of the driver from yybackup to the next push of a state. */
  function Step(tokens: seq<Token>, c: Config): Next
    requires Inv(tokens, c)
  {
    StepSafe(tokens, c);
    match Decide(Top(c), Look(tokens, c.pos))
    case Shift(s) => Go(Shifted(tokens, c, s))
    case Reduce(r) => if 2 <= r <= 4 then Done(Accepted(r, c)) else Go(Reduced(c, r))
    case Final => Done(Accepted(1, c))
    case Error =>
      if c.err != 3 then Go(Recovered(c, c.pos))
      else if c.pos == |tokens| then Done(Aborted(c))
      else Go(Recovered(c, c.pos + 1))
  }

  lemma ShiftKeepsInv(tokens: seq<Token>, c: Config)
    requires Inv(tokens, c) && c.pos < |tokens| && Shifts(Top(c), Look(tokens, c.pos))
    ensures Inv(tokens, Shifted(tokens, c, ShiftTarget(Top(c), Look(tokens, c.pos))))
  {
    hide Edge, Yystos, Shifts, ShiftTarget, Live, PastTerminator, ModeOk;
    var s := Top(c);
    var g := ShiftTarget(s, Look(tokens, c.pos));
    ShiftFact(s, Look(tokens, c.pos));
    EdgeIsLive(s, g);
    ShiftKeepsMode(tokens, c);
  }

  lemma ShiftKeepsMode(tokens: seq<Token>, c: Config)
    requires Inv(tokens, c) && c.pos < |tokens| && Shifts(Top(c), Look(tokens, c.pos))
    ensures ModeOk(tokens, Shifted(tokens, c, ShiftTarget(Top(c), Look(tokens, c.pos))))
  {
    hide Edge, Yystos, Shifts, ShiftTarget, Live, PastTerminator, WellFormed;
    ShiftFact(Top(c), Look(tokens, c.pos));
    assert tokens[..c.pos + 1] == tokens[..c.pos] + [tokens[c.pos]];
    YieldPush(c.trees, Leaf(tokens[c.pos]));
  }

  lemma ReduceKeepsInv(tokens: seq<Token>, c: Config)
    requires Inv(tokens, c) && 5 <= Yydefact(Top(c))
    ensures IsRule(Yydefact(Top(c))) && Yyr2(Yydefact(Top(c))) < |c.states|
    ensures Inv(tokens, Reduced(c, Yydefact(Top(c))))
    ensures var d := Reduced(c, Yydefact(Top(c))); |d.states| + Slack(Top(d)) < |c.states| + Slack(Top(c))
  {
    hide Edge, Yystos, Yydefact, Rhs, Lhs, Yyr2, Live, PastTerminator, Goto, Target, Decide, Slack, StackOk,
      LineOk, ModeOk, Reduced;
    ReducePath(tokens, c);
    InvBasics(tokens, c);
    TablesMatchGrammar(Yydefact(Top(c)));
    ReducedTop(c, Yydefact(Top(c)));
    ReduceKeepsStack(tokens, c);
    ReduceKeepsLine(tokens, c);
    ReduceKeepsMode(tokens, c);
  }

  lemma ReduceKeepsStack(tokens: seq<Token>, c: Config)
    requires Inv(tokens, c) && 5 <= Yydefact(Top(c))
    ensures IsRule(Yydefact(Top(c))) && Yyr2(Yydefact(Top(c))) < |c.states|
    ensures StackOk(Reduced(c, Yydefact(Top(c))).states, Reduced(c, Yydefact(Top(c))).trees)
  {
    ReducedNode(tokens, c);
    ReducedEdge(tokens, c);
    StackIs(tokens, c);
    hide Edge, Yystos, Yydefact, Rhs, Lhs, Yyr1, Yyr2, Goto, Inv, StackOk, WellFormed, Reduced;
    var r := Yydefact(Top(c));
    var n := Yyr2(r);
    ReducedParts(c, r);
    StackReplaced(c.states, c.trees, n, Goto(c.states[|c.trees| - n], Yyr1(r)), Node(r, c.trees[|c.trees| - n..]));
  }

  lemma StackIs(tokens: seq<Token>, c: Config)
    requires Inv(tokens, c)
    ensures StackOk(c.states, c.trees)
  {
    hide StackOk, LineOk, ModeOk;
  }

  lemma ReducedParts(c: Config, r: int)
    requires IsRule(r) && 0 <= Yyr2(r) < |c.states| == |c.trees| + 1
    ensures var n := Yyr2(r);
      && Reduced(c, r).states == c.states[..|c.states| - n] + [Goto(c.states[|c.trees| - n], Yyr1(r))]
      && Reduced(c, r).trees == c.trees[..|c.trees| - n] + [Node(r, c.trees[|c.trees| - n..])]
  {
    hide Goto, Yyr1, Yyr2;
  }

  /** The state a reduction enters is entered by the left-hand side. */
  lemma ReducedEdge(tokens: seq<Token>, c: Config)
    requires Inv(tokens, c) && 5 <= Yydefact(Top(c))
    ensures var r := Yydefact(Top(c)); IsRule(r) && Yyr2(r) < |c.states| == |c.trees| + 1
    ensures var r := Yydefact(Top(c)); var a := c.states[|c.trees| - Yyr2(r)]; var g := Goto(a, Yyr1(r));
      Edge(a, g) && Yystos(g) == Lhs(r)
  {
    ReducePath(tokens, c);
    ReduceGood(tokens, c);
    TablesMatchGrammar(Yydefact(Top(c)));
    hide Edge, Yystos, Yydefact, Rhs, Lhs, Yyr1, Yyr2, PastTerminator, Goto, Target, Slack, LineOk, ModeOk, Live;
  }

  /** The node a reduction makes is a derivation of the left-hand side. */
  lemma ReducedNode(tokens: seq<Token>, c: Config)
    requires Inv(tokens, c) && 5 <= Yydefact(Top(c))
    ensures var r := Yydefact(Top(c));
      IsRule(r) && Yyr2(r) < |c.states| == |c.trees| + 1 && WellFormed(Node(r, c.trees[|c.trees| - Yyr2(r)..]))
  {
    hide Edge, Yystos, Yydefact, Rhs, Yyr2, Live, LineOk, ModeOk;
    ReducePath(tokens, c);
  }

  lemma StackReplaced(states: seq<int>, trees: seq<Tree>, n: nat, g: int, t: Tree)
    requires StackOk(states, trees) && n < |states|
    requires Edge(states[|trees| - n], g) && WellFormed(t) && Symbol(t) == Yystos(g)
    ensures StackOk(states[..|states| - n] + [g], trees[..|trees| - n] + [t])
  {
    hide Edge, Yystos, Symbol, WellFormed;
  }

  lemma ReduceKeepsLine(tokens: seq<Token>, c: Config)
    requires Inv(tokens, c) && 5 <= Yydefact(Top(c))
    ensures IsRule(Yydefact(Top(c))) && Yyr2(Yydefact(Top(c))) < |c.states|
    ensures var d := Reduced(c, Yydefact(Top(c)));
            Live(Top(d)) && LineOk(tokens, d) && |d.states| + Slack(Top(d)) < |c.states| + Slack(Top(c))
  {
    hide Edge, Yystos, Yydefact, Rhs, Lhs, Yyr2, Live, PastTerminator, Goto, Target, Slack, Inv, Reduced, LineOk;
    InvBasics(tokens, c);
    ReducePath(tokens, c);
    ReduceGood(tokens, c);
    var r := Yydefact(Top(c));
    TablesMatchGrammar(r);
    ReducedTop(c, r);
    var a := c.states[|c.trees| - Yyr2(r)];
    EdgeIsLive(a, Goto(a, Lhs(r)));
    SameLine(tokens, c, Reduced(c, r));
  }

  lemma ReducedTop(c: Config, r: int)
    requires IsRule(r) && 0 <= Yyr2(r) < |c.states| == |c.trees| + 1
    ensures var d := Reduced(c, r);
            var m := |c.states| - Yyr2(r);
            var g := Goto(c.states[m - 1], Lhs(r));
            && Top(d) == g && |d.states| == m + 1 && d.pos == c.pos && d.err == c.err && d.nerrs == c.nerrs
            && d.states[1] == (if m == 1 then g else c.states[1])
            && YieldAll(d.trees) == YieldAll(c.trees)
  {
    TablesMatchGrammar(r);
    hide Goto, Lhs, Yyr1, Yyr2, Rhs, Yield;
    YieldReduce(c.trees, r, Yyr2(r));
  }

  lemma SameLine(tokens: seq<Token>, c: Config, d: Config)
    requires Inv(tokens, c) && d.states != [] && d.pos == c.pos
    requires (PastTerminator(Top(d)) <==> PastTerminator(Top(c))) && Top(d) !in {3, 4}
    ensures LineOk(tokens, d)
  {
    hide StackOk, ModeOk, PastTerminator, Live;
  }

  lemma ReduceKeepsMode(tokens: seq<Token>, c: Config)
    requires Inv(tokens, c) && 5 <= Yydefact(Top(c))
    ensures IsRule(Yydefact(Top(c))) && Yyr2(Yydefact(Top(c))) < |c.states|
    ensures ModeOk(tokens, Reduced(c, Yydefact(Top(c))))
  {
    hide Edge, Yystos, Yydefact, Rhs, Lhs, Yyr2, Live, PastTerminator, Goto, Target, Slack, LineOk, StackOk, Reduced;
    InvBasics(tokens, c);
    ReducePath(tokens, c);
    TablesMatchGrammar(Yydefact(Top(c)));
    ReduceGood(tokens, c);
    ErrorFact(Top(c));
    ReducedTop(c, Yydefact(Top(c)));
  }

  lemma ReduceGood(tokens: seq<Token>, c: Config)
    requires Inv(tokens, c) && 5 <= Yydefact(Top(c)) < 33 && Yyr2(Yydefact(Top(c))) < |c.states|
    ensures var a := c.states[|c.trees| - Yyr2(Yydefact(Top(c)))];
            GoodGoto(a, Top(c)) && Goto(a, Lhs(Yydefact(Top(c)))) == Target(a, Lhs(Yydefact(Top(c))))
  {
    hide Edge, Yystos, Yydefact, Rhs, Lhs, Yyr2, PastTerminator, Goto, Target, GoodGoto, Slack, Live;
    var q := Top(c);
    var r, k := Yydefact(q), |c.trees|;
    TablesMatchGrammar(r);
    var n := Yyr2(r);
    if n == 0 { ReduceGoto0(q); }
    if n > 0 { assert Edge(c.states[k - 1], c.states[k]); }
    if n > 1 { assert Edge(c.states[k - 2], c.states[k - 1]); }
    if n > 2 { assert Edge(c.states[k - 3], c.states[k - 2]); }
    if n > 0 { EdgeIsLive(c.states[k - n], c.states[k - n + 1]); }
    GotoIs(c.states[k - n], Lhs(r));
    if n == 1 { ReduceGoto1(c.states[k - 1], q); }
    if n == 2 { ReduceGoto2(c.states[k - 2], c.states[k - 1], q); }
    if n == 3 { ReduceGoto3(c.states[k - 3], c.states[k - 2], c.states[k - 1], q); }
  }

  lemma RecoverKeepsInv(tokens: seq<Token>, c: Config)
    requires Inv(tokens, c) && Decide(Top(c), Look(tokens, c.pos)).Error?
    ensures c.err != 3 ==> c.err == 0 && Inv(tokens, Recovered(c, c.pos))
    ensures c.err == 3 && c.pos < |tokens| ==> Inv(tokens, Recovered(c, c.pos + 1))
  {
    hide Yydefact, Shifts, ShiftTarget, Decide;
    DecideIs(Top(c), Look(tokens, c.pos));
    ErrorFact(Top(c));
  }

  /** Every step keeps the invariant and is one of finitely many before the line is over. */
  lemma StepKeepsInv(tokens: seq<Token>, c: Config)
    requires Inv(tokens, c) && Step(tokens, c).Go?
    ensures var c' := Step(tokens, c).config;
            && Inv(tokens, c')
            && c.pos <= c'.pos
            && (c.pos == c'.pos ==>
                  || (c.err == 0 && c'.err != 0)
                  || (c.err == c'.err && |c'.states| + Slack(Top(c')) < |c.states| + Slack(Top(c))))
  {
    hide Edge, Yystos, Yydefact, Rhs, Yyr2, Live, Slack, Decide, Shifts, ShiftTarget, Inv, Reduced, Shifted;
    StepSafe(tokens, c);
    InvBasics(tokens, c);
    DecideIs(Top(c), Look(tokens, c.pos));
    match Decide(Top(c), Look(tokens, c.pos))
    case Shift(s) => ShiftKeepsInv(tokens, c); ShiftedPos(tokens, c, s);
    case Reduce(r) => ReduceTop(Top(c)); ReduceKeepsInv(tokens, c); ReducedPos(c, r);
    case Error => RecoverKeepsInv(tokens, c);
    case Final =>
  }

  lemma ShiftedPos(tokens: seq<Token>, c: Config, s: int)
    requires c.pos < |tokens|
    ensures Shifted(tokens, c, s).pos == c.pos + 1
  {}

  lemma ReducedPos(c: Config, r: int)
    requires IsRule(r) && Yyr2(r) < |c.states| == |c.trees| + 1
    ensures Reduced(c, r).pos == c.pos && Reduced(c, r).err == c.err
  {}

  lemma StartInv(tokens: seq<Token>)
    ensures Inv(tokens, START)
  {}

  /** The whole call: steps until an action accepts or the stream is exhausted. */
  function Run(tokens: seq<Token>, c: Config): Outcome
    requires Inv(tokens, c)
    decreases |tokens| - c.pos, c.err == 0, |c.states| + Slack(Top(c))
  {
    match Step(tokens, c)
    case Done(outcome) => outcome
    case Go(next) => StepKeepsInv(tokens, c); Run(tokens, next)
  }

  function Parse(tokens: seq<Token>): Outcome {
    StartInv(tokens);
    Run(tokens, START)
  }

  /** A run ends in a configuration that still satisfies the invariant, on a step that is done. */
  lemma {:induction false} RunEnds(tokens: seq<Token>, c: Config)
    requires Inv(tokens, c)
    ensures var last := Run(tokens, c).config;
            Inv(tokens, last) && Step(tokens, last) == Done(Run(tokens, c))
    decreases |tokens| - c.pos, c.err == 0, |c.states| + Slack(Top(c))
  {
    hide Inv, Step, Slack;
    match Step(tokens, c)
    case Done(outcome) => DoneAtSelf(tokens, c);
    case Go(next) => StepKeepsInv(tokens, c); InvBasics(tokens, c); InvBasics(tokens, next); RunEnds(tokens, next);
  }

  lemma DoneAtSelf(tokens: seq<Token>, c: Config)
    requires Inv(tokens, c) && Step(tokens, c).Done?
    ensures Step(tokens, c).outcome.config == c
  {}

  /** The only stacks on which a call can end. */
  lemma EndShape(tokens: seq<Token>, c: Config)
    requires Inv(tokens, c) && Step(tokens, c).Done?
    ensures match Step(tokens, c).outcome
            case Accepted(r, _) =>
              PastTerminator(Top(c)) &&
              ((r == 2 && c.states == [0, 7, 12]) || (r == 3 && c.states == [0, 6])
                || (r == 4 && c.states == [0, 1, 9]))
            case Aborted(_) => c.states == [0, 1] && c.pos == |tokens| && c.err == 3
  {
    hide Shifts, ShiftTarget, Decide, LineOk, WellFormed;
    StepSafe(tokens, c);
    DecideIs(Top(c), Look(tokens, c.pos));
    var k := |c.trees|;
    if 2 <= Yydefact(Top(c)) <= 4 {
      AcceptingState(Top(c));
      ZeroIsBottom(c, k);
      ZeroIsBottom(c, k - 1);
      if k > 1 { ZeroIsBottom(c, k - 2); }
    }
  }

  lemma ZeroIsBottom(c: Config, i: int)
    requires StackOk(c.states, c.trees) && 0 <= i + 1 <= |c.states|
    ensures 0 < i < |c.states| ==> Edge(c.states[i - 1], c.states[i]) && c.states[i] != 0
  {
    if 0 < i < |c.states| { EdgeIsLive(c.states[i - 1], c.states[i]); }
  }

  lemma AcceptingState(q: int)
    requires Live(q) && 2 <= Yydefact(q) <= 4
    ensures PastTerminator(q)
    ensures (Yydefact(q) == 2 && q == 12) || (Yydefact(q) == 3 && q == 6) || (Yydefact(q) == 4 && q == 9)
  {}
}
