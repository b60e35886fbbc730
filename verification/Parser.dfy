/** `yyparse` of parser.tab.c: the table driver with its stacks, look-ahead and globals. */
module Parser {
  import opened Syntax
  import opened LalrTables
  import opened Derivations
  import opened Driver
  import opened Actions
  import opened ParserTheorems
  import Meaning
  import Building

  const YYEMPTY := -2
  const YYEOF := 0

  /** The number `yylex` returns for a token. */
  function External(k: Kind): int { Code(k) + 255 }

  /** YYTRANSLATE: from external to internal token numbers. */
  function Translate(yychar: int): int {
    if yychar == 0 then 0 else if 258 <= yychar <= 274 then yychar - 255 else 2
  }

  /** A value-stack slot agrees with the tree it stands for; operator tokens leave their slot stale. */
  predicate Holds(v: Value, t: Tree) {
    match t
    case Leaf(token) => HasText(token.kind) ==> v == Text(token.text)
    case ErrorLeaf => true
    case Node(_, _) => 24 < Symbol(t) ==> v == Sem(t)
  }

  predicate HoldsAll(vs: seq<Value>, ts: seq<Tree>) {
    |vs| == |ts| && forall i | 0 <= i < |vs| :: Holds(vs[i], ts[i])
  }

  /** The symbols whose value some action uses. */
  predicate Used(symbol: int) { symbol == 3 || symbol == 4 || symbol == 5 || symbol == 15 || 24 < symbol }

  /** An action looks only at the slots that hold something. */
  lemma ActionUses(r: int, v: seq<Value>, w: seq<Value>)
    requires 7 <= r < 33 && |v| == |w| == |Rhs(r)|
    requires forall i | 0 <= i < |v| && Used(Rhs(r)[i]) :: v[i] == w[i]
    ensures Action(r, v) == Action(r, w)
  {
    hide AppendRedirect, AppendCommand, ShortName;
    if |v| > 0 { assert Used(Rhs(r)[0]) ==> v[0] == w[0]; }
    if |v| > 1 { assert Used(Rhs(r)[1]) ==> v[1] == w[1]; }
    if |v| > 2 { assert Used(Rhs(r)[2]) ==> v[2] == w[2]; }
  }

  lemma UsedHolds(v: Value, t: Tree)
    requires Holds(v, t) && Used(Symbol(t)) && WellFormed(t)
    ensures v == Sem(t)
  {
    hide Rhs, Lhs;
    if t.Node? { TablesMatchGrammar(t.rule); }
  }

  /** The value computed for a node is what its derivation denotes. */
  lemma ActionIsSem(r: int, v: seq<Value>, kids: seq<Tree>)
    requires 5 <= r < 33 && WellFormed(Node(r, kids)) && HoldsAll(v, kids)
    ensures Holds(Action(r, v), Node(r, kids))
  {
    hide Rhs, Lhs, Action, Used, Holds;
    SmallRules(r);
    if 7 <= r {
      forall i | 0 <= i < |v| && Used(Rhs(r)[i])
        ensures v[i] == SemAll(kids)[i]
      {
        UsedHolds(v[i], kids[i]);
      }
      ActionUses(r, v, SemAll(kids));
      Meaning.SemOfNode(Node(r, kids));
    }
    HoldsNode(Action(r, v), r, kids);
  }

  lemma SmallRules(r: int)
    ensures 5 <= r < 7 ==> Lhs(r) == TERMINATOR
  {}

  lemma HoldsNode(v: Value, r: int, kids: seq<Tree>)
    ensures (24 < Lhs(r) ==> v == Sem(Node(r, kids))) ==> Holds(v, Node(r, kids))
  {
    hide Sem, Lhs;
  }

  /** Some derivation of the line denotes this tree. */
  ghost predicate Denoted(pc: Commands, line: seq<Token>) {
    exists t :: DerivationOf(t, CMD_SEQ, line) && TreeOf(t) == pc
  }

  lemma LineFits(tokens: seq<Token>, k: nat)
    ensures LineEndsAt(tokens, k) ==> k < |tokens|
  {}

  lemma LineMeans(t: Tree, line: seq<Token>)
    requires DerivationOf(t, CMD_SEQ, line)
    ensures var pc := TreeOf(t);
            pc.Some? && Meaning.Buildable(pc.command) && Meaning.SpellsLine(Meaning.NormAll(line), pc.command)
  {
    Meaning.LineMeansTree(t);
  }

  datatype Signal = Continue | Return(yyresult: int)

  class Parser {
    const tokens: seq<Token>   // what the scanner will return, one token a call
    var next: nat              // tokens returned so far
    var yychar: int
    var yylval: Value
    var yyss: seq<int>
    var yyvs: seq<Value>
    var yyerrstatus: nat
    var yynerrs: nat
    var pcGlobalCommand: Commands
    var fEndOfFile: bool
    ghost var start: nat       // where the current line begins

    constructor (tokens: seq<Token>)
      ensures this.tokens == tokens && next == 0
    {
      this.tokens := tokens;
      next, yychar, yylval, start := 0, YYEMPTY, Stale, 0;
      yyss, yyvs, yyerrstatus, yynerrs := [], [], 0, 0;
      pcGlobalCommand, fEndOfFile := NoCommand, false;
    }

    /** The tokens from the start of the current line on. */
    ghost function Line(): seq<Token>
      requires start <= |tokens|
      reads `start
    {
      tokens[start..]
    }

    /** The look-ahead is empty, or the token behind the `pos` consumed ones. */
    ghost predicate LookaheadOk(pos: nat)
      requires start <= |tokens|
      reads `start, `next, `yychar, `yylval
    {
      if yychar == YYEMPTY then next == start + pos
      else if pos < |Line()| then
        next == start + pos + 1 && yychar == External(Line()[pos].kind) &&
        (HasText(Line()[pos].kind) ==> yylval == Text(Line()[pos].text))
      else next == start + pos && yychar == YYEOF
    }

    /** The fields are the configuration `c` of the driver. */
    ghost predicate Tracks(c: Config)
      reads this
    {
      && start <= |tokens| && Inv(Line(), c) && LookaheadOk(c.pos)
      && yyss == c.states && HoldsAll(yyvs, c.trees) && yyerrstatus == c.err && yynerrs == c.nerrs
      && (PastTerminator(Top(c)) ==> yychar == YYEMPTY)
    }

    /** `yylex`: the next token of the stream, or 0 when there is none. */
    method YyLex()
      requires next <= |tokens|
      modifies `next, `yychar, `yylval
      ensures old(next) == |tokens| ==> yychar == YYEOF && next == old(next) && yylval == old(yylval)
      ensures old(next) < |tokens| ==>
        var t := tokens[old(next)];
        && next == old(next) + 1 && yychar == External(t.kind)
        && yylval == if HasText(t.kind) then Text(t.text) else old(yylval)
    {
      if next == |tokens| {
        yychar := YYEOF;
      } else {
        var t := tokens[next];
        next := next + 1;
        yychar := External(t.kind);
        if HasText(t.kind) { yylval := Text(t.text); }
      }
    }

    /** Labels yybackup and yydefault: choose the action, reading a token only where one is needed. */
    method Backup(ghost c: Config) returns (act: Act)
      requires Tracks(c)
      modifies `next, `yychar, `yylval
      ensures Tracks(c) && act == Decide(Top(c), Look(Line(), c.pos))
      ensures act.Shift? || act.Error? ==> yychar != YYEMPTY
    {
      hide Yydefact, Yytable, Yycheck, Inv, Holds;
      InvBasics(Line(), c);
      NinfReduces(Top(c));
      var yystate := yyss[|yyss| - 1];
      var yyn := Yypact(yystate);
      if yyn == YYPACT_NINF { return DefaultAct(yystate); }
      if yychar == YYEMPTY { YyLex(); }
      var yytoken := Translate(yychar);
      yyn := yyn + yytoken;
      if yyn < 0 || YYLAST < yyn || Yycheck(yyn) != yytoken { return DefaultAct(yystate); }
      yyn := Yytable(yyn);
      if yyn <= 0 {
        if yyn == 0 || yyn == YYTABLE_NINF { return Error; }
        return Reduce(-yyn);
      }
      if yyn == YYFINAL { return Final; }
      return Shift(yyn);
    }

    /** Shift the look-ahead token into state `s`. */
    method ShiftToken(s: int, ghost c: Config) returns (ghost d: Config)
      requires Tracks(c) && yychar != YYEMPTY && Decide(Top(c), Look(Line(), c.pos)) == Shift(s)
      modifies `yychar, `yyss, `yyvs, `yyerrstatus
      ensures old(Step(Line(), c)) == Go(d) && Tracks(d) && Top(d) !in {6, 9, 12}
    {
      hide Decide, Inv, Shifts, ShiftTarget, Edge, Live;
      StepSafe(Line(), c);
      InvBasics(Line(), c);
      DecideIs(Top(c), Look(Line(), c.pos));
      ShiftKeepsInv(Line(), c);
      ShiftNotGoto(Top(c), Look(Line(), c.pos));
      if yyerrstatus != 0 { yyerrstatus := yyerrstatus - 1; }
      if yychar != YYEOF { yychar := YYEMPTY; }
      yyvs := yyvs + [yylval];
      yyss := yyss + [s];
      d := Shifted(Line(), c, s);
    }

    /** Reduce by a rule whose action does not accept. */
    method ReduceBy(yyn: int, ghost c: Config) returns (ghost d: Config)
      requires Tracks(c) && Decide(Top(c), Look(Line(), c.pos)) == Reduce(yyn) && !(2 <= yyn <= 4)
      modifies `yyss, `yyvs, `fEndOfFile
      ensures old(Step(Line(), c)) == Go(d) && Tracks(d) && d.pos == c.pos && d.states != []
      ensures Top(d) in {6, 9, 12} <==> yyn == 5 || yyn == 6
      ensures fEndOfFile == if yyn == 5 then true else if yyn == 6 then false else old(fEndOfFile)
    {
      hide Decide, Inv, Yydefact, Lhs, Yyr1, Rhs, Yyr2, Goto, Edge, Live, Action, Yystos, Slack, Shifts, Step,
        PastTerminator, HoldsAll;
      InvBasics(Line(), c);
      ReducingStep(Line(), c, yyn);
      ReduceKeepsInv(Line(), c);
      PastReduced(Line(), c);
      ReduceSetsFlag(Line(), c);
      ReducedHolds(Line(), c, yyvs);
      var yylen := Yyr2(yyn);
      var n := |yyvs| - yylen;
      var yyval := Action(yyn, yyvs[n..]);
      if yyn == 5 { fEndOfFile := true; }
      if yyn == 6 { fEndOfFile := false; }
      yyvs := yyvs[..n] + [yyval];
      var yystate := yyss[|yyss| - 1 - yylen];
      yyss := yyss[..|yyss| - yylen] + [Goto(yystate, Yyr1(yyn))];
      d := Reduced(c, yyn);
    }

    /** Label yyerrlab: report once, discard a token that was already tried, pop, shift `error`. */
    method Recover(ghost c: Config) returns (aborted: bool, ghost d: Config)
      requires Tracks(c) && yychar != YYEMPTY && Decide(Top(c), Look(Line(), c.pos)).Error?
      modifies `yychar, `yyss, `yyvs, `yyerrstatus, `yynerrs
      ensures aborted ==>
        old(Step(Line(), c)) == Done(Aborted(c)) && c.pos == |Line()| && next == |tokens| && yynerrs == c.nerrs
      ensures !aborted ==> old(Step(Line(), c)) == Go(d) && Tracks(d) && Top(d) == 1
    {
      hide Decide, Inv, Yydefact, Yypact, Yycheck, Yytable, Live, ErrorGoto, Shifts, PastTerminator;
      InvBasics(Line(), c);
      NotPast1();
      RecoverKeepsInv(Line(), c);
      ErrorStates(Line(), c);
      d := c;
      if yyerrstatus == 0 { yynerrs := yynerrs + 1; }
      if yyerrstatus == 3 {
        if yychar <= YYEOF {
          if yychar == YYEOF { return true, d; }
        } else {
          yychar := YYEMPTY;
        }
      }
      d := Recovered(c, if c.err == 3 then c.pos + 1 else c.pos);
      yyerrstatus := 3;
      while ErrorGoto(yyss[|yyss| - 1]) == 0
        invariant 0 < |yyss| <= |c.states| && yyss == c.states[..|yyss|] && |yyvs| == |yyss| - 1
        invariant ErrorGoto(yyss[|yyss| - 1]) == 0 ==> 1 < |yyss|
        modifies `yyss, `yyvs
        decreases |yyss|
      {
        yyss := yyss[..|yyss| - 1];
        yyvs := yyvs[..|yyvs| - 1];
      }
      yyvs := yyvs + [yylval];
      yyss := yyss + [ErrorGoto(yyss[|yyss| - 1])];
      return false, d;
    }

    /** What a call leaves behind, given how the driver's run over the line ends. */
    ghost predicate Finished(outcome: Outcome, yyresult: int, commands: Commands, ended: bool)
      requires start <= |tokens|
      reads this
    {
      match outcome
      case Accepted(rule, c) =>
        && yyresult == 0 && yychar == YYEMPTY && next == start + c.pos && yynerrs == c.nerrs
        && 0 < c.pos <= |Line()| && fEndOfFile == Line()[c.pos - 1].kind.YEOF?
        && pcGlobalCommand == if rule == 2 && |c.trees| > 0 then TreeOf(c.trees[0]) else NoCommand
      case Aborted(c) =>
        && yyresult == 1 && next == |tokens| && yynerrs == c.nerrs
        && pcGlobalCommand == commands && fEndOfFile == ended
    }

    /** One pass of the driver: choose an action and carry it out. */
    method Pass(ghost c: Config, ghost ended: bool) returns (signal: Signal, ghost d: Config)
      requires Tracks(c) && EndFlagOk(c, ended)
      modifies `next, `yychar, `yylval, `yyss, `yyvs, `yyerrstatus, `yynerrs, `fEndOfFile, `pcGlobalCommand
      ensures signal.Continue? ==>
        old(Step(Line(), c)) == Go(d) && Tracks(d) && pcGlobalCommand == old(pcGlobalCommand) && EndFlagOk(d, ended)
      ensures signal.Return? ==>
        old(Step(Line(), c)).Done? &&
        Finished(old(Step(Line(), c)).outcome, signal.yyresult, old(pcGlobalCommand), ended)
    {
      hide Decide, Inv, Step, Live, Shifts, HoldsAll, Edge, Sem, TreeOf, PastTerminator, Yydefact;
      InvBasics(Line(), c);
      StepSafe(Line(), c);
      d := c;
      var act := Backup(c);
      if act.Error? {
        var aborted;
        NotPast1();
        NotYetReduced(Line(), c);
        aborted, d := Recover(c);
        return if aborted then Return(1) else Continue, d;
      } else if act.Shift? {
        ShiftLeavesFlag(Line(), c);
        d := ShiftToken(act.state, c);
        return Continue, d;
      } else if act.Reduce? && 2 <= act.rule <= 4 {
        AcceptedTree(Line(), c, yyvs);
        pcGlobalCommand := if act.rule == 2 && yyvs[0].Cmd? then yyvs[0].commands else NoCommand;
        return Return(0), d;
      } else if act.Reduce? {
        ReduceSetsFlag(Line(), c);
        d := ReduceBy(act.rule, c);
        return Continue, d;
      } else {
        assert false;
      }
    }

    /**
     One call of `yyparse`. It does what the driver's run over the remaining tokens does, and the
     values it computes are those the grammar's actions give the derivation.
     */
    method YyParse() returns (yyresult: int)
      requires next <= |tokens|
      modifies this
      ensures start == old(next)
      ensures Finished(Parse(Line()), yyresult, old(pcGlobalCommand), old(fEndOfFile))
    {
      hide Decide, Inv, Step, Slack, Live, Shifts, HoldsAll, Edge, Finished;
      start := next;
      yyss, yyvs, yyerrstatus, yynerrs, yychar := [0], [], 0, 0, YYEMPTY;
      ghost var c := START;
      StartInv(Line());
      assert Tracks(c) by { NotPast0(); NothingHeld(); }
      while true
        invariant start == old(next) <= |tokens| && c.states != [] && Tracks(c)
        invariant Run(Line(), c) == Parse(Line())
        invariant pcGlobalCommand == old(pcGlobalCommand)
        invariant EndFlagOk(c, old(fEndOfFile))
        decreases |Line()| - c.pos, c.err == 0, |c.states| + Slack(Top(c))
      {
        InvBasics(Line(), c);
        if Step(Line(), c).Go? { StepKeepsInv(Line(), c); }
        var signal, d := Pass(c, old(fEndOfFile));
        if signal.Return? { return signal.yyresult; }
        InvBasics(Line(), d);
        c := d;
      }
    }

    /**
     `nextCommand` of command.c on a stream whose next terminator is `k` tokens ahead. It reads the
     line and its terminator and nothing more; it returns a tree exactly for the lines that derive
     from cmd_seq; and the tree is printable and spells the line it came from.
     */
    method NextCommand(ghost k: nat) returns (pc: Commands, eof: bool)
      requires next <= |tokens| && LineEndsAt(tokens[next..], k)
      modifies this
      ensures next == old(next) + k + 1 && yychar == YYEMPTY
      ensures eof == tokens[old(next) + k].kind.YEOF?
      ensures pc.Some? <==> Derives(CMD_SEQ, tokens[old(next)..old(next) + k])
      ensures pc.Some? ==> Meaning.Buildable(pc.command) && Denoted(pc, tokens[old(next)..old(next) + k])
      ensures pc.Some? ==> Meaning.SpellsLine(Meaning.NormAll(tokens[old(next)..old(next) + k]), pc.command)
      ensures pc.Some? ==> SlotsNamed(pc.command)
      ensures yynerrs == if pc.NoCommand? && k > 0 then 1 else 0
    {
      hide Parse, Inv, DerivationOf, Sem, LineEndsAt;
      ghost var line := tokens[next..];
      LineFits(line, k);
      ParseClassifies(line, k);
      assert line[..k] == tokens[next..next + k];
      var yyresult := YyParse();
      ghost var t := Parse(line);
      if t.rule == 2 { LineMeans(t.config.trees[0], line[..k]); }
      pc, eof := pcGlobalCommand, fEndOfFile;
      if pc.Some? {
        Meaning.BuildableNamed(pc.command);
      }
    }

    /** Once the terminator has been reduced, the flag says which terminator it was. */
    ghost predicate EndFlagOk(c: Config, before: bool)
      requires start <= |tokens| && c.states != []
      reads `start, `fEndOfFile
    {
      if Top(c) in {6, 9, 12} then 0 < c.pos <= |Line()| && fEndOfFile == Line()[c.pos - 1].kind.YEOF?
      else fEndOfFile == before
    }
  }

  lemma NinfReduces(s: int)
    requires Live(s)
    ensures Yypact(s) == YYPACT_NINF ==> Yydefact(s) != 0
    ensures PastTerminator(s) ==> Yypact(s) == YYPACT_NINF
  {}

  lemma ShiftNotGoto(s: int, token: int)
    requires Shifts(s, token)
    ensures !(ShiftTarget(s, token) in {6, 9, 12})
  {}

  lemma PastReduced(line: seq<Token>, c: Config)
    requires Inv(line, c) && 5 <= Yydefact(Top(c)) < 33 && Yyr2(Yydefact(Top(c))) < |c.states|
    ensures PastTerminator(Top(Reduced(c, Yydefact(Top(c))))) ==> PastTerminator(Top(c))
  {
    hide Yydefact, Lhs, Yyr1, Yyr2, Goto, Target, Edge, Yystos, Slack, PastTerminator, Inv;
    InvBasics(line, c);
    ReduceGood(line, c);
    hide Rhs;
    TablesMatchGrammar(Yydefact(Top(c)));
  }

  lemma NodeHolds(line: seq<Token>, c: Config, vs: seq<Value>)
    requires Inv(line, c) && 5 <= Yydefact(Top(c)) < 33 && HoldsAll(vs, c.trees)
    ensures var r := Yydefact(Top(c)); var n := |vs| - Yyr2(r);
            0 <= n && Holds(Action(r, vs[n..]), Node(r, c.trees[n..]))
  {
    hide Yydefact, Lhs, Yyr2, Rhs, Edge, Yystos, Action, Holds, Live;
    ReducePath(line, c);
    var r := Yydefact(Top(c));
    var n := |vs| - Yyr2(r);
    ActionIsSem(r, vs[n..], c.trees[n..]);
  }

  /** Only the bottom state shifts `error`. */
  lemma ErrorStates(line: seq<Token>, c: Config)
    requires Inv(line, c)
    ensures forall i | 0 <= i < |c.states| :: ErrorGoto(c.states[i]) == if i == 0 then 1 else 0
  {
    hide ErrorGoto, Live, Edge, ModeOk, LineOk;
    forall i | 0 <= i < |c.states|
      ensures ErrorGoto(c.states[i]) == if i == 0 then 1 else 0
    {
      if i > 0 { EdgeIsLive(c.states[i - 1], c.states[i]); } else { ZeroIsLive(); }
      ErrorFact(c.states[i]);
    }
  }

  lemma ZeroIsLive()
    ensures Live(0)
  {}

  lemma NotPast0()
    ensures !PastTerminator(0) && Live(0)
  {}

  /** Only shifts and error recovery happen before the terminator has been read. */
  lemma ShiftLeavesFlag(line: seq<Token>, c: Config)
    requires Inv(line, c) && Decide(Top(c), Look(line, c.pos)).Shift?
    ensures Top(c) !in {6, 9, 12}
  {
    hide Decide, Inv, Shifts;
    InvBasics(line, c);
    DecideIs(Top(c), Look(line, c.pos));
    ShiftFact(Top(c), Look(line, c.pos));
  }

  /** Rules 5 and 6, and only they, lead to the states behind a reduced terminator. */
  /** The value stack after a reduction holds the values of its trees. */
  lemma ReducedHolds(line: seq<Token>, c: Config, vs: seq<Value>)
    requires Inv(line, c) && 5 <= Yydefact(Top(c)) < 33 && HoldsAll(vs, c.trees)
    requires 0 <= Yyr2(Yydefact(Top(c))) < |c.states| == |c.trees| + 1
    ensures var r := Yydefact(Top(c)); var n := |vs| - Yyr2(r);
      0 <= n <= |vs| == |c.trees| && HoldsAll(vs[..n] + [Action(r, vs[n..])], Reduced(c, r).trees)
  {
    NodeHolds(line, c, vs);
    hide Inv, Yydefact, Yyr1, Yyr2, Goto, Action, Holds;
  }

  lemma ReducingStep(line: seq<Token>, c: Config, yyn: int)
    requires Inv(line, c) && Decide(Top(c), Look(line, c.pos)) == Reduce(yyn) && !(2 <= yyn <= 4)
    ensures yyn == Yydefact(Top(c)) && 5 <= yyn && IsRule(yyn) && 0 <= Yyr2(yyn) < |c.states| == |c.trees| + 1
    ensures Step(line, c) == Go(Reduced(c, yyn))
  {
    hide Decide, Inv, Yydefact, Lhs, Yyr1, Rhs, Yyr2, Goto, Edge, Live, Yystos, Slack, Shifts;
    StepSafe(line, c);
    InvBasics(line, c);
    DecideIs(Top(c), Look(line, c.pos));
    ReduceTop(Top(c));
    TablesMatchGrammar(yyn);
  }

  lemma ReduceSetsFlag(line: seq<Token>, c: Config)
    requires Inv(line, c) && Decide(Top(c), Look(line, c.pos)).Reduce?
    requires !(2 <= Decide(Top(c), Look(line, c.pos)).rule <= 4)
    ensures var r := Decide(Top(c), Look(line, c.pos)).rule;
            && IsRule(r) && Yyr2(r) < |c.states| == |c.trees| + 1
            && Top(c) !in {6, 9, 12}
            && (Top(Reduced(c, r)) in {6, 9, 12} <==> r == 5 || r == 6)
            && (r == 5 || r == 6 ==> 0 < c.pos <= |line| && (line[c.pos - 1].kind.YEOF? <==> r == 5))
  {
    hide Decide, Inv, Yydefact, Lhs, Yyr1, Yyr2, Goto, Target, Edge, Yystos, Slack, Rhs, Live, Shifts;
    StepSafe(line, c);
    InvBasics(line, c);
    DecideIs(Top(c), Look(line, c.pos));
    ReduceTop(Top(c));
    var r := Yydefact(Top(c));
    TablesMatchGrammar(r);
    ReduceGood(line, c);
    TerminatorRules(c.states[|c.trees| - Yyr2(r)], Top(c));
    if r == 5 || r == 6 { LastToken(line, c); }
  }

  lemma TerminatorRules(a: int, q: int)
    requires Live(q) && Yydefact(q) != 0
    ensures 5 <= Yydefact(q) ==> q !in {6, 9, 12}
    ensures 5 <= Yydefact(q) ==> (Target(a, Lhs(Yydefact(q))) in {6, 9, 12} <==> Yydefact(q) == 5 || Yydefact(q) == 6)
    ensures (Yydefact(q) == 5 <==> q == 4) && (Yydefact(q) == 6 <==> q == 3)
  {}

  lemma LastToken(line: seq<Token>, c: Config)
    requires Inv(line, c) && Top(c) in {3, 4}
    ensures 0 < c.pos <= |line| && (line[c.pos - 1].kind.YEOF? <==> Top(c) == 4)
  {
    hide StackOk, ModeOk;
  }

  lemma NothingHeld()
    ensures HoldsAll([], [])
  {}

  /** What rule 2 assigns to `pcGlobalCommand`. */
  lemma AcceptedTree(line: seq<Token>, c: Config, vs: seq<Value>)
    requires Inv(line, c) && HoldsAll(vs, c.trees)
    requires Decide(Top(c), Look(line, c.pos)).Reduce? && 2 <= Decide(Top(c), Look(line, c.pos)).rule <= 4
    ensures var r := Decide(Top(c), Look(line, c.pos)).rule;
            && Step(line, c) == Done(Accepted(r, c)) && |vs| == |c.trees| > 0
            && (r == 2 ==> (if vs[0].Cmd? then vs[0].commands else NoCommand) == TreeOf(c.trees[0]))
    ensures Top(c) in {6, 9, 12} && PastTerminator(Top(c))
  {
    hide Decide, Edge, LineOk, ModeOk, Rhs, Sem, WellFormed;
    EndShape(line, c);
    if c.states == [0, 7, 12] {
      assert Symbol(c.trees[0]) == Yystos(c.states[1]) == 25;
      assert Holds(vs[0], c.trees[0]);
      NonterminalIsNode(line, c);
    }
  }

  lemma NonterminalIsNode(line: seq<Token>, c: Config)
    requires Inv(line, c) && c.states == [0, 7, 12] && Symbol(c.trees[0]) == 25
    ensures c.trees[0].Node?
  {
    hide Edge, LineOk, ModeOk;
    NoLeafIsNonterminal(c.trees[0]);
  }

  lemma NotYetReduced(line: seq<Token>, c: Config)
    requires Inv(line, c) && Decide(Top(c), Look(line, c.pos)).Error?
    ensures Top(c) !in {6, 9, 12}
  {
    hide Decide, Inv, Shifts;
    InvBasics(line, c);
    DecideIs(Top(c), Look(line, c.pos));
    DefaultsBehindTerminator(Top(c));
  }

  lemma DefaultsBehindTerminator(s: int)
    ensures s in {6, 9, 12} ==> Yydefact(s) != 0
  {}

  /** Parsing the spelling of a printable tree gives the tree back. */
  lemma SpellingParsesBack(c: Command, end: Token, rest: seq<Token>)
    requires Meaning.Buildable(c) && IsTerminator(end)
    ensures var outcome := Parse(Meaning.Spelling(c) + [end] + rest);
            && outcome.Accepted? && outcome.rule == 2 && outcome.config.pos == |Meaning.Spelling(c)| + 1
            && |outcome.config.trees| == 2 && TreeOf(outcome.config.trees[0]) == Some(c)
  {
    hide Parse, Meaning.Spelling, Meaning.Buildable;
    var line := Meaning.Spelling(c);
    var tokens := line + [end] + rest;
    Building.ListDenotes(c);
    LineHasNoTerminator(line, Building.ListTree(c));
    assert tokens[..|line|] == line;
    DerivedLineAccepted(tokens, |line|, Building.ListTree(c));
  }
}
