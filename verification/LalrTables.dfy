/**
 The literal LALR(1) tables of parser.tab.c, the decisions `yyparse` takes from them, and the
 grammar of parser.y as data.

 Symbols are the internal symbol numbers: 0 is end of input, 1 is `error`, 3..19 are the tokens
 (`Syntax.Code`), 22..35 are the nonterminals
   cmd_line 23, terminator 24, cmd_seq 25, command 26, redirect 27, redirect_file 28,
   redirect_in 29, redirect_out 30, redirect_pipe 31, separator 32, pipe 33,
   parameters 34, parameter 35.
 */
module LalrTables {

  /** Left-hand side of rule `i`. */
  function Yyr1(i: int): int {
    match i
    case 0 => 0 case 1 => 22 case 2 => 23 case 3 => 23 case 4 => 23 case 5 => 24 case 6 => 24 case 7 => 25
    case 8 => 25 case 9 => 25 case 10 => 26 case 11 => 27 case 12 => 27 case 13 => 27 case 14 => 27 case 15 => 28
    case 16 => 28 case 17 => 28 case 18 => 28 case 19 => 29 case 20 => 30 case 21 => 30 case 22 => 30 case 23 => 30
    case 24 => 31 case 25 => 32 case 26 => 32 case 27 => 33 case 28 => 33 case 29 => 34 case 30 => 34 case 31 => 35
    case _ => 35
  }

  /** Length of the right-hand side of rule `i`. */
  function Yyr2(i: int): int {
    match i
    case 0 => 0 case 1 => 2 case 2 => 2 case 3 => 1 case 4 => 2 case 5 => 1 case 6 => 1 case 7 => 3
    case 8 => 2 case 9 => 1 case 10 => 3 case 11 => 1 case 12 => 1 case 13 => 2 case 14 => 0 case 15 => 1
    case 16 => 1 case 17 => 2 case 18 => 2 case 19 => 2 case 20 => 2 case 21 => 2 case 22 => 2 case 23 => 2
    case 24 => 2 case 25 => 1 case 26 => 1 case 27 => 1 case 28 => 1 case 29 => 2 case 30 => 0 case 31 => 1
    case _ => 1
  }

  /** Default reduction of state `i`; 0 means error. */
  function Yydefact(i: int): int {
    match i
    case 0 => 0 case 1 => 0 case 2 => 30 case 3 => 6 case 4 => 5 case 5 => 0 case 6 => 3 case 7 => 0
    case 8 => 9 case 9 => 4 case 10 => 14 case 11 => 1 case 12 => 2 case 13 => 25 case 14 => 26 case 15 => 8
    case 16 => 31 case 17 => 27 case 18 => 28 case 19 => 0 case 20 => 0 case 21 => 0 case 22 => 0 case 23 => 0
    case 24 => 32 case 25 => 10 case 26 => 11 case 27 => 15 case 28 => 16 case 29 => 12 case 30 => 0 case 31 => 29
    case 32 => 7 case 33 => 19 case 34 => 20 case 35 => 21 case 36 => 22 case 37 => 23 case 38 => 13 case 39 => 17
    case 40 => 18 case _ => 24
  }

  /** Default goto of nonterminal `i + 22`. */
  function Yydefgoto(i: int): int {
    match i
    case 0 => -1 case 1 => 5 case 2 => 6 case 3 => 7 case 4 => 8 case 5 => 25 case 6 => 26 case 7 => 27
    case 8 => 28 case 9 => 29 case 10 => 15 case 11 => 30 case 12 => 10 case _ => 31
  }

  /** Offset of state `i`'s row in `Yytable`; -9 (YYPACT_NINF) when the state ignores the look-ahead. */
  function Yypact(i: int): int {
    match i
    case 0 => -1 case 1 => -3 case 2 => -9 case 3 => -9 case 4 => -9 case 5 => 2 case 6 => -9 case 7 => -3
    case 8 => 19 case 9 => -9 case 10 => -2 case 11 => -9 case 12 => -9 case 13 => -9 case 14 => -9 case 15 => 0
    case 16 => -9 case 17 => -9 case 18 => -9 case 19 => 14 case 20 => 21 case 21 => 26 case 22 => 27 case 23 => 28
    case 24 => -9 case 25 => -9 case 26 => 22 case 27 => 10 case 28 => 17 case 29 => -9 case 30 => 0 case 31 => -9
    case 32 => -9 case 33 => -9 case 34 => -9 case 35 => -9 case 36 => -9 case 37 => -9 case 38 => -9 case 39 => -9
    case 40 => -9 case _ => -9
  }

  /** Offset of nonterminal `i + 22`'s column in `Yytable`. */
  function Yypgoto(i: int): int {
    match i
    case 0 => -9 case 1 => -9 case 2 => 13 case 3 => -8 case 4 => 4 case 5 => -9 case 6 => -9 case 7 => 7
    case 8 => 9 case 9 => 11 case 10 => -9 case 11 => -9 case 12 => -9 case _ => -9
  }

  /** Packed actions and gotos. */
  function Yytable(i: int): int {
    match i
    case 0 => 1 case 1 => 16 case 2 => 11 case 3 => 2 case 4 => 2 case 5 => 17 case 6 => 18 case 7 => 32
    case 8 => 19 case 9 => 20 case 10 => 21 case 11 => 22 case 12 => 23 case 13 => 24 case 14 => 9 case 15 => 3
    case 16 => 4 case 17 => 3 case 18 => 4 case 19 => 33 case 20 => 12 case 21 => 20 case 22 => 21 case 23 => 22
    case 24 => 23 case 25 => 13 case 26 => 34 case 27 => 19 case 28 => 14 case 29 => 17 case 30 => 18 case 31 => 35
    case 32 => 36 case 33 => 37 case 34 => 41 case 35 => 40 case 36 => 39 case _ => 38
  }

  /** Which token or state owns entry `i` of `Yytable`. */
  function Yycheck(i: int): int {
    match i
    case 0 => 1 case 1 => 3 case 2 => 0 case 3 => 4 case 4 => 4 case 5 => 7 case 6 => 8 case 7 => 15
    case 8 => 10 case 9 => 11 case 10 => 12 case 11 => 13 case 12 => 14 case 13 => 15 case 14 => 1 case 15 => 18
    case 16 => 19 case 17 => 18 case 18 => 19 case 19 => 5 case 20 => 7 case 21 => 11 case 22 => 12 case 23 => 13
    case 24 => 14 case 25 => 6 case 26 => 5 case 27 => 10 case 28 => 9 case 29 => 7 case 30 => 8 case 31 => 5
    case 32 => 5 case 33 => 5 case 34 => 30 case 35 => 28 case 36 => 27 case _ => 26
  }

  /** Symbol by which state `i` is entered. */
  function Yystos(i: int): int {
    match i
    case 0 => 0 case 1 => 1 case 2 => 4 case 3 => 18 case 4 => 19 case 5 => 23 case 6 => 24 case 7 => 25
    case 8 => 26 case 9 => 24 case 10 => 34 case 11 => 0 case 12 => 24 case 13 => 6 case 14 => 9 case 15 => 32
    case 16 => 3 case 17 => 7 case 18 => 8 case 19 => 10 case 20 => 11 case 21 => 12 case 22 => 13 case 23 => 14
    case 24 => 15 case 25 => 27 case 26 => 28 case 27 => 29 case 28 => 30 case 29 => 31 case 30 => 33 case 31 => 35
    case 32 => 25 case 33 => 5 case 34 => 5 case 35 => 5 case 36 => 5 case 37 => 5 case 38 => 31 case 39 => 30
    case 40 => 29 case _ => 26
  }


  const YYPACT_NINF := -9
  const YYTABLE_NINF := -1
  const YYLAST := 37
  const YYFINAL := 11
  const YYNTOKENS := 22
  const YYTERROR := 1
  const CMD_SEQ := 25
  const TERMINATOR := 24

  datatype Act = Shift(state: int) | Reduce(rule: int) | Error | Final

  function DefaultAct(s: int): Act {
    if Yydefact(s) == 0 then Error else Reduce(Yydefact(s))
  }

  /** The action of state `s` on look-ahead `token` (labels yybackup and yydefault). */
  function Decide(s: int, token: int): Act {
    if Yypact(s) == YYPACT_NINF then DefaultAct(s)
    else
      var n := Yypact(s) + token;
      if n < 0 || YYLAST < n || Yycheck(n) != token then DefaultAct(s)
      else if Yytable(n) == 0 || Yytable(n) == YYTABLE_NINF then Error
      else if Yytable(n) < 0 then Reduce(-Yytable(n))
      else if Yytable(n) == YYFINAL then Final
      else Shift(Yytable(n))
  }

  /** The state entered from `s` after reducing to nonterminal `symbol`. */
  function Goto(s: int, symbol: int): int {
    var n := Yypgoto(symbol - YYNTOKENS) + s;
    if 0 <= n <= YYLAST && Yycheck(n) == s then Yytable(n) else Yydefgoto(symbol - YYNTOKENS)
  }

  /** Where the `error` token leads from `s`; 0 if `s` cannot shift it (label yyerrlab1). */
  function ErrorGoto(s: int): int {
    var n := Yypact(s) + YYTERROR;
    if Yypact(s) != YYPACT_NINF && 0 <= n <= YYLAST && Yycheck(n) == YYTERROR && 0 < Yytable(n)
    then Yytable(n) else 0
  }

  /** The left-hand sides of the rules of parser.y. */
  function Lhs(rule: int): int {
    if rule == 1 then 22       // bison's own start symbol
    else if rule <= 4 then 23  // cmd_line
    else if rule <= 6 then 24  // terminator
    else if rule <= 9 then 25  // cmd_seq
    else if rule == 10 then 26 // command
    else if rule <= 14 then 27 // redirect
    else if rule <= 18 then 28 // redirect_file
    else if rule == 19 then 29 // redirect_in
    else if rule <= 23 then 30 // redirect_out
    else if rule == 24 then 31 // redirect_pipe
    else if rule <= 26 then 32 // separator
    else if rule <= 28 then 33 // pipe
    else if rule <= 30 then 34 // parameters
    else 35                    // parameter
  }

  /** The right-hand sides of the rules of parser.y. */
  function Rhs(rule: int): seq<int> {
    match rule
    case 1 => [23, 0]
    case 2 => [25, 24]      // cmd_line: cmd_seq terminator
    case 3 => [24]          //         | terminator
    case 4 => [1, 24]       //         | error terminator
    case 5 => [19]          // terminator: YEOF
    case 6 => [18]          //           | EOLN
    case 7 => [26, 32, 25]  // cmd_seq: command separator cmd_seq
    case 8 => [26, 32]      //        | command separator
    case 9 => [26]          //        | command
    case 10 => [4, 34, 27]  // command: COMMAND parameters redirect
    case 11 => [28]         // redirect: redirect_file
    case 12 => [31]         //         | redirect_pipe
    case 13 => [28, 31]     //         | redirect_file redirect_pipe
    case 14 => []           //         | (empty)
    case 15 => [29]         // redirect_file: redirect_in
    case 16 => [30]         //              | redirect_out
    case 17 => [29, 30]     //              | redirect_in redirect_out
    case 18 => [30, 29]     //              | redirect_out redirect_in
    case 19 => [10, 5]      // redirect_in: REDIRECT_IN FILENAME
    case 20 => [11, 5]      // redirect_out: REDIRECT_OUT FILENAME
    case 21 => [12, 5]      //             | REDIRECT_ERROR FILENAME
    case 22 => [13, 5]      //             | APPEND FILENAME
    case 23 => [14, 5]      //             | APPEND_ERROR FILENAME
    case 24 => [33, 26]     // redirect_pipe: pipe command
    case 25 => [6]          // separator: BACKGROUND
    case 26 => [9]          //          | SEMICOLON
    case 27 => [7]          // pipe: PIPE
    case 28 => [8]          //     | PIPE_ERROR
    case 29 => [34, 35]     // parameters: parameters parameter
    case 30 => []           //           | (empty)
    case 31 => [3]          // parameter: WORD
    case _ => [15]          //          | STRING
  }

  predicate IsRule(r: int) { 1 <= r < 33 }

  lemma TablesMatchGrammar(r: int)
    requires IsRule(r)
    ensures |Rhs(r)| == Yyr2(r) <= 3
    ensures Yyr1(r) == Lhs(r)
    ensures 22 <= Lhs(r) < 36 && (r >= 2 ==> 23 <= Lhs(r))
  {}

  /** `Edge(a, b)`: in the automaton, state `b` is entered from state `a`. */
  predicate Edge(a: int, b: int) {
    match b
    case 1 => a == 0
    case 2 => a == 0 || a == 15 || a == 30
    case 3 => a == 0 || a == 1 || a == 7
    case 4 => a == 0 || a == 1 || a == 7
    case 6 => a == 0
    case 7 => a == 0
    case 8 => a == 0 || a == 15
    case 9 => a == 1
    case 10 => a == 2
    case 12 => a == 7
    case 13 => a == 8
    case 14 => a == 8
    case 15 => a == 8
    case 16 => a == 10
    case 17 => a == 10 || a == 26
    case 18 => a == 10 || a == 26
    case 19 => a == 10 || a == 28
    case 20 => a == 10 || a == 27
    case 21 => a == 10 || a == 27
    case 22 => a == 10 || a == 27
    case 23 => a == 10 || a == 27
    case 24 => a == 10
    case 25 => a == 10
    case 26 => a == 10
    case 27 => a == 10
    case 28 => a == 10
    case 29 => a == 10
    case 30 => a == 10 || a == 26
    case 31 => a == 10
    case 32 => a == 15
    case 33 => a == 19
    case 34 => a == 20
    case 35 => a == 21
    case 36 => a == 22
    case 37 => a == 23
    case 38 => a == 26
    case 39 => a == 27
    case 40 => a == 28
    case 41 => a == 30
    case _ => false
  }

  /** The states a parse can be in: all but 5 and 11, since rules 2 to 4 accept at once. */
  predicate Live(s: int) { 0 <= s < 42 && s != 5 && s != 11 }

  /** States entered when a terminator has been shifted. */
  predicate PastTerminator(s: int) { s == 3 || s == 4 || s == 6 || s == 9 || s == 12 }

  /** How many reductions can follow without a shift, up to the stack's change of height. */
  function Slack(s: int): nat {
    match s
    case 2 => 4 case 10 => 2 case 16 => 3 case 24 => 3 case 3 => 1 case 4 => 1 case 8 => 1
    case 13 => 1 case 14 => 1 case 17 => 1 case 18 => 1 case 26 => 1 case 27 => 2 case 28 => 2
    case 29 => 1 case 31 => 2 case 33 => 2 case 34 => 2 case 35 => 2 case 36 => 2 case 37 => 2
    case 39 => 1 case 40 => 1 case 41 => 1
    case _ => 0
  }

  /** The packed tables, unpacked: which states shift a token, and where to. */
  predicate Shifts(s: int, token: int) {
    match token
    case 3 => s == 10
    case 4 => s == 0 || s == 15 || s == 30
    case 5 => 19 <= s <= 23
    case 6 => s == 8
    case 7 => s == 10 || s == 26
    case 8 => s == 10 || s == 26
    case 9 => s == 8
    case 10 => s == 10 || s == 28
    case 11 => s == 10 || s == 27
    case 12 => s == 10 || s == 27
    case 13 => s == 10 || s == 27
    case 14 => s == 10 || s == 27
    case 15 => s == 10
    case 18 => s == 0 || s == 1 || s == 7
    case 19 => s == 0 || s == 1 || s == 7
    case _ => false
  }

  function ShiftTarget(s: int, token: int): int {
    match token
    case 3 => 16 case 4 => 2 case 5 => s + 14 case 6 => 13 case 7 => 17 case 8 => 18 case 9 => 14
    case 10 => 19 case 11 => 20 case 12 => 21 case 13 => 22 case 14 => 23 case 15 => 24
    case 18 => 3 case 19 => 4 case _ => 0
  }

  /** The goto tables, unpacked. */
  function Target(s: int, symbol: int): int {
    match symbol
    case 23 => 5
    case 24 => if s == 1 then 9 else if s == 7 then 12 else 6
    case 25 => if s == 15 then 32 else 7
    case 26 => if s == 30 then 41 else 8
    case 27 => 25
    case 28 => 26
    case 29 => if s == 28 then 40 else 27
    case 30 => if s == 27 then 39 else 28
    case 31 => if s == 26 then 38 else 29
    case 32 => 15
    case 33 => 30
    case 34 => 10
    case _ => 31
  }

  /** The packed action table holds exactly the unpacked one. */
  lemma DecideIs(s: int, token: int)
    requires Live(s) && 0 <= token < 20 && token != YYTERROR
    ensures Decide(s, token) == if Shifts(s, token) then Shift(ShiftTarget(s, token)) else DefaultAct(s)
  {
    if token < 5 {
      DecideIsLow(s, token);
    } else if token < 10 {
      DecideIsMiddle(s, token);
    } else {
      DecideIsHigh(s, token);
    }
  }

  lemma DecideIsLow(s: int, token: int)
    requires Live(s) && 0 <= token < 5 && token != YYTERROR
    ensures Decide(s, token) == if Shifts(s, token) then Shift(ShiftTarget(s, token)) else DefaultAct(s)
  {}

  lemma DecideIsMiddle(s: int, token: int)
    requires Live(s) && 5 <= token < 10
    ensures Decide(s, token) == if Shifts(s, token) then Shift(ShiftTarget(s, token)) else DefaultAct(s)
  {}

  lemma DecideIsHigh(s: int, token: int)
    requires Live(s) && 10 <= token < 20
    ensures Decide(s, token) == if Shifts(s, token) then Shift(ShiftTarget(s, token)) else DefaultAct(s)
  {}

  lemma GotoIs(s: int, symbol: int)
    requires Live(s) && 23 <= symbol < 36
    ensures Goto(s, symbol) == Target(s, symbol)
  {
    if symbol < 29 { GotoIsLow(s, symbol); } else { GotoIsHigh(s, symbol); }
  }

  lemma GotoIsLow(s: int, symbol: int)
    requires Live(s) && 23 <= symbol < 29
    ensures Goto(s, symbol) == Target(s, symbol)
  {}

  lemma GotoIsHigh(s: int, symbol: int)
    requires Live(s) && 29 <= symbol < 36
    ensures Goto(s, symbol) == Target(s, symbol)
  {}

  lemma EdgeIsLive(a: int, b: int)
    requires Edge(a, b)
    ensures Live(a) && Live(b) && b != 0
  {}

  /** The state a token is shifted into is entered by that token. */
  lemma ShiftFact(s: int, token: int)
    requires Live(s) && Shifts(s, token)
    ensures Edge(s, ShiftTarget(s, token)) && Yystos(ShiftTarget(s, token)) == token && ShiftTarget(s, token) != 1
    ensures PastTerminator(ShiftTarget(s, token)) <==> (token == 18 || token == 19)
    ensures !PastTerminator(s) && (s == 1 ==> token == 18 || token == 19)
    ensures (ShiftTarget(s, token) == 3 ==> token == 18) && (ShiftTarget(s, token) == 4 ==> token == 19)
  {}

  /** What a reduction in state `q` finds on the stack below it, by right-hand side length. */
  lemma ReduceTop(q: int)
    requires Live(q) && Yydefact(q) != 0
    ensures 2 <= Yydefact(q) < 33
    ensures |Rhs(Yydefact(q))| > 0 ==> Rhs(Yydefact(q))[|Rhs(Yydefact(q))| - 1] == Yystos(q) && q != 0
  {}

  lemma ReduceSecond(p: int, q: int)
    requires Edge(p, q) && Yydefact(q) != 0 && |Rhs(Yydefact(q))| > 1
    ensures Rhs(Yydefact(q))[|Rhs(Yydefact(q))| - 2] == Yystos(p) && p != 0
  {}

  lemma ReduceThird(o: int, p: int, q: int)
    requires Edge(o, p) && Edge(p, q) && Yydefact(q) != 0 && |Rhs(Yydefact(q))| == 3
    ensures Rhs(Yydefact(q))[0] == Yystos(o) && o != 0
  {}

  /** A reduction that does not accept goes from the uncovered state along an edge and uses up slack. */
  predicate GoodGoto(a: int, q: int) {
    var r := Yydefact(q);
    var g := Target(a, Lhs(r));
    Edge(a, g) && g !in {1, 3, 4} && Yystos(g) == Lhs(r) && Slack(g) + 2 <= Slack(q) + Yyr2(r) &&
    (PastTerminator(g) <==> PastTerminator(q)) && (PastTerminator(q) ==> Yyr2(r) == 1)
  }

  lemma ReduceGoto0(q: int)
    requires Live(q) && 5 <= Yydefact(q) && Yyr2(Yydefact(q)) == 0
    ensures GoodGoto(q, q)
  {}

  lemma ReduceGoto1(a: int, q: int)
    requires Edge(a, q) && 5 <= Yydefact(q) && Yyr2(Yydefact(q)) == 1
    ensures GoodGoto(a, q)
  {
    hide Edge, Yydefact, Yyr2, GoodGoto;
    if q < 16 { ReduceGoto1Low(a, q); } else { ReduceGoto1High(a, q); }
  }

  lemma ReduceGoto1Low(a: int, q: int)
    requires Edge(a, q) && 5 <= Yydefact(q) && Yyr2(Yydefact(q)) == 1 && q < 16
    ensures GoodGoto(a, q)
  {}

  lemma ReduceGoto1High(a: int, q: int)
    requires Edge(a, q) && 5 <= Yydefact(q) && Yyr2(Yydefact(q)) == 1 && 16 <= q
    ensures GoodGoto(a, q)
  {}

  lemma ReduceGoto2(a: int, p: int, q: int)
    requires Edge(a, p) && Edge(p, q) && 5 <= Yydefact(q) && Yyr2(Yydefact(q)) == 2
    ensures GoodGoto(a, q)
  {
    hide Edge, Yydefact, Yyr2, GoodGoto;
    if q < 34 { ReduceGoto2Low(a, p, q); } else { ReduceGoto2High(a, p, q); }
  }

  lemma ReduceGoto2Low(a: int, p: int, q: int)
    requires Edge(a, p) && Edge(p, q) && 5 <= Yydefact(q) && Yyr2(Yydefact(q)) == 2 && q < 34
    ensures GoodGoto(a, q)
  {}

  lemma ReduceGoto2High(a: int, p: int, q: int)
    requires Edge(a, p) && Edge(p, q) && 5 <= Yydefact(q) && Yyr2(Yydefact(q)) == 2 && 34 <= q
    ensures GoodGoto(a, q)
  {}

  lemma ReduceGoto3(a: int, o: int, p: int, q: int)
    requires Edge(a, o) && Edge(o, p) && Edge(p, q) && 5 <= Yydefact(q) && Yyr2(Yydefact(q)) == 3
    ensures GoodGoto(a, q)
  {}

  lemma ErrorFact(s: int)
    requires Live(s)
    ensures ErrorGoto(s) == if s == 0 then 1 else 0
    ensures Yydefact(1) == 0 && (Yydefact(s) == 0 ==> !PastTerminator(s))
    ensures Shifts(1, 18) && Shifts(1, 19)
  {}
}
