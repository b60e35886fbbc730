/**
 What the parser's trees look like and what they mean: exactly the printable shapes, and the tree
 spells the very line it came from.
 */
module Meaning {
  import opened Syntax
  import opened LalrTables
  import opened Derivations
  import opened Actions

  predicate IsOut(k: Kind) { k.REDIRECT_OUT? || k.REDIRECT_ERROR? || k.APPEND? || k.APPEND_ERROR? }

  predicate OneIn(r: Redirects) { r.File? && r.kind.REDIRECT_IN? && r.next.NoRedirect? }

  predicate OneOut(r: Redirects) { r.File? && IsOut(r.kind) && r.next.NoRedirect? }

  /** At most one input and one output redirect, in either order, at least one of them. */
  predicate Files(r: Redirects) {
    OneIn(r) || OneOut(r) || (r.File? && r.kind.REDIRECT_IN? && OneOut(r.next)) ||
    (r.File? && IsOut(r.kind) && OneIn(r.next))
  }

  predicate OnePipe(r: Redirects)
    decreases r, 0
  {
    r.Pipe? && (r.kind.PIPE? || r.kind.PIPE_ERROR?) && r.next.NoRedirect? && Stage(r.command)
  }

  /** File redirects first, at most one pipe, and the pipe last. */
  predicate RedirectList(r: Redirects)
    decreases r, 1
  {
    r.NoRedirect? || OnePipe(r) || Files(r) ||
    (r.File? && OnePipe(r.next) && (r.kind.REDIRECT_IN? || IsOut(r.kind))) ||
    (r.File? && r.next.File? && OnePipe(r.next.next) &&
      ((r.kind.REDIRECT_IN? && IsOut(r.next.kind)) || (IsOut(r.kind) && r.next.kind.REDIRECT_IN?)))
  }

  /** A command as a stage of a pipeline: never in the background, no command after it. */
  predicate Stage(c: Command)
    decreases c, 1
  {
    !c.background && c.next.NoCommand? && Simple(c)
  }

  predicate Simple(c: Command)
    decreases c, 0
  {
    |c.args| > 0 && c.args[0] == ShortName(c.zCmd) && RedirectList(c.redirects)
  }

  /** A command list as the grammar builds it. */
  predicate Buildable(c: Command) {
    Simple(c) && (c.next.Some? ==> Buildable(c.next.command))
  }

  /** In a tree the grammar builds, every slot 0 holds its command's short name. */
  lemma {:induction false} BuildableNamed(c: Command)
    requires Buildable(c)
    ensures SlotsNamed(c)
    decreases c, 1
  {
    hide RedirectList, ShortName, BehindLastSlash;
    ShortNameIs(c.zCmd);
    RedirectsNamed(c.redirects);
    if c.next.Some? {
      BuildableNamed(c.next.command);
    }
  }

  lemma RestIsList(r: Redirects)
    requires r.File? && RedirectList(r)
    ensures RedirectList(r.next)
  {
    hide Stage;
    if r.next.File? && r.next.next.Pipe? {
      assert OnePipe(r.next.next);
    }
  }

  lemma {:induction false} RedirectsNamed(r: Redirects)
    requires RedirectList(r)
    ensures SlotsNamedBehind(r)
    decreases r, 0
  {
    hide ShortName, BehindLastSlash, SlotsNamed;
    match r
    case NoRedirect =>
    case File(_, _, next) =>
      RestIsList(r);
      RedirectsNamed(next);
    case Pipe(_, c, next) =>
      assert OnePipe(r);
      StageIsBuildable(c);
      BuildableNamed(c);
  }

  /** The token sequence of a command list, in the order printCommand walks it. */
  function Spelling(c: Command): seq<Token> {
    [Token(COMMAND, c.zCmd)] + Words(if c.args == [] then [] else c.args[1..]) + RedirectSpelling(c.redirects) +
    (if c.background then [Token(BACKGROUND, "")] else if c.next.Some? then [Token(SEMICOLON, "")] else []) +
    (if c.next.Some? then Spelling(c.next.command) else [])
  }

  function Words(args: seq<string>): seq<Token> {
    if args == [] then [] else [Token(WORD, args[0])] + Words(args[1..])
  }

  function RedirectSpelling(r: Redirects): seq<Token> {
    match r
    case NoRedirect => []
    case File(k, name, next) => [Token(k, ""), Token(FILENAME, name)] + RedirectSpelling(next)
    case Pipe(k, c, next) => [Token(k, "")] + Spelling(c) + RedirectSpelling(next)
  }

  /** A token without what the grammar ignores: STRING counts as WORD, operators carry no text. */
  function Norm(t: Token): Token {
    Token(if t.kind.STRING? then WORD else t.kind, if HasText(t.kind) then t.text else "")
  }

  function NormAll(line: seq<Token>): (r: seq<Token>)
    ensures |r| == |line|
    ensures forall i | 0 <= i < |line| :: r[i] == Norm(line[i])
  {
    seq(|line|, i requires 0 <= i < |line| => Norm(line[i]))
  }

  /** The values a symbol of the grammar can have. */
  predicate Fits(symbol: int, v: Value) {
    match symbol
    case 3 => v.Text?
    case 4 => v.Text?
    case 5 => v.Text?
    case 15 => v.Text?
    case 25 => v.Cmd? && v.commands.Some? && Buildable(v.commands.command)
    case 26 => v.Cmd? && v.commands.Some? && Stage(v.commands.command)
    case 27 => v.Redirs? && RedirectList(v.redirects)
    case 28 => v.Redirs? && Files(v.redirects)
    case 29 => v.Redirs? && OneIn(v.redirects)
    case 30 => v.Redirs? && OneOut(v.redirects)
    case 31 => v.Redirs? && OnePipe(v.redirects)
    case 32 => v == Number(BACKGROUND) || v == Number(SEMICOLON)
    case 33 => v == Number(PIPE) || v == Number(PIPE_ERROR)
    case 34 => v.Args? && |v.args| > 0
    case 35 => v.Text?
    case _ => true
  }

  /** Every action keeps the shapes. */
  lemma ActionFits(r: int, v: seq<Value>)
    requires IsRule(r) && 5 <= r && |v| == |Rhs(r)|
    requires forall i | 0 <= i < |v| :: Fits(Rhs(r)[i], v[i])
    ensures Fits(Lhs(r), Action(r, v))
  {
    hide ShortName, Stage, Simple, RedirectList, OneIn, OneOut, Files, OnePipe, Buildable;
    if r < 10 { CommandsFit(r, v); }
    else if r == 10 { CommandFits(v); }
    else if r < 19 { RedirectsFit(r, v); }
    else { LeavesFit(r, v); }
  }

  lemma CommandsFit(r: int, v: seq<Value>)
    requires 5 <= r < 10 && |v| == |Rhs(r)|
    requires forall i | 0 <= i < |v| :: Fits(Rhs(r)[i], v[i])
    ensures Fits(Lhs(r), Action(r, v))
  {
    hide ShortName;
    if r == 7 { assert Rhs(r) == [26, 32, 25]; assert Fits(26, v[0]) && Fits(32, v[1]) && Fits(25, v[2]); ListFits(v); }
    if r == 8 {
      assert Rhs(r) == [26, 32];
      assert Fits(26, v[0]) && Fits(32, v[1]);
      StageIsBuildable(v[0].commands.command);
    }
    if r == 9 { assert Rhs(r) == [26]; assert Fits(26, v[0]); StageIsBuildable(v[0].commands.command); }
  }

  lemma StageIsBuildable(c: Command)
    requires Stage(c)
    ensures Buildable(c) && Buildable(c.(background := true))
  {
    assert Simple(c);
    assert Simple(c.(background := true));
  }

  lemma ListFits(v: seq<Value>)
    requires |v| == 3 && Fits(26, v[0]) && Fits(25, v[2])
    ensures Fits(25, Action(7, v))
  {
    var c, d := v[0].commands.command, v[2].commands.command;
    assert Stage(c) && Simple(c);
    assert Simple(c.(next := Some(d)));
    assert Simple(c.(next := Some(d), background := true));
  }

  lemma CommandFits(v: seq<Value>)
    requires |v| == 3 && Fits(4, v[0]) && Fits(34, v[1]) && Fits(27, v[2])
    ensures Fits(26, Action(10, v))
  {
    var c := Command(v[0].text, v[1].args[0 := ShortName(v[0].text)], false, v[2].redirects, NoCommand);
    assert RedirectList(c.redirects);
    assert Simple(c);
  }

  lemma RedirectsFit(r: int, v: seq<Value>)
    requires 11 <= r < 19 && |v| == |Rhs(r)|
    requires forall i | 0 <= i < |v| :: Fits(Rhs(r)[i], v[i])
    ensures Fits(Lhs(r), Action(r, v))
  {
    if r == 13 {
      assert Rhs(r) == [28, 31];
      assert Fits(28, v[0]) && Fits(31, v[1]);
      FilesThenPipe(v[0].redirects, v[1].redirects);
    }
    if r == 17 {
      assert Rhs(r) == [29, 30];
      assert Fits(29, v[0]) && Fits(30, v[1]);
      AppendToOne(v[0].redirects, v[1].redirects);
    }
    if r == 18 {
      assert Rhs(r) == [30, 29];
      assert Fits(30, v[0]) && Fits(29, v[1]);
      AppendToOne(v[0].redirects, v[1].redirects);
    }
    if r == 11 { assert Rhs(r) == [28]; assert Fits(28, v[0]) && RedirectList(v[0].redirects); }
    if r == 12 { assert Rhs(r) == [31]; assert Fits(31, v[0]) && RedirectList(v[0].redirects); }
    if r == 15 { assert Rhs(r) == [29]; assert Fits(29, v[0]); }
    if r == 16 { assert Rhs(r) == [30]; assert Fits(30, v[0]); }
  }

  lemma AppendToOne(a: Redirects, b: Redirects)
    requires a.File? && a.next.NoRedirect?
    ensures AppendRedirect(a, b) == File(a.kind, a.name, b)
  {
    assert AppendRedirect(a.next, b) == b;
  }

  lemma FilesThenPipe(f: Redirects, p: Redirects)
    requires Files(f) && OnePipe(p)
    ensures RedirectList(AppendRedirect(f, p))
  {
    assert AppendRedirect(f, p).next == AppendRedirect(f.next, p);
    if f.next.File? { assert AppendRedirect(f.next, p).next == AppendRedirect(f.next.next, p); }
  }

  lemma LeavesFit(r: int, v: seq<Value>)
    requires 19 <= r < 33 && |v| == |Rhs(r)|
    requires forall i | 0 <= i < |v| :: Fits(Rhs(r)[i], v[i])
    ensures Fits(Lhs(r), Action(r, v))
  {
    hide Stage;
    if |v| > 0 { assert Fits(Rhs(r)[0], v[0]); }
    if |v| > 1 { assert Fits(Rhs(r)[1], v[1]); }
  }

  /** Every derivation denotes a value of its symbol's shape. */
  lemma {:induction false} SemFits(t: Tree)
    requires WellFormed(t) && (t.Node? ==> 5 <= t.rule)
    ensures Fits(Symbol(t), Sem(t))
  {
    hide Fits, Action, Rhs, Lhs;
    match t
    case Leaf(token) => LeafFits(token);
    case ErrorLeaf => ErrorLeafFits();
    case Node(r, kids) =>
      forall i | 0 <= i < |kids|
        ensures Fits(Rhs(r)[i], Sem(kids[i]))
      {
        KidIsLate(t, i);
        SemFits(kids[i]);
      }
      ActionFits(r, SemAll(kids));
  }

  lemma LeafFits(token: Token)
    ensures Fits(Code(token.kind), if HasText(token.kind) then Text(token.text) else Stale)
  {}

  lemma ErrorLeafFits()
    ensures Fits(YYTERROR, Stale)
  {}

  lemma KidIsLate(t: Tree, i: nat)
    requires WellFormed(t) && t.Node? && 5 <= t.rule && i < |t.kids|
    ensures WellFormed(t.kids[i]) && Symbol(t.kids[i]) == Rhs(t.rule)[i] && (t.kids[i].Node? ==> 5 <= t.kids[i].rule)
    ensures !t.kids[i].ErrorLeaf?
  {}

  /** The token kind a terminal symbol prints as. */
  function KindOf(symbol: int): Kind {
    match symbol
    case 3 => WORD case 4 => COMMAND case 5 => FILENAME case 6 => BACKGROUND case 7 => PIPE
    case 8 => PIPE_ERROR case 9 => SEMICOLON case 10 => REDIRECT_IN case 11 => REDIRECT_OUT
    case 12 => REDIRECT_ERROR case 13 => APPEND case 14 => APPEND_ERROR case 15 => WORD
    case 16 => LOGICAL_AND case 17 => LOGICAL_OR case 18 => EOLN case _ => YEOF
  }

  /** What a value prints as, given the symbol it stands for. */
  function Spell(symbol: int, v: Value): seq<Token> {
    if symbol < YYNTOKENS then [Token(KindOf(symbol), if HasText(KindOf(symbol)) && v.Text? then v.text else "")]
    else if symbol == 25 || symbol == 26 then
      (if v.Cmd? && v.commands.Some? then Spelling(v.commands.command) else [])
    else if 27 <= symbol <= 31 then (if v.Redirs? then RedirectSpelling(v.redirects) else [])
    else if symbol == 32 || symbol == 33 then (if v.Number? then [Token(v.kind, "")] else [])
    else if symbol == 34 then (if v.Args? && v.args != [] then Words(v.args[1..]) else [])
    else if v.Text? then [Token(WORD, v.text)] else []
  }

  function SpellTree(t: Tree): seq<Token> {
    Spell(Symbol(t), Sem(t))
  }

  function SpellKids(kids: seq<Tree>): seq<Token> {
    if kids == [] then [] else SpellTree(kids[0]) + SpellKids(kids[1..])
  }

  lemma LeafSpells(token: Token)
    ensures SpellTree(Leaf(token)) == [Norm(token)]
  {}

  lemma SpellKids3(a: Tree, b: Tree, c: Tree)
    ensures SpellKids([a, b, c]) == SpellTree(a) + SpellTree(b) + SpellTree(c)
  {
    hide Spell, Sem;
    SpellKids2(b, c);
    assert [a, b, c][1..] == [b, c];
  }

  lemma SpellKids2(a: Tree, b: Tree)
    ensures SpellKids([a, b]) == SpellTree(a) + SpellTree(b)
  {
    hide Spell, Sem;
    SpellKids1(b);
    assert [a, b][1..] == [b];
  }

  lemma SpellKids1(a: Tree)
    ensures SpellKids([a]) == SpellTree(a)
  {
    hide Spell, Sem;
    assert [a][1..] == [];
  }

  lemma {:induction false} AppendRedirectSpells(a: Redirects, b: Redirects)
    ensures RedirectSpelling(AppendRedirect(a, b)) == RedirectSpelling(a) + RedirectSpelling(b)
  {
    hide Spelling;
    match a
    case NoRedirect =>
    case File(_, _, next) => AppendRedirectSpells(next, b);
    case Pipe(_, _, next) => AppendRedirectSpells(next, b);
  }

  lemma {:induction false} WordsAppend(a: seq<string>, s: string)
    ensures Words(a + [s]) == Words(a) + [Token(WORD, s)]
  {
    if a == [] {
      assert a + [s] == [s] && [s][1..] == [];
    } else {
      WordsAppend(a[1..], s);
      assert (a + [s])[1..] == a[1..] + [s];
    }
  }

  /** Every action spells what its right-hand side spells. */
  lemma RuleSpells1(r: int, a: Value)
    requires 10 <= r < 33 && |Rhs(r)| == 1 && Fits(Rhs(r)[0], a)
    ensures Spell(Lhs(r), Action(r, [a])) == Spell(Rhs(r)[0], a)
  {
    hide Spelling, RedirectSpelling, Words, Buildable, Stage, RedirectList, Files, OneIn, OneOut, OnePipe;
  }

  lemma RuleSpells2(r: int, a: Value, b: Value)
    requires 10 <= r < 33 && |Rhs(r)| == 2 && Fits(Rhs(r)[0], a) && Fits(Rhs(r)[1], b)
    ensures Spell(Lhs(r), Action(r, [a, b])) == Spell(Rhs(r)[0], a) + Spell(Rhs(r)[1], b)
  {
    hide Spelling, Words, Buildable, Stage, RedirectList, Files, OneIn, OneOut, OnePipe, Spell, Fits;
    if r == 13 || r == 17 || r == 18 { JoinSpells(r, a, b); }
    else if r == 24 { PipeSpells(a, b); }
    else if r == 29 { ParameterSpells(a, b); }
    else { RedirectSpells(r, a, b); }
  }

  lemma JoinSpells(r: int, a: Value, b: Value)
    requires (r == 13 || r == 17 || r == 18) && Fits(Rhs(r)[0], a) && Fits(Rhs(r)[1], b)
    ensures Spell(Lhs(r), Action(r, [a, b])) == Spell(Rhs(r)[0], a) + Spell(Rhs(r)[1], b)
  {
    hide RedirectSpelling, RedirectList, Files, OneIn, OneOut, OnePipe;
    AppendRedirectSpells(a.redirects, b.redirects);
  }

  lemma PipeSpells(a: Value, b: Value)
    requires Fits(33, a) && Fits(26, b)
    ensures Spell(31, Action(24, [a, b])) == Spell(33, a) + Spell(26, b)
  {
    hide Spelling, Stage;
    assert RedirectSpelling(NoRedirect) == [];
  }

  lemma ParameterSpells(a: Value, b: Value)
    requires Fits(34, a) && Fits(35, b)
    ensures Spell(34, Action(29, [a, b])) == Spell(34, a) + Spell(35, b)
  {
    hide Words;
    assert (a.args + [b.text])[1..] == a.args[1..] + [b.text];
    WordsAppend(a.args[1..], b.text);
  }

  lemma RedirectSpells(r: int, a: Value, b: Value)
    requires 19 <= r <= 23 && Fits(5, b)
    ensures Spell(Lhs(r), Action(r, [a, b])) == Spell(Rhs(r)[0], a) + Spell(Rhs(r)[1], b)
  {
    assert RedirectSpelling(NoRedirect) == [];
  }

  lemma CommandSpells(a: Value, b: Value, c: Value)
    requires Fits(4, a) && Fits(34, b) && Fits(27, c)
    ensures Spell(26, Action(10, [a, b, c])) == Spell(4, a) + Spell(34, b) + Spell(27, c)
  {
    hide Words, RedirectList;
    var args := b.args[0 := ShortName(a.text)];
    assert args[1..] == b.args[1..];
  }

  lemma EmptySpells(r: int)
    requires r == 14 || r == 30
    ensures Spell(Lhs(r), Action(r, [])) == []
  {
    assert [""][1..] == [];
  }

  lemma NodeSpells(t: Tree)
    requires WellFormed(t) && t.Node? && 10 <= t.rule
    ensures SpellTree(t) == SpellKids(t.kids)
  {
    hide Spell, Action, Fits, Spelling, RedirectSpelling, Sem;
    var r, kids := t.rule, t.kids;
    forall i | 0 <= i < |kids|
      ensures Fits(Rhs(r)[i], Sem(kids[i])) && Symbol(kids[i]) == Rhs(r)[i]
    {
      KidIsLate(t, i);
      SemFits(kids[i]);
    }
    var v := SemAll(kids);
    SemOfNode(t);
    if |kids| == 0 {
      assert v == [];
      EmptySpells(r);
    } else if |kids| == 1 {
      assert kids == [kids[0]] && v == [v[0]];
      RuleSpells1(r, v[0]);
      SpellKids1(kids[0]);
    } else if |kids| == 2 {
      assert kids == [kids[0], kids[1]] && v == [v[0], v[1]];
      RuleSpells2(r, v[0], v[1]);
      SpellKids2(kids[0], kids[1]);
    } else {
      assert kids == [kids[0], kids[1], kids[2]] && v == [v[0], v[1], v[2]];
      CommandSpells(v[0], v[1], v[2]);
      SpellKids3(kids[0], kids[1], kids[2]);
    }
  }

  lemma SemOfNode(t: Tree)
    requires t.Node?
    ensures Sem(t) == Action(t.rule, SemAll(t.kids))
  {}

  lemma NormAppend(a: seq<Token>, b: seq<Token>)
    ensures NormAll(a + b) == NormAll(a) + NormAll(b)
  {}

  /**
   The tree spells its line: what printing walks over is, up to STRING/WORD, the very token
   sequence the derivation covers.
   */
  lemma {:induction false} TreeSpellsLine(t: Tree)
    requires WellFormed(t) && 2 < Symbol(t) && Symbol(t) != 25 && (t.Node? ==> 10 <= t.rule)
    ensures NormAll(Yield(t)) == SpellTree(t)
    decreases t, 1, 0
  {
    hide Spell, Action, Rhs, Lhs, Spelling, RedirectSpelling, Fits;
    match t
    case Leaf(token) => LeafSpells(token);
    case ErrorLeaf =>
    case Node(r, kids) =>
      assert kids[0..] == kids;
      KidsSpellLine(t, 0);
      NodeSpells(t);
  }

  lemma {:induction false} KidsSpellLine(t: Tree, i: nat)
    requires WellFormed(t) && t.Node? && 10 <= t.rule && i <= |t.kids|
    ensures NormAll(YieldAll(t.kids[i..])) == SpellKids(t.kids[i..])
    decreases t, 0, |t.kids| - i
  {
    hide Spell, Action, Rhs, Lhs, Spelling, RedirectSpelling, Fits, Sem;
    if i < |t.kids| {
      KidIsLate(t, i);
      KidIsSpellable(t, i);
      TreeSpellsLine(t.kids[i]);
      KidsSpellLine(t, i + 1);
      assert t.kids[i..][0] == t.kids[i] && t.kids[i..][1..] == t.kids[i + 1..];
      NormAppend(Yield(t.kids[i]), YieldAll(t.kids[i + 1..]));
    }
  }

  lemma KidIsSpellable(t: Tree, i: nat)
    requires WellFormed(t) && t.Node? && 10 <= t.rule && i < |t.kids|
    ensures 2 < Symbol(t.kids[i]) && Symbol(t.kids[i]) != 25 && (t.kids[i].Node? ==> 10 <= t.kids[i].rule)
  {}

  /** A line is its tree's spelling, but for a semicolon at the very end, which leaves no trace. */
  predicate SpellsLine(line: seq<Token>, c: Command) {
    line == Spelling(c) || line == Spelling(c) + [Token(SEMICOLON, "")]
  }

  /**
   Meaning of a whole line: the tree is printable, and spelling it gives the line back token for
   token: same order of commands, `&` exactly where the flag is set, every word and redirect kept.
   */
  lemma {:induction false} LineMeansTree(t: Tree)
    requires WellFormed(t) && Symbol(t) == CMD_SEQ
    ensures TreeOf(t).Some? && Buildable(TreeOf(t).command)
    ensures SpellsLine(NormAll(Yield(t)), TreeOf(t).command)
  {
    hide Spelling, Buildable, Stage, Action, Fits, Rhs, Lhs, NormAll, Spell, Sem;
    ListRule(t);
    SemFits(t);
    ListShape(Sem(t));
    SemOfNode(t);
    var a := HeadSpells(t);
    if t.rule == 9 {
      assert t.kids == [t.kids[0]];
      YieldOne(t.kids[0]);
      assert SemAll(t.kids) == [Sem(t.kids[0])];
      OneAction(Sem(t.kids[0]));
      assert NormAll(Yield(t)) == Spelling(a);
    } else {
      var s := SeparatorSpelled(t);
      if t.rule == 8 {
        assert t.kids == [t.kids[0], t.kids[1]];
        assert SemAll(t.kids) == [Cmd(Some(a)), s];
        YieldTwo(t.kids[0], t.kids[1]);
        NormAppend(Yield(t.kids[0]), Yield(t.kids[1]));
        TwoAction(a, s);
        SeparatorSpells(a, s);
      } else {
        KidIsLate(t, 2);
        ListKid(t);
        LineMeansTree(t.kids[2]);
        var next := TreeOf(t.kids[2]).command;
        assert SemAll(t.kids) == [Cmd(Some(a)), s, Cmd(Some(next))];
        YieldThree(t.kids);
        ThreeAction(a, s, next);
        ListSpells(a, s, next);
      }
    }
  }

  lemma ListShape(v: Value)
    requires Fits(CMD_SEQ, v)
    ensures v.Cmd? && v.commands.Some? && Buildable(v.commands.command)
  {}

  lemma OneAction(v: Value)
    ensures Action(9, [v]) == v
  {}

  lemma TwoAction(a: Command, s: Value)
    ensures Action(8, [Cmd(Some(a)), s]) == Cmd(Some(Background(a, s)))
  {}

  lemma ThreeAction(a: Command, s: Value, next: Command)
    ensures Action(7, [Cmd(Some(a)), s, Cmd(Some(next))]) == Cmd(Some(Background(AppendCommand(a, next), s)))
  {}

  lemma YieldThree(kids: seq<Tree>)
    requires |kids| == 3
    ensures NormAll(YieldAll(kids)) == NormAll(Yield(kids[0])) + NormAll(Yield(kids[1])) + NormAll(Yield(kids[2]))
  {
    assert kids == [kids[0], kids[1]] + [kids[2]];
    YieldPush([kids[0], kids[1]], kids[2]);
    YieldTwo(kids[0], kids[1]);
    NormAppend(Yield(kids[0]) + Yield(kids[1]), Yield(kids[2]));
    NormAppend(Yield(kids[0]), Yield(kids[1]));
  }

  lemma HeadSpells(t: Tree) returns (a: Command)
    requires WellFormed(t) && t.Node? && 7 <= t.rule <= 9 && t.kids != []
    ensures Sem(t.kids[0]) == Cmd(Some(a)) && Stage(a)
    ensures NormAll(Yield(t.kids[0])) == Spelling(a)
  {
    hide Spelling, Buildable, Stage, Action, Rhs, Lhs, NormAll, Sem;
    KidIsLate(t, 0);
    CommandKid(t);
    SemFits(t.kids[0]);
    TreeSpellsLine(t.kids[0]);
    a := Sem(t.kids[0]).commands.command;
  }

  lemma SeparatorSpelled(t: Tree) returns (s: Value)
    requires WellFormed(t) && t.Node? && 7 <= t.rule <= 8 && |t.kids| > 1
    ensures Sem(t.kids[1]) == s && Fits(32, s) && NormAll(Yield(t.kids[1])) == Spell(32, s)
  {
    hide Action, Rhs, Lhs, NormAll, Sem, Spell, Fits;
    KidIsLate(t, 1);
    SeparatorKid(t);
    SemFits(t.kids[1]);
    TreeSpellsLine(t.kids[1]);
    s := Sem(t.kids[1]);
  }

  lemma ListRule(t: Tree)
    requires WellFormed(t) && Symbol(t) == CMD_SEQ
    ensures t.Node? && 7 <= t.rule <= 9 && |t.kids| == 10 - t.rule
  {}

  lemma CommandKid(t: Tree)
    requires WellFormed(t) && t.Node? && 7 <= t.rule <= 9 && t.kids != []
    ensures Symbol(t.kids[0]) == 26 && (t.kids[0].Node? ==> t.kids[0].rule == 10)
  {}

  lemma SeparatorKid(t: Tree)
    requires WellFormed(t) && t.Node? && 7 <= t.rule <= 8 && |t.kids| > 1
    ensures Symbol(t.kids[1]) == 32 && (t.kids[1].Node? ==> 10 <= t.kids[1].rule)
  {}

  lemma ListKid(t: Tree)
    requires WellFormed(t) && t.Node? && t.rule == 7 && |t.kids| > 2
    ensures Symbol(t.kids[2]) == CMD_SEQ
  {}

  lemma SeparatorSpells(c: Command, s: Value)
    requires Stage(c) && Fits(32, s)
    ensures SpellsLine(Spelling(c) + Spell(32, s), Background(c, s))
  {
    hide Words, RedirectSpelling;
  }

  lemma ListSpells(c: Command, s: Value, next: Command)
    requires Stage(c) && Fits(32, s)
    ensures Spelling(Background(AppendCommand(c, next), s)) == Spelling(c) + Spell(32, s) + Spelling(next)
  {
    hide Words, RedirectSpelling;
    var d := Background(AppendCommand(c, next), s);
    assert d.next == Some(next);
  }
}
