/** The semantic actions of parser.y on values, and the tree they give a derivation. */
module Actions {
  import opened Syntax
  import opened Derivations

  /** A semantic value (the YYSTYPE union). `Stale` is whatever `yylval` held before. */
  datatype Value =
    | Stale
    | Text(text: string)
    | Number(kind: Kind)
    | Args(args: seq<string>)
    | Redirs(redirects: Redirects)
    | Cmd(commands: Commands)

  /** The scanner sets `yylval` for these tokens only. */
  predicate HasText(k: Kind) { k.WORD? || k.COMMAND? || k.FILENAME? || k.STRING? }

  /** The part of a command name behind its last slash (strrchr). */
  function ShortName(name: string): string {
    if name == [] then name
    else if name[|name| - 1] == '/' then []
    else ShortName(name[..|name| - 1]) + [name[|name| - 1]]
  }

  /** `short` is what stands behind the last slash of `name`, or all of it where there is no slash. */
  predicate BehindLastSlash(short: string, name: string) {
    && '/' !in short && |short| <= |name| && name[|name| - |short|..] == short
    && (|short| == |name| || name[|name| - |short| - 1] == '/')
  }

  lemma {:induction false} ShortNameIs(name: string)
    ensures BehindLastSlash(ShortName(name), name)
  {
    hide BehindLastSlash;
    BehindNothing(name);
    if name != [] && name[|name| - 1] != '/' {
      var front, c := name[..|name| - 1], name[|name| - 1];
      ShortNameIs(front);
      BehindMore(ShortName(front), front, c);
      assert front + [c] == name;
    }
  }

  lemma BehindNothing(name: string)
    ensures name == [] || name[|name| - 1] == '/' ==> BehindLastSlash([], name)
  {
  }

  lemma BehindMore(short: string, name: string, c: char)
    requires BehindLastSlash(short, name) && c != '/'
    ensures BehindLastSlash(short + [c], name + [c])
  {
    var a, b := |name| - |short|, name + [c];
    assert |b| - |short + [c]| == a;
    assert b[a..] == name[a..] + [c];
    assert a > 0 ==> b[a - 1] == name[a - 1];
  }

  /** In slot 0 of every command of the list, and behind every pipe, is the short name. */
  predicate SlotsNamed(c: Command) {
    && c.args != [] && BehindLastSlash(c.args[0], c.zCmd) && SlotsNamedBehind(c.redirects)
    && (c.next.Some? ==> SlotsNamed(c.next.command))
  }

  predicate SlotsNamedBehind(r: Redirects) {
    match r
    case NoRedirect => true
    case File(_, _, next) => SlotsNamedBehind(next)
    case Pipe(_, c, next) => SlotsNamed(c) && SlotsNamedBehind(next)
  }

  function AppendCommand(c: Command, last: Command): Command {
    match c.next
    case NoCommand => c.(next := Some(last))
    case Some(n) => c.(next := Some(AppendCommand(n, last)))
  }

  function AppendRedirect(r: Redirects, last: Redirects): Redirects {
    match r
    case NoRedirect => last
    case File(k, name, next) => File(k, name, AppendRedirect(next, last))
    case Pipe(k, c, next) => Pipe(k, c, AppendRedirect(next, last))
  }

  function Background(c: Command, separator: Value): Command {
    if separator == Number(BACKGROUND) then c.(background := true) else c
  }

  /** The action of `rule` on the values of its right-hand side. */
  function Action(rule: int, v: seq<Value>): Value {
    match rule
    case 7 =>
      if |v| == 3 && v[0].Cmd? && v[0].commands.Some? && v[2].Cmd? && v[2].commands.Some?
      then Cmd(Some(Background(AppendCommand(v[0].commands.command, v[2].commands.command), v[1]))) else Stale
    case 8 =>
      if |v| == 2 && v[0].Cmd? && v[0].commands.Some?
      then Cmd(Some(Background(v[0].commands.command, v[1]))) else Stale
    case 10 =>
      if |v| == 3 && v[0].Text? && v[1].Args? && |v[1].args| > 0 && v[2].Redirs?
      then Cmd(Some(Command(v[0].text, v[1].args[0 := ShortName(v[0].text)], false, v[2].redirects, NoCommand)))
      else Stale
    case 13 => Joined(v)
    case 14 => Redirs(NoRedirect)
    case 17 => Joined(v)
    case 18 => Joined(v)
    case 19 => Opened(REDIRECT_IN, v)
    case 20 => Opened(REDIRECT_OUT, v)
    case 21 => Opened(REDIRECT_ERROR, v)
    case 22 => Opened(APPEND, v)
    case 23 => Opened(APPEND_ERROR, v)
    case 24 =>
      if |v| == 2 && v[0].Number? && v[1].Cmd? && v[1].commands.Some?
      then Redirs(Pipe(v[0].kind, v[1].commands.command, NoRedirect)) else Stale
    case 25 => Number(BACKGROUND)
    case 26 => Number(SEMICOLON)
    case 27 => Number(PIPE)
    case 28 => Number(PIPE_ERROR)
    case 29 =>
      if |v| == 2 && v[0].Args? && v[1].Text? then Args(v[0].args + [v[1].text]) else Stale
    case 30 => Args([""])
    case _ => if v == [] then Stale else v[0]
  }

  function Joined(v: seq<Value>): Value {
    if |v| == 2 && v[0].Redirs? && v[1].Redirs?
    then Redirs(AppendRedirect(v[0].redirects, v[1].redirects)) else Stale
  }

  function Opened(k: Kind, v: seq<Value>): Value {
    if |v| == 2 && v[1].Text? then Redirs(File(k, v[1].text, NoRedirect)) else Stale
  }

  /** What a derivation denotes: the actions applied bottom up. */
  function Sem(t: Tree): Value
    decreases t, 0
  {
    match t
    case Leaf(token) => if HasText(token.kind) then Text(token.text) else Stale
    case ErrorLeaf => Stale
    case Node(rule, kids) => Action(rule, SemAll(kids))
  }

  function SemAll(ts: seq<Tree>): (v: seq<Value>)
    ensures |v| == |ts|
    ensures forall i | 0 <= i < |ts| :: v[i] == Sem(ts[i])
    decreases ts, 1
  {
    if ts == [] then [] else [Sem(ts[0])] + SemAll(ts[1..])
  }

  /** The tree of a line, when it has one. */
  function TreeOf(t: Tree): Commands {
    if Sem(t).Cmd? then Sem(t).commands else NoCommand
  }
}
