/** Every printable tree has a derivation: the converse of `Meaning.LineMeansTree`. */
module Building {
  import opened Syntax
  import opened LalrTables
  import opened Derivations
  import opened Actions
  import opened Meaning

  /** `t` derives `line` from `symbol` and means `v`. */
  ghost predicate Denotes(t: Tree, symbol: int, line: seq<Token>, v: Value) {
    DerivationOf(t, symbol, line) && Sem(t) == v
  }

  lemma Compose0(r: int)
    requires IsRule(r) && Rhs(r) == []
    ensures Denotes(Node(r, []), Lhs(r), [], Action(r, []))
  {
    hide Action, Lhs;
    SemOfNode(Node(r, []));
    assert SemAll([]) == [];
  }

  lemma Compose1(r: int, x: int, a: Tree, la: seq<Token>, va: Value)
    requires IsRule(r) && Rhs(r) == [x] && Denotes(a, x, la, va)
    ensures Denotes(Node(r, [a]), Lhs(r), la, Action(r, [va]))
  {
    hide Action, Lhs, Rhs, Sem;
    SemOfNode(Node(r, [a]));
    assert SemAll([a]) == [va];
    YieldOne(a);
  }

  lemma Compose2(r: int, x: int, a: Tree, la: seq<Token>, va: Value, y: int, b: Tree, lb: seq<Token>, vb: Value)
    requires IsRule(r) && Rhs(r) == [x, y] && Denotes(a, x, la, va) && Denotes(b, y, lb, vb)
    ensures Denotes(Node(r, [a, b]), Lhs(r), la + lb, Action(r, [va, vb]))
  {
    hide Action, Lhs, Rhs, Sem;
    SemOfNode(Node(r, [a, b]));
    assert SemAll([a, b]) == [va, vb];
    YieldTwo(a, b);
  }

  lemma Compose3(r: int, x: int, a: Tree, la: seq<Token>, va: Value, y: int, b: Tree, lb: seq<Token>, vb: Value,
                 z: int, c: Tree, lc: seq<Token>, vc: Value)
    requires IsRule(r) && Rhs(r) == [x, y, z]
    requires Denotes(a, x, la, va) && Denotes(b, y, lb, vb) && Denotes(c, z, lc, vc)
    ensures Denotes(Node(r, [a, b, c]), Lhs(r), la + lb + lc, Action(r, [va, vb, vc]))
  {
    hide Action, Lhs, Rhs, Sem;
    SemOfNode(Node(r, [a, b, c]));
    assert SemAll([a, b, c]) == [va, vb, vc];
    YieldTwo(a, b);
    YieldPush([a, b], c);
    assert [a, b] + [c] == [a, b, c];
  }

  lemma LeafDenotes(k: Kind, text: string)
    ensures Denotes(Leaf(Token(k, text)), Code(k), [Token(k, text)], if HasText(k) then Text(text) else Stale)
  {}

  function LeafTree(k: Kind, text: string): Tree { Leaf(Token(k, text)) }

  function ParametersTree(words: seq<string>): Tree {
    if words == [] then Node(30, [])
    else Node(29, [ParametersTree(words[..|words| - 1]), Node(31, [LeafTree(WORD, words[|words| - 1])])])
  }

  lemma {:induction false} ParametersDenote(words: seq<string>)
    ensures Denotes(ParametersTree(words), 34, Words(words), Args([""] + words))
  {
    hide Denotes;
    if words == [] {
      Compose0(30);
      assert [""] + words == [""];
    } else {
      var n := |words| - 1;
      ParametersDenote(words[..n]);
      LeafDenotes(WORD, words[n]);
      Compose1(31, 3, LeafTree(WORD, words[n]), [Token(WORD, words[n])], Text(words[n]));
      Compose2(29, 34, ParametersTree(words[..n]), Words(words[..n]), Args([""] + words[..n]),
               35, Node(31, [LeafTree(WORD, words[n])]), [Token(WORD, words[n])], Text(words[n]));
      assert words == words[..n] + [words[n]];
      WordsAppend(words[..n], words[n]);
      assert [""] + words == [""] + words[..n] + [words[n]];
    }
  }

  function OutRule(k: Kind): int {
    if k.REDIRECT_OUT? then 20 else if k.REDIRECT_ERROR? then 21 else if k.APPEND? then 22 else 23
  }

  /** One file redirect. */
  function FileTree(k: Kind, name: string): Tree {
    Node(if k.REDIRECT_IN? then 19 else OutRule(k), [LeafTree(k, ""), LeafTree(FILENAME, name)])
  }

  lemma FileDenotes(k: Kind, name: string)
    requires k.REDIRECT_IN? || IsOut(k)
    ensures Denotes(FileTree(k, name), if k.REDIRECT_IN? then 29 else 30,
                    [Token(k, ""), Token(FILENAME, name)], Redirs(File(k, name, NoRedirect)))
  {
    hide Denotes;
    LeafDenotes(k, "");
    LeafDenotes(FILENAME, name);
    Compose2(if k.REDIRECT_IN? then 19 else OutRule(k), Code(k), LeafTree(k, ""), [Token(k, "")], Stale,
             5, LeafTree(FILENAME, name), [Token(FILENAME, name)], Text(name));
    assert [Token(k, "")] + [Token(FILENAME, name)] == [Token(k, ""), Token(FILENAME, name)];
  }

  /** One or two file redirects. */
  function FilesTree(f: Redirects): Tree
    requires Files(f)
  {
    if OneIn(f) then Node(15, [FileTree(f.kind, f.name)])
    else if OneOut(f) then Node(16, [FileTree(f.kind, f.name)])
    else Node(if f.kind.REDIRECT_IN? then 17 else 18, [FileTree(f.kind, f.name), FileTree(f.next.kind, f.next.name)])
  }

  lemma FilesDenote(f: Redirects)
    requires Files(f)
    ensures Denotes(FilesTree(f), 28, RedirectSpelling(f), Redirs(f))
  {
    hide Denotes, FileTree, Spelling;
    FileDenotes(f.kind, f.name);
    var l, v := [Token(f.kind, ""), Token(FILENAME, f.name)], Redirs(File(f.kind, f.name, NoRedirect));
    assert RedirectSpelling(f) == l + RedirectSpelling(f.next);
    if f.next.NoRedirect? {
      Compose1(if f.kind.REDIRECT_IN? then 15 else 16,
               if f.kind.REDIRECT_IN? then 29 else 30, FileTree(f.kind, f.name), l, v);
      assert l + [] == l;
    } else {
      var g := f.next;
      FileDenotes(g.kind, g.name);
      var m, w := [Token(g.kind, ""), Token(FILENAME, g.name)], Redirs(File(g.kind, g.name, NoRedirect));
      assert RedirectSpelling(g) == m + RedirectSpelling(g.next) && m + [] == m;
      Compose2(if f.kind.REDIRECT_IN? then 17 else 18,
               if f.kind.REDIRECT_IN? then 29 else 30, FileTree(f.kind, f.name), l, v,
               if f.kind.REDIRECT_IN? then 30 else 29, FileTree(g.kind, g.name), m, w);
      AppendToOne(v.redirects, w.redirects);
    }
  }

  /** The file redirects in front of the pipe, and the pipe. */
  function FilePart(r: Redirects): Redirects {
    if r.File? then File(r.kind, r.name, FilePart(r.next)) else NoRedirect
  }

  function PipePart(r: Redirects): Redirects {
    if r.File? then PipePart(r.next) else r
  }

  lemma {:induction false} PartsJoin(r: Redirects)
    ensures AppendRedirect(FilePart(r), PipePart(r)) == r
    ensures !PipePart(r).File? && (PipePart(r) == r || PipePart(r) < r)
  {
    if r.File? { PartsJoin(r.next); }
  }

  lemma PartsFit(r: Redirects)
    requires RedirectList(r)
    ensures FilePart(r).NoRedirect? || Files(FilePart(r))
    ensures PipePart(r).NoRedirect? || OnePipe(PipePart(r))
  {
    hide Stage;
    if !r.File? {
      assert FilePart(r) == NoRedirect && PipePart(r) == r;
    } else if !r.next.File? {
      assert FilePart(r.next) == NoRedirect && PipePart(r.next) == r.next;
    } else {
      var n := r.next;
      assert !n.next.File?;
      assert FilePart(n.next) == NoRedirect && PipePart(n.next) == n.next;
      assert FilePart(n) == File(n.kind, n.name, NoRedirect) && PipePart(n) == n.next;
    }
  }

  function PipeTree(p: Redirects): Tree
    requires OnePipe(p)
    decreases p, 0
  {
    assert Stage(p.command) && Simple(p.command);
    Node(24, [Node(if p.kind.PIPE? then 27 else 28, [LeafTree(p.kind, "")]), CommandTree(p.command)])
  }

  function RedirectTree(r: Redirects): Tree
    requires RedirectList(r)
    decreases r, 1
  {
    PartsFit(r);
    PartsJoin(r);
    var f, p := FilePart(r), PipePart(r);
    if f.NoRedirect? && p.NoRedirect? then Node(14, [])
    else if p.NoRedirect? then Node(11, [FilesTree(f)])
    else if f.NoRedirect? then Node(12, [PipeTree(p)])
    else Node(13, [FilesTree(f), PipeTree(p)])
  }

  function CommandTree(c: Command): Tree
    requires Simple(c)
    decreases c, 0
  {
    Node(10, [LeafTree(COMMAND, c.zCmd), ParametersTree(c.args[1..]), RedirectTree(c.redirects)])
  }

  function SeparatorTree(background: bool): Tree {
    if background then Node(25, [LeafTree(BACKGROUND, "")]) else Node(26, [LeafTree(SEMICOLON, "")])
  }

  /** A derivation of a command list's spelling. */
  function ListTree(c: Command): Tree
    requires Buildable(c)
  {
    if c.next.Some? then Node(7, [CommandTree(c), SeparatorTree(c.background), ListTree(c.next.command)])
    else if c.background then Node(8, [CommandTree(c), SeparatorTree(true)])
    else Node(9, [CommandTree(c)])
  }

  /** A command on its own: no separator, nothing after it. */
  function Alone(c: Command): Command { c.(background := false, next := NoCommand) }

  lemma {:induction false} PipeDenotes(p: Redirects)
    requires OnePipe(p)
    ensures Denotes(PipeTree(p), 31, RedirectSpelling(p), Redirs(p))
    decreases p, 0
  {
    hide Denotes, CommandTree, Spelling;
    var k, r := p.kind, if p.kind.PIPE? then 27 else 28;
    LeafDenotes(k, "");
    Compose1(r, Code(k), LeafTree(k, ""), [Token(k, "")], Stale);
    assert Stage(p.command) && Alone(p.command) == p.command;
    CommandDenotes(p.command);
    Compose2(24, 33, Node(r, [LeafTree(k, "")]), [Token(k, "")], Number(k),
             26, CommandTree(p.command), Spelling(p.command), Cmd(Some(p.command)));
    assert RedirectSpelling(p.next) == [];
    assert RedirectSpelling(p) == [Token(k, "")] + Spelling(p.command);
  }

  lemma {:induction false} RedirectsDenote(r: Redirects)
    requires RedirectList(r)
    ensures Denotes(RedirectTree(r), 27, RedirectSpelling(r), Redirs(r))
    decreases r, 1
  {
    hide Denotes, PipeTree, FilesTree, Files, OnePipe, RedirectList;
    PartsFit(r);
    PartsJoin(r);
    var f, p := FilePart(r), PipePart(r);
    AppendRedirectSpells(f, p);
    if f.File? { FilesDenote(f); }
    if p.Pipe? { PipeDenotes(p); }
    if f.NoRedirect? && p.NoRedirect? { Compose0(14); }
    else if p.NoRedirect? { NoPipe(r); Compose1(11, 28, FilesTree(f), RedirectSpelling(f), Redirs(f)); }
    else if f.NoRedirect? { Compose1(12, 31, PipeTree(p), RedirectSpelling(p), Redirs(p)); }
    else {
      Compose2(13, 28, FilesTree(f), RedirectSpelling(f), Redirs(f), 31, PipeTree(p), RedirectSpelling(p), Redirs(p));
    }
  }

  lemma {:induction false} NoPipe(r: Redirects)
    requires PipePart(r).NoRedirect?
    ensures FilePart(r) == r
  {
    if r.File? { NoPipe(r.next); }
  }

  lemma {:induction false} CommandDenotes(c: Command)
    requires Simple(c)
    ensures Denotes(CommandTree(c), 26, Spelling(Alone(c)), Cmd(Some(Alone(c))))
    decreases c, 0
  {
    hide Denotes, RedirectTree, ParametersTree, RedirectList, Words, RedirectSpelling, ShortName;
    assert RedirectList(c.redirects);
    LeafDenotes(COMMAND, c.zCmd);
    ParametersDenote(c.args[1..]);
    RedirectsDenote(c.redirects);
    Compose3(10, 4, LeafTree(COMMAND, c.zCmd), [Token(COMMAND, c.zCmd)], Text(c.zCmd),
             34, ParametersTree(c.args[1..]), Words(c.args[1..]), Args([""] + c.args[1..]),
             27, RedirectTree(c.redirects), RedirectSpelling(c.redirects), Redirs(c.redirects));
    assert ([""] + c.args[1..])[0 := ShortName(c.zCmd)] == c.args;
    assert Spelling(Alone(c)) == [Token(COMMAND, c.zCmd)] + Words(c.args[1..]) + RedirectSpelling(c.redirects);
  }

  /** Every printable tree is what its own spelling derives to. */
  lemma {:induction false} ListDenotes(c: Command)
    requires Buildable(c)
    ensures Denotes(ListTree(c), CMD_SEQ, Spelling(c), Cmd(Some(c)))
  {
    hide Denotes, CommandTree, Simple, Words, RedirectSpelling;
    CommandDenotes(c);
    var a, k := Alone(c), if c.background then BACKGROUND else SEMICOLON;
    LeafDenotes(k, "");
    Compose1(if c.background then 25 else 26, Code(k), LeafTree(k, ""), [Token(k, "")], Stale);
    if c.next.Some? {
      var d := c.next.command;
      ListDenotes(d);
      Compose3(7, 26, CommandTree(c), Spelling(a), Cmd(Some(a)),
               32, SeparatorTree(c.background), [Token(k, "")], Number(k), 25, ListTree(d), Spelling(d), Cmd(Some(d)));
      assert Spelling(c) == Spelling(a) + [Token(k, "")] + Spelling(d);
    } else if c.background {
      Compose2(8, 26, CommandTree(c), Spelling(a), Cmd(Some(a)), 32, SeparatorTree(true), [Token(k, "")], Number(k));
      assert Spelling(c) == Spelling(a) + [Token(k, "")];
    } else {
      Compose1(9, 26, CommandTree(c), Spelling(a), Cmd(Some(a)));
    }
  }
}
