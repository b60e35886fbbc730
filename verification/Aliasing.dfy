/** `func_aliasing` on a parsed command list: each command's name is replaced where it lies, and nothing is lost. */
module Aliasing {
  import opened Syntax
  import opened TreeShapes
  import opened TreeHeap
  import opened TreeActions
  import D = Derivations

  /** One entry of the alias table. */
  datatype Alias = Alias(from: string, to: string)

  /** The first entry for the name decides. */
  function Expanded(name: string, table: seq<Alias>): string {
    if table == [] then name
    else if table[0].from == name then table[0].to
    else Expanded(name, table[1..])
  }

  /** The first entry for the name is entry `i`. */
  predicate FirstFor(name: string, table: seq<Alias>, i: int) {
    0 <= i < |table| && table[i].from == name && forall k | 0 <= k < i :: table[k].from != name
  }

  /** A name with an entry becomes what its first entry says, whatever further entries say; any other name stays. */
  lemma {:induction false} FirstEntryDecides(name: string, table: seq<Alias>)
    ensures forall i | FirstFor(name, table, i) :: Expanded(name, table) == table[i].to
    ensures (forall a | a in table :: a.from != name) ==> Expanded(name, table) == name
  {
    if table != [] && table[0].from != name {
      FirstEntryDecides(name, table[1..]);
      forall i | FirstFor(name, table, i) ensures Expanded(name, table) == table[i].to {
        assert FirstFor(name, table[1..], i - 1);
      }
    }
  }

  /** The list with its first `n` names expanded; arguments, pipes and what they hold stay. */
  function ExpandedTo(cs: Commands, n: nat, table: seq<Alias>): Commands {
    if n == 0 then cs
    else match cs
      case NoCommand => NoCommand
      case Some(c) => Some(c.(zCmd := Expanded(c.zCmd, table), next := ExpandedTo(c.next, n - 1, table)))
  }

  /** The list from its `k`-th command on. */
  function From(cs: Commands, k: nat): Commands {
    if k == 0 || cs.NoCommand? then cs else From(cs.command.next, k - 1)
  }

  /** The command as it was but for its name, and what follows; the name is what the first entry for it says, if any. */
  ghost predicate Renames(now: Command, c: Command, table: seq<Alias>) {
    && now == c.(zCmd := now.zCmd, next := now.next)
    && (forall i | FirstFor(c.zCmd, table, i) :: now.zCmd == table[i].to)
    && ((forall a | a in table :: a.from != c.zCmd) ==> now.zCmd == c.zCmd)
  }

  /** Of the commands of a list the first `n` are renamed, and the list goes on as it did behind them. */
  ghost predicate AllRenamed(now: Commands, was: Commands, n: nat, table: seq<Alias>) {
    && From(now, n) == From(was, n)
    && forall k: nat ::
        && (From(now, k).Some? <==> From(was, k).Some?)
        && (k < n && From(was, k).Some? ==> Renames(From(now, k).command, From(was, k).command, table))
  }

  lemma {:induction false} ExpandedAre(cs: Commands, n: nat, table: seq<Alias>, k: nat)
    ensures var now, was := From(ExpandedTo(cs, n, table), k), From(cs, k);
      && (now.Some? <==> was.Some?)
      && (k < n && was.Some? ==>
            Renames(now.command, was.command, table))
      && (k >= n ==> now == was)
    decreases k
  {
    hide Expanded, FirstFor;
    if cs.Some? && n > 0 {
      FirstEntryDecides(cs.command.zCmd, table);
      if k > 0 {
        ExpandedAre(cs.command.next, n - 1, table, k - 1);
      }
    }
  }

  lemma ExpandedAll(cs: Commands, n: nat, table: seq<Alias>)
    ensures AllRenamed(ExpandedTo(cs, n, table), cs, n, table)
  {
    hide Renames, ExpandedTo, From;
    ExpandedAre(cs, n, table, n);
    forall k: nat {
      ExpandedAre(cs, n, table, k);
    }
  }

  function Length(s: CShape): nat { if s.NoC? then 0 else 1 + Length(s.next) }

  function Suffix(s: CShape, n: nat): CShape
    requires n <= Length(s)
  {
    if n == 0 then s else Suffix(s.next, n - 1)
  }

  /** The list with another string for the name of its `n`-th command. */
  function Renamed(s: CShape, n: nat, at: nat, name: string): CShape
    requires n < Length(s)
  {
    if n == 0 then s.(nameAt := at, name := name) else s.(next := Renamed(s.next, n - 1, at, name))
  }

  /** The memory with that string, the old one freed. */
  function Swapped(mem: Memory, t: CShape, at: nat, name: string): Memory
    requires t.C? && t.node in mem && mem[t.node].CommandBlock?
  {
    var freed := (mem - {t.nameAt})[at := Chars(name)];
    freed[t.node := mem[t.node].(zCmd := at)]
  }

  lemma {:induction false} SuffixHeld(mem: Memory, s: CShape, n: nat)
    requires CAt(mem, s) && CApart(s) && n < Length(s)
    ensures var t := Suffix(s, n);
      && t.C? && t.node in mem && mem[t.node].CommandBlock? && t.node in CFoot(s) && t.nameAt in CFoot(s)
      && t.node != t.nameAt
      && CAt(mem, t) && (n + 1 <= Length(s) && Suffix(s, n + 1) == t.next)
      && TextAt(mem, t.nameAt, t.name) && mem[t.node].zCmd == t.nameAt
    decreases n
  {
    hide AFoot, AAt, AApart, RAt, RApart, RFoot;
    if n > 0 {
      SuffixHeld(mem, s.next, n - 1);
    }
  }

  lemma {:induction false} RenamedHeld(mem: Memory, s: CShape, n: nat, at: nat, name: string)
    requires CAt(mem, s) && CApart(s) && n < Length(s) && at != NULL && NULL !in mem
    requires Suffix(s, n).C? && Suffix(s, n).node in mem && mem[Suffix(s, n).node].CommandBlock?
    requires at !in mem.Keys - {Suffix(s, n).nameAt}
    ensures CAt(Swapped(mem, Suffix(s, n), at, name), Renamed(s, n, at, name))
    ensures CAddr(Renamed(s, n, at, name)) == CAddr(s)
    decreases n
  {
    hide AFoot, AAt, AApart, RAt, RApart, RFoot, CFoot, CApart;
    var t := Suffix(s, n);
    var now := Swapped(mem, t, at, name);
    SuffixHeld(mem, s, n);
    CParts(s);
    AFrame(mem, mem, s.pa);
    RFrame(mem, mem, s.redirs);
    CFrame(mem, mem, s.next);
    if n > 0 {
      SuffixHeld(mem, s.next, n - 1);
      RenamedHeld(mem, s.next, n - 1, at, name);
      SwappedSame(mem, t, at, name, {s.node, s.nameAt});
    } else {
      SwappedSame(mem, t, at, name, CFoot(s.next));
      CFrame(mem, now, s.next);
    }
    SwappedSame(mem, t, at, name, AFoot(s.pa));
    AFrame(mem, now, s.pa);
    SwappedSame(mem, t, at, name, RFoot(s.redirs));
    RFrame(mem, now, s.redirs);
  }

  /** Blocks other than the command and its name stay. */
  lemma SwappedSame(mem: Memory, t: CShape, at: nat, name: string, foot: set<nat>)
    requires t.C? && t.node in mem && mem[t.node].CommandBlock? && at !in mem.Keys - {t.nameAt}
    requires t.node !in foot && t.nameAt !in foot
    ensures SameOn(mem, Swapped(mem, t, at, name), foot)
  {
  }

  lemma {:induction false} RenamedFoot(s: CShape, n: nat, at: nat, name: string)
    requires CApart(s) && n < Length(s) && Suffix(s, n).C? && Suffix(s, n).nameAt in CFoot(s)
    requires at !in CFoot(s) - {Suffix(s, n).nameAt}
    ensures CFoot(Renamed(s, n, at, name)) == CFoot(s) - {Suffix(s, n).nameAt} + {at} && CApart(Renamed(s, n, at, name))
    ensures Renamed(s, n, at, name).C? && Length(Renamed(s, n, at, name)) == Length(s)
    decreases n
  {
    hide AFoot, AApart, RApart, RFoot;
    CParts(s);
    if n > 0 {
      NameIn(s.next, n - 1);
      RenamedFoot(s.next, n - 1, at, name);
    }
  }

  lemma {:induction false} NameIn(s: CShape, n: nat)
    requires n < Length(s)
    ensures Suffix(s, n).C? && Suffix(s, n).nameAt in CFoot(s)
    decreases n
  {
    hide AFoot, RFoot;
    if n > 0 {
      NameIn(s.next, n - 1);
    }
  }

  /** The list with the name of its `n`-th command expanded. */
  function ExpandedAt(cs: Commands, n: nat, table: seq<Alias>): Commands {
    match cs
    case NoCommand => NoCommand
    case Some(c) =>
      if n == 0 then Some(c.(zCmd := Expanded(c.zCmd, table))) else Some(c.(next := ExpandedAt(c.next, n - 1, table)))
  }

  lemma {:induction false} OneMoreExpanded(cs: Commands, n: nat, table: seq<Alias>)
    ensures ExpandedAt(ExpandedTo(cs, n, table), n, table) == ExpandedTo(cs, n + 1, table)
    decreases n
  {
    hide Expanded;
    if n > 0 && cs.Some? {
      OneMoreExpanded(cs.command.next, n - 1, table);
    }
  }

  lemma {:induction false} NoMoreExpanded(s: CShape, n: nat, table: seq<Alias>)
    requires Length(s) <= n
    ensures ExpandedTo(CTree(s), n, table) == ExpandedTo(CTree(s), Length(s), table)
    decreases n
  {
    hide Expanded, RTree;
    if s.C? {
      NoMoreExpanded(s.next, n - 1, table);
    }
  }

  lemma {:induction false} RenamedTree(s: CShape, n: nat, at: nat, table: seq<Alias>)
    requires n < Length(s) && Suffix(s, n).C?
    ensures CTree(Renamed(s, n, at, Expanded(Suffix(s, n).name, table))) == ExpandedAt(CTree(s), n, table)
    decreases n
  {
    hide RTree, Expanded;
    if n > 0 {
      RenamedTree(s.next, n - 1, at, table);
    }
  }

  lemma {:induction false} KeptTree(s: CShape, n: nat, table: seq<Alias>)
    requires n < Length(s) && Suffix(s, n).C? && Expanded(Suffix(s, n).name, table) == Suffix(s, n).name
    ensures ExpandedAt(CTree(s), n, table) == CTree(s)
    decreases n
  {
    hide RTree, Expanded;
    if n > 0 {
      KeptTree(s.next, n - 1, table);
    }
  }

  /** `func_aliasing` on the `n`-th command of a list. */
  method FuncAliasing(heap: Heap, pc: nat, table: seq<Alias>, ghost s: CShape, ghost n: nat) returns (ghost s': CShape)
    requires heap.Valid() && CAt(heap.mem, s) && CApart(s) && n < Length(s) && pc == CAddr(Suffix(s, n))
    modifies heap
    ensures heap.Valid() && CAt(heap.mem, s') && CApart(s') && Length(s') == Length(s) && CAddr(s') == CAddr(s)
    ensures CAddr(Suffix(s', n)) == pc
    ensures CTree(s') == ExpandedAt(CTree(s), n, table)
    ensures Turned(old(heap.mem), heap.mem, CFoot(s), CFoot(s'))
  {
    hide CAt, CApart, CFoot, CTree, Renamed, Suffix;
    SuffixHeld(heap.mem, s, n);
    CFrame(heap.mem, heap.mem, s);
    ghost var t, m0 := Suffix(s, n), heap.mem;
    var i := 0;
    while i < |table| && table[i].from != heap.mem[heap.mem[pc].zCmd].text
      invariant 0 <= i <= |table| && Expanded(t.name, table) == Expanded(t.name, table[i..])
    {
      assert table[i..][1..] == table[i + 1..];
      i := i + 1;
    }
    s' := s;
    if i < |table| {
      var name := table[i].to;
      heap.Free(heap.mem[pc].zCmd);
      var at := heap.Malloc(Chars(name));
      heap.mem := heap.mem[pc := heap.mem[pc].(zCmd := at)];
      s' := Renamed(s, n, at, name);
      RenamedHeld(m0, s, n, at, name);
      RenamedFoot(s, n, at, name);
      RenamedTree(s, n, at, table);
      RenamedSuffix(s, n, at, name);
    } else {
      KeptTree(s, n, table);
    }
  }

  /**
   The walk of `processCommands` along the list: each command's name is expanded before the command is executed, and
   the walk breaks off behind the first command that quits, the `quits`-th (none if the list is shorter).
   */
  method AliasAll(heap: Heap, pc: nat, table: seq<Alias>, quits: nat, ghost s: CShape) returns (ghost s': CShape)
    requires heap.Valid() && CAt(heap.mem, s) && CApart(s) && pc == CAddr(s)
    modifies heap
    ensures heap.Valid() && CAt(heap.mem, s') && CApart(s') && CAddr(s') == pc
    ensures CTree(s') == ExpandedTo(CTree(s), quits + 1, table)
    ensures AllRenamed(CTree(s'), CTree(s), quits + 1, table)
    ensures Turned(old(heap.mem), heap.mem, CFoot(s), CFoot(s'))
  {
    hide CAt, CApart, CFoot, CTree, Turned, ExpandedAt, AllRenamed;
    ExpandedAll(CTree(s), quits + 1, table);
    ghost var m0 := heap.mem;
    CFrame(m0, m0, s);
    SameIsTurned(m0, CFoot(s));
    s' := s;
    var cur, n := pc, 0;
    NoneExpanded(CTree(s), table);
    hide ExpandedTo;
    while cur != NULL
      invariant heap.Valid() && CAt(heap.mem, s') && CApart(s') && CAddr(s') == pc
      invariant n <= Length(s') == Length(s) && cur == CAddr(Suffix(s', n)) && n <= quits
      invariant CTree(s') == ExpandedTo(CTree(s), n, table)
      invariant Turned(m0, heap.mem, CFoot(s), CFoot(s'))
      decreases Length(s') - n
    {
      AtEnd(heap.mem, s', n);
      ghost var m1, was := heap.mem, s';
      s' := FuncAliasing(heap, cur, table, s', n);
      OneMoreExpanded(CTree(s), n, table);
      TurnedTwice(m0, m1, heap.mem, CFoot(s), CFoot(was), CFoot(s'));
      if n == quits {
        return;
      }
      SuffixLinked(heap.mem, s', n);
      cur := heap.mem[cur].pcNext;
      n := n + 1;
    }
    AtEnd(heap.mem, s', n);
    NoMoreExpanded(s, quits + 1, table);
  }

  lemma NoneExpanded(cs: Commands, table: seq<Alias>)
    ensures ExpandedTo(cs, 0, table) == cs
  {
  }

  lemma SameIsTurned(mem: Memory, foot: set<nat>)
    requires foot <= mem.Keys
    ensures Turned(mem, mem, foot, foot)
  {
  }

  lemma {:induction false} RenamedSuffix(s: CShape, n: nat, at: nat, name: string)
    requires n < Length(s)
    ensures n < Length(Renamed(s, n, at, name)) && Suffix(Renamed(s, n, at, name), n).C? && Suffix(s, n).C?
    ensures Suffix(Renamed(s, n, at, name), n).node == Suffix(s, n).node
    decreases n
  {
    if n > 0 {
      RenamedSuffix(s.next, n - 1, at, name);
    }
  }

  /** The pointer in the `n`-th command leads to the next. */
  lemma SuffixLinked(mem: Memory, s: CShape, n: nat)
    requires CAt(mem, s) && CApart(s) && n < Length(s)
    ensures CAddr(Suffix(s, n)) in mem && mem[CAddr(Suffix(s, n))].CommandBlock?
    ensures mem[CAddr(Suffix(s, n))].pcNext == CAddr(Suffix(s, n + 1))
  {
    hide CFoot, CApart;
    SuffixHeld(mem, s, n);
  }

  lemma AtEnd(mem: Memory, s: CShape, n: nat)
    requires CAt(mem, s) && CApart(s) && n <= Length(s)
    ensures CAddr(Suffix(s, n)) == NULL <==> n == Length(s)
  {
    hide CFoot, CApart;
    if n < Length(s) {
      SuffixHeld(mem, s, n);
    } else {
      EndIsEmpty(s);
    }
  }

  lemma {:induction false} EndIsEmpty(s: CShape)
    ensures Suffix(s, Length(s)) == NoC
  {
    if s.C? {
      EndIsEmpty(s.next);
    }
  }

  /**
   The life of a line: parsed, aliased, destroyed. In between, the tree `s` in the memory `built` is unshared and is the
   one the derivation denotes, with the names of the executed commands expanded; it owns exactly what was allocated. In
   the end every block it took has been freed once, also after a command that quits: the heap is what it was.
   */
  method LineLife(heap: Heap, t: D.Tree, table: seq<Alias>, quits: nat, junk: nat)
    returns (ghost built: Memory, ghost s: CShape)
    requires heap.Valid() && D.WellFormed(t) && D.Symbol(t) == 25
    modifies heap
    ensures A.Sem(t).Cmd? && CAt(built, s) && CApart(s) && CTree(s) == ExpandedTo(A.Sem(t).commands, quits + 1, table)
    ensures Turned(old(heap.mem), built, {}, CFoot(s))
    ensures heap.mem == built - CFoot(s) == old(heap.mem)
  {
    hide CAt, CApart, CFoot, CTree, Turned, D.WellFormed;
    BelowNodes(t);
    Meaning.SemFits(t);
    var p;
    ghost var o;
    p, o := Build(heap, t, junk);
    SequenceOwns(t, o);
    ghost var m1 := heap.mem;
    s := AliasAll(heap, p.p, table, quits, o.c);
    TurnedTwice(old(heap.mem), m1, heap.mem, {}, CFoot(o.c), CFoot(s));
    built := heap.mem;
    NotEmpty(heap.mem, o.c, s);
    heap.DestroyCommand(p.p, s);
    Restored(old(heap.mem), built, heap.mem, CFoot(s));
  }

  lemma NotEmpty(mem: Memory, s: CShape, t: CShape)
    requires s.C? && CTree(t).Some? == CTree(s).Some?
    ensures t.C?
  {
  }
}
