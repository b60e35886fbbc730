/**
 Command trees in memory: blocks at addresses, what it takes for blocks to be a tree,
 and the set of addresses the tree owns.
 */
module TreeShapes {
  import opened Syntax
  import Actions

  const NULL: nat := 0

  /** What `malloc` gave out: a string, and the structures of command.h. */
  datatype Block =
    | Chars(text: string)
    | ArgsBlock(nArgs: nat, nMaxArgs: nat, azArgs: nat)
    | Vector(slots: seq<nat>)
    | CommandBlock(zCmd: nat, fBackground: bool, pa: nat, prRedirects: nat, pcNext: nat)
    | RedirectBlock(fType: Kind, target: nat, prNext: nat)

  type Memory = map<nat, Block>

  /** Where an argument vector lies: the structure, its slots, and the strings (slot 0 may still be empty). */
  datatype ArgsShape = ArgsShape(node: nat, az: nat, texts: seq<nat>, args: seq<string>)

  /** Where a command list lies, and what it says. */
  datatype CShape =
    | NoC
    | C(node: nat, nameAt: nat, name: string, background: bool, pa: ArgsShape, redirs: RShape, next: CShape)

  datatype RShape =
    | NoR
    | F(node: nat, kind: Kind, fileAt: nat, file: string, next: RShape)
    | P(node: nat, kind: Kind, command: CShape, next: RShape)

  function CAddr(s: CShape): nat { if s.NoC? then NULL else s.node }

  function RAddr(s: RShape): nat { if s.NoR? then NULL else s.node }

  /* ---- what a shape says ---- */

  function CTree(s: CShape): Commands {
    match s
    case NoC => NoCommand
    case C(_, _, name, background, pa, redirs, next) =>
      Some(Command(name, pa.args, background, RTree(redirs), CTree(next)))
  }

  function RTree(s: RShape): Redirects {
    match s
    case NoR => NoRedirect
    case F(_, kind, _, file, next) => File(kind, file, RTree(next))
    case P(_, kind, command, next) =>
      if command.NoC? then NoRedirect else Pipe(kind, CTree(command).command, RTree(next))
  }

  /* ---- what a shape owns ---- */

  function AFoot(a: ArgsShape): set<nat> {
    {a.node, a.az} + set i | 0 <= i < |a.texts| && a.texts[i] != NULL :: a.texts[i]
  }

  function CFoot(s: CShape): set<nat> {
    match s
    case NoC => {}
    case C(node, nameAt, _, _, pa, redirs, next) => {node, nameAt} + AFoot(pa) + RFoot(redirs) + CFoot(next)
  }

  function RFoot(s: RShape): set<nat> {
    match s
    case NoR => {}
    case F(node, _, fileAt, _, next) => {node, fileAt} + RFoot(next)
    case P(node, _, command, next) => {node} + CFoot(command) + RFoot(next)
  }

  /** No block is used twice. */
  predicate AApart(a: ArgsShape) {
    && a.node != a.az
    && (forall i | 0 <= i < |a.texts| && a.texts[i] != NULL :: a.texts[i] != a.node && a.texts[i] != a.az)
    && (forall i, k | 0 <= i < k < |a.texts| :: a.texts[i] != a.texts[k])
  }

  predicate CApart(s: CShape) {
    match s
    case NoC => true
    case C(node, nameAt, _, _, pa, redirs, next) =>
      && node != nameAt && AApart(pa) && RApart(redirs) && CApart(next)
      && {node, nameAt} !! AFoot(pa) && {node, nameAt} !! RFoot(redirs) && {node, nameAt} !! CFoot(next)
      && AFoot(pa) !! RFoot(redirs) && AFoot(pa) !! CFoot(next) && RFoot(redirs) !! CFoot(next)
  }

  predicate RApart(s: RShape) {
    match s
    case NoR => true
    case F(node, _, fileAt, _, next) => node != fileAt && RApart(next) && {node, fileAt} !! RFoot(next)
    case P(node, _, command, next) =>
      && command.C? && CApart(command) && RApart(next)
      && node !in CFoot(command) && node !in RFoot(next) && CFoot(command) !! RFoot(next)
  }

  /* ---- the shape is in memory ---- */

  predicate TextAt(mem: Memory, a: nat, text: string) { a != NULL && a in mem && mem[a] == Chars(text) }

  /** At most `nMaxArgs` arguments and a NULL after them in `nMaxArgs` + 1 slots. */
  predicate AAt(mem: Memory, a: ArgsShape) {
    && a.node != NULL && a.node in mem && mem[a.node].ArgsBlock?
    && var b := mem[a.node];
      && b.azArgs == a.az != NULL && b.nArgs == |a.texts| == |a.args| && 1 <= b.nArgs <= b.nMaxArgs
      && a.az in mem && mem[a.az].Vector?
      && |mem[a.az].slots| == b.nMaxArgs + 1 && mem[a.az].slots[..b.nArgs] == a.texts
      && mem[a.az].slots[b.nArgs] == NULL
      && (forall i | 0 <= i < |a.texts| ::
            if a.texts[i] == NULL then i == 0 && a.args[i] == "" else TextAt(mem, a.texts[i], a.args[i]))
  }

  predicate CAt(mem: Memory, s: CShape) {
    match s
    case NoC => true
    case C(node, nameAt, name, background, pa, redirs, next) =>
      && node != NULL && node in mem
      && mem[node] == CommandBlock(nameAt, background, pa.node, RAddr(redirs), CAddr(next))
      && TextAt(mem, nameAt, name) && AAt(mem, pa) && RAt(mem, redirs) && CAt(mem, next)
  }

  predicate RAt(mem: Memory, s: RShape) {
    match s
    case NoR => true
    case F(node, kind, fileAt, file, next) =>
      && node != NULL && node in mem && mem[node] == RedirectBlock(kind, fileAt, RAddr(next))
      && !kind.PIPE? && !kind.PIPE_ERROR?
      && TextAt(mem, fileAt, file) && RAt(mem, next)
    case P(node, kind, command, next) =>
      && node != NULL && node in mem && mem[node] == RedirectBlock(kind, CAddr(command), RAddr(next))
      && (kind.PIPE? || kind.PIPE_ERROR?)
      && CAt(mem, command) && RAt(mem, next)
  }

  /* ---- frames ---- */

  predicate SameOn(mem: Memory, mem': Memory, foot: set<nat>) {
    forall a | a in foot && a in mem :: a in mem' && mem'[a] == mem[a]
  }

  lemma AFrame(mem: Memory, mem': Memory, a: ArgsShape)
    requires AAt(mem, a) && SameOn(mem, mem', AFoot(a))
    ensures AAt(mem', a) && AFoot(a) <= mem.Keys && NULL !in AFoot(a)
  {
    forall i | 0 <= i < |a.texts| && a.texts[i] != NULL ensures TextAt(mem', a.texts[i], a.args[i]) {
      assert TextAt(mem, a.texts[i], a.args[i]);
      assert a.texts[i] in AFoot(a);
    }
  }

  lemma {:induction false} CFrame(mem: Memory, mem': Memory, s: CShape)
    requires CAt(mem, s) && SameOn(mem, mem', CFoot(s))
    ensures CAt(mem', s) && CFoot(s) <= mem.Keys && NULL !in CFoot(s)
    decreases s
  {
    hide AAt, AFoot;
    if s.C? {
      AFrame(mem, mem', s.pa);
      RFrame(mem, mem', s.redirs);
      CFrame(mem, mem', s.next);
    }
  }

  lemma {:induction false} RFrame(mem: Memory, mem': Memory, s: RShape)
    requires RAt(mem, s) && SameOn(mem, mem', RFoot(s))
    ensures RAt(mem', s) && RFoot(s) <= mem.Keys && NULL !in RFoot(s)
    decreases s
  {
    match s
    case NoR =>
    case F(_, _, _, _, next) => RFrame(mem, mem', next);
    case P(_, _, command, next) =>
      CFrame(mem, mem', command);
      RFrame(mem, mem', next);
  }

  /* ---- appending in place ---- */

  function CAppend(s: CShape, t: CShape): CShape { if s.NoC? then t else s.(next := CAppend(s.next, t)) }

  function RAppend(s: RShape, t: RShape): RShape { if s.NoR? then t else s.(next := RAppend(s.next, t)) }

  /** The last node of a list. */
  function CLast(s: CShape): nat
    requires s.C?
  {
    if s.next.NoC? then s.node else CLast(s.next)
  }

  function RLast(s: RShape): nat
    requires !s.NoR?
  {
    if s.next.NoR? then s.node else RLast(s.next)
  }

  lemma {:induction false} CLastOwned(mem: Memory, s: CShape)
    requires CAt(mem, s) && s.C?
    ensures CLast(s) in CFoot(s) && CLast(s) in mem && mem[CLast(s)].CommandBlock?
    decreases s
  {
    hide AFoot, AAt;
    if s.next.C? {
      CLastOwned(mem, s.next);
    }
  }

  lemma {:induction false} RLastOwned(mem: Memory, s: RShape)
    requires RAt(mem, s) && !s.NoR?
    ensures RLast(s) in RFoot(s) && RLast(s) in mem && mem[RLast(s)].RedirectBlock?
    decreases s
  {
    if !s.next.NoR? {
      RLastOwned(mem, s.next);
    }
  }

  /** The list says what it said before, then what the other list says, and owns what both owned. */
  lemma {:induction false} CAppended(mem: Memory, s: CShape, t: CShape)
    requires s.C? && CAt(mem, s) && CAt(mem, t) && CApart(s) && CApart(t) && CFoot(s) !! CFoot(t)
    ensures CLast(s) in CFoot(s) && CLast(s) in mem && mem[CLast(s)].CommandBlock?
    ensures CAt(mem[CLast(s) := mem[CLast(s)].(pcNext := CAddr(t))], CAppend(s, t))
    decreases s
  {
    hide AFoot, AAt, CApart, RApart, CFoot, RFoot;
    CLastOwned(mem, s);
    var last := CLast(s);
    var mem' := mem[last := mem[last].(pcNext := CAddr(t))];
    CParts(s);
    CFrame(mem, mem', t);
    if s.next.C? {
      CLastOwned(mem, s.next);
      CAppended(mem, s.next, t);
      TextFrame(mem, mem', s.nameAt, s.name);
      AFrame(mem, mem', s.pa);
      RFrame(mem, mem', s.redirs);
    } else {
      TextFrame(mem, mem', s.nameAt, s.name);
      AFrame(mem, mem', s.pa);
      RFrame(mem, mem', s.redirs);
    }
  }

  lemma TextFrame(mem: Memory, mem': Memory, a: nat, text: string)
    requires TextAt(mem, a, text) && SameOn(mem, mem', {a})
    ensures TextAt(mem', a, text)
  {
  }

  /** The parts of a command are apart. */
  lemma CParts(s: CShape)
    requires s.C? && CApart(s)
    ensures CFoot(s) == {s.node, s.nameAt} + AFoot(s.pa) + RFoot(s.redirs) + CFoot(s.next)
    ensures s.node != s.nameAt && AApart(s.pa) && RApart(s.redirs) && CApart(s.next)
    ensures {s.node, s.nameAt} !! AFoot(s.pa) && {s.node, s.nameAt} !! RFoot(s.redirs)
      && {s.node, s.nameAt} !! CFoot(s.next)
    ensures AFoot(s.pa) !! RFoot(s.redirs) && AFoot(s.pa) !! CFoot(s.next) && RFoot(s.redirs) !! CFoot(s.next)
  {
    hide AFoot, AApart;
  }

  lemma {:induction false} CAppendFoot(s: CShape, t: CShape)
    requires CApart(s) && CApart(t) && CFoot(s) !! CFoot(t)
    ensures CFoot(CAppend(s, t)) == CFoot(s) + CFoot(t) && CApart(CAppend(s, t))
    decreases s
  {
    hide AFoot, AApart, RFoot, RApart;
    if s.C? {
      CAppendFoot(s.next, t);
    }
  }

  lemma {:induction false} CAppendTree(s: CShape, t: CShape)
    requires s.C? && t.C?
    ensures CTree(CAppend(s, t)) == Some(Actions.AppendCommand(CTree(s).command, CTree(t).command))
    decreases s
  {
    hide RTree;
    if s.next.C? {
      CAppendTree(s.next, t);
    }
  }

  lemma {:induction false} RAppended(mem: Memory, s: RShape, t: RShape)
    requires !s.NoR? && RAt(mem, s) && RAt(mem, t) && RApart(s) && RApart(t) && RFoot(s) !! RFoot(t)
    ensures RLast(s) in RFoot(s) && RLast(s) in mem && mem[RLast(s)].RedirectBlock?
    ensures RAt(mem[RLast(s) := mem[RLast(s)].(prNext := RAddr(t))], RAppend(s, t))
    decreases s
  {
    hide CFoot, CApart, CAt;
    RLastOwned(mem, s);
    var last := RLast(s);
    var mem' := mem[last := mem[last].(prNext := RAddr(t))];
    RFrame(mem, mem', t);
    if !s.next.NoR? {
      RLastOwned(mem, s.next);
      RAppended(mem, s.next, t);
    }
    match s
    case F(_, _, fileAt, file, next) => TextFrame(mem, mem', fileAt, file);
    case P(_, _, command, next) => CFrame(mem, mem', command);
  }

  lemma {:induction false} RAppendFoot(s: RShape, t: RShape)
    requires RApart(s) && RApart(t) && RFoot(s) !! RFoot(t)
    ensures RFoot(RAppend(s, t)) == RFoot(s) + RFoot(t) && RApart(RAppend(s, t))
    decreases s
  {
    hide CFoot, CApart;
    if !s.NoR? {
      RAppendFoot(s.next, t);
    }
  }

  lemma {:induction false} RAppendTree(s: RShape, t: RShape)
    requires RApart(s) && RApart(t)
    ensures RTree(RAppend(s, t)) == Actions.AppendRedirect(RTree(s), RTree(t))
    decreases s
  {
    hide CFoot, CApart, CTree, RFoot;
    if !s.NoR? {
      RAppendTree(s.next, t);
    }
  }
}
