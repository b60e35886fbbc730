/** The semantic actions of parser.y on the heap: a parse builds its tree out of unshared blocks. */
module TreeActions {
  import opened Syntax
  import opened LalrTables
  import opened Derivations
  import opened TreeShapes
  import opened TreeHeap
  import A = Actions
  import Meaning

  /** A semantic value: the pointer or the number in the YYSTYPE union. */
  datatype Ptr = Pointer(p: nat) | Number(kind: Kind)

  /** What a semantic value owns. */
  datatype Owned =
    | Nothing
    | Num(kind: Kind)
    | Str(at: nat, text: string)
    | Args(a: ArgsShape)
    | Redir(r: RShape)
    | Cmd(c: CShape)

  function Foot(o: Owned): set<nat> {
    match o
    case Nothing => {}
    case Num(_) => {}
    case Str(at, _) => {at}
    case Args(a) => AFoot(a)
    case Redir(r) => RFoot(r)
    case Cmd(c) => CFoot(c)
  }

  /** The value of the semantic action, as module Actions has it. */
  function ValueOf(o: Owned): A.Value {
    match o
    case Nothing => A.Stale
    case Num(kind) => A.Number(kind)
    case Str(_, text) => A.Text(text)
    case Args(a) => A.Args(a.args)
    case Redir(r) => A.Redirs(RTree(r))
    case Cmd(c) => A.Cmd(CTree(c))
  }

  /** The pointer refers to an unshared structure in memory. */
  predicate Held(mem: Memory, p: Ptr, o: Owned) {
    match o
    case Nothing => true
    case Num(kind) => p == Number(kind)
    case Str(at, text) => p == Pointer(at) && TextAt(mem, at, text)
    case Args(a) => p == Pointer(a.node) && AAt(mem, a) && AApart(a)
    case Redir(r) => p == Pointer(RAddr(r)) && RAt(mem, r) && RApart(r)
    case Cmd(c) => p == Pointer(CAddr(c)) && CAt(mem, c) && CApart(c) && c.C?
  }

  lemma HeldKept(old': Memory, new': Memory, before: set<nat>, after: set<nat>, p: Ptr, o: Owned)
    requires Turned(old', new', before, after) && Held(old', p, o) && Foot(o) !! before
    ensures Held(new', p, o) && Foot(o) !! after && Foot(o) <= old'.Keys
  {
    hide AAt, CAt, RAt, AApart, CApart, RApart, AFoot, CFoot, RFoot, Turned;
    match o
    case Nothing =>
    case Num(_) =>
    case Str(at, text) => TextKept(old', new', before, after, at, text);
    case Args(a) => AKept(old', new', before, after, a);
    case Redir(r) => RKept(old', new', before, after, r);
    case Cmd(c) => CKept(old', new', before, after, c);
  }

  lemma HeldOwned(mem: Memory, p: Ptr, o: Owned)
    requires Held(mem, p, o)
    ensures Foot(o) <= mem.Keys
  {
    hide Held, Foot;
    HeldKept(mem, mem, {}, {}, p, o);
  }

  /** A step may be told to carry along blocks it leaves alone. */
  lemma TurnedMore(m0: Memory, m1: Memory, before: set<nat>, after: set<nat>, extra: set<nat>)
    requires Turned(m0, m1, before, after) && extra !! before && extra <= m0.Keys
    ensures Turned(m0, m1, before + extra, after + extra)
  {
  }

  /** The null pointer stands for the empty lists. */
  lemma NothingThere(mem: Memory)
    ensures CAt(mem, NoC) && CApart(NoC) && CFoot(NoC) == {} && CTree(NoC) == NoCommand && CAddr(NoC) == NULL
    ensures RAt(mem, NoR) && RApart(NoR) && RFoot(NoR) == {} && RTree(NoR) == NoRedirect && RAddr(NoR) == NULL
  {
  }

  /* ---- the actions that touch memory ---- */

  /** `createCommand` as the parser calls it: in the foreground, last in its list. */
  method NewCommand(heap: Heap, zCommand: nat, pa: nat, prRedirects: nat,
                    ghost name: string, ghost a: ArgsShape, ghost r: RShape)
    returns (pc: nat, ghost s: CShape)
    requires heap.Valid() && TextAt(heap.mem, zCommand, name)
    requires AAt(heap.mem, a) && AApart(a) && pa == a.node
    requires RAt(heap.mem, r) && RApart(r) && prRedirects == RAddr(r) && AFoot(a) !! RFoot(r)
    modifies heap
    ensures heap.Valid() && CAt(heap.mem, s) && CApart(s) && s.C? && pc == s.node
    ensures CTree(s) == Some(Command(name, a.args, false, RTree(r), NoCommand))
    ensures Turned(old(heap.mem), heap.mem, AFoot(a) + RFoot(r), CFoot(s))
  {
    NothingThere(heap.mem);
    hide AAt, AApart, RAt, RApart, AFoot, RFoot, CAt, CApart, CFoot, CTree, RTree, TextAt, Turned;
    pc, s := heap.CreateCommand(zCommand, pa, false, prRedirects, NULL, name, a, r, NoC);
    assert AFoot(a) + RFoot(r) + {} == AFoot(a) + RFoot(r);
  }

  /** `createRedirect` for a pipe, alone in its list. */
  method NewPipe(heap: Heap, fType: Kind, p: nat, ghost c: CShape) returns (pr: nat, ghost s: RShape)
    requires heap.Valid() && (fType.PIPE? || fType.PIPE_ERROR?)
    requires c.C? && CAt(heap.mem, c) && CApart(c) && p == c.node
    modifies heap
    ensures heap.Valid() && RAt(heap.mem, s) && RApart(s) && pr == RAddr(s) != NULL
    ensures RTree(s) == Pipe(fType, CTree(c).command, NoRedirect)
    ensures Turned(old(heap.mem), heap.mem, CFoot(c), RFoot(s))
  {
    NothingThere(heap.mem);
    hide RAt, RApart, RFoot, CAt, CApart, CFoot, RTree, Turned;
    pr, s := heap.CreatePipeRedirect(fType, p, NULL, c, NoR);
    assert CFoot(c) + {} == CFoot(c);
  }

  /** `COMMAND parameters redirect`. */
  method MakeCommand(heap: Heap, name: nat, pa: nat, pr: nat, ghost text: string, ghost a: ArgsShape, ghost r: RShape)
    returns (pc: nat, ghost s: CShape)
    requires heap.Valid() && TextAt(heap.mem, name, text)
    requires AAt(heap.mem, a) && AApart(a) && pa == a.node && RAt(heap.mem, r) && RApart(r) && pr == RAddr(r)
    requires name !in AFoot(a) && name !in RFoot(r) && AFoot(a) !! RFoot(r)
    modifies heap
    ensures heap.Valid() && CAt(heap.mem, s) && CApart(s) && s.C? && pc == s.node && a.args != []
    ensures CTree(s) == Some(Command(text, a.args[0 := A.ShortName(text)], false, RTree(r), NoCommand))
    ensures A.BehindLastSlash(CTree(s).command.args[0], text)
    ensures Turned(old(heap.mem), heap.mem, {name} + AFoot(a) + RFoot(r), CFoot(s))
  {
    hide A.ShortName, A.BehindLastSlash;
    ArgsNotEmpty(heap.mem, a);
    A.ShortNameIs(text);
    hide AAt, AApart, RAt, RApart, AFoot, RFoot, CAt, CApart, CFoot, CTree, RTree, Turned;
    ghost var m0 := heap.mem;
    AFrame(m0, m0, a);
    RFrame(m0, m0, r);
    var short := A.ShortName(heap.mem[name].text);
    ghost var b := heap.SetArgument(pa, 0, short, a);
    ghost var m1 := heap.mem;
    TextKept(m0, m1, AFoot(a), AFoot(b), name, text);
    RKept(m0, m1, AFoot(a), AFoot(b), r);
    TurnedMore(m0, m1, AFoot(a), AFoot(b), RFoot(r) + {name});
    pc, s := NewCommand(heap, name, pa, pr, text, b, r);
    ghost var m2 := heap.mem;
    TextKept(m1, m2, AFoot(b) + RFoot(r), CFoot(s), name, text);
    TurnedMore(m1, m2, AFoot(b) + RFoot(r), CFoot(s), {name});
    Regroup(AFoot(b), RFoot(r), {name});
    Regroup(AFoot(a), RFoot(r), {name});
    TurnedTwice(m0, m1, m2, AFoot(a) + (RFoot(r) + {name}), AFoot(b) + RFoot(r) + {name}, CFoot(s) + {name});
    heap.Free(name);
    CKept(m2, heap.mem, {name}, {}, s);
    DropFreed(m0, m2, heap.mem, {name} + AFoot(a) + RFoot(r), CFoot(s), name);
  }

  lemma ArgsNotEmpty(mem: Memory, a: ArgsShape)
    requires AAt(mem, a)
    ensures a.args != [] && |a.args| == |a.texts|
  {
  }

  lemma Regroup(x: set<nat>, y: set<nat>, z: set<nat>)
    ensures x + (y + z) == x + y + z == z + x + y
  {
  }

  /** The parser frees the token's string after copying it. */
  lemma DropFreed(m0: Memory, m1: Memory, m2: Memory, before: set<nat>, after: set<nat>, a: nat)
    requires Turned(m0, m1, before, after + {a}) && m2 == m1 - {a} && a !in after && a in before && before <= m0.Keys
    ensures Turned(m0, m2, before, after)
  {
  }

  /** `REDIRECT_IN FILENAME` and its four kin. */
  method MakeFile(heap: Heap, fType: Kind, p: nat, ghost file: string) returns (pr: nat, ghost s: RShape)
    requires heap.Valid() && TextAt(heap.mem, p, file) && !fType.PIPE? && !fType.PIPE_ERROR?
    modifies heap
    ensures heap.Valid() && RAt(heap.mem, s) && RApart(s) && pr == RAddr(s) && RTree(s) == File(fType, file, NoRedirect)
    ensures Turned(old(heap.mem), heap.mem, {p}, RFoot(s))
  {
    hide RAt, RApart, RFoot, RTree, Turned;
    ghost var m0 := heap.mem;
    NothingThere(m0);
    pr, s := heap.CreateFileRedirect(fType, p, NULL, file, NoR);
    ghost var m1 := heap.mem;
    TextKept(m0, m1, {}, RFoot(s), p, file);
    TurnedMore(m0, m1, {}, RFoot(s), {p});
    assert {} + {p} == {p};
    heap.Free(p);
    RKept(m1, heap.mem, {p}, {}, s);
    DropFreed(m0, m1, heap.mem, {p}, RFoot(s), p);
  }

  /** `parameters parameter`. */
  method AddParameter(heap: Heap, pa: nat, p: nat, junk: nat, ghost a: ArgsShape, ghost text: string)
    returns (ghost b: ArgsShape)
    requires heap.Valid() && AAt(heap.mem, a) && AApart(a) && pa == a.node && TextAt(heap.mem, p, text)
      && p !in AFoot(a)
    modifies heap
    ensures heap.Valid() && AAt(heap.mem, b) && AApart(b) && pa == b.node && b.args == a.args + [text]
    ensures Turned(old(heap.mem), heap.mem, AFoot(a) + {p}, AFoot(b))
  {
    hide AAt, AApart, AFoot, Turned;
    ghost var m0 := heap.mem;
    AFrame(m0, m0, a);
    b := heap.AppendArgument(pa, p, junk, a, text);
    ghost var m1 := heap.mem;
    TextKept(m0, m1, AFoot(a), AFoot(b), p, text);
    TurnedMore(m0, m1, AFoot(a), AFoot(b), {p});
    heap.Free(p);
    AKept(m1, heap.mem, {p}, {}, b);
    DropFreed(m0, m1, heap.mem, AFoot(a) + {p}, AFoot(b), p);
  }

  /** `$1->fBackground = 1`, if the separator is `&`. */
  method SetBackground(heap: Heap, pc: nat, separator: Kind, ghost s: CShape) returns (ghost t: CShape)
    requires heap.Valid() && s.C? && pc == s.node && CAt(heap.mem, s) && CApart(s)
    modifies heap
    ensures heap.Valid() && CAt(heap.mem, t) && CApart(t) && t.C? && t.node == pc
    ensures CTree(t) == Some(A.Background(CTree(s).command, A.Number(separator)))
    ensures Turned(old(heap.mem), heap.mem, CFoot(s), CFoot(t))
  {
    hide AAt, AApart, RAt, RApart, AFoot, RFoot;
    CFrame(heap.mem, heap.mem, s);
    t := s;
    if separator == BACKGROUND {
      t := s.(background := true);
      ghost var m0 := heap.mem;
      heap.mem := heap.mem[pc := heap.mem[pc].(fBackground := true)];
      CParts(s);
      AFrame(m0, heap.mem, s.pa);
      RFrame(m0, heap.mem, s.redirs);
      CFrame(m0, heap.mem, s.next);
    }
  }

  /* ---- all actions ---- */

  function Foots(os: seq<Owned>): set<nat> { if os == [] then {} else Foot(os[0]) + Foots(os[1..]) }

  predicate Apart(os: seq<Owned>) { forall i, k | 0 <= i < k < |os| :: Foot(os[i]) !! Foot(os[k]) }

  function Values(os: seq<Owned>): (v: seq<A.Value>)
    ensures |v| == |os| && forall i | 0 <= i < |os| :: v[i] == ValueOf(os[i])
  {
    seq(|os|, i requires 0 <= i < |os| => ValueOf(os[i]))
  }

  predicate AllHeld(mem: Memory, ps: seq<Ptr>, os: seq<Owned>) {
    |ps| == |os| && Apart(os) && forall i | 0 <= i < |os| :: Held(mem, ps[i], os[i])
  }

  lemma HeldAt(mem: Memory, ps: seq<Ptr>, os: seq<Owned>, i: nat)
    requires AllHeld(mem, ps, os) && i < |os|
    ensures |ps| == |os| && Held(mem, ps[i], os[i])
    ensures forall k | i < k < |os| :: Foot(os[i]) !! Foot(os[k])
  {
    hide Held, Foot;
  }

  lemma HeldIs(mem: Memory, p: Ptr, o: Owned)
    ensures o.Num? ==> (Held(mem, p, o) <==> p == Number(o.kind)) && Foot(o) == {}
    ensures o.Cmd? ==> (Held(mem, p, o) <==> p == Pointer(CAddr(o.c)) && CAt(mem, o.c) && CApart(o.c) && o.c.C?)
    ensures o.Cmd? ==> Foot(o) == CFoot(o.c) && ValueOf(o) == A.Cmd(CTree(o.c))
    ensures o.Redir? ==> (Held(mem, p, o) <==> p == Pointer(RAddr(o.r)) && RAt(mem, o.r) && RApart(o.r))
    ensures o.Redir? ==> Foot(o) == RFoot(o.r) && ValueOf(o) == A.Redirs(RTree(o.r))
  {
    hide CAt, CApart, CFoot, CTree, RAt, RApart, RFoot, RTree, TextAt, AAt, AApart, AFoot;
  }

  lemma Few(os: seq<Owned>)
    ensures |os| == 0 ==> Foots(os) == {}
    ensures |os| == 1 ==> Foots(os) == Foot(os[0])
    ensures |os| == 2 ==> Foots(os) == Foot(os[0]) + Foot(os[1])
    ensures |os| == 3 ==> Foots(os) == Foot(os[0]) + Foot(os[1]) + Foot(os[2])
  {
    hide Foot;
    if |os| == 3 {
      assert os[1..][0] == os[1] && os[1..][1..][0] == os[2] && os[1..][1..][1..] == [];
    } else if |os| == 2 {
      assert os[1..][0] == os[1] && os[1..][1..] == [];
    } else if |os| == 1 {
      assert os[1..] == [];
    }
  }

  /** The right-hand side as its actions may expect it. */
  predicate Expected(rule: int, os: seq<Owned>) {
    && 5 <= rule < 33 && |os| == |Rhs(rule)|
    && forall i | 0 <= i < |os| :: Meaning.Fits(Rhs(rule)[i], ValueOf(os[i]))
  }

  /** `command separator cmd_seq`. */
  method JoinCommands(heap: Heap, pc: nat, separator: Kind, rest: nat, ghost s: CShape, ghost t: CShape)
    returns (ghost u: CShape)
    requires heap.Valid() && s.C? && t.C? && pc == s.node && rest == t.node
    requires CAt(heap.mem, s) && CAt(heap.mem, t) && CApart(s) && CApart(t) && CFoot(s) !! CFoot(t)
    modifies heap
    ensures heap.Valid() && CAt(heap.mem, u) && CApart(u) && u.C? && u.node == pc
    ensures CTree(u) == Some(A.Background(A.AppendCommand(CTree(s).command, CTree(t).command), A.Number(separator)))
    ensures Turned(old(heap.mem), heap.mem, CFoot(s) + CFoot(t), CFoot(u))
  {
    hide CAt, CApart, CFoot, CTree, Turned;
    ghost var m0 := heap.mem;
    CFrame(m0, m0, s);
    CFrame(m0, m0, t);
    heap.AppendCommand(pc, rest, s, t);
    ghost var joined, m1 := CAppend(s, t), heap.mem;
    u := SetBackground(heap, pc, separator, joined);
    TurnedTwice(m0, m1, heap.mem, CFoot(s) + CFoot(t), CFoot(joined), CFoot(u));
  }

  lemma SequenceParts(rule: int, os: seq<Owned>)
    requires (rule == 7 || rule == 8) && Expected(rule, os)
    ensures os[0].Cmd? && os[0].c.C? && os[1].Num? && (os[1].kind == BACKGROUND || os[1].kind == SEMICOLON)
    ensures rule == 7 ==> |os| == 3 && os[2].Cmd? && os[2].c.C?
    ensures rule == 8 ==> |os| == 2
    ensures rule == 7 ==>
      A.Action(rule, Values(os)) ==
      A.Cmd(Some(A.Background(A.AppendCommand(CTree(os[0].c).command, CTree(os[2].c).command), A.Number(os[1].kind))))
    ensures rule == 8 ==>
      A.Action(rule, Values(os)) == A.Cmd(Some(A.Background(CTree(os[0].c).command, A.Number(os[1].kind))))
  {
    hide Meaning.Buildable, Meaning.Stage, A.AppendCommand, A.Background;
    assert forall i | 0 <= i < |os| :: Meaning.Fits(Rhs(rule)[i], ValueOf(os[i]));
  }

  /** Rule 7. */
  method ReduceSequence(heap: Heap, ps: seq<Ptr>, ghost os: seq<Owned>) returns (p: Ptr, ghost o: Owned)
    requires Expected(7, os) && heap.Valid() && AllHeld(heap.mem, ps, os)
    modifies heap
    ensures heap.Valid() && Held(heap.mem, p, o) && ValueOf(o) == A.Action(7, Values(os))
    ensures Turned(old(heap.mem), heap.mem, Foots(os), Foot(o))
  {
    SequenceParts(7, os);
    HeldAt(heap.mem, ps, os, 0);
    HeldAt(heap.mem, ps, os, 1);
    HeldAt(heap.mem, ps, os, 2);
    hide CAt, CApart, CFoot, CTree, Turned, Meaning.Fits, Foots, Values, A.Action, Expected, AllHeld, Held, ValueOf,
      Foot, A.Background, A.AppendCommand;
    HeldIs(heap.mem, ps[0], os[0]);
    HeldIs(heap.mem, ps[1], os[1]);
    HeldIs(heap.mem, ps[2], os[2]);
    Few(os);
    assert Foots(os) == CFoot(os[0].c) + CFoot(os[2].c);
    ghost var t := JoinCommands(heap, ps[0].p, ps[1].kind, ps[2].p, os[0].c, os[2].c);
    p, o := ps[0], Cmd(t);
    HeldIs(heap.mem, p, o);
  }

  /** Rule 8. */
  method ReduceLast(heap: Heap, ps: seq<Ptr>, ghost os: seq<Owned>) returns (p: Ptr, ghost o: Owned)
    requires Expected(8, os) && heap.Valid() && AllHeld(heap.mem, ps, os)
    modifies heap
    ensures heap.Valid() && Held(heap.mem, p, o) && ValueOf(o) == A.Action(8, Values(os))
    ensures Turned(old(heap.mem), heap.mem, Foots(os), Foot(o))
  {
    SequenceParts(8, os);
    HeldAt(heap.mem, ps, os, 0);
    HeldAt(heap.mem, ps, os, 1);
    hide CAt, CApart, CFoot, CTree, Turned, Meaning.Fits, Foots, Values, A.Action, Expected, AllHeld, Held, ValueOf,
      Foot, A.Background, A.AppendCommand;
    HeldIs(heap.mem, ps[0], os[0]);
    HeldIs(heap.mem, ps[1], os[1]);
    Few(os);
    assert Foots(os) == CFoot(os[0].c);
    ghost var t := SetBackground(heap, ps[0].p, ps[1].kind, os[0].c);
    p, o := ps[0], Cmd(t);
    HeldIs(heap.mem, p, o);
  }

  lemma CommandParts(os: seq<Owned>)
    requires Expected(10, os)
    ensures |os| == 3 && os[0].Str? && os[1].Args? && os[1].a.args != [] && os[2].Redir?
    ensures A.Action(10, Values(os))
      == A.Cmd(Some(Command(os[0].text, os[1].a.args[0 := A.ShortName(os[0].text)], false, RTree(os[2].r), NoCommand)))
  {
    hide Meaning.RedirectList, A.ShortName;
    assert forall i | 0 <= i < |os| :: Meaning.Fits(Rhs(10)[i], ValueOf(os[i]));
  }

  /** Rule 10. */
  method ReduceCommand(heap: Heap, ps: seq<Ptr>, ghost os: seq<Owned>) returns (p: Ptr, ghost o: Owned)
    requires Expected(10, os) && heap.Valid() && AllHeld(heap.mem, ps, os)
    modifies heap
    ensures heap.Valid() && Held(heap.mem, p, o) && ValueOf(o) == A.Action(10, Values(os))
    ensures Turned(old(heap.mem), heap.mem, Foots(os), Foot(o))
  {
    hide A.BehindLastSlash, A.ShortName;
    CommandParts(os);
    hide CAt, CApart, CFoot, CTree, Turned, Meaning.Fits, Foots, Values, A.Action, Expected, AAt, RAt, AApart,
      RApart, AFoot, RFoot, RTree, TextAt;
    Few(os);
    assert Held(heap.mem, ps[0], os[0]) && Held(heap.mem, ps[1], os[1]) && Held(heap.mem, ps[2], os[2]);
    var pc;
    ghost var s;
    pc, s := MakeCommand(heap, ps[0].p, ps[1].p, ps[2].p, os[0].text, os[1].a, os[2].r);
    p, o := Pointer(pc), Cmd(s);
  }

  lemma JoinParts(rule: int, os: seq<Owned>)
    requires (rule == 13 || rule == 17 || rule == 18) && Expected(rule, os)
    ensures |os| == 2 && os[0].Redir? && !os[0].r.NoR? && os[1].Redir? && !os[1].r.NoR?
    ensures A.Action(rule, Values(os)) == A.Redirs(A.AppendRedirect(RTree(os[0].r), RTree(os[1].r)))
  {
    hide Meaning.Stage, A.AppendRedirect;
    assert forall i | 0 <= i < |os| :: Meaning.Fits(Rhs(rule)[i], ValueOf(os[i]));
  }

  /** Rules 13, 17 and 18. */
  method ReduceJoin(heap: Heap, rule: int, ps: seq<Ptr>, ghost os: seq<Owned>) returns (p: Ptr, ghost o: Owned)
    requires (rule == 13 || rule == 17 || rule == 18) && Expected(rule, os) && heap.Valid() && AllHeld(heap.mem, ps, os)
    modifies heap
    ensures heap.Valid() && Held(heap.mem, p, o) && ValueOf(o) == A.Action(rule, Values(os))
    ensures Turned(old(heap.mem), heap.mem, Foots(os), Foot(o))
  {
    JoinParts(rule, os);
    hide CAt, CApart, CFoot, CTree, Turned, Meaning.Fits, Foots, Values, A.Action, Expected, RAt, RApart, RFoot,
      RTree, TextAt, AAt, AApart;
    Few(os);
    assert Held(heap.mem, ps[0], os[0]) && Held(heap.mem, ps[1], os[1]);
    heap.AppendRedirect(ps[0].p, ps[1].p, os[0].r, os[1].r);
    p, o := ps[0], Redir(RAppend(os[0].r, os[1].r));
  }

  /** The redirect token of rules 19 to 23. */
  function FileKind(rule: int): Kind {
    if rule == 19 then REDIRECT_IN else if rule == 20 then REDIRECT_OUT else if rule == 21 then REDIRECT_ERROR
    else if rule == 22 then APPEND else APPEND_ERROR
  }

  lemma FileParts(rule: int, os: seq<Owned>)
    requires 19 <= rule <= 23 && Expected(rule, os)
    ensures |os| == 2 && os[1].Str?
      && A.Action(rule, Values(os)) == A.Redirs(File(FileKind(rule), os[1].text, NoRedirect))
  {
    assert Meaning.Fits(Rhs(rule)[1], ValueOf(os[1]));
  }

  /** Rules 19 to 23. */
  method ReduceFile(heap: Heap, rule: int, ps: seq<Ptr>, ghost os: seq<Owned>) returns (p: Ptr, ghost o: Owned)
    requires 19 <= rule <= 23 && Expected(rule, os) && heap.Valid() && AllHeld(heap.mem, ps, os) && Foot(os[0]) == {}
    modifies heap
    ensures heap.Valid() && Held(heap.mem, p, o) && ValueOf(o) == A.Action(rule, Values(os))
    ensures Turned(old(heap.mem), heap.mem, Foots(os), Foot(o))
  {
    FileParts(rule, os);
    hide CFoot, CTree, Turned, Meaning.Fits, Foots, Values, A.Action, Expected, RAt, RApart, RFoot, RTree, TextAt,
      AAt, CAt;
    Few(os);
    assert Held(heap.mem, ps[1], os[1]);
    assert Foots(os) == {os[1].at};
    var pr;
    ghost var r;
    pr, r := MakeFile(heap, FileKind(rule), ps[1].p, os[1].text);
    p, o := Pointer(pr), Redir(r);
  }

  lemma PipeParts(os: seq<Owned>)
    requires Expected(24, os)
    ensures |os| == 2 && os[0].Num? && (os[0].kind.PIPE? || os[0].kind.PIPE_ERROR?) && os[1].Cmd? && os[1].c.C?
    ensures A.Action(24, Values(os)) == A.Redirs(Pipe(os[0].kind, CTree(os[1].c).command, NoRedirect))
  {
    hide Meaning.Stage;
    assert forall i | 0 <= i < |os| :: Meaning.Fits(Rhs(24)[i], ValueOf(os[i]));
  }

  /** Rule 24. */
  method ReducePipe(heap: Heap, ps: seq<Ptr>, ghost os: seq<Owned>) returns (p: Ptr, ghost o: Owned)
    requires Expected(24, os) && heap.Valid() && AllHeld(heap.mem, ps, os)
    modifies heap
    ensures heap.Valid() && Held(heap.mem, p, o) && ValueOf(o) == A.Action(24, Values(os))
    ensures Turned(old(heap.mem), heap.mem, Foots(os), Foot(o))
  {
    PipeParts(os);
    HeldAt(heap.mem, ps, os, 0);
    HeldAt(heap.mem, ps, os, 1);
    hide CAt, CApart, CFoot, CTree, Turned, Meaning.Fits, Foots, Values, A.Action, Expected, RAt, RApart, RFoot,
      RTree, TextAt, AAt, AllHeld, Held, ValueOf, Foot;
    HeldIs(heap.mem, ps[0], os[0]);
    HeldIs(heap.mem, ps[1], os[1]);
    Few(os);
    assert Foots(os) == CFoot(os[1].c);
    var pr;
    ghost var r;
    pr, r := NewPipe(heap, ps[0].kind, ps[1].p, os[1].c);
    p, o := Pointer(pr), Redir(r);
    HeldIs(heap.mem, p, o);
  }

  lemma ParameterParts(os: seq<Owned>)
    requires Expected(29, os)
    ensures |os| == 2 && os[0].Args? && os[1].Str? && A.Action(29, Values(os)) == A.Args(os[0].a.args + [os[1].text])
  {
    assert forall i | 0 <= i < |os| :: Meaning.Fits(Rhs(29)[i], ValueOf(os[i]));
  }

  /** Rule 29. */
  method ReduceParameter(heap: Heap, ps: seq<Ptr>, junk: nat, ghost os: seq<Owned>) returns (p: Ptr, ghost o: Owned)
    requires Expected(29, os) && heap.Valid() && AllHeld(heap.mem, ps, os)
    modifies heap
    ensures heap.Valid() && Held(heap.mem, p, o) && ValueOf(o) == A.Action(29, Values(os))
    ensures Turned(old(heap.mem), heap.mem, Foots(os), Foot(o))
  {
    ParameterParts(os);
    hide CAt, CFoot, CTree, Turned, Meaning.Fits, Foots, Values, A.Action, Expected, AAt, RAt, AApart, AFoot,
      RFoot, TextAt;
    Few(os);
    assert Held(heap.mem, ps[0], os[0]) && Held(heap.mem, ps[1], os[1]);
    ghost var b := AddParameter(heap, ps[0].p, ps[1].p, junk, os[0].a, os[1].text);
    p, o := ps[0], Args(b);
  }

  /** The tokens without text own nothing. */
  predicate OperatorsOwnNothing(rule: int, os: seq<Owned>) {
    forall i | 0 <= i < |os| && i < |Rhs(rule)| && 6 <= Rhs(rule)[i] <= 14 :: os[i] == Nothing
  }

  function Separator(rule: int): Kind {
    if rule == 25 then BACKGROUND else if rule == 26 then SEMICOLON else if rule == 27 then PIPE else PIPE_ERROR
  }

  /** The rules that hand on the value of their only symbol. */
  predicate Passes(rule: int) {
    rule == 5 || rule == 6 || rule == 9 || rule == 11 || rule == 12 || rule == 15 || rule == 16 || rule >= 31
  }

  lemma PlainParts(rule: int, os: seq<Owned>)
    requires Expected(rule, os)
    ensures Passes(rule) ==> |os| == 1 && A.Action(rule, Values(os)) == ValueOf(os[0])
    ensures 25 <= rule <= 28 ==> |os| == 1 && A.Action(rule, Values(os)) == A.Number(Separator(rule))
    ensures 25 <= rule <= 28 && OperatorsOwnNothing(rule, os) ==> os[0] == Nothing
    ensures 19 <= rule <= 23 && OperatorsOwnNothing(rule, os) ==> os[0] == Nothing
    ensures rule == 14 ==> os == [] && A.Action(rule, Values(os)) == A.Redirs(NoRedirect)
    ensures rule == 30 ==> os == [] && A.Action(rule, Values(os)) == A.Args([""])
  {
    hide Meaning.Fits, ValueOf;
    assert rule == 25 ==> Rhs(rule)[0] == 6;
    assert rule == 26 ==> Rhs(rule)[0] == 9;
  }

  /** The actions that allocate nothing, and the empty parameter list. */
  method ReducePlain(heap: Heap, rule: int, ps: seq<Ptr>, ghost os: seq<Owned>) returns (p: Ptr, ghost o: Owned)
    requires (Passes(rule) || 25 <= rule <= 28 || rule == 14 || rule == 30)
    requires Expected(rule, os) && heap.Valid() && AllHeld(heap.mem, ps, os) && OperatorsOwnNothing(rule, os)
    modifies heap
    ensures heap.Valid() && Held(heap.mem, p, o) && ValueOf(o) == A.Action(rule, Values(os))
    ensures Turned(old(heap.mem), heap.mem, Foots(os), Foot(o))
  {
    PlainParts(rule, os);
    hide CAt, CTree, Meaning.Fits, Foots, Values, A.Action, Expected, RAt, CApart, AAt, AApart,
      OperatorsOwnNothing, AFoot, CFoot;
    Few(os);
    if rule == 30 {
      var pa;
      ghost var a;
      pa, a := heap.CreateArguments();
      p, o := Pointer(pa), Args(a);
    } else if rule == 14 {
      p, o := Pointer(NULL), Redir(NoR);
    } else if Passes(rule) {
      HeldOwned(heap.mem, ps[0], os[0]);
      p, o := ps[0], os[0];
    } else {
      p, o := Number(Separator(rule)), Num(Separator(rule));
    }
  }

  /** The action of any rule below `cmd_line`. */
  method Reduce(heap: Heap, rule: int, ps: seq<Ptr>, junk: nat, ghost os: seq<Owned>) returns (p: Ptr, ghost o: Owned)
    requires Expected(rule, os) && heap.Valid() && AllHeld(heap.mem, ps, os) && OperatorsOwnNothing(rule, os)
    modifies heap
    ensures heap.Valid() && Held(heap.mem, p, o) && ValueOf(o) == A.Action(rule, Values(os))
    ensures Turned(old(heap.mem), heap.mem, Foots(os), Foot(o))
  {
    PlainParts(rule, os);
    hide Held, AllHeld, ValueOf, Turned, Foots, Values, A.Action, OperatorsOwnNothing;
    if rule == 7 {
      p, o := ReduceSequence(heap, ps, os);
    } else if rule == 8 {
      p, o := ReduceLast(heap, ps, os);
    } else if rule == 10 {
      p, o := ReduceCommand(heap, ps, os);
    } else if rule == 13 || rule == 17 || rule == 18 {
      p, o := ReduceJoin(heap, rule, ps, os);
    } else if 19 <= rule <= 23 {
      p, o := ReduceFile(heap, rule, ps, os);
    } else if rule == 24 {
      p, o := ReducePipe(heap, ps, os);
    } else if rule == 29 {
      p, o := ReduceParameter(heap, ps, junk, os);
    } else {
      p, o := ReducePlain(heap, rule, ps, os);
    }
  }

  /* ---- a whole parse ---- */

  /** The symbols below `cmd_line`. */
  predicate Below(symbol: int) { 3 <= symbol <= 19 || 24 <= symbol <= 35 }

  lemma BelowRules(rule: int)
    requires IsRule(rule) && Below(Lhs(rule))
    ensures 5 <= rule && forall i | 0 <= i < |Rhs(rule)| :: Below(Rhs(rule)[i])
  {
  }

  /** What one more tree adds to what the others own. */
  lemma OneMore(os: seq<Owned>, o: Owned)
    ensures Foots(os + [o]) == Foots(os) + Foot(o)
    decreases |os|
  {
    hide Foot;
    if os == [] {
      assert [o][1..] == [];
    } else {
      assert (os + [o])[1..] == os[1..] + [o];
      OneMore(os[1..], o);
    }
  }

  lemma {:induction false} FootIn(os: seq<Owned>, i: nat)
    requires i < |os|
    ensures Foot(os[i]) <= Foots(os)
  {
    hide Foot;
    if i > 0 {
      FootIn(os[1..], i - 1);
    }
  }

  /** The values built so far are untouched by building the next. */
  lemma HeldWithNext(m0: Memory, m1: Memory, m2: Memory, ps: seq<Ptr>, os: seq<Owned>, p: Ptr, o: Owned)
    requires Turned(m0, m1, {}, Foots(os)) && AllHeld(m1, ps, os) && Turned(m1, m2, {}, Foot(o)) && Held(m2, p, o)
    ensures Turned(m0, m2, {}, Foots(os + [o])) && AllHeld(m2, ps + [p], os + [o])
  {
    OneMore(os, o);
    hide Foots, Held, Foot;
    forall i | 0 <= i < |os| ensures Held(m2, ps[i], os[i]) && Foot(os[i]) !! Foot(o) {
      HeldKept(m1, m2, {}, Foot(o), ps[i], os[i]);
    }
  }

  /**
   The parse of a derivation tree: the scanner allocates the text of a token, the actions run bottom up.
   What it builds says what the derivation means, and what it owns is all it allocated.
   */
  method Build(heap: Heap, t: Tree, junk: nat) returns (p: Ptr, ghost o: Owned)
    requires heap.Valid() && WellFormed(t) && Below(Symbol(t))
    modifies heap
    ensures heap.Valid() && Held(heap.mem, p, o) && ValueOf(o) == A.Sem(t)
    ensures Turned(old(heap.mem), heap.mem, {}, Foot(o))
    ensures 6 <= Symbol(t) <= 14 ==> o == Nothing
    decreases t
  {
    match t
    case Leaf(token) =>
      if A.HasText(token.kind) {
        var at := heap.Malloc(Chars(token.text));
        p, o := Pointer(at), Str(at, token.text);
      } else {
        p, o := Number(token.kind), Nothing;
      }
    case Node(rule, kids) =>
      p, o := BuildNode(heap, rule, kids, junk, t);
  }

  method BuildNode(heap: Heap, rule: int, kids: seq<Tree>, junk: nat, ghost t: Tree) returns (p: Ptr, ghost o: Owned)
    requires heap.Valid() && t == Node(rule, kids) && WellFormed(t) && Below(Symbol(t))
    modifies heap
    ensures heap.Valid() && Held(heap.mem, p, o) && ValueOf(o) == A.Sem(t)
    ensures Turned(old(heap.mem), heap.mem, {}, Foot(o))
    decreases t, 0
  {
    hide Rhs, Lhs, A.Action, Held, Foot, ValueOf, Turned, Meaning.Fits;
    BelowRules(rule);
    var ps := [];
    ghost var os := [];
    var n := 0;
    NothingYet(heap.mem);
    while n < |kids|
      invariant 0 <= n <= |kids| && heap.Valid() && AllHeld(heap.mem, ps, os) && |os| == n
      invariant Turned(old(heap.mem), heap.mem, {}, Foots(os))
      invariant forall i | 0 <= i < n ::
        && ValueOf(os[i]) == A.Sem(kids[i])
        && (6 <= Symbol(kids[i]) <= 14 ==> os[i] == Nothing)
    {
      ghost var m1 := heap.mem;
      var kid;
      ghost var owned;
      kid, owned := Build(heap, kids[n], junk);
      HeldWithNext(old(heap.mem), m1, heap.mem, ps, os, kid, owned);
      ps, os := ps + [kid], os + [owned];
      n := n + 1;
    }
    KidsFit(rule, kids, os);
    ghost var m1 := heap.mem;
    p, o := Reduce(heap, rule, ps, junk, os);
    TurnedTwice(old(heap.mem), m1, heap.mem, {}, Foots(os), Foot(o));
  }

  lemma NothingYet(mem: Memory)
    ensures Turned(mem, mem, {}, Foots([])) && AllHeld(mem, [], [])
  {
  }

  lemma KidsFit(rule: int, kids: seq<Tree>, os: seq<Owned>)
    requires WellFormed(Node(rule, kids)) && 5 <= rule && Below(Lhs(rule)) && |os| == |kids|
    requires forall i | 0 <= i < |os| ::
      && ValueOf(os[i]) == A.Sem(kids[i])
      && (6 <= Symbol(kids[i]) <= 14 ==> os[i] == Nothing)
    ensures Expected(rule, os) && OperatorsOwnNothing(rule, os) && A.Action(rule, Values(os)) == A.Sem(Node(rule, kids))
  {
    hide Rhs, Lhs, A.Action, Meaning.Fits, ValueOf;
    BelowRules(rule);
    forall i | 0 <= i < |os| ensures Meaning.Fits(Rhs(rule)[i], ValueOf(os[i])) {
      BelowNodes(kids[i]);
      Meaning.SemFits(kids[i]);
    }
    assert Values(os) == A.SemAll(kids);
  }

  lemma BelowNodes(t: Tree)
    requires WellFormed(t) && Below(Symbol(t))
    ensures t.Node? ==> 5 <= t.rule
  {
    if t.Node? {
      BelowRules(t.rule);
    }
  }

  lemma SequenceOwns(t: Tree, o: Owned)
    requires ValueOf(o) == A.Sem(t) && Meaning.Fits(25, A.Sem(t))
    ensures o.Cmd? && o.c.C?
  {
    hide Meaning.Buildable;
  }

  lemma Restored(m0: Memory, m1: Memory, m2: Memory, foot: set<nat>)
    requires Turned(m0, m1, {}, foot) && m2 == m1 - foot
    ensures m2 == m0
  {
  }
}
