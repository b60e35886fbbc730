/** command.c on a heap: every block is given out by `malloc` and may be freed once. */
module TreeHeap {
  import opened Bounds
  import opened Syntax
  import opened TreeShapes

  const DEFAULT_MAXARGS := 8

  /** A step turned the blocks `before` into the blocks `after` and left all others alone. */
  predicate Turned(old': Memory, new': Memory, before: set<nat>, after: set<nat>) {
    && new'.Keys == old'.Keys - before + after
    && after !! old'.Keys - before
    && SameOn(old', new', old'.Keys - before)
  }

  lemma CKept(old': Memory, new': Memory, before: set<nat>, after: set<nat>, s: CShape)
    requires Turned(old', new', before, after) && CAt(old', s) && CFoot(s) !! before
    ensures CAt(new', s) && CFoot(s) !! after && CFoot(s) <= old'.Keys
  {
    hide CAt, CFoot;
    CFrame(old', old', s);
    CFrame(old', new', s);
  }

  lemma RKept(old': Memory, new': Memory, before: set<nat>, after: set<nat>, s: RShape)
    requires Turned(old', new', before, after) && RAt(old', s) && RFoot(s) !! before
    ensures RAt(new', s) && RFoot(s) !! after && RFoot(s) <= old'.Keys
  {
    hide RAt, RFoot;
    RFrame(old', old', s);
    RFrame(old', new', s);
  }

  lemma AKept(old': Memory, new': Memory, before: set<nat>, after: set<nat>, a: ArgsShape)
    requires Turned(old', new', before, after) && AAt(old', a) && AFoot(a) !! before
    ensures AAt(new', a) && AFoot(a) !! after && AFoot(a) <= old'.Keys
  {
    hide AAt, AFoot;
    AFrame(old', old', a);
    AFrame(old', new', a);
  }

  class Heap {
    var mem: Memory

    ghost predicate Valid()
      reads this
    {
      NULL !in mem
    }

    method Malloc(b: Block) returns (a: nat)
      requires Valid()
      modifies this
      ensures Valid() && a != NULL && a !in old(mem) && mem == old(mem)[a := b]
      ensures Turned(old(mem), mem, {}, {a})
    {
      a := 1;
      ghost var bound := Above(mem.Keys) + 1;
      while a in mem
        invariant 1 <= a <= bound
        decreases bound - a
      {
        a := a + 1;
      }
      mem := mem[a := b];
    }

    method Free(a: nat)
      requires Valid() && a in mem
      modifies this
      ensures Valid() && mem == old(mem) - {a} && Turned(old(mem), mem, {a}, {})
    {
      mem := mem - {a};
    }

    /** `createArguments`: `calloc` leaves slot 0 empty, so `zArg` is never copied. */
    method CreateArguments() returns (pa: nat, ghost a: ArgsShape)
      requires Valid()
      modifies this
      ensures Valid() && AAt(mem, a) && AApart(a) && pa == a.node && a.args == [""]
      ensures Turned(old(mem), mem, {}, AFoot(a))
    {
      pa := Malloc(ArgsBlock(0, 0, NULL));
      var az := Malloc(Vector(seq(DEFAULT_MAXARGS + 1, i => NULL)));
      mem := mem[pa := ArgsBlock(1, DEFAULT_MAXARGS, az)];
      mem := mem[az := Vector(mem[az].slots[1 := NULL])];
      a := ArgsShape(pa, az, [NULL], [""]);
      assert mem[az].slots[..1] == a.texts;
    }

    /** `setArgument` on a slot in use; the parser sets slot 0. */
    method SetArgument(pa: nat, n: nat, zArg: string, ghost a: ArgsShape) returns (ghost a': ArgsShape)
      requires Valid() && AAt(mem, a) && AApart(a) && pa == a.node && n < |a.texts|
      modifies this
      ensures Valid() && AAt(mem, a') && AApart(a') && pa == a'.node && a'.args == a.args[n := zArg]
      ensures Turned(old(mem), mem, AFoot(a), AFoot(a'))
    {
      SlotIs(mem, a, n);
      hide AFoot, AApart, AAt, Turned;
      var az := mem[pa].azArgs;
      var was := mem[az].slots[n];
      if was != NULL {
        Free(was);
      }
      var text := Malloc(Chars(zArg));
      a' := a.(texts := a.texts[n := text], args := a.args[n := zArg]);
      SlotSet(old(mem), a, n, text, zArg);
      SlotTurned(old(mem), a, n, text, zArg);
      mem := mem[az := Vector(mem[az].slots[n := text])];
    }

    /** `realloc` of a slot array: the contents move, the new slots hold anything. */
    method Realloc(az: nat, size: nat, junk: nat) returns (az': nat)
      requires Valid() && az in mem && mem[az].Vector? && |mem[az].slots| <= size
      modifies this
      ensures Valid() && az' != NULL && az' !in old(mem).Keys - {az}
      ensures mem == (old(mem) - {az})[az' := Vector(Stretched(old(mem)[az].slots, size, junk))]
    {
      var slots := mem[az].slots;
      Free(az);
      az' := Malloc(Vector(Stretched(slots, size, junk)));
    }

    /** The first half of `appendArgument`: room for one more. */
    method Grow(pa: nat, ghost a: ArgsShape, junk: nat) returns (ghost a': ArgsShape)
      requires Valid() && AAt(mem, a) && AApart(a) && pa == a.node
      modifies this
      ensures Valid() && AAt(mem, a') && AApart(a') && pa == a'.node && a'.args == a.args && a'.texts == a.texts
      ensures mem[pa].nArgs < mem[pa].nMaxArgs
      ensures Turned(old(mem), mem, AFoot(a), AFoot(a'))
    {
      a' := a;
      if mem[pa].nArgs == mem[pa].nMaxArgs {
        var most, az := 2 * mem[pa].nMaxArgs, mem[pa].azArgs;
        FootWithVector(a, az);
        mem := mem[pa := mem[pa].(nMaxArgs := most)];
        var az' := Realloc(az, most + 1, junk);
        a' := a.(az := az');
        FootWithVector(a, az');
        mem := mem[pa := mem[pa].(azArgs := az')];
        Moved(old(mem), a, az', most, junk);
        hide AFoot, AApart, AAt, SameOn, Stretched;
      } else {
        AFrame(mem, mem, a);
      }
    }

    /** `appendArgument`. */
    method AppendArgument(pa: nat, zArg: nat, junk: nat, ghost a: ArgsShape, ghost text: string)
      returns (ghost a': ArgsShape)
      requires Valid() && AAt(mem, a) && AApart(a) && pa == a.node
      requires TextAt(mem, zArg, text) && zArg !in AFoot(a)
      modifies this
      ensures Valid() && AAt(mem, a') && AApart(a') && pa == a'.node && a'.args == a.args + [text]
      ensures Turned(old(mem), mem, AFoot(a), AFoot(a'))
    {
      hide AApart, Turned, SameOn;
      ghost var grown := Grow(pa, a, junk);
      TextKept(old(mem), mem, AFoot(a), AFoot(grown), zArg, text);
      ghost var before := mem;
      var copy := Malloc(Chars(mem[zArg].text));
      var az, n := mem[pa].azArgs, mem[pa].nArgs;
      a' := Added(before, grown, copy, text);
      mem := mem[az := Vector(mem[az].slots[n := copy][n + 1 := NULL])];
      mem := mem[pa := mem[pa].(nArgs := n + 1)];
      TurnedTwice(old(mem), before, mem, AFoot(a), AFoot(grown), AFoot(a'));
    }

    /** `createCommand`: the name is copied, what the pointers lead to is taken over. */
    method CreateCommand(zCommand: nat, pa: nat, fBackground: bool, prRedirects: nat, pcNext: nat,
                         ghost name: string, ghost a: ArgsShape, ghost r: RShape, ghost next: CShape)
      returns (pc: nat, ghost s: CShape)
      requires Valid() && TextAt(mem, zCommand, name)
      requires AAt(mem, a) && AApart(a) && pa == a.node && RAt(mem, r) && RApart(r) && prRedirects == RAddr(r)
      requires CAt(mem, next) && CApart(next) && pcNext == CAddr(next)
      requires AFoot(a) !! RFoot(r) && AFoot(a) !! CFoot(next) && RFoot(r) !! CFoot(next)
      modifies this
      ensures Valid() && CAt(mem, s) && CApart(s) && s.C? && pc == s.node
      ensures CTree(s) == Some(Command(name, a.args, fBackground, RTree(r), CTree(next)))
      ensures Turned(old(mem), mem, AFoot(a) + RFoot(r) + CFoot(next), CFoot(s))
    {
      hide AAt, AApart, RAt, RApart, AFoot, RFoot, SameOn, RTree, CAt, CApart, CFoot, CTree, Turned;
      ghost var m0 := mem;
      pc := Malloc(CommandBlock(NULL, false, NULL, NULL, NULL));
      var zCmd := Malloc(Chars(mem[zCommand].text));
      mem := mem[pc := CommandBlock(zCmd, fBackground, pa, prRedirects, pcNext)];
      s := C(pc, zCmd, name, fBackground, a, r, next);
      CommandMade(m0, mem, s);
    }

    /** `createRedirect` to or from a file. */
    method CreateFileRedirect(fType: Kind, p: nat, prNext: nat, ghost file: string, ghost next: RShape)
      returns (pr: nat, ghost s: RShape)
      requires Valid() && TextAt(mem, p, file) && !fType.PIPE? && !fType.PIPE_ERROR?
      requires RAt(mem, next) && RApart(next) && prNext == RAddr(next)
      modifies this
      ensures Valid() && RAt(mem, s) && RApart(s) && pr == RAddr(s) != NULL
        && RTree(s) == File(fType, file, RTree(next))
      ensures Turned(old(mem), mem, RFoot(next), RFoot(s))
    {
      hide RAt, RApart, RFoot, RTree;
      RFrame(mem, mem, next);
      pr := Malloc(RedirectBlock(fType, NULL, NULL));
      var copy := Malloc(Chars(mem[p].text));
      mem := mem[pr := RedirectBlock(fType, copy, prNext)];
      s := F(pr, fType, copy, file, next);
      FileMade(old(mem), mem, s);
    }

    /** `createRedirect` into a command. */
    method CreatePipeRedirect(fType: Kind, p: nat, prNext: nat, ghost c: CShape, ghost next: RShape)
      returns (pr: nat, ghost s: RShape)
      requires Valid() && (fType.PIPE? || fType.PIPE_ERROR?) && c.C? && CAt(mem, c) && CApart(c) && p == c.node
      requires RAt(mem, next) && RApart(next) && prNext == RAddr(next) && CFoot(c) !! RFoot(next)
      modifies this
      ensures Valid() && RAt(mem, s) && RApart(s) && pr == RAddr(s) != NULL
      ensures RTree(s) == Pipe(fType, CTree(c).command, RTree(next))
      ensures Turned(old(mem), mem, CFoot(c) + RFoot(next), RFoot(s))
    {
      hide CAt, CApart, CFoot, CTree, RAt, RApart, RFoot, RTree;
      CFrame(mem, mem, c);
      RFrame(mem, mem, next);
      pr := Malloc(RedirectBlock(fType, p, prNext));
      s := P(pr, fType, c, next);
      PipeMade(old(mem), mem, s);
    }

    /** `appendCommand`: the loop to the end of the list, and the link. */
    method AppendCommand(pc1: nat, pc2: nat, ghost s: CShape, ghost t: CShape)
      requires Valid() && s.C? && t.C? && CAt(mem, s) && CAt(mem, t) && CApart(s) && CApart(t) && CFoot(s) !! CFoot(t)
      requires pc1 == s.node && pc2 == t.node
      modifies this
      ensures Valid() && CAt(mem, CAppend(s, t)) && CApart(CAppend(s, t)) && CAddr(CAppend(s, t)) == pc1
      ensures CTree(CAppend(s, t)) == Some(Actions.AppendCommand(CTree(s).command, CTree(t).command))
      ensures Turned(old(mem), mem, CFoot(s) + CFoot(t), CFoot(CAppend(s, t)))
    {
      hide AAt, RAt, AApart, RApart, AFoot, RFoot, CFoot, CTree, CApart;
      CAppended(mem, s, t);
      CAppendFoot(s, t);
      CAppendTree(s, t);
      CFrame(mem, mem, s);
      CFrame(mem, mem, t);
      var pc := pc1;
      ghost var cur := s;
      while mem[pc].pcNext != NULL
        invariant cur.C? && CAt(mem, cur) && pc == cur.node && CLast(cur) == CLast(s)
        modifies {}
        decreases cur
      {
        pc := mem[pc].pcNext;
        cur := cur.next;
      }
      assert cur.next.NoC?;
      mem := mem[pc := mem[pc].(pcNext := pc2)];
    }

    /** `appendRedirect`. */
    method AppendRedirect(pr1: nat, pr2: nat, ghost s: RShape, ghost t: RShape)
      requires Valid() && !s.NoR? && !t.NoR? && RAt(mem, s) && RAt(mem, t) && RApart(s) && RApart(t)
        && RFoot(s) !! RFoot(t)
      requires pr1 == RAddr(s) && pr2 == RAddr(t)
      modifies this
      ensures Valid() && RAt(mem, RAppend(s, t)) && RApart(RAppend(s, t)) && RAddr(RAppend(s, t)) == pr1
      ensures RTree(RAppend(s, t)) == Actions.AppendRedirect(RTree(s), RTree(t))
      ensures Turned(old(mem), mem, RFoot(s) + RFoot(t), RFoot(RAppend(s, t)))
    {
      hide CAt, RFoot, RTree, RApart;
      RAppended(mem, s, t);
      RAppendFoot(s, t);
      RAppendTree(s, t);
      RFrame(mem, mem, s);
      RFrame(mem, mem, t);
      var pr := pr1;
      ghost var cur := s;
      while mem[pr].prNext != NULL
        invariant !cur.NoR? && RAt(mem, cur) && pr == RAddr(cur) && RLast(cur) == RLast(s)
        modifies {}
        decreases cur
      {
        pr := mem[pr].prNext;
        cur := cur.next;
      }
      assert cur.next.NoR?;
      mem := mem[pr := mem[pr].(prNext := pr2)];
    }

    /* ---- freeing ---- */

    /** `destroyArguments`. */
    method DestroyArguments(pa: nat, ghost a: ArgsShape)
      requires Valid() && AAt(mem, a) && AApart(a) && pa == a.node
      modifies this
      ensures Valid() && mem == old(mem) - AFoot(a)
    {
      AFrame(mem, mem, a);
      var i := 0;
      FreedNone(mem, a);
      while i < mem[pa].nArgs
        invariant Valid() && 0 <= i <= |a.texts| && mem == FreedTo(old(mem), a, i)
      {
        FreedMore(old(mem), a, i);
        var az := mem[pa].azArgs;
        if mem[az].slots[i] != NULL {
          Free(mem[az].slots[i]);
          mem := mem[az := Vector(mem[az].slots[i := NULL])];
        }
        i := i + 1;
      }
      FreedAll(old(mem), a);
      Free(mem[pa].azArgs);
      Free(pa);
    }

    /** `destroyCommand`. */
    method DestroyCommand(pc: nat, ghost s: CShape)
      requires Valid() && s.C? && CAt(mem, s) && CApart(s) && pc == s.node
      modifies this
      ensures Valid() && mem == old(mem) - CFoot(s)
      decreases s, 1
    {
      hide AAt, RAt, CFoot, RFoot, AFoot, CApart, RApart, AApart, Gone;
      CParts(s);
      ghost var foot := {s.nameAt};
      Free(mem[pc].zCmd);
      mem := mem[pc := mem[pc].(zCmd := NULL)];
      GoneFirst(old(mem), mem, pc, s.nameAt);
      GoneKeepsC(old(mem), mem, pc, foot, s.next);
      if mem[pc].pcNext != NULL {
        GoneMore(old(mem), mem, pc, foot, CFoot(s.next));
        DestroyCommand(mem[pc].pcNext, s.next);
        GoneWritten(old(mem), mem, pc, foot + CFoot(s.next), mem[pc].(pcNext := NULL));
        mem := mem[pc := mem[pc].(pcNext := NULL)];
      } else {
        assert foot + CFoot(s.next) == foot;
      }
      GoneLast(old(mem), mem, pc, foot + CFoot(s.next));
      DestroyRest(pc, s, old(mem), foot + CFoot(s.next));
      assert foot + CFoot(s.next) + RFoot(s.redirs) + AFoot(s.pa) + {pc} == CFoot(s);
    }

    /** The second half of `destroyCommand`: redirects, arguments, the command itself. */
    method DestroyRest(pc: nat, ghost s: CShape, ghost was: Memory, ghost foot: set<nat>)
      requires Valid() && s.C? && CAt(was, s) && CApart(s) && pc == s.node
      requires Gone(was, mem, pc, foot) && pc !in foot && foot !! RFoot(s.redirs) && foot !! AFoot(s.pa)
      requires pc in mem && mem[pc] == CommandBlock(NULL, s.background, s.pa.node, RAddr(s.redirs), NULL)
      modifies this
      ensures Valid() && mem == was - (foot + RFoot(s.redirs) + AFoot(s.pa) + {pc})
      decreases s, 0
    {
      hide AAt, RAt, CFoot, RFoot, AFoot, CApart, RApart, AApart, Gone;
      CParts(s);
      ghost var gone := foot + RFoot(s.redirs);
      GoneKeepsR(was, mem, pc, foot, s.redirs);
      if mem[pc].prRedirects != NULL {
        GoneMore(was, mem, pc, foot, RFoot(s.redirs));
        DestroyRedirect(mem[pc].prRedirects, s.redirs);
        GoneWritten(was, mem, pc, gone, mem[pc].(prRedirects := NULL));
        mem := mem[pc := mem[pc].(prRedirects := NULL)];
      } else {
        assert gone == foot;
      }
      GoneKeepsA(was, mem, pc, gone, s.pa);
      GoneMore(was, mem, pc, gone, AFoot(s.pa));
      DestroyArguments(mem[pc].pa, s.pa);
      GoneWritten(was, mem, pc, gone + AFoot(s.pa), mem[pc].(pa := NULL));
      mem := mem[pc := mem[pc].(pa := NULL)];
      GoneLast(was, mem, pc, gone + AFoot(s.pa));
      Free(pc);
    }

    /** `destroyRedirect`. */
    method DestroyRedirect(pr: nat, ghost s: RShape)
      requires Valid() && !s.NoR? && RAt(mem, s) && RApart(s) && pr == RAddr(s)
      modifies this
      ensures Valid() && mem == old(mem) - RFoot(s)
      decreases s, 1
    {
      hide CAt, CFoot, CApart, Gone;
      ghost var foot := {};
      GoneNone(old(mem), pr);
      if mem[pr].prNext != NULL {
        GoneMore(old(mem), mem, pr, foot, RFoot(s.next));
        DestroyRedirect(mem[pr].prNext, s.next);
        GoneWritten(old(mem), mem, pr, foot + RFoot(s.next), mem[pr].(prNext := NULL));
        mem := mem[pr := mem[pr].(prNext := NULL)];
      } else {
        GoneKeepsR(old(mem), mem, pr, foot, s.next);
      }
      assert foot + RFoot(s.next) == RFoot(s.next);
      foot := RFoot(s.next);
      if mem[pr].fType.PIPE? || mem[pr].fType.PIPE_ERROR? {
        GoneKeepsC(old(mem), mem, pr, foot, s.command);
        GoneMore(old(mem), mem, pr, foot, CFoot(s.command));
        DestroyCommand(mem[pr].target, s.command);
        foot := foot + CFoot(s.command);
      } else {
        GoneMore(old(mem), mem, pr, foot, {s.fileAt});
        Free(mem[pr].target);
        foot := foot + {s.fileAt};
      }
      GoneLast(old(mem), mem, pr, foot);
      Free(pr);
      assert foot + {pr} == RFoot(s);
    }
  }

  /** All of `freed` is gone, and but for `p` the rest is as it was. */
  ghost predicate Gone(old': Memory, cur: Memory, p: nat, freed: set<nat>) {
    p in cur && cur.Keys == old'.Keys - freed && forall x | x in cur && x != p :: cur[x] == old'[x]
  }

  lemma GoneNone(mem: Memory, p: nat)
    requires p in mem
    ensures Gone(mem, mem, p, {})
  {
  }

  lemma GoneFirst(old': Memory, cur: Memory, p: nat, a: nat)
    requires p in cur && cur == (old' - {a})[p := cur[p]] && p in old' && p != a
    ensures Gone(old', cur, p, {a})
  {
  }

  lemma GoneMore(old': Memory, cur: Memory, p: nat, freed: set<nat>, more: set<nat>)
    requires Gone(old', cur, p, freed) && p !in more
    ensures p in cur - more && (cur - more)[p] == cur[p] && Gone(old', cur - more, p, freed + more)
  {
  }

  lemma GoneWritten(old': Memory, cur: Memory, p: nat, freed: set<nat>, b: Block)
    requires Gone(old', cur, p, freed)
    ensures Gone(old', cur[p := b], p, freed)
  {
  }

  lemma GoneLast(old': Memory, cur: Memory, p: nat, freed: set<nat>)
    requires Gone(old', cur, p, freed)
    ensures p in cur && cur - {p} == old' - (freed + {p})
  {
  }

  lemma GoneKeepsC(old': Memory, cur: Memory, p: nat, freed: set<nat>, s: CShape)
    requires Gone(old', cur, p, freed) && CAt(old', s) && CFoot(s) !! freed && p !in CFoot(s)
    ensures CAt(cur, s) && (s.NoC? ==> CFoot(s) == {}) && (CAddr(s) != NULL <==> s.C?)
  {
    CFrame(old', old', s);
    CFrame(old', cur, s);
    hide AFoot, AAt, RFoot, RAt;
  }

  lemma GoneKeepsR(old': Memory, cur: Memory, p: nat, freed: set<nat>, s: RShape)
    requires Gone(old', cur, p, freed) && RAt(old', s) && RFoot(s) !! freed && p !in RFoot(s)
    ensures RAt(cur, s) && (s.NoR? ==> RFoot(s) == {}) && (RAddr(s) != NULL <==> !s.NoR?)
  {
    RFrame(old', old', s);
    RFrame(old', cur, s);
    hide CFoot, CAt;
  }

  lemma GoneKeepsA(old': Memory, cur: Memory, p: nat, freed: set<nat>, a: ArgsShape)
    requires Gone(old', cur, p, freed) && AAt(old', a) && AFoot(a) !! freed && p !in AFoot(a)
    ensures AAt(cur, a)
  {
    hide AAt, AFoot;
    AFrame(old', old', a);
    AFrame(old', cur, a);
  }

  /* The vector with its first strings freed. */

  function FreedSlots(slots: seq<nat>, i: nat): (r: seq<nat>)
    requires i <= |slots|
    ensures |r| == |slots| && forall k | 0 <= k < |r| :: r[k] == if k < i then NULL else slots[k]
  {
    seq(|slots|, k requires 0 <= k < |slots| => if k < i then NULL else slots[k])
  }

  function FirstTexts(a: ArgsShape, i: nat): set<nat>
    requires i <= |a.texts|
  {
    set k | 0 <= k < i && a.texts[k] != NULL :: a.texts[k]
  }

  function FreedTo(mem: Memory, a: ArgsShape, i: nat): Memory
    requires AAt(mem, a) && i <= |a.texts|
  {
    (mem - FirstTexts(a, i))[a.az := Vector(FreedSlots(mem[a.az].slots, i))]
  }

  lemma FreedNone(mem: Memory, a: ArgsShape)
    requires AAt(mem, a)
    ensures FreedTo(mem, a, 0) == mem
  {
    assert FreedSlots(mem[a.az].slots, 0) == mem[a.az].slots;
    assert FirstTexts(a, 0) == {};
  }

  lemma FreedMore(mem: Memory, a: ArgsShape, i: nat)
    requires AAt(mem, a) && AApart(a) && i < |a.texts|
    ensures var now := FreedTo(mem, a, i);
      && a.node in now && now[a.node] == mem[a.node] && a.az in now && now[a.az].Vector?
      && i < |now[a.az].slots| && now[a.az].slots[i] == a.texts[i]
      && FreedTo(mem, a, i + 1) ==
        (if a.texts[i] == NULL then now else (now - {a.texts[i]})[a.az := Vector(now[a.az].slots[i := NULL])])
      && (a.texts[i] != NULL ==>
            && a.texts[i] in now && a.az in now - {a.texts[i]}
            && (now - {a.texts[i]})[a.az] == now[a.az])
  {
    var slots := mem[a.az].slots;
    assert slots[i] == slots[..|a.texts|][i];
    assert FreedSlots(slots, i + 1) == FreedSlots(slots, i)[i := NULL];
    assert FirstTexts(a, i + 1) == FirstTexts(a, i) + (if a.texts[i] == NULL then {} else {a.texts[i]});
    if a.texts[i] != NULL {
      assert TextAt(mem, a.texts[i], a.args[i]);
    } else {
      assert FreedSlots(slots, i)[i := NULL] == FreedSlots(slots, i);
    }
  }

  lemma FreedAll(mem: Memory, a: ArgsShape)
    requires AAt(mem, a) && AApart(a)
    ensures var now := FreedTo(mem, a, |a.texts|);
      && a.node in now && now[a.node] == mem[a.node] && a.az in now
      && now - {a.az} - {a.node} == mem - AFoot(a)
  {
    assert AFoot(a) == {a.node, a.az} + FirstTexts(a, |a.texts|);
  }

  /** Nothing that was there has changed. */
  lemma Untouched(old': Memory, new': Memory)
    requires forall x | x in old' :: x in new' && new'[x] == old'[x]
    ensures forall foot: set<nat> :: SameOn(old', new', foot)
  {
  }

  lemma TurnedWith(old': Memory, new': Memory, foot: set<nat>, more: set<nat>)
    requires foot <= old'.Keys && more !! old'.Keys && new'.Keys == old'.Keys + more
    requires forall x | x in old' :: x in new' && new'[x] == old'[x]
    ensures Turned(old', new', foot, foot + more) && Turned(old', new', foot, more + foot)
  {
  }

  function Stretched(slots: seq<nat>, size: nat, junk: nat): (r: seq<nat>)
    requires |slots| <= size
    ensures |r| == size && r[..|slots|] == slots
  {
    slots + seq(size - |slots|, i => junk)
  }

  lemma TextKept(old': Memory, new': Memory, before: set<nat>, after: set<nat>, a: nat, text: string)
    requires Turned(old', new', before, after) && TextAt(old', a, text) && a !in before
    ensures TextAt(new', a, text) && a !in after
  {
  }

  lemma TurnedTwice(m0: Memory, m1: Memory, m2: Memory, a: set<nat>, b: set<nat>, c: set<nat>)
    requires Turned(m0, m1, a, b) && Turned(m1, m2, b, c) && a <= m0.Keys
    ensures Turned(m0, m2, a, c)
  {
  }

  /** Moving the slots changes one address. */
  lemma FootWithVector(a: ArgsShape, az: nat)
    requires AApart(a)
    ensures AFoot(a.(az := az)) == AFoot(a) - {a.az} + {az}
  {
    var b := a.(az := az);
    forall x | x in AFoot(a) && x != a.az ensures x in AFoot(b) {
      if x != a.node {
        var i :| 0 <= i < |a.texts| && a.texts[i] == x;
        assert b.texts[i] == x;
      }
    }
    forall x | x in AFoot(b) && x != az ensures x in AFoot(a) && x != a.az {
      if x != a.node {
        var i :| 0 <= i < |b.texts| && b.texts[i] == x;
        assert a.texts[i] == x;
      }
    }
  }

  /** The vector after `realloc`. */
  lemma Moved(mem: Memory, a: ArgsShape, az: nat, most: nat, junk: nat)
    requires NULL !in mem && AAt(mem, a) && AApart(a) && az != NULL && az !in mem.Keys - {a.az}
    requires most >= mem[a.node].nMaxArgs
    ensures mem[a.az].Vector? && |mem[a.az].slots| <= most + 1
    ensures var widened := mem[a.node := mem[a.node].(nMaxArgs := most)];
      var moved := (widened - {a.az})[az := Vector(Stretched(mem[a.az].slots, most + 1, junk))];
      var end := moved[a.node := widened[a.node].(azArgs := az)];
      AAt(end, a.(az := az)) && AApart(a.(az := az))
  {
    var b := a.(az := az);
    var widened := mem[a.node := mem[a.node].(nMaxArgs := most)];
    var slots := Stretched(mem[a.az].slots, most + 1, junk);
    var moved := (widened - {a.az})[az := Vector(slots)];
    var end := moved[a.node := widened[a.node].(azArgs := az)];
    assert slots[..|a.texts|] == mem[a.az].slots[..|a.texts|];
    assert slots[|a.texts|] == slots[..|mem[a.az].slots|][|a.texts|];
    forall i | 0 <= i < |b.texts|
      ensures if b.texts[i] == NULL then i == 0 && b.args[i] == "" else TextAt(end, b.texts[i], b.args[i])
      ensures b.texts[i] == NULL || b.texts[i] != az
    {
      assert if a.texts[i] == NULL then i == 0 && a.args[i] == "" else TextAt(mem, a.texts[i], a.args[i]);
    }
  }

  /** The vector with one more string. */
  lemma Added(mem: Memory, a: ArgsShape, copy: nat, text: string) returns (b: ArgsShape)
    requires NULL !in mem && AAt(mem, a) && AApart(a) && mem[a.node].nArgs < mem[a.node].nMaxArgs
    requires copy != NULL && copy !in mem
    ensures b == ArgsShape(a.node, a.az, a.texts + [copy], a.args + [text])
    ensures var n := mem[a.node].nArgs;
      && mem[a.az].Vector? && n + 1 < |mem[a.az].slots|
      && var m1 := mem[copy := Chars(text)];
        var m2 := m1[a.az := Vector(m1[a.az].slots[n := copy][n + 1 := NULL])];
        var m3 := m2[a.node := m2[a.node].(nArgs := n + 1)];
        AAt(m3, b) && AApart(b) && Turned(mem, m3, AFoot(a), AFoot(b))
  {
    b := ArgsShape(a.node, a.az, a.texts + [copy], a.args + [text]);
    var n := mem[a.node].nArgs;
    var m1 := mem[copy := Chars(text)];
    var m2 := m1[a.az := Vector(m1[a.az].slots[n := copy][n + 1 := NULL])];
    var m3 := m2[a.node := m2[a.node].(nArgs := n + 1)];
    AddedAt(mem, a, copy, text, m3);
    AddedFoot(a, copy);
    AFrame(mem, mem, a);
    hide AFoot, AAt, AApart;
    AddedTurned(mem, m3, a, b, copy);
  }

  lemma AddedAt(mem: Memory, a: ArgsShape, copy: nat, text: string, m3: Memory)
    requires NULL !in mem && AAt(mem, a) && AApart(a) && mem[a.node].nArgs < mem[a.node].nMaxArgs
    requires copy != NULL && copy !in mem
    requires
      var n := |a.texts|;
      m3 == mem[copy := Chars(text)][a.az := Vector(mem[a.az].slots[n := copy][n + 1 := NULL])][
              a.node := mem[a.node].(nArgs := n + 1)]
    ensures AAt(m3, ArgsShape(a.node, a.az, a.texts + [copy], a.args + [text]))
    ensures AApart(ArgsShape(a.node, a.az, a.texts + [copy], a.args + [text]))
  {
    var b := ArgsShape(a.node, a.az, a.texts + [copy], a.args + [text]);
    assert m3[a.az].slots[..|b.texts|] == b.texts by {
      assert mem[a.az].slots[..|a.texts|] == a.texts;
    }
    forall i | 0 <= i < |b.texts|
      ensures if b.texts[i] == NULL then i == 0 && b.args[i] == "" else TextAt(m3, b.texts[i], b.args[i])
      ensures i < |a.texts| ==> b.texts[i] != copy
    {
      if i < |a.texts| {
        assert if a.texts[i] == NULL then i == 0 && a.args[i] == "" else TextAt(mem, a.texts[i], a.args[i]);
      }
    }
  }

  lemma AddedFoot(a: ArgsShape, copy: nat)
    requires copy != NULL
    ensures AFoot(a.(texts := a.texts + [copy])) == AFoot(a) + {copy}
    ensures a.node in AFoot(a) && a.az in AFoot(a)
  {
    var b := a.(texts := a.texts + [copy]);
    forall i | 0 <= i < |a.texts| ensures b.texts[i] == a.texts[i] {
    }
    assert b.texts[|a.texts|] == copy;
  }

  lemma AddedTurned(mem: Memory, m3: Memory, a: ArgsShape, b: ArgsShape, copy: nat)
    requires AFoot(b) == AFoot(a) + {copy} && AFoot(a) <= mem.Keys && copy !in mem && m3.Keys == mem.Keys + {copy}
    requires a.az in AFoot(a) && a.node in AFoot(a)
    requires forall x | x in mem && x != a.az && x != a.node :: m3[x] == mem[x]
    ensures Turned(mem, m3, AFoot(a), AFoot(b))
  {
    hide AFoot;
  }

  lemma SlotIs(mem: Memory, a: ArgsShape, n: nat)
    requires AAt(mem, a) && n < |a.texts|
    ensures a.node in mem && mem[a.node].ArgsBlock? && mem[a.node].azArgs == a.az && a.az in mem && mem[a.az].Vector?
    ensures mem[a.az].slots[n] == a.texts[n] && n < |mem[a.az].slots| && a.az in AFoot(a)
    ensures a.texts[n] != NULL ==> a.texts[n] in mem && a.texts[n] in AFoot(a)
  {
    assert mem[a.az].slots[n] == mem[a.az].slots[..|a.texts|][n];
    assert a.texts[n] != NULL ==> TextAt(mem, a.texts[n], a.args[n]);
  }

  /** A slot that changes hands changes what the vector owns. */
  lemma FootWithSlot(a: ArgsShape, n: nat, text: nat)
    requires AApart(a) && n < |a.texts|
    ensures AFoot(a.(texts := a.texts[n := text])) ==
      AFoot(a) - (if a.texts[n] != NULL then {a.texts[n]} else {}) + (if text != NULL then {text} else {})
  {
    var b := a.(texts := a.texts[n := text]);
    forall x | x in AFoot(a) && x != a.texts[n] ensures x in AFoot(b) {
      if x != a.node && x != a.az {
        var i :| 0 <= i < |a.texts| && a.texts[i] == x;
        assert b.texts[i] == x;
      }
    }
    if text != NULL {
      assert b.texts[n] == text;
    }
  }

  /** The vector with a new string in slot `n`, the old one freed. */
  lemma SlotSet(mem: Memory, a: ArgsShape, n: nat, text: nat, zArg: string)
    requires NULL !in mem && AAt(mem, a) && AApart(a) && n < |a.texts| && text != NULL
    requires text !in mem || text == a.texts[n]
    ensures var was := a.texts[n];
      var freed := if was == NULL then mem else mem - {was};
      var b := a.(texts := a.texts[n := text], args := a.args[n := zArg]);
      var now := freed[text := Chars(zArg)];
      && a.az in now && now[a.az] == mem[a.az] && n < |mem[a.az].slots|
      && AAt(now[a.az := Vector(now[a.az].slots[n := text])], b) && AApart(b)
  {
    SlotIs(mem, a, n);
    var was := a.texts[n];
    var freed := if was == NULL then mem else mem - {was};
    var b := a.(texts := a.texts[n := text], args := a.args[n := zArg]);
    var now := freed[text := Chars(zArg)];
    var end := now[a.az := Vector(now[a.az].slots[n := text])];
    assert end[a.az].slots[..|b.texts|] == b.texts;
    forall i | 0 <= i < |b.texts| && i != n
      ensures if b.texts[i] == NULL then i == 0 && b.args[i] == "" else TextAt(end, b.texts[i], b.args[i])
    {
      assert if a.texts[i] == NULL then i == 0 && a.args[i] == "" else TextAt(mem, a.texts[i], a.args[i]);
    }
  }

  lemma SlotTurned(mem: Memory, a: ArgsShape, n: nat, text: nat, zArg: string)
    requires AAt(mem, a) && AApart(a) && n < |a.texts| && text != NULL
    requires text !in mem || text == a.texts[n]
    ensures var was := a.texts[n];
      var now := (if was == NULL then mem else mem - {was})[text := Chars(zArg)];
      a.az in now && now[a.az].Vector? && n < |now[a.az].slots| &&
      Turned(mem, now[a.az := Vector(now[a.az].slots[n := text])], AFoot(a), AFoot(a.(texts := a.texts[n := text])))
  {
    SlotIs(mem, a, n);
    FootWithSlot(a, n, text);
    AFrame(mem, mem, a);
    assert a.texts[n] != a.az;
    hide AFoot, AAt, AApart;
  }

  /** A new command over what it takes. */
  lemma CommandMade(m0: Memory, m1: Memory, s: CShape)
    requires s.C? && s.node != NULL && s.nameAt != NULL && NULL !in m1 && s.node != s.nameAt
    requires s.node !in m0 && s.nameAt !in m0 && m1.Keys == m0.Keys + {s.node, s.nameAt}
    requires forall x | x in m0 :: m1[x] == m0[x]
    requires m1[s.node] == CommandBlock(s.nameAt, s.background, s.pa.node, RAddr(s.redirs), CAddr(s.next))
    requires m1[s.nameAt] == Chars(s.name)
    requires AAt(m0, s.pa) && AApart(s.pa) && RAt(m0, s.redirs) && RApart(s.redirs) && CAt(m0, s.next) && CApart(s.next)
    requires AFoot(s.pa) !! RFoot(s.redirs) && AFoot(s.pa) !! CFoot(s.next) && RFoot(s.redirs) !! CFoot(s.next)
    ensures CAt(m1, s) && CApart(s)
    ensures CTree(s) == Some(Command(s.name, s.pa.args, s.background, RTree(s.redirs), CTree(s.next)))
    ensures Turned(m0, m1, AFoot(s.pa) + RFoot(s.redirs) + CFoot(s.next), CFoot(s))
  {
    hide AAt, AApart, RAt, RApart, AFoot, RFoot, SameOn;
    Untouched(m0, m0);
    Untouched(m0, m1);
    AFrame(m0, m0, s.pa);
    RFrame(m0, m0, s.redirs);
    CFrame(m0, m0, s.next);
    AFrame(m0, m1, s.pa);
    RFrame(m0, m1, s.redirs);
    CFrame(m0, m1, s.next);
    TurnedWith(m0, m1, AFoot(s.pa) + RFoot(s.redirs) + CFoot(s.next), {s.node, s.nameAt});
    hide CAt, CApart;
    assert {s.node, s.nameAt} + (AFoot(s.pa) + RFoot(s.redirs) + CFoot(s.next)) == CFoot(s);
  }

  lemma FileMade(m0: Memory, m1: Memory, s: RShape)
    requires s.F? && s.node != NULL && s.fileAt != NULL && NULL !in m1 && s.node != s.fileAt
    requires s.node !in m0 && s.fileAt !in m0 && m1.Keys == m0.Keys + {s.node, s.fileAt}
    requires forall x | x in m0 :: m1[x] == m0[x]
    requires m1[s.node] == RedirectBlock(s.kind, s.fileAt, RAddr(s.next)) && m1[s.fileAt] == Chars(s.file)
    requires !s.kind.PIPE? && !s.kind.PIPE_ERROR? && RAt(m0, s.next) && RApart(s.next)
    ensures RAt(m1, s) && RApart(s) && Turned(m0, m1, RFoot(s.next), RFoot(s))
    ensures RAddr(s) == s.node && RTree(s) == File(s.kind, s.file, RTree(s.next))
  {
    hide SameOn;
    Untouched(m0, m0);
    Untouched(m0, m1);
    RFrame(m0, m0, s.next);
    RFrame(m0, m1, s.next);
    TurnedWith(m0, m1, RFoot(s.next), {s.node, s.fileAt});
  }

  lemma PipeMade(m0: Memory, m1: Memory, s: RShape)
    requires s.P? && s.node != NULL && NULL !in m1 && s.node !in m0 && m1.Keys == m0.Keys + {s.node}
    requires forall x | x in m0 :: m1[x] == m0[x]
    requires m1[s.node] == RedirectBlock(s.kind, CAddr(s.command), RAddr(s.next)) && s.command.C?
    requires (s.kind.PIPE? || s.kind.PIPE_ERROR?) && CAt(m0, s.command) && CApart(s.command)
    requires RAt(m0, s.next) && RApart(s.next) && CFoot(s.command) !! RFoot(s.next)
    ensures RAt(m1, s) && RApart(s) && Turned(m0, m1, CFoot(s.command) + RFoot(s.next), RFoot(s))
    ensures RAddr(s) == s.node && RTree(s) == Pipe(s.kind, CTree(s.command).command, RTree(s.next))
  {
    hide SameOn, CAt, CApart, CFoot;
    Untouched(m0, m0);
    Untouched(m0, m1);
    CFrame(m0, m0, s.command);
    RFrame(m0, m0, s.next);
    CFrame(m0, m1, s.command);
    RFrame(m0, m1, s.next);
    TurnedWith(m0, m1, CFoot(s.command) + RFoot(s.next), {s.node});
    assert {s.node} + (CFoot(s.command) + RFoot(s.next)) == RFoot(s);
  }
}
