/**
 The descriptors of the launch loop: what the shell opens and closes around each fork, and what each
 child holds once its standard streams are set. File redirects are not part of this module.
 */
module Plumbing {
  import opened Bounds
  import opened Syntax
  import opened Pipeline

  const STDIN := 0
  const STDOUT := 1
  const STDERR := 2

  /** What a descriptor refers to. Pipes are numbered in the order of their making. */
  datatype End = Other(id: int) | ReadEnd(pipe: nat) | WriteEnd(pipe: nat)

  type Table = map<nat, End>

  /** `dup2` and `close` in the child. */
  function ChildTable(fds: Table, fdIn: nat, fdOut: nat, stderr: bool): Table
    requires fdIn in fds && fdOut in fds && STDIN in fds && STDOUT in fds
    requires fdIn == STDIN || fdIn > STDERR
    requires fdOut == STDOUT || fdOut > STDERR
    requires fdIn != fdOut
  {
    var t := if fdIn == STDIN then fds else fds[STDIN := fds[fdIn]] - {fdIn};
    if fdOut == STDOUT then t
    else
      var u := t[STDOUT := t[fdOut]] - {fdOut};
      if stderr then u[STDERR := u[STDOUT]] else u
  }

  /** No descriptor refers to a pipe not yet made. */
  predicate Known(fds: Table, pipes: nat) {
    forall fd | fd in fds :: (fds[fd].ReadEnd? || fds[fd].WriteEnd?) ==> fds[fd].pipe < pipes
  }

  /** Some stage up to this one is joined to its successor by `|&`. */
  predicate ErrorsToo(stages: seq<Redirects>, k: int) {
    exists i :: 0 <= i <= k && i < |stages| && Piped(stages[i]).Some? && PipedBy(stages[i]).PIPE_ERROR?
  }

  class Shell {
    var fds: Table
    var pipes: nat
    ghost var closed: seq<End>

    ghost predicate Valid()
      reads this
    {
      STDIN in fds && STDOUT in fds && STDERR in fds && Known(fds, pipes)
    }

    constructor (fds: Table, pipes: nat)
      requires STDIN in fds && STDOUT in fds && STDERR in fds && Known(fds, pipes)
      ensures Valid() && this.fds == fds && this.pipes == pipes && closed == []
    {
      this.fds, this.pipes, closed := fds, pipes, [];
    }

    method LowestUnused(except: set<nat>) returns (fd: nat)
      ensures fd !in fds && fd !in except
      ensures forall n | 0 <= n < fd :: n in fds || n in except
    {
      fd := 0;
      ghost var bound := Above(fds.Keys + except);
      while fd in fds || fd in except
        invariant fd <= bound
        invariant forall n | 0 <= n < fd :: n in fds || n in except
        decreases bound - fd
      {
        fd := fd + 1;
      }
    }

    /** `pipe`: the two lowest unused descriptors. */
    method MakePipe() returns (r: nat, w: nat)
      requires Valid()
      modifies this
      ensures Valid() && closed == old(closed) && pipes == old(pipes) + 1
      ensures r !in old(fds) && w !in old(fds) && r != w && r > STDERR && w > STDERR
      ensures fds == old(fds)[r := ReadEnd(old(pipes))][w := WriteEnd(old(pipes))]
    {
      r := LowestUnused({});
      w := LowestUnused({r});
      fds := fds[r := ReadEnd(pipes)][w := WriteEnd(pipes)];
      pipes := pipes + 1;
    }

    method Close(fd: nat)
      requires fd in fds
      modifies this
      ensures fds == old(fds) - {fd} && pipes == old(pipes) && closed == old(closed) + [old(fds)[fd]]
    {
      closed := closed + [fds[fd]];
      fds := fds - {fd};
    }

    /** One round of the launch loop: pipe, fork, close. */
    method RunStage(redirects: Redirects, fdIn: nat, stderr: bool, ghost base: Table, ghost first: nat, ghost k: nat)
      returns (child: Table, next: nat, stderr': bool, ghost atFork: Table)
      requires Valid() && BaseOk(base, first) && pipes == first + k && Before(fds, base, first, k, fdIn)
      modifies this
      ensures Valid() && BaseOk(base, first)
      ensures stderr' == (stderr || (Piped(redirects).Some? && PipedBy(redirects).PIPE_ERROR?))
      ensures var inner := Piped(redirects).Some?;
        && pipes == (if inner then first + k + 1 else first + k)
        && closed == old(closed) + (if k > 0 then [ReadEnd(first + k - 1)] else [])
          + (if inner then [WriteEnd(first + k)] else [])
        && (if inner then Before(fds, base, first, k + 1, next) else fds == base)
        && Streams(child, base, first, k, inner, stderr')
        && OnlyItsWriteEnd(atFork, first, k)
    {
      hide Streams, OnlyItsWriteEnd, ChildTable;
      next, stderr', child, atFork := 0, stderr, fds, fds;
      var fdOut := STDOUT;
      if Piped(redirects).Some? {
        if PipedBy(redirects).PIPE_ERROR? {
          stderr' := true;
        }
        next, fdOut := MakePipe();
      }
      atFork := fds;
      ForkedTable(fds, base, first, k, fdIn, next, fdOut, stderr');
      child := ChildTable(fds, fdIn, fdOut, stderr');
      hide AtFork, Known;
      ParentsTable(base, first, k, fdIn, next, fdOut);
      if fdIn != STDIN {
        Close(fdIn);
      }
      if fdOut != STDOUT {
        Close(fdOut);
      }
    }

    /** The launch loop. */
    method Launch(command: Command) returns (procs: seq<Table>, ghost forks: seq<Table>)
      requires Valid()
      modifies this
      ensures fds == old(fds)
      ensures closed == old(closed) + EndsOf(old(pipes), |Stages(command.redirects)| - 1)
      ensures pipes == old(pipes) + |Stages(command.redirects)| - 1
      ensures BaseOk(old(fds), old(pipes)) && |procs| == |forks| == |Stages(command.redirects)|
      ensures forall k | 0 <= k < |procs| :: Plumbed(procs[k], old(fds), old(pipes), Stages(command.redirects), k)
      ensures forall k | 0 <= k < |forks| :: OnlyItsWriteEnd(forks[k], old(pipes), k)
      // the outer ends of the pipeline are the shell's, and errors go where the output goes from the first `|&` on
      ensures STDIN in procs[0] && procs[0][STDIN] == old(fds)[STDIN]
      ensures var last := procs[|procs| - 1]; STDOUT in last && last[STDOUT] == old(fds)[STDOUT]
      ensures forall k | 0 <= k < |procs| ::
        && STDERR in procs[k]
        && procs[k][STDERR] == if k + 1 < |procs| && ErrorsToo(Stages(command.redirects), k)
                               then WriteEnd(old(pipes) + k) else old(fds)[STDERR]
    {
      hide Stages, ErrorsToo, Streams, OnlyItsWriteEnd, EndsOf;
      procs, forks := [], [];
      ghost var base, first, stages := fds, pipes, Stages(command.redirects);
      var pc := Some(command);
      var fdIn: nat := STDIN;
      var stderr := false;
      ghost var k := 0;
      NoErrors(stages);
      EndsGrow(first, 0);
      while pc.Some?
        invariant 0 <= k <= |stages| && Valid() && BaseOk(base, first) && |procs| == |forks| == k
        invariant pc.Some? ==> k < |stages| && stages[k..] == Stages(pc.command.redirects)
        invariant pc.Some? ==> pipes == first + k && Before(fds, base, first, k, fdIn)
        invariant !pc.Some? ==> k == |stages| && fds == base && pipes == first + k - 1
        invariant stderr == ErrorsToo(stages, k - 1)
        invariant closed == old(closed) + ClosedBy(first, k, |stages|)
        invariant forall i | 0 <= i < k :: Plumbed(procs[i], base, first, stages, i)
        invariant forall i | 0 <= i < k :: OnlyItsWriteEnd(forks[i], first, i)
        decreases |stages| - k
      {
        StagesStep(pc.command.redirects);
        assert stages[k..][0] == stages[k] && stages[k..][1..] == stages[k + 1..];
        ErrorsStep(stages, k);
        ClosedStep(first, k, |stages|);
        var child, next, stderr', atFork := RunStage(pc.command.redirects, fdIn, stderr, base, first, k);
        procs, forks := procs + [child], forks + [atFork];
        pc := NextPipelineCommand(pc.command);
        fdIn, stderr := next, stderr';
        k := k + 1;
      }
      forall i | 0 <= i < |procs| ensures EndsRight(procs[i], base, first, i, i + 1 < |stages|, ErrorsToo(stages, i)) {
        StreamsEndRight(procs[i], base, first, i, i + 1 < |stages|, ErrorsToo(stages, i));
      }
    }
  }

  /** The standard streams alone. */
  predicate EndsRight(t: Table, base: Table, first: nat, k: nat, inner: bool, stderr: bool)
    requires BaseOk(base, first)
  {
    && STDIN in t && STDOUT in t && STDERR in t
    && (k == 0 ==> t[STDIN] == base[STDIN])
    && (!inner ==> t[STDOUT] == base[STDOUT])
    && t[STDERR] == if inner && stderr then WriteEnd(first + k) else base[STDERR]
  }

  lemma StreamsEndRight(t: Table, base: Table, first: nat, k: nat, inner: bool, stderr: bool)
    requires BaseOk(base, first) && Streams(t, base, first, k, inner, stderr)
    ensures EndsRight(t, base, first, k, inner, stderr)
  {
  }

  /** The stages after the first. */
  lemma StagesStep(r: Redirects)
    ensures Stages(r)[0] == r
    ensures Piped(r).Some? == (|Stages(r)| > 1)
    ensures Piped(r).Some? ==> Stages(r)[1..] == Stages(Piped(r).command.redirects)
  {
  }

  lemma NoErrors(stages: seq<Redirects>)
    ensures !ErrorsToo(stages, -1)
  {
  }

  lemma ErrorsStep(stages: seq<Redirects>, k: nat)
    requires k < |stages|
    ensures ErrorsToo(stages, k) ==
      (ErrorsToo(stages, k - 1) || (Piped(stages[k]).Some? && PipedBy(stages[k]).PIPE_ERROR?))
  {
  }

  /** The ends of `m` pipes in the order in which the shell closes them. */
  function EndsOf(first: nat, m: nat): seq<End> {
    if m == 0 then [] else EndsOf(first, m - 1) + [WriteEnd(first + m - 1), ReadEnd(first + m - 1)]
  }

  /** What is closed when `k` of `n` stages are forked. */
  function ClosedBy(first: nat, k: nat, n: nat): seq<End> {
    if k == 0 then [] else if k < n then EndsOf(first, k - 1) + [WriteEnd(first + k - 1)] else EndsOf(first, k - 1)
  }

  lemma EndsGrow(first: nat, m: nat)
    ensures EndsOf(first, m + 1) == EndsOf(first, m) + [WriteEnd(first + m), ReadEnd(first + m)]
      && EndsOf(first, 0) == []
  {
  }

  lemma ClosedStep(first: nat, k: nat, n: nat)
    requires k < n
    ensures ClosedBy(first, k + 1, n) == ClosedBy(first, k, n)
      + (if k > 0 then [ReadEnd(first + k - 1)] else []) + (if k + 1 < n then [WriteEnd(first + k)] else [])
  {
  }

  /** An end of one of the first `m` pipes of the launch. */
  predicate OfLaunch(first: nat, m: nat, e: End) { !e.Other? && first <= e.pipe < first + m }

  predicate Once(s: seq<End>, first: nat, m: nat, e: End) {
    multiset(s)[e] == if OfLaunch(first, m, e) then 1 else 0
  }

  lemma NoneYet(first: nat, e: End)
    ensures Once([], first, 0, e)
  {
  }

  lemma OncePipe(s: seq<End>, first: nat, m: nat, e: End)
    requires Once(s, first, m, e)
    ensures Once(s + [WriteEnd(first + m), ReadEnd(first + m)], first, m + 1, e)
  {
    TwoMore(s, WriteEnd(first + m), ReadEnd(first + m), e);
  }

  lemma {:induction false} EndsCounted(first: nat, m: nat, e: End)
    ensures Once(EndsOf(first, m), first, m, e) && |EndsOf(first, m)| == 2 * m
  {
    hide EndsOf, Once;
    EndsGrow(first, 0);
    NoneYet(first, e);
    if m > 0 {
      EndsCounted(first, m - 1, e);
      EndsGrow(first, m - 1);
      OncePipe(EndsOf(first, m - 1), first, m - 1, e);
    }
  }

  /** Each end of each pipe of the launch is closed once. */
  lemma EndsOnce(first: nat, m: nat, e: End)
    ensures multiset(EndsOf(first, m))[e] == if OfLaunch(first, m, e) then 1 else 0
    ensures |EndsOf(first, m)| == 2 * m
  {
    hide EndsOf;
    EndsCounted(first, m, e);
  }

  /** The pipes are closed one after the other, the write end first. */
  lemma {:induction false} EndsInOrder(first: nat, m: nat, q: nat)
    requires q < m
    ensures |EndsOf(first, m)| == 2 * m
    ensures EndsOf(first, m)[2 * q] == WriteEnd(first + q) && EndsOf(first, m)[2 * q + 1] == ReadEnd(first + q)
  {
    hide EndsOf;
    EndsOnce(first, m, ReadEnd(first));
    EndsOnce(first, m - 1, ReadEnd(first));
    EndsGrow(first, m - 1);
    if q < m - 1 {
      EndsInOrder(first, m - 1, q);
    }
  }

  lemma TwoMore(s: seq<End>, a: End, b: End, e: End)
    requires a != b
    ensures multiset(s + [a, b])[e] == multiset(s)[e] + if e == a || e == b then 1 else 0
  {
    assert multiset(s + [a, b]) == multiset(s) + multiset{a, b};
  }

  /** The table of stage `k`, forked from a shell with the table `base`; the pipes are numbered from `first`. */
  ghost predicate Plumbed(t: Table, base: Table, first: nat, stages: seq<Redirects>, k: nat)
    requires BaseOk(base, first)
  {
    Streams(t, base, first, k, k + 1 < |stages|, ErrorsToo(stages, k))
  }

  /**
   Pipe `q` joins two neighbours; of all processes only its writer holds its write end, and only those two its read
   end.
   */
  lemma PipeJoinsNeighbours(procs: seq<Table>, base: Table, first: nat, stages: seq<Redirects>, q: nat, k: nat)
    requires BaseOk(base, first) && |procs| == |stages| && k < |procs| && first <= q < first + |procs| - 1
    requires forall i | 0 <= i < |procs| :: Plumbed(procs[i], base, first, stages, i)
    ensures var w := q - first;
      && STDOUT in procs[w] && STDIN in procs[w + 1]
      && procs[w][STDOUT] == WriteEnd(q) && procs[w + 1][STDIN] == ReadEnd(q)
    ensures WriteEnd(q) in procs[k].Values <==> q == first + k
    ensures ReadEnd(q) in procs[k].Values <==> q == first + k || q + 1 == first + k
  {
    hide ErrorsToo, Streams;
    var w := q - first;
    assert Plumbed(procs[w], base, first, stages, w) && Plumbed(procs[w + 1], base, first, stages, w + 1);
    HoldsEnds(procs[w], base, first, w, w + 1 < |stages|, ErrorsToo(stages, w), q);
    HoldsEnds(procs[w + 1], base, first, w + 1, w + 2 < |stages|, ErrorsToo(stages, w + 1), q);
    assert Plumbed(procs[k], base, first, stages, k);
    HoldsEnds(procs[k], base, first, k, k + 1 < |stages|, ErrorsToo(stages, k), q);
  }

  lemma HoldsEnds(t: Table, base: Table, first: nat, k: nat, inner: bool, stderr: bool, q: nat)
    requires BaseOk(base, first) && Streams(t, base, first, k, inner, stderr) && first <= q
    ensures WriteEnd(q) in t.Values <==> inner && q == first + k
    ensures ReadEnd(q) in t.Values <==> (inner && q == first + k) || q + 1 == first + k
    ensures inner ==> STDOUT in t && t[STDOUT] == WriteEnd(first + k)
    ensures k > 0 ==> STDIN in t && t[STDIN] == ReadEnd(first + k - 1)
  {
    if WriteEnd(q) in t.Values {
      var fd :| fd in t && t[fd] == WriteEnd(q);
      Origin(t, base, first, k, inner, stderr, fd);
    }
    if inner && q == first + k {
      assert t[STDOUT] in t.Values;
      var fd :| fd in t && fd !in base && t[fd] == ReadEnd(first + k);
      assert t[fd] in t.Values;
    }
    if ReadEnd(q) in t.Values {
      var fd :| fd in t && t[fd] == ReadEnd(q);
      Origin(t, base, first, k, inner, stderr, fd);
    }
    if q + 1 == first + k {
      assert t[STDIN] in t.Values;
    }
  }

  /** Whatever a child's descriptor refers to, it has from the shell or from its own two pipes. */
  lemma Origin(t: Table, base: Table, first: nat, k: nat, inner: bool, stderr: bool, fd: nat)
    requires BaseOk(base, first) && Streams(t, base, first, k, inner, stderr) && fd in t
    ensures t[fd].WriteEnd? && t[fd].pipe >= first ==> inner && t[fd].pipe == first + k
    ensures t[fd].ReadEnd? && t[fd].pipe >= first ==>
      (inner && t[fd].pipe == first + k) || (k > 0 && t[fd].pipe == first + k - 1)
  {
    if fd <= STDERR {
      assert fd == STDIN || fd == STDOUT || fd == STDERR;
    }
  }

  lemma ParentsTable(base: Table, first: nat, k: nat, fdIn: nat, next: nat, fdOut: nat)
    requires BaseOk(base, first) && ApartFrom(base, k, fdIn, next, fdOut)
    ensures var t := AtFork(base, first, k, fdIn, next, fdOut);
      var u := if fdIn == STDIN then t else t - {fdIn};
      && fdIn in t && fdOut in t && (fdIn != STDIN ==> t[fdIn] == ReadEnd(first + k - 1))
      && (fdOut != STDOUT ==> fdOut in u && u[fdOut] == WriteEnd(first + k))
      && Before(if fdOut == STDOUT then u else u - {fdOut}, base, first,
                if fdOut == STDOUT then 0 else k + 1, if fdOut == STDOUT then STDIN else next)
      && Known(if fdOut == STDOUT then u else u - {fdOut}, if fdOut == STDOUT then first + k else first + k + 1)
  {
  }

  predicate BaseOk(base: Table, first: nat) {
    STDIN in base && STDOUT in base && STDERR in base && Known(base, first)
  }

  /** The shell's table before stage `k`: its own, and the read end the stage will take its input from. */
  predicate Before(fds: Table, base: Table, first: nat, k: nat, fdIn: nat)
    requires BaseOk(base, first)
  {
    if k == 0 then fdIn == STDIN && fds == base
    else fdIn > STDERR && fdIn !in base && fds == base[fdIn := ReadEnd(first + k - 1)]
  }

  /**
   `Plumbed`, for a stage known to be inner or last. Beyond the standard streams it holds what the shell
   holds, and the read end of its own output pipe.
   */
  ghost predicate Streams(t: Table, base: Table, first: nat, k: nat, inner: bool, stderr: bool)
    requires BaseOk(base, first)
  {
    && STDIN in t && STDOUT in t && STDERR in t
    && t[STDIN] == (if k > 0 then ReadEnd(first + k - 1) else base[STDIN])
    && t[STDOUT] == (if inner then WriteEnd(first + k) else base[STDOUT])
    && t[STDERR] == (if inner && stderr then WriteEnd(first + k) else base[STDERR])
    && (forall fd | fd > STDERR && fd in base :: fd in t && t[fd] == base[fd])
    && (forall fd | fd in t && fd > STDERR && fd !in base :: inner && t[fd] == ReadEnd(first + k))
    && (inner ==> exists fd :: fd in t && fd !in base && t[fd] == ReadEnd(first + k))
  }

  /** The shell's table at a fork. */
  function AtFork(base: Table, first: nat, k: nat, fdIn: nat, next: nat, fdOut: nat): Table
    requires BaseOk(base, first)
  {
    var t := if k == 0 then base else base[fdIn := ReadEnd(first + k - 1)];
    if fdOut == STDOUT then t else t[next := ReadEnd(first + k)][fdOut := WriteEnd(first + k)]
  }

  /** The descriptors in play are apart from each other and from the shell's own. */
  predicate ApartFrom(base: Table, k: nat, fdIn: nat, next: nat, fdOut: nat) {
    && (if k == 0 then fdIn == STDIN else fdIn > STDERR && fdIn !in base)
    && (fdOut != STDOUT ==> fdOut > STDERR && next > STDERR && fdOut !in base && next !in base && next != fdOut
                             && fdIn != fdOut && fdIn != next)
  }

  lemma ForkedTable(fds: Table, base: Table, first: nat, k: nat, fdIn: nat, next: nat, fdOut: nat, stderr: bool)
    requires BaseOk(base, first) && ApartFrom(base, k, fdIn, next, fdOut)
    requires fds == AtFork(base, first, k, fdIn, next, fdOut)
    ensures fdIn in fds && fdOut in fds && fdIn != fdOut && STDIN in fds && STDOUT in fds
    ensures Streams(ChildTable(fds, fdIn, fdOut, stderr), base, first, k, fdOut != STDOUT, stderr)
    ensures OnlyItsWriteEnd(fds, first, k)
  {
    var t := ChildTable(fds, fdIn, fdOut, stderr);
    if fdOut != STDOUT {
      assert next in t && t[next] == ReadEnd(first + k);
    }
  }

  /** Of the pipes of this launch, a fork sees at most its own stage's write end. */
  ghost predicate OnlyItsWriteEnd(t: Table, first: nat, k: nat) {
    forall fd | fd in t :: t[fd].WriteEnd? && t[fd].pipe >= first ==> t[fd].pipe == first + k
  }
}
