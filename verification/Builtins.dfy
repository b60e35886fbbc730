/**
 What the builtins and a launch do to the table, said of the operands, the pids and the table itself, apart from the
 functions of module JobTable that compute it.
 */
module Builtins {
  import opened JobTable

  /* ---- finding a job ---- */

  /** The first job of the list with this number is at `i`. */
  predicate NumberedAt(jobs: seq<Job>, num: int, i: int) {
    0 <= i < |jobs| && jobs[i].num == num && forall m | 0 <= m < i :: jobs[m].num != num
  }

  predicate NoneNumbered(jobs: seq<Job>, num: int) { forall j | j in jobs :: j.num != num }

  lemma NumberedIs(jobs: seq<Job>, num: int)
    ensures NoneNumbered(jobs, num) <==> Numbered(jobs, num) == |jobs|
    ensures forall i :: NumberedAt(jobs, num, i) <==> i == Numbered(jobs, num) < |jobs|
  {
  }

  /* ---- `fg` and `bg` ---- */

  /** The job as `fg` resumes it: stop marks cleared, in the foreground, and taken to be known to the user. */
  predicate IsForward(now: Job, j: Job) {
    now == j.(procs := now.procs, notified := true, foreground := true) && OnlyUnstopped(now.procs, j.procs)
  }

  /** The job as `bg` and `kill` resume it: stop marks cleared, in the background, and to be spoken of again. */
  predicate IsBack(now: Job, j: Job) {
    now == j.(procs := now.procs, notified := false, foreground := false) && OnlyUnstopped(now.procs, j.procs)
  }

  predicate OnlyUnstopped(now: seq<Proc>, procs: seq<Proc>) {
    |now| == |procs| && forall k | 0 <= k < |procs| :: now[k] == procs[k].(stopped := false)
  }

  lemma ResumedIs(j: Job)
    ensures IsForward(ToForeground(j), j) && IsBack(ToBackground(j), j)
  {
  }

  /**
   What `fg` does. A wrong number of operands, or a number no job has, changes nothing and sends nothing. Otherwise
   the job with the number, and no other, is resumed in the foreground and waited for; its name is printed, and the
   one signal goes to its group.
   */
  ghost predicate FgSays(t: seq<Job>, operands: seq<int>, replies: seq<Reply>,
                         now: seq<Job>, lines: seq<Line>, sent: seq<Signal>)
  {
    && (|operands| == 0 ==>
          && now == t && sent == [] && lines == [TooFewArguments])
    && (|operands| > 1 ==>
          && now == t && sent == [] && lines == [TooManyArguments])
    && (|operands| == 1 && NoneNumbered(t, operands[0]) ==>
          && now == t && sent == [] && lines == [NoSuchJob])
    && (|operands| == 1 ==> forall i | NumberedAt(t, operands[0], i) ::
          && lines == [NameLine(t[i].name)] && sent == [Continue(t[i].gid)] && Foreground(t, i, replies, now))
  }

  lemma FgDoes(t: seq<Job>, operands: seq<int>, replies: seq<Reply>)
    requires Peopled(t)
    ensures var (now, lines, sent) := AfterFg(t, operands, replies);
      FgSays(t, operands, replies, now, lines, sent)
  {
    hide Waited, Numbered, ToForeground;
    if |operands| == 1 {
      NumberedIs(t, operands[0]);
      var i := Numbered(t, operands[0]);
      if i < |t| {
        ResumedPeopled(t, i);
        ResumedIs(t[i]);
        var u := t[i := ToForeground(t[i])];
        assert IsForward(u[i], t[i]) && u == t[i := u[i]];
      }
    }
  }

  /** The job at `i`, and no other, is resumed in the foreground and waited for. */
  ghost predicate Foreground(t: seq<Job>, i: nat, replies: seq<Reply>, now: seq<Job>)
    requires i < |t|
  {
    exists v: Job :: IsForward(v, t[i]) && Peopled(t[i := v]) && now == Waited(t[i := v], i, replies)
  }

  /**
   What `bg` does: with an operand it is the job with that number, without one the newest stopped job; where there
   is none, or where there are more operands, nothing changes and nothing is sent.
   */
  ghost predicate BgSays(t: seq<Job>, operands: seq<int>, now: seq<Job>, lines: seq<Line>, sent: seq<Signal>) {
    && (|operands| > 1 ==>
          && now == t && sent == [] && lines == [TooManyArguments])
    && (|operands| == 1 && NoneNumbered(t, operands[0]) ==>
          && now == t && sent == [] && lines == [NoSuchJob])
    && (|operands| == 0 && (forall j | j in t :: j.run != Stopped) ==>
          && now == t && sent == [] && lines == [NoSuchJob])
    && (|operands| == 1 ==> forall i | NumberedAt(t, operands[0], i) :: Background(t, i, now, lines, sent))
    && (|operands| == 0 ==> forall i | StoppedAt(t, i) :: Background(t, i, now, lines, sent))
  }

  lemma BgDoes(t: seq<Job>, operands: seq<int>)
    ensures var (now, lines, sent) := AfterBg(t, operands); BgSays(t, operands, now, lines, sent)
  {
    hide Numbered, FirstStopped, ToBackground;
    var i := if |operands| == 0 then FirstStopped(t) else if |operands| == 1 then Numbered(t, operands[0]) else |t|;
    if |operands| == 1 {
      NumberedIs(t, operands[0]);
    } else if |operands| == 0 {
      StoppedIs(t);
    }
    if i < |t| {
      ResumedIs(t[i]);
    }
  }

  /** The job at `i`, and no other, is resumed in the background; its number and pids are printed, oldest first. */
  predicate Background(t: seq<Job>, i: nat, now: seq<Job>, lines: seq<Line>, sent: seq<Signal>)
    requires i < |t|
  {
    && |now| == |t| && now == t[i := now[i]] && IsBack(now[i], t[i]) && sent == [Continue(t[i].gid)]
    && |lines| == 1 && lines[0].ProcessesLine? && lines[0].num == t[i].num && ArePidsOf(lines[0].pids, t[i].procs)
  }

  /** The pids of the processes in the order of their forks; the newest process is first in its job's list. */
  predicate ArePidsOf(pids: seq<int>, procs: seq<Proc>) {
    |pids| == |procs| && forall k | 0 <= k < |procs| :: pids[k] == procs[|procs| - 1 - k].pid
  }

  /** The newest stopped job is at `i`. */
  predicate StoppedAt(jobs: seq<Job>, i: int) {
    0 <= i < |jobs| && jobs[i].run == Stopped && forall m | 0 <= m < i :: jobs[m].run != Stopped
  }

  lemma StoppedIs(jobs: seq<Job>)
    ensures (forall j | j in jobs :: j.run != Stopped) <==> FirstStopped(jobs) == |jobs|
    ensures forall i :: StoppedAt(jobs, i) <==> i == FirstStopped(jobs) < |jobs|
  {
  }

  /* ---- `kill` ---- */

  /** The signals to the jobs with these numbers, operand by operand. */
  function SignalsTo(t: seq<Job>, targets: seq<int>): seq<Signal> {
    if targets == [] then []
    else
      var i := Numbered(t, targets[0]);
      (if i < |t| then [Continue(t[i].gid), Terminate(t[i].gid)] else []) + SignalsTo(t, targets[1..])
  }

  ghost predicate Hit(t: seq<Job>, targets: seq<int>, i: int) {
    exists m :: 0 <= m < |targets| && NumberedAt(t, targets[m], i)
  }

  /** The first operand of these that names a job whose group cannot be reached, if any, is the last of them. */
  predicate OnlyLastFails(t: seq<Job>, targets: seq<int>, reachable: set<int>) {
    forall m, i | 0 <= m < |targets| - 1 && 0 <= i < |t| && NumberedAt(t, targets[m], i) :: t[i].gid in reachable
  }

  /** `kill` has served the first `k` operands: their jobs, and no others, are resumed in the background. */
  ghost predicate Served(t: seq<Job>, targets: seq<int>, reachable: set<int>, k: nat, now: seq<Job>,
    sent: seq<Signal>) {
    && k <= |targets| && |now| == |t| && sent == SignalsTo(t, targets[..k]) && OnlyLastFails(t, targets[..k], reachable)
    && (forall i | 0 <= i < |t| :: if Hit(t, targets[..k], i) then IsBack(now[i], t[i]) else now[i] == t[i])
    && (k < |targets| ==> k > 0 && FailsAt(t, targets[k - 1], reachable))
  }

  predicate FailsAt(t: seq<Job>, num: int, reachable: set<int>) {
    var i := Numbered(t, num);
    i < |t| && t[i].gid !in reachable
  }

  /** `kill` serves its operands in turn, up to and including the first whose group cannot be reached. */
  lemma {:induction false} KillDoes(t: seq<Job>, targets: seq<int>, reachable: set<int>) returns (k: nat)
    ensures Served(t, targets, reachable, k, Killed(t, targets, reachable).0, Killed(t, targets, reachable).1)
    decreases |targets|
  {
    hide Served, ToBackground, Numbered;
    k := 0;
    if targets == [] {
      ServedNone(t, reachable);
    } else {
      var i := Numbered(t, targets[0]);
      FirstSignals(t, targets);
      if i == |t| {
        assert [] + Killed(t, targets[1..], reachable).1 == Killed(t, targets[1..], reachable).1;
        k := KillDoes(t, targets[1..], reachable);
        ServedMore(t, t, targets, reachable, k, Killed(t, targets[1..], reachable));
        k := k + 1;
      } else {
        var after := t[i := ToBackground(t[i])];
        if t[i].gid !in reachable {
          ServedLast(t, targets, reachable);
          k := 1;
        } else {
          k := KillDoes(after, targets[1..], reachable);
          ServedMore(t, after, targets, reachable, k, Killed(after, targets[1..], reachable));
          k := k + 1;
        }
      }
    }
  }

  lemma FirstSignals(t: seq<Job>, targets: seq<int>)
    requires targets != []
    ensures var i := Numbered(t, targets[0]);
      SignalsTo(t, targets[..1]) == if i < |t| then [Continue(t[i].gid), Terminate(t[i].gid)] else []
  {
    hide Numbered;
    assert targets[..1][0] == targets[0] && targets[..1][1..] == [];
    assert SignalsTo(t, []) == [];
  }

  lemma ServedNone(t: seq<Job>, reachable: set<int>)
    ensures Served(t, [], reachable, 0, t, [])
  {
  }

  /** The table after one operand. */
  predicate OneServed(t: seq<Job>, after: seq<Job>, num: int) {
    var i := Numbered(t, num);
    after == if i < |t| then t[i := ToBackground(t[i])] else t
  }

  lemma OneServedIs(t: seq<Job>, after: seq<Job>, num: int, i: nat)
    requires OneServed(t, after, num) && i < |t|
    ensures |after| == |t| && after[i].gid == t[i].gid && after[i].num == t[i].num
    ensures if NumberedAt(t, num, i) then IsBack(after[i], t[i]) else after[i] == t[i]
  {
    hide Numbered, ToBackground, IsBack;
    NumberedIs(t, num);
    ResumedIs(t[i]);
    BackNames(t[i]);
  }

  lemma BackNames(j: Job)
    ensures ToBackground(j).gid == j.gid && ToBackground(j).num == j.num
  {
  }

  lemma BackTwice(a: Job, b: Job, c: Job)
    requires IsBack(b, a) && IsBack(c, b)
    ensures IsBack(c, a)
  {
  }

  /** Numbers and groups stay, so later operands mean the same jobs. */
  lemma NumberedAlike(t: seq<Job>, after: seq<Job>, num: int, other: int)
    requires OneServed(t, after, num)
    ensures Numbered(after, other) == Numbered(t, other)
    ensures forall i :: NumberedAt(after, other, i) <==> NumberedAt(t, other, i)
  {
    hide OneServed, Numbered;
    OneServedLength(t, after, num);
    forall i | 0 <= i < |t| ensures after[i].num == t[i].num {
      OneServedIs(t, after, num, i);
    }
    NumberedIs(t, other);
    NumberedIs(after, other);
    var i := Numbered(t, other);
    assert i < |t| ==> NumberedAt(after, other, i);
    var k := Numbered(after, other);
    assert k < |after| ==> NumberedAt(t, other, k);
  }

  lemma OneServedLength(t: seq<Job>, after: seq<Job>, num: int)
    requires OneServed(t, after, num)
    ensures |after| == |t|
  {
  }

  lemma {:induction false} SignalsAlike(t: seq<Job>, after: seq<Job>, num: int, targets: seq<int>)
    requires OneServed(t, after, num)
    ensures SignalsTo(after, targets) == SignalsTo(t, targets)
  {
    hide OneServed, Numbered, NumberedAt;
    if targets != [] {
      SignalsAlike(t, after, num, targets[1..]);
      NumberedAlike(t, after, num, targets[0]);
      OneServedLength(t, after, num);
      var i := Numbered(t, targets[0]);
      if i < |t| {
        OneServedIs(t, after, num, i);
      }
    }
  }

  lemma HitMore(t: seq<Job>, targets: seq<int>, k: nat, i: nat)
    requires k < |targets|
    ensures Hit(t, targets[..k + 1], i) <==> NumberedAt(t, targets[0], i) || Hit(t, targets[1..][..k], i)
  {
    hide NumberedAt;
    var x, y := targets[..k + 1], targets[1..][..k];
    if m :| 0 <= m < |x| && NumberedAt(t, x[m], i) {
      assert m > 0 ==> NumberedAt(t, y[m - 1], i);
    }
    if m :| 0 <= m < |y| && NumberedAt(t, y[m], i) {
      assert NumberedAt(t, x[m + 1], i);
    }
    if NumberedAt(t, targets[0], i) {
      assert NumberedAt(t, x[0], i);
    }
  }

  lemma HitAlike(t: seq<Job>, after: seq<Job>, num: int, targets: seq<int>, i: nat)
    requires OneServed(t, after, num)
    ensures Hit(after, targets, i) <==> Hit(t, targets, i)
  {
    hide OneServed, NumberedAt;
    forall m | 0 <= m < |targets| ensures NumberedAt(after, targets[m], i) <==> NumberedAt(t, targets[m], i) {
      NumberedAlike(t, after, num, targets[m]);
    }
  }

  /** One operand in front of the others. */
  lemma ServedMore(t: seq<Job>, after: seq<Job>, targets: seq<int>, reachable: set<int>, k: nat,
                   rest: (seq<Job>, seq<Signal>))
    requires targets != [] && OneServed(t, after, targets[0]) && !FailsAt(t, targets[0], reachable)
    requires Served(after, targets[1..], reachable, k, rest.0, rest.1)
    ensures Served(t, targets, reachable, k + 1, rest.0, SignalsTo(t, targets[..1]) + rest.1)
  {
    hide OneServed, Hit, NumberedAt, IsBack, FailsAt, Numbered, SignalsTo, OnlyLastFails;
    OneServedLength(t, after, targets[0]);
    var x, y := targets[..k + 1], targets[1..][..k];
    forall i | 0 <= i < |t| ensures if Hit(t, x, i) then IsBack(rest.0[i], t[i]) else rest.0[i] == t[i] {
      HitMore(t, targets, k, i);
      HitAlike(t, after, targets[0], y, i);
      OneServedIs(t, after, targets[0], i);
      if NumberedAt(t, targets[0], i) && Hit(t, y, i) {
        BackTwice(t[i], after[i], rest.0[i]);
      }
    }
    SignalsAlike(t, after, targets[0], y);
    SignalsFirst(t, targets, k);
    FailsLater(t, after, targets, reachable, k);
  }

  lemma SignalsFirst(t: seq<Job>, targets: seq<int>, k: nat)
    requires k < |targets|
    ensures SignalsTo(t, targets[..k + 1]) == SignalsTo(t, targets[..1]) + SignalsTo(t, targets[1..][..k])
  {
    hide Numbered;
    assert targets[..k + 1][1..] == targets[1..][..k] && targets[..1][1..] == [];
    assert SignalsTo(t, []) == [];
  }

  lemma FailsLater(t: seq<Job>, after: seq<Job>, targets: seq<int>, reachable: set<int>, k: nat)
    requires targets != [] && k < |targets| && OneServed(t, after, targets[0]) && !FailsAt(t, targets[0], reachable)
    requires OnlyLastFails(after, targets[1..][..k], reachable)
    ensures OnlyLastFails(t, targets[..k + 1], reachable)
    ensures k > 0 ==> FailsAt(after, targets[1..][k - 1], reachable) == FailsAt(t, targets[k], reachable)
  {
    hide OneServed, NumberedAt, Numbered;
    OneServedLength(t, after, targets[0]);
    var x, y := targets[..k + 1], targets[1..][..k];
    forall m, i | 0 <= m < |x| - 1 && 0 <= i < |t| && NumberedAt(t, x[m], i) ensures t[i].gid in reachable {
      OneServedIs(t, after, targets[0], i);
      if m == 0 {
        NumberedIs(t, targets[0]);
      } else {
        NumberedAlike(t, after, targets[0], x[m]);
        assert y[m - 1] == x[m] && NumberedAt(after, y[m - 1], i);
      }
    }
    if k > 0 {
      NumberedAlike(t, after, targets[0], targets[k]);
      var i := Numbered(t, targets[k]);
      if i < |t| {
        OneServedIs(t, after, targets[0], i);
      }
    }
  }

  lemma ServedLast(t: seq<Job>, targets: seq<int>, reachable: set<int>)
    requires targets != [] && FailsAt(t, targets[0], reachable)
    ensures var i := Numbered(t, targets[0]);
      Served(t, targets, reachable, 1, t[i := ToBackground(t[i])], [Continue(t[i].gid), Terminate(t[i].gid)])
  {
    hide IsBack, Numbered, ToBackground, NumberedAt, SignalsTo, FailsAt, Hit;
    FailsThere(t, targets[0], reachable);
    FirstSignals(t, targets);
    var i := Numbered(t, targets[0]);
    var now := t[i := ToBackground(t[i])];
    forall m | 0 <= m < |t| ensures if Hit(t, targets[..1], m) then IsBack(now[m], t[m]) else now[m] == t[m] {
      OneServedIs(t, now, targets[0], m);
      HitMore(t, targets, 0, m);
      assert targets[1..][..0] == [];
      HitNone(t, m);
    }
  }

  lemma FailsThere(t: seq<Job>, num: int, reachable: set<int>)
    requires FailsAt(t, num, reachable)
    ensures Numbered(t, num) < |t|
  {
  }

  lemma HitNone(t: seq<Job>, i: int)
    ensures !Hit(t, [], i)
  {
  }

  /* ---- launching ---- */

  /** A job just launched: one process a fork, newest first; the first fork of an interactive shell names the group. */
  predicate IsLaunched(j: Job, id: nat, num: int, name: string, pids: seq<int>, birth: nat, interactive: bool)
    requires pids != []
  {
    && j == Job(id, num, name, false, false, Running, Ended(0), j.gid, j.procs)
    && (!interactive ==> j.gid == 0) && (interactive && pids[0] != 0 ==> j.gid == pids[0])
    && |j.procs| == |pids|
    && forall k | 0 <= k < |pids| ::
        j.procs[k] == Proc(pids[|pids| - 1 - k], birth + (|pids| - 1 - k), false, false, Ended(0))
  }

  /** The record a fork leaves. */
  function NewProcess(pid: int, birth: nat): Proc { Proc(pid, birth, false, false, Ended(0)) }

  lemma {:induction false} ProcessesAre(j: Job, pids: seq<int>, birth: nat, interactive: bool, k: nat)
    requires k < |j.procs| + |pids|
    ensures WithProcesses(j, pids, birth, interactive).procs[k] ==
      if k < |pids| then NewProcess(pids[|pids| - 1 - k], birth + (|pids| - 1 - k)) else j.procs[k - |pids|]
    decreases |pids|
  {
    hide WithProcess;
    if pids != [] {
      OneProcess(j, pids[0], birth, interactive);
      ProcessesAre(WithProcess(j, pids[0], birth, interactive), pids[1..], birth + 1, interactive, k);
    }
  }

  lemma OneProcess(j: Job, pid: int, birth: nat, interactive: bool)
    ensures var r := WithProcess(j, pid, birth, interactive);
      && r == j.(gid := r.gid, procs := r.procs) && r.procs == [NewProcess(pid, birth)] + j.procs
      && r.gid == if interactive && j.gid == 0 then pid else j.gid
  {
  }

  /** All of a job but its processes stays, and its group is named once. */
  lemma {:induction false} GroupIs(j: Job, pids: seq<int>, birth: nat, interactive: bool)
    ensures var r := WithProcesses(j, pids, birth, interactive);
      && r == j.(gid := r.gid, procs := r.procs)
      && (!interactive || j.gid != 0 || pids == [] ==> r.gid == j.gid)
      && (interactive && j.gid == 0 && pids != [] && pids[0] != 0 ==> r.gid == pids[0])
    decreases |pids|
  {
    hide WithProcess;
    if pids != [] {
      OneProcess(j, pids[0], birth, interactive);
      GroupIs(WithProcess(j, pids[0], birth, interactive), pids[1..], birth + 1, interactive);
    }
  }

  lemma ForkedIs(jobs: seq<Job>, id: nat, num: int, name: string, pids: seq<int>, birth: nat, interactive: bool)
    requires pids != []
    ensures var t := Forked(jobs, id, num, name, pids, birth, interactive);
      t != [] && t == [t[0]] + jobs && IsLaunched(t[0], id, num, name, pids, birth, interactive)
  {
    hide WithProcesses;
    var j := Job(id, num, name, false, false, Running, Ended(0), 0, []);
    GroupIs(j, pids, birth, interactive);
    forall k | 0 <= k < |pids| {
      ProcessesAre(j, pids, birth, interactive, k);
    }
  }

  /**
   What a launch leaves: an interactive shell announces a background job and does not wait; any other job is waited
   for, in the foreground if the shell is interactive, and nothing is printed.
   */
  ghost predicate Launched(was: seq<Job>, id: nat, num: int, name: string, pids: seq<int>, birth: nat,
                           interactive: bool, background: bool, replies: seq<Reply>, now: seq<Job>, lines: seq<Line>)
    requires pids != []
  {
    exists j: Job :: IsLaunched(j, id, num, name, pids, birth, interactive) &&
      if interactive && background then
        && now == [j.(notified := true)] + was
        && lines == [ProcessesLine(num, pids)]
      else
        && lines == [] && Peopled([j.(foreground := interactive)] + was)
        && now == Waited([j.(foreground := interactive)] + was, 0, replies)
  }

  lemma LaunchDoes(was: seq<Job>, id: nat, num: int, name: string, pids: seq<int>, birth: nat,
                   interactive: bool, background: bool, replies: seq<Reply>)
    requires pids != [] && Peopled(was)
    ensures var t := Forked(was, id, num, name, pids, birth, interactive);
      && t != [] && Peopled(t)
      && var (now, lines) := AfterForks(t, interactive, background, replies);
        Launched(was, id, num, name, pids, birth, interactive, background, replies, now, lines)
  {
    hide Waited, Forked, Pids;
    ForkedIs(was, id, num, name, pids, birth, interactive);
    var t := Forked(was, id, num, name, pids, birth, interactive);
    var j := t[0];
    assert Pids(j.procs) == pids;
    if interactive && background {
      assert t[0 := j.(notified := true, foreground := false)] == [j.(notified := true)] + was;
    } else {
      assert (if interactive then t[0 := j.(foreground := true)] else t) == [j.(foreground := interactive)] + was;
    }
  }
}
