/**
 The shell's record of its jobs as plain values, newest job first and newest process first,
 with the effect each status function, builtin and notification pass has on it.
 */
module JobTable {
  datatype RunStatus = Running | Stopped | Completed

  /** What `waitpid` says of a child: stopped by a signal, or ended (by `exit` or by a signal). */
  datatype WaitStatus = StoppedBy(signal: int) | Ended(code: int)

  /** `birth` numbers the `fork` that made the process; the kernel may use one pid for several. */
  datatype Proc = Proc(pid: int, birth: nat, completed: bool, stopped: bool, status: WaitStatus)

  datatype Job = Job(id: nat, num: int, name: string, notified: bool, foreground: bool,
                     run: RunStatus, status: WaitStatus, gid: int, procs: seq<Proc>)

  /** Lines the shell prints about its jobs. */
  datatype Line =
    | DoneLine(num: int, name: string)
    | StoppedLine(num: int)
    | NameLine(name: string)
    | ProcessesLine(num: int, pids: seq<int>)
    | TooFewArguments
    | TooManyArguments
    | NoSuchJob

  /** A signal the shell sends to a process group. */
  datatype Signal = Continue(gid: int) | Terminate(gid: int)

  datatype Reply = Reply(pid: int, status: WaitStatus)

  /* ---- looking a process up ---- */

  /** The first process with this pid, or the length when there is none. */
  function Find(procs: seq<Proc>, pid: int): (k: nat)
    ensures k <= |procs|
    ensures forall m | 0 <= m < k :: procs[m].pid != pid
    ensures k < |procs| ==> procs[k].pid == pid
  {
    if procs == [] then 0
    else if procs[0].pid == pid then 0
    else
      var rest := Find(procs[1..], pid);
      assert forall m | 0 < m <= rest && m < |procs| :: procs[m] == procs[1..][m - 1];
      rest + 1
  }

  lemma FindIs(procs: seq<Proc>, pid: int, k: nat)
    requires k <= |procs| && forall m | 0 <= m < k :: procs[m].pid != pid
    requires k < |procs| ==> procs[k].pid == pid
    ensures Find(procs, pid) == k
  {
  }

  /** Every process, in the order in which a search meets them. */
  function Records(jobs: seq<Job>): seq<Proc> {
    if jobs == [] then [] else jobs[0].procs + Records(jobs[1..])
  }

  /** `p->status = status` and one of the two marks. */
  function Mark(p: Proc, status: WaitStatus): Proc {
    if status.StoppedBy? then p.(status := status, stopped := true) else p.(status := status, completed := true)
  }

  /** A search through the jobs, newest first, that stops at the first process with the pid. */
  function Recorded(jobs: seq<Job>, pid: int, status: WaitStatus): (r: (seq<Job>, bool))
    ensures |r.0| == |jobs|
    ensures !r.1 ==> r.0 == jobs
  {
    if jobs == [] then (jobs, false)
    else
      var k := Find(jobs[0].procs, pid);
      if k < |jobs[0].procs| then
        ([jobs[0].(procs := jobs[0].procs[k := Mark(jobs[0].procs[k], status)])] + jobs[1..], true)
      else
        var rest := Recorded(jobs[1..], pid, status);
        ([jobs[0]] + rest.0, rest.1)
  }

  /** `updateProcessStatus`: 0 and -1 are `waitpid`'s "nothing yet" and "no child". */
  function AfterReply(jobs: seq<Job>, reply: Reply): (seq<Job>, bool) {
    if reply.pid > 0 then Recorded(jobs, reply.pid, reply.status) else (jobs, false)
  }

  /** What a job at index `i` becomes when its process `k` is marked. */
  function MarkAt(jobs: seq<Job>, i: nat, k: nat, status: WaitStatus): seq<Job>
    requires i < |jobs| && k < |jobs[i].procs|
  {
    jobs[i := jobs[i].(procs := jobs[i].procs[k := Mark(jobs[i].procs[k], status)])]
  }

  predicate NowhereIn(jobs: seq<Job>, pid: int) {
    forall i | 0 <= i < |jobs| :: Find(jobs[i].procs, pid) == |jobs[i].procs|
  }

  lemma {:induction false} RecordedNowhere(jobs: seq<Job>, pid: int, status: WaitStatus)
    requires NowhereIn(jobs, pid)
    ensures Recorded(jobs, pid, status) == (jobs, false)
  {
    if jobs != [] {
      assert Find(jobs[0].procs, pid) == |jobs[0].procs|;
      assert forall i | 0 <= i < |jobs[1..]| :: jobs[1..][i] == jobs[i + 1];
      RecordedNowhere(jobs[1..], pid, status);
      assert jobs == [jobs[0]] + jobs[1..];
    }
  }

  lemma {:induction false} RecordedAt(jobs: seq<Job>, pid: int, status: WaitStatus, i: nat)
    requires i < |jobs| && NowhereIn(jobs[..i], pid) && Find(jobs[i].procs, pid) < |jobs[i].procs|
    ensures Recorded(jobs, pid, status) == (MarkAt(jobs, i, Find(jobs[i].procs, pid), status), true)
  {
    if i > 0 {
      assert jobs[..i][0] == jobs[0];
      assert jobs[1..][..i - 1] == jobs[..i][1..];
      RecordedAt(jobs[1..], pid, status, i - 1);
      var k := Find(jobs[i].procs, pid);
      assert [jobs[0]] + MarkAt(jobs[1..], i - 1, k, status) == MarkAt(jobs, i, k, status);
    } else {
      assert [MarkAt(jobs, 0, Find(jobs[0].procs, pid), status)[0]] + jobs[1..]
        == MarkAt(jobs, 0, Find(jobs[0].procs, pid), status);
    }
  }

  /* ---- judging a job ---- */

  predicate Settled(procs: seq<Proc>) { forall p | p in procs :: p.completed || p.stopped }

  predicate SomeStopped(procs: seq<Proc>) { exists p :: p in procs && p.stopped }

  /** Every process ended and none is marked stopped. */
  predicate Finished(procs: seq<Proc>) { forall p | p in procs :: p.completed && !p.stopped }

  /** `updateJobStatus`. */
  function Judge(j: Job): Job
    requires j.procs != []
  {
    if !Settled(j.procs) then
      j.(run := Running, notified := j.notified && j.run == Running)
    else
      var last := j.procs[|j.procs| - 1].status;
      if SomeStopped(j.procs) then
        j.(run := Stopped, notified := j.notified && j.run == Stopped, status := last, foreground := false)
      else
        j.(run := Completed, notified := j.notified && j.run == Completed, status := last)
  }

  /**
   What judging makes of a job, process by process: a job that stops leaves the foreground, the status is that of the
   first stage, which is last in the list, and a mark of notification stands only while the job stays as it was.
   */
  predicate Verdict(now: Job, j: Job)
    requires j.procs != []
  {
    && now == j.(run := now.run, notified := now.notified, status := now.status, foreground := now.foreground)
    && (now.run == Running <==> exists p :: p in j.procs && !p.completed && !p.stopped)
    && (now.run == Completed <==> forall p | p in j.procs :: p.completed && !p.stopped)
    && (now.notified <==> j.notified && now.run == j.run)
    && now.status == (if now.run == Running then j.status else j.procs[|j.procs| - 1].status)
    && (now.foreground <==> j.foreground && now.run != Stopped)
  }

  lemma JudgeIs(j: Job)
    requires j.procs != []
    ensures Verdict(Judge(j), j)
  {
  }

  predicate Peopled(jobs: seq<Job>) { forall j | j in jobs :: j.procs != [] }

  lemma PeopledWith(jobs: seq<Job>, i: nat, v: Job)
    requires i < |jobs| && Peopled(jobs) && |v.procs| == |jobs[i].procs|
    ensures Peopled(jobs[i := v])
  {
    assert jobs[i] in jobs;
  }

  /* ---- waiting ---- */

  /** The wait loop on the job at index `i`: record each reply, then judge the job. */
  function Waited(jobs: seq<Job>, i: nat, replies: seq<Reply>): (r: seq<Job>)
    requires i < |jobs| && Peopled(jobs)
    ensures |r| == |jobs|
    decreases |replies|
  {
    if replies == [] then jobs
    else
      var step := AfterReply(jobs, replies[0]);
      if !step.1 then jobs
      else
        AfterReplyKeeps(jobs, replies[0]);
        var judged := step.0[i := Judge(step.0[i])];
        if judged[i].run == Running then
          assert Peopled(judged);
          Waited(judged, i, replies[1..])
        else judged
  }

  /** The drain at the prompt: record replies until one finds no process. */
  function Drained(jobs: seq<Job>, replies: seq<Reply>): seq<Job>
    decreases |replies|
  {
    if replies == [] then jobs
    else
      var step := AfterReply(jobs, replies[0]);
      if step.1 then Drained(step.0, replies[1..]) else jobs
  }

  /** Marking a process changes nothing else about its job. */
  predicate SameButMarks(a: Job, b: Job) {
    |a.procs| == |b.procs| && a.(procs := []) == b.(procs := [])
    && forall k | 0 <= k < |a.procs| ::
        b.procs[k].pid == a.procs[k].pid && b.procs[k].birth == a.procs[k].birth
        && (a.procs[k].completed ==> b.procs[k].completed) && (a.procs[k].stopped ==> b.procs[k].stopped)
  }

  lemma {:induction false} DrainedPeopled(jobs: seq<Job>, replies: seq<Reply>)
    requires Peopled(jobs)
    ensures Peopled(Drained(jobs, replies))
    decreases |replies|
  {
    if replies != [] {
      AfterReplyKeeps(jobs, replies[0]);
      var step := AfterReply(jobs, replies[0]);
      if step.1 {
        DrainedPeopled(step.0, replies[1..]);
      }
    }
  }

  lemma {:induction false} RecordedKeeps(jobs: seq<Job>, pid: int, status: WaitStatus)
    ensures var r := Recorded(jobs, pid, status).0;
      forall i | 0 <= i < |jobs| :: SameButMarks(jobs[i], r[i])
  {
    if jobs != [] {
      RecordedKeeps(jobs[1..], pid, status);
      var rest := Recorded(jobs[1..], pid, status).0;
      var r := Recorded(jobs, pid, status).0;
      forall i | 0 <= i < |jobs| ensures SameButMarks(jobs[i], r[i]) {
        if i > 0 {
          assert SameButMarks(jobs[1..][i - 1], rest[i - 1]);
        }
      }
    }
  }

  lemma AfterReplyKeeps(jobs: seq<Job>, reply: Reply)
    ensures var r := AfterReply(jobs, reply).0;
      |r| == |jobs| && forall i | 0 <= i < |jobs| :: SameButMarks(jobs[i], r[i])
    ensures Peopled(jobs) ==> Peopled(AfterReply(jobs, reply).0)
  {
    RecordedKeeps(jobs, reply.pid, reply.status);
  }

  /* ---- the notification pass ---- */

  /** What the pass leaves of one judged job, and what it says about it. */
  function Survivor(j: Job): seq<Job> {
    match j.run
    case Running => [j]
    case Stopped => [j.(notified := true)]
    case Completed => []
  }

  function Announcement(j: Job): seq<Line> {
    if j.foreground || j.notified then []
    else
      match j.run
      case Running => []
      case Stopped => [StoppedLine(j.num)]
      case Completed => [DoneLine(j.num, j.name)]
  }

  function Swept(jobs: seq<Job>): seq<Job>
    requires Peopled(jobs)
  {
    if jobs == [] then [] else Survivor(Judge(jobs[0])) + Swept(jobs[1..])
  }

  function Announced(jobs: seq<Job>): seq<Line>
    requires Peopled(jobs)
  {
    if jobs == [] then [] else Announcement(Judge(jobs[0])) + Announced(jobs[1..])
  }

  /** The pass over `start` has come to position `i` of `now`. */
  predicate SweptTo(start: seq<Job>, now: seq<Job>, i: int, lines: seq<Line>) {
    && 0 <= i <= |now| && Peopled(start) && Peopled(now[i..]) && Peopled(now)
    && now[..i] + Swept(now[i..]) == Swept(start)
    && lines + Announced(now[i..]) == Announced(start)
  }

  lemma SweepStarts(jobs: seq<Job>)
    requires Peopled(jobs)
    ensures SweptTo(jobs, jobs, 0, [])
  {
    assert jobs[0..] == jobs;
  }

  lemma SweepGoesOn(start: seq<Job>, now: seq<Job>, i: nat, lines: seq<Line>, v: Job, then': seq<Job>)
    requires SweptTo(start, now, i, lines) && i < |now| && now[i].procs != [] && v == Judge(now[i])
    requires then' == now[..i] + Survivor(v) + now[i + 1..]
    ensures SweptTo(start, then', i + |Survivor(v)|, lines + Announcement(v))
  {
    hide Judge;
    assert now[i..][0] == now[i] && now[i..][1..] == now[i + 1..];
    var k := i + |Survivor(v)|;
    assert then'[k..] == now[i + 1..] && then'[..k] == now[..i] + Survivor(v);
    JudgeKeepsProcs(now[i]);
  }

  lemma SweepEnds(start: seq<Job>, now: seq<Job>, lines: seq<Line>)
    requires SweptTo(start, now, |now|, lines)
    ensures now == Swept(start) && lines == Announced(start)
  {
    assert now[..|now|] == now && now[|now|..] == [];
  }

  lemma JudgeKeepsProcs(j: Job)
    requires j.procs != []
    ensures Judge(j).procs == j.procs
  {
  }

  /* ---- builtins ---- */

  function Unstopped(procs: seq<Proc>): (r: seq<Proc>)
    ensures |r| == |procs| && forall k | 0 <= k < |r| :: r[k] == procs[k].(stopped := false)
  {
    seq(|procs|, k requires 0 <= k < |procs| => procs[k].(stopped := false))
  }

  /** The first job, newest first, with this number. */
  function Numbered(jobs: seq<Job>, num: int): (i: nat)
    ensures i <= |jobs| && (i < |jobs| ==> jobs[i].num == num)
    ensures forall m | 0 <= m < i :: jobs[m].num != num
  {
    if jobs == [] || jobs[0].num == num then 0
    else
      var rest := Numbered(jobs[1..], num);
      assert forall m | 0 < m <= rest && m < |jobs| :: jobs[m] == jobs[1..][m - 1];
      rest + 1
  }

  function FirstStopped(jobs: seq<Job>): (i: nat)
    ensures i <= |jobs| && (i < |jobs| ==> jobs[i].run == Stopped)
    ensures forall m | 0 <= m < i :: jobs[m].run != Stopped
  {
    if jobs == [] || jobs[0].run == Stopped then 0
    else
      var rest := FirstStopped(jobs[1..]);
      assert forall m | 0 < m <= rest && m < |jobs| :: jobs[m] == jobs[1..][m - 1];
      rest + 1
  }

  /** `fg`: clear the stop marks, mark as notified, take the foreground. */
  function ToForeground(j: Job): Job {
    j.(procs := Unstopped(j.procs), notified := true, foreground := true)
  }

  /** `bg` and `kill`: clear the stop marks, to be notified again, leave the foreground. */
  function ToBackground(j: Job): Job {
    j.(procs := Unstopped(j.procs), notified := false, foreground := false)
  }

  /** The pids in the order in which the processes were started. */
  function Pids(procs: seq<Proc>): (pids: seq<int>)
    ensures |pids| == |procs| && forall k | 0 <= k < |procs| :: pids[k] == procs[|procs| - 1 - k].pid
  {
    if procs == [] then [] else Pids(procs[1..]) + [procs[0].pid]
  }

  function AfterFg(jobs: seq<Job>, operands: seq<int>, replies: seq<Reply>): (seq<Job>, seq<Line>, seq<Signal>)
    requires Peopled(jobs)
  {
    if |operands| == 0 then (jobs, [TooFewArguments], [])
    else if |operands| > 1 then (jobs, [TooManyArguments], [])
    else
      var i := Numbered(jobs, operands[0]);
      if i == |jobs| then (jobs, [NoSuchJob], [])
      else
        ResumedPeopled(jobs, i);
        (Waited(jobs[i := ToForeground(jobs[i])], i, replies), [NameLine(jobs[i].name)], [Continue(jobs[i].gid)])
  }

  function AfterBg(jobs: seq<Job>, operands: seq<int>): (seq<Job>, seq<Line>, seq<Signal>) {
    if |operands| > 1 then (jobs, [TooManyArguments], [])
    else
      var i := if |operands| == 0 then FirstStopped(jobs) else Numbered(jobs, operands[0]);
      if i == |jobs| then (jobs, [NoSuchJob], [])
      else
        var line := ProcessesLine(jobs[i].num, Pids(jobs[i].procs));
        (jobs[i := ToBackground(jobs[i])], [line], [Continue(jobs[i].gid)])
  }

  lemma ResumedPeopled(jobs: seq<Job>, i: nat)
    requires Peopled(jobs) && i < |jobs|
    ensures Peopled(jobs[i := ToForeground(jobs[i])]) && Peopled(jobs[i := ToBackground(jobs[i])])
  {
    assert jobs[i] in jobs;
  }

  /** `kill` works through its operands until a signal cannot be delivered. */
  function Killed(jobs: seq<Job>, targets: seq<int>, reachable: set<int>): (seq<Job>, seq<Signal>)
    decreases |targets|
  {
    if targets == [] then (jobs, [])
    else
      var i := Numbered(jobs, targets[0]);
      if i == |jobs| then Killed(jobs, targets[1..], reachable)
      else
        var after := jobs[i := ToBackground(jobs[i])];
        var sent := [Continue(jobs[i].gid), Terminate(jobs[i].gid)];
        if jobs[i].gid !in reachable then (after, sent)
        else
          var rest := Killed(after, targets[1..], reachable);
          (rest.0, sent + rest.1)
  }

  /** `job->job_num = ++num_jobs`, and the new job in front. */
  function WithNewJob(jobs: seq<Job>, id: nat, num: int, name: string): seq<Job> {
    [Job(id, num, name, false, false, Running, Ended(0), 0, [])] + jobs
  }

  /** The child of one `fork`, in front of its job's processes; it may name the group. */
  function WithProcess(j: Job, pid: int, birth: nat, interactive: bool): Job {
    j.(procs := [Proc(pid, birth, false, false, Ended(0))] + j.procs,
       gid := if interactive && j.gid == 0 then pid else j.gid)
  }

  /** All the children of a launch, in the order of their forks. */
  function WithProcesses(j: Job, pids: seq<int>, birth: nat, interactive: bool): (r: Job)
    ensures |r.procs| == |j.procs| + |pids|
    decreases |pids|
  {
    if pids == [] then j
    else WithProcesses(WithProcess(j, pids[0], birth, interactive), pids[1..], birth + 1, interactive)
  }

  lemma {:induction false} WithOneMore(j: Job, pids: seq<int>, birth: nat, interactive: bool, n: nat)
    requires n < |pids|
    ensures WithProcesses(j, pids[..n + 1], birth, interactive)
      == WithProcess(WithProcesses(j, pids[..n], birth, interactive), pids[n], birth + n, interactive)
    decreases n
  {
    if n == 0 {
      assert pids[..1][1..] == [] && pids[..0] == [];
    } else {
      assert pids[..n + 1][1..] == pids[1..][..n] && pids[..n][1..] == pids[1..][..n - 1];
      WithOneMore(WithProcess(j, pids[0], birth, interactive), pids[1..], birth + 1, interactive, n - 1);
    }
  }

  /** The table once every stage has been forked. */
  function Forked(jobs: seq<Job>, id: nat, num: int, name: string, pids: seq<int>, birth: nat, interactive: bool)
    : seq<Job>
  {
    var t := WithNewJob(jobs, id, num, name);
    t[0 := WithProcesses(t[0], pids, birth, interactive)]
  }

  /** The end of `ExecCommand`: batch and foreground jobs are waited for, background jobs announced. */
  function AfterForks(t: seq<Job>, interactive: bool, background: bool, replies: seq<Reply>): (seq<Job>, seq<Line>)
    requires t != [] && Peopled(t)
  {
    if interactive && background then
      (t[0 := t[0].(notified := true, foreground := false)], [ProcessesLine(t[0].num, Pids(t[0].procs))])
    else
      var u := if interactive then t[0 := t[0].(foreground := true)] else t;
      assert t[0] in t;
      assert Peopled(u);
      (Waited(u, 0, replies), [])
  }
}
