/**
 Runs of the shell with its children: the kernel lets children stop, continue and end at any time,
 and may give the pid of a reaped child to a new one; the shell launches, waits, notifies and runs builtins.
 */
module JobRuns {
  import opened JobTable

  datatype Mode = Live | Halted | Zombie

  /** A child that was forked and not yet reaped; `pending` says `waitpid` still has news of it. */
  datatype Child = Child(birth: nat, mode: Mode, pending: bool, status: WaitStatus)

  datatype Phase =
    | Idle
    | Launching(interactive: bool, background: bool)
    | Waiting(i: nat)
    | Draining

  /** What the shell says about a job, and when it forgets or resumes it. */
  datatype Event =
    | StopReport(id: nat, line: Line)
    | Unlinked(id: nat, foreground: bool, said: seq<Line>)
    | Resumed(id: nat, foreground: bool)

  datatype World = World(jobs: seq<Job>, numJobs: nat, ids: nat, births: nat,
                         children: map<int, Child>, phase: Phase, log: seq<Event>)

  predicate Sane(w: World) {
    && (w.phase.Launching? ==> w.jobs != [] && Peopled(w.jobs[1..]))
    && (!w.phase.Launching? ==> Peopled(w.jobs))
    && (w.phase.Waiting? ==> w.phase.i < |w.jobs|)
  }

  const START := World([], 0, 0, 0, map[], Idle, [])

  type State = w: World | Sane(w) witness START

  /** Steps of the children, of ExecCommand, of the wait loop, of the notification pass, and builtins. */
  datatype Step =
    | Halt(pid: int, signal: int)
    | Continue(pid: int)
    | End(pid: int, code: int)
    | BeginJob(name: string, interactive: bool, background: bool)
    | Fork(pid: int)
    | FinishLaunch
    | WaitReply(pid: int)
    | WaitFails
    | BeginPass
    | DrainReply(pid: int)
    | DrainNothing
    | Fg(num: int)
    | Bg(num: int)
    | BgStopped
    | Kill(num: int)

  predicate Pending(children: map<int, Child>, pid: int) { pid in children && children[pid].pending }

  predicate Enabled(w: State, s: Step) {
    match s
    case Halt(pid, _) => pid in w.children && w.children[pid].mode == Live
    case Continue(pid) => pid in w.children && w.children[pid].mode == Halted
    case End(pid, _) => pid in w.children && w.children[pid].mode != Zombie
    case BeginJob(_, _, _) => w.phase == Idle
    case Fork(pid) => w.phase.Launching? && pid > 0 && pid !in w.children
    case FinishLaunch => w.phase.Launching? && w.jobs[0].procs != []
    case WaitReply(pid) => w.phase.Waiting? && Pending(w.children, pid)
    case WaitFails => w.phase.Waiting?
    case BeginPass => w.phase == Idle
    case DrainReply(pid) => w.phase == Draining && Pending(w.children, pid)
    case DrainNothing => w.phase == Draining && forall pid | pid in w.children :: !Pending(w.children, pid)
    case Fg(_) => w.phase == Idle
    case Bg(_) => w.phase == Idle
    case BgStopped => w.phase == Idle
    case Kill(_) => w.phase == Idle
  }

  /** `waitpid` gives the news of one child: an ended child is gone, a stopped one has no more news. */
  function Reaped(children: map<int, Child>, pid: int): map<int, Child>
    requires pid in children
  {
    if children[pid].mode == Zombie then children - {pid}
    else children[pid := children[pid].(pending := false)]
  }

  function EventsOf(v: Job): seq<Event> {
    match v.run
    case Running => []
    case Stopped => if v.foreground || v.notified then [] else [StopReport(v.id, StoppedLine(v.num))]
    case Completed => [Unlinked(v.id, v.foreground, Announcement(v))]
  }

  function SweepEvents(jobs: seq<Job>): seq<Event>
    requires Peopled(jobs)
  {
    if jobs == [] then [] else EventsOf(Judge(jobs[0])) + SweepEvents(jobs[1..])
  }

  function Sweep(w: State): State
    requires w.phase == Draining
  {
    SweptPeopled(w.jobs);
    var kept := Swept(w.jobs);
    w.(jobs := kept, numJobs := if kept == [] then 0 else w.numJobs, phase := Idle, log := w.log + SweepEvents(w.jobs))
  }

  lemma {:induction false} SweptPeopled(jobs: seq<Job>)
    requires Peopled(jobs)
    ensures Peopled(Swept(jobs))
  {
    if jobs != [] {
      assert forall j | j in jobs[1..] :: j in jobs;
      SweptPeopled(jobs[1..]);
      JudgeKeepsProcs(jobs[0]);
    }
  }

  /** `bg` and `kill` on the job at `i`. */
  function SentBack(w: State, i: nat): State
    requires w.phase == Idle && i <= |w.jobs|
  {
    if i == |w.jobs| then w
    else
      ResumedPeopled(w.jobs, i);
      w.(jobs := w.jobs[i := ToBackground(w.jobs[i])], log := w.log + [Resumed(w.jobs[i].id, false)])
  }

  function Finish(w: State): State
    requires Enabled(w, FinishLaunch)
  {
    var t := w.jobs;
    assert t == [t[0]] + t[1..];
    if w.phase.interactive && w.phase.background then
      w.(jobs := t[0 := t[0].(notified := true, foreground := false)], phase := Idle)
    else
      w.(jobs := if w.phase.interactive then t[0 := t[0].(foreground := true)] else t, phase := Waiting(0))
  }

  /** One round of the wait loop. */
  function Waited1(w: State, pid: int): State
    requires Enabled(w, WaitReply(pid))
  {
    var reply := Reply(pid, w.children[pid].status);
    var (t, ok) := AfterReply(w.jobs, reply);
    var after := w.(children := Reaped(w.children, pid));
    var i := w.phase.i;
    StillPeopled(w.jobs, reply, i);
    if !ok then after.(phase := Idle)
    else after.(jobs := t[i := Judge(t[i])], phase := if Judge(t[i]).run == Running then w.phase else Idle)
  }

  lemma StillPeopled(jobs: seq<Job>, reply: Reply, i: nat)
    requires Peopled(jobs) && i < |jobs|
    ensures var t := AfterReply(jobs, reply).0;
      |t| == |jobs| && Peopled(t) && t[i].procs != [] && Peopled(t[i := Judge(t[i])])
  {
    hide Judge, AfterReply;
    AfterReplyKeeps(jobs, reply);
    var t := AfterReply(jobs, reply).0;
    assert t[i] in t;
    JudgeKeepsProcs(t[i]);
    PeopledWith(t, i, Judge(t[i]));
  }

  /** One round of the drain. */
  function Drained1(w: State, pid: int): State
    requires Enabled(w, DrainReply(pid))
  {
    var reply := Reply(pid, w.children[pid].status);
    var (t, ok) := AfterReply(w.jobs, reply);
    AfterReplyKeeps(w.jobs, reply);
    var after: State := w.(children := Reaped(w.children, pid), jobs := t);
    if ok then after else Sweep(after)
  }

  function Apply(w: State, s: Step): State
    requires Enabled(w, s)
  {
    match s
    case Halt(pid, signal) =>
      w.(children := w.children[pid := Child(w.children[pid].birth, Halted, true, StoppedBy(signal))])
    case Continue(pid) => w.(children := w.children[pid := w.children[pid].(mode := Live, pending := false)])
    case End(pid, code) => w.(children := w.children[pid := Child(w.children[pid].birth, Zombie, true, Ended(code))])
    case BeginJob(name, interactive, background) =>
      assert WithNewJob(w.jobs, w.ids, w.numJobs + 1, name)[1..] == w.jobs;
      w.(jobs := WithNewJob(w.jobs, w.ids, w.numJobs + 1, name), numJobs := w.numJobs + 1, ids := w.ids + 1,
         phase := Launching(interactive, background))
    case Fork(pid) =>
      var child := Child(w.births, Live, false, Ended(0));
      w.(jobs := w.jobs[0 := WithProcess(w.jobs[0], pid, w.births, w.phase.interactive)], births := w.births + 1,
         children := w.children[pid := child])
    case FinishLaunch => Finish(w)
    case WaitReply(pid) => Waited1(w, pid)
    case WaitFails => w.(phase := Idle)
    case BeginPass => w.(phase := Draining)
    case DrainReply(pid) => Drained1(w, pid)
    case DrainNothing => Sweep(w)
    case Fg(num) =>
      var i := Numbered(w.jobs, num);
      if i == |w.jobs| then w
      else
        ResumedPeopled(w.jobs, i);
        w.(jobs := w.jobs[i := ToForeground(w.jobs[i])], phase := Waiting(i),
           log := w.log + [Resumed(w.jobs[i].id, true)])
    case Bg(num) => SentBack(w, Numbered(w.jobs, num))
    case BgStopped => SentBack(w, FirstStopped(w.jobs))
    case Kill(num) => SentBack(w, Numbered(w.jobs, num))
  }

  /** A run from the start: every step is possible where it is taken. */
  predicate IsRun(ws: seq<State>, ss: seq<Step>) {
    && |ws| == |ss| + 1 && ws[0] == START
    && forall i | 0 <= i < |ss| :: Enabled(ws[i], ss[i]) && ws[i + 1] == Apply(ws[i], ss[i])
  }
}
