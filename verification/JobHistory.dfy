/** What stands behind the table of a run: each job is one launch, and each builtin step is what the method does. */
module JobHistory {
  import opened JobTable
  import opened JobRuns
  import opened JobSafety
  import opened JobPasses
  import opened Builtins

  /* ---- builtins ---- */

  /** What `fg` does to a shell at its prompt. */
  lemma FgStepDoes(w: State, num: int)
    requires Enabled(w, Fg(num))
    ensures NoneNumbered(w.jobs, num) ==> Apply(w, Fg(num)) == w
    ensures forall i | NumberedAt(w.jobs, num, i) :: var r := Apply(w, Fg(num));
      && r == w.(jobs := r.jobs, phase := Waiting(i), log := w.log + [Resumed(w.jobs[i].id, true)])
      && r.jobs == w.jobs[i := ToForeground(w.jobs[i])]
  {
    hide Numbered, ToForeground;
    NumberedIs(w.jobs, num);
  }

  /**
   `fg` and its wait, as steps of a run, are what the method does on the same answers: the job with the number, and
   no other, is resumed and waited for, and the log says so. Where no job has the number nothing happens.
   */
  lemma FgAsRun(ws: seq<State>, ss: seq<Step>, m: nat, n: nat, i: nat)
    requires IsRun(ws, ss) && m < n <= |ss| && ss[m].Fg? && NumberedAt(ws[m].jobs, ss[m].num, i)
    requires (forall k | m < k < n :: ws[k].phase == Waiting(i)) && (ws[n].phase == Idle || ws[n].phase == Waiting(i))
    ensures Foreground(ws[m].jobs, i, Replies(ws, ss, m + 1, n), ws[n].jobs)
    ensures Peopled(ws[m].jobs)
      && ws[n].jobs == AfterFg(ws[m].jobs, [ss[m].num], Replies(ws, ss, m + 1, n)).0
    ensures ws[m + 1].log == ws[m].log + [Resumed(ws[m].jobs[i].id, true)]
  {
    var num, jobs, replies := ss[m].num, ws[m].jobs, Replies(ws, ss, m + 1, n);
    AtStep(ws, ss, m);
    FgStepDoes(ws[m], num);
    ResumedIs(jobs[i]);
    ResumedPeopled(jobs, i);
    FgDoes(jobs, [num], replies);
    NumberedIs(jobs, num);
    var v := ToForeground(jobs[i]);
    hide Apply, Enabled, Waited, Numbered, ToForeground, Replies, IsForward;
    WaitFrom(ws, ss, m + 1, n, i);
    assert IsForward(v, jobs[i]) && Peopled(jobs[i := v]) && ws[n].jobs == Waited(jobs[i := v], i, replies);
  }

  lemma AtStep(ws: seq<State>, ss: seq<Step>, m: nat)
    requires IsRun(ws, ss) && m < |ss|
    ensures Enabled(ws[m], ss[m]) && ws[m + 1] == Apply(ws[m], ss[m])
  {
    hide Enabled, Apply;
  }

  lemma NoReplies(ws: seq<State>, ss: seq<Step>, n: nat)
    requires IsRun(ws, ss) && n <= |ss|
    ensures Replies(ws, ss, n, n) == []
  {
  }

  /** The wait of a run from step `m` on, be it over at once. */
  lemma WaitFrom(ws: seq<State>, ss: seq<Step>, m: nat, n: nat, i: nat)
    requires IsRun(ws, ss) && m <= n <= |ss| && i < |ws[m].jobs| && Peopled(ws[m].jobs)
    requires (forall k | m <= k < n :: ws[k].phase == Waiting(i)) && (ws[n].phase == Idle || ws[n].phase == Waiting(i))
    ensures ws[n].jobs == Waited(ws[m].jobs, i, Replies(ws, ss, m, n))
  {
    hide Waited, Enabled, Apply, Replies;
    if m < n {
      WaitAsRun(ws, ss, m, n, i);
    } else {
      NoReplies(ws, ss, n);
      WaitedNone(ws[n].jobs, i);
    }
  }

  /** The job at `i`, and no other, was resumed in the background, and the log says so. */
  predicate Returned(w: State, i: int, r: State) {
    && 0 <= i < |w.jobs| == |r.jobs| && IsBack(r.jobs[i], w.jobs[i])
    && r == w.(jobs := w.jobs[i := r.jobs[i]], log := w.log + [Resumed(w.jobs[i].id, false)])
  }

  lemma SentBackDoes(w: State, i: nat)
    requires w.phase == Idle && i <= |w.jobs|
    ensures i < |w.jobs| ==> Returned(w, i, SentBack(w, i))
    ensures i < |w.jobs| ==> SentBack(w, i).jobs == w.jobs[i := ToBackground(w.jobs[i])]
  {
    hide ToBackground, IsBack;
    if i < |w.jobs| {
      ResumedIs(w.jobs[i]);
    }
  }

  /**
   `bg` and `kill`, as steps of a run, are what the methods do: the job with the number, or the newest stopped job,
   and no other, is resumed in the background; where there is none nothing happens.
   */
  lemma BackAsRun(w: State, s: Step)
    requires Enabled(w, s) && (s.Bg? || s.BgStopped? || s.Kill?)
    ensures var r := Apply(w, s);
      && (s.Bg? ==> r.jobs == AfterBg(w.jobs, [s.num]).0)
      && (s.BgStopped? ==> r.jobs == AfterBg(w.jobs, []).0)
      && (s.Kill? ==> forall reachable :: r.jobs == Killed(w.jobs, [s.num], reachable).0)
    ensures var r := Apply(w, s);
      if s.BgStopped? then
        && ((forall j | j in w.jobs :: j.run != Stopped) ==> r == w)
        && forall i | StoppedAt(w.jobs, i) :: Returned(w, i, r)
      else
        && (NoneNumbered(w.jobs, s.num) ==> r == w)
        && forall i | NumberedAt(w.jobs, s.num, i) :: Returned(w, i, r)
  {
    hide Numbered, FirstStopped, ToBackground, SentBack, Returned, Killed;
    if s.BgStopped? {
      StoppedIs(w.jobs);
      SentBackDoes(w, FirstStopped(w.jobs));
    } else {
      NumberedIs(w.jobs, s.num);
      SentBackDoes(w, Numbered(w.jobs, s.num));
      KilledOne(w.jobs, s.num);
    }
    NotSent(w);
  }

  lemma NotSent(w: State)
    requires w.phase == Idle
    ensures SentBack(w, |w.jobs|) == w
  {
  }

  lemma KilledOne(jobs: seq<Job>, num: int)
    ensures var i := Numbered(jobs, num); forall reachable ::
      Killed(jobs, [num], reachable).0 == if i < |jobs| then jobs[i := ToBackground(jobs[i])] else jobs
  {
    hide Numbered, ToBackground;
    assert [num][1..] == [];
  }

  /* ---- launching ---- */

  /** The pids of the forks from step `m` on, in their order. */
  function ForkedPids(ss: seq<Step>, m: nat, n: nat): seq<int>
    requires m <= n <= |ss|
    decreases n
  {
    if m == n then [] else ForkedPids(ss, m, n - 1) + if ss[n - 1].Fork? then [ss[n - 1].pid] else []
  }

  /** The table of a launch with these forks behind it. */
  function LaunchTable(w: State, s: Step, pids: seq<int>): seq<Job>
    requires s.BeginJob?
  {
    Forked(w.jobs, w.ids, w.numJobs + 1, s.name, pids, w.births, s.interactive)
  }

  /** A launch that began at step `m` has come to state `k`. */
  predicate LaunchingTo(ws: seq<State>, ss: seq<Step>, m: nat, k: nat)
    requires |ws| == |ss| + 1 && m < k < |ws| && ss[m].BeginJob?
  {
    var pids := ForkedPids(ss, m + 1, k);
    && ws[k].phase == Launching(ss[m].interactive, ss[m].background) && ws[k].births == ws[m].births + |pids|
    && ws[k].jobs == LaunchTable(ws[m], ss[m], pids)
  }

  lemma LaunchBegins(ws: seq<State>, ss: seq<Step>, m: nat)
    requires IsRun(ws, ss) && m < |ss| && ss[m].BeginJob?
    ensures LaunchingTo(ws, ss, m, m + 1)
  {
    AtStep(ws, ss, m);
    var t := WithNewJob(ws[m].jobs, ws[m].ids, ws[m].numJobs + 1, ss[m].name);
    assert t[0 := t[0]] == t;
  }

  /** What one step does to a launch. */
  lemma LaunchingStep(w: State, s: Step)
    requires w.phase.Launching? && Enabled(w, s) && !s.FinishLaunch?
    ensures !s.WaitReply? && !s.DrainReply? && w.jobs != []
    ensures var r := Apply(w, s);
      && r.phase == w.phase && r.births == w.births + (if s.Fork? then 1 else 0)
      && r.jobs == if s.Fork? then w.jobs[0 := WithProcess(w.jobs[0], s.pid, w.births, w.phase.interactive)] else w.jobs
  {
    hide WithProcess;
  }

  lemma ForkedOneMore(jobs: seq<Job>, id: nat, num: int, name: string, pids: seq<int>, pid: int, birth: nat,
                      interactive: bool)
    ensures var t := Forked(jobs, id, num, name, pids, birth, interactive);
      && t != []
      && Forked(jobs, id, num, name, pids + [pid], birth, interactive)
         == t[0 := WithProcess(t[0], pid, birth + |pids|, interactive)]
  {
    hide WithProcess, WithProcesses;
    var t := WithNewJob(jobs, id, num, name);
    var more := pids + [pid];
    WithOneMore(t[0], more, birth, interactive, |pids|);
    assert more[..|pids|] == pids && more[..|pids| + 1] == more;
  }

  /** One step more of a launch. */
  lemma LaunchGoesOn(ws: seq<State>, ss: seq<Step>, m: nat, k: nat)
    requires |ws| == |ss| + 1 && m < k < |ss| && ss[m].BeginJob? && !ss[k].FinishLaunch?
    requires LaunchingTo(ws, ss, m, k) && Enabled(ws[k], ss[k]) && ws[k + 1] == Apply(ws[k], ss[k])
    ensures LaunchingTo(ws, ss, m, k + 1) && !ss[k].WaitReply? && !ss[k].DrainReply?
  {
    hide Apply, Enabled, Forked;
    LaunchingStep(ws[k], ss[k]);
    var s, w, pids := ss[m], ws[m], ForkedPids(ss, m + 1, k);
    if ss[k].Fork? {
      ForkedOneMore(w.jobs, w.ids, w.numJobs + 1, s.name, pids, ss[k].pid, w.births, s.interactive);
      assert ForkedPids(ss, m + 1, k + 1) == pids + [ss[k].pid];
    } else {
      assert ForkedPids(ss, m + 1, k + 1) == pids;
    }
  }

  lemma {:induction false} ForksAsRun(ws: seq<State>, ss: seq<Step>, m: nat, k: nat)
    requires IsRun(ws, ss) && m < k <= |ss| && ss[m].BeginJob?
    requires forall a | m < a < k :: !ss[a].FinishLaunch?
    ensures LaunchingTo(ws, ss, m, k)
    ensures forall a | m <= a < k :: !ss[a].WaitReply? && !ss[a].DrainReply?
    decreases k
  {
    hide Apply, Enabled, LaunchingTo;
    if k == m + 1 {
      LaunchBegins(ws, ss, m);
    } else {
      ForksAsRun(ws, ss, m, k - 1);
      AtStep(ws, ss, k - 1);
      LaunchGoesOn(ws, ss, m, k - 1);
    }
  }

  /** Steps that read no reply. */
  lemma {:induction false} QuietSteps(ws: seq<State>, ss: seq<Step>, m: nat, p: nat, n: nat)
    requires IsRun(ws, ss) && m <= p <= n <= |ss|
    requires forall a | m <= a < p :: !ss[a].WaitReply? && !ss[a].DrainReply?
    ensures Replies(ws, ss, m, n) == Replies(ws, ss, p, n)
    decreases p - m
  {
    hide IsRun;
    if m < p {
      QuietSteps(ws, ss, m + 1, p, n);
      assert [] + Replies(ws, ss, m + 1, n) == Replies(ws, ss, m + 1, n);
    }
  }

  /** The end of a launch. */
  lemma FinishDoes(w: State, interactive: bool, background: bool, replies: seq<Reply>)
    requires Enabled(w, FinishLaunch) && w.phase == Launching(interactive, background)
    requires w.jobs != [] && Peopled(w.jobs)
    ensures var r, t := Apply(w, FinishLaunch), AfterForks(w.jobs, interactive, background, replies).0;
      if interactive && background then r.phase == Idle && r.jobs == t
      else r.phase == Waiting(0) && r.jobs != [] && Peopled(r.jobs) && t == Waited(r.jobs, 0, replies)
  {
    hide Waited;
  }

  /** The shell has left `now` of a launch on these pids and replies: what the method leaves, and what it should. */
  ghost predicate LaunchLeaves(w: State, s: Step, pids: seq<int>, replies: seq<Reply>, now: seq<Job>)
    requires s.BeginJob?
  {
    && pids != [] && LaunchTable(w, s, pids) != [] && Peopled(LaunchTable(w, s, pids))
    && var (t, lines) := AfterForks(LaunchTable(w, s, pids), s.interactive, s.background, replies);
      && now == t
      && Launched(w.jobs, w.ids, w.numJobs + 1, s.name, pids, w.births, s.interactive, s.background, replies, now,
                  lines)
  }

  lemma LaunchDoesAll(w: State, s: Step, pids: seq<int>, replies: seq<Reply>)
    requires s.BeginJob? && pids != [] && Peopled(w.jobs)
    ensures var t := LaunchTable(w, s, pids);
      && t != [] && Peopled(t)
      && LaunchLeaves(w, s, pids, replies, AfterForks(t, s.interactive, s.background, replies).0)
  {
    hide Forked, Launched, AfterForks;
    LaunchDoes(w.jobs, w.ids, w.numJobs + 1, s.name, pids, w.births, s.interactive, s.background, replies);
  }

  /**
   A whole launch of a run, from `BeginJob` over its forks to `FinishLaunch` at step `p` and, where the shell waits,
   on to state `n`, leaves what `ExecCommand` leaves on the same pids and replies. An interactive background launch
   is over at once and has read no reply.
   */
  lemma LaunchAsRun(ws: seq<State>, ss: seq<Step>, m: nat, p: nat, n: nat)
    requires IsRun(ws, ss) && m < p < n <= |ss| && ss[m].BeginJob? && ss[p].FinishLaunch?
    requires forall a | m < a < p :: !ss[a].FinishLaunch?
    requires ss[m].interactive && ss[m].background ==> n == p + 1
    requires forall k | p < k < n :: ws[k].phase == Waiting(0)
    requires ws[n].phase == Idle || ws[n].phase == Waiting(0)
    ensures LaunchLeaves(ws[m], ss[m], ForkedPids(ss, m + 1, p), Replies(ws, ss, m, n), ws[n].jobs)
    ensures ss[m].interactive && ss[m].background ==> Replies(ws, ss, m, n) == [] && ws[n].phase == Idle
  {
    hide Apply, Enabled, Waited, LaunchTable, LaunchLeaves, Replies, Peopled, ForkedPids, AfterForks, IsRun;
    LaunchEnds(ws, ss, m, p, Replies(ws, ss, m, n));
    AtFinish(ws, ss, m, p, n);
  }

  /** Up to the end of the launch. */
  lemma LaunchEnds(ws: seq<State>, ss: seq<Step>, m: nat, p: nat, replies: seq<Reply>)
    requires IsRun(ws, ss) && m < p < |ss| && ss[m].BeginJob? && ss[p].FinishLaunch?
    requires forall a | m < a < p :: !ss[a].FinishLaunch?
    ensures var s, r, pids := ss[m], ws[p + 1], ForkedPids(ss, m + 1, p);
      if s.interactive && s.background then
        r.phase == Idle && LaunchLeaves(ws[m], s, pids, replies, r.jobs)
      else
        && r.phase == Waiting(0) && r.jobs != [] && Peopled(r.jobs)
        && LaunchLeaves(ws[m], s, pids, replies, Waited(r.jobs, 0, replies))
  {
    hide Apply, Enabled, Waited, LaunchTable, LaunchLeaves, Peopled, AfterForks;
    ForksAsRun(ws, ss, m, p);
    AtStep(ws, ss, p);
    SomeForked(ws, ss, m, p);
    LaunchDoesAll(ws[m], ss[m], ForkedPids(ss, m + 1, p), replies);
    FinishDoes(ws[p], ss[m].interactive, ss[m].background, replies);
  }

  /** Behind the end of a launch: the wait, or nothing. */
  lemma AtFinish(ws: seq<State>, ss: seq<Step>, m: nat, p: nat, n: nat)
    requires IsRun(ws, ss) && m < p < n <= |ss| && ss[m].BeginJob? && ss[p].FinishLaunch?
    requires forall a | m < a < p :: !ss[a].FinishLaunch?
    requires forall k | p < k < n :: ws[k].phase == Waiting(0)
    requires ws[n].phase == Idle || ws[n].phase == Waiting(0)
    ensures |ws| == |ss| + 1 && (n == p + 1 ==> Replies(ws, ss, m, n) == [])
    ensures ws[p + 1].jobs != [] && Peopled(ws[p + 1].jobs) ==>
      ws[n].jobs == Waited(ws[p + 1].jobs, 0, Replies(ws, ss, m, n))
  {
    hide Apply, Enabled, Waited, Peopled, Replies, IsRun;
    LaunchReplies(ws, ss, m, p, n);
    if ws[p + 1].jobs != [] && Peopled(ws[p + 1].jobs) {
      WaitFrom(ws, ss, p + 1, n, 0);
    }
  }

  /** A launch reads no reply. */
  lemma LaunchReplies(ws: seq<State>, ss: seq<Step>, m: nat, p: nat, n: nat)
    requires IsRun(ws, ss) && m < p < n <= |ss| && ss[m].BeginJob? && ss[p].FinishLaunch?
    requires forall a | m < a < p :: !ss[a].FinishLaunch?
    ensures |ws| == |ss| + 1 && Replies(ws, ss, m, n) == Replies(ws, ss, p + 1, n)
    ensures n == p + 1 ==> Replies(ws, ss, m, n) == []
  {
    hide Apply, Enabled, Forked, ForkedPids, LaunchingTo, LaunchTable, Replies;
    ForksAsRun(ws, ss, m, p);
    QuietSteps(ws, ss, m, p + 1, n);
    NoReplies(ws, ss, n);
  }

  lemma SomeForked(ws: seq<State>, ss: seq<Step>, m: nat, p: nat)
    requires IsRun(ws, ss) && m < p < |ss| && ss[m].BeginJob? && ss[p].FinishLaunch? && LaunchingTo(ws, ss, m, p)
    ensures ForkedPids(ss, m + 1, p) != [] && Peopled(ws[m].jobs)
  {
    AtStep(ws, ss, m);
    AtStep(ws, ss, p);
    assert WithProcesses(WithNewJob(ws[m].jobs, ws[m].ids, ws[m].numJobs + 1, ss[m].name)[0], [], ws[m].births,
        ss[m].interactive).procs == [];
  }

  /* ---- names and numbers ---- */

  predicate Named(j: Job, k: Job) { j.id == k.id && j.num == k.num && j.name == k.name }

  predicate NamedIn(j: Job, jobs: seq<Job>) { exists k :: k in jobs && Named(j, k) }

  predicate AllNamedIn(now: seq<Job>, jobs: seq<Job>) { forall j | j in now :: NamedIn(j, jobs) }

  lemma NamedWith(jobs: seq<Job>, i: nat, v: Job)
    requires i < |jobs| && Named(v, jobs[i])
    ensures AllNamedIn(jobs, jobs) && AllNamedIn(jobs[i := v], jobs)
  {
    forall j | j in jobs[i := v] ensures NamedIn(j, jobs) {
      assert jobs[i] in jobs && (j == v || j in jobs);
    }
  }

  lemma NamedTwice(c: seq<Job>, b: seq<Job>, a: seq<Job>)
    requires AllNamedIn(c, b) && AllNamedIn(b, a)
    ensures AllNamedIn(c, a)
  {
    forall j | j in c ensures NamedIn(j, a) {
      var k :| k in b && Named(j, k);
      var i :| i in a && Named(k, i);
    }
  }

  lemma NamedSame(jobs: seq<Job>)
    ensures AllNamedIn(jobs, jobs)
  {
    forall j | j in jobs ensures NamedIn(j, jobs) {
      assert Named(j, j);
    }
  }

  lemma NamedMarks(a: Job, b: Job)
    requires SameButMarks(a, b)
    ensures Named(b, a)
  {
    assert a.(procs := []).id == b.(procs := []).id && a.(procs := []).num == b.(procs := []).num;
    assert a.(procs := []).name == b.(procs := []).name;
  }

  lemma NamedReply(jobs: seq<Job>, reply: Reply)
    ensures AllNamedIn(AfterReply(jobs, reply).0, jobs)
  {
    hide SameButMarks, AfterReply, Named;
    AfterReplyKeeps(jobs, reply);
    var t := AfterReply(jobs, reply).0;
    forall j | j in t ensures NamedIn(j, jobs) {
      var i :| 0 <= i < |t| && t[i] == j;
      NamedMarks(jobs[i], t[i]);
    }
  }

  lemma NamedJudge(j: Job)
    requires j.procs != []
    ensures Named(Judge(j), j) && forall k | k in Survivor(Judge(j)) :: Named(k, j)
  {
  }

  lemma {:induction false} NamedSwept(jobs: seq<Job>)
    requires Peopled(jobs)
    ensures AllNamedIn(Swept(jobs), jobs)
  {
    hide Judge, Survivor, Named;
    if jobs != [] {
      assert forall j | j in jobs[1..] :: j in jobs;
      NamedSwept(jobs[1..]);
      NamedJudge(jobs[0]);
      forall j | j in Swept(jobs) ensures NamedIn(j, jobs) {
        if j in Swept(jobs[1..]) {
          var k :| k in jobs[1..] && Named(j, k);
        }
      }
    }
  }

  /** What an event says is said of this job: its number, and its name where it is done. */
  predicate SaysOf(e: Event, j: Job) {
    e.id == j.id &&
    match e
    case StopReport(_, line) => line == StoppedLine(j.num)
    case Unlinked(_, _, said) => forall line | line in said :: line == DoneLine(j.num, j.name)
    case Resumed(_, _) => true
  }

  predicate SaysIn(e: Event, jobs: seq<Job>) { exists j :: j in jobs && SaysOf(e, j) }

  predicate AllSayIn(log: seq<Event>, jobs: seq<Job>) { forall e | e in log :: SaysIn(e, jobs) }

  lemma EventsSay(j: Job)
    requires j.procs != []
    ensures forall e | e in EventsOf(Judge(j)) :: SaysOf(e, j)
  {
    NamedJudge(j);
    hide Judge;
  }

  lemma {:induction false} SweepSays(jobs: seq<Job>)
    requires Peopled(jobs)
    ensures AllSayIn(SweepEvents(jobs), jobs)
  {
    hide Judge, EventsOf, SaysOf;
    if jobs != [] {
      assert forall j | j in jobs[1..] :: j in jobs;
      SweepSays(jobs[1..]);
      EventsSay(jobs[0]);
      forall e | e in SweepEvents(jobs) ensures SaysIn(e, jobs) {
        if e in SweepEvents(jobs[1..]) {
          var j :| j in jobs[1..] && SaysOf(e, j);
        }
      }
    }
  }

  lemma SaysAlike(e: Event, j: Job, k: Job)
    requires Named(j, k) && SaysOf(e, j)
    ensures SaysOf(e, k)
  {
  }

  lemma SayBefore(log: seq<Event>, now: seq<Job>, jobs: seq<Job>)
    requires AllNamedIn(now, jobs) && AllSayIn(log, now)
    ensures AllSayIn(log, jobs)
  {
    hide Named, SaysOf;
    forall e | e in log ensures SaysIn(e, jobs) {
      var j :| j in now && SaysOf(e, j);
      assert NamedIn(j, jobs);
      var k :| k in jobs && Named(j, k);
      SaysAlike(e, j, k);
    }
  }

  /** What a step other than `BeginJob` does to names, and what the events it adds speak of. */
  predicate KeepsNames(w: State, r: State, added: seq<Event>) {
    r.log == w.log + added && AllNamedIn(r.jobs, w.jobs) && AllSayIn(added, w.jobs)
  }

  lemma KeepsSame(w: State, r: State)
    requires r.log == w.log && r.jobs == w.jobs
    ensures KeepsNames(w, r, [])
  {
    NamedSame(w.jobs);
  }

  lemma KeepsOne(w: State, r: State, i: nat, v: Job, added: seq<Event>)
    requires i < |w.jobs| && Named(v, w.jobs[i]) && r.jobs == w.jobs[i := v] && r.log == w.log + added
    requires |added| <= 1 && (|added| == 1 ==> added[0].Resumed? && added[0].id == w.jobs[i].id)
    ensures KeepsNames(w, r, added)
  {
    NamedWith(w.jobs, i, v);
    assert forall e | e in added :: SaysOf(e, w.jobs[i]);
  }

  lemma KeepsWaiting(w: State, pid: int)
    requires Enabled(w, WaitReply(pid))
    ensures KeepsNames(w, Apply(w, WaitReply(pid)), [])
  {
    hide AfterReply, Judge, AllNamedIn;
    var reply, i := Reply(pid, w.children[pid].status), w.phase.i;
    var (t, ok) := AfterReply(w.jobs, reply);
    StillPeopled(w.jobs, reply, i);
    NamedReply(w.jobs, reply);
    NamedSame(w.jobs);
    if ok {
      NamedJudge(t[i]);
      NamedWith(t, i, Judge(t[i]));
      NamedTwice(t[i := Judge(t[i])], t, w.jobs);
    }
    assert w.log + [] == w.log;
  }

  lemma SweepKeeps(w: State) returns (added: seq<Event>)
    requires w.phase == Draining
    ensures KeepsNames(w, JobRuns.Sweep(w), added)
  {
    hide AllNamedIn, AllSayIn;
    added := SweepEvents(w.jobs);
    NamedSwept(w.jobs);
    SweepSays(w.jobs);
  }

  lemma KeepsDraining(w: State, pid: int) returns (added: seq<Event>)
    requires Enabled(w, DrainReply(pid))
    ensures KeepsNames(w, Apply(w, DrainReply(pid)), added)
  {
    hide AfterReply, AllNamedIn, AllSayIn, JobRuns.Sweep;
    added := [];
    var reply := Reply(pid, w.children[pid].status);
    var (t, ok) := AfterReply(w.jobs, reply);
    AfterReplyKeeps(w.jobs, reply);
    NamedReply(w.jobs, reply);
    NothingAdded(w.jobs);
    assert w.log + [] == w.log;
    if !ok {
      var after: State := w.(children := Reaped(w.children, pid), jobs := t);
      added := SweepKeeps(after);
      NamedTwice(JobRuns.Sweep(after).jobs, t, w.jobs);
      SayBefore(added, t, w.jobs);
    }
  }

  lemma NothingAdded(jobs: seq<Job>)
    ensures AllSayIn([], jobs)
  {
  }

  lemma ResumedNamed(j: Job)
    ensures Named(ToForeground(j), j) && Named(ToBackground(j), j)
    ensures Named(j.(notified := true, foreground := false), j) && Named(j.(foreground := true), j) && Named(j, j)
    ensures forall pid, birth: nat, interactive :: Named(WithProcess(j, pid, birth, interactive), j)
  {
  }

  lemma KeepsBack(w: State, i: nat) returns (added: seq<Event>)
    requires w.phase == Idle && i <= |w.jobs|
    ensures KeepsNames(w, SentBack(w, i), added)
  {
    hide ToBackground, Named, KeepsNames;
    added := [];
    if i < |w.jobs| {
      added := [Resumed(w.jobs[i].id, false)];
      ResumedNamed(w.jobs[i]);
      KeepsOne(w, SentBack(w, i), i, ToBackground(w.jobs[i]), added);
    } else {
      KeepsSame(w, SentBack(w, i));
    }
  }

  lemma KeepsFg(w: State, num: int) returns (added: seq<Event>)
    requires Enabled(w, Fg(num))
    ensures KeepsNames(w, Apply(w, Fg(num)), added)
  {
    hide ToForeground, Named, KeepsNames, Numbered;
    added := [];
    var i := Numbered(w.jobs, num);
    if i < |w.jobs| {
      added := [Resumed(w.jobs[i].id, true)];
      ResumedNamed(w.jobs[i]);
      KeepsOne(w, Apply(w, Fg(num)), i, ToForeground(w.jobs[i]), added);
    } else {
      KeepsSame(w, Apply(w, Fg(num)));
    }
  }

  lemma KeepsLaunching(w: State, s: Step)
    requires Enabled(w, s) && (s.Fork? || s.FinishLaunch?)
    ensures KeepsNames(w, Apply(w, s), [])
  {
    hide Named, KeepsNames, WithProcess;
    ResumedNamed(w.jobs[0]);
    var r := Apply(w, s);
    assert r.log == w.log + [];
    assert r.jobs == w.jobs[0 := r.jobs[0]] && Named(r.jobs[0], w.jobs[0]);
    KeepsOne(w, r, 0, r.jobs[0], []);
  }

  /** Every step but `BeginJob`. */
  lemma StepKeepsNames(w: State, s: Step) returns (added: seq<Event>)
    requires Enabled(w, s) && !s.BeginJob?
    ensures KeepsNames(w, Apply(w, s), added)
  {
    hide KeepsNames, JobRuns.Sweep, SentBack, Waited1, Drained1, Finish;
    added := [];
    match s
    case Fork(_) => KeepsLaunching(w, s);
    case FinishLaunch => KeepsLaunching(w, s);
    case WaitReply(pid) => KeepsWaiting(w, pid);
    case DrainReply(pid) => added := KeepsDraining(w, pid);
    case DrainNothing => added := SweepKeeps(w);
    case Fg(num) => added := KeepsFg(w, num);
    case Bg(num) => added := KeepsBack(w, Numbered(w.jobs, num));
    case BgStopped => added := KeepsBack(w, FirstStopped(w.jobs));
    case Kill(num) => added := KeepsBack(w, Numbered(w.jobs, num));
    case Halt(_, _) => KeepsSame(w, Apply(w, s));
    case Continue(_) => KeepsSame(w, Apply(w, s));
    case End(_, _) => KeepsSame(w, Apply(w, s));
    case WaitFails => KeepsSame(w, Apply(w, s));
    case BeginPass => KeepsSame(w, Apply(w, s));
  }

  /** The job is the one whose launch began at step `m`: its number is one more than the counter was then. */
  predicate LaunchedAt(ws: seq<State>, ss: seq<Step>, m: nat, j: Job)
    requires |ws| == |ss| + 1 && m < |ss|
  {
    ss[m].BeginJob? && j.id == ws[m].ids && j.num == ws[m].numJobs + 1 && j.name == ss[m].name
  }

  /** The event is of the job whose launch began at step `m`, and gives its number and name. */
  predicate ReportedOf(ws: seq<State>, ss: seq<Step>, m: nat, e: Event)
    requires |ws| == |ss| + 1 && m < |ss|
  {
    && ss[m].BeginJob? && e.id == ws[m].ids
    && (e.StopReport? ==> e.line == StoppedLine(ws[m].numJobs + 1))
    && (e.Unlinked? ==> forall line | line in e.said :: line == DoneLine(ws[m].numJobs + 1, ss[m].name))
  }

  ghost predicate Made(ws: seq<State>, ss: seq<Step>, n: nat, j: Job)
    requires |ws| == |ss| + 1 && n < |ws|
  {
    exists m :: 0 <= m < n && LaunchedAt(ws, ss, m, j)
  }

  ghost predicate Reported(ws: seq<State>, ss: seq<Step>, n: nat, e: Event)
    requires |ws| == |ss| + 1 && n < |ws|
  {
    exists m :: 0 <= m < n && ReportedOf(ws, ss, m, e)
  }

  ghost predicate HistoryTo(ws: seq<State>, ss: seq<Step>, n: nat)
    requires |ws| == |ss| + 1 && n < |ws|
  {
    && (forall j | j in ws[n].jobs :: Made(ws, ss, n, j))
    && (forall e | e in ws[n].log :: Reported(ws, ss, n, e))
  }

  lemma HistoryKept(ws: seq<State>, ss: seq<Step>, n: nat, added: seq<Event>)
    requires |ws| == |ss| + 1 && n < |ss| && HistoryTo(ws, ss, n) && KeepsNames(ws[n], ws[n + 1], added)
    ensures HistoryTo(ws, ss, n + 1)
  {
    hide LaunchedAt, ReportedOf, Named, SaysOf;
    var then', now := n + 1, ws[n + 1];
    forall j | j in now.jobs ensures Made(ws, ss, then', j) {
      assert NamedIn(j, ws[n].jobs);
      var k :| k in ws[n].jobs && Named(j, k);
      assert Made(ws, ss, n, k);
      var m :| 0 <= m < n && LaunchedAt(ws, ss, m, k);
      LaunchedAlike(ws, ss, m, k, j);
    }
    forall e | e in now.log ensures Reported(ws, ss, then', e) {
      if e in added {
        assert SaysIn(e, ws[n].jobs);
        var j :| j in ws[n].jobs && SaysOf(e, j);
        assert Made(ws, ss, n, j);
        var m :| 0 <= m < n && LaunchedAt(ws, ss, m, j);
        SaysLaunched(ws, ss, m, j, e);
      } else {
        assert e in ws[n].log && Reported(ws, ss, n, e);
      }
    }
  }

  lemma LaunchedAlike(ws: seq<State>, ss: seq<Step>, m: nat, k: Job, j: Job)
    requires |ws| == |ss| + 1 && m < |ss| && LaunchedAt(ws, ss, m, k) && Named(j, k)
    ensures LaunchedAt(ws, ss, m, j)
  {
  }

  lemma SaysLaunched(ws: seq<State>, ss: seq<Step>, m: nat, j: Job, e: Event)
    requires |ws| == |ss| + 1 && m < |ss| && LaunchedAt(ws, ss, m, j) && SaysOf(e, j)
    ensures ReportedOf(ws, ss, m, e)
  {
  }

  lemma HistoryBegins(ws: seq<State>, ss: seq<Step>, n: nat)
    requires IsRun(ws, ss) && n < |ss| && HistoryTo(ws, ss, n) && ss[n].BeginJob?
    ensures HistoryTo(ws, ss, n + 1)
  {
    AtStep(ws, ss, n);
    assert ws[n + 1].log == ws[n].log && ws[n + 1].jobs[1..] == ws[n].jobs;
    assert LaunchedAt(ws, ss, n, ws[n + 1].jobs[0]);
    hide LaunchedAt, ReportedOf, Apply, Enabled, IsRun;
    var then', now := n + 1, ws[n + 1];
    forall e | e in now.log ensures Reported(ws, ss, then', e) {
      assert e in ws[n].log && Reported(ws, ss, n, e);
    }
    forall j | j in now.jobs ensures Made(ws, ss, then', j) {
      if j != now.jobs[0] {
        assert j in ws[n].jobs && Made(ws, ss, n, j);
      }
    }
  }

  /**
   In every run each listed job has the number and name it was launched with, and each report gives the number, and
   each "done" the name too, of the launch of the job it is about.
   */
  lemma {:induction false} JobsAreTheirLaunches(ws: seq<State>, ss: seq<Step>, n: nat)
    requires IsRun(ws, ss) && n < |ws|
    ensures forall j | j in ws[n].jobs :: Made(ws, ss, n, j)
    ensures forall e | e in ws[n].log :: Reported(ws, ss, n, e)
  {
    hide Enabled, Apply, LaunchedAt, ReportedOf, KeepsNames;
    if n > 0 {
      JobsAreTheirLaunches(ws, ss, n - 1);
      AtStep(ws, ss, n - 1);
      if ss[n - 1].BeginJob? {
        HistoryBegins(ws, ss, n - 1);
      } else {
        var added := StepKeepsNames(ws[n - 1], ss[n - 1]);
        HistoryKept(ws, ss, n - 1, added);
      }
    }
  }
}
