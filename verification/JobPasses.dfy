/** Whole passes of the shell: what the drain, the wait loop and the sweep do as one. */
module JobPasses {
  import opened JobTable
  import opened JobRuns
  import opened JobSafety

  /* ---- the sweep ---- */

  /** The jobs with a process that has not ended, or that is marked stopped. */
  function Unfinished(jobs: seq<Job>): seq<Job> {
    if jobs == [] then []
    else (if Finished(jobs[0].procs) then [] else [jobs[0]]) + Unfinished(jobs[1..])
  }

  predicate SameJob(a: Job, b: Job) {
    a.id == b.id && a.num == b.num && a.name == b.name && a.gid == b.gid && a.procs == b.procs
  }

  predicate SameJobs(x: seq<Job>, y: seq<Job>) {
    |x| == |y| && forall k | 0 <= k < |x| :: SameJob(x[k], y[k])
  }

  lemma SameJobsSum(x: seq<Job>, y: seq<Job>, a: seq<Job>, b: seq<Job>)
    requires SameJobs(x, y) && SameJobs(a, b)
    ensures SameJobs(x + a, y + b)
  {
    hide SameJob;
  }

  /** The pass leaves exactly the unfinished jobs, in their old order. */
  lemma {:induction false} SweepLeavesUnfinished(jobs: seq<Job>)
    requires Peopled(jobs)
    ensures SameJobs(Swept(jobs), Unfinished(jobs))
  {
    hide Judge, Finished, SameJobs, Survivor;
    if jobs == [] {
      FirstSame([], []);
    } else {
      assert forall j | j in jobs[1..] :: j in jobs;
      SweepLeavesUnfinished(jobs[1..]);
      FirstUnfinished(jobs[0]);
      var rest := if Finished(jobs[0].procs) then [] else [jobs[0]];
      SameJobsSum(Survivor(Judge(jobs[0])), rest, Swept(jobs[1..]), Unfinished(jobs[1..]));
    }
  }

  lemma FirstSame(x: seq<Job>, y: seq<Job>)
    requires |x| == |y| <= 1 && (|x| == 1 ==> SameJob(x[0], y[0]))
    ensures SameJobs(x, y)
  {
  }

  lemma FirstUnfinished(j: Job)
    requires j.procs != []
    ensures SameJobs(Survivor(Judge(j)), if Finished(j.procs) then [] else [j])
  {
    hide Finished, SameJobs, Settled, SomeStopped;
    JudgedCompleted(j);
    FirstSame(Survivor(Judge(j)), if Finished(j.procs) then [] else [j]);
  }

  function SaidBy(e: Event): seq<Line> {
    match e
    case StopReport(_, line) => [line]
    case Unlinked(_, _, said) => said
    case Resumed(_, _) => []
  }

  function SaidIn(log: seq<Event>): seq<Line> {
    if log == [] then [] else SaidBy(log[0]) + SaidIn(log[1..])
  }

  lemma {:induction false} SaidInSum(x: seq<Event>, y: seq<Event>)
    ensures SaidIn(x + y) == SaidIn(x) + SaidIn(y)
  {
    if x == [] {
      assert x + y == y;
    } else {
      assert (x + y)[1..] == x[1..] + y;
      SaidInSum(x[1..], y);
    }
  }

  lemma NothingSaid()
    ensures SaidIn([]) == []
  {
  }

  lemma EventPrints(v: Job)
    ensures SaidIn(EventsOf(v)) == Announcement(v)
  {
    if EventsOf(v) != [] {
      assert EventsOf(v)[1..] == [];
    }
  }

  /** The lines the pass prints are the ones its events carry. */
  lemma {:induction false} SweepPrints(jobs: seq<Job>)
    requires Peopled(jobs)
    ensures SaidIn(SweepEvents(jobs)) == Announced(jobs)
  {
    hide Judge, EventsOf, Announcement, SaidIn;
    if jobs == [] {
      assert SaidIn([]) == [] by { NothingSaid(); }
    } else {
      assert forall j | j in jobs[1..] :: j in jobs;
      SweepPrints(jobs[1..]);
      SaidInSum(EventsOf(Judge(jobs[0])), SweepEvents(jobs[1..]));
      EventPrints(Judge(jobs[0]));
    }
  }

  /* ---- whole drains and waits ---- */

  /** The answers `waitpid` gave to the shell from step `m` to step `n`. */
  function Replies(ws: seq<State>, ss: seq<Step>, m: nat, n: nat): seq<Reply>
    requires IsRun(ws, ss) && m <= n <= |ss|
    decreases n - m
  {
    if m == n then []
    else
      var s := ss[m];
      assert Enabled(ws[m], s);
      (match s
       case WaitReply(pid) => [Reply(pid, ws[m].children[pid].status)]
       case DrainReply(pid) => [Reply(pid, ws[m].children[pid].status)]
       case _ => []) + Replies(ws, ss, m + 1, n)
  }

  /** The drain as a whole: what the method computes from its answers is what the run went through. */
  lemma {:induction false} DrainAsRun(ws: seq<State>, ss: seq<Step>, m: nat, n: nat)
    requires IsRun(ws, ss) && m <= n <= |ss| && forall k | m <= k <= n :: ws[k].phase == Draining
    ensures ws[n].jobs == Drained(ws[m].jobs, Replies(ws, ss, m, n))
    decreases n - m
  {
    hide AfterReply;
    if m < n {
      DrainAsRun(ws, ss, m + 1, n);
      assert Enabled(ws[m], ss[m]) && ws[m + 1] == Apply(ws[m], ss[m]);
      var rest := Replies(ws, ss, m + 1, n);
      if ss[m].DrainReply? {
        var reply := Reply(ss[m].pid, ws[m].children[ss[m].pid].status);
        assert Replies(ws, ss, m, n) == [reply] + rest;
        assert ([reply] + rest)[1..] == rest;
      } else {
        assert Replies(ws, ss, m, n) == [] + rest == rest;
      }
    }
  }

  /** A whole notification pass of a run does what `checkForJobNotifications` does on the same answers. */
  lemma PassAsMethod(ws: seq<State>, ss: seq<Step>, m: nat, n: nat)
    requires IsRun(ws, ss) && m <= n < |ss|
    requires (forall k | m <= k <= n :: ws[k].phase == Draining) && ws[n + 1].phase != Draining
    ensures var drained := Drained(ws[m].jobs, Replies(ws, ss, m, n));
      && Peopled(drained)
      && ws[n + 1].jobs == Swept(drained)
      && ws[n + 1].log == ws[n].log + SweepEvents(drained)
      && (ws[n + 1].numJobs == if ws[n + 1].jobs == [] then 0 else ws[n].numJobs)
  {
    hide Inv, AfterReply;
    DrainAsRun(ws, ss, m, n);
    RunKeepsInv(ws, ss, n);
    assert Enabled(ws[n], ss[n]) && ws[n + 1] == Apply(ws[n], ss[n]);
    if ss[n].DrainReply? {
      AfterReplyKeeps(ws[n].jobs, Reply(ss[n].pid, ws[n].children[ss[n].pid].status));
      NewsFindsRecord(ws[n], ss[n].pid);
      assert false;
    }
  }

  /** What one step does to the table while the shell waits. */
  lemma WaitingStep(w: State, s: Step, i: nat)
    requires w.phase == Waiting(i) && Enabled(w, s)
    ensures s.WaitReply? ==>
      (var reply := Reply(s.pid, w.children[s.pid].status);
       var t := AfterReply(w.jobs, reply).0;
       && |t| == |w.jobs| && t[i].procs != []
       && (!AfterReply(w.jobs, reply).1 ==> Apply(w, s).jobs == w.jobs && Apply(w, s).phase == Idle)
       && (AfterReply(w.jobs, reply).1 ==>
             && Apply(w, s).jobs == t[i := Judge(t[i])]
             && Apply(w, s).phase == if Judge(t[i]).run == Running then Waiting(i) else Idle))
    ensures !s.WaitReply? ==>
      Apply(w, s).jobs == w.jobs && (Apply(w, s).phase == Waiting(i) || Apply(w, s).phase == Idle)
    ensures Peopled(Apply(w, s).jobs) && |Apply(w, s).jobs| == |w.jobs|
  {
    hide AfterReply, Judge;
    if s.WaitReply? {
      StillPeopled(w.jobs, Reply(s.pid, w.children[s.pid].status), i);
    }
  }

  /** One answer in front of the others. */
  lemma WaitedStep(jobs: seq<Job>, i: nat, reply: Reply, rest: seq<Reply>)
    requires i < |jobs| && Peopled(jobs)
    ensures var t := AfterReply(jobs, reply).0;
      && |t| == |jobs| && t[i].procs != []
      && (!AfterReply(jobs, reply).1 ==> Waited(jobs, i, [reply] + rest) == jobs)
      && (AfterReply(jobs, reply).1 ==>
            var judged := t[i := Judge(t[i])];
            && Peopled(judged)
            && Waited(jobs, i, [reply] + rest) == if judged[i].run == Running then Waited(judged, i, rest) else judged)
  {
    hide AfterReply, Judge;
    StillPeopled(jobs, reply, i);
    assert ([reply] + rest)[1..] == rest;
  }

  lemma RepliesStep(ws: seq<State>, ss: seq<Step>, m: nat, n: nat)
    requires IsRun(ws, ss) && m < n <= |ss|
    ensures ss[m].WaitReply? ==>
      && ss[m].pid in ws[m].children
      && Replies(ws, ss, m, n) == [Reply(ss[m].pid, ws[m].children[ss[m].pid].status)] + Replies(ws, ss, m + 1, n)
    ensures !ss[m].WaitReply? && !ss[m].DrainReply? ==> Replies(ws, ss, m, n) == Replies(ws, ss, m + 1, n)
    ensures Enabled(ws[m], ss[m]) && ws[m + 1] == Apply(ws[m], ss[m])
    ensures Replies(ws, ss, n, n) == []
  {
    hide Apply;
    assert Enabled(ws[m], ss[m]);
    assert [] + Replies(ws, ss, m + 1, n) == Replies(ws, ss, m + 1, n);
  }

  /** The wait loop as a whole, up to and including the step that ends it. */
  lemma {:induction false} WaitAsRun(ws: seq<State>, ss: seq<Step>, m: nat, n: nat, i: nat)
    requires IsRun(ws, ss) && m <= n <= |ss| && (forall k | m <= k < n :: ws[k].phase == Waiting(i)) && m < n
    requires ws[n].phase == Idle || ws[n].phase == Waiting(i)
    requires i < |ws[m].jobs| && Peopled(ws[m].jobs)
    ensures ws[n].jobs == Waited(ws[m].jobs, i, Replies(ws, ss, m, n))
    decreases n - m
  {
    RepliesStep(ws, ss, m, n);
    NotDraining(ws[m], ss[m]);
    WaitingStep(ws[m], ss[m], i);
    WaitedNone(ws[m + 1].jobs, i);
    hide AfterReply, Judge, Apply, Enabled, Waited, Replies;
    var rest := Replies(ws, ss, m + 1, n);
    if ss[m].WaitReply? {
      WaitedStep(ws[m].jobs, i, Reply(ss[m].pid, ws[m].children[ss[m].pid].status), rest);
    }
    if m + 1 < n {
      WaitAsRun(ws, ss, m + 1, n, i);
    }
  }

  lemma NotDraining(w: State, s: Step)
    requires Enabled(w, s) && w.phase.Waiting?
    ensures !s.DrainReply?
  {
  }

  lemma WaitedNone(jobs: seq<Job>, i: nat)
    requires i < |jobs| && Peopled(jobs)
    ensures Waited(jobs, i, []) == jobs
  {
  }

  /* ---- the two wait loops ---- */

  /** Every reply recorded in turn, and nothing judged. */
  function RecordAll(jobs: seq<Job>, replies: seq<Reply>): (r: seq<Job>)
    ensures |r| == |jobs|
    decreases |replies|
  {
    if replies == [] then jobs else RecordAll(AfterReply(jobs, replies[0]).0, replies[1..])
  }

  /** Reply `k` is of a process of the table. */
  predicate Known(jobs: seq<Job>, replies: seq<Reply>, k: nat)
    requires k < |replies|
  {
    AfterReply(RecordAll(jobs, replies[..k]), replies[k]).1
  }

  /** The first `k` replies leave no process of the job running. */
  predicate SettledAfter(jobs: seq<Job>, i: nat, replies: seq<Reply>, k: nat)
    requires i < |jobs| && k <= |replies|
  {
    Settled(RecordAll(jobs, replies[..k])[i].procs)
  }

  /** The first `n` replies are of known processes, and settle the job for the first time. */
  predicate FirstSettledBy(jobs: seq<Job>, i: nat, replies: seq<Reply>, n: nat)
    requires i < |jobs| && n <= |replies|
  {
    && (forall k | 0 <= k < n :: Known(jobs, replies, k) && !SettledAfter(jobs, i, replies, k))
    && SettledAfter(jobs, i, replies, n)
  }

  /** What a wait loop leaves: the table, how many replies it has read, and how many of them it has recorded. */
  datatype Wait = Wait(table: seq<Job>, read: nat, recorded: nat)

  /** `MakeJobForeGround` of ish.c tests the job before it records the reply it has just read. */
  function IshWaited(jobs: seq<Job>, i: nat, replies: seq<Reply>): (r: Wait)
    requires i < |jobs| && Peopled(jobs)
    ensures |r.table| == |jobs|
    decreases |replies|
  {
    if replies == [] then Wait(jobs, 0, 0)
    else
      var judged := jobs[i := Judge(jobs[i])];
      PeopledWith(jobs, i, Judge(jobs[i]));
      if judged[i].run != Running then Wait(judged, 1, 0)
      else
        var step := AfterReply(judged, replies[0]);
        AfterReplyKeeps(judged, replies[0]);
        if !step.1 then Wait(judged, 1, 0)
        else
          var rest := IshWaited(step.0, i, replies[1..]);
          Wait(rest.table, rest.read + 1, rest.recorded + 1)
  }

  /** How many replies the wait loop of ish_clean.c reads; `Waited` is the table it leaves. */
  function ReadBy(jobs: seq<Job>, i: nat, replies: seq<Reply>): nat
    requires i < |jobs| && Peopled(jobs)
    decreases |replies|
  {
    if replies == [] then 0
    else
      var step := AfterReply(jobs, replies[0]);
      StillPeopled(jobs, replies[0], i);
      if !step.1 || Judge(step.0[i]).run != Running then 1
      else 1 + ReadBy(step.0[i := Judge(step.0[i])], i, replies[1..])
  }

  /** Tables that differ at most in what was concluded about a job. */
  predicate SameProcs(a: seq<Job>, b: seq<Job>) {
    |a| == |b| && forall i | 0 <= i < |a| :: a[i].procs == b[i].procs
  }

  lemma SameRest(a: seq<Job>, b: seq<Job>)
    requires SameProcs(a, b) && a != []
    ensures b != [] && a[0].procs == b[0].procs && SameProcs(a[1..], b[1..])
  {
  }

  lemma SameWith(x: Job, y: Job, a: seq<Job>, b: seq<Job>)
    requires x.procs == y.procs && SameProcs(a, b)
    ensures SameProcs([x] + a, [y] + b)
  {
  }

  lemma {:induction false} RecordedSame(a: seq<Job>, b: seq<Job>, pid: int, status: WaitStatus)
    requires SameProcs(a, b)
    ensures Recorded(a, pid, status).1 == Recorded(b, pid, status).1
    ensures SameProcs(Recorded(a, pid, status).0, Recorded(b, pid, status).0)
    decreases |a|
  {
    if a == [] {
      assert b == [];
    } else {
      SameRest(a, b);
      hide Mark, Find, SameProcs;
      RecordedSame(a[1..], b[1..], pid, status);
      var k := Find(a[0].procs, pid);
      if k < |a[0].procs| {
        var procs := a[0].procs[k := Mark(a[0].procs[k], status)];
        SameWith(a[0].(procs := procs), b[0].(procs := procs), a[1..], b[1..]);
      } else {
        SameWith(a[0], b[0], Recorded(a[1..], pid, status).0, Recorded(b[1..], pid, status).0);
      }
    }
  }

  lemma {:induction false} RecordAllSame(a: seq<Job>, b: seq<Job>, replies: seq<Reply>)
    requires SameProcs(a, b)
    ensures SameProcs(RecordAll(a, replies), RecordAll(b, replies))
    decreases |replies|
  {
    hide SameProcs, Recorded;
    if replies != [] {
      RecordedSame(a, b, replies[0].pid, replies[0].status);
      RecordAllSame(AfterReply(a, replies[0]).0, AfterReply(b, replies[0]).0, replies[1..]);
    }
  }

  /** What the replies say depends on the processes only. */
  lemma SaidAlike(a: seq<Job>, b: seq<Job>, i: nat, replies: seq<Reply>, k: nat)
    requires SameProcs(a, b) && i < |a| && k <= |replies|
    ensures SettledAfter(a, i, replies, k) == SettledAfter(b, i, replies, k)
    ensures k < |replies| ==> Known(a, replies, k) == Known(b, replies, k)
  {
    hide Recorded, RecordAll, Settled;
    RecordAllSame(a, b, replies[..k]);
    var x, y := RecordAll(a, replies[..k]), RecordAll(b, replies[..k]);
    assert x[i].procs == y[i].procs;
    if k < |replies| {
      RecordedSame(x, y, replies[k].pid, replies[k].status);
    }
  }

  /** From the table after the first reply on. */
  lemma SaidLater(jobs: seq<Job>, i: nat, replies: seq<Reply>, k: nat)
    requires i < |jobs| && k < |replies|
    ensures var t := AfterReply(jobs, replies[0]).0;
      && |t| == |jobs|
      && SettledAfter(jobs, i, replies, k + 1) == SettledAfter(t, i, replies[1..], k)
      && (k + 1 < |replies| ==> Known(jobs, replies, k + 1) == Known(t, replies[1..], k))
  {
    hide AfterReply, Settled;
    AfterReplyKeeps(jobs, replies[0]);
    assert replies[..k + 1][1..] == replies[1..][..k] && replies[..k + 1][0] == replies[0];
  }

  lemma SaidAtOnce(jobs: seq<Job>, i: nat, replies: seq<Reply>)
    requires i < |jobs|
    ensures SettledAfter(jobs, i, replies, 0) == Settled(jobs[i].procs)
    ensures replies != [] ==> Known(jobs, replies, 0) == AfterReply(jobs, replies[0]).1
  {
    hide AfterReply, Settled;
    assert replies[..0] == [];
  }

  lemma JudgedSame(jobs: seq<Job>, i: nat)
    requires i < |jobs| && jobs[i].procs != []
    ensures SameProcs(jobs[i := Judge(jobs[i])], jobs)
  {
    JudgeKeepsProcs(jobs[i]);
  }

  /** One round of the loop of ish.c that goes on: `t` is the table it leaves. */
  predicate GoesOn(jobs: seq<Job>, i: nat, replies: seq<Reply>, t: seq<Job>)
    requires i < |jobs| && Peopled(jobs)
  {
    && replies != [] && |t| == |jobs| && Peopled(t)
    && IshWaited(jobs, i, replies) ==
       (var rest := IshWaited(t, i, replies[1..]); Wait(rest.table, rest.read + 1, rest.recorded + 1))
    && SameProcs(t, AfterReply(jobs, replies[0]).0)
  }

  lemma IshRound(jobs: seq<Job>, i: nat, replies: seq<Reply>) returns (t: seq<Job>)
    requires i < |jobs| && Peopled(jobs)
    ensures replies == [] ==> IshWaited(jobs, i, replies) == Wait(jobs, 0, 0)
    ensures replies != [] ==>
      if !SettledAfter(jobs, i, replies, 0) && Known(jobs, replies, 0) then GoesOn(jobs, i, replies, t)
      else IshWaited(jobs, i, replies) == Wait(jobs[i := Judge(jobs[i])], 1, 0)
  {
    hide AfterReply, Settled, SomeStopped, Judge, SettledAfter, Known;
    t := jobs;
    if replies != [] {
      SaidAtOnce(jobs, i, replies);
      JudgeSays(jobs[i]);
      JudgedSame(jobs, i);
      var judged := jobs[i := Judge(jobs[i])];
      PeopledWith(jobs, i, Judge(jobs[i]));
      AfterReplySame(judged, jobs, replies[0]);
      AfterReplyKeeps(judged, replies[0]);
      t := AfterReply(judged, replies[0]).0;
    }
  }

  lemma AfterReplySame(a: seq<Job>, b: seq<Job>, reply: Reply)
    requires SameProcs(a, b)
    ensures AfterReply(a, reply).1 == AfterReply(b, reply).1
    ensures SameProcs(AfterReply(a, reply).0, AfterReply(b, reply).0)
  {
    hide Recorded, SameProcs;
    RecordedSame(a, b, reply.pid, reply.status);
  }

  /** After the first reply, the others say from there what they said from the start. */
  lemma SaidFrom(jobs: seq<Job>, i: nat, replies: seq<Reply>, t: seq<Job>, k: nat)
    requires i < |jobs| == |t| && k < |replies| && SameProcs(t, AfterReply(jobs, replies[0]).0)
    ensures SettledAfter(jobs, i, replies, k + 1) == SettledAfter(t, i, replies[1..], k)
    ensures k + 1 < |replies| ==> Known(jobs, replies, k + 1) == Known(t, replies[1..], k)
  {
    hide AfterReply, SettledAfter, Known, SameProcs;
    SaidLater(jobs, i, replies, k);
    SaidAlike(t, AfterReply(jobs, replies[0]).0, i, replies[1..], k);
  }

  /**
   The loop of ish.c, on any table and any replies. It reads at most one reply that it does not record, and
   a reply of a known process that it has read stays unrecorded exactly if those before it settle the job.
   */
  lemma {:induction false} IshForgetsWhenSettled(jobs: seq<Job>, i: nat, replies: seq<Reply>, k: nat)
    requires i < |jobs| && Peopled(jobs) && k < IshWaited(jobs, i, replies).read
    ensures var r := IshWaited(jobs, i, replies);
      && r.recorded <= r.read <= r.recorded + 1 && r.read <= |replies|
      && (k < r.recorded ==> Known(jobs, replies, k))
      && (Known(jobs, replies, k) ==> (k >= r.recorded <==> SettledAfter(jobs, i, replies, k)))
    decreases |replies|
  {
    hide IshWaited, GoesOn, Known, SettledAfter;
    var t := IshRound(jobs, i, replies);
    if replies != [] && !SettledAfter(jobs, i, replies, 0) && Known(jobs, replies, 0) {
      GoneOn(jobs, i, replies, t);
      if k > 0 {
        IshForgetsWhenSettled(t, i, replies[1..], k - 1);
        SaidFrom(jobs, i, replies, t, k - 1);
      } else if IshWaited(t, i, replies[1..]).read > 0 {
        IshForgetsWhenSettled(t, i, replies[1..], 0);
      } else {
        NothingRead(t, i, replies[1..]);
      }
    }
  }

  lemma GoneOn(jobs: seq<Job>, i: nat, replies: seq<Reply>, t: seq<Job>)
    requires i < |jobs| && Peopled(jobs) && GoesOn(jobs, i, replies, t)
    ensures replies != [] && |t| == |jobs| && Peopled(t) && SameProcs(t, AfterReply(jobs, replies[0]).0)
    ensures var r, rest := IshWaited(jobs, i, replies), IshWaited(t, i, replies[1..]);
      r.table == rest.table && r.read == rest.read + 1 && r.recorded == rest.recorded + 1
  {
    hide IshWaited;
  }

  lemma NothingRead(jobs: seq<Job>, i: nat, replies: seq<Reply>)
    requires i < |jobs| && Peopled(jobs) && IshWaited(jobs, i, replies).read == 0
    ensures IshWaited(jobs, i, replies).recorded == 0
  {
  }

  /** A reply of a known process, read and not recorded. */
  predicate Forgotten(jobs: seq<Job>, i: nat, replies: seq<Reply>, k: nat)
    requires i < |jobs| && Peopled(jobs)
  {
    var r := IshWaited(jobs, i, replies);
    r.recorded <= k < r.read && k < |replies| && Known(jobs, replies, k)
  }

  /** Where the first replies settle the job, the next one is read, and is not recorded. */
  lemma {:induction false} ReadsOneMore(jobs: seq<Job>, i: nat, replies: seq<Reply>, n: nat)
    requires i < |jobs| && Peopled(jobs) && n < |replies| && FirstSettledBy(jobs, i, replies, n)
    ensures IshWaited(jobs, i, replies).read == n + 1 && IshWaited(jobs, i, replies).recorded == n
    decreases |replies|
  {
    hide IshWaited, GoesOn, Known, SettledAfter, SameProcs;
    var t := IshRound(jobs, i, replies);
    if n > 0 {
      assert Known(jobs, replies, 0) && !SettledAfter(jobs, i, replies, 0);
      GoneOn(jobs, i, replies, t);
      SettledLater(jobs, i, replies, t, n);
      ReadsOneMore(t, i, replies[1..], n - 1);
    }
  }

  lemma SettledLater(jobs: seq<Job>, i: nat, replies: seq<Reply>, t: seq<Job>, n: nat)
    requires i < |jobs| == |t| && 0 < n <= |replies| && SameProcs(t, AfterReply(jobs, replies[0]).0)
    requires FirstSettledBy(jobs, i, replies, n)
    ensures FirstSettledBy(t, i, replies[1..], n - 1)
  {
    hide AfterReply, SameProcs, Known, SettledAfter;
    forall k | 0 <= k < n - 1
      ensures Known(t, replies[1..], k) && !SettledAfter(t, i, replies[1..], k)
    {
      SaidFrom(jobs, i, replies, t, k);
      assert Known(jobs, replies, k + 1) && !SettledAfter(jobs, i, replies, k + 1);
    }
    SaidFrom(jobs, i, replies, t, n - 1);
  }

  /**
   The loop of ish.c forgets a reply of a known process if and only if replies of known processes settle the job
   and the very next reply is of a known process too.
   */
  lemma IshForgetsExactly(jobs: seq<Job>, i: nat, replies: seq<Reply>)
    requires i < |jobs| && Peopled(jobs)
    ensures (exists k: nat :: Forgotten(jobs, i, replies, k)) <==>
      exists n: nat :: n < |replies| && FirstSettledBy(jobs, i, replies, n) && Known(jobs, replies, n)
  {
    hide IshWaited, Known, SettledAfter;
    if k: nat :| Forgotten(jobs, i, replies, k) {
      IshForgetsWhenSettled(jobs, i, replies, k);
      forall m | 0 <= m < k ensures Known(jobs, replies, m) && !SettledAfter(jobs, i, replies, m) {
        IshForgetsWhenSettled(jobs, i, replies, m);
      }
      assert FirstSettledBy(jobs, i, replies, k);
    }
    if n: nat :| n < |replies| && FirstSettledBy(jobs, i, replies, n) && Known(jobs, replies, n) {
      ReadsOneMore(jobs, i, replies, n);
      assert Forgotten(jobs, i, replies, n);
    }
  }

  /** The loop of ish_clean.c records every reply it has read, whatever it is. */
  lemma {:induction false} CleanForgetsNothing(jobs: seq<Job>, i: nat, replies: seq<Reply>)
    requires i < |jobs| && Peopled(jobs)
    ensures ReadBy(jobs, i, replies) <= |replies|
    ensures SameProcs(Waited(jobs, i, replies), RecordAll(jobs, replies[..ReadBy(jobs, i, replies)]))
    decreases |replies|
  {
    hide AfterReply, Judge, SameProcs, RecordAll;
    RecordNone(jobs);
    if replies == [] {
      assert replies[..0] == [];
      SameSelf(jobs);
    } else {
      var step := AfterReply(jobs, replies[0]);
      StillPeopled(jobs, replies[0], i);
      UnknownStays(jobs, replies[0]);
      var judged := step.0[i := Judge(step.0[i])];
      JudgedSame(step.0, i);
      RecordOne(jobs, replies, 1);
      RecordNone(step.0);
      assert replies[1..][..0] == [];
      SameSelf(jobs);
      if step.1 && Judge(step.0[i]).run == Running {
        var n := ReadBy(judged, i, replies[1..]);
        CleanForgetsNothing(judged, i, replies[1..]);
        RecordAllSame(judged, step.0, replies[1..][..n]);
        SameTwice(Waited(judged, i, replies[1..]), RecordAll(judged, replies[1..][..n]),
          RecordAll(step.0, replies[1..][..n]));
        RecordOne(jobs, replies, n + 1);
      }
    }
  }

  lemma RecordNone(jobs: seq<Job>)
    ensures RecordAll(jobs, []) == jobs
  {
  }

  lemma RecordOne(jobs: seq<Job>, replies: seq<Reply>, n: nat)
    requires 0 < n <= |replies|
    ensures RecordAll(jobs, replies[..n]) == RecordAll(AfterReply(jobs, replies[0]).0, replies[1..][..n - 1])
  {
    hide AfterReply;
    assert replies[..n][1..] == replies[1..][..n - 1] && replies[..n][0] == replies[0];
  }

  lemma SameSelf(jobs: seq<Job>)
    ensures SameProcs(jobs, jobs)
  {
  }

  lemma SameTwice(a: seq<Job>, b: seq<Job>, c: seq<Job>)
    requires SameProcs(a, b) && SameProcs(b, c)
    ensures SameProcs(a, c)
  {
  }

  lemma UnknownStays(jobs: seq<Job>, reply: Reply)
    ensures !AfterReply(jobs, reply).1 ==> AfterReply(jobs, reply).0 == jobs
  {
  }

  /** A round of the wait loop that does not settle the job. */
  lemma CleanGoesOn(jobs: seq<Job>, i: nat, replies: seq<Reply>)
    requires i < |jobs| && Peopled(jobs) && replies != [] && AfterReply(jobs, replies[0]).1
    ensures var t := AfterReply(jobs, replies[0]).0;
      && |t| == |jobs| && Peopled(t) && t[i].run == jobs[i].run && t[i].notified == jobs[i].notified
      && Peopled(t[i := Judge(t[i])]) && SameProcs(t[i := Judge(t[i])], t)
      && Judge(t[i]).procs == t[i].procs
      && Waited(jobs, i, replies) ==
         (if Settled(t[i].procs) then t[i := Judge(t[i])] else Waited(t[i := Awake(t[i])], i, replies[1..]))
      && ReadBy(jobs, i, replies) ==
         (if Settled(t[i].procs) then 1 else 1 + ReadBy(t[i := Awake(t[i])], i, replies[1..]))
  {
    hide AfterReply, Settled, Judge;
    var t := AfterReply(jobs, replies[0]).0;
    StillPeopled(jobs, replies[0], i);
    AfterReplyKeeps(jobs, replies[0]);
    RunKept(jobs[i], t[i]);
    JudgeSays(t[i]);
    JudgedSame(t, i);
    JudgeKeepsProcs(t[i]);
  }

  /**
   Where the first `n` replies settle a job that was not settled, the wait loop ends behind them; the job is then
   marked notified exactly where a single reply brings a notified job back to what was last concluded about it.
   */
  lemma {:induction false} WaitSettles(jobs: seq<Job>, i: nat, replies: seq<Reply>, n: nat)
    requires i < |jobs| && Peopled(jobs) && 0 < n <= |replies| && FirstSettledBy(jobs, i, replies, n)
    ensures ReadBy(jobs, i, replies) == n
    ensures var t := Waited(jobs, i, replies);
      && Settled(t[i].procs) && t[i].run == (if SomeStopped(t[i].procs) then Stopped else Completed)
      && (t[i].notified <==> n == 1 && jobs[i].notified && jobs[i].run == t[i].run)
    decreases n
  {
    hide AfterReply, Settled, SomeStopped, Judge, SettledAfter, Known, SameProcs, Waited, ReadBy;
    assert Known(jobs, replies, 0) && !SettledAfter(jobs, i, replies, 0);
    SaidAtOnce(jobs, i, replies);
    CleanGoesOn(jobs, i, replies);
    var t := AfterReply(jobs, replies[0]).0;
    JudgeSays(t[i]);
    SaidLater(jobs, i, replies, 0);
    SaidAtOnce(t, i, replies[1..]);
    if n > 1 {
      assert !SettledAfter(jobs, i, replies, 1);
      var woken := t[i := Awake(t[i])];
      SettledLater(jobs, i, replies, woken, n);
      WaitSettles(woken, i, replies[1..], n - 1);
    }
  }

  /**
   Where no reply settles the job, the wait loop records all of them up to the first of an unknown process, at which it
   gives up, and the job stays running.
   */
  lemma {:induction false} WaitGivesUp(jobs: seq<Job>, i: nat, replies: seq<Reply>, n: nat)
    requires i < |jobs| && Peopled(jobs) && n <= |replies|
    requires forall k | 0 <= k < n :: Known(jobs, replies, k) && !SettledAfter(jobs, i, replies, k + 1)
    requires n < |replies| ==> !Known(jobs, replies, n)
    ensures SameProcs(Waited(jobs, i, replies), RecordAll(jobs, replies[..n]))
    ensures n > 0 ==> Waited(jobs, i, replies)[i].run == Running
    decreases n
  {
    hide AfterReply, Settled, SomeStopped, Judge, SettledAfter, Known, SameProcs, Waited, ReadBy, RecordAll;
    if n == 0 {
      assert replies[..0] == [];
      RecordNone(jobs);
      SameSelf(jobs);
      SaidAtOnce(jobs, i, replies);
      GivenUp(jobs, i, replies);
    } else {
      assert Known(jobs, replies, 0) && !SettledAfter(jobs, i, replies, 0 + 1);
      SaidAtOnce(jobs, i, replies);
      CleanGoesOn(jobs, i, replies);
      var t := AfterReply(jobs, replies[0]).0;
      var woken := t[i := Awake(t[i])];
      SaidLater(jobs, i, replies, 0);
      SaidAtOnce(t, i, replies[1..]);
      JudgeSays(t[i]);
      GivesUpLater(jobs, i, replies, woken, n);
      WaitGivesUp(woken, i, replies[1..], n - 1);
      RecordOne(jobs, replies, n);
      RecordAllSame(woken, t, replies[1..][..n - 1]);
      SameTwice(Waited(jobs, i, replies), RecordAll(woken, replies[1..][..n - 1]), RecordAll(t, replies[1..][..n - 1]));
      if n == 1 {
        SaidAtOnce(woken, i, replies[1..]);
        GivenUp(woken, i, replies[1..]);
      }
    }
  }

  lemma GivenUp(jobs: seq<Job>, i: nat, replies: seq<Reply>)
    requires i < |jobs| && Peopled(jobs) && (replies != [] ==> !AfterReply(jobs, replies[0]).1)
    ensures Waited(jobs, i, replies) == jobs
  {
    hide AfterReply, Judge;
  }

  lemma GivesUpLater(jobs: seq<Job>, i: nat, replies: seq<Reply>, t: seq<Job>, n: nat)
    requires i < |jobs| == |t| && 0 < n <= |replies| && SameProcs(t, AfterReply(jobs, replies[0]).0)
    requires forall k | 0 <= k < n :: Known(jobs, replies, k) && !SettledAfter(jobs, i, replies, k + 1)
    requires n < |replies| ==> !Known(jobs, replies, n)
    ensures forall k | 0 <= k < n - 1 :: Known(t, replies[1..], k) && !SettledAfter(t, i, replies[1..], k + 1)
    ensures n - 1 < |replies[1..]| ==> !Known(t, replies[1..], n - 1)
  {
    hide AfterReply, SameProcs, Known, SettledAfter;
    forall k | 0 <= k < n - 1
      ensures Known(t, replies[1..], k) && !SettledAfter(t, i, replies[1..], k + 1)
    {
      SaidFrom(jobs, i, replies, t, k);
      SaidFrom(jobs, i, replies, t, k + 1);
      assert Known(jobs, replies, k + 1) && !SettledAfter(jobs, i, replies, k + 1 + 1);
    }
    if n < |replies| {
      SaidFrom(jobs, i, replies, t, n - 1);
    }
  }

  /** The drain records the replies up to the first of an unknown process, and no more. */
  lemma {:induction false} DrainRecords(jobs: seq<Job>, replies: seq<Reply>, n: nat)
    requires n <= |replies| && forall k | 0 <= k < n :: Known(jobs, replies, k)
    requires n < |replies| ==> !Known(jobs, replies, n)
    ensures Drained(jobs, replies) == RecordAll(jobs, replies[..n])
    decreases n
  {
    hide AfterReply;
    if n == 0 {
      assert replies[..0] == [];
      RecordNone(jobs);
    } else {
      assert Known(jobs, replies, 0);
      assert replies[..0] == [];
      RecordNone(jobs);
      var t := AfterReply(jobs, replies[0]).0;
      KnownLater(jobs, replies, n);
      DrainRecords(t, replies[1..], n - 1);
      RecordOne(jobs, replies, n);
    }
  }

  lemma KnownLater(jobs: seq<Job>, replies: seq<Reply>, n: nat)
    requires 0 < n <= |replies| && forall k | 0 <= k < n :: Known(jobs, replies, k)
    requires n < |replies| ==> !Known(jobs, replies, n)
    ensures var t := AfterReply(jobs, replies[0]).0;
      && (forall k | 0 <= k < n - 1 :: Known(t, replies[1..], k))
      && (n < |replies| ==> !Known(t, replies[1..], n - 1))
  {
    hide AfterReply, RecordAll;
    var t := AfterReply(jobs, replies[0]).0;
    forall k | 0 <= k < n - 1 ensures Known(t, replies[1..], k) {
      RecordOne(jobs, replies, k + 1);
      assert Known(jobs, replies, k + 1);
    }
    if n < |replies| {
      RecordOne(jobs, replies, n);
    }
  }

  function Unnotified(jobs: seq<Job>, i: nat): seq<Job>
    requires i < |jobs|
  {
    jobs[i := jobs[i].(notified := false)]
  }

  /**
   On the same replies, of which the first `n` settle a job that was not settled, both loops leave the same table,
   except that the one of ish.c leaves the job unnotified; and it has read one reply more than the other.
   */
  lemma {:induction false} IshForgetsAReply(jobs: seq<Job>, i: nat, replies: seq<Reply>, n: nat)
    requires i < |jobs| && Peopled(jobs) && 0 < n < |replies| && FirstSettledBy(jobs, i, replies, n)
    ensures IshWaited(jobs, i, replies) == Wait(Unnotified(Waited(jobs, i, replies), i), n + 1, n)
    ensures ReadBy(jobs, i, replies) == n
    decreases n
  {
    hide AfterReply, Settled, SomeStopped, Judge, SettledAfter, Known, SameProcs, IshWaited, Waited, ReadBy;
    WaitSettles(jobs, i, replies, n);
    assert Known(jobs, replies, 0) && !SettledAfter(jobs, i, replies, 0);
    SaidAtOnce(jobs, i, replies);
    CleanGoesOn(jobs, i, replies);
    var t := AfterReply(jobs, replies[0]).0;
    JudgeSays(t[i]);
    SaidLater(jobs, i, replies, 0);
    SaidAtOnce(t, i, replies[1..]);
    RecordedAwake(jobs, i, replies[0]);
    var woken := t[i := Awake(t[i])];
    IshGoesOn(jobs, i, replies, woken);
    GoneOn(jobs, i, replies, woken);
    if n == 1 {
      IshEnds(woken, i, replies[1..]);
      assert woken[i := Judge(woken[i])] == t[i := Judge(woken[i])] == Unnotified(t[i := Judge(t[i])], i);
    } else {
      assert !SettledAfter(jobs, i, replies, 1);
      SettledLater(jobs, i, replies, woken, n);
      IshForgetsAReply(woken, i, replies[1..], n - 1);
    }
  }

  /** What judging makes of a job that is running. */
  function Awake(j: Job): Job { j.(run := Running, notified := j.notified && j.run == Running) }

  lemma JudgeSays(j: Job)
    requires j.procs != []
    ensures Judge(j).run == if !Settled(j.procs) then Running else if SomeStopped(j.procs) then Stopped else Completed
    ensures !Settled(j.procs) ==> Judge(j) == Awake(j)
    ensures Settled(j.procs) ==> Judge(Awake(j)) == Judge(j).(notified := false)
    ensures Judge(j).notified <==> j.notified && j.run == Judge(j).run
  {
  }

  lemma RunKept(a: Job, b: Job)
    requires SameButMarks(a, b)
    ensures a.run == b.run && a.notified == b.notified
  {
    assert a.run == a.(procs := []).run && a.notified == a.(procs := []).notified;
  }

  /** Recording and waking commute. */
  lemma {:induction false} RecordedAwake(jobs: seq<Job>, i: nat, reply: Reply)
    requires i < |jobs|
    ensures var t := AfterReply(jobs, reply); var u := AfterReply(jobs[i := Awake(jobs[i])], reply);
      |t.0| == |jobs| && u.1 == t.1 && u.0 == t.0[i := Awake(t.0[i])]
    decreases i
  {
    hide Mark, Find;
    var woken := jobs[i := Awake(jobs[i])];
    if i == 0 {
      assert woken[1..] == jobs[1..] && woken[0].procs == jobs[0].procs;
      assert jobs == [jobs[0]] + jobs[1..];
    } else {
      assert woken[1..] == jobs[1..][i - 1 := Awake(jobs[1..][i - 1])] && woken[0] == jobs[0];
      RecordedAwake(jobs[1..], i - 1, reply);
    }
  }

  lemma IshGoesOn(jobs: seq<Job>, i: nat, replies: seq<Reply>, t: seq<Job>)
    requires i < |jobs| && Peopled(jobs) && replies != [] && !Settled(jobs[i].procs)
    requires AfterReply(jobs[i := Awake(jobs[i])], replies[0]) == (t, true)
    ensures GoesOn(jobs, i, replies, t)
  {
    hide AfterReply, Settled, Judge;
    JudgeSays(jobs[i]);
    var woken := jobs[i := Awake(jobs[i])];
    PeopledWith(jobs, i, Awake(jobs[i]));
    AfterReplyKeeps(woken, replies[0]);
    AfterReplySame(woken, jobs, replies[0]);
  }

  lemma IshEnds(jobs: seq<Job>, i: nat, replies: seq<Reply>)
    requires i < |jobs| && Peopled(jobs) && replies != [] && Settled(jobs[i].procs)
    ensures IshWaited(jobs, i, replies) == Wait(jobs[i := Judge(jobs[i])], 1, 0)
  {
    hide AfterReply, Settled, Judge;
    JudgeSays(jobs[i]);
    JudgeKeepsProcs(jobs[i]);
    PeopledWith(jobs, i, Judge(jobs[i]));
  }

  /**
   An input on which a reply is lost: while a foreground process is waited for, it ends, and then the process of a
   background job ends. The loop of ish.c reads both and records the first only: the second stays on record as
   running, and no `waitpid` will speak of it again. The loop of ish_clean.c leaves the second to the drain.
   */
  lemma IshForgetsForReal()
    ensures var back := Job(0, 1, "sleep", true, false, Running, Ended(0), 10, [Proc(10, 0, false, false, Ended(0))]);
      var fore := Job(1, 2, "ls", false, true, Running, Ended(0), 20, [Proc(20, 1, false, false, Ended(0))]);
      var jobs, replies := [fore, back], [Reply(20, Ended(0)), Reply(10, Ended(0))];
      && Peopled(jobs) && FirstSettledBy(jobs, 0, replies, 1) && Forgotten(jobs, 0, replies, 1)
      && IshWaited(jobs, 0, replies).read == 2 && IshWaited(jobs, 0, replies).table[1] == back
      && ReadBy(jobs, 0, replies) == 1
  {
    var back := Job(0, 1, "sleep", true, false, Running, Ended(0), 10, [Proc(10, 0, false, false, Ended(0))]);
    var fore := Job(1, 2, "ls", false, true, Running, Ended(0), 20, [Proc(20, 1, false, false, Ended(0))]);
    var jobs, replies := [fore, back], [Reply(20, Ended(0)), Reply(10, Ended(0))];
    var t := MarkAt(jobs, 0, 0, Ended(0));
    assert Find(fore.procs, 20) == 0;
    RecordedAt(jobs, 20, Ended(0), 0);
    assert t[0].procs == [Proc(20, 1, true, false, Ended(0))] && t[1] == back;
    RecordNone(jobs);
    RecordNone(t);
    RecordOne(jobs, replies, 1);
    assert replies[..0] == [] && replies[1..][..0] == [];
    assert fore.procs[0] in fore.procs;
    assert FirstSettledBy(jobs, 0, replies, 1);
    hide Settled, RecordAll;
    IshForgetsAReply(jobs, 0, replies, 1);
    assert RecordAll(jobs, replies[..1]) == t;
    RecordedAt(t, 10, Ended(0), 1);
    assert Waited(jobs, 0, replies)[1] == back;
  }
}
