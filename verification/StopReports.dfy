/** Which stops of a job the shell tells its user of, and which it keeps to itself. */
module StopReports {
  import opened JobTable
  import opened JobRuns
  import opened JobSafety
  import opened JobPasses

  /** A job that is on record as stopped, and whose user is taken to know it. */
  predicate Silent(j: Job) { j.notified && j.run == Stopped }

  /** A stopped job the pass has to speak of. */
  predicate Due(j: Job) { Settled(j.procs) && SomeStopped(j.procs) && !Silent(j) }

  /* ---- one pass ---- */

  lemma DueIsSaid(j: Job)
    requires j.procs != []
    ensures Due(j) <==> EventsOf(Judge(j)) != [] && EventsOf(Judge(j))[0].StopReport?
    ensures |EventsOf(Judge(j))| <= 1 && forall e | e in EventsOf(Judge(j)) :: e.id == j.id && !e.Resumed?
  {
  }

  ghost predicate SaysStopped(log: seq<Event>, id: nat) { exists e :: e in log && Stops(e, id) }

  ghost predicate SomeDue(jobs: seq<Job>, id: nat) { exists j :: j in jobs && j.id == id && Due(j) }

  /** The pass reports a job as stopped exactly if it is due. */
  lemma {:induction false} SweepSaysDue(jobs: seq<Job>, id: nat)
    requires Peopled(jobs)
    ensures SaysStopped(SweepEvents(jobs), id) <==> SomeDue(jobs, id)
  {
    hide Due, EventsOf, Judge;
    if jobs != [] {
      assert forall j | j in jobs[1..] :: j in jobs;
      var first, rest := EventsOf(Judge(jobs[0])), SweepEvents(jobs[1..]);
      DueIsSaid(jobs[0]);
      SweepSaysDue(jobs[1..], id);
      if SaysStopped(first + rest, id) {
        var e :| e in first + rest && Stops(e, id);
        assert e in first || e in rest;
        if e in first {
          assert e == first[0];
        }
      }
      if j :| j in jobs && j.id == id && Due(j) {
        if j == jobs[0] {
          assert first[0] in first + rest && Stops(first[0], id);
        } else {
          assert j in jobs[1..];
          var e :| e in rest && Stops(e, id);
          assert e in first + rest;
        }
      }
    }
  }

  /**
   In every run, a notification pass reports a job as stopped if and only if at its end the job's processes have all
   ended or stopped, one of them stopped, and the job is not on record as stopped and notified.
   */
  lemma StopsAreSaidWhenDue(ws: seq<State>, ss: seq<Step>, n: nat, id: nat)
    requires IsRun(ws, ss) && n < |ss| && ws[n].phase == Draining && ws[n + 1].phase != Draining
    ensures ws[n].log <= ws[n + 1].log
    ensures SaysStopped(ws[n + 1].log[|ws[n].log|..], id) <==> SomeDue(ws[n].jobs, id)
  {
    hide Due, Stops, SweepEvents, Swept;
    PassAsMethod(ws, ss, n, n);
    SweepSaysDue(ws[n].jobs, id);
  }

  /* ---- why a stopped job is silent ---- */

  /** The last report or resumption of the job is a "stopped" report or an `fg`. */
  predicate Told(log: seq<Event>, id: nat) {
    if log == [] then false
    else
      var last := log[|log| - 1];
      if last.StopReport? && last.id == id then true
      else if last.Resumed? && last.id == id then last.foreground
      else Told(log[..|log| - 1], id)
  }

  lemma ToldAfter(log: seq<Event>, e: Event, id: nat)
    ensures Told(log + [e], id) ==
      if e.StopReport? && e.id == id then true else if e.Resumed? && e.id == id then e.foreground else Told(log, id)
  {
    var now := log + [e];
    assert now[..|now| - 1] == log;
  }

  ghost predicate Hushed(log: seq<Event>, jobs: seq<Job>) { forall j | j in jobs && Silent(j) :: Told(log, j.id) }

  lemma HushedWith(log: seq<Event>, jobs: seq<Job>, i: nat, v: Job)
    requires Hushed(log, jobs) && i < |jobs| && v.id == jobs[i].id && (Silent(v) ==> Silent(jobs[i]))
    ensures Hushed(log, jobs[i := v])
  {
    hide Silent, Told;
    forall j | j in jobs[i := v] && Silent(j) ensures Told(log, j.id) {
      assert j == v || j in jobs;
      assert jobs[i] in jobs;
    }
  }

  /** What one job's turn in the sweep adds to the log tells of no resumption. */
  lemma TurnTells(log: seq<Event>, j: Job, id: nat)
    requires j.procs != []
    ensures Told(log, id) ==> Told(log + EventsOf(Judge(j)), id)
    ensures Due(j) ==> Told(log + EventsOf(Judge(j)), j.id)
  {
    hide Judge, EventsOf, Told;
    DueIsSaid(j);
    var es := EventsOf(Judge(j));
    if es == [] {
      assert log + es == log;
    } else {
      assert es == [es[0]] && es[0] in es;
      ToldAfter(log, es[0], id);
      ToldAfter(log, es[0], j.id);
    }
  }

  lemma {:induction false} SweepTells(log: seq<Event>, jobs: seq<Job>, id: nat)
    requires Peopled(jobs) && Told(log, id)
    ensures Told(log + SweepEvents(jobs), id)
    decreases |jobs|
  {
    hide Judge, EventsOf, Told;
    if jobs == [] {
      assert log + [] == log;
    } else {
      assert forall j | j in jobs[1..] :: j in jobs;
      var first := EventsOf(Judge(jobs[0]));
      TurnTells(log, jobs[0], id);
      SweepTells(log + first, jobs[1..], id);
      assert log + first + SweepEvents(jobs[1..]) == log + SweepEvents(jobs);
    }
  }

  lemma JudgeSilent(j: Job)
    requires j.procs != []
    ensures Silent(Judge(j)) ==> Silent(j)
    ensures Judge(j).run == Stopped ==> Silent(j) || Due(j)
    ensures Judge(j).id == j.id
    ensures |Survivor(Judge(j))| <= 1 && forall s | s in Survivor(Judge(j)) :: s.id == j.id && s.run == Judge(j).run
  {
  }

  lemma {:induction false} HushedSwept(log: seq<Event>, jobs: seq<Job>)
    requires Peopled(jobs) && Hushed(log, jobs)
    ensures Hushed(log + SweepEvents(jobs), Swept(jobs))
    decreases |jobs|
  {
    hide Judge, EventsOf, Told, Survivor, Due;
    if jobs != [] {
      assert forall j | j in jobs[1..] :: j in jobs;
      var first, kept := EventsOf(Judge(jobs[0])), Survivor(Judge(jobs[0]));
      forall j | j in jobs[1..] && Silent(j) ensures Told(log + first, j.id) {
        TurnTells(log, jobs[0], j.id);
      }
      HushedSwept(log + first, jobs[1..]);
      var now := log + first + SweepEvents(jobs[1..]);
      assert now == log + SweepEvents(jobs);
      forall s | s in Swept(jobs) && Silent(s) ensures Told(now, s.id) {
        if s in kept {
          JudgeSilent(jobs[0]);
          TurnTells(log, jobs[0], jobs[0].id);
          SweepTells(log + first, jobs[1..], jobs[0].id);
        } else {
          assert s in Swept(jobs[1..]);
        }
      }
    }
  }

  lemma HushedRecorded(log: seq<Event>, jobs: seq<Job>, reply: Reply)
    requires Hushed(log, jobs)
    ensures Hushed(log, AfterReply(jobs, reply).0)
  {
    hide AfterReply, Told;
    AfterReplyKeeps(jobs, reply);
    var t := AfterReply(jobs, reply).0;
    forall j | j in t && Silent(j) ensures Told(log, j.id) {
      var i :| 0 <= i < |t| && t[i] == j;
      assert SameButMarks(jobs[i], t[i]) && jobs[i] in jobs;
      RunKept(jobs[i], t[i]);
      assert jobs[i].id == jobs[i].(procs := []).id == t[i].(procs := []).id;
    }
  }

  lemma HushedResumed(w: State, i: nat, v: Job, fg: bool)
    requires Inv(w) && Hushed(w.log, w.jobs) && i < |w.jobs| && v.id == w.jobs[i].id && (fg || !Silent(v))
    ensures Hushed(w.log + [Resumed(v.id, fg)], w.jobs[i := v])
  {
    hide Agree, Below, AllNews, Told, Silent, Conserved, Alternates, RestOk, AllSaidRight, AllUnsaid;
    var a, b, now := w.jobs[..i], w.jobs[i + 1..], w.log + [Resumed(v.id, fg)];
    assert w.jobs == a + [w.jobs[i]] + b;
    Lone(w.log, a, w.jobs[i], b, w.ids);
    forall j | j in w.jobs[i := v] && Silent(j) ensures Told(now, j.id) {
      ToldAfter(w.log, Resumed(v.id, fg), j.id);
      if j != v {
        assert j in a + b;
      }
    }
  }

  lemma HushedWaited(w: State, pid: int)
    requires Enabled(w, WaitReply(pid)) && Hushed(w.log, w.jobs)
    ensures Hushed(Waited1(w, pid).log, Waited1(w, pid).jobs)
  {
    hide AfterReply, Judge, Hushed, Silent;
    var reply := Reply(pid, w.children[pid].status);
    var t := AfterReply(w.jobs, reply).0;
    StillPeopled(w.jobs, reply, w.phase.i);
    HushedRecorded(w.log, w.jobs, reply);
    JudgeSilent(t[w.phase.i]);
    HushedWith(w.log, t, w.phase.i, Judge(t[w.phase.i]));
  }

  lemma HushedDrained(w: State, pid: int)
    requires Enabled(w, DrainReply(pid)) && Hushed(w.log, w.jobs)
    ensures Hushed(Drained1(w, pid).log, Drained1(w, pid).jobs)
  {
    hide AfterReply, Hushed, Swept, SweepEvents;
    var reply := Reply(pid, w.children[pid].status);
    AfterReplyKeeps(w.jobs, reply);
    HushedRecorded(w.log, w.jobs, reply);
    HushedSwept(w.log, AfterReply(w.jobs, reply).0);
  }

  lemma HushedLaunch(w: State, s: Step)
    requires Inv(w) && Enabled(w, s) && Hushed(w.log, w.jobs) && (s.BeginJob? || s.Fork? || s.FinishLaunch?)
    ensures Hushed(Apply(w, s).log, Apply(w, s).jobs)
  {
    hide Agree, Below, AllNews, Told, Reported;
    match s
    case BeginJob(name, interactive, background) =>
    case Fork(pid) => HushedWith(w.log, w.jobs, 0, WithProcess(w.jobs[0], pid, w.births, w.phase.interactive));
    case FinishLaunch =>
      HushedWith(w.log, w.jobs, 0, w.jobs[0].(notified := true, foreground := false));
      HushedWith(w.log, w.jobs, 0, w.jobs[0].(foreground := true));
  }

  lemma HushedBack(w: State, i: nat)
    requires Inv(w) && w.phase == Idle && i <= |w.jobs| && Hushed(w.log, w.jobs)
    ensures Hushed(SentBack(w, i).log, SentBack(w, i).jobs)
  {
    hide Inv, Hushed;
    if i < |w.jobs| {
      HushedResumed(w, i, ToBackground(w.jobs[i]), false);
    }
  }

  lemma HushedStep(w: State, s: Step)
    requires Inv(w) && Enabled(w, s) && Hushed(w.log, w.jobs)
    ensures Hushed(Apply(w, s).log, Apply(w, s).jobs)
  {
    hide Inv, Hushed, Waited1, Drained1, SentBack, Numbered, FirstStopped, Swept, SweepEvents;
    match s
    case BeginJob(_, _, _) => HushedLaunch(w, s);
    case Fork(_) => HushedLaunch(w, s);
    case FinishLaunch => HushedLaunch(w, s);
    case WaitReply(pid) => HushedWaited(w, pid);
    case DrainReply(pid) => HushedDrained(w, pid);
    case DrainNothing => HushedSwept(w.log, w.jobs);
    case Fg(num) =>
      var i := Numbered(w.jobs, num);
      if i < |w.jobs| {
        HushedResumed(w, i, ToForeground(w.jobs[i]), true);
      }
    case Bg(num) => HushedBack(w, Numbered(w.jobs, num));
    case BgStopped => HushedBack(w, FirstStopped(w.jobs));
    case Kill(num) => HushedBack(w, Numbered(w.jobs, num));
    case _ =>
  }

  lemma {:induction false} RunHushed(ws: seq<State>, ss: seq<Step>, n: nat)
    requires IsRun(ws, ss) && n < |ws|
    ensures Hushed(ws[n].log, ws[n].jobs)
    decreases n
  {
    hide Inv, Apply, Enabled;
    if n > 0 {
      RunHushed(ws, ss, n - 1);
      RunKeepsInv(ws, ss, n - 1);
      HushedStep(ws[n - 1], ss[n - 1]);
      assert ws[n - 1 + 1] == Apply(ws[n - 1], ss[n - 1]);
    }
  }

  /**
   In every run, a job whose "stopped" report stands is silent; and a job is silent only while its "stopped" report
   stands, or if what happened to it last was an `fg`.
   */
  lemma SilenceHasAReason(ws: seq<State>, ss: seq<Step>, n: nat, j: Job)
    requires IsRun(ws, ss) && n < |ws| && j in ws[n].jobs
    ensures Standing(ws[n].log, j.id) ==> Silent(j)
    ensures Silent(j) ==> Told(ws[n].log, j.id)
  {
    hide Agree, Below, AllNews, Told, Standing, Conserved, Alternates, AllSaidRight, AllUnsaid;
    RunHushed(ws, ss, n);
    RunKeepsInv(ws, ss, n);
    var w := ws[n];
    if Standing(w.log, j.id) {
      var i :| 0 <= i < |w.jobs| && w.jobs[i] == j;
      var a, b := w.jobs[..i], w.jobs[i + 1..];
      assert w.jobs == a + [j] + b;
      Lone(w.log, a, j, b, w.ids);
      LoneRests(a, j, b);
    }
  }

  /* ---- the silence after `fg` ---- */

  /**
   When `fg` brings back a job that is not settled and its wait ends with the job stopped, the next pass says nothing
   of it if and only if the job was on record as stopped and the very first reply settled it.
   */
  lemma FgStopsSilently(jobs: seq<Job>, i: nat, replies: seq<Reply>, n: nat)
    requires i < |jobs| && Peopled(jobs) && 0 < n <= |replies|
    requires FirstSettledBy(jobs[i := ToForeground(jobs[i])], i, replies, n)
    ensures Peopled(jobs[i := ToForeground(jobs[i])])
    ensures var j := Waited(jobs[i := ToForeground(jobs[i])], i, replies)[i];
      SomeStopped(j.procs) ==> (Due(j) <==> !(n == 1 && jobs[i].run == Stopped))
  {
    hide FirstSettledBy, Waited, Settled, SomeStopped;
    ResumedPeopled(jobs, i);
    WaitSettles(jobs[i := ToForeground(jobs[i])], i, replies, n);
  }

  /** A stop that goes unreported: one process, stopped and reported, brought back by `fg`, and stopped again. */
  lemma SilentStop()
    ensures var halted := Proc(20, 0, false, true, StoppedBy(20));
      var j := Job(0, 1, "vi", true, false, Stopped, StoppedBy(20), 20, [halted]);
      var t := Waited([ToForeground(j)], 0, [Reply(20, StoppedBy(20))]);
      && Settled(t[0].procs) && SomeStopped(t[0].procs) && Peopled(t) && SweepEvents(t) == []
  {
    var halted := Proc(20, 0, false, true, StoppedBy(20));
    var j := Job(0, 1, "vi", true, false, Stopped, StoppedBy(20), 20, [halted]);
    var jobs := [ToForeground(j)];
    var p := jobs[0].procs[0];
    RecordedAt(jobs, 20, StoppedBy(20), 0);
    var u := MarkAt(jobs, 0, 0, StoppedBy(20));
    assert u[0].procs[0] == halted && halted in u[0].procs;
    assert forall q | q in u[0].procs :: q == halted;
    var t := Waited(jobs, 0, [Reply(20, StoppedBy(20))]);
    assert t == [Judge(u[0])];
    assert SweepEvents(t[1..]) == [];
  }
}
