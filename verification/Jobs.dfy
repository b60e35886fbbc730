/** The shell's job table as it is stored: two levels of linked lists, changed in place. */
module Jobs {
  import opened T = JobTable
  import opened Builtins

  /** The entry at an index, null past the end. */
  ghost function NthProcess(s: seq<Process>, k: int): Process? { if 0 <= k < |s| then s[k] else null }

  ghost function NthJob(s: seq<JobNode>, i: int): JobNode? { if 0 <= i < |s| then s[i] else null }

  class Process {
    var pid: int
    var completed: bool
    var stopped: bool
    var status: WaitStatus
    var next: Process?
    ghost var birth: nat
    ghost var owner: JobNode

    ghost function View(): Proc
      reads `pid, `birth, `completed, `stopped, `status
    {
      Proc(pid, birth, completed, stopped, status)
    }

    constructor (pid: int, next: Process?, ghost birth: nat, ghost owner: JobNode)
      ensures View() == Proc(pid, birth, false, false, Ended(0)) && this.next == next && this.owner == owner
    {
      this.pid, completed, stopped, status, this.next := pid, false, false, Ended(0), next;
      this.birth, this.owner := birth, owner;
    }
  }

  class JobNode {
    var job_num: int
    var job_name: string
    var notified: bool
    var foreground: bool
    var run_status: RunStatus
    var status: WaitStatus
    var process_gid: int
    var process: Process?
    var next: JobNode?
    ghost var id: nat
    ghost var procs: seq<Process>

    constructor (num: int, name: string, next: JobNode?, ghost id: nat)
      ensures Header() == Job(id, num, name, false, false, Running, Ended(0), 0, [])
      ensures this.next == next && process == null && procs == []
    {
      job_num, job_name, notified, foreground, run_status, status := num, name, false, false, Running, Ended(0);
      process_gid, process, this.next := 0, null, next;
      this.id, procs := id, [];
    }

    /** The job without its processes. */
    ghost function Header(): Job
      reads `id, `job_num, `job_name, `notified, `foreground, `run_status, `status, `process_gid
    {
      Job(id, job_num, job_name, notified, foreground, run_status, status, process_gid, [])
    }

    /** The process list is linked in the order of `procs` and belongs to this job alone. */
    ghost predicate Chained()
      reads `process, `procs, procs`next, procs`owner
    {
      && process == NthProcess(procs, 0)
      && (forall k | 0 <= k < |procs| :: procs[k].next == NthProcess(procs, k + 1))
      && (forall k | 0 <= k < |procs| :: procs[k].owner == this)
      && (forall k, m | 0 <= k < m < |procs| :: procs[k] != procs[m])
    }

    ghost predicate Shows(ps: seq<Proc>)
      reads `procs, procs`pid, procs`birth, procs`completed, procs`stopped, procs`status
    {
      |procs| == |ps| && forall k | 0 <= k < |ps| :: procs[k].View() == ps[k]
    }
  }

  class Shell {
    var job_head: JobNode?
    var n_job: int
    ghost var jobs: seq<JobNode>
    ghost var table: seq<Job>
    ghost var pool: set<Process>

    ghost predicate Pooled(js: seq<JobNode>)
      reads `pool, js`procs
    {
      forall i, k | 0 <= i < |js| && 0 <= k < |js[i].procs| :: js[i].procs[k] in pool
    }

    /** The job list is linked in the order of `js`. */
    ghost predicate Linked(js: seq<JobNode>)
      reads `job_head, js`next
    {
      job_head == NthJob(js, 0) && Nexts(js)
    }

    static ghost predicate Nexts(js: seq<JobNode>)
      reads js`next
    {
      && (forall i | 0 <= i < |js| :: js[i].next == NthJob(js, i + 1))
      && (forall i, k | 0 <= i < k < |js| :: js[i] != js[k])
    }

    ghost predicate Chains(js: seq<JobNode>)
      requires Pooled(js)
      reads `pool, js`process, js`procs, pool`next, pool`owner
    {
      forall i | 0 <= i < |js| :: js[i].Chained()
    }

    ghost predicate Headers(js: seq<JobNode>, t: seq<Job>)
      reads js`id, js`job_num, js`job_name, js`notified, js`foreground, js`run_status, js`status, js`process_gid
    {
      |js| == |t| && forall i | 0 <= i < |js| :: js[i].Header() == t[i].(procs := [])
    }

    ghost predicate Members(js: seq<JobNode>, t: seq<Job>)
      requires Pooled(js)
      reads `pool, js`procs, pool`pid, pool`birth, pool`completed, pool`stopped, pool`status
    {
      |js| == |t| && forall i | 0 <= i < |js| :: js[i].Shows(t[i].procs)
    }

    /** The lists in memory are the table. */
    ghost predicate Valid()
      reads this, jobs, pool
    {
      Linked(jobs) && Pooled(jobs) && Chains(jobs) && Headers(jobs, table) && Members(jobs, table)
    }

    constructor ()
      ensures Valid() && table == [] && n_job == 0
    {
      job_head, n_job := null, 0;
      jobs, table, pool := [], [], {};
    }

    /* ---- reading the lists ---- */

    ghost function JobAt(i: int): JobNode?
      reads `jobs
    {
      if 0 <= i < |jobs| then jobs[i] else null
    }

    ghost function ProcessAt(i: int, k: int): Process?
      reads `jobs, jobs`procs
    {
      if 0 <= i < |jobs| && 0 <= k < |jobs[i].procs| then jobs[i].procs[k] else null
    }

    lemma FollowJobs(i: int)
      requires Valid() && 0 <= i < |jobs|
      ensures jobs[i].next == JobAt(i + 1)
    {
      hide Chains, Members, Headers;
      assert Linked(jobs);
    }

    lemma Lengths()
      requires Valid()
      ensures job_head == JobAt(0) && |jobs| == |table|
    {
      hide Chains, Members, Pooled;
    }

    lemma FollowProcesses(i: int, k: int)
      requires Valid() && 0 <= i < |jobs| && 0 <= k < |jobs[i].procs|
      ensures jobs[i].procs[k].next == ProcessAt(i, k + 1)
    {
      hide Headers, Members, Linked;
      assert jobs[i].Chained();
    }

    lemma FirstProcess(i: int)
      requires Valid() && 0 <= i < |jobs|
      ensures |jobs| == |table| && |jobs[i].procs| == |table[i].procs|
      ensures jobs[i].process == ProcessAt(i, 0)
    {
      hide Headers, Pooled, Linked;
      assert jobs[i].Chained();
      assert jobs[i].Shows(table[i].procs);
    }

    lemma Sight(i: int, k: int)
      requires Valid() && 0 <= i < |jobs| && 0 <= k < |jobs[i].procs|
      ensures |jobs| == |table| && |jobs[i].procs| == |table[i].procs|
      ensures jobs[i].procs[k].View() == table[i].procs[k]
    {
      hide Headers, Pooled, Linked, Chains;
      assert jobs[i].Shows(table[i].procs);
    }

    /** The inner loop of `updateProcessStatus`. */
    method FindProcess(job: JobNode, pid: int, ghost i: nat) returns (p: Process?)
      requires Valid() && i < |jobs| && job == jobs[i]
      ensures i < |table| && p == ProcessAt(i, Find(table[i].procs, pid))
    {
      hide Valid;
      Lengths();
      FirstProcess(i);
      ghost var k := 0;
      p := job.process;
      while p != null && p.pid != pid
        invariant 0 <= k <= |job.procs| && p == ProcessAt(i, k)
        invariant forall m | 0 <= m < k :: table[i].procs[m].pid != pid
        decreases |job.procs| - k
      {
        Sight(i, k);
        FollowProcesses(i, k);
        p := p.next;
        k := k + 1;
      }
      if p != null {
        Sight(i, k);
      }
      FindIs(table[i].procs, pid, k);
    }

    /** No process is on two lists, or twice on one. */
    lemma OnePlace(i: int, k: int, m: int, n: int)
      requires Valid() && 0 <= i < |jobs| && 0 <= k < |jobs[i].procs| && 0 <= m < |jobs| && 0 <= n < |jobs[m].procs|
      requires jobs[i].procs[k] == jobs[m].procs[n]
      ensures i == m && k == n
    {
      hide Headers, Members, Pooled;
      assert jobs[i].Chained() && jobs[m].Chained();
      assert jobs[i].procs[k].owner == jobs[i] && jobs[m].procs[n].owner == jobs[m];
    }

    ghost predicate OnlyAt(p: Process, i: int, k: int)
      reads `jobs, jobs`procs
    {
      forall m, n | 0 <= m < |jobs| && 0 <= n < |jobs[m].procs| :: jobs[m].procs[n] == p ==> m == i && n == k
    }

    lemma Alone(i: int, k: int)
      requires Valid() && 0 <= i < |jobs| && 0 <= k < |jobs[i].procs|
      ensures OnlyAt(jobs[i].procs[k], i, k)
    {
      hide Valid;
      forall m, n | 0 <= m < |jobs| && 0 <= n < |jobs[m].procs| && jobs[m].procs[n] == jobs[i].procs[k]
        ensures m == i && n == k
      {
        OnePlace(i, k, m, n);
      }
    }

    /** Every process but `p` shows its record in `t`. */
    ghost predicate OthersShow(t: seq<Job>, p: Process)
      reads `jobs, jobs`procs,
        (set m, n | 0 <= m < |jobs| && 0 <= n < |jobs[m].procs| && jobs[m].procs[n] != p :: jobs[m].procs[n])
    {
      && |jobs| == |t|
      && (forall m | 0 <= m < |jobs| :: |jobs[m].procs| == |t[m].procs|)
      && (forall m, n | 0 <= m < |jobs| && 0 <= n < |jobs[m].procs| ::
            jobs[m].procs[n] != p ==> jobs[m].procs[n].View() == t[m].procs[n])
    }

    lemma OthersDo(p: Process)
      requires Valid()
      ensures OthersShow(table, p)
    {
      hide Valid;
      Lengths();
      forall m | 0 <= m < |jobs| ensures |jobs[m].procs| == |table[m].procs| {
        FirstProcess(m);
      }
      forall m, n | 0 <= m < |jobs| && 0 <= n < |jobs[m].procs| ensures jobs[m].procs[n].View() == table[m].procs[n] {
        Sight(m, n);
      }
    }

    lemma MembersAfter(t: seq<Job>, i: nat, k: nat)
      requires Pooled(jobs) && i < |jobs| && k < |jobs[i].procs|
      requires OthersShow(t, jobs[i].procs[k]) && OnlyAt(jobs[i].procs[k], i, k)
      requires table == t[i := t[i].(procs := t[i].procs[k := jobs[i].procs[k].View()])]
      ensures Members(jobs, table)
    {
      forall m | 0 <= m < |jobs| ensures jobs[m].Shows(table[m].procs) {
        assert |jobs[m].procs| == |t[m].procs|;
      }
    }

    lemma HeadersAfter(t: seq<Job>, i: nat, ps: seq<Proc>)
      requires Headers(jobs, t) && i < |t|
      requires table == t[i := t[i].(procs := ps)]
      ensures Headers(jobs, table)
    {
    }

    /** `p->status = status` and the mark. */
    method MarkProcess(p: Process, status: WaitStatus, ghost i: nat, ghost k: nat)
      requires Valid() && p == ProcessAt(i, k)
      modifies `table, p`completed, p`stopped, p`status
      ensures Valid() && i < |old(table)| && k < |old(table)[i].procs|
      ensures table == MarkAt(old(table), i, k, status)
    {
      hide Linked, Pooled, Chains, Members, Headers, OnlyAt, OthersShow;
      Sight(i, k);
      OthersDo(p);
      Alone(i, k);
      p.status := status;
      if status.StoppedBy? { p.stopped := true; } else { p.completed := true; }
      table := MarkAt(table, i, k, status);
      HeadersAfter(old(table), i, table[i].procs);
      MembersAfter(old(table), i, k);
    }

    /** `updateProcessStatus`. */
    method UpdateProcessStatus(pid: int, status: WaitStatus) returns (ok: bool)
      requires Valid()
      modifies `table, pool`completed, pool`stopped, pool`status
      ensures Valid()
      ensures (table, ok) == AfterReply(old(table), Reply(pid, status))
    {
      hide Valid, Mark, Find, Recorded, Pooled;
      Lengths();
      ok := false;
      if pid > 0 {
        var job := job_head;
        var p: Process? := null;
        ghost var i := 0;
        while job != null
          invariant 0 <= i <= |jobs| && job == JobAt(i)
          invariant p == null && NowhereIn(table[..i], pid)
          modifies {}
          decreases |jobs| - i
        {
          p := FindProcess(job, pid, i);
          FirstProcess(i);
          if p != null {
            break;
          }
          assert table[..i + 1][..i] == table[..i];
          FollowJobs(i);
          job := job.next;
          i := i + 1;
        }
        if p == null {
          assert table[..i] == table;
          RecordedNowhere(table, pid, status);
        } else {
          ghost var k := Find(table[i].procs, pid);
          RecordedAt(table, pid, status, i);
          InPool(i, k);
          MarkProcess(p, status, i, k);
          ok := true;
        }
      }
    }

    lemma InPool(i: int, k: int)
      requires Valid() && 0 <= i < |jobs| && 0 <= k < |jobs[i].procs|
      ensures jobs[i].procs[k] in pool
    {
      hide Chains, Headers, Members, Linked;
    }

    /* ---- judging ---- */

    /** The loop of `updateJobStatus`: ends at a running process, or says if one is stopped, and the last status. */
    method Survey(job: JobNode, ghost i: nat) returns (settled: bool, stopped: bool, status: WaitStatus)
      requires Valid() && i < |jobs| && job == jobs[i] && Peopled(table)
      ensures i < |table| && table[i].procs != [] && settled == Settled(table[i].procs)
      ensures settled ==> stopped == SomeStopped(table[i].procs)
      ensures settled ==> status == table[i].procs[|table[i].procs| - 1].status
    {
      hide Valid;
      FirstProcess(i);
      assert table[i] in table;
      ghost var ps := table[i].procs;
      ghost var k := 0;
      var p := job.process;
      stopped, status := false, Ended(0);
      while p != null
        invariant 0 <= k <= |job.procs| && p == ProcessAt(i, k)
        invariant forall m | 0 <= m < k :: ps[m].completed || ps[m].stopped
        invariant stopped <==> exists m :: 0 <= m < k && ps[m].stopped
        invariant k > 0 ==> status == ps[k - 1].status
        decreases |job.procs| - k
      {
        Sight(i, k);
        FollowProcesses(i, k);
        if !p.completed && !p.stopped {
          assert ps[k] in ps;
          return false, stopped, status;
        }
        if p.stopped {
          stopped := true;
          status := p.status;
        } else {
          status := p.status;
        }
        p := p.next;
        k := k + 1;
      }
      settled := true;
    }

    /** The other jobs' headers are in place while this one's changes. */
    ghost predicate OtherHeaders(t: seq<Job>, j: JobNode)
      reads `jobs, (set m | 0 <= m < |jobs| && jobs[m] != j :: jobs[m])
    {
      |jobs| == |t| && forall m | 0 <= m < |jobs| && jobs[m] != j :: jobs[m].Header() == t[m].(procs := [])
    }

    lemma HeaderAfter(t: seq<Job>, i: nat, v: Job)
      requires i < |jobs| && OtherHeaders(t, jobs[i]) && Linked(jobs)
      requires jobs[i].Header() == v.(procs := []) && table == t[i := v]
      ensures Headers(jobs, table)
    {
    }

    lemma MembersStay(t: seq<Job>, i: nat, v: Job)
      requires Pooled(jobs) && Members(jobs, t) && i < |t| && v.procs == t[i].procs && table == t[i := v]
      ensures Members(jobs, table)
    {
    }

    /** What of `Valid` does not depend on the headers. */
    ghost predicate Fits(t: seq<Job>)
      reads `job_head, `jobs, `pool, jobs`next, jobs`process, jobs`procs
      reads pool`next, pool`owner, pool`pid, pool`birth, pool`completed, pool`stopped, pool`status
    {
      Linked(jobs) && Pooled(jobs) && Chains(jobs) && Members(jobs, t)
    }

    lemma FitsNow()
      requires Valid()
      ensures Fits(table)
    {
      hide Linked, Chains, Members, Pooled, Headers;
    }

    /** The header of the job at `i` has changed, and its entry with it. */
    lemma EntryChanged(t: seq<Job>, i: nat, v: Job)
      requires i < |jobs| && i < |t| && Fits(t) && OtherHeaders(t, jobs[i])
      requires jobs[i].Header() == v.(procs := []) && v.procs == t[i].procs && table == t[i := v]
      ensures Valid()
    {
      HeaderAfter(t, i, v);
      hide Linked, Chains, Pooled, Headers, OtherHeaders;
      MembersStay(t, i, v);
    }

    lemma HeaderAt(i: nat)
      requires Valid() && i < |jobs|
      ensures i < |table| && jobs[i].Header() == table[i].(procs := []) && OtherHeaders(table, jobs[i])
    {
      hide Linked, Chains, Members, Pooled;
    }

    /** The assignments of `updateJobStatus` after its loop. */
    method SetStatus(job: JobNode, settled: bool, stopped: bool, st: WaitStatus, ghost v: Job) returns (r: RunStatus)
      requires v.procs != [] && job.Header() == v.(procs := [])
      requires settled == Settled(v.procs)
      requires settled ==> stopped == SomeStopped(v.procs) && st == v.procs[|v.procs| - 1].status
      modifies job`notified, job`run_status, job`status, job`foreground
      ensures job.Header() == Judge(v).(procs := []) && r == Judge(v).run
    {
      r := if !settled then Running else if stopped then Stopped else Completed;
      if job.run_status != r {
        job.notified := false;
      }
      job.run_status := r;
      if settled {
        job.status := st;
        if stopped {
          job.foreground := false;
        }
      }
    }

    /** `updateJobStatus`. */
    method UpdateJobStatus(job: JobNode, ghost i: nat) returns (r: RunStatus)
      requires Valid() && i < |jobs| && job == jobs[i] && Peopled(table)
      modifies `table, job`notified, job`run_status, job`status, job`foreground
      ensures Valid() && i < |old(table)| && old(table)[i].procs != []
      ensures table == old(table)[i := Judge(old(table)[i])] && r == table[i].run
      ensures Verdict(table[i], old(table)[i])
    {
      hide Valid, Fits, OtherHeaders, Settled, SomeStopped, Peopled, Judge, Verdict;
      var settled, stopped, st := Survey(job, i);
      HeaderAt(i);
      FitsNow();
      ghost var was := table;
      r := SetStatus(job, settled, stopped, st, was[i]);
      table := table[i := Judge(table[i])];
      JudgeKeepsProcs(was[i]);
      JudgeIs(was[i]);
      EntryChanged(was, i, table[i]);
    }

    /* ---- waiting ---- */

    /** The wait loop of `makeJobForeground` and of batch commands. */
    method WaitFor(job: JobNode, replies: seq<Reply>, ghost i: nat)
      requires Valid() && i < |jobs| && job == jobs[i] && Peopled(table)
      modifies `table, job`notified, job`run_status, job`status, job`foreground
      modifies pool`completed, pool`stopped, pool`status
      ensures Valid() && i < |old(table)| && table == Waited(old(table), i, replies)
      ensures Peopled(table)
    {
      hide Valid, Peopled, AfterReply, Judge;
      Lengths();
      var n := 0;
      var more := true;
      while more
        invariant Valid() && n <= |replies| && |table| == |old(table)| && Peopled(table)
        invariant Waited(old(table), i, replies) == if more then Waited(table, i, replies[n..]) else table
        decreases |replies| - n, more
      {
        var reply := if n < |replies| then replies[n] else NOTHING;
        ghost var before := table;
        WaitedStep(table, i, replies, n);
        var found := UpdateProcessStatus(reply.pid, reply.status);
        if found {
          var r := UpdateJobStatus(job, i);
          JudgedPeopled(AfterReply(before, reply).0, i);
          n := n + 1;
          more := r == Running;
        } else {
          more := false;
        }
      }
    }

    /** The drain of `checkForJobNotifications`. */
    method Drain(replies: seq<Reply>)
      requires Valid()
      modifies `table, pool`completed, pool`stopped, pool`status
      ensures Valid() && table == Drained(old(table), replies)
    {
      hide Valid, AfterReply;
      var n := 0;
      var more := true;
      while more
        invariant Valid() && n <= |replies|
        invariant Drained(old(table), replies) == if more then Drained(table, replies[n..]) else table
        decreases |replies| - n, more
      {
        var reply := if n < |replies| then replies[n] else NOTHING;
        DrainedStep(table, replies, n);
        more := UpdateProcessStatus(reply.pid, reply.status);
        if more {
          n := n + 1;
        }
      }
    }

    lemma Without(i: nat)
      requires Valid() && i < |jobs|
      ensures |jobs| == |table|
      ensures var js := jobs[..i] + jobs[i + 1..]; var t := table[..i] + table[i + 1..];
        Pooled(js) && Chains(js) && Headers(js, t) && Members(js, t)
    {
      hide Linked;
      var js, t := jobs[..i] + jobs[i + 1..], table[..i] + table[i + 1..];
      forall m | 0 <= m < |js|
        ensures js[m] == jobs[if m < i then m else m + 1] && t[m] == table[if m < i then m else m + 1]
      {
      }
      assert Pooled(js);
    }

    /** Every link is right but the one into position `i`. */
    ghost predicate LinkedBut(js: seq<JobNode>, i: int)
      reads (set m | 0 <= m < |js| && m != i - 1 :: js[m])`next
    {
      && (forall m | 0 <= m < |js| && m != i - 1 :: js[m].next == NthJob(js, m + 1))
      && (forall m, k | 0 <= m < k < |js| :: js[m] != js[k])
    }

    lemma LinkedAround(i: nat)
      requires Valid() && i < |jobs|
      ensures LinkedBut(jobs, i) && (0 < i ==> job_head == jobs[0])
      ensures forall m | 0 <= m < |jobs| && m != i - 1 :: 0 < i ==> jobs[m] != jobs[i - 1]
    {
      hide Members, Headers, Chains;
    }

    lemma Relinked(js: seq<JobNode>, i: nat)
      requires i < |js| && LinkedBut(js, i)
      requires if i == 0 then job_head == NthJob(js, 1) else job_head == js[0] && js[i - 1].next == NthJob(js, i + 1)
      ensures Linked(js[..i] + js[i + 1..])
    {
      var ks := js[..i] + js[i + 1..];
      forall m | 0 <= m < |ks| ensures ks[m] == js[if m < i then m else m + 1] {
      }
    }

    /** Taking a job out of the list. */
    method Unlink(last: JobNode?, next: JobNode?, ghost i: nat)
      requires Valid() && i < |jobs|
      requires next == NthJob(jobs, i + 1) && last == NthJob(jobs, i - 1)
      modifies `job_head, `jobs, `table, (if last == null then {} else {last})`next
      ensures Valid() && jobs == old(jobs[..i] + jobs[i + 1..]) && table == old(table[..i] + table[i + 1..])
      ensures |old(jobs)| == |old(table)|
    {
      hide Linked, Pooled, Chains, Members, Headers, LinkedBut;
      Lengths();
      Without(i);
      LinkedAround(i);
      if last != null {
        last.next := next;
      } else {
        job_head := next;
      }
      Relinked(jobs, i);
      jobs := jobs[..i] + jobs[i + 1..];
      table := table[..i] + table[i + 1..];
    }

    method SetNotified(job: JobNode, ghost i: nat)
      requires Valid() && i < |jobs| && job == jobs[i]
      modifies `table, job`notified
      ensures Valid() && i < |old(table)| && table == old(table)[i := old(table)[i].(notified := true)]
    {
      hide Valid, Fits, OtherHeaders;
      HeaderAt(i);
      FitsNow();
      ghost var was := table;
      job.notified := true;
      table := table[i := table[i].(notified := true)];
      EntryChanged(was, i, table[i]);
    }

    /** The body of the loop in `checkForJobNotifications`: judge a job, report it, unlink it if completed. */
    method Notify(job: JobNode, last: JobNode?, next: JobNode?, ghost i: nat) returns (lines: seq<Line>, kept: bool)
      requires Valid() && i < |jobs| && job == jobs[i] && Peopled(table)
      requires next == NthJob(jobs, i + 1) && last == NthJob(jobs, i - 1)
      modifies `job_head, `jobs, `table, job`notified, job`run_status, job`status, job`foreground
      modifies (if last == null then {} else {last})`next
      ensures Valid() && i < |old(table)| && old(table)[i].procs != []
      ensures var v := Judge(old(table)[i]);
        && lines == Announcement(v) && kept == (v.run != Completed)
        && table == old(table)[..i] + Survivor(v) + old(table)[i + 1..]
        && jobs == old(jobs)[..i] + (if kept then [job] else []) + old(jobs)[i + 1..]
    {
      hide Valid, Judge, Peopled, OtherHeaders;
      lines := [];
      ghost var was := table;
      var r := UpdateJobStatus(job, i);
      HeaderAt(i);
      kept := r != Completed;
      if r == Completed {
        if !job.foreground && !job.notified {
          lines := [DoneLine(job.job_num, job.job_name)];
        }
        Unlink(last, next, i);
        SpliceOut(was, table, i);
        SpliceOut(old(jobs), jobs, i);
      } else if r == Stopped {
        if !job.foreground && !job.notified {
          lines := [StoppedLine(job.job_num)];
        }
        SetNotified(job, i);
        SpliceIn(was, i, table[i]);
        SpliceIn(jobs, i, job);
      } else {
        SpliceIn(was, i, table[i]);
        SpliceIn(jobs, i, job);
      }
    }

    /** The loop of `checkForJobNotifications` after the drain. */
    method Sweep() returns (lines: seq<Line>)
      requires Valid() && Peopled(table)
      modifies `job_head, `jobs, `table, jobs
      ensures Valid() && table == Swept(old(table)) && lines == Announced(old(table))
    {
      hide Valid, Judge, Peopled, SweptTo, Survivor, Announcement, Announced, Swept;
      Lengths();
      lines := [];
      var last: JobNode? := null;
      var job := job_head;
      ghost var i := 0;
      SweepStarts(table);
      while job != null
        invariant Valid() && Peopled(table) && |table| == |jobs| && 0 <= i <= |jobs|
        invariant forall j | j in jobs :: j in old(jobs)
        invariant job == NthJob(jobs, i) && last == NthJob(jobs, i - 1)
        invariant SweptTo(old(table), table, i, lines)
        decreases |jobs| - i
      {
        FollowJobs(i);
        var next := job.next;
        ghost var was, at := table, i;
        assert job in jobs && (last != null ==> last in jobs);
        var said, kept := Notify(job, last, next, i);
        SweepGoesOn(old(table), was, at, lines, Judge(was[at]), table);
        SurvivorSize(Judge(was[at]));
        SweptPeopled(old(table), table, at + |Survivor(Judge(was[at]))|, lines + said);
        Lengths();
        lines := lines + said;
        if kept {
          last := job;
          i := i + 1;
        }
        job := next;
      }
      SweepEnds(old(table), table, lines);
    }

    /** `checkForJobNotifications`, with the answers `waitpid` gives. */
    method CheckForJobNotifications(replies: seq<Reply>) returns (lines: seq<Line>)
      requires Valid() && Peopled(table)
      modifies this, jobs, pool
      ensures Valid() && Peopled(Drained(old(table), replies))
      ensures table == Swept(Drained(old(table), replies)) && lines == Announced(Drained(old(table), replies))
      ensures n_job == if table == [] then 0 else old(n_job)
    {
      hide Linked, Pooled, Chains, Members, Headers, Peopled, Announced, Swept, Drained;
      DrainedPeopled(table, replies);
      Drain(replies);
      lines := Sweep();
      Lengths();
      if job_head == null {
        n_job := 0;
      }
    }

    /* ---- builtins ---- */

    method FindNumbered(num: int) returns (job: JobNode?)
      requires Valid()
      ensures |jobs| == |table| && job == NthJob(jobs, Numbered(table, num))
    {
      hide Linked, Pooled, Chains, Members, OtherHeaders;
      job := job_head;
      Lengths();
      ghost var i := 0;
      while job != null && job.job_num != num
        invariant 0 <= i <= |jobs| && job == NthJob(jobs, i)
        invariant forall m | 0 <= m < i :: table[m].num != num
        decreases |jobs| - i
      {
        HeaderAt(i);
        FollowJobs(i);
        job := job.next;
        i := i + 1;
      }
      if job != null {
        HeaderAt(i);
      }
    }

    method FindStopped() returns (job: JobNode?)
      requires Valid()
      ensures |jobs| == |table| && job == NthJob(jobs, FirstStopped(table))
    {
      hide Linked, Pooled, Chains, Members, OtherHeaders;
      job := job_head;
      Lengths();
      ghost var i := 0;
      while job != null && job.run_status != Stopped
        invariant 0 <= i <= |jobs| && job == NthJob(jobs, i)
        invariant forall m | 0 <= m < i :: table[m].run != Stopped
        decreases |jobs| - i
      {
        HeaderAt(i);
        FollowJobs(i);
        job := job.next;
        i := i + 1;
      }
      if job != null {
        HeaderAt(i);
      }
    }

    /** One round of the loop that clears the stop marks. */
    method ClearStop(p: Process, ghost i: nat, ghost k: nat)
      requires Valid() && p == ProcessAt(i, k)
      modifies `table, p`stopped
      ensures Valid() && i < |old(table)| && k < |old(table)[i].procs|
      ensures table == old(table)[i := old(table)[i].(procs := ClearedTo(old(table)[i].procs, k, k + 1))]
    {
      hide Linked, Pooled, Chains, Members, Headers, OnlyAt, OthersShow;
      Sight(i, k);
      OthersDo(p);
      Alone(i, k);
      p.stopped := false;
      ClearedOne(table[i].procs, k);
      table := table[i := table[i].(procs := ClearedTo(table[i].procs, k, k + 1))];
      HeadersAfter(old(table), i, table[i].procs);
      MembersAfter(old(table), i, k);
    }

    /** `for (p = job->process; p != NULL; p = p->next) p->stopped = 0`. */
    method ClearStops(job: JobNode, ghost i: nat)
      requires Valid() && i < |jobs| && job == jobs[i]
      modifies `table, pool`stopped
      ensures Valid() && i < |old(table)|
      ensures table == old(table)[i := old(table)[i].(procs := Unstopped(old(table)[i].procs))]
    {
      hide Valid, ClearedTo, Unstopped;
      FirstProcess(i);
      ghost var k := 0;
      var p := job.process;
      ClearedNone(old(table), i);
      while p != null
        invariant Valid() && |table| == |jobs| && 0 <= k <= |job.procs| && p == ProcessAt(i, k)
        invariant |old(table)[i].procs| == |job.procs|
        invariant table == old(table)[i := old(table)[i].(procs := ClearedTo(old(table)[i].procs, 0, k))]
        decreases |job.procs| - k
      {
        FollowProcesses(i, k);
        InPool(i, k);
        ClearStop(p, i, k);
        ClearedMore(old(table), i, k);
        p := p.next;
        k := k + 1;
      }
      ClearedAll(old(table)[i].procs);
    }

    method SetForeground(job: JobNode, foreground: bool, notified: bool, ghost i: nat)
      requires Valid() && i < |jobs| && job == jobs[i]
      modifies `table, job`foreground, job`notified
      ensures Valid() && i < |old(table)|
      ensures table == old(table)[i := old(table)[i].(foreground := foreground, notified := notified)]
    {
      hide Valid, Fits, OtherHeaders;
      HeaderAt(i);
      FitsNow();
      ghost var was := table;
      job.foreground := foreground;
      job.notified := notified;
      table := table[i := table[i].(foreground := foreground, notified := notified)];
      EntryChanged(was, i, table[i]);
    }

    /** `makeJobForeground`; handing over the terminal is in module Terminal. */
    method MakeJobForeground(job: JobNode, cont: bool, replies: seq<Reply>, ghost i: nat) returns (sent: seq<Signal>)
      requires Valid() && i < |jobs| && job == jobs[i] && Peopled(table)
      modifies `table, job`notified, job`run_status, job`status, job`foreground
      modifies pool`completed, pool`stopped, pool`status
      ensures Valid() && i < |old(table)| && Peopled(table)
      ensures var t := old(table)[i := old(table)[i].(foreground := true)]; Peopled(t) && table == Waited(t, i, replies)
      ensures sent == if cont then [Continue(old(table)[i].gid)] else []
    {
      hide Linked, Chains, Members, Pooled, OtherHeaders, Waited;
      Lengths();
      HeaderAt(i);
      assert table[i] in table;
      SetForeground(job, true, job.notified, i);
      sent := if cont then [Continue(job.process_gid)] else [];
      WaitFor(job, replies, i);
    }

    /** `_fg` once it has found its job. */
    method BringForward(job: JobNode, replies: seq<Reply>, ghost i: nat) returns (sent: seq<Signal>)
      requires Valid() && i < |jobs| && job == jobs[i] && Peopled(table)
      modifies `table, job`notified, job`run_status, job`status, job`foreground
      modifies pool`completed, pool`stopped, pool`status
      ensures Valid() && i < |old(table)| && Peopled(table)
      ensures var t := old(table)[i := ToForeground(old(table)[i])]; Peopled(t) && table == Waited(t, i, replies)
      ensures sent == [Continue(old(table)[i].gid)]
    {
      hide Valid, Waited, Unstopped, Peopled;
      Lengths();
      ghost var was := table;
      ResumedPeopled(table, i);
      ClearStops(job, i);
      ghost var cleared := was[i].(procs := Unstopped(was[i].procs));
      SetForeground(job, job.foreground, true, i);
      Rewritten(was, i, cleared, table[i]);
      PeopledWith(was, i, table[i]);
      Rewritten(was, i, table[i], table[i].(foreground := true));
      sent := MakeJobForeground(job, true, replies, i);
    }

    /** `_fg`. */
    method Fg(operands: seq<int>, replies: seq<Reply>) returns (lines: seq<Line>, sent: seq<Signal>)
      requires Valid() && Peopled(table)
      modifies `table, jobs, pool`completed, pool`stopped, pool`status
      ensures Valid() && Peopled(table)
      ensures (table, lines, sent) == AfterFg(old(table), operands, replies)
      ensures FgSays(old(table), operands, replies, table, lines, sent)
    {
      hide Linked, Chains, Members, Pooled, OtherHeaders, Waited, Unstopped, Peopled, FgSays;
      FgDoes(table, operands, replies);
      if |operands| == 0 {
        return [TooFewArguments], [];
      }
      if |operands| > 1 {
        return [TooManyArguments], [];
      }
      var job := FindNumbered(operands[0]);
      if job == null {
        return [NoSuchJob], [];
      }
      ghost var i := Numbered(table, operands[0]);
      HeaderAt(i);
      lines := [NameLine(job.job_name)];
      sent := BringForward(job, replies, i);
    }

    /** `bg` and `kill` once they have found their job: `sendJobBackground` with a continue signal. */
    method SendBack(job: JobNode, ghost i: nat) returns (sent: seq<Signal>)
      requires Valid() && i < |jobs| && job == jobs[i]
      modifies `table, job`foreground, job`notified, pool`stopped
      ensures Valid() && i < |old(table)| && table == old(table)[i := ToBackground(old(table)[i])]
      ensures sent == [Continue(old(table)[i].gid)]
    {
      hide Linked, Chains, Members, Pooled, OtherHeaders, Unstopped;
      Lengths();
      HeaderAt(i);
      ghost var was := table;
      ClearStops(job, i);
      SetForeground(job, false, false, i);
      Rewritten(was, i, was[i].(procs := Unstopped(was[i].procs)), ToBackground(was[i]));
      sent := [Continue(job.process_gid)];
    }

    /** `printProcessIds`: the oldest process first. */
    method ProcessIds(p: Process?, ghost i: nat, ghost k: nat) returns (pids: seq<int>)
      requires Valid() && i < |jobs| && i < |table| && k <= |table[i].procs| == |jobs[i].procs| && p == ProcessAt(i, k)
      ensures pids == Pids(table[i].procs[k..])
      decreases |jobs[i].procs| - k
    {
      hide Valid;
      if p == null {
        pids := [];
      } else {
        Sight(i, k);
        FollowProcesses(i, k);
        var rest := ProcessIds(p.next, i, k + 1);
        pids := rest + [p.pid];
        assert table[i].procs[k..][1..] == table[i].procs[k + 1..];
      }
    }

    /** `_bg`. */
    method Bg(operands: seq<int>) returns (lines: seq<Line>, sent: seq<Signal>)
      requires Valid()
      modifies `table, jobs, pool`stopped
      ensures Valid() && (table, lines, sent) == AfterBg(old(table), operands)
      ensures BgSays(old(table), operands, table, lines, sent)
    {
      hide Linked, Chains, Members, Pooled, OtherHeaders, Pids, Unstopped, ToBackground, BgSays;
      BgDoes(table, operands);
      if |operands| > 1 {
        return [TooManyArguments], [];
      }
      var job: JobNode?;
      if |operands| == 0 {
        job := FindStopped();
      } else {
        job := FindNumbered(operands[0]);
      }
      if job == null {
        return [NoSuchJob], [];
      }
      ghost var i := if |operands| == 0 then FirstStopped(table) else Numbered(table, operands[0]);
      HeaderAt(i);
      FirstProcess(i);
      var pids := ProcessIds(job.process, i, 0);
      assert table[i].procs[0..] == table[i].procs;
      lines := [ProcessesLine(job.job_num, pids)];
      sent := SendBack(job, i);
    }

    /** One operand of `_kill`. */
    method KillOne(num: int, reachable: set<int>) returns (sent: seq<Signal>, failed: bool)
      requires Valid()
      modifies `table, jobs, pool`stopped
      ensures Valid()
      ensures var t := old(table); var i := Numbered(t, num);
        if i == |t| then table == t && sent == [] && !failed
        else
          && table == t[i := ToBackground(t[i])] && sent == [Continue(t[i].gid), Terminate(t[i].gid)]
          && failed == (t[i].gid !in reachable)
    {
      hide Valid, ToBackground;
      sent, failed := [], false;
      var job := FindNumbered(num);
      if job != null {
        ghost var i := Numbered(table, num);
        GroupAt(i);
        var gid := job.process_gid;
        sent := SendBack(job, i);
        sent := sent + [Terminate(gid)];
        failed := gid !in reachable;
      }
    }

    /** `_kill`; a signal is delivered exactly to the groups in `reachable`. */
    method Kill(operands: seq<int>, reachable: set<int>) returns (lines: seq<Line>, sent: seq<Signal>)
      requires Valid()
      modifies `table, jobs, pool`stopped
      ensures Valid() && lines == (if |operands| == 0 then [TooFewArguments] else [])
      ensures (table, sent) == Killed(old(table), operands, reachable)
      ensures exists k: nat :: Served(old(table), operands, reachable, k, table, sent)
    {
      hide Valid, Killed, ToBackground, Served;
      ghost var k := KillDoes(table, operands, reachable);
      sent := [];
      lines := [];
      if |operands| == 0 {
        lines := [TooFewArguments];
      }
      var n := 0;
      KilledFrom(table, operands, reachable, 0);
      while n < |operands|
        invariant Valid() && 0 <= n <= |operands|
        invariant Killed(table, operands[n..], reachable).0 == Killed(old(table), operands, reachable).0
        invariant sent + Killed(table, operands[n..], reachable).1 == Killed(old(table), operands, reachable).1
      {
        KilledFrom(table, operands, reachable, n);
        var signals, failed := KillOne(operands[n], reachable);
        sent := sent + signals;
        if failed {
          return;
        }
        n := n + 1;
      }
      KilledFrom(table, operands, reachable, n);
      assert sent + [] == sent;
    }

    lemma GroupAt(i: nat)
      requires Valid() && i < |jobs|
      ensures i < |table| && jobs[i].process_gid == table[i].gid
    {
      hide Linked, Chains, Members, Pooled;
    }

    /* ---- launching ---- */

    lemma Prepended(job: JobNode, t: seq<Job>)
      requires Valid() && job !in jobs && job.procs == [] && job.process == null && job.next == job_head
      requires t == [job.Header()] + table
      ensures var js := [job] + jobs;
        Pooled(js) && Chains(js) && Headers(js, t) && Members(js, t) && Nexts(js)
    {
      PrependedNext(job);
      PrependedShow(job, t);
    }

    lemma PrependedNext(job: JobNode)
      requires Valid() && job !in jobs && job.next == job_head
      ensures Nexts([job] + jobs)
    {
      hide Chains, Members, Pooled, Headers;
      var js := [job] + jobs;
      forall i | 0 <= i < |js| ensures js[i].next == NthJob(js, i + 1) {
        if i > 0 {
          assert js[i] == jobs[i - 1];
        }
      }
      forall i, k | 0 <= i < k < |js| ensures js[i] != js[k] {
        assert js[k] == jobs[k - 1];
      }
    }

    lemma PrependedShow(job: JobNode, t: seq<Job>)
      requires Valid() && job.procs == [] && job.process == null && t == [job.Header()] + table
      ensures var js := [job] + jobs; Pooled(js) && Chains(js) && Headers(js, t) && Members(js, t)
    {
      PrependedPooled(job);
      PrependedHeaders(job, t);
      hide Linked, Headers;
      var js := [job] + jobs;
      forall i | 0 <= i < |js| ensures js[i].Chained() && js[i].Shows(t[i].procs) {
        if i > 0 {
          assert js[i] == jobs[i - 1] && t[i] == table[i - 1];
        }
      }
    }

    lemma PrependedPooled(job: JobNode)
      requires Pooled(jobs) && job.procs == []
      ensures Pooled([job] + jobs)
    {
      var js := [job] + jobs;
      forall i, k | 0 <= i < |js| && 0 <= k < |js[i].procs| ensures js[i].procs[k] in pool {
        assert js[i] == jobs[i - 1];
      }
    }

    lemma PrependedHeaders(job: JobNode, t: seq<Job>)
      requires Headers(jobs, table) && t == [job.Header()] + table
      ensures Headers([job] + jobs, t)
    {
    }

    lemma NowLinked()
      requires Nexts(jobs) && job_head == NthJob(jobs, 0)
      ensures Linked(jobs)
    {
    }

    /** The job record made before the first fork. */
    method NewJob(name: string, ghost id: nat) returns (job: JobNode)
      requires Valid()
      modifies this
      ensures Valid() && n_job == old(n_job) + 1 && jobs == [job] + old(jobs) && fresh(job) && pool == old(pool)
      ensures table == WithNewJob(old(table), id, n_job, name)
    {
      hide Chains, Members, Pooled, Headers, Linked, Nexts;
      n_job := n_job + 1;
      job := new JobNode(n_job, name, job_head, id);
      Prepended(job, WithNewJob(table, id, n_job, name));
      job_head := job;
      jobs, table := [job] + jobs, WithNewJob(table, id, n_job, name);
      NowLinked();
    }

    /** The lists of the jobs other than `job` are in place. */
    ghost predicate OthersFit(t: seq<Job>, job: JobNode, all: set<Process>)
      reads `jobs, (set m | 0 <= m < |jobs| && jobs[m] != job :: jobs[m]),
        (set m, n | 0 <= m < |jobs| && jobs[m] != job && 0 <= n < |jobs[m].procs| :: jobs[m].procs[n])
    {
      |jobs| == |t| && forall m | 0 <= m < |jobs| && jobs[m] != job ::
        jobs[m].Chained() && jobs[m].Shows(t[m].procs) && forall n | 0 <= n < |jobs[m].procs| :: jobs[m].procs[n] in all
    }

    lemma OthersFitNow(job: JobNode)
      requires Valid()
      ensures OthersFit(table, job, pool)
    {
      hide Linked, Headers;
    }

    /** The lists after a process was put in front of the job at `i`. */
    lemma Grown(t: seq<Job>, all: set<Process>, i: nat, v: Job)
      requires i < |jobs| && OthersFit(t, jobs[i], all) && all <= pool && table == t[i := v]
      requires Nexts(jobs)
      requires jobs[i].Chained() && jobs[i].Shows(v.procs)
        && forall n | 0 <= n < |jobs[i].procs| :: jobs[i].procs[n] in pool
      ensures Pooled(jobs) && Chains(jobs) && Members(jobs, table)
    {
      assert forall m | 0 <= m < |jobs| && m != i :: jobs[m] != jobs[i];
    }

    /** The list of the job at `i`. */
    lemma ListAt(i: nat)
      requires Valid() && i < |jobs|
      ensures i < |table| && jobs[i].Chained() && jobs[i].Shows(table[i].procs)
      ensures Nexts(jobs) && forall n | 0 <= n < |jobs[i].procs| :: jobs[i].procs[n] in pool
    {
    }

    /** The parent's half of one `fork`: a record in front of the job's processes, and the group. */
    method AddProcess(job: JobNode, pid: int, interactive: bool, ghost birth: nat, ghost i: nat)
      requires Valid() && i < |jobs| && job == jobs[i]
      modifies `table, `pool, job`process, job`procs, job`process_gid
      ensures Valid() && i < |old(table)|
      ensures table == old(table)[i := WithProcess(old(table)[i], pid, birth, interactive)]
      ensures fresh(pool - old(pool)) && old(pool) <= pool
    {
      hide Linked, Pooled, Chains, Members, Headers, Nexts, OthersFit, OtherHeaders, WithProcess, JobNode.Chained,
        JobNode.Shows;
      ListAt(i);
      HeaderAt(i);
      OthersFitNow(job);
      ghost var was, all := table, pool;
      var p := GrowJob(job, pid, interactive, birth, was[i]);
      pool := pool + {p};
      table := table[i := WithProcess(table[i], pid, birth, interactive)];
      HeaderAfter(was, i, table[i]);
      Grown(was, all, i, table[i]);
    }

    static method GrowJob(job: JobNode, pid: int, interactive: bool, ghost birth: nat, ghost v: Job)
      returns (p: Process)
      requires job.Chained() && job.Shows(v.procs) && job.Header() == v.(procs := [])
      modifies job`process, job`procs, job`process_gid
      ensures fresh(p) && job.procs == [p] + old(job.procs) && job.Chained()
      ensures var w := WithProcess(v, pid, birth, interactive); job.Shows(w.procs) && job.Header() == w.(procs := [])
    {
      hide JobNode.Chained, JobNode.Shows;
      p := new Process(pid, job.process, birth, job);
      PushProcess(job, p, v.procs);
      if interactive && job.process_gid == 0 {
        job.process_gid := pid;
      }
    }

    static method PushProcess(job: JobNode, p: Process, ghost ps: seq<Proc>)
      requires job.Chained() && job.Shows(ps) && p !in job.procs && p.next == job.process && p.owner == job
      modifies job`process, job`procs
      ensures job.Chained() && job.procs == [p] + old(job.procs) && job.Shows([p.View()] + ps)
    {
      job.process := p;
      job.procs := [p] + job.procs;
    }

    /** The job of `ExecCommand`: one process for each stage. */
    method ForkAll(name: string, pids: seq<int>, interactive: bool, ghost id: nat, ghost birth: nat)
      returns (job: JobNode)
      requires Valid()
      modifies this
      ensures Valid() && n_job == old(n_job) + 1 && jobs == [job] + old(jobs)
      ensures fresh(job) && fresh(pool - old(pool)) && old(pool) <= pool
      ensures table == Forked(old(table), id, n_job, name, pids, birth, interactive)
    {
      hide Linked, Pooled, Chains, Members, Headers, WithProcesses, WithProcess;
      job := NewJob(name, id);
      ghost var t := table;
      WithNone(t[0], birth, interactive);
      var n := 0;
      assert pids[..0] == [];
      while n < |pids|
        invariant Valid() && 0 <= n <= |pids| && n_job == old(n_job) + 1 && jobs == [job] + old(jobs)
        invariant fresh(pool - old(pool)) && old(pool) <= pool
        invariant table == t[0 := WithProcesses(t[0], pids[..n], birth, interactive)]
        modifies `table, `pool, job
      {
        AddProcess(job, pids[n], interactive, birth + n, 0);
        WithOneMore(t[0], pids, birth, interactive, n);
        Rewritten(t, 0, WithProcesses(t[0], pids[..n], birth, interactive), table[0]);
        n := n + 1;
      }
      assert pids[..n] == pids;
    }

    /** The job-control half of `ExecCommand`. */
    method Launch(name: string, pids: seq<int>, interactive: bool, background: bool, replies: seq<Reply>,
                  ghost id: nat, ghost birth: nat) returns (lines: seq<Line>)
      requires Valid() && Peopled(table) && pids != []
      modifies this, pool`completed, pool`stopped, pool`status
      ensures Valid() && Peopled(table) && n_job == old(n_job) + 1
      ensures var t := Forked(old(table), id, n_job, name, pids, birth, interactive);
        Peopled(t) && (table, lines) == AfterForks(t, interactive, background, replies)
      ensures Launched(old(table), id, n_job, name, pids, birth, interactive, background, replies, table, lines)
    {
      hide Linked, Pooled, Chains, Members, Headers, Waited, Pids, Peopled, WithProcesses, Forked, Launched;
      LaunchDoes(table, id, n_job + 1, name, pids, birth, interactive, background, replies);
      ForkedPeopled(table, id, n_job + 1, name, pids, birth, interactive);
      var job := ForkAll(name, pids, interactive, id, birth);
      ghost var t := table;
      HeaderAt(0);
      lines := [];
      if !interactive {
        WaitFor(job, replies, 0);
      } else if !background {
        PeopledWith(t, 0, t[0].(foreground := true));
        SetForeground(job, true, job.notified, 0);
        Rewritten(t, 0, table[0], table[0].(foreground := true));
        var sent := MakeJobForeground(job, false, replies, 0);
      } else {
        FirstProcess(0);
        var pids := ProcessIds(job.process, 0, 0);
        assert t[0].procs[0..] == t[0].procs;
        lines := [ProcessesLine(job.job_num, pids)];
        SetForeground(job, false, true, 0);
        PeopledWith(t, 0, table[0]);
      }
    }
  }

  lemma SurvivorSize(v: Job)
    ensures |Survivor(v)| == if v.run == Completed then 0 else 1
  {
  }

  lemma SweptPeopled(start: seq<Job>, now: seq<Job>, i: int, lines: seq<Line>)
    requires SweptTo(start, now, i, lines)
    ensures Peopled(now) && 0 <= i <= |now|
  {
  }

  /** One round of `kill`. */
  lemma KilledFrom(t: seq<Job>, operands: seq<int>, reachable: set<int>, n: nat)
    requires n <= |operands|
    ensures n == 0 ==> operands[n..] == operands
    ensures n == |operands| ==> Killed(t, operands[n..], reachable) == (t, [])
    ensures n < |operands| ==>
      var i := Numbered(t, operands[n]);
      if i == |t| then Killed(t, operands[n..], reachable) == Killed(t, operands[n + 1..], reachable)
      else
        var after := t[i := ToBackground(t[i])];
        var sent := [Continue(t[i].gid), Terminate(t[i].gid)];
        if t[i].gid !in reachable then Killed(t, operands[n..], reachable) == (after, sent)
        else
          var rest := Killed(after, operands[n + 1..], reachable);
          Killed(t, operands[n..], reachable) == (rest.0, sent + rest.1)
  {
    hide Numbered, ToBackground;
    if n < |operands| {
      assert operands[n..][0] == operands[n] && operands[n..][1..] == operands[n + 1..];
    }
  }

  lemma WithNone(j: Job, birth: nat, interactive: bool)
    ensures WithProcesses(j, [], birth, interactive) == j
  {
  }

  lemma ForkedPeopled(t: seq<Job>, id: nat, num: int, name: string, pids: seq<int>, birth: nat, interactive: bool)
    requires Peopled(t) && pids != []
    ensures Forked(t, id, num, name, pids, birth, interactive) != []
    ensures Peopled(Forked(t, id, num, name, pids, birth, interactive))
  {
    hide WithProcess;
  }

  lemma Rewritten<T>(s: seq<T>, i: nat, x: T, y: T)
    requires i < |s|
    ensures s[i := x][i := y] == s[i := y]
  {
  }

  /** The stop marks from `lo` to `hi` cleared. */
  function ClearedTo(ps: seq<Proc>, lo: int, hi: int): (r: seq<Proc>)
    ensures |r| == |ps|
    ensures forall k | 0 <= k < |r| :: r[k] == if lo <= k < hi then ps[k].(stopped := false) else ps[k]
  {
    seq(|ps|, k requires 0 <= k < |ps| => if lo <= k < hi then ps[k].(stopped := false) else ps[k])
  }

  lemma ClearedOne(ps: seq<Proc>, k: nat)
    requires k < |ps|
    ensures ClearedTo(ps, k, k + 1) == ps[k := ps[k].(stopped := false)]
  {
  }

  lemma ClearedNone(t: seq<Job>, i: nat)
    requires i < |t|
    ensures t[i := t[i].(procs := ClearedTo(t[i].procs, 0, 0))] == t
  {
    assert ClearedTo(t[i].procs, 0, 0) == t[i].procs;
  }

  lemma ClearedMore(t: seq<Job>, i: nat, k: nat)
    requires i < |t|
    ensures var u := t[i := t[i].(procs := ClearedTo(t[i].procs, 0, k))];
      u[i := u[i].(procs := ClearedTo(u[i].procs, k, k + 1))] == t[i := t[i].(procs := ClearedTo(t[i].procs, 0, k + 1))]
  {
    assert ClearedTo(ClearedTo(t[i].procs, 0, k), k, k + 1) == ClearedTo(t[i].procs, 0, k + 1);
  }

  lemma ClearedAll(ps: seq<Proc>)
    ensures ClearedTo(ps, 0, |ps|) == Unstopped(ps)
  {
  }

  lemma SpliceOut<T>(s: seq<T>, t: seq<T>, i: nat)
    requires i < |s|
    requires t == s[..i] + s[i + 1..]
    ensures t == s[..i] + [] + s[i + 1..]
  {
  }

  lemma SpliceIn<T>(s: seq<T>, i: nat, x: T)
    requires i < |s|
    ensures s[i := x] == s[..i] + [x] + s[i + 1..]
  {
  }

  const NOTHING := Reply(-1, Ended(0))

  lemma DrainedStep(jobs: seq<Job>, replies: seq<Reply>, n: nat)
    requires n <= |replies|
    ensures var step := AfterReply(jobs, if n < |replies| then replies[n] else NOTHING);
      && (step.1 ==> n < |replies| && Drained(jobs, replies[n..]) == Drained(step.0, replies[n + 1..]))
      && (!step.1 ==> step.0 == jobs && Drained(jobs, replies[n..]) == jobs)
  {
    if n < |replies| {
      assert replies[n..][0] == replies[n] && replies[n..][1..] == replies[n + 1..];
    }
  }

  lemma WaitedStep(jobs: seq<Job>, i: nat, replies: seq<Reply>, n: nat)
    requires n <= |replies| && i < |jobs| && Peopled(jobs)
    ensures var step := AfterReply(jobs, if n < |replies| then replies[n] else NOTHING);
      && |step.0| == |jobs| && Peopled(step.0) && step.0[i].procs != []
      && (!step.1 ==> step.0 == jobs && Waited(jobs, i, replies[n..]) == jobs)
      && (step.1 ==>
            var judged := step.0[i := Judge(step.0[i])];
            n < |replies| && Peopled(judged)
            && Waited(jobs, i, replies[n..])
              == if judged[i].run == Running then Waited(judged, i, replies[n + 1..]) else judged)
  {
    var reply := if n < |replies| then replies[n] else NOTHING;
    AfterReplyKeeps(jobs, reply);
    JudgedPeopled(AfterReply(jobs, reply).0, i);
    if n < |replies| {
      assert replies[n..][0] == replies[n] && replies[n..][1..] == replies[n + 1..];
    }
  }

  lemma JudgedPeopled(jobs: seq<Job>, i: nat)
    requires i < |jobs| && Peopled(jobs) && jobs[i].procs != []
    ensures Peopled(jobs[i := Judge(jobs[i])])
  {
  }
}
