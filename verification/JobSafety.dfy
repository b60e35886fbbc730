/** What holds in every run: records match children, numbers are unique, reports come once. */
module JobSafety {
  import opened JobTable
  import opened JobRuns

  /* ---- records and children ---- */

  /**
   Each unreaped child has a record that is not completed, and a search meets it first;
   every other record is completed.
   */
  ghost predicate Agree(recs: seq<Proc>, children: map<int, Child>, births: nat) {
    && (forall pid | pid in children :: pid > 0 && Owns(recs, pid, children[pid].birth))
    && (forall a | 0 <= a < |recs| :: recs[a].birth < births)
    && (forall a | 0 <= a < |recs| :: recs[a].completed <==> !Owned(recs[a], children))
    && (forall a, b | 0 <= a < b < |recs| :: recs[a].pid == recs[b].pid ==> recs[b].completed)
  }

  /** The first record with this pid is of this fork. */
  predicate Owns(recs: seq<Proc>, pid: int, birth: nat) {
    var a := Find(recs, pid);
    a < |recs| && recs[a].birth == birth
  }

  /** The process of this record has not been reaped. */
  predicate Owned(r: Proc, children: map<int, Child>) {
    r.pid in children && children[r.pid].birth == r.birth
  }

  /** A flat search is the search through the jobs. */
  lemma FindInSum(x: seq<Proc>, y: seq<Proc>, pid: int)
    ensures Find(x + y, pid) == if Find(x, pid) < |x| then Find(x, pid) else |x| + Find(y, pid)
  {
    var k := if Find(x, pid) < |x| then Find(x, pid) else |x| + Find(y, pid);
    FindIs(x + y, pid, k);
  }

  predicate FlatAs(recs: seq<Proc>, pid: int, status: WaitStatus, r: (seq<Job>, bool)) {
    var a := Find(recs, pid);
    r.1 == (a < |recs|) && Records(r.0) == if a < |recs| then recs[a := Mark(recs[a], status)] else recs
  }

  lemma {:induction false} RecordedFlat(jobs: seq<Job>, pid: int, status: WaitStatus)
    ensures FlatAs(Records(jobs), pid, status, Recorded(jobs, pid, status))
  {
    hide Mark, FlatAs;
    if jobs == [] {
      FlatNone(pid, status);
    } else if Find(jobs[0].procs, pid) < |jobs[0].procs| {
      FlatHere(jobs, pid, status);
    } else {
      RecordedFlat(jobs[1..], pid, status);
      FlatLater(jobs, pid, status, Recorded(jobs[1..], pid, status));
    }
  }

  lemma FlatNone(pid: int, status: WaitStatus)
    ensures FlatAs([], pid, status, ([], false))
  {
  }

  lemma FlatHere(jobs: seq<Job>, pid: int, status: WaitStatus)
    requires jobs != [] && Find(jobs[0].procs, pid) < |jobs[0].procs|
    ensures FlatAs(Records(jobs), pid, status, Recorded(jobs, pid, status))
  {
    hide Mark;
    var ps := jobs[0].procs;
    FindInSum(ps, Records(jobs[1..]), pid);
    var r := Recorded(jobs, pid, status).0;
    assert r[1..] == jobs[1..] && r[0].procs == ps[Find(ps, pid) := Mark(ps[Find(ps, pid)], status)];
    assert Records(r) == r[0].procs + Records(jobs[1..]);
  }

  lemma FlatLater(jobs: seq<Job>, pid: int, status: WaitStatus, rest: (seq<Job>, bool))
    requires jobs != [] && Find(jobs[0].procs, pid) == |jobs[0].procs| && FlatAs(Records(jobs[1..]), pid, status, rest)
    ensures FlatAs(Records(jobs), pid, status, ([jobs[0]] + rest.0, rest.1))
  {
    var ps, recs := jobs[0].procs, Records(jobs[1..]);
    assert Records(jobs) == ps + recs;
    var r := [jobs[0]] + rest.0;
    assert r[1..] == rest.0;
    assert Records(r) == ps + Records(rest.0);
    hide Mark, Find, Records;
    FindInSum(ps, recs, pid);
    var a := Find(recs, pid);
    if a < |recs| {
      UpdatedBehind(ps, recs, a, Mark(recs[a], status));
    }
  }

  lemma UpdatedBehind(x: seq<Proc>, y: seq<Proc>, a: nat, p: Proc)
    requires a < |y|
    ensures (x + y)[|x| + a := p] == x + y[a := p] && (x + y)[|x| + a] == y[a]
  {
  }

  lemma {:induction false} RecordsOfSum(x: seq<Job>, y: seq<Job>)
    ensures Records(x + y) == Records(x) + Records(y)
  {
    if x == [] {
      assert x + y == y;
    } else {
      assert (x + y)[1..] == x[1..] + y;
      RecordsOfSum(x[1..], y);
    }
  }

  /** The records before, of and after the job at `i`. */
  lemma RecordsAround(jobs: seq<Job>, i: nat, v: Job)
    requires i < |jobs|
    ensures Records(jobs) == Records(jobs[..i]) + jobs[i].procs + Records(jobs[i + 1..])
    ensures Records(jobs[i := v]) == Records(jobs[..i]) + v.procs + Records(jobs[i + 1..])
  {
    assert jobs == jobs[..i] + jobs[i..] && jobs[i..][1..] == jobs[i + 1..];
    RecordsOfSum(jobs[..i], jobs[i..]);
    var t := jobs[i := v];
    assert t == t[..i] + t[i..] && t[i..][1..] == jobs[i + 1..] && t[..i] == jobs[..i];
    RecordsOfSum(t[..i], t[i..]);
  }

  /** Records that differ in stop marks and statuses only. */
  predicate Alike(x: seq<Proc>, y: seq<Proc>) {
    |x| == |y| && forall a | 0 <= a < |x| ::
      x[a].pid == y[a].pid && x[a].birth == y[a].birth && x[a].completed == y[a].completed
  }

  lemma FindAlike(x: seq<Proc>, y: seq<Proc>, pid: int)
    requires |x| == |y| && forall a | 0 <= a < |x| :: x[a].pid == y[a].pid
    ensures Find(x, pid) == Find(y, pid)
  {
    FindIs(x, pid, Find(y, pid));
  }

  lemma AgreeAlike(x: seq<Proc>, y: seq<Proc>, children: map<int, Child>, births: nat)
    requires Agree(x, children, births) && Alike(x, y)
    ensures Agree(y, children, births)
  {
    forall pid | pid in children ensures Owns(y, pid, children[pid].birth) {
      assert Owns(x, pid, children[pid].birth);
      FindAlike(x, y, pid);
    }
  }

  lemma AgreeWith(jobs: seq<Job>, i: nat, v: Job, children: map<int, Child>, births: nat)
    requires i < |jobs| && Agree(Records(jobs), children, births) && Alike(jobs[i].procs, v.procs)
    ensures Agree(Records(jobs[i := v]), children, births)
  {
    hide Agree, Records;
    RecordsAround(jobs, i, v);
    AgreeAlike(Records(jobs), Records(jobs[i := v]), children, births);
  }

  /** Children may change their mode. */
  lemma AgreeMode(recs: seq<Proc>, children: map<int, Child>, births: nat, pid: int, c: Child)
    requires Agree(recs, children, births) && pid in children && c.birth == children[pid].birth
    ensures Agree(recs, children[pid := c], births)
  {
    var after := children[pid := c];
    forall a | 0 <= a < |recs| ensures Owned(recs[a], after) == Owned(recs[a], children) {
    }
  }

  lemma AgreeFork(recs: seq<Proc>, children: map<int, Child>, births: nat, pid: int, c: Child)
    requires Agree(recs, children, births) && pid > 0 && pid !in children && c.birth == births
    ensures Agree([Proc(pid, births, false, false, Ended(0))] + recs, children[pid := c], births + 1)
  {
    var p := Proc(pid, births, false, false, Ended(0));
    var after := children[pid := c];
    forall q | q in after ensures Owns([p] + recs, q, after[q].birth) {
      FindInSum([p], recs, q);
      if q != pid {
        assert Owns(recs, q, children[q].birth);
      }
    }
    forall a | 0 <= a < |recs| ensures recs[a].completed <==> !Owned(recs[a], after) {
    }
    forall a, b | 0 <= a < b < |[p] + recs| && ([p] + recs)[a].pid == ([p] + recs)[b].pid
      ensures ([p] + recs)[b].completed
    {
      if a == 0 {
        assert !Owned(recs[b - 1], children);
      } else {
        assert recs[a - 1].pid == recs[b - 1].pid;
      }
    }
  }

  /** A stop is news of a child that stays. */
  lemma AgreeStopped(recs: seq<Proc>, children: map<int, Child>, births: nat, pid: int, status: WaitStatus)
    requires Agree(recs, children, births) && pid in children && status.StoppedBy?
    ensures var a := Find(recs, pid); a < |recs| && Agree(recs[a := Mark(recs[a], status)], children, births)
  {
    var a := Find(recs, pid);
    assert Owns(recs, pid, children[pid].birth);
    AgreeAlike(recs, recs[a := Mark(recs[a], status)], children, births);
  }

  /** An end is the last news of a child: its record is completed as it is reaped. */
  lemma AgreeReaped(recs: seq<Proc>, children: map<int, Child>, births: nat, pid: int, status: WaitStatus)
    requires Agree(recs, children, births) && pid in children && status.Ended?
    ensures var a := Find(recs, pid); a < |recs| && Agree(recs[a := Mark(recs[a], status)], children - {pid}, births)
  {
    var a := Find(recs, pid);
    assert Owns(recs, pid, children[pid].birth);
    var now, after := recs[a := Mark(recs[a], status)], children - {pid};
    forall q | q in after ensures q > 0 && Owns(now, q, after[q].birth) {
      assert Owns(recs, q, children[q].birth);
      FindAlike(recs, now, q);
    }
    forall b | 0 <= b < |now| ensures now[b].completed <==> !Owned(now[b], after) {
      if b != a && recs[b].pid == pid {
        if a < b {
          assert recs[b].completed;
        }
      }
    }
  }

  lemma MiddleCompleted(x: seq<Proc>, y: seq<Proc>, z: seq<Proc>)
    requires forall p | p in y :: p.completed
    ensures var recs := x + y + z;
      && (forall b | |x| <= b < |x| + |y| :: recs[b].completed)
      && (forall b | 0 <= b < |x + z| :: (x + z)[b] == recs[if b < |x| then b else b + |y|])
  {
    forall b | |x| <= b < |x| + |y| ensures (x + y + z)[b].completed {
      assert (x + y + z)[b] == y[b - |x|];
    }
  }

  /** The first record of a live pid is not in the middle. */
  lemma OwnsWithout(x: seq<Proc>, y: seq<Proc>, z: seq<Proc>, pid: int, birth: nat)
    requires Owns(x + y + z, pid, birth) && !(x + y + z)[Find(x + y + z, pid)].completed
    requires forall p | p in y :: p.completed
    ensures Owns(x + z, pid, birth)
  {
    hide Find;
    MiddleCompleted(x, y, z);
    FindInSum(x, z, pid);
    FindInThree(x, y, z, pid);
  }

  lemma FindInThree(x: seq<Proc>, y: seq<Proc>, z: seq<Proc>, pid: int)
    ensures Find(x + y + z, pid) ==
      if Find(x, pid) < |x| then Find(x, pid)
      else if Find(y, pid) < |y| then |x| + Find(y, pid)
      else |x| + |y| + Find(z, pid)
  {
    hide Find;
    FindInSum(x, y, pid);
    FindInSum(x + y, z, pid);
  }

  /** Completed records can go. */
  lemma AgreeWithout(x: seq<Proc>, y: seq<Proc>, z: seq<Proc>, children: map<int, Child>, births: nat)
    requires Agree(x + y + z, children, births) && forall p | p in y :: p.completed
    ensures Agree(x + z, children, births)
  {
    var recs := x + y + z;
    MiddleCompleted(x, y, z);
    forall pid | pid in children ensures pid > 0 && Owns(x + z, pid, children[pid].birth) {
      assert Owns(recs, pid, children[pid].birth);
      assert Owned(recs[Find(recs, pid)], children);
      OwnsWithout(x, y, z, pid, children[pid].birth);
    }
  }

  /** The records after one job's turn in the sweep. */
  lemma AgreeTurn(kept: seq<Job>, j: Job, rest: seq<Job>, children: map<int, Child>, births: nat)
    requires j.procs != [] && Agree(Records(kept) + (j.procs + Records(rest)), children, births)
    ensures Agree(Records(kept + Survivor(Judge(j))) + Records(rest), children, births)
  {
    hide Agree, Judge, Finished;
    var v := Judge(j);
    JudgeKeepsProcs(j);
    JudgedCompleted(j);
    RecordsOfSum(kept, Survivor(v));
    assert Records(kept) + (j.procs + Records(rest)) == Records(kept) + j.procs + Records(rest);
    if v.run == Completed {
      FinishedCompleted(j.procs);
      AgreeWithout(Records(kept), j.procs, Records(rest), children, births);
      assert kept + Survivor(v) == kept;
    } else {
      assert Survivor(v)[1..] == [] && Survivor(v)[0].procs == j.procs;
      assert Records(Survivor(v)) == j.procs + [] == j.procs;
    }
  }

  lemma FinishedCompleted(procs: seq<Proc>)
    requires Finished(procs)
    ensures forall p | p in procs :: p.completed
  {
  }

  lemma {:induction false} AgreeSwept(kept: seq<Job>, jobs: seq<Job>, children: map<int, Child>, births: nat)
    requires Peopled(jobs) && Agree(Records(kept) + Records(jobs), children, births)
    ensures Agree(Records(kept) + Records(Swept(jobs)), children, births)
    decreases |jobs|
  {
    hide Agree, Judge, Survivor;
    if jobs != [] {
      assert forall j | j in jobs[1..] :: j in jobs;
      var first := Survivor(Judge(jobs[0]));
      AgreeTurn(kept, jobs[0], jobs[1..], children, births);
      AgreeSwept(kept + first, jobs[1..], children, births);
      RecordsOfSum(first, Swept(jobs[1..]));
      RecordsOfSum(kept, first);
      assert Records(kept + first) + Records(Swept(jobs[1..]))
        == Records(kept) + (Records(first) + Records(Swept(jobs[1..])));
    }
  }

  lemma JudgedCompleted(j: Job)
    requires j.procs != []
    ensures Judge(j).run == Completed <==> Finished(j.procs)
    ensures Judge(j).run == Stopped <==> Settled(j.procs) && SomeStopped(j.procs)
  {
  }

  /* ---- numbers ---- */

  /** Job numbers and ids fall strictly along the list, from at most `num` and below `id`. */
  predicate Below(jobs: seq<Job>, num: int, id: int) {
    jobs != [] ==> 1 <= jobs[0].num <= num && jobs[0].id < id && Below(jobs[1..], jobs[0].num - 1, jobs[0].id)
  }

  lemma {:induction false} BelowMore(jobs: seq<Job>, num: int, id: int, more: int, mid: int)
    requires Below(jobs, num, id) && num <= more && id <= mid
    ensures Below(jobs, more, mid)
  {
  }

  lemma {:induction false} BelowWith(jobs: seq<Job>, num: int, id: int, i: nat, v: Job)
    requires Below(jobs, num, id) && i < |jobs| && v.num == jobs[i].num && v.id == jobs[i].id
    ensures Below(jobs[i := v], num, id)
  {
    if i == 0 {
      assert jobs[0 := v][1..] == jobs[1..];
    } else {
      assert jobs[i := v][1..] == jobs[1..][i - 1 := v];
      BelowWith(jobs[1..], jobs[0].num - 1, jobs[0].id, i - 1, v);
    }
  }

  lemma {:induction false} BelowFalls(jobs: seq<Job>, num: int, id: int, i: nat, k: nat)
    requires Below(jobs, num, id) && i < k < |jobs|
    ensures 1 <= jobs[k].num < jobs[i].num <= num && jobs[k].id < jobs[i].id < id
    decreases |jobs|
  {
    if i > 0 {
      BelowFalls(jobs[1..], jobs[0].num - 1, jobs[0].id, i - 1, k - 1);
    } else if k > 1 {
      BelowFalls(jobs[1..], jobs[0].num - 1, jobs[0].id, 0, k - 1);
    }
  }

  lemma {:induction false} BelowBounds(jobs: seq<Job>, num: int, id: int, i: nat)
    requires Below(jobs, num, id) && i < |jobs|
    ensures 1 <= jobs[i].num <= num && jobs[i].id < id
  {
    if i > 0 {
      BelowBounds(jobs[1..], jobs[0].num - 1, jobs[0].id, i - 1);
    }
  }

  /** One job's turn in the sweep. */
  lemma BelowTurn(j: Job, rest: seq<Job>, num: int, id: int)
    requires j.procs != [] && 1 <= j.num <= num && j.id < id && Below(rest, j.num - 1, j.id)
    ensures Below(Survivor(Judge(j)) + rest, num, id)
  {
    JudgeNames(j);
    hide Judge;
    var v := Judge(j);
    if v.run == Completed {
      BelowMore(rest, j.num - 1, j.id, num, id);
      assert Survivor(v) + rest == rest;
    } else {
      assert (Survivor(v) + rest)[1..] == rest;
    }
  }

  lemma JudgeNames(j: Job)
    requires j.procs != []
    ensures Judge(j).num == j.num && Judge(j).id == j.id && Alike(j.procs, Judge(j).procs)
  {
  }

  lemma {:induction false} BelowSwept(jobs: seq<Job>, num: int, id: int)
    requires Peopled(jobs) && Below(jobs, num, id)
    ensures Below(Swept(jobs), num, id)
  {
    hide Judge, Survivor;
    if jobs != [] {
      assert forall j | j in jobs[1..] :: j in jobs;
      BelowSwept(jobs[1..], jobs[0].num - 1, jobs[0].id);
      BelowTurn(jobs[0], Swept(jobs[1..]), num, id);
    }
  }

  /* ---- reports ---- */

  /** The last report or resumption of this job is a "stopped" report. */
  predicate Standing(log: seq<Event>, id: nat) {
    if log == [] then false
    else
      var last := log[|log| - 1];
      if last.StopReport? && last.id == id then true
      else if last.Resumed? && last.id == id then false
      else Standing(log[..|log| - 1], id)
  }

  /** No "stopped" report comes while an earlier one stands. */
  predicate Alternates(log: seq<Event>) {
    log != [] ==>
      var last := log[|log| - 1];
      Alternates(log[..|log| - 1]) && (last.StopReport? ==> !Standing(log[..|log| - 1], last.id))
  }

  lemma StandingAfter(log: seq<Event>, e: Event, id: nat)
    ensures Standing(log + [e], id) ==
      if e.StopReport? && e.id == id then true else if e.Resumed? && e.id == id then false else Standing(log, id)
    ensures Alternates(log + [e]) == (Alternates(log) && (e.StopReport? ==> !Standing(log, e.id)))
  {
    var now := log + [e];
    assert now[..|now| - 1] == log;
  }

  /** A stopped job that was reported and not resumed. */
  predicate AtRest(j: Job) {
    j.notified && j.run == Stopped && Settled(j.procs) && SomeStopped(j.procs)
  }

  predicate Rests(jobs: seq<Job>, id: nat) { exists j :: j in jobs && j.id == id && AtRest(j) }

  ghost predicate RestOk(log: seq<Event>, jobs: seq<Job>) {
    forall id: nat | Standing(log, id) :: Rests(jobs, id)
  }

  function Unlinks(log: seq<Event>, id: nat): nat {
    if log == [] then 0
    else
      var last := log[|log| - 1];
      Unlinks(log[..|log| - 1], id) + if last.Unlinked? && last.id == id then 1 else 0
  }

  function Listed(jobs: seq<Job>, id: nat): nat {
    if jobs == [] then 0 else (if jobs[0].id == id then 1 else 0) + Listed(jobs[1..], id)
  }

  lemma UnlinksAfter(log: seq<Event>, e: Event, id: nat)
    ensures Unlinks(log + [e], id) == Unlinks(log, id) + if e.Unlinked? && e.id == id then 1 else 0
  {
    var now := log + [e];
    assert now[..|now| - 1] == log;
  }

  lemma {:induction false} ListedOfSum(x: seq<Job>, y: seq<Job>, id: nat)
    ensures Listed(x + y, id) == Listed(x, id) + Listed(y, id)
  {
    if x == [] {
      assert x + y == y;
    } else {
      assert (x + y)[1..] == x[1..] + y;
      ListedOfSum(x[1..], y, id);
    }
  }

  lemma {:induction false} ListedWith(jobs: seq<Job>, i: nat, v: Job, id: nat)
    requires i < |jobs| && v.id == jobs[i].id
    ensures Listed(jobs[i := v], id) == Listed(jobs, id)
  {
    if i == 0 {
      assert jobs[0 := v][1..] == jobs[1..];
    } else {
      assert jobs[i := v][1..] == jobs[1..][i - 1 := v];
      ListedWith(jobs[1..], i - 1, v, id);
    }
  }

  /** Every job ever made is on the list once, or was unlinked once. */
  ghost predicate Conserved(log: seq<Event>, jobs: seq<Job>, ids: nat) {
    forall id: nat :: Unlinks(log, id) + Listed(jobs, id) == if id < ids then 1 else 0
  }

  /** A job unlinked in the background was just reported done, one in the foreground was not, and no other was. */
  predicate SaidRight(e: Event) {
    && (e.Unlinked? ==> if e.foreground then e.said == [] else |e.said| == 1 && e.said[0].DoneLine?)
    && (e.StopReport? ==> e.line.StoppedLine?)
  }

  predicate AllSaidRight(log: seq<Event>) { forall e | e in log :: SaidRight(e) }

  /** A job completed in the background still has to be reported. */
  predicate Unsaid(j: Job) { !j.foreground && j.run == Completed ==> !j.notified }

  predicate AllUnsaid(jobs: seq<Job>) { forall j | j in jobs :: Unsaid(j) }

  /** What the reports and the list say of each other. */
  ghost predicate Reported(log: seq<Event>, jobs: seq<Job>, ids: nat) {
    Alternates(log) && RestOk(log, jobs) && Conserved(log, jobs, ids) && AllSaidRight(log) && AllUnsaid(jobs)
  }

  lemma {:induction false} ListedIn(jobs: seq<Job>, j: Job)
    requires j in jobs
    ensures Listed(jobs, j.id) >= 1
  {
    if jobs[0] != j {
      ListedIn(jobs[1..], j);
    }
  }

  lemma ListedAround(a: seq<Job>, j: Job, b: seq<Job>, id: nat)
    ensures Listed(a + [j] + b, id) == Listed(a, id) + (if j.id == id then 1 else 0) + Listed(b, id)
    ensures Listed(a + [] + b, id) == Listed(a, id) + Listed(b, id)
  {
    ListedOfSum(a + [j], b, id);
    ListedOfSum(a, [j], id);
    ListedOfSum(a, b, id);
    assert a + [] + b == a + b;
    assert [j][1..] == [];
  }

  /** No other job has this job's id. */
  lemma Lone(log: seq<Event>, a: seq<Job>, j: Job, b: seq<Job>, ids: nat)
    requires Conserved(log, a + [j] + b, ids)
    ensures forall o | o in a + b :: o.id != j.id
  {
    hide Listed, Unlinks;
    ListedAround(a, j, b, j.id);
    assert Unlinks(log, j.id) + Listed(a + [j] + b, j.id) <= 1;
    forall o | o in a + b ensures o.id != j.id {
      if o.id == j.id {
        if o in a {
          ListedIn(a, o);
        } else {
          ListedIn(b, o);
        }
      }
    }
  }

  lemma RestsWith(a: seq<Job>, j: Job, b: seq<Job>, mid: seq<Job>, id: nat)
    requires Rests(a + [j] + b, id)
    requires j.id == id && AtRest(j) ==> exists o :: o in mid && o.id == id && AtRest(o)
    ensures Rests(a + mid + b, id)
  {
    hide AtRest;
    var w :| w in a + [j] + b && w.id == id && AtRest(w);
    if w in a || w in b {
      assert w in a + mid + b;
    } else {
      var o :| o in mid && o.id == id && AtRest(o);
      assert o in a + mid + b;
    }
  }

  lemma JudgeAtRest(j: Job)
    requires j.procs != []
    ensures AtRest(j) ==> Judge(j).run == Stopped && Judge(j).notified
    ensures Judge(j).run == Stopped ==> !Judge(j).foreground && AtRest(Judge(j).(notified := true))
    ensures Judge(j).run == Stopped && Judge(j).notified ==> j.notified && j.run == Stopped
    ensures AtRest(j) ==> AtRest(Judge(j))
    ensures Unsaid(j) ==> Unsaid(Judge(j))
    ensures Judge(j).id == j.id
  {
  }

  /** What one job's turn in the sweep does to rests. */
  lemma RestStep(log: seq<Event>, a: seq<Job>, j: Job, b: seq<Job>)
    requires j.procs != [] && RestOk(log, a + [j] + b)
    ensures RestOk(log + EventsOf(Judge(j)), a + Survivor(Judge(j)) + b)
  {
    hide Standing, AtRest, Judge, Rests;
    var v := Judge(j);
    JudgeAtRest(j);
    forall id: nat | Standing(log + EventsOf(v), id) ensures Rests(a + Survivor(v) + b, id) {
      if EventsOf(v) == [] {
        assert log + EventsOf(v) == log;
      } else {
        StandingAfter(log, EventsOf(v)[0], id);
      }
      if v.run == Stopped && v.id == id {
        RestHere(a, v.(notified := true), b);
      } else {
        RestsWith(a, j, b, Survivor(v), id);
      }
    }
  }

  lemma RestHere(a: seq<Job>, j: Job, b: seq<Job>)
    requires AtRest(j)
    ensures Rests(a + [j] + b, j.id)
  {
    assert j in a + [j] + b;
  }

  lemma ConservedStep(log: seq<Event>, a: seq<Job>, j: Job, b: seq<Job>, ids: nat)
    requires j.procs != [] && Conserved(log, a + [j] + b, ids)
    ensures Conserved(log + EventsOf(Judge(j)), a + Survivor(Judge(j)) + b, ids)
  {
    hide Unlinks, Listed, Judge;
    var v := Judge(j);
    JudgeAtRest(j);
    forall id: nat
      ensures Unlinks(log + EventsOf(v), id) + Listed(a + Survivor(v) + b, id) == if id < ids then 1 else 0
    {
      ListedAround(a, j, b, id);
      ListedAround(a, v.(notified := true), b, id);
      ListedAround(a, v, b, id);
      if EventsOf(v) == [] {
        assert log + EventsOf(v) == log;
      } else {
        UnlinksAfter(log, EventsOf(v)[0], id);
      }
    }
  }

  lemma LoneRests(a: seq<Job>, j: Job, b: seq<Job>)
    requires Rests(a + [j] + b, j.id) && forall o | o in a + b :: o.id != j.id
    ensures AtRest(j)
  {
    hide AtRest;
    var w :| w in a + [j] + b && w.id == j.id && AtRest(w);
    assert w in a + b || w == j;
  }

  lemma AlternatesStep(log: seq<Event>, a: seq<Job>, j: Job, b: seq<Job>, ids: nat)
    requires j.procs != [] && Alternates(log) && RestOk(log, a + [j] + b) && Conserved(log, a + [j] + b, ids)
    ensures Alternates(log + EventsOf(Judge(j)))
  {
    hide Standing, AtRest, Judge, Alternates, Conserved;
    var v := Judge(j);
    JudgeAtRest(j);
    Lone(log, a, j, b, ids);
    if Standing(log, j.id) {
      LoneRests(a, j, b);
    }
    if EventsOf(v) == [] {
      assert log + EventsOf(v) == log;
    } else {
      StandingAfter(log, EventsOf(v)[0], 0);
    }
  }

  lemma SaidStep(log: seq<Event>, a: seq<Job>, j: Job, b: seq<Job>)
    requires j.procs != [] && AllSaidRight(log) && AllUnsaid(a + [j] + b)
    ensures AllSaidRight(log + EventsOf(Judge(j))) && AllUnsaid(a + Survivor(Judge(j)) + b)
  {
    hide Judge;
    assert j in a + [j] + b;
    JudgeAtRest(j);
    var v := Judge(j);
    forall o | o in a + Survivor(v) + b ensures Unsaid(o) {
      if o in a || o in b {
        assert o in a + [j] + b;
      }
    }
  }

  lemma ReportedStep(log: seq<Event>, a: seq<Job>, j: Job, b: seq<Job>, ids: nat)
    requires j.procs != [] && Reported(log, a + [j] + b, ids)
    ensures Reported(log + EventsOf(Judge(j)), a + Survivor(Judge(j)) + b, ids)
  {
    hide Alternates, RestOk, Conserved, AllSaidRight, AllUnsaid, Judge;
    RestStep(log, a, j, b);
    ConservedStep(log, a, j, b, ids);
    AlternatesStep(log, a, j, b, ids);
    SaidStep(log, a, j, b);
  }

  lemma {:induction false} ReportedSwept(log: seq<Event>, kept: seq<Job>, jobs: seq<Job>, ids: nat)
    requires Peopled(jobs) && Reported(log, kept + jobs, ids)
    ensures Reported(log + SweepEvents(jobs), kept + Swept(jobs), ids)
    decreases |jobs|
  {
    hide Reported, Judge, EventsOf, Survivor;
    if jobs == [] {
      assert log + [] == log;
    } else {
      assert forall j | j in jobs[1..] :: j in jobs;
      var v := Judge(jobs[0]);
      assert kept + jobs == kept + [jobs[0]] + jobs[1..];
      ReportedStep(log, kept, jobs[0], jobs[1..], ids);
      ReportedSwept(log + EventsOf(v), kept + Survivor(v), jobs[1..], ids);
      assert log + EventsOf(v) + SweepEvents(jobs[1..]) == log + SweepEvents(jobs);
      assert kept + Survivor(v) + Swept(jobs[1..]) == kept + Swept(jobs);
    }
  }

  /** A job changes without a report. */
  lemma ReportedWith(log: seq<Event>, jobs: seq<Job>, ids: nat, i: nat, v: Job)
    requires Reported(log, jobs, ids) && i < |jobs| && v.id == jobs[i].id
    requires AtRest(jobs[i]) ==> AtRest(v)
    requires Unsaid(v)
    ensures Reported(log, jobs[i := v], ids)
  {
    hide Standing, AtRest, Alternates, Listed, Unlinks;
    var a, b := jobs[..i], jobs[i + 1..];
    assert jobs == a + [jobs[i]] + b && jobs[i := v] == a + [v] + b;
    forall id: nat | Standing(log, id) ensures Rests(jobs[i := v], id) {
      if jobs[i].id == id && AtRest(jobs[i]) {
        assert v in [v];
      }
      RestsWith(a, jobs[i], b, [v], id);
    }
    forall id: nat ensures Listed(jobs[i := v], id) == Listed(jobs, id) {
      ListedWith(jobs, i, v, id);
    }
  }

  /** A job is resumed. */
  lemma ReportedResumed(log: seq<Event>, jobs: seq<Job>, ids: nat, i: nat, v: Job, fg: bool)
    requires Reported(log, jobs, ids) && i < |jobs| && v.id == jobs[i].id && Unsaid(v)
    ensures Reported(log + [Resumed(v.id, fg)], jobs[i := v], ids)
  {
    hide Standing, AtRest, Alternates, Listed, Unlinks;
    var a, b, now := jobs[..i], jobs[i + 1..], log + [Resumed(v.id, fg)];
    assert jobs == a + [jobs[i]] + b && jobs[i := v] == a + [v] + b;
    StandingAfter(log, Resumed(v.id, fg), 0);
    forall id: nat | Standing(now, id) ensures Rests(jobs[i := v], id) {
      StandingAfter(log, Resumed(v.id, fg), id);
      RestsWith(a, jobs[i], b, [v], id);
    }
    forall id: nat ensures Listed(jobs[i := v], id) == Listed(jobs, id) && Unlinks(now, id) == Unlinks(log, id) {
      ListedWith(jobs, i, v, id);
      UnlinksAfter(log, Resumed(v.id, fg), id);
    }
  }

  /** A job is made. */
  lemma ReportedNew(log: seq<Event>, jobs: seq<Job>, ids: nat, j: Job)
    requires Reported(log, jobs, ids) && j.id == ids && j.run == Running
    ensures Reported(log, [j] + jobs, ids + 1)
  {
    hide Standing, AtRest, Alternates, Unlinks;
    var now := [j] + jobs;
    assert now[1..] == jobs;
    forall id: nat | Standing(log, id) ensures Rests(now, id) {
      assert Rests(jobs, id);
      var w :| w in jobs && w.id == id && AtRest(w);
      assert w in now;
    }
    forall id: nat ensures Unlinks(log, id) + Listed(now, id) == if id < ids + 1 then 1 else 0 {
      assert Unlinks(log, id) + Listed(jobs, id) == if id < ids then 1 else 0;
    }
  }

  /* ---- every step ---- */

  /** What a child's news can be. */
  predicate News(c: Child) {
    && (c.mode == Zombie ==> c.pending && c.status.Ended?)
    && (c.mode == Halted && c.pending ==> c.status.StoppedBy?)
    && (c.mode == Live ==> !c.pending)
  }

  predicate AllNews(children: map<int, Child>) { forall pid | pid in children :: News(children[pid]) }

  ghost predicate Inv(w: State) {
    && Agree(Records(w.jobs), w.children, w.births)
    && AllNews(w.children)
    && Below(w.jobs, w.numJobs, w.ids)
    && Reported(w.log, w.jobs, w.ids)
    && (w.phase.Launching? ==> w.jobs[0].run == Running && !w.jobs[0].notified)
  }

  /** The record of the news: the search finds the child's record. */
  lemma NewsFindsRecord(w: State, pid: int)
    requires Inv(w) && Pending(w.children, pid)
    ensures var status := w.children[pid].status; var r := AfterReply(w.jobs, Reply(pid, status));
      && r.1
      && Find(Records(w.jobs), pid) < |Records(w.jobs)|
      && Owned(Records(w.jobs)[Find(Records(w.jobs), pid)], w.children)
      && Records(r.0)
        == Records(w.jobs)[Find(Records(w.jobs), pid) := Mark(Records(w.jobs)[Find(Records(w.jobs), pid)], status)]
      && Agree(Records(r.0), Reaped(w.children, pid), w.births)
  {
    hide Records, Below, Reported, Recorded, Find;
    var recs, c := Records(w.jobs), w.children[pid];
    assert Owns(recs, pid, c.birth);
    RecordedFlat(w.jobs, pid, c.status);
    if c.mode == Zombie {
      AgreeReaped(recs, w.children, w.births, pid, c.status);
    } else {
      AgreeStopped(recs, w.children, w.births, pid, c.status);
      AgreeMode(recs[Find(recs, pid) := Mark(recs[Find(recs, pid)], c.status)], w.children, w.births, pid,
        c.(pending := false));
    }
  }

  /** Recording news changes neither numbers nor reports. */
  lemma {:induction false} NewsKeeps(log: seq<Event>, jobs: seq<Job>, after: seq<Job>, num: int, ids: nat, n: nat)
    requires |after| == |jobs| && n <= |jobs| && forall i | 0 <= i < |jobs| :: SameButMarks(jobs[i], after[i])
    requires Below(jobs, num, ids) && Reported(log, jobs, ids)
    ensures Below(after[..n] + jobs[n..], num, ids) && Reported(log, after[..n] + jobs[n..], ids)
    decreases n
  {
    hide Below, Reported, AtRest, SameButMarks, Unsaid;
    if n == 0 {
      assert after[..0] + jobs[0..] == jobs;
    } else {
      NewsKeeps(log, jobs, after, num, ids, n - 1);
      var before := after[..n - 1] + jobs[n - 1..];
      assert before[n - 1] == jobs[n - 1];
      assert before[n - 1 := after[n - 1]] == after[..n] + jobs[n..];
      MarksKeepRest(jobs[n - 1], after[n - 1]);
      UnsaidAt(log, before, ids, n - 1);
      ReportedWith(log, before, ids, n - 1, after[n - 1]);
      BelowWith(before, num, ids, n - 1, after[n - 1]);
    }
  }

  lemma UnsaidAt(log: seq<Event>, jobs: seq<Job>, ids: nat, i: nat)
    requires Reported(log, jobs, ids) && i < |jobs|
    ensures Unsaid(jobs[i])
  {
    hide Alternates, RestOk, Conserved, AllSaidRight;
  }

  lemma MarksKeepRest(a: Job, b: Job)
    requires SameButMarks(a, b)
    ensures a.id == b.id && a.num == b.num && (AtRest(a) ==> AtRest(b)) && (Unsaid(a) ==> Unsaid(b))
  {
    assert a.id == a.(procs := []).id && a.num == a.(procs := []).num && a.run == a.(procs := []).run;
    assert a.foreground == a.(procs := []).foreground && a.notified == a.(procs := []).notified;
    if AtRest(a) {
      forall p | p in b.procs ensures p.completed || p.stopped {
        var k :| 0 <= k < |b.procs| && b.procs[k] == p;
        assert a.procs[k] in a.procs;
      }
      var q :| q in a.procs && q.stopped;
      var k :| 0 <= k < |a.procs| && a.procs[k] == q;
      assert b.procs[k] in b.procs;
    }
  }

  /** The records, numbers and reports after one job changed quietly. */
  lemma QuietChange(w: State, i: nat, v: Job)
    requires Inv(w) && i < |w.jobs| && v.id == w.jobs[i].id && v.num == w.jobs[i].num
    requires Alike(w.jobs[i].procs, v.procs) && (AtRest(w.jobs[i]) ==> AtRest(v)) && Unsaid(v)
    ensures var jobs := w.jobs[i := v];
      Agree(Records(jobs), w.children, w.births) && Below(jobs, w.numJobs, w.ids) && Reported(w.log, jobs, w.ids)
  {
    hide Agree, Records, Below, Reported, AtRest, Alike, Unsaid, AllNews;
    AgreeWith(w.jobs, i, v, w.children, w.births);
    BelowWith(w.jobs, w.numJobs, w.ids, i, v);
    ReportedWith(w.log, w.jobs, w.ids, i, v);
  }

  lemma ChildStep(w: State, pid: int, c: Child)
    requires Inv(w) && pid in w.children && c.birth == w.children[pid].birth && News(c)
    ensures Inv(w.(children := w.children[pid := c]))
  {
    hide Agree, Records, Below, Reported, News;
    AgreeMode(Records(w.jobs), w.children, w.births, pid, c);
  }

  lemma BeginStep(w: State, name: string, interactive: bool, background: bool)
    requires Inv(w) && Enabled(w, BeginJob(name, interactive, background))
    ensures Inv(Apply(w, BeginJob(name, interactive, background)))
  {
    hide Agree, Reported, AllNews;
    var t := WithNewJob(w.jobs, w.ids, w.numJobs + 1, name);
    assert t[1..] == w.jobs;
    BelowMore(w.jobs, w.numJobs, w.ids, w.numJobs, w.ids);
    ReportedNew(w.log, w.jobs, w.ids, t[0]);
    assert [] + Records(w.jobs) == Records(w.jobs);
  }

  lemma ForkStep(w: State, pid: int)
    requires Inv(w) && Enabled(w, Fork(pid))
    ensures Inv(Apply(w, Fork(pid)))
  {
    hide Agree, Reported, Below, Alike;
    var p, c := Proc(pid, w.births, false, false, Ended(0)), Child(w.births, Live, false, Ended(0));
    var v := WithProcess(w.jobs[0], pid, w.births, w.phase.interactive);
    var t := w.jobs[0 := v];
    AgreeFork(Records(w.jobs), w.children, w.births, pid, c);
    assert t[1..] == w.jobs[1..];
    assert [p] + (w.jobs[0].procs + Records(w.jobs[1..])) == ([p] + w.jobs[0].procs) + Records(w.jobs[1..]);
    assert Records(t) == [p] + Records(w.jobs);
    BelowWith(w.jobs, w.numJobs, w.ids, 0, v);
    ReportedWith(w.log, w.jobs, w.ids, 0, v);
  }

  lemma FinishStep(w: State)
    requires Inv(w) && Enabled(w, FinishLaunch)
    ensures Inv(Apply(w, FinishLaunch))
  {
    hide Agree, Records, Reported, Below, AllNews;
    QuietChange(w, 0, w.jobs[0].(notified := true, foreground := false));
    QuietChange(w, 0, w.jobs[0].(foreground := true));
  }

  /** The state just after `updateProcessStatus` recorded the news. */
  lemma NewsStep(w: State, pid: int, t: seq<Job>, w': State)
    requires Inv(w) && Pending(w.children, pid) && !w.phase.Launching?
    requires t == AfterReply(w.jobs, Reply(pid, w.children[pid].status)).0
    requires w' == w.(children := Reaped(w.children, pid), jobs := t)
    ensures Inv(w') && AfterReply(w.jobs, Reply(pid, w.children[pid].status)).1
  {
    hide Agree, Records, Reported, Below, SameButMarks, AfterReply, Find, Owned, News;
    NewsFindsRecord(w, pid);
    AfterReplyKeeps(w.jobs, Reply(pid, w.children[pid].status));
    NewsKeeps(w.log, w.jobs, t, w.numJobs, w.ids, |t|);
    assert t[..|t|] + w.jobs[|t|..] == t;
    LessNews(w.children, pid);
  }

  lemma LessNews(children: map<int, Child>, pid: int)
    requires AllNews(children) && pid in children
    ensures AllNews(Reaped(children, pid))
  {
  }

  lemma WaitStep(w: State, pid: int)
    requires Inv(w) && Enabled(w, WaitReply(pid))
    ensures Inv(Apply(w, WaitReply(pid)))
  {
    hide Agree, Records, Reported, Below, AfterReply, AllNews, Judge, AtRest, Unsaid;
    var reply := Reply(pid, w.children[pid].status);
    var t := AfterReply(w.jobs, reply).0;
    AfterReplyKeeps(w.jobs, reply);
    var noted: State := w.(children := Reaped(w.children, pid), jobs := t);
    NewsStep(w, pid, t, noted);
    var i := w.phase.i;
    assert t[i] in t;
    JudgeAtRest(t[i]);
    JudgeNames(t[i]);
    UnsaidAt(w.log, t, w.ids, i);
    QuietChange(noted, i, Judge(t[i]));
  }

  lemma SweepStep(w: State)
    requires Inv(w) && w.phase == Draining
    ensures Inv(Sweep(w))
  {
    hide Agree, Reported, Below, AllNews, Judge, SweepEvents;
    assert Records([]) + Records(w.jobs) == Records(w.jobs);
    AgreeSwept([], w.jobs, w.children, w.births);
    assert Records([]) + Records(Swept(w.jobs)) == Records(Swept(w.jobs));
    BelowSwept(w.jobs, w.numJobs, w.ids);
    assert [] + w.jobs == w.jobs && [] + Swept(w.jobs) == Swept(w.jobs);
    ReportedSwept(w.log, [], w.jobs, w.ids);
    BelowNone(w.ids);
  }

  lemma BelowNone(ids: nat)
    ensures Below([], 0, ids)
  {
  }

  lemma DrainStep(w: State, pid: int)
    requires Inv(w) && Enabled(w, DrainReply(pid))
    ensures Inv(Apply(w, DrainReply(pid)))
  {
    hide Inv, AfterReply, Sweep;
    var reply := Reply(pid, w.children[pid].status);
    var t := AfterReply(w.jobs, reply).0;
    AfterReplyKeeps(w.jobs, reply);
    NewsStep(w, pid, t, w.(children := Reaped(w.children, pid), jobs := t));
  }

  lemma ResumeStep(w: State, i: nat, v: Job, fg: bool, w': State)
    requires Inv(w) && w.phase == Idle && i < |w.jobs| && (v == ToForeground(w.jobs[i]) || v == ToBackground(w.jobs[i]))
    requires w'.phase == Idle || w'.phase == Waiting(i)
    requires w' == w.(jobs := w.jobs[i := v], log := w.log + [Resumed(v.id, fg)], phase := w'.phase)
    ensures Inv(w')
  {
    hide Agree, Records, Reported, Below, AllNews;
    AgreeWith(w.jobs, i, v, w.children, w.births);
    BelowWith(w.jobs, w.numJobs, w.ids, i, v);
    ReportedResumed(w.log, w.jobs, w.ids, i, v, fg);
  }

  lemma SentBackStep(w: State, i: nat)
    requires Inv(w) && w.phase == Idle && i <= |w.jobs|
    ensures Inv(SentBack(w, i))
  {
    hide Inv;
    if i < |w.jobs| {
      ResumeStep(w, i, ToBackground(w.jobs[i]), false, SentBack(w, i));
    }
  }

  lemma FgStep(w: State, num: int)
    requires Inv(w) && Enabled(w, Fg(num))
    ensures Inv(Apply(w, Fg(num)))
  {
    hide Inv, Numbered;
    var i := Numbered(w.jobs, num);
    if i < |w.jobs| {
      ResumeStep(w, i, ToForeground(w.jobs[i]), true, Apply(w, Fg(num)));
    }
  }

  /** Every step keeps the invariant. */
  lemma StepKeepsInv(w: State, s: Step)
    requires Inv(w) && Enabled(w, s)
    ensures Inv(Apply(w, s))
  {
    hide Agree, Records, Reported, Below, Numbered, FirstStopped, AfterReply, Sweep, SentBack;
    match s
    case Halt(pid, signal) => ChildStep(w, pid, Child(w.children[pid].birth, Halted, true, StoppedBy(signal)));
    case Continue(pid) => ChildStep(w, pid, w.children[pid].(mode := Live, pending := false));
    case End(pid, code) => ChildStep(w, pid, Child(w.children[pid].birth, Zombie, true, Ended(code)));
    case BeginJob(name, interactive, background) => BeginStep(w, name, interactive, background);
    case Fork(pid) => ForkStep(w, pid);
    case FinishLaunch => FinishStep(w);
    case WaitReply(pid) => WaitStep(w, pid);
    case WaitFails =>
    case BeginPass =>
    case DrainReply(pid) => DrainStep(w, pid);
    case DrainNothing => SweepStep(w);
    case Fg(num) => FgStep(w, num);
    case Bg(num) => SentBackStep(w, Numbered(w.jobs, num));
    case BgStopped => SentBackStep(w, FirstStopped(w.jobs));
    case Kill(num) => SentBackStep(w, Numbered(w.jobs, num));
  }

  lemma StartInv()
    ensures Inv(START)
  {
  }

  lemma {:induction false} RunKeepsInv(ws: seq<State>, ss: seq<Step>, n: nat)
    requires IsRun(ws, ss) && n < |ws|
    ensures Inv(ws[n])
    decreases n
  {
    hide Inv, Apply, Enabled;
    if n == 0 {
      StartInv();
    } else {
      RunKeepsInv(ws, ss, n - 1);
      StepKeepsInv(ws[n - 1], ss[n - 1]);
      assert ws[n - 1 + 1] == Apply(ws[n - 1], ss[n - 1]);
    }
  }

  /* ---- what every run does ---- */

  /**
   In every run: the first record with the pid of an unreaped child is that child's and not completed,
   and a record is completed exactly when its child has been reaped.
   */
  lemma RecordsMatchChildren(ws: seq<State>, ss: seq<Step>, n: nat)
    requires IsRun(ws, ss) && n < |ws|
    ensures var w := ws[n]; var recs := Records(w.jobs);
      forall pid | pid in w.children ::
        var a := Find(recs, pid); a < |recs| && recs[a].birth == w.children[pid].birth && !recs[a].completed
    ensures var w := ws[n];
      forall r | r in Records(w.jobs) ::
        r.completed <==> !(r.pid in w.children && w.children[r.pid].birth == r.birth)
  {
    RunKeepsInv(ws, ss, n);
    var w := ws[n];
    var recs := Records(w.jobs);
    forall pid | pid in w.children
      ensures var a := Find(recs, pid); a < |recs| && recs[a].birth == w.children[pid].birth && !recs[a].completed
    {
      assert Owns(recs, pid, w.children[pid].birth);
      assert Owned(recs[Find(recs, pid)], w.children);
    }
    forall r | r in recs ensures r.completed <==> !(r.pid in w.children && w.children[r.pid].birth == r.birth) {
      var a :| 0 <= a < |recs| && recs[a] == r;
      assert recs[a].completed <==> !Owned(recs[a], w.children);
    }
  }

  /** Each piece of news goes to the record of the child it is about, and changes no other record. */
  lemma NewsReachesItsRecord(ws: seq<State>, ss: seq<Step>, n: nat, pid: int)
    requires IsRun(ws, ss) && n < |ws| && Pending(ws[n].children, pid)
    ensures var w := ws[n]; var recs := Records(w.jobs); var status := w.children[pid].status;
      var after := AfterReply(w.jobs, Reply(pid, status));
      && after.1
      && exists a :: 0 <= a < |recs| && recs[a].birth == w.children[pid].birth
          && Records(after.0) == recs[a := recs[a].(status := status, stopped := recs[a].stopped || status.StoppedBy?,
                                                    completed := recs[a].completed || status.Ended?)]
  {
    RunKeepsInv(ws, ss, n);
    NewsFindsRecord(ws[n], pid);
  }

  /** The drain at the prompt ends only when no child has news. */
  lemma DrainEndsClean(ws: seq<State>, ss: seq<Step>, n: nat)
    requires IsRun(ws, ss) && n < |ss| && ws[n].phase == Draining && ws[n + 1].phase != Draining
    ensures forall pid | pid in ws[n].children :: !ws[n].children[pid].pending
  {
    hide Inv, AfterReply;
    RunKeepsInv(ws, ss, n);
    var s := ss[n];
    assert Enabled(ws[n], s) && ws[n + 1] == Apply(ws[n], s);
    if s.DrainReply? {
      var reply := Reply(s.pid, ws[n].children[s.pid].status);
      AfterReplyKeeps(ws[n].jobs, reply);
      NewsFindsRecord(ws[n], s.pid);
      assert false;
    } else {
      assert s == DrainNothing;
      assert forall pid | pid in ws[n].children :: !Pending(ws[n].children, pid);
    }
  }

  /** Job numbers fall along the list and never pass the counter, so a number names at most one job. */
  lemma NumbersAreUnique(ws: seq<State>, ss: seq<Step>, n: nat)
    requires IsRun(ws, ss) && n < |ws|
    ensures var w := ws[n]; forall i | 0 <= i < |w.jobs| :: 1 <= w.jobs[i].num <= w.numJobs
    ensures var w := ws[n]; forall i, k | 0 <= i < k < |w.jobs| :: w.jobs[k].num < w.jobs[i].num
    ensures var w := ws[n]; forall i | 0 <= i < |w.jobs| :: Numbered(w.jobs, w.jobs[i].num) == i
  {
    hide Below;
    RunKeepsInv(ws, ss, n);
    var w := ws[n];
    forall i | 0 <= i < |w.jobs| ensures 1 <= w.jobs[i].num <= w.numJobs {
      BelowBounds(w.jobs, w.numJobs, w.ids, i);
    }
    forall i, k | 0 <= i < k < |w.jobs| ensures w.jobs[k].num < w.jobs[i].num {
      BelowFalls(w.jobs, w.numJobs, w.ids, i, k);
    }
  }

  /** The event that says this job's end. */
  predicate IsUnlinkOf(e: Event, id: nat) { e.Unlinked? && e.id == id }

  lemma {:induction false} UnlinksTwice(log: seq<Event>, id: nat, a: nat, b: nat)
    requires a < b < |log| && IsUnlinkOf(log[a], id) && IsUnlinkOf(log[b], id)
    ensures Unlinks(log, id) >= 2
    decreases |log|
  {
    if b == |log| - 1 {
      UnlinksOnce(log[..b], id, a);
    } else {
      UnlinksTwice(log[..|log| - 1], id, a, b);
    }
  }

  lemma {:induction false} UnlinksOnce(log: seq<Event>, id: nat, a: nat)
    requires a < |log| && IsUnlinkOf(log[a], id)
    ensures Unlinks(log, id) >= 1
    decreases |log|
  {
    if a < |log| - 1 {
      UnlinksOnce(log[..|log| - 1], id, a);
    }
  }

  lemma {:induction false} UnlinksSomewhere(log: seq<Event>, id: nat) returns (a: nat)
    requires Unlinks(log, id) >= 1
    ensures a < |log| && IsUnlinkOf(log[a], id)
  {
    if IsUnlinkOf(log[|log| - 1], id) {
      a := |log| - 1;
    } else {
      a := UnlinksSomewhere(log[..|log| - 1], id);
    }
  }

  /**
   In every run a job is unlinked at most once; the pass that unlinks it reports "done" exactly
   if the job is in the background; and a job made and no longer listed has been unlinked.
   */
  lemma DoneExactlyOnce(ws: seq<State>, ss: seq<Step>, n: nat, id: nat)
    requires IsRun(ws, ss) && n < |ws|
    ensures var log := ws[n].log;
      forall a, b | 0 <= a < b < |log| :: !(IsUnlinkOf(log[a], id) && IsUnlinkOf(log[b], id))
    ensures var log := ws[n].log; forall a | 0 <= a < |log| && IsUnlinkOf(log[a], id) ::
      if log[a].foreground then log[a].said == [] else |log[a].said| == 1 && log[a].said[0].DoneLine?
    ensures var log := ws[n].log; forall a | 0 <= a < |log| && log[a].StopReport? :: log[a].line.StoppedLine?
    ensures id < ws[n].ids && (forall j | j in ws[n].jobs :: j.id != id) ==>
      exists a :: 0 <= a < |ws[n].log| && IsUnlinkOf(ws[n].log[a], id)
  {
    hide Unlinks, Listed, Standing;
    RunKeepsInv(ws, ss, n);
    var log := ws[n].log;
    assert Unlinks(log, id) + Listed(ws[n].jobs, id) == if id < ws[n].ids then 1 else 0;
    forall a, b | 0 <= a < b < |log| ensures !(IsUnlinkOf(log[a], id) && IsUnlinkOf(log[b], id)) {
      if IsUnlinkOf(log[a], id) && IsUnlinkOf(log[b], id) {
        UnlinksTwice(log, id, a, b);
      }
    }
    forall a | 0 <= a < |log| && IsUnlinkOf(log[a], id)
      ensures if log[a].foreground then log[a].said == [] else |log[a].said| == 1 && log[a].said[0].DoneLine?
    {
      assert log[a] in log && SaidRight(log[a]);
    }
    forall a | 0 <= a < |log| && log[a].StopReport? ensures log[a].line.StoppedLine? {
      assert log[a] in log && SaidRight(log[a]);
    }
    if id < ws[n].ids && forall j | j in ws[n].jobs :: j.id != id {
      NotListed(ws[n].jobs, id);
      var a := UnlinksSomewhere(log, id);
    }
  }

  lemma {:induction false} NotListed(jobs: seq<Job>, id: nat)
    requires forall j | j in jobs :: j.id != id
    ensures Listed(jobs, id) == 0
  {
    if jobs != [] {
      NotListed(jobs[1..], id);
    }
  }

  predicate Stops(e: Event, id: nat) { e.StopReport? && e.id == id }

  predicate Resumes(e: Event, id: nat) { e.Resumed? && e.id == id }

  /** A stop report stands until the job is resumed. */
  lemma {:induction false} StandsUntilResumed(log: seq<Event>, id: nat, a: nat)
    requires a < |log| && Stops(log[a], id) && forall c | a < c < |log| :: !Resumes(log[c], id)
    ensures Standing(log, id)
    decreases |log|
  {
    if a < |log| - 1 {
      StandsUntilResumed(log[..|log| - 1], id, a);
    }
  }

  lemma {:induction false} AlternatesBefore(log: seq<Event>, b: nat)
    requires Alternates(log) && b < |log|
    ensures Alternates(log[..b]) && (log[b].StopReport? ==> !Standing(log[..b], log[b].id))
    decreases |log|
  {
    if b < |log| - 1 {
      AlternatesBefore(log[..|log| - 1], b);
      assert log[..|log| - 1][..b] == log[..b];
    }
  }

  /** Between two "stopped" reports of a job there is an `fg`, `bg` or `kill` of that job. */
  lemma StopReportsAreSeparated(ws: seq<State>, ss: seq<Step>, n: nat, id: nat, a: nat, b: nat)
    requires IsRun(ws, ss) && n < |ws| && a < b < |ws[n].log|
    requires Stops(ws[n].log[a], id) && Stops(ws[n].log[b], id)
    ensures exists c :: a < c < b && Resumes(ws[n].log[c], id)
  {
    hide Standing, Alternates;
    RunKeepsInv(ws, ss, n);
    var log := ws[n].log;
    AlternatesBefore(log, b);
    if forall c | a < c < b :: !Resumes(log[c], id) {
      StandsUntilResumed(log[..b], id, a);
    }
  }
}
