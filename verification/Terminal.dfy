/**
 Process groups and the terminal of an interactive shell: parent and children both call `setpgid`,
 children of foreground jobs and the shell all call `tcsetpgrp`, in any order the scheduler likes.
 A child stops or ends only after its own set-up, programs leave groups and terminal alone, and
 `waitpid` does not fail while there is a child.
 */
module Terminal {
  /** How far a child is: before `setpgid`, before `tcsetpgrp`, past both. */
  datatype Setup = Born | Grouped | Ready

  /** `arg` is the group handed to the child at the fork, 0 for its own pid; `placed`: the parent has done `setpgid`. */
  datatype Child = Child(job: nat, stage: nat, arg: int, background: bool, setup: Setup,
                         placed: bool, stopped: bool, ended: bool)

  /** `stopped` and `done` are the stages the shell has recorded as such. */
  datatype Job = Job(gid: int, members: seq<int>, background: bool, stopped: set<nat>, done: set<nat>)

  datatype Pc = Prompt | Forking | JustForked(pid: int) | Waiting(j: nat)

  /** `pgrp` is the kernel's map from processes to groups; the shell leads its own. */
  datatype World = World(shell: int, terminal: int, pgrp: map<int, int>, children: map<int, Child>,
                         jobs: seq<Job>, pc: Pc)

  datatype Step =
    | BeginLaunch(background: bool)
    | Fork(pid: int)
    | Place(execed: bool)
    | FinishLaunch
    | See(pid: int)
    | Return
    | ToForeground(j: nat)
    | ToBackground(j: nat)
    | ChildGroups(pid: int)
    | ChildTakes(pid: int)
    | ChildStops(pid: int)
    | ChildContinues(pid: int)
    | ChildEnds(pid: int)

  predicate Exists(pgrp: map<int, int>, g: int) { exists q :: q in pgrp && pgrp[q] == g }

  /** `setpgid(p, g)`: into a new group of one's own, or into one that exists. */
  function SetGroup(pgrp: map<int, int>, p: int, g: int): map<int, int> {
    if p in pgrp && (g == p || Exists(pgrp, g)) then pgrp[p := g] else pgrp
  }

  /** The group a child means to be in. */
  function Home(p: int, c: Child): int { if c.arg == 0 then p else c.arg }

  function Last(w: World): nat
    requires w.jobs != []
  {
    |w.jobs| - 1
  }

  predicate AllSeen(j: Job) { forall k | 0 <= k < |j.members| :: k in j.stopped || k in j.done }

  predicate Enabled(w: World, s: Step) {
    match s
    case BeginLaunch(_) => w.pc == Prompt
    case Fork(pid) =>
      w.pc == Forking && w.jobs != [] && pid > 0 && pid !in w.pgrp && pid !in w.children && !Exists(w.pgrp, pid)
    case Place(execed) =>
      w.pc.JustForked? && w.jobs != [] && w.pc.pid in w.children && (execed ==> w.children[w.pc.pid].setup == Ready)
    case FinishLaunch => w.pc == Forking && w.jobs != [] && w.jobs[Last(w)].members != []
    case See(pid) =>
      (w.pc == Prompt || w.pc.Waiting?) && pid in w.children && (w.children[pid].stopped || w.children[pid].ended)
      && w.children[pid].job < |w.jobs|
    case Return => w.pc.Waiting? && w.pc.j < |w.jobs| && AllSeen(w.jobs[w.pc.j])
    case ToForeground(j) => w.pc == Prompt && j < |w.jobs|
    case ToBackground(j) => w.pc == Prompt && j < |w.jobs|
    case ChildGroups(pid) => pid in w.children && w.children[pid].setup == Born
    case ChildTakes(pid) => pid in w.children && w.children[pid].setup == Grouped
    case ChildStops(pid) => pid in w.children && w.children[pid].setup == Ready && !w.children[pid].ended
    case ChildContinues(pid) => pid in w.children && w.children[pid].stopped
    case ChildEnds(pid) => pid in w.children && w.children[pid].setup == Ready
  }

  /**
   A child starts in the group of its parent. The parent's `setpgid` on a child that has called `execve` fails.
   */
  function Apply(w: World, s: Step): World
    requires Enabled(w, s)
  {
    match s
    case BeginLaunch(background) => w.(jobs := w.jobs + [Job(0, [], background, {}, {})], pc := Forking)
    case Fork(pid) =>
      var j := w.jobs[Last(w)];
      var c := Child(Last(w), |j.members|, j.gid, j.background, Born, false, false, false);
      w.(children := w.children[pid := c], pgrp := w.pgrp[pid := w.shell], pc := JustForked(pid))
    case Place(execed) =>
      var p, j := w.pc.pid, w.jobs[Last(w)];
      var gid := if j.gid == 0 then p else j.gid;
      w.(jobs := w.jobs[Last(w) := j.(gid := gid, members := j.members + [p])],
         children := w.children[p := w.children[p].(placed := true)],
         pgrp := if execed then w.pgrp else SetGroup(w.pgrp, p, gid), pc := Forking)
    case FinishLaunch =>
      var j := w.jobs[Last(w)];
      if j.background then w.(pc := Prompt) else w.(terminal := j.gid, pc := Waiting(Last(w)))
    case See(pid) =>
      var c := w.children[pid];
      var j := w.jobs[c.job];
      if c.ended then
        w.(jobs := w.jobs[c.job := j.(done := j.done + {c.stage})],
           children := w.children - {pid}, pgrp := w.pgrp - {pid})
      else
        w.(jobs := w.jobs[c.job := j.(stopped := j.stopped + {c.stage})])
    case Return => w.(terminal := w.shell, pc := Prompt)
    case ToForeground(j) =>
      w.(jobs := w.jobs[j := w.jobs[j].(stopped := {})], terminal := w.jobs[j].gid, pc := Waiting(j))
    case ToBackground(j) => w.(jobs := w.jobs[j := w.jobs[j].(stopped := {})])
    case ChildGroups(pid) =>
      w.(children := w.children[pid := w.children[pid].(setup := Grouped)],
         pgrp := SetGroup(w.pgrp, pid, Home(pid, w.children[pid])))
    case ChildTakes(pid) =>
      w.(children := w.children[pid := w.children[pid].(setup := Ready)],
         terminal := if w.children[pid].background then w.terminal else Home(pid, w.children[pid]))
    case ChildStops(pid) => w.(children := w.children[pid := w.children[pid].(stopped := true)])
    case ChildContinues(pid) => w.(children := w.children[pid := w.children[pid].(stopped := false)])
    case ChildEnds(pid) => w.(children := w.children[pid := w.children[pid].(ended := true)])
  }

  predicate Start(w: World) {
    && w.shell > 0 && w.terminal == w.shell && w.pgrp == map[w.shell := w.shell]
    && w.children == map[] && w.jobs == [] && w.pc == Prompt
  }

  predicate IsRun(ws: seq<World>, ss: seq<Step>) {
    && |ws| == |ss| + 1 && Start(ws[0])
    && forall i | 0 <= i < |ss| :: Enabled(ws[i], ss[i]) && ws[i + 1] == Apply(ws[i], ss[i])
  }

  /* ---- the invariant ---- */

  predicate Launching(w: World) { w.pc.Forking? || w.pc.JustForked? }

  /** A child's place in its job, and in its group once either side has put it there. */
  predicate InPlace(w: World, p: int)
    requires p in w.children && p in w.pgrp
  {
    var c := w.children[p];
    && p > 0 && c.job < |w.jobs|
    && c.background == w.jobs[c.job].background
    && (c.setup != Ready ==> !c.stopped && !c.ended)
    && Home(p, c) != w.shell
    && w.pgrp[p] == (if c.placed || c.setup != Born then Home(p, c) else w.shell)
    && if c.placed then c.stage < |w.jobs[c.job].members| && Home(p, c) == w.jobs[c.job].gid
       else
         && w.pc == JustForked(p) && c.job == |w.jobs| - 1
         && c.stage == |w.jobs[c.job].members| && c.arg == w.jobs[c.job].gid
  }

  ghost predicate Placed(w: World) {
    && w.pgrp.Keys == w.children.Keys + {w.shell} && w.shell !in w.children && w.shell > 0 && w.pgrp[w.shell] == w.shell
    && (forall p | p in w.children :: InPlace(w, p))
    && (w.pc.JustForked? ==> w.pc.pid in w.children && !w.children[w.pc.pid].placed)
    && (Launching(w) ==> w.jobs != [])
    && (w.pc.Waiting? ==> w.pc.j < |w.jobs|)
  }

  /** A job's group is named by its first stage; what the shell has recorded are stages of the job. */
  predicate NamedJob(j: Job) {
    && (if j.members == [] then j.gid == 0 else j.gid == j.members[0] > 0)
    && (forall k | k in j.stopped :: k < |j.members|)
    && (forall k | k in j.done :: k < |j.members|)
  }

  predicate Named(w: World) { forall j | 0 <= j < |w.jobs| :: NamedJob(w.jobs[j]) }

  /** While a job is launched its first stage is alive to hold the group. */
  predicate Held(w: World) {
    Launching(w) && w.jobs != [] && w.jobs[Last(w)].members != [] ==>
      var g := w.jobs[Last(w)].gid;
      g in w.children && w.children[g].job == Last(w) && w.children[g].placed && w.children[g].arg == 0
  }

  /** A child that can still take the terminal is one the shell is launching or waiting for, and is unseen. */
  predicate CanTake(w: World, p: int)
    requires p in w.children
  {
    var c := w.children[p];
    !c.background && c.setup != Ready ==>
      && (if w.pc.Waiting? then c.job == w.pc.j else Launching(w) && c.job == |w.jobs| - 1)
      && c.job < |w.jobs| && c.stage !in w.jobs[c.job].stopped && c.stage !in w.jobs[c.job].done
  }

  /** At the prompt, and while a background job is launched, the shell has the terminal. */
  predicate ShellHasIt(w: World) {
    w.pc == Prompt || (Launching(w) && w.jobs != [] && w.jobs[Last(w)].background) ==> w.terminal == w.shell
  }

  predicate Quiet(w: World) { ShellHasIt(w) && forall p | p in w.children :: CanTake(w, p) }

  /** Stages are told apart. */
  predicate Apart(w: World) {
    forall p, q | p in w.children && q in w.children ::
      w.children[p].job == w.children[q].job && w.children[p].stage == w.children[q].stage ==> p == q
  }

  /** Jobs with living processes have different groups. */
  predicate Separate(w: World) {
    forall p, q | p in w.children && q in w.children && w.children[p].job != w.children[q].job ::
      Home(p, w.children[p]) != Home(q, w.children[q])
  }

  ghost predicate Inv(w: World) {
    Placed(w) && Named(w) && Held(w) && Quiet(w) && Apart(w) && Separate(w)
  }

  /* ---- steps of a child ---- */

  predicate OneChild(w: World, p: int, w': World) {
    && p in w.children && w'.children.Keys == w.children.Keys && w'.pgrp.Keys == w.pgrp.Keys
    && w' == w.(children := w'.children, pgrp := w'.pgrp, terminal := w'.terminal)
    && (forall q | q in w.children && q != p :: w'.children[q] == w.children[q])
    && (forall q | q in w.pgrp && q != p :: w'.pgrp[q] == w.pgrp[q])
    && var c, d := w.children[p], w'.children[p];
       d.job == c.job && d.stage == c.stage && d.arg == c.arg && d.background == c.background && d.placed == c.placed
  }

  lemma OneChildKeeps(w: World, p: int, w': World)
    requires Inv(w) && OneChild(w, p, w')
    requires p in w'.pgrp && InPlace(w', p) && CanTake(w', p) && ShellHasIt(w')
    ensures Inv(w')
  {
    hide Placed, Named, Held, Quiet, Apart, Separate, InPlace, CanTake, ShellHasIt;
    OneChildPlaced(w, p, w');
    OneChildHeld(w, p, w');
    OneChildQuiet(w, p, w');
    OneChildApart(w, p, w');
    SameJobsNamed(w, w');
  }

  lemma SameJobsNamed(w: World, w': World)
    requires Named(w) && w'.jobs == w.jobs
    ensures Named(w')
  {
    hide NamedJob;
  }

  lemma OneChildHeld(w: World, p: int, w': World)
    requires Held(w) && OneChild(w, p, w')
    ensures Held(w')
  {
  }

  lemma OneChildQuiet(w: World, p: int, w': World)
    requires Quiet(w) && OneChild(w, p, w') && CanTake(w', p) && ShellHasIt(w')
    ensures Quiet(w')
  {
    hide ShellHasIt;
    forall q | q in w'.children ensures CanTake(w', q) {
      if q != p {
        assert CanTake(w, q);
      }
    }
  }

  lemma OneChildPlaced(w: World, p: int, w': World)
    requires Placed(w) && OneChild(w, p, w') && p in w'.pgrp && InPlace(w', p)
    ensures Placed(w')
  {
    hide Named;
    forall q | q in w'.children ensures InPlace(w', q) {
      if q != p {
        assert InPlace(w, q);
      }
    }
  }

  lemma OneChildApart(w: World, p: int, w': World)
    requires Apart(w) && Separate(w) && OneChild(w, p, w')
    ensures Apart(w') && Separate(w')
  {
    forall q | q in w'.children
      ensures w'.children[q].job == w.children[q].job && w'.children[q].stage == w.children[q].stage
      ensures w'.children[q].arg == w.children[q].arg
    {
    }
  }

  /** The group a child asks for is its own or exists. */
  lemma HomeExists(w: World, p: int)
    requires Inv(w) && p in w.children
    ensures Home(p, w.children[p]) == p || Exists(w.pgrp, Home(p, w.children[p]))
  {
    hide Quiet, Apart, Separate;
    var c := w.children[p];
    assert InPlace(w, p);
    if c.arg != 0 && !c.placed {
      assert NamedJob(w.jobs[c.job]);
      assert InPlace(w, c.arg);
      assert w.pgrp[c.arg] == c.arg;
    }
  }

  predicate ByChild(s: Step) {
    s.ChildGroups? || s.ChildTakes? || s.ChildStops? || s.ChildContinues? || s.ChildEnds?
  }

  lemma OnlyOneChild(w: World, s: Step)
    requires Enabled(w, s) && ByChild(s) && s.pid in w.pgrp
    ensures OneChild(w, s.pid, Apply(w, s))
  {
    hide Exists, Home;
    var w' := Apply(w, s);
    assert w'.children.Keys == w.children.Keys && w'.pgrp.Keys == w.pgrp.Keys;
  }

  lemma ChildStaysInPlace(w: World, s: Step)
    requires Enabled(w, s) && ByChild(s) && s.pid in w.pgrp && InPlace(w, s.pid)
    requires Home(s.pid, w.children[s.pid]) == s.pid || Exists(w.pgrp, Home(s.pid, w.children[s.pid]))
    ensures s.pid in Apply(w, s).children && s.pid in Apply(w, s).pgrp && InPlace(Apply(w, s), s.pid)
  {
    hide Exists;
  }

  lemma ChildTakesInTime(w: World, s: Step)
    requires Quiet(w) && Enabled(w, s) && ByChild(s) && s.pid in Apply(w, s).children
    requires s.ChildTakes? ==> s.pid in w.pgrp && InPlace(w, s.pid)
    ensures CanTake(Apply(w, s), s.pid) && ShellHasIt(Apply(w, s))
  {
    hide Exists;
    assert CanTake(w, s.pid);
  }

  lemma ChildStep(w: World, s: Step)
    requires Inv(w) && Enabled(w, s) && ByChild(s)
    ensures Inv(Apply(w, s))
  {
    HomeExists(w, s.pid);
    assert InPlace(w, s.pid);
    OnlyOneChild(w, s);
    ChildStaysInPlace(w, s);
    hide Named, Held, Quiet, Apart, Separate, Exists, InPlace;
    ChildTakesInTime(w, s);
    OneChildKeeps(w, s.pid, Apply(w, s));
  }

  /* ---- steps of the shell ---- */

  lemma BeginStep(w: World, background: bool)
    requires Inv(w) && Enabled(w, BeginLaunch(background))
    ensures Inv(Apply(w, BeginLaunch(background)))
  {
    hide Apart, Separate, Exists;
    var w' := Apply(w, BeginLaunch(background));
    forall p | p in w'.children ensures InPlace(w', p) && CanTake(w', p) {
      assert InPlace(w, p) && CanTake(w, p);
    }
    assert Apart(w') by { SameChildren(w, w'); }
    SameChildren(w, w');
  }

  lemma SameChildren(w: World, w': World)
    requires w'.children == w.children && Apart(w) && Separate(w)
    ensures Apart(w') && Separate(w')
  {
  }

  lemma ForkStep(w: World, p: int)
    requires Inv(w) && Enabled(w, Fork(p))
    ensures Inv(Apply(w, Fork(p)))
  {
    hide Exists, Apart, Separate;
    var w' := Apply(w, Fork(p));
    assert NamedJob(w.jobs[Last(w)]);
    forall q | q in w'.children ensures InPlace(w', q) && CanTake(w', q) {
      if q != p {
        assert InPlace(w, q) && CanTake(w, q);
      }
    }
    ForkApart(w, p);
    ForkSeparate(w, p);
  }

  lemma ForkApart(w: World, p: int)
    requires Inv(w) && Enabled(w, Fork(p))
    ensures Apart(Apply(w, Fork(p)))
  {
    hide Exists, Separate, Quiet, Named;
    forall q | q in w.children
      ensures w.children[q].job == Last(w) ==> w.children[q].stage < |w.jobs[Last(w)].members|
    {
      assert InPlace(w, q);
    }
  }

  lemma ForkSeparate(w: World, p: int)
    requires Inv(w) && Enabled(w, Fork(p))
    ensures Separate(Apply(w, Fork(p)))
  {
    hide Apart, Quiet;
    var c := Apply(w, Fork(p)).children[p];
    assert NamedJob(w.jobs[Last(w)]);
    forall q | q in w.children && w.children[q].job != Last(w) ensures Home(q, w.children[q]) != Home(p, c) {
      assert InPlace(w, q);
      assert w.pgrp[q] == Home(q, w.children[q]);
    }
  }

  /** After the parent's `setpgid` the child is in the job's group, whoever put it there. */
  lemma PlacedNow(w: World, execed: bool)
    requires Inv(w) && Enabled(w, Place(execed))
    ensures var w' := Apply(w, Place(execed)); var p := w.pc.pid;
      && w'.pgrp.Keys == w.pgrp.Keys && p in w.pgrp && p in w'.pgrp && InPlace(w', p)
      && w'.pgrp[p] == w'.jobs[Last(w)].gid
      && (forall q | q in w.pgrp && q != p :: w'.pgrp[q] == w.pgrp[q])
  {
    hide Apart, Separate, Quiet, Exists;
    var p := w.pc.pid;
    assert InPlace(w, p);
    HomeExists(w, p);
    assert NamedJob(w.jobs[Last(w)]);
  }

  lemma PlaceStep(w: World, execed: bool)
    requires Inv(w) && Enabled(w, Place(execed))
    ensures Inv(Apply(w, Place(execed)))
  {
    hide Apart, Separate, Exists, SetGroup;
    var w', p := Apply(w, Place(execed)), w.pc.pid;
    PlacedNow(w, execed);
    PlaceJobs(w, execed);
    forall q | q in w'.children ensures InPlace(w', q) && CanTake(w', q) {
      assert CanTake(w, q) && InPlace(w, q);
    }
    PlaceApart(w, execed);
  }

  lemma PlaceJobs(w: World, execed: bool)
    requires Inv(w) && Enabled(w, Place(execed))
    ensures Named(Apply(w, Place(execed))) && Held(Apply(w, Place(execed)))
  {
    hide Apart, Separate, Exists, SetGroup, Quiet;
    var w', p, n := Apply(w, Place(execed)), w.pc.pid, Last(w);
    assert NamedJob(w.jobs[n]) && InPlace(w, p);
    assert NamedJob(w'.jobs[n]);
    forall j | 0 <= j < |w'.jobs| ensures NamedJob(w'.jobs[j]) {
      if j != n {
        assert NamedJob(w.jobs[j]);
      }
    }
  }

  lemma PlaceApart(w: World, execed: bool)
    requires Inv(w) && Enabled(w, Place(execed))
    ensures Apart(Apply(w, Place(execed))) && Separate(Apply(w, Place(execed)))
  {
    hide Placed, Named, Held, Quiet, Exists, SetGroup;
    var w' := Apply(w, Place(execed));
    forall q | q in w'.children
      ensures w'.children[q].job == w.children[q].job && w'.children[q].stage == w.children[q].stage
      ensures w'.children[q].arg == w.children[q].arg
    {
    }
  }

  lemma FinishStep(w: World)
    requires Inv(w) && Enabled(w, FinishLaunch)
    ensures Inv(Apply(w, FinishLaunch))
  {
    hide Apart, Separate, Exists;
    var w' := Apply(w, FinishLaunch);
    forall q | q in w'.children ensures InPlace(w', q) && CanTake(w', q) {
      assert CanTake(w, q) && InPlace(w, q);
    }
    SameChildren(w, w');
  }

  lemma SeeStep(w: World, p: int)
    requires Inv(w) && Enabled(w, See(p))
    ensures Inv(Apply(w, See(p)))
  {
    hide Apart, Separate, Exists;
    var w' := Apply(w, See(p));
    assert InPlace(w, p);
    SeeJobs(w, p);
    assert w'.pgrp.Keys == w'.children.Keys + {w'.shell};
    forall q | q in w'.children ensures InPlace(w', q) && CanTake(w', q) {
      assert CanTake(w, q) && InPlace(w, q);
      if w.children[q].setup != Ready {
        SeenOther(w, p, q);
      }
    }
    SeeApart(w, p);
  }

  lemma SeenOther(w: World, p: int, q: int)
    requires Inv(w) && Enabled(w, See(p)) && q in w.children && w.children[q].setup != Ready
    ensures w.children[q].job != w.children[p].job || w.children[q].stage != w.children[p].stage
  {
    hide Separate, Exists, Named, Held, Quiet;
    assert InPlace(w, p) && InPlace(w, q);
  }

  lemma SeeJobs(w: World, p: int)
    requires Inv(w) && Enabled(w, See(p))
    ensures Named(Apply(w, See(p)))
  {
    hide Apart, Separate, Exists, Quiet, Held;
    var w', n := Apply(w, See(p)), w.children[p].job;
    assert InPlace(w, p);
    forall j | 0 <= j < |w'.jobs| ensures NamedJob(w'.jobs[j]) {
      assert NamedJob(w.jobs[j]);
    }
  }

  lemma SeeApart(w: World, p: int)
    requires Inv(w) && Enabled(w, See(p))
    ensures Apart(Apply(w, See(p))) && Separate(Apply(w, See(p)))
  {
    hide Placed, Named, Held, Quiet;
    var w' := Apply(w, See(p));
    forall q | q in w'.children ensures q in w.children && w'.children[q] == w.children[q] {
    }
  }

  lemma ReturnStep(w: World)
    requires Inv(w) && Enabled(w, Return)
    ensures Inv(Apply(w, Return))
  {
    hide Apart, Separate, Exists;
    var w' := Apply(w, Return);
    forall q | q in w'.children ensures InPlace(w', q) && CanTake(w', q) {
      assert CanTake(w, q) && InPlace(w, q);
    }
    SameChildren(w, w');
  }

  lemma ResumeStep(w: World, s: Step)
    requires Inv(w) && Enabled(w, s) && (s.ToForeground? || s.ToBackground?)
    ensures Inv(Apply(w, s))
  {
    hide Apart, Separate, Exists;
    var w' := Apply(w, s);
    assert NamedJob(w.jobs[s.j]);
    forall j | 0 <= j < |w'.jobs| ensures NamedJob(w'.jobs[j]) {
      assert NamedJob(w.jobs[j]);
    }
    forall q | q in w'.children ensures InPlace(w', q) && CanTake(w', q) {
      assert CanTake(w, q) && InPlace(w, q);
    }
    SameChildren(w, w');
  }

  lemma StepKeepsInv(w: World, s: Step)
    requires Inv(w) && Enabled(w, s)
    ensures Inv(Apply(w, s))
  {
    hide Inv, Apply, Enabled;
    match s
    case BeginLaunch(background) => BeginStep(w, background);
    case Fork(pid) => ForkStep(w, pid);
    case Place(execed) => PlaceStep(w, execed);
    case FinishLaunch => FinishStep(w);
    case See(pid) => SeeStep(w, pid);
    case Return => ReturnStep(w);
    case ToForeground(_) => ResumeStep(w, s);
    case ToBackground(_) => ResumeStep(w, s);
    case ChildGroups(_) => ChildStep(w, s);
    case ChildTakes(_) => ChildStep(w, s);
    case ChildStops(_) => ChildStep(w, s);
    case ChildContinues(_) => ChildStep(w, s);
    case ChildEnds(_) => ChildStep(w, s);
  }

  lemma {:induction false} RunKeepsInv(ws: seq<World>, ss: seq<Step>, n: nat)
    requires IsRun(ws, ss) && n < |ws|
    ensures Inv(ws[n])
    decreases n
  {
    if n > 0 {
      hide Inv, Apply, Enabled;
      RunKeepsInv(ws, ss, n - 1);
      StepKeepsInv(ws[n - 1], ss[n - 1]);
      assert ws[n - 1 + 1] == Apply(ws[n - 1], ss[n - 1]);
    }
  }

  /* ---- what every run does ---- */

  /** At every prompt the terminal is the shell's, and no child is left that could still take it. */
  lemma TerminalIsBack(ws: seq<World>, ss: seq<Step>, n: nat)
    requires IsRun(ws, ss) && n < |ws| && ws[n].pc == Prompt
    ensures ws[n].terminal == ws[n].shell
    ensures forall p | p in ws[n].children :: ws[n].children[p].background || ws[n].children[p].setup == Ready
  {
    hide Placed, Named, Held, Apart, Separate;
    RunKeepsInv(ws, ss, n);
    forall p | p in ws[n].children ensures ws[n].children[p].background || ws[n].children[p].setup == Ready {
      assert CanTake(ws[n], p);
    }
  }

  /** Once the parent is past its half of the fork, every stage is in the group named by the first stage's pid. */
  lemma OneGroup(ws: seq<World>, ss: seq<Step>, n: nat, p: int)
    requires IsRun(ws, ss) && n < |ws| && p in ws[n].children && ws[n].pc != JustForked(p)
    ensures var w := ws[n];
      && w.children[p].job < |w.jobs| && p in w.pgrp
      && var j := w.jobs[w.children[p].job];
         j.members != [] && w.pgrp[p] == j.gid == j.members[0]
  {
    hide Held, Quiet, Apart, Separate;
    RunKeepsInv(ws, ss, n);
    assert InPlace(ws[n], p);
    assert NamedJob(ws[n].jobs[ws[n].children[p].job]);
  }

  /** A signal sent to a job's group reaches that job's processes and no others. */
  lemma GroupIsJob(ws: seq<World>, ss: seq<Step>, n: nat, p: int, q: int)
    requires IsRun(ws, ss) && n < |ws| && p in ws[n].children && q in ws[n].pgrp
    requires ws[n].pc != JustForked(p) && ws[n].pc != JustForked(q)
    ensures p in ws[n].pgrp
    ensures ws[n].pgrp[p] == ws[n].pgrp[q] <==> q in ws[n].children && ws[n].children[p].job == ws[n].children[q].job
  {
    hide Held, Quiet, Apart, Named;
    RunKeepsInv(ws, ss, n);
    assert InPlace(ws[n], p);
    if q in ws[n].children {
      assert InPlace(ws[n], q);
    }
  }

  /** While a background job is launched the terminal stays with the shell. */
  lemma BackgroundLeavesTerminal(ws: seq<World>, ss: seq<Step>, n: nat)
    requires IsRun(ws, ss) && n < |ws| && Launching(ws[n]) && ws[n].jobs != [] && ws[n].jobs[Last(ws[n])].background
    ensures ws[n].terminal == ws[n].shell
  {
    hide Placed, Named, Held, Apart, Separate, CanTake;
    RunKeepsInv(ws, ss, n);
  }

  /** The job the shell waits for has the terminal. */
  predicate WaitedHasIt(w: World) { w.pc.Waiting? && w.pc.j < |w.jobs| ==> w.terminal == w.jobs[w.pc.j].gid }

  lemma StepKeepsWaited(w: World, s: Step)
    requires Inv(w) && Enabled(w, s) && WaitedHasIt(w)
    ensures WaitedHasIt(Apply(w, s))
  {
    hide Named, Held, Apart, Separate, Exists, SetGroup, ShellHasIt;
    if s.ChildTakes? {
      assert InPlace(w, s.pid) && CanTake(w, s.pid);
    }
  }

  /**
   From the end of the launch, or from `fg`, until the wait is over the terminal belongs to the group of the job
   that is waited for, whichever of its children and the shell calls `tcsetpgrp` first.
   */
  lemma {:induction false} ForegroundHasTerminal(ws: seq<World>, ss: seq<Step>, n: nat)
    requires IsRun(ws, ss) && n < |ws|
    ensures var w := ws[n]; w.pc.Waiting? ==>
      && w.pc.j < |w.jobs|
      && w.terminal == w.jobs[w.pc.j].gid
  {
    hide Apply, Enabled, Named, Held, Quiet, Apart, Separate, InPlace;
    RunKeepsInv(ws, ss, n);
    if n > 0 {
      ForegroundHasTerminal(ws, ss, n - 1);
      RunKeepsInv(ws, ss, n - 1);
      assert Enabled(ws[n - 1], ss[n - 1]) && ws[n - 1 + 1] == Apply(ws[n - 1], ss[n - 1]);
      StepKeepsWaited(ws[n - 1], ss[n - 1]);
    }
  }

  /** A job resumed by `fg` at step `m` has been heard of, at its stage `k`, before state `n`. */
  predicate HeardOf(ws: seq<World>, ss: seq<Step>, m: nat, n: nat, j: nat, k: nat)
    requires |ws| == |ss| + 1 && m < n < |ws|
  {
    exists a :: m < a < n && ss[a].See? && ss[a].pid in ws[a].children
      && ws[a].children[ss[a].pid].job == j && ws[a].children[ss[a].pid].stage == k
  }

  lemma SeeMarks(w: World, s: Step, j: nat, k: nat)
    requires w.pc == Waiting(j) && j < |w.jobs| && Enabled(w, s)
    ensures j < |Apply(w, s).jobs|
    ensures var after := Apply(w, s).jobs[j];
      k in after.stopped || k in after.done ==>
        || k in w.jobs[j].stopped || k in w.jobs[j].done
        || (s.See? && s.pid in w.children && w.children[s.pid].job == j && w.children[s.pid].stage == k)
  {
    hide Exists, SetGroup, Home;
  }

  lemma {:induction false} MarkedIsHeard(ws: seq<World>, ss: seq<Step>, m: nat, n: nat, j: nat, k: nat)
    requires IsRun(ws, ss) && m < n < |ws| && ss[m] == ToForeground(j)
    requires forall a | m < a <= n :: ws[a].pc == Waiting(j)
    ensures j < |ws[m].jobs| && j < |ws[n].jobs|
    ensures k in ws[n].jobs[j].stopped || k in ws[n].jobs[j].done ==>
      k in ws[m].jobs[j].done || HeardOf(ws, ss, m, n, j, k)
    decreases n
  {
    assert Enabled(ws[m], ss[m]) && ws[m + 1] == Apply(ws[m], ss[m]);
    if n > m + 1 {
      MarkedIsHeard(ws, ss, m, n - 1, j, k);
      hide Apply, Enabled;
      var b := n - 1;
      assert Enabled(ws[b], ss[b]) && ws[b + 1] == Apply(ws[b], ss[b]);
      SeeMarks(ws[b], ss[b], j, k);
    }
  }

  /** After `fg` the shell returns to its prompt only when each stage has ended before, or is heard of anew. */
  lemma FgWaitsAnew(ws: seq<World>, ss: seq<Step>, m: nat, n: nat, j: nat, k: nat)
    requires IsRun(ws, ss) && m < n < |ss| && ss[m] == ToForeground(j) && ss[n] == Return
    requires forall a | m < a <= n :: ws[a].pc == Waiting(j)
    ensures j < |ws[m].jobs| && j < |ws[n].jobs|
    ensures k < |ws[n].jobs[j].members| ==> k in ws[m].jobs[j].done || HeardOf(ws, ss, m, n, j, k)
  {
    hide HeardOf;
    MarkedIsHeard(ws, ss, m, n, j, k);
    assert Enabled(ws[n], ss[n]);
  }
}
