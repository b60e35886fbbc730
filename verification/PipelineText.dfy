/** The stages of a pipeline as its text has them: which operators make it ambiguous, and which pipe joins which. */
module PipelineText {
  import opened Syntax
  import opened Meaning
  import opened Pipeline
  import opened Plumbing

  /* ---- the operators of a pipeline ---- */

  predicate IsPipe(k: Kind) { k == PIPE || k == PIPE_ERROR }

  /** CheckPipelineAmbiguity counts `>&` among the inputs, and so does this. */
  predicate IsInput(k: Kind) { k == REDIRECT_IN || k == REDIRECT_ERROR }

  predicate IsOutput(k: Kind) { k == REDIRECT_OUT || k == APPEND || k == APPEND_ERROR }

  predicate IsSign(k: Kind) { IsPipe(k) || IsInput(k) || IsOutput(k) }

  /** The redirect and pipe operators of a token sequence, in their order. */
  function Signs(ts: seq<Token>): seq<Kind> {
    if ts == [] then []
    else if IsSign(ts[0].kind) then [ts[0].kind] + Signs(ts[1..])
    else Signs(ts[1..])
  }

  function PipesOf(ks: seq<Kind>): seq<Kind> {
    if ks == [] then []
    else if IsPipe(ks[0]) then [ks[0]] + PipesOf(ks[1..])
    else PipesOf(ks[1..])
  }

  lemma {:induction false} SignsSum(x: seq<Token>, y: seq<Token>)
    ensures Signs(x + y) == Signs(x) + Signs(y)
  {
    hide IsSign;
    if x == [] {
      assert x + y == y;
    } else {
      assert (x + y)[0] == x[0] && (x + y)[1..] == x[1..] + y;
      SignsSum(x[1..], y);
    }
  }

  lemma {:induction false} PipesSum(x: seq<Kind>, y: seq<Kind>)
    ensures PipesOf(x + y) == PipesOf(x) + PipesOf(y)
  {
    hide IsPipe;
    if x == [] {
      assert x + y == y;
    } else {
      assert (x + y)[0] == x[0] && (x + y)[1..] == x[1..] + y;
      PipesSum(x[1..], y);
    }
  }

  lemma SignOf(t: Token)
    ensures Signs([t]) == if IsSign(t.kind) then [t.kind] else []
  {
    assert [t][1..] == [];
    assert Signs([]) == [];
  }

  lemma {:induction false} WordsHaveNone(args: seq<string>)
    ensures Signs(Words(args)) == []
  {
    if args != [] {
      assert Words(args)[1..] == Words(args[1..]);
      WordsHaveNone(args[1..]);
    }
  }

  /** The operators of a stage are those of its redirect list. */
  lemma StageSigns(c: Command)
    requires Stage(c)
    ensures Signs(Spelling(c)) == Signs(RedirectSpelling(c.redirects))
  {
    hide Signs, Words, RedirectSpelling, Simple;
    var words := Words(if c.args == [] then [] else c.args[1..]);
    WordsHaveNone(if c.args == [] then [] else c.args[1..]);
    SignOf(Token(COMMAND, c.zCmd));
    SignsSum([Token(COMMAND, c.zCmd)], words);
    SignsSum([Token(COMMAND, c.zCmd)] + words, RedirectSpelling(c.redirects));
    assert Spelling(c) == [Token(COMMAND, c.zCmd)] + words + RedirectSpelling(c.redirects);
  }

  /** The operators of the stages from this one on. */
  function SignsFrom(r: Redirects): seq<Kind>
    decreases r
  {
    PipedIsSmaller(r);
    match Piped(r)
    case NoCommand => FilesOf(r)
    case Some(c) => FilesOf(r) + [PipedBy(r)] + SignsFrom(c.redirects)
  }

  lemma Regrouped(x: seq<Kind>, y: seq<Kind>, z: seq<Kind>)
    ensures (x + y) + z == x + (y + z)
  {
  }

  lemma FileFirst(r: Redirects)
    requires r.File?
    ensures SignsFrom(r) == [r.kind] + SignsFrom(r.next)
  {
    var fs := FilesOf(r.next);
    assert Piped(r) == Piped(r.next) && PipedBy(r) == PipedBy(r.next) && FilesOf(r) == [r.kind] + fs;
    FirstOf(r);
    FirstOf(r.next);
    hide FilesOf, Piped, PipedBy, SignsFrom;
    if Piped(r).Some? {
      var p, more := [PipedBy(r)], SignsFrom(Piped(r).command.redirects);
      Regrouped([r.kind], fs, p);
      Regrouped([r.kind], fs + p, more);
    }
  }

  lemma FirstOf(r: Redirects)
    ensures Piped(r).NoCommand? ==> SignsFrom(r) == FilesOf(r)
    ensures Piped(r).Some? ==> SignsFrom(r) == (FilesOf(r) + [PipedBy(r)]) + SignsFrom(Piped(r).command.redirects)
  {
    hide FilesOf, Piped, PipedBy;
  }

  lemma FileSigns(k: Kind, name: string, next: Redirects)
    requires IsInput(k) || IsOutput(k)
    ensures Signs(RedirectSpelling(File(k, name, next))) == [k] + Signs(RedirectSpelling(next))
  {
    hide Signs;
    SignOf(Token(k, ""));
    SignOf(Token(FILENAME, name));
    SignsSum([Token(k, "")], [Token(FILENAME, name)]);
    SignsSum([Token(k, "")] + [Token(FILENAME, name)], RedirectSpelling(next));
    assert [Token(k, ""), Token(FILENAME, name)] == [Token(k, "")] + [Token(FILENAME, name)];
  }

  lemma PipeSigns(k: Kind, c: Command)
    requires IsPipe(k)
    ensures Signs(RedirectSpelling(Pipe(k, c, NoRedirect))) == [k] + Signs(Spelling(c))
  {
    hide Signs, Spelling;
    SignOf(Token(k, ""));
    SignsSum([Token(k, "")], Spelling(c));
    assert RedirectSpelling(NoRedirect) == [];
    assert [Token(k, "")] + Spelling(c) + [] == [Token(k, "")] + Spelling(c);
  }

  /** The operators of a redirect list the grammar builds are those of its stages, stage by stage. */
  lemma {:induction false} SignsOfStages(r: Redirects)
    requires RedirectList(r)
    ensures Signs(RedirectSpelling(r)) == SignsFrom(r)
    decreases r
  {
    hide Signs, Spelling, Stage, Files, RedirectList;
    match r
    case NoRedirect =>
      assert Signs([]) == [] by { NoSigns(); }
    case File(k, name, next) =>
      FileKind(r);
      hide RedirectSpelling, SignsFrom;
      RestIsList(r);
      SignsOfStages(next);
      FileFirst(r);
      FileSigns(k, name, next);
    case Pipe(k, c, next) =>
      hide RedirectSpelling;
      PipeIsOne(r);
      StageSigns(c);
      StageLists(c);
      SignsOfStages(c.redirects);
      PipeSigns(k, c);
  }

  lemma FileKind(r: Redirects)
    requires RedirectList(r) && r.File?
    ensures IsInput(r.kind) || IsOutput(r.kind)
  {
    hide Stage;
  }

  lemma PipeIsOne(r: Redirects)
    requires RedirectList(r) && r.Pipe?
    ensures IsPipe(r.kind) && r.next == NoRedirect && Stage(r.command)
  {
    hide Stage;
    assert OnePipe(r);
  }

  lemma NoSigns()
    ensures Signs([]) == []
  {
  }

  lemma StageLists(c: Command)
    requires Stage(c)
    ensures RedirectList(c.redirects)
  {
    assert Simple(c);
  }

  /* ---- ambiguity ---- */

  /** The first is an output operator before a pipe, or the second an input operator behind one. */
  predicate Clash(a: Kind, b: Kind) { (IsOutput(a) && IsPipe(b)) || (IsPipe(a) && IsInput(b)) }

  predicate AmbiguousText(ks: seq<Kind>) { exists i, j :: 0 <= i < j < |ks| && Clash(ks[i], ks[j]) }

  predicate OnlyFiles(ks: seq<Kind>) { forall k | k in ks :: IsInput(k) || IsOutput(k) }

  predicate AnyInput(ks: seq<Kind>) { exists k :: k in ks && IsInput(k) }

  predicate AnyOutput(ks: seq<Kind>) { exists k :: k in ks && IsOutput(k) }

  lemma FilesUnambiguous(fs: seq<Kind>)
    requires OnlyFiles(fs)
    ensures !AmbiguousText(fs)
  {
    forall i, j | 0 <= i < j < |fs| ensures !Clash(fs[i], fs[j]) {
      assert fs[i] in fs && fs[j] in fs;
    }
  }

  /** One stage in front of the others. */
  lemma AmbiguousMore(fs: seq<Kind>, p: Kind, ks: seq<Kind>)
    requires OnlyFiles(fs) && IsPipe(p)
    ensures AmbiguousText(fs + [p] + ks) <==> AnyOutput(fs) || AnyInput(ks) || AmbiguousText(ks)
  {
    hide OnlyFiles, AnyOutput, AnyInput, IsPipe, Clash;
    var all := fs + [p] + ks;
    if AmbiguousText(all) {
      var i, j :| 0 <= i < j < |all| && Clash(all[i], all[j]);
      ClashSplits(fs, p, ks, i, j);
    }
    ClashBelow(fs, p, ks);
    if AmbiguousText(ks) {
      var i, j :| 0 <= i < j < |ks| && Clash(ks[i], ks[j]);
      assert all[i + |fs| + 1] == ks[i] && all[j + |fs| + 1] == ks[j];
    }
  }

  lemma ClashSplits(fs: seq<Kind>, p: Kind, ks: seq<Kind>, i: nat, j: nat)
    requires OnlyFiles(fs) && IsPipe(p) && i < j < |fs + [p] + ks| && Clash((fs + [p] + ks)[i], (fs + [p] + ks)[j])
    ensures AnyOutput(fs) || AnyInput(ks) || AmbiguousText(ks)
  {
    var all, n := fs + [p] + ks, |fs| + 1;
    assert all[n..] == ks && all[|fs|] == p;
    if i < |fs| {
      assert all[i] == fs[i] && fs[i] in fs;
    } else {
      assert all[j] == ks[j - n] && ks[j - n] in ks;
      assert i > |fs| ==> all[i] == ks[i - n];
    }
  }

  lemma ClashBelow(fs: seq<Kind>, p: Kind, ks: seq<Kind>)
    requires IsPipe(p)
    ensures AnyOutput(fs) || AnyInput(ks) ==> AmbiguousText(fs + [p] + ks)
  {
    var all := fs + [p] + ks;
    assert all[|fs|] == p;
    if AnyOutput(fs) {
      var k :| k in fs && IsOutput(k);
      var i :| 0 <= i < |fs| && fs[i] == k;
      assert all[i] == k && Clash(all[i], all[|fs|]);
    }
    if AnyInput(ks) {
      var k :| k in ks && IsInput(k);
      var j :| 0 <= j < |ks| && ks[j] == k;
      assert all[j + |fs| + 1] == k && Clash(all[|fs|], all[j + |fs| + 1]);
    }
  }

  lemma {:induction false} FilesAre(r: Redirects)
    requires RedirectList(r)
    ensures OnlyFiles(FilesOf(r))
    ensures HasIn(FilesOf(r)) == AnyInput(FilesOf(r)) && HasOut(FilesOf(r)) == AnyOutput(FilesOf(r))
    ensures Piped(r).Some? ==> IsPipe(PipedBy(r)) && Stage(Piped(r).command)
    decreases r
  {
    hide Stage, RedirectList;
    match r
    case NoRedirect =>
    case File(k, _, next) =>
      FileKind(r);
      RestIsList(r);
      FilesAre(next);
      assert OnlyFiles([k] + FilesOf(next));
      HasMore(k, FilesOf(next));
      AnyMore([k], FilesOf(next));
      assert AnyInput([k]) == IsInput(k) && AnyOutput([k]) == IsOutput(k) by { assert k in [k]; }
    case Pipe(_, _, _) =>
      PipeIsOne(r);
  }

  lemma AnyMore(x: seq<Kind>, y: seq<Kind>)
    ensures AnyInput(x + y) == (AnyInput(x) || AnyInput(y)) && AnyOutput(x + y) == (AnyOutput(x) || AnyOutput(y))
  {
    assert forall k :: k in x + y <==> k in x || k in y;
  }

  /** Any input operator among these is that of a stage. */
  lemma {:induction false} InputsOfStages(r: Redirects)
    requires RedirectList(r)
    ensures AnyInput(SignsFrom(r)) == !CleanIn(Stages(r))
    decreases r
  {
    hide HasIn, HasOut, FilesOf, AnyInput, AnyOutput, Stage, OnlyFiles;
    FilesAre(r);
    PipedIsSmaller(r);
    var s := Stages(r);
    SplitIn(s);
    if Piped(r).Some? {
      var c := Piped(r).command;
      StageLists(c);
      InputsOfStages(c.redirects);
      AnyMore(FilesOf(r) + [PipedBy(r)], SignsFrom(c.redirects));
      AnyMore(FilesOf(r), [PipedBy(r)]);
      NoInput(PipedBy(r));
      assert s[1..] == Stages(c.redirects);
    }
  }

  lemma NoInput(p: Kind)
    requires IsPipe(p)
    ensures !AnyInput([p])
  {
  }

  /**
   A pipeline the grammar builds is ambiguous exactly if, in its text, an output operator stands before a pipe, or an
   input operator behind one.
   */
  lemma {:induction false} AmbiguityIsInTheText(r: Redirects)
    requires RedirectList(r)
    ensures Ambiguous(Stages(r)) <==> AmbiguousText(Signs(RedirectSpelling(r)))
    decreases r
  {
    hide HasIn, HasOut, FilesOf, AnyInput, AnyOutput, Stage, Signs, AmbiguousText, OnlyFiles, Ambiguous,
      RedirectSpelling;
    SignsOfStages(r);
    FilesAre(r);
    PipedIsSmaller(r);
    var s := Stages(r);
    Heads(s);
    if Piped(r).Some? {
      var c := Piped(r).command;
      StageLists(c);
      AmbiguityIsInTheText(c.redirects);
      SignsOfStages(c.redirects);
      InputsOfStages(c.redirects);
      AmbiguousMore(FilesOf(r), PipedBy(r), SignsFrom(c.redirects));
      var t := Stages(c.redirects);
      assert s[1..] == t;
      Heads(t);
      SplitIn(t);
      SplitOut(t);
    } else {
      FilesUnambiguous(FilesOf(r));
    }
  }

  /* ---- pipes ---- */

  lemma {:induction false} NoPipesIn(fs: seq<Kind>)
    requires OnlyFiles(fs)
    ensures PipesOf(fs) == []
  {
    if fs != [] {
      assert fs[0] in fs && forall k | k in fs[1..] :: k in fs;
      NoPipesIn(fs[1..]);
    }
  }

  /** Stage `k` of a pipeline is joined to the next by pipe operator `k` of the text; there are no other stages. */
  lemma {:induction false} PipesAreInTheText(r: Redirects, k: nat)
    requires RedirectList(r) && k < |Stages(r)|
    ensures var pipes := PipesOf(Signs(RedirectSpelling(r)));
      && |Stages(r)| == |pipes| + 1
      && (Piped(Stages(r)[k]).Some? <==> k < |pipes|)
      && (k < |pipes| ==> PipedBy(Stages(r)[k]) == pipes[k])
    decreases r
  {
    hide FilesOf, Stage, Signs, OnlyFiles, RedirectSpelling, HasIn, HasOut, AnyInput, AnyOutput;
    SignsOfStages(r);
    FilesAre(r);
    NoPipesIn(FilesOf(r));
    PipedIsSmaller(r);
    if Piped(r).Some? {
      var c := Piped(r).command;
      StageLists(c);
      SignsOfStages(c.redirects);
      PipesSum(FilesOf(r) + [PipedBy(r)], SignsFrom(c.redirects));
      PipesSum(FilesOf(r), [PipedBy(r)]);
      OnePipeOf(PipedBy(r));
      assert Stages(r)[1..] == Stages(c.redirects);
      PipesAreInTheText(c.redirects, if k > 0 then k - 1 else 0);
    }
  }

  lemma OnePipeOf(p: Kind)
    requires IsPipe(p)
    ensures PipesOf([p]) == [p]
  {
    assert [p][1..] == [];
    assert PipesOf([]) == [];
  }

  /** A stage's errors go along with its output exactly if one of the pipes up to its own is `|&`. */
  lemma ErrorsAreInTheText(r: Redirects, k: nat)
    requires RedirectList(r) && k < |Stages(r)|
    ensures var pipes := PipesOf(Signs(RedirectSpelling(r)));
      ErrorsToo(Stages(r), k) <==> exists i :: 0 <= i <= k && i < |pipes| && pipes[i] == PIPE_ERROR
  {
    hide Stages, Signs, RedirectSpelling, RedirectList, PipesOf;
    forall i | 0 <= i < |Stages(r)|
      ensures var pipes := PipesOf(Signs(RedirectSpelling(r)));
        && (Piped(Stages(r)[i]).Some? <==> i < |pipes|)
        && (i < |pipes| ==> PipedBy(Stages(r)[i]) == pipes[i])
    {
      PipesAreInTheText(r, i);
    }
    PipesAreInTheText(r, k);
  }
}
