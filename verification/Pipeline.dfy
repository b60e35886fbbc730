/** The stages of a pipeline: the ambiguity check, and the plumbing between the forks of the launch loop. */
module Pipeline {
  import opened Syntax

  /* ---- stages ---- */

  /** The command behind the first pipe of a redirect list. */
  function Piped(r: Redirects): Commands {
    match r
    case NoRedirect => NoCommand
    case File(_, _, next) => Piped(next)
    case Pipe(_, c, _) => Some(c)
  }

  /** The kind of that pipe. */
  function PipedBy(r: Redirects): Kind {
    match r
    case NoRedirect => PIPE
    case File(_, _, next) => PipedBy(next)
    case Pipe(kind, _, _) => kind
  }

  /** The file redirects before the first pipe. */
  function FilesOf(r: Redirects): seq<Kind> {
    match r
    case File(kind, _, next) => [kind] + FilesOf(next)
    case _ => []
  }

  lemma PipedIsSmaller(r: Redirects)
    ensures Piped(r).Some? ==> Piped(r).command < r
  {
  }

  /** The redirect lists of the stages that follow a list. */
  function Stages(r: Redirects): (s: seq<Redirects>)
    ensures s != [] && s[0] == r
    decreases r
  {
    PipedIsSmaller(r);
    match Piped(r)
    case NoCommand => [r]
    case Some(c) => [r] + Stages(c.redirects)
  }

  /** `NextPipelineCommand`. */
  method NextPipelineCommand(pc: Command) returns (next: Commands)
    ensures next == Piped(pc.redirects)
  {
    var redir := pc.redirects;
    while !redir.NoRedirect?
      invariant Piped(redir) == Piped(pc.redirects)
      decreases redir
    {
      match redir
      case Pipe(_, command, _) => return Some(command);
      case File(_, _, rest) => redir := rest;
    }
    next := NoCommand;
  }

  /* ---- ambiguity ---- */

  predicate IsIn(k: Kind) { k.REDIRECT_IN? || k.REDIRECT_ERROR? }

  predicate HasIn(files: seq<Kind>) { exists k :: k in files && IsIn(k) }

  predicate HasOut(files: seq<Kind>) { exists k :: k in files && !IsIn(k) }

  /** A stage that is not the last sends its output to a file, or one that is not the first takes its input from one. */
  predicate Ambiguous(stages: seq<Redirects>) {
    || (exists i :: 0 <= i < |stages| - 1 && HasOut(FilesOf(stages[i])))
    || (exists i :: 1 <= i < |stages| && HasIn(FilesOf(stages[i])))
  }

  /** The walk from the middle: the flags as they stand, and the list still to look at. */
  predicate Clear(r: Redirects, isPipe: bool, isRedirOut: bool) {
    && !Ambiguous(Stages(r))
    && (isPipe ==> !HasIn(FilesOf(r)))
    && (isRedirOut ==> |Stages(r)| == 1)
  }

  lemma ClearFile(r: Redirects, isPipe: bool, isRedirOut: bool)
    requires r.File?
    ensures Clear(r, isPipe, isRedirOut) ==
      if IsIn(r.kind) then !isPipe && Clear(r.next, isPipe, isRedirOut) else Clear(r.next, isPipe, true)
    ensures |Stages(r)| == |Stages(r.next)|
  {
    hide HasIn, HasOut, Ambiguous;
    var s, t := Stages(r), Stages(r.next);
    assert Piped(r) == Piped(r.next);
    assert FilesOf(r) == [r.kind] + FilesOf(r.next);
    assert |s| == |t| && forall i | 1 <= i < |s| :: s[i] == t[i];
    HasMore(r.kind, FilesOf(r.next));
    Heads(s);
    Heads(t);
    assert s[1..] == t[1..];
  }

  lemma HasMore(k: Kind, files: seq<Kind>)
    ensures HasIn([k] + files) == (IsIn(k) || HasIn(files))
    ensures HasOut([k] + files) == (!IsIn(k) || HasOut(files))
  {
    assert k in [k] + files;
    assert forall f | f in files :: f in [k] + files;
  }

  /** No stage takes its input from a file; none but the last sends its output to one. */
  predicate CleanIn(s: seq<Redirects>) { forall i | 0 <= i < |s| :: !HasIn(FilesOf(s[i])) }

  predicate CleanOut(s: seq<Redirects>) { forall i | 0 <= i < |s| - 1 :: !HasOut(FilesOf(s[i])) }

  lemma Heads(s: seq<Redirects>)
    requires s != []
    ensures !Ambiguous(s) == (CleanIn(s[1..]) && CleanOut(s[1..]) && (|s| > 1 ==> !HasOut(FilesOf(s[0]))))
  {
    hide HasIn, HasOut, FilesOf;
    var t := s[1..];
    if !Ambiguous(s) {
      forall i | 0 <= i < |t| ensures !HasIn(FilesOf(t[i])) {
        assert t[i] == s[i + 1];
      }
      forall i | 0 <= i < |t| - 1 ensures !HasOut(FilesOf(t[i])) {
        assert t[i] == s[i + 1];
      }
    } else if exists i :: 0 <= i < |s| - 1 && HasOut(FilesOf(s[i])) {
      var i :| 0 <= i < |s| - 1 && HasOut(FilesOf(s[i]));
      assert i > 0 ==> t[i - 1] == s[i];
    } else {
      var i :| 1 <= i < |s| && HasIn(FilesOf(s[i]));
      assert t[i - 1] == s[i];
    }
  }

  lemma ClearPipe(r: Redirects, isPipe: bool, isRedirOut: bool)
    requires r.Pipe?
    ensures Clear(r, isPipe, isRedirOut) == (!isRedirOut && Clear(r.command.redirects, true, isRedirOut))
    ensures |Stages(r)| == 1 + |Stages(r.command.redirects)|
  {
    var s, t := Stages(r), Stages(r.command.redirects);
    assert s == [r] + t && s[1..] == t;
    assert FilesOf(r) == [];
    Heads(s);
    Heads(t);
    assert t == [t[0]] + t[1..];
    assert CleanIn(t) == (!HasIn(FilesOf(t[0])) && CleanIn(t[1..])) by { SplitIn(t); }
    assert CleanOut(t) == ((|t| > 1 ==> !HasOut(FilesOf(t[0]))) && CleanOut(t[1..])) by { SplitOut(t); }
  }

  lemma SplitIn(t: seq<Redirects>)
    requires t != []
    ensures CleanIn(t) == (!HasIn(FilesOf(t[0])) && CleanIn(t[1..]))
  {
    hide HasIn, FilesOf;
    assert forall i | 1 <= i < |t| :: t[i] == t[1..][i - 1];
  }

  lemma SplitOut(t: seq<Redirects>)
    requires t != []
    ensures CleanOut(t) == ((|t| > 1 ==> !HasOut(FilesOf(t[0]))) && CleanOut(t[1..]))
  {
    hide HasOut, FilesOf;
    assert forall i | 1 <= i < |t| :: t[i] == t[1..][i - 1];
  }

  /** `CheckPipelineAmbiguity`; the caller starts with the pipe flag off. */
  method CheckPipelineAmbiguity(pc: Command) returns (ok: bool, isPipe: bool)
    ensures ok <==> !Ambiguous(Stages(pc.redirects))
    ensures ok ==> isPipe == (|Stages(pc.redirects)| > 1)
  {
    hide Ambiguous, Stages, HasIn, HasOut, FilesOf;
    var redir := pc.redirects;
    var isRedirOut := false;
    isPipe := false;
    ClearStart(redir);
    while !redir.NoRedirect?
      invariant Clear(redir, isPipe, isRedirOut) == !Ambiguous(Stages(pc.redirects))
      invariant isPipe || |Stages(redir)| > 1 <==> |Stages(pc.redirects)| > 1
      decreases redir
    {
      match redir
      case Pipe(_, command, _) =>
        ClearPipe(redir, isPipe, isRedirOut);
        if isRedirOut {
          return false, isPipe;
        }
        isPipe := true;
        redir := command.redirects;
      case File(kind, _, rest) =>
        ClearFile(redir, isPipe, isRedirOut);
        if kind.REDIRECT_IN? || kind.REDIRECT_ERROR? {
          if isPipe {
            return false, isPipe;
          }
        } else {
          isRedirOut := true;
        }
        redir := rest;
    }
    ClearEnd(isPipe, isRedirOut);
    ok := true;
  }

  lemma ClearStart(r: Redirects)
    ensures Clear(r, false, false) == !Ambiguous(Stages(r))
  {
  }

  lemma ClearEnd(isPipe: bool, isRedirOut: bool)
    ensures Clear(NoRedirect, isPipe, isRedirOut) && |Stages(NoRedirect)| == 1
  {
  }
}
