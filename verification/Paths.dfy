/** The shell's working directory as a string: `cd` and the removal of `..`. Strings are shorter than their buffers. */
module Paths {
  const PARENT := ".."

  /* ---- strtok on "/" ---- */

  /** The length of the word a string starts with. */
  function WordLength(s: string): (n: nat)
    ensures n <= |s| && (n < |s| ==> s[n] == '/')
    ensures forall i | 0 <= i < n :: s[i] != '/'
  {
    if s == "" || s[0] == '/' then 0 else 1 + WordLength(s[1..])
  }

  /** The nonempty words between slashes. */
  function Tokens(s: string): seq<string>
    decreases |s|
  {
    if s == "" then []
    else if s[0] == '/' then Tokens(s[1..])
    else [s[..WordLength(s)]] + Tokens(s[WordLength(s)..])
  }

  /** A path component. */
  predicate IsWord(w: string) { w != "" && forall i | 0 <= i < |w| :: w[i] != '/' }

  predicate AreWords(ws: seq<string>) { forall i | 0 <= i < |ws| :: IsWord(ws[i]) }

  lemma {:induction false} TokensAreWords(s: string)
    ensures AreWords(Tokens(s))
    decreases |s|
  {
    if s != "" {
      if s[0] == '/' {
        TokensAreWords(s[1..]);
      } else {
        TokensAreWords(s[WordLength(s)..]);
      }
    }
  }

  lemma WordLengthIs(s: string, n: nat)
    requires n <= |s| && (n < |s| ==> s[n] == '/') && forall i | 0 <= i < n :: s[i] != '/'
    ensures WordLength(s) == n
  {
  }

  predicate EndsInSlash(s: string) { s != "" && s[|s| - 1] == '/' }

  /** Behind a slash the tokens start afresh. */
  lemma {:induction false} TokensOfSum(a: string, b: string)
    requires a == "" || EndsInSlash(a)
    ensures Tokens(a + b) == Tokens(a) + Tokens(b)
    decreases |a|
  {
    hide Tokens, WordLength;
    NoTokens([]);
    if a == "" {
      assert a + b == b;
    } else if a[0] == '/' {
      assert (a + b)[1..] == a[1..] + b;
      TokensStep(a);
      TokensStep(a + b);
      TokensOfSum(a[1..], b);
    } else {
      var n := WordLength(a);
      WordLengthIs(a + b, n);
      assert (a + b)[..n] == a[..n] && (a + b)[n..] == a[n..] + b;
      TokensStep(a);
      TokensStep(a + b);
      TokensOfSum(a[n..], b);
    }
  }

  /* ---- resolving ---- */

  /**
   The counter of `FixDirPath` is never below zero when a component is stored. It may end below zero:
   nothing but further `..` may follow then.
   */
  predicate Safe(counter: int, tokens: seq<string>)
    decreases |tokens|
  {
    tokens != [] ==>
      if tokens[0] == PARENT then Safe(counter - 1, tokens[1..])
      else counter >= 0 && Safe(counter + 1, tokens[1..])
  }

  function Pop(stack: seq<string>): seq<string> { if stack == [] then [] else stack[..|stack| - 1] }

  /** Components and `..` from left to right; at the root `..` stays there. */
  function Resolve(stack: seq<string>, tokens: seq<string>): seq<string>
    decreases |tokens|
  {
    if tokens == [] then stack
    else if tokens[0] == PARENT then Resolve(Pop(stack), tokens[1..])
    else Resolve(stack + [tokens[0]], tokens[1..])
  }

  lemma {:induction false} ResolveSum(stack: seq<string>, x: seq<string>, y: seq<string>)
    ensures Resolve(stack, x + y) == Resolve(Resolve(stack, x), y)
    decreases |x|
  {
    if x == [] {
      assert x + y == y;
    } else {
      assert (x + y)[1..] == x[1..] + y;
      ResolveSum(if x[0] == PARENT then Pop(stack) else stack + [x[0]], x[1..], y);
    }
  }

  lemma {:induction false} SafeSum(ws: seq<string>, y: seq<string>, counter: nat)
    requires Plain(ws) && Safe(counter + |ws|, y)
    ensures Safe(counter, ws + y)
    decreases |ws|
  {
    if ws == [] {
      assert ws + y == y;
    } else {
      assert (ws + y)[1..] == ws[1..] + y;
      SafeSum(ws[1..], y, counter + 1);
    }
  }

  /** A plain path: no `..` among its components. */
  predicate Plain(ws: seq<string>) { AreWords(ws) && PARENT !in ws }

  lemma {:induction false} ResolvePlain(stack: seq<string>, ws: seq<string>)
    requires Plain(ws)
    ensures Resolve(stack, ws) == stack + ws
    decreases |ws|
  {
    if ws != [] {
      ResolvePlain(stack + [ws[0]], ws[1..]);
      assert stack + [ws[0]] + ws[1..] == stack + ws;
    }
  }

  lemma {:induction false} ResolvedIsPlain(stack: seq<string>, tokens: seq<string>)
    requires Plain(stack) && AreWords(tokens)
    ensures Plain(Resolve(stack, tokens))
    decreases |tokens|
  {
    if tokens != [] {
      if tokens[0] == PARENT {
        ResolvedIsPlain(Pop(stack), tokens[1..]);
      } else {
        ResolvedIsPlain(stack + [tokens[0]], tokens[1..]);
      }
    }
  }

  /** Each component with a slash behind it. */
  function Spelled(ws: seq<string>): string {
    if ws == [] then "" else Spelled(ws[..|ws| - 1]) + (ws[|ws| - 1] + "/")
  }

  function Absolute(ws: seq<string>): string { "/" + Spelled(ws) }

  lemma TokensOfWord(w: string)
    requires IsWord(w)
    ensures Tokens(w + "/") == [w]
  {
    WordLengthIs(w + "/", |w|);
    assert (w + "/")[..|w|] == w && (w + "/")[|w|..] == "/";
    assert Tokens("/") == [] by { assert "/"[1..] == ""; }
  }

  lemma SlashEnds(a: string, b: string)
    ensures EndsInSlash(a + (b + "/"))
  {
  }

  lemma {:induction false} TokensOfSpelled(ws: seq<string>)
    requires AreWords(ws)
    ensures Tokens(Spelled(ws)) == ws
    ensures Spelled(ws) == "" || EndsInSlash(Spelled(ws))
  {
    hide Tokens, EndsInSlash, IsWord;
    if ws == [] {
      NoTokens([]);
    } else {
      var front, last := ws[..|ws| - 1], ws[|ws| - 1];
      SlashEnds(Spelled(front), last);
      assert front + [last] == ws;
      TokensOfSpelled(front);
      TokensOfSum(Spelled(front), last + "/");
      TokensOfWord(last);
    }
  }

  /** The path that `FixDirPath` makes of a path. */
  function Normal(path: string): string {
    Absolute(Resolve([], Tokens(path)))
  }

  lemma TokensOfAbsolute(ws: seq<string>)
    requires AreWords(ws)
    ensures Tokens(Absolute(ws)) == ws && EndsInSlash(Absolute(ws))
  {
    TokensOfSpelled(ws);
    assert Absolute(ws)[1..] == Spelled(ws);
  }

  /** A normalised path is absolute, ends in a slash, has no `..`, and normalising it again changes nothing. */
  lemma NormalIsNormal(path: string)
    ensures var n := Normal(path);
      n[0] == '/' && EndsInSlash(n) && PARENT !in Tokens(n) && Normal(n) == n
  {
    TokensAreWords(path);
    var ws := Resolve([], Tokens(path));
    ResolvedIsPlain([], Tokens(path));
    TokensOfAbsolute(ws);
    ResolvePlain([], ws);
    assert [] + ws == ws;
  }

  /** A relative path as `cd` completes it. */
  function Slashed(arg: string): string { if EndsInSlash(arg) then arg else arg + "/" }

  /** Normalising early or late makes no difference. */
  lemma NormalAbsorbs(path: string, more: string)
    requires EndsInSlash(path)
    ensures Normal(Normal(path) + more) == Normal(path + more)
  {
    TokensOfSum(path, more);
    ResolveSum([], Tokens(path), Tokens(more));
    TokensAreWords(path);
    ResolvedIsPlain([], Tokens(path));
    var ws := Resolve([], Tokens(path));
    TokensOfAbsolute(ws);
    TokensOfSum(Normal(path), more);
    ResolvePlain([], ws);
    ResolveSum([], ws, Tokens(more));
    assert [] + ws == ws;
  }

  lemma PoppedLast(stack: seq<string>, w: string)
    requires w != PARENT
    ensures Resolve(stack, [w, PARENT]) == stack
  {
    var more := stack + [w];
    assert [w, PARENT][1..] == [PARENT] && [PARENT][1..] == [];
    assert Pop(more) == more[..|stack|] == stack;
    assert Resolve(more, [PARENT]) == Resolve(Pop(more), []) == stack;
  }

  /** A component and the `..` behind it cancel, wherever they stand. */
  lemma ParentCancels(path: string, w: string, more: string)
    requires EndsInSlash(path) && IsWord(w) && w != PARENT
    ensures Normal(path + w + "/../" + more) == Normal(path + more)
  {
    ParentIsWord();
    hide Tokens, Resolve, IsWord;
    var a, b := Tokens(path), Tokens(more);
    var wp := (w + "/") + (PARENT + "/");
    assert path + w + "/../" + more == path + (wp + more);
    TokensOfSum(path, wp + more);
    SlashEnds(w + "/", PARENT);
    TokensOfSum(wp, more);
    SlashEnds("", w);
    assert "" + (w + "/") == w + "/";
    TokensOfSum(w + "/", PARENT + "/");
    TokensOfWord(w);
    TokensOfWord(PARENT);
    assert [w] + [PARENT] == [w, PARENT];
    TokensOfSum(path, more);
    ResolveSum([], a, [w, PARENT] + b);
    ResolveSum(Resolve([], a), [w, PARENT], b);
    PoppedLast(Resolve([], a), w);
    ResolveSum([], a, b);
  }

  lemma ParentIsWord()
    ensures IsWord(PARENT)
  {
  }

  /** At the root `..` stays there. */
  lemma RootIsItsParent(more: string)
    ensures Normal("/../" + more) == Normal("/" + more) && Normal("/..") == "/" && Normal("/") == "/"
  {
    hide Tokens, Resolve, Spelled;
    RootTokens();
    ParentOfRoot();
    TokensOfSum("/../", more);
    TokensOfSum("/", more);
    assert [] + Tokens(more) == Tokens(more);
    ResolveSum([], [PARENT], Tokens(more));
  }

  lemma RootTokens()
    ensures Tokens("/") == [] && Tokens("/..") == [PARENT] && Tokens("/../") == [PARENT] && EndsInSlash("/../")
  {
    ParentIsWord();
    NoTokens([]);
    TokensOfWord(PARENT);
    TokensStep("/");
    hide Tokens, IsWord;
    assert "/" + (PARENT + "/") == "/../" && "/.." + "/" == "/../";
    TokensOfSum("/", PARENT + "/");
    TokensOfSlashed("/..");
    assert [] + [PARENT] == [PARENT];
  }

  lemma ParentOfRoot()
    ensures Resolve([], [PARENT]) == [] && Resolve([], []) == [] && Absolute([]) == "/"
  {
    assert [PARENT][1..] == [];
  }

  /** Without `..` a path keeps its components, in order. */
  lemma PlainPathKeeps(path: string)
    requires PARENT !in Tokens(path)
    ensures Tokens(Normal(path)) == Tokens(path)
  {
    TokensAreWords(path);
    ResolvePlain([], Tokens(path));
    assert [] + Tokens(path) == Tokens(path);
    TokensOfAbsolute(Tokens(path));
  }

  /** The arguments of successive relative `cd`s as one path. */
  function Concatenated(args: seq<string>): string {
    if args == [] then "" else Concatenated(args[..|args| - 1]) + Slashed(args[|args| - 1])
  }

  class Shell {
    var currDirectory: string
    var homeDirectory: string

    constructor (curr: string, home: string)
      ensures currDirectory == curr && homeDirectory == home
    {
      currDirectory, homeDirectory := curr, home;
    }

    /** `FixDirPath`: an array of components and a counter. */
    method FixDirPath()
      requires Safe(0, Tokens(currDirectory))
      modifies `currDirectory
      ensures currDirectory == Normal(old(currDirectory))
    {
      hide Tokens, Resolve, Safe, Spelled;
      ghost var path := currDirectory;
      var rest := currDirectory;
      var tokens := new string[|currDirectory|];
      var counter: int := 0;
      LengthOfTokens(rest);
      while rest != ""
        invariant counter + |Tokens(rest)| <= tokens.Length && Safe(counter, Tokens(rest))
        invariant currDirectory == path
          && Resolve(Stack(tokens[..], counter), Tokens(rest)) == Resolve([], Tokens(path))
        decreases |rest|
      {
        TokensStep(rest);
        ResolveStep(Stack(tokens[..], counter), Tokens(rest), counter);
        if rest[0] == '/' {
          rest := rest[1..];
        } else {
          var n := WordLength(rest);
          var token := rest[..n];
          if token == PARENT {
            assert Stack(tokens[..], counter - 1) == Pop(Stack(tokens[..], counter));
            counter := counter - 1;
          } else {
            ghost var before := Stack(tokens[..], counter);
            tokens[counter] := token;
            counter := counter + 1;
            assert Stack(tokens[..], counter) == before + [token];
          }
          rest := rest[n..];
        }
      }
      ghost var stack := Stack(tokens[..], counter);
      NoTokens(stack);
      SpelledStep([], 0);
      currDirectory := "/";
      var i := 0;
      while i < counter
        invariant 0 <= i <= |stack| && counter <= tokens.Length && Stack(tokens[..], counter) == stack
        invariant currDirectory == Absolute(stack[..i])
      {
        SpelledStep(stack, i);
        currDirectory := currDirectory + tokens[i] + "/";
        i := i + 1;
      }
      assert stack[..i] == stack;
    }

    /** The path `chdir` is called with: absolute, or relative and completed. */
    method Completed(arg: string, stray: char) returns (filePath: string)
      ensures Tokens(filePath) == Tokens(Target(currDirectory, arg))
    {
      hide Tokens;
      filePath := arg;
      if filePath == "" || filePath[0] != '/' {
        var updatePath := filePath;
        var last := if updatePath == "" then stray else updatePath[|updatePath| - 1];
        if last != '/' {
          updatePath := updatePath + "/";
        }
        filePath := currDirectory + updatePath;
        TokensOfSlashed(currDirectory);
        assert "" + "/" == "/" && currDirectory + "" == currDirectory;
      }
    }

    /**
     `func_cd` with its operands and the answer of `chdir`. For an empty operand the source tests the character in
     front of its buffer: `stray`, which may be any.
     */
    method Cd(operands: seq<string>, stray: char, chdir: bool) returns (ok: bool)
      requires |operands| == 1 ==> Safe(0, Tokens(Target(currDirectory, operands[0])))
      modifies `currDirectory
      ensures ok == (|operands| == 0 || (|operands| == 1 && chdir))
      ensures |operands| == 0 ==> currDirectory == homeDirectory
      ensures |operands| == 1 && chdir ==> currDirectory == Normal(Target(old(currDirectory), operands[0]))
      ensures |operands| == 1 && chdir && "/" <= operands[0] ==> currDirectory == Normal(operands[0])
      ensures |operands| == 1 && chdir && !("/" <= operands[0]) ==>
        currDirectory == Normal(old(currDirectory) + operands[0])
      ensures !ok ==> currDirectory == old(currDirectory)
    {
      if |operands| == 0 {
        currDirectory := homeDirectory;
        return true;
      }
      if |operands| > 1 {
        return false;
      }
      TargetIs(currDirectory, operands[0]);
      hide Tokens, Target, Resolve, Safe;
      var filePath := Completed(operands[0], stray);
      if chdir {
        currDirectory := filePath;
        FixDirPath();
      }
      ok := chdir;
    }

    /** Into a directory and back. */
    method CdAndBack(w: string, stray: char)
      requires EndsInSlash(currDirectory) && Normal(currDirectory) == currDirectory && IsWord(w) && w != PARENT
      modifies `currDirectory
      ensures currDirectory == old(currDirectory)
    {
      ghost var start := currDirectory;
      StepsAreSafe(start, w);
      hide Normal, Tokens, Safe, Resolve, IsWord;
      var there := Cd([w], stray, true);
      assert currDirectory == Normal(start + w);
      var back := Cd([PARENT], stray, true);
      BackIsStart(start, w);
    }

    /** A run of relative `cd`s ends where one `cd` through all of them would. */
    method CdThrough(args: seq<string>, strays: seq<char>)
      requires EndsInSlash(currDirectory) && Normal(currDirectory) == currDirectory
      requires |strays| == |args| && forall i | 0 <= i < |args| :: args[i] == "" || args[i][0] != '/'
      requires SafeSteps(currDirectory, args)
      modifies `currDirectory
      ensures currDirectory == Normal(old(currDirectory) + Concatenated(args))
    {
      hide Normal, Tokens, Safe, Concatenated, Resolve;
      ghost var start := currDirectory;
      ConcatenatedNone(args);
      assert start + "" == start;
      for n := 0 to |args|
        invariant currDirectory == Normal(start + Concatenated(args[..n]))
      {
        ConcatenatedStep(start, args, n);
        NormalAbsorbs(start + Concatenated(args[..n]), Slashed(args[n]));
        SafeFromNormal(start + Concatenated(args[..n]), Slashed(args[n]));
        var ok := Cd([args[n]], strays[n], true);
      }
      assert args[..|args|] == args;
    }
  }

  /** The components stored so far: none when the counter is below zero. */
  function Stack(tokens: seq<string>, counter: int): seq<string>
    requires counter <= |tokens|
  {
    if counter < 0 then [] else tokens[..counter]
  }

  /** No `cd` of the run goes above the root and down again. */
  predicate SafeSteps(start: string, args: seq<string>) {
    forall n | 0 <= n < |args| :: Safe(|Resolve([], Tokens(start + Concatenated(args[..n])))|, Tokens(Slashed(args[n])))
  }

  /** From a normal directory of so many components the operand is safe, so the whole target is. */
  lemma SafeFromNormal(path: string, more: string)
    requires Safe(|Resolve([], Tokens(path))|, Tokens(more))
    ensures Safe(0, Tokens(Normal(path) + more))
  {
    var ws := Resolve([], Tokens(path));
    TokensAreWords(path);
    ResolvedIsPlain([], Tokens(path));
    TokensOfAbsolute(ws);
    TokensOfSum(Normal(path), more);
    SafeSum(ws, Tokens(more), 0);
  }

  lemma TargetIs(curr: string, arg: string)
    ensures "/" <= arg ==> Target(curr, arg) == arg
    ensures !("/" <= arg) ==> Normal(Target(curr, arg)) == Normal(curr + arg)
  {
    if !("/" <= arg) {
      assert arg == "" || arg[0] != '/';
      assert curr + (arg + "/") == (curr + arg) + "/";
      TokensOfSlashed(curr + arg);
    }
  }

  /** One component after a path is safe. */
  lemma OneStepIsSafe(path: string, w: string)
    requires IsWord(w)
    ensures Safe(0, Tokens(Normal(path) + (w + "/")))
  {
    TokensOfWord(w);
    assert [w][1..] == [];
    hide Normal, Tokens, Resolve, IsWord;
    SafeFromNormal(path, w + "/");
  }

  lemma RelativeTarget(curr: string, w: string)
    requires IsWord(w)
    ensures Target(curr, w) == curr + (w + "/")
  {
  }

  lemma StepsAreSafe(start: string, w: string)
    requires Normal(start) == start && IsWord(w)
    ensures Safe(0, Tokens(Target(start, w)))
    ensures Safe(0, Tokens(Target(Normal(start + w), PARENT)))
  {
    ParentIsWord();
    hide Normal, Tokens, Safe, IsWord, Target;
    RelativeTarget(start, w);
    OneStepIsSafe(start, w);
    RelativeTarget(Normal(start + w), PARENT);
    OneStepIsSafe(start + w, PARENT);
  }

  lemma SlashedSame(path: string)
    ensures Normal(path + "/") == Normal(path)
  {
    TokensOfSlashed(path);
  }

  lemma BackSpelled(start: string, w: string)
    ensures (start + w) + "/" == start + (w + "/")
    ensures ((start + (w + "/")) + PARENT) + "/" == start + w + "/../" + ""
  {
  }

  lemma BackIsStart(start: string, w: string)
    requires EndsInSlash(start) && Normal(start) == start && IsWord(w) && w != PARENT
    ensures Normal(Normal(start + w) + PARENT) == start
  {
    hide IsWord, Normal;
    var there := start + (w + "/");
    SlashEnds(start, w);
    hide EndsInSlash;
    BackSpelled(start, w);
    SlashedSame(start + w);
    NormalAbsorbs(there, PARENT);
    SlashedSame(there + PARENT);
    ParentCancels(start, w, "");
    assert start + "" == start;
  }

  /** The path `cd` asks for. */
  function Target(curr: string, arg: string): string {
    if arg != "" && arg[0] == '/' then arg else curr + Slashed(arg)
  }

  /** A slash at the end makes no component. */
  lemma {:induction false} TokensOfSlashed(s: string)
    ensures Tokens(s + "/") == Tokens(s)
    decreases |s|
  {
    hide Tokens, WordLength;
    NoTokens([]);
    TokensStep(s + "/");
    if s == "" {
      assert s + "/" == "/" && "/"[1..] == "";
    } else {
      TokensStep(s);
      if s[0] == '/' {
        assert (s + "/")[1..] == s[1..] + "/";
        TokensOfSlashed(s[1..]);
      } else {
        var n := WordLength(s);
        WordLengthIs(s + "/", n);
        assert (s + "/")[..n] == s[..n] && (s + "/")[n..] == s[n..] + "/";
        TokensOfSlashed(s[n..]);
      }
    }
  }

  lemma TokensOfFirst(w: string, rest: string)
    requires IsWord(w) && (rest == "" || rest[0] == '/')
    ensures Tokens(w + rest) == [w] + Tokens(rest)
  {
    WordLengthIs(w + rest, |w|);
    assert (w + rest)[..|w|] == w && (w + rest)[|w|..] == rest;
    TokensStep(w + rest);
  }

  /** The excluded paths are real: a path may end above the root, but no component may follow there. */
  lemma AboveTheRoot()
    ensures Safe(0, Tokens("/..")) && !Safe(0, Tokens("/../a"))
  {
    hide Tokens, IsWord;
    assert IsWord("..") && IsWord("a") by { WordsAre(); }
    NoTokens([]);
    TokensOfFirst("..", "");
    TokensOfFirst("..", "/a");
    TokensOfFirst("a", "");
    TokensStep("/..");
    TokensStep("/../a");
    TokensStep("/a");
    assert "/.."[1..] == ".." + "" && "/../a"[1..] == ".." + "/a" && "/a"[1..] == "a" + "";
    assert Tokens("/..") == [".."] && Tokens("/../a") == [".."] + ["a"];
  }

  lemma WordsAre()
    ensures IsWord("..") && IsWord("a")
  {
  }

  lemma {:induction false} LengthOfTokens(s: string)
    ensures |Tokens(s)| <= |s|
    decreases |s|
  {
    if s != "" {
      if s[0] == '/' {
        LengthOfTokens(s[1..]);
      } else {
        LengthOfTokens(s[WordLength(s)..]);
      }
    }
  }

  lemma TokensStep(s: string)
    requires s != ""
    ensures s[0] == '/' ==> Tokens(s) == Tokens(s[1..])
    ensures s[0] != '/' ==> Tokens(s) == [s[..WordLength(s)]] + Tokens(s[WordLength(s)..]) && WordLength(s) > 0
  {
  }

  lemma ResolveStep(stack: seq<string>, tokens: seq<string>, counter: int)
    requires Safe(counter, tokens)
    ensures tokens != [] ==>
      if tokens[0] == PARENT then
        Safe(counter - 1, tokens[1..]) && Resolve(stack, tokens) == Resolve(Pop(stack), tokens[1..])
      else
        && counter >= 0 && Safe(counter + 1, tokens[1..])
        && Resolve(stack, tokens) == Resolve(stack + [tokens[0]], tokens[1..])
  {
  }

  lemma NoTokens(stack: seq<string>)
    ensures Tokens("") == [] && Resolve(stack, []) == stack
  {
  }

  lemma SpelledStep(stack: seq<string>, i: nat)
    ensures Spelled([]) == ""
    ensures i < |stack| ==> Absolute(stack[..i + 1]) == Absolute(stack[..i]) + stack[i] + "/"
  {
    if i < |stack| {
      assert stack[..i + 1][..i] == stack[..i] && stack[..i + 1][i] == stack[i];
      assert Spelled(stack[..i + 1]) == Spelled(stack[..i]) + (stack[i] + "/");
      hide Spelled;
      Reassociated(Spelled(stack[..i]), stack[i]);
    }
  }

  lemma Reassociated(a: string, b: string)
    ensures "/" + (a + (b + "/")) == ("/" + a) + b + "/"
  {
  }

  lemma ConcatenatedNone(args: seq<string>)
    ensures Concatenated(args[..0]) == ""
  {
  }

  lemma ConcatenatedStep(start: string, args: seq<string>, n: nat)
    requires EndsInSlash(start) && n < |args|
    ensures start + Concatenated(args[..n + 1]) == start + Concatenated(args[..n]) + Slashed(args[n])
    ensures EndsInSlash(start + Concatenated(args[..n]))
  {
    hide EndsInSlash, Slashed;
    assert args[..n + 1][..n] == args[..n] && args[..n + 1][n] == args[n];
    assert Concatenated(args[..n + 1]) == Concatenated(args[..n]) + Slashed(args[n]);
    EndsWell(start, args[..n]);
  }

  lemma EndsWell(start: string, args: seq<string>)
    requires EndsInSlash(start)
    ensures EndsInSlash(start + Concatenated(args))
  {
    hide EndsInSlash, Slashed;
    if args != [] {
      SlashedEnds(start, Concatenated(args[..|args| - 1]), args[|args| - 1]);
    } else {
      assert start + "" == start;
    }
  }

  lemma SlashedEnds(start: string, front: string, arg: string)
    ensures EndsInSlash(start + (front + Slashed(arg)))
  {
  }
}
