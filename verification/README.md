# Verification of the shell and the replicated store

A Dafny model of two programs and the proofs of what they promise.

`ish` is a Unix shell in C: a flex scanner, a bison parser with its literal tables, a command tree built and freed by
hand, pipelines, job control over linked lists, and a tracked working directory. The store is a Go state machine on a
replicated log. The model keeps the form of the sources: objects with fields, loops and in-place changes are classes and
methods, proved against functions on values; lemmas then say what those functions mean.

The files, by subject:

- Parser: `Syntax` (tokens and trees), `LalrTables` (the literal tables), `Derivations` (what "derives" means),
  `Driver` (the table driver as a function), `Completeness`, `ParserTheorems`, `Actions` and `Meaning` (what the
  semantic actions build), `Building` (every printable tree has a derivation), `Parser` (`yyparse` with its stacks).
- Scanner: `Scanning` (longest match over any automaton), `Scanner` (`yylex` in a refilled, moved and growing buffer),
  `ShellLexer` and `WordAutomaton` (the rules of lexer.l), `Lexemes` (what the tokens of a text are), `FlexTables` and
  `FlexAutomaton` (the literal tables, and that they are those rules), `Escapes` (`copyEscapedString`), `RoundTrip` (print,
  scan, parse).
- Tree memory: `Bounds` (fresh numbers), `TreeShapes` (what it takes for blocks to be a tree), `TreeHeap` (command.c on a
  heap with `malloc` and `free`), `TreeActions` (the semantic actions on that heap), `Aliasing`.
- Pipelines: `Pipeline` (stages and the ambiguity check), `Plumbing` (descriptors around each fork), `PipelineText` (both
  in terms of the operators in the text).
- Job control: `JobTable` (jobs as values), `Builtins` (what builtins and launches do), `Jobs` (two levels of linked
  lists), `JobRuns` (shell, children and kernel as a transition system), `JobSafety` (what every run keeps), `JobPasses`
  (whole passes, and the two wait loops), `JobHistory` (builtins and launches in runs), `StopReports` (which stops the
  user is told of), `Terminal` (process groups and the terminal under every interleaving).
- `Paths` (`cd` and `..`), `Store` (log, state machine, snapshots), `Membership` (`Join`).

What the outside world decides is a parameter or a step of its own: how the input is cut into reads, what `waitpid`
answers, which pid a fork returns, when children stop and end, which signals and writes succeed, what `chdir` says, when
Raft commits. A stream of tokens that ends without a terminator makes the parser abort, as an end of input in bison does.

Where source and intention differ, the model follows the source and says so:

- Between quotes a backslash is copied, though the word rule lets it escape a quote.
- `createArguments` never copies its argument, because `calloc` leaves the tested slot empty.
- The stderr flag of the launch loop stays set for all stages behind one `|&`.
- A stage's process keeps the read end of its own output pipe open.
- The foreground wait of ish.c tests the job before it records the reply it has read. The runs use the order of
  ish_clean.c. For all tables and replies, `JobPasses.IshForgetsWhenSettled` and `IshForgetsExactly` say exactly when the
  order of ish.c loses a reply, and `IshForgetsAReply` how the tables differ: it also clears `notified`.
- `fg` marks a job notified and leaves it on record as stopped. If the first reply settles the job again, that stop is
  not reported: `StopReports` says exactly when a stop is.
- A job killed from outside while stopped keeps its stop mark and stays listed.
- `..` at the root leaves `FixDirPath` with a negative counter. That is harmless as long as no component follows in the
  same path, and the precondition says exactly that.
- For an empty operand `cd` reads the character in front of its buffer. Whichever it is, the directory stays.

## Model

| member | source | states |
|---|---|---|
| `LalrTables.DecideIs` | ish-Shell/impl/parser.tab.c:503-575 | Looking an action up in the packed tables (`yypact`, `yytable`, `yycheck`, `yydefact`) gives, for every reachable state and token, the shift or the default reduction of the unpacked automaton |
| `LalrTables.GotoIs` | ish-Shell/impl/parser.tab.c:1622-1631 | The packed goto tables give the unpacked goto for every state and nonterminal |
| `LalrTables.TablesMatchGrammar` | ish-Shell/impl/parser.y:60-180 | `yyr1` and `yyr2` give the left-hand sides and the lengths of the right-hand sides of the grammar's 32 rules, as written in parser.y; none is longer than 3 |
| `Driver.StepKeepsInv` | ish-Shell/impl/parser.tab.c:1303-1769 | Every pass of the driver, error recovery included, keeps the stack a path of the automaton whose trees spell the input read, never moves back, and decreases a measure, so a call ends |
| `Driver.EndShape` | ish-Shell/impl/parser.tab.c:1373-1633 | A call can only accept on three stacks and abort on one |
| `Completeness.Drive` | ish-Shell/impl/parser.tab.c:1303-1633 | Where a symbol is expected and a permitted token follows, the tables read exactly the tokens of any derivation of the symbol and push it |
| `ParserTheorems.ConsumesOneLine` | ish-Shell/impl/parser.tab.c:1208-1785 | Every call reads the tokens up to and including the first terminator and no more, on valid and erroneous lines alike |
| `ParserTheorems.AcceptedLineDerives` | ish-Shell/impl/parser.tab.c:1381-1633 | Soundness: a line accepted as commands derives from `cmd_seq` by the derivation the stack holds |
| `ParserTheorems.DerivedLineAccepted` | ish-Shell/impl/parser.tab.c:503-575 | Completeness: a line that derives from `cmd_seq` is accepted, with that very derivation |
| `ParserTheorems.ParseClassifies` | ish-Shell/impl/parser.y:62-85 | Any line is taken for commands, blank or erroneous exactly if it derives from `cmd_seq`, is empty, or neither; an error is counted once |
| `ParserTheorems.Unambiguous` | ish-Shell/impl/parser.y:87-180 | A line has at most one derivation |
| `Parser.ActionIsSem` | ish-Shell/impl/parser.tab.c:1401-1618 | On stack slots that hold their derivations' values, stale slots of operator tokens aside, an action computes the value of the derivation it completes |
| `Parser.Parser.YyLex` | ish-Shell/impl/parser.tab.c:1315-1330 | The next token of the stream in `yychar`, its text in `yylval` for the token kinds that have one, 0 at the end |
| `Parser.Parser.Backup` | ish-Shell/impl/parser.tab.c:1303-1345 | The look-ahead is read only if the state needs it, and the action chosen is the table's |
| `Parser.Parser.ShiftToken` | ish-Shell/impl/parser.tab.c:1347-1365 | A shift empties the look-ahead and pushes the token with its value |
| `Parser.Parser.ReduceBy` | ish-Shell/impl/parser.tab.c:1381-1633 | A reduction replaces the right-hand side on both stacks by the left-hand side and the action's value |
| `Parser.Parser.Recover` | ish-Shell/impl/parser.tab.c:1639-1769 | Error recovery counts a new error once, discards the offending token after the first, pops to a state that takes `error` and shifts it |
| `Parser.Parser.YyParse` | ish-Shell/impl/parser.tab.c:1137-1829 | One imperative call over stacks and look-ahead does what the driver's run does, sets `pcGlobalCommand` to the value of the derivation and `fEndOfFile` by the terminator |
| `Parser.Parser.NextCommand` | ish-Shell/impl/command.c:98-105 | A tree is returned exactly for lines that derive from `cmd_seq`; it is the one a derivation of the line denotes, it spells the line, slot 0 of every command in it, behind every pipe too, holds what stands behind the last slash of its name, and the next call starts right behind the terminator with an empty look-ahead |
| `Actions.ShortNameIs` | ish-Shell/impl/parser.y:101-105 | What is put in slot 0 has no slash, ends the name, and is all of it or preceded in it by a slash |
| `Parser.SpellingParsesBack` | ish-Shell/impl/command.c:69-89 | Parsing the token spelling of any printable tree gives the tree back |
| `Meaning.ActionFits` | ish-Shell/impl/parser.y:87-177 | Every action keeps the shapes: at most one input and one output redirect, then at most one pipe, last in its list; only list commands carry the background flag |
| `Meaning.SemFits` | ish-Shell/impl/parser.y:87-177 | Every derivation denotes a value of its symbol's shape |
| `Meaning.BuildableNamed` | ish-Shell/impl/parser.y:101-105 | So it is in every command of a tree the grammar builds, behind every pipe |
| `Meaning.TreeSpellsLine` | ish-Shell/impl/parser.y:104-177 | Below the command list, what printing walks over is the token sequence of the derivation |
| `Meaning.LineMeansTree` | ish-Shell/impl/parser.y:87-102 | The tree of a line spells the line: the same commands in the same order, `&` exactly where the background flag is set, every word, redirect and pipe in place; only a final `;` leaves no trace |
| `Building.ListDenotes` | ish-Shell/impl/parser.y:87-177 | Every tree of those shapes is denoted by a derivation of its own spelling |
| `Scanning.MatchIsLongest` | ish-Shell/impl/lex.yy.c:792-821 | The position the match and back-up rule finds is accepting, not empty, and no longer prefix is |
| `Scanner.Scanner.constructor` | ish-Shell/impl/lex.yy.c:1463-1485 | A fresh buffer: nothing of the input is read, the whole file is ahead |
| `Scanner.Scanner.YyMatch` | ish-Shell/impl/lex.yy.c:792-810 | The matching loop runs to a stopping state and remembers the last accepting position |
| `Scanner.Scanner.YyGetPreviousState` | ish-Shell/impl/lex.yy.c:1261-1288 | The state recomputed over the moved text is the state of the characters read, with the same back-up position |
| `Scanner.Scanner.EnsureRoom` | ish-Shell/impl/lex.yy.c:1171-1210 | The room is never negative although stored unsigned, the growth loop ends, its fatal branch is dead, and the partial token stays |
| `Scanner.Scanner.YyInput` | ish-Shell/impl/lex.yy.c:1215-1217 | A read delivers any 1 to `max` characters, and none only at the end of the file |
| `Scanner.Scanner.YyGetNextBuffer` | ish-Shell/impl/lex.yy.c:1125-1259 | No character of the stream is lost by moving, growing and refilling; at most size - 1 characters and two end markers stay in size + 2 bytes; the overflow branch is dead |
| `Scanner.Scanner.EndOfBufferAction` | ish-Shell/impl/lex.yy.c:988-1107 | At the end of the buffer the match goes on over a refill, is the last token, or is the end of the file |
| `Scanner.Scanner.MatchOne` | ish-Shell/impl/lex.yy.c:779-1107 | One match over however many refills is the longest match of the whole remaining stream |
| `Scanner.Scanner.YyLex` | ish-Shell/impl/lex.yy.c:757-1116 | Each call returns the next token of the stream and leaves the rest ahead, whatever the buffer size and the reads |
| `Scanner.Scanner.ScanAll` | ish-Shell/impl/lex.yy.c:757-1288 | The token sequence is a function of the characters and the automaton alone |
| `FlexTables.DefaultsEnd` | ish-Shell/impl/lex.yy.c:803-807 | Following `yy_def` ends: an entry not owned leads to a state lower in the order, and the last state owns all its entries |
| `FlexAutomaton.StepStandsFor` | ish-Shell/impl/lex.yy.c:363-502 | In every state in which matching goes on, and on every character, the packed tables step to a state that stands for the one the rules of lexer.l step to |
| `FlexAutomaton.AcceptsAlike` | ish-Shell/impl/lex.yy.c:363-373 | Each of the 77 states accepts the rule that the state it stands for accepts |
| `FlexAutomaton.StopsAlike` | ish-Shell/impl/lex.yy.c:413-423 | Matching stops in a state (`yy_base` is 254) exactly if what it stands for cannot go on |
| `FlexAutomaton.NextState` | ish-Shell/impl/lex.yy.c:803-809 | The inner loop over `yy_chk` and `yy_def` ends at the entry that gives the next state, and that state stands for the automaton's next state |
| `FlexAutomaton.FlexSound` | ish-Shell/impl/lex.yy.c:363-502 | The packed tables have what the scanner loop relies on |
| `FlexAutomaton.TokensAlike` | ish-Shell/impl/lex.yy.c:757-1288 | On every stream and from every start condition the packed tables yield the tokens that the rules of lexer.l define |
| `FlexAutomaton.ScanFile` | ish-Shell/impl/lex.yy.c:757-1288 | `yylex` over its own tables, called to the end of a file of any contents with a buffer of any size, returns the tokens that the rules of lexer.l define, each the longest word or operator where it stands |
| `ShellLexer.AutomatonSound` | ish-Shell/impl/lexer.l:43-145 | The automaton of the token rules with its start conditions meets what the scanner loop relies on |
| `WordAutomaton.RecognisesWords` | ish-Shell/impl/lexer.l:51-76 | A text is accepted by the word rule exactly if it is a word of the definitions: literal characters, escapes, and closed quoted sequences |
| `WordAutomaton.LongestWord` | ish-Shell/impl/lexer.l:58-76 | If some prefix of the stream is a word, the token is the longest prefix that is one |
| `Lexemes.HeadFits` | ish-Shell/impl/lexer.l:43-145 | What is matched at the head of a stream fits its rule: a word of the kind the start condition asks for, an operator spelled as in lexer.l, blanks, or one stray character |
| `Lexemes.HeadIsLongest` | ish-Shell/impl/lexer.l:58-139 | No longer prefix of the stream is a word or an operator |
| `Lexemes.NextTokenStands` | ish-Shell/impl/lexer.l:61-145 | Every call passes over blanks and stray characters only, and returns the longest word or operator that begins there, a word of the kind the start condition asks for, and leaves the start condition of that token's rule; or the end of the file where nothing is left |
| `Lexemes.TokensAreLexed` | ish-Shell/impl/lexer.l:61-145 | The tokens of a whole stream are so, one behind the other, up to the end of the file |
| `Escapes.CopyEscapedString` | ish-Shell/impl/lexer.l:14-39 | The copy loop stays inside both buffers for any terminated input and leaves the unquoted text: however the input is cut into bare characters, escapes and quoted parts, the escapes without their backslash and the parts without their quotes |
| `Escapes.QuotesComeOff` | ish-Shell/impl/lexer.l:23-32 | For either quote: it comes off at both ends, and what is between, other quotes and backslashes too, is kept |
| `Escapes.PiecesComeOff` | ish-Shell/impl/lexer.l:21-36 | A text of bare characters, escapes, quoted parts and a last part left open unquotes piece by piece |
| `Escapes.EveryText` | ish-Shell/impl/lexer.l:21-36 | Every text without a NUL is one of such pieces |
| `Escapes.BackslashInsideQuotes` | ish-Shell/impl/lexer.l:28-30 | A backslash before a quote between quotes counts for the word rule and not for the copy: `"a\"b"` is one word, copied as `a\b` |
| `Escapes.UnquoteUndoesEscape` | ish-Shell/impl/lexer.l:28-36 | Unquoting undoes a backslash before every character of any text |
| `Escapes.EscapedIsWord` | ish-Shell/impl/lexer.l:54-58 | A text so escaped is one word, for characters that may follow a backslash |
| `RoundTrip.CommandText` | ish-Shell/impl/command.c:69-89 | The printer writes the texts of the tree's spelling, each followed by a blank |
| `RoundTrip.LineScansBack` | ish-Shell/impl/lexer.l:61-139 | A printed line is scanned back to its tokens, through all start conditions |
| `RoundTrip.PrintedTextParsesBack` | ish-Shell/impl/command.c:167-211 | Printing, then scanning, then parsing gives back every tree of non-empty literal words, at any depth of pipes and length of list |
| `TreeHeap.Heap.Malloc` | ish-Shell/impl/command.c:21-24 | An address in use is never given out |
| `TreeHeap.Heap.Free` | ish-Shell/impl/command.c:39-41 | Only a block that was given out can be freed, and then it is gone |
| `TreeHeap.Heap.CreateArguments` | ish-Shell/impl/command.c:221-239 | A vector of one empty slot, NULL-terminated within capacity |
| `TreeHeap.Heap.SetArgument` | ish-Shell/impl/command.c:241-250 | The slot's old string is freed, its new one owned; all else stays |
| `TreeHeap.Heap.Grow` | ish-Shell/impl/command.c:264-269 | Doubling keeps contents and termination and makes room, where `realloc` gives the `nMaxArgs` + 1 slots that are meant and not the bytes that are asked for |
| `TreeHeap.Heap.AppendArgument` | ish-Shell/impl/command.c:260-272 | One more argument at the end; the vector stays NULL-terminated within the `nMaxArgs` + 1 slots that are meant, through doubling |
| `TreeHeap.Heap.CreateCommand` | ish-Shell/impl/command.c:17-31 | A command that owns a copy of the name, and the arguments, redirects and further commands it is given; with the flag it is given |
| `TreeHeap.Heap.CreateFileRedirect` | ish-Shell/impl/command.c:107-131 | A redirect that owns a copy of its file name, in front of the redirects it is given |
| `TreeHeap.Heap.CreatePipeRedirect` | ish-Shell/impl/command.c:107-131 | A redirect that owns the command it pipes into, in front of the redirects it is given |
| `TreeHeap.Heap.AppendCommand` | ish-Shell/impl/command.c:60-67 | The link set behind the loop joins the lists: the tree is the appended one and nothing is shared |
| `TreeHeap.Heap.AppendRedirect` | ish-Shell/impl/command.c:133-139 | The same for redirects |
| `TreeHeap.Heap.DestroyArguments` | ish-Shell/impl/command.c:284-295 | Exactly the vector's blocks are freed, each once |
| `TreeHeap.Heap.DestroyCommand` | ish-Shell/impl/command.c:33-58 | Exactly the tree's blocks are freed, each once |
| `TreeHeap.Heap.DestroyRedirect` | ish-Shell/impl/command.c:141-165 | Exactly the redirect list's blocks are freed, each once |
| `TreeShapes.CAppended` | ish-Shell/impl/command.c:60-67 | A list with its last node relinked represents the appended list |
| `TreeActions.MakeCommand` | ish-Shell/impl/parser.y:104-112 | The action of a command: in slot 0 a suffix of the name without a slash, the whole name or what a slash precedes; the name copied, the token's string freed |
| `TreeActions.AddParameter` | ish-Shell/impl/parser.y:167-173 | The action of a parameter: copied, and the token's string freed |
| `TreeActions.SetBackground` | ish-Shell/impl/parser.y:89-98 | The background flag is set in place exactly for `&` |
| `TreeActions.Reduce` | ish-Shell/impl/parser.y:87-180 | Each action on the heap gives the value of the action on trees, consumes what its operands own and keeps the result unshared |
| `TreeActions.Build` | ish-Shell/impl/parser.y:87-180 | A whole parse builds in memory the tree its derivation denotes, and owns all it allocated |
| `Aliasing.FuncAliasing` | ish-Shell/impl/ish.c:296-308 | The name of a command is replaced by what the first entry for it says, its old string freed |
| `Aliasing.FirstEntryDecides` | ish-Shell/impl/ish.c:296-308 | A name with entries becomes what its first entry says, any other name stays |
| `Aliasing.ExpandedAre` | ish-Shell/impl/ish.c:1420-1450 | Command by command: the first `n` are renamed so and otherwise as they were, and the list goes on unchanged behind them |
| `Aliasing.AliasAll` | ish-Shell/impl/ish.c:1420-1450 | Along a list every name, up to and including that of the first command that quits, becomes what the first entry for it says, if there is one; nothing else changes |
| `Aliasing.LineLife` | ish-Shell/impl/command.c:33-58 | Parsed, aliased as far as it is executed, and destroyed, a line leaves the heap as it was: every block is freed once |
| `Pipeline.NextPipelineCommand` | ish-Shell/impl/ish.c:787-799 | The command behind the first pipe of the redirect list |
| `Pipeline.CheckPipelineAmbiguity` | ish-Shell/impl/ish.c:801-836 | The check fails exactly if a stage other than the last has an output redirect or a stage other than the first has `<` or `>&`; on success its flag says whether there is more than one stage |
| `Pipeline.ClearPipe` | ish-Shell/impl/ish.c:806-817 | The flags carried into the next stage decide the rest of the walk as the whole list would |
| `PipelineText.AmbiguityIsInTheText` | ish-Shell/impl/ish.c:801-836 | A pipeline the grammar builds is ambiguous exactly if in its text a `>`, `>>` or `>>&` stands before a pipe, or a `<` or `>&` behind one |
| `PipelineText.PipesAreInTheText` | ish-Shell/impl/ish.c:787-799 | It has one stage more than pipe operators, and stage `k` is joined to the next by operator `k` of the text |
| `PipelineText.ErrorsAreInTheText` | ish-Shell/impl/ish.c:1309-1323 | A stage's errors follow its output exactly if one of the pipe operators up to its own takes errors too |
| `Plumbing.Shell.MakePipe` | ish-Shell/impl/ish.c:1324-1332 | Two unused descriptors for the two ends of a new pipe |
| `Plumbing.Shell.RunStage` | ish-Shell/impl/ish.c:1309-1373 | One round: the child has the ends it needs, the parent keeps only the read end for the next stage |
| `Plumbing.Shell.Launch` | ish-Shell/impl/ish.c:1299-1373 | After the launch the parent's descriptors are as before; it has closed the two ends of each pipe, in order; each child's streams are the pipes to its neighbours, the outer ones the shell's; from the first pipe that takes errors on, each stage's errors go into its pipe; at each fork no earlier write end is open |
| `Plumbing.EndsOnce` | ish-Shell/impl/ish.c:1363-1372 | Each of the 2(N - 1) ends is closed exactly once |
| `Plumbing.EndsInOrder` | ish-Shell/impl/ish.c:1363-1372 | Pipe after pipe, the write end first |
| `Plumbing.PipeJoinsNeighbours` | ish-Shell/impl/ish.c:1032-1090 | A pipe joins a stage to the next; only its writer's process holds its write end, only the two hold its read end |
| `JobTable.RecordedAt` | ish-Shell/impl/ish_clean.c:431-452 | A search through jobs and processes marks the first process with the pid |
| `Jobs.Shell.UpdateProcessStatus` | ish-Shell/impl/ish_clean.c:430-452 | The nested search over the linked lists marks the first process with the pid, or reports failure and changes nothing |
| `Jobs.Shell.UpdateJobStatus` | ish-Shell/impl/ish_clean.c:454-487 | The loop with its early return sets this job to its verdict: running while a process neither ended nor stopped, completed when all ended and none is marked stopped, the first stage's status, out of the foreground when stopped, notified only while it stays as it was |
| `Jobs.Shell.WaitFor` | ish-Shell/impl/ish_clean.c:506-513 | The wait loop records every reply it reads before it tests the job |
| `Jobs.Shell.CheckForJobNotifications` | ish-Shell/impl/ish_clean.c:912-944 | The drain and the pass over the list, unlinking in place, leave the swept table, print its announcements, and reset the counter when the list is empty |
| `Jobs.Shell.Notify` | ish-Shell/impl/ish_clean.c:923-942 | One job's turn: judged, reported, unlinked if completed |
| `Jobs.Shell.Unlink` | ish-Shell/impl/ish_clean.c:932-934 | A job is taken out of the list in place; the others stay linked in order |
| `Jobs.Shell.MakeJobForeground` | ish-Shell/impl/ish_clean.c:490-520 | The job takes the foreground, is continued if asked, and is waited for |
| `Jobs.Shell.Fg` | ish-Shell/impl/ish_clean.c:545-580 | `fg`: the job with the number, and no other, is resumed in the foreground and waited for, its name printed, the one signal sent to its group; without such a job, or with a wrong count of operands, an error and no change |
| `Jobs.Shell.Bg` | ish-Shell/impl/ish_clean.c:590-633 | `bg` by number or on the newest stopped job: that job, and no other, is resumed in the background, to be notified again, its number and pids printed, oldest first, and the one signal sent to its group; or an error and no change |
| `Jobs.Shell.Kill` | ish-Shell/impl/ish_clean.c:635-667 | `kill` serves its operands in turn, up to the first whose group cannot be reached: exactly the jobs named so far are resumed in the background, each group is sent a continue and a terminate |
| `Jobs.Shell.Launch` | ish-Shell/impl/ish_clean.c:1163-1250 | A new job in front with one process per stage, newest first, its group named by the first child. An interactive background job is announced with its number and pids in fork order, marked notified and not waited for; any other is waited for, in the foreground if the shell is interactive, and nothing is printed |
| `Jobs.Shell.AddProcess` | ish-Shell/impl/ish_clean.c:1210-1222 | The parent's half of a fork: the process in front of its job's list, the group set once |
| `JobTable.JudgeIs` | ish-Shell/impl/ish_clean.c:454-487 | The verdict on a job, process by process |
| `Builtins.FgDoes` | ish-Shell/impl/ish_clean.c:545-580 | The table `fg` leaves, its line and its signal, in terms of operand and table |
| `Builtins.BgDoes` | ish-Shell/impl/ish_clean.c:590-633 | The same for `bg` |
| `Builtins.KillDoes` | ish-Shell/impl/ish_clean.c:635-667 | The same for `kill`, operand by operand |
| `Builtins.LaunchDoes` | ish-Shell/impl/ish_clean.c:1163-1250 | The same for a launch, in terms of its pids |
| `JobHistory.FgAsRun` | ish-Shell/impl/ish_clean.c:545-580 | In a run, `fg` and its wait leave what the method leaves on the same answers: the job with the number, and no other, resumed and waited for |
| `JobHistory.BackAsRun` | ish-Shell/impl/ish_clean.c:590-667 | In a run, `bg` and `kill` do what the methods do: the job meant, and no other, resumed in the background; or nothing |
| `JobHistory.LaunchAsRun` | ish-Shell/impl/ish_clean.c:1163-1250 | In a run, a launch from its first step over its forks to the end of its wait leaves what `ExecCommand` leaves on the same pids and answers; an interactive background launch has read no answer |
| `JobHistory.JobsAreTheirLaunches` | ish-Shell/impl/ish_clean.c:1169-1172 | In every run each listed job has the number and name of its own launch, and every report gives the number, "done" the name too, of the job it is about |
| `JobSafety.StepKeepsInv` | ish-Shell/impl/ish_clean.c:430-667 | Every step of shell, children and kernel keeps the invariant of records, numbers and reports |
| `JobSafety.RecordsMatchChildren` | ish-Shell/impl/ish_clean.c:431-452 | In every run, with recycled pids too, the first record with an unreaped child's pid is that child's, and a record is completed exactly when its child was reaped |
| `JobSafety.NewsReachesItsRecord` | ish-Shell/impl/ish_clean.c:510-513 | Each `waitpid` event sets status and mark in the record of the child it is about and in no other |
| `JobSafety.DrainEndsClean` | ish-Shell/impl/ish_clean.c:912-921 | The drain at the prompt stops only when no child has news |
| `JobSafety.NumbersAreUnique` | ish-Shell/impl/ish.c:1289-1297 | In every run job numbers fall strictly along the list and stay within the counter, so a number finds at most one job |
| `JobSafety.DoneExactlyOnce` | ish-Shell/impl/ish.c:616-640 | In every run a job is unlinked at most once, is reported done in that very pass exactly if it is in the background and at no other time, and no job leaves the list otherwise |
| `JobSafety.StopReportsAreSeparated` | ish-Shell/impl/ish.c:641-650 | In every run, between two "stopped" reports of a job lies an `fg`, `bg` or `kill` of it |
| `JobPasses.SweepLeavesUnfinished` | ish-Shell/impl/ish.c:616-659 | The pass leaves exactly the jobs with a process not ended or marked stopped, in their old order, their processes untouched |
| `JobPasses.SweepPrints` | ish-Shell/impl/ish.c:621-647 | The lines a pass prints are those of the report events |
| `JobPasses.PassAsMethod` | ish-Shell/impl/ish_clean.c:912-944 | A whole notification pass of a run does to the table what the method does on the same `waitpid` answers |
| `JobPasses.WaitAsRun` | ish-Shell/impl/ish_clean.c:510-513 | A whole wait of a run does to the table what the wait loop does on the same answers |
| `JobPasses.IshForgetsWhenSettled` | ish-Shell/impl/ish.c:557-564 | The loop of ish.c, on any table and any replies: it reads at most one reply it does not record, and a reply of a known process that it has read stays unrecorded if and only if the replies before it leave no process of the job running |
| `JobPasses.IshForgetsExactly` | ish-Shell/impl/ish.c:557-564 | It forgets a reply of a known process if and only if replies of known processes settle the job and the very next reply is of a known process too |
| `JobPasses.CleanForgetsNothing` | ish-Shell/impl/ish_clean.c:506-513 | The loop of ish_clean.c records every reply it has read: its table has the processes of recording them all |
| `JobPasses.WaitSettles` | ish-Shell/impl/ish_clean.c:506-513 | The wait ends behind the reply that settles the job, stopped or completed as its processes are; the job is then notified exactly where one reply brings a notified job back to what was last concluded about it |
| `JobPasses.WaitGivesUp` | ish-Shell/impl/ish_clean.c:506-513 | Where nothing settles the job, the wait records the replies up to the first of an unknown process and leaves the job running |
| `JobPasses.DrainRecords` | ish-Shell/impl/ish_clean.c:912-921 | The drain records the replies up to the first of an unknown process, and no more |
| `JobPasses.IshForgetsAReply` | ish-Shell/impl/ish.c:557-564 | On the same replies, if the job was not settled before, both loops leave the same table except that the one of ish.c clears `notified`, and it has read one reply more |
| `JobPasses.IshForgetsForReal` | ish-Shell/impl/ish.c:557-564 | A foreground process ends and then a background one: ish.c reads both and records the first only |
| `StopReports.StopsAreSaidWhenDue` | ish-Shell/impl/ish.c:641-650 | In every run a notification pass reports a job as stopped if and only if its processes have all ended or stopped, one of them stopped, and the job is not on record as stopped and notified |
| `StopReports.SilenceHasAReason` | ish-Shell/impl/ish_clean.c:545-633 | In every run a job whose "stopped" report stands is on record as stopped and notified, and a job is so only while its report stands or if it was last resumed by `fg` |
| `StopReports.FgStopsSilently` | ish-Shell/impl/ish_clean.c:569-575 | When `fg` brings back a job and its wait ends with the job stopped, the stop is due to be reported unless the job was on record as stopped and the first reply settled it |
| `StopReports.SilentStop` | ish-Shell/impl/ish_clean.c:569-575 | A stopped job of one process, brought back by `fg` and stopped again, is not reported |
| `Terminal.StepKeepsInv` | ish-Shell/impl/ish_clean.c:947-963 | Every step, in any interleaving of parent and children, keeps groups and terminal in order |
| `Terminal.OneGroup` | ish-Shell/impl/ish_clean.c:1198-1222 | Whichever side calls `setpgid` first, all stages end in the group of the first child's pid |
| `Terminal.GroupIsJob` | ish-Shell/impl/ish_clean.c:523-536 | A signal to a job's group reaches exactly the job's processes |
| `Terminal.TerminalIsBack` | ish-Shell/impl/ish_clean.c:490-520 | At every prompt the terminal belongs to the shell, and no child is left that would still take it |
| `Terminal.ForegroundHasTerminal` | ish-Shell/impl/ish_clean.c:490-505 | From the end of a launch, or from `fg`, to the end of the wait the terminal belongs to the group of the job waited for, whoever calls `tcsetpgrp` first |
| `Terminal.FgWaitsAnew` | ish-Shell/impl/ish_clean.c:506-513 | After `fg` the shell returns to its prompt only when each stage had ended before or is heard of anew |
| `Terminal.BackgroundLeavesTerminal` | ish-Shell/impl/ish_clean.c:950-956 | While a background job is launched the terminal stays with the shell |
| `Paths.Shell.FixDirPath` | ish-Shell/impl/ish.c:113-138 | The loop over components and counter computes the normal form, as long as no component is stored below index 0 |
| `Paths.AboveTheRoot` | ish-Shell/impl/ish.c:119-130 | What is excluded is real: `/..` stores nothing below index 0, `/../a` does |
| `Paths.NormalIsNormal` | ish-Shell/impl/ish.c:113-138 | The normal form is absolute, ends in a slash, has no `..`, and is its own normal form |
| `Paths.NormalAbsorbs` | ish-Shell/impl/ish.c:424-442 | Normalising before or after appending a relative path gives the same |
| `Paths.ParentCancels` | ish-Shell/impl/ish.c:119-130 | Behind any directory a component and a `..` after it cancel, whatever follows |
| `Paths.RootIsItsParent` | ish-Shell/impl/ish.c:113-138 | `/..` is `/` |
| `Paths.PlainPathKeeps` | ish-Shell/impl/ish.c:113-138 | A path without `..` keeps its components, in their order |
| `Paths.Shell.Cd` | ish-Shell/impl/ish.c:400-449 | `cd` with any operands, the empty one and whatever stands in front of its buffer included: home, an absolute path normalised, or a relative one normalised behind the current directory; or no change |
| `Paths.Shell.CdThrough` | ish-Shell/impl/ish.c:424-442 | Any run of relative `cd`s ends where normalising the concatenated path once would |
| `Paths.Shell.CdAndBack` | ish-Shell/impl/ish.c:424-442 | `cd w` and then `cd ..` end where they began |
| `Store.CommandRoundTrip` | Chubby-lock-server/store/store.go:30-34 | Encoding a command with empty fields omitted decodes back exactly |
| `Store.MarshalOmits` | Chubby-lock-server/store/store.go:30-34 | The encoding has a member for each field that is not empty, in the order of the fields, and no others |
| `Store.LastWordWins` | Chubby-lock-server/store/store.go:248-260 | The fold of a log answers each key with the last set not followed by a delete |
| `Store.Fsm.Apply` | Chubby-lock-server/store/store.go:206-221 | Any entry does to the map what its command says; it panics exactly on what does not decode or has another operation; never on what `Set` and `Delete` propose |
| `Store.Fsm.Snapshot` | Chubby-lock-server/store/store.go:223-233 | The cloning loop makes a map of its own with the same contents |
| `Store.Fsm.Restore` | Chubby-lock-server/store/store.go:236-247 | A decoded image replaces the map; an error leaves it |
| `Store.Cluster.Get` | Chubby-lock-server/store/store.go:121-125 | A read at any node, in any interleaving, gives the value of the last set of the key among the entries the node has applied, and the empty string if there is none or a delete follows it |
| `Store.FsmSnapshot.Persist` | Chubby-lock-server/store/store.go:266-288 | The snapshot is written and closed, or cancelled |
| `Store.Cluster.Set` | Chubby-lock-server/store/store.go:128-145 | Only the leader proposes; without an error the entry is in the log and is the last word on its key; with one it may be in the log or not; no other key is touched |
| `Store.Cluster.Delete` | Chubby-lock-server/store/store.go:148-164 | Only the leader proposes; without an error the entry is in the log and the key is gone; with one it may be in the log or not; no other key is touched |
| `Store.Cluster.PersistSnapshot` | Chubby-lock-server/store/store.go:266-288 | However much was applied since, the persisted image is the fold at the moment the snapshot was taken |
| `Store.Cluster.Run` | Chubby-lock-server/store/store.go:206-288 | In every interleaving of propose, apply, snapshot, persist, restore, restart and replay on any number of nodes, no node panics, each event moves log, nodes, snapshots and images as it should, and each map is the fold of the entries its node has applied |
| `Store.Cluster.Happen` | Chubby-lock-server/store/store.go:206-288 | What each event makes of the log and of the places in it of nodes, snapshots and images |
| `Store.Cluster.WriteThenRead` | Chubby-lock-server/store/store_test.go:46-60 | What was set is read at any node that has applied what there is to apply |
| `Store.Cluster.NodesAgree` | Chubby-lock-server/store/store.go:206-221 | Nodes that have applied equally much hold the same map |
| `Membership.Cluster.Join` | Chubby-lock-server/store/store.go:168-201 | A join keeps ids and addresses distinct, leaves unrelated servers untouched, ends with the new pair last; if the pair is a member already nothing is removed before the early return |
| `Membership.UnrelatedIs` | Chubby-lock-server/store/store.go:177-192 | The servers kept are exactly those with neither the id nor the address |
| `Membership.UnrelatedInOrder` | Chubby-lock-server/store/store.go:177-192 | They keep their order |

## Left out

- TreeHeap.Heap.SetArgument: stated for slots in use, with a string; the parser sets slot 0 only, and the source's own assertion would also let a caller overwrite the closing NULL.
- TreeHeap.Heap.Grow: `realloc` gives the `nMaxArgs` + 1 slots that are meant; command.c:266 asks for one byte, not one slot, beyond `nMaxArgs` pointers.
- TreeHeap.Heap.AppendArgument: rests on the same capacity.
- TreeActions.Build: a parse is taken as a recursion over its derivation; the string of a look-ahead token that the driver has already read is not on the heap meanwhile.
- Paths.Shell.FixDirPath: a path that goes above the root and down again writes in front of the component array, so it is excluded, and so is a path longer than its buffer.
- Paths.Shell.Cd: excludes the same paths.
- Plumbing.Shell.RunStage: file redirects of the stage are not applied; the parameter order of `func_IORedirection` differs from both of its calls.
- Plumbing.Shell.Launch: file redirects of the stages are not applied, for the same reason.
- Plumbing.PipeJoinsNeighbours: speaks of pipes; a file redirect of the child that replaces a stream is not applied.
- Jobs.Shell.CheckForJobNotifications: the record of an unlinked job is not freed.
- Jobs.Shell.Notify: the record of an unlinked job is not freed.
- Jobs.Shell.Fg: an operand is the number `atoi` reads behind its first character; the reading itself is not modelled.
- Jobs.Shell.Bg: the same of its operand.
- Jobs.Shell.Kill: the same of its operands.
- Jobs.Shell.MakeJobForeground: handing over the terminal is in module Terminal; terminal modes are in neither.
- Terminal.TerminalIsBack: assumes that children stop or end only after their own set-up, that programs leave groups and terminal alone, and that `waitpid` does not fail while there is a child.
- Scanner.Scanner.EnsureRoom: buffer sizes are unbounded integers, so the branch for a doubled size that has wrapped is never taken.
- Scanner.Scanner.YyGetNextBuffer: for the same reason its overflow is not reached; embedded NUL bytes and terminals that resume after the end of file are excluded.
- ShellLexer.AutomatonSound: speaks of the automaton written from lexer.l; `FlexAutomaton.FlexSound` and `FlexAutomaton.TokensAlike` carry it to the tables. Characters above 255, which bytes cannot be, are taken into class 1.
- Store.CommandRoundTrip: strings are taken to be valid Unicode; Go's encoder replaces invalid bytes.
- Store.FsmSnapshot.Persist: encoding cannot fail for a map of strings, and what the sink does is whether writing and closing succeed.
- The three end-of-file rules of the start conditions are one action number; they do the same.
- Scanner buffer stacks, `yy_scan_*`, `input` and the accessor functions.
- Exhaustion of the parser stack and of memory; verbose errors and debug output.
- Freeing trees that are popped during error recovery: the source does not free them.
- Job listing and message texts.
- System calls themselves, PATH search, built-in dispatch, environment and alias tables and their commands.
- Files ish_bk.c, ish_bk_v3.c and ish_Phase_II.c, near copies of the two modelled ones.
- JSON text: a log entry is a list of members, an image is the map.
- The Raft library, HTTP service, `main.go` and set-up of transport and snapshot store; the mutex of the store, and the lock service its README describes.
- Server suffrage in a configuration, and `AddVoter` on an id already present, which `Join` never reaches.
