# sedshell, modelled in Dafny

sedshell is an interactive line dispatcher. It reads lines from standard input and echoes
each one to the terminal. It then reads a single key from the terminal to decide what to do
with the line: run a shell command on it, skip it, skip a run of lines chosen by a regular
expression, repeat or save the last command, show help, or exit. A line is "finished with"
once the command handling it answers truthy; until then it is offered again, and a new key
is read for it.

The model covers three parts of the repository, and replays the repository's own tests of `run`:

- **Pipes** (`pipes.dfy`): the in-memory blocking pipe the dispatcher is driven through.
  - `Pipe` has a FIFO buffer of chunks (written strings or the `CLOSE` sentinel) and a `closed` flag.
  - `BidirectionalPipe` joins two pipes; `bipipe` wires two of them crosswise.
  - `sedshell/test_pipe.py` and `test_pipe.py` are identical; one model serves both.
  - `readchar` and `readline` are methods proved against the pure step functions
    `ReadCharStep` and `LineFrom`. Lemmas about those functions say what a reader sees:
    the pending text, where a line ends, and what happens at `CLOSE`.
- **Commands** (`commands.dfy`, `runner.dfy`, `store.dfy`, `console.dfy`, `processes.dfy`):
  - the one-line commands built by `Command.from_function` around the `ShellRunner` functions;
  - the skip-while and skip-until state machines;
  - the saved key bindings of `ShellCommandStore`;
  - `prompt`, `format_key` and `menu`;
  - `run_command`.
  Each handler is a method of a class, proved equal to a pure step function (`HandlerStep`,
  `SkipHandle`) about which the lemmas are stated.
- **Dispatch** (`engine.dfy`): the two nested loops of `run`, as a step function `Step` over
  a `Control` (reading a line / working on a line) and a `World`. `RunFrom` iterates `Step`
  at most `fuel` times. The imperative `Run` (built from `Serve`, `ReadOnce`, `FinishLine`,
  `WorkUntilDone`, `WorkOnce`, ...) is proved to end in exactly the state `RunFrom` describes.
  Two variants are modelled:
  - `Packaged` is `sedshell/sedshell.py`, with the skip commands as intended (see Findings).
  - `Cli` is `cli-process.py`. It has no `/` key and calls `None()` on an unknown key.
- **Scenarios** (`scenarios.dfy`): the end-to-end tests of `test.py` (`test_run`,
  `test_dont_run`, `test_exit`, `test_save`) as lemmas about `RunFrom` from the state `run`
  starts in, one lemma per kind of pass. The shell command typed is any line `cmd` that
  `strip` leaves alone and that has no line break, as the tests' `write-to-file.py` command line
  is, and the lemmas hold for either variant.

`strings.dfy` holds the Python string built-ins the code relies on. These are `strip`,
`partition`, `''.join`, `'\n'.join` and `sorted` over string keys. `sorted` is modelled as
Python's code-point order, with a proper prefix first.

Outside effects become parameters:
- Shell commands are an oracle `succeeds` on the full command string. The `Shell` object
  logs each string it is handed.
- `re.search(regex, line, re.IGNORECASE)` is an oracle `matches`.
- The `data.json` table is a `DataFile` object whose `commands` map outlives a run.

## Model

| member | source | states |
|---|---|---|
| Strings.TrimLeft | sedshell/sedshell.py:66 | the result is a suffix of the input; everything dropped is one of the strip characters; the result does not start with one |
| Strings.TrimRight | sedshell/sedshell.py:66 | the result is a prefix of the input; everything dropped is a strip character; the result does not end with one |
| Strings.StripChars | sedshell/sedshell.py:134 | `strip(chars)` leaves neither end in `chars`, and is empty exactly when every character is in `chars` |
| Strings.StripCharsSlice | sedshell/sedshell.py:134 | what `strip(chars)` keeps is one contiguous slice of the input, starting where `lstrip` stops, with only characters of `chars` before and after it |
| Strings.StripCharsKeeps | sedshell/sedshell.py:134 | stripping a string whose ends are not strip characters changes nothing |
| Strings.StripCharsDropsTail | sedshell/sedshell.py:134 | `(s + tail).strip(chars) == s` when `tail` is all strip characters and `s`'s ends are not |
| Strings.Partition | sedshell/test_pipe.py:127 | `first + sep + second` is the input; `first` holds no separator; `sep` is empty only when the input has no separator, and then `second` is empty |
| Strings.PartitionAt | sedshell/test_pipe.py:127 | `partition` splits at the first occurrence of the separator |
| Strings.Concat | sedshell/test_pipe.py:100 | `''.join` of one part is that part |
| Strings.ConcatSnoc | sedshell/test_pipe.py:98-100 | `''.join` of the parts with one more appended is the old join followed by that part, so extending `line_parts` extends the line |
| Strings.ConcatCons | sedshell/test_pipe.py:100 | `''.join` of the parts is the first part followed by the join of the rest |
| Strings.Join | sedshell/sedshell.py:129 | `'\n'.join` of no parts is the empty string |
| Strings.JoinSnoc | sedshell/sedshell.py:129 | `sep.join` of the parts with one more appended is the old join, then `sep`, then that part: `sep` goes between neighbours and nowhere else |
| Strings.LexIrreflexive | sedshell/sedshell.py:126 | the string order is irreflexive |
| Strings.LexTransitive | sedshell/sedshell.py:126 | the string order is transitive |
| Strings.LexTotal | sedshell/sedshell.py:126 | any two strings are equal or ordered one way |
| Strings.LeastExists | sedshell/sedshell.py:126 | a non-empty set of keys has a least key |
| Strings.LeastUnique | sedshell/sedshell.py:126 | the least key is unique |
| Strings.SortedKeys | sedshell/sedshell.py:176 | `sorted(keys)` holds every key exactly once, in strictly increasing order |
| Processes.FullCommand | sedshell/sedshell.py:259 | the shell string is the command, one space, then the line |
| Processes.Shell.constructor | sedshell/sedshell.py:258-263 | a new shell has run nothing and answers with the given success oracle |
| Processes.Shell.RunCommand | sedshell/sedshell.py:258-263 | `run_command` hands `command + ' ' + line` to the shell and answers whether it exited with 0 |
| Processes.Shell.Popen | sedshell/sedshell.py:231-232 | `Popen(command, shell=True)` hands the command itself to the shell |
| Pipes.FromClose | sedshell/test_pipe.py:78-79 | the buffer from the first `CLOSE` on is empty exactly when no `CLOSE` is queued |
| Pipes.ReadCharDelivers | sedshell/test_pipe.py:73-90 | `readchar` returns the next pending character and removes exactly it; with nothing pending it returns '' if `CLOSE` is queued and waits otherwise; it never touches the buffer from `CLOSE` on |
| Pipes.ReadCharSkipsEmpty | sedshell/test_pipe.py:81-89 | an empty chunk at the front is dropped without changing what a reader sees |
| Pipes.ReadCharFromText | sedshell/test_pipe.py:81-87 | from a non-empty chunk `readchar` takes its first character and requeues the rest |
| Pipes.ReadCharAtCloseRepeats | sedshell/test_pipe.py:77-79 | once `readchar` answers '' it answers '' for ever and changes nothing |
| Pipes.ReadCharIgnoresLaterWrites | sedshell/test_pipe.py:73-90 | a character once read does not depend on later writes, which stay queued behind |
| Pipes.PartsClose | sedshell/test_pipe.py:122-125 | popping `CLOSE` ends the line gathered so far, with no terminator |
| Pipes.PartsText | sedshell/test_pipe.py:127-132 | a popped chunk with a '\n' ends the line there and requeues the rest; one without is appended whole |
| Pipes.NewlineChunk | sedshell/test_pipe.py:127-132 | a chunk holding a '\n' yields the line up to it and requeues what follows |
| Pipes.JoinChunk | sedshell/test_pipe.py:127-128 | a chunk with no '\n' is joined whole in front of the rest of the line |
| Pipes.LineFromNone | sedshell/test_pipe.py:92-117 | `readline` waits exactly when no '\n' is pending and no `CLOSE` is queued |
| Pipes.LineFromClosing | sedshell/test_pipe.py:122-125 | a line ended by `CLOSE` is all the pending text, and what followed the `CLOSE` is left |
| Pipes.LineFromNewline | sedshell/test_pipe.py:127-132 | any other line is the pending text up to and including its first '\n'; the rest stays pending in front of the same `CLOSE` |
| Pipes.LineSplitsHere | sedshell/test_pipe.py:127-132 | a chunk whose first '\n' ends the line leaves the rest of the pending text intact |
| Pipes.LineAt | sedshell/test_pipe.py:127-132 | a chunk whose first '\n' is at index `i` yields `t[..i+1]` and requeues `t[i+1..]` |
| Pipes.ReadLineAt | sedshell/test_pipe.py:92-132 | the same for `readline` on a whole pipe state, `closed` unchanged |
| Pipes.LineAtClose | sedshell/test_pipe.py:119-128 | a chunk without '\n' followed by `CLOSE` is returned as the last line |
| Pipes.ReadLineNewlineOnlyLast | sedshell/test_pipe.py:92-132 | a line read never holds a '\n' except as its last character |
| Pipes.PendingNoNewlineBeforeClose | sedshell/test_pipe.py:119-128 | a line ends at `CLOSE` only when no '\n' was pending |
| Pipes.LineFromIgnoresLaterWrites | sedshell/test_pipe.py:111-132 | a line once read does not depend on later writes, which stay queued behind |
| Pipes.Pipe.constructor | sedshell/test_pipe.py:53-58 | a new pipe is empty and open |
| Pipes.Pipe.Write | sedshell/test_pipe.py:63-68 | `write` appends exactly one chunk and leaves `closed` alone |
| Pipes.Pipe.Close | sedshell/test_pipe.py:134-137 | `close` sets `closed` and appends `CLOSE` |
| Pipes.Pipe.ReadChar | sedshell/test_pipe.py:73-90 | the loop ends with the answer and buffer of `ReadCharStep` |
| Pipes.Pipe.ReadLineParts | sedshell/test_pipe.py:111-132 | the parts joined with the terminator are the line `LineFrom` describes, and the buffer is what it leaves; `closed` is set exactly when `CLOSE` was popped; with no terminator every chunk was text and nothing is left |
| Pipes.Pipe.ReadLine | sedshell/test_pipe.py:92-109 | `readline` ends in the state `ReadLineStep` describes |
| Pipes.BidirectionalPipe.constructor | sedshell/test_pipe.py:32-34 | reads come from the first pipe, writes go to the second |
| Pipes.BidirectionalPipe.Write | sedshell/test_pipe.py:36-37 | a write lands on the outgoing pipe only |
| Pipes.BidirectionalPipe.Close | sedshell/test_pipe.py:39-40 | `close` closes the outgoing pipe |
| Pipes.BidirectionalPipe.ReadLine | sedshell/test_pipe.py:42-43 | `readline` reads the incoming pipe only |
| Pipes.BidirectionalPipe.ReadChar | sedshell/test_pipe.py:45-46 | `readchar` reads the incoming pipe only |
| Pipes.BiPipe | sedshell/test_pipe.py:24-28 | two fresh empty pipes, wired so that each end reads what the other writes |
| Pipes.TestReadline | sedshell/test_pipe.py:141-147 | after writing "one\ntwo\n" and closing, reads give "one\n", "two\n", "", then nothing more |
| Pipes.ReadlineFirst | sedshell/test_pipe.py:145 | the first read of that test and the state it leaves |
| Pipes.ReadlineSecond | sedshell/test_pipe.py:146 | the second read and the state it leaves |
| Pipes.ReadlineLast | sedshell/test_pipe.py:147 | the third read pops `CLOSE` and returns ''; a read after that never returns |
| Pipes.TestReadchar | test_pipe.py:149-159 | characters come out in write order across separate writes |
| Pipes.OneLine | sedshell/test_pipe.py:127-132 | a single written line is read back whole |
| Pipes.CrossedEnds | sedshell/test_pipe.py:24-46 | a line written at one end of a `bipipe` is read at the other; a key goes back the other way; closing is end of file at the far end |
| Console.PromptAnswers | sedshell/sedshell.py:132-134 | `prompt` writes the question on its own line and returns the reply line without its '\n', leaving the rest of the input |
| Console.FirstLine | sedshell/sedshell.py:134 | with `answer + "\n" + more` pending, `readline` returns `answer + "\n"` and leaves `more` |
| Console.Prompt | sedshell/sedshell.py:132-134 | the method writes then reads, ending where `PromptStep` says |
| Console.FormatKeyRoundTrip | sedshell/sedshell.py:180-186 | every key name reads back as its key, so the menu never shows two keys alike |
| Console.FormatKeyInjective | sedshell/sedshell.py:180-186 | two keys with the same name are the same key |
| Console.ExitKeyName | sedshell/sedshell.py:181-182 | the exit key '\x04' is shown as `C-d` |
| Console.HelpListsEveryKey | sedshell/sedshell.py:173-178 | the menu has one line per key, each with that key's doc, keys in increasing order |
| Console.MenuLines | sedshell/sedshell.py:175-177 | the loop builds exactly the menu lines of the sorted keys |
| Console.Menu | sedshell/sedshell.py:173-178 | `menu(commands)` is a blank line, the joined lines, then a blank line |
| Commands.Instantiate | sedshell/sedshell.py:82-83 | a new instance is never None; a skip command starts with no regex and not finished |
| Commands.FreshCommandNeedsKey | sedshell/commands.py:24-55 | a function command is done after every line; a fresh skip command is not |
| Commands.SkipPromptsOnce | cli-process.py:251-253 | once known the regex is never asked for again, never changes, and no input is read |
| Commands.SkipDecideVerdict | cli-process.py:255-261 | with the regex known, the command hands the line back exactly when the line stops the skipping, writing "\n" and finishing; otherwise it swallows the line and changes nothing |
| Commands.SkipFirstLinePrompts | cli-process.py:252-253 | on the first line it writes `Regex:` and takes the reply line, without its '\n', as the regex |
| Commands.SkipDecideKeepsOutput | cli-process.py:255-261 | deciding records the regex, reads nothing, and only adds to the output |
| Commands.SkipVerdict | cli-process.py:251-264 | a skip command never exits, and never raises given a total `matches`; it answers falsy exactly on the stopping line, after writing "\n"; once finished it stays finished |
| Commands.SkipWhileSwallowsMatches | cli-process.py:255-261 | skip-while swallows each line the regex matches |
| Commands.SkipUntilSwallowsMismatches | sedshell/commands.py:71-77 | skip-until swallows each line the regex does not match |
| Commands.SkipKindsMirror | sedshell/commands.py:42-77 | with the same regex, skip-while swallows a line exactly when skip-until would stop at it |
| Commands.SkipCommand.constructor | cli-process.py:246-249 | a new skip command has no regex and is not finished |
| Commands.SkipCommand.HandleLine | cli-process.py:251-261 | `handle_line` changes the object and the terminal as `SkipHandle` says |
| Commands.PackagedSkipAlwaysRaises | sedshell/commands.py:42-47 | as written, the skip commands raise `NameError` on their first line, where the intended ones do not |
| Store.DataFile.constructor | sedshell/sedshell.py:152-157 | a missing data file reads as no bindings |
| Store.BindingLineRoundTrip | sedshell/sedshell.py:127-128 | a bindings-menu line for a one-character key, or the empty key, reads back as its key, its command and whether it consumes the line |
| Store.EmptyStoreMenu | sedshell/sedshell.py:122-129 | with nothing saved the bindings menu is two newlines |
| Store.StoreMenuListsEveryBinding | sedshell/sedshell.py:122-129 | the bindings menu has one line per binding, keys in increasing order |
| Store.ShellCommandStore.constructor | sedshell/sedshell.py:102-103 | the store works on the given data file |
| Store.ShellCommandStore.Store | sedshell/sedshell.py:105-108 | `store` binds the key, replacing any earlier binding, and changes no other key |
| Store.ShellCommandStore.Lookup | sedshell/sedshell.py:110-121 | `lookup` finds a binding exactly when the key is bound, and returns that binding |
| Store.ShellCommandStore.Menu | sedshell/sedshell.py:122-129 | the loop builds the bindings menu of the sorted keys |
| Store.StoreThenLookup | sedshell/sedshell.py:105-121 | a stored key looks up as what was stored; other keys look up as before |
| Runner.FinishedTable | sedshell/sedshell.py:200-222 | which handler is finished with the line: `skip` always; `run` when its command succeeded; `repeat` when the last command consumes and succeeded; a stored binding when it consumes; every other handler never |
| Runner.ExitsAndErrors | sedshell/sedshell.py:217-256 | only `exit` exits; only `repeat` and `save_last` raise, with `IndexError`, and only on an empty history; `repeat` always raises then, and `save_last` does once it has read its key |
| Runner.HistoryRecordsPrompts | sedshell/sedshell.py:193-215 | `!` and `&` wait exactly when no reply line comes; otherwise they append the stripped reply line, with `consume` true and false, and run exactly that command on the line; nothing else touches the history |
| Runner.SaveLastBinds | sedshell/sedshell.py:242-251 | `save_last` binds the key read to the last command and leaves every other binding alone |
| Runner.HandlerScreenGrows | sedshell/sedshell.py:193-251 | no handler takes back anything already on the terminal |
| Runner.ShellRunner.constructor | sedshell/sedshell.py:189-191 | a new runner has an empty history |
| Runner.ShellRunner.ReadCommand | sedshell/sedshell.py:193-198 | `_read_command` ends as `ReadCommandStep` says: prompt, read, strip, remember |
| Runner.ShellRunner.Run | sedshell/sedshell.py:200-204 | `run` ends as `HandlerStep(Run)` says |
| Runner.ShellRunner.Skip | sedshell/sedshell.py:206-209 | `skip` is finished with the line |
| Runner.ShellRunner.RunNoConsume | sedshell/sedshell.py:211-215 | `run_no_consume` ends as `HandlerStep(RunNoConsume)` says |
| Runner.ShellRunner.Repeat | sedshell/sedshell.py:217-222 | `repeat` ends as `HandlerStep(Repeat)` says, raising on an empty history |
| Runner.ShellRunner.RunRaw | sedshell/sedshell.py:224-232 | `run_raw` runs the stripped reply without the line and is not finished |
| Runner.ShellRunner.RunShell | sedshell/sedshell.py:234-240 | `run_shell` is never finished with the line |
| Runner.ShellRunner.SaveLast | sedshell/sedshell.py:242-251 | `save_last` ends as `HandlerStep(SaveLast)` says |
| Runner.ShellRunner.Exit | sedshell/sedshell.py:253-256 | `exit` ends the program |
| Runner.ShellRunner.ShowHelp | sedshell/sedshell.py:38-43 | `show_help` writes the built-in menu, then the bindings menu, and is not finished |
| Runner.ShellRunner.RunStored | sedshell/sedshell.py:115-118 | a stored binding runs its command on the line and answers its `consume` flag |
| Runner.ShellRunner.Call | sedshell/commands.py:24-26 | `handle_line` of a function command is the wrapped function's step |
| Engine.Builtins | sedshell/sedshell.py:45-57 | every built-in key is one character |
| Engine.BuiltinDocs | sedshell/sedshell.py:173-178 | the help menu lists exactly the built-in keys |
| Engine.ResolveOrder | sedshell/sedshell.py:82 | a saved binding hides the built-in of its key; a key that is neither resolves to nothing |
| Engine.VariantsDiffer | cli-process.py:286-297 | the `cli-process.py` table is the packaged one without `/` |
| Engine.AfterReply | sedshell/sedshell.py:90-92 | judging a reply never changes the world |
| Engine.EndsAtBlankLine | sedshell/sedshell.py:66-69 | the loop stops exactly at an input line that strips to nothing (which covers end of input); any other line is worked on, stripped |
| Engine.EchoesFirst | sedshell/sedshell.py:74-75 | working on a line reads no input and first shows the line on the terminal |
| Engine.OnLineAfterEcho | sedshell/sedshell.py:74-92 | after the echo a pass only adds to the terminal and reads no input |
| Engine.CarriedCommandReadsNoKey | sedshell/sedshell.py:76 | a skip command still skipping handles the next line without a key being read |
| Engine.UnknownKeyHandling | cli-process.py:322-327 | an unknown key crashes `cli-process.py` with `TypeError`; the packaged loop writes both menus and reads another key for the same line, changing nothing else |
| Engine.AdvancesIffFinished | sedshell/sedshell.py:90-92 | the loop moves to the next line exactly when `handle_line` answers truthy, and keeps the command |
| Engine.SkipScreenGrows | cli-process.py:251-261 | a skip command only adds to the terminal |
| Engine.CommandStepGrowsScreen | sedshell/sedshell.py:89-92 | handling a line only adds to the terminal and reads no input |
| Engine.KeyStepGrowsScreen | sedshell/sedshell.py:79-87 | choosing by key only adds to the terminal and reads no input |
| Engine.StepGrowsScreen | sedshell/sedshell.py:64-92 | every pass only adds to the terminal |
| Engine.IterateContinues | sedshell/sedshell.py:64-92 | a pass that does not stop hands over to the rest of the run |
| Engine.ScreenOnlyGrows | sedshell/sedshell.py:64-92 | at the end of a run the terminal begins with everything it showed at the start |
| Engine.ClosedStepRepeats | sedshell/sedshell.py:79-87 | with the terminal closed and '' unbound, a pass comes back to the same line with no command |
| Engine.ClosedTerminalSpins | sedshell/sedshell.py:79-87 | once the terminal is closed and '' is unbound, the packaged loop shows help for ever and never ends |
| Engine.AfterReplyReports | sedshell/sedshell.py:90-92 | a reply's verdict is what the loop does with it |
| Engine.LineIrrelevant | sedshell/sedshell.py:91-92 | once a command is done with a line, the rest of the run does not depend on it |
| Engine.Advance | sedshell/sedshell.py:64-92 | a pass that stops ends the run; one that goes on uses one unit of fuel |
| Engine.StepAdvance | sedshell/sedshell.py:64-92 | the same for the passes of `run` |
| Engine.OnLineCases | sedshell/sedshell.py:76 | a key is read exactly when there is no command or it is done |
| Engine.NewCommand | sedshell/sedshell.py:83 | `CommandClass()` makes the instance `Instantiate` describes; a skip command object is fresh |
| Engine.ResolveKey | sedshell/sedshell.py:82 | the method finds the class `Resolve` describes |
| Engine.HandleLine | sedshell/sedshell.py:90 | `handle_line` ends as `HandleStep` says |
| Engine.HandleWith | sedshell/sedshell.py:90-92 | handling a line gives the verdict and world of `CommandStep` |
| Engine.ChooseCommand | sedshell/sedshell.py:82-90 | resolving a key and running its command gives the verdict and world of `Choose` |
| Engine.RejectKey | sedshell/sedshell.py:85-87 | a key bound to nothing gives the verdict and world of `UnknownKey`: help and the same line again in the packaged loop, `TypeError` in `cli-process.py` |
| Engine.StartCommand | sedshell/sedshell.py:83-90 | making the chosen command and letting it handle the line gives the verdict and world of `CommandStep` on the new command |
| Engine.TakeKey | sedshell/sedshell.py:79-90 | reading a key and acting on it gives the verdict and world of `KeyStep` |
| Engine.WorkOnLine | sedshell/sedshell.py:74-92 | one pass of the inner loop gives the verdict and world of `Step` |
| Engine.NextLine | sedshell/sedshell.py:66-69 | reading and stripping an input line gives the verdict and world of `Step` |
| Engine.WorkOnce | sedshell/sedshell.py:74-92 | one pass of the inner loop leaves the rest of the run equal to what `RunFrom` has left |
| Engine.WorkUntilDone | sedshell/sedshell.py:74-92 | the inner loop ends with the run `RunFrom` describes, minus the passes made |
| Engine.FinishLine | sedshell/sedshell.py:74-92 | the same seen from the outer loop, with the input unchanged and the line forgotten |
| Engine.AwaitLine | sedshell/sedshell.py:66-69 | reading the next line is one pass of `RunFrom` |
| Engine.ReadOnce | sedshell/sedshell.py:64-92 | one pass of the outer loop is what `RunFrom` does with it |
| Engine.Serve | sedshell/sedshell.py:64-92 | the loops end with exactly the outcome and state `RunFrom` gives from the first line read |
| Engine.Setup | sedshell/sedshell.py:35-36 | `run` builds a fresh store over the data file and a runner with no history |
| Engine.Greet | sedshell/sedshell.py:59-60 | `run` writes its banner before reading |
| Engine.Run | sedshell/sedshell.py:25-92 | the input, the terminal, the saved bindings and the commands run are what `RunFrom` gives after the banner |
| Scenarios.ReadsWord | sedshell/sedshell.py:66-69 | a pass of the outer loop on a line with no surrounding whitespace takes exactly that line and goes on to work on it |
| Scenarios.ReadsEnd | sedshell/sedshell.py:66-69 | once only the empty remainder and `CLOSE` are left, the run ends at end of input |
| Scenarios.PressesKey | sedshell/sedshell.py:75-82 | with no command, or a done one, the line is echoed and the next key chooses the command |
| Scenarios.RunTyped | sedshell/sedshell.py:193-204 | `!` takes the typed command, records it as consuming, and runs it on the line; the line is done when it succeeds |
| Scenarios.RunNoConsumeTyped | sedshell/sedshell.py:211-215 | `&` takes the typed command, records it as not consuming, runs it on the line and keeps the line |
| Scenarios.SaveLastTyped | sedshell/sedshell.py:242-251 | `>` reads a key and binds it to the last command, keeping the line |
| Scenarios.ChoosesBinding | sedshell/sedshell.py:82-83 | a saved key runs its command on the line, and a consuming one finishes the line |
| Scenarios.TestRun | test.py:41-50 | with input `hello` and the keys `!`, `cmd`: `cmd hello` runs once, is remembered as consuming, and the run ends at end of input |
| Scenarios.TestDontRun | test.py:52-76 | with input `1`, `2` and the keys `&` `cmd`, `!` `cmd`, C-d: `cmd 1` runs twice, since `&` keeps the line, and C-d on the second line exits with that line read |
| Scenarios.TestExit | test.py:78-83 | C-d on the first line exits having run nothing, with the second line still unread |
| Scenarios.TestSave | test.py:85-109 | `!` `cmd` on `hello`, then `>` `c` and `c` on `hey`: `cmd hello` and then `cmd hey` run, `c` is bound to `cmd` as consuming, and the run ends at end of input |

## Left out

- Threads, the pipe's lock and its wake-up queue are left out. A read that would wait for
  another thread's write returns `Blocked` and changes nothing, and the run then ends `Stalled`.
- Pipes.Pipe.ReadLine: when the buffer runs dry mid-line, the source keeps the popped pieces
  and waits for more. The model puts the pieces back as one chunk per piece and returns
  `Blocked`, so a later call after more writes returns the line the waiting call would have.
- Pipes.ReadlineLast: after `CLOSE` has been popped, the source's `readline` loops for ever
  without returning, because `closed` makes it skip the wait (`sedshell/test_pipe.py:105-106`).
  The model returns `Blocked`, which is a read that never returns.
- Reading a key from a real terminal (`termios`, `tty`, `select`, `sedshell/sedshell.py:143-150`)
  is left out; the terminal is always an object with `readchar`, as in the tests.
- The JSON file, its inter-process lock and `DATA_LOCK` are left out. The `commands` table is a
  map in a `DataFile` object, and each access reads or writes it whole.
- `subprocess` is a foreign call. Exit statuses come from the oracle `succeeds`; commands are
  only logged. `run_shell` starts an interactive shell that is not modelled, and it logs nothing.
- `re.search(..., re.IGNORECASE)` is the oracle `matches`; regular expressions are not interpreted.
  `matches` is total, so an invalid pattern typed at `Regex:` (such as `(`) is not modelled:
  there `re.search` raises `re.error` (`cli-process.py:255`), nothing catches it, and `run` ends.
- Commands.SkipVerdict: "never raises" holds only given a total `matches`; the `re.error` of an
  invalid pattern, which ends `run` in the source, is outside the model.
- Engine.Run: the source loops for ever in some states (a closed terminal with '' unbound), so
  `Run` and `RunFrom` take `fuel`, a bound on passes of the loops, and end `OutOfFuel` when it runs out.
- Engine.Builtins: in the `Packaged` variant the `\` and `/` keys run the skip commands as
  `cli-process.py:251-261` does (`SkipHandle`), not as `sedshell/commands.py:42-47` is written:
  that code raises `NameError` on its first line. The as-written behaviour is modelled only by
  `Commands.PackagedSkipAlwaysRaises` (see Findings), not by `Step`.
- Pipes.BiPipe: takes no `name`, and pipes have no name. A pipe's name only appears in its
  `__repr__` (`sedshell/test_pipe.py:61`). `bipipe`'s default `None` would raise `TypeError`
  at `sedshell/test_pipe.py:26`; every caller in `test.py` passes a name.
- Command-line parsing, the creation of the configuration directory, `main`, logging, the
  `name` attribute of commands (used only in log messages), and the debug `print` in
  `cli-process.py`'s `save_last` (`cli-process.py:173`) are left out.
- `str.strip()` is modelled on Python 2 byte strings: the whitespace set is ASCII.
  `string.letters` is taken in the C locale.
- The rest of `cli-process.py` (its own copy of the pipe, its thread helpers and tests) is not
  part of this model; only its `run`, `SkipWhileCommand` and the helpers it shares with
  `sedshell/sedshell.py` are.

## Findings

| source | as written | input that shows it | evidently intended | confidence | as-written member | corrected member |
|---|---|---|---|---|---|---|
| sedshell/commands.py:42-47 | `handle_line` of `SkipWhileCommand` and `SkipUntilCommand` calls `prompt` and `LOGGER`, neither defined nor imported in `commands.py` | pressing `\` or `/` on any line: the first call raises `NameError`, which ends `run` | prompt for the regex once, then skip as `cli-process.py:251-261` does | high, not executed | Commands.PackagedSkipAlwaysRaises | Commands.SkipVerdict |
| cli-process.py:322-327 | `command = CommandClass()` is called before the `None` check, so an unknown key calls `None()` | any key bound to nothing, e.g. `x`: `TypeError`, which ends `run`; the `show_help` branch is dead | show both menus and read another key for the same line, as `sedshell/sedshell.py:83-87` does | high, not executed | Engine.UnknownKeyHandling | Engine.UnknownKeyHandling |
