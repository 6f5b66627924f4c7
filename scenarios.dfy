/** The end-to-end tests of `run` in `test.py`, replayed on the model one pass of the loops at
    a time. The input lines and the keys are all written before the run starts, the
    configuration directory starts empty, and the shell command typed at `Command:` is any
    line `cmd` that `strip` leaves alone (the tests type the path of `write-to-file.py` and
    its two file arguments, which records the line it is given). */
module Scenarios {
  import opened Strings
  import opened Pipes
  import opened Commands
  import opened Store
  import opened Processes
  import opened Runner
  import opened Engine

  // ---------------------------------------------------------------------------
  // single passes

  /** A non-empty line, with no line break, that `strip` leaves alone. */
  predicate Word(s: string)
  {
    s != [] && s[0] !in Whitespace && s[|s| - 1] !in Whitespace && '\n' !in s
  }

  /** `readline` on a chunk starting with a word and '\n' returns that line, which strips to
      the word, and leaves the rest of the chunk queued. */
  lemma WordLine(s: string, rest: string, tail: seq<Chunk>, closed: bool)
    requires Word(s)
    ensures ReadLineStep(PipeState([Text(s + "\n" + rest)] + tail, closed))
            == (Got(s + "\n"), PipeState([Text(rest)] + tail, closed))
    ensures Strip(s + "\n") == s
  {
    var t := s + "\n" + rest;
    assert t[..|s|] == s;
    assert t[|s|] == '\n';
    ReadLineAt(t, tail, |s|, closed);
    assert t[..|s| + 1] == s + "\n";
    assert t[|s| + 1..] == rest;
    StripCharsDropsTail(s, "\n", Whitespace);
  }

  /** The outer loop reads the next input line and goes on to work on it. */
  lemma ReadsWord(e: Env, command: Current<Handler>, w: World, s: string, rest: string, tail: seq<Chunk>)
    requires Word(s) && w.stdin.buffer == [Text(s + "\n" + rest)] + tail
    ensures Step(e, ReadingLine(command), w)
            == Continue(OnLine(s, command), w.(stdin := PipeState([Text(rest)] + tail, w.stdin.closed)))
  {
    WordLine(s, rest, tail, w.stdin.closed);
  }

  /** With only an empty remainder and `CLOSE` left, `readline` returns '' and the run ends. */
  lemma ReadsEnd(e: Env, command: Current<Handler>, w: World, tail: seq<Chunk>)
    requires w.stdin.buffer == [Text([]), Chunk.Close] + tail
    ensures Step(e, ReadingLine(command), w) == Stop(EndOfInput, w.(stdin := PipeState(tail, true)))
  {
    assert w.stdin.buffer == [Text([])] + [Chunk.Close] + tail;
    LineAtClose([], tail);
  }

  /** `readchar` on a one-character chunk, perhaps behind the empty remainder of a line. */
  lemma KeyChunk(pre: seq<Chunk>, k: char, rest: seq<Chunk>)
    requires pre == [] || pre == [Text([])]
    ensures ReadCharStep(pre + [Text([k])] + rest) == (Got([k]), rest)
  {
    var buf := [Text([k])] + rest;
    assert buf[0] == Text([k]) && [k][..1] == [k] && buf[1..] == rest;
    assert pre + [Text([k])] + rest == pre + buf;
    if pre != [] {
      assert (pre + buf)[0] == Text([]) && (pre + buf)[1..] == buf;
    }
  }

  /** The world with the terminal's input cut down to `rest`. */
  function Typed(w: World, rest: seq<Chunk>): World
  {
    w.(ctx := w.ctx.(term := w.ctx.term.(inbound := PipeState(rest, w.ctx.term.inbound.closed))))
  }

  /** With no command, or a done one, the line is echoed and the next key chooses a command. */
  lemma PressesKey(e: Env, line: string, command: Current<Handler>, w: World, pre: seq<Chunk>, k: char, rest: seq<Chunk>)
    requires NeedsKey(command)
    requires pre == [] || pre == [Text([])]
    requires w.ctx.term.inbound.buffer == pre + [Text([k])] + rest
    ensures Step(e, OnLine(line, command), w) == Choose(e, line, [k], Typed(Echo(w, line), rest))
  {
    OnLineCases(e, line, command, w);
    KeyChunk(pre, k, rest);
  }

  /** The context once `_read_command` has asked `Command:` and taken the line `cmd`. */
  function Asked(c: Ctx, cmd: string, consume: bool, tail: seq<Chunk>): Ctx
  {
    c.(term := Duplex(PipeState([Text([])] + tail, c.term.inbound.closed),
                      PipeState(c.term.outbound.buffer + [Text("Command:\n")], c.term.outbound.closed)),
       history := c.history + [Entry(cmd, consume)])
  }

  /** The context once `run_command(cmd, line)` has run. */
  function Ran(c: Ctx, cmd: string, line: string): Ctx
  {
    c.(executed := c.executed + [FullCommand(cmd, line)])
  }

  lemma TypesCommand(c: Ctx, cmd: string, consume: bool, tail: seq<Chunk>)
    requires Word(cmd) && c.term.inbound.buffer == [Text(cmd + "\n")] + tail
    ensures ReadCommandStep(c, consume) == (Some(cmd), Asked(c, cmd, consume, tail))
  {
    assert cmd + "\n" + [] == cmd + "\n";
    WordLine(cmd, [], tail, c.term.inbound.closed);
  }

  /** A key that resolves to a handler hands the line to it, and the reply decides the pass. */
  lemma ChoosesHandler(e: Env, line: string, key: string, w: World, h: Handler)
    requires Resolve(e.variant, w.ctx.bindings, key) == Some(FunctionClass(h))
    ensures var (r, c') := HandlerStep(h, line, w.ctx, e.succeeds, e.help);
            Choose(e, line, key, w) == AfterReply(r, line, FunctionCommand(h), w.(ctx := c'))
  {
  }

  /** `&` asks for a command, runs it on the line and keeps the line. */
  lemma RunNoConsumeTyped(c: Ctx, line: string, succeeds: string -> bool, help: string, cmd: string, tail: seq<Chunk>)
    requires Word(cmd) && c.term.inbound.buffer == [Text(cmd + "\n")] + tail
    ensures HandlerStep(RunNoConsume, line, c, succeeds, help) == (Returned(false), Ran(Asked(c, cmd, false, tail), cmd, line))
  {
    TypesCommand(c, cmd, false, tail);
  }

  /** `!` asks for a command and runs it on the line; the line is done when the command succeeds. */
  lemma RunTyped(c: Ctx, line: string, succeeds: string -> bool, help: string, cmd: string, tail: seq<Chunk>)
    requires Word(cmd) && c.term.inbound.buffer == [Text(cmd + "\n")] + tail
    ensures HandlerStep(Handler.Run, line, c, succeeds, help)
            == (Returned(succeeds(FullCommand(cmd, line))), Ran(Asked(c, cmd, true, tail), cmd, line))
  {
    TypesCommand(c, cmd, true, tail);
  }

  /** `>` asks for a key and binds it to the last command. */
  lemma SaveLastTyped(c: Ctx, line: string, succeeds: string -> bool, help: string, k: char, rest: seq<Chunk>)
    requires c.history != [] && c.term.inbound.buffer == [Text([k])] + rest
    ensures HandlerStep(SaveLast, line, c, succeeds, help)
            == (Returned(false), c.(term := Duplex(PipeState(rest, c.term.inbound.closed),
                                                   PipeState(c.term.outbound.buffer + [Text("Command letter?\n")], c.term.outbound.closed)),
                                    bindings := c.bindings[[k] := Last(c.history)]))
  {
    KeyChunk([], k, rest);
    assert [] + [Text([k])] + rest == [Text([k])] + rest;
  }

  lemma ChoosesRunNoConsume(e: Env, line: string, w: World, cmd: string, tail: seq<Chunk>)
    requires "&" !in w.ctx.bindings
    requires Word(cmd) && w.ctx.term.inbound.buffer == [Text(cmd + "\n")] + tail
    ensures Choose(e, line, "&", w)
            == Continue(OnLine(line, FunctionCommand(RunNoConsume)), w.(ctx := Ran(Asked(w.ctx, cmd, false, tail), cmd, line)))
  {
    assert Resolve(e.variant, w.ctx.bindings, "&") == Some(FunctionClass(RunNoConsume));
    ChoosesHandler(e, line, "&", w, RunNoConsume);
    RunNoConsumeTyped(w.ctx, line, e.succeeds, e.help, cmd, tail);
  }

  lemma ChoosesRun(e: Env, line: string, w: World, cmd: string, tail: seq<Chunk>)
    requires "!" !in w.ctx.bindings
    requires Word(cmd) && w.ctx.term.inbound.buffer == [Text(cmd + "\n")] + tail
    requires e.succeeds(FullCommand(cmd, line))
    ensures Choose(e, line, "!", w)
            == Continue(ReadingLine(FunctionCommand(Handler.Run)), w.(ctx := Ran(Asked(w.ctx, cmd, true, tail), cmd, line)))
  {
    assert Resolve(e.variant, w.ctx.bindings, "!") == Some(FunctionClass(Handler.Run));
    ChoosesHandler(e, line, "!", w, Handler.Run);
    RunTyped(w.ctx, line, e.succeeds, e.help, cmd, tail);
  }

  lemma ChoosesExit(e: Env, line: string, w: World)
    requires "\U{4}" !in w.ctx.bindings
    ensures Choose(e, line, "\U{4}", w) == Stop(Terminated, w)
  {
    assert Resolve(e.variant, w.ctx.bindings, "\U{4}") == Some(FunctionClass(Exit));
    ChoosesHandler(e, line, "\U{4}", w, Exit);
  }

  lemma ChoosesSaveLast(e: Env, line: string, w: World, k: char, rest: seq<Chunk>)
    requires ">" !in w.ctx.bindings && w.ctx.history != []
    requires w.ctx.term.inbound.buffer == [Text([k])] + rest
    ensures Choose(e, line, ">", w)
            == Continue(OnLine(line, FunctionCommand(SaveLast)),
                        w.(ctx := w.ctx.(term := Duplex(PipeState(rest, w.ctx.term.inbound.closed),
                                                        PipeState(w.ctx.term.outbound.buffer + [Text("Command letter?\n")], w.ctx.term.outbound.closed)),
                                         bindings := w.ctx.bindings[[k] := Last(w.ctx.history)])))
  {
    assert Resolve(e.variant, w.ctx.bindings, ">") == Some(FunctionClass(SaveLast));
    ChoosesHandler(e, line, ">", w, SaveLast);
    SaveLastTyped(w.ctx, line, e.succeeds, e.help, k, rest);
  }

  /** A saved key runs its command on the line; a consuming one finishes with the line. */
  lemma ChoosesBinding(e: Env, line: string, w: World, key: string)
    requires key in w.ctx.bindings && w.ctx.bindings[key].consume
    ensures Choose(e, line, key, w)
            == Continue(ReadingLine(FunctionCommand(RunStored(w.ctx.bindings[key]))), w.(ctx := Ran(w.ctx, w.ctx.bindings[key].command, line)))
  {
  }

  // ---------------------------------------------------------------------------
  // single passes of a run

  /** A pass that continues leaves one pass fewer for the rest of the run. */
  lemma Advances(e: Env, fuel: nat, control: Control, w: World)
    requires fuel > 0 && Step(e, control, w).Continue?
    ensures RunFrom(e, fuel, control, w) == RunFrom(e, fuel - 1, Step(e, control, w).control, Step(e, control, w).world)
  {
    IterateContinues(Pass(e), fuel, control, w);
  }

  /** A pass that stops ends the run. */
  lemma Ends(e: Env, fuel: nat, control: Control, w: World)
    requires fuel > 0 && Step(e, control, w).Stop?
    ensures RunFrom(e, fuel, control, w) == (Step(e, control, w).outcome, Step(e, control, w).world)
  {
    assert Pass(e)(control, w) == Step(e, control, w);
    assert RunFrom(e, fuel, control, w) == Proceed(Pass(e), fuel - 1, control, w);
  }

  lemma RunReadsWord(e: Env, fuel: nat, command: Current<Handler>, w: World, s: string, rest: string, tail: seq<Chunk>)
    requires fuel > 0 && Word(s) && w.stdin.buffer == [Text(s + "\n" + rest)] + tail
    ensures RunFrom(e, fuel, ReadingLine(command), w)
            == RunFrom(e, fuel - 1, OnLine(s, command), w.(stdin := PipeState([Text(rest)] + tail, w.stdin.closed)))
  {
    ReadsWord(e, command, w, s, rest, tail);
    Advances(e, fuel, ReadingLine(command), w);
  }

  lemma RunReadsEnd(e: Env, fuel: nat, command: Current<Handler>, w: World, tail: seq<Chunk>)
    requires fuel > 0 && w.stdin.buffer == [Text([]), Chunk.Close] + tail
    ensures RunFrom(e, fuel, ReadingLine(command), w) == (EndOfInput, w.(stdin := PipeState(tail, true)))
  {
    ReadsEnd(e, command, w, tail);
    Ends(e, fuel, ReadingLine(command), w);
  }

  /** The world once the line is echoed, a key pressed, and `cmd` typed and run on the line. */
  function AfterCommand(w: World, line: string, cmd: string, consume: bool, rest: seq<Chunk>): World
  {
    var k := Typed(Echo(w, line), [Text(cmd + "\n")] + rest);
    k.(ctx := Ran(Asked(k.ctx, cmd, consume, rest), cmd, line))
  }

  /** `!` then a command that succeeds: the line is finished with. */
  lemma RunsCommand(e: Env, fuel: nat, line: string, command: Current<Handler>, w: World, pre: seq<Chunk>, cmd: string, rest: seq<Chunk>)
    requires fuel > 0 && NeedsKey(command) && (pre == [] || pre == [Text([])])
    requires "!" !in w.ctx.bindings && Word(cmd) && e.succeeds(FullCommand(cmd, line))
    requires w.ctx.term.inbound.buffer == pre + [Text("!")] + ([Text(cmd + "\n")] + rest)
    ensures RunFrom(e, fuel, OnLine(line, command), w)
            == RunFrom(e, fuel - 1, ReadingLine(FunctionCommand(Handler.Run)), AfterCommand(w, line, cmd, true, rest))
  {
    PressesKey(e, line, command, w, pre, '!', [Text(cmd + "\n")] + rest);
    ChoosesRun(e, line, Typed(Echo(w, line), [Text(cmd + "\n")] + rest), cmd, rest);
    Advances(e, fuel, OnLine(line, command), w);
  }

  /** `&` then a command: the line is kept for the next key. */
  lemma RunsCommandKeepingLine(e: Env, fuel: nat, line: string, command: Current<Handler>, w: World, pre: seq<Chunk>, cmd: string, rest: seq<Chunk>)
    requires fuel > 0 && NeedsKey(command) && (pre == [] || pre == [Text([])])
    requires "&" !in w.ctx.bindings && Word(cmd)
    requires w.ctx.term.inbound.buffer == pre + [Text("&")] + ([Text(cmd + "\n")] + rest)
    ensures RunFrom(e, fuel, OnLine(line, command), w)
            == RunFrom(e, fuel - 1, OnLine(line, FunctionCommand(RunNoConsume)), AfterCommand(w, line, cmd, false, rest))
  {
    PressesKey(e, line, command, w, pre, '&', [Text(cmd + "\n")] + rest);
    ChoosesRunNoConsume(e, line, Typed(Echo(w, line), [Text(cmd + "\n")] + rest), cmd, rest);
    Advances(e, fuel, OnLine(line, command), w);
  }

  /** C-d: the run exits. */
  lemma ExitsOnKey(e: Env, fuel: nat, line: string, command: Current<Handler>, w: World, pre: seq<Chunk>, rest: seq<Chunk>)
    requires fuel > 0 && NeedsKey(command) && (pre == [] || pre == [Text([])])
    requires "\U{4}" !in w.ctx.bindings
    requires w.ctx.term.inbound.buffer == pre + [Text("\U{4}")] + rest
    ensures RunFrom(e, fuel, OnLine(line, command), w) == (Terminated, Typed(Echo(w, line), rest))
  {
    PressesKey(e, line, command, w, pre, '\U{4}', rest);
    ChoosesExit(e, line, Typed(Echo(w, line), rest));
    Ends(e, fuel, OnLine(line, command), w);
  }

  /** The world once the line is echoed and `>` has bound `k` to the last command. */
  function AfterSave(w: World, line: string, k: char, rest: seq<Chunk>): World
    requires w.ctx.history != []
  {
    var t := Typed(Echo(w, line), [Text([k])] + rest);
    t.(ctx := t.ctx.(term := Duplex(PipeState(rest, t.ctx.term.inbound.closed),
                                    PipeState(t.ctx.term.outbound.buffer + [Text("Command letter?\n")], t.ctx.term.outbound.closed)),
                     bindings := t.ctx.bindings[[k] := Last(t.ctx.history)]))
  }

  /** `>` then a key: the key is bound to the last command and the line is kept. */
  lemma RunSavesLast(e: Env, fuel: nat, line: string, command: Current<Handler>, w: World, pre: seq<Chunk>, k: char, rest: seq<Chunk>)
    requires fuel > 0 && NeedsKey(command) && (pre == [] || pre == [Text([])])
    requires ">" !in w.ctx.bindings && w.ctx.history != []
    requires w.ctx.term.inbound.buffer == pre + [Text(">")] + ([Text([k])] + rest)
    ensures RunFrom(e, fuel, OnLine(line, command), w)
            == RunFrom(e, fuel - 1, OnLine(line, FunctionCommand(SaveLast)), AfterSave(w, line, k, rest))
  {
    PressesKey(e, line, command, w, pre, '>', [Text([k])] + rest);
    ChoosesSaveLast(e, line, Typed(Echo(w, line), [Text([k])] + rest), k, rest);
    Advances(e, fuel, OnLine(line, command), w);
  }

  /** A saved key whose command consumes: the stored command runs and the line is finished with. */
  lemma RunsBinding(e: Env, fuel: nat, line: string, command: Current<Handler>, w: World, pre: seq<Chunk>, k: char, rest: seq<Chunk>)
    requires fuel > 0 && NeedsKey(command) && (pre == [] || pre == [Text([])])
    requires [k] in w.ctx.bindings && w.ctx.bindings[[k]].consume
    requires w.ctx.term.inbound.buffer == pre + [Text([k])] + rest
    ensures RunFrom(e, fuel, OnLine(line, command), w)
            == RunFrom(e, fuel - 1, ReadingLine(FunctionCommand(RunStored(w.ctx.bindings[[k]]))),
                       Typed(Echo(w, line), rest).(ctx := Ran(Typed(Echo(w, line), rest).ctx, w.ctx.bindings[[k]].command, line)))
  {
    PressesKey(e, line, command, w, pre, k, rest);
    ChoosesBinding(e, line, Typed(Echo(w, line), rest), [k]);
    Advances(e, fuel, OnLine(line, command), w);
  }

  // ---------------------------------------------------------------------------
  // the tests

  /** A fresh `bipipe` end whose peer wrote `keys`, and the empty configuration directory. */
  function Fresh(input: PipeState, keys: seq<Chunk>): World
  {
    World(input, Ctx(Duplex(PipeState(keys, false), PipeState([], false)), [], map[], []))
  }

  /** `run` starts by writing its banner, which touches nothing but the screen. */
  lemma Started(v: Variant, input: PipeState, keys: seq<Chunk>)
    ensures var w := Start(v, Fresh(input, keys));
            && w.stdin == input && w.ctx.term.inbound == PipeState(keys, false)
            && w.ctx.history == [] && w.ctx.bindings == map[] && w.ctx.executed == []
  {
  }

  /** `test_exit`: the input "hello\nhey\n", left open; the key C-d. The run exits on the
      first line, having run nothing, with the second line still unread. */
  lemma TestExit(e: Env, fuel: nat)
    requires fuel >= 2
    ensures var (o, w) := RunFrom(e, fuel, ReadingLine(NoCommand),
                                  Start(e.variant, Fresh(PipeState([Text("hello\nhey\n")], false), [Text("\U{4}")])));
            && o == Terminated
            && w.ctx.executed == []
            && w.stdin == PipeState([Text("hey\n")], false)
  {
    Started(e.variant, PipeState([Text("hello\nhey\n")], false), [Text("\U{4}")]);
    ExitOnFirstLine(e, fuel, Start(e.variant, Fresh(PipeState([Text("hello\nhey\n")], false), [Text("\U{4}")])));
  }

  /** `test_exit` from any world holding its input and key and nothing saved. */
  lemma ExitOnFirstLine(e: Env, fuel: nat, w0: World)
    requires fuel >= 2
    requires w0.stdin == PipeState([Text("hello\nhey\n")], false)
    requires w0.ctx.term.inbound.buffer == [Text("\U{4}")]
    requires w0.ctx.bindings == map[] && w0.ctx.executed == []
    ensures var (o, w) := RunFrom(e, fuel, ReadingLine(NoCommand), w0);
            && o == Terminated
            && w.ctx.executed == []
            && w.stdin == PipeState([Text("hey\n")], false)
  {
    assert "hello\nhey\n" == "hello" + "\n" + "hey\n";
    assert w0.stdin.buffer == [Text("hello" + "\n" + "hey\n")] + [];
    RunReadsWord(e, fuel, NoCommand, w0, "hello", "hey\n", []);
    assert [Text("hey\n")] + [] == [Text("hey\n")];
    var w1 := w0.(stdin := PipeState([Text("hey\n")], false));
    assert w1.ctx.term.inbound.buffer == [] + [Text("\U{4}")] + [];
    ExitsOnKey(e, fuel - 1, "hello", NoCommand, w1, [], []);
  }

  /** `test_run`: the input "hello\n" then end of file; the key `!` and the command `cmd`.
      `cmd hello` runs, the line is finished with, and the run ends at end of input. */
  lemma TestRun(e: Env, fuel: nat, cmd: string)
    requires Word(cmd)
    requires e.succeeds(cmd + " hello") && fuel >= 3
    ensures var (o, w) := RunFrom(e, fuel, ReadingLine(NoCommand),
                                  Start(e.variant, Fresh(PipeState([Text("hello\n"), Chunk.Close], true), [Text("!"), Text(cmd + "\n")])));
            && o == EndOfInput
            && w.ctx.executed == [cmd + " hello"]
            && w.ctx.history == [Entry(cmd, true)]
  {
    Started(e.variant, PipeState([Text("hello\n"), Chunk.Close], true), [Text("!"), Text(cmd + "\n")]);
    RunOneLine(e, fuel, Start(e.variant, Fresh(PipeState([Text("hello\n"), Chunk.Close], true), [Text("!"), Text(cmd + "\n")])), cmd);
  }

  /** `test_run` from any world holding its input and keys and nothing saved. */
  lemma RunOneLine(e: Env, fuel: nat, w0: World, cmd: string)
    requires Word(cmd)
    requires e.succeeds(cmd + " hello") && fuel >= 3
    requires w0.stdin == PipeState([Text("hello\n"), Chunk.Close], true)
    requires w0.ctx.term.inbound.buffer == [Text("!"), Text(cmd + "\n")]
    requires w0.ctx.history == [] && w0.ctx.bindings == map[] && w0.ctx.executed == []
    ensures var (o, w) := RunFrom(e, fuel, ReadingLine(NoCommand), w0);
            && o == EndOfInput
            && w.ctx.executed == [cmd + " hello"]
            && w.ctx.history == [Entry(cmd, true)]
  {
    assert "hello\n" == "hello" + "\n" + "";
    RunReadsWord(e, fuel, NoCommand, w0, "hello", "", [Chunk.Close]);
    var w1 := w0.(stdin := PipeState([Text("")] + [Chunk.Close], true));

    assert w1.ctx.term.inbound.buffer == [] + [Text("!")] + ([Text(cmd + "\n")] + []);
    assert FullCommand(cmd, "hello") == cmd + " hello";
    RunsCommand(e, fuel - 1, "hello", NoCommand, w1, [], cmd, []);
    var w2 := AfterCommand(w1, "hello", cmd, true, []);

    assert w2.stdin.buffer == [Text([]), Chunk.Close] + [];
    RunReadsEnd(e, fuel - 2, FunctionCommand(Handler.Run), w2, []);
  }

  /** `test_dont_run`: the input "1\n2\n" then end of file; the keys `&` and `!`, each with the
      command `cmd`, then C-d. `&` runs `cmd 1` and keeps the line, so `!` runs `cmd 1` again; the
      second line gets C-d and the run exits. */
  lemma TestDontRun(e: Env, fuel: nat, cmd: string)
    requires Word(cmd)
    requires e.succeeds(cmd + " 1") && fuel >= 5
    ensures var (o, w) := RunFrom(e, fuel, ReadingLine(NoCommand),
                                  Start(e.variant, Fresh(PipeState([Text("1\n2\n"), Chunk.Close], true),
                                                         [Text("&"), Text(cmd + "\n"), Text("!"), Text(cmd + "\n"), Text("\U{4}")])));
            && o == Terminated
            && w.ctx.executed == [cmd + " 1", cmd + " 1"]
            && w.ctx.history == [Entry(cmd, false), Entry(cmd, true)]
            && w.stdin == PipeState([Text([]), Chunk.Close], true)
  {
    var input := PipeState([Text("1\n2\n"), Chunk.Close], true);
    var keys := [Text("&"), Text(cmd + "\n"), Text("!"), Text(cmd + "\n"), Text("\U{4}")];
    Started(e.variant, input, keys);
    DontRunFirstLine(e, fuel, Start(e.variant, Fresh(input, keys)), cmd);
  }

  /** `test_dont_run` up to its second line: `&` runs `cmd 1` and keeps the line, then `!` runs
      `cmd 1` again and finishes it. */
  lemma DontRunFirstLine(e: Env, fuel: nat, w0: World, cmd: string)
    requires Word(cmd)
    requires e.succeeds(cmd + " 1") && fuel >= 5
    requires w0.stdin == PipeState([Text("1\n2\n"), Chunk.Close], true)
    requires w0.ctx.term.inbound.buffer == [Text("&"), Text(cmd + "\n"), Text("!"), Text(cmd + "\n"), Text("\U{4}")]
    requires w0.ctx.history == [] && w0.ctx.bindings == map[] && w0.ctx.executed == []
    ensures var (o, w) := RunFrom(e, fuel, ReadingLine(NoCommand), w0);
            && o == Terminated
            && w.ctx.executed == [cmd + " 1", cmd + " 1"]
            && w.ctx.history == [Entry(cmd, false), Entry(cmd, true)]
            && w.stdin == PipeState([Text([]), Chunk.Close], true)
  {
    assert "1\n2\n" == "1" + "\n" + "2\n";
    RunReadsWord(e, fuel, NoCommand, w0, "1", "2\n", [Chunk.Close]);
    var w1 := w0.(stdin := PipeState([Text("2\n")] + [Chunk.Close], true));

    var after1 := [Text("!"), Text(cmd + "\n"), Text("\U{4}")];
    assert w1.ctx.term.inbound.buffer == [] + [Text("&")] + ([Text(cmd + "\n")] + after1);
    RunsCommandKeepingLine(e, fuel - 1, "1", NoCommand, w1, [], cmd, after1);
    var w2 := AfterCommand(w1, "1", cmd, false, after1);

    var after2 := [Text("\U{4}")];
    assert w2.ctx.term.inbound.buffer == [Text([])] + [Text("!")] + ([Text(cmd + "\n")] + after2);
    assert FullCommand(cmd, "1") == cmd + " 1";
    RunsCommand(e, fuel - 2, "1", FunctionCommand(RunNoConsume), w2, [Text([])], cmd, after2);
    var w3 := AfterCommand(w2, "1", cmd, true, after2);

    assert "2\n" == "2" + "\n" + "";
    RunReadsWord(e, fuel - 3, FunctionCommand(Handler.Run), w3, "2", "", [Chunk.Close]);
    var w4 := w3.(stdin := PipeState([Text("")] + [Chunk.Close], true));

    assert w4.ctx.term.inbound.buffer == [Text([])] + [Text("\U{4}")] + [];
    ExitsOnKey(e, fuel - 4, "2", FunctionCommand(Handler.Run), w4, [Text([])], []);
  }

  /** `test_save`: the input "hello\nhey\n" then end of file; the key `!` with the command `cmd`,
      then `>` and `c`, then `c`. `cmd hello` runs; `>` binds `c` to it on the second line, and
      `c` then runs it on that line, which finishes it. */
  lemma TestSave(e: Env, fuel: nat, cmd: string)
    requires Word(cmd)
    requires e.succeeds(cmd + " hello") && fuel >= 6
    ensures var (o, w) := RunFrom(e, fuel, ReadingLine(NoCommand),
                                  Start(e.variant, Fresh(PipeState([Text("hello\nhey\n"), Chunk.Close], true),
                                                         [Text("!"), Text(cmd + "\n"), Text(">"), Text("c"), Text("c")])));
            && o == EndOfInput
            && w.ctx.executed == [cmd + " hello", cmd + " hey"]
            && w.ctx.bindings == map["c" := Entry(cmd, true)]
  {
    var input := PipeState([Text("hello\nhey\n"), Chunk.Close], true);
    var keys := [Text("!"), Text(cmd + "\n"), Text(">"), Text("c"), Text("c")];
    Started(e.variant, input, keys);
    SaveFirstLine(e, fuel, Start(e.variant, Fresh(input, keys)), cmd);
  }

  /** `test_save` on its first line: `!` runs `cmd hello` and finishes the line. */
  lemma SaveFirstLine(e: Env, fuel: nat, w0: World, cmd: string)
    requires Word(cmd)
    requires e.succeeds(cmd + " hello") && fuel >= 6
    requires w0.stdin == PipeState([Text("hello\nhey\n"), Chunk.Close], true)
    requires w0.ctx.term.inbound.buffer == [Text("!"), Text(cmd + "\n"), Text(">"), Text("c"), Text("c")]
    requires w0.ctx.history == [] && w0.ctx.bindings == map[] && w0.ctx.executed == []
    ensures var (o, w) := RunFrom(e, fuel, ReadingLine(NoCommand), w0);
            && o == EndOfInput
            && w.ctx.executed == [cmd + " hello", cmd + " hey"]
            && w.ctx.bindings == map["c" := Entry(cmd, true)]
  {
    assert "hello\nhey\n" == "hello" + "\n" + "hey\n";
    RunReadsWord(e, fuel, NoCommand, w0, "hello", "hey\n", [Chunk.Close]);
    var w1 := w0.(stdin := PipeState([Text("hey\n")] + [Chunk.Close], true));

    var after1 := [Text(">"), Text("c"), Text("c")];
    assert w1.ctx.term.inbound.buffer == [] + [Text("!")] + ([Text(cmd + "\n")] + after1);
    assert FullCommand(cmd, "hello") == cmd + " hello";
    RunsCommand(e, fuel - 1, "hello", NoCommand, w1, [], cmd, after1);
    SaveSecondLine(e, fuel - 2, AfterCommand(w1, "hello", cmd, true, after1), cmd);
  }
  /** The rest of `test_save`, from the second line on: `>` binds `c` to the command `cmd` that
      `!` ran on the first line, and `c` runs it on the second. */
  lemma SaveSecondLine(e: Env, fuel: nat, w2: World, cmd: string)
    requires Word(cmd)
    requires fuel >= 4
    requires w2.stdin == PipeState([Text("hey\n"), Chunk.Close], true)
    requires w2.ctx.term.inbound.buffer == [Text(""), Text(">"), Text("c"), Text("c")]
    requires w2.ctx.history == [Entry(cmd, true)] && w2.ctx.bindings == map[] && w2.ctx.executed == [cmd + " hello"]
    ensures var (o, w) := RunFrom(e, fuel, ReadingLine(FunctionCommand(Handler.Run)), w2);
            && o == EndOfInput
            && w.ctx.executed == [cmd + " hello", cmd + " hey"]
            && w.ctx.bindings == map["c" := Entry(cmd, true)]
  {
    assert "hey\n" == "hey" + "\n" + "";
    RunReadsWord(e, fuel, FunctionCommand(Handler.Run), w2, "hey", "", [Chunk.Close]);
    var w3 := w2.(stdin := PipeState([Text("")] + [Chunk.Close], true));

    assert w3.ctx.term.inbound.buffer == [Text([])] + [Text(">")] + ([Text(['c'])] + [Text("c")]);
    RunSavesLast(e, fuel - 1, "hey", FunctionCommand(Handler.Run), w3, [Text([])], 'c', [Text("c")]);
    var w4 := AfterSave(w3, "hey", 'c', [Text("c")]);

    assert w4.ctx.bindings == map["c" := Entry(cmd, true)];
    assert w4.ctx.term.inbound.buffer == [] + [Text(['c'])] + [];
    RunsBinding(e, fuel - 2, "hey", FunctionCommand(SaveLast), w4, [], 'c', []);
    var w5 := Typed(Echo(w4, "hey"), []).(ctx := Ran(Typed(Echo(w4, "hey"), []).ctx, cmd, "hey"));
    assert FullCommand(cmd, "hey") == cmd + " hey";

    assert w5.stdin.buffer == [Text([]), Chunk.Close] + [];
    RunReadsEnd(e, fuel - 3, FunctionCommand(RunStored(Entry(cmd, true))), w5, []);
  }
}
