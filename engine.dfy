/** The dispatch loop `run`: read a line of input, strip it, stop at the first empty one;
    otherwise show it on the terminal and let the current command handle it, reading a key
    to choose a new command whenever there is none or the current one is done. The loop
    goes on to the next line once `handle_line` answers truthy.

    Two versions are modelled: the packaged `sedshell.run` and the earlier single-file
    `cli-process.py`, which has no `/` key and crashes on a key it does not know. In the
    packaged version the `\` and `/` keys run the skip commands as intended (`SkipHandle`,
    the behaviour of `cli-process.py`); as written in `sedshell/commands.py` they raise
    `NameError` on their first line, which `Commands.PackagedSkipAlwaysRaises` shows. */
module Engine {
  import opened Strings
  import opened Pipes
  import opened Console
  import opened Commands
  import opened Store
  import opened Processes
  import opened Runner

  datatype Variant = Packaged | Cli

  /** The table of built-in keys. */
  function Builtins(v: Variant): (table: map<string, CommandClass<Handler>>)
    ensures forall k :: k in table ==> |k| == 1
  {
    var common := map[
      "!" := FunctionClass(Handler.Run),
      "&" := FunctionClass(Handler.RunNoConsume),
      "\U{4}" := FunctionClass(Handler.Exit),
      "^" := FunctionClass(Handler.Repeat),
      "$" := FunctionClass(Handler.RunShell),
      ">" := FunctionClass(Handler.SaveLast),
      "<" := FunctionClass(Handler.RunRaw),
      " " := FunctionClass(Handler.Skip),
      "?" := FunctionClass(Handler.ShowHelp),
      "\\" := SkipClass(SkipWhile)];
    match v
    case Packaged => common["/" := SkipClass(SkipUntil)]
    case Cli => common
  }

  function ClassDoc(cls: CommandClass<Handler>): string
  {
    match cls
    case FunctionClass(h) => HandlerDoc(h)
    case SkipClass(k) => SkipDoc(k)
  }

  /** The docs `menu(commands)` lists, by key. */
  function BuiltinDocs(v: Variant): (docs: map<string, string>)
    ensures docs.Keys == Builtins(v).Keys
    ensures forall k :: k in docs ==> |k| == 1
  {
    map k | k in Builtins(v) :: ClassDoc(Builtins(v)[k])
  }

  /** What `show_help` writes first. */
  function Help(v: Variant): string
  {
    HelpText(BuiltinDocs(v))
  }

  function Banner(v: Variant): string
  {
    match v
    case Packaged => "sedshell\n"
    case Cli => "cli-process\n"
  }

  /** `shell_store.lookup(c) or commands.get(c)`: a saved binding first, then the built-in. */
  function Resolve(v: Variant, bindings: map<string, Entry>, key: string): Option<CommandClass<Handler>>
  {
    if key in bindings then Some(FunctionClass(RunStored(bindings[key])))
    else if key in Builtins(v) then Some(Builtins(v)[key])
    else None
  }

  /** A saved binding hides the built-in of the same key; a key neither saved nor built in
      resolves to nothing. */
  lemma ResolveOrder(v: Variant, bindings: map<string, Entry>, key: string)
    ensures key in bindings ==> Resolve(v, bindings, key) == Some(FunctionClass(RunStored(bindings[key])))
    ensures key !in bindings && key in Builtins(v) ==> Resolve(v, bindings, key) == Some(Builtins(v)[key])
    ensures Resolve(v, bindings, key).None? <==> key !in bindings && key !in Builtins(v)
  {
  }

  /** The two tables differ only in `/`. */
  lemma VariantsDiffer()
    ensures Builtins(Packaged) - {"/"} == Builtins(Cli)
    ensures "/" in Builtins(Packaged) && "/" !in Builtins(Cli)
  {
  }

  // ---------------------------------------------------------------------------
  // the loop as a step function

  /** Where the loop is: about to read an input line, or working on one. */
  datatype Control = ReadingLine(command: Current<Handler>) | OnLine(line: string, command: Current<Handler>)

  /** The input pipe's state and everything the handlers see. */
  datatype World = World(stdin: PipeState, ctx: Ctx)

  /** How a run ends: an empty line (or end of input), `sys.exit`, an exception, a read that
      waits for input that never comes, or the fuel running out. */
  datatype Outcome = EndOfInput | Terminated | Crashed(error: PyError) | Stalled | OutOfFuel

  /** What stays fixed during a run: the version, the text of `menu(commands)`, which shell
      commands succeed, and the regular-expression oracle. */
  datatype Env = Env(variant: Variant, help: string, succeeds: string -> bool, matches: (string, string) -> bool)

  datatype StepResult = Continue(control: Control, world: World) | Stop(outcome: Outcome, world: World)

  /** `command.handle_line(terminal, line)`. */
  function HandleStep(e: Env, command: Current<Handler>, line: string, c: Ctx): (Reply, Current<Handler>, Ctx)
    requires !command.NoCommand?
  {
    match command
    case FunctionCommand(h) =>
      var (r, c') := HandlerStep(h, line, c, e.succeeds, e.help);
      (r, command, c')
    case Skipping(s) =>
      var (r, s', d') := SkipHandle(s, line, e.matches, c.term);
      (r, Skipping(s'), c.(term := d'))
  }

  /** `if finished: break`, or keep the line; exceptions, exit and waiting end the run. */
  function AfterReply(r: Reply, line: string, command: Current<Handler>, w: World): (s: StepResult)
    ensures s.world == w
  {
    match r
    case Returned(finished) => if finished then Continue(ReadingLine(command), w) else Continue(OnLine(line, command), w)
    case Exited => Stop(Terminated, w)
    case Raised(e) => Stop(Crashed(e), w)
    case Waits => Stop(Stalled, w)
  }

  function CommandStep(e: Env, command: Current<Handler>, line: string, w: World): StepResult
    requires !command.NoCommand?
  {
    var (r, command', c') := HandleStep(e, command, line, w.ctx);
    AfterReply(r, line, command', w.(ctx := c'))
  }

  /** A key that resolves to nothing: the packaged loop shows help and asks again for the same
      line; `cli-process.py` calls `None()` and dies with `TypeError`. */
  function UnknownKey(e: Env, line: string, w: World): StepResult
  {
    match e.variant
    case Cli => Stop(Crashed(TypeError), w)
    case Packaged => Continue(OnLine(line, NoCommand), w.(ctx := HandlerStep(ShowHelp, line, w.ctx, e.succeeds, e.help).1))
  }

  /** Resolve the key, make the command and let it handle the line. */
  function Choose(e: Env, line: string, key: string, w: World): StepResult
  {
    match Resolve(e.variant, w.ctx.bindings, key)
    case None => UnknownKey(e, line, w)
    case Some(cls) => CommandStep(e, Instantiate(cls), line, w)
  }

  /** Read a key from the terminal and act on it. */
  function KeyStep(e: Env, line: string, w: World): StepResult
  {
    var (key, d) := ReadCharFrom(w.ctx.term);
    var w' := w.(ctx := w.ctx.(term := d));
    match key
    case Blocked => Stop(Stalled, w')
    case Got(k) => Choose(e, line, k, w')
  }

  /** `terminal.write(line + "\n")`. */
  function Echo(w: World, line: string): World
  {
    w.(ctx := w.ctx.(term := WriteTo(w.ctx.term, line + "\n")))
  }

  /** One pass of either loop of `run`. */
  function Step(e: Env, control: Control, w: World): StepResult
  {
    match control
    case ReadingLine(command) =>
      var (reply, p) := ReadLineStep(w.stdin);
      var w' := w.(stdin := p);
      (match reply
       case Blocked => Stop(Stalled, w')
       case Got(l) => if Strip(l) == [] then Stop(EndOfInput, w') else Continue(OnLine(Strip(l), command), w'))
    case OnLine(line, command) =>
      var w' := Echo(w, line);
      if NeedsKey(command) then KeyStep(e, line, w')
      else CommandStep(e, command, line, w')
  }

  /** At most `fuel` passes of `step` from `control`: the shape of the two nested loops of
      `run`, where a pass either stops the run or says where the loops are next. */
  function Iterate(step: (Control, World) -> StepResult, fuel: nat, control: Control, w: World): (Outcome, World)
    decreases fuel, 0
  {
    if fuel == 0 then (OutOfFuel, w)
    else Proceed(step, fuel - 1, control, w)
  }

  /** A pass from `control`, then the rest of the run on the fuel left. */
  function Proceed(step: (Control, World) -> StepResult, fuel: nat, control: Control, w: World): (Outcome, World)
    decreases fuel, 1
  {
    match step(control, w)
    case Stop(o, w') => (o, w')
    case Continue(control', w') => Iterate(step, fuel, control', w')
  }

  function Pass(e: Env): (Control, World) -> StepResult
  {
    (control, w) => Step(e, control, w)
  }

  /** At most `fuel` passes of the loops of `run` from `control`. */
  function RunFrom(e: Env, fuel: nat, control: Control, w: World): (Outcome, World)
  {
    Iterate(Pass(e), fuel, control, w)
  }

  /** The terminal after the banner `run` writes before reading any input. */
  function Greeting(v: Variant, d: Duplex): Duplex
  {
    WriteTo(WriteTo(d, Banner(v)), "? - for help. Run with --help for documentation\n\n")
  }

  function Start(v: Variant, w: World): World
  {
    w.(ctx := w.ctx.(term := Greeting(v, w.ctx.term)))
  }

  // ---------------------------------------------------------------------------
  // what one pass does

  /** The loop ends exactly at the first input line that strips to nothing, which covers a
      blank line and the '' of end of input; any other line is worked on, stripped. */
  lemma EndsAtBlankLine(e: Env, command: Current<Handler>, w: World)
    ensures var r := Step(e, ReadingLine(command), w);
            var reply := ReadLineStep(w.stdin).0;
            && (r.Stop? && r.outcome == EndOfInput <==> reply.Got? && Strip(reply.text) == [])
            && (r.Continue? <==> reply.Got? && Strip(reply.text) != [])
            && (r.Continue? ==> r.control == OnLine(Strip(reply.text), command) && r.control.line != [])
            && r.world.ctx == w.ctx
  {
  }

  /** Working on a line never reads input, and always first shows the line on the terminal. */
  lemma EchoesFirst(e: Env, line: string, command: Current<Handler>, w: World)
    ensures var w' := Step(e, OnLine(line, command), w).world;
            var out := w.ctx.term.outbound.buffer;
            && w'.stdin == w.stdin
            && |w'.ctx.term.outbound.buffer| > |out|
            && w'.ctx.term.outbound.buffer[..|out| + 1] == out + [Text(line + "\n")]
  {
    var w1 := Echo(w, line);
    var out := w.ctx.term.outbound.buffer;
    var out1 := w1.ctx.term.outbound.buffer;
    OnLineAfterEcho(e, line, command, w);
    var w' := Step(e, OnLine(line, command), w).world;
    assert w'.ctx.term.outbound.buffer[..|out1|] == out1;
    assert w'.ctx.term.outbound.buffer[..|out| + 1] == out1[..|out| + 1];
  }

  /** After the echo, a pass adds to the screen and leaves the input alone. */
  lemma OnLineAfterEcho(e: Env, line: string, command: Current<Handler>, w: World)
    ensures var w1 := Echo(w, line);
            var w' := Step(e, OnLine(line, command), w).world;
            && w'.stdin == w.stdin
            && |w'.ctx.term.outbound.buffer| >= |w1.ctx.term.outbound.buffer|
            && w'.ctx.term.outbound.buffer[..|w1.ctx.term.outbound.buffer|] == w1.ctx.term.outbound.buffer
  {
    var w1 := Echo(w, line);
    if NeedsKey(command) {
      assert Step(e, OnLine(line, command), w) == KeyStep(e, line, w1);
      KeyStepGrowsScreen(e, line, w1);
    } else {
      assert Step(e, OnLine(line, command), w) == CommandStep(e, command, line, w1);
      CommandStepGrowsScreen(e, command, line, w1);
    }
  }

  /** A command carried over from the previous line (a skip command still skipping) handles the
      new line without a key being read; once it knows its regex it reads nothing at all. */
  lemma CarriedCommandReadsNoKey(e: Env, line: string, s: SkipState, w: World)
    requires !s.finished && s.regex.Some?
    ensures var r := Step(e, OnLine(line, Skipping(s)), w);
            && r.world.ctx.term.inbound == w.ctx.term.inbound
            && (r.Continue? ==> r.control.command.Skipping?)
  {
    var w1 := Echo(w, line);
    assert Step(e, OnLine(line, Skipping(s)), w) == CommandStep(e, Skipping(s), line, w1);
    SkipPromptsOnce(s, line, e.matches, w1.ctx.term);
  }

  /** A key that resolves to nothing: the packaged loop writes both menus and asks for another
      key for the same line; `cli-process.py` crashes with `TypeError`. */
  lemma UnknownKeyHandling(e: Env, line: string, w: World)
    ensures var r := UnknownKey(e, line, w);
            && (e.variant == Cli ==> r == Stop(Crashed(TypeError), w))
            && (e.variant == Packaged ==>
                && r == Continue(OnLine(line, NoCommand), r.world)
                && r.world.ctx.term.outbound.buffer == w.ctx.term.outbound.buffer + [Text(e.help), Text(StoreMenuText(w.ctx.bindings))]
                && r.world.ctx.term.inbound == w.ctx.term.inbound
                && r.world.ctx.history == w.ctx.history && r.world.ctx.bindings == w.ctx.bindings
                && r.world.ctx.executed == w.ctx.executed)
  {
  }

  /** The loop moves on to the next line exactly when `handle_line` answers truthy, and keeps the
      command it has for that line. */
  lemma AdvancesIffFinished(r: Reply, line: string, command: Current<Handler>, w: World)
    ensures var s := AfterReply(r, line, command, w);
            && (s.Continue? <==> r.Returned?)
            && (s.Continue? ==> s.control.command == command && s.world == w)
            && (s.Continue? ==> (s.control.ReadingLine? <==> r.finished))
  {
  }

  // ---------------------------------------------------------------------------
  // the screen only grows

  lemma SkipScreenGrows(s: SkipState, line: string, matches: (string, string) -> bool, d: Duplex)
    ensures var d' := SkipHandle(s, line, matches, d).2;
            |d'.outbound.buffer| >= |d.outbound.buffer| && d'.outbound.buffer[..|d.outbound.buffer|] == d.outbound.buffer
  {
    var out := d.outbound.buffer;
    if s.regex.Some? {
      assert SkipHandle(s, line, matches, d) == SkipDecide(s, s.regex.value, line, matches, d);
    } else {
      var p := PromptStep("Regex:", d);
      assert p.1.outbound.buffer == out + [Text("Regex:" + "\n")];
      if p.0.Got? {
        assert SkipHandle(s, line, matches, d) == SkipDecide(s, p.0.text, line, matches, p.1);
        assert (out + [Text("Regex:" + "\n")] + [Text("\n")])[..|out|] == out;
      } else {
        assert SkipHandle(s, line, matches, d) == (Waits, s, p.1);
      }
    }
  }

  lemma CommandStepGrowsScreen(e: Env, command: Current<Handler>, line: string, w: World)
    requires !command.NoCommand?
    ensures var w' := CommandStep(e, command, line, w).world;
            var out := w.ctx.term.outbound.buffer;
            && w'.stdin == w.stdin
            && |w'.ctx.term.outbound.buffer| >= |out| && w'.ctx.term.outbound.buffer[..|out|] == out
  {
    var (r, command', c') := HandleStep(e, command, line, w.ctx);
    assert CommandStep(e, command, line, w).world == w.(ctx := c');
    match command
    case FunctionCommand(h) =>
      assert c' == HandlerStep(h, line, w.ctx, e.succeeds, e.help).1;
      HandlerScreenGrows(h, line, w.ctx, e.succeeds, e.help);
    case Skipping(s) =>
      assert c'.term == SkipHandle(s, line, e.matches, w.ctx.term).2;
      SkipScreenGrows(s, line, e.matches, w.ctx.term);
  }

  lemma KeyStepGrowsScreen(e: Env, line: string, w: World)
    ensures var w' := KeyStep(e, line, w).world;
            var out := w.ctx.term.outbound.buffer;
            && w'.stdin == w.stdin
            && |w'.ctx.term.outbound.buffer| >= |out| && w'.ctx.term.outbound.buffer[..|out|] == out
  {
    var (key, d) := ReadCharFrom(w.ctx.term);
    var w' := w.(ctx := w.ctx.(term := d));
    if key.Got? {
      match Resolve(e.variant, w'.ctx.bindings, key.text)
      case None =>
        assert KeyStep(e, line, w) == UnknownKey(e, line, w');
        HandlerScreenGrows(ShowHelp, line, w'.ctx, e.succeeds, e.help);
      case Some(cls) =>
        assert KeyStep(e, line, w) == CommandStep(e, Instantiate(cls), line, w');
        CommandStepGrowsScreen(e, Instantiate(cls), line, w');
    }
  }

  /** The screen `b` shows everything `a` showed, and possibly more after it. */
  predicate Extends(a: seq<Chunk>, b: seq<Chunk>)
  {
    |a| <= |b| && b[..|a|] == a
  }

  lemma StepGrowsScreen(e: Env, control: Control, w: World)
    ensures Extends(w.ctx.term.outbound.buffer, Step(e, control, w).world.ctx.term.outbound.buffer)
  {
    match control
    case ReadingLine(_) =>
    case OnLine(line, command) =>
      var w1 := Echo(w, line);
      OnLineAfterEcho(e, line, command, w);
      var out := w.ctx.term.outbound.buffer;
      assert w1.ctx.term.outbound.buffer[..|out|] == out;
  }

  lemma ExtendsTransitive(a: seq<Chunk>, b: seq<Chunk>, c: seq<Chunk>)
    requires Extends(a, b) && Extends(b, c)
    ensures Extends(a, c)
  {
    assert c[..|a|] == c[..|b|][..|a|];
  }

  /** A pass that does not stop hands over to the rest of the run. */
  lemma IterateContinues(step: (Control, World) -> StepResult, fuel: nat, control: Control, w: World)
    requires fuel > 0 && step(control, w).Continue?
    ensures Iterate(step, fuel, control, w) == Iterate(step, fuel - 1, step(control, w).control, step(control, w).world)
  {
  }

  /** When no pass takes back what is on the screen, no run does. */
  lemma {:induction false} IterateGrows(step: (Control, World) -> StepResult, fuel: nat, control: Control, w: World)
    requires forall c: Control, x: World :: Extends(x.ctx.term.outbound.buffer, step(c, x).world.ctx.term.outbound.buffer)
    ensures Extends(w.ctx.term.outbound.buffer, Iterate(step, fuel, control, w).1.ctx.term.outbound.buffer)
  {
    if fuel > 0 {
      var s := step(control, w);
      if s.Continue? {
        IterateGrows(step, fuel - 1, s.control, s.world);
        ExtendsTransitive(w.ctx.term.outbound.buffer, s.world.ctx.term.outbound.buffer, Iterate(step, fuel - 1, s.control, s.world).1.ctx.term.outbound.buffer);
      }
    }
  }

  /** Nothing the dispatcher writes to the terminal is ever taken back: the screen at the end of
      a run begins with the screen at its start. */
  lemma ScreenOnlyGrows(e: Env, fuel: nat, control: Control, w: World)
    ensures Extends(w.ctx.term.outbound.buffer, RunFrom(e, fuel, control, w).1.ctx.term.outbound.buffer)
  {
    forall c: Control, x: World ensures Extends(x.ctx.term.outbound.buffer, Pass(e)(c, x).world.ctx.term.outbound.buffer) {
      StepGrowsScreen(e, c, x);
    }
    IterateGrows(Pass(e), fuel, control, w);
  }

  /** A pass that comes back to where it started, in a world that still satisfies `P`, repeats
      for ever: the run only ends when the fuel does. */
  lemma {:induction false} IterateSpins(step: (Control, World) -> StepResult, fuel: nat, control: Control, w: World, P: World -> bool)
    requires P(w)
    requires forall x :: P(x) ==> step(control, x).Continue? && step(control, x).control == control && P(step(control, x).world)
    ensures Iterate(step, fuel, control, w).0 == OutOfFuel
  {
    if fuel > 0 {
      IterateSpins(step, fuel - 1, control, step(control, w).world, P);
    }
  }

  /** The terminal is closed and '' is bound to nothing. */
  predicate ClosedAndUnbound(w: World)
  {
    w.ctx.term.inbound.buffer != [] && w.ctx.term.inbound.buffer[0] == Chunk.Close && "" !in w.ctx.bindings
  }

  lemma ClosedStepRepeats(e: Env, line: string, w: World)
    requires e.variant == Packaged && ClosedAndUnbound(w)
    ensures var s := Step(e, OnLine(line, NoCommand), w);
            s.Continue? && s.control == OnLine(line, NoCommand) && ClosedAndUnbound(s.world)
  {
    var w1 := Echo(w, line);
    assert ReadCharFrom(w1.ctx.term) == (Got([]), w1.ctx.term);
    assert Resolve(e.variant, w1.ctx.bindings, "").None? by {
      assert "" !in Builtins(Packaged);
    }
    assert Step(e, OnLine(line, NoCommand), w) == UnknownKey(e, line, w1);
  }

  /** Once the terminal is closed, `readchar` answers '' for ever; with '' bound to nothing the
      packaged loop shows help again and again on the same line and never ends. */
  lemma ClosedTerminalSpins(e: Env, fuel: nat, line: string, w: World)
    requires e.variant == Packaged
    requires w.ctx.term.inbound.buffer != [] && w.ctx.term.inbound.buffer[0] == Chunk.Close
    requires "" !in w.ctx.bindings
    ensures RunFrom(e, fuel, OnLine(line, NoCommand), w).0 == OutOfFuel
  {
    forall x | ClosedAndUnbound(x)
      ensures Pass(e)(OnLine(line, NoCommand), x).Continue? && Pass(e)(OnLine(line, NoCommand), x).control == OnLine(line, NoCommand)
      ensures ClosedAndUnbound(Pass(e)(OnLine(line, NoCommand), x).world)
    {
      ClosedStepRepeats(e, line, x);
    }
    IterateSpins(Pass(e), fuel, OnLine(line, NoCommand), w, ClosedAndUnbound);
  }

  // ---------------------------------------------------------------------------
  // the imperative loop

  /** The command the loop holds: none, a function command, or a skip command object. */
  datatype Active = Idle | Function(handler: Handler) | Skipper(obj: SkipCommand)

  ghost function Abs(command: Active): Current<Handler>
    reads if command.Skipper? then {command.obj} else {}
  {
    match command
    case Idle => NoCommand
    case Function(h) => FunctionCommand(h)
    case Skipper(o) => Skipping(o.State())
  }

  ghost function Snapshot(stdin: BidirectionalPipe, terminal: BidirectionalPipe, runner: ShellRunner): World
    reads stdin.incoming, terminal.incoming, terminal.outgoing, runner, runner.store.file, runner.shell
  {
    World(stdin.incoming.View(), runner.CtxOf(terminal))
  }

  /** `CommandClass()`. */
  method NewCommand(cls: CommandClass<Handler>) returns (command: Active)
    ensures command.Skipper? ==> fresh(command.obj)
    ensures Abs(command) == Instantiate(cls)
  {
    match cls
    case FunctionClass(h) => command := Function(h);
    case SkipClass(k) =>
      var obj := new SkipCommand(k);
      command := Skipper(obj);
  }

  /** `shell_store.lookup(c) or commands.get(c)`. */
  method ResolveKey(v: Variant, store: ShellCommandStore, key: string) returns (cls: Option<CommandClass<Handler>>)
    ensures cls == Resolve(v, store.file.commands, key)
  {
    var found := store.Lookup(key);
    if found.Some? {
      cls := Some(FunctionClass(RunStored(found.value)));
    } else if key in Builtins(v) {
      cls := Some(Builtins(v)[key]);
    } else {
      cls := None;
    }
  }

  /** `command.handle_line(terminal, line)`. */
  method HandleLine(v: Variant, command: Active, runner: ShellRunner, terminal: BidirectionalPipe, line: string, matches: (string, string) -> bool)
    returns (r: Reply)
    requires !command.Idle?
    requires terminal.incoming != terminal.outgoing
    modifies if command.Skipper? then {command.obj} else {}
    modifies runner, terminal.incoming, terminal.outgoing, runner.store.file, runner.shell
    ensures var (r', command', c') := HandleStep(Env(v, Help(v), runner.shell.succeeds, matches), old(Abs(command)), line, old(runner.CtxOf(terminal)));
            r == r' && Abs(command) == command' && runner.CtxOf(terminal) == c'
  {
    match command
    case Function(h) =>
      var help := Menu(BuiltinDocs(v));
      r := runner.Call(h, terminal, line, help);
    case Skipper(obj) =>
      r := obj.HandleLine(terminal, line, matches);
  }

  /** What became of a line after one pass: done with it, to be handled again, or the end. */
  datatype Verdict = Finished | Again | Halt(outcome: Outcome)

  /** The verdict and the world after it are what the pass `s` says, `next` being the command
      the loops go on with. */
  predicate Reports(s: StepResult, line: string, next: Current<Handler>, verdict: Verdict, w: World)
  {
    && s.world == w
    && (verdict.Halt? <==> s.Stop?)
    && (verdict.Halt? ==> verdict.outcome == s.outcome)
    && (verdict.Finished? ==> s.control == ReadingLine(next))
    && (verdict.Again? ==> s.control == OnLine(line, next))
  }

  function VerdictOf(r: Reply): Verdict
  {
    match r
    case Returned(finished) => if finished then Finished else Again
    case Exited => Halt(Terminated)
    case Raised(error) => Halt(Crashed(error))
    case Waits => Halt(Stalled)
  }

  lemma AfterReplyReports(r: Reply, line: string, command: Current<Handler>, w: World)
    ensures Reports(AfterReply(r, line, command, w), line, command, VerdictOf(r), w)
  {
  }

  /** What is left of a run once a pass of the loops has given `verdict`: the outcome itself if
      it stopped, otherwise the rest of the run from where it goes on. */
  function Remaining(step: (Control, World) -> StepResult, fuel: nat, line: string, verdict: Verdict,
                     next: Current<Handler>, w: World): (Outcome, World)
  {
    match verdict
    case Again => Iterate(step, fuel, OnLine(line, next), w)
    case Finished => Iterate(step, fuel, ReadingLine(next), w)
    case Halt(o) => (o, w)
  }

  /** Once a command is done with the line, what is left of the run no longer depends on it. */
  lemma LineIrrelevant(step: (Control, World) -> StepResult, fuel: nat, line: string, verdict: Verdict,
                       next: Current<Handler>, w: World)
    requires !verdict.Again?
    ensures Remaining(step, fuel, line, verdict, next, w) == Remaining(step, fuel, "", verdict, next, w)
  {
  }

  /** A step that stops ends the run; one that goes on spends one unit of fuel. */
  lemma Advance(step: (Control, World) -> StepResult, fuel: nat, control: Control, w: World,
                line: string, next: Current<Handler>, verdict: Verdict, w': World)
    requires fuel > 0 && Reports(step(control, w), line, next, verdict, w')
    ensures Iterate(step, fuel, control, w) == Remaining(step, if verdict.Halt? then fuel else fuel - 1, line, verdict, next, w')
  {
  }

  /** `Advance` for the passes of `run`. */
  lemma StepAdvance(e: Env, fuel: nat, control: Control, w: World,
                    line: string, next: Current<Handler>, verdict: Verdict, w': World)
    requires fuel > 0 && Reports(Step(e, control, w), line, next, verdict, w')
    ensures Iterate(Pass(e), fuel, control, w) == Remaining(Pass(e), if verdict.Halt? then fuel else fuel - 1, line, verdict, next, w')
  {
    assert Pass(e)(control, w) == Step(e, control, w);
    Advance(Pass(e), fuel, control, w, line, next, verdict, w');
  }

  /** `command.handle_line(terminal, line)` and what the loop makes of its answer. */
  method HandleWith(v: Variant, line: string, command: Active, terminal: BidirectionalPipe, runner: ShellRunner,
                    matches: (string, string) -> bool, ghost e: Env, ghost w: World)
    returns (verdict: Verdict)
    requires !command.Idle?
    requires terminal.incoming != terminal.outgoing
    requires e == Env(v, Help(v), runner.shell.succeeds, matches)
    requires w.ctx == runner.CtxOf(terminal)
    modifies if command.Skipper? then {command.obj} else {}
    modifies runner, terminal.incoming, terminal.outgoing, runner.store.file, runner.shell
    ensures Reports(CommandStep(e, old(Abs(command)), line, w), line, Abs(command), verdict, w.(ctx := runner.CtxOf(terminal)))
  {
    var r := HandleLine(v, command, runner, terminal, line, matches);
    AfterReplyReports(r, line, Abs(command), w.(ctx := runner.CtxOf(terminal)));
    verdict := VerdictOf(r);
  }

  /** A key that resolves to nothing: the packaged loop shows help and keeps the line;
      `cli-process.py` dies calling `None()`. */
  method RejectKey(v: Variant, line: string, terminal: BidirectionalPipe, runner: ShellRunner,
                   matches: (string, string) -> bool, ghost e: Env, ghost w: World)
    returns (verdict: Verdict)
    requires terminal.incoming != terminal.outgoing
    requires e == Env(v, Help(v), runner.shell.succeeds, matches)
    requires w.ctx == runner.CtxOf(terminal)
    modifies runner, terminal.incoming, terminal.outgoing, runner.store.file, runner.shell
    ensures Reports(UnknownKey(e, line, w), line, NoCommand, verdict, w.(ctx := runner.CtxOf(terminal)))
  {
    if v == Cli {
      return Halt(Crashed(TypeError));
    }
    var help := Menu(BuiltinDocs(v));
    var _ := runner.ShowHelp(terminal, line, help);
    verdict := Again;
  }

  /** Find the command of a key and let it handle the line. */
  method ChooseCommand(v: Variant, line: string, key: string, terminal: BidirectionalPipe, runner: ShellRunner,
                       matches: (string, string) -> bool, ghost e: Env, ghost w: World)
    returns (next: Active, verdict: Verdict)
    requires terminal.incoming != terminal.outgoing
    requires e == Env(v, Help(v), runner.shell.succeeds, matches)
    requires w.ctx == runner.CtxOf(terminal)
    modifies runner, terminal.incoming, terminal.outgoing, runner.store.file, runner.shell
    ensures next.Skipper? ==> fresh(next.obj)
    ensures Reports(Choose(e, line, key, w), line, Abs(next), verdict, w.(ctx := runner.CtxOf(terminal)))
  {
    var cls := ResolveKey(v, runner.store, key);
    if cls.None? {
      assert Choose(e, line, key, w) == UnknownKey(e, line, w);
      next := Idle;
      verdict := RejectKey(v, line, terminal, runner, matches, e, w);
      return;
    }
    assert Choose(e, line, key, w) == CommandStep(e, Instantiate(cls.value), line, w);
    next, verdict := StartCommand(v, line, cls.value, terminal, runner, matches, e, w);
  }

  /** `cls()`, then `handle_line` on the new command. */
  method StartCommand(v: Variant, line: string, cls: CommandClass<Handler>, terminal: BidirectionalPipe, runner: ShellRunner,
                      matches: (string, string) -> bool, ghost e: Env, ghost w: World)
    returns (next: Active, verdict: Verdict)
    requires terminal.incoming != terminal.outgoing
    requires e == Env(v, Help(v), runner.shell.succeeds, matches)
    requires w.ctx == runner.CtxOf(terminal)
    modifies runner, terminal.incoming, terminal.outgoing, runner.store.file, runner.shell
    ensures next.Skipper? ==> fresh(next.obj)
    ensures Reports(CommandStep(e, Instantiate(cls), line, w), line, Abs(next), verdict, w.(ctx := runner.CtxOf(terminal)))
  {
    next := NewCommand(cls);
    verdict := HandleWith(v, line, next, terminal, runner, matches, e, w);
  }

  /** Read a key, find its command and let it handle the line. */
  method TakeKey(v: Variant, line: string, terminal: BidirectionalPipe, runner: ShellRunner,
                 matches: (string, string) -> bool, ghost e: Env, ghost w: World)
    returns (next: Active, verdict: Verdict)
    requires terminal.incoming != terminal.outgoing
    requires e == Env(v, Help(v), runner.shell.succeeds, matches)
    requires w.ctx == runner.CtxOf(terminal)
    modifies runner, terminal.incoming, terminal.outgoing, runner.store.file, runner.shell
    ensures next.Skipper? ==> fresh(next.obj)
    ensures Reports(KeyStep(e, line, w), line, Abs(next), verdict, w.(ctx := runner.CtxOf(terminal)))
  {
    var key := terminal.ReadChar();
    ghost var w' := w.(ctx := runner.CtxOf(terminal));
    if key.Blocked? {
      return Idle, Halt(Stalled);
    }
    next, verdict := ChooseCommand(v, line, key.text, terminal, runner, matches, e, w');
  }

  /** One pass of the inner loop of `run`: show the line, find a command if needed, and let it
      handle the line. */
  method WorkOnLine(v: Variant, line: string, command: Active, terminal: BidirectionalPipe, runner: ShellRunner,
                    matches: (string, string) -> bool, ghost e: Env, ghost current: Current<Handler>, ghost w: World)
    returns (next: Active, verdict: Verdict)
    requires terminal.incoming != terminal.outgoing
    requires e == Env(v, Help(v), runner.shell.succeeds, matches)
    requires current == Abs(command) && w.ctx == runner.CtxOf(terminal)
    modifies if command.Skipper? then {command.obj} else {}
    modifies runner, terminal.incoming, terminal.outgoing, runner.store.file, runner.shell
    ensures next.Skipper? ==> next == command || fresh(next.obj)
    ensures Reports(Step(e, OnLine(line, current), w), line, Abs(next), verdict, w.(ctx := runner.CtxOf(terminal)))
  {
    terminal.Write(line + "\n");
    ghost var w1 := Echo(w, line);
    assert w1.ctx == runner.CtxOf(terminal);
    if command.Idle? || command.Function? || command.obj.finished {
      OnLineCases(e, line, current, w);
      next, verdict := TakeKey(v, line, terminal, runner, matches, e, w1);
    } else {
      OnLineCases(e, line, current, w);
      next := command;
      verdict := HandleWith(v, line, command, terminal, runner, matches, e, w1);
    }
  }

  lemma OnLineCases(e: Env, line: string, command: Current<Handler>, w: World)
    ensures NeedsKey(command) ==> Step(e, OnLine(line, command), w) == KeyStep(e, line, Echo(w, line))
    ensures !NeedsKey(command) ==> Step(e, OnLine(line, command), w) == CommandStep(e, command, line, Echo(w, line))
  {
  }

  /** The outer loop's pass: read a line of input, strip it, and stop at an empty one. */
  method NextLine(stdin: BidirectionalPipe, ghost e: Env, ghost command: Current<Handler>, ghost c: Ctx)
    returns (line: string, verdict: Verdict)
    modifies stdin.incoming
    ensures Reports(Step(e, ReadingLine(command), World(old(stdin.incoming.View()), c)), line, command, verdict, World(stdin.incoming.View(), c))
    ensures !verdict.Finished?
  {
    var reply := stdin.ReadLine();
    line := [];
    if reply.Blocked? {
      return line, Halt(Stalled);
    }
    line := Strip(reply.text);
    verdict := if line == [] then Halt(EndOfInput) else Again;
  }

  /** One pass of the inner loop of `run`: echo the line and have the current command, or the
      one the next key chooses, handle it. */
  method WorkOnce(v: Variant, line: string, command: Active, terminal: BidirectionalPipe, runner: ShellRunner,
                  matches: (string, string) -> bool, fuel: nat, ghost e: Env, ghost input: PipeState)
    returns (next: Active, verdict: Verdict, left: nat)
    requires terminal.incoming != terminal.outgoing
    requires e == Env(v, Help(v), runner.shell.succeeds, matches)
    modifies if command.Skipper? then {command.obj} else {}
    modifies runner, terminal.incoming, terminal.outgoing, runner.store.file, runner.shell
    ensures next.Skipper? ==> next == command || fresh(next.obj)
    ensures left <= fuel && (verdict.Again? ==> left < fuel)
    ensures Iterate(Pass(e), fuel, OnLine(line, old(Abs(command))), World(input, old(runner.CtxOf(terminal))))
            == Remaining(Pass(e), left, line, verdict, Abs(next), World(input, runner.CtxOf(terminal)))
  {
    if fuel == 0 {
      next, verdict, left := command, Halt(OutOfFuel), 0;
      return;
    }
    ghost var here := OnLine(line, Abs(command));
    ghost var at := World(input, runner.CtxOf(terminal));
    next, verdict := WorkOnLine(v, line, command, terminal, runner, matches, e, here.command, at);
    StepAdvance(e, fuel, here, at, line, Abs(next), verdict, World(input, runner.CtxOf(terminal)));
    left := if verdict.Halt? then fuel else fuel - 1;
  }

  /** The inner loop of `run`: work on one line until a command is done with it. */
  method WorkUntilDone(v: Variant, line: string, command: Active, terminal: BidirectionalPipe, runner: ShellRunner,
                       matches: (string, string) -> bool, fuel: nat, ghost e: Env, ghost input: PipeState)
    returns (next: Active, verdict: Verdict, left: nat)
    requires terminal.incoming != terminal.outgoing
    requires e == Env(v, Help(v), runner.shell.succeeds, matches)
    modifies if command.Skipper? then {command.obj} else {}
    modifies runner, terminal.incoming, terminal.outgoing, runner.store.file, runner.shell
    ensures next.Skipper? ==> next == command || fresh(next.obj)
    ensures left <= fuel && !verdict.Again?
    ensures Iterate(Pass(e), fuel, OnLine(line, old(Abs(command))), World(input, old(runner.CtxOf(terminal))))
            == Remaining(Pass(e), left, line, verdict, Abs(next), World(input, runner.CtxOf(terminal)))
  {
    ghost var goal := Iterate(Pass(e), fuel, OnLine(line, Abs(command)), World(input, runner.CtxOf(terminal)));
    next, verdict, left := command, Again, fuel;
    while verdict.Again?
      invariant next.Skipper? ==> next == command || fresh(next.obj)
      invariant left <= fuel
      invariant goal == Remaining(Pass(e), left, line, verdict, Abs(next), World(input, runner.CtxOf(terminal)))
      decreases left, if verdict.Again? then 1 else 0
    {
      next, verdict, left := WorkOnce(v, line, next, terminal, runner, matches, left, e, input);
    }
  }

  /** The inner loop seen from the outer one: the input pipe is left alone while a line is
      worked on, and once a command is done the line no longer matters. */
  method FinishLine(v: Variant, stdin: BidirectionalPipe, line: string, command: Active, terminal: BidirectionalPipe,
                    runner: ShellRunner, matches: (string, string) -> bool, fuel: nat, ghost e: Env)
    returns (next: Active, verdict: Verdict, left: nat)
    requires terminal.incoming != terminal.outgoing
    requires stdin.incoming != terminal.incoming && stdin.incoming != terminal.outgoing
    requires e == Env(v, Help(v), runner.shell.succeeds, matches)
    modifies if command.Skipper? then {command.obj} else {}
    modifies runner, terminal.incoming, terminal.outgoing, runner.store.file, runner.shell
    ensures next.Skipper? ==> next == command || fresh(next.obj)
    ensures left <= fuel && !verdict.Again?
    ensures Iterate(Pass(e), fuel, OnLine(line, old(Abs(command))), old(Snapshot(stdin, terminal, runner)))
            == Remaining(Pass(e), left, "", verdict, Abs(next), Snapshot(stdin, terminal, runner))
  {
    ghost var input := stdin.incoming.View();
    next, verdict, left := WorkUntilDone(v, line, command, terminal, runner, matches, fuel, e, input);
    LineIrrelevant(Pass(e), left, line, verdict, Abs(next), World(input, runner.CtxOf(terminal)));
  }

  /** Read the next line of input: the first step of a pass of the outer loop of `run`. */
  method AwaitLine(stdin: BidirectionalPipe, terminal: BidirectionalPipe, runner: ShellRunner, fuel: nat,
                   ghost e: Env, ghost command: Current<Handler>)
    returns (line: string, verdict: Verdict, left: nat)
    requires fuel > 0
    requires stdin.incoming != terminal.incoming && stdin.incoming != terminal.outgoing
    modifies stdin.incoming
    ensures left == (if verdict.Halt? then fuel else fuel - 1) && !verdict.Finished?
    ensures Iterate(Pass(e), fuel, ReadingLine(command), old(Snapshot(stdin, terminal, runner)))
            == Remaining(Pass(e), left, line, verdict, command, Snapshot(stdin, terminal, runner))
  {
    ghost var control := ReadingLine(command);
    ghost var c := runner.CtxOf(terminal);
    ghost var before := World(stdin.incoming.View(), c);
    line, verdict := NextLine(stdin, e, command, c);
    StepAdvance(e, fuel, control, before, line, command, verdict, World(stdin.incoming.View(), c));
    left := if verdict.Halt? then fuel else fuel - 1;
  }

  /** One pass of the outer loop of `run`: read a line and work on it until a command is done. */
  method ReadOnce(v: Variant, stdin: BidirectionalPipe, command: Active, terminal: BidirectionalPipe, runner: ShellRunner,
                  matches: (string, string) -> bool, fuel: nat, ghost e: Env)
    returns (next: Active, verdict: Verdict, left: nat)
    requires terminal.incoming != terminal.outgoing
    requires stdin.incoming != terminal.incoming && stdin.incoming != terminal.outgoing
    requires e == Env(v, Help(v), runner.shell.succeeds, matches)
    modifies if command.Skipper? then {command.obj} else {}
    modifies stdin.incoming, runner, terminal.incoming, terminal.outgoing, runner.store.file, runner.shell
    ensures next.Skipper? ==> next == command || fresh(next.obj)
    ensures left <= fuel && !verdict.Again? && (verdict.Finished? ==> left < fuel)
    ensures Iterate(Pass(e), fuel, ReadingLine(old(Abs(command))), old(Snapshot(stdin, terminal, runner)))
            == Remaining(Pass(e), left, "", verdict, Abs(next), Snapshot(stdin, terminal, runner))
  {
    next := command;
    if fuel == 0 {
      verdict, left := Halt(OutOfFuel), 0;
      return;
    }
    var line;
    line, verdict, left := AwaitLine(stdin, terminal, runner, fuel, e, Abs(command));
    if verdict.Again? {
      next, verdict, left := FinishLine(v, stdin, line, command, terminal, runner, matches, left, e);
    } else {
      LineIrrelevant(Pass(e), left, line, verdict, Abs(next), Snapshot(stdin, terminal, runner));
    }
  }

  /** What a run leaves behind that outlives it: the input pipe, the terminal, the saved
      bindings and the commands run. */
  function Visible(w: World): (PipeState, Duplex, map<string, Entry>, seq<string>)
  {
    (w.stdin, w.ctx.term, w.ctx.bindings, w.ctx.executed)
  }

  /** The loops of `run`, from the first line read until one pass stops the run or `fuel`
      passes have been made. */
  method Serve(v: Variant, stdin: BidirectionalPipe, terminal: BidirectionalPipe, runner: ShellRunner,
               matches: (string, string) -> bool, fuel: nat, ghost e: Env)
    returns (outcome: Outcome)
    requires terminal.incoming != terminal.outgoing
    requires stdin.incoming != terminal.incoming && stdin.incoming != terminal.outgoing
    requires e == Env(v, Help(v), runner.shell.succeeds, matches)
    modifies stdin.incoming, runner, terminal.incoming, terminal.outgoing, runner.store.file, runner.shell
    ensures (outcome, Snapshot(stdin, terminal, runner)) == Iterate(Pass(e), fuel, ReadingLine(NoCommand), old(Snapshot(stdin, terminal, runner)))
  {
    ghost var goal := Iterate(Pass(e), fuel, ReadingLine(NoCommand), Snapshot(stdin, terminal, runner));
    var command: Active := Idle;
    var budget := fuel;
    var verdict := Finished;
    while verdict.Finished?
      invariant command.Skipper? ==> fresh(command.obj)
      invariant !verdict.Again?
      invariant goal == Remaining(Pass(e), budget, "", verdict, Abs(command), Snapshot(stdin, terminal, runner))
      decreases budget, if verdict.Finished? then 1 else 0
    {
      command, verdict, budget := ReadOnce(v, stdin, command, terminal, runner, matches, budget, e);
    }
    outcome := verdict.outcome;
  }

  /** The objects `run` builds before it reads: the store over `data.json` and the runner. */
  method Setup(data: DataFile, shell: Shell) returns (runner: ShellRunner)
    ensures fresh(runner) && fresh(runner.store)
    ensures runner.store.file == data && runner.shell == shell && runner.history == []
  {
    var store := new ShellCommandStore(data);
    runner := new ShellRunner(store, shell);
  }

  /** The banner `run` writes before it reads. */
  method Greet(v: Variant, terminal: BidirectionalPipe)
    requires terminal.incoming != terminal.outgoing
    modifies terminal.incoming, terminal.outgoing
    ensures terminal.View() == Greeting(v, old(terminal.View()))
  {
    terminal.Write(Banner(v));
    terminal.Write("? - for help. Run with --help for documentation\n\n");
  }

  /** `run(argv, stdin, terminal)` with at most `fuel` passes of its loops. `data` is the
      configuration directory's `data.json`, which outlives the run; `shell` runs the commands. */
  method Run(v: Variant, stdin: BidirectionalPipe, terminal: BidirectionalPipe, data: DataFile, shell: Shell,
             matches: (string, string) -> bool, fuel: nat)
    returns (outcome: Outcome)
    requires terminal.incoming != terminal.outgoing
    requires stdin.incoming != terminal.incoming && stdin.incoming != terminal.outgoing
    modifies stdin.incoming, terminal.incoming, terminal.outgoing, data, shell
    ensures var w0 := World(old(stdin.incoming.View()), Ctx(old(terminal.View()), [], old(data.commands), old(shell.executed)));
            var (o, w) := RunFrom(Env(v, Help(v), shell.succeeds, matches), fuel, ReadingLine(NoCommand), Start(v, w0));
            (outcome, (stdin.incoming.View(), terminal.View(), data.commands, shell.executed)) == (o, Visible(w))
  {
    var runner := Setup(data, shell);
    Greet(v, terminal);
    outcome := Serve(v, stdin, terminal, runner, matches, fuel, Env(v, Help(v), shell.succeeds, matches));
  }
}
