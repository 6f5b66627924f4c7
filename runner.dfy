/** `ShellRunner`: the functions behind the built-in keys, sharing a history of the
    commands typed at `!` and `&`. Each one takes the terminal and the current input line
    and returns whether it is finished with the line. `show_help` (a closure of `run`) and
    the function a stored binding runs (a closure of `ShellCommandStore.lookup`) are
    modelled here too, since they have the same shape. */
module Runner {
  import opened Strings
  import opened Pipes
  import opened Console
  import opened Commands
  import opened Store
  import opened Processes

  /** The functions `Command.from_function` wraps. */
  datatype Handler =
    | Run | RunNoConsume | Exit | Repeat | RunShell | SaveLast | RunRaw | Skip
    | ShowHelp
    | RunStored(entry: Entry)

  /** The docstring of each function, which `menu` shows. A stored binding's function has none. */
  function HandlerDoc(h: Handler): string
  {
    match h
    case Run => "Run a shell command on the line"
    case RunNoConsume => "Run a shell command, but allow other commands to run"
    case Exit => "Exit"
    case Repeat => "Repeat the last command"
    case RunShell => "Start an interactive shell"
    case SaveLast => "Save the last command to a key"
    case RunRaw => "Run a command and print output (ignoring line)"
    case Skip => "Skip this line"
    case ShowHelp => "List commands"
    case RunStored(_) => "None"
  }

  /** Everything a handler can see or change: the terminal, the history, the saved bindings and
      the shell's log. */
  datatype Ctx = Ctx(term: Duplex, history: seq<Entry>, bindings: map<string, Entry>, executed: seq<string>)

  function Last(history: seq<Entry>): Entry
    requires history != []
  {
    history[|history| - 1]
  }

  /** `run_command(command, line)` on the context: log the full command, answer its success. */
  function Exec(c: Ctx, command: string, line: string, succeeds: string -> bool): (bool, Ctx)
  {
    (succeeds(FullCommand(command, line)), c.(executed := c.executed + [FullCommand(command, line)]))
  }

  /** `_read_command(terminal, consume)`: ask `Command:`, read a line, strip it and remember it
      with `consume` in the history. */
  function ReadCommandStep(c: Ctx, consume: bool): (Option<string>, Ctx)
  {
    var (reply, d) := ReadLineFrom(WriteTo(c.term, "Command:\n"));
    match reply
    case Blocked => (None, c.(term := d))
    case Got(l) => (Some(Strip(l)), c.(term := d, history := c.history + [Entry(Strip(l), consume)]))
  }

  /** What calling a handler on `line` does. `help` is the built-in menu `show_help` writes. */
  function HandlerStep(h: Handler, line: string, c: Ctx, succeeds: string -> bool, help: string): (Reply, Ctx)
  {
    match h
    case Run =>
      var (command, c1) := ReadCommandStep(c, true);
      if command.None? then (Waits, c1)
      else
        var (ok, c2) := Exec(c1, command.value, line, succeeds);
        (Returned(ok), c2)
    case RunNoConsume =>
      var (command, c1) := ReadCommandStep(c, false);
      if command.None? then (Waits, c1)
      else (Returned(false), Exec(c1, command.value, line, succeeds).1)
    case Exit => (Exited, c)
    case Repeat =>
      if c.history == [] then (Raised(IndexError), c)
      else
        var (ok, c1) := Exec(c, Last(c.history).command, line, succeeds);
        (Returned(Last(c.history).consume && ok), c1)
    case RunShell => (Returned(false), c)
    case SaveLast =>
      var (key, d) := ReadCharFrom(WriteTo(c.term, "Command letter?\n"));
      if key.Blocked? then (Waits, c.(term := d))
      else if c.history == [] then (Raised(IndexError), c.(term := d))
      else (Returned(false), c.(term := d, bindings := c.bindings[key.text := Last(c.history)]))
    case RunRaw =>
      var (reply, d) := ReadLineFrom(WriteTo(c.term, "Command:\n"));
      if reply.Blocked? then (Waits, c.(term := d))
      else (Returned(false), c.(term := d, executed := c.executed + [Strip(reply.text)]))
    case Skip => (Returned(true), c)
    case ShowHelp => (Returned(false), c.(term := WriteTo(WriteTo(c.term, help), StoreMenuText(c.bindings))))
    case RunStored(e) => (Returned(e.consume), Exec(c, e.command, line, succeeds).1)
  }

  /** Whether each handler is finished with the line: `skip` always, `run` when the command
      succeeded, `repeat` when the repeated command consumes and succeeded, a stored binding when
      it consumes (whatever the exit status), and every other handler never. */
  lemma FinishedTable(h: Handler, line: string, c: Ctx, succeeds: string -> bool, help: string)
    ensures var (r, c') := HandlerStep(h, line, c, succeeds, help);
            r.Returned? ==>
              r.finished == match h
                case Skip => true
                case Run => succeeds(FullCommand(Last(c'.history).command, line))
                case Repeat => Last(c.history).consume && succeeds(FullCommand(Last(c.history).command, line))
                case RunStored(e) => e.consume
                case _ => false
  {
    match h
    case Run =>
      var (command, c1) := ReadCommandStep(c, true);
      if command.Some? {
        assert Last(c1.history).command == command.value;
      }
    case _ =>
  }

  /** Only `exit` exits, and only `repeat` and `save_last` raise, both with `IndexError` and only
      on an empty history. */
  lemma ExitsAndErrors(h: Handler, line: string, c: Ctx, succeeds: string -> bool, help: string)
    ensures var (r, c') := HandlerStep(h, line, c, succeeds, help);
            && (r == Exited <==> h == Exit)
            && (r.Raised? ==> r == Raised(IndexError) && (h == Repeat || h == SaveLast) && c.history == [])
            && (h == Repeat && c.history == [] ==> r == Raised(IndexError))
            && (h == SaveLast && c.history == [] && ReadCharFrom(WriteTo(c.term, "Command letter?\n")).0.Got?
                ==> r == Raised(IndexError))
  {
  }

  /** `!` and `&` wait exactly when no reply line comes; otherwise they remember the reply line,
      stripped, with `consume` true and false respectively, and run it on the line. No other
      handler touches the history. */
  lemma HistoryRecordsPrompts(h: Handler, line: string, c: Ctx, succeeds: string -> bool, help: string)
    ensures var (r, c') := HandlerStep(h, line, c, succeeds, help);
            var reply := ReadLineFrom(WriteTo(c.term, "Command:\n")).0;
            if h == Run || h == RunNoConsume then
              && (r != Waits <==> reply.Got?)
              && (reply.Got? ==>
                    && |c'.history| == |c.history| + 1 && c'.history[..|c.history|] == c.history
                    && Last(c'.history) == Entry(Strip(reply.text), h == Run)
                    && c'.executed == c.executed + [FullCommand(Strip(reply.text), line)])
            else c'.history == c.history
  {
    var (r, c') := HandlerStep(h, line, c, succeeds, help);
    if h == Run || h == RunNoConsume {
      var (command, c1) := ReadCommandStep(c, h == Run);
      if command.Some? {
        assert c'.history == c.history + [Last(c'.history)];
        assert c'.history[..|c.history|] == c.history;
      }
    }
  }

  /** `save_last` binds the key it reads to the last command of the history, leaving every other
      binding as it was. */
  lemma SaveLastBinds(line: string, c: Ctx, succeeds: string -> bool, help: string)
    ensures var (r, c') := HandlerStep(SaveLast, line, c, succeeds, help);
            var key := ReadCharFrom(WriteTo(c.term, "Command letter?\n")).0;
            r == Returned(false) ==>
              && key.Got? && c.history != []
              && c'.bindings[key.text] == Last(c.history)
              && (forall k :: k != key.text ==> (k in c'.bindings <==> k in c.bindings))
              && (forall k :: k != key.text && k in c.bindings ==> c'.bindings[k] == c.bindings[k])
  {
  }

  /** A handler only ever adds to the screen: what was written before stays, in order. */
  lemma HandlerScreenGrows(h: Handler, line: string, c: Ctx, succeeds: string -> bool, help: string)
    ensures var c' := HandlerStep(h, line, c, succeeds, help).1;
            |c'.term.outbound.buffer| >= |c.term.outbound.buffer|
            && c'.term.outbound.buffer[..|c.term.outbound.buffer|] == c.term.outbound.buffer
  {
    var c' := HandlerStep(h, line, c, succeeds, help).1;
    var out := c.term.outbound.buffer;
    match h
    case Run => assert c'.term.outbound.buffer == out + [Text("Command:\n")];
    case RunNoConsume => assert c'.term.outbound.buffer == out + [Text("Command:\n")];
    case SaveLast => assert c'.term.outbound.buffer == out + [Text("Command letter?\n")];
    case RunRaw => assert c'.term.outbound.buffer == out + [Text("Command:\n")];
    case ShowHelp => assert c'.term.outbound.buffer == out + [Text(help)] + [Text(StoreMenuText(c.bindings))];
    case _ =>
  }

  /** The history, the shell and the bindings of one run. */
  class ShellRunner {
    var history: seq<Entry>
    const store: ShellCommandStore
    const shell: Shell

    constructor (store: ShellCommandStore, shell: Shell)
      ensures history == [] && this.store == store && this.shell == shell
    {
      history := [];
      this.store := store;
      this.shell := shell;
    }

    ghost function CtxOf(terminal: BidirectionalPipe): Ctx
      reads this, terminal.incoming, terminal.outgoing, store.file, shell
    {
      Ctx(terminal.View(), history, store.file.commands, shell.executed)
    }

    /** `_read_command(terminal, consume)`. */
    method ReadCommand(terminal: BidirectionalPipe, consume: bool) returns (command: Option<string>)
      requires terminal.incoming != terminal.outgoing
      modifies this, terminal.incoming, terminal.outgoing
      ensures (command, CtxOf(terminal)) == ReadCommandStep(old(CtxOf(terminal)), consume)
    {
      terminal.Write("Command:\n");
      var reply := terminal.ReadLine();
      if reply.Blocked? {
        return None;
      }
      command := Some(Strip(reply.text));
      history := history + [Entry(command.value, consume)];
    }

    /** `run`: prompt for a command, run it on the line, finished iff it succeeded. */
    method Run(terminal: BidirectionalPipe, line: string) returns (r: Reply)
      requires terminal.incoming != terminal.outgoing
      modifies this, terminal.incoming, terminal.outgoing, shell
      ensures (r, CtxOf(terminal)) == HandlerStep(Handler.Run, line, old(CtxOf(terminal)), shell.succeeds, [])
    {
      var command := ReadCommand(terminal, true);
      if command.None? {
        return Waits;
      }
      var ok := shell.RunCommand(command.value, line);
      r := Returned(ok);
    }

    /** `skip`. */
    method Skip(terminal: BidirectionalPipe, line: string) returns (r: Reply)
      ensures r == Returned(true)
    {
      r := Returned(true);
    }

    /** `run_no_consume`: like `run`, but never finished with the line. */
    method RunNoConsume(terminal: BidirectionalPipe, line: string) returns (r: Reply)
      requires terminal.incoming != terminal.outgoing
      modifies this, terminal.incoming, terminal.outgoing, shell
      ensures (r, CtxOf(terminal)) == HandlerStep(Handler.RunNoConsume, line, old(CtxOf(terminal)), shell.succeeds, [])
    {
      var command := ReadCommand(terminal, false);
      if command.None? {
        return Waits;
      }
      var _ := shell.RunCommand(command.value, line);
      r := Returned(false);
    }

    /** `repeat`: run the last command again on this line. */
    method Repeat(terminal: BidirectionalPipe, line: string) returns (r: Reply)
      modifies shell
      ensures (r, CtxOf(terminal)) == HandlerStep(Handler.Repeat, line, old(CtxOf(terminal)), shell.succeeds, [])
    {
      if history == [] {
        return Raised(IndexError);
      }
      var last := history[|history| - 1];
      var ok := shell.RunCommand(last.command, line);
      r := Returned(last.consume && ok);
    }

    /** `run_raw`: prompt for a command and run it without the line; returns `None`. */
    method RunRaw(terminal: BidirectionalPipe, line: string) returns (r: Reply)
      requires terminal.incoming != terminal.outgoing
      modifies terminal.incoming, terminal.outgoing, shell
      ensures (r, CtxOf(terminal)) == HandlerStep(Handler.RunRaw, line, old(CtxOf(terminal)), shell.succeeds, [])
    {
      terminal.Write("Command:\n");
      var reply := terminal.ReadLine();
      if reply.Blocked? {
        return Waits;
      }
      shell.Popen(Strip(reply.text));
      r := Returned(false);
    }

    /** `run_shell`: the interactive shell is left out; the line is never finished with. */
    method RunShell(terminal: BidirectionalPipe, line: string) returns (r: Reply)
      ensures r == Returned(false)
    {
      r := Returned(false);
    }

    /** `save_last`: ask for a key and bind it to the last command of the history. */
    method SaveLast(terminal: BidirectionalPipe, line: string) returns (r: Reply)
      requires terminal.incoming != terminal.outgoing
      modifies terminal.incoming, terminal.outgoing, store.file
      ensures (r, CtxOf(terminal)) == HandlerStep(Handler.SaveLast, line, old(CtxOf(terminal)), shell.succeeds, [])
    {
      terminal.Write("Command letter?\n");
      var key := terminal.ReadChar();
      if key.Blocked? {
        return Waits;
      }
      if history == [] {
        return Raised(IndexError);
      }
      var last := history[|history| - 1];
      store.Store(key.text, last.command, last.consume);
      r := Returned(false);
    }

    /** `exit`: `sys.exit()`. */
    method Exit(terminal: BidirectionalPipe, line: string) returns (r: Reply)
      ensures r == Exited
    {
      r := Exited;
    }

    /** `show_help`: write the built-in menu, then the bindings menu. */
    method ShowHelp(terminal: BidirectionalPipe, line: string, help: string) returns (r: Reply)
      requires terminal.incoming != terminal.outgoing
      modifies terminal.outgoing
      ensures (r, CtxOf(terminal)) == HandlerStep(Handler.ShowHelp, line, old(CtxOf(terminal)), shell.succeeds, help)
    {
      terminal.Write(help);
      var bindings := store.Menu();
      terminal.Write(bindings);
      r := Returned(false);
    }

    /** The function of a stored binding: run its command on the line, answer `consume`. */
    method RunStored(e: Entry, terminal: BidirectionalPipe, line: string) returns (r: Reply)
      modifies shell
      ensures (r, CtxOf(terminal)) == HandlerStep(Handler.RunStored(e), line, old(CtxOf(terminal)), shell.succeeds, [])
    {
      var _ := shell.RunCommand(e.command, line);
      r := Returned(e.consume);
    }

    /** `handle_line` of a `from_function` command: call the wrapped function. */
    method Call(h: Handler, terminal: BidirectionalPipe, line: string, help: string) returns (r: Reply)
      requires terminal.incoming != terminal.outgoing
      modifies this, terminal.incoming, terminal.outgoing, store.file, shell
      ensures (r, CtxOf(terminal)) == HandlerStep(h, line, old(CtxOf(terminal)), shell.succeeds, help)
    {
      match h
      case Run => r := Run(terminal, line);
      case RunNoConsume => r := RunNoConsume(terminal, line);
      case Exit => r := Exit(terminal, line);
      case Repeat => r := Repeat(terminal, line);
      case RunShell => r := RunShell(terminal, line);
      case SaveLast => r := SaveLast(terminal, line);
      case RunRaw => r := RunRaw(terminal, line);
      case Skip => r := Skip(terminal, line);
      case ShowHelp => r := ShowHelp(terminal, line, help);
      case RunStored(e) => r := RunStored(e, terminal, line);
    }
  }
}
