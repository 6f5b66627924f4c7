/** The line handlers of `commands.py`: the one-shot commands built by
    `Command.from_function`, and the two skip commands, which keep control of the
    input over several lines until a regular expression decides they are done.
    `re.search(regex, line, re.IGNORECASE)` is the uninterpreted `matches(regex, line)`. */
module Commands {
  import opened Strings
  import opened Pipes
  import opened Console

  /** The Python exceptions that can escape a command and end the run. */
  datatype PyError = IndexError | TypeError | NameError

  /** The outcome of `handle_line`: a truthy or falsy return value (true: the line is finished
      with), `sys.exit`, an exception, or a read of the terminal that waits for input forever. */
  datatype Reply = Returned(finished: bool) | Exited | Raised(error: PyError) | Waits

  datatype SkipKind = SkipWhile | SkipUntil

  /** What a key is bound to: the class `Command.from_function(func)` builds, or a skip command class. */
  datatype CommandClass<F> = FunctionClass(func: F) | SkipClass(kind: SkipKind)

  /** The fields of a skip command: its kind, its regex once prompted for, and `_finished`. */
  datatype SkipState = SkipState(kind: SkipKind, regex: Option<string>, finished: bool)

  /** The command that holds control of the input (`command` in the main loop). */
  datatype Current<F> = NoCommand | FunctionCommand(func: F) | Skipping(state: SkipState)

  /** `CommandClass()`: a fresh instance. A fresh skip command has no regex and is not done. */
  function Instantiate<F>(cls: CommandClass<F>): (c: Current<F>)
    ensures !c.NoCommand?
    ensures cls.FunctionClass? <==> c.FunctionCommand?
    ensures c.Skipping? ==> c.state == SkipState(cls.kind, None, false)
  {
    match cls
    case FunctionClass(f) => FunctionCommand(f)
    case SkipClass(k) => Skipping(SkipState(k, None, false))
  }

  /** `command is None or command.done_processing()`: whether the next line needs a key.
      A function command is done after every line; a skip command once `_finished` is set. */
  predicate NeedsKey<F>(c: Current<F>)
  {
    match c
    case NoCommand => true
    case FunctionCommand(_) => true
    case Skipping(s) => s.finished
  }

  /** A freshly made command asks for a key on its next line only if it is a function command. */
  lemma FreshCommandNeedsKey<F>(cls: CommandClass<F>)
    ensures NeedsKey(Instantiate(cls)) <==> cls.FunctionClass?
  {
  }

  /** The `doc` attribute of the skip command classes. */
  function SkipDoc(kind: SkipKind): string
  {
    match kind
    case SkipWhile => "Skip entries until a regular expression stops matching"
    case SkipUntil => "Skip entries until a regular expression matches"
  }

  /** Whether a line ends the skipping: `SkipWhile` stops at the first line the regex does not
      match, `SkipUntil` at the first line it matches. */
  predicate Stops(kind: SkipKind, regex: string, line: string, matches: (string, string) -> bool)
  {
    match kind
    case SkipWhile => !matches(regex, line)
    case SkipUntil => matches(regex, line)
  }

  /** With the regex known: on a stopping line write "\n", set `_finished` and hand the line back
      (falsy); otherwise swallow the line (truthy). */
  function SkipDecide(s: SkipState, regex: string, line: string, matches: (string, string) -> bool, d: Duplex): (Reply, SkipState, Duplex)
  {
    var s' := s.(regex := Some(regex));
    if Stops(s.kind, regex, line, matches) then (Returned(false), s'.(finished := true), WriteTo(d, "\n"))
    else (Returned(true), s', d)
  }

  /** `handle_line` of a skip command: prompt for the regex on the first line only, then decide. */
  function SkipHandle(s: SkipState, line: string, matches: (string, string) -> bool, d: Duplex): (Reply, SkipState, Duplex)
  {
    match s.regex
    case Some(re) => SkipDecide(s, re, line, matches, d)
    case None =>
      var (answer, d') := PromptStep("Regex:", d);
      match answer
      case Blocked => (Waits, s, d')
      case Got(re) => SkipDecide(s, re, line, matches, d')
  }

  /** Once known, the regex is never asked for again and never changes, and the terminal's
      input is left alone. */
  lemma SkipPromptsOnce(s: SkipState, line: string, matches: (string, string) -> bool, d: Duplex)
    requires s.regex.Some?
    ensures var (r, s', d') := SkipHandle(s, line, matches, d);
            && s'.regex == s.regex && s'.kind == s.kind
            && d'.inbound == d.inbound
            && r != Waits
  {
  }

  /** With the regex known the verdict is `Stops`, and only a stopping line writes anything. */
  lemma SkipDecideVerdict(s: SkipState, re: string, line: string, matches: (string, string) -> bool, d: Duplex)
    ensures var (r, s', d') := SkipDecide(s, re, line, matches, d);
            && r.Returned? && s'.regex == Some(re) && s'.kind == s.kind
            && (r == Returned(false) <==> Stops(s.kind, re, line, matches))
            && (r == Returned(false) ==> s'.finished && d' == WriteTo(d, "\n"))
            && (r == Returned(true) ==> s'.finished == s.finished && d' == d)
  {
  }

  /** On the first line the regex is the reply to `Regex:`, with its '\n' dropped. */
  lemma SkipFirstLinePrompts(s: SkipState, line: string, matches: (string, string) -> bool, d: Duplex, answer: string, more: string)
    requires s.regex.None?
    requires '\n' !in answer
    requires Pending(d.inbound.buffer) == answer + "\n" + more
    ensures var (r, s', d') := SkipHandle(s, line, matches, d);
            && s'.regex == Some(answer)
            && d'.outbound.buffer[..|d.outbound.buffer| + 1] == d.outbound.buffer + [Text("Regex:\n")]
            && Pending(d'.inbound.buffer) == more
  {
    PromptAnswers("Regex:", answer, more, d);
    var d1 := PromptStep("Regex:", d).1;
    assert SkipHandle(s, line, matches, d) == SkipDecide(s, answer, line, matches, d1);
    SkipDecideKeepsOutput(s, answer, line, matches, d1);
    assert "Regex:" + "\n" == "Regex:\n";
  }

  /** Deciding records the regex, reads nothing and only ever adds to the output. */
  lemma SkipDecideKeepsOutput(s: SkipState, re: string, line: string, matches: (string, string) -> bool, d: Duplex)
    ensures var (_, s', d') := SkipDecide(s, re, line, matches, d);
            && s'.regex == Some(re)
            && d'.inbound == d.inbound
            && d'.outbound.buffer[..|d.outbound.buffer|] == d.outbound.buffer
  {
  }

  /** A skip command answers truthy exactly on the lines it swallows and falsy exactly on the line
      that stops it, which it hands back after writing "\n"; it never exits, never raises given a total
      `matches` (an invalid pattern's `re.error` is not modelled), and once finished it stays
      finished. */
  lemma SkipVerdict(s: SkipState, line: string, matches: (string, string) -> bool, d: Duplex)
    ensures var (r, s', d') := SkipHandle(s, line, matches, d);
            && (r.Returned? || r == Waits)
            && (r.Returned? ==> s'.regex.Some? && s'.kind == s.kind)
            && (r == Returned(false) <==> r.Returned? && Stops(s.kind, s'.regex.value, line, matches))
            && (r == Returned(false) ==> s'.finished && d'.outbound.buffer[|d'.outbound.buffer| - 1] == Text("\n"))
            && (r == Returned(true) ==> s'.finished == s.finished)
            && (s.finished ==> s'.finished)
  {
    if s.regex.Some? {
      assert SkipHandle(s, line, matches, d) == SkipDecide(s, s.regex.value, line, matches, d);
      SkipDecideVerdict(s, s.regex.value, line, matches, d);
    } else {
      var p := PromptStep("Regex:", d);
      if p.0.Got? {
        assert SkipHandle(s, line, matches, d) == SkipDecide(s, p.0.text, line, matches, p.1);
        SkipDecideVerdict(s, p.0.text, line, matches, p.1);
      } else {
        assert SkipHandle(s, line, matches, d) == (Waits, s, p.1);
      }
    }
  }

  /** `SkipWhile` keeps swallowing lines while they match. */
  lemma SkipWhileSwallowsMatches(s: SkipState, re: string, line: string, matches: (string, string) -> bool, d: Duplex)
    requires s.kind == SkipWhile && s.regex == Some(re) && matches(re, line)
    ensures SkipHandle(s, line, matches, d) == (Returned(true), s, d)
  {
  }

  /** `SkipUntil` keeps swallowing lines until one matches. */
  lemma SkipUntilSwallowsMismatches(s: SkipState, re: string, line: string, matches: (string, string) -> bool, d: Duplex)
    requires s.kind == SkipUntil && s.regex == Some(re) && !matches(re, line)
    ensures SkipHandle(s, line, matches, d) == (Returned(true), s, d)
  {
  }

  /** `SkipWhile` and `SkipUntil` are mirror images: with the same regex, one swallows a line
      exactly when the other would stop at it. */
  lemma SkipKindsMirror(re: string, line: string, matches: (string, string) -> bool, d: Duplex)
    ensures SkipHandle(SkipState(SkipWhile, Some(re), false), line, matches, d).0 == Returned(true)
            <==> SkipHandle(SkipState(SkipUntil, Some(re), false), line, matches, d).0 == Returned(false)
  {
  }

  /** A skip command object: `SkipWhileCommand` or `SkipUntilCommand`. */
  class SkipCommand {
    const kind: SkipKind
    var regex: Option<string>
    var finished: bool

    constructor (kind: SkipKind)
      ensures State() == SkipState(kind, None, false)
    {
      this.kind := kind;
      regex := None;
      finished := false;
    }

    ghost function State(): SkipState
      reads this
    {
      SkipState(kind, regex, finished)
    }

    /** `done_processing()`. */
    predicate DoneProcessing()
      reads this
    {
      finished
    }

    /** `handle_line(terminal, line)`. */
    method HandleLine(terminal: BidirectionalPipe, line: string, matches: (string, string) -> bool) returns (r: Reply)
      requires terminal.incoming != terminal.outgoing
      modifies this, terminal.incoming, terminal.outgoing
      ensures (r, State(), terminal.View()) == SkipHandle(old(State()), line, matches, old(terminal.View()))
    {
      if regex.None? {
        var answer := Prompt("Regex:", terminal);
        if answer.Blocked? {
          return Waits;
        }
        regex := Some(answer.text);
      }
      if Stops(kind, regex.value, line, matches) {
        terminal.Write("\n");
        finished := true;
        r := Returned(false);
      } else {
        r := Returned(true);
      }
    }
  }

  // ---------------------------------------------------------------------------
  // as written in commands.py

  /** `handle_line` of the skip commands as `commands.py` writes it: `prompt` and `LOGGER` are
      neither defined nor imported there, so calling either raises `NameError`. The regex is
      `None` on the first call, so the first line always raises. */
  function PackagedSkipHandle(s: SkipState, line: string, matches: (string, string) -> bool, d: Duplex): (Reply, SkipState, Duplex)
  {
    match s.regex
    case None => (Raised(NameError), s, d)
    case Some(re) =>
      if Stops(s.kind, re, line, matches) then (Raised(NameError), s, d)
      else (Returned(true), s, d)
  }

  /** Every skip command made by the packaged table raises `NameError` on its first line, where
      the intended command (as `cli-process.py` has it) prompts for the regex and, given a total `matches`,
      never raises. */
  lemma PackagedSkipAlwaysRaises(kind: SkipKind, line: string, matches: (string, string) -> bool, d: Duplex)
    ensures PackagedSkipHandle(SkipState(kind, None, false), line, matches, d).0 == Raised(NameError)
    ensures !SkipHandle(SkipState(kind, None, false), line, matches, d).0.Raised?
  {
    SkipVerdict(SkipState(kind, None, false), line, matches, d);
  }
}
