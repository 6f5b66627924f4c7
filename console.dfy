/** What the dispatcher shows on and asks of the terminal: `prompt`, `format_key`
    and the help `menu` of the built-in keys. */
module Console {
  import opened Strings
  import opened Pipes

  // ---------------------------------------------------------------------------
  // prompt

  /** `prompt(text, terminal)`: write the question on its own line, read one line of reply and
      drop the '\n' at either end (only '\n': other whitespace is kept). */
  function PromptStep(text: string, d: Duplex): (ReadResult, Duplex)
  {
    var (reply, d') := ReadLineFrom(WriteTo(d, text + "\n"));
    match reply
    case Blocked => (Blocked, d')
    case Got(l) => (Got(StripChars(l, {'\n'})), d')
  }

  /** A reply typed as one line comes back without its '\n', and the question went out first. */
  lemma PromptAnswers(text: string, answer: string, more: string, d: Duplex)
    requires '\n' !in answer
    requires Pending(d.inbound.buffer) == answer + "\n" + more
    ensures PromptStep(text, d).0 == Got(answer)
    ensures PromptStep(text, d).1.outbound.buffer == d.outbound.buffer + [Text(text + "\n")]
    ensures Pending(PromptStep(text, d).1.inbound.buffer) == more
  {
    var buf := d.inbound.buffer;
    FirstLine(buf, answer, more);
    StripCharsDropsTail(answer, "\n", {'\n'});
  }

  /** When the pending text is `answer + "\n" + more`, `readline` returns `answer + "\n"` and
      leaves `more` pending. */
  lemma FirstLine(buf: seq<Chunk>, answer: string, more: string)
    requires '\n' !in answer
    requires Pending(buf) == answer + "\n" + more
    ensures LineFrom(buf).Line? && !LineFrom(buf).closes
    ensures LineFrom(buf).text == answer + "\n"
    ensures Pending(LineFrom(buf).rest) == more
  {
    var p := Pending(buf);
    assert p[|answer|] == '\n';
    LineFromNone(buf);
    if LineFrom(buf).closes {
      PendingNoNewlineBeforeClose(buf);
      assert false;
    }
    LineFromNewline(buf);
    var l := LineFrom(buf).text;
    assert p[..|l|] == l;
    assert l == p[..|answer| + 1] == answer + "\n";
    assert p == l + more;
  }

  /** The prompting method: a write followed by a read on the same terminal. */
  method Prompt(text: string, terminal: BidirectionalPipe) returns (answer: ReadResult)
    requires terminal.incoming != terminal.outgoing
    modifies terminal.incoming, terminal.outgoing
    ensures (answer, terminal.View()) == PromptStep(text, old(terminal.View()))
  {
    terminal.Write(text + "\n");
    var reply := terminal.ReadLine();
    match reply
    case Blocked => answer := Blocked;
    case Got(l) => answer := Got(StripChars(l, {'\n'}));
  }

  // ---------------------------------------------------------------------------
  // format_key

  /** `string.letters[i]` of Python 2 in the C locale: the lower-case letters, then the upper-case. */
  function Letter(i: int): char
    requires 0 <= i < 52
  {
    if i < 26 then ('a' as int + i) as char else ('A' as int + i - 26) as char
  }

  /** `format_key(key)`: control characters 1..26 as `C-a`..`C-z` (0 indexes `letters[-1]`),
      the space as `SPACE`, any other character as itself. */
  function FormatKey(key: char): string
  {
    if key as int <= 26 then "C-" + [if key as int == 0 then Letter(51) else Letter(key as int - 1)]
    else if key == ' ' then "SPACE"
    else [key]
  }

  /** Reads a key name back: the inverse of `format_key`. */
  function ParseKey(name: string): Option<char>
  {
    if name == "SPACE" then Some(' ')
    else if |name| == 3 && name[..2] == "C-" then
      if name[2] == 'Z' then Some(0 as char)
      else if 'a' <= name[2] <= 'z' then Some((name[2] as int - 'a' as int + 1) as char)
      else None
    else if |name| == 1 then Some(name[0])
    else None
  }

  /** Every key's name reads back as that key, so no two keys share a name. */
  lemma FormatKeyRoundTrip(key: char)
    ensures ParseKey(FormatKey(key)) == Some(key)
  {
    var name := FormatKey(key);
    if key as int <= 26 {
      assert name[..2] == "C-";
    }
  }

  lemma FormatKeyInjective(a: char, b: char)
    requires FormatKey(a) == FormatKey(b)
    ensures a == b
  {
    FormatKeyRoundTrip(a);
    FormatKeyRoundTrip(b);
  }

  /** `'\x04'`, the key bound to `exit`, is shown as `C-d`. */
  lemma ExitKeyName()
    ensures FormatKey('\U{4}') == "C-d"
  {
  }

  // ---------------------------------------------------------------------------
  // menu

  /** One line of the help menu: `'<key> - <doc>'`. */
  function HelpLine(key: string, doc: string): string
    requires |key| == 1
  {
    FormatKey(key[0]) + " - " + doc
  }

  /** The help lines for `keys`, in the order given. */
  function HelpLines(keys: seq<string>, docs: map<string, string>): seq<string>
    requires forall k :: k in keys ==> k in docs && |k| == 1
  {
    seq(|keys|, i requires 0 <= i < |keys| => HelpLine(keys[i], docs[keys[i]]))
  }

  /** `menu(commands)`: a blank line, one line per key in key order, then a blank line. */
  function HelpText(docs: map<string, string>): string
    requires forall k :: k in docs ==> |k| == 1
  {
    "\n" + Join(HelpLines(SortedKeys(docs.Keys), docs), "\n") + "\n\n"
  }

  /** The menu lists every key exactly once, in increasing key order, each with its own doc. */
  lemma HelpListsEveryKey(docs: map<string, string>)
    requires forall k :: k in docs ==> |k| == 1
    ensures var keys := SortedKeys(docs.Keys);
            var lines := HelpLines(keys, docs);
            && |lines| == |docs|
            && (forall k :: k in docs ==> exists i :: 0 <= i < |lines| && keys[i] == k && lines[i] == HelpLine(k, docs[k]))
            && (forall i, j :: 0 <= i < j < |lines| ==> LexLess(keys[i], keys[j]))
  {
    var keys := SortedKeys(docs.Keys);
    var lines := HelpLines(keys, docs);
    forall k | k in docs
      ensures exists i :: 0 <= i < |lines| && keys[i] == k && lines[i] == HelpLine(k, docs[k])
    {
      assert k in keys;
      var i :| 0 <= i < |keys| && keys[i] == k;
      assert lines[i] == HelpLine(k, docs[k]);
    }
  }

  /** The lines of `menu(commands)`, built one key at a time. */
  method MenuLines(keys: seq<string>, docs: map<string, string>) returns (lines: seq<string>)
    requires forall k :: k in keys ==> k in docs && |k| == 1
    ensures lines == HelpLines(keys, docs)
  {
    ghost var all := HelpLines(keys, docs);
    lines := [];
    var i := 0;
    while i < |keys|
      invariant 0 <= i <= |keys|
      invariant lines == all[..i]
    {
      lines := lines + [HelpLine(keys[i], docs[keys[i]])];
      assert lines == all[..i + 1];
      i := i + 1;
    }
    assert all[..|keys|] == all;
  }

  /** `menu(commands)`. */
  method Menu(docs: map<string, string>) returns (text: string)
    requires forall k :: k in docs ==> |k| == 1
    ensures text == HelpText(docs)
  {
    var keys := SortedKeys(docs.Keys);
    var lines := MenuLines(keys, docs);
    text := "\n" + Join(lines, "\n") + "\n\n";
  }
}
