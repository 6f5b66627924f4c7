/** `ShellCommandStore`: the key bindings saved with `>`, kept in the `commands` table of
    `data.json` in the configuration directory. The file and its lock are left out; the
    table is a map, read and written whole, that outlives a run of the dispatcher. */
module Store {
  import opened Strings

  /** A saved shell command and whether running it consumes the line (`[command, consume]`). */
  datatype Entry = Entry(command: string, consume: bool)

  /** The `commands` table of `data.json`. */
  class DataFile {
    var commands: map<string, Entry>

    constructor ()
      ensures commands == map[]
    {
      commands := map[];
    }
  }

  /** One line of the bindings menu: `'<key> - <!|&> <command>'`, `!` for a consuming command. */
  function BindingLine(key: string, e: Entry): string
  {
    key + " - " + (if e.consume then "!" else "&") + " " + e.command
  }

  /** Reads a menu line back into the key and its binding. A key is what `readchar` gives:
      one character, or '' once the terminal is closed. */
  function ParseBindingLine(line: string): Option<(string, Entry)>
  {
    if |line| >= 6 && line[1..4] == " - " && line[4] in {'!', '&'} && line[5] == ' ' then
      Some(([line[0]], Entry(line[6..], line[4] == '!')))
    else if |line| >= 5 && line[..3] == " - " && line[3] in {'!', '&'} && line[4] == ' ' then
      Some(([], Entry(line[5..], line[3] == '!')))
    else None
  }

  /** A menu line says which key runs which command, and whether it consumes the line. */
  lemma BindingLineRoundTrip(key: string, e: Entry)
    requires |key| <= 1
    ensures ParseBindingLine(BindingLine(key, e)) == Some((key, e))
  {
    var line := BindingLine(key, e);
    if |key| == 1 {
      assert line[1..4] == " - ";
      assert line[6..] == e.command;
      assert [line[0]] == key;
    } else {
      assert line[1] == '-';
      assert line[..3] == " - ";
      assert line[5..] == e.command;
    }
  }

  function BindingLines(keys: seq<string>, bindings: map<string, Entry>): seq<string>
    requires forall k :: k in keys ==> k in bindings
  {
    seq(|keys|, i requires 0 <= i < |keys| => BindingLine(keys[i], bindings[keys[i]]))
  }

  /** `ShellCommandStore.menu()`: a blank line, one line per binding in key order, a newline. */
  function StoreMenuText(bindings: map<string, Entry>): string
  {
    "\n" + Join(BindingLines(SortedKeys(bindings.Keys), bindings), "\n") + "\n"
  }

  /** With nothing saved the menu is two newlines. */
  lemma EmptyStoreMenu()
    ensures StoreMenuText(map[]) == "\n\n"
  {
    var none: map<string, Entry> := map[];
    assert SortedKeys(none.Keys) == [];
  }

  /** The menu lists every binding exactly once, in increasing key order. */
  lemma StoreMenuListsEveryBinding(bindings: map<string, Entry>)
    ensures var keys := SortedKeys(bindings.Keys);
            var lines := BindingLines(keys, bindings);
            && |lines| == |bindings|
            && (forall k :: k in bindings ==> exists i :: 0 <= i < |lines| && keys[i] == k && lines[i] == BindingLine(k, bindings[k]))
            && (forall i, j :: 0 <= i < j < |lines| ==> LexLess(keys[i], keys[j]))
  {
    var keys := SortedKeys(bindings.Keys);
    var lines := BindingLines(keys, bindings);
    forall k | k in bindings
      ensures exists i :: 0 <= i < |lines| && keys[i] == k && lines[i] == BindingLine(k, bindings[k])
    {
      assert k in keys;
      var i :| 0 <= i < |keys| && keys[i] == k;
      assert lines[i] == BindingLine(k, bindings[k]);
    }
  }

  /** The bindings of one configuration directory. */
  class ShellCommandStore {
    const file: DataFile

    constructor (file: DataFile)
      ensures this.file == file
    {
      this.file := file;
    }

    /** `store(char, command, consume)`: bind the key, replacing any earlier binding of it. */
    method Store(key: string, command: string, consume: bool)
      modifies file
      ensures file.commands == old(file.commands)[key := Entry(command, consume)]
    {
      file.commands := file.commands[key := Entry(command, consume)];
    }

    /** `lookup(char)`: the binding of the key, if any. (The source wraps it in a command class
        whose function runs the command on the line and answers `consume`.) */
    method Lookup(key: string) returns (found: Option<Entry>)
      ensures found.Some? <==> key in file.commands
      ensures found.Some? ==> found.value == file.commands[key]
    {
      if key in file.commands {
        found := Some(file.commands[key]);
      } else {
        found := None;
      }
    }

    /** `menu()`, building the list of lines one binding at a time. */
    method Menu() returns (text: string)
      ensures text == StoreMenuText(file.commands)
    {
      var bindings := file.commands;
      var keys := SortedKeys(bindings.Keys);
      assert forall j :: 0 <= j < |keys| ==> keys[j] in bindings.Keys;
      ghost var lines := BindingLines(keys, bindings);
      var result: seq<string> := [];
      var i := 0;
      while i < |keys|
        invariant 0 <= i <= |keys|
        invariant result == lines[..i]
      {
        result := result + [BindingLine(keys[i], bindings[keys[i]])];
        assert result == lines[..i + 1];
        i := i + 1;
      }
      assert lines[..|keys|] == lines;
      text := "\n" + Join(result, "\n") + "\n";
    }
  }

  /** A key stored and then looked up gives back what was stored; other keys are unaffected. */
  method StoreThenLookup(store: ShellCommandStore, key: string, other: string, command: string, consume: bool)
    returns (found: Option<Entry>, before: Option<Entry>, after: Option<Entry>)
    modifies store.file
    ensures found == Some(Entry(command, consume))
    ensures other != key ==> before == after
  {
    before := store.Lookup(other);
    store.Store(key, command, consume);
    found := store.Lookup(key);
    after := store.Lookup(other);
  }
}
