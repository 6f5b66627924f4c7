/** The Python string built-ins the dispatcher leans on: `str.strip`,
    `str.partition`, `''.join`, `'\n'.join` and `sorted` over the keys of a
    dict (string keys compare by code point, a shorter prefix first). */
module Strings {

  datatype Option<T> = None | Some(value: T)

  /** The characters `str.strip()` removes when given no argument (Python 2 `str`). */
  const Whitespace: set<char> := {' ', '\t', '\n', '\r', '\U{b}', '\U{c}'}

  /** `s.lstrip(chars)`: the longest suffix of `s` that does not start with one of `chars`. */
  function TrimLeft(s: string, chars: set<char>): (r: string)
    ensures |r| <= |s| && r == s[|s| - |r|..]
    ensures forall i :: 0 <= i < |s| - |r| ==> s[i] in chars
    ensures r != [] ==> r[0] !in chars
  {
    if s != [] && s[0] in chars then TrimLeft(s[1..], chars) else s
  }

  /** `s.rstrip(chars)`: the longest prefix of `s` that does not end with one of `chars`. */
  function TrimRight(s: string, chars: set<char>): (r: string)
    ensures |r| <= |s| && r == s[..|r|]
    ensures forall i :: |r| <= i < |s| ==> s[i] in chars
    ensures r != [] ==> r[|r| - 1] !in chars
  {
    if s != [] && s[|s| - 1] in chars then TrimRight(s[..|s| - 1], chars) else s
  }

  /** `s.strip(chars)`: `s` without the characters of `chars` at either end. */
  function StripChars(s: string, chars: set<char>): (r: string)
    ensures |r| <= |s|
    ensures r != [] ==> r[0] !in chars && r[|r| - 1] !in chars
    ensures r == [] <==> forall i :: 0 <= i < |s| ==> s[i] in chars
  {
    TrimRight(TrimLeft(s, chars), chars)
  }

  /** What stripping keeps is one slice of `s`, starting where `lstrip` stops, and everything
      around it is one of `chars`. */
  lemma StripCharsSlice(s: string, chars: set<char>)
    ensures StrippedAt(s, StripChars(s, chars), |s| - |TrimLeft(s, chars)|, chars)
  {
    TrimmedBothEnds(s, chars, TrimLeft(s, chars), StripChars(s, chars));
  }

  lemma TrimmedBothEnds(s: string, chars: set<char>, left: string, r: string)
    requires left == TrimLeft(s, chars) && r == TrimRight(left, chars)
    ensures StrippedAt(s, r, |s| - |left|, chars)
  {
    var i := |s| - |left|;
    assert left == s[i..];
    assert r == left[..|r|];
    assert r == s[i..i + |r|];
    forall j | i + |r| <= j < |s|
      ensures s[j] in chars
    {
      assert s[j] == left[j - i];
    }
  }

  /** `r` is the slice of `s` from `i` on, and everything around it is one of `chars`. */
  predicate StrippedAt(s: string, r: string, i: int, chars: set<char>)
  {
    && 0 <= i <= |s| - |r| && r == s[i..i + |r|]
    && (forall j :: 0 <= j < i ==> s[j] in chars)
    && (forall j :: i + |r| <= j < |s| ==> s[j] in chars)
  }

  /** `s.strip()`. */
  function Strip(s: string): string
  {
    StripChars(s, Whitespace)
  }

  /** Stripping leaves a string alone when neither end is one of the characters. */
  lemma {:induction false} StripCharsKeeps(s: string, chars: set<char>)
    requires s != [] ==> s[0] !in chars && s[|s| - 1] !in chars
    ensures StripChars(s, chars) == s
  {
  }

  /** Stripping a run of the characters off the end of a string that does not otherwise end in them. */
  lemma {:induction false} StripCharsDropsTail(s: string, tail: string, chars: set<char>)
    requires s != [] ==> s[0] !in chars && s[|s| - 1] !in chars
    requires forall i :: 0 <= i < |tail| ==> tail[i] in chars
    ensures StripChars(s + tail, chars) == s
  {
    var t := s + tail;
    var left := TrimLeft(t, chars);
    if s == [] {
      assert t == tail;
      assert StripChars(t, chars) == [];
    } else {
      assert t[0] == s[0];
      assert left == t;
      assert t[..|s|] == s;
    }
  }

  /** The result of `s.partition(sep)` for a one-character separator. */
  datatype Parts = Parts(before: string, sep: string, after: string)

  /** `s.partition([sep])`: split at the first occurrence of `sep`, or `(s, '', '')` when there is none. */
  function Partition(s: string, sep: char): (p: Parts)
    ensures p.before + p.sep + p.after == s
    ensures sep !in p.before
    ensures p.sep == [] || p.sep == [sep]
    ensures p.sep == [] ==> p.after == [] && sep !in s
  {
    if s == [] then Parts([], [], [])
    else if s[0] == sep then Parts([], [sep], s[1..])
    else
      var p := Partition(s[1..], sep);
      assert s == [s[0]] + s[1..];
      Parts([s[0]] + p.before, p.sep, p.after)
  }

  /** `partition` splits at the first occurrence, whatever follows it. */
  lemma {:induction false} PartitionAt(s: string, sep: char, i: nat)
    requires i < |s| && s[i] == sep && sep !in s[..i]
    ensures Partition(s, sep) == Parts(s[..i], [sep], s[i + 1..])
  {
    if i > 0 {
      assert s[1..][..i - 1] == s[..i][1..];
      PartitionAt(s[1..], sep, i - 1);
      assert [s[0]] + s[1..][..i - 1] == s[..i];
    }
  }

  /** `''.join(parts)`. */
  function Concat(parts: seq<string>): (r: string)
    ensures |parts| == 1 ==> r == parts[0]
  {
    if parts == [] then [] else Concat(parts[..|parts| - 1]) + parts[|parts| - 1]
  }

  /** Joining one more part appends it. */
  lemma ConcatSnoc(parts: seq<string>, x: string)
    ensures Concat(parts + [x]) == Concat(parts) + x
  {
    assert (parts + [x])[..|parts|] == parts;
  }

  /** `''.join(parts)` is the first part followed by the join of the others. */
  lemma {:induction false} ConcatCons(parts: seq<string>)
    requires parts != []
    ensures Concat(parts) == parts[0] + Concat(parts[1..])
    decreases |parts|
  {
    if |parts| > 1 {
      var init := parts[..|parts| - 1];
      ConcatCons(init);
      assert init[1..] == parts[1..][..|parts[1..]| - 1];
      assert parts[1..][|parts[1..]| - 1] == parts[|parts| - 1];
    } else {
      assert parts[1..] == [];
    }
  }

  /** `sep.join(parts)`. */
  function Join(parts: seq<string>, sep: string): (r: string)
    ensures parts == [] ==> r == []
  {
    if parts == [] then []
    else if |parts| == 1 then parts[0]
    else parts[0] + sep + Join(parts[1..], sep)
  }

  /** `sep.join` puts `sep` between each part and the next, and nowhere else. */
  lemma {:induction false} JoinSnoc(parts: seq<string>, x: string, sep: string)
    requires parts != []
    ensures Join(parts + [x], sep) == Join(parts, sep) + sep + x
    decreases |parts|
  {
    var all := parts + [x];
    assert all[0] == parts[0];
    if |parts| > 1 {
      assert all[1..] == parts[1..] + [x];
      JoinSnoc(parts[1..], x, sep);
    } else {
      assert all[1..] == [x];
    }
  }

  /** Python's `a < b` on strings: lexicographic by code point, a proper prefix first. */
  predicate LexLess(a: string, b: string)
  {
    |b| > 0 && (|a| == 0 || a[0] < b[0] || (a[0] == b[0] && LexLess(a[1..], b[1..])))
  }

  lemma {:induction false} LexIrreflexive(a: string)
    ensures !LexLess(a, a)
  {
    if |a| > 0 {
      LexIrreflexive(a[1..]);
    }
  }

  lemma {:induction false} LexTransitive(a: string, b: string, c: string)
    requires LexLess(a, b) && LexLess(b, c)
    ensures LexLess(a, c)
  {
    if |a| > 0 && a[0] == b[0] && b[0] == c[0] {
      LexTransitive(a[1..], b[1..], c[1..]);
    }
  }

  lemma {:induction false} LexTotal(a: string, b: string)
    ensures a == b || LexLess(a, b) || LexLess(b, a)
  {
    if |a| > 0 && |b| > 0 && a[0] == b[0] {
      LexTotal(a[1..], b[1..]);
      if a[1..] == b[1..] {
        assert a == [a[0]] + a[1..] && b == [b[0]] + b[1..];
      }
    }
  }

  /** `m` comes first among `keys` in Python's string order. */
  predicate IsLeast(m: string, keys: set<string>)
  {
    m in keys && forall x :: x in keys ==> x == m || LexLess(m, x)
  }

  lemma {:induction false} LeastExists(keys: set<string>)
    requires keys != {}
    ensures exists m :: IsLeast(m, keys)
    decreases |keys|
  {
    var x :| x in keys;
    if keys == {x} {
      assert IsLeast(x, keys);
    } else {
      var rest := keys - {x};
      LeastExists(rest);
      var m :| IsLeast(m, rest);
      LexTotal(x, m);
      if LexLess(x, m) {
        forall y | y in keys ensures y == x || LexLess(x, y) {
          if y != x && y != m {
            LexTransitive(x, m, y);
          }
        }
        assert IsLeast(x, keys);
      } else {
        assert IsLeast(m, keys);
      }
    }
  }

  lemma LeastUnique(keys: set<string>)
    ensures forall a, b :: IsLeast(a, keys) && IsLeast(b, keys) ==> a == b
  {
    forall a, b | IsLeast(a, keys) && IsLeast(b, keys) ensures a == b {
      if a != b {
        LexTransitive(a, b, a);
        LexIrreflexive(a);
      }
    }
  }

  /** `sorted(keys)`: every key exactly once, in strictly increasing order. */
  function SortedKeys(keys: set<string>): (r: seq<string>)
    ensures |r| == |keys|
    ensures forall k :: k in keys <==> k in r
    ensures forall i, j :: 0 <= i < j < |r| ==> LexLess(r[i], r[j])
    decreases |keys|
  {
    if keys == {} then []
    else
      LeastExists(keys);
      LeastUnique(keys);
      var m :| IsLeast(m, keys);
      var tail := SortedKeys(keys - {m});
      var r := [m] + tail;
      assert forall j :: 0 < j < |r| ==> r[j] in keys - {m};
      r
  }
}
