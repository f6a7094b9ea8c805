/** Option type shared by all modules. */
module Wrappers {
  datatype Option<+T> = None | Some(value: T)
}

/**
 * The string operations the Python and JavaScript sources rely on
 * (`in`, `startswith`, `lower`, `strip`/`trim`, `split`, `splitlines`,
 * `join`, `str(int)`, `int(str)`), restricted to ASCII.
 */
module Text {
  import opened Wrappers

  /** ASCII characters that Python's `str.split()` and `str.strip()` treat as whitespace. */
  const PyWhitespace: set<char> := {' ', '\t', '\n', '\r', '\U{0B}', '\U{0C}', '\U{1C}', '\U{1D}', '\U{1E}', '\U{1F}'}

  /** ASCII characters that JavaScript's `String.prototype.trim` removes. */
  const JsWhitespace: set<char> := {' ', '\t', '\n', '\r', '\U{0B}', '\U{0C}'}

  /** The line boundaries of Python's `str.splitlines` ("\r\n" counts as one). */
  const LineBreaks: set<char> := {'\n', '\r', '\U{0B}', '\U{0C}', '\U{1C}', '\U{1D}', '\U{1E}', '\U{85}', '\U{2028}', '\U{2029}'}

  predicate StartsWith(s: string, prefix: string) {
    prefix <= s
  }

  /** `sub in s` (Python) / `s.includes(sub)` (JavaScript). */
  predicate Contains(s: string, sub: string)
    decreases |s|
  {
    sub <= s || (s != [] && Contains(s[1..], sub))
  }

  lemma {:induction false} ContainsSuffix(s: string, k: nat, sub: string)
    requires k <= |s| && Contains(s[k..], sub)
    ensures Contains(s, sub)
    decreases k
  {
    if k > 0 {
      assert s[1..][k - 1..] == s[k..];
      ContainsSuffix(s[1..], k - 1, sub);
    }
  }

  /** Any string containing "elif " also contains "if ", so the "elif " test of a disjunction adds nothing. */
  lemma {:induction false} ContainsElifHasIf(s: string)
    requires Contains(s, "elif ")
    ensures Contains(s, "if ")
  {
    if "elif " <= s {
      assert s[2..][..3] == s[2..5] == "if ";
      ContainsSuffix(s, 2, "if ");
    } else {
      ContainsElifHasIf(s[1..]);
    }
  }

  function LowerChar(c: char): char {
    if 'A' <= c <= 'Z' then (c as int + 32) as char else c
  }

  /** ASCII `str.lower()` / `toLowerCase()`. */
  function Lower(s: string): (r: string)
    ensures |r| == |s|
  {
    seq(|s|, i requires 0 <= i < |s| => LowerChar(s[i]))
  }

  /** `lstrip`: the text after its leading run of characters in `ws`. */
  function TrimLeft(s: string, ws: set<char>): (r: string)
    ensures |r| <= |s| && r == s[|s| - |r|..]
    ensures r != [] ==> r[0] !in ws
    decreases |s|
  {
    if s != [] && s[0] in ws then TrimLeft(s[1..], ws) else s
  }

  /** `lstrip` removes exactly the leading run of characters in `ws`: what is cut is all `ws`, and what is left does not start with it. */
  lemma {:induction false} TrimLeftExact(s: string, ws: set<char>)
    ensures var r := TrimLeft(s, ws);
      |r| <= |s| && r == s[|s| - |r|..] && (r != [] ==> r[0] !in ws) &&
      forall k :: 0 <= k < |s| - |r| ==> s[k] in ws
    decreases |s|
  {
    if s != [] && s[0] in ws {
      TrimLeftExact(s[1..], ws);
      forall k | 1 <= k < |s| - |TrimLeft(s, ws)|
        ensures s[k] in ws
      {
        assert s[k] == s[1..][k - 1];
      }
    }
  }

  /** `rstrip`: the text before its trailing run of characters in `ws`. */
  function TrimRight(s: string, ws: set<char>): (r: string)
    ensures r <= s
    ensures r != [] ==> r[|r| - 1] !in ws
    decreases |s|
  {
    if s != [] && s[|s| - 1] in ws then TrimRight(s[..|s| - 1], ws) else s
  }

  /** `rstrip` removes exactly the trailing run of characters in `ws`. */
  lemma {:induction false} TrimRightExact(s: string, ws: set<char>)
    ensures var r := TrimRight(s, ws);
      r <= s && (r != [] ==> r[|r| - 1] !in ws) &&
      forall k :: |r| <= k < |s| ==> s[k] in ws
    decreases |s|
  {
    if s != [] && s[|s| - 1] in ws {
      TrimRightExact(s[..|s| - 1], ws);
    }
  }

  /** Both ends trimmed of the characters in `ws`. */
  function Strip(s: string, ws: set<char>): string {
    TrimRight(TrimLeft(s, ws), ws)
  }

  /**
   * Stripping removes exactly a leading and a trailing run of characters
   * of `ws`: the result is the slice of the text between them, and it
   * neither starts nor ends with a character of `ws`.
   */
  lemma StripEnds(s: string, ws: set<char>)
    ensures exists i :: StrippedAt(s, Strip(s, ws), i, ws)
  {
    var t := TrimLeft(s, ws);
    TrimLeftExact(s, ws);
    TrimRightExact(t, ws);
    TrimmedSlice(s, t, TrimRight(t, ws), ws);
    assert StrippedAt(s, Strip(s, ws), |s| - |t|, ws);
  }

  /**
   * `r` is the slice of `s` starting at `i`; everything before and after
   * it is in `ws`, and it neither starts nor ends with a character of `ws`.
   */
  predicate StrippedAt(s: string, r: string, i: int, ws: set<char>) {
    0 <= i && i + |r| <= |s| && r == s[i..i + |r|] &&
    (forall k :: 0 <= k < i ==> s[k] in ws) &&
    (forall k :: i + |r| <= k < |s| ==> s[k] in ws) &&
    (r != [] ==> r[0] !in ws && r[|r| - 1] !in ws)
  }

  /** A suffix of `s` trimmed on the right is a slice of `s`; what lies around it is what was trimmed. */
  lemma TrimmedSlice(s: string, t: string, r: string, ws: set<char>)
    requires |t| <= |s| && t == s[|s| - |t|..] && (t != [] ==> t[0] !in ws)
    requires forall k :: 0 <= k < |s| - |t| ==> s[k] in ws
    requires r <= t && (r != [] ==> r[|r| - 1] !in ws)
    requires forall k :: |r| <= k < |t| ==> t[k] in ws
    ensures StrippedAt(s, r, |s| - |t|, ws)
  {
    var i := |s| - |t|;
    assert r == t[..|r|];
    if r != [] {
      assert r[0] == t[0];
    }
    forall k | i + |r| <= k < |s|
      ensures s[k] in ws
    {
      assert s[k] == t[k - i];
    }
  }

  /** Stripping only removes characters: whatever is left was in the text. */
  lemma StripKeeps(s: string, ws: set<char>, c: char)
    requires c in Strip(s, ws)
    ensures c in s
  {
    var t := TrimLeft(s, ws);
    assert c in t;
  }

  /** A string whose two ends are not in `ws` is its own strip. */
  lemma StripUntouched(s: string, ws: set<char>)
    requires s != [] && s[0] !in ws && s[|s| - 1] !in ws
    ensures Strip(s, ws) == s
  {
  }

  /** Python's `s.split(sep)` for a one-character separator: always at least one part. */
  function Split(s: string, sep: char): (parts: seq<string>)
    ensures |parts| >= 1
    decreases |s|
  {
    if s == [] then [""]
    else if s[0] == sep then [""] + Split(s[1..], sep)
    else
      var rest := Split(s[1..], sep);
      [[s[0]] + rest[0]] + rest[1..]
  }

  /** `sep.join(items)`. */
  function Join(items: seq<string>, sep: string): string
    decreases |items|
  {
    if items == [] then ""
    else if |items| == 1 then items[0]
    else items[0] + sep + Join(items[1..], sep)
  }

  /** Splitting on a separator and joining with it again gives back the original text. */
  lemma {:induction false} SplitJoin(s: string, sep: char)
    ensures Join(Split(s, sep), [sep]) == s
    decreases |s|
  {
    if s != [] {
      var rest := Split(s[1..], sep);
      assert Join(rest, [sep]) == s[1..] by {
        SplitJoin(s[1..], sep);
      }
      if s[0] == sep {
        assert Split(s, sep) == [""] + rest;
        JoinEmptyHead(rest, [sep]);
      } else {
        assert Split(s, sep) == [[s[0]] + rest[0]] + rest[1..];
        JoinHead([s[0]], rest, [sep]);
      }
      assert s == [s[0]] + s[1..];
    }
  }

  /** An empty first part contributes only its separator. */
  lemma JoinEmptyHead(parts: seq<string>, sep: string)
    requires parts != []
    ensures Join([""] + parts, sep) == sep + Join(parts, sep)
  {
    assert ([""] + parts)[1..] == parts;
    assert "" + sep == sep;
  }

  /** Lengthening the first part by `x` lengthens the joined text by `x` at the front. */
  lemma JoinHead(x: string, parts: seq<string>, sep: string)
    requires parts != []
    ensures Join([x + parts[0]] + parts[1..], sep) == x + Join(parts, sep)
  {
    var longer := [x + parts[0]] + parts[1..];
    assert longer[1..] == parts[1..];
    if |parts| > 1 {
      assert Join(longer, sep) == (x + parts[0]) + sep + Join(parts[1..], sep);
      assert x + (parts[0] + sep + Join(parts[1..], sep)) == (x + parts[0]) + sep + Join(parts[1..], sep);
    }
  }

  /** No part of a split holds the separator. */
  lemma {:induction false} SplitPartsFree(s: string, sep: char)
    ensures forall i :: 0 <= i < |Split(s, sep)| ==> sep !in Split(s, sep)[i]
    decreases |s|
  {
    if s != [] {
      SplitPartsFree(s[1..], sep);
      var rest := Split(s[1..], sep);
      var parts := Split(s, sep);
      if s[0] == sep {
        assert parts == [""] + rest;
        assert forall i :: 1 <= i < |parts| ==> parts[i] == rest[i - 1];
      } else {
        assert parts == [[s[0]] + rest[0]] + rest[1..];
        assert sep !in rest[0];
        assert forall i :: 1 <= i < |parts| ==> parts[i] == rest[i];
      }
    }
  }

  /** A text without the separator is a single part. */
  lemma {:induction false} SplitNoSep(a: string, sep: char)
    requires sep !in a
    ensures Split(a, sep) == [a]
    decreases |a|
  {
    if a != [] {
      SplitNoSep(a[1..], sep);
      assert [a[0]] + a[1..] == a;
    }
  }

  /** Splitting `a + sep + rest`, where `a` holds no separator, yields `a` and then the parts of `rest`. */
  lemma {:induction false} SplitPrefix(a: string, sep: char, rest: string)
    requires sep !in a
    ensures Split(a + [sep] + rest, sep) == [a] + Split(rest, sep)
    decreases |a|
  {
    var s := a + [sep] + rest;
    if a == [] {
      assert s[1..] == rest;
    } else {
      assert s[1..] == a[1..] + [sep] + rest;
      SplitPrefix(a[1..], sep, rest);
      assert [a[0]] + a[1..] == a;
    }
  }

  /** Joining parts free of the separator and splitting again gives the parts back. */
  lemma {:induction false} JoinSplit(parts: seq<string>, sep: char)
    requires |parts| >= 1
    requires forall p :: p in parts ==> sep !in p
    ensures Split(Join(parts, [sep]), sep) == parts
    decreases |parts|
  {
    if |parts| == 1 {
      SplitNoSep(parts[0], sep);
    } else {
      assert parts[1..][0] in parts;
      JoinSplit(parts[1..], sep);
      SplitPrefix(parts[0], sep, Join(parts[1..], [sep]));
      assert [parts[0]] + parts[1..] == parts;
    }
  }

  /** Python `s.index(c)`: the first position of `c`, None where it raises. */
  function IndexOf(s: string, c: char): (r: Option<nat>)
    ensures r.None? <==> c !in s
    ensures r.Some? ==> r.value < |s| && s[r.value] == c && c !in s[..r.value]
    decreases |s|
  {
    if s == [] then None
    else if s[0] == c then Some(0)
    else
      var rest := IndexOf(s[1..], c);
      assert c in s[1..] ==> c in s;
      assert c in s ==> c in s[1..] by {
        if c in s {
          var k :| 0 <= k < |s| && s[k] == c;
          assert s[1..][k - 1] == c;
        }
      }
      if rest.None? then None
      else
        assert s[..rest.value + 1] == [s[0]] + s[1..][..rest.value];
        Some(rest.value + 1)
  }

  /** Python `s.rindex(c)`: the last position of `c`, None where it raises. */
  function LastIndexOf(s: string, c: char): (r: Option<nat>)
    ensures r.None? <==> c !in s
    ensures r.Some? ==> r.value < |s| && s[r.value] == c && c !in s[r.value + 1..]
    decreases |s|
  {
    if s == [] then None
    else if s[|s| - 1] == c then Some(|s| - 1)
    else
      var init := s[..|s| - 1];
      assert s == init + [s[|s| - 1]];
      var rest := LastIndexOf(init, c);
      if rest.None? then None
      else
        assert s[rest.value + 1..] == init[rest.value + 1..] + [s[|s| - 1]];
        rest
  }

  /** The longest prefix of `s` free of the characters in `ws`. */
  function TakeUntil(s: string, ws: set<char>): (w: string)
    ensures w <= s
    ensures forall k :: 0 <= k < |w| ==> w[k] !in ws
    ensures |w| < |s| ==> s[|w|] in ws
    decreases |s|
  {
    if s == [] || s[0] in ws then [] else [s[0]] + TakeUntil(s[1..], ws)
  }

  /** Python's `s.split()` with no argument: the maximal runs of non-whitespace. */
  function Fields(s: string): (fields: seq<string>)
    ensures forall f :: f in fields ==> Word(f)
    decreases |s|
  {
    var t := TrimLeft(s, PyWhitespace);
    if t == [] then []
    else
      var w := TakeUntil(t, PyWhitespace);
      [w] + Fields(t[|w|..])
  }

  /** The characters of `s` outside `ws`, in order. */
  function Squeeze(s: string, ws: set<char>): (r: string)
    ensures |r| <= |s|
    decreases |s|
  {
    if s == [] then [] else (if s[0] in ws then [] else [s[0]]) + Squeeze(s[1..], ws)
  }

  lemma {:induction false} SqueezeAppend(a: string, b: string, ws: set<char>)
    ensures Squeeze(a + b, ws) == Squeeze(a, ws) + Squeeze(b, ws)
    decreases |a|
  {
    if a != [] {
      assert (a + b)[1..] == a[1..] + b;
      SqueezeAppend(a[1..], b, ws);
      var h := if a[0] in ws then [] else [a[0]];
      assert Squeeze(a + b, ws) == h + (Squeeze(a[1..], ws) + Squeeze(b, ws));
      assert h + (Squeeze(a[1..], ws) + Squeeze(b, ws)) == (h + Squeeze(a[1..], ws)) + Squeeze(b, ws);
    } else {
      assert a + b == b;
    }
  }

  lemma {:induction false} SqueezeAll(a: string, ws: set<char>)
    requires forall k :: 0 <= k < |a| ==> a[k] in ws
    ensures Squeeze(a, ws) == []
    decreases |a|
  {
    if a != [] {
      assert a[0] in ws;
      SqueezeAll(a[1..], ws);
      assert Squeeze(a, ws) == Squeeze(a[1..], ws);
    }
  }

  lemma {:induction false} SqueezeNone(a: string, ws: set<char>)
    requires forall k :: 0 <= k < |a| ==> a[k] !in ws
    ensures Squeeze(a, ws) == a
    decreases |a|
  {
    if a != [] {
      SqueezeNone(a[1..], ws);
      assert [a[0]] + a[1..] == a;
    }
  }

  /** The strings of a list, one after the other. */
  function Concat(xs: seq<string>): string
    decreases |xs|
  {
    if xs == [] then [] else xs[0] + Concat(xs[1..])
  }

  /** The fields together are the text with its whitespace removed. */
  lemma {:induction false} FieldsSqueeze(s: string)
    ensures Concat(Fields(s)) == Squeeze(s, PyWhitespace)
    decreases |s|
  {
    var t := TrimLeft(s, PyWhitespace);
    assert Squeeze(s, PyWhitespace) == Squeeze(t, PyWhitespace) by {
      SqueezeTrimmed(s);
    }
    if t != [] {
      var w := TakeUntil(t, PyWhitespace);
      var rest := t[|w|..];
      assert Fields(s) == [w] + Fields(rest) && |rest| < |s| by {
        FieldsHead(s);
      }
      assert Squeeze(t, PyWhitespace) == w + Squeeze(rest, PyWhitespace) by {
        SqueezeHead(t);
      }
      assert Concat(Fields(rest)) == Squeeze(rest, PyWhitespace) by {
        FieldsSqueeze(rest);
      }
      assert ([w] + Fields(rest))[1..] == Fields(rest);
    } else {
      assert Fields(s) == [];
    }
  }

  /** Leading whitespace contributes nothing once squeezed. */
  lemma SqueezeTrimmed(s: string)
    ensures Squeeze(s, PyWhitespace) == Squeeze(TrimLeft(s, PyWhitespace), PyWhitespace)
  {
    var t := TrimLeft(s, PyWhitespace);
    var i := |s| - |t|;
    TrimLeftExact(s, PyWhitespace);
    assert s == s[..i] + t;
    SqueezeAll(s[..i], PyWhitespace);
    SqueezeAppend(s[..i], t, PyWhitespace);
  }

  /** The first field of a text is the word its leading whitespace gives way to. */
  lemma FieldsHead(s: string)
    requires TrimLeft(s, PyWhitespace) != []
    ensures var t := TrimLeft(s, PyWhitespace); var w := TakeUntil(t, PyWhitespace);
      |t[|w|..]| < |s| && Fields(s) == [w] + Fields(t[|w|..])
  {
  }

  /** A text that opens with a word squeezes to that word and the squeezed rest. */
  lemma SqueezeHead(t: string)
    ensures var w := TakeUntil(t, PyWhitespace);
      Squeeze(t, PyWhitespace) == w + Squeeze(t[|w|..], PyWhitespace)
  {
    var w := TakeUntil(t, PyWhitespace);
    var rest := t[|w|..];
    assert t == w + rest;
    SqueezeNone(w, PyWhitespace);
    SqueezeAppend(w, rest, PyWhitespace);
  }

  /** A non-empty text without whitespace, as `split()` returns its fields. */
  predicate Word(w: string) {
    w != [] && forall k :: 0 <= k < |w| ==> w[k] !in PyWhitespace
  }

  /** The separator `" ".join` puts between fields. */
  const SPACE: string := " "

  /** Fields free of whitespace, joined by single spaces, split back into themselves. */
  lemma {:induction false} FieldsOfJoin(fs: seq<string>)
    requires Words(fs)
    ensures Fields(Join(fs, SPACE)) == fs
    decreases |fs|
  {
    if |fs| == 1 {
      FieldsOfWord(fs);
    } else if |fs| > 1 {
      FieldsJoinStep(fs);
      WordsTail(fs);
      FieldsOfJoin(fs[1..]);
      assert fs == [fs[0]] + fs[1..];
    }
  }

  /** A single word is its only field. */
  lemma FieldsOfWord(fs: seq<string>)
    requires |fs| == 1 && Words(fs)
    ensures Fields(Join(fs, SPACE)) == fs
  {
    var w := fs[0];
    assert Word(w);
    assert Join(fs, SPACE) == w;
    assert Fields(w) == [w] by {
      FieldsStep(w, []);
      assert w + [] == w;
      assert Fields([]) == [];
    }
    assert fs == [w];
  }

  /** Every item of the list is a word. */
  predicate Words(fs: seq<string>) {
    forall i :: 0 <= i < |fs| ==> Word(fs[i])
  }

  lemma WordsTail(fs: seq<string>)
    requires fs != [] && Words(fs)
    ensures Words(fs[1..])
  {
    assert forall i :: 0 <= i < |fs[1..]| ==> fs[1..][i] == fs[i + 1];
  }

  /** The first of several joined fields comes off first. */
  lemma FieldsJoinStep(fs: seq<string>)
    requires |fs| > 1 && Words(fs)
    ensures Fields(Join(fs, SPACE)) == [fs[0]] + Fields(Join(fs[1..], SPACE))
  {
    var w := fs[0];
    var rest := Join(fs[1..], SPACE);
    assert Join(fs, SPACE) == w + (SPACE + rest) by {
      assert Join(fs, SPACE) == w + SPACE + rest;
    }
    assert Word(w) && Word(fs[1]);
    assert rest != [] && rest[0] !in PyWhitespace by {
      assert fs[1..][0] == fs[1];
      JoinStartsWithFirst(fs[1..], SPACE);
      assert rest[0] == fs[1][0];
    }
    assert Fields(w + (SPACE + rest)) == [w] + Fields(SPACE + rest) by {
      FieldsStep(w, SPACE + rest);
    }
    assert Fields(SPACE + rest) == Fields(rest) by {
      FieldsSpace(rest);
    }
  }

  /** A whitespace-free word followed by nothing or by a space is the first field. */
  lemma FieldsStep(w: string, rest: string)
    requires Word(w)
    requires rest == [] || rest[0] == ' '
    ensures Fields(w + rest) == [w] + Fields(rest)
  {
    var s := w + rest;
    assert TrimLeft(s, PyWhitespace) == s;
    assert s[..|w|] == w;
    TakeUntilField(s, w);
    assert s[|w|..] == rest;
  }

  /** A single leading space does not change the fields of a text that does not start with whitespace. */
  lemma FieldsSpace(rest: string)
    requires rest != [] && rest[0] !in PyWhitespace
    ensures Fields(SPACE + rest) == Fields(rest)
  {
    assert (SPACE + rest)[1..] == rest;
    assert TrimLeft(SPACE + rest, PyWhitespace) == TrimLeft(rest, PyWhitespace) == rest;
  }

  /** A joined list starts with its first item. */
  lemma JoinStartsWithFirst(items: seq<string>, sep: string)
    requires items != []
    ensures |items[0]| <= |Join(items, sep)| && Join(items, sep)[..|items[0]|] == items[0]
  {
    if |items| > 1 {
      assert Join(items, sep) == items[0] + (sep + Join(items[1..], sep));
    }
  }

  /** The first field of a text that starts with a whitespace-free word followed by a space or the end is that word. */
  lemma {:induction false} TakeUntilField(s: string, w: string)
    requires |w| <= |s| && s[..|w|] == w && Word(w)
    requires |w| < |s| ==> s[|w|] == ' '
    ensures TakeUntil(s, PyWhitespace) == w
  {
    var u := TakeUntil(s, PyWhitespace);
    assert forall k :: 0 <= k < |w| ==> s[k] !in PyWhitespace;
    assert |u| >= |w|;
    assert |u| <= |w|;
    assert u == s[..|u|];
  }

  /** Index of the first line boundary in `s`, or `|s|`. */
  function LineEnd(s: string): (i: nat)
    ensures i <= |s|
    ensures forall k :: 0 <= k < i ==> s[k] !in LineBreaks
    ensures i < |s| ==> s[i] in LineBreaks
    decreases |s|
  {
    if s == [] || s[0] in LineBreaks then 0 else 1 + LineEnd(s[1..])
  }

  /** The two line endings a text usually carries. */
  const LF: string := "\n"
  const CRLF: string := "\r\n"

  /** A line without boundary characters. */
  predicate NoBreaks(l: string) {
    forall k :: 0 <= k < |l| ==> l[k] !in LineBreaks
  }

  /** Each line followed by the line ending `eol`. */
  function Terminated(lines: seq<string>, eol: string): string
    decreases |lines|
  {
    if lines == [] then [] else lines[0] + eol + Terminated(lines[1..], eol)
  }

  /**
   * Lines free of boundary characters, each ended by "\n" or each by
   * "\r\n", split back into themselves.
   */
  lemma {:induction false} SplitLinesTerminated(lines: seq<string>, eol: string)
    requires eol == LF || eol == CRLF
    requires forall i :: 0 <= i < |lines| ==> NoBreaks(lines[i])
    ensures SplitLines(Terminated(lines, eol)) == lines
    decreases |lines|
  {
    if lines != [] {
      var rest := Terminated(lines[1..], eol);
      assert SplitLines(Terminated(lines, eol)) == [lines[0]] + SplitLines(rest) by {
        assert NoBreaks(lines[0]);
        SplitLinesStep(lines[0], eol, rest);
      }
      assert SplitLines(rest) == lines[1..] by {
        assert forall j :: 0 <= j < |lines[1..]| ==> lines[1..][j] == lines[j + 1];
        SplitLinesTerminated(lines[1..], eol);
      }
      assert lines == [lines[0]] + lines[1..];
    }
  }

  /** A line free of boundary characters and its line ending come off as the first line. */
  lemma SplitLinesStep(l: string, eol: string, rest: string)
    requires eol == LF || eol == CRLF
    requires NoBreaks(l)
    ensures SplitLines(l + eol + rest) == [l] + SplitLines(rest)
  {
    var s := l + eol + rest;
    var i := LineEnd(s);
    assert s[|l|] == eol[0];
    assert forall k :: 0 <= k < |l| ==> s[k] == l[k];
    assert i == |l|;
    assert s[..i] == l;
    assert s[i + |eol|..] == rest;
  }

  /** Python's `s.splitlines()`: no boundary characters kept, no trailing empty line. */
  function SplitLines(s: string): (lines: seq<string>)
    ensures forall l :: l in lines ==> NoBreaks(l)
    decreases |s|
  {
    if s == [] then []
    else
      var i := LineEnd(s);
      var next := if i == |s| then i
                  else if s[i] == '\r' && i + 1 < |s| && s[i + 1] == '\n' then i + 2
                  else i + 1;
      [s[..i]] + SplitLines(s[next..])
  }

  predicate IsDigit(c: char) {
    '0' <= c <= '9'
  }

  predicate AllDigits(s: string) {
    forall i :: 0 <= i < |s| ==> IsDigit(s[i])
  }

  function DigitChar(d: nat): (c: char)
    requires d < 10
    ensures IsDigit(c)
  {
    ('0' as int + d) as char
  }

  /** Decimal rendering of a natural number, most significant digit first. */
  function NatToString(n: nat): (s: string)
    ensures s != [] && AllDigits(s)
    decreases n
  {
    if n < 10 then [DigitChar(n)] else NatToString(n / 10) + [DigitChar(n % 10)]
  }

  /** `str(n)` in Python and `${n}` in JavaScript for an integer. */
  function IntToString(n: int): (s: string)
    ensures s != []
  {
    if n < 0 then "-" + NatToString(-n) else NatToString(n)
  }

  function DigitsValue(s: string): nat
    requires AllDigits(s)
    decreases |s|
  {
    if s == [] then 0 else DigitsValue(s[..|s| - 1]) * 10 + (s[|s| - 1] as int - '0' as int)
  }

  /**
   * Python's `int(s)` on a string: optional surrounding whitespace, an
   * optional sign and at least one ASCII digit; anything else is a
   * ValueError, modelled as None.
   */
  function ParseInt(s: string): (r: Option<int>)
  {
    ParseSigned(Strip(s, PyWhitespace))
  }

  /** An optional sign followed by at least one ASCII digit, and nothing else. */
  function ParseSigned(t: string): Option<int> {
    if t == [] then None
    else
      var neg := t[0] == '-';
      var digits := if t[0] == '-' || t[0] == '+' then t[1..] else t;
      if digits != [] && AllDigits(digits) then
        var v: int := DigitsValue(digits);
        Some(if neg then -v else v)
      else None
  }

  lemma {:induction false} NatToStringValue(n: nat)
    ensures DigitsValue(NatToString(n)) == n
    decreases n
  {
    if n >= 10 {
      NatToStringValue(n / 10);
      var s := NatToString(n);
      assert s[..|s| - 1] == NatToString(n / 10);
    }
  }

  /** `int(str(n)) == n`: rendering an integer and parsing it back is the identity. */
  lemma IntToStringRoundTrip(n: int)
    ensures ParseInt(IntToString(n)) == Some(n)
  {
    var m: nat := if n < 0 then -n else n;
    var d := NatToString(m);
    var s := IntToString(n);
    assert s == (if n < 0 then "-" + d else d);
    assert s[|s| - 1] == d[|d| - 1] && IsDigit(d[|d| - 1]);
    assert s[0] == '-' || IsDigit(s[0]);
    StripUntouched(s, PyWhitespace);
    SignedRoundTrip(n);
  }

  lemma SignedRoundTrip(n: int)
    ensures ParseSigned(IntToString(n)) == Some(n)
  {
    var m: nat := if n < 0 then -n else n;
    var d := NatToString(m);
    NatToStringValue(m);
    var s := IntToString(n);
    if n < 0 {
      assert s[0] == '-' && s[1..] == d;
    } else {
      assert s == d && IsDigit(s[0]);
    }
  }

  /** `if c: xs.append(x)`: the list with `x` added at its end exactly when `c` holds. */
  function AppendIf<T>(xs: seq<T>, c: bool, x: T): seq<T> {
    if c then xs + [x] else xs
  }

  /** After `AppendIf`, an item is present exactly when it was before or it is the one added. */
  lemma AppendIfIn<T>(xs: seq<T>, c: bool, x: T, y: T)
    ensures y in AppendIf(xs, c, x) <==> y in xs || (c && y == x)
    ensures |AppendIf(xs, c, x)| == |xs| + (if c then 1 else 0)
  {
  }

  /** Python's `s[:n]`, including a negative `n`, which drops the last `-n` elements. */
  function SliceTo<T>(s: seq<T>, n: int): (r: seq<T>)
    ensures r <= s
    ensures n >= 0 ==> |r| == if n < |s| then n else |s|
    ensures n < 0 ==> |r| == if |s| + n > 0 then |s| + n else 0
  {
    if n >= 0 then (if n < |s| then s[..n] else s)
    else (if |s| + n > 0 then s[..|s| + n] else [])
  }
}
