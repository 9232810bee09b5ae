/** Shared vocabulary: an option type and the handful of Python string
    operations (`startswith`, `in`, `strip`, `split`, `join`, `str(int)`) that
    the backend relies on, written out over `seq<char>`. */
module Common {

  datatype Option<T> = None | Some(value: T)

  /** Concatenation regrouped, for proofs that should not unfold sequences. */
  lemma {:induction false} AppendAssoc<T>(a: seq<T>, b: seq<T>, c: seq<T>)
    ensures (a + b) + c == a + (b + c)
  {
  }

  lemma {:induction false} AppendEmpty<T>(a: seq<T>)
    ensures a + [] == a && [] + a == a
  {
  }

  /** Dropping a prefix of the first part of a concatenation. */
  lemma {:induction false} DropAppend<T>(a: seq<T>, b: seq<T>, k: nat)
    requires k <= |a|
    ensures (a + b)[k..] == a[k..] + b
  {
  }

  /** Moving the first element of `s` to the end of `p`. */
  lemma {:induction false} AppendHead<T>(p: seq<T>, s: seq<T>)
    requires s != []
    ensures p + [s[0]] + s[1..] == p + s
  {
    assert s == [s[0]] + s[1..];
  }

  /** A sequence is its three slices at `i` and `j`. */
  lemma {:induction false} SplitThree<T>(s: seq<T>, i: nat, j: nat)
    requires i <= j <= |s|
    ensures s == s[..i] + s[i..j] + s[j..]
  {
  }

  /** Dropping the last element of a concatenation with a non-empty
      second part drops it from that part. */
  lemma {:induction false} InitOfAppend<T>(a: seq<T>, b: seq<T>)
    requires b != []
    ensures (a + b)[..|a + b| - 1] == a + b[..|b| - 1]
  {
    var l := (a + b)[..|a + b| - 1];
    var r := a + b[..|b| - 1];
    assert forall i :: 0 <= i < |l| ==> l[i] == r[i];
  }

  /** Python truthiness of an optional string: present and non-empty. */
  predicate Truthy(s: Option<string>)
  {
    s.Some? && s.value != ""
  }

  /** `s.startswith(prefix)` */
  predicate StartsWith(s: string, prefix: string)
  {
    |prefix| <= |s| && s[..|prefix|] == prefix
  }

  /** `sub in s` */
  predicate Contains(s: string, sub: string)
    decreases |s|
  {
    StartsWith(s, sub) || (|s| > 0 && Contains(s[1..], sub))
  }

  lemma {:induction false} ContainsAt(s: string, sub: string, i: nat)
    requires i + |sub| <= |s| && s[i..i + |sub|] == sub
    ensures Contains(s, sub)
    decreases i
  {
    if i > 0 {
      assert s[1..][i - 1..i - 1 + |sub|] == s[i..i + |sub|];
      ContainsAt(s[1..], sub, i - 1);
    }
  }

  lemma {:induction false} ContainsWitness(s: string, sub: string) returns (i: nat)
    requires Contains(s, sub)
    ensures i + |sub| <= |s| && s[i..i + |sub|] == sub
    decreases |s|
  {
    if StartsWith(s, sub) {
      i := 0;
    } else {
      var j := ContainsWitness(s[1..], sub);
      assert s[1..][j..j + |sub|] == s[j + 1..j + 1 + |sub|];
      i := j + 1;
    }
  }

  /** The characters for which Python's `str.isspace()` holds: what `strip()`
      and `split()` without arguments treat as whitespace. */
  predicate IsSpace(c: char)
  {
    c == ' ' || ('\t' <= c <= '\r') || ('\U{1C}' <= c <= '\U{1F}') || c == '\U{85}' ||
    c == '\U{A0}' || c == '\U{1680}' || ('\U{2000}' <= c <= '\U{200A}') || c == '\U{2028}' ||
    c == '\U{2029}' || c == '\U{202F}' || c == '\U{205F}' || c == '\U{3000}'
  }

  /** The characters at which Python's `str.splitlines()` breaks a line. */
  predicate IsLineBreak(c: char)
  {
    ('\n' <= c <= '\r') || ('\U{1C}' <= c <= '\U{1E}') || c == '\U{85}' || c == '\U{2028}' || c == '\U{2029}'
  }

  predicate NoSpace(s: string)
  {
    forall i :: 0 <= i < |s| ==> !IsSpace(s[i])
  }

  /** Blank: nothing but whitespace. */
  predicate IsBlank(s: string)
  {
    forall i :: 0 <= i < |s| ==> IsSpace(s[i])
  }

  /** Neither end is whitespace (vacuously true of the empty string). */
  predicate Trimmed(s: string)
  {
    s == [] || (!IsSpace(s[0]) && !IsSpace(s[|s| - 1]))
  }

  /** `s.lstrip()` */
  function LStrip(s: string): (r: string)
    ensures |r| <= |s| && r == s[|s| - |r|..]
    ensures r == [] || !IsSpace(r[0])
    decreases |s|
  {
    if |s| > 0 && IsSpace(s[0]) then LStrip(s[1..]) else s
  }

  /** What `lstrip` removes is whitespace. */
  lemma {:induction false} LStripBlank(s: string)
    ensures IsBlank(s[..|s| - |LStrip(s)|])
    decreases |s|
  {
    if |s| > 0 && IsSpace(s[0]) {
      LStripBlank(s[1..]);
      var k := |s| - |LStrip(s)|;
      assert forall i :: 1 <= i < k ==> s[..k][i] == s[1..][..k - 1][i - 1];
    }
  }

  /** A string is blank exactly when `lstrip` leaves nothing. */
  lemma {:induction false} BlankIffLStripEmpty(s: string)
    ensures IsBlank(s) <==> LStrip(s) == []
    decreases |s|
  {
    if s != [] && IsSpace(s[0]) {
      BlankIffLStripEmpty(s[1..]);
      assert IsBlank(s) <==> IsBlank(s[1..]) by {
        assert forall i :: 1 <= i < |s| ==> s[i] == s[1..][i - 1];
      }
    }
  }

  /** Text appended after a non-blank string survives `lstrip` untouched. */
  lemma {:induction false} LStripAppend(a: string, b: string)
    requires LStrip(a) != []
    ensures LStrip(a + b) == LStrip(a) + b
    decreases |a|
  {
    if IsSpace(a[0]) {
      assert (a + b)[0] == a[0] && (a + b)[1..] == a[1..] + b;
      LStripAppend(a[1..], b);
    } else {
      assert (a + b)[0] == a[0];
    }
  }

  /** `s.rstrip()` */
  function RStrip(s: string): (r: string)
    ensures |r| <= |s| && r == s[..|r|]
    ensures r == [] || !IsSpace(r[|r| - 1])
    decreases |s|
  {
    if |s| > 0 && IsSpace(s[|s| - 1]) then RStrip(s[..|s| - 1]) else s
  }

  /** What `rstrip` removes is whitespace. */
  lemma {:induction false} RStripBlank(s: string)
    ensures IsBlank(s[|RStrip(s)|..])
    decreases |s|
  {
    if |s| > 0 && IsSpace(s[|s| - 1]) {
      RStripBlank(s[..|s| - 1]);
      var k := |RStrip(s)|;
      assert s[k..] == s[..|s| - 1][k..] + [s[|s| - 1]];
    }
  }

  /** `rstrip` keeps a first character that is not whitespace. */
  lemma {:induction false} RStripKeepsHead(s: string)
    requires s != [] && !IsSpace(s[0])
    ensures RStrip(s) != [] && RStrip(s)[0] == s[0]
    decreases |s|
  {
    if IsSpace(s[|s| - 1]) {
      var p := s[..|s| - 1];
      assert p != [] && p[0] == s[0];
      RStripKeepsHead(p);
    }
  }

  /** `s.strip()`: the result is the part of `s` between its leading and
      trailing whitespace, and has no whitespace at either end. */
  function Strip(s: string): (r: string)
    ensures Trimmed(r)
  {
    RStrip(LStrip(s))
  }

  /** `strip` starts where `lstrip` does. */
  lemma {:induction false} StripHead(s: string)
    ensures Strip(s) == [] <==> LStrip(s) == []
    ensures Strip(s) != [] ==> Strip(s)[0] == LStrip(s)[0]
  {
    if LStrip(s) != [] {
      RStripKeepsHead(LStrip(s));
    }
  }

  /** What `strip` removes is whitespace at either end and nothing else. */
  lemma {:induction false} StripInfix(s: string) returns (i: nat)
    ensures i + |Strip(s)| <= |s| && s[i..i + |Strip(s)|] == Strip(s)
    ensures IsBlank(s[..i]) && IsBlank(s[i + |Strip(s)|..])
  {
    var l := LStrip(s);
    var r := RStrip(l);
    LStripBlank(s);
    RStripBlank(l);
    i := |s| - |l|;
    assert s[i..i + |r|] == r;
    assert s[i + |r|..] == l[|r|..];
  }

  /** `sep.join(parts)` */
  function Join(parts: seq<string>, sep: string): string
  {
    if |parts| == 0 then "" else if |parts| == 1 then parts[0] else parts[0] + sep + Join(parts[1..], sep)
  }

  /** The longest prefix of `s` without whitespace. */
  function TakeWord(s: string): (w: string)
    ensures |w| <= |s| && w == s[..|w|] && NoSpace(w)
    ensures |w| == |s| || IsSpace(s[|w|])
    ensures s != [] && !IsSpace(s[0]) ==> w != []
  {
    if s == [] || IsSpace(s[0]) then [] else [s[0]] + TakeWord(s[1..])
  }

  /** A word as `split()` returns it: non-empty, no whitespace. */
  predicate IsWord(w: string)
  {
    w != [] && NoSpace(w)
  }

  /** `s.split()`: the maximal runs of non-whitespace characters, in order. */
  function Words(s: string): seq<string>
    decreases |s|
  {
    var t := LStrip(s);
    if t == [] then [] else
      var w := TakeWord(t);
      assert w != [] && |t[|w|..]| < |s|;
      [w] + Words(t[|w|..])
  }

  /** Every piece `split()` returns is a word. */
  lemma {:induction false} WordsAreWords(s: string)
    ensures forall x :: x in Words(s) ==> IsWord(x)
    decreases |s|
  {
    var t := LStrip(s);
    if t != [] {
      var w := TakeWord(t);
      WordsAreWords(t[|w|..]);
      assert Words(s) == [w] + Words(t[|w|..]);
      assert IsWord(w);
    }
  }

  /** `split()` reads a string through its leading whitespace. */
  lemma WordsLStrip(s: string)
    ensures Words(LStrip(s)) == Words(s)
  {
    var t := LStrip(s);
    assert LStrip(t) == t;
  }

  /** A word reaching the end of `t`, or stopping before it, is the word
      `t + x` starts with when `x` adds no letters to it. */
  lemma {:induction false} TakeWordAppend(t: string, x: string)
    requires |TakeWord(t)| < |t| || x == [] || IsSpace(x[0])
    ensures TakeWord(t + x) == TakeWord(t)
    decreases |t|
  {
    if t == [] {
      assert t + x == x;
    } else if !IsSpace(t[0]) {
      assert (t + x)[0] == t[0] && (t + x)[1..] == t[1..] + x;
      TakeWordAppend(t[1..], x);
    } else {
      assert (t + x)[0] == t[0];
    }
  }

  /** A whitespace character splits what `split()` returns: the words on
      its left, then the words on its right. */
  lemma {:induction false} WordsAround(a: string, c: char, b: string)
    requires IsSpace(c)
    ensures Words(a + [c] + b) == Words(a) + Words(b)
    decreases |a|
  {
    var s := a + [c] + b;
    var t := LStrip(a);
    if t == [] {
      BlankIffLStripEmpty(a);
      assert IsBlank(a + [c]);
      LStripBlankPrefix(a + [c], b);
      WordsLStrip(s);
      WordsLStrip(b);
    } else {
      var w := TakeWord(t);
      var u := t + ([c] + b);
      LStripAppend(a, [c] + b);
      AppendAssoc(a, [c], b);
      assert LStrip(s) == u;
      TakeWordAppend(t, [c] + b);
      assert TakeWord(u) == w;
      assert Words(s) == [w] + Words(u[|w|..]);
      var r := t[|w|..];
      DropAppend(t, [c] + b, |w|);
      AppendAssoc(r, [c], b);
      WordsAround(r, c, b);
      assert Words(a) == [w] + Words(r);
      AppendAssoc([w], Words(r), Words(b));
    }
  }

  /** Leading whitespace does not change what `lstrip` leaves. */
  lemma {:induction false} LStripBlankPrefix(p: string, b: string)
    requires IsBlank(p)
    ensures LStrip(p + b) == LStrip(b)
    decreases |p|
  {
    if p == [] {
      assert p + b == b;
    } else {
      assert (p + b)[0] == p[0] && (p + b)[1..] == p[1..] + b;
      LStripBlankPrefix(p[1..], b);
    }
  }

  /** A run of whitespace splits what `split()` returns like one character. */
  lemma {:induction false} WordsAroundBlank(a: string, sp: string, b: string)
    requires sp != [] && IsBlank(sp)
    ensures Words(a + sp + b) == Words(a) + Words(b)
    decreases |sp|
  {
    assert a + sp + b == a + [sp[0]] + (sp[1..] + b);
    WordsAround(a, sp[0], sp[1..] + b);
    if sp[1..] == [] {
      AppendEmpty(b);
    } else {
      WordsAroundBlank([], sp[1..], b);
      AppendEmpty(sp[1..]);
      AppendEmpty(Words(b));
    }
  }

  /** Leading whitespace adds no word. */
  lemma WordsDropBlank(pre: string, x: string)
    requires IsBlank(pre)
    ensures Words(pre + x) == Words(x)
  {
    if pre != [] {
      WordsAroundBlank([], pre, x);
      AppendEmpty(pre);
      AppendEmpty(Words(x));
    } else {
      AppendEmpty(x);
    }
  }

  /** Trailing whitespace adds no word. */
  lemma WordsTrailBlank(x: string, suf: string)
    requires IsBlank(suf)
    ensures Words(x + suf) == Words(x)
  {
    AppendEmpty(x + suf);
    if suf != [] {
      WordsAroundBlank(x, suf, []);
      AppendEmpty(Words(x));
    } else {
      AppendEmpty(x);
    }
  }

  /** Blank text has no words. */
  lemma WordsOfBlank(s: string)
    requires IsBlank(s)
    ensures Words(s) == []
  {
    BlankIffLStripEmpty(s);
  }

  /** `strip()` keeps every word, in order. */
  lemma WordsOfStrip(s: string)
    ensures Words(Strip(s)) == Words(s)
  {
    var i := StripInfix(s);
    var m := Strip(s);
    var pre, suf := s[..i], s[i + |m|..];
    SplitThree(s, i, i + |m|);
    AppendAssoc(pre, m, suf);
    var ms := m + suf;
    assert s == pre + ms;
    WordsDropBlank(pre, ms);
    WordsTrailBlank(m, suf);
  }

  /** The words of each string, one string after another. */
  function AllWords(ps: seq<string>): seq<string>
  {
    if ps == [] then [] else Words(ps[0]) + AllWords(ps[1..])
  }

  lemma {:induction false} AllWordsAppend(ps: seq<string>, qs: seq<string>)
    ensures AllWords(ps + qs) == AllWords(ps) + AllWords(qs)
    decreases |ps|
  {
    if ps == [] {
      assert ps + qs == qs;
    } else {
      assert (ps + qs)[0] == ps[0] && (ps + qs)[1..] == ps[1..] + qs;
      AllWordsAppend(ps[1..], qs);
    }
  }

  /** Joining at whitespace keeps every part's words, in order. */
  lemma {:induction false} WordsOfJoinBlank(ps: seq<string>, sep: string)
    requires sep != [] && IsBlank(sep)
    ensures Words(Join(ps, sep)) == AllWords(ps)
    decreases |ps|
  {
    if |ps| == 1 {
      assert AllWords(ps) == Words(ps[0]) + AllWords([]);
    } else if |ps| >= 2 {
      WordsOfJoinBlank(ps[1..], sep);
      WordsAroundBlank(ps[0], sep, Join(ps[1..], sep));
    }
  }

  /** The lines with the text before each of them, as the words of
      everything read so far: `split()` reads across line breaks as it
      reads across any whitespace. */
  lemma {:induction false} WordsOfLines(p: string, s: string)
    ensures var lines := SplitLines(s);
      Words(p + s) == Words(p + lines[0]) + AllWords(lines[1..])
    decreases |s|
  {
    if s == [] {
      assert p + s == p + SplitLines(s)[0];
    } else if IsLineBreak(s[0]) {
      var rest := SplitLines(s[1..]);
      WordsOfLines([], s[1..]);
      AppendEmpty(s[1..]);
      AppendEmpty(rest[0]);
      LinesBreakStep(p, s, rest);
      SplitLinesBreak(s);
      AppendEmpty(p);
    } else {
      WordsOfLines(p + [s[0]], s[1..]);
      LinesCharStep(p, s);
    }
  }

  /** At a line break, the lines are an empty one, then the lines after it. */
  lemma SplitLinesBreak(s: string)
    requires s != [] && IsLineBreak(s[0])
    ensures SplitLines(s)[0] == "" && SplitLines(s)[1..] == SplitLines(s[1..])
  {
    assert SplitLines(s) == [""] + SplitLines(s[1..]);
  }

  /** `WordsOfLines` at a line break, given the words after it. */
  lemma LinesBreakStep(p: string, s: string, rest: seq<string>)
    requires s != [] && IsLineBreak(s[0]) && rest != []
    requires Words(s[1..]) == Words(rest[0]) + AllWords(rest[1..])
    ensures Words(p + s) == Words(p) + AllWords(rest)
  {
    WordsAround(p, s[0], s[1..]);
    AppendHead(p, s);
  }

  /** `WordsOfLines` at a character that is not a line break, given it for
      the text after it with that character moved before it. */
  lemma LinesCharStep(p: string, s: string)
    requires s != [] && !IsLineBreak(s[0])
    requires var rest := SplitLines(s[1..]);
      Words(p + [s[0]] + s[1..]) == Words(p + [s[0]] + rest[0]) + AllWords(rest[1..])
    ensures var lines := SplitLines(s);
      Words(p + s) == Words(p + lines[0]) + AllWords(lines[1..])
  {
    var rest := SplitLines(s[1..]);
    var lines := SplitLines(s);
    assert lines == [[s[0]] + rest[0]] + rest[1..];
    assert lines[1..] == rest[1..];
    AppendAssoc(p, [s[0]], rest[0]);
    AppendHead(p, s);
  }

  /** Splitting into lines keeps every word, in order. */
  lemma WordsOfSplitLines(s: string)
    ensures AllWords(SplitLines(s)) == Words(s)
  {
    WordsOfLines([], s);
    assert [] + s == s && [] + SplitLines(s)[0] == SplitLines(s)[0];
  }

  /** `sep` splitting as Python's `s.split(sep)` does it: leftmost
      occurrences, never overlapping. */
  function SplitOn(s: string, sep: string): (parts: seq<string>)
    requires sep != []
    ensures |parts| >= 1
    ensures |parts[0]| <= |s| && parts[0] == s[..|parts[0]|]
    decreases |s|
  {
    if |s| < |sep| then [s]
    else if s[..|sep|] == sep then [""] + SplitOn(s[|sep|..], sep)
    else
      var rest := SplitOn(s[1..], sep);
      [[s[0]] + rest[0]] + rest[1..]
  }

  /** Joining the parts of `s.split(sep)` with `sep` gives back `s`. */
  lemma {:induction false} JoinSplitOn(s: string, sep: string)
    requires sep != []
    ensures Join(SplitOn(s, sep), sep) == s
    decreases |s|
  {
    if |s| < |sep| {
    } else if s[..|sep|] == sep {
      JoinSplitOn(s[|sep|..], sep);
      var rest := SplitOn(s[|sep|..], sep);
      assert ([""] + rest)[1..] == rest;
      assert s == sep + s[|sep|..];
    } else {
      var rest := SplitOn(s[1..], sep);
      JoinSplitOn(s[1..], sep);
      var parts := [[s[0]] + rest[0]] + rest[1..];
      assert parts[1..] == rest[1..];
      if |rest| >= 2 {
        AppendAssoc([s[0]], rest[0], sep + Join(rest[1..], sep));
      }
      assert s == [s[0]] + s[1..];
    }
  }

  /** The text between line breaks, breaking at every line-break character.
      Only the non-empty lines agree with Python's `splitlines()`, which counts
      "\r\n" as one break and drops a final empty line; this one adds empty
      lines there, which every caller here discards. */
  function SplitLines(s: string): (lines: seq<string>)
    ensures |lines| >= 1
    ensures forall k, j :: 0 <= k < |lines| && 0 <= j < |lines[k]| ==> !IsLineBreak(lines[k][j])
    decreases |s|
  {
    if s == [] then [""]
    else
      var rest := SplitLines(s[1..]);
      if IsLineBreak(s[0]) then [""] + rest else [[s[0]] + rest[0]] + rest[1..]
  }

  /** Decimal digits of a natural number, as `str(n)` prints it. */
  function NatToString(n: nat): (s: string)
    ensures s != [] && forall i :: 0 <= i < |s| ==> '0' <= s[i] <= '9'
  {
    var d := [(('0' as int) + n % 10) as char];
    if n < 10 then d else NatToString(n / 10) + d
  }

  function Abs(x: int): nat
  {
    if x < 0 then -x else x
  }
}
