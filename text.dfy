/** The Python `str` operations the assistant's parsers rely on, on `seq<char>`. */
module Text {

  /** `c.isspace()` in Python: the characters `strip()` removes and the regex class `\s` matches. */
  predicate IsSpace(c: char) {
    || ('\t' <= c <= '\r')
    || ('\U{1C}' <= c <= '\U{1F}')
    || c == ' ' || c == '\U{85}' || c == '\U{A0}' || c == '\U{1680}'
    || ('\U{2000}' <= c <= '\U{200A}')
    || c == '\U{2028}' || c == '\U{2029}' || c == '\U{202F}' || c == '\U{205F}' || c == '\U{3000}'
  }

  /** `s.startswith(p)` */
  predicate StartsWith(s: string, p: string) {
    |p| <= |s| && s[..|p|] == p
  }

  /** `t in s` for strings: `t` occurs in `s` as a contiguous piece. */
  predicate Contains(s: string, t: string) {
    exists i | 0 <= i <= |s| - |t| :: OccursAt(s, t, i)
  }

  /** `t` occurs in `s` starting at index `i`. */
  predicate OccursAt(s: string, t: string, i: int) {
    0 <= i <= |s| - |t| && s[i..i + |t|] == t
  }

  /** The pieces `ps` occur in `s` one after the other, without overlapping. */
  predicate ContainsInOrder(s: string, ps: seq<string>)
    decreases |ps|
  {
    ps == [] ||
    exists i | 0 <= i <= |s| - |ps[0]| :: OccursAt(s, ps[0], i) && ContainsInOrder(s[i + |ps[0]|..], ps[1..])
  }

  /** Each piece of an in-order occurrence occurs. */
  lemma {:induction false} InOrderContains(s: string, ps: seq<string>, k: int)
    requires ContainsInOrder(s, ps) && 0 <= k < |ps|
    ensures Contains(s, ps[k])
    decreases |ps|
  {
    var i :| 0 <= i <= |s| - |ps[0]| && OccursAt(s, ps[0], i) && ContainsInOrder(s[i + |ps[0]|..], ps[1..]);
    if k > 0 {
      var t := s[i + |ps[0]|..];
      InOrderContains(t, ps[1..], k - 1);
      var j :| 0 <= j <= |t| - |ps[k]| && OccursAt(t, ps[k], j);
      assert s[i + |ps[0]| + j..i + |ps[0]| + j + |ps[k]|] == t[j..j + |ps[k]|];
      assert OccursAt(s, ps[k], i + |ps[0]| + j);
    }
  }

  /** Strings whose first characters differ do not start with one another. */
  lemma DifferentStart(s: string, p: string)
    requires s != [] && p != [] && s[0] != p[0]
    ensures !StartsWith(s, p)
  {
  }

  /** `s.lstrip()` */
  function TrimLeft(s: string): (r: string)
    ensures |r| <= |s| && r == s[|s| - |r|..]
    ensures forall i :: 0 <= i < |s| - |r| ==> IsSpace(s[i])
    ensures r == [] || !IsSpace(r[0])
  {
    if s != [] && IsSpace(s[0]) then TrimLeft(s[1..]) else s
  }

  /** `s.rstrip()` */
  function TrimRight(s: string): (r: string)
    ensures |r| <= |s| && r == s[..|r|]
    ensures forall i :: |r| <= i < |s| ==> IsSpace(s[i])
    ensures r == [] || !IsSpace(r[|r| - 1])
  {
    if s != [] && IsSpace(s[|s| - 1]) then TrimRight(s[..|s| - 1]) else s
  }

  /** `r` is the piece of `s` starting at `k` and everything around it is white space. */
  ghost predicate Framed(s: string, k: int, r: string) {
    && 0 <= k && k + |r| <= |s| && s[k..k + |r|] == r
    && (forall i :: 0 <= i < k ==> IsSpace(s[i]))
    && (forall i :: k + |r| <= i < |s| ==> IsSpace(s[i]))
  }

  /** `s.strip()`: the piece of `s` that is left once white space is cut from both ends. */
  function Strip(s: string): (r: string)
    ensures exists k :: Framed(s, k, r)
    ensures r == [] || (!IsSpace(r[0]) && !IsSpace(r[|r| - 1]))
  {
    var l := TrimLeft(s);
    var r := TrimRight(l);
    assert Framed(s, |s| - |l|, r) by {
      assert s[|s| - |l|..][..|r|] == s[|s| - |l|..|s| - |l| + |r|];
    }
    r
  }

  /** `strip` is determined by its contract: a piece of `s` with white space all around
      it and none at its own ends is what `strip` returns. */
  lemma StripUnique(s: string, k: int, r: string)
    requires Framed(s, k, r)
    requires r == [] || (!IsSpace(r[0]) && !IsSpace(r[|r| - 1]))
    ensures Strip(s) == r
  {
  }

  /** Python's `lower()` on one character, restricted to ASCII letters; see `Lower`. */
  function LowerChar(c: char): char {
    if 'A' <= c <= 'Z' then (c as int + 32) as char else c
  }

  /** `s.lower()` with ASCII case folding. Compared with Python's full Unicode `lower()` it
      differs only on characters whose lower case is not ASCII, which never makes a
      difference when the result is compared with, or searched for, an all-lower-case
      ASCII word that contains neither `i` nor `k`. */
  function Lower(s: string): (r: string)
    ensures |r| == |s|
    ensures forall i :: 0 <= i < |s| ==> r[i] == LowerChar(s[i])
  {
    seq(|s|, i requires 0 <= i < |s| => LowerChar(s[i]))
  }

  /** The inverse of `s.split(sep)`: the parts glued back together with `sep`. */
  function JoinWith(parts: seq<string>, sep: char): string
    requires |parts| >= 1
  {
    if |parts| == 1 then parts[0] else parts[0] + [sep] + JoinWith(parts[1..], sep)
  }

  lemma JoinTwo(a: string, b: string, sep: char)
    ensures JoinWith([a, b], sep) == a + [sep] + b
  {
  }

  lemma JoinThree(a: string, b: string, c: string, sep: char)
    ensures JoinWith([a, b, c], sep) == a + [sep] + b + [sep] + c
  {
    assert [a, b, c][1..] == [b, c];
    JoinTwo(b, c, sep);
  }

  /** `s.split(sep)` for a one-character separator: never empty, no part holds `sep`,
      and joining the parts with `sep` gives `s` back. */
  function SplitOn(s: string, sep: char): (parts: seq<string>)
    ensures |parts| >= 1
    ensures forall k :: 0 <= k < |parts| ==> sep !in parts[k]
    ensures JoinWith(parts, sep) == s
  {
    if s == [] then [""]
    else
      var rest := SplitOn(s[1..], sep);
      if s[0] == sep then
        assert ([""] + rest)[1..] == rest;
        [""] + rest
      else
        var parts := [[s[0]] + rest[0]] + rest[1..];
        assert parts[1..] == rest[1..];
        assert JoinWith(parts, sep) == s by {
          if |rest| > 1 {
            assert JoinWith(rest, sep) == rest[0] + [sep] + JoinWith(rest[1..], sep);
            assert [s[0]] + s[1..] == s;
          } else {
            assert [s[0]] + s[1..] == s;
          }
        }
        parts
  }

  /** A piece without the separator is split into itself. */
  lemma {:induction false} SplitOnWhole(a: string, sep: char)
    requires sep !in a
    ensures SplitOn(a, sep) == [a]
  {
  }

  /** Splitting stops at the first separator. */
  lemma {:induction false} SplitOnFirst(a: string, b: string, sep: char)
    requires sep !in a
    ensures SplitOn(a + [sep] + b, sep) == [a] + SplitOn(b, sep)
  {
    var s := a + [sep] + b;
    if a == [] {
      assert s[1..] == b;
    } else {
      assert s[1..] == a[1..] + [sep] + b;
      SplitOnFirst(a[1..], b, sep);
      assert [a[0]] + a[1..] == a;
    }
  }

  /** `split` is the only way to cut a string into separator-free parts that join back to it. */
  lemma {:induction false} SplitOnJoin(parts: seq<string>, sep: char)
    requires |parts| >= 1
    requires forall k :: 0 <= k < |parts| ==> sep !in parts[k]
    ensures SplitOn(JoinWith(parts, sep), sep) == parts
  {
    if |parts| == 1 {
      SplitOnWhole(parts[0], sep);
    } else {
      SplitOnJoin(parts[1..], sep);
      SplitOnFirst(parts[0], JoinWith(parts[1..], sep), sep);
      assert [parts[0]] + parts[1..] == parts;
    }
  }

  /** Index of the first `c` in `s`. */
  function IndexOf(s: string, c: char): (i: nat)
    requires c in s
    ensures i < |s| && s[i] == c && c !in s[..i]
  {
    if s[0] == c then 0
    else
      var j := IndexOf(s[1..], c);
      assert s[..j + 1] == [s[0]] + s[1..][..j];
      j + 1
  }

  /** `s.split(c, 1)[1]`: the text after the first `c` (Python raises when there is none). */
  function AfterFirst(s: string, c: char): string
    requires c in s
  {
    s[IndexOf(s, c) + 1..]
  }

  /** For a line that starts with a prefix ending in its only `c`, the text after the
      first `c` is the rest of the line behind the prefix, even if it holds more `c`s. */
  lemma AfterFirstPrefix(s: string, p: string, c: char)
    requires StartsWith(s, p) && |p| >= 1 && p[|p| - 1] == c && c !in p[..|p| - 1]
    ensures c in s && AfterFirst(s, c) == s[|p|..]
  {
  }
}
