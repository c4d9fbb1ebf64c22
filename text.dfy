/** The two Python string builtins the chat session relies on: `str.strip()`
    (applied to the input field before sending) and `', '.join(...)` (used to
    list the candidates of an ambiguous lookup), together with a split that
    undoes the join. */
module Text {

  /** Whitespace as Python's `str.isspace()` defines it: the characters that
      `str.strip()` with no argument removes. */
  predicate IsSpace(c: char) {
    || ('\t' <= c <= '\r')
    || ('\U{1C}' <= c <= '\U{1F}')
    || c == ' '
    || c == '\U{85}'
    || c == '\U{A0}'
    || c == '\U{1680}'
    || ('\U{2000}' <= c <= '\U{200A}')
    || c == '\U{2028}'
    || c == '\U{2029}'
    || c == '\U{202F}'
    || c == '\U{205F}'
    || c == '\U{3000}'
  }

  predicate AllSpace(s: string) {
    forall k | 0 <= k < |s| :: IsSpace(s[k])
  }

  /** True when `s` has no whitespace at either end (the empty string has none). */
  predicate Trimmed(s: string) {
    s == [] || (!IsSpace(s[0]) && !IsSpace(s[|s| - 1]))
  }

  /** `s.lstrip()`: drop whitespace from the front, so that what is left
      does not start with whitespace. */
  function StripLeft(s: string): (r: string)
    ensures |r| <= |s|
    ensures r == [] || !IsSpace(r[0])
  {
    if s != [] && IsSpace(s[0]) then StripLeft(s[1..]) else s
  }

  /** What `lstrip()` leaves is the suffix that starts at the first
      non-space character, and everything it drops is whitespace. */
  lemma {:induction false} StripLeftSpec(s: string)
    ensures var r := StripLeft(s);
      && r == s[|s| - |r|..]
      && AllSpace(s[..|s| - |r|])
      && (r == [] || !IsSpace(r[0]))
    decreases |s|
  {
    if s != [] && IsSpace(s[0]) {
      StripLeftSpec(s[1..]);
      var r := StripLeft(s[1..]);
      assert s[..|s| - |r|] == [s[0]] + s[1..][..|s| - 1 - |r|];
      AllSpaceConcat([s[0]], s[1..][..|s| - 1 - |r|]);
    }
  }

  /** `s.rstrip()`: drop whitespace from the back, so that what is left
      does not end with whitespace. */
  function StripRight(s: string): (r: string)
    ensures |r| <= |s|
    ensures r == [] || !IsSpace(r[|r| - 1])
  {
    if s != [] && IsSpace(s[|s| - 1]) then StripRight(s[..|s| - 1]) else s
  }

  /** What `rstrip()` leaves is the prefix that ends at the last non-space
      character, and everything it drops is whitespace. */
  lemma {:induction false} StripRightSpec(s: string)
    ensures var r := StripRight(s);
      && r == s[..|r|]
      && AllSpace(s[|r|..])
      && (r == [] || !IsSpace(r[|r| - 1]))
    decreases |s|
  {
    if s != [] && IsSpace(s[|s| - 1]) {
      StripRightSpec(s[..|s| - 1]);
      var r := StripRight(s[..|s| - 1]);
      assert s[|r|..] == s[..|s| - 1][|r|..] + [s[|s| - 1]];
      AllSpaceConcat(s[..|s| - 1][|r|..], [s[|s| - 1]]);
    }
  }

  /** `s.strip()`: never longer than `s`, and no whitespace at either end. */
  function Strip(s: string): (r: string)
    ensures |r| <= |s|
    ensures Trimmed(r)
  {
    var left := StripLeft(s);
    StripRightSpec(left);
    StripRight(left)
  }

  /** What `strip()` leaves has no whitespace at either end, and it is empty
      exactly when the input was blank (empty or all whitespace). */
  lemma StripSpec(s: string)
    ensures Trimmed(Strip(s))
    ensures Strip(s) == [] <==> AllSpace(s)
  {
    var left := StripLeft(s);
    var r := StripRight(left);
    StripLeftSpec(s);
    StripRightSpec(left);
    var n := |s| - |left|;
    assert s == s[..n] + left;
    if r != [] {
      assert r[0] == left[0];
    }
    if r == [] {
      assert left[|r|..] == left;
      AllSpaceConcat(s[..n], left);
    } else {
      assert s[n] == left[0];
    }
  }

  lemma AllSpaceConcat(a: string, b: string)
    requires AllSpace(a) && AllSpace(b)
    ensures AllSpace(a + b)
  {
    forall k | 0 <= k < |a + b| ensures IsSpace((a + b)[k]) {
      if k >= |a| {
        assert (a + b)[k] == b[k - |a|];
      }
    }
  }

  lemma {:induction false} StripLeftSkipsSpace(a: string, t: string)
    requires AllSpace(a)
    ensures StripLeft(a + t) == StripLeft(t)
    decreases |a|
  {
    if a != [] {
      assert (a + t)[0] == a[0];
      assert (a + t)[1..] == a[1..] + t;
      StripLeftSkipsSpace(a[1..], t);
    } else {
      assert a + t == t;
    }
  }

  lemma {:induction false} StripRightSkipsSpace(t: string, b: string)
    requires AllSpace(b)
    ensures StripRight(t + b) == StripRight(t)
    decreases |b|
  {
    if b != [] {
      assert (t + b)[|t + b| - 1] == b[|b| - 1];
      assert (t + b)[..|t + b| - 1] == t + b[..|b| - 1];
      StripRightSkipsSpace(t, b[..|b| - 1]);
    } else {
      assert t + b == t;
    }
  }

  /** `strip()` is characterised by its result: a string made of whitespace,
      then a trimmed core, then whitespace, strips to exactly that core. */
  lemma StripCharacterized(a: string, core: string, b: string)
    requires AllSpace(a) && AllSpace(b) && Trimmed(core)
    ensures Strip(a + core + b) == core
  {
    assert a + core + b == a + (core + b);
    StripLeftSkipsSpace(a, core + b);
    if core == [] {
      assert core + b == b;
      StripLeftSkipsSpace(b, []);
      assert b + [] == b;
    } else {
      assert StripLeft(core + b) == core + b;
    }
    StripRightSkipsSpace(core, b);
    assert StripRight(core) == core by {
      if core == [] {
      }
    }
  }

  /** Stripping twice is the same as stripping once. */
  lemma StripIdempotent(s: string)
    ensures Strip(Strip(s)) == Strip(s)
  {
    var r := Strip(s);
    StripSpec(s);
    assert r == [] + r + [];
    StripCharacterized([], r, []);
  }

  /** The total length of `parts`. */
  function Lengths(parts: seq<string>): nat {
    if parts == [] then 0 else |parts[0]| + Lengths(parts[1..])
  }

  /** `sep.join(parts)`: the parts with one separator between each adjacent
      pair, so one separator fewer than there are parts. */
  function Join(parts: seq<string>, sep: string): (r: string)
    ensures parts == [] ==> r == []
    ensures parts != [] ==> |r| + |sep| == Lengths(parts) + |parts| * |sep|
  {
    if |parts| == 0 then []
    else if |parts| == 1 then parts[0]
    else parts[0] + sep + Join(parts[1..], sep)
  }

  /** `s.split(sep)` for a non-empty separator: the pieces between the
      occurrences of `sep`, scanning left to right. */
  function Split(s: string, sep: string): (parts: seq<string>)
    requires sep != []
    ensures |parts| >= 1
    decreases |s|
  {
    if |sep| <= |s| && s[..|sep|] == sep then
      [[]] + Split(s[|sep|..], sep)
    else if s == [] then
      [[]]
    else
      var rest := Split(s[1..], sep);
      [[s[0]] + rest[0]] + rest[1..]
  }

  lemma {:induction false} SplitWithoutSeparator(x: string, sep: string)
    requires sep != [] && sep[0] !in x
    ensures Split(x, sep) == [x]
    decreases |x|
  {
    if x != [] {
      assert x[0] != sep[0];
      SplitWithoutSeparator(x[1..], sep);
      assert [x[0]] + x[1..] == x;
    }
  }

  lemma {:induction false} SplitAfterPiece(x: string, sep: string, t: string)
    requires sep != [] && sep[0] !in x
    ensures Split(x + sep + t, sep) == [x] + Split(t, sep)
    decreases |x|
  {
    var s := x + sep + t;
    if x == [] {
      assert s == sep + t;
      assert s[..|sep|] == sep;
      assert s[|sep|..] == t;
    } else {
      assert s[0] == x[0] != sep[0];
      assert s[1..] == x[1..] + sep + t;
      SplitAfterPiece(x[1..], sep, t);
      assert [x[0]] + x[1..] == x;
    }
  }

  /** Splitting a join recovers the parts, provided no part contains the
      separator's first character. */
  lemma {:induction false} SplitJoin(parts: seq<string>, sep: string)
    requires sep != [] && parts != []
    requires forall i | 0 <= i < |parts| :: sep[0] !in parts[i]
    ensures Split(Join(parts, sep), sep) == parts
    decreases |parts|
  {
    if |parts| == 1 {
      SplitWithoutSeparator(parts[0], sep);
    } else {
      SplitJoin(parts[1..], sep);
      SplitAfterPiece(parts[0], sep, Join(parts[1..], sep));
      assert [parts[0]] + parts[1..] == parts;
    }
  }

  /** Python's `s[:n]`: the first `n` elements, or all of them when there are fewer. */
  function Take<T>(s: seq<T>, n: nat): (r: seq<T>)
    ensures |r| == if n < |s| then n else |s|
    ensures forall i | 0 <= i < |r| :: r[i] == s[i]
  {
    if n < |s| then s[..n] else s
  }
}
