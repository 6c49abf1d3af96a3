/**
 * The Python string operations the Checkvist wrapper relies on: `in`,
 * `str.strip()`, `str.replace(c, d)` and `str.replace(c, '')` for single
 * characters, and the `'/'`-joining of URL segments with its inverse,
 * `str.split`.
 */
module PyStr {

  /** Whitespace as `str.strip()` sees it on a byte string: space, \t, \n, \v, \f, \r. */
  predicate IsSpace(c: char) {
    c == ' ' || '\t' <= c <= '\r'
  }

  predicate AllSpace(s: string) {
    forall k :: 0 <= k < |s| ==> IsSpace(s[k])
  }

  /** Neither the first nor the last character is whitespace. */
  predicate NoEdgeSpace(s: string) {
    |s| == 0 || (!IsSpace(s[0]) && !IsSpace(s[|s| - 1]))
  }

  /** `s.lstrip()`: drops the leading run of whitespace and nothing else. */
  function LStrip(s: string): (r: string)
    ensures |r| <= |s|
    ensures r == [] || !IsSpace(r[0])
  {
    if |s| > 0 && IsSpace(s[0]) then LStrip(s[1..]) else s
  }

  /** What `lstrip` drops is whitespace, and what it keeps is a suffix of `s`. */
  lemma {:induction false} LStripSlice(s: string)
    ensures LStrip(s) == s[|s| - |LStrip(s)|..]
    ensures AllSpace(s[..|s| - |LStrip(s)|])
    decreases |s|
  {
    if |s| > 0 && IsSpace(s[0]) {
      var r := LStrip(s[1..]);
      LStripSlice(s[1..]);
      assert s[1..][|s| - 1 - |r|..] == s[|s| - |r|..];
      assert s[1..][..|s| - 1 - |r|] == s[1..|s| - |r|];
    }
  }

  /** `s.rstrip()`: drops the trailing run of whitespace and nothing else. */
  function RStrip(s: string): (r: string)
    ensures |r| <= |s|
    ensures r == [] || !IsSpace(r[|r| - 1])
  {
    if |s| > 0 && IsSpace(s[|s| - 1]) then RStrip(s[..|s| - 1]) else s
  }

  /** What `rstrip` drops is whitespace, and what it keeps is a prefix of `s`. */
  lemma {:induction false} RStripSlice(s: string)
    ensures RStrip(s) == s[..|RStrip(s)|]
    ensures AllSpace(s[|RStrip(s)|..])
    decreases |s|
  {
    if |s| > 0 && IsSpace(s[|s| - 1]) {
      var r := RStrip(s[..|s| - 1]);
      RStripSlice(s[..|s| - 1]);
      assert s[..|s| - 1][..|r|] == s[..|r|];
      assert s[..|s| - 1][|r|..] + [s[|s| - 1]] == s[|r|..];
    }
  }

  /** `s.strip()`: the result has no whitespace at either end. */
  function Strip(s: string): (r: string)
    ensures |r| <= |s|
    ensures NoEdgeSpace(r)
  {
    var l := LStrip(s);
    RStripSlice(l);
    RStrip(l)
  }

  /** Stripping removes only whitespace, and only from the two ends. */
  lemma StripSlice(s: string) returns (i: nat)
    ensures i + |Strip(s)| <= |s| && Strip(s) == s[i..i + |Strip(s)|]
    ensures AllSpace(s[..i]) && AllSpace(s[i + |Strip(s)|..])
  {
    var l := LStrip(s);
    var r := RStrip(l);
    LStripSlice(s);
    RStripSlice(l);
    i := |s| - |l|;
    assert s[i..][..|r|] == s[i..i + |r|];
    assert s[i + |r|..] == l[|r|..];
  }

  /**
   * Every character of the strip comes from `s`, and every non-whitespace
   * character of `s` survives it.
   */
  lemma StripMembers(s: string)
    ensures forall c :: c in Strip(s) ==> c in s
    ensures forall c :: !IsSpace(c) && c in s ==> c in Strip(s)
  {
    var r := Strip(s);
    var i := StripSlice(s);
    forall c | c in r ensures c in s {
      var k :| 0 <= k < |r| && r[k] == c;
      assert s[i + k] == c;
    }
    assert forall k :: 0 <= k < i ==> s[k] == s[..i][k];
    assert forall k :: i + |r| <= k < |s| ==> s[k] == s[i + |r|..][k - i - |r|];
    forall c | !IsSpace(c) && c in s ensures c in r {
      var k :| 0 <= k < |s| && s[k] == c;
      assert r[k - i] == c;
    }
  }

  lemma {:induction false} LStripPrefix(a: string, b: string)
    requires AllSpace(a) && (b == [] || !IsSpace(b[0]))
    ensures LStrip(a + b) == b
    decreases |a|
  {
    if |a| > 0 {
      assert (a + b)[1..] == a[1..] + b;
      LStripPrefix(a[1..], b);
    } else {
      assert a + b == b;
    }
  }

  lemma {:induction false} RStripSuffix(b: string, c: string)
    requires AllSpace(c) && (b == [] || !IsSpace(b[|b| - 1]))
    ensures RStrip(b + c) == b
    decreases |c|
  {
    if |c| > 0 {
      assert (b + c)[..|b + c| - 1] == b + c[..|c| - 1];
      RStripSuffix(b, c[..|c| - 1]);
    } else {
      assert b + c == b;
    }
  }

  /**
   * `strip` is the one way to cut a string into whitespace, a core with no
   * whitespace at its ends, and whitespace: whatever such a split, `strip`
   * returns its core.
   */
  lemma StripUnique(a: string, b: string, c: string)
    requires AllSpace(a) && NoEdgeSpace(b) && AllSpace(c)
    ensures Strip(a + b + c) == b
  {
    if b == [] {
      assert a + b + c == a + c;
      LStripPrefix(a + c, []);
      assert a + c + [] == a + c;
      assert RStrip([]) == [];
    } else {
      assert a + b + c == a + (b + c);
      LStripPrefix(a, b + c);
      RStripSuffix(b, c);
    }
  }

  /** Stripping twice is stripping once. */
  lemma StripIdempotent(s: string)
    ensures Strip(Strip(s)) == Strip(s)
  {
    var r := Strip(s);
    assert [] + r + [] == r;
    StripUnique([], r, []);
  }

  /** A string with no whitespace at its ends is its own strip. */
  lemma StripClean(s: string)
    requires NoEdgeSpace(s)
    ensures Strip(s) == s
  {
    assert [] + s + [] == s;
    StripUnique([], s, []);
  }

  /** `s.replace(x, y)` for single characters: every `x` becomes `y`, nothing else moves. */
  function Replace(s: string, x: char, y: char): (r: string)
    ensures |r| == |s|
    ensures forall k :: 0 <= k < |s| ==> r[k] == (if s[k] == x then y else s[k])
  {
    if s == [] then [] else [if s[0] == x then y else s[0]] + Replace(s[1..], x, y)
  }

  /** Replacing a character that does not occur changes nothing. */
  lemma ReplaceAbsent(s: string, x: char, y: char)
    requires x !in s
    ensures Replace(s, x, y) == s
  {
  }

  /** Replacing `x` by `y` and then `y` by `x` restores a string that had no `y`. */
  lemma ReplaceBack(s: string, x: char, y: char)
    requires y !in s
    ensures Replace(Replace(s, x, y), y, x) == s
  {
    var r := Replace(Replace(s, x, y), y, x);
    forall k | 0 <= k < |s| ensures r[k] == s[k] {
      assert s[k] != y;
    }
  }

  /** `s.replace(x, '')`: every `x` is removed, everything else kept in order. */
  function Remove(s: string, x: char): (r: string)
    ensures |r| <= |s| && x !in r
  {
    if s == [] then []
    else if s[0] == x then Remove(s[1..], x)
    else [s[0]] + Remove(s[1..], x)
  }

  /** The characters left after removing `x` are exactly those of `s` other than `x`. */
  lemma {:induction false} RemoveMembers(s: string, x: char)
    ensures forall c :: c in Remove(s, x) <==> c in s && c != x
    decreases |s|
  {
    if s != [] {
      RemoveMembers(s[1..], x);
      assert forall c :: c in s <==> c == s[0] || c in s[1..];
    }
  }

  lemma {:induction false} RemoveAppend(s: string, t: string, x: char)
    ensures Remove(s + t, x) == Remove(s, x) + Remove(t, x)
    decreases |s|
  {
    if s == [] {
      assert s + t == t;
    } else {
      assert (s + t)[0] == s[0] && (s + t)[1..] == s[1..] + t;
      RemoveAppend(s[1..], t, x);
    }
  }

  lemma {:induction false} RemoveAbsent(s: string, x: char)
    requires x !in s
    ensures Remove(s, x) == s
    decreases |s|
  {
    if s != [] {
      assert s[0] != x;
      RemoveAbsent(s[1..], x);
      assert s == [s[0]] + s[1..];
    }
  }

  /** Removing `x` from text where it occurs only as two delimiters leaves the three pieces between them. */
  lemma RemoveDelimiters(a: string, b: string, c: string, x: char)
    requires x !in a && x !in b && x !in c
    ensures Remove(a + [x] + b + [x] + c, x) == a + b + c
  {
    var p1 := a + [x];
    var p2 := p1 + b;
    var p3 := p2 + [x];
    assert Remove([x], x) == [] by {
      assert [x][1..] == [];
    }
    RemoveAbsent(a, x);
    RemoveAbsent(b, x);
    RemoveAbsent(c, x);
    RemoveAppend(a, [x], x);
    assert Remove(p1, x) == a;
    RemoveAppend(p1, b, x);
    assert Remove(p2, x) == a + b;
    RemoveAppend(p2, [x], x);
    assert Remove(p3, x) == a + b;
    RemoveAppend(p3, c, x);
  }

  /** `sep.join(parts)`. */
  function Join(parts: seq<string>, sep: char): (r: string)
    ensures |parts| == 1 ==> r == parts[0]
  {
    if |parts| == 0 then ""
    else if |parts| == 1 then parts[0]
    else parts[0] + [sep] + Join(parts[1..], sep)
  }

  /** When no part holds the separator, the join holds one exactly when there are at least two parts. */
  lemma {:induction false} JoinSeparators(parts: seq<string>, sep: char)
    requires forall k :: 0 <= k < |parts| ==> sep !in parts[k]
    ensures sep in Join(parts, sep) <==> |parts| >= 2
    decreases |parts|
  {
    if |parts| >= 2 {
      var r := Join(parts, sep);
      assert r[|parts[0]|] == sep;
    }
  }

  /** `s.split(sep)`: the pieces between separators; never empty. */
  function Split(s: string, sep: char): (r: seq<string>)
    ensures |r| >= 1
    ensures forall k :: 0 <= k < |r| ==> sep !in r[k]
  {
    if s == [] then [""]
    else
      var rest := Split(s[1..], sep);
      if s[0] == sep then [""] + rest
      else
        var r := [[s[0]] + rest[0]] + rest[1..];
        assert forall k :: 1 <= k < |r| ==> r[k] == rest[k];
        r
  }

  lemma {:induction false} SplitNoSep(a: string, t: string, sep: char)
    requires sep !in a
    ensures Split(a + t, sep) == [a + Split(t, sep)[0]] + Split(t, sep)[1..]
    decreases |a|
  {
    if a == [] {
      assert a + t == t;
      assert a + Split(t, sep)[0] == Split(t, sep)[0];
      assert [Split(t, sep)[0]] + Split(t, sep)[1..] == Split(t, sep);
    } else {
      assert (a + t)[0] == a[0] && (a + t)[1..] == a[1..] + t;
      SplitNoSep(a[1..], t, sep);
      assert [a[0]] + (a[1..] + Split(t, sep)[0]) == a + Split(t, sep)[0];
    }
  }

  /** Splitting a join recovers the parts, provided no part holds the separator. */
  lemma {:induction false} SplitJoin(parts: seq<string>, sep: char)
    requires |parts| >= 1
    requires forall k :: 0 <= k < |parts| ==> sep !in parts[k]
    ensures Split(Join(parts, sep), sep) == parts
    decreases |parts|
  {
    if |parts| == 1 {
      SplitNoSep(parts[0], "", sep);
      assert parts[0] + "" == parts[0];
      assert parts == [parts[0]];
    } else {
      var tail := Join(parts[1..], sep);
      SplitJoin(parts[1..], sep);
      assert Join(parts, sep) == parts[0] + ([sep] + tail);
      SplitNoSep(parts[0], [sep] + tail, sep);
      assert ([sep] + tail)[1..] == tail;
      assert Split([sep] + tail, sep) == [""] + parts[1..];
      assert parts[0] + "" == parts[0];
      assert parts == [parts[0]] + parts[1..];
    }
  }
}
