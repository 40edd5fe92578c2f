/** The Python string built-ins the core relies on: str.strip(), str.startswith(),
    str.endswith(), str.join() and str() of an int. */
module Text {

  /** Python's str.isspace(): the characters str.strip() with no argument removes. */
  predicate IsSpace(c: char) {
    || ('\t' <= c <= '\r')
    || ('\U{1C}' <= c <= '\U{1F}')
    || c == ' ' || c == '\U{85}' || c == '\U{A0}' || c == '\U{1680}'
    || ('\U{2000}' <= c <= '\U{200A}')
    || c == '\U{2028}' || c == '\U{2029}' || c == '\U{202F}' || c == '\U{205F}' || c == '\U{3000}'
  }

  predicate AllSpace(s: string) {
    forall i :: 0 <= i < |s| ==> IsSpace(s[i])
  }

  /** Neither the first nor the last character of s is whitespace. */
  predicate NoOuterSpace(s: string) {
    s == [] || (!IsSpace(s[0]) && !IsSpace(s[|s| - 1]))
  }

  /** s.lstrip() */
  function TrimStart(s: string): (r: string)
    ensures |r| <= |s|
  {
    if |s| > 0 && IsSpace(s[0]) then TrimStart(s[1..]) else s
  }

  /** lstrip() leaves the suffix of s that follows its leading whitespace. */
  lemma {:induction false} TrimStartShape(s: string)
    ensures var r := TrimStart(s);
      && r == s[|s| - |r|..]
      && AllSpace(s[..|s| - |r|])
      && (r == [] || !IsSpace(r[0]))
    decreases |s|
  {
    if |s| > 0 && IsSpace(s[0]) {
      var r := TrimStart(s[1..]);
      TrimStartShape(s[1..]);
      LeadingSpaceStep(s, |s| - 1 - |r|);
    } else {
      assert s[0..] == s;
    }
  }

  lemma LeadingSpaceStep(s: string, m: nat)
    requires m < |s| && IsSpace(s[0]) && AllSpace(s[1..][..m])
    ensures AllSpace(s[..m + 1]) && s[1..][m..] == s[m + 1..]
  {
    forall k | 0 < k < m + 1 ensures IsSpace(s[k]) {
      assert s[k] == s[1..][..m][k - 1];
    }
  }

  /** s.rstrip() */
  function TrimEnd(s: string): (r: string)
    ensures |r| <= |s|
  {
    if |s| > 0 && IsSpace(s[|s| - 1]) then TrimEnd(s[..|s| - 1]) else s
  }

  /** rstrip() leaves the prefix of s that precedes its trailing whitespace. */
  lemma {:induction false} TrimEndShape(s: string)
    ensures var r := TrimEnd(s);
      && r == s[..|r|]
      && AllSpace(s[|r|..])
      && (r == [] || !IsSpace(r[|r| - 1]))
    decreases |s|
  {
    if |s| > 0 && IsSpace(s[|s| - 1]) {
      var r := TrimEnd(s[..|s| - 1]);
      TrimEndShape(s[..|s| - 1]);
      TrailingSpaceStep(s, |r|);
    } else {
      assert s[..|s|] == s;
    }
  }

  lemma TrailingSpaceStep(s: string, m: nat)
    requires m < |s| && IsSpace(s[|s| - 1]) && AllSpace(s[..|s| - 1][m..])
    ensures AllSpace(s[m..]) && s[..|s| - 1][..m] == s[..m]
  {
    forall k | 0 <= k < |s| - 1 - m ensures IsSpace(s[m..][k]) {
      assert s[m..][k] == s[..|s| - 1][m..][k];
    }
  }

  /** r is what s.strip() gives: the slice s[i..j] such that everything before i and
      after j is whitespace and r itself neither starts nor ends with whitespace. */
  ghost predicate IsStripOf(r: string, s: string) {
    exists i, j :: 0 <= i <= j <= |s| && r == s[i..j] && AllSpace(s[..i]) && AllSpace(s[j..]) && NoOuterSpace(r)
  }

  /** s.strip() */
  function Strip(s: string): (r: string)
    ensures IsStripOf(r, s)
  {
    var t := TrimStart(s);
    var r := TrimEnd(t);
    var i := |s| - |t|;
    TrimStartShape(s);
    TrimEndShape(t);
    assert s[i..i + |r|] == r;
    assert s[i + |r|..] == t[|r|..];
    r
  }

  lemma SpaceBefore(s: string, i: nat)
    requires i <= |s| && AllSpace(s[..i])
    ensures forall k :: 0 <= k < i ==> IsSpace(s[k])
  {
    forall k | 0 <= k < i ensures IsSpace(s[k]) {
      assert s[..i][k] == s[k];
    }
  }

  lemma SpaceFrom(s: string, j: nat)
    requires j <= |s| && AllSpace(s[j..])
    ensures forall k :: j <= k < |s| ==> IsSpace(s[k])
  {
    forall k | j <= k < |s| ensures IsSpace(s[k]) {
      assert s[j..][k - j] == s[k];
    }
  }

  /** strip() gives the empty string exactly when the whole input is whitespace. */
  lemma StripEmptyIff(r: string, s: string)
    requires IsStripOf(r, s)
    ensures r == [] <==> AllSpace(s)
  {
    var i, j :| 0 <= i <= j <= |s| && r == s[i..j] && AllSpace(s[..i]) && AllSpace(s[j..]) && NoOuterSpace(r);
    SpaceBefore(s, i);
    SpaceFrom(s, j);
    if r != [] {
      assert s[i] == r[0];
    }
  }

  /** The first non-space character of s has a single position. */
  lemma FirstNonSpaceUnique(s: string, i1: nat, i2: nat)
    requires i1 < |s| && AllSpace(s[..i1]) && !IsSpace(s[i1])
    requires i2 < |s| && AllSpace(s[..i2]) && !IsSpace(s[i2])
    ensures i1 == i2
  {
    SpaceBefore(s, i1);
    SpaceBefore(s, i2);
  }

  /** So has the last one. */
  lemma LastNonSpaceUnique(s: string, j1: nat, j2: nat)
    requires 0 < j1 <= |s| && AllSpace(s[j1..]) && !IsSpace(s[j1 - 1])
    requires 0 < j2 <= |s| && AllSpace(s[j2..]) && !IsSpace(s[j2 - 1])
    ensures j1 == j2
  {
    SpaceFrom(s, j1);
    SpaceFrom(s, j2);
  }

  /** The bounds of a non-empty strip of s are fixed by s. */
  lemma StripBounds(r: string, s: string) returns (i: nat, j: nat)
    requires IsStripOf(r, s) && r != []
    ensures i < j <= |s| && r == s[i..j]
    ensures AllSpace(s[..i]) && !IsSpace(s[i]) && AllSpace(s[j..]) && !IsSpace(s[j - 1])
  {
    i, j :| 0 <= i <= j <= |s| && r == s[i..j] && AllSpace(s[..i]) && AllSpace(s[j..]) && NoOuterSpace(r);
    assert s[i] == r[0] && s[j - 1] == r[|r| - 1];
  }

  /** The characterisation behind Strip is unique, so any slice meeting it is Python's strip(). */
  lemma StripUnique(r1: string, r2: string, s: string)
    requires IsStripOf(r1, s) && IsStripOf(r2, s)
    ensures r1 == r2
  {
    StripEmptyIff(r1, s);
    StripEmptyIff(r2, s);
    if r1 != [] && r2 != [] {
      var i1, j1 := StripBounds(r1, s);
      var i2, j2 := StripBounds(r2, s);
      FirstNonSpaceUnique(s, i1, i2);
      LastNonSpaceUnique(s, j1, j2);
    }
  }

  /** strip() leaves a string without outer whitespace untouched. */
  lemma StripNoOuterSpace(s: string)
    requires NoOuterSpace(s)
    ensures Strip(s) == s
  {
    assert IsStripOf(s, s) by {
      assert s == s[0..|s|] && s[..0] == [] && s[|s|..] == [];
    }
    StripUnique(Strip(s), s, s);
  }

  lemma TrimStartIdempotent(s: string)
    ensures TrimStart(TrimStart(s)) == TrimStart(s)
  {
  }

  /** Leading whitespace is only removed from the first operand when the second one starts
      with a non-space character. */
  lemma {:induction false} TrimStartConcat(a: string, b: string)
    requires b != [] && !IsSpace(b[0])
    ensures TrimStart(a + b) == TrimStart(a) + b
  {
    if a == [] {
      assert a + b == b;
    } else if IsSpace(a[0]) {
      assert (a + b)[1..] == a[1..] + b;
      TrimStartConcat(a[1..], b);
    }
  }

  /** Trailing whitespace is only removed from the second operand when the first one ends
      with a non-space character. */
  lemma {:induction false} TrimEndConcat(a: string, b: string)
    requires a != [] && !IsSpace(a[|a| - 1])
    ensures TrimEnd(a + b) == a + TrimEnd(b)
    decreases |b|
  {
    if b == [] {
      assert a + b == a;
    } else if IsSpace(b[|b| - 1]) {
      assert (a + b)[..|a + b| - 1] == a + b[..|b| - 1];
      TrimEndConcat(a, b[..|b| - 1]);
    }
  }

  /** strip() ignores leading whitespace already removed by lstrip(). */
  lemma StripAfterTrimStart(s: string)
    ensures Strip(TrimStart(s)) == Strip(s)
  {
    TrimStartIdempotent(s);
  }

  /** In s == a + b, a is the prefix before |a| and b the rest. */
  lemma PieceAt(a: string, b: string, s: string)
    requires s == a + b
    ensures |s| == |a| + |b| && s[..|a|] == a && s[|a|..] == b
  {
  }

  /** s.startswith(p) */
  predicate StartsWith(s: string, p: string) {
    |p| <= |s| && s[..|p|] == p
  }

  /** s.endswith(p) */
  predicate EndsWith(s: string, p: string) {
    |p| <= |s| && s[|s| - |p|..] == p
  }

  /** sep.join(parts) */
  function Join(sep: string, parts: seq<string>): string
    decreases |parts|
  {
    if |parts| == 0 then ""
    else if |parts| == 1 then parts[0]
    else parts[0] + sep + Join(sep, parts[1..])
  }

  /** Where parts[k] begins in sep.join(parts). */
  function Offset(sep: string, parts: seq<string>, k: nat): nat
    requires k < |parts|
  {
    if k == 0 then 0 else |parts[0]| + |sep| + Offset(sep, parts[1..], k - 1)
  }

  lemma SliceOfConcat(a: string, b: string, x: nat, y: nat)
    requires x <= y <= |b|
    ensures (a + b)[|a| + x..|a| + y] == b[x..y]
  {
  }

  /** sep.join(parts) is the first part, then sep, then the join of the others. */
  lemma JoinFirst(sep: string, parts: seq<string>)
    requires |parts| > 1
    ensures Join(sep, parts) == parts[0] + sep + Join(sep, parts[1..])
    ensures Offset(sep, parts, 1) == |parts[0] + sep|
  {
  }

  /** sep.join(parts) holds every part verbatim at its offset, in list order. */
  lemma {:induction false} JoinPartAt(sep: string, parts: seq<string>, k: nat)
    requires k < |parts|
    ensures var o, n := Offset(sep, parts, k), |parts[k]|;
      o + n <= |Join(sep, parts)| && Join(sep, parts)[o..o + n] == parts[k]
    decreases k
  {
    if |parts| > 1 {
      JoinFirst(sep, parts);
      var head := parts[0] + sep;
      var rest := Join(sep, parts[1..]);
      if k == 0 {
        SliceOfConcat([], parts[0], 0, |parts[0]|);
        assert (head + rest)[..|parts[0]|] == parts[0];
      } else {
        JoinPartAt(sep, parts[1..], k - 1);
        assert parts[1..][k - 1] == parts[k];
        var o := Offset(sep, parts[1..], k - 1);
        SliceOfConcat(head, rest, o, o + |parts[k]|);
      }
    }
  }

  /** Each part but the last is followed by exactly one sep. */
  lemma {:induction false} JoinSepAfter(sep: string, parts: seq<string>, k: nat)
    requires k + 1 < |parts|
    ensures var o, n := Offset(sep, parts, k), |parts[k]|;
      o + n + |sep| <= |Join(sep, parts)| && Join(sep, parts)[o + n..o + n + |sep|] == sep
    decreases k
  {
    JoinFirst(sep, parts);
    var head := parts[0] + sep;
    var rest := Join(sep, parts[1..]);
    if k == 0 {
      SliceOfConcat(parts[0], sep, 0, |sep|);
      assert (head + rest)[|parts[0]|..|head|] == head[|parts[0]|..];
    } else {
      JoinSepAfter(sep, parts[1..], k - 1);
      assert parts[1..][k - 1] == parts[k];
      var o := Offset(sep, parts[1..], k - 1) + |parts[k]|;
      SliceOfConcat(head, rest, o, o + |sep|);
    }
  }

  /** Nothing follows the last part. */
  lemma {:induction false} JoinEndsWithLast(sep: string, parts: seq<string>)
    requires |parts| > 0
    ensures Offset(sep, parts, |parts| - 1) + |parts[|parts| - 1]| == |Join(sep, parts)|
    decreases |parts|
  {
    if |parts| > 1 {
      JoinFirst(sep, parts);
      JoinEndsWithLast(sep, parts[1..]);
      assert parts[1..][|parts| - 2] == parts[|parts| - 1];
    }
  }

  /** The decimal digit for d. */
  function Digit(d: nat): (c: char)
    requires d < 10
    ensures '0' <= c <= '9' && (c as int) - ('0' as int) == d
  {
    ('0' as int + d) as char
  }

  predicate IsDigits(s: string) {
    forall i :: 0 <= i < |s| ==> '0' <= s[i] <= '9'
  }

  /** str(n) for a natural number: decimal digits without leading zeros. */
  function NatToString(n: nat): (r: string)
    ensures |r| >= 1 && IsDigits(r)
    ensures |r| > 1 ==> r[0] != '0'
  {
    if n < 10 then [Digit(n)] else NatToString(n / 10) + [Digit(n % 10)]
  }

  /** str(v) for a Python int: a minus sign for negative values, then the digits. */
  function IntToString(v: int): string {
    if v < 0 then "-" + NatToString(-v) else NatToString(v)
  }

  /** The value a string of decimal digits denotes. */
  function DigitsValue(s: string): nat
    requires IsDigits(s)
  {
    if |s| == 0 then 0 else 10 * DigitsValue(s[..|s| - 1]) + ((s[|s| - 1] as int) - ('0' as int))
  }

  /** int(s) for a string produced by str(). */
  function StringToInt(s: string): int
    requires |s| >= 1
    requires IsDigits(s) || (s[0] == '-' && IsDigits(s[1..]))
  {
    if s[0] == '-' then -(DigitsValue(s[1..]) as int) else DigitsValue(s)
  }

  lemma {:induction false} NatToStringRoundTrip(n: nat)
    ensures DigitsValue(NatToString(n)) == n
  {
    if n >= 10 {
      NatToStringRoundTrip(n / 10);
      var r := NatToString(n);
      assert r[..|r| - 1] == NatToString(n / 10);
    }
  }

  /** str() of an int can be read back: the rendered text determines the value. */
  lemma IntToStringRoundTrip(v: int)
    ensures |IntToString(v)| >= 1
    ensures IsDigits(IntToString(v)) || (IntToString(v)[0] == '-' && IsDigits(IntToString(v)[1..]))
    ensures StringToInt(IntToString(v)) == v
  {
    if v < 0 {
      NatToStringRoundTrip(-v);
      assert IntToString(v)[1..] == NatToString(-v);
    } else {
      NatToStringRoundTrip(v);
    }
  }
}
