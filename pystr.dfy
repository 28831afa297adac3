/** The few Python string built-ins the program relies on: str.strip, str.lower,
    str.join, string ordering (<) and sorted() over a set of strings. */
module PyStr {

  /** Python's str.isspace() for one character (the Unicode whitespace set). */
  predicate IsSpace(c: char) {
    || ('\t' <= c <= '\r')
    || ('\U{1C}' <= c <= ' ')
    || c == '\U{85}' || c == '\U{A0}' || c == '\U{1680}'
    || ('\U{2000}' <= c <= '\U{200A}')
    || c == '\U{2028}' || c == '\U{2029}' || c == '\U{202F}' || c == '\U{205F}' || c == '\U{3000}'
  }

  /** `x` occurs in `s` starting at index `k`. */
  predicate ContainsAt(s: string, x: string, k: int) {
    0 <= k && k + |x| <= |s| && s[k..k + |x|] == x
  }

  lemma ContainsAtShift(a: string, b: string, x: string, k: int)
    requires ContainsAt(b, x, k)
    ensures ContainsAt(a + b, x, |a| + k)
  {
    assert (a + b)[|a| + k..|a| + k + |x|] == b[k..k + |x|];
  }

  lemma ContainsAtPrefix(a: string, b: string, x: string, k: int)
    requires ContainsAt(a, x, k)
    ensures ContainsAt(a + b, x, k)
  {
    assert (a + b)[k..k + |x|] == a[k..k + |x|];
  }

  // ---------------------------------------------------------------- strip

  /** Drops leading whitespace: the result is the longest suffix that starts with a non-space. */
  function TrimStart(s: string): (r: string)
    ensures |r| <= |s| && r == s[|s| - |r|..]
    ensures forall i :: 0 <= i < |s| - |r| ==> IsSpace(s[i])
    ensures r == [] || !IsSpace(r[0])
  {
    if |s| > 0 && IsSpace(s[0]) then TrimStart(s[1..]) else s
  }

  /** Drops trailing whitespace: the result is the longest prefix that ends with a non-space. */
  function TrimEnd(s: string): (r: string)
    ensures |r| <= |s| && r == s[..|r|]
    ensures forall i :: |r| <= i < |s| ==> IsSpace(s[i])
    ensures r == [] || !IsSpace(r[|r| - 1])
  {
    if |s| > 0 && IsSpace(s[|s| - 1]) then TrimEnd(s[..|s| - 1]) else s
  }

  /** `r` is `s` with whitespace-only runs removed from both ends, `r` starting at index `k` of `s`. */
  predicate StrippedAt(s: string, r: string, k: int) {
    && ContainsAt(s, r, k)
    && (forall i :: 0 <= i < k ==> IsSpace(s[i]))
    && (forall i :: k + |r| <= i < |s| ==> IsSpace(s[i]))
  }

  /** Python's str.strip() with no argument. */
  function Strip(s: string): string {
    TrimEnd(TrimStart(s))
  }

  /** What strip() leaves: no whitespace at either end, only whitespace cut away on either
      side, and nothing at all exactly when the string is whitespace only. */
  lemma StripMeaning(s: string)
    ensures Strip(s) == [] || (!IsSpace(Strip(s)[0]) && !IsSpace(Strip(s)[|Strip(s)| - 1]))
    ensures exists k :: StrippedAt(s, Strip(s), k)
    ensures Strip(s) == [] <==> forall i :: 0 <= i < |s| ==> IsSpace(s[i])
  {
    var t := TrimStart(s);
    var r := TrimEnd(t);
    var k := |s| - |t|;
    assert r != [] ==> r[0] == t[0];
    assert t != [] ==> t[0] == s[k];
    assert s[k..k + |r|] == r by {
      assert s[k..k + |r|] == t[..|r|];
    }
    forall i | k + |r| <= i < |s|
      ensures IsSpace(s[i])
    {
      assert s[i] == t[i - k];
    }
    assert StrippedAt(s, r, k);
  }

  lemma {:induction false} StripIdempotent(s: string)
    ensures Strip(Strip(s)) == Strip(s)
  {
    var r := Strip(s);
    assert TrimStart(r) == r;
    assert TrimEnd(r) == r;
  }

  /** A string with no whitespace at either end is its own strip. */
  lemma StripUnchanged(s: string)
    requires s == [] || (!IsSpace(s[0]) && !IsSpace(s[|s| - 1]))
    ensures Strip(s) == s
  {
  }

  /** Whitespace around a string with no whitespace at either end is exactly what strip() removes. */
  lemma StripPadded(before: string, s: string, after: string)
    requires forall i :: 0 <= i < |before| ==> IsSpace(before[i])
    requires forall i :: 0 <= i < |after| ==> IsSpace(after[i])
    requires s == [] || (!IsSpace(s[0]) && !IsSpace(s[|s| - 1]))
    ensures Strip(before + s + after) == s
  {
    assert before + s + after == before + (s + after);
    if s == [] {
      assert s + after == after;
      TrimStartPadded(before + after, []);
      assert before + after + [] == before + after;
    } else {
      TrimStartPadded(before, s + after);
      TrimEndPadded(s, after);
    }
  }

  lemma TrimStartPadded(before: string, rest: string)
    requires forall i :: 0 <= i < |before| ==> IsSpace(before[i])
    requires rest == [] || !IsSpace(rest[0])
    ensures TrimStart(before + rest) == rest
  {
    var t := before + rest;
    var u := TrimStart(t);
    assert forall i :: 0 <= i < |before| ==> t[i] == before[i];
    assert rest != [] ==> t[|before|] == rest[0];
    assert t[|before|..] == rest;
  }

  lemma TrimEndPadded(rest: string, after: string)
    requires forall i :: 0 <= i < |after| ==> IsSpace(after[i])
    requires rest == [] || !IsSpace(rest[|rest| - 1])
    ensures TrimEnd(rest + after) == rest
  {
    var t := rest + after;
    var u := TrimEnd(t);
    assert forall i :: |rest| <= i < |t| ==> t[i] == after[i - |rest|];
    assert rest != [] ==> t[|rest| - 1] == rest[|rest| - 1];
    assert t[..|rest|] == rest;
  }

  // ---------------------------------------------------------------- lower

  /** Python's str.lower() on one character, for the ASCII letters (see README). */
  function LowerChar(c: char): char {
    if 'A' <= c <= 'Z' then (c as int + 32) as char else c
  }

  function Lower(s: string): string {
    if s == [] then [] else [LowerChar(s[0])] + Lower(s[1..])
  }

  /** lower() maps each character on its own and keeps the length. */
  lemma {:induction false} LowerMeaning(s: string)
    ensures |Lower(s)| == |s|
    ensures forall i :: 0 <= i < |s| ==> Lower(s)[i] == LowerChar(s[i])
  {
    if s != [] {
      LowerMeaning(s[1..]);
      assert forall i :: 0 < i < |s| ==> Lower(s)[i] == Lower(s[1..])[i - 1];
    }
  }

  // ---------------------------------------------------------------- join

  function TotalLength(parts: seq<string>): nat {
    if parts == [] then 0 else |parts[0]| + TotalLength(parts[1..])
  }

  /** Python's sep.join(parts). */
  function Join(parts: seq<string>, sep: string): string {
    if |parts| == 0 then ""
    else if |parts| == 1 then parts[0]
    else parts[0] + sep + Join(parts[1..], sep)
  }

  /** Where the i-th part starts in Join(parts, sep). */
  function JoinOffset(parts: seq<string>, sep: string, i: nat): nat
    requires i <= |parts|
  {
    TotalLength(parts[..i]) + i * |sep|
  }

  lemma {:induction false} JoinLength(parts: seq<string>, sep: string)
    requires |parts| > 0
    ensures |Join(parts, sep)| == TotalLength(parts) + (|parts| - 1) * |sep|
  {
    if |parts| > 1 {
      JoinLength(parts[1..], sep);
    }
  }

  /** Every part stands at its offset, and consecutive parts have exactly one separator between them. */
  lemma {:induction false} JoinLayout(parts: seq<string>, sep: string, i: nat)
    requires i < |parts|
    ensures ContainsAt(Join(parts, sep), parts[i], JoinOffset(parts, sep, i))
    ensures i + 1 < |parts| ==> ContainsAt(Join(parts, sep), sep, JoinOffset(parts, sep, i) + |parts[i]|)
    ensures i + 1 < |parts| ==> JoinOffset(parts, sep, i + 1) == JoinOffset(parts, sep, i) + |parts[i]| + |sep|
  {
    if i == 0 {
      JoinLayoutHead(parts, sep);
    } else {
      var j := Join(parts, sep);
      var tail := parts[1..];
      JoinLayout(tail, sep, i - 1);
      assert j == (parts[0] + sep) + Join(tail, sep);
      ContainsAtShift(parts[0] + sep, Join(tail, sep), parts[i], JoinOffset(tail, sep, i - 1));
      OffsetStep(parts, sep, i);
      if i + 1 < |parts| {
        ContainsAtShift(parts[0] + sep, Join(tail, sep), sep, JoinOffset(tail, sep, i - 1) + |tail[i - 1]|);
        OffsetStep(parts, sep, i + 1);
      }
    }
  }

  /** The first part opens the joined string, and the separator follows it. */
  lemma JoinLayoutHead(parts: seq<string>, sep: string)
    requires |parts| > 0
    ensures JoinOffset(parts, sep, 0) == 0
    ensures ContainsAt(Join(parts, sep), parts[0], 0)
    ensures |parts| > 1 ==> ContainsAt(Join(parts, sep), sep, |parts[0]|)
    ensures |parts| > 1 ==> JoinOffset(parts, sep, 1) == |parts[0]| + |sep|
  {
    assert parts[..0] == [];
    assert parts[..1] == [parts[0]];
    assert [parts[0]][1..] == [];
    if |parts| > 1 {
      var j := Join(parts, sep);
      assert j == parts[0] + (sep + Join(parts[1..], sep));
      ContainsAtPrefix(parts[0], sep + Join(parts[1..], sep), parts[0], 0);
      assert j == (parts[0] + sep) + Join(parts[1..], sep);
      ContainsAtShift(parts[0], sep, sep, 0);
      ContainsAtPrefix(parts[0] + sep, Join(parts[1..], sep), sep, |parts[0]|);
    }
  }

  lemma OffsetStep(parts: seq<string>, sep: string, i: nat)
    requires 0 < i <= |parts|
    ensures JoinOffset(parts, sep, i) == |parts[0]| + |sep| + JoinOffset(parts[1..], sep, i - 1)
  {
    assert parts[..i][1..] == parts[1..][..i - 1];
    assert i * |sep| == |sep| + (i - 1) * |sep|;
  }

  // ---------------------------------------------------------------- ordering and sorted()

  /** Python's a < b on str: lexicographic by code point, a proper prefix being smaller. */
  predicate Less(a: string, b: string) {
    if |a| == 0 then |b| > 0
    else if |b| == 0 then false
    else if a[0] != b[0] then a[0] < b[0]
    else Less(a[1..], b[1..])
  }

  lemma {:induction false} LessIrreflexive(a: string)
    ensures !Less(a, a)
  {
    if |a| > 0 {
      LessIrreflexive(a[1..]);
    }
  }

  lemma {:induction false} LessAsymmetric(a: string, b: string)
    ensures Less(a, b) ==> !Less(b, a)
  {
    if |a| > 0 && |b| > 0 && a[0] == b[0] {
      LessAsymmetric(a[1..], b[1..]);
    }
  }

  lemma {:induction false} LessTransitive(a: string, b: string, c: string)
    requires Less(a, b) && Less(b, c)
    ensures Less(a, c)
  {
    if |a| > 0 && a[0] == b[0] && b[0] == c[0] {
      LessTransitive(a[1..], b[1..], c[1..]);
    }
  }

  lemma {:induction false} LessTotal(a: string, b: string)
    requires a != b
    ensures Less(a, b) || Less(b, a)
  {
    if |a| > 0 && |b| > 0 && a[0] == b[0] {
      assert a == [a[0]] + a[1..] && b == [b[0]] + b[1..];
      LessTotal(a[1..], b[1..]);
    }
  }

  /** `m` is below every other element of `s`. */
  predicate IsLeast(m: string, s: set<string>) {
    forall x :: x in s && x != m ==> Less(m, x)
  }

  lemma {:induction false} LeastExists(s: set<string>)
    requires s != {}
    ensures exists m :: m in s && IsLeast(m, s)
    decreases s
  {
    var y :| y in s;
    var rest := s - {y};
    if rest == {} {
      assert s == {y};
      assert y in s && IsLeast(y, s);
    } else {
      LeastExists(rest);
      var m :| m in rest && IsLeast(m, rest);
      if Less(y, m) {
        forall x | x in s && x != y ensures Less(y, x) {
          if x != m {
            LessTransitive(y, m, x);
          }
        }
        assert y in s && IsLeast(y, s);
      } else {
        LessTotal(y, m);
        assert m in s && IsLeast(m, s);
      }
    }
  }

  lemma LeastUnique(s: set<string>)
    ensures forall m1, m2 :: m1 in s && IsLeast(m1, s) && m2 in s && IsLeast(m2, s) ==> m1 == m2
  {
    forall m1, m2 | m1 in s && IsLeast(m1, s) && m2 in s && IsLeast(m2, s) ensures m1 == m2 {
      if m1 != m2 {
        LessAsymmetric(m1, m2);
      }
    }
  }

  function Least(s: set<string>): (m: string)
    requires s != {}
    ensures m in s && IsLeast(m, s)
  {
    LeastExists(s);
    LeastUnique(s);
    var m :| m in s && IsLeast(m, s);
    m
  }

  predicate StrictlyIncreasing(r: seq<string>) {
    forall i, j :: 0 <= i < j < |r| ==> Less(r[i], r[j])
  }

  /** Python's sorted() of a set of strings: every element exactly once, in ascending order. */
  function Sorted(s: set<string>): (r: seq<string>)
    ensures |r| == |s|
    ensures forall x :: x in r <==> x in s
    ensures StrictlyIncreasing(r)
    ensures forall i, j :: 0 <= i < j < |r| ==> r[i] != r[j]
    decreases |s|
  {
    if s == {} then []
    else
      var m := Least(s);
      var rest := Sorted(s - {m});
      var r := [m] + rest;
      assert forall i, j :: 0 <= i < j < |r| ==> r[i] != r[j] by {
        forall i, j | 0 <= i < j < |r| ensures r[i] != r[j] {
          if i == 0 { assert r[j] in s - {m}; }
        }
      }
      r
  }
}
