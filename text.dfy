/**
 * The JavaScript string operations the application relies on, over Dafny
 * strings (sequences of Unicode scalar values): `trim`, `includes`,
 * `startsWith`, global replacement of a literal pattern by the empty string,
 * `split`/`join` on a separator, decimal rendering of integers and the
 * UTF-16 `length`.
 */
module Text {

  /** Concatenation regroups freely; stated once so that callers need not prove it element by element. */
  lemma AppendAssoc<T>(a: seq<T>, b: seq<T>, c: seq<T>)
    ensures a + b + c == a + (b + c)
  {
  }

  lemma EmptyAppend<T>(s: seq<T>)
    ensures [] + s == s && s + [] == s
  {
  }

  /** The characters `String.prototype.trim` removes: ECMAScript WhiteSpace and LineTerminator. */
  predicate IsSpace(c: char) {
    || c == ' ' || c == '\t' || c == '\n' || c == '\r'
    || c == '\U{000B}' || c == '\U{000C}' || c == '\U{00A0}' || c == '\U{FEFF}'
    || c == '\U{1680}' || ('\U{2000}' <= c <= '\U{200A}')
    || c == '\U{2028}' || c == '\U{2029}' || c == '\U{202F}' || c == '\U{205F}' || c == '\U{3000}'
  }

  predicate AllSpace(s: string) {
    forall i :: 0 <= i < |s| ==> IsSpace(s[i])
  }

  /** A string that `trim` leaves as it is: no white space at either end. */
  predicate Trimmed(s: string) {
    s == [] || (!IsSpace(s[0]) && !IsSpace(s[|s| - 1]))
  }

  /** The number of white-space characters `s` starts with. */
  function LeadingSpaces(s: string): (n: nat)
    ensures n <= |s|
    ensures forall i :: 0 <= i < n ==> IsSpace(s[i])
    ensures n < |s| ==> !IsSpace(s[n])
  {
    if s != [] && IsSpace(s[0]) then 1 + LeadingSpaces(s[1..]) else 0
  }

  function TrimStart(s: string): (r: string)
    ensures |r| <= |s| && r == s[|s| - |r|..]
    ensures AllSpace(s[..|s| - |r|])
    ensures r == [] || !IsSpace(r[0])
  {
    s[LeadingSpaces(s)..]
  }

  function TrimEnd(s: string): (r: string)
    ensures |r| <= |s| && r == s[..|r|]
    ensures AllSpace(s[|r|..])
    ensures r == [] || !IsSpace(r[|r| - 1])
  {
    if s != [] && IsSpace(s[|s| - 1]) then TrimEnd(s[..|s| - 1]) else s
  }

  /** `s.trim()`: white space cut from both ends. */
  function Trim(s: string): (r: string)
    ensures |r| <= |s| && Trimmed(r)
  {
    TrimEnd(TrimStart(s))
  }

  /** The result of `trim` is a middle part of its input, with only white space cut from each end. */
  lemma TrimIsMiddle(s: string)
    ensures exists i, j :: 0 <= i <= j <= |s| && Trim(s) == s[i..j] && AllSpace(s[..i]) && AllSpace(s[j..])
  {
    var t := TrimStart(s);
    var r := TrimEnd(t);
    var i := |s| - |t|;
    assert r == s[i..i + |r|];
    assert AllSpace(s[i + |r|..]) by {
      assert s[i + |r|..] == t[|r|..];
    }
  }

  /** `trim` leaves nothing exactly when the string is all white space. */
  lemma TrimEmpty(s: string)
    ensures Trim(s) == [] <==> AllSpace(s)
  {
    var t := TrimStart(s);
    var m := |s| - |t|;
    assert t != [] ==> t[0] == s[m];
    if Trim(s) == [] {
      assert AllSpace(t[0..]);
      assert s[..m] == s;
    }
  }

  /** `trim` changes nothing on a string that is already trimmed. */
  lemma {:induction false} TrimOfTrimmed(s: string)
    requires Trimmed(s)
    ensures Trim(s) == s
  {
    if s != [] {
      TrimStartNonSpace(s);
    }
  }

  /** White space around a trimmed core is exactly what `trim` removes. */
  lemma {:induction false} TrimAround(a: string, m: string, b: string)
    requires AllSpace(a) && AllSpace(b) && Trimmed(m)
    ensures Trim(a + m + b) == m
  {
    assert a + m + b == a + (m + b);
    TrimStartOver(a, m + b);
    if m == [] {
      assert m + b == b;
      TrimStartAllSpace(b);
    } else {
      TrimStartNonSpace(m + b);
      TrimEndOver(m, b);
    }
  }

  lemma TrimStartNonSpace(s: string)
    requires s != [] && !IsSpace(s[0])
    ensures TrimStart(s) == s
  {
    assert LeadingSpaces(s) == 0;
  }

  lemma TrimStartOver(a: string, t: string)
    requires AllSpace(a)
    ensures TrimStart(a + t) == TrimStart(t)
  {
    LeadingSpacesOver(a, t);
    assert (a + t)[|a|..] == t;
  }

  lemma {:induction false} LeadingSpacesOver(a: string, t: string)
    requires AllSpace(a)
    ensures LeadingSpaces(a + t) == |a| + LeadingSpaces(t)
    decreases |a|
  {
    if a != [] {
      assert (a + t)[1..] == a[1..] + t;
      LeadingSpacesOver(a[1..], t);
    } else {
      assert a + t == t;
    }
  }

  lemma TrimStartAllSpace(b: string)
    requires AllSpace(b)
    ensures TrimStart(b) == []
  {
    assert LeadingSpaces(b) == |b|;
  }

  lemma {:induction false} TrimEndOver(m: string, b: string)
    requires AllSpace(b) && m != [] && !IsSpace(m[|m| - 1])
    ensures TrimEnd(m + b) == m
    decreases |b|
  {
    if b == [] {
      assert m + b == m;
    } else {
      assert (m + b)[..|m + b| - 1] == m + b[..|b| - 1];
      TrimEndOver(m, b[..|b| - 1]);
    }
  }

  /** The Markdown code fence. */
  const Fence: string := "```"

  /** `s.startsWith(p)`. */
  predicate StartsWith(s: string, p: string) {
    |p| <= |s| && forall i :: 0 <= i < |p| ==> s[i] == p[i]
  }

  /** `s.includes(p)`: `p` occurs somewhere in `s`. */
  predicate Contains(s: string, p: string)
    decreases |s|
  {
    StartsWith(s, p) || (s != [] && Contains(s[1..], p))
  }

  /** `p` occurs in `s` starting at index `k`. */
  predicate OccursAt(s: string, p: string, k: int) {
    0 <= k <= |s| - |p| && s[k..k + |p|] == p
  }

  /** The recursive `Contains` is the textbook "occurs at some index". */
  lemma {:induction false} ContainsAt(s: string, p: string)
    ensures Contains(s, p) <==> exists k :: OccursAt(s, p, k)
    decreases |s|
  {
    if StartsWith(s, p) {
      assert OccursAt(s, p, 0);
    } else if s != [] {
      ContainsAt(s[1..], p);
      if Contains(s[1..], p) {
        var k :| OccursAt(s[1..], p, k);
        assert s[k + 1..k + 1 + |p|] == s[1..][k..k + |p|];
        assert OccursAt(s, p, k + 1);
      }
      if k :| OccursAt(s, p, k) {
        assert k != 0;
        assert s[1..][k - 1..k - 1 + |p|] == s[k..k + |p|];
        assert OccursAt(s[1..], p, k - 1);
      }
    }
  }

  /** A string that contains `a + b` contains `b`. */
  lemma {:induction false} ContainsSuffix(s: string, a: string, b: string)
    requires Contains(s, a + b)
    ensures Contains(s, b)
  {
    ContainsAt(s, a + b);
    var k :| OccursAt(s, a + b, k);
    assert s[k + |a|..k + |a| + |b|] == s[k..k + |a + b|][|a|..];
    assert OccursAt(s, b, k + |a|);
    ContainsAt(s, b);
  }

  /** Case-insensitive comparison of ASCII letters, as a non-Unicode `/i` regular expression does it. */
  function FoldAscii(c: char): char {
    if 'A' <= c <= 'Z' then (c as int + 32) as char else c
  }

  predicate StartsWithFolded(s: string, p: string) {
    |p| <= |s| && forall i :: 0 <= i < |p| ==> FoldAscii(s[i]) == FoldAscii(p[i])
  }

  /** Does pattern `p` match at the start of `s`, exactly or with ASCII letters folded? */
  predicate MatchesAt(s: string, p: string, ignoreCase: bool) {
    if ignoreCase then StartsWithFolded(s, p) else StartsWith(s, p)
  }

  /**
   * `s.replace(/p/g, '')` (with flag `i` when `ignoreCase`) for a pattern
   * without metacharacters: matches are taken left to right, without overlap,
   * and removed.
   */
  function RemoveAll(s: string, p: string, ignoreCase: bool): (r: string)
    requires p != []
    ensures |r| <= |s|
    decreases |s|
  {
    if s == [] then []
    else if MatchesAt(s, p, ignoreCase) then RemoveAll(s[|p|..], p, ignoreCase)
    else [s[0]] + RemoveAll(s[1..], p, ignoreCase)
  }

  /** Removing a pattern that starts with a character absent from `s` changes nothing. */
  lemma {:induction false} RemoveAllAbsent(s: string, p: string, ignoreCase: bool)
    requires p != [] && FoldAscii(p[0]) == p[0]
    requires forall i :: 0 <= i < |s| ==> FoldAscii(s[i]) != p[0]
    ensures RemoveAll(s, p, ignoreCase) == s
    decreases |s|
  {
    if s != [] {
      assert !MatchesAt(s, p, ignoreCase) by {
        if ignoreCase { assert FoldAscii(s[0]) != FoldAscii(p[0]); }
        else { assert s[0] != p[0]; }
      }
      RemoveAllAbsent(s[1..], p, ignoreCase);
      assert s == [s[0]] + s[1..];
    }
  }

  /** A match at the start is removed and removal goes on after it. */
  lemma RemoveAllAtStart(p: string, t: string, ignoreCase: bool)
    requires p != []
    ensures RemoveAll(p + t, p, ignoreCase) == RemoveAll(t, p, ignoreCase)
  {
    assert MatchesAt(p + t, p, ignoreCase);
    assert (p + t)[|p|..] == t;
  }

  /** Where no match starts, the first character is kept. */
  lemma RemoveAllKeep(c: char, t: string, p: string, ignoreCase: bool)
    requires p != [] && !MatchesAt([c] + t, p, ignoreCase)
    ensures RemoveAll([c] + t, p, ignoreCase) == [c] + RemoveAll(t, p, ignoreCase)
  {
    assert ([c] + t)[1..] == t;
  }

  /** A string shorter than the pattern holds no match. */
  lemma {:induction false} RemoveAllShort(s: string, p: string, ignoreCase: bool)
    requires p != [] && |s| < |p|
    ensures RemoveAll(s, p, ignoreCase) == s
    decreases |s|
  {
    if s != [] {
      RemoveAllShort(s[1..], p, ignoreCase);
      assert s == [s[0]] + s[1..];
    }
  }

  /** A prefix in which no match can start passes through the removal unchanged. */
  lemma {:induction false} RemoveAllPrefix(a: string, t: string, p: string, ignoreCase: bool)
    requires p != [] && FoldAscii(p[0]) == p[0]
    requires forall i :: 0 <= i < |a| ==> FoldAscii(a[i]) != p[0]
    ensures RemoveAll(a + t, p, ignoreCase) == a + RemoveAll(t, p, ignoreCase)
    decreases |a|
  {
    if a == [] {
      assert a + t == t;
    } else {
      var s := a + t;
      assert !MatchesAt(s, p, ignoreCase) by {
        if ignoreCase { assert FoldAscii(s[0]) != FoldAscii(p[0]); }
        else { assert s[0] != p[0]; }
      }
      assert s[1..] == a[1..] + t;
      RemoveAllPrefix(a[1..], t, p, ignoreCase);
      assert a == [a[0]] + a[1..];
    }
  }

  /** `parts.join(sep)`. */
  function Join(parts: seq<string>, sep: string): string {
    if parts == [] then ""
    else if |parts| == 1 then parts[0]
    else parts[0] + sep + Join(parts[1..], sep)
  }

  /** `s.split(sep)` for a one-character separator: every field, empty ones included. */
  function Split(s: string, sep: char): (parts: seq<string>)
    ensures |parts| >= 1
    ensures forall k :: 0 <= k < |parts| ==> sep !in parts[k]
    decreases |s|
  {
    if s == [] then [""]
    else
      var rest := Split(s[1..], sep);
      if s[0] == sep then [""] + rest
      else [[s[0]] + rest[0]] + rest[1..]
  }

  /** Joining the fields of a split with the separator gives back the original string. */
  lemma {:induction false} JoinSplit(s: string, sep: char)
    ensures Join(Split(s, sep), [sep]) == s
    decreases |s|
  {
    if s != [] {
      var rest := Split(s[1..], sep);
      JoinSplit(s[1..], sep);
      if s[0] == sep {
        assert Join([""] + rest, [sep]) == "" + [sep] + Join(rest, [sep]);
      } else {
        JoinConsChar(s[0], rest, [sep]);
      }
      assert s == [s[0]] + s[1..];
    }
  }

  lemma JoinConsChar(c: char, parts: seq<string>, sep: string)
    requires parts != []
    ensures Join([[c] + parts[0]] + parts[1..], sep) == [c] + Join(parts, sep)
  {
    var q := [[c] + parts[0]] + parts[1..];
    assert q[1..] == parts[1..];
  }

  /** The join of the first n parts begins the join of them all. */
  lemma {:induction false} JoinPrefix(parts: seq<string>, n: nat, sep: string)
    requires 1 <= n <= |parts|
    ensures StartsWith(Join(parts, sep), Join(parts[..n], sep))
    decreases n
  {
    if n == 1 {
      assert Join(parts[..1], sep) == parts[0];
      if |parts| > 1 {
        assert Join(parts, sep) == parts[0] + (sep + Join(parts[1..], sep));
      }
    } else {
      JoinPrefix(parts[1..], n - 1, sep);
      assert parts[..n][1..] == parts[1..][..n - 1];
      StartsWithAfter(parts[0] + sep, Join(parts[1..], sep), Join(parts[1..][..n - 1], sep));
    }
  }

  lemma StartsWithAfter(a: string, x: string, y: string)
    requires StartsWith(x, y)
    ensures StartsWith(a + x, a + y)
  {
  }

  /** Splitting a join of separator-free fields gives back the fields. */
  lemma {:induction false} SplitJoin(parts: seq<string>, sep: char)
    requires parts != []
    requires forall k :: 0 <= k < |parts| ==> sep !in parts[k]
    ensures Split(Join(parts, [sep]), sep) == parts
    decreases |parts|
  {
    if |parts| == 1 {
      SplitWithoutSeparator(parts[0], sep);
    } else {
      SplitJoin(parts[1..], sep);
      SplitAtSeparator(parts[0], Join(parts[1..], [sep]), sep);
      assert [parts[0]] + parts[1..] == parts;
    }
  }

  /** The first separator after a separator-free field ends that field. */
  lemma {:induction false} SplitAtSeparator(w: string, t: string, sep: char)
    requires sep !in w
    ensures Split(w + [sep] + t, sep) == [w] + Split(t, sep)
    decreases |w|
  {
    if w == [] {
      assert w + [sep] + t == [sep] + t;
      assert ([sep] + t)[1..] == t;
    } else {
      SplitAtSeparator(w[1..], t, sep);
      assert (w + [sep] + t)[1..] == w[1..] + [sep] + t;
      assert [w[0]] + w[1..] == w;
    }
  }

  /** A string without the separator splits into itself alone. */
  lemma {:induction false} SplitWithoutSeparator(s: string, sep: char)
    requires sep !in s
    ensures Split(s, sep) == [s]
    decreases |s|
  {
    if s != [] {
      SplitWithoutSeparator(s[1..], sep);
      assert s == [s[0]] + s[1..];
    }
  }

  function DigitChar(d: nat): char
    requires d < 10
  {
    ('0' as int + d) as char
  }

  /** Decimal rendering of a natural number, as `${n}` prints it. */
  function NatToDecimal(n: nat): (r: string)
    ensures r != []
    ensures forall k :: 0 <= k < |r| ==> '0' <= r[k] <= '9'
    decreases n
  {
    if n < 10 then [DigitChar(n)] else NatToDecimal(n / 10) + [DigitChar(n % 10)]
  }

  /** Decimal rendering of an integer, with a leading '-' when it is negative. */
  function IntToDecimal(i: int): string {
    if i < 0 then "-" + NatToDecimal(-i) else NatToDecimal(i)
  }

  /** The JavaScript `length` of a string: the number of its UTF-16 code units. */
  function Utf16Length(s: string): (n: nat)
    ensures |s| <= n <= 2 * |s|
  {
    if s == [] then 0
    else Utf16Length(s[..|s| - 1]) + (if s[|s| - 1] as int >= 0x1_0000 then 2 else 1)
  }
}
