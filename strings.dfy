/**
  The string operations of Python's `str` that the retrieval engine and the
  reply parser rely on: containment (`in`), `count`, `strip`, `split` on one
  character, `join`, `lower` and `str(int)`.
 */
module Strings {

  /** Python's `str.isspace()` for one character (the full set of characters Python treats as whitespace). */
  predicate IsSpace(c: char) {
    ('\t' <= c <= '\r') || ('\U{1C}' <= c <= ' ') || c == '\U{85}' || c == '\U{A0}'
    || c == '\U{1680}' || ('\U{2000}' <= c <= '\U{200A}') || c == '\U{2028}' || c == '\U{2029}'
    || c == '\U{202F}' || c == '\U{205F}' || c == '\U{3000}'
  }

  predicate AllSpace(s: string) {
    forall i :: 0 <= i < |s| ==> IsSpace(s[i])
  }

  // ---------------------------------------------------------------------------
  // strip

  /** `s.lstrip()`: the longest suffix of `s` that does not start with whitespace. */
  function TrimLeft(s: string): (r: string)
    ensures |r| <= |s| && r == s[|s| - |r|..]
    ensures AllSpace(s[..|s| - |r|])
    ensures r == [] || !IsSpace(r[0])
    decreases |s|
  {
    if |s| > 0 && IsSpace(s[0]) then
      var r := TrimLeft(s[1..]);
      assert s[..|s| - |r|] == [s[0]] + s[1..][..|s| - 1 - |r|];
      r
    else s
  }

  /** `s.rstrip()`: the longest prefix of `s` that does not end with whitespace. */
  function TrimRight(s: string): (r: string)
    ensures |r| <= |s| && r == s[..|r|]
    ensures AllSpace(s[|r|..])
    ensures r == [] || !IsSpace(r[|r| - 1])
    decreases |s|
  {
    if |s| > 0 && IsSpace(s[|s| - 1]) then
      var r := TrimRight(s[..|s| - 1]);
      assert s[|r|..] == s[..|s| - 1][|r|..] + [s[|s| - 1]];
      r
    else s
  }

  /** `s.strip()`: `s` without its leading and trailing whitespace. */
  function Strip(s: string): (r: string)
    ensures |r| <= |s|
    ensures r == [] || (!IsSpace(r[0]) && !IsSpace(r[|r| - 1]))
    ensures forall c :: c in r ==> c in s
  {
    var t := TrimLeft(s);
    var r := TrimRight(t);
    assert r == [] || r[0] == t[0];
    assert forall c :: c in r ==> c in t;
    r
  }

  lemma {:induction false} TrimLeftSpaces(a: string, t: string)
    requires AllSpace(a)
    ensures TrimLeft(a + t) == TrimLeft(t)
    decreases |a|
  {
    if |a| > 0 {
      assert (a + t)[1..] == a[1..] + t;
      TrimLeftSpaces(a[1..], t);
    } else {
      assert a + t == t;
    }
  }

  lemma {:induction false} TrimRightSpaces(t: string, b: string)
    requires AllSpace(b)
    ensures TrimRight(t + b) == TrimRight(t)
    decreases |b|
  {
    if |b| > 0 {
      assert (t + b)[..|t + b| - 1] == t + b[..|b| - 1];
      TrimRightSpaces(t, b[..|b| - 1]);
    } else {
      assert t + b == t;
    }
  }

  lemma TrimLeftKeeps(s: string)
    requires s != [] && !IsSpace(s[0])
    ensures TrimLeft(s) == s
  {
  }

  lemma TrimRightKeeps(s: string)
    requires s != [] && !IsSpace(s[|s| - 1])
    ensures TrimRight(s) == s
  {
  }

  /** A text that neither starts nor ends with whitespace is its own strip. */
  lemma StripKeeps(s: string)
    requires s != [] && !IsSpace(s[0]) && !IsSpace(s[|s| - 1])
    ensures Strip(s) == s
  {
    TrimLeftKeeps(s);
    TrimRightKeeps(s);
  }

  /** Stripping whitespace margins off a core that neither starts nor ends with whitespace gives back the core. */
  lemma StripAround(a: string, core: string, b: string)
    requires AllSpace(a) && AllSpace(b)
    requires core != [] && !IsSpace(core[0]) && !IsSpace(core[|core| - 1])
    ensures Strip(a + core + b) == core
  {
    var t := core + b;
    assert a + core + b == a + t;
    TrimLeftSpaces(a, t);
    assert t[0] == core[0];
    TrimLeftKeeps(t);
    TrimRightSpaces(core, b);
    TrimRightKeeps(core);
  }

  // ---------------------------------------------------------------------------
  // containment and counting

  predicate IsPrefix(p: string, s: string) {
    |p| <= |s| && s[..|p|] == p
  }

  /** Python's `needle in haystack` on strings. */
  predicate Contains(haystack: string, needle: string)
    decreases |haystack|
  {
    IsPrefix(needle, haystack) || (|haystack| > 0 && Contains(haystack[1..], needle))
  }

  /** A needle is found in any text that has it as an infix. */
  lemma {:induction false} ContainsInfix(a: string, needle: string, b: string)
    ensures Contains(a + needle + b, needle)
    decreases |a|
  {
    if |a| == 0 {
      assert a + needle + b == needle + b;
      assert IsPrefix(needle, needle + b);
    } else {
      assert (a + needle + b)[1..] == a[1..] + needle + b;
      ContainsInfix(a[1..], needle, b);
    }
  }

  /** Every text contains itself. */
  lemma ContainsSelf(s: string)
    ensures Contains(s, s)
  {
    assert s[..|s|] == s;
  }

  /** A needle with a character the haystack lacks is not found in it. */
  lemma {:induction false} NotContainsByChar(haystack: string, needle: string, c: char)
    requires c in needle && c !in haystack
    ensures !Contains(haystack, needle)
    decreases |haystack|
  {
    if |haystack| > 0 {
      assert forall x :: x in haystack[1..] ==> x in haystack;
      NotContainsByChar(haystack[1..], needle, c);
    }
  }

  /** An occurrence of a needle can only start at a copy of its first character. */
  lemma {:induction false} ContainsSkip(a: string, b: string, needle: string)
    requires needle != [] && needle[0] !in a
    requires Contains(a + b, needle)
    ensures Contains(b, needle)
    decreases |a|
  {
    if |a| == 0 {
      assert a + b == b;
    } else {
      assert !IsPrefix(needle, a + b) by {
        assert (a + b)[0] == a[0];
      }
      assert (a + b)[1..] == a[1..] + b;
      assert forall x :: x in a[1..] ==> x in a;
      ContainsSkip(a[1..], b, needle);
    }
  }

  /** A text whose first character is the only copy of a needle's first character contains the
      needle only if its second character continues the needle. */
  lemma NotContainsAtHead(c: char, rest: string, needle: string)
    requires |needle| >= 2 && needle[0] !in rest
    requires rest == [] || rest[0] != needle[1]
    ensures !Contains([c] + rest, needle)
  {
    NotContainsByChar(rest, needle, needle[0]);
    assert ([c] + rest)[1..] == rest;
    assert !IsPrefix(needle, [c] + rest) by {
      if |needle| <= |[c] + rest| {
        assert ([c] + rest)[..|needle|][1] == rest[0];
      }
    }
  }

  /** Python's `haystack.count(needle)`: the number of non-overlapping occurrences found
      scanning left to right, and `len(haystack) + 1` for an empty needle. */
  function CountOccurrences(haystack: string, needle: string): (k: nat)
    ensures |needle| > 0 ==> k * |needle| <= |haystack|
    decreases |haystack|
  {
    if |needle| == 0 then |haystack| + 1
    else if |haystack| < |needle| then 0
    else if haystack[..|needle|] == needle then
      var rest := CountOccurrences(haystack[|needle|..], needle);
      assert (1 + rest) * |needle| == |needle| + rest * |needle|;
      1 + rest
    else CountOccurrences(haystack[1..], needle)
  }

  /** The source guards `count` with `in`: for a non-empty needle the count is positive exactly when the needle occurs. */
  lemma {:induction false} CountPositiveIffContains(haystack: string, needle: string)
    requires needle != []
    ensures CountOccurrences(haystack, needle) > 0 <==> Contains(haystack, needle)
    decreases |haystack|
  {
    if |haystack| < |needle| {
      if Contains(haystack, needle) {
        assert !IsPrefix(needle, haystack);
        assert |haystack| > 0 && Contains(haystack[1..], needle);
        CountPositiveIffContains(haystack[1..], needle);
      }
    } else if haystack[..|needle|] != needle {
      CountPositiveIffContains(haystack[1..], needle);
    }
  }

  // ---------------------------------------------------------------------------
  // split and join

  /** Python's `s.split(sep)` for a one-character separator. */
  function Split(s: string, sep: char): (parts: seq<string>)
    ensures |parts| == multiset(s)[sep] + 1
    ensures forall k :: 0 <= k < |parts| ==> sep !in parts[k]
    decreases |s|
  {
    if |s| == 0 then [""]
    else
      var rest := Split(s[1..], sep);
      assert s == [s[0]] + s[1..];
      if s[0] == sep then [""] + rest
      else [[s[0]] + rest[0]] + rest[1..]
  }

  /** Python's `sep.join(parts)`. */
  function Join(parts: seq<string>, sep: string): string
    decreases |parts|
  {
    if |parts| == 0 then ""
    else if |parts| == 1 then parts[0]
    else parts[0] + sep + Join(parts[1..], sep)
  }

  /** A separator-free prefix is glued onto the first part. */
  lemma {:induction false} SplitGlue(p: string, t: string, sep: char)
    requires sep !in p
    ensures Split(p + t, sep) == [p + Split(t, sep)[0]] + Split(t, sep)[1..]
    decreases |p|
  {
    if |p| > 0 {
      assert (p + t)[0] == p[0] && (p + t)[1..] == p[1..] + t;
      SplitGlue(p[1..], t, sep);
      assert [p[0]] + (p[1..] + Split(t, sep)[0]) == p + Split(t, sep)[0];
    } else {
      var parts := Split(t, sep);
      assert p + t == t && p + parts[0] == parts[0];
      assert parts == [parts[0]] + parts[1..];
    }
  }

  /** Splitting undoes joining when no part contains the separator. */
  lemma {:induction false} SplitJoin(parts: seq<string>, sep: char)
    requires |parts| >= 1
    requires forall k :: 0 <= k < |parts| ==> sep !in parts[k]
    ensures Split(Join(parts, [sep]), sep) == parts
    decreases |parts|
  {
    if |parts| == 1 {
      SplitGlue(parts[0], "", sep);
      assert parts[0] + "" == parts[0];
    } else {
      SplitJoin(parts[1..], sep);
      SplitAfterPart(parts[0], Join(parts[1..], [sep]), sep);
      assert parts == [parts[0]] + parts[1..];
    }
  }

  /** A separator-free part followed by the separator splits off as the first part. */
  lemma SplitAfterPart(p: string, t: string, sep: char)
    requires sep !in p
    ensures Split(p + [sep] + t, sep) == [p] + Split(t, sep)
  {
    assert p + [sep] + t == p + ([sep] + t);
    SplitGlue(p, [sep] + t, sep);
    assert ([sep] + t)[0] == sep && ([sep] + t)[1..] == t;
    assert Split([sep] + t, sep) == [""] + Split(t, sep);
    assert p + "" == p;
  }

  lemma {:induction false} JoinGlue(x: string, tail: seq<string>, sep: string)
    requires |tail| >= 1
    ensures Join([x + tail[0]] + tail[1..], sep) == x + Join(tail, sep)
  {
    var parts := [x + tail[0]] + tail[1..];
    if |tail| > 1 {
      assert parts[1..] == tail[1..];
    }
  }

  /** Joining undoes splitting. */
  lemma {:induction false} JoinSplit(s: string, sep: char)
    ensures Join(Split(s, sep), [sep]) == s
    decreases |s|
  {
    if |s| > 0 {
      var rest := Split(s[1..], sep);
      JoinSplit(s[1..], sep);
      if s[0] == sep {
        assert Split(s, sep) == [""] + rest;
        assert ([""] + rest)[1..] == rest;
      } else {
        JoinGlue([s[0]], rest, [sep]);
      }
      assert s == [s[0]] + s[1..];
    }
  }

  /** Every part occurs in the joined text. */
  lemma {:induction false} JoinContainsPart(parts: seq<string>, sep: string, k: nat)
    requires k < |parts|
    ensures Contains(Join(parts, sep), parts[k])
    decreases |parts|
  {
    if |parts| == 1 {
      ContainsInfix("", parts[0], "");
      assert "" + parts[0] + "" == parts[0];
    } else if k == 0 {
      ContainsInfix("", parts[0], sep + Join(parts[1..], sep));
      assert "" + parts[0] + (sep + Join(parts[1..], sep)) == Join(parts, sep);
    } else {
      JoinContainsPart(parts[1..], sep, k - 1);
      var j := Join(parts[1..], sep);
      ContainsAppend(parts[0] + sep, j, parts[k]);
    }
  }

  /** Every element of the list of parts occurs in the joined text. */
  lemma JoinContainsEach(parts: seq<string>, sep: string)
    ensures forall p :: p in parts ==> Contains(Join(parts, sep), p)
  {
    forall p | p in parts ensures Contains(Join(parts, sep), p) {
      var k :| 0 <= k < |parts| && parts[k] == p;
      JoinContainsPart(parts, sep, k);
    }
  }

  /** Concatenation regrouped; stated once so that callers need not prove it on long literals. */
  lemma AppendAssoc(a: string, b: string, c: string)
    ensures a + b + c == a + (b + c)
  {
  }

  /** Containment is transitive: text inside a part of a haystack is inside the haystack. */
  lemma {:induction false} ContainsWithin(haystack: string, part: string, needle: string)
    requires Contains(haystack, part) && Contains(part, needle)
    ensures Contains(haystack, needle)
    decreases |haystack|
  {
    if IsPrefix(part, haystack) {
      assert haystack == part + haystack[|part|..];
      ContainsPrepend(part, haystack[|part|..], needle);
    } else {
      ContainsWithin(haystack[1..], part, needle);
    }
  }

  /** Text found in a suffix is found in the whole. */
  lemma {:induction false} ContainsAppend(a: string, b: string, needle: string)
    requires Contains(b, needle)
    ensures Contains(a + b, needle)
    decreases |a|
  {
    if |a| == 0 {
      assert a + b == b;
    } else {
      ContainsAppend(a[1..], b, needle);
      assert (a + b)[1..] == a[1..] + b;
    }
  }

  /** Text found in a prefix is found in the whole. */
  lemma {:induction false} ContainsPrepend(a: string, b: string, needle: string)
    requires Contains(a, needle)
    ensures Contains(a + b, needle)
    decreases |a|
  {
    if IsPrefix(needle, a) {
      assert (a + b)[..|needle|] == a[..|needle|];
    } else {
      ContainsPrepend(a[1..], b, needle);
      assert (a + b)[1..] == a[1..] + b;
    }
  }

  /** A join of non-empty parts is empty exactly when there are no parts. */
  lemma {:induction false} JoinEmptyIff(parts: seq<string>, sep: string)
    requires forall k :: 0 <= k < |parts| ==> parts[k] != ""
    ensures Join(parts, sep) == "" <==> parts == []
  {
    if |parts| > 0 {
      assert |Join(parts, sep)| >= |parts[0]| by {
        if |parts| > 1 {
          assert Join(parts, sep) == parts[0] + sep + Join(parts[1..], sep);
        }
      }
    }
  }

  // ---------------------------------------------------------------------------
  // lower

  /** `lower()` restricted to ASCII letters. */
  function LowerChar(c: char): char {
    if 'A' <= c <= 'Z' then (c as int + 32) as char else c
  }

  /** `s.lower()` restricted to ASCII letters: no upper-case ASCII letter remains and the length is kept. */
  function Lower(s: string): (r: string)
    ensures |r| == |s|
    ensures forall i :: 0 <= i < |r| ==> !('A' <= r[i] <= 'Z')
    ensures forall i :: 0 <= i < |s| && !('A' <= s[i] <= 'Z') ==> r[i] == s[i]
    ensures forall i :: 0 <= i < |s| && 'A' <= s[i] <= 'Z' ==> r[i] as int == s[i] as int + 32
  {
    seq(|s|, i requires 0 <= i < |s| => LowerChar(s[i]))
  }

  // ---------------------------------------------------------------------------
  // str(int)

  predicate IsDigit(c: char) {
    '0' <= c <= '9'
  }

  function DigitChar(d: nat): (c: char)
    requires d < 10
    ensures IsDigit(c)
  {
    ('0' as int + d) as char
  }

  function DigitValue(c: char): nat
    requires IsDigit(c)
  {
    c as int - '0' as int
  }

  /** Python's `str(n)` for a non-negative integer: its decimal digits, without leading zeros. */
  function NatToString(n: nat): (s: string)
    ensures |s| >= 1 && (forall i :: 0 <= i < |s| ==> IsDigit(s[i]))
    ensures |s| == 1 || s[0] != '0'
    decreases n
  {
    if n < 10 then [DigitChar(n)] else NatToString(n / 10) + [DigitChar(n % 10)]
  }

  /** Python's `str(i)` for any integer. */
  function IntToString(i: int): (s: string)
    ensures |s| >= 1 && forall c :: c in s ==> c == '-' || IsDigit(c)
  {
    if i < 0 then "-" + NatToString(-i) else NatToString(i)
  }

  /** Reads a string of decimal digits back as a number: the inverse of `NatToString`. */
  function ParseNat(s: string): nat
    requires forall i :: 0 <= i < |s| ==> IsDigit(s[i])
    decreases |s|
  {
    if |s| == 0 then 0 else ParseNat(s[..|s| - 1]) * 10 + DigitValue(s[|s| - 1])
  }

  lemma {:induction false} ParseNatToString(n: nat)
    ensures ParseNat(NatToString(n)) == n
    decreases n
  {
    if n >= 10 {
      var s := NatToString(n);
      ParseNatToString(n / 10);
      assert s[..|s| - 1] == NatToString(n / 10);
    }
  }

  /** Distinct numbers have distinct decimal renderings. */
  lemma NatToStringInjective(m: nat, n: nat)
    requires m != n
    ensures NatToString(m) != NatToString(n)
  {
    ParseNatToString(m);
    ParseNatToString(n);
  }

  function Repeat(c: char, n: nat): (s: string)
    ensures |s| == n && forall i :: 0 <= i < n ==> s[i] == c
  {
    seq(n, _ => c)
  }
}
