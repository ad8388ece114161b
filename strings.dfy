/** The Python string operations the application relies on, over
    `seq<char>`: `str(n)`, `int(s)`, `str.strip()`, `str.split(sep)`,
    `str.replace`, `str.startswith`, the `in` substring test and
    `str.lower()` (ASCII letters only). */
module Strings {
  import opened Wrappers

  // ---------------------------------------------------------------------
  // Decimal digits, str(n) and int(s)
  // ---------------------------------------------------------------------

  predicate IsDigit(c: char) { '0' <= c <= '9' }

  predicate AllDigits(s: string) { forall i :: 0 <= i < |s| ==> IsDigit(s[i]) }

  function DigitChar(d: nat): (c: char)
    requires d < 10
    ensures IsDigit(c) && DigitValue(c) == d
  {
    ('0' as int + d) as char
  }

  function DigitValue(c: char): nat
    requires IsDigit(c)
  {
    c as int - '0' as int
  }

  /** `str(n)` for a non-negative integer: its shortest decimal spelling. */
  function NatToString(n: nat): (s: string)
    ensures 1 <= |s| && AllDigits(s)
    ensures |s| > 1 ==> s[0] != '0'
    decreases n
  {
    if n < 10 then [DigitChar(n)] else NatToString(n / 10) + [DigitChar(n % 10)]
  }

  /** `str(i)` for any integer: a minus sign before the spelling of `|i|`. */
  function IntToString(i: int): (s: string)
    ensures 1 <= |s|
    ensures i >= 0 ==> AllDigits(s)
    ensures i < 0 ==> s[0] == '-' && AllDigits(s[1..])
  {
    if i < 0 then "-" + NatToString(-i) else NatToString(i)
  }

  /** The value of a non-empty run of decimal digits (leading zeros allowed,
      as Python's `int` allows them). */
  function DigitsValue(s: string): nat
    requires AllDigits(s)
    decreases |s|
  {
    if |s| == 0 then 0 else DigitsValue(s[..|s| - 1]) * 10 + DigitValue(s[|s| - 1])
  }

  lemma {:induction false} DigitsValueOfNatToString(n: nat)
    ensures DigitsValue(NatToString(n)) == n
    decreases n
  {
    if n >= 10 {
      var s := NatToString(n);
      assert s[..|s| - 1] == NatToString(n / 10);
      DigitsValueOfNatToString(n / 10);
    }
  }

  /** Distinct numbers print differently: `str` on integers is injective. */
  lemma NatToStringInjective(n: nat, m: nat)
    requires NatToString(n) == NatToString(m)
    ensures n == m
  {
    DigitsValueOfNatToString(n);
    DigitsValueOfNatToString(m);
  }

  lemma IntToStringInjective(i: int, j: int)
    requires IntToString(i) == IntToString(j)
    ensures i == j
  {
    var s := IntToString(i);
    if i < 0 && j < 0 {
      assert s[1..] == NatToString(-i) == NatToString(-j);
      NatToStringInjective(-i, -j);
    } else if i >= 0 && j >= 0 {
      NatToStringInjective(i, j);
    }
    // otherwise one spelling starts with '-' and the other with a digit
  }

  /** The printed form of an integer never contains a colon. */
  lemma NoColonInIntToString(i: int)
    ensures ':' !in IntToString(i)
  {
    var s := IntToString(i);
    forall k | 0 <= k < |s| ensures s[k] != ':' {
      if i < 0 && k > 0 { assert s[k] == s[1..][k - 1]; }
    }
  }

  /** A string built as `a + [c] + b`, with `c` absent from `a`, splits back
      uniquely at its first `c`. */
  lemma SplitAtFirst(a: string, b: string, a': string, b': string, c: char)
    requires c !in a && c !in a'
    requires a + [c] + b == a' + [c] + b'
    ensures a == a' && b == b'
  {
    var s := a + [c] + b;
    // the first c of s sits right after a, and right after a'
    assert forall k :: 0 <= k < |a| ==> s[k] == a[k] && a[k] in a;
    assert forall k :: 0 <= k < |a'| ==> s[k] == a'[k] && a'[k] in a';
    assert s[|a|] == c && s[|a'|] == c;
    assert |a| == |a'|;
    assert a == s[..|a|] == a';
    assert b == s[|a| + 1..] == b';
  }

  /** A common prefix cancels. */
  lemma CancelPrefix(p: string, x: string, y: string)
    requires p + x == p + y
    ensures x == y
  {
    assert x == (p + x)[|p|..];
    assert y == (p + y)[|p|..];
  }

  /** Python's whitespace for `str.strip()` and `int()`: the characters for
      which `str.isspace()` holds. */
  predicate IsSpace(c: char)
  {
    var k := c as int;
    (9 <= k <= 13) || (28 <= k <= 32) || k == 0x85 || k == 0xA0 || k == 0x1680
    || (0x2000 <= k <= 0x200A) || k == 0x2028 || k == 0x2029 || k == 0x202F
    || k == 0x205F || k == 0x3000
  }

  /** `int(s)` on a string: surrounding whitespace, an optional sign, then
      one or more decimal digits; anything else raises ValueError (None). */
  function ParseInt(s: string): (r: Option<int>)
    ensures r.Some? ==> |Strip(s)| >= 1
  {
    var t := Strip(s);
    if |t| >= 2 && (t[0] == '-' || t[0] == '+') && AllDigits(t[1..]) then
      Some(if t[0] == '-' then -(DigitsValue(t[1..]) as int) else DigitsValue(t[1..]))
    else if |t| >= 1 && AllDigits(t) then
      Some(DigitsValue(t))
    else
      None
  }

  /** A string with no whitespace at either end is its own strip. */
  lemma StripUnchanged(s: string)
    requires |s| > 0 ==> !IsSpace(s[0]) && !IsSpace(s[|s| - 1])
    ensures Strip(s) == s
  {
    assert TrimStart(s) == s;
  }

  /** `int(str(i)) == i`: reading back what `str` printed. */
  lemma ParseIntOfIntToString(i: int)
    ensures ParseInt(IntToString(i)) == Some(i)
  {
    if i < 0 {
      ParseIntOfNegative(i);
    } else {
      ParseIntOfNonNegative(i);
    }
  }

  /** `int()` refuses a string with a non-digit after its first character. */
  lemma ParseIntRefusesInnerNonDigit(s: string, k: nat)
    requires 1 <= k < |Strip(s)| && !IsDigit(Strip(s)[k])
    ensures ParseInt(s).None?
  {
    var t := Strip(s);
    assert t[1..][k - 1] == t[k];
  }

  /** `int()` refuses a string that starts with neither a digit nor a sign. */
  lemma ParseIntRefusesBadStart(s: string)
    requires |Strip(s)| >= 1 && !IsDigit(Strip(s)[0]) && Strip(s)[0] != '+' && Strip(s)[0] != '-'
    ensures ParseInt(s).None?
  {
  }

  /** A plus sign before a run of digits reads as their value. */
  lemma ParseIntOfPlus(d: string)
    requires |d| >= 1 && AllDigits(d)
    ensures ParseInt("+" + d) == Some(DigitsValue(d) as int)
  {
    var s := "+" + d;
    assert s[1..] == d;
    assert IsDigit(d[|d| - 1]) && s[|s| - 1] == d[|d| - 1];
    StripUnchanged(s);
  }

  /** Whitespace around the text is ignored. */
  lemma ParseIntIgnoresOuterSpace(s: string)
    ensures ParseInt(" " + s + " ") == ParseInt(s)
  {
    StripPadded(s);
    ParseIntOfSameStrip(" " + s + " ", s);
  }

  /** `int()` looks only at what `strip` keeps. */
  lemma ParseIntOfSameStrip(a: string, b: string)
    requires Strip(a) == Strip(b)
    ensures ParseInt(a) == ParseInt(b)
  {
  }

  /** A negative integer reads back through its minus sign. */
  lemma ParseIntOfNegative(i: int)
    requires i < 0
    ensures ParseInt(IntToString(i)) == Some(i)
  {
    DigitsValueOfNatToString(-i);
    ParseIntOfSigned(IntToString(i), NatToString(-i), -i);
  }

  /** A non-negative integer reads back from its digits. */
  lemma ParseIntOfNonNegative(i: int)
    requires i >= 0
    ensures ParseInt(IntToString(i)) == Some(i)
  {
    DigitsValueOfNatToString(i);
    ParseIntOfDigits(IntToString(i));
  }

  /** A run of digits reads as its value. */
  lemma ParseIntOfDigits(s: string)
    requires |s| >= 1 && AllDigits(s)
    ensures ParseInt(s) == Some(DigitsValue(s) as int)
  {
    assert IsDigit(s[0]) && IsDigit(s[|s| - 1]);
    StripUnchanged(s);
  }

  /** A minus sign before a run of digits worth n reads as -n. */
  lemma ParseIntOfSigned(s: string, d: string, n: int)
    requires s == "-" + d && |d| >= 1 && AllDigits(d) && DigitsValue(d) == n
    ensures ParseInt(s) == Some(-n)
  {
    assert s[1..] == d;
    assert IsDigit(d[|d| - 1]) && s[|s| - 1] == d[|d| - 1];
    StripUnchanged(s);
  }

  // ---------------------------------------------------------------------
  // str.strip()
  // ---------------------------------------------------------------------

  function TrimStart(s: string): (r: string)
    ensures |r| <= |s| && r == s[|s| - |r|..]
    ensures forall i :: 0 <= i < |s| - |r| ==> IsSpace(s[i])
    ensures |r| > 0 ==> !IsSpace(r[0])
    decreases |s|
  {
    if |s| > 0 && IsSpace(s[0]) then TrimStart(s[1..]) else s
  }

  function TrimEnd(s: string): (r: string)
    ensures |r| <= |s| && r == s[..|r|]
    ensures forall i :: |r| <= i < |s| ==> IsSpace(s[i])
    ensures |r| > 0 ==> !IsSpace(r[|r| - 1])
    decreases |s|
  {
    if |s| > 0 && IsSpace(s[|s| - 1]) then TrimEnd(s[..|s| - 1]) else s
  }

  /** `s.strip()`: `s` without its leading and trailing whitespace. */
  function Strip(s: string): (r: string)
  {
    TrimEnd(TrimStart(s))
  }

  /** Trimming the front of a concatenation trims into the second part only
      when the first is all whitespace. */
  lemma {:induction false} TrimStartAppend(a: string, b: string)
    ensures TrimStart(a + b) == if TrimStart(a) == [] then TrimStart(b) else TrimStart(a) + b
    decreases |a|
  {
    if |a| == 0 {
      assert a + b == b;
    } else if IsSpace(a[0]) {
      assert (a + b)[1..] == a[1..] + b;
      TrimStartAppend(a[1..], b);
    }
  }

  /** A space before and after the text does not change what `strip` keeps. */
  lemma StripPadded(s: string)
    ensures Strip(" " + s + " ") == Strip(s)
  {
    var padded := " " + s + " ";
    assert padded[1..] == s + " ";
    assert TrimStart(padded) == TrimStart(s + " ");
    TrimStartAppend(s, " ");
    var t := TrimStart(s);
    if t != [] {
      TrimEndSpace(t);
    }
  }

  /** A trailing space is trimmed away. */
  lemma TrimEndSpace(t: string)
    ensures TrimEnd(t + " ") == TrimEnd(t)
  {
    assert (t + " ")[..|t|] == t;
  }

  /** What `Strip` keeps is the contiguous piece of `s` starting at some `k`,
      with no whitespace at either end, and everything it drops is whitespace. */
  lemma StripSpec(s: string) returns (k: nat)
    ensures k + |Strip(s)| <= |s| && Strip(s) == s[k..k + |Strip(s)|]
    ensures forall i :: 0 <= i < k ==> IsSpace(s[i])
    ensures forall i :: k + |Strip(s)| <= i < |s| ==> IsSpace(s[i])
    ensures |Strip(s)| > 0 ==> !IsSpace(Strip(s)[0]) && !IsSpace(Strip(s)[|Strip(s)| - 1])
  {
    var t := TrimStart(s);
    var r := TrimEnd(t);
    k := |s| - |t|;
    assert t == s[k..];
    assert r == t[..|r|];
    assert forall i :: k + |r| <= i < |s| ==> s[i] == t[i - k];
  }

  // ---------------------------------------------------------------------
  // str.split(sep) with a one-character separator, and its inverse join
  // ---------------------------------------------------------------------

  /** `s.split(sep)`: the pieces between the separators, empty ones kept. */
  function Split(s: string, sep: char): (r: seq<string>)
    ensures |r| >= 1
    ensures forall k :: 0 <= k < |r| ==> sep !in r[k]
    decreases |s|
  {
    if |s| == 0 then [""]
    else
      var rest := Split(s[1..], sep);
      if s[0] == sep then [""] + rest else [[s[0]] + rest[0]] + rest[1..]
  }

  /** `sep.join(parts)`. */
  function Join(parts: seq<string>, sep: char): string
    decreases |parts|
  {
    if |parts| == 0 then ""
    else if |parts| == 1 then parts[0]
    else parts[0] + [sep] + Join(parts[1..], sep)
  }

  /** Number of occurrences of `c` in `s`. */
  function Occurrences(s: string, c: char): nat
    decreases |s|
  {
    if |s| == 0 then 0 else (if s[0] == c then 1 else 0) + Occurrences(s[1..], c)
  }

  /** Splitting on a separator gives one more piece than it has occurrences. */
  lemma {:induction false} SplitCount(s: string, sep: char)
    ensures |Split(s, sep)| == Occurrences(s, sep) + 1
    decreases |s|
  {
    if |s| > 0 {
      SplitCount(s[1..], sep);
    }
  }

  /** Joining the pieces with the separator gives back the original string. */
  lemma {:induction false} JoinSplit(s: string, sep: char)
    ensures Join(Split(s, sep), sep) == s
    decreases |s|
  {
    if |s| > 0 {
      var rest := Split(s[1..], sep);
      JoinSplit(s[1..], sep);
      if s[0] == sep {
        assert Split(s, sep) == [""] + rest;
        assert (["" ] + rest)[1..] == rest;
        assert Join([""] + rest, sep) == "" + [sep] + Join(rest, sep);
        assert s == [sep] + s[1..];
      } else {
        var parts := [[s[0]] + rest[0]] + rest[1..];
        assert Split(s, sep) == parts;
        if |rest| == 1 {
          assert Join(parts, sep) == [s[0]] + rest[0];
          assert Join(rest, sep) == rest[0];
        } else {
          assert parts[1..] == rest[1..];
          assert Join(parts, sep) == [s[0]] + rest[0] + [sep] + Join(rest[1..], sep);
          assert Join(rest, sep) == rest[0] + [sep] + Join(rest[1..], sep);
        }
        assert s == [s[0]] + s[1..];
      }
    }
  }

  /** And conversely, pieces without the separator come back from a split of
      their join. */
  lemma {:induction false} SplitJoin(parts: seq<string>, sep: char)
    requires |parts| >= 1
    requires forall k :: 0 <= k < |parts| ==> sep !in parts[k]
    ensures Split(Join(parts, sep), sep) == parts
    decreases |parts|, |parts[0]|
  {
    var p := parts[0];
    if |p| == 0 {
      if |parts| > 1 {
        var tail := Join(parts[1..], sep);
        assert Join(parts, sep) == [sep] + tail;
        SplitJoin(parts[1..], sep);
        assert ([sep] + tail)[1..] == tail;
        assert parts == [""] + parts[1..];
      }
    } else {
      var shorter := [p[1..]] + parts[1..];
      assert shorter[1..] == parts[1..];
      assert forall k :: 0 <= k < |shorter| ==> sep !in shorter[k] by {
        forall k | 0 <= k < |shorter| ensures sep !in shorter[k] {
          if k == 0 { assert forall c :: c in p[1..] ==> c in p; }
        }
      }
      SplitJoin(shorter, sep);
      var j := Join(parts, sep);
      assert p[0] != sep by { assert p[0] in p; }
      if |parts| == 1 {
        assert j == p && Join(shorter, sep) == p[1..];
      } else {
        assert j == p + [sep] + Join(parts[1..], sep);
        assert Join(shorter, sep) == p[1..] + [sep] + Join(parts[1..], sep);
      }
      assert j[0] == p[0] && j[1..] == Join(shorter, sep);
      var rest := Split(j[1..], sep);
      assert rest == shorter;
      assert [p[0]] + p[1..] == p;
      assert Split(j, sep) == [[p[0]] + rest[0]] + rest[1..];
    }
  }

  // ---------------------------------------------------------------------
  // str.startswith, the `in` test, str.replace
  // ---------------------------------------------------------------------

  predicate StartsWith(s: string, prefix: string)
  {
    |prefix| <= |s| && s[..|prefix|] == prefix
  }

  /** `t in s` for strings: `t` occurs somewhere in `s`. */
  predicate Contains(s: string, t: string)
    decreases |s|
  {
    StartsWith(s, t) || (|s| > 0 && Contains(s[1..], t))
  }

  /** An occurrence at any offset is an occurrence. */
  lemma {:induction false} ContainsAt(s: string, k: nat, t: string)
    requires k <= |s| && StartsWith(s[k..], t)
    ensures Contains(s, t)
    decreases k
  {
    if k > 0 {
      assert s[1..][k - 1..] == s[k..];
      ContainsAt(s[1..], k - 1, t);
    }
  }

  /** A string without `t` holds nothing that ends in `t`. */
  lemma {:induction false} NotContainsExtended(s: string, p: string, t: string)
    requires !Contains(s, t)
    ensures !Contains(s, p + t)
    decreases |s|
  {
    if StartsWith(s, p + t) {
      assert s[|p|..][..|t|] == (p + t)[|p|..];
      ContainsAt(s, |p|, t);
    }
    if |s| > 0 {
      NotContainsExtended(s[1..], p, t);
    }
  }

  /** A prefix without the first character of `t` adds no occurrence of it. */
  lemma {:induction false} NotContainsSkipsPrefix(a: string, b: string, t: string)
    requires |t| > 0 && t[0] !in a && !Contains(b, t)
    ensures !Contains(a + b, t)
    decreases |a|
  {
    if |a| == 0 {
      assert a + b == b;
    } else {
      assert a[0] in a && (a + b)[0] == a[0];
      assert forall c :: c in a[1..] ==> c in a;
      assert (a + b)[1..] == a[1..] + b;
      NotContainsSkipsPrefix(a[1..], b, t);
    }
  }

  /** `s.replace(pat, rep)`: every occurrence of `pat`, scanning left to right
      without overlap, becomes `rep`. */
  function ReplaceAll(s: string, pat: string, rep: string): string
    requires |pat| > 0
    decreases |s|
  {
    if |s| < |pat| then s
    else if s[..|pat|] == pat then rep + ReplaceAll(s[|pat|..], pat, rep)
    else [s[0]] + ReplaceAll(s[1..], pat, rep)
  }

  /** `s.replace(pat, rep, 1)`: only the first occurrence is rewritten. */
  function ReplaceFirst(s: string, pat: string, rep: string): string
    requires |pat| > 0
    decreases |s|
  {
    if |s| < |pat| then s
    else if s[..|pat|] == pat then rep + s[|pat|..]
    else [s[0]] + ReplaceFirst(s[1..], pat, rep)
  }

  /** When the string starts with the pattern, replacing its first occurrence
      swaps the prefix. */
  lemma ReplaceFirstAtStart(s: string, pat: string, rep: string)
    requires |pat| > 0 && StartsWith(s, pat)
    ensures ReplaceFirst(s, pat, rep) == rep + s[|pat|..]
  {
  }

  /** A string none of whose characters starts the pattern is left alone. */
  lemma {:induction false} ReplaceAllNoStart(s: string, pat: string, rep: string)
    requires |pat| > 0 && pat[0] !in s
    ensures ReplaceAll(s, pat, rep) == s
    decreases |s|
  {
    if |s| >= |pat| {
      assert s[0] in s;
      assert s[..|pat|] != pat by { assert s[..|pat|][0] == s[0]; }
      assert forall c :: c in s[1..] ==> c in s;
      ReplaceAllNoStart(s[1..], pat, rep);
      assert s == [s[0]] + s[1..];
    }
  }

  /** A prefix free of the pattern's first character passes through untouched. */
  lemma {:induction false} ReplaceAllSkipsPrefix(a: string, b: string, pat: string, rep: string)
    requires |pat| > 0 && pat[0] !in a
    ensures ReplaceAll(a + b, pat, rep) == a + ReplaceAll(b, pat, rep)
    decreases |a|
  {
    if |a| > 0 {
      var s := a + b;
      assert s[0] == a[0] && a[0] in a;
      assert forall c :: c in a[1..] ==> c in a;
      ReplaceAllSkipsPrefix(a[1..], b, pat, rep);
      assert s[1..] == a[1..] + b;
      if |s| >= |pat| {
        assert s[..|pat|][0] == a[0];
        assert ReplaceAll(s, pat, rep) == [a[0]] + ReplaceAll(s[1..], pat, rep);
        assert ReplaceAll(s[1..], pat, rep) == a[1..] + ReplaceAll(b, pat, rep);
        assert [a[0]] + (a[1..] + ReplaceAll(b, pat, rep)) == a + ReplaceAll(b, pat, rep);
      } else {
        // too short for any occurrence: both sides leave their input alone
        assert ReplaceAll(s, pat, rep) == s;
        assert ReplaceAll(b, pat, rep) == b;
      }
    } else {
      assert a + b == b;
    }
  }

  /** The pattern at the front is dropped when the replacement is empty. */
  lemma ReplaceAllAtStart(pat: string, b: string, rep: string)
    requires |pat| > 0
    ensures ReplaceAll(pat + b, pat, rep) == rep + ReplaceAll(b, pat, rep)
  {
    var s := pat + b;
    assert s[..|pat|] == pat;
    assert s[|pat|..] == b;
  }

  /** A string holding no occurrence of the pattern is left alone. */
  lemma {:induction false} ReplaceAllAbsent(s: string, pat: string, rep: string)
    requires |pat| > 0 && !Contains(s, pat)
    ensures ReplaceAll(s, pat, rep) == s
    decreases |s|
  {
    if |s| >= |pat| {
      ReplaceAllAbsent(s[1..], pat, rep);
      assert s == [s[0]] + s[1..];
    }
  }

  /** One occurrence of the pattern, after a part that cannot start it and
      before a part that holds none, is the only one rewritten. */
  lemma ReplaceAllOnce(a: string, pat: string, b: string, rep: string)
    requires |pat| > 0 && pat[0] !in a && !Contains(b, pat)
    ensures ReplaceAll(a + pat + b, pat, rep) == a + rep + b
  {
    assert a + pat + b == a + (pat + b);
    ReplaceAllSkipsPrefix(a, pat + b, pat, rep);
    ReplaceAllAtStart(pat, b, rep);
    ReplaceAllAbsent(b, pat, rep);
  }

  /** `ReplaceAllOnce` for a string given whole, with its three parts. */
  lemma ReplaceAllOnceIn(s: string, a: string, pat: string, b: string, rep: string, r: string)
    requires |pat| > 0 && pat[0] !in a && !Contains(b, pat)
    requires s == a + pat + b && r == a + rep + b
    ensures ReplaceAll(s, pat, rep) == r
  {
    ReplaceAllOnce(a, pat, b, rep);
  }

  /** A string lacking one of the pattern's characters holds no occurrence
      of it, so replacing leaves it alone. */
  lemma {:induction false} ReplaceAllAbsentChar(s: string, pat: string, rep: string, c: char)
    requires |pat| > 0 && c in pat && c !in s
    ensures ReplaceAll(s, pat, rep) == s
    decreases |s|
  {
    if |s| >= |pat| {
      assert s[..|pat|] != pat by {
        assert forall x :: x in s[..|pat|] ==> x in s;
      }
      assert forall x :: x in s[1..] ==> x in s;
      ReplaceAllAbsentChar(s[1..], pat, rep, c);
      assert s == [s[0]] + s[1..];
    }
  }

  /** The same fact for the `in` test. */
  lemma {:induction false} ContainsAbsentChar(s: string, t: string, c: char)
    requires c in t && c !in s
    ensures !Contains(s, t)
    decreases |s|
  {
    assert !StartsWith(s, t) by {
      if |t| <= |s| {
        assert forall x :: x in s[..|t|] ==> x in s;
      }
    }
    if |s| > 0 {
      assert forall x :: x in s[1..] ==> x in s;
      ContainsAbsentChar(s[1..], t, c);
    }
  }

  /** A string contains whatever sits inside it. */
  lemma {:induction false} ContainsInfix(a: string, t: string, b: string)
    ensures Contains(a + t + b, t)
    decreases |a|
  {
    var s := a + t + b;
    if |a| == 0 {
      assert s[..|t|] == t;
    } else {
      ContainsInfix(a[1..], t, b);
      assert s[1..] == a[1..] + t + b;
    }
  }

  // ---------------------------------------------------------------------
  // str.lower()
  // ---------------------------------------------------------------------

  function LowerChar(c: char): char
  {
    if 'A' <= c <= 'Z' then (c as int - 'A' as int + 'a' as int) as char else c
  }

  /** `s.lower()` on ASCII letters. */
  function Lower(s: string): (r: string)
    ensures |r| == |s|
    ensures forall i :: 0 <= i < |s| ==> r[i] == LowerChar(s[i])
  {
    seq(|s|, i requires 0 <= i < |s| => LowerChar(s[i]))
  }
}
