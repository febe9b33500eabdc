/**
 * The handful of Python string operations the repository relies on
 * (`startswith`, `in`, `split`, `join`, `replace`, `str(n)`, `int(s)`,
 * `strip`, `upper`, `lower`), stated on `seq<char>`.
 */
module Strings {
  import opened Wrappers

  predicate StartsWith(s: string, prefix: string) {
    |prefix| <= |s| && s[..|prefix|] == prefix
  }

  predicate EndsWith(s: string, suffix: string) {
    |suffix| <= |s| && s[|s| - |suffix|..] == suffix
  }

  /** Python's `pat in s`. */
  predicate Contains(s: string, pat: string)
    decreases |s|
  {
    StartsWith(s, pat) || (|s| > 0 && Contains(s[1..], pat))
  }

  /** A pattern whose first character is absent from `s` cannot occur in `s`. */
  lemma {:induction false} NotContainsWithoutFirstChar(s: string, pat: string)
    requires |pat| > 0 && pat[0] !in s
    ensures !Contains(s, pat)
    decreases |s|
  {
    if |s| > 0 {
      assert s[0] != pat[0];
      NotContainsWithoutFirstChar(s[1..], pat);
    }
  }

  /** The index of the first `c` in `s` at or after `from`. */
  function FindChar(s: string, c: char, from: nat): (r: Option<nat>)
    ensures r.Some? ==> from <= r.value < |s| && s[r.value] == c
    ensures r.Some? ==> forall k :: from <= k < r.value ==> s[k] != c
    ensures r.None? ==> forall k :: from <= k < |s| ==> s[k] != c
    decreases |s| - from
  {
    if from >= |s| then None
    else if s[from] == c then Some(from)
    else FindChar(s, c, from + 1)
  }

  // ---------------------------------------------------------------- split / join

  /** Python's `s.split(sep)` for a one-character separator. */
  function Split(s: string, sep: char): (parts: seq<string>)
    ensures |parts| >= 1
    ensures forall i :: 0 <= i < |parts| ==> sep !in parts[i]
    decreases |s|
  {
    if |s| == 0 then [""]
    else
      var rest := Split(s[1..], sep);
      if s[0] == sep then [""] + rest
      else [[s[0]] + rest[0]] + rest[1..]
  }

  /** Python's `sep.join(parts)`. */
  function Join(parts: seq<string>, sep: string): string
    decreases |parts|
  {
    if |parts| == 0 then ""
    else if |parts| == 1 then parts[0]
    else parts[0] + sep + Join(parts[1..], sep)
  }

  lemma JoinConsChar(x: char, parts: seq<string>, sep: string)
    requires |parts| >= 1
    ensures Join([[x] + parts[0]] + parts[1..], sep) == [x] + Join(parts, sep)
  {
    var q := [[x] + parts[0]] + parts[1..];
    assert q[1..] == parts[1..];
  }

  /** Joining one more part appends it after the separator. */
  lemma {:induction false} JoinSnoc(parts: seq<string>, x: string, sep: string)
    ensures Join(parts + [x], sep) == if |parts| == 0 then x else Join(parts, sep) + sep + x
    decreases |parts|
  {
    if |parts| == 1 {
      assert (parts + [x])[1..] == [x];
    } else if |parts| > 1 {
      assert (parts + [x])[1..] == parts[1..] + [x];
      JoinSnoc(parts[1..], x, sep);
    }
  }

  /** Splitting on a character and joining back with it gives the original text. */
  lemma {:induction false} SplitJoin(s: string, sep: char)
    ensures Join(Split(s, sep), [sep]) == s
    decreases |s|
  {
    if |s| > 0 {
      var rest := Split(s[1..], sep);
      SplitJoin(s[1..], sep);
      if s[0] == sep {
        assert ([""] + rest)[1..] == rest;
        assert Join([""] + rest, [sep]) == "" + [sep] + Join(rest, [sep]);
        assert s == [s[0]] + s[1..];
      } else {
        JoinConsChar(s[0], rest, [sep]);
        assert s == [s[0]] + s[1..];
      }
    }
  }

  lemma {:induction false} SplitWithoutSep(a: string, sep: char)
    requires sep !in a
    ensures Split(a, sep) == [a]
    decreases |a|
  {
    if |a| > 0 {
      SplitWithoutSep(a[1..], sep);
      assert a == [a[0]] + a[1..];
    }
  }

  lemma {:induction false} SplitAfterSep(a: string, b: string, sep: char)
    requires sep !in a
    ensures Split(a + [sep] + b, sep) == [a] + Split(b, sep)
    decreases |a|
  {
    var s := a + [sep] + b;
    if |a| == 0 {
      assert s[1..] == b;
    } else {
      assert s[1..] == a[1..] + [sep] + b;
      SplitAfterSep(a[1..], b, sep);
      assert a == [a[0]] + a[1..];
    }
  }

  /** Joining parts that do not contain the separator and splitting again gives the parts back. */
  lemma {:induction false} JoinSplit(parts: seq<string>, sep: char)
    requires |parts| >= 1
    requires forall i :: 0 <= i < |parts| ==> sep !in parts[i]
    ensures Split(Join(parts, [sep]), sep) == parts
    decreases |parts|
  {
    if |parts| == 1 {
      SplitWithoutSep(parts[0], sep);
    } else {
      JoinSplit(parts[1..], sep);
      SplitAfterSep(parts[0], Join(parts[1..], [sep]), sep);
      assert parts == [parts[0]] + parts[1..];
    }
  }

  /** In the joined text, part `j` sits between a prefix and a suffix. */
  lemma {:induction false} JoinSplitsAt(parts: seq<string>, sep: string, j: nat) returns (a: string, c: string)
    requires j < |parts|
    ensures Join(parts, sep) == a + parts[j] + c
    decreases |parts|
  {
    if j == 0 {
      if |parts| == 1 {
        a, c := "", "";
      } else {
        a, c := "", sep + Join(parts[1..], sep);
      }
    } else {
      var a1, c1 := JoinSplitsAt(parts[1..], sep, j - 1);
      a, c := parts[0] + sep + a1, c1;
    }
  }

  /** In the joined text, an earlier part occurs before a later one. */
  lemma {:induction false} JoinKeepsOrder(parts: seq<string>, sep: string, i: nat, j: nat) returns (a: string, b: string, c: string)
    requires i < j < |parts|
    ensures Join(parts, sep) == a + parts[i] + b + parts[j] + c
    decreases |parts|
  {
    if i == 0 {
      var a1, c1 := JoinSplitsAt(parts[1..], sep, j - 1);
      a, b, c := "", sep + a1, c1;
    } else {
      var a1, b1, c1 := JoinKeepsOrder(parts[1..], sep, i - 1, j - 1);
      a, b, c := parts[0] + sep + a1, b1, c1;
    }
  }

  // ---------------------------------------------------------------- replace

  /** Python's `s.replace(pat, rep)`: leftmost, non-overlapping occurrences. */
  function ReplaceAll(s: string, pat: string, rep: string): string
    requires |pat| > 0
    decreases |s|
  {
    if |s| == 0 then s
    else if StartsWith(s, pat) then rep + ReplaceAll(s[|pat|..], pat, rep)
    else [s[0]] + ReplaceAll(s[1..], pat, rep)
  }

  /** Replacing a pattern that does not occur changes nothing. */
  lemma {:induction false} ReplaceAllAbsent(s: string, pat: string, rep: string)
    requires |pat| > 0 && !Contains(s, pat)
    ensures ReplaceAll(s, pat, rep) == s
    decreases |s|
  {
    if |s| > 0 {
      ReplaceAllAbsent(s[1..], pat, rep);
      assert s == [s[0]] + s[1..];
    }
  }

  lemma {:induction false} ReplaceAllFreePrefix(a: string, t: string, pat: string, rep: string)
    requires |pat| > 0 && pat[0] !in a
    ensures ReplaceAll(a + t, pat, rep) == a + ReplaceAll(t, pat, rep)
    decreases |a|
  {
    if |a| > 0 {
      var s := a + t;
      assert s[0] == a[0] != pat[0];
      assert |pat| <= |s| ==> s[..|pat|][0] != pat[0];
      assert !StartsWith(s, pat);
      assert ReplaceAll(s, pat, rep) == [s[0]] + ReplaceAll(s[1..], pat, rep);
      assert s[1..] == a[1..] + t;
      ReplaceAllFreePrefix(a[1..], t, pat, rep);
      assert a + ReplaceAll(t, pat, rep) == [a[0]] + (a[1..] + ReplaceAll(t, pat, rep));
    } else {
      assert a + t == t;
    }
  }

  /**
   * When the pattern's first character occurs in none of the parts, the
   * occurrences of the pattern in `Join(parts, pat)` are exactly the joints,
   * so every one of them is replaced and nothing else changes.
   */
  lemma {:induction false} ReplaceAllJoin(parts: seq<string>, pat: string, rep: string)
    requires |pat| > 0 && |parts| >= 1
    requires forall i :: 0 <= i < |parts| ==> pat[0] !in parts[i]
    ensures ReplaceAll(Join(parts, pat), pat, rep) == Join(parts, rep)
    decreases |parts|
  {
    if |parts| == 1 {
      ReplaceAllFreePrefix(parts[0], "", pat, rep);
      assert parts[0] + "" == parts[0];
    } else {
      var rest := Join(parts[1..], pat);
      ReplaceAllFreePrefix(parts[0], pat + rest, pat, rep);
      var t := pat + rest;
      assert StartsWith(t, pat);
      assert t[|pat|..] == rest;
      ReplaceAllJoin(parts[1..], pat, rep);
      assert Join(parts, pat) == parts[0] + t;
    }
  }

  // ---------------------------------------------------------------- numbers

  predicate IsDigit(c: char) { '0' <= c <= '9' }

  predicate IsDigits(s: string) {
    |s| > 0 && forall i :: 0 <= i < |s| ==> IsDigit(s[i])
  }

  function DigitChar(d: nat): (c: char)
    requires d < 10
    ensures IsDigit(c) && c as int - '0' as int == d
  {
    ('0' as int + d) as char
  }

  /** Python's `str(n)` for a non-negative integer. */
  function NatToString(n: nat): (s: string)
    ensures IsDigits(s)
    decreases n
  {
    if n < 10 then [DigitChar(n)] else NatToString(n / 10) + [DigitChar(n % 10)]
  }

  function DigitValue(c: char): nat
    requires IsDigit(c)
  {
    c as int - '0' as int
  }

  /** The value of a run of decimal digits. */
  function DigitsValue(s: string): nat
    requires forall i :: 0 <= i < |s| ==> IsDigit(s[i])
    decreases |s|
  {
    if |s| == 0 then 0
    else DigitsValue(s[..|s| - 1]) * 10 + DigitValue(s[|s| - 1])
  }

  lemma {:induction false} DigitsValueOfNatToString(n: nat)
    ensures DigitsValue(NatToString(n)) == n
    decreases n
  {
    var s := NatToString(n);
    if n >= 10 {
      DigitsValueOfNatToString(n / 10);
      assert s[..|s| - 1] == NatToString(n / 10);
    }
  }

  /** Different numbers print differently. */
  lemma NatToStringInjective(a: nat, b: nat)
    requires NatToString(a) == NatToString(b)
    ensures a == b
  {
    DigitsValueOfNatToString(a);
    DigitsValueOfNatToString(b);
  }

  /** Python's `int(s)` on ASCII text: optional surrounding whitespace, an optional sign, then decimal digits. */
  function ParseInt(s: string): (r: Option<int>)
    ensures r.Some? ==> exists i :: 0 <= i < |s| && IsDigit(s[i])
  {
    var t := Strip(s);
    if |t| > 0 && (t[0] == '+' || t[0] == '-') && IsDigits(t[1..]) then
      var v: int := DigitsValue(t[1..]);
      assert IsDigit(t[1..][0]);
      StripIsSlice(s);
      Some(if t[0] == '-' then -v else v)
    else if IsDigits(t) then
      assert IsDigit(t[0]);
      StripIsSlice(s);
      Some(DigitsValue(t))
    else None
  }

  /** `int(str(n)) == n`. */
  lemma ParseIntOfNatToString(n: nat)
    ensures ParseInt(NatToString(n)) == Some(n)
  {
    var s := NatToString(n);
    StripWithoutSpaces(s);
    DigitsValueOfNatToString(n);
  }

  // ---------------------------------------------------------------- whitespace and case

  /** The ASCII characters for which Python's `str.isspace()` holds. */
  predicate IsSpace(c: char) {
    c == ' ' || (9 <= c as int <= 13) || (28 <= c as int <= 31)
  }

  function TrimStart(s: string): (r: string)
    ensures |r| <= |s| && r == s[|s| - |r|..]
    ensures forall i :: 0 <= i < |s| - |r| ==> IsSpace(s[i])
    ensures |r| > 0 ==> !IsSpace(r[0])
    decreases |s|
  {
    if |s| > 0 && IsSpace(s[0]) then TrimStart(s[1..]) else s
  }

  function TrimEnd(s: string): (r: string)
    ensures |r| <= |s| && r == s[..|r|]
    ensures forall i :: |r| <= i < |s| ==> IsSpace(s[i])
    ensures |r| > 0 ==> !IsSpace(r[|r| - 1])
    decreases |s|
  {
    if |s| > 0 && IsSpace(s[|s| - 1]) then TrimEnd(s[..|s| - 1]) else s
  }

  /** Python's `s.strip()` (ASCII whitespace). */
  function Strip(s: string): (r: string)
    ensures |r| > 0 ==> !IsSpace(r[0]) && !IsSpace(r[|r| - 1])
  {
    TrimEnd(TrimStart(s))
  }

  lemma StripIsSlice(s: string)
    ensures exists i, j :: 0 <= i <= j <= |s| && Strip(s) == s[i..j]
  {
    var t := TrimStart(s);
    var r := TrimEnd(t);
    assert r == s[|s| - |t|..][..|r|] == s[|s| - |t|..|s| - |t| + |r|];
  }

  lemma StripWithoutSpaces(s: string)
    requires forall i :: 0 <= i < |s| ==> !IsSpace(s[i])
    ensures Strip(s) == s
  {
  }

  function UpperChar(c: char): char {
    if 'a' <= c <= 'z' then (c as int - 32) as char else c
  }

  function LowerChar(c: char): char {
    if 'A' <= c <= 'Z' then (c as int + 32) as char else c
  }

  /** Python's `s.upper()` on ASCII letters. */
  function Upper(s: string): (r: string)
    ensures |r| == |s|
    ensures forall i :: 0 <= i < |s| ==> r[i] == UpperChar(s[i])
  {
    seq(|s|, i requires 0 <= i < |s| => UpperChar(s[i]))
  }

  /** Python's `s.lower()` on ASCII letters. */
  function Lower(s: string): (r: string)
    ensures |r| == |s|
    ensures forall i :: 0 <= i < |s| ==> r[i] == LowerChar(s[i])
  {
    seq(|s|, i requires 0 <= i < |s| => LowerChar(s[i]))
  }
}
