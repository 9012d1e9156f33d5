/**
 * The JavaScript string operations the core relies on: `split` with a one-character
 * separator, `join`, `trim`, `indexOf`/`replace` of the first match, `toLowerCase`
 * on identifiers, decimal rendering of a number and unary `+` on a string of digits.
 */
module Text {
  import opened Wrappers

  // ---------------------------------------------------------------- split and join

  /** `s.split(c)` for a one-character separator: the pieces between separators. */
  function Split(s: string, c: char): (r: seq<string>)
    ensures |r| >= 1
    ensures forall i :: 0 <= i < |r| ==> c !in r[i]
  {
    if |s| == 0 then [""]
    else
      var rest := Split(s[1..], c);
      if s[0] == c then [""] + rest
      else [[s[0]] + rest[0]] + rest[1..]
  }

  /** `parts.join(sep)`. */
  function Join(parts: seq<string>, sep: string): string
  {
    if |parts| == 0 then ""
    else if |parts| == 1 then parts[0]
    else parts[0] + sep + Join(parts[1..], sep)
  }

  /** A last piece without the separator is split off as one piece. */
  lemma {:induction false} SplitBeforeLast(a: string, b: string, c: char)
    requires c !in b
    ensures Split(a + [c] + b, c) == Split(a, c) + [b]
  {
    if |a| == 0 {
      assert a + [c] + b == [c] + b;
      assert ([c] + b)[1..] == b;
      SplitWithout(b, c);
    } else {
      SplitBeforeLast(a[1..], b, c);
      assert (a + [c] + b)[1..] == a[1..] + [c] + b;
    }
  }

  /** Number of occurrences of `c` in `s`. */
  function Count(s: string, c: char): nat
  {
    if |s| == 0 then 0 else (if s[0] == c then 1 else 0) + Count(s[1..], c)
  }

  /** Splitting then joining with the same separator gives back the string. */
  lemma {:induction false} JoinSplit(s: string, c: char)
    ensures Join(Split(s, c), [c]) == s
  {
    if |s| > 0 {
      JoinSplit(s[1..], c);
      var rest := Split(s[1..], c);
      if s[0] == c {
        assert Split(s, c) == [""] + rest;
        assert Join(Split(s, c), [c]) == "" + [c] + Join(rest, [c]);
      } else {
        if |rest| == 1 {
          assert Split(s, c) == [[s[0]] + rest[0]];
        } else {
          assert Split(s, c) == [[s[0]] + rest[0]] + rest[1..];
          assert Join(rest, [c]) == rest[0] + [c] + Join(rest[1..], [c]);
        }
      }
    }
  }

  /** A piece without the separator, followed by the separator, is split off as one piece. */
  lemma {:induction false} SplitAfterPiece(a: string, b: string, c: char)
    requires c !in a
    ensures Split(a + [c] + b, c) == [a] + Split(b, c)
  {
    if |a| == 0 {
      assert a + [c] + b == [c] + b;
      assert ([c] + b)[1..] == b;
    } else {
      assert (a + [c] + b)[1..] == a[1..] + [c] + b;
      SplitAfterPiece(a[1..], b, c);
      assert [a[0]] + a[1..] == a;
    }
  }

  /** A string without the separator is one piece. */
  lemma {:induction false} SplitWithout(s: string, c: char)
    requires c !in s
    ensures Split(s, c) == [s]
  {
    if |s| > 0 {
      SplitWithout(s[1..], c);
      assert [s[0]] + s[1..] == s;
    }
  }

  /** Joining pieces that do not contain the separator and splitting again gives back the pieces. */
  lemma {:induction false} SplitJoin(parts: seq<string>, c: char)
    requires |parts| >= 1
    requires forall i :: 0 <= i < |parts| ==> c !in parts[i]
    ensures Split(Join(parts, [c]), c) == parts
  {
    if |parts| == 1 {
      SplitWithout(parts[0], c);
    } else {
      SplitJoin(parts[1..], c);
      SplitAfterPiece(parts[0], Join(parts[1..], [c]), c);
      assert [parts[0]] + parts[1..] == parts;
    }
  }

  /**
   * Splitting a concatenation whose first part has no separator: that part is glued to
   * the first piece of the second part, and every other piece is kept.
   */
  lemma {:induction false} SplitGlued(a: string, b: string, c: char)
    requires c !in a
    ensures var sb := Split(b, c); Split(a + b, c) == [a + sb[0]] + sb[1..]
  {
    var sb := Split(b, c);
    if |a| == 0 {
      assert a + b == b;
      assert a + sb[0] == sb[0];
      assert sb == [sb[0]] + sb[1..];
    } else {
      assert (a + b)[1..] == a[1..] + b;
      SplitGlued(a[1..], b, c);
      assert [a[0]] + (a[1..] + sb[0]) == a + sb[0];
    }
  }

  /**
   * Splitting a concatenation: the last piece of the first part is glued to the first piece
   * of the second part, and every other piece of either part is kept.
   */
  lemma {:induction false} SplitConcat(a: string, b: string, c: char)
    ensures var sa := Split(a, c); var sb := Split(b, c);
      Split(a + b, c) == sa[..|sa| - 1] + [sa[|sa| - 1] + sb[0]] + sb[1..]
  {
    var sa, sb := Split(a, c), Split(b, c);
    if |a| == 0 {
      assert a + b == b && sa == [""];
      assert sa[|sa| - 1] + sb[0] == sb[0];
      assert sb == [sb[0]] + sb[1..];
    } else {
      var t := a[1..];
      var ra, rest := Split(t, c), Split(t + b, c);
      assert a == [a[0]] + t && a + b == [a[0]] + (t + b);
      SplitCons(a[0], t, c);
      SplitCons(a[0], t + b, c);
      SplitConcat(t, b, c);
      if a[0] == c {
        SplitConcatSep(sa, ra, sb);
      } else {
        SplitConcatChar(a[0], sa, ra, sb, rest);
      }
    }
  }

  /** Splitting a string that starts with `x`. */
  lemma SplitCons(x: char, s: string, c: char)
    ensures var r := Split(s, c);
      Split([x] + s, c) == if x == c then [""] + r else [[x] + r[0]] + r[1..]
  {
    assert ([x] + s)[1..] == s;
  }

  lemma SplitConcatSep(sa: seq<string>, ra: seq<string>, sb: seq<string>)
    requires |ra| >= 1 && |sb| >= 1 && sa == [""] + ra
    ensures [""] + (ra[..|ra| - 1] + [ra[|ra| - 1] + sb[0]] + sb[1..]) == sa[..|sa| - 1] + [sa[|sa| - 1] + sb[0]] + sb[1..]
  {
    assert sa[..|sa| - 1] == [""] + ra[..|ra| - 1];
  }

  lemma SplitConcatChar(x: char, sa: seq<string>, ra: seq<string>, sb: seq<string>, rest: seq<string>)
    requires |ra| >= 1 && |sb| >= 1 && sa == [[x] + ra[0]] + ra[1..]
    requires rest == ra[..|ra| - 1] + [ra[|ra| - 1] + sb[0]] + sb[1..]
    ensures [[x] + rest[0]] + rest[1..] == sa[..|sa| - 1] + [sa[|sa| - 1] + sb[0]] + sb[1..]
  {
    var m := |ra|;
    if m == 1 {
      assert rest[0] == ra[0] + sb[0] && rest[1..] == sb[1..];
      assert [x] + (ra[0] + sb[0]) == ([x] + ra[0]) + sb[0];
    } else {
      assert rest[0] == ra[0] && rest[1..] == ra[1..m - 1] + [ra[m - 1] + sb[0]] + sb[1..];
      assert sa[..|sa| - 1] == [[x] + ra[0]] + ra[1..m - 1];
    }
  }

  /** The number of pieces is one more than the number of separators. */
  lemma {:induction false} SplitCount(s: string, c: char)
    ensures |Split(s, c)| == Count(s, c) + 1
  {
    if |s| > 0 {
      SplitCount(s[1..], c);
    }
  }

  /** Without the separator the count is zero. */
  lemma {:induction false} CountWithout(s: string, c: char)
    requires c !in s
    ensures Count(s, c) == 0
  {
    if |s| > 0 {
      CountWithout(s[1..], c);
    }
  }

  /** Occurrences add up over a concatenation. */
  lemma {:induction false} CountConcat(a: string, b: string, c: char)
    ensures Count(a + b, c) == Count(a, c) + Count(b, c)
  {
    if |a| == 0 {
      assert a + b == b;
    } else {
      assert (a + b)[1..] == a[1..] + b;
      CountConcat(a[1..], b, c);
    }
  }

  // ---------------------------------------------------------------- search

  /** `pat` occurs in `s` at index `j`. */
  predicate OccursAt(s: string, pat: string, j: int)
  {
    0 <= j && j + |pat| <= |s| && s[j..j + |pat|] == pat
  }

  /** `s.indexOf(pat)`: the first index where `pat` occurs, or -1. */
  function IndexOf(s: string, pat: string): (r: int)
    ensures r == -1 || OccursAt(s, pat, r)
    ensures r == -1 ==> forall j :: 0 <= j ==> !OccursAt(s, pat, j)
    ensures r >= 0 ==> forall j :: 0 <= j < r ==> !OccursAt(s, pat, j)
  {
    if |s| < |pat| then -1
    else if s[..|pat|] == pat then 0
    else
      var k := IndexOf(s[1..], pat);
      assert forall j :: 1 <= j ==> (OccursAt(s, pat, j) <==> OccursAt(s[1..], pat, j - 1)) by {
        forall j | 1 <= j
          ensures OccursAt(s, pat, j) <==> OccursAt(s[1..], pat, j - 1)
        {
          if j + |pat| <= |s| {
            assert s[1..][j - 1..j - 1 + |pat|] == s[j..j + |pat|];
          }
        }
      }
      if k == -1 then -1 else k + 1
  }

  /** `pat` occurs somewhere in `s` (a regular expression made of plain characters, `.test`). */
  predicate Contains(s: string, pat: string)
  {
    IndexOf(s, pat) >= 0
  }

  /** `s.replace(pat, rep)` with a plain pattern: only the first occurrence is replaced. */
  function ReplaceFirst(s: string, pat: string, rep: string): string
  {
    var i := IndexOf(s, pat);
    if i < 0 then s else s[..i] + rep + s[i + |pat|..]
  }

  /** `s.startsWith(p)`. */
  predicate StartsWith(s: string, p: string)
  {
    |p| <= |s| && s[..|p|] == p
  }

  /** A string contains its prefixes. */
  lemma StartsWithConcat(a: string, b: string)
    ensures StartsWith(a + b, a)
  {
    assert (a + b)[..|a|] == a;
  }

  /** A prefix of a prefix is a prefix. */
  lemma StartsWithTransitive(s: string, t: string, p: string)
    requires StartsWith(s, t) && StartsWith(t, p)
    ensures StartsWith(s, p)
  {
    assert s[..|p|] == s[..|t|][..|p|];
  }

  lemma PrefixContained(s: string, p: string)
    requires StartsWith(s, p)
    ensures Contains(s, p) && IndexOf(s, p) == 0
  {
    assert OccursAt(s, p, 0);
  }

  // ---------------------------------------------------------------- trim

  /** The characters `String.prototype.trim` removes: white space and line terminators. */
  predicate IsWhiteSpace(ch: char)
  {
    ch == '\t' || ch == '\n' || ch == '\U{000B}' || ch == '\U{000C}' || ch == '\r' || ch == ' '
    || ch == '\U{00A0}' || ch == '\U{1680}' || ('\U{2000}' <= ch <= '\U{200A}')
    || ch == '\U{2028}' || ch == '\U{2029}' || ch == '\U{202F}' || ch == '\U{205F}'
    || ch == '\U{3000}' || ch == '\U{FEFF}'
  }

  /** Drops leading white space: the result is a suffix of `s` after white space only. */
  function TrimStart(s: string): (r: string)
    ensures |r| <= |s| && r == s[|s| - |r|..]
    ensures forall i :: 0 <= i < |s| - |r| ==> IsWhiteSpace(s[i])
    ensures |r| > 0 ==> !IsWhiteSpace(r[0])
  {
    if |s| > 0 && IsWhiteSpace(s[0]) then TrimStart(s[1..]) else s
  }

  /** Drops trailing white space: the result is a prefix of `s` followed by white space only. */
  function TrimEnd(s: string): (r: string)
    ensures |r| <= |s| && r == s[..|r|]
    ensures forall i :: |r| <= i < |s| ==> IsWhiteSpace(s[i])
    ensures |r| > 0 ==> !IsWhiteSpace(r[|r| - 1])
  {
    if |s| > 0 && IsWhiteSpace(s[|s| - 1]) then TrimEnd(s[..|s| - 1]) else s
  }

  /** `r` is the slice of `s` that starts at index `i`. */
  predicate SliceAt(s: string, r: string, i: int)
  {
    0 <= i <= |s| - |r| && r == s[i..i + |r|]
  }

  /** `s.trim()`: the longest slice of `s` that neither starts nor ends with white space. */
  function Trim(s: string): (r: string)
    ensures exists i :: SliceAt(s, r, i)
    ensures |r| > 0 ==> !IsWhiteSpace(r[0]) && !IsWhiteSpace(r[|r| - 1])
  {
    var t := TrimStart(s);
    var r := TrimEnd(t);
    assert r == s[|s| - |t|..|s| - |t| + |r|];
    assert SliceAt(s, r, |s| - |t|);
    r
  }

  /** A character absent from `s` is absent from its trimmed form. */
  lemma TrimWithout(s: string, ch: char)
    requires ch !in s
    ensures ch !in Trim(s)
  {
  }

  // ---------------------------------------------------------------- case

  /** `toLowerCase` on one character of an identifier. */
  function LowerChar(ch: char): char
  {
    if 'A' <= ch <= 'Z' then (ch as int + 32) as char else ch
  }

  /** `s.toLowerCase() === s`: `s` has no upper-case letter. */
  predicate IsLowerCase(s: string)
  {
    forall i :: 0 <= i < |s| ==> LowerChar(s[i]) == s[i]
  }

  // ---------------------------------------------------------------- numbers

  /** One decimal digit. */
  function DigitChar(d: nat): char
    requires d < 10
  {
    ('0' as int + d) as char
  }

  /** Whether `s` is made of decimal digits only. */
  predicate AllDigits(s: string)
  {
    forall i :: 0 <= i < |s| ==> '0' <= s[i] <= '9'
  }

  /** The decimal rendering of `n`, as template interpolation `${n}` produces it. */
  function NatToString(n: nat): (r: string)
    ensures |r| >= 1 && AllDigits(r)
  {
    if n < 10 then [DigitChar(n)] else NatToString(n / 10) + [DigitChar(n % 10)]
  }

  /** The value of a string of decimal digits. */
  function DigitsValue(s: string): nat
    requires AllDigits(s)
  {
    if |s| == 0 then 0 else 10 * DigitsValue(s[..|s| - 1]) + (s[|s| - 1] as int - '0' as int)
  }

  /**
   * Unary `+` on a string: white space around it is ignored, the empty string is 0,
   * a string of decimal digits is its value, and anything else is NaN (`None`).
   */
  function NumberOf(s: string): (r: Option<nat>)
  {
    var t := Trim(s);
    if AllDigits(t) then Some(DigitsValue(t)) else None
  }

  /** A string that neither starts nor ends with white space is its own trimmed form. */
  lemma TrimKeeps(s: string)
    requires |s| > 0 ==> !IsWhiteSpace(s[0]) && !IsWhiteSpace(s[|s| - 1])
    ensures Trim(s) == s
  {
  }

  /** Unary `+` on a rendered number gives the number back. */
  lemma NumberOfNatToString(n: nat)
    ensures NumberOf(NatToString(n)) == Some(n)
  {
    var r := NatToString(n);
    TrimKeeps(r);
    DigitsValueOfNatToString(n);
  }

  /** Reading back a rendered number gives the number. */
  lemma {:induction false} DigitsValueOfNatToString(n: nat)
    ensures DigitsValue(NatToString(n)) == n
  {
    if n >= 10 {
      DigitsValueOfNatToString(n / 10);
      var r := NatToString(n);
      assert r[..|r| - 1] == NatToString(n / 10);
    }
  }
}
