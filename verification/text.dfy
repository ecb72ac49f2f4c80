/**
 * The few pieces of Python's text handling the session layer relies on:
 * `str(n)` of an integer, `int(s)` of a string, the regular expression
 * `\s*(\d+)` anchored at the start, and `str.split` / `str.join` on one
 * separator character.
 */
module Text {
  import opened Common

  predicate IsDigit(c: char) { '0' <= c <= '9' }

  function DigitValue(c: char): nat
    requires IsDigit(c)
  {
    (c as int) - ('0' as int)
  }

  function DigitChar(d: nat): (c: char)
    requires d < 10
    ensures IsDigit(c) && DigitValue(c) == d
  {
    (('0' as int) + d) as char
  }

  /** Python's `str.isspace`, used alike by `str.strip` (inside `int`) and by `\s` in `re`. */
  predicate IsSpace(c: char) {
    var n := c as int;
    n == 0x20 || 0x09 <= n <= 0x0D || 0x1C <= n <= 0x1F || n == 0x85 || n == 0xA0
    || n == 0x1680 || 0x2000 <= n <= 0x200A || n == 0x2028 || n == 0x2029
    || n == 0x202F || n == 0x205F || n == 0x3000
  }

  predicate AllDigits(s: string) {
    forall i :: 0 <= i < |s| ==> IsDigit(s[i])
  }

  /** The number written by a string of decimal digits (most significant first). */
  function DigitsValue(s: string): nat
    requires AllDigits(s)
  {
    if |s| == 0 then 0 else 10 * DigitsValue(s[..|s| - 1]) + DigitValue(s[|s| - 1])
  }

  /** Python's `str(n)` for a non-negative integer. */
  function NatToString(n: nat): string
  {
    if n < 10 then [DigitChar(n)] else NatToString(n / 10) + [DigitChar(n % 10)]
  }

  /** Python's `str(n)` for any integer. */
  function IntToString(n: int): string
  {
    if n < 0 then "-" + NatToString(-n) else NatToString(n)
  }

  lemma {:induction false} NatToStringDigits(n: nat)
    ensures |NatToString(n)| > 0 && AllDigits(NatToString(n))
    ensures DigitsValue(NatToString(n)) == n
  {
    var s := NatToString(n);
    if n >= 10 {
      NatToStringDigits(n / 10);
      assert s[..|s| - 1] == NatToString(n / 10);
    }
  }

  // ---------------------------------------------------------------- int(s)

  function LStrip(s: string): (r: string)
    ensures |r| <= |s|
  {
    if |s| > 0 && IsSpace(s[0]) then LStrip(s[1..]) else s
  }

  function RStrip(s: string): (r: string)
    ensures |r| <= |s|
  {
    if |s| > 0 && IsSpace(s[|s| - 1]) then RStrip(s[..|s| - 1]) else s
  }

  /** Python's `str.strip()` with no argument. */
  function Strip(s: string): string
  {
    RStrip(LStrip(s))
  }

  /** Digits in groups separated by single underscores, as Python's `int` accepts them. */
  predicate IsGroupedDigits(s: string) {
    && |s| > 0
    && IsDigit(s[0])
    && IsDigit(s[|s| - 1])
    && (forall i :: 0 <= i < |s| ==> IsDigit(s[i]) || s[i] == '_')
    && (forall i :: 0 <= i < |s| - 1 && s[i] == '_' ==> IsDigit(s[i + 1]))
  }

  function WithoutUnderscores(s: string): (r: string)
    requires forall i :: 0 <= i < |s| ==> IsDigit(s[i]) || s[i] == '_'
    ensures AllDigits(r)
  {
    if |s| == 0 then []
    else if s[0] == '_' then WithoutUnderscores(s[1..])
    else [s[0]] + WithoutUnderscores(s[1..])
  }

  function GroupedDigitsValue(s: string): Option<nat>
  {
    if IsGroupedDigits(s) then Some(DigitsValue(WithoutUnderscores(s))) else None
  }

  /**
   * Python's `int(s)` on a string in base 10, for ASCII digits: surrounding
   * white space is stripped, one optional sign, then digit groups; anything
   * else makes `int` raise (the `None` result).
   */
  function ParseInt(s: string): Option<int>
  {
    var t := Strip(s);
    var signed := |t| > 0 && (t[0] == '-' || t[0] == '+');
    var v := GroupedDigitsValue(if signed then t[1..] else t);
    if v.None? then None
    else if signed && t[0] == '-' then Some(-(v.value as int))
    else Some(v.value as int)
  }

  lemma {:induction false} WithoutUnderscoresOfDigits(s: string)
    requires AllDigits(s)
    ensures WithoutUnderscores(s) == s
  {
    if |s| > 0 {
      WithoutUnderscoresOfDigits(s[1..]);
    }
  }

  lemma StripOfTrimmed(t: string)
    requires |t| > 0 && !IsSpace(t[0]) && !IsSpace(t[|t| - 1])
    ensures Strip(t) == t
  {
  }

  lemma GroupedDigitsOfNumber(m: nat)
    ensures GroupedDigitsValue(NatToString(m)) == Some(m)
  {
    var d := NatToString(m);
    NatToStringDigits(m);
    WithoutUnderscoresOfDigits(d);
    assert IsGroupedDigits(d);
  }

  lemma ParseIntOfDigits(d: string, m: nat)
    requires |d| > 0 && AllDigits(d) && GroupedDigitsValue(d) == Some(m)
    ensures ParseInt(d) == Some(m as int)
    ensures ParseInt("-" + d) == Some(-(m as int))
  {
    StripOfTrimmed(d);
    var t := "-" + d;
    assert t[|t| - 1] == d[|d| - 1];
    StripOfTrimmed(t);
    assert t[1..] == d;
  }

  /** `int(str(n)) == n`: the string form of an integer parses back to it. */
  lemma ParseIntOfIntToString(n: int)
    ensures ParseInt(IntToString(n)) == Some(n)
  {
    var m: nat := if n < 0 then -n else n;
    NatToStringDigits(m);
    GroupedDigitsOfNumber(m);
    ParseIntOfDigits(NatToString(m), m);
  }

  // ---------------------------------------------------- re.match(r"\s*(\d+)")

  /** The longest prefix of `s` made of decimal digits. */
  function DigitRun(s: string): (r: string)
    ensures AllDigits(r) && r <= s
  {
    if |s| > 0 && IsDigit(s[0]) then [s[0]] + DigitRun(s[1..]) else []
  }

  /**
   * `re.match(r"\s*(\d+)", s)` followed by `int` of the group: the number
   * written by the digits that follow leading white space, or `None` when
   * no digit comes first.
   */
  function LeadingDigits(s: string): Option<nat>
  {
    var run := DigitRun(LStrip(s));
    if |run| == 0 then None else Some(DigitsValue(run))
  }

  lemma {:induction false} LStripOfPadding(pad: string, s: string)
    requires forall i :: 0 <= i < |pad| ==> IsSpace(pad[i])
    requires |s| > 0 && !IsSpace(s[0])
    ensures LStrip(pad + s) == s
  {
    if |pad| > 0 {
      assert (pad + s)[1..] == pad[1..] + s;
      LStripOfPadding(pad[1..], s);
    }
  }

  lemma {:induction false} DigitRunOfDigits(d: string, rest: string)
    requires AllDigits(d)
    requires rest == [] || !IsDigit(rest[0])
    ensures DigitRun(d + rest) == d
  {
    if |d| > 0 {
      assert (d + rest)[1..] == d[1..] + rest;
      DigitRunOfDigits(d[1..], rest);
    }
  }

  /** The text `pad + str(n) + rest` yields `n` when `rest` does not continue the number. */
  lemma LeadingDigitsOfNumber(pad: string, n: nat, rest: string)
    requires forall i :: 0 <= i < |pad| ==> IsSpace(pad[i])
    requires rest == [] || !IsDigit(rest[0])
    ensures LeadingDigits(pad + NatToString(n) + rest) == Some(n)
  {
    var d := NatToString(n);
    NatToStringDigits(n);
    assert pad + d + rest == pad + (d + rest);
    LStripOfPadding(pad, d + rest);
    DigitRunOfDigits(d, rest);
  }

  // ------------------------------------------------------ split and join

  /** Python's `s.split(sep)` for a one-character separator. */
  function Split(s: string, sep: char): (parts: seq<string>)
    ensures |parts| >= 1
  {
    if |s| == 0 then [""]
    else
      var rest := Split(s[1..], sep);
      if s[0] == sep then [""] + rest else [[s[0]] + rest[0]] + rest[1..]
  }

  /** Python's `sep.join(parts)`. */
  function Join(parts: seq<string>, sep: char): string
    requires |parts| >= 1
  {
    if |parts| == 1 then parts[0] else parts[0] + [sep] + Join(parts[1..], sep)
  }

  lemma {:induction false} JoinSplit(s: string, sep: char)
    ensures Join(Split(s, sep), sep) == s
  {
    if |s| > 0 {
      JoinSplit(s[1..], sep);
      var rest := Split(s[1..], sep);
      if s[0] != sep {
        var parts := Split(s, sep);
        if |rest| > 1 {
          assert parts[1..] == rest[1..];
        }
      }
    }
  }

  lemma {:induction false} SplitWithoutSeparator(s: string, sep: char)
    requires sep !in s
    ensures Split(s, sep) == [s]
  {
    if |s| > 0 {
      assert sep !in s[1..] by {
        forall i | 0 <= i < |s[1..]| ensures s[1..][i] != sep { assert s[1..][i] == s[i + 1]; }
      }
      SplitWithoutSeparator(s[1..], sep);
      assert [s[0]] + s[1..] == s;
    }
  }

  lemma {:induction false} SplitAround(a: string, b: string, sep: char)
    ensures Split(a + [sep] + b, sep) == Split(a, sep) + Split(b, sep)
  {
    if |a| == 0 {
      assert a + [sep] + b == [sep] + b;
      assert ([sep] + b)[1..] == b;
    } else {
      assert (a + [sep] + b)[1..] == a[1..] + [sep] + b;
      SplitAround(a[1..], b, sep);
    }
  }

  lemma DigitsHaveNoSlash(n: int)
    ensures '/' !in IntToString(n)
  {
    var m: nat := if n < 0 then -n else n;
    NatToStringDigits(m);
    assert forall i :: 0 <= i < |IntToString(n)| ==> IntToString(n)[i] != '/';
  }
}
