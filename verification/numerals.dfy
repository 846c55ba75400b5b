/** Python's `int(text)` on a `str` in base 10: surrounding whitespace
    (in the sense of `IsIntSpace`) is ignored, one optional sign is allowed, and the digits may be grouped
    with single underscores. `IntText` is the numeral `str(n)` that Python
    prints, and reading it back gives `n`. */
module Numerals {
  import opened Wrappers
  import opened Chars

  /** Every character is a digit or an underscore. */
  predicate DigitsOrUnderscores(s: string)
  {
    forall i :: 0 <= i < |s| ==> IsDigit(s[i]) || s[i] == '_'
  }

  /** Digits in groups separated by single underscores: what `int()`
      accepts after the sign. */
  predicate Grouped(s: string)
  {
    && |s| > 0 && IsDigit(s[0]) && IsDigit(s[|s| - 1])
    && DigitsOrUnderscores(s)
    && (forall i :: 0 <= i < |s| - 1 && s[i] == '_' ==> IsDigit(s[i + 1]))
  }

  /** The digits of `s` with its underscores dropped. */
  function Ungroup(s: string): (t: string)
    requires DigitsOrUnderscores(s)
    ensures AllDigits(t) && |t| <= |s|
    ensures AllDigits(s) ==> t == s
  {
    if s == [] then [] else (if s[0] == '_' then [] else [s[0]]) + Ungroup(s[1..])
  }

  /** The whitespace `int()` skips around a numeral. Characters below 127
      reach the numeral reader unchanged and only ASCII whitespace is
      skipped there, so the separator controls U+001C to U+001F, which
      `str.isspace` counts, are kept and rejected; every other whitespace
      character above 127 is turned into a space first and skipped. */
  predicate IsIntSpace(c: char)
  {
    IsSpace(c) && !('\U{1C}' <= c <= '\U{1F}')
  }

  /** The number of leading characters of `s` that `int()` skips. */
  function LeadingIntSpaces(s: string): (n: nat)
    ensures n <= |s|
    ensures forall i :: 0 <= i < n ==> IsIntSpace(s[i])
    ensures n == |s| || !IsIntSpace(s[n])
  {
    if s == [] || !IsIntSpace(s[0]) then 0 else 1 + LeadingIntSpaces(s[1..])
  }

  /** `s` without the trailing characters `int()` skips. */
  function TrimIntEnd(s: string): (t: string)
    ensures |t| <= |s| && t == s[..|t|]
    ensures t == [] || !IsIntSpace(t[|t| - 1])
    ensures forall i :: |t| <= i < |s| ==> IsIntSpace(s[i])
  {
    if s == [] || !IsIntSpace(s[|s| - 1]) then s else TrimIntEnd(s[..|s| - 1])
  }

  /** The text `int()` reads once the surrounding whitespace is skipped. */
  function StripInt(s: string): string
  {
    TrimIntEnd(s[LeadingIntSpaces(s)..])
  }

  /** A string that neither starts nor ends with skipped whitespace is its own strip. */
  lemma StripUnchanged(s: string)
    requires 0 < |s| && !IsIntSpace(s[0]) && !IsIntSpace(s[|s| - 1])
    ensures StripInt(s) == s
  {
    assert LeadingIntSpaces(s) == 0;
    assert s[0..] == s;
  }

  /** `int(s)`: `None` where Python raises `ValueError`. A string of decimal
      digits denotes its decimal value. */
  function ParseInt(s: string): (r: Option<int>)
    ensures 0 < |s| && AllDigits(s) ==> r == Some(DigitsValue(s))
    ensures s == [] ==> r.None?
  {
    if 0 < |s| && AllDigits(s) then
      StripUnchanged(s);
      assert Grouped(s);
      Some(DigitsValue(Ungroup(s)))
    else
      var t := StripInt(s);
      if 0 < |t| && (t[0] == '+' || t[0] == '-') then
        if Grouped(t[1..]) then
          var n: int := DigitsValue(Ungroup(t[1..]));
          Some(if t[0] == '-' then -n else n)
        else None
      else if Grouped(t) then Some(DigitsValue(Ungroup(t)))
      else None
  }

  /** `str(n)` for an integer. */
  function IntText(n: int): (s: string)
    ensures 0 < |s| && !IsSpace(s[0]) && IsDigit(s[|s| - 1])
    ensures n >= 0 ==> AllDigits(s)
  {
    if n < 0 then "-" + Decimal(-n) else Decimal(n)
  }

  /** `int(str(n)) == n`. */
  lemma ParseIntText(n: int)
    ensures ParseInt(IntText(n)) == Some(n)
  {
    if n < 0 {
      var s := IntText(n);
      StripUnchanged(s);
      assert s[1..] == Decimal(-n);
      assert Grouped(s[1..]);
    }
  }

  lemma {:induction false} LeadingIntSpacesPrefix(a: string, t: string)
    requires forall i :: 0 <= i < |a| ==> IsIntSpace(a[i])
    requires 0 < |t| && !IsIntSpace(t[0])
    ensures LeadingIntSpaces(a + t) == |a|
  {
    if a != [] {
      assert (a + t)[1..] == a[1..] + t;
      LeadingIntSpacesPrefix(a[1..], t);
    }
  }

  lemma {:induction false} TrimIntEndSuffix(t: string, b: string)
    requires forall i :: 0 <= i < |b| ==> IsIntSpace(b[i])
    requires 0 < |t| && !IsIntSpace(t[|t| - 1])
    ensures TrimIntEnd(t + b) == t
  {
    if b != [] {
      assert (t + b)[..|t + b| - 1] == t + b[..|b| - 1];
      TrimIntEndSuffix(t, b[..|b| - 1]);
    } else {
      assert t + b == t;
    }
  }

  /** `int()` reads only what is left once the surrounding whitespace is
      skipped. */
  lemma ParseIntStrips(s: string)
    ensures ParseInt(s) == ParseInt(StripInt(s))
  {
    var t := StripInt(s);
    if t != [] {
      StripUnchanged(t);
      if AllDigits(t) {
        assert Grouped(t);
      }
    }
    if 0 < |s| && AllDigits(s) {
      StripUnchanged(s);
    }
  }

  /** Whitespace that `int()` skips may surround the numeral:
      `int(a + str(n) + b) == n`. */
  lemma PaddedIntText(a: string, n: int, b: string)
    requires forall i :: 0 <= i < |a| ==> IsIntSpace(a[i])
    requires forall i :: 0 <= i < |b| ==> IsIntSpace(b[i])
    ensures ParseInt(a + IntText(n) + b) == Some(n)
  {
    var t := IntText(n);
    var s := a + t + b;
    assert s == a + (t + b);
    LeadingIntSpacesPrefix(a, t + b);
    assert s[|a|..] == t + b;
    TrimIntEndSuffix(t, b);
    assert StripInt(s) == t;
    ParseIntStrips(s);
    ParseIntText(n);
  }

  /** A separator control (U+001C to U+001F) before or after the numeral
      makes `int()` raise, though `str.isspace` holds for it. */
  lemma SeparatorControlRejected(c: char, t: string)
    requires '\U{1C}' <= c <= '\U{1F}'
    ensures ParseInt([c] + t).None?
    ensures ParseInt(t + [c]).None?
  {
    var s := [c] + t;
    assert !IsDigit(s[0]) && !IsIntSpace(s[0]);
    assert LeadingIntSpaces(s) == 0;
    assert s[0..] == s;
    var st := StripInt(s);
    assert 0 < |st| && st[0] == c;
    var e := t + [c];
    assert !IsDigit(e[|e| - 1]) && !IsIntSpace(e[|e| - 1]);
    var k := LeadingIntSpaces(e);
    if k < |e| {
      assert e[k..][|e[k..]| - 1] == c;
      assert TrimIntEnd(e[k..]) == e[k..];
      var et := StripInt(e);
      assert et[|et| - 1] == c;
    }
  }
}
