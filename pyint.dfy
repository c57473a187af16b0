/**
 * Python's `int(text)` for a string argument in base 10, as the device
 * prompt in main.py uses it: surrounding whitespace is ignored, one optional
 * sign is allowed, and the digits may be grouped by single underscores.
 * Anything else raises ValueError, which is `None` here.
 */
module PyInt {
  import opened Wrappers

  predicate IsDigit(c: char) {
    '0' <= c <= '9'
  }

  /**
   * The characters `int()` skips around a number: the ASCII space and tab to
   * carriage return, and the non-ASCII Unicode whitespace, which `int()`
   * turns into spaces first. U+001C to U+001F are not among them.
   */
  predicate IsSpace(c: char) {
    c == ' ' || '\t' <= c <= '\r'
    || c == '\U{85}' || c == '\U{A0}' || c == '\U{1680}'
    || '\U{2000}' <= c <= '\U{200A}' || c == '\U{2028}' || c == '\U{2029}'
    || c == '\U{202F}' || c == '\U{205F}' || c == '\U{3000}'
  }

  /** `s` without its leading whitespace. */
  function StripLeading(s: string): (r: string)
    ensures |r| <= |s| && r == s[|s| - |r|..]
    ensures forall k :: 0 <= k < |s| - |r| ==> IsSpace(s[k])
    ensures |r| > 0 ==> !IsSpace(r[0])
  {
    if |s| > 0 && IsSpace(s[0]) then
      var r := StripLeading(s[1..]);
      assert forall k :: 1 <= k < |s| - |r| ==> s[k] == s[1..][k - 1];
      r
    else s
  }

  /** `s` without its trailing whitespace. */
  function StripTrailing(s: string): (r: string)
    ensures |r| <= |s| && r == s[..|r|]
    ensures forall k :: |r| <= k < |s| ==> IsSpace(s[k])
    ensures |r| > 0 ==> !IsSpace(r[|r| - 1])
  {
    if |s| > 0 && IsSpace(s[|s| - 1]) then
      var r := StripTrailing(s[..|s| - 1]);
      assert forall k :: |r| <= k < |s| - 1 ==> s[k] == s[..|s| - 1][k];
      r
    else s
  }

  /**
   * A digit string in Python's integer-literal grammar: it starts and ends
   * with a digit, and every underscore is followed by a digit.
   */
  predicate WellFormedDigits(t: string) {
    && |t| > 0 && IsDigit(t[0]) && IsDigit(t[|t| - 1])
    && (forall k :: 0 <= k < |t| ==> IsDigit(t[k]) || t[k] == '_')
    && (forall k :: 0 <= k < |t| - 1 ==> t[k] == '_' ==> IsDigit(t[k + 1]))
  }

  function DigitValue(c: char): nat
    requires IsDigit(c)
  {
    c as int - '0' as int
  }

  /** The decimal value of a digit string, underscores skipped. */
  function DigitsValue(t: string): nat
    requires forall k :: 0 <= k < |t| ==> IsDigit(t[k]) || t[k] == '_'
  {
    if |t| == 0 then 0
    else if t[|t| - 1] == '_' then DigitsValue(t[..|t| - 1])
    else DigitsValue(t[..|t| - 1]) * 10 + DigitValue(t[|t| - 1])
  }

  /**
   * The default of `sys.get_int_max_str_digits()`: `int()` of a decimal
   * string with more digits than this raises ValueError.
   */
  const MaxStrDigits := 4300

  /** The number of digits in a digit string: its characters other than underscores. */
  function DigitCount(t: string): nat {
    if |t| == 0 then 0
    else DigitCount(t[..|t| - 1]) + (if t[|t| - 1] == '_' then 0 else 1)
  }

  function Abs(n: int): nat {
    if n < 0 then -n else n
  }

  /** `int(s)`: the integer `s` denotes, or `None` where Python raises ValueError. */
  function ParseInt(s: string): Option<int> {
    ParseTrimmed(StripTrailing(StripLeading(s)))
  }

  /** A well-formed digit string within the digit limit, or `None`. */
  function ParseDigits(t: string): Option<nat> {
    if WellFormedDigits(t) && DigitCount(t) <= MaxStrDigits then Some(DigitsValue(t)) else None
  }

  /** An optional sign followed by a digit string `ParseDigits` accepts. */
  function ParseTrimmed(t: string): Option<int> {
    if |t| > 0 && (t[0] == '+' || t[0] == '-') then
      match ParseDigits(t[1..])
      case Some(v) => Some(if t[0] == '-' then -(v as int) else v)
      case None => None
    else ParseDigits(t)
  }

  function DigitChar(d: nat): (c: char)
    requires d < 10
    ensures IsDigit(c) && DigitValue(c) == d
  {
    ('0' as int + d) as char
  }

  /** Python's `str(n)` for a non-negative integer. */
  function NatToString(n: nat): (s: string)
    ensures |s| > 0
    ensures forall k :: 0 <= k < |s| ==> IsDigit(s[k])
  {
    if n < 10 then [DigitChar(n)] else NatToString(n / 10) + [DigitChar(n % 10)]
  }

  /** Python's `str(n)`: an optional minus sign, then the decimal digits. */
  function IntToString(n: int): string {
    if n < 0 then "-" + NatToString(-n) else NatToString(n)
  }

  lemma {:induction false} NatToStringValue(n: nat)
    ensures DigitsValue(NatToString(n)) == n
  {
    var s := NatToString(n);
    if n >= 10 {
      NatToStringValue(n / 10);
      assert s[..|s| - 1] == NatToString(n / 10);
    }
  }

  lemma {:induction false} StripLeadingPast(pre: string, x: string)
    requires forall k :: 0 <= k < |pre| ==> IsSpace(pre[k])
    requires |x| > 0 && !IsSpace(x[0])
    ensures StripLeading(pre + x) == x
  {
    if |pre| > 0 {
      assert (pre + x)[1..] == pre[1..] + x;
      StripLeadingPast(pre[1..], x);
    }
  }

  lemma {:induction false} StripTrailingPast(x: string, post: string)
    requires forall k :: 0 <= k < |post| ==> IsSpace(post[k])
    requires |x| > 0 && !IsSpace(x[|x| - 1])
    ensures StripTrailing(x + post) == x
  {
    if |post| > 0 {
      assert (x + post)[..|x + post| - 1] == x + post[..|post| - 1];
      StripTrailingPast(x, post[..|post| - 1]);
    }
  }

  lemma NatToStringWellFormed(m: nat)
    ensures WellFormedDigits(NatToString(m))
    ensures !IsSpace(NatToString(m)[0]) && !IsSpace(NatToString(m)[|NatToString(m)| - 1])
  {
    var d := NatToString(m);
    assert IsDigit(d[0]) && IsDigit(d[|d| - 1]);
  }

  /** In a string of digits alone, every character counts toward the limit. */
  lemma {:induction false} DigitCountOfDigits(t: string)
    requires forall k :: 0 <= k < |t| ==> IsDigit(t[k])
    ensures DigitCount(t) == |t|
  {
    if |t| > 0 {
      DigitCountOfDigits(t[..|t| - 1]);
    }
  }

  /** `int(str(n)) == n` up to the digit limit, before any whitespace is added. */
  lemma {:induction false} ParseTrimmedOfIntToString(n: int)
    ensures ParseTrimmed(IntToString(n)) == (if |NatToString(Abs(n))| <= MaxStrDigits then Some(n) else None)
  {
    var m: nat := Abs(n);
    var digits := NatToString(m);
    NatToStringWellFormed(m);
    NatToStringValue(m);
    DigitCountOfDigits(digits);
    if n < 0 {
      var x := "-" + digits;
      assert x[1..] == digits;
    }
  }

  /**
   * Whatever whitespace surrounds it, the decimal text of `n` reads back
   * as `n` when it has at most `MaxStrDigits` digits, and is rejected
   * when it has more: `int(str(n))` is the identity up to the limit.
   */
  lemma {:induction false} ParseIntOfIntToString(pre: string, n: int, post: string)
    requires forall k :: 0 <= k < |pre| ==> IsSpace(pre[k])
    requires forall k :: 0 <= k < |post| ==> IsSpace(post[k])
    ensures ParseInt(pre + IntToString(n) + post)
            == (if |NatToString(Abs(n))| <= MaxStrDigits then Some(n) else None)
  {
    var x := IntToString(n);
    assert |x| > 0 && !IsSpace(x[0]) && !IsSpace(x[|x| - 1]) by {
      NatToStringWellFormed(Abs(n));
    }
    assert pre + x + post == pre + (x + post);
    StripLeadingPast(pre, x + post);
    StripTrailingPast(x, post);
    ParseTrimmedOfIntToString(n);
  }

  /**
   * An information separator (U+001C to U+001F) is not skipped: a string
   * that starts with one is never a number.
   */
  lemma {:induction false} SeparatorIsNotSpace(c: char, s: string)
    requires '\U{1C}' <= c <= '\U{1F}'
    ensures ParseInt([c] + s) == None
  {
    var l := [c] + s;
    assert !IsSpace(c) && l[0] == c;
    assert StripLeading(l) == l;
    var t := StripTrailing(l);
    if |t| > 0 {
      assert t[0] == c && !IsDigit(c) && c != '+' && c != '-';
      assert !WellFormedDigits(t);
      assert ParseDigits(t) == None;
    }
  }

  /** A run of more than `MaxStrDigits` digits is rejected, leading zeros included. */
  lemma {:induction false} ParseIntRejectsLongDigitStrings(t: string)
    requires forall k :: 0 <= k < |t| ==> IsDigit(t[k])
    requires |t| > MaxStrDigits
    ensures ParseInt(t) == None
  {
    assert StripLeading(t) == t;
    assert StripTrailing(t) == t;
    DigitCountOfDigits(t);
  }

  /** A string holding no digit at all is never a number. */
  lemma {:induction false} ParseIntNeedsADigit(s: string)
    requires forall k :: 0 <= k < |s| ==> !IsDigit(s[k])
    ensures ParseInt(s) == None
  {
    var l := StripLeading(s);
    var t := StripTrailing(l);
    assert forall k :: 0 <= k < |t| ==> t[k] == s[|s| - |l| + k];
    assert !WellFormedDigits(t) && ParseDigits(t) == None;
    if |t| > 0 {
      assert !WellFormedDigits(t[1..]) by {
        assert |t[1..]| == 0 || t[1..][0] == t[1];
      }
      assert ParseDigits(t[1..]) == None;
    }
  }
}
