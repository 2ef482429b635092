/**
 This module models the one integer parser of Go's `strconv` package that the
 ingestion pipeline calls, `ParseInt(s, 10, 32)`, together with the decimal
 renderings used to state its round trips.
 */
module Strconv {
  import opened Wrappers

  const MinInt32: int := -0x8000_0000
  const MaxInt32: int := 0x7fff_ffff

  predicate IsDigit(c: char) {
    '0' <= c <= '9'
  }

  predicate IsDigits(s: string) {
    forall i :: 0 <= i < |s| ==> IsDigit(s[i])
  }

  function DigitValue(c: char): nat
    requires IsDigit(c)
  {
    c as int - '0' as int
  }

  function DigitChar(d: nat): (c: char)
    requires d < 10
    ensures IsDigit(c) && DigitValue(c) == d
  {
    ('0' as int + d) as char
  }

  function Pow10(n: nat): (p: nat)
    ensures p >= 1
  {
    if n == 0 then 1 else 10 * Pow10(n - 1)
  }

  /* The base-10 value of a string of digits, most significant first. */
  function DigitsValue(s: string): nat
    requires IsDigits(s)
    decreases |s|
  {
    if |s| == 0 then 0 else DigitsValue(s[..|s| - 1]) * 10 + DigitValue(s[|s| - 1])
  }

  /* A string of `n` digits denotes a value below 10^n. */
  lemma {:induction false} DigitsValueBound(s: string)
    requires IsDigits(s)
    ensures DigitsValue(s) < Pow10(|s|)
    decreases |s|
  {
    if |s| > 0 {
      DigitsValueBound(s[..|s| - 1]);
    }
  }

  /* Appending one digit to a shifted value distributes over the shift. */
  lemma ShiftDigit(x: int, p: int, y: int, d: int)
    ensures (x * p + y) * 10 + d == x * (10 * p) + (y * 10 + d)
  {
  }

  /* Digit strings are closed under concatenation. */
  lemma DigitsAppend(a: string, b: string)
    requires IsDigits(a) && IsDigits(b)
    ensures IsDigits(a + b)
  {
    forall i | 0 <= i < |a + b|
      ensures IsDigit((a + b)[i])
    {
      if i < |a| { assert (a + b)[i] == a[i]; } else { assert (a + b)[i] == b[i - |a|]; }
    }
  }

  /* The value of a concatenation of digit strings: the left part is shifted
  by the length of the right part. */
  lemma {:induction false} DigitsValueAppend(a: string, b: string)
    requires IsDigits(a) && IsDigits(b)
    ensures IsDigits(a + b)
    ensures DigitsValue(a + b) == DigitsValue(a) * Pow10(|b|) + DigitsValue(b)
    decreases |b|
  {
    DigitsAppend(a, b);
    if |b| == 0 {
      assert a + b == a;
    } else {
      var b' := b[..|b| - 1];
      var d := DigitValue(b[|b| - 1]);
      DigitsUnfoldLast(a, b);
      DigitsValueAppend(a, b');
      ShiftDigit(DigitsValue(a), Pow10(|b'|), DigitsValue(b'), d);
    }
  }

  /* Peeling the last digit off `a + b` peels it off `b`. */
  lemma DigitsUnfoldLast(a: string, b: string)
    requires IsDigits(a) && IsDigits(b) && |b| > 0
    ensures IsDigits(b[..|b| - 1])
    ensures DigitsValue(a + b) == DigitsValue(a + b[..|b| - 1]) * 10 + DigitValue(b[|b| - 1])
    ensures DigitsValue(b) == DigitsValue(b[..|b| - 1]) * 10 + DigitValue(b[|b| - 1])
    ensures Pow10(|b|) == 10 * Pow10(|b| - 1)
  {
    DigitsAppend(a, b);
    assert (a + b)[..|a + b| - 1] == a + b[..|b| - 1];
    assert (a + b)[|a + b| - 1] == b[|b| - 1];
  }

  /* The syntax `ParseInt` accepts, character by character: a digit or a sign
  in front, and only digits after it, with at least one digit in all. */
  predicate SignedDigits(s: string) {
    && |s| >= 1
    && (IsDigit(s[0]) || (|s| >= 2 && (s[0] == '+' || s[0] == '-')))
    && (forall i :: 1 <= i < |s| ==> IsDigit(s[i]))
  }

  /* The value a string of that syntax denotes, sign included. */
  function SignedValue(s: string): int
    requires SignedDigits(s)
  {
    assert IsDigits(s[1..]) by {
      forall i | 0 <= i < |s[1..]| ensures IsDigit(s[1..][i]) {
        assert s[1..][i] == s[i + 1];
      }
    }
    if s[0] == '-' then -(DigitsValue(s[1..]) as int)
    else if s[0] == '+' then DigitsValue(s[1..])
    else DigitsValue(s)
  }

  /*
   Go's `strconv.ParseInt(s, 10, 32)`: an optional '+' or '-' sign followed by
   at least one decimal digit and nothing else (no spaces, no underscores,
   leading zeros allowed); the value must fit in a signed 32-bit integer.
   None stands for the non-nil error (syntax or range).
   */
  function ParseInt32(s: string): (r: Option<int>)
    ensures r.Some? ==> MinInt32 <= r.value <= MaxInt32
    ensures |s| == 0 || s == "+" || s == "-" ==> r.None?
    ensures IsDigits(s) && |s| >= 1 && DigitsValue(s) <= MaxInt32 ==> r == Some(DigitsValue(s))
    ensures IsDigits(s) && DigitsValue(s) > MaxInt32 ==> r.None?
    ensures r.Some? <==> SignedDigits(s) && MinInt32 <= SignedValue(s) <= MaxInt32
    ensures r.Some? ==> r.value == SignedValue(s)
  {
    if |s| == 0 then None
    else
      var neg := s[0] == '-';
      var body := if s[0] == '+' || s[0] == '-' then s[1..] else s;
      if |body| == 0 || !IsDigits(body) then None
      else
        var v: int := if neg then -(DigitsValue(body) as int) else DigitsValue(body);
        if MinInt32 <= v <= MaxInt32 then Some(v) else None
  }

  /* Text that is not a sign plus digits is a syntax error: a letter, a
  space, a decimal point or a digit separator anywhere rejects the whole. */
  lemma ParseInt32RejectsSyntax()
    ensures ParseInt32("12a").None? && ParseInt32(" 7").None?
    ensures ParseInt32("1.5").None? && ParseInt32("1_000").None?
  {
    assert !IsDigit('a') && !IsDigit(' ') && !IsDigit('.') && !IsDigit('_');
    assert "12a"[2] == 'a' && " 7"[0] == ' ' && "1.5"[1] == '.' && "1_000"[1] == '_';
  }

  /* A sign is read and leading zeros are allowed. */
  lemma ParseInt32Signed()
    ensures ParseInt32("+7") == Some(7) && ParseInt32("-007") == Some(-7)
  {
    assert "+7"[1..] == "7" && "-007"[1..] == "007";
    assert "007"[..2] == "00" && "00"[..1] == "0";
    assert DigitsValue("007") == 7;
  }

  /* A '+' in front of digits is read and changes nothing. */
  lemma ParsePlus(d: string)
    requires IsDigits(d) && |d| >= 1 && DigitsValue(d) <= MaxInt32
    ensures ParseInt32("+" + d) == Some(DigitsValue(d))
  {
    assert ("+" + d)[1..] == d;
  }

  /* Go's `strconv.Itoa` for a non-negative value: digits without leading zeros. */
  function FormatNat(n: nat): (r: string)
    ensures |r| >= 1 && IsDigits(r)
    ensures DigitsValue(r) == n
    ensures r[0] == '0' ==> n == 0
    decreases n
  {
    if n < 10 then [DigitChar(n)]
    else
      var prefix := FormatNat(n / 10);
      var r := prefix + [DigitChar(n % 10)];
      assert r[..|r| - 1] == prefix;
      r
  }

  /* Go's `strconv.Itoa`. */
  function FormatInt(n: int): string {
    if n < 0 then "-" + FormatNat(-n) else FormatNat(n)
  }

  /* ParseInt32 reads back every 32-bit value Itoa renders. */
  lemma ParseFormatInt(n: int)
    requires MinInt32 <= n <= MaxInt32
    ensures ParseInt32(FormatInt(n)) == Some(n)
  {
    if n < 0 {
      var s := FormatInt(n);
      assert s[1..] == FormatNat(-n);
    }
  }

  /* `n` rendered with exactly `width` digits, zero-padded on the left, as
  Go's `fmt.Sprintf("%0*d", width, n)` does for values that fit. */
  function PadNat(n: nat, width: nat): (r: string)
    requires n < Pow10(width)
    ensures |r| == width && IsDigits(r)
    ensures DigitsValue(r) == n
    decreases width
  {
    if width == 0 then ""
    else
      var prefix := PadNat(n / 10, width - 1);
      var r := prefix + [DigitChar(n % 10)];
      assert r[..|r| - 1] == prefix;
      r
  }
}
