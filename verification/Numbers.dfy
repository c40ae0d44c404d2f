/** Numbers as text: the digit loop of `intToCharArray`, and `atoi` (section 7.22.1.2 of
    ISO/IEC 9899:2011). */
module Numbers {

  predicate IsDigit(c: char) { '0' <= c <= '9' }

  function DigitChar(d: int): (c: char)
    requires 0 <= d < 10
    ensures IsDigit(c) && DigitValue(c) == d
  {
    '0' + d as char
  }

  function DigitValue(c: char): int { c as int - '0' as int }

  /** C's division and remainder truncate toward zero. */
  function CDiv(a: int, b: int): int
    requires b > 0
  {
    if a >= 0 then a / b else -((-a) / b)
  }

  function CMod(a: int, b: int): int
    requires b > 0
  {
    a - b * CDiv(a, b)
  }

  function Abs(n: int): nat { if n < 0 then -n else n }

  /** What the loop appends, least significant digit first; a negative remainder matches no case
      of the switch and appends nothing. */
  function LoopDigits(n: int): string
    decreases Abs(n)
  {
    if n == 0 then "" else (if CMod(n, 10) >= 0 then [DigitChar(CMod(n, 10))] else "") + LoopDigits(CDiv(n, 10))
  }

  function Reversed(s: string): (r: string)
    ensures |r| == |s|
  {
    if s == "" then "" else Reversed(s[1..]) + [s[0]]
  }

  /** What `intToCharArray` leaves in its buffer. */
  function Printed(n: int): string { Reversed(LoopDigits(n)) }

  /** The decimal numeral, most significant digit first. */
  function Decimal(n: nat): string {
    if n < 10 then [DigitChar(n)] else Decimal(n / 10) + [DigitChar(n % 10)]
  }

  predicate IsSpace(c: char) { c == ' ' || '\t' <= c <= '\r' }

  function SkipSpace(s: string): string {
    if s != "" && IsSpace(s[0]) then SkipSpace(s[1..]) else s
  }

  function Digits(s: string, value: int): int {
    if s == "" || !IsDigit(s[0]) then value else Digits(s[1..], 10 * value + DigitValue(s[0]))
  }

  function Atoi(s: string): int {
    var t := SkipSpace(s);
    if t != "" && t[0] == '-' then -Digits(t[1..], 0)
    else if t != "" && t[0] == '+' then Digits(t[1..], 0)
    else Digits(t, 0)
  }

  ghost predicate AllDigits(s: string) { forall k :: 0 <= k < |s| ==> IsDigit(s[k]) }

  lemma {:induction false} DigitsAppend(s: string, d: char, value: int)
    requires AllDigits(s) && IsDigit(d)
    ensures Digits(s + [d], value) == 10 * Digits(s, value) + DigitValue(d)
  {
    if s != "" {
      assert (s + [d])[1..] == s[1..] + [d];
      DigitsAppend(s[1..], d, 10 * value + DigitValue(s[0]));
    }
  }

  /** The numeral has no leading zero and reads back as the number. */
  lemma {:induction false} DecimalReadsBack(n: nat)
    ensures Decimal(n) != "" && AllDigits(Decimal(n)) && Atoi(Decimal(n)) == Digits(Decimal(n), 0) == n
    ensures n > 0 ==> Decimal(n)[0] != '0'
  {
    if n >= 10 {
      DecimalReadsBack(n / 10);
      DigitsAppend(Decimal(n / 10), DigitChar(n % 10), 0);
    }
  }

  lemma {:induction false} PrintedIsDecimal(n: int)
    requires n > 0
    ensures Printed(n) == Decimal(n)
  {
    var d := [DigitChar(n % 10)];
    assert LoopDigits(n) == d + LoopDigits(n / 10);
    assert (d + LoopDigits(n / 10))[1..] == LoopDigits(n / 10);
    if n >= 10 {
      PrintedIsDecimal(n / 10);
    } else {
      assert Reversed(LoopDigits(0)) == "";
    }
  }

  /** A number that is not positive prints only the zeros among its digits: nothing for 0. */
  lemma {:induction false} PrintedZeros(n: int)
    requires n <= 0
    ensures forall k :: 0 <= k < |Printed(n)| ==> Printed(n)[k] == '0'
    ensures n == 0 ==> Printed(n) == ""
    decreases -n
  {
    if n < 0 {
      PrintedZeros(CDiv(n, 10));
      var rest := LoopDigits(CDiv(n, 10));
      assert CMod(n, 10) <= 0;
      if CMod(n, 10) == 0 { assert LoopDigits(n) == ['0'] + rest && (['0'] + rest)[1..] == rest && Printed(n) == Printed(CDiv(n, 10)) + ['0']; }
      else { assert LoopDigits(n) == "" + rest == rest && Printed(n) == Printed(CDiv(n, 10)); }
    }
  }

  lemma {:induction false} ZerosAreZero(s: string)
    requires forall k :: 0 <= k < |s| ==> s[k] == '0'
    ensures Digits(s, 0) == 0 && Atoi(s) == 0
  {
    if s != "" { ZerosAreZero(s[1..]); }
  }

  /** The number round trip, exactly: printing and `atoi` give back every number that is not
      negative, and no other; the positive ones print as their numeral with no leading zero. */
  lemma NumberRoundTripIff(n: int)
    ensures Atoi(Printed(n)) == n <==> n >= 0
    ensures n > 0 ==> Printed(n) == Decimal(n) && Printed(n) != "" && Printed(n)[0] != '0'
    ensures n <= 0 ==> Atoi(Printed(n)) == 0
    ensures n == 0 ==> Printed(n) == ""
    ensures AllDigits(Printed(n))
  {
    if n > 0 {
      PrintedIsDecimal(n);
      DecimalReadsBack(n);
    } else {
      PrintedZeros(n);
      ZerosAreZero(Printed(n));
    }
  }

  /** The zeros of a numeral. */
  function ZerosOf(s: string): string {
    if s == "" then "" else ZerosOf(s[..|s| - 1]) + if s[|s| - 1] == '0' then "0" else ""
  }

  /** Exactly what a negative number prints: the zeros of its numeral. */
  lemma {:induction false} NegativePrintsZeros(n: nat)
    requires n > 0
    ensures Printed(0 - n) == ZerosOf(Decimal(n))
  {
    var d := DigitChar(n % 10);
    var m: int := 0 - n;
    var rest := LoopDigits(0 - n / 10);
    assert CDiv(m, 10) == 0 - n / 10 && CMod(m, 10) == 0 - n % 10;
    assert (d == '0') <==> n % 10 == 0;
    var digit := if n % 10 == 0 then "0" else "";
    assert LoopDigits(m) == digit + rest;
    assert digit != "" ==> (digit + rest)[0] == '0' && (digit + rest)[1..] == rest;
    assert Printed(m) == Printed(0 - n / 10) + digit by { assert digit == "" ==> digit + rest == rest; }
    if n >= 10 {
      NegativePrintsZeros(n / 10);
      assert Decimal(n)[..|Decimal(n)| - 1] == Decimal(n / 10);
    } else {
      assert Decimal(n)[..0] == "" && Printed(0) == "";
    }
  }

  lemma {:induction false} DigitsStop(s: string, rest: string, value: int)
    requires AllDigits(s) && (rest != "" ==> !IsDigit(rest[0]))
    ensures Digits(s + rest, value) == Digits(s, value)
  {
    if s == "" {
      assert s + rest == rest;
    } else {
      assert (s + rest)[1..] == s[1..] + rest;
      DigitsStop(s[1..], rest, 10 * value + DigitValue(s[0]));
    }
  }

  lemma {:induction false} SpacesSkipped(spaces: string, s: string)
    requires (forall k :: 0 <= k < |spaces| ==> IsSpace(spaces[k])) && (s != "" ==> !IsSpace(s[0]))
    ensures SkipSpace(spaces + s) == s
  {
    if spaces == "" {
      assert spaces + s == s;
    } else {
      assert (spaces + s)[1..] == spaces[1..] + s;
      SpacesSkipped(spaces[1..], s);
    }
  }

  /** What `atoi` makes of a numeral with white space before it, perhaps a sign, and anything after it. */
  lemma AtoiMeans(spaces: string, n: nat, rest: string)
    requires forall k :: 0 <= k < |spaces| ==> spaces[k] in [' ', '\t', '\n', 11 as char, 12 as char, '\r']
    requires rest != "" ==> !('0' <= rest[0] <= '9')
    ensures Atoi(spaces + (Decimal(n) + rest)) == n && Atoi(spaces + ("+" + Decimal(n) + rest)) == n
    ensures Atoi(spaces + ("-" + Decimal(n) + rest)) == 0 - n
  {
    DecimalReadsBack(n);
    DigitsStop(Decimal(n), rest, 0);
    var s := Decimal(n) + rest;
    assert s[0] == Decimal(n)[0];
    SpacesSkipped(spaces, s);
    SpacesSkipped(spaces, "+" + Decimal(n) + rest);
    SpacesSkipped(spaces, "-" + Decimal(n) + rest);
    assert ("+" + Decimal(n) + rest)[1..] == s && ("-" + Decimal(n) + rest)[1..] == s;
  }

  /** Text that does not start like a number, after white space, is 0. */
  lemma AtoiOfOtherText(spaces: string, s: string)
    requires forall k :: 0 <= k < |spaces| ==> spaces[k] in [' ', '\t', '\n', 11 as char, 12 as char, '\r']
    requires s != "" ==> s[0] !in [' ', '\t', '\n', 11 as char, 12 as char, '\r', '+', '-'] && !('0' <= s[0] <= '9')
    ensures Atoi(spaces + s) == 0
  {
    SpacesSkipped(spaces, s);
  }

  /** What a numeral is: one digit, or the numeral of a tenth of the number and one digit more. */
  lemma DecimalMeans(n: nat, d: nat)
    requires d < 10
    ensures Decimal(d) == ["0123456789"[d]]
    ensures n > 0 ==> Decimal(10 * n + d) == Decimal(n) + ["0123456789"[d]]
  {
  }

  /** A 32-bit int prints in at most ten characters. */
  lemma IntFitsTen(n: int)
    requires -0x8000_0000 <= n < 0x8000_0000
    ensures |Printed(n)| <= 10
  {
    assert PowerOfTen(2) == 100 && PowerOfTen(4) == 10000 && PowerOfTen(6) == 1000000;
    assert PowerOfTen(8) == 100000000 && PowerOfTen(9) == 1000000000;
    LoopLength(n, 10, 0x8000_0000);
  }

  lemma {:induction false} LoopLength(n: int, digits: nat, bound: nat)
    requires Abs(n) <= bound && (digits == 0 ==> bound == 0) && (digits > 0 ==> bound < 10 * PowerOfTen(digits - 1))
    ensures |LoopDigits(n)| <= digits
    decreases digits
  {
    if n != 0 {
      var b := PowerOfTen(digits - 1) - 1;
      if digits > 1 { assert PowerOfTen(digits - 1) == 10 * PowerOfTen(digits - 2); }
      LoopLength(CDiv(n, 10), digits - 1, b);
    }
  }

  function PowerOfTen(k: nat): (p: nat)
    ensures p > 0
  {
    if k == 0 then 1 else 10 * PowerOfTen(k - 1)
  }

  /** The buffer holds the text followed by NUL characters, at least one. */
  ghost predicate HoldsText(buffer: seq<char>, text: string) {
    && |text| < |buffer|
    && (forall k :: 0 <= k < |text| ==> buffer[k] == text[k])
    && (forall k :: |text| <= k < |buffer| ==> buffer[k] == '\0')
  }

  method Strlen(s: array<char>, ghost text: string) returns (n: nat)
    requires HoldsText(s[..], text) && AllDigits(text)
    ensures n == |text|
  {
    n := 0;
    while s[n] != '\0'
      invariant n <= |text|
      decreases s.Length - n
    {
      n := n + 1;
    }
  }

  /** The switch loop: the digits in reverse. */
  method DigitLoop(change: int, result: array<char>)
    requires |LoopDigits(change)| < result.Length && HoldsText(result[..], "")
    modifies result
    ensures HoldsText(result[..], LoopDigits(change))
  {
    ghost var digits := LoopDigits(change);
    ghost var written := "";
    var temp, position := change, 0;
    while temp != 0
      invariant |written| == position && digits == written + LoopDigits(temp)
      invariant HoldsText(result[..], written)
      decreases Abs(temp)
    {
      if CMod(temp, 10) >= 0 {
        assert LoopDigits(temp) == [DigitChar(CMod(temp, 10))] + LoopDigits(CDiv(temp, 10));
        result[position] := DigitChar(CMod(temp, 10));
        position := position + 1;
        written := written + [DigitChar(CMod(temp, 10))];
      } else {
        assert LoopDigits(temp) == "" + LoopDigits(CDiv(temp, 10)) == LoopDigits(CDiv(temp, 10));
      }
      temp := CDiv(temp, 10);
    }
    assert digits == written;
  }

  method ReverseText(result: array<char>, ghost text: string)
    requires HoldsText(result[..], text) && AllDigits(text)
    modifies result
    ensures HoldsText(result[..], Reversed(text))
  {
    var length := Strlen(result, text);
    var rev := new char[length];
    ReversedAt(text);
    var pos := length - 1;
    for x := 0 to length
      invariant pos == length - 1 - x && HoldsText(result[..], text)
      invariant forall k :: 0 <= k < x ==> rev[k] == Reversed(text)[k]
    {
      rev[x] := result[pos];
      pos := pos - 1;
    }
    for x := 0 to length
      invariant forall k :: 0 <= k < length ==> rev[k] == Reversed(text)[k]
      invariant forall k :: 0 <= k < x ==> result[k] == Reversed(text)[k]
      invariant forall k :: length <= k < result.Length ==> result[k] == '\0'
    {
      result[x] := rev[x];
    }
  }

  /** The digit loop followed by the reversal, in a zeroed buffer. */
  method IntToCharArray(change: int, result: array<char>)
    requires |Printed(change)| < result.Length && HoldsText(result[..], "")
    modifies result
    ensures HoldsText(result[..], Printed(change))
  {
    DigitLoop(change, result);
    LoopDigitsAreDigits(change);
    ReverseText(result, LoopDigits(change));
  }

  lemma {:induction false} LoopDigitsAreDigits(n: int)
    ensures AllDigits(LoopDigits(n))
    decreases Abs(n)
  {
    if n != 0 { LoopDigitsAreDigits(CDiv(n, 10)); }
  }

  lemma {:induction false} ReversedAt(s: string)
    ensures forall k :: 0 <= k < |s| ==> Reversed(s)[k] == s[|s| - 1 - k]
  {
    if s != "" { ReversedAt(s[1..]); }
  }
}
