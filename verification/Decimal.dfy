/** Numbers as decimal digits: the fixed-width fields that the client writes, and reading them back. */
module Decimal {
  import opened Prelude

  function Power10(width: nat): (p: nat)
    ensures p > 0
  {
    if width == 0 then 1 else 10 * Power10(width - 1)
  }

  function Digit(d: nat): char
    requires d < 10
  {
    ('0' as int + d) as char
  }

  predicate IsDigit(c: char) {
    '0' <= c <= '9'
  }

  // The last digits of the number, as many as the field is wide.
  function Field(number: nat, width: nat): (text: string)
    ensures |text| == width
  {
    if width == 0 then [] else Field(number / 10, width - 1) + [Digit(number % 10)]
  }

  // Reading digits from the left.
  function Value(text: string): nat
    requires forall c :: c in text ==> IsDigit(c)
  {
    if text == [] then 0
    else
      assert IsDigit(text[|text| - 1]);
      10 * Value(text[..|text| - 1]) + (text[|text| - 1] as int - '0' as int)
  }

  // Reading a field back gives the number, if it fits.
  lemma {:induction false} ValueOfField(number: nat, width: nat)
    requires number < Power10(width)
    ensures forall c :: c in Field(number, width) ==> IsDigit(c)
    ensures Value(Field(number, width)) == number
  {
    if width > 0 {
      ValueOfField(number / 10, width - 1);
      var text := Field(number, width);
      assert text[..width - 1] == Field(number / 10, width - 1);
    }
  }

  // And a field is the only text of its width that reads as its number.
  lemma {:induction false} FieldOfValue(text: string)
    requires forall c :: c in text ==> IsDigit(c)
    ensures Value(text) < Power10(|text|)
    ensures Field(Value(text), |text|) == text
  {
    if text != [] {
      var before := text[..|text| - 1];
      FieldOfValue(before);
      var d := text[|text| - 1] as int - '0' as int;
      assert IsDigit(text[|text| - 1]) && 0 <= d < 10;
      assert Value(text) / 10 == Value(before) && Value(text) % 10 == d;
      assert Digit(d) == text[|text| - 1];
    }
  }

  lemma TenTimes(n: nat, p: nat)
    requires p > 0
    ensures n / 10 / p == n / (10 * p)
  {
    var q, k, l := n / 10, n / 10 / p, n / 10 % p;
    assert q == k * p + l;
    assert k * (10 * p) == 10 * (k * p);
    QuotientIs(n, k, 10 * p);
  }

  // The digits of a field stand from the most significant one on.
  lemma {:induction false} FieldDigit(number: nat, width: nat, i: nat)
    requires i < width
    ensures Field(number, width)[i] == Digit(number / Power10(width - 1 - i) % 10)
  {
    if i < width - 1 {
      FieldDigit(number / 10, width - 1, i);
      TenTimes(number, Power10(width - 2 - i));
    } else {
      assert Power10(0) == 1;
    }
  }

  // -------- Writing a field --------

  // The digits of a number without leading zeros, the last one first.
  function Digits(number: nat): (digits: seq<nat>)
    ensures forall i :: 0 <= i < |digits| ==> digits[i] < 10
  {
    if number == 0 then [] else [number % 10] + Digits(number / 10)
  }

  lemma {:induction false} DigitsFit(number: nat, width: nat)
    ensures |Digits(number)| <= width <==> number < Power10(width)
    decreases width
  {
    if number > 0 && width > 0 {
      DigitsFit(number / 10, width - 1);
    }
  }

  lemma {:induction false} FieldOfDigits(number: nat, width: nat, i: nat)
    requires i < width
    ensures var k, digits := width - 1 - i, Digits(number);
      Field(number, width)[i] == Digit(if k < |digits| then digits[k] else 0)
  {
    if i < width - 1 {
      FieldOfDigits(number / 10, width - 1, i);
    }
  }

  // the first loop of utoa
  method CollectDigits(number: nat) returns (digits: seq<nat>)
    ensures digits == Digits(number)
  {
    digits := [];
    var rest: nat := number;
    while rest > 0
      invariant digits + Digits(rest) == Digits(number)
      decreases rest
    {
      assert digits + ([rest % 10] + Digits(rest / 10)) == digits + [rest % 10] + Digits(rest / 10);
      digits := digits + [rest % 10];
      rest := rest / 10;
    }
  }

  // utoa: fails where the source's assertion does.
  method Utoa(buffer: array<char>, length: nat, number: nat) returns (ok: bool)
    requires length <= buffer.Length && number < UINT_LIMIT
    modifies buffer
    ensures ok <==> number < Power10(length)
    ensures buffer[length..] == old(buffer[length..])
    ensures buffer[..length] == if ok then Field(number, length) else old(buffer[..length])
  {
    var digits := CollectDigits(number);
    DigitsFit(number, length);
    if length < |digits| {
      return false;
    }
    var i, j := |digits|, 0;
    while i < length
      invariant |digits| <= i <= length && j == i - |digits|
      invariant forall k :: 0 <= k < j ==> buffer[k] == '0'
      invariant buffer[length..] == old(buffer[length..])
    {
      buffer[j] := '0';
      i, j := i + 1, j + 1;
    }
    i, j := length - |digits|, |digits| - 1;
    while i < length
      invariant length - |digits| <= i <= length && j == length - 1 - i
      invariant forall k :: 0 <= k < length - |digits| ==> buffer[k] == '0'
      invariant forall k :: length - |digits| <= k < i ==> buffer[k] == Digit(digits[length - 1 - k])
      invariant buffer[length..] == old(buffer[length..])
    {
      buffer[i] := Digit(digits[j]);
      i, j := i + 1, j - 1;
    }
    forall k | 0 <= k < length
      ensures buffer[k] == Field(number, length)[k]
    {
      FieldOfDigits(number, length, k);
    }
    hide Field;
    assert buffer[..length] == Field(number, length);
    return true;
  }
}
