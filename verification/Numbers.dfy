/** Printing and parsing integers: power sums in 32-bit arithmetic. */
module Numbers {
  import opened Arithmetic
  import opened Outcomes
  import Text

  const INT_MAX: int := 0x7FFF_FFFF
  const INT_MIN: int := -0x8000_0000
  const UINT_LIMIT: int := 0x1_0000_0000

  predicate IsInt32(x: int) {
    INT_MIN <= x <= INT_MAX
  }

  // ---------------------------------------------------------------- characters

  /** Is c a numeral of a system with that base? */
  predicate CharIsNum(c: char, base: nat) {
    if base == 0 || base > 16 then false
    else if 'a' as int <= c as int <= 'a' as int + (base - 10) - 1 || 'A' as int <= c as int <= 'A' as int + (base - 10) - 1 then true
    else '0' as int <= c as int <= '0' as int + base - 1 && c <= '9'
  }

  function CharToNum(c: char): nat {
    if '0' <= c <= '9' then c as int - '0' as int
    else if 'a' <= c <= 'z' then c as int - 'a' as int + 10
    else if 'A' <= c <= 'Z' then c as int - 'A' as int + 10
    else 0
  }

  /** The character is eight bits wide; above base 169 it wraps. */
  function DigitChar(digit: nat): char {
    if digit < 10 then (digit + 48) as char else ((digit - 10 + 97) % 256) as char
  }

  /** A numeral stands for a digit of its system. */
  lemma NumeralsAreDigits(c: char, base: nat)
    requires CharIsNum(c, base)
    ensures CharToNum(c) < base
  {
  }

  lemma DigitCharIsNum(digit: nat, base: nat)
    requires digit < base <= 16
    ensures CharIsNum(DigitChar(digit), base) && CharToNum(DigitChar(digit)) == digit
    ensures DigitChar(digit) == '0' <==> digit == 0
    ensures DigitChar(digit) != Text.NUL && DigitChar(digit) != '-'
  {
  }

  // ---------------------------------------------------------------- powers

  function Power(base: nat, exp: nat): nat {
    if exp == 0 then 1 else Power(base, exp - 1) * base
  }

  lemma {:induction false} PowerGrows(base: nat, j: nat, k: nat)
    requires base >= 1 && j <= k
    ensures 1 <= Power(base, j) <= Power(base, k)
    decreases k
  {
    if j < k {
      PowerGrows(base, j, k - 1);
      assert Power(base, k - 1) * base >= Power(base, k - 1);
    } else if j > 0 {
      PowerGrows(base, j - 1, j - 1);
      assert Power(base, j - 1) * base >= 1;
    }
  }

  function SignedPower(base: int, exp: nat): int {
    if base >= 0 then Power(base, exp) else if exp % 2 == 0 then Power(-base, exp) else 0 - Power(-base, exp)
  }

  lemma SignedPowerIsProduct(base: int, exp: nat)
    ensures SignedPower(base, 0) == 1 && SignedPower(base, exp + 1) == SignedPower(base, exp) * base
  {
    if base < 0 {
      assert Power(-base, exp + 1) == Power(-base, exp) * -base;
      assert (0 - Power(-base, exp)) * base == Power(-base, exp) * -base;
    }
  }

  /** Once a power is out of range, the higher ones are. */
  lemma OverflowStays(base: int, j: nat, k: nat)
    requires j <= k && !IsInt32(SignedPower(base, j))
    ensures !IsInt32(SignedPower(base, k))
  {
    var m := if base < 0 then -base else base;
    if j < k {
      if m == 0 {
        ZeroPower(j);
      } else if m == 1 {
        OnePower(j);
      } else {
        PowerGrows(m, j + 1, k);
        MulMonotone(Power(m, j), 2, m);
      }
    }
  }

  lemma {:induction false} OnePower(exp: nat)
    ensures Power(1, exp) == 1
  {
    if exp > 0 {
      OnePower(exp - 1);
    }
  }

  lemma ZeroPower(exp: nat)
    ensures Power(0, exp) == if exp == 0 then 1 else 0
  {
  }

  /** None when a product leaves the range of int. */
  method Pow(base: int, exp: int) returns (r: Option<int>)
    requires IsInt32(base)
    ensures exp >= 0 ==> r == if IsInt32(SignedPower(base, exp)) then Some(SignedPower(base, exp)) else None
    ensures exp < 0 ==> r == Some(base)
  {
    hide SignedPower;
    SignedPowerIsProduct(base, 0);
    if exp == 0 {
      return Some(1);
    }
    if exp == 1 {
      return Some(base);
    }
    var result := base;
    var e := exp;
    ghost var done := 1;
    while e > 1
      invariant done >= 1 && result == SignedPower(base, done) && IsInt32(result)
      invariant exp > 0 ==> done + e == exp + 1 && 1 <= done <= exp
      invariant exp <= 0 ==> done == 1 && e == exp
      decreases e
    {
      e := e - 1;
      SignedPowerIsProduct(base, done);
      if !IsInt32(result * base) {
        OverflowStays(base, done + 1, exp);
        return None;
      }
      result := result * base;
      done := done + 1;
    }
    return Some(result);
  }

  // ---------------------------------------------------------------- printing

  /** The digits of i, most significant first. */
  function Digits(i: nat, base: nat): (s: seq<char>)
    requires 2 <= base <= 255
    ensures |s| >= 1
    decreases i
  {
    if i < base then [DigitChar(i)] else Digits(Quotient(i, base), base) + [DigitChar(Mod(i, base))]
  }

  function IntText(i: int): seq<char> {
    if i < 0 then ['-'] + Digits(-i, 10) else Digits(i, 10)
  }

  lemma TwoRemainders(i: nat, p: nat, base: nat, q: nat, r: nat, d: nat, m: nat)
    requires i == p * q + r && r < p
    requires q == base * d + m && m < base
    ensures i == (p * base) * d + (p * m + r) && 0 <= p * m + r < p * base
  {
    assert p * (base * d) == (p * base) * d;
    assert p * (base * d + m) == p * (base * d) + p * m;
    MulMonotone(p, m, base - 1);
    assert p * (base - 1) == p * base - p;
  }

  lemma DivDiv(i: nat, p: nat, base: nat)
    requires p >= 1 && base >= 1
    ensures p * base >= 1 && i / p / base == i / (p * base)
  {
    var q, r := i / p, i % p;
    var d, m := q / base, q % base;
    TwoRemainders(i, p, base, q, r, d, m);
    DivIs(i, p * base, d, p * m + r);
  }

  lemma PowerOf(base: nat, exp: nat)
    ensures Power(base, exp) == if exp == 0 then 1 else Power(base, exp - 1) * base
  {
  }

  lemma DigitsOf(i: nat, base: nat)
    requires 2 <= base <= 255
    ensures i < base ==> Digits(i, base) == [DigitChar(i)]
    ensures i >= base ==> Quotient(i, base) >= 1 && Digits(i, base) == Digits(Quotient(i, base), base) + [DigitChar(Mod(i, base))]
    ensures Digits(i, base)[|Digits(i, base)| - 1] == DigitChar(Mod(i, base))
  {
    if i >= base {
      DivIsPositive(i, base);
    } else {
      DivIs(i, base, 0, i);
    }
  }

  lemma DivIsPositive(i: nat, n: nat)
    requires 1 <= n <= i
    ensures i / n >= 1
  {
  }

  /** Dropping the k least significant digits is dividing by a power. */
  lemma {:induction false} DigitsOfQuotient(i: nat, base: nat, k: nat)
    requires 2 <= base <= 255 && k < |Digits(i, base)|
    ensures Power(base, k) >= 1
    ensures Digits(Quotient(i, Power(base, k)), base) == Digits(i, base)[..|Digits(i, base)| - k]
    ensures k >= 1 ==> Quotient(i, Power(base, k)) >= 1
    decreases k
  {
    hide Digits, Power, DigitChar;
    PowerGrows(base, 0, k);
    PowerOf(base, k);
    if k == 0 {
      assert Quotient(i, 1) == i;
    } else {
      DigitsOfQuotient(i, base, k - 1);
      DivDiv(i, Power(base, k - 1), base);
      DigitsOf(Quotient(i, Power(base, k - 1)), base);
    }
  }

  lemma DigitAt(i: nat, base: nat, k: nat)
    requires 2 <= base <= 255 && k < |Digits(i, base)|
    ensures Power(base, k) >= 1
    ensures Digits(i, base)[|Digits(i, base)| - 1 - k] == DigitChar(Mod(Quotient(i, Power(base, k)), base))
    ensures k >= 1 ==> Power(base, k) <= i
  {
    hide Digits, Power, DigitChar;
    DigitsOfQuotient(i, base, k);
    DigitsOf(Quotient(i, Power(base, k)), base);
    if k >= 1 {
      QuotientBound(i, Power(base, k));
    }
  }

  lemma QuotientBound(i: nat, p: nat)
    requires p >= 1 && i / p >= 1
    ensures p <= i
  {
    MulMonotone(p, 1, i / p);
  }

  /** Division of naturals: less than what is divided, and 0 below the divisor. */
  function Quotient(i: nat, n: nat): (q: nat)
    requires n >= 1
    ensures q == i / n && q <= i && (i < n ==> q == 0) && (n >= 2 && i >= 1 ==> q < i)
  {
    QuotientFacts(i, n);
    i / n
  }

  lemma QuotientFacts(i: nat, n: nat)
    requires n >= 1
    ensures i / n <= i && (i < n ==> i / n == 0) && (n >= 2 && i >= 1 ==> i / n < i)
  {
    var q := i / n;
    assert i == n * q + i % n;
    MulMonotone(q, 1, n);
    if n >= 2 {
      MulMonotone(q, 2, n);
    }
    if i < n {
      DivIs(i, n, 0, i);
    }
  }

  /** The exponent of the leading digit. */
  method LeadingExponent(i: nat, base: nat) returns (exp: int)
    requires 2 <= base <= 255
    ensures exp == |Digits(i, base)| - 1
  {
    hide Digits, DigitChar;
    DigitsOf(i, base);
    var b := Quotient(i, base);
    exp := 0;
    while b > 0
      invariant exp >= 0 && |Digits(i, base)| == exp + 1 + (if b == 0 then 0 else |Digits(b, base)|)
      decreases b
    {
      DigitsOf(b, base);
      b := Quotient(b, base);
      exp := exp + 1;
    }
  }

  /** One digit; None when its power leaves the range of int. */
  method DigitOf(i: nat, base: nat, exp: nat) returns (c: Option<char>)
    requires 2 <= base <= 255 && exp < |Digits(i, base)|
    ensures c == if Power(base, exp) <= INT_MAX then Some(Digits(i, base)[|Digits(i, base)| - 1 - exp]) else None
  {
    hide Digits, Power, DigitChar;
    DigitAt(i, base, exp);
    var p := Pow(base, exp);
    if p.None? {
      return None;
    }
    return Some(DigitChar(Mod(Quotient(i, p.value), base)));
  }

  /** The number of characters; None when a power leaves the range of int. */
  method UInt2Str(i: nat, s: array<char>, at: nat, base: nat) returns (length: Option<nat>)
    requires i < UINT_LIMIT && 2 <= base <= 255
    requires at + |Digits(i, base)| <= s.Length
    modifies s
    ensures length.Some? <==> Power(base, |Digits(i, base)| - 1) <= INT_MAX
    ensures length.Some? ==>
      && length.value == |Digits(i, base)|
      && s[..] == old(s[..at]) + Digits(i, base) + old(s[at + length.value..])
  {
    hide Digits, Power, DigitChar;
    ghost var text := Digits(i, base);
    var exp := LeadingExponent(i, base);
    var n := 0;
    while exp >= 0
      invariant -1 <= exp && n == |text| - 1 - exp
      invariant n > 0 ==> Power(base, |text| - 1) <= INT_MAX
      invariant s[..] == old(s[..at]) + text[..n] + old(s[at + n..])
    {
      PowerGrows(base, exp, |text| - 1);
      var c := DigitOf(i, base, exp);
      if c.None? {
        return None;
      }
      s[at + n] := c.value;
      n := n + 1;
      exp := exp - 1;
    }
    assert text[..n] == text;
    return Some(n);
  }

  method Int2Str(i: int, s: array<char>) returns (length: Option<nat>)
    requires IsInt32(i) && |IntText(i)| <= s.Length
    modifies s
    ensures length.Some? <==> i != INT_MIN
    ensures length.Some? ==> length.value == |IntText(i)| && s[..] == IntText(i) + old(s[length.value..])
  {
    hide Digits, Power;
    if i < 0 {
      s[0] := '-';
      if i == INT_MIN {
        return None;
      }
      ghost var signed := s[..];
      PowersFit(-i, 10);
      length := UInt2Str(-i, s, 1, 10);
      assert signed[..1] == ['-'] && signed[1 + length.value..] == old(s[1 + length.value..]);
      return Some(length.value + 1);
    }
    PowersFit(i, 10);
    length := UInt2Str(i, s, 0, 10);
    assert old(s[..0]) + Digits(i, 10) == Digits(i, 10);
  }

  /** For a number in the range of int no power overflows, whatever the base. */
  lemma PowersFit(i: nat, base: nat)
    requires 2 <= base <= 255 && i <= INT_MAX
    ensures Power(base, |Digits(i, base)| - 1) <= INT_MAX
  {
    DigitAt(i, base, |Digits(i, base)| - 1);
  }

  // ---------------------------------------------------------------- parsing

  /** The value of a row of numerals. */
  function Value(ds: seq<char>, base: nat): nat {
    if ds == [] then 0 else Value(ds[..|ds| - 1], base) * base + CharToNum(ds[|ds| - 1])
  }

  predicate Numerals(ds: seq<char>, base: nat) {
    forall k :: 0 <= k < |ds| ==> CharIsNum(ds[k], base)
  }

  /** Base, length of what comes before the numerals, and sign. */
  function Shape(text: seq<char>): (nat, nat, bool)
    requires text != []
  {
    if |text| >= 2 && text[0] == '0' && text[1] == 'x' then (16, 2, false)
    else if |text| >= 2 && text[0] == '0' && text[1] == 'b' then (2, 2, false)
    else if text[0] == '-' then (10, 1, true)
    else (10, 0, false)
  }

  /** The text is the numeral of v, and neither its value nor its leading power is out of range. */
  predicate Denotes(text: seq<char>, v: int) {
    && text != []
    && var (base, offset, negative) := Shape(text);
       var ds := text[offset..];
       && ds != [] && Numerals(ds, base)
       && Power(base, |ds| - 1) <= INT_MAX && Value(ds, base) <= INT_MAX
       && v == Signed(Value(ds, base), negative)
  }

  function Signed(n: int, negative: bool): int {
    if negative then -n else n
  }

  predicate Malformed(text: seq<char>) {
    || text == []
    || var (base, offset, _) := Shape(text); text[offset..] == [] || !Numerals(text[offset..], base)
  }

  /** Signed overflow has no meaning in C. */
  datatype Parsed = Parsed(value: int, err: bool) | Undefined

  /** What the k most significant digits contribute. */
  function Partial(ds: seq<char>, base: nat, k: nat): nat
    requires k <= |ds|
  {
    Value(ds[..k], base) * Power(base, |ds| - k)
  }

  lemma NextPartial(ds: seq<char>, base: nat, k: nat)
    requires k < |ds|
    ensures Partial(ds, base, k + 1) == Partial(ds, base, k) + CharToNum(ds[k]) * Power(base, |ds| - 1 - k)
    ensures Partial(ds, base, k) <= Partial(ds, base, k + 1)
  {
    hide CharToNum;
    MulMonotone(Power(base, |ds| - 1 - k), 0, CharToNum(ds[k]));
    assert ds[..k + 1][..k] == ds[..k];
    var v, p := Value(ds[..k], base), Power(base, |ds| - 1 - k);
    assert Power(base, |ds| - k) == p * base;
    Regroup(v, base, CharToNum(ds[k]), p);
  }

  lemma WholePartial(ds: seq<char>, base: nat)
    ensures Partial(ds, base, |ds|) == Value(ds, base)
  {
    assert ds[..|ds|] == ds;
  }

  lemma {:induction false} PartialsGrow(ds: seq<char>, base: nat, k: nat)
    requires k <= |ds|
    ensures Partial(ds, base, k) <= Value(ds, base)
    decreases |ds| - k
  {
    hide Partial, Value;
    if k == |ds| {
      WholePartial(ds, base);
    } else {
      NextPartial(ds, base, k);
      PartialsGrow(ds, base, k + 1);
    }
  }

  method ReadPrefix(s: seq<char>) returns (base: nat, offset: nat, negative: bool)
    requires s != []
    ensures (base, offset, negative) == Shape(s)
  {
    var prefixBuffer := new char[3](_ => Text.NUL);
    if |s| >= 2 {
      Text.StrPrefix(s, 2, prefixBuffer);
      TwoCharacters(s);
    }
    assert prefixBuffer[..][2] == Text.NUL;
    var hex := Text.StrCmp(prefixBuffer[..], "0x\0");
    var binary := Text.StrCmp(prefixBuffer[..], "0b\0");
    if hex == 0 {
      return 16, 2, false;
    } else if binary == 0 {
      return 2, 2, false;
    } else if s[0] == '-' {
      return 10, 1, true;
    }
    return 10, 0, false;
  }

  lemma TwoCharacters(s: seq<char>)
    requires |s| >= 2
    ensures Text.Prefix(s, 2) == if s[0] == Text.NUL then [] else if s[1] == Text.NUL then [s[0]] else [s[0], s[1]]
  {
    if s[0] != Text.NUL {
      Text.PrefixIs(s, 2, if s[1] == Text.NUL then 1 else 2);
    } else {
      Text.PrefixIs(s, 2, 0);
    }
  }

  lemma NoPartial(ds: seq<char>, base: nat)
    ensures Partial(ds, base, 0) == 0
  {
  }

  /** The loop over the numerals; None for a character that is not one. */
  method SumOfNumerals(ds: seq<char>, base: nat) returns (r: Option<Parsed>)
    requires ds != [] && 2 <= base <= 16
    ensures !Numerals(ds, base) ==> r == None || r == Some(Undefined)
    ensures Numerals(ds, base) ==>
      r == Some(if Power(base, |ds| - 1) <= INT_MAX && Value(ds, base) <= INT_MAX then Parsed(Value(ds, base), false) else Undefined)
  {
    hide Power, Value, CharIsNum, Partial;
    var len := |ds|;
    var result := 0;
    NoPartial(ds, base);
    for i := 0 to len
      invariant Numerals(ds[..i], base)
      invariant result == Partial(ds, base, i) <= INT_MAX
      invariant i > 0 ==> Power(base, len - 1) <= INT_MAX
    {
      if !CharIsNum(ds[i], base) {
        return None;
      }
      PowerGrows(base, len - 1 - i, len - 1);
      NextPartial(ds, base, i);
      PartialsGrow(ds, base, i + 1);
      var p := Pow(base, len - 1 - i);
      if p.None? {
        return Some(Undefined);
      }
      var term := CharToNum(ds[i]) * p.value;
      if term > INT_MAX || result + term > INT_MAX {
        return Some(Undefined);
      }
      result := result + term;
    }
    WholePartial(ds, base);
    assert ds[..len] == ds;
    return Some(Parsed(result, false));
  }

  method Str2IntL(text: seq<char>) returns (r: Parsed)
    ensures Malformed(text) ==> r == Parsed(0, true) || r.Undefined?
    ensures forall v :: Denotes(text, v) ==> r == Parsed(v, false)
    ensures r.Parsed? && !r.err ==> Denotes(text, r.value)
  {
    hide Power, Value, Numerals;
    if text == [] {
      return Parsed(0, true);
    }
    var base, offset, negative := ReadPrefix(text);
    if |text| == offset {
      return Parsed(0, true);
    }
    var sum := SumOfNumerals(text[offset..], base);
    match sum
    case None => return Parsed(0, true);
    case Some(Undefined) => return Undefined;
    case Some(Parsed(result, _)) => return Parsed(Signed(result, negative), false);
  }

  // ---------------------------------------------------------------- there and back

  lemma ValueOfAppended(ds: seq<char>, c: char, base: nat)
    ensures Value(ds + [c], base) == Value(ds, base) * base + CharToNum(c)
  {
    assert (ds + [c])[..|ds|] == ds;
  }

  lemma {:induction false} DigitsHaveValue(i: nat, base: nat)
    requires 2 <= base <= 16
    ensures Numerals(Digits(i, base), base) && Value(Digits(i, base), base) == i
    ensures Digits(i, base)[0] == '0' ==> i == 0
    ensures Digits(i, base)[0] != '-'
    decreases i
  {
    hide Digits, DigitChar, Value, CharIsNum, CharToNum;
    DigitsOf(i, base);
    if i < base {
      DigitCharIsNum(i, base);
      ValueOfAppended([], DigitChar(i), base);
      assert Value([], base) == 0 by { NoDigitsNoValue(base); }
      assert [] + [DigitChar(i)] == [DigitChar(i)];
    } else {
      var q, r := Quotient(i, base), Mod(i, base);
      DigitsHaveValue(q, base);
      DigitCharIsNum(r, base);
      ValueOfAppended(Digits(q, base), DigitChar(r), base);
      assert q * base + r == i;
    }
  }

  lemma NoDigitsNoValue(base: nat)
    ensures Value([], base) == 0
  {
  }

  /** The text of an int is the numeral of it: no prefix is misread and nothing overflows. */
  lemma IntTextDenotes(i: int)
    requires -INT_MAX <= i <= INT_MAX
    ensures Denotes(IntText(i), i)
  {
    hide Digits, Power, Value, CharIsNum;
    var n := if i < 0 then -i else i;
    DigitsHaveValue(n, 10);
    PowersFit(n, 10);
    DigitsOf(n, 10);
    var text := IntText(i);
    assert text[Shape(text).1..] == Digits(n, 10);
  }

  /** The same for a hexadecimal or binary number behind its prefix. */
  lemma PrefixedTextDenotes(i: nat, base: nat)
    requires i <= INT_MAX && (base == 2 || base == 16)
    ensures Denotes((if base == 2 then "0b" else "0x") + Digits(i, base), i)
  {
    hide Digits, Power, Value, CharIsNum;
    DigitsHaveValue(i, base);
    PowersFit(i, base);
    var text := (if base == 2 then "0b" else "0x") + Digits(i, base);
    assert text[2..] == Digits(i, base);
  }

  /** Printing a number and parsing the text gives it back. */
  method PrintAndParse(i: int) returns (r: Parsed)
    requires -INT_MAX <= i <= INT_MAX
    ensures r == Parsed(i, false)
  {
    hide Digits, Denotes, Malformed;
    var buffer := new char[|IntText(i)|](_ => Text.NUL);
    var length := Int2Str(i, buffer);
    IntTextDenotes(i);
    assert buffer[..length.value] == IntText(i);
    r := Str2IntL(buffer[..length.value]);
  }
}
