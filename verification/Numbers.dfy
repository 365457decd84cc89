/** The keys of the saved power list: std::to_string one way, strtoll with base ten the other. */
module Numbers {
  import opened StatsTypes

  const LLONG_MIN := -0x8000_0000_0000_0000
  const LLONG_MAX := 0x7fff_ffff_ffff_ffff

  predicate IsInt64(n: int) { LLONG_MIN <= n <= LLONG_MAX }

  predicate IsInt32(n: int) { -0x8000_0000 <= n <= 0x7fff_ffff }

  /** static_cast<int32_t> of a wider integer. */
  function ToInt32(n: int): (r: int)
    ensures IsInt32(r) && (n - r) % 0x1_0000_0000 == 0
    ensures IsInt32(n) ==> r == n
  {
    (n + 0x8000_0000) % 0x1_0000_0000 - 0x8000_0000
  }

  // ---- Characters ----

  /** isspace in the "C" locale: blank, \t, \n, vertical tab, form feed, \r. */
  predicate IsBlank(c: char) {
    c == ' ' || '\t' <= c <= '\r'
  }

  predicate IsDigit(c: char) {
    '0' <= c <= '9'
  }

  function DigitChar(d: nat): (c: char)
    requires d < 10
    ensures IsDigit(c) && c as int - '0' as int == d
  {
    '0' + d as char
  }

  predicate AllDigits(s: string) {
    forall i :: 0 <= i < |s| ==> IsDigit(s[i])
  }

  /** The number a string of digits stands for. */
  function Value(digits: string): (n: int)
    requires AllDigits(digits)
    ensures n >= 0
  {
    if digits == "" then 0
    else
      var last := digits[|digits| - 1];
      assert IsDigit(last);
      10 * Value(digits[..|digits| - 1]) + (last as int - '0' as int)
  }

  function TenTo(n: nat): nat { if n == 0 then 1 else 10 * TenTo(n - 1) }

  lemma MoreTens(d: int, n: nat)
    ensures d * TenTo(n + 1) == 10 * (d * TenTo(n))
  {}

  /** Read from the other end: a leading digit counts as many tens as digits follow it. */
  lemma {:induction false} LeadingDigit(c: char, rest: string)
    requires IsDigit(c) && AllDigits(rest)
    ensures AllDigits([c] + rest)
    ensures Value([c] + rest) == (c as int - '0' as int) * TenTo(|rest|) + Value(rest)
  {
    var s := [c] + rest;
    if rest == "" {
      assert s[..0] == "" && s[0] == c;
    } else {
      var front := rest[..|rest| - 1];
      LeadingDigit(c, front);
      assert s[..|s| - 1] == [c] + front && s[|s| - 1] == rest[|rest| - 1];
      MoreTens(c as int - '0' as int, |front|);
    }
  }

  // ---- The subject sequence of strtoll (ISO/IEC 9899:2018, 7.22.1.4) ----

  predicate IsSign(sign: string) { |sign| == 0 || (|sign| == 1 && (sign[0] == '+' || sign[0] == '-')) }

  predicate IsMinus(sign: string) { |sign| == 1 && sign[0] == '-' }

  /** A string taken apart: blanks, an optional sign, digits, and whatever follows them. */
  datatype Numeral = Numeral(blanks: string, sign: string, digits: string, rest: string) {
    function Text(): string { blanks + sign + digits + rest }

    ghost predicate Valid() {
      && (forall i :: 0 <= i < |blanks| ==> IsBlank(blanks[i]))
      && IsSign(sign)
      && digits != "" && AllDigits(digits)
      && (rest == "" || !IsDigit(rest[0]))
    }

    ghost function Amount(): int
      requires Valid()
    {
      if IsMinus(sign) then -Value(digits) else Value(digits)
    }
  }

  /** str reads as n. */
  ghost predicate Denotes(str: string, n: int) {
    exists num: Numeral :: num.Valid() && num.Text() == str && num.Amount() == n
  }

  /** What strtoll leaves: the clamped value, whether a number was found, and whether errno is ERANGE. */
  datatype Strtoll = Strtoll(value: int, found: bool, erange: bool)

  ghost predicate IsStrtoll(str: string, r: Strtoll) {
    if !r.found then r.value == 0 && !r.erange && forall n :: !Denotes(str, n)
    else exists n :: Denotes(str, n) && r.erange == !IsInt64(n)
                     && r.value == if n < LLONG_MIN then LLONG_MIN else if n > LLONG_MAX then LLONG_MAX else n
  }

  method StrtollBase10(str: string) returns (r: Strtoll)
    ensures IsStrtoll(str, r)
  {
    var i := 0;
    while i < |str| && IsBlank(str[i])
      invariant 0 <= i <= |str| && forall k :: 0 <= k < i ==> IsBlank(str[k])
    {
      i := i + 1;
    }
    var start := i;
    if start < |str| && (str[start] == '+' || str[start] == '-') {
      start := start + 1;
    }
    var value := 0;
    var end := start;
    while end < |str| && IsDigit(str[end])
      invariant start <= end <= |str| && AllDigits(str[start..end])
      invariant value == Value(str[start..end])
    {
      ValueStep(str, start, end);
      value := 10 * value + (str[end] as int - '0' as int);
      end := end + 1;
    }
    if end == start {
      NothingDenoted(str, i, start);
      return Strtoll(0, false, false);
    }
    var n := if i < start && str[i] == '-' then -value else value;
    ScannedDenotes(str, i, start, end);
    if n < LLONG_MIN {
      r := Strtoll(LLONG_MIN, true, true);
    } else if n > LLONG_MAX {
      r := Strtoll(LLONG_MAX, true, true);
    } else {
      r := Strtoll(n, true, false);
    }
  }

  lemma ValueStep(str: string, start: nat, end: nat)
    requires start <= end < |str| && AllDigits(str[start..end]) && IsDigit(str[end])
    ensures AllDigits(str[start..end + 1])
    ensures Value(str[start..end + 1]) == 10 * Value(str[start..end]) + (str[end] as int - '0' as int)
  {
    assert str[start..end + 1][..end - start] == str[start..end];
  }

  /** The three stretches found by the scan are a numeral. */
  lemma ScannedDenotes(str: string, i: nat, start: nat, end: nat)
    requires i <= start < end <= |str| && start - i <= 1
    requires forall k :: 0 <= k < i ==> IsBlank(str[k])
    requires start > i ==> str[i] == '+' || str[i] == '-'
    requires AllDigits(str[start..end])
    requires end == |str| || !IsDigit(str[end])
    ensures var value := Value(str[start..end]);
            Denotes(str, if i < start && str[i] == '-' then -value else value)
  {
    var sign := if start == i then "" else [str[i]];
    var num := Numeral(str[..i], sign, str[start..end], str[end..]);
    assert forall k :: 0 <= k < i ==> num.blanks[k] == str[k];
    assert num.rest != "" ==> num.rest[0] == str[end];
    assert str[i..start] == sign;
    assert num.Text() == str;
    DenotesText(num);
  }

  lemma DenotesText(num: Numeral)
    requires num.Valid()
    ensures Denotes(num.Text(), num.Amount())
  {}

  /** After the blanks and an optional sign comes no digit: the string denotes nothing. */
  lemma NothingDenoted(str: string, i: nat, start: nat)
    requires i <= start <= |str| && start - i <= 1
    requires forall k :: 0 <= k < i ==> IsBlank(str[k])
    requires i == |str| || !IsBlank(str[i])
    requires start > i <==> i < |str| && (str[i] == '+' || str[i] == '-')
    requires start == |str| || !IsDigit(str[start])
    ensures forall n :: !Denotes(str, n)
  {
    forall num: Numeral | num.Valid() && num.Text() == str ensures false {
      Positions(num);
      SkipsBlanks(str, num, i);
    }
  }

  /** Where the stretches of a numeral lie. */
  lemma Positions(num: Numeral)
    requires num.Valid()
    ensures var s, b, e := num.Text(), |num.blanks|, |num.blanks| + |num.sign| + |num.digits|;
            && s[..b] == num.blanks && s[b..b + |num.sign|] == num.sign
            && s[b + |num.sign|..e] == num.digits && s[e..] == num.rest
            && |num.sign| <= 1 && (|num.sign| == 1 <==> s[b] == '+' || s[b] == '-')
            && !IsBlank(s[b]) && IsDigit(s[b + |num.sign|])
            && (num.rest == "" || !IsDigit(s[e]))
            && (forall k :: 0 <= k < b ==> IsBlank(s[k]))
            && (forall k :: b + |num.sign| <= k < e ==> IsDigit(s[k]))
  {
    var s, b := num.Text(), |num.blanks|;
    assert s[b] == if num.sign == "" then num.digits[0] else num.sign[0];
  }

  /** The blanks of a numeral are all the blanks the string starts with. */
  lemma SkipsBlanks(str: string, num: Numeral, i: nat)
    requires num.Valid() && num.Text() == str && i <= |str|
    requires forall k :: 0 <= k < i ==> IsBlank(str[k])
    requires i == |str| || !IsBlank(str[i])
    ensures |num.blanks| == i
  {
    Positions(num);
    var b := |num.blanks|;
  }

  /** A string can be taken apart in one way only, so it denotes at most one number. */
  lemma DenotesOne(str: string, m: int, n: int)
    requires Denotes(str, m) && Denotes(str, n)
    ensures m == n
  {
    var x: Numeral :| x.Valid() && x.Text() == str && x.Amount() == m;
    var y: Numeral :| y.Valid() && y.Text() == str && y.Amount() == n;
    Positions(x);
    Positions(y);
    SkipsBlanks(str, y, |x.blanks|);
    SameDigits(str, x, y);
  }

  lemma SameDigits(str: string, x: Numeral, y: Numeral)
    requires x.Valid() && x.Text() == str && y.Valid() && y.Text() == str
    requires |x.blanks| == |y.blanks| && |x.sign| == |y.sign|
    ensures x.digits == y.digits
  {
    Positions(x);
    Positions(y);
    DigitsNotLonger(str, x, y);
    DigitsNotLonger(str, y, x);
  }

  lemma DigitsNotLonger(str: string, x: Numeral, y: Numeral)
    requires x.Valid() && x.Text() == str && y.Valid() && y.Text() == str
    requires |x.blanks| + |x.sign| == |y.blanks| + |y.sign|
    ensures |x.digits| <= |y.digits|
  {
    Positions(x);
    Positions(y);
    var at := |y.blanks| + |y.sign| + |y.digits|;
    assert y.rest == "" ==> |str| == at;
  }

  // ---- ParseStrtollResult ----

  /** The number a key is read as: the one it denotes, when that fits 64 bits. */
  ghost function Parsed(str: string): Option<int> {
    if n :| IsInt64(n) && Denotes(str, n) then Some(n) else None
  }

  /** True with n exactly when the string denotes a number n that fits 64 bits; what follows the digits is ignored. */
  method ParseStrtollResult(str: string) returns (ok: bool, result: int)
    ensures ok ==> IsInt64(result) && Denotes(str, result)
    ensures !ok ==> forall n :: IsInt64(n) ==> !Denotes(str, n)
    ensures Parsed(str) == if ok then Some(result) else None
  {
    var r := StrtollBase10(str);
    result := r.value;
    if !r.found {
      return false, result;
    }
    if r.erange && (r.value == LLONG_MAX || r.value == LLONG_MIN) {
      OutOfRange(str, r);
      return false, result;
    }
    DenotesOne(str, Parsed(str).value, result);
    ok := true;
  }

  lemma OutOfRange(str: string, r: Strtoll)
    requires IsStrtoll(str, r) && r.found && r.erange
    ensures forall n :: IsInt64(n) ==> !Denotes(str, n)
  {
    var m :| Denotes(str, m) && !IsInt64(m);
    forall n | IsInt64(n) ensures !Denotes(str, n) {
      if Denotes(str, n) { DenotesOne(str, m, n); }
    }
  }

  // ---- to_string ----

  function Digits(n: nat): (s: string)
    ensures s != "" && AllDigits(s)
  {
    if n < 10 then [DigitChar(n)] else Digits(n / 10) + [DigitChar(n % 10)]
  }

  function ToString(n: int): string {
    if n < 0 then "-" + Digits(-n) else Digits(n)
  }

  lemma {:induction false} ValueOfDigits(n: nat)
    ensures Value(Digits(n)) == n
  {
    var s := Digits(n);
    if n < 10 {
      assert s[..|s| - 1] == "";
    } else {
      ValueOfDigits(n / 10);
      assert s[..|s| - 1] == Digits(n / 10);
    }
  }

  /** No digit is wasted: only zero itself starts with a zero. */
  lemma {:induction false} NoLeadingZero(n: nat)
    ensures n > 0 ==> Digits(n)[0] != '0'
  {
    if n >= 10 { NoLeadingZero(n / 10); }
  }

  lemma BareDenotes(sign: string, digits: string)
    requires IsSign(sign) && digits != "" && AllDigits(digits)
    ensures Denotes(sign + digits, if IsMinus(sign) then -Value(digits) else Value(digits))
  {
    var none: string := [];
    var num := Numeral(none, sign, digits, none);
    assert none + sign == sign && sign + digits + none == sign + digits;
    DenotesText(num);
  }

  lemma ToStringDenotes(n: int)
    ensures Denotes(ToString(n), n)
  {
    var size := if n < 0 then -n else n;
    ValueOfDigits(size);
    BareDenotes(if n < 0 then "-" else "", Digits(size));
    assert "" + Digits(size) == Digits(size);
  }

  /** Every 64-bit integer is read back from its own decimal form, and a wider one is refused. */
  lemma ToStringParses(n: int)
    ensures Parsed(ToString(n)) == if IsInt64(n) then Some(n) else None
  {
    ToStringDenotes(n);
    var r := Parsed(ToString(n));
    if r.Some? { DenotesOne(ToString(n), n, r.value); }
  }
}
