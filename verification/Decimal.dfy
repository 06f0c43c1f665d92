/** Decimal text of integers: String(n) in TypeScript, strconv in Go. */
module Decimal {
  import opened Basics

  predicate IsDigit(c: char) {
    '0' <= c <= '9'
  }

  predicate AllDigits(s: string) {
    forall c | c in s :: IsDigit(c)
  }

  function DigitChar(d: nat): (c: char)
    requires d < 10
    ensures IsDigit(c)
  {
    ('0' as int + d) as char
  }

  function ToString(n: nat): (s: string)
    ensures s != "" && AllDigits(s)
  {
    if n < 10 then [DigitChar(n)] else ToString(n / 10) + [DigitChar(n % 10)]
  }

  /** The number a string of digits denotes. */
  function Value(s: string): nat
    requires AllDigits(s)
  {
    if s == "" then 0 else
      assert s[|s| - 1] in s;
      Value(s[..|s| - 1]) * 10 + (s[|s| - 1] as int - '0' as int)
  }

  lemma {:induction false} ValueOfText(n: nat)
    ensures Value(ToString(n)) == n
  {
    var s := ToString(n);
    if n < 10 {
      assert s[..0] == "";
    } else {
      assert s[..|s| - 1] == ToString(n / 10);
      ValueOfText(n / 10);
    }
  }

  /** strconv.ParseInt(s, 10, 64): an optional sign, at least one digit, and a value in range. */
  function ParseInt64(s: string): Option<int> {
    var digits := if s != "" && (s[0] == '+' || s[0] == '-') then s[1..] else s;
    if digits == "" || !AllDigits(digits) then None else
    var n: int := if s[0] == '-' then 0 - Value(digits) else Value(digits);
    if IsInt64(n) then Some(n) else None
  }

  lemma ParseOfText(n: nat)
    requires n <= MAX_INT64
    ensures ParseInt64(ToString(n)) == Some(n)
  {
    ValueOfText(n);
    assert ToString(n)[0] in ToString(n);
  }

  /** Only zero is written with a leading zero. */
  lemma {:induction false} NoLeadingZero(n: nat)
    ensures ToString(n)[0] == '0' <==> n == 0
  {
    if n >= 10 {
      NoLeadingZero(n / 10);
    }
  }

  /** The texts ParseInt takes for k, and no others: digits for k, or a sign and digits, of a k that an int64 holds. */
  lemma ParseExactly(s: string, k: int)
    ensures ParseInt64(s) == Some(k) <==>
              && IsInt64(k)
              && (|| (s != "" && AllDigits(s) && Value(s) == k)
                  || (|s| > 1 && s[0] == '+' && AllDigits(s[1..]) && Value(s[1..]) == k)
                  || (|s| > 1 && s[0] == '-' && AllDigits(s[1..]) && Value(s[1..]) == -k))
  {
    if s == "" {
    } else if s[0] == '+' || s[0] == '-' {
      SignIsNoDigit(s);
      ParseSigned(s, k);
    } else {
      ParseUnsigned(s, k);
    }
    hide ParseInt64, Value, AllDigits, IsDigit, IsInt64;
  }

  lemma ParseSigned(s: string, k: int)
    requires s != "" && (s[0] == '+' || s[0] == '-')
    ensures ParseInt64(s) == Some(k) <==>
              IsInt64(k) && |s| > 1 && AllDigits(s[1..]) && Value(s[1..]) == if s[0] == '-' then -k else k
  {
    var digits := s[1..];
    hide Value, AllDigits, IsDigit, IsInt64;
  }

  lemma ParseUnsigned(s: string, k: int)
    requires s != "" && s[0] != '+' && s[0] != '-'
    ensures ParseInt64(s) == Some(k) <==> IsInt64(k) && AllDigits(s) && Value(s) == k
  {
    hide Value, AllDigits, IsDigit, IsInt64;
  }

  lemma SignIsNoDigit(s: string)
    requires s != ""
    ensures s[0] == '+' || s[0] == '-' ==> !AllDigits(s)
  {
    assert s[0] in s;
  }
}
