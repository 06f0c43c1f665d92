/** Printing cents and reading them back (web/src/core/money.ts). */
module MoneyText {
  import opened Basics
  import opened Decimal

  /******* Printing *******/

  /** Digits in groups of three, counted from the right. */
  function Grouped(s: string): string {
    if |s| <= 3 then s else Grouped(s[..|s| - 3]) + "," + s[|s| - 3..]
  }

  /** The cents, always two digits. */
  function PadStart2(s: string): string {
    if |s| == 0 then "00" else if |s| == 1 then "0" + s else s
  }

  function Kes(cents: int, symbol: bool): string {
    var magnitude := if cents < 0 then -cents else cents;
    (if cents < 0 then "-" else "") + (if symbol then "KES " else "") + Amount(magnitude)
  }

  function Amount(cents: nat): string {
    Grouped(ToString(cents / 100)) + Fraction(cents % 100)
  }

  function Fraction(rem: nat): string {
    if rem == 0 then "" else "." + PadStart2(ToString(rem))
  }

  /** The text of the first digits of a number n digits long. */
  function Written(s: string, n: nat): string {
    if s == "" then "" else
      var i := |s| - 1;
      Written(s[..i], n) + (if i > 0 && (n - i) % 3 == 0 then "," else "") + [s[i]]
  }

  /** Up to a multiple of three digits from the end, that is the grouped text of those digits. */
  lemma {:induction false} WrittenInGroups(s: string, n: nat)
    requires |s| <= n && (n - |s|) % 3 == 0
    ensures Written(s, n) == Grouped(s)
  {
    if |s| > 3 {
      var i := |s| - 3;
      WrittenInGroups(s[..i], n);
      LastThree(s, n);
      assert s[i..] == [s[i]] + [s[i + 1]] + [s[i + 2]];
    } else if |s| > 0 {
      FirstGroup(s, n);
    }
  }

  lemma FirstGroup(s: string, n: nat)
    requires 0 < |s| <= 3 && |s| <= n && (n - |s|) % 3 == 0
    ensures Written(s, n) == s
  {
    hide *;
    Plain(s[..|s| - 1], n);
    WriteOne(s, n);
    assert s[..|s| - 1] + [s[|s| - 1]] == s;
  }

  lemma {:induction false} Plain(s: string, n: nat)
    requires |s| <= 2 && |s| < n && ((n - |s|) % 3 == 1 || (|s| == 1 && (n - 1) % 3 == 2) || |s| == 0)
    ensures Written(s, n) == s
  {
    if s != "" {
      Plain(s[..|s| - 1], n);
      assert s[..|s| - 1] + [s[|s| - 1]] == s;
    }
  }

  lemma WriteOne(s: string, n: nat)
    requires s != ""
    ensures var i := |s| - 1;
            Written(s, n) == Written(s[..i], n) + (if i > 0 && (n - i) % 3 == 0 then "," else "") + [s[i]]
  {
  }

  lemma LastThree(s: string, n: nat)
    requires 3 < |s| <= n && (n - |s|) % 3 == 0
    ensures var i := |s| - 3;
            Written(s, n) == Written(s[..i], n) + "," + [s[i]] + [s[i + 1]] + [s[i + 2]]
  {
    var i := |s| - 3;
    WriteOne(s[..i + 1], n);
    WriteOne(s[..i + 2], n);
    WriteOne(s, n);
    assert s[..i + 2][..i + 1] == s[..i + 1] && s[..i + 1][..i] == s[..i];
    hide Written;
  }

  method GroupThousands(n: nat) returns (out: string)
    ensures out == Grouped(ToString(n))
  {
    var s := ToString(n);
    if |s| <= 3 {
      return s;
    }
    out := "";
    for i := 0 to |s|
      invariant out == Written(s[..i], |s|)
    {
      assert s[..i + 1][..i] == s[..i];
      if i > 0 && (|s| - i) % 3 == 0 {
        out := out + ",";
      }
      out := out + [s[i]];
    }
    assert s[..|s|] == s;
    WrittenInGroups(s, |s|);
  }

  method FormatKes(cents: int, symbol: bool) returns (out: string)
    ensures out == Kes(cents, symbol)
  {
    var magnitude := if cents < 0 then -cents else cents;
    var s := GroupThousands(magnitude / 100);
    var rem := magnitude % 100;
    if rem != 0 {
      s := s + "." + PadStart2(ToString(rem));
    }
    return (if cents < 0 then "-" else "") + (if symbol then "KES " else "") + s;
  }

  /******* Reading *******/

  /** The characters String.trim and \s take for white space. */
  predicate IsSpace(c: char) {
    || c in {' ', '\t', '\n', '\r', '\U{b}', '\U{c}', '\U{a0}', '\U{1680}', '\U{feff}'}
    || '\U{2000}' <= c <= '\U{200a}' || c in {'\U{2028}', '\U{2029}', '\U{202f}', '\U{205f}', '\U{3000}'}
  }

  function TrimStart(s: string): string {
    if s != "" && IsSpace(s[0]) then TrimStart(s[1..]) else s
  }

  function TrimEnd(s: string): string {
    if s != "" && IsSpace(s[|s| - 1]) then TrimEnd(s[..|s| - 1]) else s
  }

  function WithoutCommas(s: string): string {
    if s == "" then "" else WithoutCommas(s[..|s| - 1]) + if s[|s| - 1] == ',' then "" else [s[|s| - 1]]
  }

  // The currency at the start, in either case, with the white space after it.
  function WithoutSymbol(s: string): string {
    if |s| >= 3 && s[0] in {'K', 'k'} && s[1] in {'E', 'e'} && s[2] in {'S', 's'} then TrimStart(s[3..]) else s
  }

  /** Where the first full stop is, or the length. */
  function Point(s: string): (i: nat)
    ensures i <= |s| && '.' !in s[..i] && (i < |s| ==> s[i] == '.')
  {
    if s == "" || s[0] == '.' then 0 else 1 + Point(s[1..])
  }

  /** Digits, and one or two more after a full stop. */
  function Shillings(t: string): Option<nat> {
    var whole := t[..Point(t)];
    if whole == "" || !AllDigits(whole) then None
    else if Point(t) == |t| then Some(Value(whole) * 100)
    else
      var rest := t[Point(t) + 1..];
      if !AllDigits(rest) || rest == "" || |rest| > 2 then None
      else Some(Value(whole) * 100 + if |rest| == 1 then Value(rest) * 10 else Value(rest))
  }

  function ParseShillings(input: string): Option<nat> {
    Shillings(WithoutSymbol(WithoutCommas(TrimEnd(TrimStart(input)))))
  }

  /******* Round trip *******/

  lemma {:induction false} CommasOut(a: string, b: string)
    ensures WithoutCommas(a + b) == WithoutCommas(a) + WithoutCommas(b)
  {
    if b == "" {
      assert a + b == a;
    } else {
      assert (a + b)[..|a + b| - 1] == a + b[..|b| - 1];
      CommasOut(a, b[..|b| - 1]);
    }
  }

  lemma {:induction false} NoCommas(s: string)
    requires ',' !in s
    ensures WithoutCommas(s) == s
  {
    if s != "" {
      NoCommas(s[..|s| - 1]);
    }
  }

  /** Grouping adds commas and nothing else. */
  lemma {:induction false} UngroupedAgain(s: string)
    requires ',' !in s
    ensures WithoutCommas(Grouped(s)) == s
  {
    if |s| <= 3 {
      NoCommas(s);
    } else {
      var a, b := s[..|s| - 3], s[|s| - 3..];
      UngroupedAgain(a);
      OneGroup(Grouped(a), b);
      assert s == a + b;
    }
  }

  lemma JustAComma()
    ensures WithoutCommas(",") == ""
  {
    assert ","[..0] == "";
  }

  lemma OneGroup(g: string, b: string)
    requires ',' !in b
    ensures WithoutCommas(g + "," + b) == WithoutCommas(g) + b
  {
    hide *;
    JustAComma();
    NoCommas(b);
    CommasOut(g + ",", b);
    CommasOut(g, ",");
  }

  lemma {:induction false} GroupedEnds(s: string)
    requires s != "" && AllDigits(s)
    ensures Grouped(s) != "" && IsDigit(Grouped(s)[0]) && IsDigit(Grouped(s)[|Grouped(s)| - 1])
  {
    if |s| <= 3 {
      assert s[0] in s && s[|s| - 1] in s;
    } else {
      GroupedEnds(s[..|s| - 3]);
      assert s[|s| - 1] in s;
    }
  }

  /** The cents as they are printed: two digits that stand for them. */
  lemma FractionDigits(rem: nat)
    requires 0 < rem < 100
    ensures |Fraction(rem)| == 3 && Fraction(rem)[0] == '.'
    ensures AllDigits(Fraction(rem)[1..]) && Value(Fraction(rem)[1..]) == rem
  {
    var s := ToString(rem);
    ValueOfText(rem);
    var p := PadStart2(s);
    assert Fraction(rem)[1..] == p;
    if rem < 10 {
      assert p[..1] == "0" && "0"[..0] == "" && s[..0] == "";
      assert Value("0") == 0;
      assert Value(p) == Value(p[..1]) * 10 + (p[1] as int - '0' as int);
    } else {
      assert |ToString(rem / 10)| == 1;
    }
  }

  /** Digits, with or without a fraction, read back as the cents they came from. */
  lemma PlainReadsBack(cents: nat)
    ensures Shillings(ToString(cents / 100) + Fraction(cents % 100)) == Some(cents)
  {
    var whole, rest := ToString(cents / 100), Fraction(cents % 100);
    ValueOfText(cents / 100);
    if cents % 100 != 0 {
      FractionDigits(cents % 100);
    } else {
      assert rest == "";
    }
    hide ToString, Fraction, Shillings, Value, AllDigits;
    ReadParts(whole, rest);
  }

  lemma ReadParts(whole: string, rest: string)
    requires whole != "" && AllDigits(whole)
    requires rest == "" || (|rest| in {2, 3} && rest[0] == '.' && AllDigits(rest[1..]))
    ensures Shillings(whole + rest)
         == Some(Value(whole) * 100 + if rest == "" then 0 else if |rest| == 2 then Value(rest[1..]) * 10 else Value(rest[1..]))
  {
    var t := whole + rest;
    PointAfterDigits(whole, rest);
    assert t[..|whole|] == whole;
    assert rest != "" ==> t[|whole| + 1..] == rest[1..];
    hide Value, Point, AllDigits;
  }

  lemma {:induction false} PointAfterDigits(whole: string, rest: string)
    requires AllDigits(whole) && (rest != "" ==> rest[0] == '.')
    ensures Point(whole + rest) == |whole|
  {
    if whole == "" {
      assert whole + rest == rest;
    } else {
      assert whole[0] in whole && (whole + rest)[1..] == whole[1..] + rest;
      PointAfterDigits(whole[1..], rest);
    }
  }

  lemma AmountEnds(cents: nat)
    ensures var s := Amount(cents);
            s != "" && IsDigit(s[0]) && IsDigit(s[|s| - 1])
    ensures WithoutCommas(Amount(cents)) == ToString(cents / 100) + Fraction(cents % 100)
  {
    var whole, rest := ToString(cents / 100), Fraction(cents % 100);
    GroupedEnds(whole);
    UngroupedAgain(whole);
    CommasOut(Grouped(whole), rest);
    if rest != "" {
      FractionDigits(cents % 100);
      assert rest[1..][1] in rest[1..];
      assert rest == "." + rest[1..];
      assert ',' !in rest[1..];
      NoCommas(rest);
    }
  }

  /** Whatever is printed for an amount that is not negative is read back as that amount, with or without the
      symbol; what is printed for a negative one is refused. */
  lemma PrintedAmountsReadBack(cents: int, symbol: bool)
    ensures ParseShillings(Kes(cents, symbol)) == if cents >= 0 then Some(cents) else None
  {
    var magnitude := if cents < 0 then -cents else cents;
    var prefix := (if cents < 0 then "-" else "") + (if symbol then "KES " else "");
    var plain := ToString(magnitude / 100) + Fraction(magnitude % 100);
    assert Kes(cents, symbol) == prefix + Amount(magnitude);
    AmountEnds(magnitude);
    hide Amount, Fraction, ToString, Shillings, WithoutCommas, WithoutSymbol;
    Stripped(prefix, Amount(magnitude), plain);
    assert prefix + plain == (if cents < 0 then "-" else "") + (if symbol then "KES " else "") + plain;
    SymbolOff(cents < 0, symbol, plain);
    if cents >= 0 {
      PlainReadsBack(cents);
    }
  }

  /** Trimming does nothing to printed text, and the commas go. */
  lemma Stripped(prefix: string, body: string, plain: string)
    requires body != "" && IsDigit(body[0]) && IsDigit(body[|body| - 1])
    requires ',' !in prefix && (prefix != "" ==> !IsSpace(prefix[0])) && WithoutCommas(body) == plain
    ensures WithoutCommas(TrimEnd(TrimStart(prefix + body))) == prefix + plain
  {
    var s := prefix + body;
    assert !IsSpace(body[0]) && !IsSpace(body[|body| - 1]);
    hide *;
    assert s[|s| - 1] == body[|body| - 1] && s[0] == if prefix == "" then body[0] else prefix[0];
    Untrimmed(s);
    CommasOut(prefix, body);
    NoCommas(prefix);
  }

  lemma Untrimmed(s: string)
    requires s != "" && !IsSpace(s[0]) && !IsSpace(s[|s| - 1])
    ensures TrimEnd(TrimStart(s)) == s
  {
  }

  lemma SymbolOff(negative: bool, symbol: bool, plain: string)
    requires plain != "" && IsDigit(plain[0])
    ensures var s := (if negative then "-" else "") + (if symbol then "KES " else "") + plain;
            if negative then Shillings(WithoutSymbol(s)) == None else WithoutSymbol(s) == plain
  {
    var s := (if negative then "-" else "") + (if symbol then "KES " else "") + plain;
    if negative {
      assert s[0] == '-' && WithoutSymbol(s) == s;
      assert Point(s) > 0 && s[..Point(s)][0] in s[..Point(s)];
    } else if symbol {
      assert s[3..] == " " + plain;
      assert (" " + plain)[1..] == plain;
      assert TrimStart(" " + plain) == TrimStart(plain) == plain;
    }
  }

  /******* What is printed, and what is read *******/

  /** A digit string grouped: a comma at every fourth place from the right and digits everywhere else, beginning and
      ending with a digit. */
  lemma {:induction false} CommasEveryFourth(s: string, i: nat)
    requires s != "" && AllDigits(s) && i < |Grouped(s)|
    ensures if (|Grouped(s)| - 1 - i) % 4 == 3 then i > 0 && Grouped(s)[i] == ',' else IsDigit(Grouped(s)[i])
  {
    if |s| <= 3 {
      assert s[i] in s;
    } else {
      var a, b := s[..|s| - 3], s[|s| - 3..];
      assert forall k | 0 <= k < 3 :: b[k] in s;
      var g := Grouped(a);
      GroupedEnds(a);
      if i < |g| {
        CommasEveryFourth(a, i);
      }
    }
  }

  /** The cents are shown exactly when there are any, as a full stop and two digits at the end; no amount of a
      shilling or more begins with a zero. */
  lemma CentsShown(cents: nat)
    ensures cents % 100 == 0 <==> '.' !in Amount(cents)
    ensures cents % 100 != 0 ==> |Amount(cents)| > 3 && Amount(cents)[|Amount(cents)| - 3] == '.'
    ensures Amount(cents)[0] == '0' <==> cents < 100
  {
    var whole, rest := ToString(cents / 100), Fraction(cents % 100);
    NoLeadingZero(cents / 100);
    GroupedKeepsFirst(whole);
    forall c | c in Grouped(whole) ensures c != '.' {
      var i :| 0 <= i < |Grouped(whole)| && Grouped(whole)[i] == c;
      CommasEveryFourth(whole, i);
    }
    if cents % 100 != 0 {
      FractionDigits(cents % 100);
      assert rest[0] in rest;
    }
  }

  lemma {:induction false} GroupedKeepsFirst(s: string)
    requires s != ""
    ensures Grouped(s) != "" && Grouped(s)[0] == s[0]
  {
    if |s| > 3 {
      GroupedKeepsFirst(s[..|s| - 3]);
    }
  }

  /** What stands before the digits: a minus for an amount below zero and for no other, then the symbol if it is asked
      for. The digits are those of the magnitude, and read back as it. */
  lemma SignAndSymbol(cents: int, symbol: bool)
    ensures var magnitude := if cents < 0 then -cents else cents;
            var s := Kes(cents, symbol);
            && s != "" && (s[0] == '-' <==> cents < 0)
            && var unsigned := if cents < 0 then s[1..] else s;
            && unsigned == Kes(magnitude, symbol)
            && ParseShillings(unsigned) == Some(magnitude)
            && (symbol ==> unsigned == "KES " + Kes(magnitude, false))
            && (!symbol ==> unsigned != "" && IsDigit(unsigned[0]))
  {
    var magnitude := if cents < 0 then -cents else cents;
    PrintedAmountsReadBack(magnitude, symbol);
    Unsigned(magnitude, symbol);
    MinusInFront(cents, symbol);
    hide *;
  }

  lemma MinusInFront(cents: int, symbol: bool)
    ensures cents < 0 ==> Kes(cents, symbol) == "-" + Kes(-cents, symbol)
  {
    hide Amount;
  }

  lemma Unsigned(cents: nat, symbol: bool)
    ensures var s := Kes(cents, symbol);
            && s != "" && s[0] != '-'
            && (symbol ==> s == "KES " + Kes(cents, false))
            && (!symbol ==> IsDigit(s[0]))
  {
    AmountEnds(cents);
    hide Amount;
    assert Kes(cents, false) == Amount(cents);
    assert Kes(cents, true) == "KES " + Amount(cents);
  }

  /** Exactly two shapes are read: digits, and digits with a fraction of one or two digits. One digit after the stop
      means tens of cents. Everything else is refused. */
  lemma ReadExactly(t: string)
    ensures t != "" && AllDigits(t) ==> Shillings(t) == Some(Value(t) * 100)
    ensures forall whole, cents | t == whole + "." + cents && whole != "" && AllDigits(whole) && AllDigits(cents) ::
              Shillings(t) == WithFraction(whole, cents)
    ensures Shillings(t).Some? ==>
              exists whole: string, cents: string ::
                && whole != "" && AllDigits(whole) && AllDigits(cents) && |cents| <= 2
                && t == whole + (if cents == "" then "" else "." + cents)
  {
    if t != "" && AllDigits(t) {
      assert t + "" == t;
      ReadParts(t, "");
    }
    if Shillings(t).Some? {
      ReadHasShape(t);
    }
    hide *;
    forall whole, cents | t == whole + "." + cents && whole != "" && AllDigits(whole) && AllDigits(cents)
      ensures Shillings(t) == WithFraction(whole, cents)
    {
      ReadFraction(whole, cents);
    }
  }

  /** What shillings with these digits after the stop mean. */
  function WithFraction(whole: string, cents: string): Option<nat>
    requires AllDigits(whole) && AllDigits(cents)
  {
    if |cents| == 1 then Some(Value(whole) * 100 + Value(cents) * 10)
    else if |cents| == 2 then Some(Value(whole) * 100 + Value(cents))
    else None
  }

  lemma ReadFraction(whole: string, cents: string)
    requires whole != "" && AllDigits(whole) && AllDigits(cents)
    ensures Shillings(whole + "." + cents) == WithFraction(whole, cents)
  {
    var rest := "." + cents;
    assert rest[1..] == cents && whole + "." + cents == whole + rest;
    if |cents| in {1, 2} {
      ReadParts(whole, rest);
      hide Shillings;
    } else {
      PointAfterDigits(whole, rest);
      assert (whole + rest)[|whole| + 1..] == cents;
      assert (whole + rest)[..|whole|] == whole;
      hide Value, AllDigits, Point;
    }
  }

  lemma ReadHasShape(t: string)
    requires Shillings(t).Some?
    ensures exists whole: string, cents: string ::
              && whole != "" && AllDigits(whole) && AllDigits(cents) && |cents| <= 2
              && t == whole + (if cents == "" then "" else "." + cents)
  {
    var whole := t[..Point(t)];
    var cents := if Point(t) == |t| then "" else t[Point(t) + 1..];
    assert t == whole + (if cents == "" then "" else "." + cents);
    assert whole != "" && AllDigits(whole) && AllDigits(cents) && |cents| <= 2;
  }

  predicate Blank(s: string) {
    forall c | c in s :: IsSpace(c)
  }

  /** The symbol in any mixture of cases. */
  predicate IsSymbol(s: string) {
    |s| == 3 && s[0] in "Kk" && s[1] in "Ee" && s[2] in "Ss"
  }

  /** White space around an amount, a symbol in front of it in either case with white space between, and commas
      anywhere after its first digit and before its last change nothing. */
  lemma DressingIsIgnored(before: string, symbol: string, between: string, body: string, after: string)
    requires Blank(before) && Blank(between) && Blank(after)
    requires IsSymbol(symbol) || (symbol == "" && between == "")
    requires body != "" && IsDigit(body[0]) && IsDigit(body[|body| - 1])
    ensures ParseShillings(before + (symbol + between + body) + after) == Shillings(WithoutCommas(body))
  {
    DressedEnds(symbol, between, body);
    SymbolIgnored(symbol, between, body);
    hide *;
    ReadTrimmed(before, symbol + between + body, after);
  }

  lemma ReadTrimmed(before: string, core: string, after: string)
    requires Blank(before) && Blank(after)
    requires core != "" && !IsSpace(core[0]) && !IsSpace(core[|core| - 1])
    ensures ParseShillings(before + core + after) == Shillings(WithoutSymbol(WithoutCommas(core)))
  {
    Trimmed(before, core, after);
    hide Shillings, WithoutSymbol, WithoutCommas, TrimStart, TrimEnd, Blank, IsSpace;
  }

  lemma DressedEnds(symbol: string, between: string, body: string)
    requires IsSymbol(symbol) || (symbol == "" && between == "")
    requires body != "" && IsDigit(body[0]) && IsDigit(body[|body| - 1])
    ensures var core := symbol + between + body;
            !IsSpace(core[0]) && !IsSpace(core[|core| - 1])
  {
    var core := symbol + between + body;
    assert core[|core| - 1] == body[|body| - 1];
    assert core[0] == if symbol == "" then body[0] else symbol[0];
  }

  lemma Trimmed(before: string, core: string, after: string)
    requires Blank(before) && Blank(after)
    requires core != "" && !IsSpace(core[0]) && !IsSpace(core[|core| - 1])
    ensures TrimEnd(TrimStart(before + core + after)) == core
  {
    assert before + core + after == before + (core + after) && (core + after)[0] == core[0];
    hide *;
    BlankStart(before, core + after);
    BlankEnd(core, after);
  }

  lemma {:induction false} BlankStart(blank: string, s: string)
    requires Blank(blank) && s != "" && !IsSpace(s[0])
    ensures TrimStart(blank + s) == s
  {
    if blank == "" {
      assert blank + s == s;
    } else {
      assert blank[0] in blank && (blank + s)[1..] == blank[1..] + s;
      BlankStart(blank[1..], s);
    }
  }

  lemma {:induction false} BlankEnd(s: string, blank: string)
    requires Blank(blank) && s != "" && !IsSpace(s[|s| - 1])
    ensures TrimEnd(s + blank) == s
  {
    if blank == "" {
      assert s + blank == s;
    } else {
      assert blank[|blank| - 1] in blank && (s + blank)[..|s + blank| - 1] == s + blank[..|blank| - 1];
      BlankEnd(s, blank[..|blank| - 1]);
    }
  }

  lemma SymbolIgnored(symbol: string, between: string, body: string)
    requires Blank(between) && (IsSymbol(symbol) || (symbol == "" && between == ""))
    requires body != "" && IsDigit(body[0])
    ensures WithoutSymbol(WithoutCommas(symbol + between + body)) == WithoutCommas(body)
  {
    KeepsFirst(body);
    NoCommasInDressing(symbol, between);
    NoCommas(symbol + between);
    CommasOut(symbol + between, body);
    hide WithoutCommas;
    SymbolOffStart(symbol, between, WithoutCommas(body));
  }

  lemma NoCommasInDressing(symbol: string, between: string)
    requires Blank(between) && (IsSymbol(symbol) || symbol == "")
    ensures ',' !in symbol + between
  {
    assert !IsSpace(',');
  }

  lemma SymbolOffStart(symbol: string, between: string, plain: string)
    requires Blank(between) && (IsSymbol(symbol) || (symbol == "" && between == ""))
    requires plain != "" && IsDigit(plain[0])
    ensures WithoutSymbol(symbol + between + plain) == plain
  {
    var s := symbol + between + plain;
    if symbol == "" {
      assert s == plain;
    } else {
      BlankStart(between, plain);
      assert s[3..] == between + plain && s[0] == symbol[0] && s[1] == symbol[1] && s[2] == symbol[2];
      hide TrimStart, Blank;
    }
  }

  lemma {:induction false} KeepsFirst(s: string)
    requires s != "" && s[0] != ','
    ensures WithoutCommas(s) != "" && WithoutCommas(s)[0] == s[0]
  {
    if |s| > 1 {
      KeepsFirst(s[..|s| - 1]);
    }
  }
}
