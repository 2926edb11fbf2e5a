/**
 * The load-time conversion of comma-grouped integer text such as "1,234": every
 * comma is removed, and what remains is read as an integer the way Python's `int`
 * reads an optional sign followed by decimal digits.
 */
module NumberText {
  import opened Results

  predicate IsDigit(c: char)
  {
    '0' <= c <= '9'
  }

  predicate AllDigits(s: string)
  {
    forall i :: 0 <= i < |s| ==> IsDigit(s[i])
  }

  function DigitValue(c: char): (v: nat)
    requires IsDigit(c)
    ensures v < 10
  {
    (c as int - '0' as int) as nat
  }

  function DigitChar(v: nat): (c: char)
    requires v < 10
    ensures IsDigit(c) && DigitValue(c) == v
  {
    ('0' as int + v) as char
  }

  /** Removes every comma, wherever it stands, and keeps every other character in order. */
  function StripCommas(s: string): (r: string)
    ensures |r| <= |s|
    ensures forall i :: 0 <= i < |r| ==> r[i] != ','
    ensures forall c :: c != ',' ==> multiset(r)[c] == multiset(s)[c]
  {
    if s == [] then []
    else
      assert s == [s[0]] + s[1..];
      if s[0] == ',' then StripCommas(s[1..])
    else [s[0]] + StripCommas(s[1..])
  }

  /** The value of a string of decimal digits, most significant digit first. */
  function DigitsValue(s: string): nat
    requires AllDigits(s)
  {
    if s == [] then 0 else DigitsValue(s[..|s| - 1]) * 10 + DigitValue(s[|s| - 1])
  }

  /** An optional '+' or '-' followed by at least one digit is an integer; anything else is rejected. */
  function ParseInt(s: string): (r: Option<int>)
    ensures r.Some? <==> (s != [] && AllDigits(s)) ||
                         (|s| > 1 && (s[0] == '-' || s[0] == '+') && AllDigits(s[1..]))
    ensures AllDigits(s) && s != [] ==> r == Some(DigitsValue(s))
    ensures |s| > 1 && s[0] == '+' && AllDigits(s[1..]) ==> r == Some(DigitsValue(s[1..]))
    ensures |s| > 1 && s[0] == '-' && AllDigits(s[1..]) ==> r == Some(0 - DigitsValue(s[1..]))
  {
    if |s| > 1 && (s[0] == '-' || s[0] == '+') && AllDigits(s[1..]) then
      var magnitude: int := DigitsValue(s[1..]);
      Some(if s[0] == '-' then -magnitude else magnitude)
    else if s != [] && AllDigits(s) then
      Some(DigitsValue(s))
    else
      None
  }

  /** A count or an amount as it comes from the data file: commas removed, then parsed. */
  function ParseGrouped(s: string): (r: Option<int>)
    ensures (forall i :: 0 <= i < |s| ==> s[i] != ',') ==> r == ParseInt(s)
  {
    StripCommasWithout(s);
    ParseInt(StripCommas(s))
  }

  /** The decimal digits of `n`, without leading zeros. */
  function Digits(n: nat): (s: string)
    ensures AllDigits(s) && s != []
  {
    if n < 10 then [DigitChar(n)] else Digits(n / 10) + [DigitChar(n % 10)]
  }

  /** The three digits of `n` below 1000, with leading zeros. */
  function ThreeDigits(n: nat): (s: string)
    requires n < 1000
    ensures |s| == 3 && AllDigits(s)
  {
    [DigitChar(n / 100), DigitChar(n / 10 % 10), DigitChar(n % 10)]
  }

  /** `n` written with a comma between every group of three digits, as in "1,234,567". */
  function Grouped(n: nat): (s: string)
    ensures s != []
  {
    if n < 1000 then Digits(n) else Grouped(n / 1000) + "," + ThreeDigits(n % 1000)
  }

  /** Stripping commas distributes over concatenation. */
  lemma {:induction false} StripCommasConcat(a: string, b: string)
    ensures StripCommas(a + b) == StripCommas(a) + StripCommas(b)
  {
    if a == [] {
      assert a + b == b;
    } else {
      assert (a + b)[1..] == a[1..] + b;
      StripCommasConcat(a[1..], b);
    }
  }

  /** Text without commas is left as it is. */
  lemma {:induction false} StripCommasWithout(s: string)
    ensures (forall i :: 0 <= i < |s| ==> s[i] != ',') ==> StripCommas(s) == s
  {
    if s != [] {
      StripCommasWithout(s[1..]);
    }
  }

  /** Reading the digits of `n` gives back `n`. */
  lemma {:induction false} DigitsRoundTrip(n: nat)
    ensures DigitsValue(Digits(n)) == n
  {
    if n >= 10 {
      var s := Digits(n);
      assert s[..|s| - 1] == Digits(n / 10);
      DigitsRoundTrip(n / 10);
    }
  }

  /** Three successive divisions by ten peel off the last three digits of `n`. */
  lemma ThousandsArithmetic(n: nat)
    ensures n / 10 / 10 == n / 100 && n / 100 / 10 == n / 1000
    ensures n % 1000 / 100 == n / 100 % 10
    ensures n % 1000 / 10 % 10 == n / 10 % 10
    ensures n % 1000 % 10 == n % 10
  {
    var q1, q2, q3 := n / 10, n / 100, n / 1000;
    var a, b, c := n / 100 % 10, n / 10 % 10, n % 10;
    assert n == 10 * q1 + c;
    assert q1 / 10 == q2 && q1 == 10 * q2 + b;
    assert q2 / 10 == q3 && q2 == 10 * q3 + a;
    assert n == 1000 * q3 + (100 * a + 10 * b + c);
    assert n % 1000 == 100 * a + 10 * b + c;
  }

  /** Above 999, the digits of `n` are those of `n / 1000` followed by the last three. */
  lemma DigitsSplitThousands(n: nat)
    requires n >= 1000
    ensures Digits(n) == Digits(n / 1000) + ThreeDigits(n % 1000)
  {
    ThousandsArithmetic(n);
    var c0, c1, c2 := DigitChar(n % 10), DigitChar(n / 10 % 10), DigitChar(n / 100 % 10);
    assert Digits(n) == Digits(n / 10) + [c0];
    assert Digits(n / 10) == Digits(n / 100) + [c1];
    assert Digits(n / 100) == Digits(n / 1000) + [c2];
    assert ThreeDigits(n % 1000) == [c2, c1, c0];
  }

  /** Removing the commas of the grouped form leaves the plain digits. */
  lemma {:induction false} GroupedStripsToDigits(n: nat)
    ensures StripCommas(Grouped(n)) == Digits(n)
  {
    if n < 1000 {
      StripCommasWithout(Digits(n));
    } else {
      GroupedStripsToDigits(n / 1000);
      StripCommasConcat(Grouped(n / 1000) + ",", ThreeDigits(n % 1000));
      StripCommasConcat(Grouped(n / 1000), ",");
      StripCommasWithout(ThreeDigits(n % 1000));
      DigitsSplitThousands(n);
    }
  }

  /** Every comma-grouped count reads back as the count it was written from. */
  lemma GroupedRoundTrip(n: nat)
    ensures ParseGrouped(Grouped(n)) == Some(n)
  {
    GroupedStripsToDigits(n);
    DigitsRoundTrip(n);
  }

  /** A comma anywhere in the text makes no difference to the value read. */
  lemma CommaAnywhere(s: string, i: nat)
    requires i <= |s|
    ensures ParseGrouped(s[..i] + "," + s[i..]) == ParseGrouped(s)
  {
    var a, b := s[..i], s[i..];
    StripCommasConcat(a + ",", b);
    StripCommasConcat(a, ",");
    StripCommasConcat(a, b);
    assert StripCommas(",") == [];
    assert a + b == s;
    assert StripCommas(a + "," + b) == StripCommas(s);
  }

  /** Worked value: "1,234" reads as 1234. */
  lemma ParseGroupedExample()
    ensures ParseGrouped("1,234") == Some(1234)
  {
    GroupedRoundTrip(1234);
    assert Grouped(1234) == "1,234";
  }
}
