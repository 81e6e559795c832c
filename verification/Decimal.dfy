/** Decimal printing and parsing of 64-bit integers, as strconv does it, and the
    separation of names that end in a number. */
module Decimal {
  import opened KanaryTypes

  const MAX_INT64: int := 0x7FFF_FFFF_FFFF_FFFF
  const MIN_INT64: int := -0x8000_0000_0000_0000

  /** The value left in a signed 64-bit integer that was assigned x. */
  function Wrap64(x: int): (r: int)
    ensures MIN_INT64 <= r <= MAX_INT64
    ensures MIN_INT64 <= x <= MAX_INT64 ==> r == x
  {
    (x - MIN_INT64) % 0x1_0000_0000_0000_0000 + MIN_INT64
  }

  /** Incrementing an already wrapped integer is incrementing and then wrapping. */
  lemma WrapSuccessor(x: int)
    ensures Wrap64(Wrap64(x) + 1) == Wrap64(x + 1)
  {
    var w := 0x1_0000_0000_0000_0000;
    var a := x - MIN_INT64;
    assert a == a / w * w + a % w;
    if a % w + 1 == w {
      assert (a + 1) == (a / w + 1) * w;
      assert (a + 1) % w == 0;
    } else {
      assert (a + 1) == a / w * w + (a % w + 1);
      assert (a + 1) % w == a % w + 1;
    }
  }

  /** What is left differs from x by a multiple of 2^64. */
  lemma WrapIsCongruent(x: int) returns (k: int)
    ensures Wrap64(x) == x + k * 0x1_0000_0000_0000_0000
  {
    k := -((x - MIN_INT64) / 0x1_0000_0000_0000_0000);
  }

  predicate IsDigit(c: char) {
    '0' <= c <= '9'
  }

  predicate AllDigits(s: string) {
    forall i :: 0 <= i < |s| ==> IsDigit(s[i])
  }

  function DigitChar(d: nat): (c: char)
    requires d < 10
    ensures IsDigit(c)
  {
    (d + '0' as int) as char
  }

  function DigitsOf(n: nat): (s: string)
    ensures |s| > 0 && AllDigits(s)
  {
    if n < 10 then [DigitChar(n)] else DigitsOf(n / 10) + [DigitChar(n % 10)]
  }

  function ValueOf(s: string): nat
    requires AllDigits(s)
  {
    if s == [] then 0 else 10 * ValueOf(s[..|s| - 1]) + (s[|s| - 1] as int - '0' as int)
  }

  function Itoa(n: int): (s: string)
    ensures |s| > 0
    ensures forall i :: 0 <= i < |s| ==> IsDigit(s[i]) || (n < 0 && i == 0 && s[i] == '-')
  {
    if n < 0 then "-" + DigitsOf(-n) else DigitsOf(n)
  }

  /** None stands for a syntax error or a value outside the 64-bit range. */
  function Atoi(s: string): Option<int> {
    if s == [] then None
    else
      var digits := if s[0] == '-' || s[0] == '+' then s[1..] else s;
      if digits == [] || !AllDigits(digits) then None
      else
        var v: int := if s[0] == '-' then -(ValueOf(digits) as int) else ValueOf(digits);
        if MIN_INT64 <= v <= MAX_INT64 then Some(v) else None
  }

  lemma {:induction false} ValueOfDigits(n: nat)
    ensures ValueOf(DigitsOf(n)) == n
  {
    if n < 10 {
    } else {
      ValueOfDigits(n / 10);
      var s := DigitsOf(n);
      assert s[..|s| - 1] == DigitsOf(n / 10);
    }
  }

  /** Reading back a printed 64-bit integer gives that integer. */
  lemma AtoiItoa(n: int)
    requires MIN_INT64 <= n <= MAX_INT64
    ensures Atoi(Itoa(n)) == Some(n)
  {
    var sign, m: nat := if n < 0 then "-" else "", if n < 0 then -n else n;
    PrintsDigits(m);
    hide Atoi, DigitsOf, ValueOf;
    assert Itoa(n) == sign + Itoa(m);
    AtoiParts(sign, Itoa(m));
  }

  lemma ItoaInjective(a: nat, b: nat)
    requires Itoa(a) == Itoa(b)
    ensures a == b
  {
    ValueOfDigits(a);
    ValueOfDigits(b);
  }

  // ---------- the shortest numeral ----------

  function Zeros(n: nat): (s: string)
    ensures |s| == n && forall i :: 0 <= i < n ==> s[i] == '0'
  {
    seq(n, i => '0')
  }

  /** Every numeral of n is the printed one behind zeros. */
  lemma {:induction false} OnlyZerosBefore(s: string, n: nat)
    requires AllDigits(s) && s != "" && ValueOf(s) == n
    ensures |s| >= |DigitsOf(n)| && s == Zeros(|s| - |DigitsOf(n)|) + DigitsOf(n)
  {
    var init, last := s[..|s| - 1], s[|s| - 1];
    assert s == init + [last];
    if init == "" {
      assert n < 10 && DigitChar(n) == last;
      assert s == Zeros(0) + DigitsOf(n);
    } else {
      var m := ValueOf(init);
      assert n / 10 == m && DigitChar(n % 10) == last;
      OnlyZerosBefore(init, m);
      if n < 10 {
        assert DigitsOf(m) == "0" && init == Zeros(|init|);
        assert s == Zeros(|s| - 1) + DigitsOf(n);
      } else {
        assert s == Zeros(|init| - |DigitsOf(m)|) + DigitsOf(m) + [last];
      }
    }
  }

  /** Nothing but zero is printed with a leading zero. */
  lemma {:induction false} NoLeadingZero(n: nat)
    requires DigitsOf(n)[0] == '0'
    ensures n == 0
  {
    if n < 10 {
    } else {
      assert DigitsOf(n)[0] == DigitsOf(n / 10)[0];
      NoLeadingZero(n / 10);
    }
  }

  lemma {:induction false} ZerosCountNothing(z: nat, s: string)
    requires AllDigits(s)
    ensures AllDigits(Zeros(z) + s) && ValueOf(Zeros(z) + s) == ValueOf(s)
    decreases z + |s|
  {
    var t := Zeros(z) + s;
    if s != "" {
      assert t[..|t| - 1] == Zeros(z) + s[..|s| - 1];
      ZerosCountNothing(z, s[..|s| - 1]);
    } else if z > 0 {
      assert t[..|t| - 1] == Zeros(z - 1) + "";
      ZerosCountNothing(z - 1, "");
    }
  }

  lemma PrintsDigits(n: nat)
    ensures Itoa(n) == DigitsOf(n) && AllDigits(Itoa(n)) && ValueOf(Itoa(n)) == n
  {
    ValueOfDigits(n);
  }

  /** s is the printed n behind zeros. */
  predicate Padded(s: string, n: nat) {
    |s| >= |Itoa(n)| && s == Zeros(|s| - |Itoa(n)|) + Itoa(n)
  }

  lemma NumeralIsPadded(s: string, n: nat)
    requires AllDigits(s) && s != ""
    ensures ValueOf(s) == n <==> Padded(s, n)
  {
    PrintsDigits(n);
    if ValueOf(s) == n {
      OnlyZerosBefore(s, n);
    }
    if Padded(s, n) {
      ZerosCountNothing(|s| - |Itoa(n)|, Itoa(n));
    }
  }

  /** Itoa prints the one numeral of n that has no superfluous zeros. */
  lemma ItoaIsShortest(n: nat, s: string)
    requires AllDigits(s) && s != "" && ValueOf(s) == n
    ensures s == Itoa(n) || (|s| > |Itoa(n)| && s[0] == '0')
    ensures AllDigits(Itoa(n)) && (Itoa(n)[0] == '0' ==> n == 0)
  {
    NumeralIsPadded(s, n);
    PrintsDigits(n);
    if Itoa(n)[0] == '0' {
      NoLeadingZero(n);
    }
    hide Itoa, ValueOf, AllDigits;
    if |s| == |Itoa(n)| {
      assert s == Zeros(0) + Itoa(n);
    } else {
      assert s[0] == Zeros(|s| - |Itoa(n)|)[0];
    }
  }

  /** A negative number is printed as its absolute value behind a minus sign. */
  lemma ItoaOfNegative(n: int)
    requires n < 0
    ensures Itoa(n) == "-" + Itoa(-n)
  {
  }

  /** A sign, zeros and the shortest numeral of the absolute value. */
  ghost predicate Spells(s: string, v: int) {
    exists sign, digits :: && s == sign + digits && SignOf(sign, v) && digits != "" && AllDigits(digits)
                           && Padded(digits, if v < 0 then -v else v)
  }

  predicate SignOf(sign: string, v: int) {
    if v < 0 then sign == "-" else sign == "" || sign == "+" || (sign == "-" && v == 0)
  }

  lemma AtoiParts(sign: string, digits: string)
    requires (sign == "" || sign == "+" || sign == "-") && digits != "" && AllDigits(digits)
    ensures var v: int := if sign == "-" then -(ValueOf(digits) as int) else ValueOf(digits);
            Atoi(sign + digits) == if MIN_INT64 <= v <= MAX_INT64 then Some(v) else None
  {
    var s := sign + digits;
    hide ValueOf;
    if sign == "" {
      assert s == digits && IsDigit(s[0]);
    } else {
      assert s[0] == sign[0] && s[1..] == digits;
    }
  }

  lemma AtoiSplits(s: string) returns (sign: string, digits: string)
    requires Atoi(s).Some?
    ensures s == sign + digits && (sign == "" || sign == "+" || sign == "-") && digits != "" && AllDigits(digits)
  {
    hide ValueOf;
    if s[0] == '-' || s[0] == '+' {
      sign, digits := [s[0]], s[1..];
    } else {
      sign, digits := "", s;
    }
  }

  /** Exactly the 64-bit integers are read, each from exactly its spellings. */
  lemma AtoiReads(s: string, v: int)
    ensures Atoi(s) == Some(v) <==> MIN_INT64 <= v <= MAX_INT64 && Spells(s, v)
  {
    var n: nat := if v < 0 then -v else v;
    hide Atoi, AllDigits, ValueOf, Padded;
    if Atoi(s) == Some(v) {
      var sign, digits := AtoiSplits(s);
      AtoiParts(sign, digits);
      NumeralIsPadded(digits, n);
      assert SignOf(sign, v);
    }
    if MIN_INT64 <= v <= MAX_INT64 && Spells(s, v) {
      var sign, digits :| s == sign + digits && SignOf(sign, v) && digits != "" && AllDigits(digits) && Padded(digits, n);
      AtoiParts(sign, digits);
      NumeralIsPadded(digits, n);
    }
  }

  // ---------- taking text apart ----------

  /** The parts of s before and after the last occurrence of c. */
  function CutLast(s: string, c: char): Option<(string, string)> {
    if s == [] then None
    else
      var init, last := s[..|s| - 1], s[|s| - 1];
      if last == c then Some((init, ""))
      else
        match CutLast(init, c)
        case None => None
        case Some((before, after)) => Some((before, after + [last]))
  }

  lemma {:induction false} CutLastJoin(before: string, after: string, c: char)
    requires c !in after
    ensures CutLast(before + [c] + after, c) == Some((before, after))
    decreases |after|
  {
    var s := before + [c] + after;
    if after == "" {
      assert s[..|s| - 1] == before;
    } else {
      var init := after[..|after| - 1];
      assert s[..|s| - 1] == before + [c] + init;
      CutLastJoin(before, init, c);
      assert after == init + [after[|after| - 1]];
    }
  }
}
