/** Go's `strconv.Atoi` for base 10 on a 64-bit platform, as `auth.Initialize` uses it to read
    the cookie max-age. Go strings are byte strings; each `char` here stands for one byte, and
    since only ASCII signs and digits are ever accepted, any other byte is simply "not a digit". */
module Strconv {
  import opened Common

  /** The `Err` field of the `*NumError` Go returns; `NoError` is a nil error. */
  datatype NumError = NoError | ErrSyntax | ErrRange

  /** The pair `(value, err)` that the parsing functions return. */
  datatype Parsed = Parsed(value: int, err: NumError)

  const MaxUint64: int := 0xffff_ffff_ffff_ffff

  /** ParseUint's `cutoff` for base 10: the smallest n for which n*10 overflows uint64. */
  const UintCutoff: int := MaxUint64 / 10 + 1

  /** ParseInt's `cutoff` for bitSize 64: 1 << 63. */
  const IntCutoff: int := 0x8000_0000_0000_0000

  predicate IsDigit(c: char) { '0' <= c <= '9' }

  function DigitValue(c: char): (d: nat)
    requires IsDigit(c)
    ensures d <= 9
  {
    c as int - '0' as int
  }

  predicate AllDigits(s: string) { forall i :: 0 <= i < |s| ==> IsDigit(s[i]) }

  /** The number a string of decimal digits denotes, read left to right. */
  function Decimal(s: string): nat
    requires AllDigits(s)
  {
    if |s| == 0 then 0 else Decimal(s[..|s| - 1]) * 10 + DigitValue(s[|s| - 1])
  }

  function Pow10(k: nat): nat { if k == 0 then 1 else 10 * Pow10(k - 1) }

  // ---------------------------------------------------------------------------------------
  // The reference: what Atoi accepts and what it means
  // ---------------------------------------------------------------------------------------

  predicate HasSign(s: string) { |s| > 0 && (s[0] == '+' || s[0] == '-') }

  /** `s` without its leading sign, if it has one. */
  function Unsigned(s: string): string { if HasSign(s) then s[1..] else s }

  /** An optional `+` or `-` followed by one or more ASCII digits. */
  predicate WellFormed(s: string) { |Unsigned(s)| > 0 && AllDigits(Unsigned(s)) }

  /** The integer a well-formed string denotes, before any range check. */
  function Denoted(s: string): int
    requires WellFormed(s)
  {
    var magnitude: int := Decimal(Unsigned(s));
    if s[0] == '-' then -magnitude else magnitude
  }

  /** The strings Atoi returns with a nil error. */
  predicate Accepts(s: string) { WellFormed(s) && InInt64(Denoted(s)) }

  // ---------------------------------------------------------------------------------------
  // The library code
  // ---------------------------------------------------------------------------------------

  /** The digit loop of `strconv.ParseUint(s, 10, 0)`, from byte `i` on with accumulator `n`.
      An overflow returns at once with the maximum value, even when a later byte is not a digit. */
  function ScanUint(s: string, i: nat, n: nat): Parsed
    requires i <= |s|
    decreases |s| - i
  {
    if i == |s| then Parsed(n, NoError)
    else if !IsDigit(s[i]) then Parsed(0, ErrSyntax)
    else if n >= UintCutoff then Parsed(MaxUint64, ErrRange)
    else
      var n1 := n * 10 + DigitValue(s[i]);
      if n1 > MaxUint64 then Parsed(MaxUint64, ErrRange)
      else ScanUint(s, i + 1, n1)
  }

  /** `strconv.ParseUint(s, 10, 0)`. */
  function ParseUint(s: string): Parsed
  {
    if |s| == 0 then Parsed(0, ErrSyntax) else ScanUint(s, 0, 0)
  }

  /** `strconv.ParseInt(s, 10, 0)`: a syntax error gives 0, a range error the clamped value. */
  function ParseInt(s: string): Parsed
  {
    if |s| == 0 then Parsed(0, ErrSyntax)
    else
      var neg := s[0] == '-';
      var un := ParseUint(Unsigned(s));
      if un.err == ErrSyntax then Parsed(0, ErrSyntax)
      else if !neg && un.value >= IntCutoff then Parsed(IntCutoff - 1, ErrRange)
      else if neg && un.value > IntCutoff then Parsed(-IntCutoff, ErrRange)
      else Parsed(if neg then -un.value else un.value, NoError)
  }

  /** The digit loop of Atoi's fast path, which cannot overflow on fewer than 19 bytes. */
  function ScanFast(s: string, i: nat, n: nat): Parsed
    requires i <= |s|
    decreases |s| - i
  {
    if i == |s| then Parsed(n, NoError)
    else if !IsDigit(s[i]) then Parsed(0, ErrSyntax)
    else ScanFast(s, i + 1, n * 10 + DigitValue(s[i]))
  }

  /** Atoi's fast path for strings of 1 to 18 bytes. */
  function AtoiFast(s: string): Parsed
    requires |s| > 0
  {
    var digits := Unsigned(s);
    if |digits| < 1 then Parsed(0, ErrSyntax)
    else
      var r := ScanFast(digits, 0, 0);
      if r.err != NoError then r
      else Parsed(if s[0] == '-' then -r.value else r.value, NoError)
  }

  /** `strconv.Atoi(s)` with a 64-bit `int`: whichever path it takes, it returns what
      `ParseInt(s, 10, 0)` returns. */
  function Atoi(s: string): (r: Parsed)
    ensures r == ParseInt(s)
  {
    if 0 < |s| < 19 then FastPathAgrees(s); AtoiFast(s) else ParseInt(s)
  }

  // ---------------------------------------------------------------------------------------
  // Lemmas
  // ---------------------------------------------------------------------------------------

  lemma {:induction false} AllDigitsPrefix(s: string, j: nat)
    requires AllDigits(s) && j <= |s|
    ensures AllDigits(s[..j])
  {
  }

  /** Appending a digit multiplies by ten and adds it. */
  lemma DecimalSnoc(s: string, i: nat)
    requires i < |s| && AllDigits(s[..i + 1])
    ensures AllDigits(s[..i])
    ensures Decimal(s[..i + 1]) == Decimal(s[..i]) * 10 + DigitValue(s[i])
  {
    assert s[..i + 1][..i] == s[..i];
  }

  /** A longer digit string never denotes less than its prefix. */
  lemma {:induction false} DecimalPrefixBound(s: string, j: nat)
    requires AllDigits(s) && j <= |s|
    ensures AllDigits(s[..j]) && Decimal(s[..j]) <= Decimal(s)
    decreases |s| - j
  {
    if j < |s| {
      DecimalPrefixBound(s, j + 1);
      AllDigitsPrefix(s, j + 1);
      DecimalSnoc(s, j);
    } else {
      assert s[..j] == s;
    }
  }

  /** k digits denote less than 10^k. */
  lemma {:induction false} DecimalBelowPow10(s: string)
    requires AllDigits(s)
    ensures Decimal(s) < Pow10(|s|)
  {
    if |s| > 0 {
      DecimalBelowPow10(s[..|s| - 1]);
    }
  }

  lemma {:induction false} Pow10Monotone(j: nat, k: nat)
    requires j <= k
    ensures Pow10(j) <= Pow10(k)
    decreases k
  {
    if j < k {
      Pow10Monotone(j, k - 1);
    }
  }

  lemma Pow10Eighteen()
    ensures Pow10(18) == 1_000_000_000_000_000_000
  {
    assert Pow10(1) == 10;
    assert Pow10(2) == 100;
    assert Pow10(3) == 1_000;
    assert Pow10(4) == 10_000;
    assert Pow10(5) == 100_000;
    assert Pow10(6) == 1_000_000;
    assert Pow10(7) == 10_000_000;
    assert Pow10(8) == 100_000_000;
    assert Pow10(9) == 1_000_000_000;
    assert Pow10(10) == 10_000_000_000;
    assert Pow10(11) == 100_000_000_000;
    assert Pow10(12) == 1_000_000_000_000;
    assert Pow10(13) == 10_000_000_000_000;
    assert Pow10(14) == 100_000_000_000_000;
    assert Pow10(15) == 1_000_000_000_000_000;
    assert Pow10(16) == 10_000_000_000_000_000;
    assert Pow10(17) == 100_000_000_000_000_000;
  }

  /** ParseUint's digit loop, started on a digit prefix with the value of that prefix, succeeds
      exactly on digit strings that fit uint64, and otherwise returns Go's failure values. */
  lemma {:induction false} ScanUintSpec(s: string, i: nat)
    requires i <= |s| && AllDigits(s[..i]) && Decimal(s[..i]) <= MaxUint64
    ensures var r := ScanUint(s, i, Decimal(s[..i]));
      && (r.err == NoError <==> AllDigits(s) && Decimal(s) <= MaxUint64)
      && (r.err == NoError ==> r.value == Decimal(s))
      && (r.err == ErrSyntax ==> r.value == 0 && !AllDigits(s))
      && (r.err == ErrRange ==> r.value == MaxUint64 && |s| >= 20)
    decreases |s| - i
  {
    var n := Decimal(s[..i]);
    if i == |s| {
      assert s[..i] == s;
    } else if !IsDigit(s[i]) {
    } else {
      assert AllDigits(s[..i + 1]);
      DecimalSnoc(s, i);
      var n1 := n * 10 + DigitValue(s[i]);
      if n >= UintCutoff || n1 > MaxUint64 {
        if AllDigits(s) {
          DecimalPrefixBound(s, i + 1);
        }
        if |s| < 20 {
          DecimalBelowPow10(s[..i + 1]);
          Pow10Monotone(i + 1, 19);
          Pow10Eighteen();
          assert false;
        }
      } else {
        ScanUintSpec(s, i + 1);
      }
    }
  }

  /** ParseUint accepts exactly the non-empty digit strings that fit uint64. */
  lemma ParseUintSpec(s: string)
    ensures var r := ParseUint(s);
      && (r.err == NoError <==> |s| > 0 && AllDigits(s) && Decimal(s) <= MaxUint64)
      && (r.err == NoError ==> r.value == Decimal(s))
      && (r.err == ErrSyntax ==> r.value == 0 && !(|s| > 0 && AllDigits(s)))
      && (r.err == ErrRange ==> r.value == MaxUint64 && |s| >= 20)
  {
    if |s| > 0 {
      assert s[..0] == [];
      ScanUintSpec(s, 0);
    }
  }

  /** ParseInt accepts exactly the well-formed strings whose value fits int64; a syntax error
      gives 0 and a range error the int64 bound on the side of the sign. */
  lemma ParseIntSpec(s: string)
    ensures var r := ParseInt(s);
      && (r.err == NoError <==> Accepts(s))
      && (r.err == NoError ==> r.value == Denoted(s))
      && (r.err == ErrSyntax ==> r.value == 0 && !WellFormed(s))
      && (r.err == ErrRange ==> r.value == if s[0] == '-' then MinInt64 else MaxInt64)
  {
    if |s| > 0 {
      ParseUintSpec(Unsigned(s));
    }
  }

  /** ScanFast, started on a digit prefix with its value, gives the value of an all-digit string
      and a syntax error otherwise. */
  lemma {:induction false} ScanFastSpec(s: string, i: nat)
    requires i <= |s| && AllDigits(s[..i])
    ensures ScanFast(s, i, Decimal(s[..i]))
         == if AllDigits(s) then Parsed(Decimal(s), NoError) else Parsed(0, ErrSyntax)
    decreases |s| - i
  {
    if i == |s| {
      assert s[..i] == s;
    } else if IsDigit(s[i]) {
      assert AllDigits(s[..i + 1]);
      DecimalSnoc(s, i);
      ScanFastSpec(s, i + 1);
    }
  }

  /** Atoi's fast path returns what the general path would: at most 18 digits never overflow,
      so skipping the range checks changes nothing. */
  lemma FastPathAgrees(s: string)
    requires 0 < |s| < 19
    ensures AtoiFast(s) == ParseInt(s)
  {
    var digits := Unsigned(s);
    if |digits| > 0 {
      assert digits[..0] == [];
      ScanFastSpec(digits, 0);
      ParseUintSpec(digits);
      if AllDigits(digits) {
        DecimalBelowPow10(digits);
        Pow10Monotone(|digits|, 18);
        Pow10Eighteen();
        assert ParseUint(digits) == Parsed(Decimal(digits), NoError);
        assert Decimal(digits) < IntCutoff;
      }
    }
  }

  /** What `strconv.Atoi` promises: a nil error exactly on an optional sign followed by decimal
      digits whose value fits int64, that value as the result; on a syntax error the value 0,
      on a range error the bound on the side of the sign. */
  lemma AtoiSpec(s: string)
    ensures var r := Atoi(s);
      && (r.err == NoError <==> Accepts(s))
      && (r.err == NoError ==> r.value == Denoted(s))
      && (r.err == ErrSyntax ==> r.value == 0 && !WellFormed(s))
      && (r.err == ErrRange ==> r.value == if s[0] == '-' then MinInt64 else MaxInt64)
  {
    ParseIntSpec(s);
  }

  /** Signed values are accepted; blanks, letters and Go's digit separator are not. */
  lemma AtoiExamples()
    ensures Atoi("-5") == Parsed(-5, NoError)
    ensures Atoi("+10") == Parsed(10, NoError)
    ensures Atoi("3600") == Parsed(3600, NoError)
    ensures Atoi("") == Parsed(0, ErrSyntax)
    ensures Atoi("abc") == Parsed(0, ErrSyntax)
    ensures Atoi(" 1") == Parsed(0, ErrSyntax)
    ensures Atoi("1_0") == Parsed(0, ErrSyntax)
    ensures Atoi("-") == Parsed(0, ErrSyntax)
  {
  }

  /** ParseUint's loop stops at the first overflow, whatever bytes follow. */
  lemma {:induction false} ScanUintOverflowFirst(s: string, i: nat, j: nat)
    requires i <= j <= |s| && AllDigits(s[..j]) && Decimal(s[..j]) > MaxUint64
    requires AllDigits(s[..i]) && Decimal(s[..i]) <= MaxUint64
    ensures ScanUint(s, i, Decimal(s[..i])) == Parsed(MaxUint64, ErrRange)
    decreases j - i
  {
    assert s[..j][..i + 1] == s[..i + 1];
    AllDigitsPrefix(s[..j], i + 1);
    assert IsDigit(s[i]);
    DecimalSnoc(s, i);
    var n := Decimal(s[..i]);
    if n < UintCutoff && n * 10 + DigitValue(s[i]) <= MaxUint64 {
      ScanUintOverflowFirst(s, i + 1, j);
    }
  }

  /** A run of digits too large for uint64, after an optional sign, makes Atoi report a range
      error and the int64 bound on the side of the sign, even when a byte that is not a digit
      comes after the run. */
  lemma AtoiOverflowFirst(s: string, j: nat)
    requires var u := Unsigned(s); 1 <= j <= |u| && AllDigits(u[..j]) && Decimal(u[..j]) > MaxUint64
    ensures Atoi(s) == Parsed(if s[0] == '-' then MinInt64 else MaxInt64, ErrRange)
  {
    var u := Unsigned(s);
    assert u[..0] == [];
    ScanUintOverflowFirst(u, 0, j);
  }

  /** ParseUint's loop stops at the first byte that is not a digit, as long as the digits before
      it did not overflow, whatever bytes follow. */
  lemma {:induction false} ScanUintSyntaxFirst(s: string, i: nat, j: nat)
    requires i <= j < |s| && AllDigits(s[..j]) && !IsDigit(s[j]) && Decimal(s[..j]) <= MaxUint64
    requires AllDigits(s[..i])
    ensures ScanUint(s, i, Decimal(s[..i])) == Parsed(0, ErrSyntax)
    decreases j - i
  {
    if i < j {
      assert s[..j][..i + 1] == s[..i + 1];
      AllDigitsPrefix(s[..j], i + 1);
      assert IsDigit(s[..j][i]);
      DecimalSnoc(s, i);
      DecimalPrefixBound(s[..j], i + 1);
      ScanUintSyntaxFirst(s, i + 1, j);
    }
  }

  /** A byte that is not a digit, met after an optional sign and digits that still fit uint64,
      makes Atoi report a syntax error with value 0, even when an overflowing run follows. */
  lemma AtoiSyntaxFirst(s: string, j: nat)
    requires var u := Unsigned(s); j < |u| && AllDigits(u[..j]) && !IsDigit(u[j]) && Decimal(u[..j]) <= MaxUint64
    ensures Atoi(s) == Parsed(0, ErrSyntax)
  {
    var u := Unsigned(s);
    assert u[..0] == [];
    ScanUintSyntaxFirst(u, 0, j);
  }
}
