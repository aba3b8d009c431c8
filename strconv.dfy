/**
  Go's `strconv.Atoi` and `strconv.Itoa` on a 64-bit platform. Atoi is
  `ParseInt(s, 10, 0)`: an optional sign, then decimal digits scanned left to
  right; a non-digit is a syntax error with value 0, and a value that does not
  fit is a range error whose value is clamped to the nearest int64 bound.
  Atoi's fast path for strings shorter than 19 bytes computes the same
  results and is not modelled separately.
 */
module Strconv {
  import opened Base

  datatype NumError = NoError | ErrSyntax | ErrRange

  /** What Atoi returns: the value, and the error Go callers may ignore. */
  datatype Parsed = Parsed(value: int, err: NumError)

  predicate IsDigit(c: char) {
    '0' <= c <= '9'
  }

  predicate AllDigits(s: string) {
    forall i | 0 <= i < |s| :: IsDigit(s[i])
  }

  function DigitValue(c: char): (d: nat)
    requires IsDigit(c)
    ensures d < 10
  {
    c as int - '0' as int
  }

  /** The number a string of decimal digits denotes (most significant first). */
  function DecimalValue(s: string): nat
    requires AllDigits(s)
  {
    if s == [] then 0 else DecimalValue(s[..|s| - 1]) * 10 + DigitValue(s[|s| - 1])
  }

  /** The digits after an optional leading sign. */
  function Unsigned(s: string): string {
    if |s| > 0 && (s[0] == '+' || s[0] == '-') then s[1..] else s
  }

  /** A well-formed decimal integer: an optional sign and at least one digit. */
  predicate IsDecimal(s: string) {
    |Unsigned(s)| > 0 && AllDigits(Unsigned(s))
  }

  function DecimalOf(s: string): int
    requires IsDecimal(s)
  {
    if s[0] == '-' then -(DecimalValue(Unsigned(s)) as int) else DecimalValue(Unsigned(s))
  }

  const Cutoff64: int := MaxUint64 / 10 + 1

  /** ParseUint's loop for base 10, from byte `i` with the value `n` read so far. */
  function ParseUintFrom(s: string, i: nat, n: nat): Parsed
    requires i <= |s| && n <= MaxUint64
    decreases |s| - i
  {
    if i == |s| then Parsed(n, NoError)
    else if !IsDigit(s[i]) then Parsed(0, ErrSyntax)
    else if n >= Cutoff64 then Parsed(MaxUint64, ErrRange)
    else if n * 10 + DigitValue(s[i]) > MaxUint64 then Parsed(MaxUint64, ErrRange)
    else ParseUintFrom(s, i + 1, n * 10 + DigitValue(s[i]))
  }

  /** A prefix of a digit string never denotes more than the whole string. */
  lemma {:induction false} PrefixValueAtMost(s: string, k: nat)
    requires AllDigits(s) && k <= |s|
    ensures AllDigits(s[..k]) && DecimalValue(s[..k]) <= DecimalValue(s)
    decreases |s|
  {
    if k < |s| {
      var t := s[..|s| - 1];
      assert t[..k] == s[..k];
      PrefixValueAtMost(t, k);
    } else {
      assert s[..k] == s;
    }
  }

  /**
    The loop succeeds exactly on digit strings whose value fits in 64 bits,
    and then returns that value.
   */
  lemma {:induction false} ParseUintFromCorrect(s: string, i: nat, n: nat)
    requires i <= |s| && AllDigits(s[..i]) && n == DecimalValue(s[..i]) && n <= MaxUint64
    ensures var r := ParseUintFrom(s, i, n);
      && (r.err == NoError <==> AllDigits(s) && DecimalValue(s) <= MaxUint64)
      && (r.err == NoError ==> AllDigits(s) && r.value == DecimalValue(s))
      && (r.err == ErrSyntax ==> r.value == 0)
      && (r.err == ErrRange ==> r.value == MaxUint64)
    decreases |s| - i
  {
    if i == |s| {
      assert s[..i] == s;
    } else if IsDigit(s[i]) {
      var m := n * 10 + DigitValue(s[i]);
      assert s[..i + 1][..i] == s[..i];
      assert AllDigits(s[..i + 1]) && DecimalValue(s[..i + 1]) == m;
      if AllDigits(s) {
        PrefixValueAtMost(s, i + 1);
      }
      if n < Cutoff64 && m <= MaxUint64 {
        ParseUintFromCorrect(s, i + 1, m);
      }
    }
  }

  function Pow10(k: nat): (p: nat)
    ensures p >= 1
  {
    if k == 0 then 1 else 10 * Pow10(k - 1)
  }

  /**
    On at most 19 characters the loop cannot overflow (10^19 is below 2^64),
    so it can only fail on a non-digit.
   */
  lemma {:induction false} ParseUintFromShort(s: string, i: nat, n: nat)
    requires i <= |s| <= 19 && n < Pow10(i) && n <= MaxUint64
    ensures ParseUintFrom(s, i, n).err != ErrRange
    decreases |s| - i
  {
    if i < |s| && IsDigit(s[i]) {
      Pow10Monotone(i + 1, 19);
      Pow10Nineteen();
      ParseUintFromShort(s, i + 1, n * 10 + DigitValue(s[i]));
    }
  }

  lemma {:induction false} Pow10Monotone(j: nat, k: nat)
    requires j <= k
    ensures Pow10(j) <= Pow10(k)
    decreases k
  {
    if j < k {
      Pow10Monotone(j, k - 1);
    }
  }

  lemma Pow10Nineteen()
    ensures Pow10(19) == 10_000_000_000_000_000_000
  {
    assert Pow10(4) == 10_000;
    assert Pow10(8) == 100_000_000;
    assert Pow10(12) == 1_000_000_000_000;
    assert Pow10(16) == 10_000_000_000_000_000;
  }

  /**
    Atoi on a malformed string of at most 19 characters after the sign is a
    syntax error with value 0: a range error needs more digits than that.
   */
  lemma AtoiShortSyntaxError(s: string)
    requires |Unsigned(s)| <= 19 && !IsDecimal(s)
    ensures Atoi(s) == Parsed(0, ErrSyntax)
  {
    if s != "" && Unsigned(s) != "" {
      assert Unsigned(s)[..0] == [];
      ParseUintFromShort(Unsigned(s), 0, 0);
    }
  }

  function ParseUint(s: string): (r: Parsed)
    ensures r.err == NoError <==> |s| > 0 && AllDigits(s) && DecimalValue(s) <= MaxUint64
    ensures r.err == NoError ==> AllDigits(s) && r.value == DecimalValue(s)
    ensures r.err == ErrSyntax ==> r.value == 0
    ensures r.err == ErrRange ==> r.value == MaxUint64
  {
    if s == "" then Parsed(0, ErrSyntax)
    else
      assert s[..0] == [];
      ParseUintFromCorrect(s, 0, 0);
      ParseUintFrom(s, 0, 0)
  }

  /**
    strconv.Atoi: succeeds exactly on well-formed decimals whose value is an
    int64, and then returns that value; a malformed string gives 0, an
    out-of-range one the int64 bound on its side.
   */
  function Atoi(s: string): (r: Parsed)
    ensures r.err == NoError <==> IsDecimal(s) && IsInt64(DecimalOf(s))
    ensures r.err == NoError ==> IsDecimal(s) && r.value == DecimalOf(s)
    ensures r.err == ErrSyntax ==> r.value == 0
    ensures r.err == ErrRange ==> |s| > 0 && r.value == (if s[0] == '-' then MinInt64 else MaxInt64)
  {
    if s == "" then Parsed(0, ErrSyntax)
    else
      var neg := s[0] == '-';
      var u := ParseUint(Unsigned(s));
      if u.err == ErrSyntax then Parsed(0, ErrSyntax)
      else if !neg && u.value > MaxInt64 then Parsed(MaxInt64, ErrRange)
      else if neg && u.value > -MinInt64 then Parsed(MinInt64, ErrRange)
      else Parsed(if neg then -u.value else u.value, NoError)
  }

  function DigitChar(d: nat): (c: char)
    requires d < 10
    ensures IsDigit(c) && DigitValue(c) == d
  {
    ('0' as int + d) as char
  }

  /** The shortest decimal digits of `n`. */
  function FormatNat(n: nat): (s: string)
    ensures |s| > 0 && AllDigits(s) && DecimalValue(s) == n
  {
    if n < 10 then [DigitChar(n)]
    else
      var prefix := FormatNat(n / 10);
      var s := prefix + [DigitChar(n % 10)];
      assert s[..|s| - 1] == prefix;
      s
  }

  /**
    strconv.Itoa (also what `%d` prints): a well-formed decimal that denotes
    `n`, so that Atoi reads it back whenever `n` is an int64.
   */
  function Itoa(n: int): (s: string)
    ensures IsDecimal(s) && DecimalOf(s) == n
    ensures IsInt64(n) ==> Atoi(s) == Parsed(n, NoError)
  {
    if n < 0 then
      var s := "-" + FormatNat(-n);
      assert Unsigned(s) == FormatNat(-n);
      s
    else
      FormatNat(n)
  }
}
