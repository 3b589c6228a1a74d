/**
 * Integer parsing as Go does it on a 64-bit platform: `strconv.Atoi`, the
 * `%d` verb of `fmt.Sscanf`, and the two's-complement wrap of `int`
 * subtraction.
 */
module GoStrconv {
  import opened Wrappers
  import opened GoStrings

  const MinInt64: int := -0x8000_0000_0000_0000
  const MaxInt64: int := 0x7FFF_FFFF_FFFF_FFFF

  /** Go's `int` on a 64-bit platform. */
  predicate InInt64(n: int) {
    MinInt64 <= n <= MaxInt64
  }

  predicate IsDigit(c: char) {
    '0' <= c <= '9'
  }

  predicate AllDigits(s: string) {
    forall i :: 0 <= i < |s| ==> IsDigit(s[i])
  }

  predicate IsSign(c: char) {
    c == '+' || c == '-'
  }

  /** The value of a run of decimal digits, most significant digit first. */
  function DigitsValue(d: string): nat
    requires AllDigits(d)
    decreases |d|
  {
    if d == [] then 0 else DigitsValue(d[..|d| - 1]) * 10 + (d[|d| - 1] as int - '0' as int)
  }

  /** The digits of a decimal numeral, after its optional sign. */
  function Magnitude(s: string): string {
    if s != [] && IsSign(s[0]) then s[1..] else s
  }

  /** An optional `+` or `-`, then one or more decimal digits. */
  predicate IsDecimal(s: string) {
    Magnitude(s) != [] && AllDigits(Magnitude(s))
  }

  function DecimalValue(s: string): int
    requires IsDecimal(s)
  {
    if s[0] == '-' then -(DigitsValue(Magnitude(s)) as int) else DigitsValue(Magnitude(s))
  }

  /**
   * strconv.Atoi: succeeds exactly on an optionally signed decimal numeral
   * whose value fits in 64 bits; white space, underscores and base
   * prefixes are all rejected.
   */
  function Atoi(s: string): (r: Option<int>)
    ensures r.Some? ==> InInt64(r.value)
  {
    if IsDecimal(s) && InInt64(DecimalValue(s)) then Some(DecimalValue(s)) else None
  }

  function Digit(d: nat): char
    requires d < 10
  {
    ('0' as int + d) as char
  }

  /** strconv.Itoa of a natural number: its shortest decimal numeral. */
  function FormatNat(n: nat): (s: string)
    ensures s != [] && AllDigits(s)
    decreases n
  {
    if n < 10 then [Digit(n)] else FormatNat(n / 10) + [Digit(n % 10)]
  }

  /** strconv.Itoa: a `-` for negative numbers, then the digits. */
  function FormatInt(n: int): (s: string)
    ensures IsDecimal(s)
  {
    if n < 0 then "-" + FormatNat(-n) else FormatNat(n)
  }

  lemma {:induction false} DigitsValueFormatNat(n: nat)
    ensures DigitsValue(FormatNat(n)) == n
    decreases n
  {
    if n >= 10 {
      var s := FormatNat(n);
      assert s[..|s| - 1] == FormatNat(n / 10);
      DigitsValueFormatNat(n / 10);
    }
  }

  /** The numeral of `n` reads back as `n`, before any range check. */
  lemma DecimalValueFormatInt(n: int)
    ensures DecimalValue(FormatInt(n)) == n
  {
    var s := FormatInt(n);
    var m: nat := if n < 0 then -n else n;
    assert Magnitude(s) == FormatNat(m) by {
      if n < 0 {
        assert s == "-" + FormatNat(m);
        assert s[1..] == FormatNat(m);
      } else {
        assert s == FormatNat(m);
        assert !IsSign(s[0]);
      }
    }
    DigitsValueFormatNat(m);
  }

  /** Every 64-bit integer survives printing and parsing back. */
  lemma AtoiFormatInt(n: int)
    requires InInt64(n)
    ensures Atoi(FormatInt(n)) == Some(n)
  {
    DecimalValueFormatInt(n);
  }

  /** A well-formed numeral outside the 64-bit range is rejected. */
  lemma AtoiRejectsOutOfRange(n: int)
    requires !InInt64(n)
    ensures IsDecimal(FormatInt(n)) && Atoi(FormatInt(n)) == None
  {
    DecimalValueFormatInt(n);
  }

  // ---------------------------------------------------------------- fmt %d

  /** The white space that `%d` skips before a number (a newline ends the scan instead). */
  predicate IsBlank(c: char) {
    IsSpace(c) && c != '\n'
  }

  /** `s` after its leading blanks. */
  function SkipBlanks(s: string): string
    decreases |s|
  {
    if s != [] && IsBlank(s[0]) then SkipBlanks(s[1..]) else s
  }

  /** Only blanks are skipped, and all of them: what remains is a suffix that starts with no blank. */
  lemma {:induction false} SkipBlanksSuffix(s: string)
    ensures var r := SkipBlanks(s);
      && |r| <= |s| && r == s[|s| - |r|..]
      && (forall i :: 0 <= i < |s| - |r| ==> IsBlank(s[i]))
      && (r == [] || !IsBlank(r[0]))
    decreases |s|
  {
    if s != [] && IsBlank(s[0]) {
      SkipBlanksSuffix(s[1..]);
    }
  }

  /** The longest run of decimal digits at the start of `s`. */
  function LeadingDigits(s: string): (d: string)
    ensures AllDigits(d)
    decreases |s|
  {
    if s != [] && IsDigit(s[0]) then [s[0]] + LeadingDigits(s[1..]) else []
  }

  /** The run is a prefix of digits and stops only at the end or at a non-digit. */
  lemma {:induction false} LeadingDigitsRun(s: string)
    ensures var d := LeadingDigits(s);
      && |d| <= |s| && d == s[..|d|] && AllDigits(d)
      && (|d| < |s| ==> !IsDigit(s[|d|]))
    decreases |s|
  {
    if s != [] && IsDigit(s[0]) {
      LeadingDigitsRun(s[1..]);
    }
  }

  /**
   * What `fmt.Sscanf(s, "%d ...", &n)` stores in `n`: after skipping blanks,
   * an optional sign and the longest run of digits, parsed as a 64-bit
   * integer. Text after the number does not matter, because the value is
   * stored before the rest of the format is matched; `None` means that
   * `n` is left untouched.
   */
  function ScanInt(s: string): (r: Option<int>)
    ensures r.Some? ==> InInt64(r.value)
  {
    var t := SkipBlanks(s);
    var k := if t != [] && IsSign(t[0]) then 1 else 0;
    var digits := LeadingDigits(t[k..]);
    if digits == [] then None else Atoi(t[..k] + digits)
  }

  lemma {:induction false} SkipBlanksPrefix(b: string, t: string)
    requires forall i :: 0 <= i < |b| ==> IsBlank(b[i])
    requires t == [] || !IsBlank(t[0])
    ensures SkipBlanks(b + t) == t
    decreases |b|
  {
    if b != [] {
      assert (b + t)[1..] == b[1..] + t;
      SkipBlanksPrefix(b[1..], t);
    }
  }

  lemma {:induction false} LeadingDigitsPrefix(d: string, rest: string)
    requires AllDigits(d)
    requires rest == [] || !IsDigit(rest[0])
    ensures LeadingDigits(d + rest) == d
    decreases |d|
  {
    if d != [] {
      assert (d + rest)[1..] == d[1..] + rest;
      LeadingDigitsPrefix(d[1..], rest);
    }
  }

  /**
   * Scanning blanks, a numeral, and any text that does not continue the
   * numeral yields exactly what Atoi makes of the numeral.
   */
  lemma ScanIntNumeral(blanks: string, numeral: string, rest: string)
    requires forall i :: 0 <= i < |blanks| ==> IsBlank(blanks[i])
    requires IsDecimal(numeral)
    requires rest == [] || !IsDigit(rest[0])
    ensures ScanInt(blanks + numeral + rest) == Atoi(numeral)
  {
    var t := numeral + rest;
    var mag := Magnitude(numeral);
    var k := if IsSign(numeral[0]) then 1 else 0;
    assert numeral[0] == mag[0] || IsSign(numeral[0]);
    assert !IsBlank(t[0]);
    assert blanks + numeral + rest == blanks + t;
    SkipBlanksPrefix(blanks, t);
    assert t[k..] == mag + rest;
    LeadingDigitsPrefix(mag, rest);
    assert LeadingDigits(t[k..]) == mag;
    assert t[..k] + mag == numeral;
  }

  // ---------------------------------------------------------------- int arithmetic

  const TwoTo64: int := 0x1_0000_0000_0000_0000

  /** The 64-bit two's-complement value of `x`, as Go's `int` arithmetic wraps it. */
  function Wrap64(x: int): (r: int)
    ensures InInt64(r)
    ensures (r - x) % TwoTo64 == 0
    ensures InInt64(x) ==> r == x
  {
    (x - MinInt64) % TwoTo64 + MinInt64
  }
}
