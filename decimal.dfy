/**
 * Decimal text of unsigned integers: Rust's `Display` for `u64` (used in
 * the `Content-Range` header) and `str::parse::<u64>` (used on the
 * server's `nextExpectedRanges`), plus `str::split` on one character.
 */
module Decimal {

  import opened Base

  predicate IsDigit(c: char) {
    '0' <= c <= '9'
  }

  predicate AllDigits(s: string) {
    forall i :: 0 <= i < |s| ==> IsDigit(s[i])
  }

  function DigitChar(d: nat): (c: char)
    requires d < 10
    ensures IsDigit(c)
  {
    ('0' as int + d) as char
  }

  function DigitValue(c: char): (d: nat)
    requires IsDigit(c)
    ensures d < 10 && DigitChar(d) == c
  {
    c as int - '0' as int
  }

  /** The decimal digits of `n`, most significant first, without leading zeros. */
  function DecimalString(n: nat): (s: string)
    ensures |s| >= 1 && AllDigits(s)
    ensures |s| > 1 ==> s[0] != '0'
    decreases n
  {
    if n < 10 then [DigitChar(n)] else DecimalString(n / 10) + [DigitChar(n % 10)]
  }

  /**
   * The digit loop of `str::parse::<u64>`: each character must be an ASCII
   * digit, and `acc * 10 + digit` is checked against 2^64 at every step
   * (`checked_mul`, `checked_add`); `None` is the error.
   */
  function Accumulate(acc: U64, s: string): Option<U64>
    decreases |s|
  {
    if s == [] then Some(acc)
    else if !IsDigit(s[0]) then None
    else if acc * 10 + DigitValue(s[0]) >= U64_LIMIT then None
    else Accumulate(acc * 10 + DigitValue(s[0]), s[1..])
  }

  /**
   * `str::parse::<u64>`: an optional `+`, then at least one ASCII digit,
   * with a value that fits in 64 bits; anything else is an error (`None`).
   */
  function ParseU64(s: string): Option<U64> {
    var digits := if |s| > 0 && s[0] == '+' then s[1..] else s;
    if digits == [] then None else Accumulate(0, digits)
  }

  /** The digit loop fails on anything but digits, and the value only grows. */
  lemma {:induction false} AccumulateOnlyDigits(acc: U64, s: string)
    ensures Accumulate(acc, s).Some? ==> AllDigits(s) && acc <= Accumulate(acc, s).value
    decreases |s|
  {
    if s != [] && IsDigit(s[0]) && acc * 10 + DigitValue(s[0]) < U64_LIMIT {
      AccumulateOnlyDigits(acc * 10 + DigitValue(s[0]), s[1..]);
    }
  }

  /** Only a nonempty run of digits, after an optional `+`, is accepted; in particular not `""` or `"+"`. */
  lemma ParseU64OnlyDigits(s: string)
    ensures ParseU64(s).Some? ==>
      || (|s| >= 1 && AllDigits(s))
      || (|s| >= 2 && s[0] == '+' && AllDigits(s[1..]))
  {
    if |s| > 0 && s[0] == '+' {
      AccumulateOnlyDigits(0, s[1..]);
    } else {
      AccumulateOnlyDigits(0, s);
    }
  }

  /** One more digit at the end multiplies what came before by ten and adds the digit, unless that overflows. */
  lemma {:induction false} AccumulateSnoc(acc: U64, x: string, c: char)
    requires IsDigit(c)
    ensures Accumulate(acc, x + [c]) ==
      match Accumulate(acc, x)
      case None => None
      case Some(v) => if v * 10 + DigitValue(c) < U64_LIMIT then Some(v * 10 + DigitValue(c)) else None
    decreases |x|
  {
    if x != [] {
      assert (x + [c])[0] == x[0] && (x + [c])[1..] == x[1..] + [c];
      if IsDigit(x[0]) && acc * 10 + DigitValue(x[0]) < U64_LIMIT {
        AccumulateSnoc(acc * 10 + DigitValue(x[0]), x[1..], c);
      }
    } else {
      assert [c][1..] == [];
    }
  }

  /** The decimal text of every `u64` reads back as that number. */
  lemma {:induction false} AccumulateDecimal(n: U64)
    ensures Accumulate(0, DecimalString(n)) == Some(n)
    decreases n
  {
    if n >= 10 {
      AccumulateDecimal(n / 10);
      AccumulateSnoc(0, DecimalString(n / 10), DigitChar(n % 10));
      assert DigitValue(DigitChar(n % 10)) == n % 10;
    } else {
      assert DecimalString(n)[1..] == [];
    }
  }

  /** `ParseU64` inverts `DecimalString` on every `u64`. */
  lemma DecimalRoundTrip(n: U64)
    ensures ParseU64(DecimalString(n)) == Some(n)
  {
    AccumulateDecimal(n);
  }

  /**
   * `str::split(sep)` collected into a vector: the pieces between
   * occurrences of `sep`, always at least one, possibly empty.
   */
  function Split(s: string, sep: char): (parts: seq<string>)
    ensures |parts| >= 1
    ensures forall i :: 0 <= i < |parts| ==> sep !in parts[i]
    decreases |s|
  {
    if s == [] then [""]
    else
      var rest := Split(s[1..], sep);
      if s[0] == sep then [""] + rest else [[s[0]] + rest[0]] + rest[1..]
  }

  /** `str::split(sep).next()`: everything before the first `sep`. */
  function FirstPiece(s: string, sep: char): (p: string)
    ensures sep !in p && p <= s
    ensures |p| < |s| ==> s[|p|] == sep
    decreases |s|
  {
    if s == [] || s[0] == sep then "" else [s[0]] + FirstPiece(s[1..], sep)
  }

  /** `FirstPiece` is the first of the pieces `Split` gives. */
  lemma {:induction false} FirstPieceOfSplit(s: string, sep: char)
    ensures FirstPiece(s, sep) == Split(s, sep)[0]
    decreases |s|
  {
    if s != [] && s[0] != sep {
      FirstPieceOfSplit(s[1..], sep);
    }
  }

  /** A prefix free of `sep` is glued to the first piece of what follows it. */
  lemma {:induction false} SplitFreePrefix(x: string, t: string, sep: char)
    requires sep !in x
    ensures Split(x + t, sep) == [x + Split(t, sep)[0]] + Split(t, sep)[1..]
    decreases |x|
  {
    var pieces := Split(t, sep);
    if x == [] {
      assert x + t == t && x + pieces[0] == pieces[0];
      assert pieces == [pieces[0]] + pieces[1..];
    } else {
      SplitFreePrefix(x[1..], t, sep);
      assert (x + t)[0] == x[0] && (x + t)[1..] == x[1..] + t;
      var rest := Split(x[1..] + t, sep);
      assert rest == [x[1..] + pieces[0]] + pieces[1..];
      assert Split(x + t, sep) == [[x[0]] + rest[0]] + rest[1..];
      assert [x[0]] + (x[1..] + pieces[0]) == x + pieces[0];
    }
  }

  /** Splitting `x + sep + t`, with `sep` not in `x`, gives `x` followed by the pieces of `t`. */
  lemma SplitAtFirst(x: string, t: string, sep: char)
    requires sep !in x
    ensures Split(x + [sep] + t, sep) == [x] + Split(t, sep)
  {
    SplitFreePrefix(x, [sep] + t, sep);
    assert x + [sep] + t == x + ([sep] + t);
    assert ([sep] + t)[1..] == t;
    assert ([sep] + t)[0] == sep;
    assert Split([sep] + t, sep) == [""] + Split(t, sep);
    assert x + "" == x;
  }

  /** A string free of `sep` is a single piece. */
  lemma SplitWhole(x: string, sep: char)
    requires sep !in x
    ensures Split(x, sep) == [x]
  {
    SplitFreePrefix(x, "", sep);
    assert x + "" == x;
  }
}
