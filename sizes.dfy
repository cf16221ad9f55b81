/**
 * `u64_to_size_string` in `src/backend/onedrive/upload.rs`: the size in a
 * file-too-large error, as a number with two decimals and a binary unit.
 * The unit is the first of B, KB, ..., YB whose next power of 1024 is
 * above the size.
 */
module Sizes {

  import opened Base
  import opened Decimal

  const UNITS: seq<string> := ["B", "KB", "MB", "GB", "TB", "PB", "EB", "ZB", "YB"]

  function Pow1024(i: nat): (p: nat)
    ensures p >= 1
  {
    if i == 0 then 1 else 1024 * Pow1024(i - 1)
  }

  /** The search `find(|(i, _)| size < 1024^(i+1))` over the units from index `i` on. */
  function FindUnit(size: nat, i: nat): (u: nat)
    requires i < |UNITS|
    ensures i <= u < |UNITS|
    ensures size < Pow1024(u + 1) || u == |UNITS| - 1
    ensures forall j :: i < j <= u ==> size >= Pow1024(j)
    decreases |UNITS| - i
  {
    if size < Pow1024(i + 1) then i
    else if i + 1 == |UNITS| then |UNITS| - 1
    else FindUnit(size, i + 1)
  }

  /**
   * The index of the unit a size is written in: the smallest `i` with
   * `size < 1024^(i+1)`, or that of YB when there is none.
   */
  function UnitIndex(size: nat): (u: nat)
    ensures u < |UNITS|
    ensures size < Pow1024(u + 1) || u == |UNITS| - 1
    ensures forall j :: 0 < j <= u ==> size >= Pow1024(j)
  {
    FindUnit(size, 0)
  }

  /** `UnitIndex` is the only index meeting its contract: it is below every other candidate. */
  lemma UnitIndexIsSmallest(size: nat, i: nat)
    requires i < |UNITS| && size < Pow1024(i + 1)
    ensures UnitIndex(size) <= i
  {
  }

  lemma {:induction false} Pow1024Grows(i: nat, j: nat)
    requires i <= j
    ensures Pow1024(i) <= Pow1024(j)
    decreases j
  {
    if i < j {
      Pow1024Grows(i, j - 1);
    }
  }

  /** A size of at least `1024^k` is written in the k-th unit or a larger one. */
  lemma UnitIndexAtLeast(size: nat, k: nat)
    requires k < |UNITS| && size >= Pow1024(k)
    ensures UnitIndex(size) >= k
  {
    var u := UnitIndex(size);
    if u < k {
      Pow1024Grows(u + 1, k);
    }
  }

  /** Two decimal digits, with a leading zero below ten. */
  function TwoDigits(n: nat): (s: string)
    requires n < 100
    ensures |s| == 2 && AllDigits(s)
  {
    [DigitChar(n / 10), DigitChar(n % 10)]
  }

  /**
   * `format!("{:.2} {}", size / 1024^i, UNITS[i])` computed on integers:
   * the whole part, a point, the hundredths cut to two digits, a space and
   * the unit.
   */
  function SizeString(size: nat): string {
    var u := UnitIndex(size);
    var scale := Pow1024(u);
    DecimalString(size / scale) + "." + TwoDigits(Hundredths(size % scale, scale)) + " " + UNITS[u]
  }

  /** The hundredths of a fraction `rem / scale` below one, cut to an integer. */
  function Hundredths(rem: nat, scale: nat): (h: nat)
    requires rem < scale
    ensures h < 100
  {
    var q := rem * 100 / scale;
    assert q * scale <= rem * 100;
    q
  }

  /** The source's own test cases: 1024 is "1.00 KB", ... */
  lemma SizeStringKilobyte()
    ensures SizeString(1024) == "1.00 KB"
  {
    assert Pow1024(1) == 1024 && Pow1024(2) == 1024 * 1024;
    assert UnitIndex(1024) == 1;
    assert DecimalString(1) == "1";
  }

  /** ... 2 * 1024^2 is "2.00 MB", ... */
  lemma SizeStringMegabytes()
    ensures SizeString(2 * 1024 * 1024) == "2.00 MB"
  {
    assert Pow1024(1) == 1024 && Pow1024(2) == 1024 * 1024 && Pow1024(3) == 1024 * 1024 * 1024;
    assert UnitIndex(2 * 1024 * 1024) == 2;
    assert DecimalString(2) == "2";
  }

  /** ... and the upload limit, 250 * 1024^3, is "250.00 GB". */
  lemma SizeStringLimit()
    ensures SizeString(250 * 1024 * 1024 * 1024) == "250.00 GB"
  {
    var size := 250 * 1024 * 1024 * 1024;
    assert Pow1024(1) == 1024 && Pow1024(2) == 1024 * 1024;
    assert Pow1024(3) == 1024 * 1024 * 1024;
    assert Pow1024(4) == 1024 * 1024 * 1024 * 1024;
    assert FindUnit(size, 3) == 3;
    assert FindUnit(size, 1) == 3;
    assert UnitIndex(size) == 3;
    assert size / Pow1024(3) == 250 && size % Pow1024(3) == 0;
    assert DecimalString(2) == "2";
    assert DecimalString(25) == "25";
    assert DecimalString(250) == "250";
  }
}
