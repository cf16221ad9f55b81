/**
 * Reading the start offset out of an entry of `nextExpectedRanges`
 * (`src/backend/onedrive/upload.rs`, the chunk loop). The service writes
 * an entry either as `start-end` or, open-ended, as `start-`.
 */
module Ranges {

  import opened Base
  import opened Decimal

  /**
   * The code as written: the entry is split at `-`, EVERY piece is parsed
   * as a `u64` with `unwrap`, and the first number is taken. `None` stands
   * for the panic any unparsable piece causes.
   */
  function ParseRangeAsWritten(entry: string): (r: Option<U64>)
    ensures r.Some? ==> r == ParseRangeStart(entry)
  {
    FirstPieceOfSplit(entry, '-');
    var pieces := Split(entry, '-');
    if forall i :: 0 <= i < |pieces| ==> ParseU64(pieces[i]).Some? then ParseU64(pieces[0]) else None
  }

  /**
   * The evidently intended reading: the entry's leading number, whatever
   * follows the first `-`. `None` still stands for a panic (the leading
   * piece is not a `u64`).
   */
  function ParseRangeStart(entry: string): Option<U64> {
    ParseU64(FirstPiece(entry, '-'))
  }

  /** The intended reading recovers the start of every range the service can send, closed or open. */
  lemma RangeStartRoundTrip(start: U64, rest: string)
    ensures ParseRangeStart(DecimalString(start) + "-" + rest) == Some(start)
  {
    FirstPieceOfSplit(DecimalString(start) + "-" + rest, '-');
    SplitAtFirst(DecimalString(start), rest, '-');
    DecimalRoundTrip(start);
  }

  /** On a closed range `a-b` the code as written agrees with the intended reading. */
  lemma ClosedRangeAsWritten(a: U64, b: U64)
    ensures ParseRangeAsWritten(DecimalString(a) + "-" + DecimalString(b)) == Some(a)
  {
    var sa, sb := DecimalString(a), DecimalString(b);
    SplitAtFirst(sa, sb, '-');
    SplitWhole(sb, '-');
    DecimalRoundTrip(a);
    DecimalRoundTrip(b);
    var pieces := Split(sa + "-" + sb, '-');
    assert pieces == [sa, sb];
  }

  /**
   * The discrepancy: an open-ended entry such as `10485760-` leaves an
   * empty last piece, which does not parse, so the code as written panics
   * where the intended reading gives the start offset.
   */
  lemma OpenRangePanicsAsWritten(start: U64)
    ensures ParseRangeAsWritten(DecimalString(start) + "-") == None
    ensures ParseRangeStart(DecimalString(start) + "-") == Some(start)
  {
    var s := DecimalString(start);
    SplitAtFirst(s, "", '-');
    assert s + "-" == s + ['-'] + "";
    var pieces := Split(s + "-", '-');
    assert pieces == [s, ""];
    assert ParseU64(pieces[1]) == None;
    RangeStartRoundTrip(start, "");
    assert DecimalString(start) + "-" + "" == s + "-";
  }
}
