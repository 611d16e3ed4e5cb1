/**
 * Field widths of a `#[bitfield(uN)]` record, declared in layout order.  The
 * bit-field macro rejects a record whose widths do not fill its backing integer;
 * `SumTo` lets each layout state that check and the start bit of every field.
 */
module BitLayout {
  /** The sum of the first `n` widths of `widths`: the start bit of field `n`. */
  function SumTo(widths: seq<nat>, n: nat): nat
    requires n <= |widths|
  {
    if n == 0 then 0 else SumTo(widths, n - 1) + widths[n - 1]
  }
}
