/** The inventory frame the dashboard components receive: one row per product with
    its cooler and floor counts and its expiry, plus the row masks they filter by. */
module Frames {

  /** One row of the inventory DataFrame. Dates are day numbers. */
  datatype Row = Row(
    product: string,
    coolerCount: int,
    floorCount: int,
    expiryDate: int,
    daysToExpiry: int,
    totalCount: int)

  /** The number of columns of a frame row (the length pandas reports for a row). */
  const RowWidth: nat := 6

  function CoolerCount(r: Row): int { r.coolerCount }
  function FloorCount(r: Row): int { r.floorCount }
  function TotalCount(r: Row): int { r.totalCount }
  function ProductName(r: Row): string { r.product }

  // The row masks used across the dashboard, by days_to_expiry.

  /** days_to_expiry < 0 */
  predicate IsExpired(r: Row) { r.daysToExpiry < 0 }
  /** days_to_expiry == 0 */
  predicate IsToday(r: Row) { r.daysToExpiry == 0 }
  /** days_to_expiry == 1 */
  predicate IsTomorrow(r: Row) { r.daysToExpiry == 1 }
  /** days_to_expiry <= 1 (expired rows included) */
  predicate NeedsAttention(r: Row) { r.daysToExpiry <= 1 }
  /** days_to_expiry.between(0, 2), both ends inclusive */
  predicate IsExpiringSoon(r: Row) { 0 <= r.daysToExpiry <= 2 }
  /** days_to_expiry.between(1, 2) */
  predicate IsWithinTwoDays(r: Row) { 1 <= r.daysToExpiry <= 2 }

  function Names(rows: seq<Row>): (ns: seq<string>)
    ensures |ns| == |rows|
    ensures forall i :: 0 <= i < |rows| ==> ns[i] == rows[i].product
  {
    seq(|rows|, i requires 0 <= i < |rows| => rows[i].product)
  }
}
