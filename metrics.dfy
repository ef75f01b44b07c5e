/** The three KPI cards of the dashboard: items in the cooler, items on the floor,
    and products expiring soon. */
module Metrics {
  import opened Seqs
  import opened Frames

  datatype Kpis = Kpis(
    totalCooler: int,
    totalFloor: int,
    expiringSoon: nat,
    moreIn2Days: nat,
    uniqueProds: nat)

  /** render_kpi_row's aggregates. "Unique products" is the number of rows, not the
      number of distinct product names; "expiring soon" counts 0 to 2 days inclusive and
      the "more within 2 days" line counts 1 to 2 days, so the card shows today's rows
      plus those. */
  function KpiRow(rows: seq<Row>): (k: Kpis)
    ensures k.totalCooler == Sum(rows, CoolerCount) && k.totalFloor == Sum(rows, FloorCount)
    ensures k.uniqueProds == |rows|
    ensures k.moreIn2Days <= k.expiringSoon <= k.uniqueProds
    ensures k.expiringSoon - k.moreIn2Days == |Filter(rows, IsToday)|
  {
    FilterLengthSplit(rows, IsToday, IsWithinTwoDays, IsExpiringSoon);
    Kpis(
      Sum(rows, CoolerCount),
      Sum(rows, FloorCount),
      |Filter(rows, IsExpiringSoon)|,
      |Filter(rows, IsWithinTwoDays)|,
      |rows|)
  }
}
