/** The product inventory table: a status text per row and a background style per
    row chosen by days-to-expiry (red expired, amber today, blue within two days). */
module InventoryTable {
  import opened Text
  import opened Frames

  const ExpiredStyle := "background-color: #fee2e2; color: #991b1b"
  const TodayStyle := "background-color: #fef9c3; color: #854d0e"
  const SoonStyle := "background-color: #dbeafe; color: #1e40af"
  const PlainStyle := ""

  /** The same style repeated once per column. */
  function Repeat(style: string, n: nat): (r: seq<string>)
    ensures |r| == n && forall i :: 0 <= i < n ==> r[i] == style
  {
    seq(n, _ => style)
  }

  /** _row_color, on a row of the loaded frame. */
  function RowColor(row: Row): (r: seq<string>)
    ensures |r| == RowWidth
    ensures forall i :: 0 <= i < |r| ==> r[i] == r[0]
  {
    var days := row.daysToExpiry;
    var bg :=
      if days < 0 then ExpiredStyle
      else if days == 0 then TodayStyle
      else if days <= 2 then SoonStyle
      else PlainStyle;
    Repeat(bg, RowWidth)
  }

  /** The style picked for a row, both ways round: the four cases are disjoint and
      cover every number of days. */
  lemma RowColorCases(row: Row)
    ensures RowColor(row)[0] == ExpiredStyle <==> row.daysToExpiry < 0
    ensures RowColor(row)[0] == TodayStyle <==> row.daysToExpiry == 0
    ensures RowColor(row)[0] == SoonStyle <==> 1 <= row.daysToExpiry <= 2
    ensures RowColor(row)[0] == PlainStyle <==> row.daysToExpiry >= 3
  {
  }

  /** _fmt_status: each kind of status text belongs to exactly its days. */
  function FmtStatus(days: int): (status: string)
    ensures |status| >= 7
    ensures status[..7] == "Expired" <==> days < 0
    ensures status == "Expires Today" <==> days == 0
    ensures status == "Tomorrow" <==> days == 1
    ensures status[..3] == "In " <==> days >= 2
  {
    if days < 0 then
      var s := "Expired " + NatToString(-days) + "d ago";
      assert s[..7] == "Expired" && s[2] == 'p' && s[6] == 'd';
      s
    else if days == 0 then
      var s := "Expires Today";
      assert s[..7] != "Expired" by { assert s[6] == 's'; }
      assert s[0] == 'E';
      s
    else if days == 1 then
      var s := "Tomorrow";
      assert s[0] == 'T';
      s
    else
      var s := "In " + NatToString(days) + " days";
      assert s[..3] == "In " && s[0] == 'I';
      s
  }

  lemma MiddleDetermined(a: string, x: string, y: string, b: string)
    requires a + x + b == a + y + b
    ensures x == y
  {
    var s := a + x + b;
    assert x == s[|a|..|s| - |b|];
    assert y == (a + y + b)[|a|..|s| - |b|];
  }

  /** The status text determines the number of days: distinct days never share a status. */
  lemma FmtStatusInjective(d1: int, d2: int)
    requires FmtStatus(d1) == FmtStatus(d2)
    ensures d1 == d2
  {
    var s := FmtStatus(d1);
    if d1 < 0 {
      assert s[0] == 'E' && s[6] == 'd';
      if d2 < 0 {
        MiddleDetermined("Expired ", NatToString(-d1), NatToString(-d2), "d ago");
        NatToStringInjective(-d1, -d2);
      }
    } else if d1 == 0 {
      assert s[0] == 'E' && s[6] == 's';
    } else if d1 == 1 {
      assert s[0] == 'T';
    } else {
      assert s[0] == 'I';
      if d2 >= 2 {
        MiddleDetermined("In ", NatToString(d1), NatToString(d2), " days");
        NatToStringInjective(d1, d2);
      }
    }
  }

  /** A row of display_df after the renaming: Product, Cooler, Floor, Expiry Date, Days, Status. */
  datatype DisplayRow = DisplayRow(
    product: string,
    cooler: int,
    floor: int,
    expiryDate: int,
    days: int,
    status: string)

  /** The column subset of the frame, with one status computed per row from that row's
      days_to_expiry, in the frame's row order. */
  function DisplayFrame(rows: seq<Row>): (d: seq<DisplayRow>)
    ensures |d| == |rows|
    ensures forall i :: 0 <= i < |rows| ==>
      d[i] == DisplayRow(rows[i].product, rows[i].coolerCount, rows[i].floorCount,
                         rows[i].expiryDate, rows[i].daysToExpiry, FmtStatus(rows[i].daysToExpiry))
    ensures forall i, j :: 0 <= i < |d| && 0 <= j < |d| ==> (d[i].status == d[j].status <==> d[i].days == d[j].days)
  {
    var d := seq(|rows|, i requires 0 <= i < |rows| =>
      var r := rows[i];
      DisplayRow(r.product, r.coolerCount, r.floorCount, r.expiryDate, r.daysToExpiry, FmtStatus(r.daysToExpiry)));
    StatusDeterminesDays(d);
    d
  }

  /** Rows whose status is formatted from their own days: two rows share a status
      exactly when they share the number of days. */
  lemma StatusDeterminesDays(d: seq<DisplayRow>)
    requires forall i :: 0 <= i < |d| ==> d[i].status == FmtStatus(d[i].days)
    ensures forall i, j :: 0 <= i < |d| && 0 <= j < |d| ==> (d[i].status == d[j].status <==> d[i].days == d[j].days)
  {
    forall i, j | 0 <= i < |d| && 0 <= j < |d| && d[i].status == d[j].status
      ensures d[i].days == d[j].days
    {
      FmtStatusInjective(d[i].days, d[j].days);
    }
  }

  /** The number of columns of a display row. */
  const DisplayWidth: nat := 6

  /** _row_color_renamed: the same colouring, reading the renamed "Days" column. */
  function RowColorRenamed(row: DisplayRow): (r: seq<string>)
    ensures |r| == DisplayWidth
    ensures forall i :: 0 <= i < |r| ==> r[i] == r[0]
  {
    var days := row.days;
    var bg :=
      if days < 0 then ExpiredStyle
      else if days == 0 then TodayStyle
      else if days <= 2 then SoonStyle
      else PlainStyle;
    Repeat(bg, DisplayWidth)
  }

  /** The renamed helper colours every displayed row exactly as _row_color colours the
      frame row it came from. */
  lemma RowColorRenamedAgrees(rows: seq<Row>, i: nat)
    requires i < |rows|
    ensures RowColorRenamed(DisplayFrame(rows)[i]) == RowColor(rows[i])
  {
  }
}
