/** The expiry alert panel: rows already expired, expiring today and expiring
    tomorrow, each shown as a box with its count and product names. */
module Alerts {
  import opened Text
  import opened Seqs
  import opened Frames

  datatype AlertKind = AlreadyExpired | ExpiringToday | ExpiringTomorrow

  /** The rows an alert box lists, in frame order. */
  function Group(rows: seq<Row>, kind: AlertKind): seq<Row> {
    match kind
    case AlreadyExpired => Filter(rows, IsExpired)
    case ExpiringToday => Filter(rows, IsToday)
    case ExpiringTomorrow => Filter(rows, IsTomorrow)
  }

  /** No row is listed in two boxes, and each group keeps the frame's row order. */
  lemma GroupsDisjoint(rows: seq<Row>, k1: AlertKind, k2: AlertKind)
    requires k1 != k2
    ensures forall r :: r in Group(rows, k1) ==> r !in Group(rows, k2)
    ensures IsSubsequence(Group(rows, k1), rows)
  {
    forall r | r in Group(rows, k1) ensures r !in Group(rows, k2) {
      var g1, g2 := Group(rows, k1), Group(rows, k2);
      var i :| 0 <= i < |g1| && g1[i] == r;
    }
    match k1
    case AlreadyExpired => FilterIsSubsequence(rows, IsExpired);
    case ExpiringToday => FilterIsSubsequence(rows, IsToday);
    case ExpiringTomorrow => FilterIsSubsequence(rows, IsTomorrow);
  }

  /** One alert box: its heading count and the names line. */
  datatype AlertBox = AlertBox(kind: AlertKind, count: nat, names: string)

  /** The box for a group, present only when the group has rows. */
  function BoxFor(rows: seq<Row>, kind: AlertKind): seq<AlertBox> {
    var g := Group(rows, kind);
    if g == [] then [] else [AlertBox(kind, |g|, Join(", ", Names(g)))]
  }

  /** What a box for one group holds: present exactly when the group has rows, with
      the group's size and its product names joined by ", " in frame order. */
  lemma BoxForFacts(rows: seq<Row>, kind: AlertKind)
    ensures |BoxFor(rows, kind)| <= 1
    ensures BoxFor(rows, kind) != [] <==> Group(rows, kind) != []
    ensures forall b :: b in BoxFor(rows, kind) ==>
      b.kind == kind && b.count == |Group(rows, kind)| > 0 && b.names == Join(", ", Names(Group(rows, kind)))
  {
  }

  /** render_alerts: nothing at all when no group has rows, else the boxes left to right. */
  function RenderAlerts(rows: seq<Row>): (panel: Option<seq<AlertBox>>)
    ensures panel.None? <==> forall i :: 0 <= i < |rows| ==> rows[i].daysToExpiry > 1
  {
    FilterEmptyIff(rows, IsExpired);
    FilterEmptyIff(rows, IsToday);
    FilterEmptyIff(rows, IsTomorrow);
    if Group(rows, AlreadyExpired) == [] && Group(rows, ExpiringToday) == [] && Group(rows, ExpiringTomorrow) == [] then
      None
    else
      Some(BoxFor(rows, AlreadyExpired) + BoxFor(rows, ExpiringToday) + BoxFor(rows, ExpiringTomorrow))
  }

  /** When the panel is shown it holds one to three boxes; each box's count is its
      group's size and its names line lists the group's products in frame order. */
  lemma RenderAlertsBoxes(rows: seq<Row>)
    requires RenderAlerts(rows).Some?
    ensures 1 <= |RenderAlerts(rows).value| <= 3
    ensures forall b :: b in RenderAlerts(rows).value ==>
      b.count == |Group(rows, b.kind)| > 0 && b.names == Join(", ", Names(Group(rows, b.kind)))
  {
    var e, t, m := BoxFor(rows, AlreadyExpired), BoxFor(rows, ExpiringToday), BoxFor(rows, ExpiringTomorrow);
    BoxForFacts(rows, AlreadyExpired);
    BoxForFacts(rows, ExpiringToday);
    BoxForFacts(rows, ExpiringTomorrow);
    var panel := RenderAlerts(rows).value;
    assert panel == e + t + m;
    forall b | b in panel
      ensures b.count == |Group(rows, b.kind)| > 0 && b.names == Join(", ", Names(Group(rows, b.kind)))
    {
      if b in e {
      } else if b in t {
      } else {
        assert b in m;
      }
    }
  }

  /** When the panel is shown, a group has a box exactly when it has rows. */
  lemma RenderAlertsShowsNonEmptyGroups(rows: seq<Row>, k: AlertKind)
    requires RenderAlerts(rows).Some?
    ensures Group(rows, k) != [] <==> exists b :: b in RenderAlerts(rows).value && b.kind == k
  {
    var e, t, m := BoxFor(rows, AlreadyExpired), BoxFor(rows, ExpiringToday), BoxFor(rows, ExpiringTomorrow);
    BoxForFacts(rows, AlreadyExpired);
    BoxForFacts(rows, ExpiringToday);
    BoxForFacts(rows, ExpiringTomorrow);
    var panel := RenderAlerts(rows).value;
    assert panel == e + t + m;
    var own := BoxFor(rows, k);
    if Group(rows, k) != [] {
      assert own[0] in panel;
    } else {
      forall b | b in panel ensures b.kind != k {
        if b in e {
        } else if b in t {
        } else {
          assert b in m;
        }
      }
    }
  }
}
