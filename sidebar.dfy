/** The dashboard's left navigation: a category selector whose options carry a badge
    with the number of rows needing attention, and the global quick stats. */
module Sidebar {
  import opened Text
  import opened Seqs
  import opened Settings
  import opened Frames
  import opened Loader

  /** The label the radio shows for a category option. */
  function BadgeLabel(category: string, count: nat): (text: string)
    ensures |text| > |category|
    ensures text[..|category|] == category
  {
    category + "  —  " + NatToString(count) + " expiring"
  }

  /** days_to_expiry <= 0: the rows the quick stats report, today's and expired ones. */
  predicate ExpiredOrToday(r: Row) { r.daysToExpiry <= 0 }

  /** What render_sidebar shows and returns: the badge counts, the option labels, the
      selected category and the quick-stat row counts. */
  datatype SidebarView = SidebarView(
    expiryCounts: map<string, nat>,
    labels: seq<string>,
    selected: string,
    expiringToday: nat,
    alreadyExpired: nat)

  /** The sum of the badges over the catalogue. */
  function BadgeTotal(counts: map<string, nat>): int
    requires forall i :: 0 <= i < |Products| ==> Products[i].name in counts
  {
    SumInts(seq(|Products|, i requires 0 <= i < |Products| => counts[Products[i].name] as int))
  }

  /** expiry_counts[cat] for the i-th category: the rows of load_category_data(cat)
      with days_to_expiry <= 1. */
  function Badge(i: nat, draws: seq<Draw>, today: int): (n: nat)
    requires i < |Products| && ValidStream(draws)
    ensures IsCategory(Products[i].name)
    ensures n == |Filter(LoadCategoryData(Products[i].name, draws, today), NeedsAttention)|
    ensures n <= |Products[i].products|
  {
    ProductsOfAt(i);
    |Filter(LoadCategoryData(Products[i].name, draws, today), NeedsAttention)|
  }

  /** The loop filling expiry_counts, one entry per category. */
  method ExpiryCounts(draws: seq<Draw>, today: int) returns (counts: map<string, nat>)
    requires ValidStream(draws)
    ensures counts.Keys == set i | 0 <= i < |Products| :: Products[i].name
    ensures forall i :: 0 <= i < |Products| ==> counts[Products[i].name] == Badge(i, draws, today)
  {
    CatalogueShape();
    counts := map[];
    for i := 0 to |Products|
      invariant counts.Keys == set j | 0 <= j < i :: Products[j].name
      invariant forall j :: 0 <= j < i ==> counts[Products[j].name] == Badge(j, draws, today)
    {
      var cat := Products[i].name;
      ProductsOfAt(i);
      var dfTmp := LoadCategoryData(cat, draws, today);
      counts := counts[cat := |Filter(dfTmp, NeedsAttention)|];
    }
  }

  /** The radio's option labels, in catalogue order. No two options share a label, so
      the label shown identifies the category the radio returns. */
  function OptionLabels(counts: map<string, nat>): (labels: seq<string>)
    requires forall i :: 0 <= i < |Products| ==> Products[i].name in counts
    ensures |labels| == |Products|
    ensures forall i :: 0 <= i < |Products| ==> labels[i] == BadgeLabel(Products[i].name, counts[Products[i].name])
    ensures forall i, j :: 0 <= i < j < |labels| ==> labels[i] != labels[j]
  {
    var labels := seq(|Products|, i requires 0 <= i < |Products| => BadgeLabel(Products[i].name, counts[Products[i].name]));
    forall i, j | 0 <= i < j < |labels| ensures labels[i] != labels[j] {
      assert labels[i][0] == Products[i].name[0] && labels[j][0] == Products[j].name[0];
    }
    labels
  }

  /** The quick stats of a frame: its rows expiring today and its rows already expired. */
  method QuickStats(rows: seq<Row>) returns (expiringToday: nat, alreadyExpired: nat)
    ensures expiringToday == |Filter(rows, IsToday)| && alreadyExpired == |Filter(rows, IsExpired)|
    ensures expiringToday + alreadyExpired <= |Filter(rows, NeedsAttention)|
  {
    expiringToday := |Filter(rows, IsToday)|;
    alreadyExpired := |Filter(rows, IsExpired)|;
    QuickStatsNeedAttention(rows);
  }

  /** render_sidebar. The radio's answer is the parameter choice (an index into the
      options, which are the category names in catalogue order). */
  method RenderSidebar(draws: seq<Draw>, today: int, choice: nat) returns (v: SidebarView)
    requires ValidStream(draws) && choice < |Products|
    ensures v.expiryCounts.Keys == set i | 0 <= i < |Products| :: Products[i].name
    ensures forall i :: 0 <= i < |Products| ==> v.expiryCounts[Products[i].name] == Badge(i, draws, today)
    ensures |v.labels| == |Products|
    ensures forall i :: 0 <= i < |Products| ==>
      v.labels[i] == BadgeLabel(Products[i].name, Badge(i, draws, today))
    ensures v.selected == Products[choice].name
    ensures v.expiringToday == |Filter(LoadAllData(draws, today), IsToday)|
    ensures v.alreadyExpired == |Filter(LoadAllData(draws, today), IsExpired)|
    ensures v.expiringToday + v.alreadyExpired <= BadgeTotal(v.expiryCounts)
  {
    var counts := ExpiryCounts(draws, today);
    var labels := OptionLabels(counts);
    var allDf := LoadAllData(draws, today);
    var expiringToday, alreadyExpired := QuickStats(allDf);
    QuickStatsWithinBadges(draws, today, counts);
    v := SidebarView(counts, labels, Products[choice].name, expiringToday, alreadyExpired);
  }

  /** Every row counted in the quick stats is also counted by its category's badge, so
      the two quick stats together never exceed the sum of the badges. */
  lemma QuickStatsWithinBadges(draws: seq<Draw>, today: int, counts: map<string, nat>)
    requires ValidStream(draws)
    requires forall i :: 0 <= i < |Products| ==>
      Products[i].name in counts && counts[Products[i].name] == Badge(i, draws, today)
    ensures |Filter(LoadAllData(draws, today), IsToday)| + |Filter(LoadAllData(draws, today), IsExpired)|
            <= BadgeTotal(counts)
  {
    QuickStatsNeedAttention(LoadAllData(draws, today));
    BadgesCountAttention(draws, today, counts);
  }

  /** Today's and expired rows are disjoint and both need attention. */
  lemma QuickStatsNeedAttention(rows: seq<Row>)
    ensures |Filter(rows, IsToday)| + |Filter(rows, IsExpired)| <= |Filter(rows, NeedsAttention)|
  {
    FilterLengthSplit(rows, IsToday, IsExpired, ExpiredOrToday);
    FilterLengthMonotone(rows, ExpiredOrToday, NeedsAttention);
  }

  /** The badges add up to the number of rows of the combined frame needing attention. */
  lemma BadgesCountAttention(draws: seq<Draw>, today: int, counts: map<string, nat>)
    requires ValidStream(draws)
    requires forall i :: 0 <= i < |Products| ==>
      Products[i].name in counts && counts[Products[i].name] == Badge(i, draws, today)
    ensures |Filter(LoadAllData(draws, today), NeedsAttention)| == BadgeTotal(counts)
  {
    var frames := CategoryFrames(draws, today);
    FilterFlattenLength(frames, NeedsAttention);
    BadgesPerFrame(draws, today, counts);
  }

  /** Category by category, a badge is the attention count of that category's frame. */
  lemma BadgesPerFrame(draws: seq<Draw>, today: int, counts: map<string, nat>)
    requires ValidStream(draws)
    requires forall i :: 0 <= i < |Products| ==>
      Products[i].name in counts && counts[Products[i].name] == Badge(i, draws, today)
    ensures var frames := CategoryFrames(draws, today);
      seq(|frames|, i requires 0 <= i < |frames| => |Filter(frames[i], NeedsAttention)|)
      == seq(|Products|, i requires 0 <= i < |Products| => counts[Products[i].name] as int)
  {
    var frames := CategoryFrames(draws, today);
    LoadAllDataParts(draws, today);
    var perFrame := seq(|frames|, i requires 0 <= i < |frames| => |Filter(frames[i], NeedsAttention)|);
    var perBadge := seq(|Products|, i requires 0 <= i < |Products| => counts[Products[i].name] as int);
    forall i | 0 <= i < |Products| ensures perFrame[i] == perBadge[i] {
      assert frames[i] == LoadCategoryData(Products[i].name, draws, today);
    }
    assert perFrame == perBadge;
  }
}
