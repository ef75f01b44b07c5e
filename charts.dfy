/** The expiry timeline of the dashboard: each row's days-to-expiry is put in a
    bucket, the item totals are summed per bucket, and the five buckets are laid
    out in BUCKET_ORDER with their colours. */
module Charts {
  import opened Settings
  import opened Frames
  import opened Seqs

  /** _expiry_bucket. Note that 3 and 4 days also land in "5+ Days". */
  function ExpiryBucket(days: int): (b: string)
    ensures b in BucketOrder
  {
    if days < 0 then "Expired"
    else if days == 0 then "Today"
    else if days == 1 then "1 Day"
    else if days == 2 then "2 Days"
    else "5+ Days"
  }

  /** Which bucket a number of days falls into, both ways round. */
  lemma ExpiryBucketCases(days: int)
    ensures ExpiryBucket(days) == "Expired" <==> days < 0
    ensures ExpiryBucket(days) == "Today" <==> days == 0
    ensures ExpiryBucket(days) == "1 Day" <==> days == 1
    ensures ExpiryBucket(days) == "2 Days" <==> days == 2
    ensures ExpiryBucket(days) == "5+ Days" <==> days >= 3
  {
  }

  /** The position of a bucket label in BUCKET_ORDER. */
  function BucketIndex(bucket: string): (k: nat)
    requires bucket in BucketOrder
    ensures k < |BucketOrder| && BucketOrder[k] == bucket
  {
    if bucket == "Expired" then 0
    else if bucket == "Today" then 1
    else if bucket == "1 Day" then 2
    else if bucket == "2 Days" then 3
    else 4
  }

  /** Later expiry never moves a row to an earlier bucket of the timeline. */
  lemma ExpiryBucketMonotone(d1: int, d2: int)
    requires d1 <= d2
    ensures BucketIndex(ExpiryBucket(d1)) <= BucketIndex(ExpiryBucket(d2))
  {
  }

  /** groupby("bucket")["total_count"].sum() for one bucket; 0 when no row falls in it. */
  function BucketCount(rows: seq<Row>, bucket: string): (n: int)
    ensures (forall j :: 0 <= j < |rows| ==> rows[j].totalCount >= 0) ==> 0 <= n <= Sum(rows, TotalCount)
  {
    if rows == [] then 0
    else (if ExpiryBucket(rows[0].daysToExpiry) == bucket then rows[0].totalCount else 0)
         + BucketCount(rows[1..], bucket)
  }

  /** One bar of the timeline: its bucket, item count and colour. */
  datatype Bar = Bar(bucket: string, count: int, color: string)

  /** The aggregated table reindexed to BUCKET_ORDER (fill value 0) with BUCKET_COLORS
      mapped on. The frame it reads is a value, so the caller's frame is untouched. */
  function BucketTable(rows: seq<Row>): (bars: seq<Bar>)
    ensures |bars| == |BucketOrder|
    ensures forall i, j :: 0 <= i < j < |bars| ==> bars[i].bucket != bars[j].bucket
  {
    BucketColorsMatchOrder();
    seq(|BucketOrder|, i requires 0 <= i < |BucketOrder| =>
      Bar(BucketOrder[i], BucketCount(rows, BucketOrder[i]), BucketColors[BucketOrder[i]]))
  }

  function BarCount(b: Bar): int { b.count }

  /** The table has the five buckets in order, each with its own colour; a bucket no
      row falls into shows 0. */
  lemma BucketTableShape(rows: seq<Row>)
    ensures |BucketTable(rows)| == |BucketOrder|
    ensures forall i :: 0 <= i < |BucketOrder| ==>
      BucketTable(rows)[i].bucket == BucketOrder[i]
      && BucketTable(rows)[i].color == BucketColors[BucketOrder[i]]
    ensures forall i :: 0 <= i < |BucketOrder| ==>
      ((forall j :: 0 <= j < |rows| ==> ExpiryBucket(rows[j].daysToExpiry) != BucketOrder[i])
       ==> BucketTable(rows)[i].count == 0)
  {
    forall i | 0 <= i < |BucketOrder|
      ensures (forall j :: 0 <= j < |rows| ==> ExpiryBucket(rows[j].daysToExpiry) != BucketOrder[i])
              ==> BucketTable(rows)[i].count == 0
    {
      if forall j :: 0 <= j < |rows| ==> ExpiryBucket(rows[j].daysToExpiry) != BucketOrder[i] {
        EmptyBucketIsZero(rows, BucketOrder[i]);
      }
    }
  }

  lemma {:induction false} EmptyBucketIsZero(rows: seq<Row>, bucket: string)
    requires forall j :: 0 <= j < |rows| ==> ExpiryBucket(rows[j].daysToExpiry) != bucket
    ensures BucketCount(rows, bucket) == 0
  {
    if rows != [] {
      EmptyBucketIsZero(rows[1..], bucket);
    }
  }

  /** Every row is counted in exactly one bucket: the five bucket counts add up to the
      total item count of the frame. */
  lemma {:induction false} BucketCountsConserveTotal(rows: seq<Row>)
    ensures BucketCount(rows, "Expired") + BucketCount(rows, "Today") + BucketCount(rows, "1 Day")
            + BucketCount(rows, "2 Days") + BucketCount(rows, "5+ Days")
            == Sum(rows, TotalCount)
  {
    if rows != [] {
      BucketCountsConserveTotal(rows[1..]);
    }
  }

  /** The bars of the timeline add up to the total item count of the frame. */
  lemma BucketTableTotal(rows: seq<Row>)
    ensures Sum(BucketTable(rows), BarCount) == Sum(rows, TotalCount)
  {
    var t := BucketTable(rows);
    BucketCountsConserveTotal(rows);
    calc {
      Sum(t, BarCount);
      t[0].count + Sum(t[1..], BarCount);
      t[0].count + t[1].count + Sum(t[2..], BarCount);
      { assert t[2..][1..] == t[3..]; }
      t[0].count + t[1].count + t[2].count + Sum(t[3..], BarCount);
      { assert t[3..][1..] == t[4..]; }
      t[0].count + t[1].count + t[2].count + t[3].count + Sum(t[4..], BarCount);
      { assert t[4..][1..] == []; }
      t[0].count + t[1].count + t[2].count + t[3].count + t[4].count;
    }
  }
}
