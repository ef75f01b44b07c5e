/** Generation of dummy scanned items for the app: a wipe of the scanned_items table
    followed by `count` random items drawn from a fixed catalogue, written in batches of
    at most one hundred. Math.random() draws are parameters, each in [0, 1). */
module DummyData {

  /** Milliseconds in a day. */
  const DayMs: int := 24 * 60 * 60 * 1000

  /** getRandomInt: Math.floor(r * (max - min + 1)) + min for a draw r. */
  function GetRandomInt(min: int, max: int, r: real): (n: int)
    ensures min <= max && 0.0 <= r < 1.0 ==> min <= n <= max
  {
    var width := max - min + 1;
    if min <= max && 0.0 <= r < 1.0 then
      FloorBelowWidth(r, width);
      (r * width as real).Floor + min
    else
      (r * width as real).Floor + min
  }

  /** A draw in [0, 1) scaled by a positive width floors into [0, width). */
  lemma FloorBelowWidth(r: real, width: int)
    requires 0.0 <= r < 1.0 && width >= 1
    ensures 0 <= (r * width as real).Floor < width
  {
    var w := width as real;
    var x := r * w;
    assert x < w by {
      assert (1.0 - r) * w > 0.0;
    }
    assert x >= 0.0;
    assert (x.Floor as real) <= x;
    assert x < (x.Floor + 1) as real;
  }

  /** Every integer of [min, max] is the outcome of some draw. */
  lemma GetRandomIntReaches(min: int, max: int, v: int)
    requires min <= v <= max
    ensures exists r: real :: 0.0 <= r < 1.0 && GetRandomInt(min, max, r) == v
  {
    var w := (max - min + 1) as real;
    var r := (v - min) as real / w;
    assert r * w == (v - min) as real;
    assert r < 1.0 by {
      assert (v - min) as real < w;
    }
    assert GetRandomInt(min, max, r) == v;
  }

  /** toFixed(2) read back by parseFloat: the nearest hundredth, halves rounded up. */
  function RoundHundredths(x: real): real {
    ((x * 100.0 + 0.5).Floor as real) / 100.0
  }

  /** getRandomFloat: r * (max - min) + min, rounded to hundredths. */
  function GetRandomFloat(min: int, max: int, r: real): (w: real)
    ensures min <= max && 0.0 <= r < 1.0 ==> min as real <= w <= max as real
  {
    var x := r * (max - min) as real + min as real;
    if min <= max && 0.0 <= r < 1.0 then
      var w := (max - min) as real;
      assert 0.0 <= r * w <= w by {
        assert (1.0 - r) * w >= 0.0;
      }
      assert min as real <= x <= max as real;
      var f := (x * 100.0 + 0.5).Floor;
      assert (100 * min) as real <= x * 100.0 + 0.5;
      assert f >= 100 * min;
      assert x * 100.0 + 0.5 < (100 * max + 1) as real;
      assert f <= 100 * max;
      RoundHundredths(x)
    else
      RoundHundredths(x)
  }

  /** generateRandomDates: a packing date 1 to 30 whole days before the clock and a best-
      before date 1 to 30 whole days after it, both in milliseconds. The band draw picks
      tomorrow, 2-3, 4-7 or 8-30 days ahead; the day draw picks within the band. */
  function GenerateRandomDates(now: int, rPacked: real, rBand: real, rDays: real): (dates: (int, int))
    requires 0.0 <= rPacked < 1.0 && 0.0 <= rBand < 1.0 && 0.0 <= rDays < 1.0
    ensures DayMs <= now - dates.0 <= 30 * DayMs && (now - dates.0) % DayMs == 0
    ensures DayMs <= dates.1 - now <= 30 * DayMs && (dates.1 - now) % DayMs == 0
  {
    var packedDaysAgo := GetRandomInt(1, 30, rPacked);
    var daysToExpiry :=
      if rBand < 0.1 then 1
      else if rBand < 0.3 then GetRandomInt(2, 3, rDays)
      else if rBand < 0.6 then GetRandomInt(4, 7, rDays)
      else GetRandomInt(8, 30, rDays);
    (now - packedDaysAgo * DayMs, now + daysToExpiry * DayMs)
  }

  /** The days ahead of the best-before date, band by band. */
  lemma ExpiryBands(now: int, rPacked: real, rBand: real, rDays: real)
    requires 0.0 <= rPacked < 1.0 && 0.0 <= rBand < 1.0 && 0.0 <= rDays < 1.0
    ensures var days := (GenerateRandomDates(now, rPacked, rBand, rDays).1 - now) / DayMs;
      && (days == 1 <==> rBand < 0.1)
      && (2 <= days <= 3 <==> 0.1 <= rBand < 0.3)
      && (4 <= days <= 7 <==> 0.3 <= rBand < 0.6)
      && (8 <= days <= 30 <==> 0.6 <= rBand)
  {
  }

  /** One entry of CATALOG: the net weight of a generated item lies in [lo, hi] kg. */
  datatype CatalogEntry = CatalogEntry(name: string, pid: int, lo: int, hi: int, count: int, meatType: string)

  const Catalog: seq<CatalogEntry> := [
    CatalogEntry("Chk Drumsticks", 74818, 15, 20, 6, "Chicken"),
    CatalogEntry("Chk Drumsticks", 74819, 5, 10, 8, "Chicken"),
    CatalogEntry("Chk Breasts", 74820, 10, 15, 10, "Chicken"),
    CatalogEntry("Chk Thighs", 74821, 10, 15, 12, "Chicken"),
    CatalogEntry("Beef Ribeye", 85910, 20, 25, 4, "Beef"),
    CatalogEntry("Beef Ribeye", 85911, 10, 15, 6, "Beef"),
    CatalogEntry("Beef Sirloin", 85912, 15, 20, 5, "Beef"),
    CatalogEntry("Beef Chuck", 85913, 25, 30, 3, "Beef"),
    CatalogEntry("Pork Chops", 96020, 15, 20, 8, "Pork"),
    CatalogEntry("Pork Chops", 96021, 8, 12, 12, "Pork"),
    CatalogEntry("Pork Ribs", 96022, 10, 15, 10, "Pork"),
    CatalogEntry("Pork Belly", 96023, 20, 25, 4, "Pork"),
    CatalogEntry("COHO 2PC PORTIONS", 50571637, 8, 14, 6, "Seafood"),
    CatalogEntry("YFM BASA FILLET", 31237250, 6, 12, 6, "Seafood"),
    CatalogEntry("GOAT CUBES BONE IN", 31710966, 10, 18, 12, "Halal"),
    CatalogEntry("AA STRIPLOIN STEAK", 50772502, 18, 26, 8, "Beef"),
    CatalogEntry("AA TRI TIP", 50772503, 14, 22, 8, "Beef"),
    CatalogEntry("AA BLADE STEAK", 50772504, 12, 20, 8, "Beef"),
    CatalogEntry("BF TRI TIP SIRLOIN", 50158149, 14, 22, 8, "Beef"),
    CatalogEntry("BFSTK SRLN TIP C11YF", 30062738, 10, 18, 6, "Beef"),
    CatalogEntry("BFSTK INSD RND C05YF", 31742690, 12, 20, 8, "Beef"),
    CatalogEntry("BFRST INSD BLD C09YF", 30512733, 14, 24, 8, "Beef"),
    CatalogEntry("PKSSG BR MAPLE 900ML", 31439394, 8, 14, 6, "Pork"),
    CatalogEntry("PKSSG BR MAPLE 375JV", 50576420, 4, 8, 12, "Pork"),
    CatalogEntry("PKSSG BR ORIG 375JV", 50576421, 4, 8, 12, "Pork"),
    CatalogEntry("PKSSG BR RND 250JV", 50576425, 2, 6, 8, "Pork"),
    CatalogEntry("PKSSG BR ORIG 900ML", 30347833, 8, 14, 6, "Pork"),
    CatalogEntry("PKSSG BR ORIG 375ML", 30010520, 3, 7, 8, "Pork"),
    CatalogEntry("PKSSG BR MAPLE 375ML", 30010521, 3, 7, 8, "Pork"),
    CatalogEntry("JVL BWN SUG HON", 50576373, 2, 5, 12, "Pork"),
    CatalogEntry("PKSSG DN MLDIT 500JV", 50576422, 4, 8, 12, "Pork"),
    CatalogEntry("PKSSG DN HOTIT 500JV", 50576423, 4, 8, 12, "Pork"),
    CatalogEntry("PKSSG DN BRAT 500JV", 50576424, 4, 8, 12, "Pork"),
    CatalogEntry("PKSSG GR MLDIT 454JV", 50576427, 3, 7, 8, "Pork")]

  /** Every weight range of the catalogue is a proper interval. */
  lemma CatalogRanges()
    ensures forall i :: 0 <= i < |Catalog| ==> Catalog[i].lo < Catalog[i].hi
  {
  }

  /** The draws one loop iteration consumes, in call order, with the clock reading that
      generateRandomDates takes. */
  datatype ItemDraw = ItemDraw(rCatalog: real, rWeight: real, rPacked: real, rBand: real, rDays: real, now: int)

  predicate ValidItemDraw(d: ItemDraw) {
    && 0.0 <= d.rCatalog < 1.0 && 0.0 <= d.rWeight < 1.0
    && 0.0 <= d.rPacked < 1.0 && 0.0 <= d.rBand < 1.0 && 0.0 <= d.rDays < 1.0
  }

  /** The fields a generated item is given. */
  datatype ScannedItem = ScannedItem(
    sn: int,
    pid: int,
    name: string,
    netKg: real,
    count: int,
    packedOnDate: int,
    bestBeforeDate: int)

  /** The catalogue entry a draw picks. */
  function CatalogIndex(d: ItemDraw): (k: nat)
    requires ValidItemDraw(d)
    ensures k < |Catalog|
  {
    GetRandomInt(0, |Catalog| - 1, d.rCatalog)
  }

  /** One generated item with serial number sn. */
  function MakeItem(sn: int, d: ItemDraw): ScannedItem
    requires ValidItemDraw(d)
  {
    var e := Catalog[CatalogIndex(d)];
    var dates := GenerateRandomDates(d.now, d.rPacked, d.rBand, d.rDays);
    ScannedItem(sn, e.pid, e.name, GetRandomFloat(e.lo, e.hi, d.rWeight), e.count, dates.0, dates.1)
  }

  /** A generated item copies the catalogue entry its draw picks, with a weight in that
      entry's range and the clock between its packing and best-before dates. */
  predicate CopiesEntry(it: ScannedItem, sn: int, d: ItemDraw)
    requires ValidItemDraw(d)
  {
    var e := Catalog[CatalogIndex(d)];
    && it.sn == sn && it.pid == e.pid && it.name == e.name && it.count == e.count
    && e.lo as real <= it.netKg <= e.hi as real
    && it.packedOnDate < d.now < it.bestBeforeDate
  }

  lemma MakeItemFacts(sn: int, d: ItemDraw)
    requires ValidItemDraw(d)
    ensures CopiesEntry(MakeItem(sn, d), sn, d)
  {
    CatalogRanges();
  }

  /** Draws in range for the first n iterations. */
  predicate ValidDraws(draws: seq<ItemDraw>, n: nat) {
    n <= |draws| && forall k :: 0 <= k < n ==> ValidItemDraw(draws[k])
  }

  /** The first n items generated after the serial counter starts at `start`: the k-th
      draw gives serial start + k + 1. */
  function Items(start: int, draws: seq<ItemDraw>, n: nat): seq<ScannedItem>
    requires ValidDraws(draws, n)
  {
    seq(n, k requires 0 <= k < n => MakeItem(start + k + 1, draws[k]))
  }

  /** Generating one more item appends it to those before. */
  lemma ItemsSnoc(start: int, draws: seq<ItemDraw>, n: nat)
    requires ValidDraws(draws, n + 1)
    ensures Items(start, draws, n + 1) == Items(start, draws, n) + [MakeItem(start + n + 1, draws[n])]
  {
  }

  /** A generation run yields one item per draw: serial numbers are consecutive after the
      starting draw, so strictly increasing and distinct, and each item copies the catalogue
      entry its draw picks. */
  lemma ItemsFacts(start: int, draws: seq<ItemDraw>, n: nat)
    requires ValidDraws(draws, n)
    ensures |Items(start, draws, n)| == n
    ensures forall j, k :: 0 <= j < k < n ==> Items(start, draws, n)[j].sn < Items(start, draws, n)[k].sn
    ensures forall k :: 0 <= k < n ==> CopiesEntry(Items(start, draws, n)[k], start + k + 1, draws[k])
  {
    var items := Items(start, draws, n);
    forall k | 0 <= k < n
      ensures CopiesEntry(items[k], start + k + 1, draws[k])
    {
      MakeItemFacts(start + k + 1, draws[k]);
    }
  }

  /** One database.batch call: a wipe of n records, or n creates. */
  datatype BatchOp = Destroy(n: nat) | Create(n: nat)

  /** The number of records the creates of a log write. */
  function CreatedCount(ops: seq<BatchOp>): nat {
    if ops == [] then 0
    else (if ops[0].Create? then ops[0].n else 0) + CreatedCount(ops[1..])
  }

  /** The create batches for n items: full batches of 100, then the remainder. Together
      they create the n items. */
  function CreateBatches(n: nat): (ops: seq<BatchOp>)
    ensures CreatedCount(ops) == n
  {
    if n == 0 then []
    else if n <= 100 then [Create(n)]
    else
      var rest := CreateBatches(n - 100);
      assert ([Create(100)] + rest)[1..] == rest;
      [Create(100)] + rest
  }

  /** The create batches hold every item exactly once, in ceil(n / 100) batches of 1 to
      100 items, every batch but the last full. */
  lemma {:induction false} CreateBatchesFacts(n: nat)
    ensures CreatedCount(CreateBatches(n)) == n
    ensures |CreateBatches(n)| == (n + 99) / 100
    ensures forall i :: 0 <= i < |CreateBatches(n)| ==>
      CreateBatches(n)[i].Create? && 1 <= CreateBatches(n)[i].n <= 100
    ensures forall i :: 0 <= i < |CreateBatches(n)| - 1 ==> CreateBatches(n)[i].n == 100
  {
    if n > 100 {
      CreateBatchesFacts(n - 100);
      var rest := CreateBatches(n - 100);
      assert CreateBatches(n) == [Create(100)] + rest;
      assert CreateBatches(n)[1..] == rest;
    }
  }

  /** Flushing s pending items after a multiple of 100 adds one batch of s. */
  lemma {:induction false} CreateBatchesSnoc(full: nat, s: nat)
    requires 1 <= s <= 100
    ensures CreateBatches(100 * full + s) == CreateBatches(100 * full) + [Create(s)]
  {
    if full > 0 {
      CreateBatchesSnoc(full - 1, s);
    }
  }

  /** The app's scanned_items table with a log of the batches written to it. */
  class ItemStore {
    var items: seq<ScannedItem>
    var log: seq<BatchOp>

    constructor(items0: seq<ScannedItem>)
      ensures items == items0 && log == []
    {
      items := items0;
      log := [];
    }

    /** One batch of permanent destroys covering every record. */
    method DestroyAll()
      modifies this
      ensures items == [] && log == old(log) + [Destroy(|old(items)|)]
    {
      log := log + [Destroy(|items|)];
      items := [];
    }

    /** One batch of prepared creates. */
    method CreateBatch(ops: seq<ScannedItem>)
      modifies this
      ensures items == old(items) + ops && log == old(log) + [Create(|ops|)]
    {
      items := items + ops;
      log := log + [Create(|ops|)];
    }
  }

  /** wipeAndGenerateDummyData. When the write fails (ok false) the store is untouched
      and false is returned; otherwise every record is destroyed in one batch, then
      `count` new items with consecutive serials after the starting draw are created
      in batches of at most 100, and true is returned. */
  method WipeAndGenerate(db: ItemStore, count: int, rSerial: real, draws: seq<ItemDraw>, ok: bool)
    returns (success: bool)
    requires 0.0 <= rSerial < 1.0
    requires ValidDraws(draws, if count < 0 then 0 else count)
    modifies db
    ensures success == ok
    ensures !ok ==> db.items == old(db.items) && db.log == old(db.log)
    ensures ok ==>
      var n := if count < 0 then 0 else count;
      && db.items == Items(GetRandomInt(1000000, 9000000, rSerial), draws, n)
      && db.log == old(db.log) + [Destroy(|old(db.items)|)] + CreateBatches(n)
  {
    if !ok {
      return false;
    }
    db.DestroyAll();
    var start := GetRandomInt(1000000, 9000000, rSerial);
    GenerateItems(db, start, count, draws);
    return true;
  }

  /** The generation loop after the wipe: one item per iteration with the next serial,
      pending creates flushed as a batch on reaching 100 and after the last iteration. */
  method GenerateItems(db: ItemStore, start: int, count: int, draws: seq<ItemDraw>)
    requires db.items == []
    requires ValidDraws(draws, if count < 0 then 0 else count)
    modifies db
    ensures db.items == Items(start, draws, if count < 0 then 0 else count)
    ensures db.log == old(db.log) + CreateBatches(if count < 0 then 0 else count)
  {
    var currentSn := start;
    var createOps: seq<ScannedItem> := [];
    var i := 0;
    ghost var full: nat := 0;
    while i < count
      invariant i == 0 || 0 < i <= count
      invariant ValidDraws(draws, i)
      invariant currentSn == start + i
      invariant db.items + createOps == Items(start, draws, i)
      invariant |createOps| < 100
      invariant i < count ==> i - |createOps| == 100 * full
      invariant i >= count ==> createOps == []
      invariant db.log == old(db.log) + CreateBatches(i - |createOps|)
    {
      currentSn := currentSn + 1;
      var item := NextItem(start, draws, i, currentSn, db.items, createOps);
      createOps, full := QueueCreate(db, count, i, item, createOps, full, old(db.log), Items(start, draws, i + 1));
      i := i + 1;
    }
    assert db.items + createOps == db.items;
  }

  /** The pending-create queue of the generation loop: item number i joins the pending
      creates, which are written as one batch when they reach 100 or when this is the
      last iteration. Whatever the items, the store plus the queue grows by the item and
      the log by the batches of the items written so far. */
  method QueueCreate(db: ItemStore, count: int, i: nat, item: ScannedItem, createOps: seq<ScannedItem>,
                     ghost full: nat, ghost log0: seq<BatchOp>, ghost target: seq<ScannedItem>)
    returns (pending: seq<ScannedItem>, ghost full': nat)
    requires i < count
    requires db.items + (createOps + [item]) == target
    requires |createOps| < 100 && i - |createOps| == 100 * full
    requires db.log == log0 + CreateBatches(i - |createOps|)
    modifies db
    ensures db.items + pending == target
    ensures |pending| < 100
    ensures i + 1 < count ==> i + 1 - |pending| == 100 * full'
    ensures i + 1 >= count ==> pending == []
    ensures db.log == log0 + CreateBatches(i + 1 - |pending|)
  {
    pending := createOps + [item];
    full' := full;
    if |pending| >= 100 || i == count - 1 {
      FlushStep(log0, full, i, |createOps|);
      db.CreateBatch(pending);
      pending := [];
      full' := full + 1;
      assert db.items + pending == db.items;
    }
  }

  /** The body of the generation loop before the queueing: the item with the next serial
      number, made from this iteration's draws, extends the items generated so far. */
  method NextItem(start: int, draws: seq<ItemDraw>, i: nat, sn: int,
                  ghost done: seq<ScannedItem>, ghost createOps: seq<ScannedItem>) returns (item: ScannedItem)
    requires ValidDraws(draws, i + 1) && sn == start + i + 1
    requires done + createOps == Items(start, draws, i)
    ensures done + (createOps + [item]) == Items(start, draws, i + 1)
  {
    item := MakeItem(sn, draws[i]);
    ItemsStep(start, draws, i, done, createOps);
  }

  /** Appending the next item to the pending creates keeps them equal to the items
      generated so far. */
  lemma ItemsStep(start: int, draws: seq<ItemDraw>, i: nat, done: seq<ScannedItem>, createOps: seq<ScannedItem>)
    requires ValidDraws(draws, i + 1)
    requires done + createOps == Items(start, draws, i)
    ensures done + (createOps + [MakeItem(start + i + 1, draws[i])]) == Items(start, draws, i + 1)
  {
    ItemsSnoc(start, draws, i);
    assert done + (createOps + [MakeItem(start + i + 1, draws[i])]) == (done + createOps) + [MakeItem(start + i + 1, draws[i])];
  }

  /** Flushing the pending creates, the one just added included, extends the log by the
      next batch. */
  lemma FlushStep(log0: seq<BatchOp>, full: nat, i: nat, queued: nat)
    requires queued < 100 && i - queued == 100 * full
    ensures (log0 + CreateBatches(i - queued)) + [Create(queued + 1)] == log0 + CreateBatches(i + 1)
  {
    CreateBatchesSnoc(full, queued + 1);
    assert i + 1 == 100 * full + (queued + 1);
  }
}
