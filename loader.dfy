/** The dashboard's data layer. It returns reproducible mock data: the generator is
    reseeded with the same seed on every call, so each category's frame is a fixed
    function of its product list, and every category reads the same stream of draws. */
module Loader {
  import opened Settings
  import opened Frames
  import opened Seqs

  /** What the seeded generator yields for one product: the index random.choice picks in
      EXPIRY_OFFSETS, then randint(8, 80) for the cooler and randint(2, 25) for the floor. */
  datatype Draw = Draw(offsetIndex: nat, cooler: int, floor: int)

  predicate ValidDraw(d: Draw) {
    d.offsetIndex < |ExpiryOffsets| && 8 <= d.cooler <= 80 && 2 <= d.floor <= 25
  }

  /** The stream after random.seed(42): long enough for the largest category, and
      every draw within the ranges the generator guarantees. */
  predicate ValidStream(draws: seq<Draw>) {
    |draws| >= MaxCategorySize && forall i :: 0 <= i < |draws| ==> ValidDraw(draws[i])
  }

  /** The row appended for one product; today is a day number. */
  function MockRow(product: string, d: Draw, today: int): (r: Row)
    requires ValidDraw(d)
    ensures r.product == product && r.coolerCount == d.cooler && r.floorCount == d.floor
    ensures 8 <= r.coolerCount <= 80 && 2 <= r.floorCount <= 25
    ensures r.daysToExpiry in ExpiryOffsets && r.daysToExpiry == r.expiryDate - today
    ensures r.totalCount == r.coolerCount + r.floorCount
  {
    var offset := ExpiryOffsets[d.offsetIndex];
    var expiry := today + offset;
    Row(product, d.cooler, d.floor, expiry, expiry - today, d.cooler + d.floor)
  }

  /** The frame _mock_data returns for a product list: one row per product, in
      catalogue order, the k-th product reading the k-th draw. */
  function MockFrame(products: seq<string>, draws: seq<Draw>, today: int): (rows: seq<Row>)
    requires |products| <= |draws| && forall i :: 0 <= i < |draws| ==> ValidDraw(draws[i])
    ensures |rows| == |products|
    ensures forall i :: 0 <= i < |rows| ==> rows[i].product == products[i]
    ensures forall i :: 0 <= i < |rows| ==> 8 <= rows[i].coolerCount <= 80 && 2 <= rows[i].floorCount <= 25
    ensures forall i :: 0 <= i < |rows| ==> rows[i].daysToExpiry in ExpiryOffsets
    ensures forall i :: 0 <= i < |rows| ==> rows[i].daysToExpiry == rows[i].expiryDate - today
    ensures forall i :: 0 <= i < |rows| ==> rows[i].totalCount == rows[i].coolerCount + rows[i].floorCount
  {
    seq(|products|, i requires 0 <= i < |products| => MockRow(products[i], draws[i], today))
  }

  /** _mock_data: the row-appending loop. */
  method MockData(products: seq<string>, draws: seq<Draw>, today: int) returns (rows: seq<Row>)
    requires |products| <= |draws| && forall i :: 0 <= i < |draws| ==> ValidDraw(draws[i])
    ensures rows == MockFrame(products, draws, today)
  {
    rows := [];
    for k := 0 to |products|
      invariant rows == MockFrame(products[..k], draws, today)
    {
      var d := draws[k];
      rows := rows + [MockRow(products[k], d, today)];
    }
    assert products[..|products|] == products;
  }

  /** Rows at the same position of two categories come from the same draw: the same
      counts and the same days to expiry. */
  lemma MockFrameSharedStream(ps1: seq<string>, ps2: seq<string>, draws: seq<Draw>, today: int, k: nat)
    requires |ps1| <= |draws| && |ps2| <= |draws| && forall i :: 0 <= i < |draws| ==> ValidDraw(draws[i])
    requires k < |ps1| && k < |ps2|
    ensures MockFrame(ps1, draws, today)[k].coolerCount == MockFrame(ps2, draws, today)[k].coolerCount
    ensures MockFrame(ps1, draws, today)[k].floorCount == MockFrame(ps2, draws, today)[k].floorCount
    ensures MockFrame(ps1, draws, today)[k].daysToExpiry == MockFrame(ps2, draws, today)[k].daysToExpiry
  {
  }

  lemma ProductsOfAt(i: nat)
    requires i < |Products|
    ensures IsCategory(Products[i].name)
    ensures ProductsOf(Products[i].name) == Products[i].products
  {
    CatalogueShape();
  }

  /** load_category_data(category). */
  function LoadCategoryData(category: string, draws: seq<Draw>, today: int): (rows: seq<Row>)
    requires IsCategory(category) && ValidStream(draws)
    ensures |rows| == |ProductsOf(category)|
    ensures forall i :: 0 <= i < |rows| ==> rows[i].product == ProductsOf(category)[i]
  {
    CatalogueShape();
    MockFrame(ProductsOf(category), draws, today)
  }

  function CategoryFrames(draws: seq<Draw>, today: int): (frames: seq<seq<Row>>)
    requires ValidStream(draws)
    ensures |frames| == |Products|
  {
    CatalogueShape();
    seq(|Products|, i requires 0 <= i < |Products| => MockFrame(Products[i].products, draws, today))
  }

  /** load_all_data: every category's frame, concatenated in catalogue order. It is as
      long as all categories together: 34 rows. */
  function LoadAllData(draws: seq<Draw>, today: int): (rows: seq<Row>)
    requires ValidStream(draws)
    ensures |rows| == 34
  {
    var frames := CategoryFrames(draws, today);
    CategoryFramesSize(frames);
    Flatten(frames)
  }

  /** Each frame of the concatenation is that category's load_category_data. */
  lemma LoadAllDataParts(draws: seq<Draw>, today: int)
    requires ValidStream(draws)
    ensures forall i :: 0 <= i < |Products| ==>
      IsCategory(Products[i].name)
      && CategoryFrames(draws, today)[i] == LoadCategoryData(Products[i].name, draws, today)
  {
    var frames := CategoryFrames(draws, today);
    forall i | 0 <= i < |Products|
      ensures IsCategory(Products[i].name)
      ensures frames[i] == LoadCategoryData(Products[i].name, draws, today)
    {
      ProductsOfAt(i);
    }
  }

  /** The category frames hold 8, 6, 6, 6 and 8 rows. */
  lemma CategoryFramesSize(frames: seq<seq<Row>>)
    requires |frames| == 5
    requires |frames[0]| == 8 && |frames[1]| == 6 && |frames[2]| == 6 && |frames[3]| == 6 && |frames[4]| == 8
    ensures SumInts(seq(|frames|, i requires 0 <= i < |frames| => |frames[i]|)) == 34
  {
    var lens := seq(|frames|, i requires 0 <= i < |frames| => |frames[i]|);
    assert lens == [8, 6, 6, 6, 8];
    assert SumInts(lens) == 34 by {
      assert SumInts([8]) == 8 by { assert [8][1..] == []; }
      assert SumInts([6, 8]) == 14 by { assert [6, 8][1..] == [8]; }
      assert SumInts([6, 6, 8]) == 20 by { assert [6, 6, 8][1..] == [6, 8]; }
      assert SumInts([6, 6, 6, 8]) == 26 by { assert [6, 6, 6, 8][1..] == [6, 6, 8]; }
      assert lens[1..] == [6, 6, 6, 8];
    }
  }
}
