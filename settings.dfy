/** The dashboard's central configuration: the product catalogue by category, the
    expiry offsets the mock data draws from, and the expiry buckets of the timeline. */
module Settings {

  datatype Category = Category(name: string, products: seq<string>)

  /** PRODUCTS: category name to its product names, in declaration order. */
  const Products: seq<Category> := [
    Category("Beef", ["Ribeye Steak", "Ground Beef 80/20", "Chuck Roast",
                      "Sirloin Tip", "Beef Tenderloin", "Short Rib",
                      "T-Bone Steak", "Beef Brisket"]),
    Category("Pork", ["Pork Shoulder", "Pork Belly", "Baby Back Ribs",
                      "Pork Tenderloin", "Ham Hock", "Pork Chops"]),
    Category("Chicken", ["Whole Chicken", "Chicken Breast", "Chicken Thighs",
                         "Chicken Wings", "Chicken Drumsticks", "Ground Chicken"]),
    Category("Seafood", ["Atlantic Salmon", "Shrimp (16/20)", "Tilapia Fillet",
                         "Cod Fillet", "Sea Bass", "Scallops"]),
    Category("Halal", ["MINA Halal Chicken Leg", "MINA Halal Whole Chicken", "MINA Halal Drumstick",
                       "MINA Halal Ground Chicken", "MINA Halal Breast (Bone-in)", "MINA Halal BSB VP",
                       "MINA Halal Chicken Breast", "MINA Halal Thigh"])
  ]

  /** The keys of PRODUCTS, in order. */
  function CategoryNames(): (names: seq<string>)
    ensures |names| == |Products|
    ensures forall i :: 0 <= i < |names| ==> names[i] == Products[i].name
  {
    seq(|Products|, i requires 0 <= i < |Products| => Products[i].name)
  }

  predicate IsCategory(name: string) {
    exists i :: 0 <= i < |Products| && Products[i].name == name
  }

  /** PRODUCTS[name]; the dashboard only ever asks for one of its own keys. */
  function ProductsOf(name: string): (ps: seq<string>)
    requires IsCategory(name)
    ensures exists i :: 0 <= i < |Products| && Products[i].name == name && Products[i].products == ps
  {
    ProductsFrom(Products, name)
  }

  function ProductsFrom(cs: seq<Category>, name: string): (ps: seq<string>)
    requires exists i :: 0 <= i < |cs| && cs[i].name == name
    ensures exists i :: 0 <= i < |cs| && cs[i].name == name && cs[i].products == ps
  {
    if cs[0].name == name then cs[0].products
    else
      assert exists i :: 0 <= i < |cs[1..]| && cs[1..][i].name == name by {
        var i :| 0 <= i < |cs| && cs[i].name == name;
        assert cs[1..][i - 1] == cs[i];
      }
      ProductsFrom(cs[1..], name)
  }

  /** No category holds more than eight products, and the category names are distinct. */
  const MaxCategorySize: nat := 8

  lemma CatalogueShape()
    ensures forall i :: 0 <= i < |Products| ==> |Products[i].products| <= MaxCategorySize
    ensures forall i, j :: 0 <= i < j < |Products| ==> Products[i].name != Products[j].name
  {
  }

  /** EXPIRY_OFFSETS: the day offsets the mock data chooses from (with repeats). */
  const ExpiryOffsets: seq<int> := [-2, -1, 0, 1, 1, 2, 2, 3, 5, 5, 7]

  /** BUCKET_ORDER: the expiry-timeline buckets, left to right. */
  const BucketOrder: seq<string> := ["Expired", "Today", "1 Day", "2 Days", "5+ Days"]

  /** BUCKET_COLORS. */
  const BucketColors: map<string, string> := map[
    "Expired" := "#ef4444",
    "Today" := "#f59e0b",
    "1 Day" := "#f59e0b",
    "2 Days" := "#3b82f6",
    "5+ Days" := "#22c55e"
  ]

  /** Every bucket has a colour and every colour belongs to a bucket; the bucket labels are distinct. */
  lemma BucketColorsMatchOrder()
    ensures BucketColors.Keys == set b | b in BucketOrder
    ensures forall i, j :: 0 <= i < j < |BucketOrder| ==> BucketOrder[i] != BucketOrder[j]
  {
  }
}
