/** First-run seeding of the defined_products table with the store's known products,
    their type names normalised to the app's product types. */
module Seed {
  import opened Text
  import opened DefinedProducts
  import opened ProductDefinition

  /** TYPE_MAP: lower-cased type name to the app's spelling. */
  const TypeMap: map<string, string> := map[
    "organic chicken" := "Organic Chicken",
    "maple leaf chicken" := "Maple Leaf Chicken",
    "halal" := "Halal",
    "beef" := "Beef",
    "pork" := "Pork",
    "seafood" := "Seafood"]

  /** normalizeType: the map's spelling when the lower-cased type is a key, the type as
      given otherwise. A recognised type becomes one of the form's product types, spelled
      like the type given up to letter case. */
  function NormalizeType(t: string): (r: string)
    ensures Lower(t) in TypeMap ==> r in ProductTypes && Lower(r) == Lower(t)
    ensures Lower(t) !in TypeMap ==> r == t
  {
    TypeMapValues();
    var key := Lower(t);
    if key in TypeMap then TypeMap[key] else t
  }

  /** Both cases of the lookup. */
  lemma NormalizeTypeCases(t: string)
    ensures Lower(t) in TypeMap ==> NormalizeType(t) == TypeMap[Lower(t)]
    ensures Lower(t) !in TypeMap ==> NormalizeType(t) == t
  {
  }

  /** Every value of the map is one of the form's product types and lower-cases back to
      its own key. */
  lemma TypeMapValues()
    ensures forall k :: k in TypeMap ==> TypeMap[k] in ProductTypes && Lower(TypeMap[k]) == k
  {
    assert Lower("Organic Chicken") == "organic chicken";
    assert Lower("Maple Leaf Chicken") == "maple leaf chicken";
    assert Lower("Halal") == "halal";
    assert Lower("Beef") == "beef";
    assert Lower("Pork") == "pork";
    assert Lower("Seafood") == "seafood";
  }

  /** A recognised type is normalised the same whatever its letter case, to one of the
      form's product types. */
  lemma NormalizeTypeCaseInsensitive(a: string, b: string)
    requires Lower(a) == Lower(b) && Lower(a) in TypeMap
    ensures NormalizeType(a) == NormalizeType(b)
    ensures NormalizeType(a) in ProductTypes
  {
    TypeMapValues();
  }

  /** Normalising twice is normalising once. */
  lemma NormalizeTypeIdempotent(t: string)
    ensures NormalizeType(NormalizeType(t)) == NormalizeType(t)
  {
    TypeMapValues();
  }

  /** SEED_PRODUCTS, with their types as written there. */
  const SeedProducts: seq<Fields> := [
    Fields("PRIME ORG WB", 31396056, 6, "Organic Chicken"),
    Fields("ML WHOLE WING", 31180986, 8, "Maple Leaf Chicken"),
    Fields("PRIME ORG SPLT WNG", 30031863, 8, "Organic Chicken"),
    Fields("MINA HALAL CHN LG QT", 30148922, 6, "Halal"),
    Fields("MINA HALAL CHN WHOLE", 30148926, 6, "Halal"),
    Fields("MINA HALAL CHKN DRUM", 30148672, 6, "Halal"),
    Fields("MINA HALAL CHN GRNDS", 30212214, 12, "Halal"),
    Fields("MINA HALAL CHN BSB", 31430278, 8, "Halal"),
    Fields("MINA HALAL BSB VP", 31561685, 6, "Halal"),
    Fields("MINA HALAL CHN BST", 30433243, 12, "Halal"),
    Fields("MINA HALAL CHN THIGH", 30148828, 6, "Halal")]

  /** The prepared creates: each seed entry with its type normalised. */
  function SeedCreates(): (fs: seq<Fields>)
    ensures |fs| == |SeedProducts|
    ensures forall i :: 0 <= i < |fs| ==>
      fs[i].name == SeedProducts[i].name && fs[i].pid == SeedProducts[i].pid
      && fs[i].pack == SeedProducts[i].pack && fs[i].ptype == NormalizeType(SeedProducts[i].ptype)
  {
    seq(|SeedProducts|, i requires 0 <= i < |SeedProducts| =>
      var p := SeedProducts[i];
      Fields(p.name, p.pid, p.pack, NormalizeType(p.ptype)))
  }

  /** The table after seeding, as records and next id: unchanged when it already holds
      a record, else one record per seed entry. */
  function Seeded(records: seq<DefinedProduct>, nextId: nat, now: int): (r: (seq<DefinedProduct>, nat))
    ensures |records| <= |r.0| && r.0[..|records|] == records
    ensures r.1 == nextId + (|r.0| - |records|)
  {
    if |records| > 0 then (records, nextId)
    else (records + NewRecords(SeedCreates(), nextId, now), nextId + |SeedCreates()|)
  }

  /** Seeding never touches a populated table; an empty one receives exactly the seed
      entries, names, PIDs and packs copied and types normalised. */
  lemma SeededFacts(records: seq<DefinedProduct>, nextId: nat, now: int)
    ensures |records| > 0 ==> Seeded(records, nextId, now) == (records, nextId)
    ensures records == [] ==>
      && |Seeded(records, nextId, now).0| == |SeedProducts|
      && forall i :: 0 <= i < |SeedProducts| ==>
        var r := Seeded(records, nextId, now).0[i];
        r.name == SeedProducts[i].name && r.pid == SeedProducts[i].pid && r.pack == SeedProducts[i].pack
        && r.ptype == NormalizeType(SeedProducts[i].ptype) && r.ptype in ProductTypes
  {
    if records == [] {
      var rs := Seeded(records, nextId, now).0;
      assert rs == NewRecords(SeedCreates(), nextId, now);
      SeedTypesKnown();
    }
  }

  /** Every seed entry's type is one of the map's keys, so it is normalised to one of
      the form's product types. */
  lemma SeedTypesKnown()
    ensures forall i :: 0 <= i < |SeedProducts| ==> NormalizeType(SeedProducts[i].ptype) in ProductTypes
  {
    SeedTypeNames();
    forall i | 0 <= i < |SeedProducts| ensures NormalizeType(SeedProducts[i].ptype) in ProductTypes {
      KnownType(SeedProducts[i].ptype);
    }
  }

  /** The seed entries use three type names, all keys of the map once lower-cased. */
  lemma SeedTypeNames()
    ensures forall i :: 0 <= i < |SeedProducts| ==> Lower(SeedProducts[i].ptype) in TypeMap
  {
    assert Lower("Organic Chicken") == "organic chicken";
    assert Lower("Maple Leaf Chicken") == "maple leaf chicken";
    assert Lower("Halal") == "halal";
    forall i | 0 <= i < |SeedProducts| ensures Lower(SeedProducts[i].ptype) in TypeMap {
      var t := SeedProducts[i].ptype;
      assert t == "Organic Chicken" || t == "Maple Leaf Chicken" || t == "Halal";
    }
  }

  /** A type the map recognises normalises to one of the form's product types. */
  lemma KnownType(t: string)
    requires Lower(t) in TypeMap
    ensures NormalizeType(t) in ProductTypes
  {
    TypeMapValues();
  }

  /** Seeding twice leaves the table as seeding once. */
  lemma SeedIdempotent(records: seq<DefinedProduct>, nextId: nat, now1: int, now2: int)
    ensures var (rs, n) := Seeded(records, nextId, now1); Seeded(rs, n, now2) == (rs, n)
  {
  }

  /** seedDefinedProducts: fetch, and when the table is empty write every seed entry in
      one batch. A failed fetch or write leaves the table as it was. */
  method SeedDefinedProducts(table: ProductTable, ok: bool, now: int)
    requires table.Valid()
    modifies table
    ensures table.Valid()
    ensures (table.records, table.nextId) ==
      if ok then Seeded(old(table.records), old(table.nextId), now) else (old(table.records), old(table.nextId))
  {
    if !ok {
      return;
    }
    var existing := table.records;
    if |existing| > 0 {
      return;
    }
    var creates := SeedCreates();
    table.CreateBatch(creates, now);
  }
}
