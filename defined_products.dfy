/** The app's local defined_products table: records with a name, PID, pack size and
    product type, created and updated inside database writes. */
module DefinedProducts {

  /** One record. The id stands for the database's record identity; createdAt is the
      creation time in milliseconds, set by the database. */
  datatype DefinedProduct = DefinedProduct(
    id: nat,
    name: string,
    pid: int,
    pack: int,
    ptype: string,
    createdAt: int)

  /** The four fields a create or an update writes. */
  datatype Fields = Fields(name: string, pid: int, pack: int, ptype: string)

  function FieldsOf(r: DefinedProduct): Fields {
    Fields(r.name, r.pid, r.pack, r.ptype)
  }

  /** The record with id rewritten to carry the given fields; every other record as it was. */
  function UpdateRecord(rs: seq<DefinedProduct>, id: nat, f: Fields): seq<DefinedProduct> {
    seq(|rs|, i requires 0 <= i < |rs| =>
      if rs[i].id == id then rs[i].(name := f.name, pid := f.pid, pack := f.pack, ptype := f.ptype) else rs[i])
  }

  /** An update touches exactly the record it names: that record now holds the fields and
      keeps its identity and creation time, and every other record is unchanged. */
  lemma UpdateRecordFacts(rs: seq<DefinedProduct>, id: nat, f: Fields)
    ensures |UpdateRecord(rs, id, f)| == |rs|
    ensures forall i :: 0 <= i < |rs| ==>
      && UpdateRecord(rs, id, f)[i].id == rs[i].id
      && UpdateRecord(rs, id, f)[i].createdAt == rs[i].createdAt
      && (rs[i].id == id ==> FieldsOf(UpdateRecord(rs, id, f)[i]) == f)
      && (rs[i].id != id ==> UpdateRecord(rs, id, f)[i] == rs[i])
  {
  }

  /** Record ids are distinct and below the next id to hand out. */
  ghost predicate IdsFresh(rs: seq<DefinedProduct>, nextId: nat) {
    && (forall i :: 0 <= i < |rs| ==> rs[i].id < nextId)
    && (forall i, j :: 0 <= i < j < |rs| ==> rs[i].id != rs[j].id)
  }

  /** The records a batch of creates appends: consecutive fresh ids, one per entry. */
  function NewRecords(fs: seq<Fields>, firstId: nat, now: int): (rs: seq<DefinedProduct>)
    ensures |rs| == |fs|
    ensures forall i :: 0 <= i < |fs| ==> FieldsOf(rs[i]) == fs[i] && rs[i].id == firstId + i && rs[i].createdAt == now
  {
    seq(|fs|, i requires 0 <= i < |fs| =>
      DefinedProduct(firstId + i, fs[i].name, fs[i].pid, fs[i].pack, fs[i].ptype, now))
  }

  class ProductTable {
    var records: seq<DefinedProduct>
    var nextId: nat

    ghost predicate Valid()
      reads this
    {
      IdsFresh(records, nextId)
    }

    constructor()
      ensures records == [] && nextId == 0 && Valid()
    {
      records := [];
      nextId := 0;
    }

    predicate Has(id: nat)
      reads this
    {
      exists i :: 0 <= i < |records| && records[i].id == id
    }

    /** collection.create: one new record with a fresh id, created now. */
    method Create(f: Fields, now: int) returns (id: nat)
      requires Valid()
      modifies this
      ensures Valid()
      ensures id == old(nextId) && nextId == old(nextId) + 1
      ensures records == old(records) + NewRecords([f], id, now)
    {
      id := nextId;
      records := records + NewRecords([f], id, now);
      nextId := nextId + 1;
    }

    /** record.update: the record with this id takes the fields. */
    method Update(id: nat, f: Fields)
      requires Valid()
      modifies this
      ensures Valid() && nextId == old(nextId)
      ensures records == UpdateRecord(old(records), id, f)
    {
      records := UpdateRecord(records, id, f);
    }

    /** database.batch of prepared creates: all appended at once, in order. */
    method CreateBatch(fs: seq<Fields>, now: int)
      requires Valid()
      modifies this
      ensures Valid()
      ensures records == old(records) + NewRecords(fs, old(nextId), now)
      ensures nextId == old(nextId) + |fs|
    {
      records := records + NewRecords(fs, nextId, now);
      nextId := nextId + |fs|;
    }
  }
}
