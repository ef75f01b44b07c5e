/** The "Define Product" screen of the app: a form (name, PID, pack, type) that creates a
    defined product or updates the one being edited, and the searchable list of all
    defined products, newest first. */
module ProductDefinition {
  import opened Text
  import opened Seqs
  import opened DefinedProducts

  /** The type choices of the form; the first is the default. */
  const ProductTypes: seq<string> :=
    ["Maple Leaf Chicken", "Organic Chicken", "Halal", "Beef", "Pork", "Seafood"]

  // ---------------------------------------------------------------------------
  // Validation

  /** What the save button's checks make of the form's text fields. */
  datatype FormCheck = MissingField | NotANumber | Valid(pidNum: int, packNum: int)

  /** The two validation steps of handleSave: every field non-blank after trimming, then
      parseInt(…, 10) of PID and pack not NaN. */
  function CheckForm(name: string, pid: string, pack: string): (check: FormCheck)
    ensures check.Valid? ==> Trim(name) != [] && Trim(pid) != [] && Trim(pack) != []
    ensures check.Valid? ==> ParseInt(pid) == Some(check.pidNum) && ParseInt(pack) == Some(check.packNum)
  {
    if Trim(name) == [] || Trim(pid) == [] || Trim(pack) == [] then MissingField
    else
      match (ParseInt(pid), ParseInt(pack))
      case (Some(p), Some(k)) => Valid(p, k)
      case _ => NotANumber
  }

  /** The checks both ways round: a field made only of white space is missing; otherwise
      the form is valid exactly when both numbers parse, and then it carries them. */
  lemma CheckFormCases(name: string, pid: string, pack: string)
    ensures CheckForm(name, pid, pack) == MissingField <==>
      (forall i :: 0 <= i < |name| ==> IsSpace(name[i]))
      || (forall i :: 0 <= i < |pid| ==> IsSpace(pid[i]))
      || (forall i :: 0 <= i < |pack| ==> IsSpace(pack[i]))
    ensures forall p, k :: CheckForm(name, pid, pack) == Valid(p, k) <==>
      Trim(name) != [] && Trim(pid) != [] && Trim(pack) != []
      && ParseInt(pid) == Some(p) && ParseInt(pack) == Some(k)
    ensures CheckForm(name, pid, pack) == NotANumber <==>
      Trim(name) != [] && Trim(pid) != [] && Trim(pack) != []
      && (ParseInt(pid).None? || ParseInt(pack).None?)
  {
    TrimEmptyIffBlank(name);
    TrimEmptyIffBlank(pid);
    TrimEmptyIffBlank(pack);
    if Trim(name) == [] || Trim(pid) == [] || Trim(pack) == [] {
      assert CheckForm(name, pid, pack) == MissingField;
    } else if ParseInt(pid).Some? && ParseInt(pack).Some? {
      assert CheckForm(name, pid, pack) == Valid(ParseInt(pid).value, ParseInt(pack).value);
    } else {
      assert CheckForm(name, pid, pack) == NotANumber;
    }
  }

  /** parseInt reads the leading integer and ignores what follows it: with a PID typed as
      an integer followed by text not starting with a digit ("12abc"), the form is saved
      with the integer alone (12). */
  lemma LeadingIntegerAccepted(name: string, p: int, rest: string, k: int)
    requires Trim(name) != []
    requires rest == [] || !IsDigit(rest[0])
    ensures CheckForm(name, IntToString(p) + rest, IntToString(k)) == Valid(p, k)
  {
    var pid, pack := IntToString(p) + rest, IntToString(k);
    ParseIntOfIntToString(p, rest);
    ParseIntOfIntToString(k, "");
    assert pack + "" == pack;
    assert pid[0] == IntToString(p)[0];
    NonBlankStart(pid);
    IntToStringNonBlank(k);
    CheckFormAccepts(name, pid, pack, p, k);
  }

  /** Non-blank fields whose numbers parse pass both checks. */
  lemma CheckFormAccepts(name: string, pid: string, pack: string, p: int, k: int)
    requires Trim(name) != [] && Trim(pid) != [] && Trim(pack) != []
    requires ParseInt(pid) == Some(p) && ParseInt(pack) == Some(k)
    ensures CheckForm(name, pid, pack) == Valid(p, k)
  {
  }

  /** A string starting with a non-space character is not blank. */
  lemma NonBlankStart(s: string)
    requires s != [] && !IsSpace(s[0])
    ensures Trim(s) != []
  {
    TrimEmptyIffBlank(s);
  }

  // ---------------------------------------------------------------------------
  // Search

  /** The search predicate: the lower-cased name contains the lower-cased query, or the
      PID's decimal text contains the query as typed. An empty query matches every
      product. */
  predicate MatchesQuery(p: DefinedProduct, query: string)
    ensures query == [] ==> MatchesQuery(p, query)
  {
    ContainsEmpty(Lower(p.name));
    assert query == [] ==> Lower(query) == [];
    Contains(Lower(p.name), Lower(query)) || Contains(IntToString(p.pid), query)
  }

  /** The list shown under the search box. */
  function SearchFilter(products: seq<DefinedProduct>, query: string): (shown: seq<DefinedProduct>)
    ensures |shown| <= |products|
    ensures forall i :: 0 <= i < |shown| ==> shown[i] in products && MatchesQuery(shown[i], query)
    ensures forall i :: 0 <= i < |products| && MatchesQuery(products[i], query) ==> products[i] in shown
  {
    Filter(products, p => MatchesQuery(p, query))
  }

  /** The search keeps the list's order, and an empty query shows every product. */
  lemma SearchFilterOrder(products: seq<DefinedProduct>, query: string)
    ensures IsSubsequence(SearchFilter(products, query), products)
    ensures query == [] ==> SearchFilter(products, query) == products
  {
    FilterIsSubsequence(products, p => MatchesQuery(p, query));
    if query == [] {
      FilterAll(products, p => MatchesQuery(p, query));
    }
  }

  // ---------------------------------------------------------------------------
  // Ordering of the fetched list

  /** The comparator b.createdAt - a.createdAt: a may come before b when a is not older. */
  predicate NewerFirst(a: DefinedProduct, b: DefinedProduct) {
    a.createdAt >= b.createdAt
  }

  lemma NewerFirstTotalPreorder()
    ensures TotalPreorder(NewerFirst)
  {
  }

  /** The fetched list: every record once, newest first. */
  lemma FetchOrder(records: seq<DefinedProduct>)
    ensures multiset(SortBy(records, NewerFirst)) == multiset(records)
    ensures forall i, j :: 0 <= i < j < |SortBy(records, NewerFirst)| ==>
      SortBy(records, NewerFirst)[i].createdAt >= SortBy(records, NewerFirst)[j].createdAt
  {
    SortByPermutation(records, NewerFirst);
    NewerFirstTotalPreorder();
    SortBySorted(records, NewerFirst);
  }

  // ---------------------------------------------------------------------------
  // The screen's state

  /** How a press of the save button ended. */
  datatype SaveOutcome = RejectedMissingField | RejectedNotANumber | WriteFailed | Saved

  class DefinitionForm {
    var name: string
    var pid: string
    var pack: string
    var selectedType: string
    /** The id of the product being edited, if any. */
    var editing: Option<nat>
    var products: seq<DefinedProduct>
    var searchQuery: string

    /** The form is blank: empty fields, the default type, and not editing. */
    predicate Blank()
      reads this
    {
      name == "" && pid == "" && pack == "" && selectedType == ProductTypes[0] && editing.None?
    }

    constructor()
      ensures Blank() && products == [] && searchQuery == ""
    {
      name := "";
      pid := "";
      pack := "";
      selectedType := ProductTypes[0];
      editing := None;
      products := [];
      searchQuery := "";
    }

    /** The products the list shows. */
    function Shown(): seq<DefinedProduct>
      reads this
    {
      SearchFilter(products, searchQuery)
    }

    /** The reset after a successful save. */
    method ResetForm()
      modifies this
      ensures Blank() && products == old(products) && searchQuery == old(searchQuery)
    {
      name := "";
      pid := "";
      pack := "";
      selectedType := ProductTypes[0];
      editing := None;
    }

    /** handleSave. The database write either succeeds or throws as a whole (writeOk);
        now is the creation time the database stamps on a new record. */
    method HandleSave(table: ProductTable, writeOk: bool, now: int) returns (outcome: SaveOutcome)
      requires table.Valid()
      modifies this, table
      ensures table.Valid()
      ensures products == old(products) && searchQuery == old(searchQuery)
      ensures outcome == RejectedMissingField <==> CheckForm(old(name), old(pid), old(pack)) == MissingField
      ensures outcome == RejectedNotANumber <==> CheckForm(old(name), old(pid), old(pack)) == NotANumber
      ensures outcome == WriteFailed <==> CheckForm(old(name), old(pid), old(pack)).Valid? && !writeOk
      ensures outcome != Saved ==>
        && table.records == old(table.records) && table.nextId == old(table.nextId)
        && name == old(name) && pid == old(pid) && pack == old(pack)
        && selectedType == old(selectedType) && editing == old(editing)
      ensures outcome == Saved ==>
        var check := CheckForm(old(name), old(pid), old(pack));
        var f := Fields(old(name), check.pidNum, check.packNum, old(selectedType));
        && Blank()
        && (old(editing).Some? ==> table.records == UpdateRecord(old(table.records), old(editing).value, f)
                                   && table.nextId == old(table.nextId))
        && (old(editing).None? ==> table.records == old(table.records) + NewRecords([f], old(table.nextId), now)
                                   && table.nextId == old(table.nextId) + 1)
    {
      var check := CheckForm(name, pid, pack);
      if check == MissingField {
        return RejectedMissingField;
      }
      if check == NotANumber {
        return RejectedNotANumber;
      }
      if !writeOk {
        return WriteFailed;
      }
      var f := Fields(name, check.pidNum, check.packNum, selectedType);
      if editing.Some? {
        table.Update(editing.value, f);
      } else {
        var _ := table.Create(f, now);
      }
      ResetForm();
      outcome := Saved;
    }

    /** handleEdit: the form takes the product's fields, the numbers as decimal text. */
    method HandleEdit(p: DefinedProduct)
      modifies this
      ensures editing == Some(p.id)
      ensures name == p.name && pid == IntToString(p.pid) && pack == IntToString(p.pack)
      ensures selectedType == p.ptype
      ensures products == old(products) && searchQuery == old(searchQuery)
    {
      editing := Some(p.id);
      name := p.name;
      pid := IntToString(p.pid);
      pack := IntToString(p.pack);
      selectedType := p.ptype;
    }

    /** fetchProducts: the table's records sorted by createdAt, descending. A failed
        fetch leaves the list as it was. */
    method FetchProducts(table: ProductTable, fetchOk: bool)
      modifies this
      ensures products == if fetchOk then SortBy(table.records, NewerFirst) else old(products)
      ensures name == old(name) && pid == old(pid) && pack == old(pack)
      ensures selectedType == old(selectedType) && editing == old(editing) && searchQuery == old(searchQuery)
    {
      if fetchOk {
        products := SortBy(table.records, NewerFirst);
      }
    }
  }

  /** Editing a product and saving without changes validates to the product's own numbers,
      so the update writes back the same four fields. */
  lemma EditThenSave(p: DefinedProduct)
    requires Trim(p.name) != []
    ensures CheckForm(p.name, IntToString(p.pid), IntToString(p.pack)) == Valid(p.pid, p.pack)
  {
    LeadingIntegerAccepted(p.name, p.pid, "", p.pack);
    assert IntToString(p.pid) + "" == IntToString(p.pid);
  }

  lemma IntToStringNonBlank(n: int)
    ensures Trim(IntToString(n)) != []
  {
    NonBlankStart(IntToString(n));
  }
}
