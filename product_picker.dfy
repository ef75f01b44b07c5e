/** The product picker of the mobile app: products are grouped into sections by the
    first word of their name, each section keeps one product per PID sorted by name,
    and the sections are listed in sorted order. */
module ProductPicker {
  import opened Text
  import opened Seqs

  datatype Product = Product(pid: int, name: string)

  /** The section a name belongs to: name.split(' ')[0], or "Other" when that is empty
      (an empty name, or one starting with a space). */
  function GroupKey(name: string): (k: string)
  {
    var w := FirstWord(name);
    if w == [] then "Other" else w
  }

  /** The key of a name, both ways round: a leading word of the name, or "Other"
      exactly when the name has no leading word. */
  lemma GroupKeyCases(name: string)
    ensures GroupKey(name) != []
    ensures (name == [] || name[0] == ' ') ==> GroupKey(name) == "Other"
    ensures (name != [] && name[0] != ' ') ==>
      && GroupKey(name) == name[..|GroupKey(name)|]
      && (forall i :: 0 <= i < |GroupKey(name)| ==> GroupKey(name)[i] != ' ')
      && (|GroupKey(name)| == |name| || name[|GroupKey(name)|] == ' ')
  {
  }

  /** Some product of s has this PID (the find by pid). */
  predicate HasPid(s: seq<Product>, pid: int) {
    exists j :: 0 <= j < |s| && s[j].pid == pid
  }

  /** The products of ps whose key is k, in order. */
  function InGroup(ps: seq<Product>, k: string): (g: seq<Product>)
    ensures |g| <= |ps|
  {
    if ps == [] then []
    else InGroup(ps[..|ps| - 1], k) + (if GroupKey(ps[|ps| - 1].name) == k then [ps[|ps| - 1]] else [])
  }

  /** A group holds exactly the products of the list with its key. */
  lemma {:induction false} InGroupMembers(ps: seq<Product>, k: string)
    ensures forall x :: x in InGroup(ps, k) ==> x in ps && GroupKey(x.name) == k
    ensures forall x :: x in ps && GroupKey(x.name) == k ==> x in InGroup(ps, k)
  {
    if ps != [] {
      var init := ps[..|ps| - 1];
      assert ps == init + [ps[|ps| - 1]];
      InGroupMembers(init, k);
    }
  }

  /** Keeps the first product of each PID, in order. */
  function DedupPid(ps: seq<Product>): (d: seq<Product>)
    ensures |d| <= |ps|
  {
    if ps == [] then []
    else
      var d := DedupPid(ps[..|ps| - 1]);
      var p := ps[|ps| - 1];
      if HasPid(d, p.pid) then d else d + [p]
  }

  /** Deduplication keeps only products of the list, one per PID, and every PID of the
      list. */
  lemma {:induction false} DedupPidFacts(ps: seq<Product>)
    ensures forall x :: x in DedupPid(ps) ==> x in ps
    ensures forall i, j :: 0 <= i < j < |DedupPid(ps)| ==> DedupPid(ps)[i].pid != DedupPid(ps)[j].pid
    ensures forall x :: x in ps ==> HasPid(DedupPid(ps), x.pid)
  {
    if ps != [] {
      var init := ps[..|ps| - 1];
      var d := DedupPid(init);
      var p := ps[|ps| - 1];
      assert ps == init + [p];
      DedupPidFacts(init);
      if !HasPid(d, p.pid) {
        HasPidAppend(d, p);
        var r := d + [p];
        forall i, j | 0 <= i < j < |r| ensures r[i].pid != r[j].pid {
          if j == |d| {
            assert r[i] == d[i];
          }
        }
      }
    }
  }

  /** Appending a product keeps every PID present and adds its own. */
  lemma HasPidAppend(d: seq<Product>, x: Product)
    ensures HasPid(d + [x], x.pid)
    ensures forall pid :: HasPid(d, pid) ==> HasPid(d + [x], pid)
  {
    assert (d + [x])[|d|] == x;
    forall pid | HasPid(d, pid) ensures HasPid(d + [x], pid) {
      var j :| 0 <= j < |d| && d[j].pid == pid;
      assert (d + [x])[j] == d[j];
    }
  }

  /** ps[j] is the first product of ps with its PID. */
  predicate FirstOfPid(ps: seq<Product>, j: nat)
    requires j < |ps|
  {
    forall i :: 0 <= i < j ==> ps[i].pid != ps[j].pid
  }

  /** The first product of each PID is kept. */
  lemma {:induction false} DedupKeepsFirst(ps: seq<Product>, j: nat)
    requires j < |ps| && FirstOfPid(ps, j)
    ensures ps[j] in DedupPid(ps)
  {
    var init := ps[..|ps| - 1];
    var d := DedupPid(init);
    assert ps == init + [ps[|ps| - 1]];
    if j < |ps| - 1 {
      DedupKeepsFirst(init, j);
    } else {
      DedupPidFacts(init);
      forall m | 0 <= m < |d| ensures d[m].pid != ps[j].pid {
        assert d[m] in init;
        var i :| 0 <= i < |init| && init[i] == d[m];
        assert ps[i] == init[i];
      }
    }
  }

  /** Only first products are kept: each kept product is the first of its PID. */
  lemma DedupOnlyFirst(ps: seq<Product>, x: Product)
    requires x in DedupPid(ps)
    ensures exists j :: 0 <= j < |ps| && ps[j] == x && FirstOfPid(ps, j)
  {
    var d := DedupPid(ps);
    DedupPidFacts(ps);
    var k :| 0 <= k < |ps| && ps[k] == x;
    var j := FirstIndex(ps, x.pid, k);
    DedupKeepsFirst(ps, j);
    var a :| 0 <= a < |d| && d[a] == x;
    var b :| 0 <= b < |d| && d[b] == ps[j];
    assert a == b;
  }

  /** The earliest product of ps with a PID that the product at k has. */
  lemma FirstIndex(ps: seq<Product>, pid: int, k: nat) returns (j: nat)
    requires k < |ps| && ps[k].pid == pid
    ensures j <= k && ps[j].pid == pid && FirstOfPid(ps, j)
    decreases k
  {
    if exists i :: 0 <= i < k && ps[i].pid == pid {
      var i :| 0 <= i < k && ps[i].pid == pid;
      j := FirstIndex(ps, pid, i);
    } else {
      j := k;
    }
  }

  /** The order sections and products are sorted by. */
  predicate NameLe(a: Product, b: Product) { StrLe(a.name, b.name) }

  lemma StrLeTotalPreorder()
    ensures TotalPreorder(StrLe)
  {
    forall x, y ensures StrLe(x, y) || StrLe(y, x) { StrLeTotal(x, y); }
    forall x, y, z | StrLe(x, y) && StrLe(y, z) ensures StrLe(x, z) { StrLeTransitive(x, y, z); }
  }

  lemma NameLeTotalPreorder()
    ensures TotalPreorder(NameLe)
  {
    forall x, y ensures NameLe(x, y) || NameLe(y, x) { StrLeTotal(x.name, y.name); }
    forall x, y, z | NameLe(x, y) && NameLe(y, z) ensures NameLe(x, z) { StrLeTransitive(x.name, y.name, z.name); }
  }

  /** The section shown under key k. */
  function Section(products: seq<Product>, k: string): (s: seq<Product>)
    ensures |s| <= |products|
  {
    var d := DedupPid(InGroup(products, k));
    SortByPermutation(d, NameLe);
    assert |SortBy(d, NameLe)| == |multiset(d)|;
    SortBy(d, NameLe)
  }

  /** A section lists products of the list with key k, one per PID, sorted by name. */
  lemma SectionMembers(products: seq<Product>, k: string)
    ensures forall j :: 0 <= j < |Section(products, k)| ==>
      Section(products, k)[j] in products && GroupKey(Section(products, k)[j].name) == k
    ensures forall i, j :: 0 <= i < j < |Section(products, k)| ==>
      Section(products, k)[i].pid != Section(products, k)[j].pid
    ensures SortedBy(Section(products, k), NameLe)
  {
    SectionFromGroup(products, k);
    SectionDistinctPids(products, k);
    NameLeTotalPreorder();
    SortBySorted(DedupPid(InGroup(products, k)), NameLe);
  }

  lemma SectionFromGroup(products: seq<Product>, k: string)
    ensures forall j :: 0 <= j < |Section(products, k)| ==>
      Section(products, k)[j] in products && GroupKey(Section(products, k)[j].name) == k
  {
    var g := InGroup(products, k);
    var d := DedupPid(g);
    var s := Section(products, k);
    InGroupMembers(products, k);
    DedupPidFacts(g);
    SortByPermutation(d, NameLe);
    forall j | 0 <= j < |s| ensures s[j] in products && GroupKey(s[j].name) == k {
      assert s[j] in multiset(d);
    }
  }

  lemma SectionDistinctPids(products: seq<Product>, k: string)
    ensures forall i, j :: 0 <= i < j < |Section(products, k)| ==>
      Section(products, k)[i].pid != Section(products, k)[j].pid
  {
    var d := DedupPid(InGroup(products, k));
    var s := Section(products, k);
    DedupPidFacts(InGroup(products, k));
    SortByPermutation(d, NameLe);
    forall i, j | 0 <= i < j < |s| ensures s[i].pid != s[j].pid {
      SortedKeepsDistinctPids(d, s, i, j);
    }
  }

  /** Every product with key k has its PID in the section, so the section is non-empty
      exactly when some product has key k. */
  lemma SectionCovers(products: seq<Product>, k: string)
    ensures forall j :: 0 <= j < |products| && GroupKey(products[j].name) == k ==>
      HasPid(Section(products, k), products[j].pid)
    ensures Section(products, k) != [] <==> exists j :: 0 <= j < |products| && GroupKey(products[j].name) == k
  {
    forall j | 0 <= j < |products| && GroupKey(products[j].name) == k
      ensures HasPid(Section(products, k), products[j].pid)
    {
      SectionHasPid(products, k, j);
    }
    var s := Section(products, k);
    if s != [] {
      SectionMembers(products, k);
      assert s[0] in products;
    }
  }

  /** The section of a product's key lists its PID. */
  lemma SectionHasPid(products: seq<Product>, k: string, j: nat)
    requires j < |products| && GroupKey(products[j].name) == k
    ensures HasPid(Section(products, k), products[j].pid)
  {
    var g := InGroup(products, k);
    var d := DedupPid(g);
    InGroupMembers(products, k);
    DedupPidFacts(g);
    var b :| 0 <= b < |g| && g[b] == products[j];
    var a :| 0 <= a < |d| && d[a].pid == g[b].pid;
    SortByPermutation(d, NameLe);
    assert d[a] in multiset(Section(products, k));
  }

  /** Duplicates are removed within a section only: a PID carried by products of two
      sections is listed in both. */
  lemma DedupWithinSection(products: seq<Product>, a: nat, b: nat)
    requires a < |products| && b < |products| && products[a].pid == products[b].pid
    ensures HasPid(Section(products, GroupKey(products[a].name)), products[a].pid)
    ensures HasPid(Section(products, GroupKey(products[b].name)), products[a].pid)
  {
    SectionCovers(products, GroupKey(products[a].name));
    SectionCovers(products, GroupKey(products[b].name));
  }

  /** A permutation of a list with distinct PIDs has distinct PIDs. */
  lemma SortedKeepsDistinctPids(d: seq<Product>, s: seq<Product>, i: nat, j: nat)
    requires forall a, b :: 0 <= a < b < |d| ==> d[a].pid != d[b].pid
    requires multiset(s) == multiset(d)
    requires i < j < |s|
    ensures s[i].pid != s[j].pid
  {
    if s[i].pid == s[j].pid {
      assert s[i] in multiset(d) && s[j] in multiset(d);
      var a :| 0 <= a < |d| && d[a] == s[i];
      var b :| 0 <= b < |d| && d[b] == s[j];
      if a == b {
        RepeatedTwice(s, i, j);
        DistinctCount(d, d[a]);
      }
    }
  }

  /** The groups after the forEach over ps: the state the pass builds, product by
      product. */
  function Grouped(ps: seq<Product>): (groups: map<string, seq<Product>>)
  {
    if ps == [] then map[] else AddProduct(Grouped(ps[..|ps| - 1]), ps[|ps| - 1])
  }

  /** One step of the forEach: the product joins the group of its key, created empty
      when missing, unless that group already holds its PID. */
  function AddProduct(groups: map<string, seq<Product>>, p: Product): map<string, seq<Product>> {
    var k := GroupKey(p.name);
    var cur := if k in groups then groups[k] else [];
    if HasPid(cur, p.pid) then groups else groups[k := cur + [p]]
  }

  /** The groups of one more product. */
  lemma GroupedSnoc(ps: seq<Product>, i: nat)
    requires i < |ps|
    ensures Grouped(ps[..i + 1]) == AddProduct(Grouped(ps[..i]), ps[i])
  {
    assert ps[..i + 1][..i] == ps[..i];
  }

  /** The groups are keyed by the keys of the products. */
  lemma {:induction false} GroupedKeys(ps: seq<Product>)
    ensures Grouped(ps).Keys == set j | 0 <= j < |ps| :: GroupKey(ps[j].name)
  {
    if ps != [] {
      var init := ps[..|ps| - 1];
      GroupedKeys(init);
      assert forall j :: 0 <= j < |init| ==> init[j] == ps[j];
      assert (set j | 0 <= j < |ps| :: GroupKey(ps[j].name))
          == (set j | 0 <= j < |init| :: GroupKey(init[j].name)) + {GroupKey(ps[|ps| - 1].name)};
    }
  }

  /** Each group is the deduplicated list of the products with its key. */
  lemma {:induction false} GroupedAt(ps: seq<Product>, k: string)
    requires k in Grouped(ps)
    ensures Grouped(ps)[k] == DedupPid(InGroup(ps, k))
  {
    var init := ps[..|ps| - 1];
    var p := ps[|ps| - 1];
    var before := Grouped(init);
    if k in before {
      GroupedAt(init, k);
    } else {
      GroupedKeys(init);
      assert forall j :: 0 <= j < |init| ==> GroupKey(init[j].name) != k by {
        forall j | 0 <= j < |init| ensures GroupKey(init[j].name) != k {
          assert GroupKey(init[j].name) in before;
        }
      }
      NoGroupYet(init, k);
    }
    var g := InGroup(init, k);
    if GroupKey(p.name) == k {
      assert InGroup(ps, k) == g + [p];
      assert (g + [p])[..|g|] == g;
      assert DedupPid(InGroup(ps, k)) == if HasPid(DedupPid(g), p.pid) then DedupPid(g) else DedupPid(g) + [p];
    } else {
      assert InGroup(ps, k) == g;
    }
  }

  /** The members every plain object inherits from Object.prototype. For a first word
      among them, groups[firstWord] finds the inherited member (truthy), so no array is
      created, and the .find call on it throws a TypeError. */
  const InheritedNames: set<string> := {
    "constructor", "__proto__", "hasOwnProperty", "isPrototypeOf", "propertyIsEnumerable",
    "toString", "toLocaleString", "valueOf",
    "__defineGetter__", "__defineSetter__", "__lookupGetter__", "__lookupSetter__"}

  /** No product's key names an inherited member: the grouping runs without throwing. */
  predicate PlainKeys(ps: seq<Product>) {
    ps == [] || (PlainKeys(ps[..|ps| - 1]) && GroupKey(ps[|ps| - 1].name) !in InheritedNames)
  }

  /** PlainKeys, product by product. */
  lemma {:induction false} PlainKeysIff(ps: seq<Product>)
    ensures PlainKeys(ps) <==> forall j :: 0 <= j < |ps| ==> GroupKey(ps[j].name) !in InheritedNames
  {
    if ps != [] {
      var init := ps[..|ps| - 1];
      PlainKeysIff(init);
      assert forall j :: 0 <= j < |init| ==> init[j] == ps[j];
    }
  }

  /** The keys of one more product are plain when those before are and its own is. */
  lemma PlainKeysSnoc(ps: seq<Product>, i: nat)
    requires i < |ps|
    ensures PlainKeys(ps[..i + 1]) <==> PlainKeys(ps[..i]) && GroupKey(ps[i].name) !in InheritedNames
  {
    assert ps[..i + 1][..i] == ps[..i];
  }

  /** One product whose key names an inherited member is enough to make the grouping throw. */
  lemma NotPlainKeys(ps: seq<Product>, i: nat)
    requires i < |ps| && GroupKey(ps[i].name) in InheritedNames
    ensures !PlainKeys(ps)
  {
    PlainKeysIff(ps);
  }

  /** The forEach over the products: groups are created for new keys, and a product is
      pushed only when its group has no product with its PID. ok is false when the pass
      throws, which happens exactly when some product's key names an inherited member. */
  method GroupByFirstWord(products: seq<Product>)
    returns (ok: bool, groups: map<string, seq<Product>>, keys: seq<string>)
    ensures ok <==> PlainKeys(products)
    ensures ok ==> groups == Grouped(products)
    ensures forall a, b :: 0 <= a < b < |keys| ==> keys[a] != keys[b]
    ensures forall k :: k in keys <==> k in groups
  {
    groups := map[];
    keys := [];
    for i := 0 to |products|
      invariant groups == Grouped(products[..i])
      invariant PlainKeys(products[..i])
      invariant OwnKeys(groups, keys)
    {
      GroupedSnoc(products, i);
      PlainKeysSnoc(products, i);
      var stepOk;
      stepOk, groups, keys := AddToGroup(groups, keys, products[i]);
      if !stepOk {
        NotPlainKeys(products, i);
        return false, groups, keys;
      }
    }
    assert products[..|products|] == products;
    ok := true;
  }

  /** The groups object as the forEach keeps it: keys records each own key once, in
      creation order, and no own key names an inherited member. */
  ghost predicate OwnKeys(groups: map<string, seq<Product>>, keys: seq<string>) {
    && (forall a, b :: 0 <= a < b < |keys| ==> keys[a] != keys[b])
    && (forall k :: k in keys <==> k in groups)
    && (forall k :: k in groups ==> k !in InheritedNames)
  }

  /** The body of the forEach: create the product's group when its key is new (recording
      the key), then push the product unless the group already has its PID. A key that
      names an inherited member throws (ok false) and changes nothing: it is never an own
      group, since no such key is ever created. */
  method AddToGroup(groups: map<string, seq<Product>>, keys: seq<string>, product: Product)
    returns (ok: bool, groups': map<string, seq<Product>>, keys': seq<string>)
    requires OwnKeys(groups, keys)
    ensures ok <==> GroupKey(product.name) !in InheritedNames
    ensures ok ==> groups' == AddProduct(groups, product)
    ensures !ok ==> groups' == groups && keys' == keys
    ensures OwnKeys(groups', keys')
  {
    groups', keys' := groups, keys;
    var firstWord := GroupKey(product.name);
    if firstWord !in groups' && firstWord in InheritedNames {
      return false, groups, keys;
    }
    if firstWord !in groups' {
      groups' := groups'[firstWord := []];
      keys' := keys' + [firstWord];
    }
    if !HasPid(groups'[firstWord], product.pid) {
      groups' := groups'[firstWord := groups'[firstWord] + [product]];
    }
    ok := true;
  }

  /** The forEach over the keys, sorting each group by name. */
  method SortGroups(groups: map<string, seq<Product>>, keys: seq<string>) returns (sorted: map<string, seq<Product>>)
    requires forall a, b :: 0 <= a < b < |keys| ==> keys[a] != keys[b]
    requires forall k :: k in keys <==> k in groups
    ensures sorted.Keys == groups.Keys
    ensures forall k :: k in sorted ==> sorted[k] == SortBy(groups[k], NameLe)
  {
    sorted := groups;
    for i := 0 to |keys|
      invariant sorted.Keys == groups.Keys
      invariant forall j :: 0 <= j < i ==> sorted[keys[j]] == SortBy(groups[keys[j]], NameLe)
      invariant forall j :: i <= j < |keys| ==> sorted[keys[j]] == groups[keys[j]]
    {
      var key := keys[i];
      sorted := sorted[key := SortBy(sorted[key], NameLe)];
    }
    forall k | k in sorted ensures sorted[k] == SortBy(groups[k], NameLe) {
      var j :| 0 <= j < |keys| && keys[j] == k;
    }
  }

  /** A name whose first word is the name of an inherited member ("constructor",
      "toString x", ...) makes the grouping throw. */
  lemma InheritedKeyThrows(products: seq<Product>, j: nat, w: string, rest: string)
    requires j < |products| && w in InheritedNames
    requires products[j].name == w + rest && (rest == [] || rest[0] == ' ')
    ensures !PlainKeys(products)
  {
    InheritedNamesAreWords();
    FirstWordOf(w, rest);
    NotPlainKeys(products, j);
  }

  /** The inherited member names are words: non-empty and without a space. */
  lemma InheritedNamesAreWords()
    ensures forall w :: w in InheritedNames ==> w != [] && forall i :: 0 <= i < |w| ==> w[i] != ' '
  {
  }

  /** The first word of a word followed by nothing or by a space is that word. */
  lemma {:induction false} FirstWordOf(w: string, rest: string)
    requires forall i :: 0 <= i < |w| ==> w[i] != ' '
    requires rest == [] || rest[0] == ' '
    ensures FirstWord(w + rest) == w
  {
    if w != [] {
      assert (w + rest)[1..] == w[1..] + rest;
      FirstWordOf(w[1..], rest);
    }
  }

  /** The picker's grouping, then Object.keys(groups).sort() for the section names. ok is
      false when the grouping throws (some key names an inherited member); the picker
      then has no sections to show. */
  method GroupProducts(products: seq<Product>)
    returns (ok: bool, groups: map<string, seq<Product>>, sectionNames: seq<string>)
    ensures ok <==> PlainKeys(products)
    ensures !ok ==> groups == map[] && sectionNames == []
    ensures ok ==> groups.Keys == set j | 0 <= j < |products| :: GroupKey(products[j].name)
    ensures ok ==> forall k :: k in groups ==> groups[k] == Section(products, k)
    ensures SortedBy(sectionNames, StrLe)
    ensures forall i, j :: 0 <= i < j < |sectionNames| ==> sectionNames[i] != sectionNames[j]
    ensures forall k :: k in sectionNames <==> k in groups
  {
    var grouped, keys;
    ok, grouped, keys := GroupByFirstWord(products);
    if !ok {
      return false, map[], [];
    }
    groups := SortGroups(grouped, keys);
    GroupedKeys(products);
    forall k | k in groups ensures groups[k] == Section(products, k) {
      GroupedAt(products, k);
    }
    sectionNames := SortBy(keys, StrLe);
    StrLeTotalPreorder();
    SortBySorted(keys, StrLe);
    SortByDistinct(keys, StrLe);
    SortByPermutation(keys, StrLe);
    assert forall k :: k in sectionNames <==> k in multiset(keys);
  }

  /** A key no earlier product has has an empty group. */
  lemma NoGroupYet(ps: seq<Product>, k: string)
    requires forall j :: 0 <= j < |ps| ==> GroupKey(ps[j].name) != k
    ensures DedupPid(InGroup(ps, k)) == []
  {
    InGroupMembers(ps, k);
  }
}
