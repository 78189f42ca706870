/** The search that merges Albert Heijn's own results with the demo catalogue, one
    de-duplicated, price-sorted list per supermarket; the cheapest product per supermarket;
    and the basket comparison that prices a whole shopping list per supermarket. Albert
    Heijn's product search is a parameter: one call per query variation. */
module SmartSearch {
  import opened Wrappers
  import opened Text
  import opened Models
  import opened Sorting
  import opened MockData
  import CostCalculator

  // ---------------------------------------------------------------- query variations

  /** The variation table: generic product names and the queries to send for each. */
  const ProductVariations: seq<(string, seq<string>)> := [
    ("cola", ["cola", "ah cola", "coca cola", "pepsi"]),
    ("melk", ["melk", "ah melk", "campina melk", "halfvolle melk"]),
    ("brood", ["brood", "ah brood", "heel brood", "volkoren brood"]),
    ("kaas", ["kaas", "ah kaas", "goudse kaas", "jong belegen"]),
    ("eieren", ["eieren", "ah eieren", "scharreleieren", "vrije uitloop"]),
    ("bier", ["bier", "heineken", "amstel", "ah bier", "pilsener"]),
    ("chips", ["chips", "ah chips", "lays", "doritos"]),
    ("pasta", ["pasta", "spaghetti", "ah pasta", "penne"]),
    ("koffie", ["koffie", "ah koffie", "douwe egberts", "nespresso"]),
    ("thee", ["thee", "ah thee", "pickwick", "lipton"]),
    ("yoghurt", ["yoghurt", "ah yoghurt", "activia", "danone"]),
    ("boter", ["boter", "ah boter", "roomboter", "margarine"])
  ]

  /** The variations of the first entry whose key matches `q`, if any. */
  function LookupVariations(entries: seq<(string, seq<string>)>, q: string): (r: Option<seq<string>>)
    ensures r.None? <==> forall i :: 0 <= i < |entries| ==> !KeywordMatches(entries[i].0, q)
    ensures r.Some? ==> exists i :: 0 <= i < |entries| && KeywordMatches(entries[i].0, q) &&
                                    r.value == entries[i].1 &&
                                    forall k :: 0 <= k < i ==> !KeywordMatches(entries[k].0, q)
  {
    if entries == [] then None
    else if KeywordMatches(entries[0].0, q) then Some(entries[0].1)
    else
      var r := LookupVariations(entries[1..], q);
      assert forall i :: 1 <= i < |entries| ==> entries[i] == entries[1..][i - 1];
      r
  }

  /** The variations for a normalized query `q`: the first matching entry's list, or `q`
      and its house-brand form. */
  function VariationsFor(entries: seq<(string, seq<string>)>, q: string): (r: seq<string>)
    requires forall i :: 0 <= i < |entries| ==> entries[i].1 != []
    ensures r != []
    ensures (forall i :: 0 <= i < |entries| ==> !KeywordMatches(entries[i].0, q)) ==> r == [q, "ah " + q]
    ensures (exists i :: 0 <= i < |entries| && KeywordMatches(entries[i].0, q)) ==>
            exists i :: 0 <= i < |entries| && KeywordMatches(entries[i].0, q) && r == entries[i].1 &&
                        forall k :: 0 <= k < i ==> !KeywordMatches(entries[k].0, q)
  {
    match LookupVariations(entries, q)
    case Some(vs) => vs
    case None => [q, "ah " + q]
  }

  lemma VariationsNonEmpty()
    ensures forall i :: 0 <= i < |ProductVariations| ==> ProductVariations[i].1 != []
  {
  }

  /** `get_search_variations`: the queries to send to Albert Heijn for a user query. */
  function GetSearchVariations(query: string): (r: seq<string>)
    ensures r != []
  {
    VariationsNonEmpty();
    VariationsFor(ProductVariations, Normalize(query))
  }

  // ---------------------------------------------------------------- de-duplication

  /** The de-duplication key `f"{name}_{regular_price}"`. A price's text has no underscore,
      so two keys are equal exactly when name and price are. */
  function DedupKey(p: ProductSearch): (string, Cents) {
    (p.name, p.regularPrice)
  }

  function Keys(s: seq<ProductSearch>): set<(string, Cents)> {
    set x | x in s :: DedupKey(x)
  }

  /** The products of `s` whose key has not been seen before, in order. */
  function Dedup(s: seq<ProductSearch>): (r: seq<ProductSearch>)
    ensures |r| <= |s|
    ensures forall i :: 0 <= i < |r| ==> r[i] in s
  {
    if s == [] then []
    else
      var kept := Dedup(s[..|s| - 1]);
      var last := s[|s| - 1];
      if DedupKey(last) in Keys(kept) then kept else kept + [last]
  }

  lemma DedupSnoc(s: seq<ProductSearch>, x: ProductSearch)
    ensures Dedup(s + [x]) == if DedupKey(x) in Keys(Dedup(s)) then Dedup(s) else Dedup(s) + [x]
  {
    assert (s + [x])[..|s|] == s;
  }

  lemma KeysSnoc(s: seq<ProductSearch>, x: ProductSearch)
    ensures Keys(s + [x]) == Keys(s) + {DedupKey(x)}
  {
    assert forall y :: y in s + [x] <==> y in s || y == x;
  }

  /** De-duplication keeps each key once and keeps every key. */
  lemma {:induction false} DedupKeys(s: seq<ProductSearch>)
    ensures DistinctBy(Dedup(s), DedupKey)
    ensures Keys(Dedup(s)) == Keys(s)
  {
    if s != [] {
      var init, last := s[..|s| - 1], s[|s| - 1];
      assert s == init + [last];
      DedupKeys(init);
      KeysSnoc(init, last);
      var kept := Dedup(init);
      if DedupKey(last) !in Keys(kept) {
        KeysSnoc(kept, last);
        forall i | 0 <= i < |kept|
          ensures DedupKey(kept[i]) != DedupKey(last)
        {
          assert kept[i] in kept;
        }
      }
    }
  }

  /** Every product de-duplication keeps is the first of its key. */
  lemma {:induction false} DedupFirst(s: seq<ProductSearch>)
    ensures forall x :: x in Dedup(s) ==>
              exists i :: 0 <= i < |s| && s[i] == x && forall k :: 0 <= k < i ==> DedupKey(s[k]) != DedupKey(x)
  {
    if s != [] {
      var init, last := s[..|s| - 1], s[|s| - 1];
      DedupFirst(init);
      var kept := Dedup(init);
      assert forall k :: 0 <= k < |init| ==> s[k] == init[k];
      forall x | x in Dedup(s)
        ensures exists i :: 0 <= i < |s| && s[i] == x && forall k :: 0 <= k < i ==> DedupKey(s[k]) != DedupKey(x)
      {
        if x in kept {
          var i :| 0 <= i < |init| && init[i] == x && forall k :: 0 <= k < i ==> DedupKey(init[k]) != DedupKey(x);
          assert s[i] == x && forall k :: 0 <= k < i ==> DedupKey(s[k]) != DedupKey(x);
        } else {
          DedupKeys(init);
          KeysSnoc(init, last);
          assert x == last;
          forall k | 0 <= k < |init|
            ensures DedupKey(s[k]) != DedupKey(last)
          {
            assert init[k] in init;
          }
        }
      }
    }
  }

  /** De-duplication only drops products. */
  lemma {:induction false} DedupMembers(s: seq<ProductSearch>)
    ensures forall x :: x in Dedup(s) ==> x in s
  {
    if s != [] {
      var init := s[..|s| - 1];
      DedupMembers(init);
      assert forall x :: x in init ==> x in s;
    }
  }

  /** De-duplication keeps each key once, keeps every key, and keeps the first product of
      each key. */
  lemma DedupSpec(s: seq<ProductSearch>)
    ensures DistinctBy(Dedup(s), DedupKey)
    ensures Keys(Dedup(s)) == Keys(s)
    ensures forall x :: x in Dedup(s) ==>
              exists i :: 0 <= i < |s| && s[i] == x && forall k :: 0 <= k < i ==> DedupKey(s[k]) != DedupKey(x)
  {
    DedupKeys(s);
    DedupFirst(s);
  }

  // ---------------------------------------------------------------- merged results

  /** A demo row as it is merged here: like the catalogue search, but with the store's
      product page as URL. */
  function MockRow(p: MockProduct): ProductSearch {
    ProductSearch(p.name, p.brand, p.regular, None, p.bonus, None, "stuk", 1.0,
                  "https://www." + RemoveChar(p.store, '_') + ".nl/product", None, p.store)
  }

  /** The rows of `ps` for `store`, in order. */
  function MockRows(ps: seq<MockProduct>, store: string): seq<ProductSearch> {
    if ps == [] then []
    else
      var last := ps[|ps| - 1];
      MockRows(ps[..|ps| - 1], store) + (if last.store == store then [MockRow(last)] else [])
  }

  /** Albert Heijn's product search for one query; a failed call yields nothing. */
  type ApiSearch = string -> seq<ProductSearch>

  /** Everything Albert Heijn returned, query after query. */
  function Fetched(variations: seq<string>, search: ApiSearch): seq<ProductSearch> {
    if variations == [] then []
    else Fetched(variations[..|variations| - 1], search) + search(variations[|variations| - 1])
  }

  const AlbertHeijn := "albert_heijn"

  /** A store's list before sorting, given Albert Heijn's own de-duplicated results `own` and the
      demo rows `stream` seen so far: demo rows for Albert Heijn count only when `own` is
      empty. */
  function Collected(own: seq<ProductSearch>, stream: seq<MockProduct>, store: string): (r: seq<ProductSearch>)
    ensures forall i :: 0 <= i < |r| ==> r[i] in MockRows(stream, store) || (store == AlbertHeijn && r[i] in own)
  {
    if store == AlbertHeijn && own != [] then own else Dedup(MockRows(stream, store))
  }

  /** The price a list is sorted by: the bonus-card price when it is set and non-zero, else
      the regular price. */
  function SortPrice(p: ProductSearch): Cents {
    if Truthy(p.bonusCardPrice) then p.bonusCardPrice.value else p.regularPrice
  }

  predicate PriceLe(a: ProductSearch, b: ProductSearch) {
    SortPrice(a) <= SortPrice(b)
  }

  /** Albert Heijn's de-duplicated results for a query. */
  function RealResults(query: string, search: ApiSearch): seq<ProductSearch> {
    Dedup(Fetched(GetSearchVariations(query), search))
  }

  /** The merged result dictionary for a query. */
  function SmartResults(table: seq<MockCategory>, query: string, search: ApiSearch): (r: seq<StoreResults>)
    ensures |r| == |StoreKeys|
    ensures forall i :: 0 <= i < |r| ==> r[i].store == StoreKeys[i]
  {
    var own := RealResults(query, search);
    var stream := KeywordProducts(table, Normalize(query));
    seq(|StoreKeys|, i requires 0 <= i < |StoreKeys| =>
      StoreResults(StoreKeys[i], SortBy(Collected(own, stream, StoreKeys[i]), PriceLe)))
  }

  /** One more product of a response: kept when its key is new. */
  lemma DedupSliceStep(prefix: seq<ProductSearch>, results: seq<ProductSearch>, j: nat,
                       found: seq<ProductSearch>, seen: set<(string, Cents)>)
    requires j < |results| && found == Dedup(prefix + results[..j]) && seen == Keys(found)
    ensures DedupKey(results[j]) in seen ==> found == Dedup(prefix + results[..j + 1])
    ensures DedupKey(results[j]) !in seen ==> found + [results[j]] == Dedup(prefix + results[..j + 1])
    ensures seen + {DedupKey(results[j])} == Keys(found + [results[j]])
  {
    SliceSnoc(prefix, results, j);
    DedupSnoc(prefix + results[..j], results[j]);
    KeysSnoc(found, results[j]);
  }

  /** The inner loop of the Albert Heijn search: the products of one response whose key has
      not been seen are appended, in order. */
  method AddUnseen(ghost prefix: seq<ProductSearch>, results: seq<ProductSearch>,
                   found0: seq<ProductSearch>, seen0: set<(string, Cents)>)
    returns (found: seq<ProductSearch>, seen: set<(string, Cents)>)
    requires found0 == Dedup(prefix) && seen0 == Keys(found0)
    ensures found == Dedup(prefix + results)
    ensures seen == Keys(found)
  {
    found, seen := found0, seen0;
    assert prefix + results[..0] == prefix;
    for j := 0 to |results|
      invariant found == Dedup(prefix + results[..j])
      invariant seen == Keys(found)
    {
      var product := results[j];
      DedupSliceStep(prefix, results, j, found, seen);
      if DedupKey(product) !in seen {
        seen := seen + {DedupKey(product)};
        found := found + [product];
      }
    }
    assert results[..|results|] == results;
  }

  /** Everything fetched for the first `i + 1` variations. */
  lemma FetchedStep(variations: seq<string>, search: ApiSearch, i: nat)
    requires i < |variations|
    ensures Fetched(variations[..i + 1], search) == Fetched(variations[..i], search) + search(variations[i])
  {
    assert variations[..i + 1][..i] == variations[..i];
  }

  /** Albert Heijn's search with every variation, keeping the first product of each key. */
  method SearchAlbertHeijn(variations: seq<string>, search: ApiSearch)
    returns (found: seq<ProductSearch>, seen: set<(string, Cents)>)
    ensures found == Dedup(Fetched(variations, search))
    ensures seen == Keys(found)
  {
    found, seen := [], {};
    for i := 0 to |variations|
      invariant found == Dedup(Fetched(variations[..i], search))
      invariant seen == Keys(found)
    {
      var results := search(variations[i]);
      FetchedStep(variations, search, i);
      found, seen := AddUnseen(Fetched(variations[..i], search), results, found, seen);
    }
    assert variations[..|variations|] == variations;
  }

  lemma CollectedStep(own: seq<ProductSearch>, stream: seq<MockProduct>, p: MockProduct, store: string)
    ensures Collected(own, stream + [p], store) ==
            if p.store != store || (store == AlbertHeijn && own != []) then Collected(own, stream, store)
            else if DedupKey(MockRow(p)) in Keys(Collected(own, stream, store)) then Collected(own, stream, store)
            else Collected(own, stream, store) + [MockRow(p)]
  {
    assert (stream + [p])[..|stream|] == stream;
    if p.store == store {
      assert MockRows(stream + [p], store) == MockRows(stream, store) + [MockRow(p)];
      DedupSnoc(MockRows(stream, store), MockRow(p));
    } else {
      assert MockRows(stream + [p], store) == MockRows(stream, store) + [];
      assert MockRows(stream, store) + [] == MockRows(stream, store);
    }
  }

  lemma SliceSnoc<T>(prefix: seq<T>, s: seq<T>, j: nat)
    requires j < |s|
    ensures prefix + s[..j + 1] == (prefix + s[..j]) + [s[j]]
  {
    assert s[..j + 1] == s[..j] + [s[j]];
  }

  /** Each store's list and seen-key set agree with the demo rows `stream` processed so far. */
  ghost predicate Consistent(lists: map<string, seq<ProductSearch>>, seen: map<string, set<(string, Cents)>>,
                             own: seq<ProductSearch>, stream: seq<MockProduct>) {
    forall s :: s in StoreKeys ==>
      s in lists && s in seen && lists[s] == Collected(own, stream, s) && seen[s] == Keys(lists[s])
  }

  /** A demo row that is skipped, or whose key the store has seen, changes nothing. */
  lemma SkipRowStep(lists: map<string, seq<ProductSearch>>, seen: map<string, set<(string, Cents)>>,
                    own: seq<ProductSearch>, stream: seq<MockProduct>, p: MockProduct, stream': seq<MockProduct>)
    requires Consistent(lists, seen, own, stream) && p.store in StoreKeys && stream' == stream + [p]
    requires (p.store == AlbertHeijn && own != []) || DedupKey(MockRow(p)) in seen[p.store]
    ensures Consistent(lists, seen, own, stream')
  {
    forall s | s in StoreKeys
      ensures lists[s] == Collected(own, stream', s)
    {
      CollectedStep(own, stream, p, s);
    }
  }

  /** A demo row with a new key is appended to its store's list. */
  lemma AppendRowStep(lists: map<string, seq<ProductSearch>>, seen: map<string, set<(string, Cents)>>,
                      own: seq<ProductSearch>, stream: seq<MockProduct>, p: MockProduct, stream': seq<MockProduct>)
    requires Consistent(lists, seen, own, stream) && p.store in StoreKeys && stream' == stream + [p]
    requires !(p.store == AlbertHeijn && own != []) && DedupKey(MockRow(p)) !in seen[p.store]
    ensures Consistent(lists[p.store := lists[p.store] + [MockRow(p)]],
                       seen[p.store := seen[p.store] + {DedupKey(MockRow(p))}], own, stream')
  {
    var lists', seen' := lists[p.store := lists[p.store] + [MockRow(p)]], seen[p.store := seen[p.store] + {DedupKey(MockRow(p))}];
    forall s | s in StoreKeys
      ensures s in lists' && s in seen' && lists'[s] == Collected(own, stream', s) && seen'[s] == Keys(lists'[s])
    {
      CollectedStep(own, stream, p, s);
      KeysSnoc(lists[s], MockRow(p));
    }
  }

  /** The rows of one matching keyword, added one by one. */
  method AddCategoryRows(products: seq<MockProduct>, own: seq<ProductSearch>, skipAlbertHeijn: bool,
                         ghost stream: seq<MockProduct>,
                         lists0: map<string, seq<ProductSearch>>, seen0: map<string, set<(string, Cents)>>)
    returns (lists: map<string, seq<ProductSearch>>, seen: map<string, set<(string, Cents)>>)
    requires forall j :: 0 <= j < |products| ==> products[j].store in StoreKeys
    requires skipAlbertHeijn == (own != [])
    requires Consistent(lists0, seen0, own, stream)
    ensures Consistent(lists, seen, own, stream + products)
  {
    lists, seen := lists0, seen0;
    assert stream + products[..0] == stream;
    for j := 0 to |products|
      invariant Consistent(lists, seen, own, stream + products[..j])
    {
      var product := products[j];
      var store := product.store;
      SliceSnoc(stream, products, j);
      ghost var done, next := stream + products[..j], stream + products[..j + 1];
      if store == AlbertHeijn && skipAlbertHeijn {
        // Albert Heijn's own results win over its demo rows
        SkipRowStep(lists, seen, own, done, product, next);
        continue;
      }
      var key := DedupKey(MockRow(product));
      if key !in seen[store] {
        AppendRowStep(lists, seen, own, done, product, next);
        seen := seen[store := seen[store] + {key}];
        lists := lists[store := lists[store] + [MockRow(product)]];
      } else {
        SkipRowStep(lists, seen, own, done, product, next);
      }
    }
    assert products[..|products|] == products;
  }

  /** The demo rows of every matching keyword, added to each store's list; Albert Heijn's
      rows are skipped when its own search found something. */
  method AddMockRows(table: seq<MockCategory>, q: string, own: seq<ProductSearch>,
                     lists0: map<string, seq<ProductSearch>>, seen0: map<string, set<(string, Cents)>>)
    returns (lists: map<string, seq<ProductSearch>>, seen: map<string, set<(string, Cents)>>)
    requires WellFormed(table)
    requires Consistent(lists0, seen0, own, [])
    ensures Consistent(lists, seen, own, KeywordProducts(table, q))
  {
    lists, seen := lists0, seen0;
    var skipAlbertHeijn := lists[AlbertHeijn] != [];
    assert skipAlbertHeijn == (own != []);
    for i := 0 to |table|
      invariant Consistent(lists, seen, own, KeywordProducts(table[..i], q))
    {
      ghost var stream := KeywordProducts(table[..i], q);
      assert table[..i + 1][..i] == table[..i];
      ghost var next := KeywordProducts(table[..i + 1], q);
      if KeywordMatches(table[i].keyword, q) {
        assert next == stream + table[i].products;
        lists, seen := AddCategoryRows(table[i].products, own, skipAlbertHeijn, stream, lists, seen);
      } else {
        assert next == stream + [] == stream;
      }
    }
    assert table[..|table|] == table;
  }

  lemma StartConsistent(own: seq<ProductSearch>, ownSeen: set<(string, Cents)>)
    requires ownSeen == Keys(own)
    ensures Consistent(map["albert_heijn" := own, "jumbo" := [], "dirk" := [], "plus" := [], "flink" := [], "picnic" := []],
                       map["albert_heijn" := ownSeen, "jumbo" := {}, "dirk" := {}, "plus" := {}, "flink" := {}, "picnic" := {}],
                       own, [])
  {
  }

  lemma ListsGiveResults(table: seq<MockCategory>, query: string, search: ApiSearch,
                         lists: map<string, seq<ProductSearch>>, seen: map<string, set<(string, Cents)>>)
    requires Consistent(lists, seen, RealResults(query, search), KeywordProducts(table, Normalize(query)))
    ensures forall i :: 0 <= i < |StoreKeys| ==>
              StoreKeys[i] in lists && SmartResults(table, query, search)[i] == StoreResults(StoreKeys[i], SortBy(lists[StoreKeys[i]], PriceLe))
  {
  }

  /** The merged search for one query. */
  method SmartSearch(table: seq<MockCategory>, query: string, search: ApiSearch) returns (results: seq<StoreResults>)
    requires WellFormed(table)
    ensures results == SmartResults(table, query, search)
  {
    var variations := GetSearchVariations(query);
    var own, ownSeen := SearchAlbertHeijn(variations, search);
    var lists := map["albert_heijn" := own, "jumbo" := [], "dirk" := [], "plus" := [], "flink" := [], "picnic" := []];
    var seen := map["albert_heijn" := ownSeen, "jumbo" := {}, "dirk" := {}, "plus" := {}, "flink" := {}, "picnic" := {}];
    StartConsistent(own, ownSeen);
    lists, seen := AddMockRows(table, Normalize(query), own, lists, seen);
    ListsGiveResults(table, query, search, lists, seen);
    results := seq(|StoreKeys|, i requires 0 <= i < |StoreKeys| => StoreResults(StoreKeys[i], SortBy(lists[StoreKeys[i]], PriceLe)));
  }

  // ---------------------------------------------------------------- properties of the merge

  lemma PriceLeIsTotalPreorder()
    ensures TotalPreorder(PriceLe)
  {
  }

  lemma {:induction false} MockRowsMembers(ps: seq<MockProduct>, store: string, x: ProductSearch)
    ensures x in MockRows(ps, store) <==> exists p :: p in ps && p.store == store && x == MockRow(p)
  {
    if ps != [] {
      var init := ps[..|ps| - 1];
      MockRowsMembers(init, store, x);
      assert ps == init + [ps[|ps| - 1]];
    }
  }

  /** Each store's list is sorted by price, cheapest first, and holds no two products with the
      same name and regular price. */
  lemma SmartResultsSortedDistinct(table: seq<MockCategory>, query: string, search: ApiSearch, i: nat)
    requires i < |StoreKeys|
    ensures SortedBy(SmartResults(table, query, search)[i].products, PriceLe)
    ensures DistinctBy(SmartResults(table, query, search)[i].products, DedupKey)
  {
    var own := RealResults(query, search);
    var stream := KeywordProducts(table, Normalize(query));
    var collected := Collected(own, stream, StoreKeys[i]);
    PriceLeIsTotalPreorder();
    SortBySorted(collected, PriceLe);
    DedupSpec(Fetched(GetSearchVariations(query), search));
    DedupSpec(MockRows(stream, StoreKeys[i]));
    SortByDistinct(collected, PriceLe, DedupKey);
  }

  /** Sorting by price keeps the same products, hence the same keys. */
  lemma SortedSameProducts(c: seq<ProductSearch>)
    ensures multiset(SortBy(c, PriceLe)) == multiset(c)
    ensures forall x :: x in SortBy(c, PriceLe) <==> x in c
    ensures Keys(SortBy(c, PriceLe)) == Keys(c)
  {
    SortByPermutes(c, PriceLe);
    var list := SortBy(c, PriceLe);
    forall x
      ensures x in list <==> x in c
    {
      assert x in list <==> x in multiset(list);
      assert x in c <==> x in multiset(c);
    }
  }

  /** Albert Heijn's list: when its own search found something, exactly those results (sorted);
      otherwise its demo rows, one per key. Every key of its demo rows survives. */
  lemma AlbertHeijnResults(table: seq<MockCategory>, query: string, search: ApiSearch)
    ensures RealResults(query, search) != [] ==>
              multiset(SmartResults(table, query, search)[0].products) == multiset(RealResults(query, search))
    ensures RealResults(query, search) == [] ==>
              multiset(SmartResults(table, query, search)[0].products)
                == multiset(Dedup(MockRows(KeywordProducts(table, Normalize(query)), AlbertHeijn)))
    ensures RealResults(query, search) == [] ==>
              Keys(SmartResults(table, query, search)[0].products)
                == Keys(MockRows(KeywordProducts(table, Normalize(query)), AlbertHeijn))
  {
    var own := RealResults(query, search);
    var rows := MockRows(KeywordProducts(table, Normalize(query)), AlbertHeijn);
    var collected := Collected(own, KeywordProducts(table, Normalize(query)), AlbertHeijn);
    assert SmartResults(table, query, search)[0].products == SortBy(collected, PriceLe);
    SortedSameProducts(collected);
    DedupKeys(rows);
  }

  /** Store `i`'s list in the merged results. */
  lemma SmartResultsAt(table: seq<MockCategory>, query: string, search: ApiSearch, i: nat)
    requires i < |StoreKeys|
    ensures SmartResults(table, query, search)[i].products
            == SortBy(Collected(RealResults(query, search), KeywordProducts(table, Normalize(query)), StoreKeys[i]), PriceLe)
  {
  }

  /** A list built from the demo rows of a store other than Albert Heijn. */
  lemma DemoList(own: seq<ProductSearch>, stream: seq<MockProduct>, store: string, list: seq<ProductSearch>)
    requires store != AlbertHeijn && list == SortBy(Collected(own, stream, store), PriceLe)
    ensures Keys(list) == Keys(MockRows(stream, store))
    ensures forall x :: x in list ==>
              x.supermarket == store && exists p :: p in stream && p.store == store && x == MockRow(p)
  {
    var rows := MockRows(stream, store);
    SortedSameProducts(Dedup(rows));
    DedupKeys(rows);
    DedupMembers(rows);
    RowsLabelled(stream, store, list);
  }

  /** Every other store's list holds exactly one product per key among the demo rows of the
      matching keywords for that store, each labelled with that store. */
  lemma DemoStoreResults(table: seq<MockCategory>, query: string, search: ApiSearch, i: nat)
    requires 0 < i < |StoreKeys|
    ensures Keys(SmartResults(table, query, search)[i].products)
              == Keys(MockRows(KeywordProducts(table, Normalize(query)), StoreKeys[i]))
    ensures forall x :: x in SmartResults(table, query, search)[i].products ==>
              x.supermarket == StoreKeys[i] &&
              exists p :: p in KeywordProducts(table, Normalize(query)) && p.store == StoreKeys[i] && x == MockRow(p)
  {
    StoreKeysDistinct();
    assert StoreKeys[i] != AlbertHeijn;
    SmartResultsAt(table, query, search, i);
    DemoList(RealResults(query, search), KeywordProducts(table, Normalize(query)), StoreKeys[i],
             SmartResults(table, query, search)[i].products);
  }

  /** Products drawn from a store's demo rows are that store's demo products. */
  lemma RowsLabelled(stream: seq<MockProduct>, store: string, list: seq<ProductSearch>)
    requires forall x :: x in list ==> x in MockRows(stream, store)
    ensures forall x :: x in list ==>
              x.supermarket == store && exists p :: p in stream && p.store == store && x == MockRow(p)
  {
    forall x | x in list
      ensures x.supermarket == store && exists p :: p in stream && p.store == store && x == MockRow(p)
    {
      MockRowsMembers(stream, store, x);
    }
  }

  // ---------------------------------------------------------------- the demo-row skip as written

  /** Albert Heijn's list as the merge loop in the source builds it from its demo `rows`: the
      test that should ask whether Albert Heijn's own search found anything reads the list
      being filled, so once one demo row is in, every later one is skipped. */
  function AlbertHeijnAsWritten(list: seq<ProductSearch>, seen: set<(string, Cents)>, rows: seq<ProductSearch>): (r: seq<ProductSearch>)
    ensures list <= r
    ensures forall i :: |list| <= i < |r| ==> r[i] in rows
    decreases |rows|
  {
    if rows == [] then list
    else if list != [] || DedupKey(rows[0]) in seen then AlbertHeijnAsWritten(list, seen, rows[1..])
    else AlbertHeijnAsWritten(list + [rows[0]], seen + {DedupKey(rows[0])}, rows[1..])
  }

  /** As written, with no own results Albert Heijn keeps only its first demo row. */
  lemma {:induction false} AsWrittenKeepsFirstRowOnly(list: seq<ProductSearch>, seen: set<(string, Cents)>, rows: seq<ProductSearch>)
    requires list != []
    ensures AlbertHeijnAsWritten(list, seen, rows) == list
    decreases |rows|
  {
    if rows != [] {
      AsWrittenKeepsFirstRowOnly(list, seen, rows[1..]);
    }
  }

  /** Two Albert Heijn demo rows with different keys (the cola keyword has three): the
      corrected merge keeps both, the merge as written keeps only the first. */
  lemma AsWrittenDropsDemoRows(a: ProductSearch, b: ProductSearch)
    requires DedupKey(a) != DedupKey(b)
    ensures Dedup([a, b]) == [a, b]
    ensures AlbertHeijnAsWritten([], {}, [a, b]) == [a]
  {
    assert [a, b][..1] == [a];
    assert [a][..0] == [];
    assert Dedup([a]) == [a];
    var empty: seq<ProductSearch> := [];
    assert AlbertHeijnAsWritten(empty, {}, [a, b]) == AlbertHeijnAsWritten(empty + [a], {} + {DedupKey(a)}, [a, b][1..]);
    assert empty + [a] == [a];
    AsWrittenKeepsFirstRowOnly(empty + [a], {} + {DedupKey(a)}, [a, b][1..]);
  }

  // ---------------------------------------------------------------- cheapest per store

  function First(products: seq<ProductSearch>): (r: Option<ProductSearch>)
    ensures r.None? <==> products == []
  {
    if products == [] then None else Some(products[0])
  }

  /** `get_cheapest_per_store`: each store's first product, none for an empty list. */
  function GetCheapestPerStore(results: seq<StoreResults>): (r: seq<StoreMatch>)
    ensures |r| == |results|
    ensures forall i :: 0 <= i < |r| ==> r[i].store == results[i].store
    ensures forall i :: 0 <= i < |r| ==> (r[i].matched.None? <==> results[i].products == [])
    ensures forall i :: 0 <= i < |r| && r[i].matched.Some? ==> r[i].matched.value in results[i].products
  {
    seq(|results|, i requires 0 <= i < |results| => StoreMatch(results[i].store, First(results[i].products)))
  }

  /** On merged results the first product of a store is one of its cheapest. */
  lemma CheapestPerStoreIsCheapest(table: seq<MockCategory>, query: string, search: ApiSearch, i: nat)
    requires i < |StoreKeys|
    ensures var results := SmartResults(table, query, search);
            var pick := GetCheapestPerStore(results)[i].matched;
            pick.Some? ==> forall x :: x in results[i].products ==> SortPrice(pick.value) <= SortPrice(x)
  {
    var results := SmartResults(table, query, search);
    SmartResultsSortedDistinct(table, query, search, i);
    var list := results[i].products;
    forall x | x in list && list != []
      ensures SortPrice(list[0]) <= SortPrice(x)
    {
      var k :| 0 <= k < |list| && list[k] == x;
      if k > 0 {
        assert PriceLe(list[0], list[k]);
      }
    }
  }

  // ---------------------------------------------------------------- basket comparison

  /** One found item in a store's details. */
  datatype Detail = Detail(query: string, product: string, price: Cents, quantity: int)

  /** A store's running totals over the shopping list. */
  datatype StoreTotal = StoreTotal(products: Cents, itemsFound: nat, itemsMissing: nat, details: seq<Detail>)

  /** One row of the basket comparison; only the first row after sorting is marked cheapest. */
  datatype BasketOption = BasketOption(
    supermarket: string,
    storeKey: string,
    productTotal: Cents,
    deliveryCost: Cents,
    total: Cents,
    itemsFound: nat,
    itemsMissing: nat,
    details: seq<Detail>,
    isCheapest: bool)

  /** One shopping-list item counted at a store, given that store's cheapest product for it. */
  function Count(t: StoreTotal, item: ListItem, pick: Option<ProductSearch>): StoreTotal {
    match pick
    case Some(p) =>
      StoreTotal(t.products + SortPrice(p) * Quantity(item), t.itemsFound + 1, t.itemsMissing,
                 t.details + [Detail(item.productName, p.name, SortPrice(p), Quantity(item))])
    case None => t.(itemsMissing := t.itemsMissing + 1)
  }

  /** Store `i`'s totals over `items`, each item searched on its own. */
  function Tally(table: seq<MockCategory>, search: ApiSearch, items: seq<ListItem>, i: nat): (r: StoreTotal)
    requires i < |StoreKeys|
    ensures r.itemsFound + r.itemsMissing == |items|
    ensures |r.details| == r.itemsFound
  {
    if items == [] then StoreTotal(0, 0, 0, [])
    else
      var last := items[|items| - 1];
      Count(Tally(table, search, items[..|items| - 1], i), last,
            GetCheapestPerStore(SmartResults(table, last.productName, search))[i].matched)
  }

  /** The fee added to a store's row: none when delivery is left out or the free-delivery
      threshold (when set and non-zero) is reached, else the delivery fee. */
  function BasketDelivery(config: Supermarket, products: Cents, includeDelivery: bool): (r: Cents)
    ensures r == 0 || r == config.deliveryCost
    ensures r != 0 ==> (includeDelivery
                        && !(Truthy(config.freeDeliveryThreshold) && products >= config.freeDeliveryThreshold.value))
  {
    if !includeDelivery then 0
    else if Truthy(config.freeDeliveryThreshold) && products >= config.freeDeliveryThreshold.value then 0
    else config.deliveryCost
  }

  function Row(config: Supermarket, t: StoreTotal, includeDelivery: bool): BasketOption {
    var delivery := BasketDelivery(config, t.products, includeDelivery);
    BasketOption(config.displayName, config.name, t.products, delivery, t.products + delivery,
                 t.itemsFound, t.itemsMissing, t.details, false)
  }

  /** The sort key `(items_missing, total)`, compared lexicographically. */
  predicate BasketLe(a: BasketOption, b: BasketOption) {
    a.itemsMissing < b.itemsMissing || (a.itemsMissing == b.itemsMissing && a.total <= b.total)
  }

  function MarkCheapest(options: seq<BasketOption>): seq<BasketOption> {
    if options == [] then [] else [options[0].(isCheapest := true)] + options[1..]
  }

  /** The rows in configuration order, before sorting. */
  function BasketRows(table: seq<MockCategory>, search: ApiSearch, items: seq<ListItem>,
                      config: seq<Supermarket>, includeDelivery: bool): (r: seq<BasketOption>)
    requires |config| <= |StoreKeys|
    ensures |r| == |config|
  {
    seq(|config|, i requires 0 <= i < |config| => Row(config[i], Tally(table, search, items, i), includeDelivery))
  }

  /** The basket comparison: the rows sorted by missing items, then total, the first marked
      cheapest. */
  function Basket(table: seq<MockCategory>, search: ApiSearch, items: seq<ListItem>,
                  config: seq<Supermarket>, includeDelivery: bool): (r: seq<BasketOption>)
    requires |config| <= |StoreKeys|
    ensures |r| == |config|
    ensures r != [] ==> r[0].isCheapest
  {
    SortByPermutes(BasketRows(table, search, items, config, includeDelivery), BasketLe);
    MarkCheapest(SortBy(BasketRows(table, search, items, config, includeDelivery), BasketLe))
  }

  /** The configuration lists the six stores in the order of the result dictionary. */
  predicate ConfigMatchesStores(config: seq<Supermarket>) {
    |config| == |StoreKeys| && forall i :: 0 <= i < |config| ==> config[i].name == StoreKeys[i]
  }

  ghost predicate Tallied(totals: map<string, StoreTotal>, table: seq<MockCategory>, search: ApiSearch, items: seq<ListItem>) {
    forall i :: 0 <= i < |StoreKeys| ==> StoreKeys[i] in totals && totals[StoreKeys[i]] == Tally(table, search, items, i)
  }

  method CalculateBasketComparison(table: seq<MockCategory>, search: ApiSearch, items: seq<ListItem>,
                                   config: seq<Supermarket>, includeDelivery: bool)
    returns (comparison: seq<BasketOption>)
    requires WellFormed(table)
    requires ConfigMatchesStores(config)
    ensures comparison == Basket(table, search, items, config, includeDelivery)
  {
    var totals := TallyItems(table, search, items);
    var rows := BuildRows(totals, config, includeDelivery);
    assert rows == BasketRows(table, search, items, config, includeDelivery);
    var sorted := SortBy(rows, BasketLe);
    comparison := sorted;
    if comparison != [] {
      comparison := comparison[0 := comparison[0].(isCheapest := true)];
      assert comparison == MarkCheapest(sorted);
    }
  }

  lemma TallyStep(table: seq<MockCategory>, search: ApiSearch, items: seq<ListItem>, k: nat, i: nat)
    requires k < |items| && i < |StoreKeys|
    ensures Tally(table, search, items[..k + 1], i) ==
            Count(Tally(table, search, items[..k], i), items[k],
                  GetCheapestPerStore(SmartResults(table, items[k].productName, search))[i].matched)
  {
    assert items[..k + 1][..k] == items[..k];
  }

  /** The first loop of the comparison: every item searched and counted at every store. */
  method TallyItems(table: seq<MockCategory>, search: ApiSearch, items: seq<ListItem>)
    returns (totals: map<string, StoreTotal>)
    requires WellFormed(table)
    ensures Tallied(totals, table, search, items)
  {
    StoreKeysDistinct();
    var empty := StoreTotal(0, 0, 0, []);
    totals := map["albert_heijn" := empty, "jumbo" := empty, "dirk" := empty,
                  "plus" := empty, "flink" := empty, "picnic" := empty];
    assert items[..0] == [];
    for k := 0 to |items|
      invariant Tallied(totals, table, search, items[..k])
    {
      var item := items[k];
      var results := SmartSearch(table, item.productName, search);
      var cheapest := GetCheapestPerStore(results);
      totals := AddItem(totals, item, cheapest);
      forall i | 0 <= i < |StoreKeys| {
        TallyStep(table, search, items, k, i);
      }
    }
    assert items[..|items|] == items;
  }

  /** One row per configured store, in configuration order. */
  method BuildRows(totals: map<string, StoreTotal>, config: seq<Supermarket>, includeDelivery: bool)
    returns (rows: seq<BasketOption>)
    requires forall i :: 0 <= i < |config| ==> config[i].name in totals
    ensures |rows| == |config|
    ensures forall i :: 0 <= i < |config| ==> rows[i] == Row(config[i], totals[config[i].name], includeDelivery)
  {
    rows := [];
    for i := 0 to |config|
      invariant |rows| == i
      invariant forall t :: 0 <= t < i ==> rows[t] == Row(config[t], totals[config[t].name], includeDelivery)
    {
      var data := totals[config[i].name];
      var delivery := 0;
      if includeDelivery {
        var threshold := config[i].freeDeliveryThreshold;
        if Truthy(threshold) && data.products >= threshold.value {
          delivery := 0;
        } else {
          delivery := config[i].deliveryCost;
        }
      }
      rows := rows + [BasketOption(config[i].displayName, config[i].name, data.products, delivery,
                                   data.products + delivery, data.itemsFound, data.itemsMissing, data.details, false)];
    }
  }

  /** Counts one searched item at every store. */
  method AddItem(totals0: map<string, StoreTotal>, item: ListItem, cheapest: seq<StoreMatch>)
    returns (totals: map<string, StoreTotal>)
    requires |cheapest| == |StoreKeys|
    requires forall i :: 0 <= i < |StoreKeys| ==> cheapest[i].store == StoreKeys[i] && StoreKeys[i] in totals0
    requires forall i, j :: 0 <= i < j < |StoreKeys| ==> StoreKeys[i] != StoreKeys[j]
    ensures forall i :: 0 <= i < |StoreKeys| ==>
              StoreKeys[i] in totals && totals[StoreKeys[i]] == Count(totals0[StoreKeys[i]], item, cheapest[i].matched)
  {
    totals := totals0;
    var query := item.productName;
    var quantity := Quantity(item);
    for i := 0 to |cheapest|
      invariant forall t :: 0 <= t < |StoreKeys| ==> StoreKeys[t] in totals
      invariant forall t :: 0 <= t < i ==> totals[StoreKeys[t]] == Count(totals0[StoreKeys[t]], item, cheapest[t].matched)
      invariant forall t :: i <= t < |StoreKeys| ==> totals[StoreKeys[t]] == totals0[StoreKeys[t]]
    {
      var store := cheapest[i].store;
      var data := totals[store];
      match cheapest[i].matched
      case Some(product) =>
        var price := SortPrice(product);
        totals := totals[store := StoreTotal(data.products + price * quantity, data.itemsFound + 1, data.itemsMissing,
                                             data.details + [Detail(query, product.name, price, quantity)])];
      case None =>
        totals := totals[store := data.(itemsMissing := data.itemsMissing + 1)];
    }
  }

  // ---------------------------------------------------------------- properties of the basket

  lemma BasketLeIsTotalPreorder()
    ensures TotalPreorder(BasketLe)
  {
  }

  /** The rows with the cheapest mark cleared. */
  function Unmarked(options: seq<BasketOption>): (r: seq<BasketOption>)
    ensures |r| == |options|
  {
    seq(|options|, i requires 0 <= i < |options| => options[i].(isCheapest := false))
  }

  /** Rows that account for every one of `n` items and add the fee to the products, unmarked. */
  predicate RowsAddUp(rows: seq<BasketOption>, n: nat) {
    forall i :: 0 <= i < |rows| ==>
      && rows[i].itemsFound + rows[i].itemsMissing == n
      && rows[i].total == rows[i].productTotal + rows[i].deliveryCost
      && !rows[i].isCheapest
  }

  lemma BasketRowsAddUp(table: seq<MockCategory>, search: ApiSearch, items: seq<ListItem>,
                        config: seq<Supermarket>, includeDelivery: bool)
    requires |config| <= |StoreKeys|
    ensures RowsAddUp(BasketRows(table, search, items, config, includeDelivery), |items|)
  {
  }

  lemma PermutationAddsUp(a: seq<BasketOption>, b: seq<BasketOption>, n: nat)
    requires multiset(a) == multiset(b) && RowsAddUp(a, n)
    ensures RowsAddUp(b, n)
  {
    forall i | 0 <= i < |b|
      ensures b[i].itemsFound + b[i].itemsMissing == n
      ensures b[i].total == b[i].productTotal + b[i].deliveryCost && !b[i].isCheapest
    {
      assert b[i] in multiset(a);
      var j :| 0 <= j < |a| && a[j] == b[i];
    }
  }

  /** Marking leaves the order, the sums and the rest of every row alone and marks the
      first row only. */
  lemma MarkCheapestFirstOnly(s: seq<BasketOption>, n: nat)
    requires RowsAddUp(s, n) && SortedBy(s, BasketLe)
    ensures var r := MarkCheapest(s);
            && Unmarked(r) == s
            && (forall i :: 0 <= i < |r| ==> (r[i].isCheapest <==> i == 0))
            && (forall i :: 0 <= i < |r| ==> r[i].itemsFound + r[i].itemsMissing == n)
            && (forall i :: 0 <= i < |r| ==> r[i].total == r[i].productTotal + r[i].deliveryCost)
            && (forall i, j :: 0 <= i < j < |r| ==> BasketLe(r[i], r[j]))
  {
  }

  /** The comparison has one row per configured store (a permutation of the per-store rows),
      each accounting for every item as found or missing and adding the fee to the products;
      it is sorted by missing items, then total; and exactly its first row is marked
      cheapest, even when totals tie. */
  lemma BasketProperties(table: seq<MockCategory>, search: ApiSearch, items: seq<ListItem>,
                         config: seq<Supermarket>, includeDelivery: bool)
    requires |config| <= |StoreKeys|
    ensures var r := Basket(table, search, items, config, includeDelivery);
            && |r| == |config|
            && multiset(Unmarked(r)) == multiset(BasketRows(table, search, items, config, includeDelivery))
            && (forall i :: 0 <= i < |r| ==> r[i].itemsFound + r[i].itemsMissing == |items|)
            && (forall i :: 0 <= i < |r| ==> r[i].total == r[i].productTotal + r[i].deliveryCost)
            && (forall i, j :: 0 <= i < j < |r| ==> BasketLe(r[i], r[j]))
            && (forall i :: 0 <= i < |r| ==> (r[i].isCheapest <==> i == 0))
  {
    var rows := BasketRows(table, search, items, config, includeDelivery);
    var sorted := SortBy(rows, BasketLe);
    BasketRowsAddUp(table, search, items, config, includeDelivery);
    SortByPermutes(rows, BasketLe);
    BasketLeIsTotalPreorder();
    SortBySorted(rows, BasketLe);
    PermutationAddsUp(rows, sorted, |items|);
    MarkCheapestFirstOnly(sorted, |items|);
  }

  /** With delivery included, a store's fee is the cost calculator's delivery fee for its
      product total. */
  lemma BasketDeliveryIsDeliveryCost(config: Supermarket, products: Cents)
    ensures CostCalculator.CalculateDeliveryCost(config, products, "delivery") == Finite(BasketDelivery(config, products, true))
    ensures BasketDelivery(config, products, false) == 0
  {
  }
}
