/** The demo catalogue search used when the scrapers are blocked: a table of products per
    keyword, searched by keyword or, when no keyword yields anything, by product name, with the
    hits bucketed into the six supermarkets. The table itself is a parameter. */
module MockData {
  import opened Wrappers
  import opened Text
  import opened Models

  /** One row of the demo table: `{name, brand, regular, bonus, store}`. */
  datatype MockProduct = MockProduct(
    name: string,
    brand: Option<string>,
    regular: Cents,
    bonus: Option<Cents>,
    store: string)

  /** One entry of the table dictionary: a keyword and its rows, in insertion order. */
  datatype MockCategory = MockCategory(keyword: string, products: seq<MockProduct>)

  /** The keys of the result dictionary, in order. */
  const StoreKeys: seq<string> := ["albert_heijn", "jumbo", "dirk", "plus", "flink", "picnic"]

  lemma StoreKeysDistinct()
    ensures forall i, j :: 0 <= i < j < |StoreKeys| ==> StoreKeys[i] != StoreKeys[j]
  {
    assert StoreKeys[0] != StoreKeys[1] && StoreKeys[0][0] != StoreKeys[2][0];
  }

  /** Every row names one of the six stores; any other store would be a missing key when the
      row is bucketed. */
  predicate WellFormed(table: seq<MockCategory>) {
    forall i, j :: 0 <= i < |table| && 0 <= j < |table[i].products| ==>
      table[i].products[j].store in StoreKeys
  }

  /** `query.lower().strip()`. */
  function Normalize(query: string): string {
    Strip(Lower(query))
  }

  /** `keyword in q or q in keyword`. */
  predicate KeywordMatches(keyword: string, q: string) {
    Contains(q, keyword) || Contains(keyword, q)
  }

  /** The rows of every matching keyword, keyword after keyword in table order. */
  function KeywordProducts(table: seq<MockCategory>, q: string): seq<MockProduct> {
    if table == [] then []
    else
      var last := table[|table| - 1];
      KeywordProducts(table[..|table| - 1], q) + (if KeywordMatches(last.keyword, q) then last.products else [])
  }

  /** `q in name.lower()`. */
  predicate NameMatches(p: MockProduct, q: string) {
    Contains(Lower(p.name), q)
  }

  /** The rows whose name contains `q`, in order. */
  function NameFilter(ps: seq<MockProduct>, q: string): seq<MockProduct> {
    if ps == [] then []
    else NameFilter(ps[..|ps| - 1], q) + (if NameMatches(ps[|ps| - 1], q) then [ps[|ps| - 1]] else [])
  }

  /** The fallback: every row of the table whose name contains `q`, in table order. */
  function NameProducts(table: seq<MockCategory>, q: string): seq<MockProduct> {
    if table == [] then []
    else NameProducts(table[..|table| - 1], q) + NameFilter(table[|table| - 1].products, q)
  }

  /** The rows the search returns: the keyword hits, or the name hits when there are none. */
  function Matching(table: seq<MockCategory>, q: string): (r: seq<MockProduct>)
    ensures r == [] <==> KeywordProducts(table, q) == [] && NameProducts(table, q) == []
  {
    var byKeyword := KeywordProducts(table, q);
    if byKeyword != [] then byKeyword else NameProducts(table, q)
  }

  /** The product's URL slug: the lower-cased name with blanks turned into dashes. */
  function Slug(name: string): (r: string)
    ensures |r| == |name|
    ensures ' ' !in r
    ensures forall i :: 0 <= i < |r| ==> !IsUpper(r[i])
    ensures forall i :: 0 <= i < |r| ==> r[i] == (if name[i] == ' ' then '-' else LowerChar(name[i]))
  {
    ReplaceChar(Lower(name), ' ', '-')
  }

  function MockUrl(store: string, name: string): (r: string) {
    "https://www." + RemoveChar(store, '_') + ".nl/product/" + Slug(name)
  }

  /** A row as a search result: the remaining fields take their defaults. */
  function ToSearch(p: MockProduct): ProductSearch {
    ProductSearch(p.name, p.brand, p.regular, None, p.bonus, None, "stuk", 1.0,
                  MockUrl(p.store, p.name), None, p.store)
  }

  /** The results placed under `store`: the rows for that store, in order. */
  function Bucket(ps: seq<MockProduct>, store: string): seq<ProductSearch> {
    if ps == [] then []
    else
      var last := ps[|ps| - 1];
      Bucket(ps[..|ps| - 1], store) + (if last.store == store then [ToSearch(last)] else [])
  }

  /** The whole result dictionary. */
  function MockResults(table: seq<MockCategory>, query: string): (r: seq<StoreResults>)
    ensures |r| == |StoreKeys|
    ensures forall i :: 0 <= i < |r| ==> r[i].store == StoreKeys[i]
  {
    var hits := Matching(table, Normalize(query));
    seq(|StoreKeys|, i requires 0 <= i < |StoreKeys| => StoreResults(StoreKeys[i], Bucket(hits, StoreKeys[i])))
  }

  method GetMockResults(table: seq<MockCategory>, query: string) returns (results: seq<StoreResults>)
    requires WellFormed(table)
    ensures results == MockResults(table, query)
  {
    var q := Normalize(query);
    var matching := FindMatches(table, q);
    forall k | 0 <= k < |matching|
      ensures matching[k].store in StoreKeys
    {
      MatchingFromTable(table, q, matching[k]);
    }
    results := GroupByStore(matching);
  }

  /** The keyword scan, then the name scan when the first found nothing. */
  method FindMatches(table: seq<MockCategory>, q: string) returns (matching: seq<MockProduct>)
    ensures matching == Matching(table, q)
  {
    matching := [];
    for i := 0 to |table|
      invariant matching == KeywordProducts(table[..i], q)
    {
      if KeywordMatches(table[i].keyword, q) {
        matching := matching + table[i].products;
      }
      assert table[..i + 1][..i] == table[..i];
    }
    assert table[..|table|] == table;
    if matching == [] {
      for i := 0 to |table|
        invariant matching == NameProducts(table[..i], q)
      {
        matching := AddNameHits(table[i].products, q, matching);
        assert table[..i + 1][..i] == table[..i];
      }
    }
  }

  /** The inner loop of the name scan: the rows of one keyword whose name contains `q` are
      appended, in order. */
  method AddNameHits(products: seq<MockProduct>, q: string, matching0: seq<MockProduct>)
    returns (matching: seq<MockProduct>)
    ensures matching == matching0 + NameFilter(products, q)
  {
    matching := matching0;
    for j := 0 to |products|
      invariant matching == matching0 + NameFilter(products[..j], q)
    {
      if Contains(Lower(products[j].name), q) {
        matching := matching + [products[j]];
      }
      assert products[..j + 1][..j] == products[..j];
    }
    assert products[..|products|] == products;
  }

  /** One more hit lands in its own store's bucket only. */
  lemma BucketStep(ps: seq<MockProduct>, k: nat)
    requires k < |ps|
    ensures forall s :: Bucket(ps[..k + 1], s)
                        == Bucket(ps[..k], s) + (if ps[k].store == s then [ToSearch(ps[k])] else [])
  {
    assert ps[..k + 1][..k] == ps[..k];
  }

  /** Appends each hit to its store's list. */
  method GroupByStore(matching: seq<MockProduct>) returns (results: seq<StoreResults>)
    requires forall k :: 0 <= k < |matching| ==> matching[k].store in StoreKeys
    ensures |results| == |StoreKeys|
    ensures forall i :: 0 <= i < |StoreKeys| ==> results[i] == StoreResults(StoreKeys[i], Bucket(matching, StoreKeys[i]))
  {
    var buckets: map<string, seq<ProductSearch>> :=
      map["albert_heijn" := [], "jumbo" := [], "dirk" := [], "plus" := [], "flink" := [], "picnic" := []];
    for k := 0 to |matching|
      invariant forall s :: s in StoreKeys ==> s in buckets && buckets[s] == Bucket(matching[..k], s)
    {
      var store := matching[k].store;
      BucketStep(matching, k);
      buckets := buckets[store := buckets[store] + [ToSearch(matching[k])]];
    }
    assert matching[..|matching|] == matching;
    results := seq(|StoreKeys|, i requires 0 <= i < |StoreKeys| => StoreResults(StoreKeys[i], buckets[StoreKeys[i]]));
  }

  // ---------------------------------------------------------------- properties

  /** The keyword hits are exactly the rows of the matching keywords. */
  lemma {:induction false} KeywordProductsMembers(table: seq<MockCategory>, q: string, p: MockProduct)
    ensures p in KeywordProducts(table, q) <==>
            exists i :: 0 <= i < |table| && KeywordMatches(table[i].keyword, q) && p in table[i].products
  {
    if table != [] {
      var init := table[..|table| - 1];
      KeywordProductsMembers(init, q, p);
      if p in KeywordProducts(table, q) && p !in KeywordProducts(init, q) {
        assert KeywordMatches(table[|table| - 1].keyword, q) && p in table[|table| - 1].products;
      }
      if exists i :: 0 <= i < |table| && KeywordMatches(table[i].keyword, q) && p in table[i].products {
        var i :| 0 <= i < |table| && KeywordMatches(table[i].keyword, q) && p in table[i].products;
        if i < |table| - 1 {
          assert init[i] == table[i];
        }
      }
    }
  }

  /** A matching keyword's rows appear together, in their own order, after the hits of the
      keywords before it. */
  lemma {:induction false} KeywordProductsInOrder(table: seq<MockCategory>, q: string, i: nat)
    requires i < |table| && KeywordMatches(table[i].keyword, q)
    ensures KeywordProducts(table[..i], q) + table[i].products <= KeywordProducts(table, q)
  {
    var init := table[..|table| - 1];
    if i == |table| - 1 {
      assert init == table[..i];
    } else {
      assert init[..i] == table[..i];
      assert init[i] == table[i];
      KeywordProductsInOrder(init, q, i);
    }
  }

  /** The keyword hits are empty exactly when no matching keyword has a row. */
  lemma {:induction false} KeywordProductsEmpty(table: seq<MockCategory>, q: string)
    ensures KeywordProducts(table, q) == [] <==>
            forall i :: 0 <= i < |table| && KeywordMatches(table[i].keyword, q) ==> table[i].products == []
  {
    if table != [] {
      var init := table[..|table| - 1];
      KeywordProductsEmpty(init, q);
      assert forall i :: 0 <= i < |init| ==> init[i] == table[i];
    }
  }

  lemma {:induction false} NameFilterMembers(ps: seq<MockProduct>, q: string, p: MockProduct)
    ensures p in NameFilter(ps, q) <==> p in ps && NameMatches(p, q)
  {
    if ps != [] {
      NameFilterMembers(ps[..|ps| - 1], q, p);
      assert ps == ps[..|ps| - 1] + [ps[|ps| - 1]];
    }
  }

  /** The fallback hits are exactly the rows whose name contains the query. */
  lemma {:induction false} NameProductsMembers(table: seq<MockCategory>, q: string, p: MockProduct)
    ensures p in NameProducts(table, q) <==>
            NameMatches(p, q) && exists i :: 0 <= i < |table| && p in table[i].products
  {
    if table != [] {
      var n := |table| - 1;
      var init := table[..n];
      NameProductsMembers(init, q, p);
      NameFilterMembers(table[n].products, q, p);
      assert NameProducts(table, q) == NameProducts(init, q) + NameFilter(table[n].products, q);
      assert forall i :: 0 <= i < n ==> init[i] == table[i];
      if exists i :: 0 <= i < |table| && p in table[i].products {
        var i :| 0 <= i < |table| && p in table[i].products;
        assert i == n || p in init[i].products;
      }
    }
  }

  /** The name fallback is used only when the keywords yield nothing: as soon as one matching
      keyword has a row, the search returns exactly the keyword hits. */
  lemma FallbackOnlyWithoutKeywordHits(table: seq<MockCategory>, q: string)
    ensures (exists i :: 0 <= i < |table| && KeywordMatches(table[i].keyword, q) && table[i].products != [])
            ==> Matching(table, q) == KeywordProducts(table, q)
    ensures (forall i :: 0 <= i < |table| ==> !KeywordMatches(table[i].keyword, q))
            ==> Matching(table, q) == NameProducts(table, q)
  {
    KeywordProductsEmpty(table, q);
  }

  /** Every hit is a row of the table, so it names one of the six stores. */
  lemma MatchingFromTable(table: seq<MockCategory>, q: string, p: MockProduct)
    requires p in Matching(table, q)
    ensures exists i :: 0 <= i < |table| && p in table[i].products
  {
    KeywordProductsMembers(table, q, p);
    NameProductsMembers(table, q, p);
  }

  lemma {:induction false} BucketMembers(ps: seq<MockProduct>, store: string, x: ProductSearch)
    ensures x in Bucket(ps, store) <==> exists p :: p in ps && p.store == store && x == ToSearch(p)
  {
    if ps != [] {
      var init := ps[..|ps| - 1];
      BucketMembers(init, store, x);
      assert ps == init + [ps[|ps| - 1]];
    }
  }

  /** Each store's bucket holds exactly that store's hits, carrying the row's name, brand and
      prices unchanged, the store as `supermarket`, and the product URL. */
  lemma MockResultsContents(table: seq<MockCategory>, query: string, i: nat, x: ProductSearch)
    requires i < |StoreKeys|
    ensures x in MockResults(table, query)[i].products <==>
            exists p :: p in Matching(table, Normalize(query)) && p.store == StoreKeys[i] && x == ToSearch(p)
    ensures x in MockResults(table, query)[i].products ==>
            && x.supermarket == StoreKeys[i]
            && x.url == MockUrl(StoreKeys[i], x.name)
            && x.salePrice.None?
  {
    BucketMembers(Matching(table, Normalize(query)), StoreKeys[i], x);
  }

  lemma {:induction false} BucketAppend(a: seq<MockProduct>, b: seq<MockProduct>, store: string)
    ensures Bucket(a + b, store) == Bucket(a, store) + Bucket(b, store)
    decreases |b|
  {
    if b != [] {
      var init := b[..|b| - 1];
      BucketAppend(a, init, store);
      assert (a + b)[..|a + b| - 1] == a + init;
    } else {
      assert a + b == a;
    }
  }

  /** Total size of the lists under `keys`. */
  function BucketSizes(ps: seq<MockProduct>, keys: seq<string>): nat {
    if keys == [] then 0 else |Bucket(ps, keys[0])| + BucketSizes(ps, keys[1..])
  }

  lemma {:induction false} BucketSizesAppend(ps: seq<MockProduct>, p: MockProduct, keys: seq<string>)
    requires forall a, b :: 0 <= a < b < |keys| ==> keys[a] != keys[b]
    ensures BucketSizes(ps + [p], keys) == BucketSizes(ps, keys) + (if p.store in keys then 1 else 0)
  {
    if keys != [] {
      BucketAppend(ps, [p], keys[0]);
      assert Bucket([p], keys[0]) == Bucket([], keys[0]) + (if p.store == keys[0] then [ToSearch(p)] else []);
      BucketSizesAppend(ps, p, keys[1..]);
      assert p.store in keys <==> p.store == keys[0] || p.store in keys[1..];
    }
  }

  lemma {:induction false} BucketSizesEmpty(keys: seq<string>)
    ensures BucketSizes([], keys) == 0
  {
    if keys != [] {
      BucketSizesEmpty(keys[1..]);
    }
  }

  /** No hit is lost or duplicated: the six buckets together hold as many results as there are
      hits. */
  lemma {:induction false} BucketsPartition(ps: seq<MockProduct>)
    requires forall k :: 0 <= k < |ps| ==> ps[k].store in StoreKeys
    ensures BucketSizes(ps, StoreKeys) == |ps|
  {
    if ps == [] {
      BucketSizesEmpty(StoreKeys);
    } else {
      var init, last := ps[..|ps| - 1], ps[|ps| - 1];
      assert ps == init + [last];
      BucketsPartition(init);
      BucketSizesAppend(init, last, StoreKeys);
      assert last.store in StoreKeys;
    }
  }

  /** Sum of the list lengths of a result dictionary. */
  function ResultSize(rs: seq<StoreResults>): nat {
    if rs == [] then 0 else |rs[0].products| + ResultSize(rs[1..])
  }

  lemma {:induction false} ResultSizeIsBucketSizes(rs: seq<StoreResults>, ps: seq<MockProduct>, keys: seq<string>)
    requires |rs| == |keys|
    requires forall i :: 0 <= i < |rs| ==> rs[i].products == Bucket(ps, keys[i])
    ensures ResultSize(rs) == BucketSizes(ps, keys)
  {
    if rs != [] {
      ResultSizeIsBucketSizes(rs[1..], ps, keys[1..]);
    }
  }

  /** Over a well-formed table, the result holds every hit exactly once. */
  lemma MockResultsSize(table: seq<MockCategory>, query: string)
    requires WellFormed(table)
    ensures ResultSize(MockResults(table, query)) == |Matching(table, Normalize(query))|
  {
    var hits := Matching(table, Normalize(query));
    forall k | 0 <= k < |hits|
      ensures hits[k].store in StoreKeys
    {
      MatchingFromTable(table, Normalize(query), hits[k]);
    }
    BucketsPartition(hits);
    ResultSizeIsBucketSizes(MockResults(table, query), hits, StoreKeys);
  }
}
