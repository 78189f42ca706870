/** The product matcher: similarity of product names, the best match for a query within one
    store and across stores, greedy grouping of similar products, exact lookup by name and
    brand, and the per-store price projection. The fuzzy ratio of the similarity score is a
    foreign library routine and stays a parameter. */
module ProductMatcher {
  import opened Wrappers
  import opened Text
  import opened Models
  import opened CostCalculator

  /** The 0..100 score of `fuzz.token_sort_ratio`, left abstract. */
  type Ratio = (string, string) -> int

  /** `token_sort_ratio` scores lie between 0 and 100. */
  ghost predicate RatioInRange(ratio: Ratio) {
    forall a, b :: 0 <= ratio(a, b) <= 100
  }

  /** `calculate_similarity`: the ratio of the lower-cased names, scaled to 0..1. */
  function Similarity(ratio: Ratio, a: string, b: string): (r: real)
    ensures RatioInRange(ratio) ==> 0.0 <= r <= 1.0
  {
    ratio(Lower(a), Lower(b)) as real / 100.0
  }

  /** The score does not depend on upper or lower case in either name. */
  lemma SimilarityIgnoresCase(ratio: Ratio, a: string, b: string)
    ensures Similarity(ratio, Lower(a), b) == Similarity(ratio, a, b)
    ensures Similarity(ratio, a, Lower(b)) == Similarity(ratio, a, b)
  {
    LowerIdempotent(a);
    LowerIdempotent(b);
  }

  function Score(ratio: Ratio, query: string, p: ProductSearch): real {
    Similarity(ratio, query, p.name)
  }

  // ---------------------------------------------------------------- best match

  /** The state of the `find_best_match` scan: the index of the best product so far (none
      while no score has beaten 0.0) and the best score. */
  datatype Best = Best(index: Option<nat>, score: real)

  /** The scan over `products`, front to back; a product replaces the best only with a
      strictly higher score. */
  function Scan(ratio: Ratio, query: string, products: seq<ProductSearch>): (r: Best)
    ensures r.score >= 0.0
    ensures r.index.Some? ==> r.index.value < |products| && r.score > 0.0
  {
    if products == [] then Best(None, 0.0)
    else
      var b := Scan(ratio, query, products[..|products| - 1]);
      var score := Score(ratio, query, products[|products| - 1]);
      if score > b.score then Best(Some(|products| - 1), score) else b
  }

  /** The scan ends on the first product with the top score, provided that score is above
      zero; otherwise on no product, with score 0. */
  lemma {:induction false} ScanFindsFirstTop(ratio: Ratio, query: string, products: seq<ProductSearch>)
    ensures var b := Scan(ratio, query, products);
            && b.score >= 0.0
            && (forall j :: 0 <= j < |products| ==> Score(ratio, query, products[j]) <= b.score)
            && (b.index.None? ==> b.score == 0.0)
            && (b.index.Some? ==>
                  && b.index.value < |products|
                  && Score(ratio, query, products[b.index.value]) == b.score > 0.0
                  && forall j :: 0 <= j < b.index.value ==> Score(ratio, query, products[j]) < b.score)
  {
    if products != [] {
      var init := products[..|products| - 1];
      ScanFindsFirstTop(ratio, query, init);
      assert forall j :: 0 <= j < |init| ==> products[j] == init[j];
    }
  }

  /** What `find_best_match` returns: the scan's product when the best score reaches the
      threshold, else nothing. */
  function BestMatch(ratio: Ratio, threshold: real, query: string, products: seq<ProductSearch>): (r: Option<ProductSearch>)
    ensures r.Some? ==> r.value in products
  {
    if products == [] then None
    else
      var b := Scan(ratio, query, products);
      if b.score >= threshold && b.index.Some? && b.index.value < |products| then Some(products[b.index.value]) else None
  }

  /** A product is the best match exactly when it is the first one with the top score and
      that score is above zero and reaches the threshold. */
  predicate FirstTop(ratio: Ratio, threshold: real, query: string, products: seq<ProductSearch>, i: int) {
    && 0 <= i < |products|
    && Score(ratio, query, products[i]) > 0.0
    && Score(ratio, query, products[i]) >= threshold
    && (forall j :: 0 <= j < |products| ==> Score(ratio, query, products[j]) <= Score(ratio, query, products[i]))
    && (forall j :: 0 <= j < i ==> Score(ratio, query, products[j]) < Score(ratio, query, products[i]))
  }

  lemma BestMatchIsFirstTop(ratio: Ratio, threshold: real, query: string, products: seq<ProductSearch>)
    ensures var r := BestMatch(ratio, threshold, query, products);
            && (products == [] ==> r.None?)
            && (r.Some? <==> exists i :: FirstTop(ratio, threshold, query, products, i))
            && (forall i :: FirstTop(ratio, threshold, query, products, i) ==> r == Some(products[i]))
  {
    ScanFindsFirstTop(ratio, query, products);
    var b := Scan(ratio, query, products);
    forall i | FirstTop(ratio, threshold, query, products, i)
      ensures BestMatch(ratio, threshold, query, products) == Some(products[i])
    {
      assert b.index.Some?;
      var k := b.index.value;
      assert !(k < i) && !(i < k);
    }
    if BestMatch(ratio, threshold, query, products).Some? {
      assert FirstTop(ratio, threshold, query, products, b.index.value);
    }
  }

  method FindBestMatch(ratio: Ratio, threshold: real, query: string, products: seq<ProductSearch>)
    returns (found: Option<ProductSearch>)
    ensures found == BestMatch(ratio, threshold, query, products)
  {
    if products == [] {
      return None;
    }
    var bestMatch: Option<ProductSearch> := None;
    var bestScore := 0.0;
    for i := 0 to |products|
      invariant var b := Scan(ratio, query, products[..i]);
                && bestScore == b.score
                && bestMatch == (if b.index.Some? && b.index.value < i then Some(products[b.index.value]) else None)
                && (b.index.None? || b.index.value < i)
    {
      assert products[..i + 1][..i] == products[..i];
      var score := Score(ratio, query, products[i]);
      if score > bestScore {
        bestScore := score;
        bestMatch := Some(products[i]);
      }
    }
    assert products[..|products|] == products;
    if bestScore >= threshold {
      found := bestMatch;
    } else {
      found := None;
    }
  }

  // ---------------------------------------------------------------- across stores

  method MatchProductsAcrossStores(ratio: Ratio, threshold: real, query: string, results: seq<StoreResults>)
    returns (matches: seq<StoreMatch>)
    ensures |matches| == |results|
    ensures forall i :: 0 <= i < |results| ==>
              matches[i] == StoreMatch(results[i].store, BestMatch(ratio, threshold, query, results[i].products))
  {
    matches := [];
    for i := 0 to |results|
      invariant |matches| == i
      invariant forall k :: 0 <= k < i ==>
                  matches[k] == StoreMatch(results[k].store, BestMatch(ratio, threshold, query, results[k].products))
    {
      var found := FindBestMatch(ratio, threshold, query, results[i].products);
      matches := matches + [StoreMatch(results[i].store, found)];
    }
  }

  // ---------------------------------------------------------------- grouping

  /** Product `k` is similar enough to anchor `a` to join its group. */
  predicate Close(ratio: Ratio, threshold: real, products: seq<ProductSearch>, a: int, k: int) {
    && 0 <= a < |products| && 0 <= k < |products|
    && Similarity(ratio, products[a].name, products[k].name) >= threshold
  }

  predicate Increasing(s: seq<nat>) {
    forall x, y :: 0 <= x < y < |s| ==> s[x] < s[y]
  }

  predicate NoDup(s: seq<nat>) {
    forall x, y :: 0 <= x < y < |s| ==> s[x] != s[y]
  }

  /** The inner loop up to `m`: the unused indices below `m` similar to anchor `a`, in
      index order. */
  function Joiners(ratio: Ratio, threshold: real, products: seq<ProductSearch>, a: nat, used: set<nat>, m: nat): (r: seq<nat>)
    ensures forall k :: k in r ==> k < m
  {
    if m == 0 then []
    else
      var r := Joiners(ratio, threshold, products, a, used, m - 1);
      r + (if m - 1 !in used && Close(ratio, threshold, products, a, m - 1) then [m - 1] else [])
  }

  lemma {:induction false} JoinersIncreasing(ratio: Ratio, threshold: real, products: seq<ProductSearch>, a: nat, used: set<nat>, m: nat)
    ensures Increasing(Joiners(ratio, threshold, products, a, used, m))
  {
    if m > 0 {
      var r := Joiners(ratio, threshold, products, a, used, m - 1);
      JoinersIncreasing(ratio, threshold, products, a, used, m - 1);
      assert forall x :: 0 <= x < |r| ==> r[x] in r;
    }
  }

  /** The joiners are exactly the unused indices below `m` similar to the anchor. */
  lemma {:induction false} JoinersExactly(ratio: Ratio, threshold: real, products: seq<ProductSearch>, a: nat, used: set<nat>, m: nat)
    ensures forall k :: k in Joiners(ratio, threshold, products, a, used, m) <==>
              0 <= k < m && k !in used && Close(ratio, threshold, products, a, k)
  {
    if m > 0 {
      JoinersExactly(ratio, threshold, products, a, used, m - 1);
    }
  }

  /** The indices in `s`. */
  function Elems(s: seq<nat>): (r: set<nat>)
    ensures forall k :: k in r <==> k in s
  {
    if s == [] then {} else Elems(s[..|s| - 1]) + {s[|s| - 1]}
  }

  /** The groups (as index lists) and the used indices. */
  datatype Grouped = Grouped(groups: seq<seq<nat>>, used: set<nat>)

  /** The outer loop after visiting the indices below `m`: an index not used yet starts a
      group and pulls in every unused index similar to it. */
  function Grouping(ratio: Ratio, threshold: real, products: seq<ProductSearch>, m: nat): (r: Grouped)
    requires m <= |products|
    ensures forall k :: k in r.used ==> k < |products|
    ensures forall g, k :: g in r.groups && k in g ==> k < |products|
  {
    if m == 0 then Grouped([], {})
    else
      var g := Grouping(ratio, threshold, products, m - 1);
      var i := m - 1;
      if i in g.used then g
      else
        var used := g.used + {i};
        var js := Joiners(ratio, threshold, products, i, used, |products|);
        Grouped(g.groups + [[i] + js], used + Elems(js))
  }

  /** The products at the given indices. */
  function Pick(products: seq<ProductSearch>, idx: seq<nat>): (r: seq<ProductSearch>)
    requires forall k :: k in idx ==> k < |products|
    ensures |r| == |idx|
    ensures forall t :: 0 <= t < |idx| ==> idx[t] in idx && r[t] == products[idx[t]]
  {
    assert forall t :: 0 <= t < |idx| ==> idx[t] in idx;
    seq(|idx|, t requires 0 <= t < |idx| => products[idx[t]])
  }

  function PickAll(products: seq<ProductSearch>, gs: seq<seq<nat>>): (r: seq<seq<ProductSearch>>)
    requires forall g, k :: g in gs && k in g ==> k < |products|
    ensures |r| == |gs|
    ensures forall t :: 0 <= t < |gs| ==> r[t] == Pick(products, gs[t])
  {
    seq(|gs|, t requires 0 <= t < |gs| => assert gs[t] in gs; Pick(products, gs[t]))
  }

  lemma PickAppend(products: seq<ProductSearch>, idx: seq<nat>, k: nat)
    requires forall x :: x in idx ==> x < |products|
    requires k < |products|
    ensures forall x :: x in idx + [k] ==> x < |products|
    ensures Pick(products, idx + [k]) == Pick(products, idx) + [products[k]]
  {
  }

  lemma PickCons(products: seq<ProductSearch>, k: nat, idx: seq<nat>)
    requires forall x :: x in idx ==> x < |products|
    requires k < |products|
    ensures forall x :: x in [k] + idx ==> x < |products|
    ensures Pick(products, [k] + idx) == [products[k]] + Pick(products, idx)
  {
  }

  lemma PickAllAppend(products: seq<ProductSearch>, gs: seq<seq<nat>>, g: seq<nat>)
    requires forall h, k :: h in gs && k in h ==> k < |products|
    requires forall k :: k in g ==> k < |products|
    ensures forall h, k :: h in gs + [g] && k in h ==> k < |products|
    ensures PickAll(products, gs + [g]) == PickAll(products, gs) + [Pick(products, g)]
  {
    assert forall h :: h in gs + [g] ==> h in gs || h == g;
  }

  /** One more step of the inner loop. */
  lemma JoinersNext(ratio: Ratio, threshold: real, products: seq<ProductSearch>, a: nat, used: set<nat>, j: nat)
    requires a < |products| && j < |products|
    ensures j !in Joiners(ratio, threshold, products, a, used, j)
    ensures Joiners(ratio, threshold, products, a, used, j + 1)
            == Joiners(ratio, threshold, products, a, used, j)
               + (if j !in used && Similarity(ratio, products[a].name, products[j].name) >= threshold then [j] else [])
  {
  }

  /** The inner loop of `group_similar_products`: extends anchor `i`'s group with every
      index not yet used whose product is similar to the anchor, marking each as used. */
  method GrowGroup(ratio: Ratio, threshold: real, products: seq<ProductSearch>, i: nat, before: set<nat>)
    returns (group: seq<ProductSearch>, used: set<nat>)
    requires i < |products| && i in before
    ensures used == before + Elems(Joiners(ratio, threshold, products, i, before, |products|))
    ensures group == [products[i]] + Pick(products, Joiners(ratio, threshold, products, i, before, |products|))
  {
    var product := products[i];
    group := [product];
    used := before;
    ghost var js: seq<nat> := [];
    for j := 0 to |products|
      invariant js == Joiners(ratio, threshold, products, i, before, j)
      invariant forall k :: k in used <==> k in before || k in js
      invariant group == [product] + Pick(products, js)
    {
      JoinersNext(ratio, threshold, products, i, before, j);
      if j !in used && Similarity(ratio, product.name, products[j].name) >= threshold {
        PickAppend(products, js, j);
        group := group + [products[j]];
        used := used + {j};
        js := js + [j];
      }
    }
    assert used == before + Elems(js);
  }

  /** One step of the outer loop: a used index leaves the grouping alone; an unused one
      starts a group of its product followed by those of the unused indices similar to it. */
  lemma GroupingNext(ratio: Ratio, threshold: real, products: seq<ProductSearch>, i: nat,
                     groups: seq<seq<ProductSearch>>, used: set<nat>, group: seq<ProductSearch>)
    requires i < |products|
    requires used == Grouping(ratio, threshold, products, i).used + {i}
    requires groups == PickAll(products, Grouping(ratio, threshold, products, i).groups)
    requires group == [products[i]] + Pick(products, Joiners(ratio, threshold, products, i, used, |products|))
    ensures i in Grouping(ratio, threshold, products, i).used ==>
              Grouping(ratio, threshold, products, i + 1) == Grouping(ratio, threshold, products, i)
    ensures i !in Grouping(ratio, threshold, products, i).used ==>
              used + Elems(Joiners(ratio, threshold, products, i, used, |products|))
                == Grouping(ratio, threshold, products, i + 1).used
    ensures i !in Grouping(ratio, threshold, products, i).used ==>
              groups + [group] == PickAll(products, Grouping(ratio, threshold, products, i + 1).groups)
  {
    var g := Grouping(ratio, threshold, products, i);
    var js := Joiners(ratio, threshold, products, i, used, |products|);
    if i !in g.used {
      assert Grouping(ratio, threshold, products, i + 1) == Grouped(g.groups + [[i] + js], used + Elems(js));
      PickCons(products, i, js);
      PickAllAppend(products, g.groups, [i] + js);
    }
  }

  /** One pass of the outer loop of `group_similar_products`: index `i`, when not used yet,
      starts a new group. */
  method VisitIndex(ratio: Ratio, threshold: real, products: seq<ProductSearch>, i: nat,
                    groups: seq<seq<ProductSearch>>, used: set<nat>)
    returns (groups': seq<seq<ProductSearch>>, used': set<nat>)
    requires i < |products|
    requires used == Grouping(ratio, threshold, products, i).used
    requires groups == PickAll(products, Grouping(ratio, threshold, products, i).groups)
    ensures used' == Grouping(ratio, threshold, products, i + 1).used
    ensures groups' == PickAll(products, Grouping(ratio, threshold, products, i + 1).groups)
  {
    if i in used {
      GroupingNext(ratio, threshold, products, i, groups, used + {i},
                   [products[i]] + Pick(products, Joiners(ratio, threshold, products, i, used + {i}, |products|)));
      return groups, used;
    }
    var group;
    group, used' := GrowGroup(ratio, threshold, products, i, used + {i});
    GroupingNext(ratio, threshold, products, i, groups, used + {i}, group);
    groups' := groups + [group];
  }

  method GroupSimilarProducts(ratio: Ratio, threshold: real, products: seq<ProductSearch>)
    returns (groups: seq<seq<ProductSearch>>)
    ensures groups == PickAll(products, Grouping(ratio, threshold, products, |products|).groups)
  {
    if products == [] {
      return [];
    }
    groups := [];
    var used: set<nat> := {};
    for i := 0 to |products|
      invariant used == Grouping(ratio, threshold, products, i).used
      invariant groups == PickAll(products, Grouping(ratio, threshold, products, i).groups)
    {
      groups, used := VisitIndex(ratio, threshold, products, i, groups, used);
    }
  }

  /** The groups' indices, group after group. */
  function Flatten(gs: seq<seq<nat>>): seq<nat> {
    if gs == [] then [] else Flatten(gs[..|gs| - 1]) + gs[|gs| - 1]
  }

  lemma FlattenAppend(gs: seq<seq<nat>>, h: seq<nat>)
    ensures Flatten(gs + [h]) == Flatten(gs) + h
  {
    assert (gs + [h])[..|gs|] == gs;
  }

  lemma NoDupAppend(a: seq<nat>, b: seq<nat>)
    requires NoDup(a) && NoDup(b)
    requires forall x :: x in a ==> x !in b
    ensures NoDup(a + b)
  {
    forall x, y | 0 <= x < y < |a + b|
      ensures (a + b)[x] != (a + b)[y]
    {
      if x < |a| && |a| <= y {
        assert (a + b)[x] in a && (a + b)[y] == b[y - |a|];
      }
    }
  }

  /** Facts about one step of the outer loop that starts a group at `i`. */
  lemma NewGroup(ratio: Ratio, threshold: real, products: seq<ProductSearch>, i: nat, used: set<nat>)
    requires i < |products| && i !in used
    ensures var js := Joiners(ratio, threshold, products, i, used + {i}, |products|);
            && Increasing(js)
            && (forall k :: k in js <==> 0 <= k < |products| && k !in used && k != i && Close(ratio, threshold, products, i, k))
            && NoDup([i] + js)
  {
    var js := Joiners(ratio, threshold, products, i, used + {i}, |products|);
    JoinersIncreasing(ratio, threshold, products, i, used + {i}, |products|);
    JoinersExactly(ratio, threshold, products, i, used + {i}, |products|);
    forall x, y | 0 <= x < y < |[i] + js|
      ensures ([i] + js)[x] != ([i] + js)[y]
    {
      if x == 0 {
        assert ([i] + js)[y] in js;
      }
    }
  }

  /** One group added: the used indices stay those of the groups, and the anchor joins
      the used indices. */
  lemma UsedStep(groups: seq<seq<nat>>, used: set<nat>, i: nat, js: seq<nat>)
    requires forall k :: k in used <==> k in Flatten(groups)
    requires forall k :: 0 <= k < i ==> k in used
    ensures var groups', used' := groups + [[i] + js], used + {i} + Elems(js);
            && (forall k :: k in used' <==> k in Flatten(groups'))
            && (forall k :: 0 <= k <= i ==> k in used')
  {
    FlattenAppend(groups, [i] + js);
  }

  /** One group of fresh indices added: every index still appears once. */
  lemma NoDupStep(groups: seq<seq<nat>>, used: set<nat>, i: nat, js: seq<nat>)
    requires forall k :: k in used <==> k in Flatten(groups)
    requires NoDup(Flatten(groups)) && NoDup([i] + js)
    requires i !in used && forall k :: k in js ==> k !in used
    ensures NoDup(Flatten(groups + [[i] + js]))
  {
    FlattenAppend(groups, [i] + js);
    NoDupAppend(Flatten(groups), [i] + js);
  }

  /** After the outer loop has visited the indices below `m`, the used indices are exactly
      those in the groups, and every index below `m` is used. */
  lemma {:induction false} GroupingUsed(ratio: Ratio, threshold: real, products: seq<ProductSearch>, m: nat)
    requires m <= |products|
    ensures forall k :: k in Grouping(ratio, threshold, products, m).used <==> k in Flatten(Grouping(ratio, threshold, products, m).groups)
    ensures forall k :: 0 <= k < m ==> k in Grouping(ratio, threshold, products, m).used
  {
    if m > 0 {
      var i := m - 1;
      var g := Grouping(ratio, threshold, products, i);
      GroupingUsed(ratio, threshold, products, i);
      if i !in g.used {
        var js := Joiners(ratio, threshold, products, i, g.used + {i}, |products|);
        assert Grouping(ratio, threshold, products, m) == Grouped(g.groups + [[i] + js], g.used + {i} + Elems(js));
        UsedStep(g.groups, g.used, i, js);
      } else {
        assert Grouping(ratio, threshold, products, m) == g;
      }
    }
  }

  /** No index is in two places among the groups. */
  lemma {:induction false} GroupingNoDup(ratio: Ratio, threshold: real, products: seq<ProductSearch>, m: nat)
    requires m <= |products|
    ensures NoDup(Flatten(Grouping(ratio, threshold, products, m).groups))
  {
    if m > 0 {
      var i := m - 1;
      var g := Grouping(ratio, threshold, products, i);
      GroupingNoDup(ratio, threshold, products, i);
      if i !in g.used {
        GroupingUsed(ratio, threshold, products, i);
        var js := Joiners(ratio, threshold, products, i, g.used + {i}, |products|);
        assert Grouping(ratio, threshold, products, m).groups == g.groups + [[i] + js];
        NewGroup(ratio, threshold, products, i, g.used);
        NoDupStep(g.groups, g.used, i, js);
      } else {
        assert Grouping(ratio, threshold, products, m) == g;
      }
    }
  }

  /** Every group is its anchor followed by members in increasing index order; the anchor
      is the lowest index not in an earlier group, and every other member is similar to
      the anchor (members are never compared with each other). */
  ghost predicate WellShaped(ratio: Ratio, threshold: real, products: seq<ProductSearch>, gs: seq<seq<nat>>) {
    forall gi :: 0 <= gi < |gs| ==>
      && gs[gi] != []
      && Increasing(gs[gi])
      && (forall k :: 0 <= k < gs[gi][0] ==> k in Flatten(gs[..gi]))
      && (forall t :: 0 < t < |gs[gi]| ==> Close(ratio, threshold, products, gs[gi][0], gs[gi][t]))
  }

  lemma WellShapedAppend(ratio: Ratio, threshold: real, products: seq<ProductSearch>, gs: seq<seq<nat>>, h: seq<nat>)
    requires WellShaped(ratio, threshold, products, gs)
    requires h != [] && Increasing(h)
    requires forall k :: 0 <= k < h[0] ==> k in Flatten(gs)
    requires forall t :: 0 < t < |h| ==> Close(ratio, threshold, products, h[0], h[t])
    ensures WellShaped(ratio, threshold, products, gs + [h])
  {
    var gs' := gs + [h];
    assert gs'[..|gs|] == gs;
    forall gi | 0 <= gi < |gs|
      ensures gs'[..gi] == gs[..gi]
    {
    }
  }

  /** A new group is its anchor followed by higher indices similar to it. */
  lemma NewGroupShape(ratio: Ratio, threshold: real, products: seq<ProductSearch>, i: nat, used: set<nat>)
    requires i < |products| && i !in used
    requires forall k :: 0 <= k < i ==> k in used
    ensures Increasing([i] + Joiners(ratio, threshold, products, i, used + {i}, |products|))
    ensures forall t :: 0 < t < |[i] + Joiners(ratio, threshold, products, i, used + {i}, |products|)| ==>
              Close(ratio, threshold, products, i, ([i] + Joiners(ratio, threshold, products, i, used + {i}, |products|))[t])
  {
    var js := Joiners(ratio, threshold, products, i, used + {i}, |products|);
    NewGroup(ratio, threshold, products, i, used);
    var h := [i] + js;
    forall x, y | 0 <= x < y < |h|
      ensures h[x] < h[y]
    {
      assert h[y] == js[y - 1];
      assert h[y] in js;
      if x > 0 {
        assert h[x] == js[x - 1];
      }
    }
    forall t | 0 < t < |h|
      ensures Close(ratio, threshold, products, h[0], h[t])
    {
      assert h[t] in js;
    }
  }

  lemma {:induction false} GroupingWellShaped(ratio: Ratio, threshold: real, products: seq<ProductSearch>, m: nat)
    requires m <= |products|
    ensures WellShaped(ratio, threshold, products, Grouping(ratio, threshold, products, m).groups)
  {
    if m > 0 {
      var i := m - 1;
      var g := Grouping(ratio, threshold, products, i);
      GroupingWellShaped(ratio, threshold, products, i);
      if i !in g.used {
        GroupingUsed(ratio, threshold, products, i);
        var js := Joiners(ratio, threshold, products, i, g.used + {i}, |products|);
        assert Grouping(ratio, threshold, products, m).groups == g.groups + [[i] + js];
        NewGroupShape(ratio, threshold, products, i, g.used);
        WellShapedAppend(ratio, threshold, products, g.groups, [i] + js);
      } else {
        assert Grouping(ratio, threshold, products, m) == g;
      }
    }
  }

  /** Greedy and anchor-only: an index left out of a group is not similar to that group's
      anchor, so an index in a later group (or not yet grouped) is never similar to an
      earlier anchor. */
  ghost predicate Greedy(ratio: Ratio, threshold: real, products: seq<ProductSearch>, r: Grouped) {
    && (forall gi, k :: 0 <= gi < |r.groups| && r.groups[gi] != [] && 0 <= k < |products| && k !in r.used ==>
          !Close(ratio, threshold, products, r.groups[gi][0], k))
    && (forall gi, gj, k :: 0 <= gi < gj < |r.groups| && r.groups[gi] != [] && k in r.groups[gj] ==>
          !Close(ratio, threshold, products, r.groups[gi][0], k))
  }

  /** One group added: its members are all the unused indices close to its anchor, so the
      grouping stays greedy. */
  lemma GreedyStep(ratio: Ratio, threshold: real, products: seq<ProductSearch>, g: Grouped, i: nat, js: seq<nat>)
    requires Greedy(ratio, threshold, products, g)
    requires i < |products| && i !in g.used
    requires forall k :: k in js <==> 0 <= k < |products| && k !in g.used && k != i && Close(ratio, threshold, products, i, k)
    ensures Greedy(ratio, threshold, products, Grouped(g.groups + [[i] + js], g.used + {i} + Elems(js)))
  {
    var r := Grouped(g.groups + [[i] + js], g.used + {i} + Elems(js));
    forall gi, k | 0 <= gi < |r.groups| && r.groups[gi] != [] && 0 <= k < |products| && k !in r.used
      ensures !Close(ratio, threshold, products, r.groups[gi][0], k)
    {
      if gi < |g.groups| {
        assert r.groups[gi] == g.groups[gi];
      }
    }
    forall gi, gj, k | 0 <= gi < gj < |r.groups| && r.groups[gi] != [] && k in r.groups[gj]
      ensures !Close(ratio, threshold, products, r.groups[gi][0], k)
    {
      assert r.groups[gi] == g.groups[gi];
      if gj == |g.groups| {
        assert k == i || k in js;
      } else {
        assert r.groups[gj] == g.groups[gj];
      }
    }
  }

  lemma {:induction false} GroupingGreedy(ratio: Ratio, threshold: real, products: seq<ProductSearch>, m: nat)
    requires m <= |products|
    ensures Greedy(ratio, threshold, products, Grouping(ratio, threshold, products, m))
  {
    if m > 0 {
      var i := m - 1;
      var g := Grouping(ratio, threshold, products, i);
      GroupingGreedy(ratio, threshold, products, i);
      if i !in g.used {
        var js := Joiners(ratio, threshold, products, i, g.used + {i}, |products|);
        assert Grouping(ratio, threshold, products, m) == Grouped(g.groups + [[i] + js], g.used + {i} + Elems(js));
        NewGroup(ratio, threshold, products, i, g.used);
        GreedyStep(ratio, threshold, products, g, i, js);
      }
    }
  }

  /** `group_similar_products` partitions the input: every index appears in exactly one
      group, the groups are well shaped and greedy, and an empty input gives no groups. */
  lemma GroupsPartition(ratio: Ratio, threshold: real, products: seq<ProductSearch>)
    ensures var r := Grouping(ratio, threshold, products, |products|);
            && (products == [] ==> r.groups == [])
            && (forall k :: k in Flatten(r.groups) <==> 0 <= k < |products|)
            && NoDup(Flatten(r.groups))
            && WellShaped(ratio, threshold, products, r.groups)
            && Greedy(ratio, threshold, products, r)
  {
    GroupingUsed(ratio, threshold, products, |products|);
    GroupingNoDup(ratio, threshold, products, |products|);
    GroupingWellShaped(ratio, threshold, products, |products|);
    GroupingGreedy(ratio, threshold, products, |products|);
  }

  lemma PickConcat(products: seq<ProductSearch>, a: seq<nat>, b: seq<nat>)
    requires forall k :: k in a ==> k < |products|
    requires forall k :: k in b ==> k < |products|
    ensures Pick(products, a + b) == Pick(products, a) + Pick(products, b)
  {
  }

  /** The product groups one after another. */
  function Concat(groups: seq<seq<ProductSearch>>): seq<ProductSearch> {
    if groups == [] then [] else Concat(groups[..|groups| - 1]) + groups[|groups| - 1]
  }

  /** Concatenating the picked groups ends with the last group's products. */
  lemma ConcatPickAllLast(products: seq<ProductSearch>, init: seq<seq<nat>>, last: seq<nat>)
    requires forall g, k :: g in init && k in g ==> k < |products|
    requires forall k :: k in last ==> k < |products|
    ensures forall g, k :: g in init + [last] && k in g ==> k < |products|
    ensures Concat(PickAll(products, init + [last])) == Concat(PickAll(products, init)) + Pick(products, last)
  {
    PickAllAppend(products, init, last);
    var p := PickAll(products, init + [last]);
    assert p[..|p| - 1] == PickAll(products, init);
  }

  /** Picking the flattened indices ends with the last group's products. */
  lemma PickFlattenLast(products: seq<ProductSearch>, init: seq<seq<nat>>, last: seq<nat>)
    requires forall k :: k in Flatten(init + [last]) ==> k < |products|
    ensures forall k :: k in Flatten(init) ==> k < |products|
    ensures forall k :: k in last ==> k < |products|
    ensures Pick(products, Flatten(init + [last])) == Pick(products, Flatten(init)) + Pick(products, last)
  {
    assert (init + [last])[..|init|] == init;
    assert Flatten(init + [last]) == Flatten(init) + last;
    assert forall k :: k in Flatten(init) || k in last ==> k in Flatten(init + [last]);
    PickConcat(products, Flatten(init), last);
  }

  /** The product groups, concatenated, are the products at the flattened indices. */
  lemma {:induction false} FlattenPickAll(products: seq<ProductSearch>, gs: seq<seq<nat>>)
    requires forall g, k :: g in gs && k in g ==> k < |products|
    requires forall k :: k in Flatten(gs) ==> k < |products|
    ensures Concat(PickAll(products, gs)) == Pick(products, Flatten(gs))
  {
    if gs != [] {
      var init, last := gs[..|gs| - 1], gs[|gs| - 1];
      assert gs == init + [last];
      assert forall g :: g in init ==> g in gs;
      ConcatPickAllLast(products, init, last);
      PickFlattenLast(products, init, last);
      FlattenPickAll(products, init);
    }
  }

  /** Removing one element takes one occurrence out of the multiset. */
  lemma MultisetRemove(b: seq<nat>, j: nat)
    requires j < |b|
    ensures multiset(b[..j] + b[j + 1..]) == multiset(b) - multiset{b[j]}
  {
    assert b == b[..j] + [b[j]] + b[j + 1..];
  }

  /** Taking one index out of the middle takes its product out of the picked ones. */
  lemma PickRemove(products: seq<ProductSearch>, b: seq<nat>, j: nat, c: seq<nat>)
    requires forall k :: k in b ==> k < |products|
    requires j < |b| && c == b[..j] + b[j + 1..]
    ensures forall k :: k in c ==> k < |products|
    ensures multiset(Pick(products, b)) == multiset(Pick(products, c)) + multiset{Pick(products, b)[j]}
  {
    assert forall k :: k in c ==> k in b;
    var p := Pick(products, b);
    assert p == p[..j] + [p[j]] + p[j + 1..];
    assert p[..j] + p[j + 1..] == Pick(products, c);
  }

  /** Taking the first index of `a` and an equal one of `b` (leaving `c`) out of both. */
  lemma PickPermutesStep(products: seq<ProductSearch>, a: seq<nat>, b: seq<nat>, j: nat, c: seq<nat>)
    requires forall k :: k in a ==> k < |products|
    requires multiset(a) == multiset(b) && a != [] && j < |b| && b[j] == a[0] && c == b[..j] + b[j + 1..]
    ensures forall k :: k in b ==> k < |products|
    ensures forall k :: k in a[1..] ==> k < |products|
    ensures forall k :: k in c ==> k < |products|
    ensures a[0] < |products|
    ensures multiset(a[1..]) == multiset(c)
    ensures multiset(Pick(products, a)) == multiset(Pick(products, a[1..])) + multiset{products[a[0]]}
    ensures multiset(Pick(products, b)) == multiset(Pick(products, c)) + multiset{products[a[0]]}
  {
    assert a[0] in a;
    assert forall k :: k in b ==> k in multiset(b);
    MultisetRemove(b, j);
    MultisetRemove(a, 0);
    assert a[..0] + a[1..] == a[1..];
    PickRemove(products, a, 0, a[1..]);
    PickRemove(products, b, j, c);
  }

  /** Reordering the indices reorders the picked products. */
  lemma {:induction false} PickPermutes(products: seq<ProductSearch>, a: seq<nat>, b: seq<nat>)
    requires forall k :: k in a ==> k < |products|
    requires multiset(a) == multiset(b)
    ensures forall k :: k in b ==> k < |products|
    ensures multiset(Pick(products, a)) == multiset(Pick(products, b))
  {
    assert forall k :: k in b ==> k in multiset(b);
    if a != [] {
      assert a[0] in multiset(b);
      var j :| 0 <= j < |b| && b[j] == a[0];
      PickPermutesStep(products, a, b, j, b[..j] + b[j + 1..]);
      PickPermutes(products, a[1..], b[..j] + b[j + 1..]);
    }
  }

  /** In a sequence without repeats every element occurs once. */
  lemma {:induction false} NoDupOnce(s: seq<nat>)
    requires NoDup(s)
    ensures forall k :: multiset(s)[k] == if k in s then 1 else 0
  {
    if s != [] {
      var n := |s| - 1;
      assert NoDup(s[..n]);
      NoDupOnce(s[..n]);
      assert s == s[..n] + [s[n]];
      assert s[n] !in s[..n];
    }
  }

  function Range(n: nat): (r: seq<nat>)
    ensures |r| == n && forall k :: 0 <= k < n ==> r[k] == k
  {
    seq(n, k requires 0 <= k < n => k)
  }

  /** A sequence holding each index below `n` exactly once is a reordering of 0..n-1. */
  lemma IndicesPermute(f: seq<nat>, n: nat)
    requires NoDup(f)
    requires forall k :: k in f <==> 0 <= k < n
    ensures multiset(f) == multiset(Range(n))
  {
    var range := Range(n);
    assert NoDup(range);
    NoDupOnce(f);
    NoDupOnce(range);
    forall k | 0 <= k < n
      ensures k in range
    {
      assert range[k] == k;
    }
    forall k
      ensures multiset(f)[k] == multiset(range)[k]
    {
      if k in range {
        var i :| 0 <= i < |range| && range[i] == k;
      }
    }
  }

  /** Concatenated, the groups hold exactly the input products, each as often as in the
      input. */
  lemma GroupsArePermutation(ratio: Ratio, threshold: real, products: seq<ProductSearch>)
    ensures var gs := Grouping(ratio, threshold, products, |products|).groups;
            multiset(Concat(PickAll(products, gs))) == multiset(products)
  {
    var gs := Grouping(ratio, threshold, products, |products|).groups;
    GroupsPartition(ratio, threshold, products);
    var f := Flatten(gs);
    IndicesPermute(f, |products|);
    FlattenPickAll(products, gs);
    PickPermutes(products, f, Range(|products|));
    assert Pick(products, Range(|products|)) == products;
  }

  // ---------------------------------------------------------------- exact match

  /** `not s` on an optional string: absent or empty. */
  predicate Blank(s: Option<string>) {
    s.None? || s.value == ""
  }

  /** The name matches ignoring case, and the brand passes: either brand blank, or both
      equal ignoring case. */
  predicate ExactlyMatches(name: string, brand: Option<string>, p: ProductSearch) {
    && Lower(p.name) == Lower(name)
    && (Blank(brand) || Blank(p.brand) || Lower(p.brand.value) == Lower(brand.value))
  }

  method FindExactMatch(name: string, brand: Option<string>, products: seq<ProductSearch>)
    returns (found: Option<ProductSearch>)
    ensures found.None? <==> forall i :: 0 <= i < |products| ==> !ExactlyMatches(name, brand, products[i])
    ensures found.Some? ==>
              exists i :: 0 <= i < |products| && products[i] == found.value && ExactlyMatches(name, brand, products[i])
                          && forall j :: 0 <= j < i ==> !ExactlyMatches(name, brand, products[j])
  {
    for i := 0 to |products|
      invariant forall j :: 0 <= j < i ==> !ExactlyMatches(name, brand, products[j])
    {
      var product := products[i];
      var nameMatch := Lower(product.name) == Lower(name);
      var brandMatch := Blank(brand) || Blank(product.brand) || Lower(product.brand.value) == Lower(brand.value);
      if nameMatch && brandMatch {
        return Some(product);
      }
    }
    return None;
  }

  /** A product without a brand, or a query without one, never fails on the brand. */
  lemma MissingBrandPasses(name: string, brand: Option<string>, p: ProductSearch)
    requires Blank(brand) || Blank(p.brand)
    ensures ExactlyMatches(name, brand, p) <==> Lower(p.name) == Lower(name)
  {
  }

  // ---------------------------------------------------------------- price comparison

  /** The per-store summary of `get_price_comparison`. */
  datatype PriceView = PriceView(
    name: string,
    regularPrice: Cents,
    salePrice: Option<Cents>,
    bonusCardPrice: Option<Cents>,
    bestPrice: Cents,
    url: string)

  datatype StoreView = StoreView(store: string, view: Option<PriceView>)

  /** `bonus_card_price or sale_price or regular_price`: the first price present and
      non-zero, in that order of priority. */
  function PriorityPrice(p: ProductSearch): (r: Cents)
    ensures Truthy(p.bonusCardPrice) ==> r == p.bonusCardPrice.value
    ensures !Truthy(p.bonusCardPrice) && Truthy(p.salePrice) ==> r == p.salePrice.value
    ensures !Truthy(p.bonusCardPrice) && !Truthy(p.salePrice) ==> r == p.regularPrice
  {
    if Truthy(p.bonusCardPrice) then p.bonusCardPrice.value
    else if Truthy(p.salePrice) then p.salePrice.value
    else p.regularPrice
  }

  function View(m: Option<ProductSearch>): Option<PriceView> {
    match m
    case None => None
    case Some(p) => Some(PriceView(p.name, p.regularPrice, p.salePrice, p.bonusCardPrice, PriorityPrice(p), p.url))
  }

  method GetPriceComparison(ratio: Ratio, threshold: real, query: string, results: seq<StoreResults>)
    returns (comparison: seq<StoreView>)
    ensures |comparison| == |results|
    ensures forall i :: 0 <= i < |results| ==>
              && comparison[i].store == results[i].store
              && comparison[i].view == View(BestMatch(ratio, threshold, query, results[i].products))
  {
    var matches := MatchProductsAcrossStores(ratio, threshold, query, results);
    comparison := [];
    for i := 0 to |matches|
      invariant |comparison| == i
      invariant forall k :: 0 <= k < i ==> comparison[k] == StoreView(matches[k].store, View(matches[k].matched))
    {
      var matched := matches[i].matched;
      if matched.Some? {
        var p := matched.value;
        var best := if Truthy(p.bonusCardPrice) then p.bonusCardPrice.value
                    else if Truthy(p.salePrice) then p.salePrice.value
                    else p.regularPrice;
        comparison := comparison + [StoreView(matches[i].store, Some(PriceView(p.name, p.regularPrice, p.salePrice, p.bonusCardPrice, best, p.url)))];
      } else {
        comparison := comparison + [StoreView(matches[i].store, None)];
      }
    }
  }

  /** The projection's best price is a priority, not a minimum: a bonus price above the
      sale price still wins. */
  lemma PriorityIsNotMinimum()
    ensures var p := ProductSearch("Melk", None, 200, Some(100), Some(150), None, "liter", 1.0, "", None, "albert_heijn");
            PriorityPrice(p) == 150 && BestPrice(p, true) == 100
  {
    var p := ProductSearch("Melk", None, 200, Some(100), Some(150), None, "liter", 1.0, "", None, "albert_heijn");
    assert BestPrice(p, true) <= 100;
  }

  /** When the prices that are present are ordered bonus <= sale <= regular, the priority
      agrees with the calculator's minimum for a bonus-card holder. */
  lemma PriorityAgreesWhenOrdered(p: ProductSearch)
    requires Truthy(p.bonusCardPrice) ==> p.bonusCardPrice.value <= p.regularPrice
    requires Truthy(p.bonusCardPrice) && Truthy(p.salePrice) ==> p.bonusCardPrice.value <= p.salePrice.value
    requires Truthy(p.salePrice) ==> p.salePrice.value <= p.regularPrice
    ensures PriorityPrice(p) == BestPrice(p, true)
  {
  }
}
