/** The cost calculator: best price of an offer, product total of a shopping list at one
    supermarket, delivery and pickup fees, the priced options for every supermarket and
    fulfilment method, ranked with savings, and the savings on a single item. */
module CostCalculator {
  import opened Wrappers
  import opened Models
  import opened Sorting

  /** Python's `min` over a non-empty list of prices. */
  function MinOf(s: seq<Cents>): (r: Cents)
    requires s != []
    ensures r in s
    ensures forall x :: x in s ==> r <= x
  {
    if |s| == 1 then s[0]
    else
      var m := MinOf(s[1..]);
      assert forall x :: x in s ==> x == s[0] || x in s[1..];
      if s[0] <= m then s[0] else m
  }

  /** Python's `max` over a non-empty list of prices. */
  function MaxOf(s: seq<Cents>): (r: Cents)
    requires s != []
    ensures r in s
    ensures forall x :: x in s ==> x <= r
  {
    if |s| == 1 then s[0]
    else
      var m := MaxOf(s[1..]);
      assert forall x :: x in s ==> x == s[0] || x in s[1..];
      if s[0] >= m then s[0] else m
  }

  // ---------------------------------------------------------------- best price

  /** The lowest of the regular price, the sale price and (with a bonus card) the bonus-card
      price; a sale or bonus price that is absent or zero is not a candidate. */
  function BestPrice(product: ProductSearch, hasBonusCard: bool): (r: Cents)
    ensures r <= product.regularPrice
    ensures Truthy(product.salePrice) ==> r <= product.salePrice.value
    ensures hasBonusCard && Truthy(product.bonusCardPrice) ==> r <= product.bonusCardPrice.value
    ensures || r == product.regularPrice
            || (Truthy(product.salePrice) && r == product.salePrice.value)
            || (hasBonusCard && Truthy(product.bonusCardPrice) && r == product.bonusCardPrice.value)
  {
    var sale := if Truthy(product.salePrice) then [product.salePrice.value] else [];
    var bonus := if hasBonusCard && Truthy(product.bonusCardPrice) then [product.bonusCardPrice.value] else [];
    var prices := [product.regularPrice] + sale + bonus;
    assert Truthy(product.salePrice) ==> product.salePrice.value in prices;
    assert hasBonusCard && Truthy(product.bonusCardPrice) ==> product.bonusCardPrice.value in prices;
    MinOf(prices)
  }

  // ---------------------------------------------------------------- product total

  /** What one list entry adds to the total at `store`: price times quantity, or nothing
      when the entry has no price for that store. */
  function ItemCost(item: ListItem, store: string): Cents {
    match PriceAt(item.prices, store)
    case None => 0
    case Some(p) => p * Quantity(item)
  }

  /** Sum of `ItemCost` over the list, accumulated front to back. */
  function ProductTotal(items: seq<ListItem>, store: string): (r: Cents)
    ensures r != 0 ==> exists i :: 0 <= i < |items| && PriceAt(items[i].prices, store).Some?
  {
    if items == [] then 0
    else ProductTotal(items[..|items| - 1], store) + ItemCost(items[|items| - 1], store)
  }

  method CalculateProductTotal(items: seq<ListItem>, supermarketName: string, hasBonusCard: bool)
    returns (total: Cents)
    ensures total == ProductTotal(items, supermarketName)
  {
    total := 0;
    for i := 0 to |items|
      invariant total == ProductTotal(items[..i], supermarketName)
    {
      assert items[..i + 1][..i] == items[..i];
      var price := PriceAt(items[i].prices, supermarketName);
      if price.Some? {
        total := total + price.value * Quantity(items[i]);
      }
    }
    assert items[..|items|] == items;
  }

  lemma {:induction false} ProductTotalAppend(a: seq<ListItem>, b: seq<ListItem>, store: string)
    ensures ProductTotal(a + b, store) == ProductTotal(a, store) + ProductTotal(b, store)
  {
    if b == [] {
      assert a + b == a;
    } else {
      var b' := b[..|b| - 1];
      ProductTotalAppend(a, b', store);
      assert (a + b)[..|a + b| - 1] == a + b';
    }
  }

  /** An entry without a price for the store contributes nothing: the total is the same
      as if the entry were not in the list. */
  lemma UnpricedItemAddsNothing(a: seq<ListItem>, x: ListItem, b: seq<ListItem>, store: string)
    requires PriceAt(x.prices, store).None?
    ensures ProductTotal(a + [x] + b, store) == ProductTotal(a + b, store)
  {
    ProductTotalAppend(a + [x], b, store);
    ProductTotalAppend(a, [x], store);
    ProductTotalAppend(a, b, store);
    assert [x][..0] == [];
  }

  /** With non-negative prices and quantities the product total is non-negative. */
  lemma {:induction false} ProductTotalNonNegative(items: seq<ListItem>, store: string)
    requires forall i :: 0 <= i < |items| ==> Quantity(items[i]) >= 0
    requires forall i, k :: 0 <= i < |items| && 0 <= k < |items[i].prices| && items[i].prices[k].price.Some?
               ==> items[i].prices[k].price.value >= 0
    ensures ProductTotal(items, store) >= 0
  {
    if items != [] {
      var n := |items| - 1;
      ProductTotalNonNegative(items[..n], store);
      ItemCostNonNegative(items[n], store);
    }
  }

  /** One entry with a non-negative quantity and prices adds a non-negative amount. */
  lemma ItemCostNonNegative(item: ListItem, store: string)
    requires Quantity(item) >= 0
    requires forall k :: 0 <= k < |item.prices| && item.prices[k].price.Some? ==> item.prices[k].price.value >= 0
    ensures ItemCost(item, store) >= 0
  {
    var p := PriceAt(item.prices, store);
    if p.Some? {
      var k :| 0 <= k < |item.prices| && item.prices[k] == StorePrice(store, p);
      assert item.prices[k].price.value >= 0;
    }
  }

  // ---------------------------------------------------------------- delivery and pickup

  /** The fee for `deliveryMethod`: pickup costs the pickup fee where pickup exists and is
      infeasible elsewhere; any other method is delivery, free exactly when a (non-zero)
      threshold is set and reached, the delivery fee otherwise. */
  function CalculateDeliveryCost(supermarket: Supermarket, productTotal: Cents, deliveryMethod: string): (r: Cost)
    ensures r.Infinite? <==> deliveryMethod == "pickup" && !supermarket.pickupAvailable
    ensures deliveryMethod == "pickup" && supermarket.pickupAvailable ==> r == Finite(supermarket.pickupCost)
    ensures (deliveryMethod != "pickup" && Truthy(supermarket.freeDeliveryThreshold)
             && productTotal >= supermarket.freeDeliveryThreshold.value) ==> r == Finite(0)
    ensures (deliveryMethod != "pickup"
             && !(Truthy(supermarket.freeDeliveryThreshold) && productTotal >= supermarket.freeDeliveryThreshold.value))
            ==> r == Finite(supermarket.deliveryCost)
  {
    if deliveryMethod == "pickup" then
      if supermarket.pickupAvailable then Finite(supermarket.pickupCost) else Infinite
    else if Truthy(supermarket.freeDeliveryThreshold) && productTotal >= supermarket.freeDeliveryThreshold.value then
      Finite(0)
    else
      Finite(supermarket.deliveryCost)
  }

  /** Delivery is free exactly when the threshold is set and reached (inclusive boundary). */
  lemma FreeDeliveryIff(supermarket: Supermarket, productTotal: Cents, deliveryMethod: string)
    requires deliveryMethod != "pickup" && supermarket.deliveryCost != 0
    ensures CalculateDeliveryCost(supermarket, productTotal, deliveryMethod) == Finite(0)
            <==> Truthy(supermarket.freeDeliveryThreshold) && productTotal >= supermarket.freeDeliveryThreshold.value
  {
  }

  /** Buying more never makes delivery dearer. */
  lemma DeliveryCostMonotone(supermarket: Supermarket, t1: Cents, t2: Cents, deliveryMethod: string)
    requires supermarket.deliveryCost >= 0 && t1 <= t2
    ensures CostLe(CalculateDeliveryCost(supermarket, t2, deliveryMethod),
                   CalculateDeliveryCost(supermarket, t1, deliveryMethod))
  {
  }

  // ---------------------------------------------------------------- one option

  /** The option for one supermarket and method: product total, fee, their sum, no savings
      yet and not marked cheapest. */
  function TotalCost(items: seq<ListItem>, supermarket: Supermarket, deliveryMethod: string): (r: Comparison)
    ensures r.total == Plus(r.productTotal, r.deliveryCost)
    ensures r.productTotal == ProductTotal(items, supermarket.name)
    ensures r.deliveryCost == CalculateDeliveryCost(supermarket, r.productTotal, deliveryMethod)
    ensures r.savings == 0 && !r.isCheapest
    ensures r.supermarket == supermarket.displayName && r.deliveryMethod == deliveryMethod && r.items == items
  {
    var productTotal := ProductTotal(items, supermarket.name);
    var deliveryCost := CalculateDeliveryCost(supermarket, productTotal, deliveryMethod);
    Comparison(supermarket.displayName, deliveryMethod, productTotal, deliveryCost,
               Plus(productTotal, deliveryCost), items, 0, false)
  }

  method CalculateTotalCost(items: seq<ListItem>, supermarket: Supermarket, deliveryMethod: string, hasBonusCard: bool)
    returns (result: Comparison)
    ensures result == TotalCost(items, supermarket, deliveryMethod)
  {
    var productTotal := CalculateProductTotal(items, supermarket.name, hasBonusCard);
    var deliveryCost := CalculateDeliveryCost(supermarket, productTotal, deliveryMethod);
    var total := Plus(productTotal, deliveryCost);
    result := Comparison(supermarket.displayName, deliveryMethod, productTotal, deliveryCost,
                         total, items, 0, false);
  }

  // ---------------------------------------------------------------- all options, ranked

  /** The options one supermarket contributes: delivery, then pickup where it is offered,
      each only when its total is finite. */
  function StoreOptions(items: seq<ListItem>, supermarket: Supermarket): seq<Comparison> {
    var delivery := TotalCost(items, supermarket, "delivery");
    var pickup := TotalCost(items, supermarket, "pickup");
    (if delivery.total.Finite? then [delivery] else [])
    + (if supermarket.pickupAvailable && pickup.total.Finite? then [pickup] else [])
  }

  /** The options in the order they are collected, supermarket by supermarket. */
  function Candidates(items: seq<ListItem>, supermarkets: seq<Supermarket>): (r: seq<Comparison>)
    ensures forall k :: 0 <= k < |r| ==> r[k].total.Finite? && r[k].items == items
  {
    if supermarkets == [] then []
    else Candidates(items, supermarkets[..|supermarkets| - 1]) + StoreOptions(items, supermarkets[|supermarkets| - 1])
  }

  /** The sort key of `options.sort(key=lambda x: x.total)`. */
  predicate TotalLe(a: Comparison, b: Comparison) {
    CostLe(a.total, b.total)
  }

  /** `max(opt.total for opt in options)`. */
  function MaxTotal(options: seq<Comparison>): (r: Cost)
    requires options != []
    ensures exists k :: 0 <= k < |options| && options[k].total == r
    ensures forall k :: 0 <= k < |options| ==> CostLe(options[k].total, r)
  {
    if |options| == 1 then options[0].total
    else
      var m := MaxTotal(options[1..]);
      if CostLe(m, options[0].total) then options[0].total else m
  }

  /** `hi - lo` on finite costs. */
  function Gap(hi: Cost, lo: Cost): Cents {
    if hi.Finite? && lo.Finite? then hi.cents - lo.cents else 0
  }

  function WithSavings(options: seq<Comparison>, maxTotal: Cost): (r: seq<Comparison>)
    ensures |r| == |options|
    ensures forall k :: 0 <= k < |options| ==> r[k] == options[k].(savings := Gap(maxTotal, options[k].total))
  {
    seq(|options|, k requires 0 <= k < |options| => options[k].(savings := Gap(maxTotal, options[k].total)))
  }

  /** Savings against the most expensive option, and the first option marked cheapest. */
  function Rank(sorted: seq<Comparison>): (r: seq<Comparison>)
    requires sorted != []
    ensures |r| == |sorted|
  {
    var ranked := WithSavings(sorted, MaxTotal(sorted));
    ranked[0 := ranked[0].(isCheapest := true)]
  }

  /** The result of `compare_all_options`: the candidates sorted stably by total, then ranked. */
  function CompareAll(items: seq<ListItem>, supermarkets: seq<Supermarket>, hasBonusCard: bool): (r: seq<Comparison>)
    ensures |r| == |Candidates(items, supermarkets)|
    ensures r != [] ==> r[0].isCheapest
  {
    var sorted := SortBy(Candidates(items, supermarkets), TotalLe);
    SortByPermutes(Candidates(items, supermarkets), TotalLe);
    if sorted == [] then [] else Rank(sorted)
  }

  method CompareAllOptions(items: seq<ListItem>, supermarkets: seq<Supermarket>, hasBonusCard: bool)
    returns (options: seq<Comparison>)
    ensures options == CompareAll(items, supermarkets, hasBonusCard)
  {
    options := [];
    for i := 0 to |supermarkets|
      invariant options == Candidates(items, supermarkets[..i])
    {
      assert supermarkets[..i + 1][..i] == supermarkets[..i];
      var supermarket := supermarkets[i];
      var deliveryResult := CalculateTotalCost(items, supermarket, "delivery", hasBonusCard);
      var added := [];
      if deliveryResult.total.Finite? {
        added := [deliveryResult];
      }
      if supermarket.pickupAvailable {
        var pickupResult := CalculateTotalCost(items, supermarket, "pickup", hasBonusCard);
        if pickupResult.total.Finite? {
          added := added + [pickupResult];
        }
      }
      options := options + added;
    }
    assert supermarkets[..|supermarkets|] == supermarkets;

    options := SortBy(options, TotalLe);
    ghost var sorted := options;

    if options != [] {
      var maxTotal := MaxTotal(options);
      for j := 0 to |options|
        invariant |options| == |sorted|
        invariant forall k :: 0 <= k < j ==> options[k] == sorted[k].(savings := Gap(maxTotal, sorted[k].total))
        invariant forall k :: j <= k < |options| ==> options[k] == sorted[k]
      {
        options := options[j := options[j].(savings := Gap(maxTotal, options[j].total))];
      }
      assert options == WithSavings(sorted, maxTotal);
      options := options[0 := options[0].(isCheapest := true)];
      assert options == Rank(sorted);
    }
  }

  /** Number of supermarkets that offer pickup. */
  function PickupCount(supermarkets: seq<Supermarket>): nat {
    if supermarkets == [] then 0
    else PickupCount(supermarkets[..|supermarkets| - 1]) + (if supermarkets[|supermarkets| - 1].pickupAvailable then 1 else 0)
  }

  /** An option as `calculate_total_cost` makes it for one of the supermarkets: delivery, or
      pickup where pickup is offered. */
  ghost predicate OfferedBy(o: Comparison, items: seq<ListItem>, supermarkets: seq<Supermarket>) {
    exists s :: s in supermarkets &&
      (o == TotalCost(items, s, "delivery") || (s.pickupAvailable && o == TotalCost(items, s, "pickup")))
  }

  /** One delivery option per supermarket and one pickup option per supermarket with pickup,
      all finite, none ranked yet. */
  lemma {:induction false} CandidatesComplete(items: seq<ListItem>, supermarkets: seq<Supermarket>)
    ensures |Candidates(items, supermarkets)| == |supermarkets| + PickupCount(supermarkets)
    ensures forall o :: o in Candidates(items, supermarkets) ==>
              o.total.Finite? && o.savings == 0 && !o.isCheapest && OfferedBy(o, items, supermarkets)
  {
    if supermarkets != [] {
      var n := |supermarkets| - 1;
      var init := supermarkets[..n];
      CandidatesComplete(items, init);
      var s := supermarkets[n];
      assert s in supermarkets;
      forall o | o in Candidates(items, init)
        ensures OfferedBy(o, items, supermarkets)
      {
        var t :| t in init &&
          (o == TotalCost(items, t, "delivery") || (t.pickupAvailable && o == TotalCost(items, t, "pickup")));
        assert t in supermarkets;
      }
    }
  }

  lemma TotalLeIsTotalPreorder()
    ensures TotalPreorder(TotalLe)
  {
  }

  /** The option without its ranking: savings back to 0, not marked cheapest. */
  function Unranked(options: seq<Comparison>): (r: seq<Comparison>)
    ensures |r| == |options|
    ensures forall k :: 0 <= k < |options| ==> r[k] == options[k].(savings := 0, isCheapest := false)
  {
    seq(|options|, k requires 0 <= k < |options| => options[k].(savings := 0, isCheapest := false))
  }

  /** Facts about the sorted candidate list shared by the lemmas below. */
  lemma SortedCandidates(items: seq<ListItem>, supermarkets: seq<Supermarket>)
    ensures var c := Candidates(items, supermarkets);
            var sorted := SortBy(c, TotalLe);
            && |sorted| == |c| == |supermarkets| + PickupCount(supermarkets)
            && multiset(sorted) == multiset(c)
            && SortedBy(sorted, TotalLe)
            && (forall k :: 0 <= k < |sorted| ==> sorted[k].total.Finite? && sorted[k].savings == 0 && !sorted[k].isCheapest)
  {
    var c := Candidates(items, supermarkets);
    var sorted := SortBy(c, TotalLe);
    CandidatesComplete(items, supermarkets);
    SortByPermutes(c, TotalLe);
    TotalLeIsTotalPreorder();
    SortBySorted(c, TotalLe);
    forall k | 0 <= k < |sorted|
      ensures sorted[k].total.Finite? && sorted[k].savings == 0 && !sorted[k].isCheapest
    {
      assert sorted[k] in multiset(sorted);
    }
  }

  /** `compare_all_options` yields one delivery option per supermarket plus one pickup option
      per supermarket with pickup; no supermarkets, no options. */
  lemma CompareAllCount(items: seq<ListItem>, supermarkets: seq<Supermarket>, hasBonusCard: bool)
    ensures |CompareAll(items, supermarkets, hasBonusCard)| == |supermarkets| + PickupCount(supermarkets)
    ensures CompareAll(items, supermarkets, hasBonusCard) == [] <==> supermarkets == []
  {
    SortedCandidates(items, supermarkets);
  }

  /** The ranked options are sorted non-decreasingly by total, and only the first one is
      marked cheapest, even when several totals tie. */
  lemma CompareAllSortedCheapestFirst(items: seq<ListItem>, supermarkets: seq<Supermarket>, hasBonusCard: bool)
    ensures var r := CompareAll(items, supermarkets, hasBonusCard);
            && SortedBy(r, TotalLe)
            && (forall i :: 0 <= i < |r| ==> (r[i].isCheapest <==> i == 0))
  {
    SortedCandidates(items, supermarkets);
  }

  /** On a sorted list of finite options the largest total is the last one's. */
  lemma MaxTotalIsLast(sorted: seq<Comparison>)
    requires sorted != [] && SortedBy(sorted, TotalLe)
    requires forall k :: 0 <= k < |sorted| ==> sorted[k].total.Finite?
    ensures MaxTotal(sorted) == sorted[|sorted| - 1].total
  {
    var m := MaxTotal(sorted);
    var last := |sorted| - 1;
    var km :| 0 <= km < |sorted| && sorted[km].total == m;
    assert CostLe(sorted[last].total, m);
    if km != last {
      assert TotalLe(sorted[km], sorted[last]);
    }
    assert m.Finite? && sorted[last].total.Finite?;
  }

  /** Every option's savings is the dearest total (the last one's) minus its own total. */
  ghost predicate SavingsAgainstDearest(r: seq<Comparison>) {
    && r != []
    && r[|r| - 1].total.Finite?
    && (forall i :: 0 <= i < |r| ==>
          && r[i].total.Finite?
          && CostLe(r[i].total, r[|r| - 1].total)
          && r[i].savings == r[|r| - 1].total.cents - r[i].total.cents)
  }

  lemma RankSavings(sorted: seq<Comparison>)
    requires sorted != [] && SortedBy(sorted, TotalLe)
    requires forall k :: 0 <= k < |sorted| ==> sorted[k].total.Finite?
    ensures SavingsAgainstDearest(Rank(sorted))
  {
    MaxTotalIsLast(sorted);
    var last := |sorted| - 1;
    var m := MaxTotal(sorted);
    var r := Rank(sorted);
    var ranked := WithSavings(sorted, m);
    assert r == ranked[0 := ranked[0].(isCheapest := true)];
    forall i | 0 <= i < |r|
      ensures r[i].total == sorted[i].total && r[i].savings == Gap(m, sorted[i].total)
    {
    }
    forall i | 0 <= i < |r|
      ensures r[i].total.Finite? && CostLe(r[i].total, r[last].total)
      ensures r[i].savings == r[last].total.cents - r[i].total.cents
    {
      if i < last {
        assert TotalLe(sorted[i], sorted[last]);
      }
    }
  }

  /** Every option's savings is the most expensive total (the last one's) minus its own
      total: never negative, zero for the last option, and for the first option the whole
      spread between cheapest and dearest. */
  lemma CompareAllSavings(items: seq<ListItem>, supermarkets: seq<Supermarket>, hasBonusCard: bool)
    ensures var r := CompareAll(items, supermarkets, hasBonusCard);
            r != [] ==>
              && SavingsAgainstDearest(r)
              && (forall i :: 0 <= i < |r| ==> r[i].savings >= 0)
              && r[|r| - 1].savings == 0
  {
    var c := Candidates(items, supermarkets);
    var sorted := SortBy(c, TotalLe);
    var r := CompareAll(items, supermarkets, hasBonusCard);
    SortedCandidates(items, supermarkets);
    if r != [] {
      RankSavings(sorted);
      assert r == Rank(sorted);
      SavingsNonNegative(r);
    }
  }

  /** Savings measured against the dearest option are never negative, and zero for it. */
  lemma SavingsNonNegative(r: seq<Comparison>)
    requires SavingsAgainstDearest(r)
    ensures forall i :: 0 <= i < |r| ==> r[i].savings >= 0
    ensures r[|r| - 1].savings == 0
  {
    forall i | 0 <= i < |r|
      ensures r[i].savings >= 0
    {
      assert CostLe(r[i].total, r[|r| - 1].total);
    }
  }

  /** Apart from the ranking fields, the result is the candidate list reordered: the same
      options, and options with equal totals stay in supermarket order (a stable sort). */
  lemma CompareAllStablePermutation(items: seq<ListItem>, supermarkets: seq<Supermarket>, hasBonusCard: bool)
    ensures var r := Unranked(CompareAll(items, supermarkets, hasBonusCard));
            var c := Candidates(items, supermarkets);
            && multiset(r) == multiset(c)
            && (forall y :: Ties(r, y, TotalLe) == Ties(c, y, TotalLe))
  {
    var c := Candidates(items, supermarkets);
    var sorted := SortBy(c, TotalLe);
    SortedCandidates(items, supermarkets);
    var r := Unranked(CompareAll(items, supermarkets, hasBonusCard));
    assert r == sorted;
    forall y
      ensures Ties(r, y, TotalLe) == Ties(c, y, TotalLe)
    {
      SortByStable(c, y, TotalLe);
    }
  }

  /** Every ranked option is the delivery option of one of the supermarkets or the pickup
      option of one that offers pickup, with total = product total + fee. */
  lemma CompareAllOptionsOffered(items: seq<ListItem>, supermarkets: seq<Supermarket>, hasBonusCard: bool)
    ensures var r := CompareAll(items, supermarkets, hasBonusCard);
            forall i :: 0 <= i < |r| ==>
              && OfferedBy(Unranked(r)[i], items, supermarkets)
              && r[i].total == Plus(r[i].productTotal, r[i].deliveryCost)
  {
    var c := Candidates(items, supermarkets);
    var r := CompareAll(items, supermarkets, hasBonusCard);
    CompareAllStablePermutation(items, supermarkets, hasBonusCard);
    CandidatesComplete(items, supermarkets);
    forall i | 0 <= i < |r|
      ensures OfferedBy(Unranked(r)[i], items, supermarkets)
      ensures r[i].total == Plus(r[i].productTotal, r[i].deliveryCost)
    {
      assert Unranked(r)[i] in multiset(Unranked(r));
      assert Unranked(r)[i] in c;
    }
  }

  method GetCheapestOption(items: seq<ListItem>, supermarkets: seq<Supermarket>, hasBonusCard: bool)
    returns (cheapest: Option<Comparison>)
    ensures cheapest.None? <==> CompareAll(items, supermarkets, hasBonusCard) == []
    ensures cheapest.Some? ==> cheapest.value == CompareAll(items, supermarkets, hasBonusCard)[0]
  {
    var options := CompareAllOptions(items, supermarkets, hasBonusCard);
    cheapest := if options != [] then Some(options[0]) else None;
  }

  // ---------------------------------------------------------------- item savings

  /** The outcome of `calculate_item_savings`: the all-zero record when fewer than two
      stores have a price, otherwise the cheapest and the dearest price, their difference
      and the first store (in dictionary order) asking the cheapest price. */
  datatype ItemSavings =
    | NoComparison
    | Spread(minPrice: Cents, maxPrice: Cents, savings: Cents, cheapestStore: string)

  /** The values of the `prices` entries that are not `None`, in dictionary order. */
  function ValidPrices(prices: seq<StorePrice>): (r: seq<Cents>)
    ensures |r| <= |prices|
    ensures forall x :: x in r <==> exists k :: 0 <= k < |prices| && prices[k].price == Some(x)
  {
    if prices == [] then []
    else
      var rest := ValidPrices(prices[1..]);
      assert forall k :: 1 <= k < |prices| ==> prices[k] == prices[1..][k - 1];
      (if prices[0].price.Some? then [prices[0].price.value] else []) + rest
  }

  /** Index of the first entry whose price is `p`. */
  function FirstPricedAt(prices: seq<StorePrice>, p: Cents): (k: nat)
    requires exists j :: 0 <= j < |prices| && prices[j].price == Some(p)
    ensures k < |prices| && prices[k].price == Some(p)
    ensures forall j :: 0 <= j < k ==> prices[j].price != Some(p)
  {
    if prices[0].price == Some(p) then 0
    else
      var j :| 0 <= j < |prices| && prices[j].price == Some(p);
      assert prices[1..][j - 1] == prices[j];
      1 + FirstPricedAt(prices[1..], p)
  }

  /** The cheapest and the dearest valid price bound every price of the dictionary, and both
      are asked by some entry. */
  lemma ValidPriceRange(prices: seq<StorePrice>)
    requires ValidPrices(prices) != []
    ensures MinOf(ValidPrices(prices)) <= MaxOf(ValidPrices(prices))
    ensures exists k :: 0 <= k < |prices| && prices[k].price == Some(MinOf(ValidPrices(prices)))
    ensures exists k :: 0 <= k < |prices| && prices[k].price == Some(MaxOf(ValidPrices(prices)))
    ensures forall k :: 0 <= k < |prices| && prices[k].price.Some? ==>
              MinOf(ValidPrices(prices)) <= prices[k].price.value <= MaxOf(ValidPrices(prices))
  {
    var valid := ValidPrices(prices);
    assert forall k :: 0 <= k < |prices| && prices[k].price.Some? ==> prices[k].price.value in valid;
  }

  /** The first entry asking the cheapest price comes after entries that are unpriced or
      dearer only. */
  lemma FirstCheapest(prices: seq<StorePrice>, lo: Cents, k: nat)
    requires ValidPrices(prices) != [] && lo == MinOf(ValidPrices(prices))
    requires k < |prices| && prices[k].price == Some(lo)
    requires forall j :: 0 <= j < k ==> prices[j].price != Some(lo)
    ensures exists i :: 0 <= i < |prices| && prices[i] == StorePrice(prices[k].store, Some(lo))
              && forall j :: 0 <= j < i ==> prices[j].price.None? || prices[j].price.value > lo
  {
    ValidPriceRange(prices);
    forall j | 0 <= j < k
      ensures prices[j].price.None? || prices[j].price.value > lo
    {
      if prices[j].price.Some? {
        assert lo <= prices[j].price.value;
      }
    }
    assert prices[k] == StorePrice(prices[k].store, Some(lo));
  }

  /** The savings on one item across the stores that price it: nothing to compare below two
      prices; otherwise the cheapest and dearest price bound every price and are attained,
      the savings is their difference, and the cheapest store is the first entry asking the
      cheapest price (the tie-break of `min(valid_prices, key=valid_prices.get)`). */
  function CalculateItemSavings(item: ListItem, supermarkets: seq<string>): (r: ItemSavings)
    ensures r.NoComparison? <==> |ValidPrices(item.prices)| < 2
    ensures r.Spread? ==> r.minPrice <= r.maxPrice && r.savings == r.maxPrice - r.minPrice
    ensures r.Spread? ==> exists k :: 0 <= k < |item.prices| && item.prices[k].price == Some(r.maxPrice)
    ensures r.Spread? ==> forall k :: 0 <= k < |item.prices| && item.prices[k].price.Some? ==>
                            r.minPrice <= item.prices[k].price.value <= r.maxPrice
    ensures r.Spread? ==>
              exists k :: 0 <= k < |item.prices| && item.prices[k] == StorePrice(r.cheapestStore, Some(r.minPrice))
                 && forall j :: 0 <= j < k ==> item.prices[j].price.None? || item.prices[j].price.value > r.minPrice
  {
    var valid := ValidPrices(item.prices);
    if |valid| < 2 then NoComparison
    else
      var lo := MinOf(valid);
      var hi := MaxOf(valid);
      ValidPriceRange(item.prices);
      var k := FirstPricedAt(item.prices, lo);
      FirstCheapest(item.prices, lo, k);
      Spread(lo, hi, hi - lo, item.prices[k].store)
  }

  /** In a dictionary (each store once) the cheapest store's own entry holds the cheapest
      price. */
  lemma ItemSavingsCheapestStore(item: ListItem, supermarkets: seq<string>)
    requires DistinctStores(item.prices)
    ensures var r := CalculateItemSavings(item, supermarkets);
            r.Spread? ==> PriceAt(item.prices, r.cheapestStore) == Some(r.minPrice)
  {
    var r := CalculateItemSavings(item, supermarkets);
    if r.Spread? {
      var k :| 0 <= k < |item.prices| && item.prices[k] == StorePrice(r.cheapestStore, Some(r.minPrice));
      PriceAtDistinct(item.prices, k);
    }
  }
}
