/** The six supermarkets the program knows, with their fees and thresholds in cents, and the
    worked scenarios of the calculator's unit tests, stated over that data. */
module Catalog {
  import opened Wrappers
  import opened Models
  import opened Sorting
  import opened CostCalculator
  import SmartSearch

  const AlbertHeijn := Supermarket("albert_heijn", "Albert Heijn", "https://www.ah.nl",
                                   595, None, true, 0, true, Some("Bonuskaart"))
  const Jumbo := Supermarket("jumbo", "Jumbo", "https://www.jumbo.com",
                             795, Some(7500), true, 0, true, Some("Extra's"))
  const Dirk := Supermarket("dirk", "Dirk", "https://www.dirk.nl",
                            595, None, true, 0, false, None)
  const Plus := Supermarket("plus", "Plus", "https://www.plus.nl",
                            695, None, true, 0, true, Some("Plus-punten"))
  const Flink := Supermarket("flink", "Flink", "https://www.goflink.com",
                             299, None, false, 0, false, None)
  const Picnic := Supermarket("picnic", "Picnic", "https://picnic.app",
                              0, Some(3500), false, 0, false, None)

  /** The store table, in its declaration order. */
  const Supermarkets: seq<Supermarket> := [AlbertHeijn, Jumbo, Dirk, Plus, Flink, Picnic]

  /** The store table lists the six stores in the order of the search results, so the basket
      comparison can run on it. */
  lemma SupermarketsMatchStores()
    ensures SmartSearch.ConfigMatchesStores(Supermarkets)
  {
  }

  /** The test shopping list: two milks, a bread and a cheese, priced at two stores. */
  const SampleList: seq<ListItem> := [
    ListItem("Melk", Some(2), [StorePrice("albert_heijn", Some(149)), StorePrice("jumbo", Some(159))]),
    ListItem("Brood", Some(1), [StorePrice("albert_heijn", Some(219)), StorePrice("jumbo", Some(199))]),
    ListItem("Kaas", Some(1), [StorePrice("albert_heijn", Some(499)), StorePrice("jumbo", Some(529))])
  ]

  /** The list costs 10.16 at Albert Heijn and 10.46 at Jumbo. */
  lemma SampleProductTotals()
    ensures ProductTotal(SampleList, "albert_heijn") == 1016
    ensures ProductTotal(SampleList, "jumbo") == 1046
  {
    assert SampleList[..2][..1] == SampleList[..1];
    assert SampleList[..1][..0] == [];
    assert SampleList[..|SampleList| - 1] == SampleList[..2];
    assert SampleList[..2][..|SampleList[..2]| - 1] == SampleList[..1];
    assert SampleList[..1][..|SampleList[..1]| - 1] == [];
    assert ItemCost(SampleList[0], "albert_heijn") == 298 && ItemCost(SampleList[0], "jumbo") == 318;
    assert ItemCost(SampleList[1], "albert_heijn") == 219 && ItemCost(SampleList[1], "jumbo") == 199;
    assert ItemCost(SampleList[2], "albert_heijn") == 499 && ItemCost(SampleList[2], "jumbo") == 529;
    assert ProductTotal(SampleList[..1], "albert_heijn") == 298 && ProductTotal(SampleList[..1], "jumbo") == 318;
    assert ProductTotal(SampleList[..2], "albert_heijn") == 517 && ProductTotal(SampleList[..2], "jumbo") == 517;
  }

  /** Delivery at 50.00: the fee where there is no threshold or it is not reached; free
      at Jumbo from 75.00 on; pickup free at Albert Heijn and impossible at Picnic. */
  lemma DeliveryScenarios()
    ensures CalculateDeliveryCost(AlbertHeijn, 5000, "delivery") == Finite(595)
    ensures CalculateDeliveryCost(Jumbo, 5000, "delivery") == Finite(795)
    ensures CalculateDeliveryCost(Jumbo, 10000, "delivery") == Finite(0)
    ensures CalculateDeliveryCost(Jumbo, 7500, "delivery") == Finite(0)
    ensures CalculateDeliveryCost(AlbertHeijn, 5000, "pickup") == Finite(0)
    ensures CalculateDeliveryCost(Picnic, 5000, "pickup") == Infinite
  {
  }

  /** Home delivery of the list from Albert Heijn: 10.16 plus 5.95 makes 16.11. */
  lemma SampleTotalCost()
    ensures var r := TotalCost(SampleList, AlbertHeijn, "delivery");
            r.productTotal == 1016 && r.deliveryCost == Finite(595) && r.total == Finite(1611)
            && r.supermarket == "Albert Heijn"
  {
    SampleProductTotals();
  }

  /** Milk at 1.49, 1.59 and 1.39: Dirk is cheapest and the spread is 0.20. */
  lemma SampleItemSavings()
    ensures CalculateItemSavings(
              ListItem("Melk", Some(1), [StorePrice("albert_heijn", Some(149)), StorePrice("jumbo", Some(159)),
                                         StorePrice("dirk", Some(139))]),
              ["albert_heijn", "jumbo", "dirk"])
            == Spread(139, 159, 20, "dirk")
  {
    var prices := [StorePrice("albert_heijn", Some(149)), StorePrice("jumbo", Some(159)), StorePrice("dirk", Some(139))];
    assert ValidPrices(prices[2..]) == [139];
    assert ValidPrices(prices[1..]) == [159, 139];
    assert ValidPrices(prices) == [149, 159, 139];
    assert MinOf([149, 159, 139]) == 139;
    assert MaxOf([149, 159, 139]) == 159;
    assert FirstPricedAt(prices, 139) == 2;
  }

  const TestStores: seq<Supermarket> := [AlbertHeijn, Jumbo, Picnic]

  lemma PicnicPricesNothing()
    ensures ProductTotal(SampleList, "picnic") == 0
  {
    assert SampleList[..|SampleList| - 1] == SampleList[..2];
    assert SampleList[..2][..1] == SampleList[..1];
    assert SampleList[..1][..0] == [];
    assert ItemCost(SampleList[0], "picnic") == 0;
    assert ItemCost(SampleList[1], "picnic") == 0;
    assert ItemCost(SampleList[2], "picnic") == 0;
    assert ProductTotal(SampleList[..1], "picnic") == 0;
    assert ProductTotal(SampleList[..2], "picnic") == 0;
  }

  lemma TestStoresPickup()
    ensures PickupCount(TestStores) == 2
  {
    assert TestStores[..2] == [AlbertHeijn, Jumbo];
    assert TestStores[..2][..1] == [AlbertHeijn];
    assert [AlbertHeijn][..0] == [];
    assert PickupCount([AlbertHeijn]) == 1;
    assert PickupCount([AlbertHeijn, Jumbo]) == 2;
  }

  /** Picnic prices none of the test items and charges no delivery fee, so its delivery
      option for the list costs nothing: the situation `FreeOptionRanksFirst` describes for the
      test's comparison. */
  lemma PicnicDeliveryFree()
    ensures Picnic in TestStores
    ensures TotalCost(SampleList, Picnic, "delivery").total == Finite(0)
  {
    PicnicPricesNothing();
  }

  /** Every store's delivery option with a finite total is among the candidates. */
  lemma {:induction false} DeliveryIsCandidate(items: seq<ListItem>, stores: seq<Supermarket>, s: Supermarket)
    requires s in stores && TotalCost(items, s, "delivery").total.Finite?
    ensures TotalCost(items, s, "delivery") in Candidates(items, stores)
  {
    var n := |stores| - 1;
    if stores[n] == s {
      assert TotalCost(items, s, "delivery") in StoreOptions(items, s);
    } else {
      assert s in stores[..n] by {
        var k :| 0 <= k < |stores| && stores[k] == s;
        assert stores[..n][k] == s;
      }
      DeliveryIsCandidate(items, stores[..n], s);
    }
  }

  /** When one option costs nothing and none costs less, the first ranked option costs
      nothing and is marked cheapest. */
  lemma FreeOptionRanksFirst(items: seq<ListItem>, stores: seq<Supermarket>, s: Supermarket)
    requires s in stores && TotalCost(items, s, "delivery").total == Finite(0)
    requires forall s :: s in stores ==> s.deliveryCost >= 0 && s.pickupCost >= 0
    requires forall store :: ProductTotal(items, store) >= 0
    ensures var r := CompareAll(items, stores, true);
            r != [] && r[0].isCheapest && r[0].total == Finite(0)
  {
    var free := TotalCost(items, s, "delivery");
    DeliveryIsCandidate(items, stores, s);
    CandidatesComplete(items, stores);
    TotalsNonNegative(items, Candidates(items, stores), stores);
    var r := CompareAll(items, stores, true);
    var c := Candidates(items, stores);
    CompareAllCount(items, stores, true);
    CompareAllSortedCheapestFirst(items, stores, true);
    CompareAllStablePermutation(items, stores, true);
    CandidatesComplete(items, stores);
    assert free in multiset(Unranked(r));
    var k :| 0 <= k < |r| && Unranked(r)[k] == free;
    assert TotalLe(r[0], r[k]) by {
      if k > 0 {
        assert SortedBy(r, TotalLe);
      }
    }
    assert Unranked(r)[0] in multiset(c);
  }

  /** The test's comparison over Albert Heijn, Jumbo and Picnic has five options: delivery
      from all three and pickup from the two that offer it. */
  lemma SampleComparison()
    ensures |CompareAll(SampleList, TestStores, true)| == 5
  {
    CompareAllCount(SampleList, TestStores, true);
    TestStoresPickup();
  }

  lemma TestStoresFees()
    ensures forall s :: s in TestStores ==> s.deliveryCost >= 0 && s.pickupCost >= 0
  {
    forall s | s in TestStores
      ensures s.deliveryCost >= 0 && s.pickupCost >= 0
    {
      assert s == AlbertHeijn || s == Jumbo || s == Picnic;
    }
  }

  /** An option's total is never negative when the product total and the fees are not. */
  lemma TotalNonNegative(items: seq<ListItem>, s: Supermarket, deliveryMethod: string)
    requires ProductTotal(items, s.name) >= 0 && s.deliveryCost >= 0 && s.pickupCost >= 0
    ensures var t := TotalCost(items, s, deliveryMethod).total;
            t.Finite? ==> t.cents >= 0
  {
  }

  /** Every option over stores with non-negative fees costs at least nothing. */
  lemma TotalsNonNegative(items: seq<ListItem>, c: seq<Comparison>, stores: seq<Supermarket>)
    requires forall s :: s in stores ==> s.deliveryCost >= 0 && s.pickupCost >= 0
    requires forall store :: ProductTotal(items, store) >= 0
    requires forall o :: o in c ==> OfferedBy(o, items, stores)
    ensures forall o :: o in c ==> o.total.Finite? ==> o.total.cents >= 0
  {
    forall o | o in c && o.total.Finite?
      ensures o.total.cents >= 0
    {
      var s :| s in stores &&
        (o == TotalCost(items, s, "delivery") || (s.pickupAvailable && o == TotalCost(items, s, "pickup")));
      TotalNonNegative(items, s, "delivery");
      TotalNonNegative(items, s, "pickup");
    }
  }

  lemma SampleTotalsNonNegative()
    ensures forall store :: ProductTotal(SampleList, store) >= 0
  {
    forall store
      ensures ProductTotal(SampleList, store) >= 0
    {
      ProductTotalNonNegative(SampleList, store);
    }
  }
}
