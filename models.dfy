/** The records the price-comparison code passes around: a scraped product offer, a
    supermarket's fee schedule, a shopping-list entry and one priced fulfilment option. */
module Models {
  import opened Wrappers

  /** Money in euro cents. Every price in the system has two decimals, so cents are exact
      and rounding to two decimals is the identity. */
  type Cents = int

  /** A fee that may be infeasible (Python's `float("inf")`). */
  datatype Cost = Finite(cents: Cents) | Infinite

  /** `a <= b` on costs, with infinity above every finite cost. */
  predicate CostLe(a: Cost, b: Cost) {
    b.Infinite? || (a.Finite? && a.cents <= b.cents)
  }

  /** `amount + fee`, infinite when the fee is. */
  function Plus(amount: Cents, fee: Cost): (r: Cost)
    ensures r.Infinite? <==> fee.Infinite?
  {
    match fee
    case Finite(c) => Finite(amount + c)
    case Infinite => Infinite
  }

  /** Python truthiness of an optional price: `None` and `0.0` both count as absent. */
  predicate Truthy(o: Option<Cents>) {
    o.Some? && o.value != 0
  }

  /** One search result from a supermarket (the `ProductSearch` record). */
  datatype ProductSearch = ProductSearch(
    name: string,
    brand: Option<string>,
    regularPrice: Cents,
    salePrice: Option<Cents>,
    bonusCardPrice: Option<Cents>,
    promotionText: Option<string>,
    unit: string,
    unitSize: real,
    url: string,
    imageUrl: Option<string>,
    supermarket: string)

  /** One entry of a `{store: products}` dictionary of search results. */
  datatype StoreResults = StoreResults(store: string, products: seq<ProductSearch>)

  /** One entry of a `{store: product or None}` dictionary. */
  datatype StoreMatch = StoreMatch(store: string, matched: Option<ProductSearch>)

  /** A supermarket and its fee schedule (the `Supermarket` record and the configuration table). */
  datatype Supermarket = Supermarket(
    name: string,
    displayName: string,
    baseUrl: string,
    deliveryCost: Cents,
    freeDeliveryThreshold: Option<Cents>,
    pickupAvailable: bool,
    pickupCost: Cents,
    hasBonusCard: bool,
    bonusCardName: Option<string>)

  /** One entry of an item's `prices` dictionary; `None` is a stored `None` value. */
  datatype StorePrice = StorePrice(store: string, price: Option<Cents>)

  /** A shopping-list entry as a dictionary `{product_name, quantity, prices}`. The quantity
      key may be missing (then it counts as 1); `prices` lists the dictionary's entries in
      insertion order. */
  datatype ListItem = ListItem(productName: string, quantity: Option<int>, prices: seq<StorePrice>)

  /** `item.get("quantity", 1)`. */
  function Quantity(item: ListItem): int {
    item.quantity.GetOr(1)
  }

  /** `prices.get(store)`: the value of the store's entry, `None` when there is none. */
  function PriceAt(prices: seq<StorePrice>, store: string): (r: Option<Cents>)
    ensures r.Some? ==> exists k :: 0 <= k < |prices| && prices[k] == StorePrice(store, r)
    ensures (forall k :: 0 <= k < |prices| ==> prices[k].store != store) ==> r.None?
  {
    if prices == [] then None
    else if prices[0].store == store then prices[0].price
    else PriceAt(prices[1..], store)
  }

  /** A dictionary has each key once. */
  predicate DistinctStores(prices: seq<StorePrice>) {
    forall i, j :: 0 <= i < j < |prices| ==> prices[i].store != prices[j].store
  }

  /** In a dictionary the lookup of an entry's store finds that entry. */
  lemma {:induction false} PriceAtDistinct(prices: seq<StorePrice>, k: nat)
    requires DistinctStores(prices) && k < |prices|
    ensures PriceAt(prices, prices[k].store) == prices[k].price
  {
    if k > 0 {
      assert prices[0].store != prices[k].store;
      PriceAtDistinct(prices[1..], k - 1);
    }
  }

  /** One priced way of buying the list (the `ShoppingListComparison` record);
      `isCheapest` defaults to false. */
  datatype Comparison = Comparison(
    supermarket: string,
    deliveryMethod: string,
    productTotal: Cents,
    deliveryCost: Cost,
    total: Cost,
    items: seq<ListItem>,
    savings: Cents,
    isCheapest: bool)
}
