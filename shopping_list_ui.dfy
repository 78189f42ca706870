/** The shopping-list helpers of the web page: the session holds the shopping list and the
    last comparison, and the page's buttons add an item, remove one by position, clear
    everything and run the comparison. */
module ShoppingListUi {
  import opened Wrappers
  import opened Text
  import opened Models
  import CostCalculator

  // ---------------------------------------------------------------- the list as a value

  /** Names that agree once lowercased. */
  predicate SameName(a: string, b: string) {
    Lower(a) == Lower(b)
  }

  /** No two entries have the same name up to case. */
  predicate NoDuplicateNames(list: seq<ListItem>) {
    forall i, j :: 0 <= i < j < |list| ==> !SameName(list[i].productName, list[j].productName)
  }

  /** Every entry carries its quantity, as every entry the page creates does. */
  predicate HasQuantities(list: seq<ListItem>) {
    forall i :: 0 <= i < |list| ==> list[i].quantity.Some?
  }

  /** The first entry whose name is `name` up to case. */
  function FindName(list: seq<ListItem>, name: string): (r: Option<nat>)
    ensures r.Some? ==> r.value < |list| && SameName(list[r.value].productName, name)
    ensures r.Some? ==> forall j :: 0 <= j < r.value ==> !SameName(list[j].productName, name)
    ensures r.None? ==> forall j :: 0 <= j < |list| ==> !SameName(list[j].productName, name)
  {
    if list == [] then None
    else if SameName(list[0].productName, name) then Some(0)
    else
      match FindName(list[1..], name)
      case None => None
      case Some(k) => Some(k + 1)
  }

  /** The entry with its quantity one higher. */
  function Bump(item: ListItem): ListItem
    requires item.quantity.Some?
  {
    item.(quantity := Some(item.quantity.value + 1))
  }

  /** The list after `add_to_shopping_list(name, prices)`. */
  function Added(list: seq<ListItem>, name: string, prices: seq<StorePrice>): (r: seq<ListItem>)
    requires HasQuantities(list)
    ensures HasQuantities(r)
    ensures exists k :: 0 <= k < |r| && SameName(r[k].productName, name)
  {
    match FindName(list, name)
    case Some(k) =>
      var r := list[k := Bump(list[k])];
      assert r[k].productName == list[k].productName;
      r
    case None =>
      var r := list + [ListItem(name, Some(1), prices)];
      assert r[|list|].productName == name;
      r
  }

  /** The list after `remove_from_shopping_list(index)`. */
  function Removed(list: seq<ListItem>, index: int): (r: seq<ListItem>)
    ensures |r| == if 0 <= index < |list| then |list| - 1 else |list|
    ensures forall j :: 0 <= j < |r| ==> r[j] in list
  {
    if 0 <= index < |list| then list[..index] + list[index + 1..] else list
  }

  /** The number of pieces on the list. */
  function TotalQuantity(list: seq<ListItem>): int {
    if list == [] then 0 else TotalQuantity(list[..|list| - 1]) + Quantity(list[|list| - 1])
  }

  // ---------------------------------------------------------------- the session

  class Session {
    var shoppingList: seq<ListItem>
    var comparisonResults: seq<Comparison>

    ghost predicate Valid()
      reads this
    {
      HasQuantities(shoppingList)
    }

    /** A fresh session: an empty list and no comparison. */
    constructor ()
      ensures Valid()
      ensures shoppingList == [] && comparisonResults == []
    {
      shoppingList := [];
      comparisonResults := [];
    }

    /** `add_to_shopping_list`: the first entry with the same name up to case gets one more
        piece; with none, a new entry of one piece goes at the end. */
    method AddToShoppingList(productName: string, prices: seq<StorePrice>)
      requires Valid()
      modifies this
      ensures Valid()
      ensures shoppingList == Added(old(shoppingList), productName, prices)
      ensures comparisonResults == old(comparisonResults)
    {
      for i := 0 to |shoppingList|
        invariant forall j :: 0 <= j < i ==> !SameName(shoppingList[j].productName, productName)
      {
        var item := shoppingList[i];
        if Lower(item.productName) == Lower(productName) {
          shoppingList := shoppingList[i := item.(quantity := Some(item.quantity.value + 1))];
          return;
        }
      }
      shoppingList := shoppingList + [ListItem(productName, Some(1), prices)];
    }

    /** `remove_from_shopping_list`: the entry at `index` goes when the index is in range;
        any other index, negative ones included, changes nothing. */
    method RemoveFromShoppingList(index: int)
      requires Valid()
      modifies this
      ensures Valid()
      ensures shoppingList == Removed(old(shoppingList), index)
      ensures comparisonResults == old(comparisonResults)
    {
      if 0 <= index < |shoppingList| {
        shoppingList := shoppingList[..index] + shoppingList[index + 1..];
      }
    }

    /** The clear button: no list and no comparison. */
    method ClearList()
      modifies this
      ensures Valid()
      ensures shoppingList == [] && comparisonResults == []
    {
      shoppingList := [];
      comparisonResults := [];
    }

    /** `calculate_comparison`: nothing happens for an empty list; otherwise the comparison
        of every option of the given stores replaces the last one. The stores (read from the
        database) and the bonus-card setting are inputs. */
    method CalculateComparison(supermarkets: seq<Supermarket>, hasBonusCard: bool)
      modifies this
      ensures shoppingList == old(shoppingList)
      ensures old(shoppingList) == [] ==> comparisonResults == old(comparisonResults)
      ensures old(shoppingList) != [] ==>
        comparisonResults == CostCalculator.CompareAll(shoppingList, supermarkets, hasBonusCard)
    {
      if shoppingList == [] {
        return;
      }
      var options := CostCalculator.CompareAllOptions(shoppingList, supermarkets, hasBonusCard);
      comparisonResults := options;
    }
  }

  // ---------------------------------------------------------------- properties of the edits

  lemma {:induction false} TotalQuantityUpdate(list: seq<ListItem>, k: nat, x: ListItem)
    requires k < |list|
    ensures TotalQuantity(list[k := x]) == TotalQuantity(list) - Quantity(list[k]) + Quantity(x)
  {
    var n := |list| - 1;
    if k < n {
      assert list[k := x][..n] == list[..n][k := x];
      TotalQuantityUpdate(list[..n], k, x);
    } else {
      assert list[k := x][..n] == list[..n];
    }
  }

  lemma TotalQuantityAppend(list: seq<ListItem>, x: ListItem)
    ensures TotalQuantity(list + [x]) == TotalQuantity(list) + Quantity(x)
  {
    assert (list + [x])[..|list|] == list;
  }

  /** Adding puts exactly one more piece on the list. */
  lemma AddedOneMorePiece(list: seq<ListItem>, name: string, prices: seq<StorePrice>)
    requires HasQuantities(list)
    ensures TotalQuantity(Added(list, name, prices)) == TotalQuantity(list) + 1
    ensures HasQuantities(Added(list, name, prices))
  {
    match FindName(list, name)
    case Some(k) => TotalQuantityUpdate(list, k, Bump(list[k]));
    case None => TotalQuantityAppend(list, ListItem(name, Some(1), prices));
  }

  /** Adding a name already on the list, up to case, bumps the first such entry and leaves
      its prices, its name, every other entry and the length alone; adding a new name
      appends an entry of one piece and leaves the earlier entries alone. */
  lemma AddedExistingOrNew(list: seq<ListItem>, name: string, prices: seq<StorePrice>)
    requires HasQuantities(list)
    ensures var r := Added(list, name, prices);
      (exists i :: 0 <= i < |list| && SameName(list[i].productName, name)) ==>
        && |r| == |list|
        && exists k :: 0 <= k < |list| && SameName(list[k].productName, name)
             && (forall j :: 0 <= j < k ==> !SameName(list[j].productName, name))
             && r[k] == list[k].(quantity := Some(list[k].quantity.value + 1))
             && forall j :: 0 <= j < |list| && j != k ==> r[j] == list[j]
    ensures var r := Added(list, name, prices);
      (forall i :: 0 <= i < |list| ==> !SameName(list[i].productName, name)) ==>
        r[..|list|] == list && r == list + [ListItem(name, Some(1), prices)]
  {
    var r := Added(list, name, prices);
    match FindName(list, name)
    case Some(k) =>
    case None =>
      assert r[..|list|] == list;
  }

  /** Adding never creates two entries with the same name up to case. */
  lemma AddedKeepsNamesDistinct(list: seq<ListItem>, name: string, prices: seq<StorePrice>)
    requires HasQuantities(list) && NoDuplicateNames(list)
    ensures NoDuplicateNames(Added(list, name, prices))
  {
    var r := Added(list, name, prices);
    match FindName(list, name)
    case Some(k) =>
      assert forall j :: 0 <= j < |r| ==> r[j].productName == list[j].productName;
    case None =>
      forall i, j | 0 <= i < j < |r|
        ensures !SameName(r[i].productName, r[j].productName)
      {
        if j == |list| {
          assert r[j].productName == name;
        }
      }
  }

  /** Removing at an index in range deletes exactly that entry and keeps the rest in
      order; an index out of range changes nothing. */
  lemma RemovedExactlyOne(list: seq<ListItem>, index: int)
    ensures 0 <= index < |list| ==>
      var r := Removed(list, index);
      && |r| == |list| - 1
      && (forall j :: 0 <= j < index ==> r[j] == list[j])
      && (forall j :: index <= j < |r| ==> r[j] == list[j + 1])
    ensures !(0 <= index < |list|) ==> Removed(list, index) == list
  {
  }

  /** Removing keeps names distinct and quantities present, and takes the removed entry's
      pieces off the total. */
  lemma {:induction false} RemovedKeepsInvariants(list: seq<ListItem>, index: int)
    requires HasQuantities(list) && NoDuplicateNames(list)
    ensures HasQuantities(Removed(list, index)) && NoDuplicateNames(Removed(list, index))
    ensures 0 <= index < |list| ==>
      TotalQuantity(Removed(list, index)) == TotalQuantity(list) - Quantity(list[index])
  {
    if 0 <= index < |list| {
      var r := Removed(list, index);
      forall i, j | 0 <= i < j < |r|
        ensures !SameName(r[i].productName, r[j].productName)
      {
        var i' := if i < index then i else i + 1;
        var j' := if j < index then j else j + 1;
        assert r[i] == list[i'] && r[j] == list[j'];
      }
      TotalQuantityRemove(list, index);
    }
  }

  lemma {:induction false} TotalQuantityRemove(list: seq<ListItem>, index: nat)
    requires index < |list|
    ensures TotalQuantity(list[..index] + list[index + 1..]) == TotalQuantity(list) - Quantity(list[index])
  {
    var n := |list| - 1;
    var init := list[..n];
    assert TotalQuantity(list) == TotalQuantity(init) + Quantity(list[n]);
    if index == n {
      assert list[..index] + list[index + 1..] == init;
    } else {
      var rest := init[..index] + init[index + 1..];
      TotalQuantityRemove(init, index);
      assert init[index] == list[index];
      assert list[..index] + list[index + 1..] == rest + [list[n]];
      TotalQuantityAppend(rest, list[n]);
    }
  }
}
