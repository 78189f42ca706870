# Supermarket price comparison — verified model

This project models the price-comparison core of a Dutch supermarket price-comparison tool.
The tool searches six supermarkets (Albert Heijn, Jumbo, Dirk, Plus, Flink, Picnic), keeps a
shopping list and tells the user where the list is cheapest once delivery or pickup is counted.

The model covers six parts of the program:

- **Cost calculator** (`cost_calculator.dfy`). It covers the best price of an offer, the product total of a
  shopping list at one store, and the delivery and pickup fee rules with the inclusive
  free-delivery threshold. It then builds every store × method option, sorts them stably by
  total, fills in the savings against the dearest option and flags the first option as the
  cheapest. Finally it computes the price spread of one item.
- **Product matcher** (`product_matcher.dfy`). It covers the first-best match of a query within one store's
  results, matching in every store, greedy anchor-based grouping of similar products, exact
  matching by name and brand, and the per-store price view. The name-similarity score is a
  parameter (`Ratio`): the program gets it from a fuzzy-matching library.
- **Smart search** (`smart_search.dfy`). It covers query variations, the merge of Albert Heijn's own results with
  the demo catalogue (one de-duplicated, price-sorted list per store), the cheapest product per
  store, and the basket comparison over a whole shopping list. Albert Heijn's product search is a
  parameter (`ApiSearch`).
- **Demo catalogue search** (`mock_data.dfy`). It covers keyword matching with a product-name fallback, and
  bucketing into the six stores with the product URL built from store and name. The catalogue
  table is a parameter.
- **Text parsers** (`base_scraper.dfy`). These read a price out of price text and a unit and size
  out of product text.
- **Shopping-list page** (`shopping_list_ui.dfy`). A `Session` class holds the shopping list and the last
  comparison. Its methods add an item, remove one by position, clear everything and run the
  comparison.

`catalog.dfy` holds the six stores' fees and thresholds as constants, and the worked scenarios
of the calculator's unit tests stated as lemmas over them.

Representation choices:

- **Money.** Money is in integer cents, so `round(x, 2)` is the identity. An infeasible
  pickup (`float("inf")`) is the `Infinite` case of `Cost`.
- **Optional prices.** Sale prices, bonus prices and thresholds are `Option`s. A zero counts as
  absent, as it does under Python truthiness (`Truthy`).
- **Price dictionaries.** An item's price dictionary is a sequence of `(store, price)` pairs in
  insertion order.
- **Result dictionaries.** A per-store result dictionary is a sequence of `(store, list)` pairs
  in key order.
- **Sorting.** Python's stable `list.sort(key=…)` is the stable insertion sort `Sorting.SortBy`.
  A stable sort's result is unique, so the model's order is the program's.

## Model

| member | source | states |
|---|---|---|
| Models.Plus | src/services/cost_calculator.py:91 | an option's total is infinite exactly when its fee is infinite |
| Models.PriceAt | src/services/cost_calculator.py:47-48 | a price found for a store comes from an entry for that store; a store with no entry has no price |
| Models.PriceAtDistinct | src/services/cost_calculator.py:159-160 | in a dictionary (each store once) the lookup of an entry's store yields that entry's price |
| Sorting.SortByPermutes | src/services/cost_calculator.py:128-129 | sorting keeps every element, as often as before (a permutation) |
| Sorting.SortBySorted | src/services/cost_calculator.py:128-129 | with a total preorder as key order, the sorted list is in non-decreasing key order |
| Sorting.SortByStable | src/services/cost_calculator.py:128-129 | elements with equal keys keep their original relative order (the sort is stable) |
| Sorting.SortByDistinct | src/services/smart_search.py:110-114 | sorting a list whose keys are distinct leaves them distinct |
| Text.Lower | src/services/smart_search.py:37 | lower-casing keeps the length and maps every character through the ASCII `lower()` |
| Text.StripTrims | src/services/smart_search.py:37 | `strip()` yields the part of the text after its leading blanks, starting and ending with a non-blank; everything cut off on either side is whitespace |
| Text.Contains | src/services/smart_search.py:41 | `needle in haystack` holds exactly when the needle is a prefix of some suffix of the haystack |
| Text.IsSpace | src/scrapers/base_scraper.py:94 | Python's whitespace class; no whitespace character is a digit, a point or a comma, so deleting whitespace cannot touch a number |
| CostCalculator.MinOf | src/services/cost_calculator.py:165 | `min` of a non-empty list is an element and at most every element |
| CostCalculator.MaxOf | src/services/cost_calculator.py:166 | `max` of a non-empty list is an element and at least every element |
| CostCalculator.BestPrice | src/services/cost_calculator.py:23-35 | the best price is one of the candidate prices and never exceeds the regular price, a non-zero sale price, or a non-zero bonus price when the customer has the card |
| CostCalculator.CalculateProductTotal | src/services/cost_calculator.py:37-54 | the accumulation loop computes the product total: the sum over items of price × quantity for items priced at the store |
| CostCalculator.ProductTotal | src/services/cost_calculator.py:44-54 | a non-zero product total needs at least one item priced at the store |
| CostCalculator.ProductTotalAppend | src/services/cost_calculator.py:44-54 | the product total of two lists put together is the sum of their product totals |
| CostCalculator.UnpricedItemAddsNothing | src/services/cost_calculator.py:50-52 | an item without a price at the store contributes nothing to that store's total |
| CostCalculator.ProductTotalNonNegative | src/services/cost_calculator.py:44-54 | with non-negative quantities and prices, the product total is non-negative |
| CostCalculator.CalculateDeliveryCost | src/services/cost_calculator.py:56-73 | pickup costs the store's pickup fee where pickup is available and is infinite exactly where it is not; any other method is delivery, costing 0 when a non-zero threshold is set and reached (inclusive) and the store's delivery fee otherwise |
| CostCalculator.FreeDeliveryIff | src/services/cost_calculator.py:68-73 | with a non-zero delivery fee, delivery is free exactly when a non-zero threshold is set and the product total reaches it (inclusive) |
| CostCalculator.DeliveryCostMonotone | src/services/cost_calculator.py:69-73 | a larger product total never makes delivery dearer |
| CostCalculator.TotalCost | src/services/cost_calculator.py:75-101 | an option's total is its product total plus its fee; the product total is the store's total, the fee follows the fee rules, savings is 0 and the option is not marked cheapest |
| CostCalculator.CalculateTotalCost | src/services/cost_calculator.py:75-101 | the method returns the option `TotalCost` describes |
| CostCalculator.MaxTotal | src/services/cost_calculator.py:133 | the largest total is some option's total and no option's total exceeds it |
| CostCalculator.WithSavings | src/services/cost_calculator.py:136-137 | each option's savings becomes the dearest total minus its own; nothing else changes |
| CostCalculator.Unranked | src/services/cost_calculator.py:128-141 | the options with the ranking fields (savings, cheapest flag) reset, everything else unchanged |
| CostCalculator.CompareAllOptions | src/services/cost_calculator.py:103-143 | the method's loops, in-place sort and savings and cheapest updates produce the ranked comparison `CompareAll` |
| CostCalculator.CandidatesComplete | src/services/cost_calculator.py:112-126 | the options are one delivery option per store plus one pickup option per store with pickup, each with a finite total |
| CostCalculator.Candidates | src/services/cost_calculator.py:112-126 | every collected option has a finite total and carries the shopping list |
| CostCalculator.CompareAll | src/services/cost_calculator.py:103-143 | the ranked comparison has exactly one entry per collected option and its first entry is marked cheapest |
| CostCalculator.TotalLeIsTotalPreorder | src/services/cost_calculator.py:129 | ordering options by total is a total preorder |
| CostCalculator.SortedCandidates | src/services/cost_calculator.py:112-129 | the sorted options are a permutation of the candidates, sorted by total, finite and not yet ranked |
| CostCalculator.CompareAllCount | src/services/cost_calculator.py:112-126 | the comparison has as many options as stores plus stores with pickup; it is empty exactly when there are no stores |
| CostCalculator.CompareAllSortedCheapestFirst | src/services/cost_calculator.py:128-141 | the result is sorted by total and only its first option is marked cheapest, even when totals tie |
| CostCalculator.MaxTotalIsLast | src/services/cost_calculator.py:132-134 | on options sorted by total, the maximum is the last option's total |
| CostCalculator.RankSavings | src/services/cost_calculator.py:131-137 | after ranking, each option's savings is the last (dearest) total minus its own total |
| CostCalculator.CompareAllSavings | src/services/cost_calculator.py:131-137 | every option saves the dearest total minus its own total; every saving is non-negative and the dearest option saves 0 |
| CostCalculator.SavingsNonNegative | src/services/cost_calculator.py:136-137 | savings measured against the dearest option are never negative, and zero for the dearest |
| CostCalculator.CompareAllStablePermutation | src/services/cost_calculator.py:128-129 | apart from the ranking fields, the result is the candidate list reordered, with options of equal total kept in store order |
| CostCalculator.CompareAllOptionsOffered | src/services/cost_calculator.py:112-126 | every option is a store's delivery option or, where offered, its pickup option, and its total is product total plus fee |
| CostCalculator.GetCheapestOption | src/services/cost_calculator.py:145-153 | the cheapest option is the comparison's first option, and none exactly when the comparison is empty |
| CostCalculator.ValidPrices | src/services/cost_calculator.py:160 | the valid prices are exactly the prices present in the dictionary |
| CostCalculator.FirstPricedAt | src/services/cost_calculator.py:168 | the first entry holding a given price |
| CostCalculator.ValidPriceRange | src/services/cost_calculator.py:165-166 | the minimum and maximum valid prices occur in the dictionary, and every price lies between them |
| CostCalculator.FirstCheapest | src/services/cost_calculator.py:168 | the first entry with the minimum price is preceded only by absent or dearer prices |
| CostCalculator.CalculateItemSavings | src/services/cost_calculator.py:155-175 | fewer than two prices give the zero result; otherwise min ≤ max, savings = max − min, every price lies in between, and the cheapest store is the first entry with the minimum price |
| CostCalculator.ItemSavingsCheapestStore | src/services/cost_calculator.py:168 | the cheapest store's own price is the minimum |
| ProductMatcher.Similarity | src/services/product_matcher.py:16-20 | the similarity lies in [0, 1] when the ratio lies in [0, 100] |
| ProductMatcher.SimilarityIgnoresCase | src/services/product_matcher.py:19 | the similarity does not depend on letter case in either name |
| ProductMatcher.ScanFindsFirstTop | src/services/product_matcher.py:29-36 | the strict `>` scan ends on the first product with the top score when that score is above 0, and on no product (score 0) otherwise |
| ProductMatcher.Scan | src/services/product_matcher.py:29-37 | the best score never drops below 0.0, and a best product exists only with a positive score and is one of the products |
| ProductMatcher.BestMatch | src/services/product_matcher.py:22-40 | a best match is always one of the store's products |
| ProductMatcher.BestMatchIsFirstTop | src/services/product_matcher.py:22-40 | an empty list gives no match; a product is returned exactly when it is the first with the top score and that score is above 0 and reaches the threshold |
| ProductMatcher.FindBestMatch | src/services/product_matcher.py:22-40 | the scan loop returns `BestMatch` |
| ProductMatcher.MatchProductsAcrossStores | src/services/product_matcher.py:42-57 | one entry per store, in order, each the best match within that store's own list |
| ProductMatcher.JoinersIncreasing | src/services/product_matcher.py:78-85 | the members the inner loop adds come in increasing index order |
| ProductMatcher.JoinersExactly | src/services/product_matcher.py:78-85 | the inner loop adds exactly the unused indices whose similarity to the anchor reaches the threshold |
| ProductMatcher.JoinersNext | src/services/product_matcher.py:78-85 | one step of the inner loop adds index `j` exactly when it is unused and close to the anchor |
| ProductMatcher.Grouping | src/services/product_matcher.py:66-87 | the groups and used indices after the outer loop's first `m` steps only mention indices of the input |
| ProductMatcher.GrowGroup | src/services/product_matcher.py:74-85 | the inner loop leaves the group as the anchor plus its joiners and adds the joiners to the used set |
| ProductMatcher.GroupingNext | src/services/product_matcher.py:69-87 | a used index leaves the groups alone; an unused one appends its new group and marks the group's indices used |
| ProductMatcher.VisitIndex | src/services/product_matcher.py:69-87 | one pass of the outer loop moves the groups and used set from step `i` to step `i + 1` |
| ProductMatcher.GroupSimilarProducts | src/services/product_matcher.py:59-89 | the nested loops return the products of the groups `Grouping` describes |
| ProductMatcher.NewGroup | src/services/product_matcher.py:73-85 | a new group holds its anchor and fresh joiners, each once |
| ProductMatcher.UsedStep | src/services/product_matcher.py:75-87 | after a new group, the used indices are still exactly those in the groups |
| ProductMatcher.NoDupStep | src/services/product_matcher.py:75-87 | after a new group of unused indices, no index appears twice among the groups |
| ProductMatcher.GroupingUsed | src/services/product_matcher.py:67-87 | the used indices are exactly those in the groups, and every visited index is used |
| ProductMatcher.GroupingNoDup | src/services/product_matcher.py:67-87 | no index is in two groups, nor twice in one |
| ProductMatcher.WellShapedAppend | src/services/product_matcher.py:73-87 | appending a group that starts at the lowest unused index and whose members are close to it keeps the groups well shaped |
| ProductMatcher.NewGroupShape | src/services/product_matcher.py:73-85 | a new group is its anchor followed by higher indices in increasing order, each close to the anchor |
| ProductMatcher.GroupingWellShaped | src/services/product_matcher.py:69-87 | every group starts at its anchor, the lowest index not yet used; its members follow in input order, each close to the anchor |
| ProductMatcher.GreedyStep | src/services/product_matcher.py:78-87 | a group that takes every unused index close to its anchor keeps the grouping greedy |
| ProductMatcher.GroupingGreedy | src/services/product_matcher.py:69-87 | an index left out of a group was either used earlier or not close to that group's anchor; only the anchor is compared |
| ProductMatcher.GroupsPartition | src/services/product_matcher.py:59-89 | an empty input gives no groups; otherwise every index is in exactly one group, and the groups are well shaped and greedy |
| ProductMatcher.FlattenPickAll | src/services/product_matcher.py:84-87 | the groups' products, concatenated, are the products at the groups' indices in order |
| ProductMatcher.PickPermutes | src/services/product_matcher.py:84-87 | reordering indices reorders the products taken at them |
| ProductMatcher.IndicesPermute | src/services/product_matcher.py:69-87 | a list holding each index below `n` exactly once is a reordering of 0..n-1 |
| ProductMatcher.GroupsArePermutation | src/services/product_matcher.py:59-89 | the groups, concatenated, are a permutation of the input products |
| ProductMatcher.FindExactMatch | src/services/product_matcher.py:91-106 | the result is the first product whose name matches up to case and whose brand passes; none when no product does |
| ProductMatcher.MissingBrandPasses | src/services/product_matcher.py:97-101 | with the brand blank on either side, only the name decides the match |
| ProductMatcher.PriorityPrice | src/services/product_matcher.py:122-124 | the view's best price is the non-zero bonus price, else the non-zero sale price, else the regular price |
| ProductMatcher.GetPriceComparison | src/services/product_matcher.py:108-130 | one entry per store, in order: no view without a match, else the matched product's prices with the priority best price |
| ProductMatcher.PriorityIsNotMinimum | src/services/product_matcher.py:122-124 | a bonus price above the sale price still wins the view, while the calculator's best price is the sale price |
| ProductMatcher.PriorityAgreesWhenOrdered | src/services/product_matcher.py:122-124 | when the prices present are ordered bonus ≤ sale ≤ regular, the view's best price is the calculator's best price |
| SmartSearch.LookupVariations | src/services/smart_search.py:39-42 | nothing exactly when no key is a substring of the query or contains it; otherwise the variations of the first such key |
| SmartSearch.VariationsFor | src/services/smart_search.py:39-45 | the variations are never empty: the first matching key's list, or the query and "ah " + query when no key matches |
| SmartSearch.VariationsNonEmpty | src/services/smart_search.py:9-22 | every entry of the variation table has at least one variation |
| SmartSearch.GetSearchVariations | src/services/smart_search.py:35-45 | the variations of the lowered, stripped query are never empty |
| SmartSearch.DedupSnoc | src/services/smart_search.py:74-79 | a product is kept exactly when its name-and-price key has not been seen |
| SmartSearch.DedupKeys | src/services/smart_search.py:74-79 | the kept products have distinct keys, and every key of the input is kept |
| SmartSearch.DedupFirst | src/services/smart_search.py:74-79 | each kept product is the first input product with its key |
| SmartSearch.DedupMembers | src/services/smart_search.py:74-79 | every kept product is an input product |
| SmartSearch.DedupSpec | src/services/smart_search.py:96-98 | de-duplication keeps exactly the first product of every key |
| SmartSearch.Dedup | src/services/smart_search.py:74-79 | de-duplication never lengthens the list and keeps only rows of the input |
| SmartSearch.Collected | src/services/smart_search.py:85-108 | a store's list holds only that store's demo rows, plus, for Albert Heijn, its own search results (the corrected skip of the Findings) |
| SmartSearch.SmartResults | src/services/smart_search.py:53-60 | the merged result has exactly the six store keys, in order; each store's list is built with the corrected Albert Heijn demo-row skip (see Findings), not the skip as written at line 93 |
| SmartSearch.AddUnseen | src/services/smart_search.py:74-79 | the loop over one response extends the de-duplicated list and the seen keys by that response |
| SmartSearch.FetchedStep | src/services/smart_search.py:71-73 | the responses so far, plus one more variation's response |
| SmartSearch.SearchAlbertHeijn | src/services/smart_search.py:68-83 | Albert Heijn's list is the de-duplicated concatenation of the responses to every variation |
| SmartSearch.CollectedStep | src/services/smart_search.py:90-108 | one more demo row changes only its own store's list |
| SmartSearch.SkipRowStep | src/services/smart_search.py:92-98 | a skipped demo row (Albert Heijn with own results, or a seen key) leaves the lists as the corrected merge describes |
| SmartSearch.AppendRowStep | src/services/smart_search.py:96-108 | an appended demo row extends its store's list and seen keys as the corrected merge describes |
| SmartSearch.AddCategoryRows | src/services/smart_search.py:90-108 | the loop over one category's rows keeps every store's list equal to the corrected merge of the rows so far |
| SmartSearch.AddMockRows | src/services/smart_search.py:86-108 | the loop over the catalogue yields the corrected merge of every matching keyword's rows |
| SmartSearch.StartConsistent | src/services/smart_search.py:53-62 | before the merge, Albert Heijn holds its own results and the other stores hold nothing |
| SmartSearch.ListsGiveResults | src/services/smart_search.py:110-120 | sorting the merged lists by price gives the search's result |
| SmartSearch.SmartSearch | src/services/smart_search.py:48-120 | the search returns `SmartResults`: every store's merged list, sorted by price, with the corrected Albert Heijn demo-row skip (see Findings); when Albert Heijn's own search finds nothing it keeps every new-key demo row where the program keeps only the first |
| SmartSearch.PriceLeIsTotalPreorder | src/services/smart_search.py:112-114 | ordering by `bonus_card_price or regular_price` is a total preorder |
| SmartSearch.MockRowsMembers | src/services/smart_search.py:90-108 | a store's demo rows are exactly the rows of that store from the matching keywords |
| SmartSearch.SmartResultsSortedDistinct | src/services/smart_search.py:96-114 | every store's list is sorted by price and holds no two products with the same key |
| SmartSearch.SortedSameProducts | src/services/smart_search.py:110-114 | sorting by price keeps the same products, as often, and the same keys |
| SmartSearch.AlbertHeijnResults | src/services/smart_search.py:68-99 | when its own search found something, Albert Heijn's list is exactly those results; otherwise it is its demo rows, one per key, with every key kept |
| SmartSearch.SmartResultsAt | src/services/smart_search.py:110-114 | a store's list is its collected list (`Collected`, with the corrected Albert Heijn skip) sorted by price |
| SmartSearch.DemoList | src/services/smart_search.py:90-108 | a store's list built from demo rows has exactly their keys, and only that store's rows |
| SmartSearch.DemoStoreResults | src/services/smart_search.py:86-108 | every other store's list holds one product per key among its matching demo rows, each labelled with that store |
| SmartSearch.RowsLabelled | src/services/smart_search.py:99-107 | products taken from a store's demo rows carry that store as supermarket |
| SmartSearch.AsWrittenKeepsFirstRowOnly | src/services/smart_search.py:93-94 | as written, once Albert Heijn's list is non-empty every later demo row for it is skipped |
| SmartSearch.AlbertHeijnAsWritten | src/services/smart_search.py:90-98 | the merge loop as written for Albert Heijn: it only appends to the list it is given, and only rows it was handed |
| SmartSearch.AsWrittenDropsDemoRows | src/services/smart_search.py:87-99 | two Albert Heijn demo rows with different keys: the corrected merge keeps both, the merge as written keeps only the first |
| SmartSearch.First | src/services/smart_search.py:127-130 | no first product exactly for an empty list |
| SmartSearch.GetCheapestPerStore | src/services/smart_search.py:123-132 | one entry per store, in order; none exactly for an empty list, otherwise one of that store's products |
| SmartSearch.CheapestPerStoreIsCheapest | src/services/smart_search.py:123-132 | on merged results, the pick per store is priced at most every product of that store |
| SmartSearch.Tally | src/services/smart_search.py:158-180 | per store, found plus missing items equals the number of list items, with one detail per found item |
| SmartSearch.TallyStep | src/services/smart_search.py:158-180 | the totals after one more item are the earlier totals with that item counted |
| SmartSearch.TallyItems | src/services/smart_search.py:151-180 | the loop over the list yields every store's totals as `Tally` describes |
| SmartSearch.AddItem | src/services/smart_search.py:166-180 | one item adds price × quantity and a detail to each store that has a product, and a missing item to each store without |
| SmartSearch.BuildRows | src/services/smart_search.py:181-204 | one row per configured store, in order, built from that store's totals |
| SmartSearch.BasketDelivery | src/services/smart_search.py:185-191 | the fee is 0 or the store's delivery fee, and non-zero only when delivery is included and the threshold is not reached |
| SmartSearch.Basket | src/services/smart_search.py:180-213 | the comparison has one row per configured store and its first row is marked cheapest |
| SmartSearch.CalculateBasketComparison | src/services/smart_search.py:135-213 | the method returns the basket comparison `Basket`, built on the corrected search, so Albert Heijn's row can differ from the program's when its own search finds nothing (see Findings) |
| SmartSearch.BasketLeIsTotalPreorder | src/services/smart_search.py:207 | ordering by (missing items, total) is a total preorder |
| SmartSearch.BasketRowsAddUp | src/services/smart_search.py:166-204 | every row's found and missing counts add up to the list's length, and its total is products plus fee |
| SmartSearch.PermutationAddsUp | src/services/smart_search.py:207 | reordering rows keeps every row's counts and totals |
| SmartSearch.MarkCheapestFirstOnly | src/services/smart_search.py:210-211 | only the first row is marked cheapest, and nothing else changes |
| SmartSearch.BasketProperties | src/services/smart_search.py:135-213 | one row per store (a permutation of the per-store rows); found + missing = list length; total = products + fee; sorted by (missing, total); only the first row is marked cheapest |
| SmartSearch.BasketDeliveryIsDeliveryCost | src/services/smart_search.py:184-191 | with delivery included the fee is the calculator's delivery fee; without, it is 0 |
| MockData.StoreKeysDistinct | src/services/mock_data.py:110-117 | the six result keys are distinct |
| MockData.Slug | src/services/mock_data.py:127 | the URL slug has the name's length, and each character is the name's character lower-cased, a blank becoming '-' |
| MockData.MockResults | src/services/mock_data.py:110-117 | the result has exactly the six store keys, in order, even when nothing matches |
| MockData.GetMockResults | src/services/mock_data.py:92-132 | the method returns `MockResults` |
| MockData.FindMatches | src/services/mock_data.py:94-107 | the matching loops return the keyword hits, or the name hits when there are no keyword hits |
| MockData.AddNameHits | src/services/mock_data.py:105-107 | one category's name scan appends exactly its rows whose lowered name contains the query |
| MockData.BucketStep | src/services/mock_data.py:119-129 | one more hit extends only its own store's bucket |
| MockData.GroupByStore | src/services/mock_data.py:110-129 | each store's bucket holds that store's hits, in matching order |
| MockData.KeywordProductsMembers | src/services/mock_data.py:98-100 | the keyword hits are exactly the rows of the keywords that are substrings of the query or contain it |
| MockData.KeywordProductsInOrder | src/services/mock_data.py:98-100 | a matching keyword's rows appear together, in table order, after the hits of earlier keywords |
| MockData.KeywordProductsEmpty | src/services/mock_data.py:98-103 | there are no keyword hits exactly when no matching keyword has a row |
| MockData.NameFilterMembers | src/services/mock_data.py:105-107 | the name scan keeps exactly the rows whose lowered name contains the query |
| MockData.NameProductsMembers | src/services/mock_data.py:103-107 | the fallback hits are exactly the table's rows whose lowered name contains the query |
| MockData.FallbackOnlyWithoutKeywordHits | src/services/mock_data.py:103-107 | the name fallback is used only when the keywords yield nothing |
| MockData.MatchingFromTable | src/services/mock_data.py:94-107 | every hit is a row of the table |
| MockData.Matching | src/services/mock_data.py:96-107 | the search finds nothing exactly when neither the keyword search nor the name fallback finds anything |
| MockData.BucketMembers | src/services/mock_data.py:119-129 | a store's bucket holds exactly the converted hits of that store |
| MockData.MockResultsContents | src/services/mock_data.py:119-129 | under each key are exactly that store's hits, with name, brand and prices copied, the store as supermarket and the product URL |
| MockData.BucketAppend | src/services/mock_data.py:119-129 | bucketing two hit lists in sequence appends their buckets, so order follows matching order |
| MockData.BucketsPartition | src/services/mock_data.py:119-129 | every hit lands in exactly one of the six buckets |
| MockData.MockResultsSize | src/services/mock_data.py:94-132 | the buckets together hold exactly as many products as there are hits |
| BaseScraper.Span | src/scrapers/base_scraper.py:98 | the longest prefix whose characters all pass the test |
| BaseScraper.SpanOfPrefix | src/scrapers/base_scraper.py:98 | a passing prefix followed by a failing character is the span |
| BaseScraper.DigitsBelowPow10 | src/scrapers/base_scraper.py:100 | a run of n digits is worth less than 10^n |
| BaseScraper.DecimalValue | src/scrapers/base_scraper.py:100 | the value of a number text is never negative |
| BaseScraper.DecimalValueOfInteger | src/scrapers/base_scraper.py:100 | a digit run is worth its integer value |
| BaseScraper.DecimalValueOfParts | src/scrapers/base_scraper.py:100 | `d.f` is worth the integer part plus the fraction |
| BaseScraper.FractionBelowOne | src/scrapers/base_scraper.py:100 | the fraction digits are worth less than one |
| BaseScraper.Clean | src/scrapers/base_scraper.py:94-96 | the cleaned text holds no euro sign, no whitespace and no comma |
| BaseScraper.CleanAppend | src/scrapers/base_scraper.py:94-96 | cleaning works character by character |
| BaseScraper.CleanKeepsDigits | src/scrapers/base_scraper.py:94-96 | cleaning keeps exactly the digits' presence |
| BaseScraper.PriceText | src/scrapers/base_scraper.py:98 | the matched text is a prefix of the `\d+\.?\d*` shape (a digit, then digits and at most one '.'), and it cannot be extended: the next character is no digit, and no '.' when the match has none |
| BaseScraper.FirstDigit | src/scrapers/base_scraper.py:98 | the position of the leftmost digit |
| BaseScraper.SearchPriceFirstDigit | src/scrapers/base_scraper.py:98-101 | the search finds a number exactly when there is a digit, and it is the longest match at the leftmost digit |
| BaseScraper.SearchPrice | src/scrapers/base_scraper.py:98 | a number found is non-empty, starts with a digit and is no longer than the text |
| BaseScraper.ParsePrice | src/scrapers/base_scraper.py:89-101 | a parsed price is never negative |
| BaseScraper.ParsePriceOfNothing | src/scrapers/base_scraper.py:91-92 | no text and empty text give no price |
| BaseScraper.ParsePriceFirstNumber | src/scrapers/base_scraper.py:91-101 | text has a price exactly when it holds a digit, and the price is the value of the first number of the cleaned text |
| BaseScraper.FirstHit | src/scrapers/base_scraper.py:116-120 | the first pattern that matches, and none only when no pattern matches |
| BaseScraper.SearchUnit | src/scrapers/base_scraper.py:117 | a pattern's leftmost match in the text, and none only when it matches nowhere |
| BaseScraper.MatchAt | src/scrapers/base_scraper.py:109-113 | a size matched at a position is a non-empty prefix of the text there, starting with a digit |
| BaseScraper.MatchAtShape | src/scrapers/base_scraper.py:109-113 | the captured size has the shape `\d+`, or `\d+[.,]\d+` where the pattern allows a fraction; no digit follows it; after it and any blanks comes the pattern's unit word |
| BaseScraper.MatchAtFindsWhole | src/scrapers/base_scraper.py:109-113 | a whole number followed by blanks and a pattern's unit word is matched, and the number is captured |
| BaseScraper.MatchAtFindsFraction | src/scrapers/base_scraper.py:109-112 | for a pattern with a fraction, digits, a '.' or ',' and digits, then blanks and the unit word, are matched and the whole number is captured |
| BaseScraper.SizeTextOfFraction | src/scrapers/base_scraper.py:109-112 | `\d+(?:[.,]\d+)?` captures digits, separator and digits whole when no digit follows |
| BaseScraper.SizeValue | src/scrapers/base_scraper.py:119 | the size read with a comma as decimal point is never negative |
| BaseScraper.ExtractWith | src/scrapers/base_scraper.py:116-122 | the first matching pattern decides the unit and size; with no match the result is ("stuk", 1.0) |
| BaseScraper.ExtractUnitInfo | src/scrapers/base_scraper.py:103-122 | the unit is one of the five unit names and the size is never negative |
| BaseScraper.PatternUnits | src/scrapers/base_scraper.py:108-114 | every pattern's unit, and the default, is one of the five unit names |
| BaseScraper.ExtractUnitInfoPriority | src/scrapers/base_scraper.py:108-120 | the first pattern in liter, ml, kg, gram, stuk order that matches anywhere wins, wherever later patterns match |
| BaseScraper.ExtractUnitInfoDefault | src/scrapers/base_scraper.py:122 | text matching no pattern gives ("stuk", 1.0) |
| BaseScraper.ExtractUnitInfoIgnoresCase | src/scrapers/base_scraper.py:105 | the result does not depend on letter case |
| BaseScraper.ExtractUnitInfoOneLiter | src/scrapers/base_scraper.py:103-121 | "Melk 1L" is one liter |
| BaseScraper.SearchUnitOneLiter | src/scrapers/base_scraper.py:116-117 | in "melk 1l" the liter pattern first matches at the digit and captures "1" |
| ShoppingListUi.FindName | src/ui/streamlit_app.py:127-130 | the first entry with the same name up to case, or none when no entry has it |
| ShoppingListUi.Added | src/ui/streamlit_app.py:124-136 | after adding, every entry has a quantity and some entry bears the added name up to case |
| ShoppingListUi.Removed | src/ui/streamlit_app.py:139-142 | removing shortens the list by one for an index in range and by nothing otherwise, and keeps only entries of the list |
| ShoppingListUi.Session.constructor | src/ui/streamlit_app.py:55-62 | a new session has an empty list and no comparison |
| ShoppingListUi.Session.AddToShoppingList | src/ui/streamlit_app.py:124-136 | the list becomes `Added(old list, name, prices)`; the comparison is unchanged |
| ShoppingListUi.Session.RemoveFromShoppingList | src/ui/streamlit_app.py:139-142 | the list becomes `Removed(old list, index)`; the comparison is unchanged |
| ShoppingListUi.Session.ClearList | src/ui/streamlit_app.py:204-207 | both the list and the comparison become empty |
| ShoppingListUi.Session.CalculateComparison | src/ui/streamlit_app.py:145-161 | an empty list leaves everything unchanged; otherwise the comparison becomes every option for the list, ranked |
| ShoppingListUi.TotalQuantityUpdate | src/ui/streamlit_app.py:127-130 | replacing one entry changes the total quantity by the difference |
| ShoppingListUi.TotalQuantityAppend | src/ui/streamlit_app.py:132-136 | appending adds the entry's quantity |
| ShoppingListUi.AddedOneMorePiece | src/ui/streamlit_app.py:124-136 | every add raises the total quantity by exactly one and keeps quantities present |
| ShoppingListUi.AddedExistingOrNew | src/ui/streamlit_app.py:124-136 | a known name bumps the first such entry's quantity and leaves its prices, every other entry and the length alone; a new name appends an entry of one piece and leaves earlier entries alone |
| ShoppingListUi.AddedKeepsNamesDistinct | src/ui/streamlit_app.py:124-136 | adding never creates two entries with the same name up to case |
| ShoppingListUi.RemovedExactlyOne | src/ui/streamlit_app.py:139-142 | an index in range deletes exactly that entry and keeps the rest in order; any other index, negative ones included, changes nothing |
| ShoppingListUi.RemovedKeepsInvariants | src/ui/streamlit_app.py:139-142 | removing keeps names distinct and quantities present, and takes the entry's pieces off the total |
| ShoppingListUi.TotalQuantityRemove | src/ui/streamlit_app.py:141-142 | deleting an entry takes its quantity off the total |
| Catalog.SupermarketsMatchStores | src/config/constants.py:22-132 | the six configured stores come in the order of the result keys |
| Catalog.SampleProductTotals | tests/unit/test_cost_calculator.py:60-66 | the test list costs 10.16 at Albert Heijn and 10.46 at Jumbo |
| Catalog.DeliveryScenarios | tests/unit/test_cost_calculator.py:68-102 | delivery at 50.00: the fee without a threshold or below it, free at Jumbo from 75.00; pickup free at Albert Heijn and infeasible at Picnic |
| Catalog.SampleTotalCost | tests/unit/test_cost_calculator.py:104-117 | Albert Heijn delivery of the test list: 10.16 + 5.95 = 16.11 |
| Catalog.SampleItemSavings | tests/unit/test_cost_calculator.py:140-155 | milk at 1.49, 1.59 and 1.39: minimum 1.39, maximum 1.59, savings 0.20, cheapest Dirk |
| Catalog.PicnicPricesNothing | tests/conftest.py:63-68 | the test list has no Picnic prices, so its Picnic product total is 0 |
| Catalog.TestStoresPickup | tests/unit/test_cost_calculator.py:14-54 | two of the three test stores offer pickup |
| Catalog.PicnicDeliveryFree | tests/unit/test_cost_calculator.py:119-138 | Picnic's delivery of the test list costs nothing |
| Catalog.DeliveryIsCandidate | src/services/cost_calculator.py:112-118 | a store's delivery option with a finite total is among the options |
| Catalog.FreeOptionRanksFirst | tests/unit/test_cost_calculator.py:119-138 | when an option costs nothing and none costs less, the first ranked option costs nothing and is marked cheapest |
| Catalog.SampleComparison | tests/unit/test_cost_calculator.py:119-129 | the test comparison has five options (at least three) |
| Catalog.TestStoresFees | tests/unit/test_cost_calculator.py:14-54 | the test stores' fees are non-negative |
| Catalog.TotalNonNegative | src/services/cost_calculator.py:91 | with a non-negative product total and fees, a finite total is non-negative |
| Catalog.TotalsNonNegative | src/services/cost_calculator.py:112-126 | every option over stores with non-negative fees costs at least nothing |
| Catalog.SampleTotalsNonNegative | tests/conftest.py:63-68 | the test list's product total is non-negative at every store |

## Left out

- The real Albert Heijn product search (a third-party API wrapper) is the parameter `ApiSearch`. A failing call is modelled as an empty response, which is what the program's `except` branch amounts to.
- The list of supermarkets read from the database on the page, and the bonus-card setting, are inputs of `Session.CalculateComparison`.
- The demo catalogue `MOCK_PRODUCTS` is a parameter (`table`). The only property assumed of it is that every row names one of the six stores (`WellFormed`); any other store would be a missing key in the program.
- Binary floating point is not modelled: money is integer cents and `round(x, 2)` is the identity. Parsed prices and sizes are exact decimals (`real`).
- Case folding and digits are ASCII only: `lower()` changes only `A`–`Z` and `\d` means `0`–`9`. Unicode case folding and Unicode digits are not modelled. Whitespace (`\s` and `strip()`) is Python's full Unicode whitespace set (`Text.IsSpace`).
- ProductMatcher.Similarity: the fuzzy `token_sort_ratio` score is an uninterpreted parameter `Ratio`. Only its range is used; the library's algorithm is not modelled.
- Regular-expression alternatives in the unit patterns (`l|liter`, `g|gram`, `st|stuks?`) are modelled by their shortest alternative. That alternative decides where a match starts and what it captures, so the result is the same.
- Exceptions, logging and the page's rendering (Streamlit widgets, tables, charts) are not modelled.
- The quantity field on the page (`number_input`, with a minimum of 1) writes quantities directly and is not modelled. The list invariants assume quantities are present, as every entry created by adding is.
- SmartSearch.SmartSearch: uses the corrected Albert Heijn demo-row skip, not the skip as written at `src/services/smart_search.py:93` (see Findings). When Albert Heijn's own search finds nothing, the model keeps every demo row with a new key where the program keeps only the first. `SmartResults`, `SmartResultsAt` and `CalculateBasketComparison` inherit this, so in that case Albert Heijn's basket total, found and missing counts can differ from the program's.
- SmartSearch.CalculateBasketComparison: each item is searched under its `productName`. The fallback to a `name` key and then `""` for items without a product name is not modelled, because list items here always have a name.
- The basket comparison's store table is the configuration of the six stores (`ConfigMatchesStores`, proved for `Catalog.Supermarkets`). The table's scraper selectors and URLs are not modelled.
- The matcher's `__init__` default threshold (0.7) is a parameter `threshold` of every matching member.
- The browser scrapers, the concurrent fan-out over stores, the database layer, the HTTP routes and the application setup are outside this model.

## Findings

| source | as written | input that shows it | evidently intended | confidence | as-written member | corrected member |
|---|---|---|---|---|---|---|
| src/services/smart_search.py:93 | the demo-row skip tests `all_results["albert_heijn"]`, the list being filled, so once one Albert Heijn demo row is added every later one is skipped | the query "cola" when Albert Heijn's own search returns nothing: its three demo rows have different keys, and only the first is kept | skip Albert Heijn demo rows only when Albert Heijn's own search returned something, keeping every demo row with a new key otherwise | not executed | SmartSearch.AsWrittenDropsDemoRows | SmartSearch.AlbertHeijnResults |
