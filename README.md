# Product catalogue servers, modelled in Dafny

This project models `servers.py`, a small in-memory product catalogue:

- **`Product`** is a name and a price. The constructor accepts a name only when the whole of it is one or more ASCII letters followed by one or more digits. Otherwise it raises `ValueError`.
- **`Server.get_entries(n_letters=1)`** scans the stored products. It keeps those whose whole name is exactly `n_letters` letters followed by two or three digits.
  - If more than `n_max_returned_entries` (3) match, it raises `TooManyProductsFoundError` instead of truncating.
  - Otherwise it returns the matches sorted by price with Python's stable sort.
- **`ListServer`** scans the list it was given.
- **`MapServer`** scans the values of the dict `{p.name: p for p in products}`. That is one product per name: the last one supplied, in the position where the name first occurred.
- **`Client.get_total_price(n_letters)`** queries with `n_letters`, or with the default of one letter for `None`. It returns `None` when nothing matched or when the server reported too many matches. Otherwise it returns the sum of the matched prices.

Layout, one module per component:

| file | module | contents |
|---|---|---|
| `wrappers.dfy` | `Wrappers` | `Option` (Python's `None`) and `Result` (a raised exception) |
| `names.dfy` | `Names` | the two regular expressions as predicates; a left-to-right matcher proved equal to the product-name language |
| `products.dfy` | `Products` | `Product`, its validating constructor, `__eq__` |
| `price_order.dfy` | `PriceOrder` | what `list.sort(key=price)` produces, proved sorted, a permutation and stable, and proved to be the only such result |
| `name_index.dfy` | `NameIndex` | the insertion-ordered dict of a MapServer (key order plus bindings) and what its values are |
| `servers.dfy` | `Servers` | the `Server` datatype with both variants, `GetEntries`, the two constructors |
| `clients.dfy` | `Clients` | `Client` and `GetTotalPrice`, and the sum of prices |
| `examples.dfy` | `ServerExamples` | the scenarios of `servers__tests.py`: lemmas about the specification functions, and methods that run both servers and a client on the test products |

`GetEntries` is a method with the scanning loop of the source. It appends matches to a local sequence, checks the cap, then sorts. `NewMapServer` is a method whose loop builds the dict entry by entry. Both are proved against specification functions (`Matching`, `StableSorted`, `FirstOccurrenceNames`, `LastByName`), and the lemmas beside those functions state what they mean.

Where the code and its description differ, the model follows the code:

- `TooManyProductsFoundError` is raised without a payload (servers.py:44), so `TooManyProductsFound` carries no match count.
- The order in which a MapServer scans is Python's dict order, which is insertion order. A colliding name keeps its first position and takes the last value. The model states this order exactly rather than leaving it unspecified.

## Model

| member | source | states |
|---|---|---|
| `Names.LetterRun` | servers.py:10 | the matcher's first step: the length of the longest all-letter prefix, ending at a non-letter or at the end of the name |
| `Names.MatchesProductName` | servers.py:10 | the left-to-right match accepts a name exactly when it is in the language `[a-zA-Z]+[0-9]+` as a full match (both directions) |
| `Names.SplitIsLetterRun` | servers.py:10 | the split of a valid name into letters then digits is unique: it is the longest letter prefix |
| `Names.ValidNameCharacters` | servers.py:10 | a valid product name starts with a letter and ends with a digit |
| `Names.ValidNameCharacterAt` | servers.py:10 | a valid product name contains only letters and digits (so `sad*2` is rejected) |
| `Names.QueryShape` | servers.py:40 | a name has the query shape for `n` letters exactly when its whole leading letter run is `n` long and two or three digits make up the rest of it |
| `Names.QueryShapeIsValidName` | servers.py:40 | for one or more letters, every name a query selects is also a valid product name |
| `Names.ZeroLetterQueryMatchesNoValidName` | servers.py:40 | a query for zero letters selects no valid product name |
| `Products.NewProduct` | servers.py:9-13 | construction succeeds exactly when the name is valid, and then stores name and price unchanged; otherwise it fails with `ValueError` |
| `Products.Equals` | servers.py:15-16 | `__eq__` holds exactly when the two products are the same value (same name and same price) |
| `PriceOrder.InsertPermutes` | servers.py:45 | inserting one product adds exactly that product to the multiset |
| `PriceOrder.InsertKeepsSorted` | servers.py:45 | inserting into a price-sorted list keeps it sorted |
| `PriceOrder.InsertIsStable` | servers.py:45 | insertion appends the product to its price group and leaves every other group's order unchanged |
| `PriceOrder.StableSorted` | servers.py:45 | sorting keeps exactly the same products, with multiplicity |
| `PriceOrder.StableSortedIsStableSort` | servers.py:45 | the sorted result is ascending by price, a permutation of its input, and keeps equal prices in input order |
| `PriceOrder.SortedWithSameGroupsAreEqual` | servers.py:45 | two price-sorted lists with the same products, in the same order within each price, are equal |
| `PriceOrder.StableSortIsUnique` | servers.py:45 | any price-sorted, stable reordering of a list is that list's stable sort, so the model fixes the result of Python's sort |
| `NameIndex.FirstOccurrenceNames` | servers.py:68 | the dict's key order has no more keys than there are products, and its first key is the first product's name |
| `NameIndex.LastByName` | servers.py:68 | every product's name is a key of the dict, and each key is bound to one of the given products, named by that key |
| `NameIndex.IndexStep` | servers.py:68 | one dict assignment: a new name is appended to the key order and an existing name keeps its place; the name is bound to the new product |
| `NameIndex.LastByNameKeys` | servers.py:68 | the dict's keys are exactly the names of the given products, each bound to a product of that name |
| `NameIndex.LastByNameIsLastWins` | servers.py:68 | the product bound to a name is the last one supplied with that name |
| `NameIndex.FirstOccurrenceNamesOrder` | servers.py:68 | the key order lists every name once, in the order in which names first occur |
| `NameIndex.Values` | servers.py:71 | `values()` yields at most one value per key; when every key is bound, exactly one per key, in key order, the `i`-th being the `i`-th key's binding |
| `NameIndex.IndexIsWellFormed` | servers.py:68 | the dict a comprehension builds is well formed: every key once in the key order, exactly the bound keys, each bound to a product of that name |
| `NameIndex.IndexValuesDedupByName` | servers.py:68-71 | a MapServer scans one product per distinct name. Each is the last supplied with that name, and they come in order of the names' first occurrence |
| `NameIndex.DistinctNamesKeepOrder` | servers.py:68 | with distinct names, the key order is the names in the given order |
| `NameIndex.MapValuesOfDistinctNames` | servers.py:68-71 | with distinct names, a MapServer scans exactly the list a ListServer keeps |
| `Servers.Matching` | servers.py:38-42 | the scan keeps no more products than it scans, and only scanned products whose whole name has the query shape |
| `Servers.Server.ScannedProducts` | servers.py:61-71 | the list as given for a ListServer; for a well-formed MapServer, the dict's values in key order, one per key and named by it |
| `Servers.MatchingSelectsExactly` | servers.py:38-42 | counted with multiplicity, the scan keeps every stored product whose whole name has the query shape, and no other |
| `Servers.Server.GetEntries` | servers.py:37-46 | fails exactly when more than 3 products match. Otherwise it returns at most 3 products: exactly the matches with multiplicity, sorted by price, equal prices in scan order |
| `Servers.NewListServer` | servers.py:57-62 | a ListServer scans exactly the given list, in the given order |
| `Servers.NewMapServer` | servers.py:66-71 | builds the dict in a loop, and the dict is well formed. The server scans one product per name, the last supplied, in first-occurrence order; with distinct names that is the given list |
| `Servers.MapServerScan` | servers.py:68-71 | what a MapServer scans, stated in terms of the given products alone |
| `Clients.SumPrices` | servers.py:88 | the sum of prices of products none of which has a negative price is not negative |
| `Clients.SumPricesAppend` | servers.py:88 | the sum of prices of a concatenation is the sum of the two sums |
| `Clients.SumPricesOfPermutation` | servers.py:88 | the sum of prices does not depend on the order of the products |
| `Clients.Client.GetTotalPrice` | servers.py:79-90 | `None` exactly when nothing matched or more than 3 matched; otherwise the sum of the matched prices; `None` for `n_letters` means one letter |
| `ServerExamples.AcceptedNameExamples` | servers__tests.py:60-64 | `asdad231`, `a2` and `faASF18274365` are accepted |
| `ServerExamples.RejectedNameExamples` | servers__tests.py:66-70 | `asdasdad`, `123123`, `casdasd21313afs`, `23dsad`, `23dasas23` and `sad*2` are rejected |
| `ServerExamples.EntriesExample` | servers__tests.py:16-21 | a two-letter query over `P12`, `PP234`, `PP235` returns `PP235` then `PP234` |
| `ServerExamples.SortedEntriesExample` | servers__tests.py:23-30 | a two-letter query over `P12`, `PD235`, `PP234`, `PP235` keeps the last three, in scan order |
| `ServerExamples.ThreeSorted` | servers__tests.py:23-30 | three products priced 4, 2, 3 in scan order are sorted to the 2nd, the 3rd, then the 1st |
| `ServerExamples.TooManyEntriesExample` | servers__tests.py:32-38 | exactly five of the six test products match a two-letter query, which exceeds the cap |
| `ServerExamples.TotalPriceExample` | servers__tests.py:42-47 | both test products match and their prices sum to 5 |
| `ServerExamples.BothServers` | servers__tests.py:6 | a ListServer and a MapServer built from products with distinct names scan the same list |
| `ServerExamples.ProperEntriesScenario` | servers__tests.py:16-21 | `GetEntries(2)` on either server returns `PP235` then `PP234` |
| `ServerExamples.SortedEntriesScenario` | servers__tests.py:23-30 | `GetEntries(2)` on either server returns `PP234`, `PP235`, `PD235` |
| `ServerExamples.TooManyEntriesScenario` | servers__tests.py:32-38 | `GetEntries(2)` on either server fails with `TooManyProductsFound` |
| `ServerExamples.TotalPriceScenario` | servers__tests.py:42-47 | `GetTotalPrice(Some(2))` by a client of either server is 5 |
| `ServerExamples.TotalPriceErrorScenario` | servers__tests.py:49-55 | `GetTotalPrice(Some(2))` by a client of either server is `None`, since the server refuses the query |

## Left out

- The regular-expression engine. The patterns at servers.py:10 and servers.py:40 are written as predicates over ASCII letters and digits.
- Negative `n_letters`. It builds a malformed quantifier in the pattern at servers.py:40, whose meaning depends on the regex engine, so `n` is a `nat`.
- Floating-point prices. Prices are exact `real`s, so rounding in the sum at servers.py:88 and NaN ordering in the sort are not modelled.
- `Product.__hash__` (servers.py:18-19). It depends on Python's built-in hash; datatype values are hashable consistently with equality by construction.
- `Product.__eq__` against an object that is not a product (Python would raise `AttributeError`); `Equals` takes two products.
- `ABC`, `abstractmethod`, `TypeVar` and the `*args, **kwargs` plumbing (servers.py:31-35, 48-53). The two variants are the two constructors of one `Server` datatype, and a `Client` holds one of them.
- Aliasing. A ListServer keeps a reference to the caller's list, so later mutation of that list would show through. The model stores the list as a value.
- The sorting algorithm inside `list.sort` (Timsort). The model sorts by stable insertion. `StableSortIsUnique` shows that every stable sort by price gives the same result.
- The invariant that stored products have valid names is not carried by the `Product` type. The query does not depend on it.
- `test_server_has_products` (an attribute check) and `check_equals` (never collected by the test runner, and `Equals` is value equality) have no scenario.
