/**
  The two product servers and the query they share, `get_entries`: keep the
  products whose whole name is `n` letters followed by two or three digits,
  fail when more than `MaxReturnedEntries` of them match, and otherwise
  return them sorted by price.
 */
module Servers {
  import opened Wrappers
  import opened Names
  import opened Products
  import opened PriceOrder
  import opened NameIndex

  /** `Server.n_max_returned_entries`. */
  const MaxReturnedEntries: nat := 3

  /** `TooManyProductsFoundError`, raised without any payload. */
  datatype TooManyProductsFound = TooManyProductsFound

  /** The products of `ps`, in order, whose name has the query shape for `n` letters. */
  function Matching(ps: seq<Product>, n: nat): (m: seq<Product>)
    ensures |m| <= |ps|
    ensures forall p :: p in m ==> p in ps && QueryShape(n, p.name)
  {
    if ps == [] then []
    else
      var init, last := ps[..|ps| - 1], ps[|ps| - 1];
      assert forall p :: p in init ==> p in ps;
      Matching(init, n) + (if QueryShape(n, last.name) then [last] else [])
  }

  /**
    The two storage variants. A ListServer keeps the list it was given; a
    MapServer keeps a dict from name to product, as its key order `keys` and
    its bindings `table`.
   */
  datatype Server =
    | ListServer(products: seq<Product>)
    | MapServer(keys: seq<string>, table: map<string, Product>)
  {
    /**
      The invariant the source's constructors establish: a MapServer's key
      order lists each key once, exactly the keys of its bindings, and each
      key is bound to a product of that name.
     */
    ghost predicate Valid() {
      MapServer? ==> IndexWellFormed(keys, table)
    }

    /**
      `_get_products`: the products a query scans, in scan order. For a
      ListServer that is the list as given; for a valid MapServer, one product
      per key, in key order, the one bound to that key and named by it.
     */
    function ScannedProducts(): (r: seq<Product>)
      ensures ListServer? ==> r == products
      ensures MapServer? ==> |r| <= |keys|
      ensures MapServer? && Valid() ==>
        |r| == |keys| && forall i :: 0 <= i < |keys| ==> r[i] == table[keys[i]] && r[i].name == keys[i]
    {
      match this
      case ListServer(products) => products
      case MapServer(keys, table) => Values(keys, table)
    }

    /**
      `get_entries(n_letters=1)`: fails exactly when more than
      `MaxReturnedEntries` scanned products have the query shape, and otherwise
      returns every one of them, each as often as it was scanned, sorted by price
      with equal prices in scan order.
     */
    method GetEntries(n: nat := 1) returns (r: Result<seq<Product>, TooManyProductsFound>)
      ensures r.Err? <==> |Matching(ScannedProducts(), n)| > MaxReturnedEntries
      ensures r.Ok? ==> |r.value| <= MaxReturnedEntries
      ensures r.Ok? ==> forall p ::
                          multiset(r.value)[p] == (if QueryShape(n, p.name) then multiset(ScannedProducts())[p] else 0)
      ensures r.Ok? ==> SortedByPrice(r.value) && StableReordering(Matching(ScannedProducts(), n), r.value)
      ensures r.Ok? ==> r.value == StableSorted(Matching(ScannedProducts(), n))
    {
      var products := ScannedProducts();
      var res: seq<Product> := [];
      for i := 0 to |products|
        invariant res == Matching(products[..i], n)
      {
        assert products[..i + 1][..i] == products[..i];
        if QueryShape(n, products[i].name) {
          res := res + [products[i]];
        }
      }
      assert products[..|products|] == products;
      if |res| > MaxReturnedEntries {
        return Err(TooManyProductsFound);
      }
      StableSortedIsStableSort(res);
      MatchingSelectsExactly(products, n);
      res := StableSorted(res);
      return Ok(res);
    }
  }

  /** Counted with multiplicity, `Matching` keeps every product of the query shape and no other. */
  lemma {:induction false} MatchingSelectsExactly(ps: seq<Product>, n: nat)
    ensures forall p ::
              multiset(Matching(ps, n))[p] == (if QueryShape(n, p.name) then multiset(ps)[p] else 0)
  {
    if ps != [] {
      var init, last := ps[..|ps| - 1], ps[|ps| - 1];
      MatchingSelectsExactly(init, n);
      assert ps == init + [last];
    }
  }

  /** `ListServer(products)`: scans exactly the list it was given, in the given order. */
  function NewListServer(products: seq<Product>): (s: Server)
    ensures s.Valid()
    ensures s.ScannedProducts() == products
  {
    ListServer(products)
  }

  /**
    `MapServer(products)`: builds `{p.name: p for p in products}`, so that it
    scans one product per distinct name, the last one supplied with that name,
    in the order in which the names first occur.
   */
  method NewMapServer(products: seq<Product>) returns (s: Server)
    ensures s.MapServer? && s.Valid()
    ensures s.keys == FirstOccurrenceNames(products) && s.table == LastByName(products)
    ensures DedupByName(products, s.ScannedProducts())
    ensures DistinctNames(products) ==> s.ScannedProducts() == products
  {
    var keys: seq<string> := [];
    var table: map<string, Product> := map[];
    for i := 0 to |products|
      invariant keys == FirstOccurrenceNames(products[..i])
      invariant table == LastByName(products[..i])
      invariant forall k :: k in keys <==> k in table
    {
      var p := products[i];
      IndexStep(products, i);
      if p.name !in table {
        keys := keys + [p.name];
      }
      table := table[p.name := p];
    }
    assert products[..|products|] == products;
    s := MapServer(keys, table);
    IndexIsWellFormed(products);
    MapServerScan(products);
  }

  /** What a MapServer built from `products` scans, stated in terms of `products` alone. */
  lemma MapServerScan(products: seq<Product>)
    ensures DedupByName(products, Values(FirstOccurrenceNames(products), LastByName(products)))
    ensures DistinctNames(products) ==> Values(FirstOccurrenceNames(products), LastByName(products)) == products
  {
    IndexValuesDedupByName(products);
    if DistinctNames(products) {
      MapValuesOfDistinctNames(products);
    }
  }
}
