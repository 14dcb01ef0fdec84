/** The client that totals the prices of a query's matches. */
module Clients {
  import opened Wrappers
  import opened Products
  import opened PriceOrder
  import opened Servers

  /** `sum(p.price for p in s)`. */
  function SumPrices(s: seq<Product>): (total: real)
    ensures (forall i :: 0 <= i < |s| ==> 0.0 <= s[i].price) ==> 0.0 <= total
  {
    if s == [] then 0.0 else SumPrices(s[..|s| - 1]) + s[|s| - 1].price
  }

  lemma {:induction false} SumPricesAppend(a: seq<Product>, b: seq<Product>)
    ensures SumPrices(a + b) == SumPrices(a) + SumPrices(b)
  {
    if b != [] {
      assert (a + b)[..|a + b| - 1] == a + b[..|b| - 1];
      SumPricesAppend(a, b[..|b| - 1]);
    } else {
      assert a + b == a;
    }
  }

  /** The total does not depend on the order of the products: reordering keeps the sum. */
  lemma {:induction false} SumPricesOfPermutation(a: seq<Product>, b: seq<Product>)
    requires multiset(a) == multiset(b)
    ensures SumPrices(a) == SumPrices(b)
    decreases |a|
  {
    if a != [] {
      var init, last := a[..|a| - 1], a[|a| - 1];
      assert a == init + [last];
      assert last in multiset(b);
      var k :| 0 <= k < |b| && b[k] == last;
      var rest := b[..k] + b[k + 1..];
      assert b == b[..k] + [last] + b[k + 1..];
      assert multiset(a) == multiset(init) + multiset{last};
      assert multiset(b) == multiset(b[..k]) + multiset{last} + multiset(b[k + 1..]);
      assert multiset(rest) == multiset(b[..k]) + multiset(b[k + 1..]);
      forall q ensures multiset(init)[q] == multiset(rest)[q] {
        assert (multiset(init) + multiset{last})[q] == (multiset(rest) + multiset{last})[q];
      }
      assert multiset(init) == multiset(rest);
      SumPricesOfPermutation(init, rest);
      SumPricesAppend(b[..k] + [last], b[k + 1..]);
      SumPricesAppend(b[..k], [last]);
      SumPricesAppend(b[..k], b[k + 1..]);
      assert SumPrices([last]) == SumPrices([]) + last.price;
    } else {
      assert |b| == |multiset(b)|;
    }
  }

  /** A client bound to one server. */
  datatype Client = Client(server: Server)
  {
    /**
      `get_total_price(n_letters)`: queries with `n_letters`, or with the
      default of one letter when it is `None`, and yields nothing when nothing
      matched or when too many products matched, and otherwise the sum of the
      matched prices.
     */
    method GetTotalPrice(nLetters: Option<nat>) returns (total: Option<real>)
      ensures var m := Matching(server.ScannedProducts(), if nLetters.Some? then nLetters.value else 1);
        && (total.None? <==> m == [] || |m| > MaxReturnedEntries)
        && (total.Some? ==> total.value == SumPrices(m))
    {
      var prod;
      if nLetters.None? {
        prod := server.GetEntries();
      } else {
        prod := server.GetEntries(nLetters.value);
      }
      ghost var m := Matching(server.ScannedProducts(), if nLetters.Some? then nLetters.value else 1);
      match prod
      case Err(_) =>
        total := None;
      case Ok(entries) =>
        StableSortedIsStableSort(m);
        assert |entries| == |multiset(m)|;
        if entries == [] {
          total := None;
        } else {
          SumPricesOfPermutation(entries, m);
          total := Some(SumPrices(entries));
        }
    }
  }
}
