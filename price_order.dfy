/**
  Ordering products by price the way Python's stable `list.sort(key=price)`
  does: ascending by price, with products of equal price left in the order
  they had before the sort.
 */
module PriceOrder {
  import opened Products

  ghost predicate SortedByPrice(s: seq<Product>) {
    forall i, j :: 0 <= i < j < |s| ==> s[i].price <= s[j].price
  }

  /** `[q]` if `q` is priced at `x`, otherwise nothing. */
  function PricedAt(q: Product, x: real): seq<Product> {
    if q.price == x then [q] else []
  }

  /** The products of `s` priced at `x`, in the order they appear in `s`. */
  function WithPrice(s: seq<Product>, x: real): seq<Product> {
    if s == [] then [] else WithPrice(s[..|s| - 1], x) + PricedAt(s[|s| - 1], x)
  }

  lemma WithPriceSnoc(s: seq<Product>, q: Product, x: real)
    ensures WithPrice(s + [q], x) == WithPrice(s, x) + PricedAt(q, x)
  {
  }

  /** `after` keeps, for every price, the products of `before` with that price in their original order. */
  ghost predicate StableReordering(before: seq<Product>, after: seq<Product>) {
    forall x :: WithPrice(after, x) == WithPrice(before, x)
  }

  /** Puts `p` after every product of `s`, from the back, whose price is at most that of `p`. */
  function Insert(s: seq<Product>, p: Product): seq<Product> {
    if s == [] || s[|s| - 1].price <= p.price then s + [p]
    else Insert(s[..|s| - 1], p) + [s[|s| - 1]]
  }

  /** The list `list.sort(key=price)` leaves: each product inserted in turn into the sorted prefix. */
  function StableSorted(s: seq<Product>): (r: seq<Product>)
    ensures multiset(r) == multiset(s)
  {
    if s == [] then []
    else
      var init, last := s[..|s| - 1], s[|s| - 1];
      InsertPermutes(StableSorted(init), last);
      assert s == init + [last];
      Insert(StableSorted(init), last)
  }

  lemma {:induction false} InsertPermutes(s: seq<Product>, p: Product)
    ensures multiset(Insert(s, p)) == multiset(s) + multiset{p}
  {
    if s == [] || s[|s| - 1].price <= p.price {
    } else {
      InsertPermutes(s[..|s| - 1], p);
      assert s == s[..|s| - 1] + [s[|s| - 1]];
    }
  }

  lemma {:induction false} InsertKeepsSorted(s: seq<Product>, p: Product)
    requires SortedByPrice(s)
    ensures SortedByPrice(Insert(s, p))
  {
    if s == [] || s[|s| - 1].price <= p.price {
    } else {
      var init, last := s[..|s| - 1], s[|s| - 1];
      InsertKeepsSorted(init, p);
      InsertPermutes(init, p);
      var r := Insert(init, p);
      forall i | 0 <= i < |r|
        ensures r[i].price <= last.price
      {
        assert r[i] in multiset(r);
        assert r[i] in init || r[i] == p;
      }
    }
  }

  /** Inserting `p` only moves it before products of other prices, so every price group keeps its order. */
  lemma {:induction false} InsertIsStable(s: seq<Product>, p: Product, x: real)
    ensures WithPrice(Insert(s, p), x) == WithPrice(s, x) + PricedAt(p, x)
  {
    if s == [] || s[|s| - 1].price <= p.price {
      WithPriceSnoc(s, p, x);
    } else {
      var init, last := s[..|s| - 1], s[|s| - 1];
      InsertIsStable(init, p, x);
      WithPriceSnoc(Insert(init, p), last, x);
      assert PricedAt(p, x) == [] || PricedAt(last, x) == [];
    }
  }

  /** `StableSorted` is a stable sort: ascending by price, a permutation, and order-preserving within each price. */
  lemma {:induction false} StableSortedIsStableSort(s: seq<Product>)
    ensures SortedByPrice(StableSorted(s))
    ensures multiset(StableSorted(s)) == multiset(s)
    ensures StableReordering(s, StableSorted(s))
  {
    if s != [] {
      var init, last := s[..|s| - 1], s[|s| - 1];
      StableSortedIsStableSort(init);
      InsertKeepsSorted(StableSorted(init), last);
      forall x ensures WithPrice(StableSorted(s), x) == WithPrice(s, x) {
        InsertIsStable(StableSorted(init), last, x);
      }
    }
  }

  lemma {:induction false} WithPriceMembers(s: seq<Product>, x: real, q: Product)
    requires q in WithPrice(s, x)
    ensures q in s && q.price == x
  {
    var init := s[..|s| - 1];
    if q in WithPrice(init, x) {
      WithPriceMembers(init, x, q);
      assert init == s[..|s| - 1];
    }
  }

  /** A product priced at `x` in a non-empty price-sorted list costs at most its last product. */
  lemma GroupBoundedByLast(u: seq<Product>, x: real, q: Product)
    requires SortedByPrice(u) && q in WithPrice(u, x)
    ensures u != [] && x <= u[|u| - 1].price
  {
  }

  /** Two sorted lists that agree on every price group end with the same product. */
  lemma SameGroupsSameLast(iu: seq<Product>, lu: Product, iv: seq<Product>, lv: Product)
    requires SortedByPrice(iu + [lu]) && SortedByPrice(iv + [lv])
    requires StableReordering(iv + [lv], iu + [lu])
    ensures lu == lv
  {
    var u, v := iu + [lu], iv + [lv];
    assert u[..|u| - 1] == iu && v[..|v| - 1] == iv;
    assert lu in WithPrice(u, lu.price);
    GroupBoundedByLast(v, lu.price, lu);
    assert lv in WithPrice(v, lv.price);
    GroupBoundedByLast(u, lv.price, lv);
    var m := lu.price;
    assert m == lv.price;
    WithPriceSnoc(iu, lu, m);
    WithPriceSnoc(iv, lv, m);
    var a, b := WithPrice(iu, m) + [lu], WithPrice(iv, m) + [lv];
    assert a == b;
    assert a[|a| - 1] == lu && b[|b| - 1] == lv;
  }

  /** Removing the same last product from two lists keeps them agreeing on every price group. */
  lemma SameGroupsWithoutLast(iu: seq<Product>, iv: seq<Product>, l: Product)
    requires StableReordering(iv + [l], iu + [l])
    ensures StableReordering(iv, iu)
  {
    forall x ensures WithPrice(iu, x) == WithPrice(iv, x) {
      WithPriceSnoc(iu, l, x);
      WithPriceSnoc(iv, l, x);
      var a, b := WithPrice(iu, x), WithPrice(iv, x);
      assert a == (a + PricedAt(l, x))[..|a|];
      assert b == (b + PricedAt(l, x))[..|b|];
    }
  }

  lemma SortedPrefix(u: seq<Product>, k: nat)
    requires SortedByPrice(u) && k <= |u|
    ensures SortedByPrice(u[..k])
  {
  }

  /** Two lists that agree on every price group are both empty or both non-empty. */
  lemma SameGroupsSameEmptiness(u: seq<Product>, v: seq<Product>)
    requires StableReordering(v, u)
    ensures u == [] <==> v == []
  {
    if u != [] {
      var lu := u[|u| - 1];
      assert lu in WithPrice(u, lu.price);
      WithPriceMembers(v, lu.price, lu);
    }
    if v != [] {
      var lv := v[|v| - 1];
      assert lv in WithPrice(v, lv.price);
      WithPriceMembers(u, lv.price, lv);
    }
  }

  /** Two price-sorted lists that agree on every price group are the same list. */
  lemma {:induction false} SortedWithSameGroupsAreEqual(u: seq<Product>, v: seq<Product>)
    requires SortedByPrice(u) && SortedByPrice(v)
    requires StableReordering(v, u)
    ensures u == v
    decreases |u|
  {
    SameGroupsSameEmptiness(u, v);
    if u != [] {
      var iu, iv := u[..|u| - 1], v[..|v| - 1];
      assert u == iu + [u[|u| - 1]] && v == iv + [v[|v| - 1]];
      SameGroupsSameLast(iu, u[|u| - 1], iv, v[|v| - 1]);
      SameGroupsWithoutLast(iu, iv, u[|u| - 1]);
      SortedPrefix(u, |u| - 1);
      SortedPrefix(v, |v| - 1);
      SortedWithSameGroupsAreEqual(iu, iv);
    }
  }

  /** Ascending by price and stable pin the result down: any such reordering of `s` is `StableSorted(s)`. */
  lemma StableSortIsUnique(s: seq<Product>, t: seq<Product>)
    requires SortedByPrice(t) && StableReordering(s, t)
    ensures t == StableSorted(s)
  {
    StableSortedIsStableSort(s);
    SortedWithSameGroupsAreEqual(t, StableSorted(s));
  }
}
