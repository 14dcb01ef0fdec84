/**
  The dict `{p.name: p for p in products}` that a MapServer keeps: Python
  dicts remember the order in which keys were first inserted, and assigning
  to an existing key replaces its value without moving it. The dict is
  modelled as its key order `keys` together with the `map` from key to value.
 */
module NameIndex {
  import opened Products

  /** The names of `ps`, each once, in the order in which they first occur. */
  function FirstOccurrenceNames(ps: seq<Product>): (keys: seq<string>)
    ensures |keys| <= |ps|
    ensures ps != [] ==> 0 < |keys| && keys[0] == ps[0].name
  {
    if ps == [] then []
    else
      var keys := FirstOccurrenceNames(ps[..|ps| - 1]);
      if ps[|ps| - 1].name in keys then keys else keys + [ps[|ps| - 1].name]
  }

  /** Each name of `ps` mapped to the product that was assigned to it last. */
  function LastByName(ps: seq<Product>): (table: map<string, Product>)
    ensures forall i :: 0 <= i < |ps| ==> ps[i].name in table
    ensures forall k :: k in table ==> table[k].name == k && table[k] in ps
  {
    if ps == [] then map[]
    else
      var init := ps[..|ps| - 1];
      assert forall p :: p in init ==> p in ps;
      LastByName(init)[ps[|ps| - 1].name := ps[|ps| - 1]]
  }

  /** Assigning the next product of `ps` to its name extends the key order and the bindings. */
  lemma IndexStep(ps: seq<Product>, i: nat)
    requires i < |ps|
    ensures FirstOccurrenceNames(ps[..i + 1]) ==
      if ps[i].name in FirstOccurrenceNames(ps[..i]) then FirstOccurrenceNames(ps[..i])
      else FirstOccurrenceNames(ps[..i]) + [ps[i].name]
    ensures LastByName(ps[..i + 1]) == LastByName(ps[..i])[ps[i].name := ps[i]]
  {
    assert ps[..i + 1][..i] == ps[..i];
  }

  /**
    `dict.values()`: the values of the dict in key order. When every key is
    bound, that is one value per key, the `i`-th being the `i`-th key's.
   */
  function Values(keys: seq<string>, table: map<string, Product>): (vs: seq<Product>)
    ensures |vs| <= |keys|
    ensures (forall k :: k in keys ==> k in table) ==>
      |vs| == |keys| && forall i :: 0 <= i < |keys| ==> vs[i] == table[keys[i]]
  {
    if keys == [] then []
    else
      Values(keys[..|keys| - 1], table)
      + (if keys[|keys| - 1] in table then [table[keys[|keys| - 1]]] else [])
  }

  /**
    A well-formed dict from name to product: the key order lists each key
    once, exactly the keys of `table`, and each key is bound to a product of
    that name.
   */
  ghost predicate IndexWellFormed(keys: seq<string>, table: map<string, Product>) {
    && (forall a, b :: 0 <= a < b < |keys| ==> keys[a] != keys[b])
    && (forall k :: k in keys <==> k in table)
    && (forall k :: k in table ==> table[k].name == k)
  }

  /** Some product of `ps` before position `j` is called `name`. */
  ghost predicate OccursBefore(ps: seq<Product>, name: string, j: int) {
    exists i :: 0 <= i < j && i < |ps| && ps[i].name == name
  }

  /** The product at `i` is the last one in `ps` with its name. */
  ghost predicate LastWithItsName(ps: seq<Product>, i: int) {
    0 <= i < |ps| && forall j :: i < j < |ps| ==> ps[j].name != ps[i].name
  }

  /** No two products of `vs` share a name. */
  ghost predicate DistinctNames(vs: seq<Product>) {
    forall i, j :: 0 <= i < j < |vs| ==> vs[i].name != vs[j].name
  }

  /** Every name of `ps` is the name of some product of `vs`. */
  ghost predicate KeepsEveryName(ps: seq<Product>, vs: seq<Product>) {
    forall i :: 0 <= i < |ps| ==> exists k :: 0 <= k < |vs| && vs[k].name == ps[i].name
  }

  /** `p` stands in `ps` at a position after which no product has its name. */
  ghost predicate IsLastOfItsName(ps: seq<Product>, p: Product) {
    exists i :: LastWithItsName(ps, i) && ps[i] == p
  }

  /** Every product of `vs` is the last product of `ps` with its name. */
  ghost predicate LastOneWins(ps: seq<Product>, vs: seq<Product>) {
    forall k :: 0 <= k < |vs| ==> IsLastOfItsName(ps, vs[k])
  }

  /** The names of `vs` come in the order in which they first occur in `ps`. */
  ghost predicate FirstOccurrenceOrder(ps: seq<Product>, vs: seq<Product>) {
    forall a, b, j :: 0 <= a < b < |vs| && 0 <= j < |ps| && ps[j].name == vs[b].name ==>
      OccursBefore(ps, vs[a].name, j)
  }

  /**
    `vs` is what `{p.name: p for p in ps}.values()` yields: one product per
    distinct name of `ps`, each the last one supplied with that name, listed in
    the order in which the names first occur in `ps`.
   */
  ghost predicate DedupByName(ps: seq<Product>, vs: seq<Product>) {
    DistinctNames(vs) && KeepsEveryName(ps, vs) && LastOneWins(ps, vs) && FirstOccurrenceOrder(ps, vs)
  }

  /** `LastByName` holds exactly the names of `ps`, each bound to a product of that name. */
  lemma {:induction false} LastByNameKeys(ps: seq<Product>)
    ensures forall k :: k in LastByName(ps) <==> OccursBefore(ps, k, |ps|)
    ensures forall k :: k in LastByName(ps) ==> LastByName(ps)[k].name == k
  {
    if ps != [] {
      var init, last := ps[..|ps| - 1], ps[|ps| - 1];
      LastByNameKeys(init);
      forall k ensures k in LastByName(ps) <==> OccursBefore(ps, k, |ps|) {
        if OccursBefore(init, k, |init|) {
          var i :| 0 <= i < |init| && init[i].name == k;
          assert ps[i].name == k;
        }
        if OccursBefore(ps, k, |ps|) && k != last.name {
          var i :| 0 <= i < |ps| && ps[i].name == k;
          assert init[i].name == k;
        }
      }
    }
  }

  /** The product `LastByName` binds to a name is the last one of `ps` with that name. */
  lemma {:induction false} LastByNameIsLastWins(ps: seq<Product>, k: string) returns (i: nat)
    requires k in LastByName(ps)
    ensures LastWithItsName(ps, i) && ps[i] == LastByName(ps)[k]
  {
    var init, last := ps[..|ps| - 1], ps[|ps| - 1];
    if k == last.name {
      i := |ps| - 1;
    } else {
      i := LastByNameIsLastWins(init, k);
      LastByNameKeys(init);
      assert ps[i] == init[i];
      forall j | i < j < |ps| ensures ps[j].name != ps[i].name {
        if j < |init| {
          assert ps[j] == init[j];
        }
      }
    }
  }

  /** `FirstOccurrenceNames` lists each name of `ps` once, in order of first occurrence. */
  lemma {:induction false} FirstOccurrenceNamesOrder(ps: seq<Product>)
    ensures forall a, b :: 0 <= a < b < |FirstOccurrenceNames(ps)| ==>
      FirstOccurrenceNames(ps)[a] != FirstOccurrenceNames(ps)[b]
    ensures forall k :: k in FirstOccurrenceNames(ps) <==> OccursBefore(ps, k, |ps|)
    ensures forall a, b, j ::
      (0 <= a < b < |FirstOccurrenceNames(ps)| && 0 <= j < |ps| && ps[j].name == FirstOccurrenceNames(ps)[b])
      ==> OccursBefore(ps, FirstOccurrenceNames(ps)[a], j)
  {
    if ps != [] {
      var init, last := ps[..|ps| - 1], ps[|ps| - 1];
      FirstOccurrenceNamesOrder(init);
      var ks, keys := FirstOccurrenceNames(init), FirstOccurrenceNames(ps);
      forall k ensures k in keys <==> OccursBefore(ps, k, |ps|) {
        if OccursBefore(init, k, |init|) {
          var i :| 0 <= i < |init| && init[i].name == k;
          assert ps[i].name == k;
        }
        if OccursBefore(ps, k, |ps|) && k != last.name {
          var i :| 0 <= i < |ps| && ps[i].name == k;
          assert init[i].name == k;
        }
      }
      forall a, b, j | 0 <= a < b < |keys| && 0 <= j < |ps| && ps[j].name == keys[b]
        ensures OccursBefore(ps, keys[a], j)
      {
        assert keys[a] == ks[a];
        if b < |ks| {
          assert keys[b] == ks[b];
          if j < |init| {
            assert init[j].name == ks[b];
            var i :| 0 <= i < j && i < |init| && init[i].name == ks[a];
            assert ps[i].name == keys[a];
          } else {
            var j' :| 0 <= j' < |init| && init[j'].name == ks[b];
            var i :| 0 <= i < j' && i < |init| && init[i].name == ks[a];
            assert ps[i].name == keys[a];
          }
        } else {
          assert ks[a] in ks;
          var i :| 0 <= i < |init| && init[i].name == ks[a];
          assert ps[i].name == keys[a];
        }
      }
    }
  }

  /** The dict built from `ps` yields, for each of its keys in order, the product bound to that key. */
  lemma IndexValuesByKey(ps: seq<Product>)
    ensures |Values(FirstOccurrenceNames(ps), LastByName(ps))| == |FirstOccurrenceNames(ps)|
    ensures forall k :: 0 <= k < |FirstOccurrenceNames(ps)| ==>
      && FirstOccurrenceNames(ps)[k] in LastByName(ps)
      && Values(FirstOccurrenceNames(ps), LastByName(ps))[k] == LastByName(ps)[FirstOccurrenceNames(ps)[k]]
      && Values(FirstOccurrenceNames(ps), LastByName(ps))[k].name == FirstOccurrenceNames(ps)[k]
  {
    LastByNameKeys(ps);
    FirstOccurrenceNamesOrder(ps);
  }

  /** Every product `LastByName` holds is the last one of `ps` with its name. */
  lemma LastByNameHoldsLastWins(ps: seq<Product>)
    ensures forall k :: k in LastByName(ps) ==> IsLastOfItsName(ps, LastByName(ps)[k])
  {
    forall k | k in LastByName(ps)
      ensures IsLastOfItsName(ps, LastByName(ps)[k])
    {
      var i := LastByNameIsLastWins(ps, k);
    }
  }

  lemma KeysGiveDistinctNames(keys: seq<string>, vs: seq<Product>)
    requires |vs| == |keys| && forall k :: 0 <= k < |keys| ==> vs[k].name == keys[k]
    requires forall a, b :: 0 <= a < b < |keys| ==> keys[a] != keys[b]
    ensures DistinctNames(vs)
  {
  }

  lemma KeysKeepEveryName(ps: seq<Product>, keys: seq<string>, vs: seq<Product>)
    requires |vs| == |keys| && forall k :: 0 <= k < |keys| ==> vs[k].name == keys[k]
    requires forall k :: k in keys <==> OccursBefore(ps, k, |ps|)
    ensures KeepsEveryName(ps, vs)
  {
    forall i | 0 <= i < |ps|
      ensures exists k :: 0 <= k < |vs| && vs[k].name == ps[i].name
    {
      assert OccursBefore(ps, ps[i].name, |ps|);
      var k :| 0 <= k < |keys| && keys[k] == ps[i].name;
      assert vs[k].name == ps[i].name;
    }
    assert forall i :: 0 <= i < |ps| ==> exists k :: 0 <= k < |vs| && vs[k].name == ps[i].name;
  }

  lemma TableGivesLastOneWins(ps: seq<Product>, keys: seq<string>, table: map<string, Product>, vs: seq<Product>)
    requires |vs| == |keys| && forall k :: 0 <= k < |keys| ==> keys[k] in table && vs[k] == table[keys[k]]
    requires forall k :: k in table ==> IsLastOfItsName(ps, table[k])
    ensures LastOneWins(ps, vs)
  {
  }

  lemma KeysGiveFirstOccurrenceOrder(ps: seq<Product>, keys: seq<string>, vs: seq<Product>)
    requires |vs| == |keys| && forall k :: 0 <= k < |keys| ==> vs[k].name == keys[k]
    requires forall a, b, j ::
      (0 <= a < b < |keys| && 0 <= j < |ps| && ps[j].name == keys[b]) ==> OccursBefore(ps, keys[a], j)
    ensures FirstOccurrenceOrder(ps, vs)
  {
  }

  /** The values of the dict built from `ps` are `ps` deduplicated by name, last one wins, first position kept. */
  lemma IndexValuesDedupByName(ps: seq<Product>)
    ensures DedupByName(ps, Values(FirstOccurrenceNames(ps), LastByName(ps)))
  {
    IndexValuesByKey(ps);
    FirstOccurrenceNamesOrder(ps);
    LastByNameHoldsLastWins(ps);
    var keys, table := FirstOccurrenceNames(ps), LastByName(ps);
    var vs := Values(keys, table);
    KeysGiveDistinctNames(keys, vs);
    KeysKeepEveryName(ps, keys, vs);
    TableGivesLastOneWins(ps, keys, table, vs);
    KeysGiveFirstOccurrenceOrder(ps, keys, vs);
  }

  /** Products with pairwise distinct names come out of the dict exactly as they went in. */
  lemma {:induction false} DistinctNamesKeepOrder(ps: seq<Product>)
    requires forall i, j :: 0 <= i < j < |ps| ==> ps[i].name != ps[j].name
    ensures |FirstOccurrenceNames(ps)| == |ps|
    ensures forall i :: 0 <= i < |ps| ==> FirstOccurrenceNames(ps)[i] == ps[i].name
  {
    if ps != [] {
      var init := ps[..|ps| - 1];
      DistinctNamesKeepOrder(init);
      FirstOccurrenceNamesOrder(init);
      assert forall i :: 0 <= i < |init| ==> init[i].name != ps[|ps| - 1].name;
      assert !OccursBefore(init, ps[|ps| - 1].name, |init|);
    }
  }

  /** With pairwise distinct names, a MapServer's values are the list a ListServer keeps. */
  lemma MapValuesOfDistinctNames(ps: seq<Product>)
    requires DistinctNames(ps)
    ensures Values(FirstOccurrenceNames(ps), LastByName(ps)) == ps
  {
    DistinctNamesKeepOrder(ps);
    IndexValuesByKey(ps);
    LastByNameKeys(ps);
    LastByNameHoldsLastWins(ps);
    SameNamesSameProducts(ps, FirstOccurrenceNames(ps), LastByName(ps), Values(FirstOccurrenceNames(ps), LastByName(ps)));
  }

  lemma SameNamesSameProducts(ps: seq<Product>, keys: seq<string>, table: map<string, Product>, vs: seq<Product>)
    requires forall i, j :: 0 <= i < j < |ps| ==> ps[i].name != ps[j].name
    requires |keys| == |ps| && |vs| == |keys|
    requires forall i :: 0 <= i < |ps| ==> keys[i] == ps[i].name
    requires forall k :: 0 <= k < |keys| ==> keys[k] in table && vs[k] == table[keys[k]]
    requires forall k :: k in table ==> table[k].name == k
    requires forall k :: k in table ==> IsLastOfItsName(ps, table[k])
    ensures vs == ps
  {
    forall i | 0 <= i < |ps| ensures vs[i] == ps[i] {
      assert keys[i] in table;
      var j :| LastWithItsName(ps, j) && ps[j] == table[keys[i]];
      assert ps[j].name == ps[i].name;
    }
  }

  /** The dict `{p.name: p for p in ps}` is well formed, whatever `ps` is. */
  lemma IndexIsWellFormed(ps: seq<Product>)
    ensures IndexWellFormed(FirstOccurrenceNames(ps), LastByName(ps))
  {
    FirstOccurrenceNamesOrder(ps);
    LastByNameKeys(ps);
  }
}
