/** The scenarios of the unit tests, stated about the model. */
module ServerExamples {
  import opened Wrappers
  import opened Names
  import opened Products
  import opened PriceOrder
  import opened Servers
  import opened Clients
  import opened NameIndex

  /** The names the tests accept: a split into letters and digits is a witness. */
  lemma AcceptedNameExamples()
    ensures NewProduct("asdad231", 0.0).Ok? && NewProduct("a2", 0.0).Ok?
    ensures NewProduct("faASF18274365", 0.0).Ok?
  {
    assert AllLetters("asdad231"[..5]) && AllDigits("asdad231"[5..]);
    assert AllLetters("a2"[..1]) && AllDigits("a2"[1..]);
    assert AllLetters("faASF18274365"[..5]) && AllDigits("faASF18274365"[5..]);
  }

  /** The names the tests expect the constructor to reject. */
  lemma RejectedNameExamples()
    ensures NewProduct("asdasdad", 0.0).Err? && NewProduct("123123", 0.0).Err?
    ensures NewProduct("casdasd21313afs", 0.0).Err? && NewProduct("23dsad", 0.0).Err?
    ensures NewProduct("23dasas23", 0.0).Err? && NewProduct("sad*2", 0.0).Err?
  {
    if ValidName("asdasdad") { ValidNameCharacters("asdasdad"); }
    if ValidName("123123") { ValidNameCharacters("123123"); }
    if ValidName("casdasd21313afs") { ValidNameCharacters("casdasd21313afs"); }
    if ValidName("23dsad") { ValidNameCharacters("23dsad"); }
    if ValidName("23dasas23") { ValidNameCharacters("23dasas23"); }
    if ValidName("sad*2") { ValidNameCharacterAt("sad*2", 3); }
  }

  lemma TwoLetterShapes()
    ensures !QueryShape(2, "P12")
    ensures QueryShape(2, "PP234") && QueryShape(2, "PP235") && QueryShape(2, "PD235")
    ensures QueryShape(2, "GG12") && QueryShape(2, "JK23")
  {
    assert !IsLetter("P12"[..2][1]);
  }

  lemma MatchingStep(ps: seq<Product>, k: nat, n: nat)
    requires 0 < k <= |ps|
    ensures Matching(ps[..k], n) ==
      Matching(ps[..k - 1], n) + (if QueryShape(n, ps[k - 1].name) then [ps[k - 1]] else [])
  {
    assert ps[..k][..k - 1] == ps[..k - 1];
  }

  /** A two-letter query keeps `PP234` and `PP235` and sorts them by price; `P12` has one letter only. */
  lemma EntriesExample()
    ensures var ps := [Product("P12", 1.0), Product("PP234", 2.0), Product("PP235", 1.0)];
      StableSorted(Matching(ps, 2)) == [Product("PP235", 1.0), Product("PP234", 2.0)]
  {
    var ps := [Product("P12", 1.0), Product("PP234", 2.0), Product("PP235", 1.0)];
    TwoLetterShapes();
    assert ps[..0] == [];
    MatchingStep(ps, 1, 2);
    MatchingStep(ps, 2, 2);
    MatchingStep(ps, 3, 2);
    assert ps[..3] == ps;
    var m := [ps[1], ps[2]];
    assert m[..1] == [ps[1]] && m[..1][..0] == [];
    assert StableSorted([ps[1]]) == [ps[1]];
    assert Insert([ps[1]][..0], ps[2]) == [ps[2]];
    assert Insert([ps[1]], ps[2]) == [ps[2], ps[1]];
  }

  /**
    With prices 4, 2 and 3 in scan order, a two-letter query returns `PP234`,
    `PP235`, `PD235`: ascending by price.
   */
  lemma SortedEntriesExample()
    ensures var ps := [Product("P12", 1.0), Product("PD235", 4.0), Product("PP234", 2.0), Product("PP235", 3.0)];
      Matching(ps, 2) == [ps[1], ps[2], ps[3]]
  {
    var ps := [Product("P12", 1.0), Product("PD235", 4.0), Product("PP234", 2.0), Product("PP235", 3.0)];
    TwoLetterShapes();
    assert ps[..0] == [];
    MatchingStep(ps, 1, 2);
    MatchingStep(ps, 2, 2);
    MatchingStep(ps, 3, 2);
    MatchingStep(ps, 4, 2);
    assert ps[..4] == ps;
  }

  /** Sorting three products whose prices are ordered 2nd, 3rd, 1st. */
  lemma ThreeSorted(a: Product, b: Product, c: Product)
    requires b.price < c.price < a.price
    ensures StableSorted([a, b, c]) == [b, c, a]
  {
    assert [a, b, c][..2] == [a, b] && [a, b][..1] == [a] && [a][..0] == [];
    assert StableSorted([a]) == [a];
    assert [a][..0] == [] && [b, a][..1] == [b] && [b][..0] == [];
    assert Insert([a], b) == [b, a];
    assert Insert([b], c) == [b, c];
    assert Insert([b, a], c) == [b, c, a];
  }

  /** Five of the six names have two letters and two or three digits, more than a query may return. */
  lemma TooManyEntriesExample()
    ensures var ps := [Product("P12", 1.0), Product("GG12", 1.0), Product("PD235", 4.0),
                       Product("PP234", 2.0), Product("PP235", 3.0), Product("JK23", 1.0)];
      |Matching(ps, 2)| == 5 > MaxReturnedEntries
  {
    var ps := [Product("P12", 1.0), Product("GG12", 1.0), Product("PD235", 4.0),
               Product("PP234", 2.0), Product("PP235", 3.0), Product("JK23", 1.0)];
    TwoLetterShapes();
    assert ps[..0] == [];
    MatchingStep(ps, 1, 2);
    MatchingStep(ps, 2, 2);
    MatchingStep(ps, 3, 2);
    MatchingStep(ps, 4, 2);
    MatchingStep(ps, 5, 2);
    MatchingStep(ps, 6, 2);
    assert ps[..6] == ps;
  }

  /** The client's total for `PP234` and `PP235` under a two-letter query. */
  lemma TotalPriceExample()
    ensures var ps := [Product("PP234", 2.0), Product("PP235", 3.0)];
      Matching(ps, 2) == ps && SumPrices(ps) == 5.0
  {
    var ps := [Product("PP234", 2.0), Product("PP235", 3.0)];
    TwoLetterShapes();
    assert ps[..1] == [ps[0]] && ps[..1][..0] == [];
    assert Matching(ps[..1], 2) == [ps[0]];
    assert SumPrices(ps[..1]) == 2.0;
  }

  /** The unit tests' products with two-letter names, then with a one-letter name. */
  const ProperEntriesProducts: seq<Product> := [Product("P12", 1.0), Product("PP234", 2.0), Product("PP235", 1.0)]
  const SortedEntriesProducts: seq<Product> :=
    [Product("P12", 1.0), Product("PD235", 4.0), Product("PP234", 2.0), Product("PP235", 3.0)]
  const TooManyProducts: seq<Product> :=
    [Product("P12", 1.0), Product("GG12", 1.0), Product("PD235", 4.0),
     Product("PP234", 2.0), Product("PP235", 3.0), Product("JK23", 1.0)]
  const TotalPriceProducts: seq<Product> := [Product("PP234", 2.0), Product("PP235", 3.0)]

  /** No two products of a scenario share a name. */
  lemma ScenarioNamesDistinct()
    ensures DistinctNames(ProperEntriesProducts) && DistinctNames(SortedEntriesProducts)
    ensures DistinctNames(TooManyProducts) && DistinctNames(TotalPriceProducts)
  {
  }

  /** The servers built by both constructors from the same products. */
  method BothServers(ps: seq<Product>) returns (list: Server, dict: Server)
    requires DistinctNames(ps)
    ensures list.ScannedProducts() == ps && dict.ScannedProducts() == ps
  {
    list := NewListServer(ps);
    dict := NewMapServer(ps);
  }

  /** Both servers return `PP235` then `PP234` for a two-letter query. */
  method ProperEntriesScenario() returns (fromList: Result<seq<Product>, TooManyProductsFound>,
                                          fromMap: Result<seq<Product>, TooManyProductsFound>)
    ensures fromList == Ok([Product("PP235", 1.0), Product("PP234", 2.0)])
    ensures fromMap == fromList
  {
    EntriesExample();
    ScenarioNamesDistinct();
    var list, dict := BothServers(ProperEntriesProducts);
    fromList := list.GetEntries(2);
    fromMap := dict.GetEntries(2);
  }

  /** Both servers return `PP234`, `PP235`, `PD235`: ascending by price. */
  method SortedEntriesScenario() returns (fromList: Result<seq<Product>, TooManyProductsFound>,
                                          fromMap: Result<seq<Product>, TooManyProductsFound>)
    ensures fromList == Ok([Product("PP234", 2.0), Product("PP235", 3.0), Product("PD235", 4.0)])
    ensures fromMap == fromList
  {
    SortedEntriesExample();
    ThreeSorted(SortedEntriesProducts[1], SortedEntriesProducts[2], SortedEntriesProducts[3]);
    ScenarioNamesDistinct();
    var list, dict := BothServers(SortedEntriesProducts);
    fromList := list.GetEntries(2);
    fromMap := dict.GetEntries(2);
  }

  /** Both servers refuse a two-letter query that five products match. */
  method TooManyEntriesScenario() returns (fromList: Result<seq<Product>, TooManyProductsFound>,
                                           fromMap: Result<seq<Product>, TooManyProductsFound>)
    ensures fromList.Err? && fromMap.Err?
  {
    TooManyEntriesExample();
    ScenarioNamesDistinct();
    var list, dict := BothServers(TooManyProducts);
    assert |Matching(list.ScannedProducts(), 2)| > MaxReturnedEntries;
    fromList := list.GetEntries(2);
    fromMap := dict.GetEntries(2);
  }

  /** A client of either server totals `PP234` and `PP235` to 5. */
  method TotalPriceScenario() returns (fromList: Option<real>, fromMap: Option<real>)
    ensures fromList == Some(5.0) && fromMap == Some(5.0)
  {
    TotalPriceExample();
    ScenarioNamesDistinct();
    var list, dict := BothServers(TotalPriceProducts);
    fromList := Client(list).GetTotalPrice(Some(2));
    fromMap := Client(dict).GetTotalPrice(Some(2));
  }

  /** A client of either server reports no total when its server refuses the query. */
  method TotalPriceErrorScenario() returns (fromList: Option<real>, fromMap: Option<real>)
    ensures fromList == None && fromMap == None
  {
    TooManyEntriesExample();
    ScenarioNamesDistinct();
    var list, dict := BothServers(TooManyProducts);
    fromList := Client(list).GetTotalPrice(Some(2));
    fromMap := Client(dict).GetTotalPrice(Some(2));
  }
}
