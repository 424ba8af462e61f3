/** A shop in which a product with an empty id becomes a candidate, and accepting it is denied. */
module NamelessOffers {
  import opened Basics
  import opened Policy
  import opened Gate
  import opened GateLaws
  import opened Books
  import opened CrossSell
  import opened OfferLaws
  import opened TeaShop

  const LEAVES: Product := Product(TEA, "Tea", 100, true, Some(TEA), [])

  const NAMELESS: Product := Product("", "Sample", 50, true, Some(TEA), [])

  predicate OnSale(products: seq<Product>) { products == [LEAVES, NAMELESS] }

  /** One unit of tea, in the shop that sells these products. */
  function TeaCart(products: seq<Product>): GateInput {
    GateInput(Some(GateAgent(0, Active)), Some(GateMandateOf([Terms(0)], 0)), POLICY, Snapshot(products), ItemList(CART),
              0, 0, 1, None, Preview, false)
  }

  lemma ShownToGate(products: seq<Product>)
    requires OnSale(products)
    ensures UniqueIds(products) && PricesNonNegative(Snapshot(products))
    ensures TEA in Snapshot(products) && Snapshot(products)[TEA] == SnapOf(LEAVES)
  {
    SnapshotShows(products);
    assert products[0] == LEAVES && products[1] == NAMELESS;
  }

  lemma TeaCartAllowed(products: seq<Product>, gi: GateInput)
    requires OnSale(products) && gi == TeaCart(products)
    ensures Decide(gi).verdict == ALLOW && Decide(gi).total == 100
    ensures Decide(gi).lines == [LineOf(gi.catalog, CART[0])]
  {
    ShownToGate(products);
    assert CART[..0] == [] && Value(gi.catalog, CART[0]) == 100 && SumValue(gi.catalog, CART) == 100;
    assert JStr(TEA) in [JStr(TEA)];
    assert ItemOk(gi, CART[0]) && Acceptable(gi);
    AllowIffAcceptable(gi);
    AllowMeans(gi);
  }

  /** Tea is in the cart, so the sample is the one product that may be offered. */
  lemma OnlyTheSample(products: seq<Product>, lines: seq<Line>, m: GateMandate, p: Product)
    requires OnSale(products) && |lines| == 1 && lines[0].id == TEA && m.categories == [] && p in products
    ensures Eligible(CartProducts(products, lines), POLICY, m, p) <==> p == NAMELESS
  {
    CartProductsHold(products, lines, TEA);
    CartProductsHold(products, lines, "");
    assert products[0].id == TEA;
    assert JStr(TEA) in [JStr(TEA)];
  }

  lemma SampleOffered(products: seq<Product>, lines: seq<Line>, m: GateMandate)
    requires OnSale(products) && |lines| == 1 && lines[0].id == TEA && m == GateMandateOf([Terms(0)], 0)
    ensures NAMELESS in Candidates(CartProducts(products, lines), products, POLICY, m, 0, 0, LIMIT, 100)
  {
    var cart := CartProducts(products, lines);
    var cs := Candidates(cart, products, POLICY, m, 0, 0, LIMIT, 100);
    assert products[1] == NAMELESS;
    OnlyTheSample(products, lines, m, NAMELESS);
    CandidatesAreTheCheapest(cart, products, POLICY, m, 0, 0, LIMIT, 100, NAMELESS);
    forall i | 0 <= i < |cs| ensures cs[i] == NAMELESS {
      CandidatesAreTheCheapest(cart, products, POLICY, m, 0, 0, LIMIT, 100, cs[i]);
      OnlyTheSample(products, lines, m, cs[i]);
    }
    assert |cs| > 0 ==> cs[0] in cs;
  }

  /** The catalog takes a product with an empty id; the offers name it, and the gate refuses the cart that accepts. */
  lemma NamelessCandidate(products: seq<Product>, gi: GateInput)
    requires OnSale(products) && gi == TeaCart(products)
    ensures Offering(gi, products) && PricesNonNegative(gi.catalog)
    ensures NAMELESS in CandidatesFor(gi, products) && Decide(OneMore(gi, NAMELESS)).verdict == DENY
  {
    ShownToGate(products);
    TeaCartAllowed(products, gi);
    NamelessIsDenied(gi, NAMELESS);
    OpenedIsInitial();
    SampleOffered(products, Decide(gi).lines, gi.mandate.value);
  }
}
