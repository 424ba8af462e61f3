/** Offers and the gate: the headroom is exactly the room the gate leaves. */
module OfferLaws {
  import opened Policy
  import opened Gate
  import opened GateLaws
  import opened CrossSell

  // ---- products and the gate's catalog -----------------------------------------------------------

  function SnapOf(p: Product): Snap { Snap(p.title, p.price, p.inStock, p.category) }

  predicate UniqueIds(products: seq<Product>) { forall i, j | 0 <= i < j < |products| :: products[i].id != products[j].id }

  /** The catalog the gate is shown, row by row. */
  function Snapshot(products: seq<Product>): Catalog {
    if products == [] then map[]
    else Snapshot(products[..|products| - 1])[products[|products| - 1].id := SnapOf(products[|products| - 1])]
  }

  lemma {:induction false} SnapshotShows(products: seq<Product>)
    requires UniqueIds(products)
    ensures forall id :: id in Snapshot(products) <==> InCart(products, id)
    ensures forall i | 0 <= i < |products| :: products[i].id in Snapshot(products) && Snapshot(products)[products[i].id] == SnapOf(products[i])
  {
    if products != [] {
      var n := |products| - 1;
      SnapshotShows(products[..n]);
      forall id ensures id in Snapshot(products) <==> InCart(products, id) {
        if InCart(products[..n], id) {
          var i :| 0 <= i < n && products[..n][i].id == id;
          assert products[i].id == id;
        }
        if InCart(products, id) && products[n].id != id {
          var i :| 0 <= i < |products| && products[i].id == id;
          assert products[..n][i].id == id;
        }
      }
      forall i | 0 <= i < n ensures products[i].id in Snapshot(products) && Snapshot(products)[products[i].id] == SnapOf(products[i]) {
        assert products[..n][i] == products[i];
      }
    }
  }

  /** The products of the priced lines. */
  function CartProducts(products: seq<Product>, lines: seq<Line>): seq<Product> {
    if lines == [] then []
    else
      var p := ById(products, lines[|lines| - 1].id);
      CartProducts(products, lines[..|lines| - 1]) + (if p.Some? then [p.value] else [])
  }

  lemma {:induction false} CartProductsHold(products: seq<Product>, lines: seq<Line>, id: string)
    ensures InCart(CartProducts(products, lines), id) <==> InCart(products, id) && exists i | 0 <= i < |lines| :: lines[i].id == id
  {
    if lines != [] {
      var n := |lines| - 1;
      var front := CartProducts(products, lines[..n]);
      CartProductsHold(products, lines[..n], id);
      var p := ById(products, lines[n].id);
      var all := CartProducts(products, lines);
      if InCart(front, id) {
        var k :| 0 <= k < |front| && front[k].id == id;
        assert all[k].id == id;
      }
      if p.Some? {
        assert all[|front|] == p.value;
      }
      if exists i | 0 <= i < |lines| :: lines[i].id == id {
        var i :| 0 <= i < |lines| && lines[i].id == id;
        if i < n {
          assert lines[..n][i].id == id;
        }
      }
      if InCart(all, id) && !InCart(front, id) {
        var k :| 0 <= k < |all| && all[k].id == id;
        assert k == |front|;
      }
      if exists i | 0 <= i < n :: lines[..n][i].id == id {
        var i :| 0 <= i < n && lines[..n][i].id == id;
        assert lines[i].id == id;
      }
    }
  }

  // ---- only the total matters --------------------------------------------------------------------

  /** For such a cart the verdict is decided by its total: over a cap it is denied by one of the four cap rules;
      within them it is allowed, or waits for review when it is above the threshold and not approved. */
  lemma OnlyTheTotalMatters(gi: GateInput)
    requires AcceptableAtSomePrice(gi)
    ensures var total := SumValue(gi.catalog, gi.items.xs); var d := Decide(gi);
            if TotalOk(gi, total) then
              d.verdict == (if ReviewOk(gi, total) then ALLOW else REVIEW) && d.total == total
            else d.verdict == DENY && d.rule in {G(8), G(10), G(11), G(12)}
  {
    PricelessRulesPass(gi);
    TotalDecides(gi);
  }

  lemma TotalDecides(gi: GateInput)
    requires gi.mandate.Some? && PolicyReadable(gi.policy)
    requires PassedUpTo(gi, 8) && Passes(gi, 9) && Passes(gi, 13)
    ensures var total := CartTotal(gi); var d := Decide(gi);
            if TotalOk(gi, total) then
              d.verdict == (if ReviewOk(gi, total) then ALLOW else REVIEW) && d.total == total
            else d.verdict == DENY && d.rule in {G(8), G(10), G(11), G(12)}
  {
    CapRulesMean(gi);
    if Passes(gi, 8) && Passes(gi, 10) && Passes(gi, 11) && Passes(gi, 12) {
      WithinCaps(gi);
    } else {
      CapStops(gi);
    }
  }

  lemma CapStops(gi: GateInput)
    requires PassedUpTo(gi, 8) && Passes(gi, 9) && !RuleOutcome(gi, 8).Raise?
    requires !(Passes(gi, 8) && Passes(gi, 10) && Passes(gi, 11) && Passes(gi, 12))
    ensures Decide(gi).verdict == DENY && Decide(gi).rule in {G(8), G(10), G(11), G(12)}
  {
    CapsOnlyFail(gi);
    var k: nat := if !Passes(gi, 8) then 8 else if !Passes(gi, 10) then 10 else if !Passes(gi, 11) then 11 else 12;
    DecidedAt(gi, 0, k);
    FailureDenies(k, RuleOutcome(gi, k), PassChecks(gi, k), CartLines(gi), CartTotal(gi));
  }

  lemma CapsOnlyFail(gi: GateInput)
    ensures !RuleOutcome(gi, 10).Raise? && !RuleOutcome(gi, 11).Raise? && !RuleOutcome(gi, 12).Raise?
  {
  }

  lemma WithinCaps(gi: GateInput)
    requires PassedUpTo(gi, 14)
    ensures Decide(gi).verdict == (if ReviewOk(gi, CartTotal(gi)) then ALLOW else REVIEW) && Decide(gi).total == CartTotal(gi)
  {
    if Passes(gi, 14) {
      DecidedAt(gi, 0, RULES);
    } else {
      DecidedAt(gi, 0, 14);
    }
  }

  lemma FailureDenies(k: nat, o: Outcome, checks: seq<Check>, lines: seq<Line>, total: int)
    requires k != 14 && o.Fail?
    ensures Stop(k, o, checks, lines, total).verdict == DENY && Stop(k, o, checks, lines, total).rule == G(k)
  {
  }

  // ---- one more product --------------------------------------------------------------------------

  function OneMore(gi: GateInput, p: Product): GateInput
    requires gi.items.ItemList?
  {
    gi.(items := ItemList(gi.items.xs + [Item(IdStr(p.id), QtyInt(1))]))
  }

  /** The cart of an allowed decision, and the shop it was judged in. */
  predicate Offering(gi: GateInput, products: seq<Product>) {
    && Decide(gi).verdict == ALLOW && gi.items.ItemList? && |gi.items.xs| < MAX_LINES && gi.mandate.Some?
    && UniqueIds(products) && gi.catalog == Snapshot(products) && ValidPolicy(gi.policy)
  }

  function CartOf(gi: GateInput, products: seq<Product>): seq<Product> { CartProducts(products, Decide(gi).lines) }

  function Room(gi: GateInput): int
    requires gi.mandate.Some?
  {
    Headroom(gi.mandate.value, gi.policy, Decide(gi).total, gi.spentToday, gi.spentTotal)
  }

  /** An allowed cart leaves no cap exceeded, so the headroom is the tightest gap itself. */
  lemma RoomIsGap(gi: GateInput, price: int)
    requires Decide(gi).verdict == ALLOW && gi.mandate.Some? && ValidPolicy(gi.policy)
    ensures TotalOk(gi, Decide(gi).total + price) <==> price <= Room(gi)
  {
    AllowMeans(gi);
  }

  lemma NotInCart(gi: GateInput, products: seq<Product>, p: Product)
    requires Offering(gi, products) && p in products && !InCart(CartOf(gi, products), p.id)
    ensures forall i | 0 <= i < |gi.items.xs| :: gi.items.xs[i].Item? && gi.items.xs[i].id != IdStr(p.id)
  {
    AllowMeans(gi);
    var lines := Decide(gi).lines;
    CartProductsHold(products, lines, p.id);
    assert InCart(products, p.id);
    forall i | 0 <= i < |gi.items.xs| ensures gi.items.xs[i].Item? && gi.items.xs[i].id != IdStr(p.id) {
      assert Priceable(gi.catalog, gi.items.xs[i]) && lines[i] == LineOf(gi.catalog, gi.items.xs[i]);
      assert lines[i].id != p.id;
    }
  }

  lemma EligibleItemOk(gi: GateInput, products: seq<Product>, p: Product)
    requires Offering(gi, products) && p in products && p.price >= 0 && p.id != ""
    requires Eligible(CartOf(gi, products), gi.policy, gi.mandate.value, p)
    ensures ItemOk(OneMore(gi, p), Item(IdStr(p.id), QtyInt(1)))
    ensures Value(gi.catalog, Item(IdStr(p.id), QtyInt(1))) == p.price
  {
    SnapshotShows(products);
    var i :| 0 <= i < |products| && products[i] == p;
    assert gi.catalog[p.id] == SnapOf(p);
  }

  lemma OneMoreAcceptable(gi: GateInput, products: seq<Product>, p: Product)
    requires Offering(gi, products) && p in products && p.price >= 0 && p.id != ""
    requires Eligible(CartOf(gi, products), gi.policy, gi.mandate.value, p)
    ensures AcceptableAtSomePrice(OneMore(gi, p))
    ensures SumValue(gi.catalog, OneMore(gi, p).items.xs) == Decide(gi).total + p.price
  {
    var it := Item(IdStr(p.id), QtyInt(1));
    var gj := OneMore(gi, p);
    AllowIffAcceptable(gi);
    NotInCart(gi, products, p);
    EligibleItemOk(gi, products, p);
    assert gj.items.xs[..|gj.items.xs| - 1] == gi.items.xs;
    forall i | 0 <= i < |gj.items.xs| ensures ItemOk(gj, gj.items.xs[i]) {
      if i < |gi.items.xs| {
        assert gj.items.xs[i] == gi.items.xs[i] && ItemOk(gi, gi.items.xs[i]);
      }
    }
    forall i, j | 0 <= i < j < |gj.items.xs| && gj.items.xs[i].Item? && gj.items.xs[j].Item?
      ensures gj.items.xs[i].id != gj.items.xs[j].id
    {
      assert gj.items.xs[i] == gi.items.xs[i];
      if j < |gi.items.xs| {
        assert gj.items.xs[j] == gi.items.xs[j];
      }
    }
  }

  /** The headroom is exact: one unit of an otherwise eligible product is never denied if its price is within the
      headroom, and always denied, by one of the four cap rules, if it is above. Within the headroom the verdict is
      ALLOW unless the new total needs a review that has not been given. */
  lemma HeadroomIsExact(gi: GateInput, products: seq<Product>, p: Product)
    requires Offering(gi, products) && p in products && p.price >= 0 && p.id != ""
    requires Eligible(CartOf(gi, products), gi.policy, gi.mandate.value, p)
    ensures var d := Decide(OneMore(gi, p)); var total := Decide(gi).total + p.price;
            if p.price <= Room(gi) then
              d.verdict == (if ReviewOk(gi, total) then ALLOW else REVIEW) && d.total == total
            else d.verdict == DENY && d.rule in {G(8), G(10), G(11), G(12)}
  {
    OneMoreAcceptable(gi, products, p);
    OnlyTheTotalMatters(OneMore(gi, p));
    RoomIsGap(gi, p.price);
  }

  /** Without a name a product cannot be bought: the gate refuses the whole cart. */
  lemma NamelessIsDenied(gi: GateInput, p: Product)
    requires gi.items.ItemList? && p.id == ""
    ensures Decide(OneMore(gi, p)).verdict == DENY && Decide(OneMore(gi, p)).rule == G(0)
  {
    var gj := OneMore(gi, p);
    WellFormedMeans(gj);
    assert !PlainItem(gj.items.xs[|gi.items.xs|]);
    DecidedAt(gj, 0, 0);
  }

  /** What the service offers add-ons from. */
  function CandidatesFor(gi: GateInput, products: seq<Product>): seq<Product> {
    if Decide(gi).verdict != ALLOW || gi.mandate.None? then []
    else
      Candidates(CartOf(gi, products), products, gi.policy, gi.mandate.value, gi.spentToday, gi.spentTotal, LIMIT, Decide(gi).total)
  }

  /** Accepting any candidate is never denied, except for a product whose id is empty, which the catalog does not
      rule out. */
  lemma CandidatesAreSafe(gi: GateInput, products: seq<Product>, p: Product)
    requires Offering(gi, products) && PricesNonNegative(gi.catalog) && p in CandidatesFor(gi, products)
    ensures Decide(OneMore(gi, p)).verdict != DENY <==> p.id != ""
    ensures p.id != "" ==> Decide(OneMore(gi, p)).total == Decide(gi).total + p.price
  {
    CandidatesAreTheCheapest(CartOf(gi, products), products, gi.policy, gi.mandate.value, gi.spentToday, gi.spentTotal,
                             LIMIT, Decide(gi).total, p);
    if p.id == "" {
      NamelessIsDenied(gi, p);
    } else {
      SnapshotShows(products);
      var i :| 0 <= i < |products| && products[i] == p;
      assert gi.catalog[p.id] == SnapOf(p);
      HeadroomIsExact(gi, products, p);
    }
  }

  // ---- what the pickers offer --------------------------------------------------------------------

  /** Every offer is one of the candidates, there are at most two, and they are for different products. */
  predicate GoodOffers(offers: seq<Offer>, candidates: seq<Product>) {
    && |offers| <= MAX_OFFERS
    && (forall i | 0 <= i < |offers| :: exists p :: p in candidates && offers[i] == OfferOf(p))
    && (forall i, j | 0 <= i < j < |offers| :: offers[i].id != offers[j].id)
  }

  lemma LLMOffersAreGood(candidates: seq<Product>, reply: seq<Suggestion>)
    ensures GoodOffers(OffersOf(Take(Mentioned(candidates, reply), MAX_OFFERS)), candidates)
  {
    var ps := Take(Mentioned(candidates, reply), MAX_OFFERS);
    forall i | 0 <= i < |ps| ensures exists p :: p in candidates && OffersOf(ps)[i] == OfferOf(p) {
      assert ps[i] in candidates && OffersOf(ps)[i] == OfferOf(ps[i]);
    }
  }

  lemma FakeOffersAreGood(tags: set<string>, candidates: seq<Product>)
    requires UniqueIds(candidates)
    ensures GoodOffers(OffersOf(Take(Sort(BestMatch(tags), candidates), MAX_OFFERS)), candidates)
  {
    var sorted := Sort(BestMatch(tags), candidates);
    SortSorts(BestMatch(tags), candidates);
    SameMembers(sorted, candidates);
    var ps := Take(sorted, MAX_OFFERS);
    forall i | 0 <= i < |ps| ensures exists p :: p in candidates && OffersOf(ps)[i] == OfferOf(p) {
      assert ps[i] in sorted && OffersOf(ps)[i] == OfferOf(ps[i]);
    }
    if |ps| == 2 && ps[0].id == ps[1].id {
      assert ps[0] in candidates && ps[1] in candidates;
      SameIdSameProduct(candidates, ps[0], ps[1]);
      TwoCopies(sorted, candidates);
    }
  }

  /** A candidate the deterministic picker passes over comes no earlier than either it offers, by shared tags, then
      price, then id; and it passes one over only when it offers two. */
  lemma FakeOffersAreTheBest(tags: set<string>, candidates: seq<Product>, p: Product)
    requires p in candidates
    ensures var chosen := Take(Sort(BestMatch(tags), candidates), MAX_OFFERS);
            p in chosen || (|chosen| == MAX_OFFERS && forall i | 0 <= i < |chosen| :: BestMatch(tags)(chosen[i], p))
  {
    var sorted := Sort(BestMatch(tags), candidates);
    BestMatchOrders(tags);
    SortSorts(BestMatch(tags), candidates);
    SameMembers(sorted, candidates);
    var k :| 0 <= k < |sorted| && sorted[k] == p;
    if k < MAX_OFFERS {
      assert p == Take(sorted, MAX_OFFERS)[k];
    }
  }

  lemma SameIdSameProduct(ps: seq<Product>, p: Product, q: Product)
    requires UniqueIds(ps) && p in ps && q in ps && p.id == q.id
    ensures p == q
  {
  }

  lemma TwoCopies(sorted: seq<Product>, ps: seq<Product>)
    requires multiset(sorted) == multiset(ps) && |sorted| >= 2 && sorted[0] == sorted[1]
    ensures !UniqueIds(ps)
  {
    assert sorted == [sorted[0]] + ([sorted[1]] + sorted[2..]);
    assert multiset(ps)[sorted[0]] >= 2;
    if UniqueIds(ps) {
      AtMostOnce(ps, sorted[0]);
    }
  }

  lemma {:induction false} AtMostOnce(ps: seq<Product>, p: Product)
    requires UniqueIds(ps)
    ensures multiset(ps)[p] <= 1
  {
    if ps != [] {
      var n := |ps| - 1;
      assert ps == ps[..n] + [ps[n]];
      AtMostOnce(ps[..n], p);
      if ps[n] == p {
        assert p !in ps[..n];
      }
    }
  }
}
