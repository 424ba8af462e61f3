/**
 * Which add-ons are offered and which are picked, without the filters and orders the pickers use: the candidates are the
 * products in stock that the gate would not deny, and a pick is one that no other candidate beats.
 */
module Picking {
  import opened Basics
  import opened Gate
  import opened GateLaws
  import opened CrossSell
  import opened OfferLaws
  import opened PlainGate

  // ---- candidates --------------------------------------------------------------------------------

  lemma NewIsNotInCart(gi: GateInput, products: seq<Product>, id: string)
    requires Offering(gi, products) && forall i | 0 <= i < |gi.items.xs| && gi.items.xs[i].Item? :: gi.items.xs[i].id != IdStr(id)
    ensures !InCart(OfferLaws.CartOf(gi, products), id)
  {
    AllowMeans(gi);
    var lines := Decide(gi).lines;
    CartProductsHold(products, lines, id);
    forall i | 0 <= i < |lines| ensures lines[i].id != id {
      assert lines[i] == LineOf(gi.catalog, gi.items.xs[i]);
    }
  }

  /** What the gate finds in order is eligible. */
  lemma PassedIsEligible(gi: GateInput, products: seq<Product>, p: Product, t: Terms)
    requires Offering(gi, products) && PricesNonNegative(gi.catalog) && p in products && Says(gi.policy, t)
    requires p.inStock && MeetsAll(OneMore(gi, p), t, 14)
    ensures Eligible(OfferLaws.CartOf(gi, products), gi.policy, gi.mandate.value, p)
  {
    var gj := OneMore(gi, p);
    var n := |gi.items.xs|;
    var it := gj.items.xs[n];
    SnapshotShows(products);
    var k :| 0 <= k < |products| && products[k] == p;
    assert Entry(gi.catalog, it) == Some(SnapOf(p));
    assert Meets(gj, t, 0) && Meets(gj, t, 5) && Meets(gj, t, 6) && Meets(gj, t, 9);
    forall i | 0 <= i < n ensures gi.items.xs[i].Item? && gi.items.xs[i].id != it.id {
      assert gj.items.xs[i] == gi.items.xs[i] && Plain(gj.items.xs[i]);
    }
    NewIsNotInCart(gi, products, p.id);
    ContainsNames(gi.policy.blockedSkus, t.blocked, p.id);
    ContainsNames(gi.policy.allowedCategories, t.categories, p.category.value);
  }

  /** The list is not full, and the caps leave room for something. */
  predicate RoomToOffer(gi: GateInput, products: seq<Product>)
    requires gi.mandate.Some?
  {
    |CandidatesFor(gi, products)| < 8 && TotalOk(gi, Decide(gi).total + 1)
  }

  /** Unless the list of eight is full, a product with a name is a candidate exactly if it is in stock and the gate would
      not deny the cart with one unit of it added. */
  lemma CandidateIffNotDenied(gi: GateInput, products: seq<Product>, p: Product)
    requires Offering(gi, products) && PricesNonNegative(gi.catalog) && p in products && p.id != "" && RoomToOffer(gi, products)
    ensures p in CandidatesFor(gi, products) <==> p.inStock && Decide(OneMore(gi, p)).verdict != DENY
  {
    var t := StoredPolicySays(gi.policy);
    var gj := OneMore(gi, p);
    SnapshotShows(products);
    var k :| 0 <= k < |products| && products[k] == p;
    assert gi.catalog[p.id] == SnapOf(p) && p.price >= 0;
    RoomIsGap(gi, 1);
    CandidatesAreTheCheapest(OfferLaws.CartOf(gi, products), products, gi.policy, gi.mandate.value, gi.spentToday,
                             gi.spentTotal, LIMIT, Decide(gi).total, p);
    PlainVerdict(gj, t);
    if p.inStock && Decide(gj).verdict != DENY {
      PassedIsEligible(gi, products, p, t);
      HeadroomIsExact(gi, products, p);
    }
    if p in CandidatesFor(gi, products) {
      CandidatesAreSafe(gi, products, p);
    }
  }

  // ---- orders ------------------------------------------------------------------------------------

  /** Text a comes before b, or is b: a is a prefix of b, or smaller at the first place where they differ. */
  predicate NotAfter(a: string, b: string) {
    a <= b || exists i :: 0 <= i < |a| && i < |b| && a[..i] == b[..i] && a[i] < b[i]
  }

  lemma {:induction false} TextLeMeans(a: string, b: string)
    ensures TextLe(a, b) <==> NotAfter(a, b)
  {
    if a != "" && b != "" {
      if a[0] == b[0] {
        TextLeMeans(a[1..], b[1..]);
        TailOrder(a, b);
      } else if a[0] < b[0] {
        assert a[..0] == b[..0];
      } else {
        forall i | 0 < i <= |a| && i <= |b| ensures a[..i] != b[..i] {
          assert a[..i][0] != b[..i][0];
        }
      }
    }
  }

  lemma TailOrder(a: string, b: string)
    requires a != "" && b != "" && a[0] == b[0]
    ensures NotAfter(a, b) <==> NotAfter(a[1..], b[1..])
  {
    assert a == [a[0]] + a[1..] && b == [b[0]] + b[1..];
    if i :| 0 < i < |a| && i < |b| && a[..i] == b[..i] && a[i] < b[i] {
      assert a[1..][..i - 1] == a[..i][1..] && b[1..][..i - 1] == b[..i][1..];
      assert a[1..][i - 1] < b[1..][i - 1];
    }
    if i :| 0 <= i < |a[1..]| && i < |b[1..]| && a[1..][..i] == b[1..][..i] && a[1..][i] < b[1..][i] {
      assert a[..i + 1] == [a[0]] + a[1..][..i] && b[..i + 1] == [b[0]] + b[1..][..i];
      assert a[i + 1] < b[i + 1];
    }
  }

  /** The cart's tags that a product has. */
  function Shared(cart: seq<Product>, p: Product): set<string> {
    set i, j | 0 <= i < |cart| && 0 <= j < |cart[i].tags| && cart[i].tags[j] in p.tags :: cart[i].tags[j]
  }

  lemma SharedAreTags(cart: seq<Product>, p: Product)
    ensures SharedTags(CartTags(cart), p) == Shared(cart, p)
  {
  }

  /** More tags in common with the cart, or as many and cheaper, or equal in both and first by id. */
  predicate Beats(cart: seq<Product>, p: Product, q: Product) {
    var n, m := |Shared(cart, p)|, |Shared(cart, q)|;
    n > m || (n == m && (p.price < q.price || (p.price == q.price && NotAfter(p.id, q.id))))
  }

  /** Of the candidates for a cart, the deterministic picker offers two that no other beats, or all if there are fewer. */
  lemma FakePicksTheBest(cart: seq<Product>, candidates: seq<Product>, p: Product)
    requires p in candidates
    ensures var chosen := Take(Sort(BestMatch(CartTags(cart)), candidates), MAX_OFFERS);
            && |chosen| == Min(2, |candidates|)
            && (p in chosen || forall i | 0 <= i < |chosen| :: Beats(cart, chosen[i], p))
  {
    var tags := CartTags(cart);
    var chosen := Take(Sort(BestMatch(tags), candidates), MAX_OFFERS);
    SortSorts(BestMatch(tags), candidates);
    SortLength(BestMatch(tags), candidates);
    FakeOffersAreTheBest(tags, candidates, p);
    if p !in chosen {
      forall i | 0 <= i < |chosen| ensures Beats(cart, chosen[i], p) {
        assert BestMatch(tags)(chosen[i], p);
        SharedAreTags(cart, p);
        SharedAreTags(cart, chosen[i]);
        TextLeMeans(chosen[i].id, p.id);
      }
    }
  }

  lemma SortLength(le: Order, xs: seq<Product>)
    requires multiset(Sort(le, xs)) == multiset(xs)
    ensures |Sort(le, xs)| == |xs|
  {
    assert |multiset(Sort(le, xs))| == |multiset(xs)|;
  }

  /** The candidates come cheapest first, then by id. */
  lemma CandidatesInOrder(gi: GateInput, products: seq<Product>)
    requires Offering(gi, products)
    ensures var cs := CandidatesFor(gi, products);
            forall i, j | 0 <= i < j < |cs| ::
              cs[i].price < cs[j].price || (cs[i].price == cs[j].price && NotAfter(cs[i].id, cs[j].id))
  {
    var cs := CandidatesFor(gi, products);
    if cs != [] {
      CandidatesAreTheCheapest(OfferLaws.CartOf(gi, products), products, gi.policy, gi.mandate.value, gi.spentToday,
                               gi.spentTotal, LIMIT, Decide(gi).total, cs[0]);
      forall i, j | 0 <= i < j < |cs|
        ensures cs[i].price < cs[j].price || (cs[i].price == cs[j].price && NotAfter(cs[i].id, cs[j].id))
      {
        assert PriceThenId(cs[i], cs[j]);
        TextLeMeans(cs[i].id, cs[j].id);
      }
    }
  }

  // ---- a model's reply ---------------------------------------------------------------------------

  /** Entry i of the reply names this candidate. */
  predicate NamedAt(candidates: seq<Product>, reply: seq<Suggestion>, i: nat, p: Product) {
    i < |reply| && p in candidates && reply[i] == Suggests(Some(p.id))
  }

  ghost predicate Named(candidates: seq<Product>, reply: seq<Suggestion>, p: Product) { exists i: nat :: NamedAt(candidates, reply, i, p) }

  lemma NamedGrows(candidates: seq<Product>, reply: seq<Suggestion>, p: Product)
    requires reply != []
    ensures var n := |reply| - 1;
            Named(candidates, reply, p) <==> Named(candidates, reply[..n], p) || NamedAt(candidates, reply, n, p)
  {
    var n := |reply| - 1;
    if i: nat :| NamedAt(candidates, reply[..n], i, p) {
      assert NamedAt(candidates, reply, i, p);
    }
    if i: nat :| NamedAt(candidates, reply, i, p) && i < n {
      assert NamedAt(candidates, reply[..n], i, p);
    }
  }

  /** The products a reply yields are exactly the candidates it names. */
  lemma {:induction false} MentionedAreNamed(candidates: seq<Product>, reply: seq<Suggestion>, p: Product)
    requires UniqueIds(candidates)
    ensures p in Mentioned(candidates, reply) <==> Named(candidates, reply, p)
  {
    if reply != [] {
      var n := |reply| - 1;
      MentionedAreNamed(candidates, reply[..n], p);
      NamedGrows(candidates, reply, p);
      OneMoreMentioned(candidates, reply, p);
    }
  }

  lemma OneMoreMentioned(candidates: seq<Product>, reply: seq<Suggestion>, p: Product)
    requires UniqueIds(candidates) && reply != []
    ensures var n := |reply| - 1;
            p in Mentioned(candidates, reply) <==> p in Mentioned(candidates, reply[..n]) || NamedAt(candidates, reply, n, p)
  {
    var n := |reply| - 1;
    var front := Mentioned(candidates, reply[..n]);
    if NamedAt(candidates, reply, n, p) {
      NamedIsChosen(candidates, reply[n], p);
      if k :| 0 <= k < |front| && front[k].id == p.id {
        SameIdSameProduct(candidates, p, front[k]);
      }
    }
  }

  lemma NamedIsChosen(candidates: seq<Product>, s: Suggestion, p: Product)
    requires UniqueIds(candidates) && p in candidates && s == Suggests(Some(p.id))
    ensures Chosen(candidates, s) == Some(p)
  {
    var i :| 0 <= i < |candidates| && candidates[i] == p;
    assert InCart(candidates, p.id);
    SameIdSameProduct(candidates, p, ById(candidates, p.id).value);
  }

  /** They come in the order in which the reply first names them. */
  lemma {:induction false} MentionedInOrder(candidates: seq<Product>, reply: seq<Suggestion>, i: nat, j: nat) returns (k: nat)
    requires UniqueIds(candidates) && i < j < |Mentioned(candidates, reply)|
    ensures NamedAt(candidates, reply, k, Mentioned(candidates, reply)[i])
    ensures forall l | 0 <= l <= k :: !NamedAt(candidates, reply, l, Mentioned(candidates, reply)[j])
  {
    var n := |reply| - 1;
    var front, all := Mentioned(candidates, reply[..n]), Mentioned(candidates, reply);
    if j < |front| {
      k := MentionedInOrder(candidates, reply[..n], i, j);
      forall l | 0 <= l <= k ensures !NamedAt(candidates, reply, l, all[j]) {
        assert !NamedAt(candidates, reply[..n], l, all[j]);
      }
    } else {
      assert all == front + [all[j]];
      MentionedAreNamed(candidates, reply[..n], all[i]);
      MentionedAreNamed(candidates, reply[..n], all[j]);
      var first: nat :| NamedAt(candidates, reply[..n], first, all[i]);
      k := first;
      forall l | 0 <= l <= k ensures !NamedAt(candidates, reply, l, all[j]) {
        assert !NamedAt(candidates, reply[..n], l, all[j]);
      }
    }
  }
}
