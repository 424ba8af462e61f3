/**
 * Who may buy what, said about the shop's own tables: when the gate run of any call is ALLOW, when it asks for a
 * review, and what it then says of the cart. Nothing here mentions the input the run is given.
 */
module Buying {
  import opened Basics
  import opened Gate
  import opened GateLaws
  import opened Records
  import opened Books
  import opened Checkout
  import opened PlainGate

  /** The cart is one the merchant sells to agents under these terms. */
  predicate OnOffer(cat: Catalog, t: Terms, items: Items) {
    && Formed(items) && Known(cat, items.xs) && (t.inStockOnly ==> InStock(cat, items.xs))
    && NoneOf(t.blocked, items.xs) && AllIn(t.categories, cat, items.xs) && AtMost(t.maxQty, items.xs)
    && Cost(cat, items.xs) <= t.maxOrder
  }

  /** Mandate m is the agent's, in force, covers the cart's categories, and has room for its cost: in one order, on this
      day of 86400 seconds, and in all, counting live reservations less refunds. */
  predicate Covers(w: World, agent: nat, m: nat, items: Items, except: Option<nat>, now: int)
    requires items.ItemList?
  {
    var cost := Cost(w.catalog, items.xs);
    && m < |w.mandates|
    && var terms := w.mandates[m];
       && terms.agent == agent && terms.standing == Active && terms.startsAt <= now < terms.expiresAt && terms.currency == "INR"
       && (terms.categories != [] ==> AllIn(terms.categories, w.catalog, items.xs))
       && cost <= terms.perTxnCap
       && Sum(Query(m, Some(now / 86400), except), w.reservations) + cost <= terms.dailyCap
       && Max(0, Sum(Query(m, None, except), w.reservations) - RefundedTo(w.refunds, m)) + cost <= terms.totalCap
  }

  /** The order may go ahead, the merchant's review aside. `except` is the session whose own hold is not counted. */
  predicate Orderable(w: World, t: Terms, agent: nat, items: Items, except: Option<nat>, now: int) {
    && agent < |w.agents| && w.agents[agent] == Active && OnOffer(w.catalog, t, items)
    && ActiveFor(w.mandates, agent, now).Some? && Covers(w, agent, ActiveFor(w.mandates, agent, now).value, items, except, now)
  }

  /** No review is needed, or the session's latest one approved exactly this cost. */
  predicate Reviewed(w: World, t: Terms, sid: Option<nat>, cost: int) {
    t.reviewAbove > 0 && cost > t.reviewAbove ==>
      && sid.Some? && LatestReview(w.reviews, sid.value).Some?
      && LatestReview(w.reviews, sid.value).value.approved && LatestReview(w.reviews, sid.value).value.total == cost
  }

  // ---- the gate run of a call --------------------------------------------------------------------

  lemma {:induction false} ExpectedIsCost(cat: Catalog, xs: seq<Item>)
    requires Known(cat, xs) && forall i | 0 <= i < |xs| :: Plain(xs[i])
    ensures ExpectedSum(cat, xs) == Some(Cost(cat, xs))
  {
    if xs != [] {
      ExpectedIsCost(cat, xs[..|xs| - 1]);
      assert Entry(cat, xs[|xs| - 1]).Some? && Plain(xs[|xs| - 1]);
    }
  }

  lemma FirstFourteen(gi: GateInput, t: Terms)
    ensures MeetsAll(gi, t, 14) <==>
              && Meets(gi, t, 0) && Meets(gi, t, 1) && Meets(gi, t, 2) && Meets(gi, t, 3) && Meets(gi, t, 4)
              && Meets(gi, t, 5) && Meets(gi, t, 6) && Meets(gi, t, 7) && Meets(gi, t, 8) && Meets(gi, t, 9)
              && Meets(gi, t, 10) && Meets(gi, t, 11) && Meets(gi, t, 12) && Meets(gi, t, 13)
    ensures MeetsAll(gi, t, 15) <==> MeetsAll(gi, t, 14) && Meets(gi, t, 14)
  {
  }

  lemma CartRulesMean(gi: GateInput, t: Terms)
    requires gi.items.ItemList?
    ensures (Meets(gi, t, 0) && Meets(gi, t, 3) && Meets(gi, t, 4) && Meets(gi, t, 5) && Meets(gi, t, 6) && Meets(gi, t, 7)
             && Meets(gi, t, 8)) <==> OnOffer(gi.catalog, t, gi.items)
  {
  }

  lemma NoListNoOffer(gi: GateInput, t: Terms)
    requires !gi.items.ItemList?
    ensures !Meets(gi, t, 0) && !OnOffer(gi.catalog, t, gi.items)
  {
  }

  lemma BuyerRulesMean(w: World, t: Terms, agent: nat, items: Items, status: Option<Status>, mode: Mode, sid: Option<nat>,
                       excludeSelf: bool, now: int)
    requires items.ItemList?
    ensures var gi := InputFor(w, agent, items, status, mode, sid, excludeSelf, now);
            var m := ActiveFor(w.mandates, agent, now);
            (Meets(gi, t, 1) && Meets(gi, t, 2) && Meets(gi, t, 9) && Meets(gi, t, 10) && Meets(gi, t, 11) && Meets(gi, t, 12))
            <==> (agent < |w.agents| && w.agents[agent] == Active && m.Some?
                  && Covers(w, agent, m.value, items, if excludeSelf then sid else None, now))
  {
  }

  lemma OrderRulesMean(w: World, t: Terms, agent: nat, items: Items, status: Option<Status>, mode: Mode, sid: Option<nat>,
                       excludeSelf: bool, now: int)
    ensures var gi := InputFor(w, agent, items, status, mode, sid, excludeSelf, now);
            MeetsAll(gi, t, 14) <==>
            Orderable(w, t, agent, items, if excludeSelf then sid else None, now) && InState(mode, status)
  {
    var gi := InputFor(w, agent, items, status, mode, sid, excludeSelf, now);
    FirstFourteen(gi, t);
    if items.ItemList? {
      CartRulesMean(gi, t);
      BuyerRulesMean(w, t, agent, items, status, mode, sid, excludeSelf, now);
    } else {
      NoListNoOffer(gi, t);
    }
  }

  lemma ReviewRuleMeans(w: World, t: Terms, agent: nat, items: Items, status: Option<Status>, mode: Mode, sid: Option<nat>,
                        excludeSelf: bool, now: int)
    requires OnOffer(w.catalog, t, items)
    ensures Meets(InputFor(w, agent, items, status, mode, sid, excludeSelf, now), t, 14)
            <==> Reviewed(w, t, sid, Cost(w.catalog, items.xs))
  {
    ExpectedIsCost(w.catalog, items.xs);
  }

  /** The gate run of any call: ALLOW exactly if the order may go ahead in this state and is reviewed, REVIEW exactly if
      only the review is missing; and then the lines are the requested items at the catalog's prices, and the total is
      their cost. */
  lemma RunMeans(w: World, t: Terms, agent: nat, items: Items, status: Option<Status>, mode: Mode, sid: Option<nat>,
                 excludeSelf: bool, now: int)
    requires Says(w.policy, t) && PricesNonNegative(w.catalog)
    ensures var rl := Judge(w, agent, items, status, mode, sid, excludeSelf, now); var d := rl.decision;
            var may := Orderable(w, t, agent, items, if excludeSelf then sid else None, now) && InState(mode, status);
            && (d.verdict == ALLOW <==> may && Reviewed(w, t, sid, Cost(w.catalog, items.xs)))
            && (d.verdict == REVIEW <==> may && !Reviewed(w, t, sid, Cost(w.catalog, items.xs)))
            && (d.verdict != DENY ==>
                  items.ItemList? && Quoted(w.catalog, items.xs, d.lines) && d.total == Cost(w.catalog, items.xs))
            && Shows(w.catalog, items, d.lines, d.total)
            && rl.mandate == ActiveFor(w.mandates, agent, now)
  {
    var gi := InputFor(w, agent, items, status, mode, sid, excludeSelf, now);
    PlainVerdict(gi, t);
    FirstFourteen(gi, t);
    OrderRulesMean(w, t, agent, items, status, mode, sid, excludeSelf, now);
    if MeetsAll(gi, t, 14) {
      ReviewRuleMeans(w, t, agent, items, status, mode, sid, excludeSelf, now);
    }
  }
}
