/** What a gate run inside the service guarantees to the money steps that follow it. */
module Rulings {
  import opened Basics
  import opened Gate
  import opened GateLaws
  import opened CartLaws
  import opened Records
  import opened Books
  import opened Checkout

  /** ALLOW leaves room for the total under every cap of the mandate in force, given the spend the gate was shown. */
  predicate Spendable(w: World, agent: nat, rl: Ruling, except: Option<nat>, now: int) {
    rl.decision.verdict == ALLOW ==>
      && rl.mandate.Some? && rl.mandate.value < |w.mandates|
      && var m := w.mandates[rl.mandate.value]; var total := rl.decision.total;
         && Applies(m, agent, now)
         && 0 <= total <= m.perTxnCap
         && SpentToday(w.reservations, rl.mandate.value, now, except) + total <= m.dailyCap
         && SpentTotal(w.reservations, w.refunds, rl.mandate.value, except) + total <= m.totalCap
  }

  /** ALLOW above the review threshold means the session's latest review approved exactly this total. */
  predicate ReviewBound(w: World, sid: Option<nat>, rl: Ruling) {
    var t := Threshold(rl.input.policy);
    (rl.decision.verdict == ALLOW && t.Some? && rl.decision.total > t.value) ==>
      && sid.Some? && LatestReview(w.reviews, sid.value).Some?
      && LatestReview(w.reviews, sid.value).value.approved
      && LatestReview(w.reviews, sid.value).value.total == rl.decision.total
  }

  /** The service's independent total is the gate's total whenever the cart is well formed and known. */
  lemma {:induction false} ExpectedSumIsSum(cat: Catalog, xs: seq<Item>)
    ensures ExpectedSum(cat, xs) ==
            if forall i | 0 <= i < |xs| :: Priceable(cat, xs[i]) then Some(SumValue(cat, xs)) else None
  {
    if xs != [] {
      var front := xs[..|xs| - 1];
      ExpectedSumIsSum(cat, front);
      if forall i | 0 <= i < |front| :: Priceable(cat, front[i]) {
        if Priceable(cat, xs[|xs| - 1]) {
          assert forall i | 0 <= i < |xs| :: Priceable(cat, xs[i]);
        }
      } else {
        var i :| 0 <= i < |front| && !Priceable(cat, front[i]);
        assert !Priceable(cat, xs[i]);
      }
    }
  }

  lemma ExpectedIsGateTotal(gi: GateInput)
    requires Passes(gi, 0) && Passes(gi, 3)
    ensures ExpectedTotal(gi.catalog, gi.items) == Some(CartTotal(gi))
  {
    KnownMeans(gi);
    ExpectedSumIsSum(gi.catalog, gi.items.xs);
  }

  lemma JudgeSpendable(w: World, agent: nat, items: Items, status: Option<Status>, mode: Mode, sid: Option<nat>,
                       excludeSelf: bool, now: int)
    ensures Spendable(w, agent, Judge(w, agent, items, status, mode, sid, excludeSelf, now), if excludeSelf then sid else None, now)
  {
    var gi := InputFor(w, agent, items, status, mode, sid, excludeSelf, now);
    if Decide(gi).verdict == ALLOW {
      AllowMeans(gi);
    }
  }

  lemma JudgeReviewBound(w: World, agent: nat, items: Items, status: Option<Status>, mode: Mode, sid: Option<nat>,
                         excludeSelf: bool, now: int)
    ensures ReviewBound(w, sid, Judge(w, agent, items, status, mode, sid, excludeSelf, now))
  {
    var gi := InputFor(w, agent, items, status, mode, sid, excludeSelf, now);
    if Decide(gi).verdict == ALLOW {
      AllowIffAllPass(gi);
      assert Passes(gi, 0) && Passes(gi, 3) && Passes(gi, 14);
      ExpectedIsGateTotal(gi);
    }
  }

  /** The recorded input is all the gate needs to reach the same decision. */
  lemma RecordedSuffices(gi: GateInput)
    ensures Decide(Recorded(gi)) == Decide(gi)
  {
    CatalogFrame(gi, Recorded(gi).catalog);
  }

  /** An ALLOWed decision's lines are the cart, priced; re-reading the cart from the lines gives the cart back. */
  lemma StoredItemsRoundTrip(gi: GateInput)
    requires Decide(gi).verdict == ALLOW
    ensures gi.items == ItemList(StoredItems(Decide(gi).lines))
  {
    AllowMeans(gi);
    var lines := Decide(gi).lines;
    assert StoredItems(lines) == gi.items.xs by {
      forall i | 0 <= i < |lines| ensures StoredItems(lines)[i] == gi.items.xs[i] {
        assert Priceable(gi.catalog, gi.items.xs[i]) && lines[i] == LineOf(gi.catalog, gi.items.xs[i]);
      }
    }
  }

  /** A complete of a ready session is decided by one authoritative gate run on its stored cart. */
  lemma CompleteIsRuled(w: World, agent: nat, sid: nat, key: Option<string>, now: int, link: LinkAnswer)
    requires Owned(w, agent, sid) && w.sessions[sid].status == Ready
    ensures var items := ItemList(StoredItems(w.sessions[sid].lines));
            Complete(w, agent, sid, key, now, link)
            == CompleteWith(w, sid, key, now, link, Judge(w, agent, items, Some(Ready), Authoritative, Some(sid), false, now))
  {
  }
}
