/**
 * Retry fairness. Money held by a checkout is never taken from it by other spending: as long as nothing the
 * merchant controls changes for the cart and the day is the same, the gate run before the second attempt, with the
 * session's own hold left out, is again ALLOW for the same total.
 */
module Fairness {
  import opened Basics
  import opened Gate
  import opened GateLaws
  import opened Records
  import opened Books
  import opened Checkout
  import opened Audit
  import opened Rulings
  import opened Accounts
  import opened Evolution
  import opened Runs
  import opened Safety

  // ---- spend without one's own hold --------------------------------------------------------------

  /** What one session's live reservations add to a query. */
  function OwnPart(q: Query, rs: seq<Reservation>, sid: nat): int {
    if rs == [] then 0
    else OwnPart(q, rs[..|rs| - 1], sid) + (if rs[|rs| - 1].session == sid then Weight(q, rs[|rs| - 1]) else 0)
  }

  lemma {:induction false} SumSplits(m: nat, day: Option<int>, rs: seq<Reservation>, sid: nat)
    ensures Sum(Query(m, day, Some(sid)), rs) + OwnPart(Query(m, day, None), rs, sid) == Sum(Query(m, day, None), rs)
  {
    if rs != [] {
      SumSplits(m, day, rs[..|rs| - 1], sid);
    }
  }

  lemma {:induction false} OwnPartAtLeast(q: Query, rs: seq<Reservation>, sid: nat, i: nat)
    requires forall j | 0 <= j < |rs| :: rs[j].amount >= 0
    requires i < |rs| && rs[i].session == sid && Selects(q, rs[i])
    ensures OwnPart(q, rs, sid) >= rs[i].amount
  {
    OwnPartNonNegative(q, rs[..|rs| - 1], sid);
    if i < |rs| - 1 {
      OwnPartAtLeast(q, rs[..|rs| - 1], sid, i);
    }
  }

  lemma {:induction false} OwnPartNonNegative(q: Query, rs: seq<Reservation>, sid: nat)
    requires forall j | 0 <= j < |rs| :: rs[j].amount >= 0
    ensures OwnPart(q, rs, sid) >= 0
  {
    if rs != [] {
      OwnPartNonNegative(q, rs[..|rs| - 1], sid);
    }
  }

  /** With its own hold of `total` left out, there is room for `total` again: by the caps, and by the floor at 0. */
  lemma RoomForOwnHold(w: World, sid: nat, i: nat, now: int)
    requires HoldsLinked(w) && i < |w.reservations| && w.reservations[i].session == sid && Live(w.reservations[i])
    requires MandateOk(MandateFactsOf(w, w.reservations[i].mandate, DayOf(now)))
    requires DayOf(w.reservations[i].createdAt) == DayOf(now)
    ensures var r := w.reservations[i]; var m := w.mandates[r.mandate];
            && r.mandate < |w.mandates|
            && SpentToday(w.reservations, r.mandate, now, Some(sid)) + r.amount <= m.dailyCap
            && SpentTotal(w.reservations, w.refunds, r.mandate, Some(sid)) + r.amount <= m.totalCap
            && r.amount <= m.perTxnCap
  {
    var r := w.reservations[i];
    forall j | 0 <= j < |w.reservations| ensures w.reservations[j].amount >= 0 {
      assert HoldLinked(w, w.reservations[j]);
    }
    assert HoldLinked(w, r);
    SumSplits(r.mandate, None, w.reservations, sid);
    SumSplits(r.mandate, Some(DayOf(now)), w.reservations, sid);
    OwnPartAtLeast(Query(r.mandate, None, None), w.reservations, sid, i);
    OwnPartAtLeast(Query(r.mandate, Some(DayOf(now)), None), w.reservations, sid, i);
  }

  // ---- the same cart, priced from the same entries -----------------------------------------------

  /** The catalog entries of a cart have not been edited. */
  predicate SameEntries(a: Catalog, b: Catalog, xs: seq<Item>) {
    forall i | 0 <= i < |xs| && xs[i].Item? && xs[i].id.IdStr? ::
      (xs[i].id.s in a <==> xs[i].id.s in b) && (xs[i].id.s in a ==> a[xs[i].id.s] == b[xs[i].id.s])
  }

  lemma {:induction false} SameSum(a: Catalog, b: Catalog, xs: seq<Item>)
    requires SameEntries(a, b, xs)
    ensures SumValue(a, xs) == SumValue(b, xs) && ExpectedSum(a, xs) == ExpectedSum(b, xs)
  {
    if xs != [] {
      var n := |xs| - 1;
      assert SameEntries(a, b, xs[..n]) by {
        assert forall i | 0 <= i < n :: xs[..n][i] == xs[i];
      }
      SameSum(a, b, xs[..n]);
      assert Priceable(a, xs[n]) <==> Priceable(b, xs[n]);
    }
  }

  lemma StaysAcceptable(gi: GateInput, gj: GateInput)
    requires Acceptable(gi)
    requires gj.agent == gi.agent && gj.mandate == gi.mandate && gj.policy == gi.policy && gj.items == gi.items
    requires SameEntries(gi.catalog, gj.catalog, gi.items.xs)
    requires BuyerOk(gj) && ExpectedStatus(gj.mode, gj.status) && (gi.approved ==> gj.approved)
    requires TotalOk(gj, SumValue(gi.catalog, gi.items.xs))
    ensures Acceptable(gj) && SumValue(gj.catalog, gj.items.xs) == SumValue(gi.catalog, gi.items.xs)
  {
    SameSum(gi.catalog, gj.catalog, gi.items.xs);
    forall i | 0 <= i < |gi.items.xs| ensures ItemOk(gj, gj.items.xs[i]) {
      assert ItemOk(gi, gi.items.xs[i]);
    }
  }

  // ---- the hold is still the session's only live one ---------------------------------------------

  lemma {:induction false} CountedSomewhere(rs: seq<Reservation>, sid: nat, state: HoldState) returns (i: nat)
    requires Count(rs, sid, state) > 0
    ensures i < |rs| && rs[i].session == sid && rs[i].state == state
  {
    var n := |rs| - 1;
    if rs[n].session == sid && rs[n].state == state {
      i := n;
    } else {
      i := CountedSomewhere(rs[..n], sid, state);
    }
  }

  /** While the session is pending, the open hold is the one its complete placed. */
  lemma HoldSurvives(w: World, w1: World, w2: World, sid: nat)
    requires AllFacts(w) && AllFacts(w2) && Evolves(w, w1) && Evolves(w1, w2)
    requires sid < |w.sessions| && Editable(w.sessions[sid].status) && !Editable(w1.sessions[sid].status)
    requires |w1.reservations| == |w.reservations| + 1 && w2.sessions[sid].status == Pending
    ensures |w.reservations| < |w2.reservations| && w2.reservations[|w.reservations|].state == Reserved
    ensures w2.reservations[|w.reservations|] == w1.reservations[|w.reservations|]
  {
    assert FactsOk(FactsOf(w, sid)) && FactsOk(FactsOf(w2, sid));
    var i := CountedSomewhere(w2.reservations, sid, Reserved);
    if i < |w.reservations| {
      var r := w.reservations[i];
      assert HoldEvolves(r, w1.reservations[i]) && HoldEvolves(w1.reservations[i], w2.reservations[i]);
      LiveIsCounted(w.reservations, i);
    } else if i < |w1.reservations| {
      assert HoldEvolves(w1.reservations[i], w2.reservations[i]);
    }
    assert i == |w.reservations|;
  }

  // ---- the theorem -------------------------------------------------------------------------------

  /** Nothing that the agent, the merchant or the calendar controls has changed for this cart: the agent and the
      mandate are as they were and still in force, the policy and the cart's catalog entries are unedited, and it
      is the same UTC day. What other sessions reserved, paid or refunded meanwhile is not restricted at all. */
  predicate Unchanged(w: World, w2: World, agent: nat, m: nat, xs: seq<Item>, now: int, now2: int)
    requires m < |w.mandates|
  {
    && agent < |w.agents| && agent < |w2.agents| && w2.agents[agent] == w.agents[agent]
    && m < |w2.mandates| && w2.mandates[m] == w.mandates[m] && Applies(w2.mandates[m], agent, now2)
    && w2.policy == w.policy && SameEntries(w.catalog, w2.catalog, xs)
    && DayOf(now2) == DayOf(now)
  }

  lemma OnlyActive(ms: seq<Mandate>, agent: nat, now: int, m: nat)
    requires OneActive(ms) && m < |ms| && Applies(ms[m], agent, now)
    ensures ActiveFor(ms, agent, now) == Some(m)
  {
    var best := ActiveFor(ms, agent, now);
    if best.value != m {
      OthersRevoked(ms, best.value, m);
    }
  }

  lemma CompletePlaces(w: World, sid: nat, key: Option<string>, now: int, link: LinkAnswer, rl: Ruling)
    requires sid < |w.sessions| && CompleteWith(w, sid, key, now, link, rl).1.Shown?
    ensures var w' := CompleteWith(w, sid, key, now, link, rl).0;
            && rl.decision.verdict == ALLOW && rl.mandate.Some? && link.LinkMade?
            && w'.reservations == w.reservations + [Reservation(sid, rl.mandate.value, rl.decision.total, Reserved, now)]
            && w'.sessions == w.sessions[sid := LinkedSession(w.sessions[sid], key, link)]
            && w'.reviews == w.reviews
  {
  }

  /** The retry run on a state where the hold is still open. */
  lemma RetryAcceptable(w: World, w1: World, w2: World, agent: nat, sid: nat, m: nat, total: int, items: seq<Item>, now: int, now2: int)
    requires Inv(w2) && Evolves(w1, w2) && m < |w.mandates| && Unchanged(w, w2, agent, m, items, now, now2)
    requires sid < |w1.sessions| && !Editable(w1.sessions[sid].status) && w1.reviews == w.reviews
    requires Reservation(sid, m, total, Reserved, now) in w2.reservations
    requires var rl := Judge(w, agent, ItemList(items), Some(Ready), Authoritative, Some(sid), false, now);
             rl.decision.verdict == ALLOW && rl.mandate == Some(m) && rl.decision.total == total
    ensures var rl2 := Judge(w2, agent, ItemList(items), Some(Pending), Retry, Some(sid), true, now2);
            rl2.decision.verdict == ALLOW && rl2.decision.total == total && rl2.mandate == Some(m)
  {
    var gi := InputFor(w, agent, ItemList(items), Some(Ready), Authoritative, Some(sid), false, now);
    var gj := InputFor(w2, agent, ItemList(items), Some(Pending), Retry, Some(sid), true, now2);
    AllowIffAcceptable(gi);
    OnlyActive(w2.mandates, agent, now2, m);
    var i :| 0 <= i < |w2.reservations| && w2.reservations[i] == Reservation(sid, m, total, Reserved, now);
    assert MandateOk(MandateFactsOf(w2, m, DayOf(now2)));
    RoomForOwnHold(w2, sid, i, now2);
    SameSum(w.catalog, w2.catalog, items);
    assert LatestReview(w2.reviews, sid) == LatestReview(w.reviews, sid);
    StaysAcceptable(gi, gj);
    AllowIffAcceptable(gj);
  }

  /** The retry run in w2 is ALLOW, on the same mandate and for the same total as the authoritative run in w, and that
      total is what the session holds. */
  predicate FairRetry(w: World, w2: World, agent: nat, sid: nat, now: int, now2: int)
    requires sid < |w.sessions|
  {
    var items := ItemList(StoredItems(w.sessions[sid].lines));
    var first := Judge(w, agent, items, Some(Ready), Authoritative, Some(sid), false, now);
    var again := Judge(w2, agent, items, Some(Pending), Retry, Some(sid), true, now2);
    var held := OpenFor(w2.reservations, sid);
    && again.decision.verdict == ALLOW && again.decision.total == first.decision.total && again.mandate == first.mandate
    && held.Some? && held.value.amount == again.decision.total
  }

  /** After a complete that led to a link, and after anything at all in between, the retry run of the still pending
      session is ALLOW for the same total, which is the amount it holds. */
  lemma RetryIsFair(ws: seq<World>, steps: seq<Step>, j: nat, k: nat, agent: nat, sid: nat, key: Option<string>, now: int,
                    link: LinkAnswer, now2: int)
    requires IsRun(ws, steps) && j < k < |ws| && steps[j] == CompleteStep(agent, sid, key, now, link)
    requires Owned(ws[j], agent, sid) && ws[j].sessions[sid].status == Ready
    requires Complete(ws[j], agent, sid, key, now, link).1.Shown?
    requires sid < |ws[k].sessions| && ws[k].sessions[sid].status == Pending
    requires ActiveFor(ws[j].mandates, agent, now).Some? ==>
               Unchanged(ws[j], ws[k], agent, ActiveFor(ws[j].mandates, agent, now).value, StoredItems(ws[j].sessions[sid].lines), now, now2)
    ensures ws[k].sessions[sid].agent == agent && ws[k].sessions[sid].lines == ws[j].sessions[sid].lines
    ensures FairRetry(ws[j], ws[k], agent, sid, now, now2)
  {
    assert Takes(ws[j], steps[j], ws[j + 1]);
    TwoStates(ws, steps, j, k);
    FairFrom(ws[j], ws[j + 1], ws[k], agent, sid, key, now, link, now2);
  }

  lemma TwoStates(ws: seq<World>, steps: seq<Step>, j: nat, k: nat)
    requires IsRun(ws, steps) && j < k < |ws|
    ensures Inv(ws[j]) && Inv(ws[k]) && Evolves(ws[j], ws[j + 1]) && Evolves(ws[j + 1], ws[k])
  {
    RunStateInv(ws, steps, j);
    RunStateInv(ws, steps, k);
    NextEvolves(ws, steps, j);
    RunStateEvolves(ws, steps, j + 1, k);
  }

  lemma FairFrom(w: World, w1: World, w2: World, agent: nat, sid: nat, key: Option<string>, now: int, link: LinkAnswer, now2: int)
    requires Inv(w) && Inv(w2) && Evolves(w, w1) && Evolves(w1, w2)
    requires Owned(w, agent, sid) && w.sessions[sid].status == Ready && w2.sessions[sid].status == Pending
    requires Takes(w, CompleteStep(agent, sid, key, now, link), w1) && Complete(w, agent, sid, key, now, link).1.Shown?
    requires ActiveFor(w.mandates, agent, now).Some? ==>
               Unchanged(w, w2, agent, ActiveFor(w.mandates, agent, now).value, StoredItems(w.sessions[sid].lines), now, now2)
    ensures w2.sessions[sid].agent == agent && w2.sessions[sid].lines == w.sessions[sid].lines
    ensures FairRetry(w, w2, agent, sid, now, now2)
  {
    var rl := Judge(w, agent, ItemList(StoredItems(w.sessions[sid].lines)), Some(Ready), Authoritative, Some(sid), false, now);
    CompleteTaken(w, w1, agent, sid, key, now, link);
    CompletePlacesHold(w, agent, sid, key, now, link);
    FairAfter(w, w1, w2, agent, sid, rl, now, now2);
  }

  lemma CompleteTaken(w: World, w1: World, agent: nat, sid: nat, key: Option<string>, now: int, link: LinkAnswer)
    requires Takes(w, CompleteStep(agent, sid, key, now, link), w1)
    ensures w1 == Complete(w, agent, sid, key, now, link).0
  {
  }

  lemma CompletePlacesHold(w: World, agent: nat, sid: nat, key: Option<string>, now: int, link: LinkAnswer)
    requires Owned(w, agent, sid) && w.sessions[sid].status == Ready && Complete(w, agent, sid, key, now, link).1.Shown?
    ensures var rl := Judge(w, agent, ItemList(StoredItems(w.sessions[sid].lines)), Some(Ready), Authoritative, Some(sid), false, now);
            var w1 := Complete(w, agent, sid, key, now, link).0;
            && rl.decision.verdict == ALLOW && rl.mandate.Some? && link.LinkMade?
            && w1.reservations == w.reservations + [Reservation(sid, rl.mandate.value, rl.decision.total, Reserved, now)]
            && w1.sessions == w.sessions[sid := LinkedSession(w.sessions[sid], key, link)]
            && w1.reviews == w.reviews
  {
    CompleteIsRuled(w, agent, sid, key, now, link);
    CompletePlaces(w, sid, key, now, link,
                   Judge(w, agent, ItemList(StoredItems(w.sessions[sid].lines)), Some(Ready), Authoritative, Some(sid), false, now));
  }

  /** From the state before the complete, over the one after it, to any later one. */
  lemma FairAfter(w: World, w1: World, w2: World, agent: nat, sid: nat, rl: Ruling, now: int, now2: int)
    requires Inv(w) && Inv(w2) && Evolves(w, w1) && Evolves(w1, w2)
    requires Owned(w, agent, sid) && w.sessions[sid].status == Ready && w2.sessions[sid].status == Pending
    requires !Editable(w1.sessions[sid].status) && w1.sessions[sid].agent == agent && w1.sessions[sid].lines == w.sessions[sid].lines
    requires w1.reviews == w.reviews && rl.mandate.Some? && rl.mandate.value < |w.mandates|
    requires w1.reservations == w.reservations + [Reservation(sid, rl.mandate.value, rl.decision.total, Reserved, now)]
    requires rl == Judge(w, agent, ItemList(StoredItems(w.sessions[sid].lines)), Some(Ready), Authoritative, Some(sid), false, now)
    requires rl.decision.verdict == ALLOW
    requires Unchanged(w, w2, agent, rl.mandate.value, StoredItems(w.sessions[sid].lines), now, now2)
    ensures w2.sessions[sid].agent == agent && w2.sessions[sid].lines == w.sessions[sid].lines
    ensures var again := Judge(w2, agent, ItemList(StoredItems(w.sessions[sid].lines)), Some(Pending), Retry, Some(sid), true, now2);
            && again.decision.verdict == ALLOW && again.decision.total == rl.decision.total && again.mandate == rl.mandate
            && OpenFor(w2.reservations, sid).Some? && OpenFor(w2.reservations, sid).value.amount == rl.decision.total
  {
    HoldSurvives(w, w1, w2, sid);
    assert SessionEvolves(w1.sessions[sid], w2.sessions[sid]);
    var n := |w.reservations|;
    var hold := Reservation(sid, rl.mandate.value, rl.decision.total, Reserved, now);
    assert w2.reservations[n] == hold;
    RetryAcceptable(w, w1, w2, agent, sid, rl.mandate.value, rl.decision.total, StoredItems(w.sessions[sid].lines), now, now2);
    assert FactsOk(FactsOf(w2, sid));
    OnlyOpenHold(w2, sid, n);
  }

  /** A pending session's open reservation is the one `OpenFor` finds. */
  lemma OnlyOpenHold(w: World, sid: nat, i: nat)
    requires FactsOk(FactsOf(w, sid)) && i < |w.reservations| && IsOpen(w.reservations[i], sid)
    ensures OpenFor(w.reservations, sid) == Some(w.reservations[i])
  {
    OneOpen(w.reservations, sid, i);
  }

  lemma {:induction false} OneOpen(rs: seq<Reservation>, sid: nat, i: nat)
    requires i < |rs| && IsOpen(rs[i], sid) && Count(rs, sid, Reserved) <= 1
    ensures OpenFor(rs, sid) == Some(rs[i])
  {
    var n := |rs| - 1;
    OpenIsCounted(rs[..n], sid);
    if i < n {
      OneOpen(rs[..n], sid, i);
    }
  }
}
