/** A run on which a price edit between the two attempts makes the second link differ from the amount held. */
module Repricing {
  import opened Basics
  import opened Gate
  import opened Records
  import opened Books
  import opened Checkout
  import opened Audit
  import opened Runs
  import opened Polling
  import opened Retries
  import opened TeaShop

  const NEW_LINK: LinkAnswer := LinkMade("plink2", None, 60)

  /** The customer's payment through the first link failed. */
  const DECLINED: Attempts := [Attempt("pay", FailedPay, 100)]

  const HELD: Reservation := Reservation(0, 0, 100, Reserved, 2)

  function Steps(): seq<Step> {
    Opening(100)
    + [Order(1), CompleteStep(0, 0, None, 2, LINK), PutProductStep(TEA, Tea(200)),
       ReconcileStep(0, 3, Polled(LinkOpen, None, DECLINED), true, true, NEW_LINK)]
  }

  /** The order after its complete: 100 are held and asked for. */
  predicate Waiting(w: World, price: int) {
    && w == Stocked(price).(sessions := [LinkedSession(Ordered(100, 0), None, LINK)], reservations := [HELD], trail := w.trail)
    && ViewOf(w.trail, 0).links == [100]
  }

  lemma Placed(w: World, w': World)
    requires w == Stocked(100) && Takes(w, Order(1), w')
    ensures w' == w.(sessions := [Ordered(100, 0)], trail := w'.trail) && ViewOf(w'.trail, 0).links == []
  {
    TeaOrdered(w, w', 100, 0, 1);
  }

  lemma Waits(w: World, w': World)
    requires w == Stocked(100).(sessions := [Ordered(100, 0)], trail := w.trail) && ViewOf(w.trail, 0).links == []
    requires Takes(w, CompleteStep(0, 0, None, 2, LINK), w')
    ensures Waiting(w', 100)
  {
    TeaPaid(w, w', 0, 100, 0, 0, 2);
  }

  lemma Edited(w: World, w': World)
    requires Waiting(w, 100) && Takes(w, PutProductStep(TEA, Tea(200)), w')
    ensures Waiting(w', 200)
  {
    assert w'.catalog == Shelf(200);
  }

  lemma Declined(w: World)
    requires |w.sessions| == 1 && w.sessions[0].status == Pending && w.sessions[0].attempt == 1 && w.payments == []
    ensures RetryDue(w, 0, 3, LinkOpen, DECLINED)
  {
    assert New(w.payments, 0, DECLINED[0]) && DECLINED[0].status == FailedPay;
  }

  lemma RoomWithoutOwnHold(w: World)
    requires Waiting(w, 200)
    ensures RoomFor(w, 200, 0, Some(0), 3)
  {
    assert [HELD][..0] == [];
    assert Sum(Query(0, None, Some(0)), [HELD]) == 0 && Sum(Query(0, Some(DayOf(3)), Some(0)), [HELD]) == 0;
  }

  lemma RetryAllowed(w: World)
    requires Waiting(w, 200)
    ensures RetryRuling(w, 0, 3).decision.verdict == ALLOW && Repriced(w, w.sessions[0]) == 200
  {
    StoredCart(w.sessions[0].lines, 100);
    TeaCosts(w.catalog, 200);
    RoomWithoutOwnHold(w);
    TeaIsAllowed(w, 200, 0, Some(Pending), Retry, Some(0), true, 3);
  }

  /** The tea now costs 200, and the payment of 100 has just failed. */
  lemma Relinked(w: World)
    requires Waiting(w, 200)
    ensures var w' := Reconcile(w, 0, 3, Polled(LinkOpen, None, DECLINED), true, true, NEW_LINK).0;
            ViewOf(w'.trail, 0).links == [100, 200] && w'.reservations == [HELD]
  {
    RetryAllowed(w);
    Declined(w);
    ReconcileAppends(w, 0, 3, LinkOpen, None, DECLINED, true, true, NEW_LINK);
  }

  lemma Retried(w: World, w': World)
    requires Waiting(w, 200) && Takes(w, ReconcileStep(0, 3, Polled(LinkOpen, None, DECLINED), true, true, NEW_LINK), w')
    ensures ViewOf(w'.trail, 0).links == [100, 200] && w'.reservations == [HELD]
  {
    ReconcileTaken(w, w', 0, 3, Polled(LinkOpen, None, DECLINED), true, true, NEW_LINK);
    Relinked(w);
  }

  /** The price of tea doubles while the payment is pending: the first link is for 100, which are still held when
      the second is made for 200. */
  lemma SecondLinkCanDiffer() returns (ws: seq<World>)
    ensures IsRun(ws, Steps()) && ViewOf(ws[7].trail, 0).links == [100, 200]
    ensures OpenFor(ws[7].reservations, 0) == Some(HELD) && HELD.amount == 100
  {
    ws := TeaRun(Steps());
    Opens(ws, Steps(), 100);
    assert Takes(ws[3], Steps()[3], ws[4]);
    Placed(ws[3], ws[4]);
    assert Takes(ws[4], Steps()[4], ws[5]);
    Waits(ws[4], ws[5]);
    assert Takes(ws[5], Steps()[5], ws[6]);
    Edited(ws[5], ws[6]);
    assert Takes(ws[6], Steps()[6], ws[7]);
    Retried(ws[6], ws[7]);
    assert OpenFor([HELD], 0) == Some(HELD);
  }
}
