/**
 * Which mandate a refund gives the money back to. It is the one on the session row, written by the last preview, not
 * the one on the reservation, which paid: here is exactly when they agree, and a run on which they do not.
 */
module Crediting {
  import opened Basics
  import opened Policy
  import opened Gate
  import opened RefundGate
  import opened Records
  import opened Books
  import opened Checkout
  import opened Evolution
  import opened Runs
  import opened Fairness
  import opened TeaShop

  /** After a complete that made a link, whatever happens next, the mandate that refunds credit is the mandate that
      paid if and only if, when the complete ran, the session still carried the mandate then in force. */
  lemma CreditedIsPayer(ws: seq<World>, steps: seq<Step>, j: nat, k: nat, agent: nat, sid: nat, key: Option<string>, now: int,
                        link: LinkAnswer)
    requires IsRun(ws, steps) && j < k < |ws| && steps[j] == CompleteStep(agent, sid, key, now, link)
    requires Owned(ws[j], agent, sid) && ws[j].sessions[sid].status == Ready
    requires Complete(ws[j], agent, sid, key, now, link).1.Shown?
    ensures sid < |ws[k].sessions| && |ws[j].reservations| < |ws[k].reservations|
    ensures ws[k].reservations[|ws[j].reservations|].session == sid
    ensures ws[k].sessions[sid].mandate == Some(ws[k].reservations[|ws[j].reservations|].mandate)
            <==> ws[j].sessions[sid].mandate == ActiveFor(ws[j].mandates, agent, now)
  {
    assert Takes(ws[j], steps[j], ws[j + 1]);
    TwoStates(ws, steps, j, k);
    PayerFixed(ws[j], ws[j + 1], ws[k], agent, sid, key, now, link);
  }

  lemma PayerFixed(w: World, w1: World, w2: World, agent: nat, sid: nat, key: Option<string>, now: int, link: LinkAnswer)
    requires Owned(w, agent, sid) && w.sessions[sid].status == Ready && Evolves(w1, w2)
    requires Takes(w, CompleteStep(agent, sid, key, now, link), w1) && Complete(w, agent, sid, key, now, link).1.Shown?
    ensures sid < |w2.sessions| && |w.reservations| < |w2.reservations|
    ensures var r := w2.reservations[|w.reservations|];
            && r.session == sid && Some(r.mandate) == ActiveFor(w.mandates, agent, now)
            && w2.sessions[sid].mandate == w.sessions[sid].mandate
  {
    CompleteTaken(w, w1, agent, sid, key, now, link);
    CompletePlacesHold(w, agent, sid, key, now, link);
    assert SessionEvolves(w1.sessions[sid], w2.sessions[sid]);
    assert HoldEvolves(w1.reservations[|w.reservations|], w2.reservations[|w.reservations|]);
  }

  /** The same for the refunds themselves: any later refund of the session is credited to the mandate that paid exactly
      under that condition. */
  lemma RefundCreditsPayer(ws: seq<World>, steps: seq<Step>, j: nat, k: nat, agent: nat, sid: nat, key: Option<string>, now: int,
                           link: LinkAnswer)
    requires IsRun(ws, steps) && j < k < |steps| && steps[j] == CompleteStep(agent, sid, key, now, link)
    requires Owned(ws[j], agent, sid) && ws[j].sessions[sid].status == Ready
    requires Complete(ws[j], agent, sid, key, now, link).1.Shown?
    requires steps[k].RefundStep? && steps[k].sid == sid && |ws[k + 1].refunds| > |ws[k].refunds|
    ensures |ws[k + 1].refunds| == |ws[k].refunds| + 1 && |ws[j].reservations| < |ws[k].reservations|
    ensures var refund := ws[k + 1].refunds[|ws[k].refunds|]; var paid := ws[k].reservations[|ws[j].reservations|];
            && refund.session == paid.session == sid
            && (refund.mandate == Some(paid.mandate) <==> ws[j].sessions[sid].mandate == ActiveFor(ws[j].mandates, agent, now))
  {
    CreditedIsPayer(ws, steps, j, k, agent, sid, key, now, link);
    assert Takes(ws[k], steps[k], ws[k + 1]);
    RefundTaken(ws[k], ws[k + 1], steps[k]);
  }

  lemma RefundTaken(w: World, w': World, step: Step)
    requires Takes(w, step, w') && step.RefundStep? && step.sid < |w.sessions| && |w'.refunds| > |w.refunds|
    ensures |w'.refunds| == |w.refunds| + 1
    ensures w'.refunds[|w.refunds|].session == step.sid && w'.refunds[|w.refunds|].mandate == w.sessions[step.sid].mandate
  {
  }

  // ---- a refund that credits another mandate -----------------------------------------------------

  /** The customer paid through the link. */
  const PAID: Attempts := [Attempt("pay", CapturedPay, 100)]

  const HELD: Reservation := Reservation(0, 1, 100, Reserved, 3)

  const RETURNED: Refund := Refund(0, Some(0), "pay", "refund", 40, "damaged", "case 1")

  /** The cart is made under mandate 0 and completed under mandate 1, which has replaced it. */
  function Steps(): seq<Step> {
    Opening(100)
    + [Order(1), Issue(2), CompleteStep(0, 0, None, 3, LINK),
       ReconcileStep(0, 4, Polled(LinkPaid, None, PAID), true, true, LINK),
       RefundStep(0, Paise(40), Str("damaged"), Str("case 1"), 5, RefundMade("refund"))]
  }

  /** The shop after the mandate was replaced, with one session and what came of it. */
  function Replaced(s: Session, held: seq<Reservation>, paid: seq<Payment>, refunds: seq<Refund>, trail: Trail): World {
    World(Shelf(100), POLICY, [Active], [Terms(0).(standing := Revoked), Terms(2)], [s], held, paid, [], refunds, trail)
  }

  function Linked(): Session { LinkedSession(Ordered(100, 0), None, LINK) }

  function Done(): Session { Linked().(status := Completed, completedAt := Some(4)) }

  function Captured(): Payment { Payment(0, "pay", CapturedPay, 100, 1, 4) }

  lemma OrderPlaced(w: World, w': World)
    requires w == Stocked(100) && Takes(w, Order(1), w')
    ensures w' == w.(sessions := [Ordered(100, 0)], trail := w'.trail)
  {
    TeaOrdered(w, w', 100, 0, 1);
  }

  lemma MandateReplaced(w: World, w': World)
    requires w == Stocked(100).(sessions := [Ordered(100, 0)], trail := w.trail) && Takes(w, Issue(2), w')
    ensures w' == Replaced(Ordered(100, 0), [], [], [], w'.trail)
  {
    assert StripAll([]) == [];
    assert Superseded([Terms(0)], 0) == [Terms(0).(standing := Revoked)];
  }

  lemma OrderPaid(w: World, w': World)
    requires w == Replaced(Ordered(100, 0), [], [], [], w.trail) && Takes(w, CompleteStep(0, 0, None, 3, LINK), w')
    ensures w' == Replaced(Linked(), [HELD], [], [], w'.trail)
  {
    NewMandateInForce(w);
    TeaPaid(w, w', 0, 100, 1, 0, 3);
  }

  lemma NewMandateInForce(w: World)
    requires w == Replaced(Ordered(100, 0), [], [], [], w.trail)
    ensures Trading(w, 100, 1, 3) && RoomFor(w, 100, 1, None, 3)
  {
    assert Applies(w.mandates[1], 0, 3) && !Applies(w.mandates[0], 0, 3);
  }

  lemma PaymentCommitted(w: World, w': World)
    requires w == Replaced(Linked(), [HELD], [], [], w.trail)
    requires Takes(w, ReconcileStep(0, 4, Polled(LinkPaid, None, PAID), true, true, LINK), w')
    ensures w' == Replaced(Done(), [HELD.(state := Committed)], [Captured()], [], w'.trail)
  {
    ReconcileTaken(w, w', 0, 4, Polled(LinkPaid, None, PAID), true, true, LINK);
    PaidIsNew();
    HeldCommits(w);
  }

  lemma PaidIsNew()
    ensures Unseen([], 0, PAID) == PAID && FirstCapture(PAID) == Some(PAID[0])
  {
    assert PAID[..0] == [];
  }

  lemma HeldCommits(w: World)
    requires w == Replaced(Linked(), [HELD], [], [], w.trail)
    requires Unseen([], 0, PAID) == PAID && FirstCapture(PAID) == Some(PAID[0])
    ensures var w' := Reconcile(w, 0, 4, Polled(LinkPaid, None, PAID), true, true, LINK).0;
            w' == Replaced(Done(), [HELD.(state := Committed)], [Captured()], [], w'.trail)
  {
    var w1 := RecordAll(w, 0, PAID, 1, 4);
    assert PAID[..0] == [];
    assert w1 == RecordAttempt(RecordAll(w, 0, [], 1, 4), 0, PAID[0], 1, 4) == w.(payments := [Captured()]);
    assert OpenFor([HELD], 0) == Some(HELD) && Transition([HELD], 0, Committed) == [HELD.(state := Committed)];
    assert Reconcile(w, 0, 4, Polled(LinkPaid, None, PAID), true, true, LINK).0 == FinishPaid(w1, 0, PAID[0], 1, 4).0;
  }

  lemma Returned(w: World, w': World)
    requires w == Replaced(Done(), [HELD.(state := Committed)], [Captured()], [], w.trail)
    requires Takes(w, RefundStep(0, Paise(40), Str("damaged"), Str("case 1"), 5, RefundMade("refund")), w')
    ensures w' == Replaced(Done(), [HELD.(state := Committed)], [Captured()], [RETURNED], w'.trail)
  {
    assert FirstCaptured([Captured()], 0) == Some(Captured());
    StripIsStripped("damaged");
    StripIsStripped("case 1");
    RefundAllowIff(RefundRequest(w, 0, Paise(40), Str("damaged"), Str("case 1"), 5));
  }

  lemma FirstCalls(ws: seq<World>)
    requires IsRun(ws, Steps()) && ws[3] == Stocked(100)
    ensures ws[6] == Replaced(Linked(), [HELD], [], [], ws[6].trail)
  {
    assert Takes(ws[3], Steps()[3], ws[4]);
    OrderPlaced(ws[3], ws[4]);
    assert Takes(ws[4], Steps()[4], ws[5]);
    MandateReplaced(ws[4], ws[5]);
    assert Takes(ws[5], Steps()[5], ws[6]);
    OrderPaid(ws[5], ws[6]);
  }

  lemma LastCalls(ws: seq<World>)
    requires IsRun(ws, Steps()) && ws[6] == Replaced(Linked(), [HELD], [], [], ws[6].trail)
    ensures ws[8].reservations == [HELD.(state := Committed)] && ws[8].refunds == [RETURNED]
  {
    assert Takes(ws[6], Steps()[6], ws[7]);
    PaymentCommitted(ws[6], ws[7]);
    assert Takes(ws[7], Steps()[7], ws[8]);
    Returned(ws[7], ws[8]);
  }

  /** 100 were spent on mandate 1; the refund of 40 is credited to mandate 0, which spent nothing and is revoked. */
  lemma CreditCanGoElsewhere() returns (ws: seq<World>)
    ensures IsRun(ws, Steps()) && ws[8].reservations == [HELD.(state := Committed)] && ws[8].refunds == [RETURNED]
    ensures SpentTotal(ws[8].reservations, ws[8].refunds, 1, None) == HELD.amount == 100
    ensures RefundedTo(ws[8].refunds, 0) == 40 && Sum(Query(0, None, None), ws[8].reservations) == 0
  {
    ws := TeaRun(Steps());
    Opens(ws, Steps(), 100);
    FirstCalls(ws);
    LastCalls(ws);
    FinalFigures();
  }

  lemma FinalFigures()
    ensures Sum(Query(1, None, None), [HELD.(state := Committed)]) == 100
    ensures Sum(Query(0, None, None), [HELD.(state := Committed)]) == 0
    ensures RefundedTo([RETURNED], 0) == 40 && RefundedTo([RETURNED], 1) == 0
  {
    assert [HELD.(state := Committed)][..0] == [] && [RETURNED][..0] == [];
  }
}
