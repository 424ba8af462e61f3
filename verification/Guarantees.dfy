/** What holds in every state of every run. */
module Guarantees {
  import opened Basics
  import opened Gate
  import opened RefundGate
  import opened Records
  import opened Books
  import opened Checkout
  import opened Audit
  import opened Accounts
  import opened Evolution
  import opened Runs
  import opened Safety

  // ---- caps --------------------------------------------------------------------------------------

  /** For every mandate ever issued, in every state of every run: what is reserved and committed on it, less the
      refunds credited to it, is within its total cap; what was reserved on any one UTC day and is still live is within
      its daily cap; and every single reservation is within its per-order cap. */
  lemma CapsHold(ws: seq<World>, steps: seq<Step>, k: nat, m: nat, day: int)
    requires IsRun(ws, steps) && k < |ws| && m < |ws[k].mandates|
    ensures var w := ws[k]; var terms := w.mandates[m];
            && Sum(Query(m, None, None), w.reservations) - RefundedTo(w.refunds, m) <= terms.totalCap
            && Sum(Query(m, Some(day), None), w.reservations) <= terms.dailyCap
            && forall i | 0 <= i < |w.reservations| && w.reservations[i].mandate == m ::
                 0 <= w.reservations[i].amount <= terms.perTxnCap
  {
    RunMandates(ws, steps, k, m, day);
    forall i | 0 <= i < |ws[k].reservations| && ws[k].reservations[i].mandate == m
      ensures 0 <= ws[k].reservations[i].amount <= ws[k].mandates[m].perTxnCap
    {
      RunHolds(ws, steps, k, i);
    }
  }

  // ---- event sourcing ----------------------------------------------------------------------------

  /** The trail alone rebuilds each session's status, attempt, link, hold and refunds, and each mandate's live spend
      and refunds; and per session, reserved events are the committed ones, the released ones, and one more exactly
      while the payment is pending. */
  lemma TrailRebuildsTables(ws: seq<World>, steps: seq<Step>, k: nat, sid: nat, m: nat)
    requires IsRun(ws, steps) && k < |ws| && sid < |ws[k].sessions|
    ensures var w := ws[k]; var s := w.sessions[sid]; var v := ViewOf(w.trail, sid);
            && v.status == Some(s.status) && v.attempt == s.attempt && v.link == s.linkId
            && v.hold == HoldOf(OpenFor(w.reservations, sid)) && v.refunded == RefundedOf(w.refunds, sid)
            && v.reserved == v.committed + v.released + (if s.status == Pending then 1 else 0)
            && v.committed == Count(w.reservations, sid, Committed) && v.released == Count(w.reservations, sid, Released)
            && TrailSpent(w.trail, m) == Sum(Query(m, None, None), w.reservations)
            && TrailRefunded(w.trail, m) == RefundedTo(w.refunds, m)
  {
    RunFacts(ws, steps, k, sid);
    RunMandates(ws, steps, k, m, 0);
  }

  // ---- status and money --------------------------------------------------------------------------

  /** Pending exactly while one reservation is open; completed exactly when a captured payment is on file, and
      then exactly one reservation is committed and none open; canceled with nothing held or committed. */
  lemma StatusMatchesMoney(ws: seq<World>, steps: seq<Step>, k: nat, sid: nat)
    requires IsRun(ws, steps) && k < |ws| && sid < |ws[k].sessions|
    ensures var w := ws[k]; var s := w.sessions[sid];
            var open := Count(w.reservations, sid, Reserved); var committed := Count(w.reservations, sid, Committed);
            && open <= 1 && committed <= 1
            && (s.status == Pending <==> open == 1)
            && (s.status == Completed <==> committed == 1)
            && (s.status == Completed <==> FirstCaptured(w.payments, sid).Some?)
            && (s.status in {Pending, Completed} ==> s.linkId.Some? && 1 <= s.attempt <= MAX_ATTEMPTS)
            && (s.status == Canceled ==> open == 0 && committed == 0)
  {
    RunFacts(ws, steps, k, sid);
  }

  /** Whatever happens next: terminal states absorb, and from the first link on the order is frozen and the
      session never becomes editable again. */
  lemma OrderFreezes(ws: seq<World>, steps: seq<Step>, j: nat, k: nat, sid: nat)
    requires IsRun(ws, steps) && j <= k < |ws| && sid < |ws[j].sessions|
    ensures sid < |ws[k].sessions|
    ensures var s := ws[j].sessions[sid]; var s' := ws[k].sessions[sid];
            && (Terminal(s.status) ==> s' == s)
            && (!Editable(s.status) ==> !Editable(s'.status) && s.attempt <= s'.attempt)
            && (!Editable(s.status) ==> s'.lines == s.lines && s'.total == s.total && s'.mandate == s.mandate)
  {
    RunStateEvolves(ws, steps, j, k);
    assert SessionEvolves(ws[j].sessions[sid], ws[k].sessions[sid]);
  }

  /** A reservation is never lost, its terms never change, and once committed or released it is closed for good. */
  lemma ReservationsCloseOnce(ws: seq<World>, steps: seq<Step>, j: nat, k: nat, i: nat)
    requires IsRun(ws, steps) && j <= k < |ws| && i < |ws[j].reservations|
    ensures i < |ws[k].reservations|
    ensures var r := ws[j].reservations[i]; var r' := ws[k].reservations[i];
            r' == r.(state := r'.state) && (r.state != Reserved ==> r' == r)
  {
    RunStateEvolves(ws, steps, j, k);
    assert HoldEvolves(ws[j].reservations[i], ws[k].reservations[i]);
  }

  // ---- refunds -----------------------------------------------------------------------------------

  /** The refunds of a session sum to at most its first captured payment, have pairwise distinct references, and
      only completed sessions have any. */
  lemma RefundsConserved(ws: seq<World>, steps: seq<Step>, k: nat, sid: nat)
    requires IsRun(ws, steps) && k < |ws| && sid < |ws[k].sessions|
    ensures var w := ws[k]; var refs := References(w.refunds, sid); var captured := FirstCaptured(w.payments, sid);
            && Unique(refs)
            && (refs == [] ==> RefundedOf(w.refunds, sid) == 0)
            && (refs != [] ==> w.sessions[sid].status == Completed)
            && (refs != [] ==> captured.Some? && 1 <= RefundedOf(w.refunds, sid) <= captured.value.amount)
  {
    RunFacts(ws, steps, k, sid);
  }

  /** A refund that goes through lowers the credited mandate's spend by its amount, down to 0, and leaves
      spent-today of every mandate and the total spend of every other mandate as they were. */
  lemma RefundReturnsBudget(w: World, sid: nat, ri: RefundInput, answer: RefundAnswer, m: nat, now: int, except: Option<nat>)
    requires sid < |w.sessions| && answer.RefundMade?
    requires DecideRefund(ri).verdict == ALLOW && FirstCaptured(w.payments, sid).Some?
    ensures Requested(ri)
    ensures var w' := RefundWith(w, sid, ri, DecideRefund(ri), answer).0;
            && SpentToday(w'.reservations, m, now, except) == SpentToday(w.reservations, m, now, except)
            && SpentTotal(w'.reservations, w'.refunds, m, except) ==
               if w.sessions[sid].mandate == Some(m) then
                 Max(0, Sum(Query(m, None, except), w.reservations) - RefundedTo(w.refunds, m) - ri.amount.n)
               else SpentTotal(w.reservations, w.refunds, m, except)
  {
    RefundAllowIff(ri);
    RefundMadeBudget(w, sid, ri, DecideRefund(ri), answer, m);
  }

  lemma RefundMadeBudget(w: World, sid: nat, ri: RefundInput, d: RefundDecision, answer: RefundAnswer, m: nat)
    requires sid < |w.sessions| && answer.RefundMade? && FirstCaptured(w.payments, sid).Some?
    requires d.verdict == ALLOW && Requested(ri)
    ensures var w' := RefundWith(w, sid, ri, d, answer).0; var credited := w.sessions[sid].mandate;
            && w'.reservations == w.reservations
            && RefundedTo(w'.refunds, m) == RefundedTo(w.refunds, m) + (if credited == Some(m) then ri.amount.n else 0)
  {
    var f := Refund(sid, w.sessions[sid].mandate, FirstCaptured(w.payments, sid).value.paymentId, answer.refundId,
                    ri.amount.n, ri.reason.s, ri.reference.s);
    CreditAppend(w.refunds, f, m);
  }

  /** The mandate a refund credits is the session's, not the reservation's. For a committed reservation the two are
      the same unless the credited mandate has been replaced, so a mandate that can still be spent is only ever
      credited for money that was spent on it. */
  lemma ActiveMandateCreditedForItsOwnSpend(ws: seq<World>, steps: seq<Step>, k: nat, i: nat)
    requires IsRun(ws, steps) && k < |ws| && i < |ws[k].reservations|
    ensures var w := ws[k]; var r := w.reservations[i];
            && r.session < |w.sessions|
            && (r.state == Committed ==>
                  var credited := w.sessions[r.session].mandate;
                  && credited.Some? && credited.value < |w.mandates|
                  && (w.mandates[credited.value].standing == Active ==> credited.value == r.mandate))
  {
    RunHolds(ws, steps, k, i);
  }

  // ---- the record --------------------------------------------------------------------------------

  /** Every decision the service ever recorded is the one the gates reach on the recorded input. */
  lemma DecisionsReplay(ws: seq<World>, steps: seq<Step>, k: nat)
    requires IsRun(ws, steps) && k < |ws|
    ensures AllFaithful(ws[k].trail)
  {
    RunStateInv(ws, steps, k);
  }

  /** No call ever runs into the mandate store's refusal to reserve, whatever the run before it. */
  lemma CompleteNeverCrashes(ws: seq<World>, steps: seq<Step>, k: nat, agent: nat, sid: nat, key: Option<string>, now: int, link: LinkAnswer)
    requires IsRun(ws, steps) && k < |ws|
    ensures Complete(ws[k], agent, sid, key, now, link).1 != Crashed
  {
    RunStateInv(ws, steps, k);
    CompleteStepInv(ws[k], agent, sid, key, now, link);
  }
}
