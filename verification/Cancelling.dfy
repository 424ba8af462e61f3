/** What a cancel leads to, case by case, said about the tables: above all, never a cancellation of a paid order. */
module Cancelling {
  import opened Basics
  import opened Gate
  import opened Records
  import opened Books
  import opened Checkout
  import opened Orders
  import opened Polling

  predicate HasLink(s: Session) { s.status == Pending && s.linkId !in {None, Some("")} }

  /** The session is canceled, its hold given back, and the trail says by whom, after these events. */
  predicate Withdrawn(w: World, w': World, sid: nat, before: seq<Event>, why: Reason)
    requires sid < |w.sessions|
  {
    && Gone(w, w', sid)
    && Gains(w.trail, w'.trail, sid, before + Releasing(OpenFor(w.reservations, sid), why) + [SessionCanceled(why)])
  }

  /** The state with a payment that came in at the last moment. */
  function LatePayment(w: World, sid: nat, a: Attempt, now: int): World
    requires sid < |w.sessions|
  {
    w.(payments := w.payments + [Payment(sid, a.paymentId, a.status, a.amount, w.sessions[sid].attempt, now)])
  }

  /** The provider would not cancel the link. If its last poll lists a new captured payment the order is paid; otherwise
      nothing changes, and the caller is told. */
  predicate NotCancelled(w: World, w': World, reply: Reply, sid: nat, now: int, poll: PollAnswer, c: Option<nat>)
    requires sid < |w.sessions| && HasLink(w.sessions[sid])
    requires poll.Polled? ==> FirstNewCapture(w.payments, sid, poll.attempts, c)
  {
    var failed := LinkCancelFailed(w.sessions[sid].linkId.value);
    if poll.PollRefused? then
      w' == w.(trail := w.trail + Stamped(sid, [ProviderError(PollOp), failed])) && reply == CancelFailed
    else if c.None? then w' == w.(trail := w.trail + Stamped(sid, [failed])) && reply == CancelFailed
    else Paid(LatePayment(w, sid, poll.attempts[c.value], now), w', sid, poll.attempts[c.value], now) && reply == Shown(sid)
  }

  lemma WithdrawnForm(w: World, w1: World, sid: nat, before: seq<Event>, why: Reason)
    requires sid < |w.sessions| && w1 == w.(trail := w1.trail) && Gains(w.trail, w1.trail, sid, before)
    ensures var (w', reply) := Canceling(w1, sid, why); Withdrawn(w, w', sid, before, why) && reply == Shown(sid)
  {
    var held := Releasing(OpenFor(w.reservations, sid), why);
    ReleaseForm(w1, sid, why);
    var w2 := SetSession(ReleaseIfOpen(w1, sid, why), sid, w.sessions[sid].(status := Canceled));
    LogIs(w2, sid, SessionCanceled(why));
    GainsJoin(w.trail, w1.trail, w2.trail, sid, before, held);
    GainsJoin(w.trail, w2.trail, Canceling(w1, sid, why).0.trail, sid, before + held, [SessionCanceled(why)]);
  }

  lemma LateForm(w: World, sid: nat, now: int, poll: PollAnswer, c: Option<nat>)
    requires sid < |w.sessions| && HasLink(w.sessions[sid])
    requires poll.Polled? ==> FirstNewCapture(w.payments, sid, poll.attempts, c)
    ensures var (w', reply) := LateCapture(w, sid, now, poll); NotCancelled(w, w', reply, sid, now, poll, c)
  {
    var failed := LinkCancelFailed(w.sessions[sid].linkId.value);
    if poll.PollRefused? {
      LogTwo(w, sid, ProviderError(PollOp), failed);
    } else {
      UnseenAreNew(w.payments, sid, poll.attempts);
      CaptureAmongNew(w.payments, sid, poll.attempts, c);
      if c.None? {
        LogIs(w, sid, failed);
      } else {
        FinishedIsPaid(LatePayment(w, sid, poll.attempts[c.value], now), sid, poll.attempts[c.value], now);
      }
    }
  }

  /** The outcome of a cancel, by the agent or (no caller) by the merchant. */
  lemma CancelOutcome(w: World, caller: Option<nat>, sid: nat, now: int, ok: bool, poll: PollAnswer, c: Option<nat>)
    requires poll.Polled? ==> FirstNewCapture(w.payments, sid, poll.attempts, c)
    ensures var (w', reply) := Cancel(w, caller, sid, now, ok, poll);
            var why := if caller.Some? then AgentCancelled else MerchantCancelled;
            if sid >= |w.sessions| || (caller.Some? && w.sessions[sid].agent != caller.value) then w' == w && reply == NotFound
            else
              var s := w.sessions[sid];
              if s.status == Completed || s.status == Canceled then w' == w && reply == WrongState
              else if !HasLink(s) then Withdrawn(w, w', sid, [], why) && reply == Shown(sid)
              else if ok then Withdrawn(w, w', sid, [LinkCancelled(s.linkId.value)], why) && reply == Shown(sid)
              else NotCancelled(w, w', reply, sid, now, poll, c)
  {
    if sid < |w.sessions| {
      var why := if caller.Some? then AgentCancelled else MerchantCancelled;
      assert Stamped(sid, []) == [];
      WithdrawnForm(w, w, sid, [], why);
      if HasLink(w.sessions[sid]) {
        var e := LinkCancelled(w.sessions[sid].linkId.value);
        LogIs(w, sid, e);
        WithdrawnForm(w, Log(w, sid, e), sid, [e], why);
        LateForm(w, sid, now, poll, c);
      }
    }
  }
}
