/**
 * The second payment link. A retry prices the cart again but leaves the hold alone, so the second link need not be
 * for the amount held: here is exactly when it is. `Repricing` has a run on which it is not.
 */
module Retries {
  import opened Basics
  import opened Gate
  import opened GateLaws
  import opened Records
  import opened Books
  import opened Checkout
  import opened Audit
  import opened Accounts
  import opened Runs
  import opened Safety
  import opened Fairness
  import opened Polling

  /** The cart of a stored session at today's catalog prices. */
  function Repriced(w: World, s: Session): int { SumValue(w.catalog, StoredItems(s.lines)) }

  /** The retry run the service makes for a pending session. */
  function RetryRuling(w: World, sid: nat, now: int): Ruling
    requires sid < |w.sessions|
  {
    var s := w.sessions[sid];
    Judge(w, s.agent, ItemList(StoredItems(s.lines)), Some(Pending), Retry, Some(sid), true, now)
  }

  /** The current attempt is over and another one is left: no attempt the poll newly lists was captured, and one of
      them failed, or the link is dead or past its expiry. */
  predicate RetryDue(w: World, sid: nat, now: int, status: LinkStatus, attempts: seq<Attempt>) {
    && sid < |w.sessions| && w.sessions[sid].status == Pending && w.sessions[sid].attempt < 2
    && FirstNewCapture(w.payments, sid, attempts, None)
    && (NewFailure(w.payments, sid, attempts) || status.LinkDead?
        || (w.sessions[sid].linkExpireAt.Some? && w.sessions[sid].linkExpireAt.value <= now))
  }

  lemma DueIsOver(w: World, sid: nat, now: int, status: LinkStatus, attempts: seq<Attempt>)
    requires RetryDue(w, sid, now, status, attempts)
    ensures w.sessions[sid].attempt < MAX_ATTEMPTS
    ensures FirstCapture(Unseen(w.payments, sid, attempts)).None?
    ensures AttemptOver(w.sessions[sid], Unseen(w.payments, sid, attempts), status, now).Some?
  {
    UnseenAreNew(w.payments, sid, attempts);
    CaptureAmongNew(w.payments, sid, attempts, None);
    OverMeans(w, sid, attempts, status, now);
  }

  /** A reconcile whose retry is allowed appends a second link for the repriced cart and touches no reservation; so
      the link is for the amount held exactly when the cart still costs what is held. */
  lemma SecondLinkAmount(ws: seq<World>, steps: seq<Step>, k: nat, sid: nat, now: int, status: LinkStatus,
                         orderId: Option<string>, attempts: Attempts, ok1: bool, ok2: bool, link: LinkAnswer)
    requires IsRun(ws, steps) && k < |ws| && RetryDue(ws[k], sid, now, status, attempts)
    requires link.LinkMade? && RetryRuling(ws[k], sid, now).decision.verdict == ALLOW
    ensures var w := ws[k]; var w' := Reconcile(w, sid, now, Polled(status, orderId, attempts), ok1, ok2, link).0;
            var held := OpenFor(w.reservations, sid); var links := ViewOf(w'.trail, sid).links;
            && w'.reservations == w.reservations && held.Some?
            && |links| == 2 && links == ViewOf(w.trail, sid).links + [Repriced(w, w.sessions[sid])]
            && (links[1] == held.value.amount <==> Repriced(w, w.sessions[sid]) == held.value.amount)
  {
    RunFacts(ws, steps, k, sid);
    PendingShape(ws[k], sid);
    ReconcileAppends(ws[k], sid, now, status, orderId, attempts, ok1, ok2, link);
  }

  /** Under the conditions of a fair retry the second link is for exactly the amount held. */
  lemma FairSecondLink(ws: seq<World>, steps: seq<Step>, j: nat, k: nat, agent: nat, sid: nat, key: Option<string>, now: int,
                       link: LinkAnswer, now2: int, status: LinkStatus, orderId: Option<string>, attempts: Attempts,
                       ok1: bool, ok2: bool, link2: LinkAnswer)
    requires IsRun(ws, steps) && j < k < |ws| && steps[j] == CompleteStep(agent, sid, key, now, link)
    requires Owned(ws[j], agent, sid) && ws[j].sessions[sid].status == Ready
    requires Complete(ws[j], agent, sid, key, now, link).1.Shown?
    requires RetryDue(ws[k], sid, now2, status, attempts) && link2.LinkMade?
    requires ActiveFor(ws[j].mandates, agent, now).Some? ==>
               Unchanged(ws[j], ws[k], agent, ActiveFor(ws[j].mandates, agent, now).value,
                         StoredItems(ws[j].sessions[sid].lines), now, now2)
    ensures var w := ws[k]; var w' := Reconcile(w, sid, now2, Polled(status, orderId, attempts), ok1, ok2, link2).0;
            var held := OpenFor(w.reservations, sid);
            && w'.reservations == w.reservations && held.Some?
            && ViewOf(w'.trail, sid).links == ViewOf(w.trail, sid).links + [held.value.amount]
  {
    RetryIsFair(ws, steps, j, k, agent, sid, key, now, link, now2);
    FairRetryIsRuled(ws[j], ws[k], agent, sid, now, now2);
    AllowTotal(ws[k], sid, now2);
    ReconcileAppends(ws[k], sid, now2, status, orderId, attempts, ok1, ok2, link2);
  }

  lemma FairRetryIsRuled(w: World, w2: World, agent: nat, sid: nat, now: int, now2: int)
    requires sid < |w.sessions| && sid < |w2.sessions| && FairRetry(w, w2, agent, sid, now, now2)
    requires w2.sessions[sid].agent == agent && w2.sessions[sid].lines == w.sessions[sid].lines
    ensures var rl := RetryRuling(w2, sid, now2); var held := OpenFor(w2.reservations, sid);
            rl.decision.verdict == ALLOW && held.Some? && rl.decision.total == held.value.amount
  {
  }

  // ---- from the poll to the retry ----------------------------------------------------------------

  /** What a reconcile has on file when it decides: the order id and the newly listed attempts. */
  function Filed(w: World, sid: nat, now: int, orderId: Option<string>, attempts: seq<Attempt>): World
    requires sid < |w.sessions|
  {
    RecordAll(WithOrder(w, sid, orderId), sid, Unseen(w.payments, sid, attempts), w.sessions[sid].attempt, now)
  }

  lemma ReconcileIsRetry(w: World, sid: nat, now: int, status: LinkStatus, orderId: Option<string>, attempts: Attempts,
                         ok1: bool, ok2: bool, link: LinkAnswer)
    requires RetryDue(w, sid, now, status, attempts)
    ensures AttemptOver(w.sessions[sid], Unseen(w.payments, sid, attempts), status, now).Some?
    ensures var reason := AttemptOver(w.sessions[sid], Unseen(w.payments, sid, attempts), status, now).value;
            Reconcile(w, sid, now, Polled(status, orderId, attempts), ok1, ok2, link)
            == AfterFailedAttempt(Filed(w, sid, now, orderId, attempts), sid, reason, now, ok1, ok2, link)
  {
    DueIsOver(w, sid, now, status, attempts);
  }

  /** Filing the poll changes nothing the gate run before the retry looks at. */
  lemma FiledSameRuling(w: World, sid: nat, now: int, orderId: Option<string>, attempts: seq<Attempt>)
    requires sid < |w.sessions|
    ensures var w' := Filed(w, sid, now, orderId, attempts);
            && w'.reservations == w.reservations && w'.catalog == w.catalog && |w'.sessions| == |w.sessions|
            && w'.sessions[sid].lines == w.sessions[sid].lines && w'.sessions[sid].attempt == w.sessions[sid].attempt
            && RetryRuling(w', sid, now) == RetryRuling(w, sid, now)
  {
    var w' := Filed(w, sid, now, orderId, attempts);
    var s, s' := w.sessions[sid], w'.sessions[sid];
    assert s'.agent == s.agent && s'.lines == s.lines;
    assert InputFor(w', s.agent, ItemList(StoredItems(s.lines)), Some(Pending), Retry, Some(sid), true, now)
        == InputFor(w, s.agent, ItemList(StoredItems(s.lines)), Some(Pending), Retry, Some(sid), true, now);
  }

  lemma {:induction false} RecordedLinks(w: World, sid: nat, xs: seq<Attempt>, attemptNo: nat, now: int)
    ensures ViewOf(RecordAll(w, sid, xs, attemptNo, now).trail, sid).links == ViewOf(w.trail, sid).links
  {
    if xs != [] {
      var front, a := RecordAll(w, sid, xs[..|xs| - 1], attemptNo, now), xs[|xs| - 1];
      RecordedLinks(w, sid, xs[..|xs| - 1], attemptNo, now);
      LinksAfter(RecordPayment(front, sid, a, attemptNo, now), sid, PaymentFailed(a.paymentId, a.amount, attemptNo));
    }
  }

  lemma ReconcileAppends(w: World, sid: nat, now: int, status: LinkStatus, orderId: Option<string>, attempts: Attempts,
                         ok1: bool, ok2: bool, link: LinkAnswer)
    requires RetryDue(w, sid, now, status, attempts)
    requires link.LinkMade? && RetryRuling(w, sid, now).decision.verdict == ALLOW
    ensures var w' := Reconcile(w, sid, now, Polled(status, orderId, attempts), ok1, ok2, link).0;
            && w'.reservations == w.reservations
            && ViewOf(w'.trail, sid).links == ViewOf(w.trail, sid).links + [Repriced(w, w.sessions[sid])]
  {
    var filed := Filed(w, sid, now, orderId, attempts);
    DueIsOver(w, sid, now, status, attempts);
    var reason := AttemptOver(w.sessions[sid], Unseen(w.payments, sid, attempts), status, now).value;
    ReconcileIsRetry(w, sid, now, status, orderId, attempts, ok1, ok2, link);
    FiledSameRuling(w, sid, now, orderId, attempts);
    RecordedLinks(WithOrder(w, sid, orderId), sid, Unseen(w.payments, sid, attempts), w.sessions[sid].attempt, now);
    AllowedRetry(filed, sid, reason, now, ok1, ok2, link);
  }

  // ---- the retry ---------------------------------------------------------------------------------

  lemma PendingShape(w: World, sid: nat)
    requires sid < |w.sessions| && w.sessions[sid].status == Pending && FactsOk(FactsOf(w, sid))
    ensures OpenFor(w.reservations, sid).Some? && |ViewOf(w.trail, sid).links| == w.sessions[sid].attempt >= 1
  {
  }

  lemma AllowedRetry(w: World, sid: nat, reason: Reason, now: int, ok1: bool, ok2: bool, link: LinkAnswer)
    requires sid < |w.sessions| && w.sessions[sid].attempt < MAX_ATTEMPTS
    requires link.LinkMade? && RetryRuling(w, sid, now).decision.verdict == ALLOW
    ensures var w' := AfterFailedAttempt(w, sid, reason, now, ok1, ok2, link).0;
            && w'.reservations == w.reservations
            && ViewOf(w'.trail, sid).links == ViewOf(w.trail, sid).links + [Repriced(w, w.sessions[sid])]
  {
    var rl := RetryRuling(w, sid, now);
    AllowTotal(w, sid, now);
    RetryAppends(w, sid, reason, ok1, ok2, link, rl);
  }

  lemma AllowTotal(w: World, sid: nat, now: int)
    requires sid < |w.sessions| && RetryRuling(w, sid, now).decision.verdict == ALLOW
    ensures RetryRuling(w, sid, now).decision.total == Repriced(w, w.sessions[sid])
  {
    AllowMeans(RetryRuling(w, sid, now).input);
  }

  lemma RetryIsRelink(w: World, sid: nat, reason: Reason, ok1: bool, ok2: bool, link: LinkAnswer, rl: Ruling)
    requires sid < |w.sessions| && link.LinkMade? && rl.decision.verdict == ALLOW
    ensures RetryWith(w, sid, reason, ok1, ok2, link, rl).0
         == Relink(CancelQuietly(LogDecision(w, sid, rl), sid, ok1), sid, w.sessions[sid], reason, link, rl.decision.total)
    ensures RetryWith(w, sid, reason, ok1, ok2, link, rl).0.reservations == w.reservations
  {
  }

  lemma RetryAppends(w: World, sid: nat, reason: Reason, ok1: bool, ok2: bool, link: LinkAnswer, rl: Ruling)
    requires sid < |w.sessions| && link.LinkMade? && rl.decision.verdict == ALLOW
    ensures var w' := RetryWith(w, sid, reason, ok1, ok2, link, rl).0;
            && w'.reservations == w.reservations
            && ViewOf(w'.trail, sid).links == ViewOf(w.trail, sid).links + [rl.decision.total]
  {
    RetryIsRelink(w, sid, reason, ok1, ok2, link, rl);
    DecisionLinks(w, sid, rl);
    var w1 := LogDecision(w, sid, rl);
    QuietLinks(w1, sid, ok1);
    Relinked(CancelQuietly(w1, sid, ok1), sid, reason, link, rl.decision.total);
  }

  lemma DecisionLinks(w: World, sid: nat, rl: Ruling)
    ensures ViewOf(LogDecision(w, sid, rl).trail, sid).links == ViewOf(w.trail, sid).links
  {
    LinksAfter(w, sid, GateDecision(rl.input.mode, rl.decision, Recorded(rl.input)));
  }

  lemma Relinked(w: World, sid: nat, reason: Reason, link: LinkAnswer, total: int)
    requires sid < |w.sessions| && link.LinkMade?
    ensures ViewOf(Relink(w, sid, w.sessions[sid], reason, link, total).trail, sid).links == ViewOf(w.trail, sid).links + [total]
  {
    var s := w.sessions[sid];
    var w0 := SetSession(w, sid, RetriedSession(s, link));
    LinksAfter(w0, sid, PaymentRetry(s.attempt + 1, reason, s.linkId));
    LinksAfter(Log(w0, sid, PaymentRetry(s.attempt + 1, reason, s.linkId)), sid,
               LinkCreated(link.linkId, total, s.attempt + 1, link.expireAt));
  }

  lemma LinksAfter(w: World, sid: nat, e: Event)
    ensures ViewOf(Log(w, sid, e).trail, sid).links
         == ViewOf(w.trail, sid).links + (if e.LinkCreated? then [e.amount] else [])
  {
    var t := Log(w, sid, e).trail;
    assert t[..|t| - 1] == w.trail;
  }

  lemma QuietLinks(w: World, sid: nat, ok: bool)
    requires sid < |w.sessions|
    ensures ViewOf(CancelQuietly(w, sid, ok).trail, sid).links == ViewOf(w.trail, sid).links
  {
    if Given(w.sessions[sid].linkId) {
      LinksAfter(w, sid, LinkCancelled(w.sessions[sid].linkId.value));
      LinksAfter(w, sid, LinkCancelFailed(w.sessions[sid].linkId.value));
    }
  }
}
