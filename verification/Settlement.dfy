/** The accounting invariant through reconciling, retrying, abandoning, canceling and refunding. */
module Settlement {
  import opened Basics
  import opened Gate
  import opened RefundGate
  import opened Records
  import opened Books
  import opened Checkout
  import opened Audit
  import opened Rulings
  import opened Accounts

  /** What is held is a non-negative amount on an existing mandate. */
  predicate HoldOk(w: World, sid: nat) {
    var open := OpenFor(w.reservations, sid);
    open.Some? ==> open.value.amount >= 0 && open.value.mandate < |w.mandates|
  }

  predicate PendingAt(w: World, sid: nat) {
    sid < |w.sessions| && w.sessions[sid].status == Pending && FactsOk(FactsOf(w, sid)) && HoldOk(w, sid)
  }

  // ---- recording what a poll returned ------------------------------------------------------------

  function PaymentOf(sid: nat, a: Attempt, attemptNo: nat, now: int): Payment {
    Payment(sid, a.paymentId, a.status, a.amount, attemptNo, now)
  }

  /** The first capture among recorded attempts, as a payment row. */
  function CaptureIn(sid: nat, xs: seq<Attempt>, attemptNo: nat, now: int): Option<Payment> {
    match FirstCapture(xs)
    case None => None
    case Some(a) => Some(PaymentOf(sid, a, attemptNo, now))
  }

  lemma RecordAttemptEffect(w: World, sid: nat, a: Attempt, attemptNo: nat, now: int, s: nat, m: nat, day: int)
    ensures var f := FactsOf(w, s);
            FactsOf(RecordAttempt(w, sid, a, attemptNo, now), s)
            == f.(captured := if f.captured.Some? then f.captured
                              else if s == sid && a.status == CapturedPay then Some(PaymentOf(sid, a, attemptNo, now)) else None)
    ensures MandateFactsOf(RecordAttempt(w, sid, a, attemptNo, now), m, day) == MandateFactsOf(w, m, day)
  {
    PaymentEffect(w, PaymentOf(sid, a, attemptNo, now), s, m, day);
    LogNeutral(RecordPayment(w, sid, a, attemptNo, now), sid, PaymentFailed(a.paymentId, a.amount, attemptNo), s, m, day);
  }

  lemma {:induction false} RecordAllEffect(w: World, sid: nat, xs: seq<Attempt>, attemptNo: nat, now: int, s: nat, m: nat, day: int)
    ensures var f := FactsOf(w, s);
            FactsOf(RecordAll(w, sid, xs, attemptNo, now), s)
            == f.(captured := if f.captured.Some? || s != sid then f.captured else CaptureIn(sid, xs, attemptNo, now))
    ensures MandateFactsOf(RecordAll(w, sid, xs, attemptNo, now), m, day) == MandateFactsOf(w, m, day)
  {
    if xs != [] {
      var front := xs[..|xs| - 1];
      RecordAllEffect(w, sid, front, attemptNo, now, s, m, day);
      RecordAttemptEffect(RecordAll(w, sid, front, attemptNo, now), sid, xs[|xs| - 1], attemptNo, now, s, m, day);
    }
  }

  lemma WithOrderKeeps(w: World, sid: nat, orderId: Option<string>, s: nat, m: nat, day: int)
    requires PendingAt(w, sid) && OkFor(w, s, m, day)
    ensures OkFor(WithOrder(w, sid, orderId), s, m, day) && PendingAt(WithOrder(w, sid, orderId), sid)
    ensures WithOrder(w, sid, orderId) == w.(sessions := WithOrder(w, sid, orderId).sessions)
    ensures var t := WithOrder(w, sid, orderId).sessions[sid]; t == w.sessions[sid].(orderId := t.orderId)
  {
    if WithOrder(w, sid, orderId) != w {
      OrderIdIsFree(w, sid, w.sessions[sid].(orderId := orderId), s, m, day);
    }
  }

  /** Filling in the order id touches nothing the accounting looks at. */
  lemma OrderIdIsFree(w: World, sid: nat, session: Session, s: nat, m: nat, day: int)
    requires PendingAt(w, sid) && OkFor(w, s, m, day) && session == w.sessions[sid].(orderId := session.orderId)
    ensures OkFor(SetSession(w, sid, session), s, m, day) && PendingAt(SetSession(w, sid, session), sid)
  {
    SetEffect(w, sid, session, s, m, day);
    SetEffect(w, sid, session, sid, m, day);
    OrderIdFacts(FactsOf(w, sid), session);
  }

  lemma OrderIdFacts(f: Facts, session: Session)
    requires FactsOk(f) && f.session.Some? && session == f.session.value.(orderId := session.orderId)
    ensures FactsOk(f.(session := Some(session)))
  {
  }

  // ---- paid --------------------------------------------------------------------------------------

  function PaidFacts(f: Facts, p: Payment, session: Session, pid: string, amount: int, attemptNo: nat): Facts
    requires f.open.Some?
  {
    var f1 := f.(captured := Some(p), view := After(f.view, PaymentCaptured(pid, amount, attemptNo)));
    var f2 := CommittedFacts(f1);
    f2.(session := Some(session), view := After(f2.view, SessionCompleted(session.total, attemptNo)))
  }

  lemma PaidFactsOk(f: Facts, p: Payment, session: Session, pid: string, amount: int, attemptNo: nat)
    requires FactsOk(f) && f.session.Some? && f.session.value.status == Pending
    requires session == f.session.value.(status := Completed, completedAt := session.completedAt)
    ensures FactsOk(PaidFacts(f, p, session, pid, amount, attemptNo))
  {
  }

  lemma FinishPaidFacts(w: World, sid: nat, a: Attempt, attemptNo: nat, now: int, s: nat)
    requires sid < |w.sessions| && FactsOf(w, sid).open.Some? && FactsOf(w, sid).captured.Some?
    ensures var f := FactsOf(w, s);
            FactsOf(FinishPaid(w, sid, a, attemptNo, now).0, s)
            == if s != sid then f
               else PaidFacts(f, f.captured.value, w.sessions[sid].(status := Completed, completedAt := Some(now)),
                              a.paymentId, a.amount, attemptNo)
  {
    var e := PaymentCaptured(a.paymentId, a.amount, attemptNo);
    LogFacts(w, sid, e, s);
    LogFacts(w, sid, e, sid);
    var w1 := Log(w, sid, e);
    CommitFacts(w1, sid, s);
    var w2 := CommitIfOpen(w1, sid);
    var session := w.sessions[sid].(status := Completed, completedAt := Some(now));
    SetEffect(w2, sid, session, s, 0, 0);
    LogFacts(SetSession(w2, sid, session), sid, SessionCompleted(session.total, attemptNo), s);
  }

  lemma FinishPaidMandate(w: World, sid: nat, a: Attempt, attemptNo: nat, now: int, m: nat, day: int)
    requires sid < |w.sessions| && FactsOf(w, sid).open.Some? && FactsOf(w, sid).reserved == 1
    ensures MandateFactsOf(FinishPaid(w, sid, a, attemptNo, now).0, m, day) == MandateFactsOf(w, m, day)
  {
    var e := PaymentCaptured(a.paymentId, a.amount, attemptNo);
    LogMandate(w, sid, e, m, day);
    var w1 := Log(w, sid, e);
    CommitMandate(w1, sid, m, day);
    var w2 := CommitIfOpen(w1, sid);
    var session := w.sessions[sid].(status := Completed, completedAt := Some(now));
    SetEffect(w2, sid, session, sid, m, day);
    LogMandate(SetSession(w2, sid, session), sid, SessionCompleted(session.total, attemptNo), m, day);
  }

  /** A capture among the recorded attempts completes the session and commits its hold. */
  lemma CaptureKeeps(w: World, sid: nat, xs: seq<Attempt>, attemptNo: nat, now: int, s: nat, m: nat, day: int)
    requires PendingAt(w, sid) && OkFor(w, s, m, day) && FirstCapture(xs).Some?
    ensures OkFor(FinishPaid(RecordAll(w, sid, xs, attemptNo, now), sid, FirstCapture(xs).value, attemptNo, now).0, s, m, day)
  {
    var w1 := RecordAll(w, sid, xs, attemptNo, now);
    var a := FirstCapture(xs).value;
    RecordAllEffect(w, sid, xs, attemptNo, now, s, m, day);
    RecordAllEffect(w, sid, xs, attemptNo, now, sid, m, day);
    FinishPaidFacts(w1, sid, a, attemptNo, now, s);
    FinishPaidMandate(w1, sid, a, attemptNo, now, m, day);
    if s == sid {
      var session := w.sessions[sid].(status := Completed, completedAt := Some(now));
      PaidFactsOk(FactsOf(w, sid), PaymentOf(sid, a, attemptNo, now), session, a.paymentId, a.amount, attemptNo);
    }
  }

  // ---- abandoned, canceled -----------------------------------------------------------------------

  lemma CancelQuietlyEffect(w: World, sid: nat, ok: bool, s: nat, m: nat, day: int)
    requires sid < |w.sessions|
    ensures FactsOf(CancelQuietly(w, sid, ok), s) == FactsOf(w, s)
    ensures MandateFactsOf(CancelQuietly(w, sid, ok), m, day) == MandateFactsOf(w, m, day)
  {
    if Given(w.sessions[sid].linkId) {
      LogNeutral(w, sid, LinkCancelled(w.sessions[sid].linkId.value), s, m, day);
      LogNeutral(w, sid, LinkCancelFailed(w.sessions[sid].linkId.value), s, m, day);
    }
  }

  function CanceledFacts(f: Facts, session: Session, reason: Reason): Facts {
    var f1 := if f.open.Some? then ReleasedFacts(f, reason) else f;
    f1.(session := Some(session), view := After(f1.view, SessionCanceled(reason)))
  }

  lemma CanceledFactsOk(f: Facts, session: Session, reason: Reason)
    requires FactsOk(f) && f.session.Some? && !Terminal(f.session.value.status)
    requires session == f.session.value.(status := Canceled)
    ensures FactsOk(CanceledFacts(f, session, reason))
  {
  }

  lemma ReleaseIfOpenEffect(w: World, sid: nat, reason: Reason, s: nat, m: nat, day: int)
    requires FactsOf(w, sid).reserved <= 1 && (FactsOf(w, sid).open.Some? <==> FactsOf(w, sid).reserved > 0)
    requires HoldOk(w, sid) && MandateOk(MandateFactsOf(w, m, day))
    ensures FactsOf(ReleaseIfOpen(w, sid, reason), s)
         == if s == sid && FactsOf(w, s).open.Some? then ReleasedFacts(FactsOf(w, s), reason) else FactsOf(w, s)
    ensures MandateOk(MandateFactsOf(ReleaseIfOpen(w, sid, reason), m, day))
  {
    if FactsOf(w, sid).open.Some? {
      ReleaseFacts(w, sid, reason, s);
      ReleaseMandateOk(w, sid, reason, m, day);
    }
  }

  lemma CancelingEffect(w: World, sid: nat, reason: Reason, s: nat, m: nat, day: int)
    requires sid < |w.sessions| && HoldOk(w, sid) && MandateOk(MandateFactsOf(w, m, day))
    requires FactsOf(w, sid).reserved <= 1 && (FactsOf(w, sid).open.Some? <==> FactsOf(w, sid).reserved > 0)
    ensures FactsOf(Canceling(w, sid, reason).0, s)
         == if s != sid then FactsOf(w, s) else CanceledFacts(FactsOf(w, s), w.sessions[sid].(status := Canceled), reason)
    ensures MandateOk(MandateFactsOf(Canceling(w, sid, reason).0, m, day))
  {
    ReleaseIfOpenEffect(w, sid, reason, s, m, day);
    var w1 := ReleaseIfOpen(w, sid, reason);
    var session := w.sessions[sid].(status := Canceled);
    SetEffect(w1, sid, session, s, m, day);
    LogEffect(SetSession(w1, sid, session), sid, SessionCanceled(reason), s, m, day);
  }

  lemma CancelingKeeps(w: World, sid: nat, reason: Reason, s: nat, m: nat, day: int)
    requires sid < |w.sessions| && !Terminal(w.sessions[sid].status) && HoldOk(w, sid) && BothOk(w, sid, s, m, day)
    ensures OkFor(Canceling(w, sid, reason).0, s, m, day)
  {
    CancelingEffect(w, sid, reason, s, m, day);
    if s == sid {
      CanceledFactsOk(FactsOf(w, sid), w.sessions[sid].(status := Canceled), reason);
    }
  }

  /** Abandoning from facts that may already carry the view of a retry decision. */
  lemma AbandonEffect(w: World, sid: nat, reason: Reason, ok: bool, s: nat, m: nat, day: int)
    requires sid < |w.sessions| && HoldOk(w, sid) && MandateOk(MandateFactsOf(w, m, day))
    requires FactsOf(w, sid).reserved == 1 && FactsOf(w, sid).open.Some?
    ensures FactsOf(Abandon(w, sid, reason, ok).0, s)
         == if s != sid then FactsOf(w, s) else CanceledFacts(FactsOf(w, s), w.sessions[sid].(status := Canceled), reason)
    ensures MandateOk(MandateFactsOf(Abandon(w, sid, reason, ok).0, m, day))
  {
    CancelQuietlyEffect(w, sid, ok, s, m, day);
    CancelQuietlyEffect(w, sid, ok, sid, m, day);
    var w1 := CancelQuietly(w, sid, ok);
    ReleaseIfOpenEffect(w1, sid, reason, s, m, day);
    var w2 := ReleaseIfOpen(w1, sid, reason);
    AbandonTail(w2, sid, w.sessions[sid], reason, s, m, day);
  }

  lemma AbandonTail(w: World, sid: nat, row: Session, reason: Reason, s: nat, m: nat, day: int)
    requires sid < |w.sessions|
    ensures var w1 := SetSession(w, sid, row.(status := Canceled));
            var w2 := Log(Log(w1, sid, PaymentAbandoned(row.attempt, reason)), sid, SessionCanceled(reason));
            && FactsOf(w2, s) == (if s != sid then FactsOf(w, s)
                                  else FactsOf(w, s).(session := Some(row.(status := Canceled)),
                                                      view := After(FactsOf(w, s).view, SessionCanceled(reason))))
            && MandateFactsOf(w2, m, day) == MandateFactsOf(w, m, day)
  {
    var w1 := SetSession(w, sid, row.(status := Canceled));
    SetEffect(w, sid, row.(status := Canceled), s, m, day);
    TwoLastEvents(w1, sid, row.attempt, reason, s, m, day);
  }

  lemma TwoLastEvents(w: World, sid: nat, attempt: nat, reason: Reason, s: nat, m: nat, day: int)
    ensures var w2 := Log(Log(w, sid, PaymentAbandoned(attempt, reason)), sid, SessionCanceled(reason)); var f := FactsOf(w, s);
            && FactsOf(w2, s) == f.(view := if s == sid then After(f.view, SessionCanceled(reason)) else f.view)
            && MandateFactsOf(w2, m, day) == MandateFactsOf(w, m, day)
  {
    LogNeutral(w, sid, PaymentAbandoned(attempt, reason), s, m, day);
    var w1 := Log(w, sid, PaymentAbandoned(attempt, reason));
    LogFacts(w1, sid, SessionCanceled(reason), s);
    LogMandate(w1, sid, SessionCanceled(reason), m, day);
  }

  /** The view of a pending session after an extra ALLOW or denial still supports cancelation. */
  lemma AbandonAfterDecisionOk(f: Facts, rl: Ruling, session: Session, reason: Reason)
    requires FactsOk(f) && f.session.Some? && f.session.value.status == Pending
    requires Backed(f, rl) && rl.input.mode == Retry
    requires session == f.session.value.(status := Canceled)
    ensures FactsOk(CanceledFacts(f.(view := AfterDecision(f.view, rl.input.mode, rl.decision, rl.input)), session, reason))
  {
  }

  // ---- retry -------------------------------------------------------------------------------------

  lemma AbandonKeeps(w: World, sid: nat, reason: Reason, ok: bool, s: nat, m: nat, day: int)
    requires PendingAt(w, sid) && OkFor(w, s, m, day)
    ensures OkFor(Abandon(w, sid, reason, ok).0, s, m, day)
  {
    AbandonEffect(w, sid, reason, ok, s, m, day);
    if s == sid {
      CanceledFactsOk(FactsOf(w, sid), w.sessions[sid].(status := Canceled), reason);
    }
  }

  lemma RetryDeniedKeeps(w: World, sid: nat, rl: Ruling, reason: Reason, ok: bool, s: nat, m: nat, day: int)
    requires PendingAt(w, sid) && OkFor(w, s, m, day)
    requires rl.input.mode == Retry && ReviewBound(w, Some(sid), rl)
    ensures OkFor(Abandon(LogDecision(w, sid, rl), sid, reason, ok).0, s, m, day)
  {
    BoundIsBacked(w, sid, rl);
    DecisionLogged(w, sid, rl, s, m, day);
    DecisionLogged(w, sid, rl, sid, m, day);
    AbandonEffect(LogDecision(w, sid, rl), sid, reason, ok, s, m, day);
    if s == sid {
      AbandonAfterDecisionOk(FactsOf(w, sid), rl, w.sessions[sid].(status := Canceled), reason);
    }
  }

  lemma RetryRefusedKeeps(w: World, sid: nat, rl: Ruling, ok1: bool, ok2: bool, s: nat, m: nat, day: int)
    requires PendingAt(w, sid) && OkFor(w, s, m, day)
    requires rl.input.mode == Retry && ReviewBound(w, Some(sid), rl)
    ensures var w1 := Log(CancelQuietly(LogDecision(w, sid, rl), sid, ok1), sid, ProviderError(CreateLinkOp));
            OkFor(Abandon(w1, sid, ProviderFailed, ok2).0, s, m, day)
  {
    BoundIsBacked(w, sid, rl);
    DecisionLogged(w, sid, rl, s, m, day);
    DecisionLogged(w, sid, rl, sid, m, day);
    var w1 := LogDecision(w, sid, rl);
    QuietThenError(w1, sid, ok1, s, m, day);
    QuietThenError(w1, sid, ok1, sid, m, day);
    AbandonEffect(Log(CancelQuietly(w1, sid, ok1), sid, ProviderError(CreateLinkOp)), sid, ProviderFailed, ok2, s, m, day);
    if s == sid {
      AbandonAfterDecisionOk(FactsOf(w, sid), rl, w.sessions[sid].(status := Canceled), ProviderFailed);
    }
  }

  lemma QuietThenError(w: World, sid: nat, ok: bool, s: nat, m: nat, day: int)
    requires sid < |w.sessions|
    ensures var w1 := Log(CancelQuietly(w, sid, ok), sid, ProviderError(CreateLinkOp));
            FactsOf(w1, s) == FactsOf(w, s) && MandateFactsOf(w1, m, day) == MandateFactsOf(w, m, day)
  {
    CancelQuietlyEffect(w, sid, ok, s, m, day);
    LogEffect(CancelQuietly(w, sid, ok), sid, ProviderError(CreateLinkOp), s, m, day);
  }

  lemma RetriedFactsOk(f: Facts, rl: Ruling, link: LinkAnswer)
    requires FactsOk(f) && f.session.Some? && f.session.value.status == Pending && f.session.value.attempt < MAX_ATTEMPTS
    requires Backed(f, rl) && rl.input.mode == Retry && rl.decision.verdict == ALLOW && link.LinkMade?
    ensures var v := AfterDecision(f.view, rl.input.mode, rl.decision, rl.input);
            FactsOk(f.(session := Some(RetriedSession(f.session.value, link)),
                       view := After(v, LinkCreated(link.linkId, rl.decision.total, f.session.value.attempt + 1, link.expireAt))))
  {
  }

  lemma RetryMadeKeeps(w: World, sid: nat, reason: Reason, ok1: bool, ok2: bool, link: LinkAnswer, rl: Ruling, s: nat, m: nat, day: int)
    requires PendingAt(w, sid) && OkFor(w, s, m, day) && w.sessions[sid].attempt < MAX_ATTEMPTS
    requires rl.input.mode == Retry && ReviewBound(w, Some(sid), rl) && rl.decision.verdict == ALLOW && link.LinkMade?
    ensures OkFor(RetryWith(w, sid, reason, ok1, ok2, link, rl).0, s, m, day)
  {
    RetryMadeMandate(w, sid, reason, ok1, link, rl, m, day);
    RetryMadeFacts(w, sid, reason, ok1, link, rl, s);
    if s == sid {
      BoundIsBacked(w, sid, rl);
      RetriedFactsOk(FactsOf(w, sid), rl, link);
    }
  }

  lemma RetryMadeFacts(w: World, sid: nat, reason: Reason, ok1: bool, link: LinkAnswer, rl: Ruling, s: nat)
    requires sid < |w.sessions| && link.LinkMade?
    ensures var row := w.sessions[sid]; var e: Event := LinkCreated(link.linkId, rl.decision.total, row.attempt + 1, link.expireAt);
            var w' := Relink(CancelQuietly(LogDecision(w, sid, rl), sid, ok1), sid, row, reason, link, rl.decision.total);
            var f := FactsOf(w, s); var v := AfterDecision(f.view, rl.input.mode, rl.decision, rl.input);
            FactsOf(w', s) == (if s != sid then f else f.(session := Some(RetriedSession(row, link)), view := After(v, e)))
  {
    DecisionLogged(w, sid, rl, s, 0, 0);
    var w1 := LogDecision(w, sid, rl);
    CancelQuietlyEffect(w1, sid, ok1, s, 0, 0);
    RetryTail(CancelQuietly(w1, sid, ok1), sid, w.sessions[sid], reason, link, rl.decision.total, s, 0, 0);
  }

  lemma RetryMadeMandate(w: World, sid: nat, reason: Reason, ok1: bool, link: LinkAnswer, rl: Ruling, m: nat, day: int)
    requires sid < |w.sessions| && link.LinkMade?
    ensures var w' := Relink(CancelQuietly(LogDecision(w, sid, rl), sid, ok1), sid, w.sessions[sid], reason, link, rl.decision.total);
            MandateFactsOf(w', m, day) == MandateFactsOf(w, m, day)
  {
    DecisionLogged(w, sid, rl, sid, m, day);
    var w1 := LogDecision(w, sid, rl);
    CancelQuietlyEffect(w1, sid, ok1, sid, m, day);
    RetryTail(CancelQuietly(w1, sid, ok1), sid, w.sessions[sid], reason, link, rl.decision.total, sid, m, day);
  }

  lemma RetryTail(w: World, sid: nat, row: Session, reason: Reason, link: LinkAnswer, total: int, s: nat, m: nat, day: int)
    requires sid < |w.sessions| && link.LinkMade?
    ensures var e: Event := LinkCreated(link.linkId, total, row.attempt + 1, link.expireAt);
            var w' := Relink(w, sid, row, reason, link, total);
            && FactsOf(w', s) == (if s != sid then FactsOf(w, s)
                                  else FactsOf(w, s).(session := Some(RetriedSession(row, link)), view := After(FactsOf(w, s).view, e)))
            && MandateFactsOf(w', m, day) == MandateFactsOf(w, m, day)
  {
    var w1 := SetSession(w, sid, RetriedSession(row, link));
    SetEffect(w, sid, RetriedSession(row, link), s, m, day);
    RetryEvents(w1, sid, PaymentRetry(row.attempt + 1, reason, row.linkId),
                LinkCreated(link.linkId, total, row.attempt + 1, link.expireAt), s, m, day);
  }

  lemma RetryEvents(w: World, sid: nat, e1: Event, e2: Event, s: nat, m: nat, day: int)
    requires Neutral(e1) && e2.LinkCreated?
    ensures var w' := Log(Log(w, sid, e1), sid, e2); var f := FactsOf(w, s);
            && FactsOf(w', s) == f.(view := if s == sid then After(f.view, e2) else f.view)
            && MandateFactsOf(w', m, day) == MandateFactsOf(w, m, day)
  {
    LogNeutral(w, sid, e1, s, m, day);
    LogFacts(Log(w, sid, e1), sid, e2, s);
    LogMandate(Log(w, sid, e1), sid, e2, m, day);
  }

  lemma RetryKeeps(w: World, sid: nat, reason: Reason, ok1: bool, ok2: bool, link: LinkAnswer, rl: Ruling, s: nat, m: nat, day: int)
    requires PendingAt(w, sid) && OkFor(w, s, m, day) && w.sessions[sid].attempt < MAX_ATTEMPTS
    requires rl.input.mode == Retry && ReviewBound(w, Some(sid), rl)
    ensures OkFor(RetryWith(w, sid, reason, ok1, ok2, link, rl).0, s, m, day)
  {
    if rl.decision.verdict != ALLOW {
      RetryDeniedKeeps(w, sid, rl, RetryDenied(rl.decision.rule), ok1, s, m, day);
    } else if link.LinkMade? {
      RetryMadeKeeps(w, sid, reason, ok1, ok2, link, rl, s, m, day);
    } else {
      RetryRefusedKeeps(w, sid, rl, ok1, ok2, s, m, day);
    }
  }

  // ---- reconcile ---------------------------------------------------------------------------------

  lemma AfterFailedKeeps(w: World, sid: nat, reason: Reason, now: int, ok1: bool, ok2: bool, link: LinkAnswer, s: nat, m: nat, day: int)
    requires PendingAt(w, sid) && OkFor(w, s, m, day)
    ensures OkFor(AfterFailedAttempt(w, sid, reason, now, ok1, ok2, link).0, s, m, day)
  {
    var row := w.sessions[sid];
    if row.attempt >= MAX_ATTEMPTS {
      AbandonKeeps(w, sid, reason, ok1, s, m, day);
    } else {
      var items := ItemList(StoredItems(row.lines));
      JudgeReviewBound(w, row.agent, items, Some(Pending), Retry, Some(sid), true, now);
      RetryKeeps(w, sid, reason, ok1, ok2, link, Judge(w, row.agent, items, Some(Pending), Retry, Some(sid), true, now), s, m, day);
    }
  }

  lemma NoCaptureKeeps(w: World, sid: nat, xs: seq<Attempt>, attemptNo: nat, now: int, s: nat, m: nat, day: int)
    requires PendingAt(w, sid) && OkFor(w, s, m, day) && FirstCapture(xs).None?
    ensures OkFor(RecordAll(w, sid, xs, attemptNo, now), s, m, day) && PendingAt(RecordAll(w, sid, xs, attemptNo, now), sid)
  {
    RecordAllEffect(w, sid, xs, attemptNo, now, s, m, day);
    RecordAllEffect(w, sid, xs, attemptNo, now, sid, m, day);
  }

  lemma ReconcileKeeps(w: World, sid: nat, now: int, poll: PollAnswer, ok1: bool, ok2: bool, link: LinkAnswer, s: nat, m: nat, day: int)
    requires PendingAt(w, sid) && OkFor(w, s, m, day)
    ensures OkFor(Reconcile(w, sid, now, poll, ok1, ok2, link).0, s, m, day)
  {
    var row := w.sessions[sid];
    match poll
    case PollRefused =>
      LogNeutral(w, sid, ProviderError(PollOp), s, m, day);
    case Polled(linkStatus, orderId, attempts) =>
      var unseen := Unseen(w.payments, sid, attempts);
      WithOrderKeeps(w, sid, orderId, s, m, day);
      var w1 := WithOrder(w, sid, orderId);
      if FirstCapture(unseen).Some? {
        CaptureKeeps(w1, sid, unseen, row.attempt, now, s, m, day);
      } else {
        NoCaptureKeeps(w1, sid, unseen, row.attempt, now, s, m, day);
        var w2 := RecordAll(w1, sid, unseen, row.attempt, now);
        var over := AttemptOver(row, unseen, linkStatus, now);
        if over.Some? {
          AfterFailedKeeps(w2, sid, over.value, now, ok1, ok2, link, s, m, day);
        }
      }
  }

  // ---- cancel ------------------------------------------------------------------------------------

  lemma LateCaptureKeeps(w: World, sid: nat, now: int, poll: PollAnswer, s: nat, m: nat, day: int)
    requires PendingAt(w, sid) && OkFor(w, s, m, day)
    ensures OkFor(LateCapture(w, sid, now, poll).0, s, m, day)
  {
    var row := w.sessions[sid];
    var w1 := if poll.PollRefused? then Log(w, sid, ProviderError(PollOp)) else w;
    LogNeutral(w, sid, ProviderError(PollOp), s, m, day);
    LogNeutral(w, sid, ProviderError(PollOp), sid, m, day);
    var captured := if poll.PollRefused? then None else FirstCapture(Unseen(w.payments, sid, poll.attempts));
    if captured.Some? {
      FirstCaptureIsCaptured(Unseen(w.payments, sid, poll.attempts));
      OneCapture(w1, sid, captured.value, row.attempt, now);
      CaptureKeeps(w1, sid, [captured.value], row.attempt, now, s, m, day);
    } else {
      LogNeutral(w1, sid, LinkCancelFailed(row.linkId.value), s, m, day);
    }
  }

  lemma {:induction false} FirstCaptureIsCaptured(xs: seq<Attempt>)
    ensures FirstCapture(xs).Some? ==> FirstCapture(xs).value.status == CapturedPay && FirstCapture(xs).value in xs
  {
    if xs != [] {
      FirstCaptureIsCaptured(xs[..|xs| - 1]);
    }
  }

  lemma OneCapture(w: World, sid: nat, a: Attempt, attemptNo: nat, now: int)
    requires a.status == CapturedPay
    ensures RecordAll(w, sid, [a], attemptNo, now) == RecordPayment(w, sid, a, attemptNo, now)
    ensures FirstCapture([a]) == Some(a)
  {
    assert [a][..0] == [];
    assert RecordAll(w, sid, [a][..0], attemptNo, now) == w;
  }

  lemma CancelKeeps(w: World, sid: nat, reason: Reason, now: int, ok: bool, poll: PollAnswer, s: nat, m: nat, day: int)
    requires sid < |w.sessions| && HoldOk(w, sid) && BothOk(w, sid, s, m, day)
    ensures OkFor(CancelSession(w, sid, reason, now, ok, poll).0, s, m, day)
  {
    var row := w.sessions[sid];
    if !Terminal(row.status) {
      if row.status == Pending && Given(row.linkId) {
        if ok {
          LinkCancelledKeeps(w, sid, row.linkId.value, reason, s, m, day);
        } else {
          LateCaptureKeeps(w, sid, now, poll, s, m, day);
        }
      } else {
        CancelingKeeps(w, sid, reason, s, m, day);
      }
    }
  }

  lemma LinkCancelledKeeps(w: World, sid: nat, linkId: string, reason: Reason, s: nat, m: nat, day: int)
    requires sid < |w.sessions| && HoldOk(w, sid) && BothOk(w, sid, s, m, day) && w.sessions[sid].status == Pending
    ensures OkFor(Canceling(Log(w, sid, LinkCancelled(linkId)), sid, reason).0, s, m, day)
  {
    LogNeutral(w, sid, LinkCancelled(linkId), s, m, day);
    LogNeutral(w, sid, LinkCancelled(linkId), sid, m, day);
    CancelingKeeps(Log(w, sid, LinkCancelled(linkId)), sid, reason, s, m, day);
  }

  // ---- refund ------------------------------------------------------------------------------------

  lemma RefundFactsOk(f: Facts, refund: Refund)
    requires FactsOk(f) && f.session.Some? && f.session.value.status == Completed
    requires refund.amount >= 1 && f.refunded + refund.amount <= f.captured.value.amount && refund.reference !in f.references
    ensures FactsOk(f.(refunded := f.refunded + refund.amount, references := f.references + [refund.reference],
                       view := After(f.view, RefundCreated(refund.refundId, refund.paymentId, refund.amount, refund.reference, refund.mandate))))
  {
  }

  lemma RefundRowFacts(w: World, sid: nat, f: Refund, s: nat, e: Event)
    requires f.session == sid
    ensures var w1 := Log(w.(refunds := w.refunds + [f]), sid, e); var g := FactsOf(w, s);
            FactsOf(w1, s) == if s != sid then g
                              else g.(refunded := g.refunded + f.amount, references := g.references + [f.reference],
                                      view := After(g.view, e))
  {
    RefundFacts(w, f, s);
    LogFacts(w.(refunds := w.refunds + [f]), sid, e, s);
  }

  lemma RefundRowMandate(w: World, sid: nat, f: Refund, m: nat, day: int)
    ensures var w1 := Log(w.(refunds := w.refunds + [f]), sid, RefundCreated(f.refundId, f.paymentId, f.amount, f.reference, f.mandate));
            var g := MandateFactsOf(w, m, day); var credit := if f.mandate == Some(m) then f.amount else 0;
            MandateFactsOf(w1, m, day) == g.(refunded := g.refunded + credit, trailRefunded := g.trailRefunded + credit)
  {
    var w0 := w.(refunds := w.refunds + [f]);
    RefundMandate(w, f, m, day);
    LogMandate(w0, sid, RefundCreated(f.refundId, f.paymentId, f.amount, f.reference, f.mandate), m, day);
  }

  lemma RefundWithKeeps(w: World, sid: nat, ri: RefundInput, d: RefundDecision, answer: RefundAnswer, s: nat, m: nat, day: int)
    requires sid < |w.sessions| && BothOk(w, sid, s, m, day)
    requires w.sessions[sid].mandate.Some? ==> w.sessions[sid].mandate.value < |w.mandates|
    requires d.verdict == ALLOW ==> w.sessions[sid].status == Completed
    requires d.verdict == ALLOW && Requested(ri) ==>
               ri.reference.s !in References(w.refunds, sid)
               && (FirstCaptured(w.payments, sid).Some? ==>
                     RefundedOf(w.refunds, sid) + ri.amount.n <= FirstCaptured(w.payments, sid).value.amount)
    ensures OkFor(RefundWith(w, sid, ri, d, answer).0, s, m, day)
  {
    LogNeutral(w, sid, RefundDecided(d, ri), s, m, day);
    LogNeutral(w, sid, RefundDecided(d, ri), sid, m, day);
    var w1 := Log(w, sid, RefundDecided(d, ri));
    if d.verdict == ALLOW && Requested(ri) && FirstCaptured(w.payments, sid).Some? {
      if answer.RefundRefused? {
        LogNeutral(w1, sid, ProviderError(RefundOp), s, m, day);
      } else {
        var f := Refund(sid, w.sessions[sid].mandate, FirstCaptured(w.payments, sid).value.paymentId, answer.refundId,
                        ri.amount.n, ri.reason.s, ri.reference.s);
        RefundMadeKeeps(w1, sid, f, s, m, day);
      }
    }
  }

  lemma RefundMadeKeeps(w: World, sid: nat, f: Refund, s: nat, m: nat, day: int)
    requires sid < |w.sessions| && BothOk(w, sid, s, m, day)
    requires f.mandate.Some? ==> f.mandate.value < |w.mandates|
    requires w.sessions[sid].status == Completed && f.session == sid && f.amount >= 1
    requires f.reference !in References(w.refunds, sid) && FirstCaptured(w.payments, sid).Some?
    requires RefundedOf(w.refunds, sid) + f.amount <= FirstCaptured(w.payments, sid).value.amount
    ensures OkFor(Log(w.(refunds := w.refunds + [f]), sid, RefundCreated(f.refundId, f.paymentId, f.amount, f.reference, f.mandate)), s, m, day)
  {
    var e := RefundCreated(f.refundId, f.paymentId, f.amount, f.reference, f.mandate);
    RefundRowFacts(w, sid, f, s, e);
    RefundRowMandate(w, sid, f, m, day);
    if s == sid {
      RefundFactsOk(FactsOf(w, sid), f);
    }
  }

  lemma RefundKeeps(w: World, sid: nat, amount: Amount, reason: Text, reference: Text, now: int, answer: RefundAnswer, s: nat, m: nat, day: int)
    requires sid < |w.sessions| && BothOk(w, sid, s, m, day)
    requires w.sessions[sid].mandate.Some? ==> w.sessions[sid].mandate.value < |w.mandates|
    ensures OkFor(RefundSession(w, sid, amount, reason, reference, now, answer).0, s, m, day)
  {
    var ri := RefundRequest(w, sid, amount, reason, reference, now);
    RefundAllowIff(ri);
    RefundWithKeeps(w, sid, ri, DecideRefund(ri), answer, s, m, day);
  }
}
