/**
 * How the state may change from one call to the next, whatever the call: what grows, what is frozen, what is
 * final. `Evolves` is reflexive and transitive, and every call of the service respects it.
 */
module Evolution {
  import opened Basics
  import opened Gate
  import opened RefundGate
  import opened Records
  import opened Books
  import opened Checkout
  import opened Rulings

  /** Keys and owner never change; from the first payment link on the order is frozen; terminal is final. */
  predicate SessionEvolves(a: Session, b: Session) {
    && b.agent == a.agent && b.idemKey == a.idemKey && b.bodyHash == a.bodyHash
    && (!Editable(a.status) ==>
          !Editable(b.status) && b.lines == a.lines && b.total == a.total && b.mandate == a.mandate
          && b.completeKey == a.completeKey && a.attempt <= b.attempt)
    && (Terminal(a.status) ==> b == a)
  }

  /** A reservation keeps its terms; once committed or released it never changes again. */
  predicate HoldEvolves(a: Reservation, b: Reservation) {
    b == a.(state := b.state) && (a.state != Reserved ==> b == a)
  }

  predicate MandateEvolves(a: Mandate, b: Mandate) {
    b == a.(standing := b.standing) && (a.standing == Revoked ==> b == a)
  }

  /** A recorded decision is the one the gate reaches on the recorded input. */
  predicate Faithful(e: Event) {
    match e
    case GateDecision(mode, d, input) => Decide(input) == d && input.mode == mode
    case RefundDecided(d, request) => DecideRefund(request) == d
    case _ => true
  }

  predicate TrailGrows(a: Trail, b: Trail) {
    a <= b && forall i | |a| <= i < |b| :: Faithful(b[i].payload)
  }

  predicate SessionsEvolve(a: seq<Session>, b: seq<Session>) {
    |a| <= |b| && forall i | 0 <= i < |a| :: SessionEvolves(a[i], b[i])
  }

  predicate HoldsEvolve(a: seq<Reservation>, b: seq<Reservation>) {
    |a| <= |b| && forall i | 0 <= i < |a| :: HoldEvolves(a[i], b[i])
  }

  predicate MandatesEvolve(a: seq<Mandate>, b: seq<Mandate>) {
    |a| <= |b| && forall i | 0 <= i < |a| :: MandateEvolves(a[i], b[i])
  }

  predicate AgentsEvolve(a: seq<Standing>, b: seq<Standing>) {
    |a| <= |b| && forall i | 0 <= i < |a| :: a[i] == Revoked ==> b[i] == Revoked
  }

  /** Once a session is past editing, its latest review is settled. */
  predicate ReviewsSettled(w: World, w': World) {
    forall s: nat | s < |w.sessions| && !Editable(w.sessions[s].status) ::
      LatestReview(w'.reviews, s) == LatestReview(w.reviews, s)
  }

  /** A session past editing gets no further reservation. */
  predicate HoldsSettled(w: World, w': World) {
    forall i | |w.reservations| <= i < |w'.reservations| && w'.reservations[i].session < |w.sessions| ::
      Editable(w.sessions[w'.reservations[i].session].status)
  }

  predicate Evolves(w: World, w': World) {
    && SessionsEvolve(w.sessions, w'.sessions)
    && HoldsEvolve(w.reservations, w'.reservations) && HoldsSettled(w, w')
    && MandatesEvolve(w.mandates, w'.mandates)
    && AgentsEvolve(w.agents, w'.agents)
    && w.payments <= w'.payments && w.refunds <= w'.refunds
    && w.reviews <= w'.reviews && ReviewsSettled(w, w')
    && TrailGrows(w.trail, w'.trail)
  }

  lemma EvolvesReflexive(w: World)
    ensures Evolves(w, w)
  {
  }

  lemma EvolvesTransitive(a: World, b: World, c: World)
    requires Evolves(a, b) && Evolves(b, c)
    ensures Evolves(a, c)
  {
    forall i | 0 <= i < |a.sessions| ensures SessionEvolves(a.sessions[i], c.sessions[i]) {
      assert SessionEvolves(a.sessions[i], b.sessions[i]) && SessionEvolves(b.sessions[i], c.sessions[i]);
    }
    forall i | 0 <= i < |a.reservations| ensures HoldEvolves(a.reservations[i], c.reservations[i]) {
      assert HoldEvolves(a.reservations[i], b.reservations[i]) && HoldEvolves(b.reservations[i], c.reservations[i]);
    }
    forall i | 0 <= i < |a.mandates| ensures MandateEvolves(a.mandates[i], c.mandates[i]) {
      assert MandateEvolves(a.mandates[i], b.mandates[i]) && MandateEvolves(b.mandates[i], c.mandates[i]);
    }
    forall i | |a.reservations| <= i < |c.reservations| && c.reservations[i].session < |a.sessions|
      ensures Editable(a.sessions[c.reservations[i].session].status)
    {
      var s := c.reservations[i].session;
      assert SessionEvolves(a.sessions[s], b.sessions[s]);
      if i < |b.reservations| {
        assert HoldEvolves(b.reservations[i], c.reservations[i]);
      }
    }
    forall s: nat | s < |a.sessions| && !Editable(a.sessions[s].status)
      ensures LatestReview(c.reviews, s) == LatestReview(a.reviews, s)
    {
      assert SessionEvolves(a.sessions[s], b.sessions[s]);
    }
    forall i | |a.trail| <= i < |c.trail| ensures Faithful(c.trail[i].payload) {
      if i < |b.trail| {
        assert b.trail[i] == c.trail[i];
      }
    }
  }

  // ---- the small steps ---------------------------------------------------------------------------

  lemma LogEvolves(w: World, sid: nat, e: Event)
    requires Faithful(e)
    ensures Evolves(w, Log(w, sid, e))
  {
  }

  lemma LogDecisionEvolves(w: World, sid: nat, rl: Ruling)
    requires rl.decision == Decide(rl.input)
    ensures Evolves(w, LogDecision(w, sid, rl))
  {
    RecordedSuffices(rl.input);
    LogEvolves(w, sid, GateDecision(rl.input.mode, rl.decision, Recorded(rl.input)));
  }

  lemma LogReviewRequestEvolves(w: World, sid: nat, d: Decision)
    ensures Evolves(w, LogReviewRequest(w, sid, d))
  {
  }

  lemma SetEvolves(w: World, sid: nat, s: Session)
    requires sid < |w.sessions| && SessionEvolves(w.sessions[sid], s)
    ensures Evolves(w, SetSession(w, sid, s))
  {
  }

  lemma WithStateEvolves(w: World, sid: nat, state: HoldState)
    ensures Evolves(w, WithState(w, sid, state))
  {
  }

  lemma ReleaseEvolves(w: World, sid: nat, reason: Reason)
    ensures Evolves(w, ReleaseIfOpen(w, sid, reason))
    ensures ReleaseIfOpen(w, sid, reason).sessions == w.sessions
  {
    var open := OpenFor(w.reservations, sid);
    if open.Some? {
      WithStateEvolves(w, sid, Released);
      LogEvolves(WithState(w, sid, Released), sid, MandateReleased(open.value.mandate, open.value.amount, reason));
      EvolvesTransitive(w, WithState(w, sid, Released), ReleaseIfOpen(w, sid, reason));
    }
  }

  lemma CommitEvolves(w: World, sid: nat)
    ensures Evolves(w, CommitIfOpen(w, sid)) && CommitIfOpen(w, sid).sessions == w.sessions
  {
    var open := OpenFor(w.reservations, sid);
    if open.Some? {
      WithStateEvolves(w, sid, Committed);
      LogEvolves(WithState(w, sid, Committed), sid, MandateCommitted(open.value.mandate, open.value.amount));
      EvolvesTransitive(w, WithState(w, sid, Committed), CommitIfOpen(w, sid));
    }
  }

  // ---- the calls ---------------------------------------------------------------------------------

  lemma CreateEvolves(w: World, agent: nat, items: Items, key: Option<string>, hash: string, rl: Ruling)
    requires rl.decision == Decide(rl.input)
    ensures Evolves(w, CreateWith(w, agent, items, key, hash, rl).0)
  {
    var sid := |w.sessions|;
    var w1 := w.(sessions := w.sessions + [NewSession(agent, key, hash, rl)]);
    assert Evolves(w, w1);
    var w2 := Log(w1, sid, SessionCreated(agent, items, rl.decision.total, StatusFor(rl.decision)));
    LogEvolves(w1, sid, SessionCreated(agent, items, rl.decision.total, StatusFor(rl.decision)));
    LogDecisionEvolves(w2, sid, rl);
    LogReviewRequestEvolves(LogDecision(w2, sid, rl), sid, rl.decision);
    EvolvesTransitive(w, w1, w2);
    EvolvesTransitive(w, w2, LogDecision(w2, sid, rl));
    EvolvesTransitive(w, LogDecision(w2, sid, rl), CreateWith(w, agent, items, key, hash, rl).0);
  }

  lemma ReevaluateEvolves(w: World, sid: nat, items: Items, announce: bool, rl: Ruling)
    requires sid < |w.sessions| && Editable(w.sessions[sid].status) && rl.decision == Decide(rl.input)
    ensures Evolves(w, Reevaluate(w, sid, items, announce, rl).0)
  {
    var d := rl.decision;
    var s := w.sessions[sid].(status := StatusFor(d), lines := d.lines, total := d.total, mandate := rl.mandate);
    SetEvolves(w, sid, s);
    var w1 := SetSession(w, sid, s);
    LogEvolves(w1, sid, SessionUpdated(items, d.total, StatusFor(d)));
    var w2 := if announce then Log(w1, sid, SessionUpdated(items, d.total, StatusFor(d))) else w1;
    EvolvesReflexive(w1);
    EvolvesTransitive(w, w1, w2);
    LogDecisionEvolves(w2, sid, rl);
    EvolvesTransitive(w, w2, LogDecision(w2, sid, rl));
    LogReviewRequestEvolves(LogDecision(w2, sid, rl), sid, d);
    EvolvesTransitive(w, LogDecision(w2, sid, rl), Reevaluate(w, sid, items, announce, rl).0);
  }

  lemma GiveReviewEvolves(w: World, sid: nat, approved: bool, note: string)
    requires sid < |w.sessions| && Editable(w.sessions[sid].status)
    ensures Evolves(w, GiveReview(w, sid, approved, note)) && GiveReview(w, sid, approved, note).sessions == w.sessions
  {
    var r := Review(sid, w.sessions[sid].total, approved, note);
    var w1 := w.(reviews := w.reviews + [r]);
    forall s: nat | s < |w.sessions| && !Editable(w.sessions[s].status)
      ensures LatestReview(w1.reviews, s) == LatestReview(w.reviews, s)
    {
      ReviewAppend(w.reviews, r, s);
    }
    assert Evolves(w, w1);
    LogEvolves(w1, sid, ReviewGiven(approved, w.sessions[sid].total, note));
    EvolvesTransitive(w, w1, GiveReview(w, sid, approved, note));
  }

  lemma StartPaymentEvolves(w: World, sid: nat, key: Option<string>, total: int, link: LinkAnswer)
    requires sid < |w.sessions| && w.sessions[sid].status == Ready
    ensures Evolves(w, StartPayment(w, sid, key, total, link).0)
  {
    match link
    case LinkRefused =>
      var w1 := Log(w, sid, ProviderError(CreateLinkOp));
      LogEvolves(w, sid, ProviderError(CreateLinkOp));
      ReleaseEvolves(w1, sid, ProviderFailed);
      EvolvesTransitive(w, w1, StartPayment(w, sid, key, total, link).0);
    case LinkMade(linkId, _, expireAt) =>
      var s := LinkedSession(w.sessions[sid], key, link);
      SetEvolves(w, sid, s);
      LogEvolves(SetSession(w, sid, s), sid, LinkCreated(linkId, total, 1, expireAt));
      EvolvesTransitive(w, SetSession(w, sid, s), StartPayment(w, sid, key, total, link).0);
  }

  lemma CompleteEvolves(w: World, sid: nat, key: Option<string>, now: int, link: LinkAnswer, rl: Ruling)
    requires sid < |w.sessions| && w.sessions[sid].status == Ready && rl.decision == Decide(rl.input)
    ensures Evolves(w, CompleteWith(w, sid, key, now, link, rl).0)
  {
    var w1 := LogDecision(w, sid, rl);
    LogDecisionEvolves(w, sid, rl);
    if rl.decision.verdict != ALLOW {
      RefusedEvolves(w1, sid, rl.decision);
      var s := w.sessions[sid].(status := StatusFor(rl.decision));
      EvolvesTransitive(w, w1, LogReviewRequest(SetSession(w1, sid, s), sid, rl.decision));
    } else if rl.mandate.Some? && Reserve(w1, sid, rl.mandate.value, rl.decision.total, now).Some? {
      HeldEvolves(w1, sid, key, now, link, rl.mandate.value, rl.decision.total);
      var w2 := Reserve(w1, sid, rl.mandate.value, rl.decision.total, now).value;
      EvolvesTransitive(w, w1, StartPayment(Log(w2, sid, MandateReserved(rl.mandate.value, rl.decision.total)), sid, key, rl.decision.total, link).0);
    }
  }

  lemma RefusedEvolves(w: World, sid: nat, d: Decision)
    requires sid < |w.sessions| && w.sessions[sid].status == Ready
    ensures Evolves(w, LogReviewRequest(SetSession(w, sid, w.sessions[sid].(status := StatusFor(d))), sid, d))
  {
    var s := w.sessions[sid].(status := StatusFor(d));
    SetEvolves(w, sid, s);
    LogReviewRequestEvolves(SetSession(w, sid, s), sid, d);
    EvolvesTransitive(w, SetSession(w, sid, s), LogReviewRequest(SetSession(w, sid, s), sid, d));
  }

  lemma HeldEvolves(w: World, sid: nat, key: Option<string>, now: int, link: LinkAnswer, mandate: nat, total: int)
    requires sid < |w.sessions| && w.sessions[sid].status == Ready && Reserve(w, sid, mandate, total, now).Some?
    ensures var w1 := Log(Reserve(w, sid, mandate, total, now).value, sid, MandateReserved(mandate, total));
            Evolves(w, StartPayment(w1, sid, key, total, link).0)
  {
    var w1 := Reserve(w, sid, mandate, total, now).value;
    var w2 := Log(w1, sid, MandateReserved(mandate, total));
    assert Evolves(w, w1);
    LogEvolves(w1, sid, MandateReserved(mandate, total));
    EvolvesTransitive(w, w1, w2);
    StartPaymentEvolves(w2, sid, key, total, link);
    EvolvesTransitive(w, w2, StartPayment(w2, sid, key, total, link).0);
  }

  lemma {:induction false} RecordAllEvolves(w: World, sid: nat, xs: seq<Attempt>, attemptNo: nat, now: int)
    ensures Evolves(w, RecordAll(w, sid, xs, attemptNo, now))
  {
    if xs == [] {
      EvolvesReflexive(w);
    } else {
      var front := RecordAll(w, sid, xs[..|xs| - 1], attemptNo, now);
      RecordAllEvolves(w, sid, xs[..|xs| - 1], attemptNo, now);
      assert Evolves(front, RecordAttempt(front, sid, xs[|xs| - 1], attemptNo, now));
      EvolvesTransitive(w, front, RecordAll(w, sid, xs, attemptNo, now));
    }
  }

  lemma FinishPaidEvolves(w: World, sid: nat, a: Attempt, attemptNo: nat, now: int)
    requires sid < |w.sessions| && w.sessions[sid].status == Pending
    ensures Evolves(w, FinishPaid(w, sid, a, attemptNo, now).0)
  {
    var w1 := Log(w, sid, PaymentCaptured(a.paymentId, a.amount, attemptNo));
    LogEvolves(w, sid, PaymentCaptured(a.paymentId, a.amount, attemptNo));
    CommitEvolves(w1, sid);
    var w2 := CommitIfOpen(w1, sid);
    var s := w.sessions[sid].(status := Completed, completedAt := Some(now));
    SetEvolves(w2, sid, s);
    LogEvolves(SetSession(w2, sid, s), sid, SessionCompleted(s.total, attemptNo));
    EvolvesTransitive(w, w1, w2);
    EvolvesTransitive(w, w2, SetSession(w2, sid, s));
    EvolvesTransitive(w, SetSession(w2, sid, s), FinishPaid(w, sid, a, attemptNo, now).0);
  }

  lemma CancelQuietlyEvolves(w: World, sid: nat, ok: bool)
    requires sid < |w.sessions|
    ensures Evolves(w, CancelQuietly(w, sid, ok)) && CancelQuietly(w, sid, ok).sessions == w.sessions
  {
  }

  lemma AbandonEvolves(w: World, sid: nat, reason: Reason, ok: bool)
    requires sid < |w.sessions| && w.sessions[sid].status == Pending
    ensures Evolves(w, Abandon(w, sid, reason, ok).0)
  {
    var s := w.sessions[sid].(status := Canceled);
    CancelQuietlyEvolves(w, sid, ok);
    var w1 := CancelQuietly(w, sid, ok);
    ReleaseEvolves(w1, sid, reason);
    var w2 := ReleaseIfOpen(w1, sid, reason);
    SetEvolves(w2, sid, s);
    var w3 := SetSession(w2, sid, s);
    var w4 := Log(w3, sid, PaymentAbandoned(s.attempt, reason));
    LogEvolves(w3, sid, PaymentAbandoned(s.attempt, reason));
    LogEvolves(w4, sid, SessionCanceled(reason));
    EvolvesTransitive(w, w1, w2);
    EvolvesTransitive(w, w2, w3);
    EvolvesTransitive(w, w3, w4);
    EvolvesTransitive(w, w4, Abandon(w, sid, reason, ok).0);
  }

  lemma RelinkEvolves(w: World, sid: nat, reason: Reason, link: LinkAnswer, total: int)
    requires sid < |w.sessions| && w.sessions[sid].status == Pending && link.LinkMade?
    ensures Evolves(w, Relink(w, sid, w.sessions[sid], reason, link, total))
  {
    var row := w.sessions[sid];
    var n := row.attempt + 1;
    SetEvolves(w, sid, RetriedSession(row, link));
    var w1 := SetSession(w, sid, RetriedSession(row, link));
    var w2 := Log(w1, sid, PaymentRetry(n, reason, row.linkId));
    LogEvolves(w1, sid, PaymentRetry(n, reason, row.linkId));
    LogEvolves(w2, sid, LinkCreated(link.linkId, total, n, link.expireAt));
    EvolvesTransitive(w, w1, w2);
    EvolvesTransitive(w, w2, Relink(w, sid, row, reason, link, total));
  }

  lemma RetryDeniedEvolves(w: World, sid: nat, reason: Reason, ok1: bool, ok2: bool, link: LinkAnswer, rl: Ruling)
    requires sid < |w.sessions| && w.sessions[sid].status == Pending && rl.decision == Decide(rl.input) && rl.decision.verdict != ALLOW
    ensures Evolves(w, RetryWith(w, sid, reason, ok1, ok2, link, rl).0)
  {
    var w1 := LogDecision(w, sid, rl);
    LogDecisionEvolves(w, sid, rl);
    AbandonEvolves(w1, sid, RetryDenied(rl.decision.rule), ok1);
    EvolvesTransitive(w, w1, Abandon(w1, sid, RetryDenied(rl.decision.rule), ok1).0);
  }

  lemma RetryRefusedEvolves(w: World, sid: nat, reason: Reason, ok1: bool, ok2: bool, link: LinkAnswer, rl: Ruling)
    requires sid < |w.sessions| && w.sessions[sid].status == Pending && rl.decision == Decide(rl.input)
    requires rl.decision.verdict == ALLOW && link.LinkRefused?
    ensures Evolves(w, RetryWith(w, sid, reason, ok1, ok2, link, rl).0)
  {
    var w1 := LogDecision(w, sid, rl);
    LogDecisionEvolves(w, sid, rl);
    CancelQuietlyEvolves(w1, sid, ok1);
    var w2 := CancelQuietly(w1, sid, ok1);
    EvolvesTransitive(w, w1, w2);
    var w3 := Log(w2, sid, ProviderError(CreateLinkOp));
    LogEvolves(w2, sid, ProviderError(CreateLinkOp));
    EvolvesTransitive(w, w2, w3);
    AbandonEvolves(w3, sid, ProviderFailed, ok2);
    EvolvesTransitive(w, w3, Abandon(w3, sid, ProviderFailed, ok2).0);
  }

  lemma RetryMadeEvolves(w: World, sid: nat, reason: Reason, ok1: bool, ok2: bool, link: LinkAnswer, rl: Ruling)
    requires sid < |w.sessions| && w.sessions[sid].status == Pending && rl.decision == Decide(rl.input)
    requires rl.decision.verdict == ALLOW && link.LinkMade?
    ensures Evolves(w, RetryWith(w, sid, reason, ok1, ok2, link, rl).0)
  {
    var w1 := LogDecision(w, sid, rl);
    LogDecisionEvolves(w, sid, rl);
    var w2 := CancelQuietly(w1, sid, ok1);
    CancelQuietlyEvolves(w1, sid, ok1);
    EvolvesTransitive(w, w1, w2);
    var w3 := Relink(w2, sid, w.sessions[sid], reason, link, rl.decision.total);
    RelinkEvolves(w2, sid, reason, link, rl.decision.total);
    EvolvesTransitive(w, w2, w3);
  }

  lemma RetryEvolves(w: World, sid: nat, reason: Reason, ok1: bool, ok2: bool, link: LinkAnswer, rl: Ruling)
    requires sid < |w.sessions| && w.sessions[sid].status == Pending && rl.decision == Decide(rl.input)
    ensures Evolves(w, RetryWith(w, sid, reason, ok1, ok2, link, rl).0)
  {
    if rl.decision.verdict != ALLOW {
      RetryDeniedEvolves(w, sid, reason, ok1, ok2, link, rl);
    } else if link.LinkRefused? {
      RetryRefusedEvolves(w, sid, reason, ok1, ok2, link, rl);
    } else {
      RetryMadeEvolves(w, sid, reason, ok1, ok2, link, rl);
    }
  }

  lemma AfterFailedEvolves(w: World, sid: nat, reason: Reason, now: int, ok1: bool, ok2: bool, link: LinkAnswer)
    requires sid < |w.sessions| && w.sessions[sid].status == Pending
    ensures Evolves(w, AfterFailedAttempt(w, sid, reason, now, ok1, ok2, link).0)
  {
    var row := w.sessions[sid];
    if row.attempt >= MAX_ATTEMPTS {
      AbandonEvolves(w, sid, reason, ok1);
    } else {
      RetryEvolves(w, sid, reason, ok1, ok2, link,
                   Judge(w, row.agent, ItemList(StoredItems(row.lines)), Some(Pending), Retry, Some(sid), true, now));
    }
  }

  lemma ReconcileEvolves(w: World, sid: nat, now: int, poll: PollAnswer, ok1: bool, ok2: bool, link: LinkAnswer)
    ensures Evolves(w, Reconcile(w, sid, now, poll, ok1, ok2, link).0)
  {
    EvolvesReflexive(w);
    if sid < |w.sessions| && w.sessions[sid].status == Pending {
      var row := w.sessions[sid];
      match poll
      case PollRefused => LogEvolves(w, sid, ProviderError(PollOp));
      case Polled(linkStatus, orderId, attempts) =>
        var unseen := Unseen(w.payments, sid, attempts);
        var w1 := WithOrder(w, sid, orderId);
        SetEvolves(w, sid, row.(orderId := orderId));
        var w2 := RecordAll(w1, sid, unseen, row.attempt, now);
        RecordAllEvolves(w1, sid, unseen, row.attempt, now);
        EvolvesTransitive(w, w1, w2);
        var done := Reconcile(w, sid, now, poll, ok1, ok2, link).0;
        if FirstCapture(unseen).Some? {
          FinishPaidEvolves(w2, sid, FirstCapture(unseen).value, row.attempt, now);
          EvolvesTransitive(w, w2, done);
        } else if AttemptOver(row, unseen, linkStatus, now).Some? {
          AfterFailedEvolves(w2, sid, AttemptOver(row, unseen, linkStatus, now).value, now, ok1, ok2, link);
          EvolvesTransitive(w, w2, done);
        }
    }
  }

  lemma CancelingEvolves(w: World, sid: nat, reason: Reason)
    requires sid < |w.sessions| && !Terminal(w.sessions[sid].status)
    ensures Evolves(w, Canceling(w, sid, reason).0)
  {
    ReleaseEvolves(w, sid, reason);
    var w1 := ReleaseIfOpen(w, sid, reason);
    var s := w.sessions[sid].(status := Canceled);
    SetEvolves(w1, sid, s);
    LogEvolves(SetSession(w1, sid, s), sid, SessionCanceled(reason));
    EvolvesTransitive(w, w1, SetSession(w1, sid, s));
    EvolvesTransitive(w, SetSession(w1, sid, s), Canceling(w, sid, reason).0);
  }

  lemma CancelEvolves(w: World, sid: nat, reason: Reason, now: int, ok: bool, poll: PollAnswer)
    requires sid < |w.sessions|
    ensures Evolves(w, CancelSession(w, sid, reason, now, ok, poll).0)
  {
    var row := w.sessions[sid];
    EvolvesReflexive(w);
    if !Terminal(row.status) {
      if row.status == Pending && Given(row.linkId) {
        if ok {
          var w1 := Log(w, sid, LinkCancelled(row.linkId.value));
          LogEvolves(w, sid, LinkCancelled(row.linkId.value));
          CancelingEvolves(w1, sid, reason);
          EvolvesTransitive(w, w1, Canceling(w1, sid, reason).0);
        } else {
          LateCaptureEvolves(w, sid, now, poll);
        }
      } else {
        CancelingEvolves(w, sid, reason);
      }
    }
  }

  lemma LateCaptureEvolves(w: World, sid: nat, now: int, poll: PollAnswer)
    requires sid < |w.sessions| && w.sessions[sid].status == Pending && w.sessions[sid].linkId.Some?
    ensures Evolves(w, LateCapture(w, sid, now, poll).0)
  {
    var row := w.sessions[sid];
    EvolvesReflexive(w);
    LogEvolves(w, sid, ProviderError(PollOp));
    var w1 := if poll.PollRefused? then Log(w, sid, ProviderError(PollOp)) else w;
    var captured := if poll.PollRefused? then None else FirstCapture(Unseen(w.payments, sid, poll.attempts));
    if captured.Some? {
      var w2 := RecordPayment(w1, sid, captured.value, row.attempt, now);
      assert Evolves(w1, w2);
      FinishPaidEvolves(w2, sid, captured.value, row.attempt, now);
      EvolvesTransitive(w1, w2, FinishPaid(w2, sid, captured.value, row.attempt, now).0);
    } else {
      LogEvolves(w1, sid, LinkCancelFailed(row.linkId.value));
      EvolvesTransitive(w, w1, LateCapture(w, sid, now, poll).0);
    }
  }

  lemma RefundEvolves(w: World, sid: nat, ri: RefundInput, d: RefundDecision, answer: RefundAnswer)
    requires sid < |w.sessions| && d == DecideRefund(ri)
    ensures Evolves(w, RefundWith(w, sid, ri, d, answer).0)
  {
    var w1 := Log(w, sid, RefundDecided(d, ri));
    LogEvolves(w, sid, RefundDecided(d, ri));
    EvolvesReflexive(w1);
    var captured := FirstCaptured(w.payments, sid);
    if d.verdict == ALLOW && Requested(ri) && captured.Some? {
      if answer.RefundMade? {
        var f := Refund(sid, w.sessions[sid].mandate, captured.value.paymentId, answer.refundId, ri.amount.n, ri.reason.s, ri.reference.s);
        RefundRowEvolves(w1, sid, f);
      } else {
        LogEvolves(w1, sid, ProviderError(RefundOp));
      }
    }
    EvolvesTransitive(w, w1, RefundWith(w, sid, ri, d, answer).0);
  }

  lemma RefundRowEvolves(w: World, sid: nat, f: Refund)
    ensures Evolves(w, Log(w.(refunds := w.refunds + [f]), sid, RefundCreated(f.refundId, f.paymentId, f.amount, f.reference, f.mandate)))
  {
  }
}
