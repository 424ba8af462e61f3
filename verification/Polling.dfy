/**
 * What a poll of the payments provider does to a pending session, said about the poll's answer and the tables alone: the
 * payment is settled, the attempt is over, or nothing happens. The outcome of each case is the whole new state.
 */
module Polling {
  import opened Basics
  import opened Gate
  import opened Ledger
  import opened Records
  import opened Books
  import opened Checkout
  import opened PlainGate
  import opened Buying
  import opened Orders

  // ---- what the answer says ----------------------------------------------------------------------

  /** The attempt is not on file for the session. */
  predicate New(ps: seq<Payment>, sid: nat, a: Attempt) {
    forall i | 0 <= i < |ps| && ps[i].session == sid :: ps[i].paymentId != a.paymentId
  }

  /** Attempt c of the list is the first new one that was captured, or there is none. */
  predicate FirstNewCapture(ps: seq<Payment>, sid: nat, xs: seq<Attempt>, c: Option<nat>) {
    match c
    case None => forall i | 0 <= i < |xs| :: !(New(ps, sid, xs[i]) && xs[i].status == CapturedPay)
    case Some(n) =>
      && n < |xs| && New(ps, sid, xs[n]) && xs[n].status == CapturedPay
      && forall i | 0 <= i < n :: !(New(ps, sid, xs[i]) && xs[i].status == CapturedPay)
  }

  predicate NewFailure(ps: seq<Payment>, sid: nat, xs: seq<Attempt>) {
    exists i | 0 <= i < |xs| :: New(ps, sid, xs[i]) && xs[i].status == FailedPay
  }

  /** The attempt is over: a new failure, a link that is dead at the provider, or one that is past its expiry. */
  function WhyOver(w: World, sid: nat, xs: seq<Attempt>, status: LinkStatus, now: int): Option<Reason>
    requires sid < |w.sessions|
  {
    var expiry := w.sessions[sid].linkExpireAt;
    if NewFailure(w.payments, sid, xs) then Some(PaymentWasFailed)
    else if status == LinkDead(true) then Some(LinkWasExpired)
    else if status == LinkDead(false) then Some(LinkWasCancelled)
    else if expiry.Some? && expiry.value <= now then Some(LinkWasExpired)
    else None
  }

  // ---- what is filed -----------------------------------------------------------------------------

  function NewOnes(ps: seq<Payment>, sid: nat, xs: seq<Attempt>): seq<Attempt> {
    if xs == [] then []
    else NewOnes(ps, sid, xs[..|xs| - 1]) + (if New(ps, sid, xs[|xs| - 1]) then [xs[|xs| - 1]] else [])
  }

  function Rows(sid: nat, xs: seq<Attempt>, attempt: nat, now: int): (rows: seq<Payment>)
    ensures |rows| == |xs|
    ensures forall i | 0 <= i < |xs| :: rows[i] == Payment(sid, xs[i].paymentId, xs[i].status, xs[i].amount, attempt, now)
  {
    if xs == [] then []
    else
      var a := xs[|xs| - 1];
      Rows(sid, xs[..|xs| - 1], attempt, now) + [Payment(sid, a.paymentId, a.status, a.amount, attempt, now)]
  }

  function Failures(xs: seq<Attempt>, attempt: nat): seq<Event> {
    if xs == [] then []
    else
      var a := xs[|xs| - 1];
      Failures(xs[..|xs| - 1], attempt) + (if a.status == FailedPay then [PaymentFailed(a.paymentId, a.amount, attempt)] else [])
  }

  /** The row once the order id is known; one that is on file stays. */
  function Identified(s: Session, orderId: Option<string>): Session {
    if s.orderId in {None, Some("")} && orderId !in {None, Some("")} then s.(orderId := orderId) else s
  }

  /** The state with the new attempts on file. */
  function Noted(w: World, sid: nat, now: int, orderId: Option<string>, xs: seq<Attempt>): World
    requires sid < |w.sessions|
  {
    var s, listed := w.sessions[sid], NewOnes(w.payments, sid, xs);
    w.(sessions := w.sessions[sid := Identified(s, orderId)], payments := w.payments + Rows(sid, listed, s.attempt, now),
       trail := w.trail + Stamped(sid, Failures(listed, s.attempt)))
  }

  // ---- the outcomes ------------------------------------------------------------------------------

  /** Every open reservation of the session moves to this state, and no other. */
  predicate Moves(rs: seq<Reservation>, rs': seq<Reservation>, sid: nat, state: HoldState) {
    && |rs'| == |rs|
    && forall i | 0 <= i < |rs| ::
         rs'[i] == if rs[i].session == sid && rs[i].state == Reserved then rs[i].(state := state) else rs[i]
  }

  function Committing(held: Option<Reservation>): seq<Event> {
    if held.Some? then [MandateCommitted(held.value.mandate, held.value.amount)] else []
  }

  function Releasing(held: Option<Reservation>, why: Reason): seq<Event> {
    if held.Some? then [MandateReleased(held.value.mandate, held.value.amount, why)] else []
  }

  function Unlinking(linkId: Option<string>, ok: bool): seq<Event> {
    if linkId in {None, Some("")} then []
    else if ok then [LinkCancelled(linkId.value)] else [LinkCancelFailed(linkId.value)]
  }

  /** Paid: the session is completed, its hold committed, and the trail names the payment. */
  predicate Paid(w: World, w': World, sid: nat, a: Attempt, now: int)
    requires sid < |w.sessions|
  {
    var s := w.sessions[sid];
    && w' == w.(sessions := w.sessions[sid := s.(status := Completed, completedAt := Some(now))],
                reservations := w'.reservations, trail := w'.trail)
    && Moves(w.reservations, w'.reservations, sid, Committed)
    && Gains(w.trail, w'.trail, sid,
             [PaymentCaptured(a.paymentId, a.amount, s.attempt)] + Committing(OpenFor(w.reservations, sid))
             + [SessionCompleted(s.total, s.attempt)])
  }

  /** Abandoned, apart from what the trail said before: the session is canceled and its hold given back. */
  predicate Gone(w: World, w': World, sid: nat)
    requires sid < |w.sessions|
  {
    && w' == w.(sessions := w.sessions[sid := w.sessions[sid].(status := Canceled)],
                reservations := w'.reservations, trail := w'.trail)
    && Moves(w.reservations, w'.reservations, sid, Released)
  }

  function Leaving(w: World, sid: nat, why: Reason, ok: bool): seq<Event>
    requires sid < |w.sessions|
  {
    Unlinking(w.sessions[sid].linkId, ok) + Releasing(OpenFor(w.reservations, sid), why)
    + [PaymentAbandoned(w.sessions[sid].attempt, why), SessionCanceled(why)]
  }

  /** Second attempt: a new link for the cart at today's prices; the hold stays. */
  predicate Retried(w: World, w': World, sid: nat, link: LinkAnswer)
    requires sid < |w.sessions| && link.LinkMade?
  {
    var s := w.sessions[sid];
    w' == w.(sessions := w.sessions[sid := s.(attempt := s.attempt + 1, linkId := Some(link.linkId),
                                              linkExpireAt := Some(link.expireAt), orderId := link.orderId)],
             trail := w'.trail)
  }

  function Relinking(s: Session, why: Reason, ok: bool, link: LinkAnswer, cost: int): seq<Event>
    requires link.LinkMade?
  {
    Unlinking(s.linkId, ok)
    + [PaymentRetry(s.attempt + 1, why, s.linkId), LinkCreated(link.linkId, cost, s.attempt + 1, link.expireAt)]
  }

  /** The trail gains a decision of a run in this mode, allowed or not, and then these events. */
  predicate GainsRun(a: Trail, b: Trail, sid: nat, mode: Mode, allowed: bool, after: seq<Event>) {
    && |b| == |a| + 1 + |after| && b[..|a|] == a && b[|a| + 1..] == Stamped(sid, after)
    && b[|a|].session == Some(sid) && b[|a|].payload.GateDecision? && b[|a|].payload.mode == mode
    && (b[|a|].payload.decision.verdict == ALLOW <==> allowed)
  }

  function Last(a: Trail, b: Trail): Event
    requires |a| < |b|
  {
    b[|a|].payload
  }

  /** What happens when the attempt is over: the last attempt was the second, or the order may not go ahead any more, or
      the provider makes no link, and the payment is abandoned; otherwise there is a second link. */
  predicate Over(w: World, w': World, t: Terms, sid: nat, why: Reason, now: int, ok1: bool, ok2: bool, link: LinkAnswer)
    requires sid < |w.sessions|
  {
    var s := w.sessions[sid];
    var items := ItemList(StoredItems(s.lines));
    var may := Orderable(w, t, s.agent, items, Some(sid), now) && Reviewed(w, t, Some(sid), Cost(w.catalog, items.xs));
    if s.attempt >= 2 then Gone(w, w', sid) && Gains(w.trail, w'.trail, sid, Leaving(w, sid, why, ok1))
    else if !may then
      && Gone(w, w', sid) && |w.trail| < |w'.trail| && Last(w.trail, w'.trail).GateDecision?
      && GainsRun(w.trail, w'.trail, sid, Retry, false,
                  Leaving(w, sid, RetryDenied(Last(w.trail, w'.trail).decision.rule), ok1))
    else match link
      case LinkRefused =>
        && Gone(w, w', sid)
        && GainsRun(w.trail, w'.trail, sid, Retry, true,
                    Unlinking(s.linkId, ok1) + [ProviderError(CreateLinkOp)] + Leaving(w, sid, ProviderFailed, ok2))
      case LinkMade(_, _, _) =>
        && Retried(w, w', sid, link)
        && GainsRun(w.trail, w'.trail, sid, Retry, true, Relinking(s, why, ok1, link, Cost(w.catalog, items.xs)))
  }

  // ---- reading the answer ------------------------------------------------------------------------

  lemma {:induction false} UnseenAreNew(ps: seq<Payment>, sid: nat, xs: seq<Attempt>)
    ensures Unseen(ps, sid, xs) == NewOnes(ps, sid, xs)
  {
    if xs != [] {
      UnseenAreNew(ps, sid, xs[..|xs| - 1]);
      assert Seen(ps, sid, xs[|xs| - 1].paymentId) <==> !New(ps, sid, xs[|xs| - 1]);
    }
  }

  lemma {:induction false} CaptureAmongNew(ps: seq<Payment>, sid: nat, xs: seq<Attempt>, c: Option<nat>)
    requires FirstNewCapture(ps, sid, xs, c)
    ensures FirstCapture(NewOnes(ps, sid, xs)) == if c.Some? then Some(xs[c.value]) else None
  {
    if xs != [] {
      var n := |xs| - 1;
      var front := NewOnes(ps, sid, xs[..n]);
      CaptureAmongNew(ps, sid, xs[..n], if c.Some? && c.value == n then None else c);
      if New(ps, sid, xs[n]) {
        CaptureAppend(front, xs[n]);
      } else {
        assert NewOnes(ps, sid, xs) == front;
      }
    }
  }

  lemma CaptureAppend(xs: seq<Attempt>, a: Attempt)
    ensures FirstCapture(xs + [a]) ==
            if FirstCapture(xs).Some? then FirstCapture(xs) else if a.status == CapturedPay then Some(a) else None
  {
    assert (xs + [a])[..|xs|] == xs;
  }

  lemma {:induction false} FailureAmongNew(ps: seq<Payment>, sid: nat, xs: seq<Attempt>)
    ensures AnyFailed(NewOnes(ps, sid, xs)) <==> NewFailure(ps, sid, xs)
  {
    if xs != [] {
      var n := |xs| - 1;
      var front, all := NewOnes(ps, sid, xs[..n]), NewOnes(ps, sid, xs);
      FailureAmongNew(ps, sid, xs[..n]);
      if AnyFailed(front) {
        var i :| 0 <= i < |front| && front[i].status == FailedPay;
        assert all[i].status == FailedPay;
      }
      if NewFailure(ps, sid, xs[..n]) {
        var i :| 0 <= i < n && New(ps, sid, xs[..n][i]) && xs[..n][i].status == FailedPay;
        assert New(ps, sid, xs[i]);
      }
      if NewFailure(ps, sid, xs) {
        var i :| 0 <= i < |xs| && New(ps, sid, xs[i]) && xs[i].status == FailedPay;
        if i < n {
          assert New(ps, sid, xs[..n][i]);
        } else {
          assert all[|front|].status == FailedPay;
        }
      }
      if AnyFailed(all) && !AnyFailed(front) {
        assert all == front + [xs[n]];
      }
    }
  }

  lemma OverMeans(w: World, sid: nat, xs: seq<Attempt>, status: LinkStatus, now: int)
    requires sid < |w.sessions|
    ensures AttemptOver(w.sessions[sid], Unseen(w.payments, sid, xs), status, now) == WhyOver(w, sid, xs, status, now)
  {
    UnseenAreNew(w.payments, sid, xs);
    FailureAmongNew(w.payments, sid, xs);
  }

  lemma StampedJoin(sid: nat, a: seq<Event>, b: seq<Event>)
    ensures Stamped(sid, a + b) == Stamped(sid, a) + Stamped(sid, b)
  {
  }

  lemma GainsJoin(a: Trail, b: Trail, c: Trail, sid: nat, es: seq<Event>, es': seq<Event>)
    requires Gains(a, b, sid, es) && Gains(b, c, sid, es')
    ensures Gains(a, c, sid, es + es')
  {
    StampedJoin(sid, es, es');
  }

  lemma LogIs(w: World, sid: nat, e: Event)
    ensures Log(w, sid, e) == w.(trail := w.trail + Stamped(sid, [e]))
  {
    assert Stamped(sid, [e]) == [Entry(Some(sid), e)];
  }

  lemma RecordedOne(w: World, sid: nat, a: Attempt, attempt: nat, now: int)
    ensures RecordAttempt(w, sid, a, attempt, now)
         == w.(payments := w.payments + [Payment(sid, a.paymentId, a.status, a.amount, attempt, now)],
               trail := w.trail + Stamped(sid, if a.status == FailedPay then [PaymentFailed(a.paymentId, a.amount, attempt)] else []))
  {
    LogIs(RecordPayment(w, sid, a, attempt, now), sid, PaymentFailed(a.paymentId, a.amount, attempt));
    assert Stamped(sid, []) == [];
  }

  lemma {:induction false} RecordedIs(w: World, sid: nat, xs: seq<Attempt>, attempt: nat, now: int)
    ensures var w' := RecordAll(w, sid, xs, attempt, now);
            && w' == w.(payments := w.payments + Rows(sid, xs, attempt, now), trail := w'.trail)
            && Gains(w.trail, w'.trail, sid, Failures(xs, attempt))
  {
    if xs == [] {
      assert Stamped(sid, []) == [];
    } else {
      var n := |xs| - 1;
      var front := RecordAll(w, sid, xs[..n], attempt, now);
      RecordedIs(w, sid, xs[..n], attempt, now);
      RecordedOne(front, sid, xs[n], attempt, now);
      GainsJoin(w.trail, front.trail, RecordAll(w, sid, xs, attempt, now).trail, sid, Failures(xs[..n], attempt),
                if xs[n].status == FailedPay then [PaymentFailed(xs[n].paymentId, xs[n].amount, attempt)] else []);
    }
  }

  lemma NotedIs(w: World, sid: nat, now: int, orderId: Option<string>, xs: seq<Attempt>)
    requires sid < |w.sessions|
    ensures RecordAll(WithOrder(w, sid, orderId), sid, Unseen(w.payments, sid, xs), w.sessions[sid].attempt, now)
         == Noted(w, sid, now, orderId, xs)
  {
    assert WithOrder(w, sid, orderId) == w.(sessions := w.sessions[sid := Identified(w.sessions[sid], orderId)]);
    UnseenAreNew(w.payments, sid, xs);
    RecordedIs(WithOrder(w, sid, orderId), sid, NewOnes(w.payments, sid, xs), w.sessions[sid].attempt, now);
  }

  // ---- the outcomes ------------------------------------------------------------------------------

  lemma MovesAll(rs: seq<Reservation>, sid: nat, state: HoldState)
    requires OpenFor(rs, sid).None?
    ensures Moves(rs, rs, sid, state)
  {
    forall i | 0 <= i < |rs| ensures !(rs[i].session == sid && rs[i].state == Reserved) {
      NoneOpen(rs, sid, i);
    }
  }

  lemma {:induction false} NoneOpen(rs: seq<Reservation>, sid: nat, i: nat)
    requires OpenFor(rs, sid).None? && i < |rs|
    ensures !(rs[i].session == sid && rs[i].state == Reserved)
  {
    if i < |rs| - 1 {
      NoneOpen(rs[..|rs| - 1], sid, i);
    }
  }

  lemma CommitForm(w: World, sid: nat)
    ensures var w' := CommitIfOpen(w, sid);
            && w' == w.(reservations := w'.reservations, trail := w.trail + Stamped(sid, Committing(OpenFor(w.reservations, sid))))
            && Moves(w.reservations, w'.reservations, sid, Committed)
  {
    var held := OpenFor(w.reservations, sid);
    if held.Some? {
      LogIs(WithState(w, sid, Committed), sid, MandateCommitted(held.value.mandate, held.value.amount));
    } else {
      MovesAll(w.reservations, sid, Committed);
      assert Stamped(sid, []) == [];
    }
  }

  lemma ReleaseForm(w: World, sid: nat, why: Reason)
    ensures var w' := ReleaseIfOpen(w, sid, why);
            && w' == w.(reservations := w'.reservations, trail := w.trail + Stamped(sid, Releasing(OpenFor(w.reservations, sid), why)))
            && Moves(w.reservations, w'.reservations, sid, Released)
  {
    var held := OpenFor(w.reservations, sid);
    if held.Some? {
      LogIs(WithState(w, sid, Released), sid, MandateReleased(held.value.mandate, held.value.amount, why));
    } else {
      MovesAll(w.reservations, sid, Released);
      assert Stamped(sid, []) == [];
    }
  }

  lemma FinishedIsPaid(w: World, sid: nat, a: Attempt, now: int)
    requires sid < |w.sessions|
    ensures Paid(w, FinishPaid(w, sid, a, w.sessions[sid].attempt, now).0, sid, a, now)
  {
    var s := w.sessions[sid];
    var e, e' := PaymentCaptured(a.paymentId, a.amount, s.attempt), SessionCompleted(s.total, s.attempt);
    LogIs(w, sid, e);
    var w1 := Log(w, sid, e);
    CommitForm(w1, sid);
    var w2 := SetSession(CommitIfOpen(w1, sid), sid, s.(status := Completed, completedAt := Some(now)));
    LogIs(w2, sid, e');
    GainsJoin(w.trail, w1.trail, w2.trail, sid, [e], Committing(OpenFor(w.reservations, sid)));
    GainsJoin(w.trail, w2.trail, Log(w2, sid, e').trail, sid, [e] + Committing(OpenFor(w.reservations, sid)), [e']);
  }

  lemma Unlinked(w: World, sid: nat, ok: bool)
    requires sid < |w.sessions|
    ensures CancelQuietly(w, sid, ok) == w.(trail := w.trail + Stamped(sid, Unlinking(w.sessions[sid].linkId, ok)))
  {
    var linkId := w.sessions[sid].linkId;
    if Given(linkId) {
      LogIs(w, sid, LinkCancelled(linkId.value));
      LogIs(w, sid, LinkCancelFailed(linkId.value));
    } else {
      assert Stamped(sid, []) == [];
    }
  }

  lemma AbandonedIsGone(w: World, sid: nat, why: Reason, ok: bool)
    requires sid < |w.sessions|
    ensures var w' := Abandon(w, sid, why, ok).0; Gone(w, w', sid) && Gains(w.trail, w'.trail, sid, Leaving(w, sid, why, ok))
  {
    var s := w.sessions[sid];
    var unlinked, held := Unlinking(s.linkId, ok), Releasing(OpenFor(w.reservations, sid), why);
    Unlinked(w, sid, ok);
    var w1 := CancelQuietly(w, sid, ok);
    ReleaseForm(w1, sid, why);
    var w2 := SetSession(ReleaseIfOpen(w1, sid, why), sid, s.(status := Canceled));
    GainsJoin(w.trail, w1.trail, w2.trail, sid, unlinked, held);
    LogTwo(w2, sid, PaymentAbandoned(s.attempt, why), SessionCanceled(why));
    GainsJoin(w.trail, w2.trail, Abandon(w, sid, why, ok).0.trail, sid, unlinked + held,
              [PaymentAbandoned(s.attempt, why), SessionCanceled(why)]);
  }

  lemma LogTwo(w: World, sid: nat, e: Event, e': Event)
    ensures Log(Log(w, sid, e), sid, e') == w.(trail := w.trail + Stamped(sid, [e, e']))
  {
    assert Stamped(sid, [e, e']) == [Entry(Some(sid), e), Entry(Some(sid), e')];
  }

  lemma GainsRunJoin(a: Trail, b: Trail, sid: nat, e: Event, after: seq<Event>)
    requires e.GateDecision? && Gains(a + [Entry(Some(sid), e)], b, sid, after)
    ensures GainsRun(a, b, sid, e.mode, e.decision.verdict == ALLOW, after) && |a| < |b| && Last(a, b) == e
  {
  }

  lemma RetryDeniedForm(w: World, sid: nat, why: Reason, ok1: bool, ok2: bool, link: LinkAnswer, rl: Ruling)
    requires sid < |w.sessions| && rl.decision.verdict != ALLOW && rl.input.mode == Retry
    ensures var w' := RetryWith(w, sid, why, ok1, ok2, link, rl).0;
            && Gone(w, w', sid) && |w.trail| < |w'.trail| && Last(w.trail, w'.trail).GateDecision?
            && GainsRun(w.trail, w'.trail, sid, Retry, false,
                        Leaving(w, sid, RetryDenied(Last(w.trail, w'.trail).decision.rule), ok1))
  {
    var w1 := LogDecision(w, sid, rl);
    AbandonedIsGone(w1, sid, RetryDenied(rl.decision.rule), ok1);
    GainsRunJoin(w.trail, RetryWith(w, sid, why, ok1, ok2, link, rl).0.trail, sid,
                 GateDecision(rl.input.mode, rl.decision, Recorded(rl.input)), Leaving(w, sid, RetryDenied(rl.decision.rule), ok1));
  }

  lemma RetryRefusedForm(w: World, sid: nat, why: Reason, ok1: bool, ok2: bool, link: LinkAnswer, rl: Ruling)
    requires sid < |w.sessions| && rl.decision.verdict == ALLOW && rl.input.mode == Retry && link.LinkRefused?
    ensures var w' := RetryWith(w, sid, why, ok1, ok2, link, rl).0;
            && Gone(w, w', sid)
            && GainsRun(w.trail, w'.trail, sid, Retry, true,
                        Unlinking(w.sessions[sid].linkId, ok1) + [ProviderError(CreateLinkOp)] + Leaving(w, sid, ProviderFailed, ok2))
  {
    var unlinked := Unlinking(w.sessions[sid].linkId, ok1);
    var w1 := LogDecision(w, sid, rl);
    Unlinked(w1, sid, ok1);
    var w2 := CancelQuietly(w1, sid, ok1);
    LogIs(w2, sid, ProviderError(CreateLinkOp));
    var w3 := Log(w2, sid, ProviderError(CreateLinkOp));
    AbandonedIsGone(w3, sid, ProviderFailed, ok2);
    var w' := RetryWith(w, sid, why, ok1, ok2, link, rl).0;
    GainsJoin(w1.trail, w2.trail, w3.trail, sid, unlinked, [ProviderError(CreateLinkOp)]);
    GainsJoin(w1.trail, w3.trail, w'.trail, sid, unlinked + [ProviderError(CreateLinkOp)], Leaving(w, sid, ProviderFailed, ok2));
    GainsRunJoin(w.trail, w'.trail, sid, GateDecision(rl.input.mode, rl.decision, Recorded(rl.input)),
                 unlinked + [ProviderError(CreateLinkOp)] + Leaving(w, sid, ProviderFailed, ok2));
  }

  lemma RetryMadeForm(w: World, sid: nat, why: Reason, ok1: bool, ok2: bool, link: LinkAnswer, rl: Ruling)
    requires sid < |w.sessions| && rl.decision.verdict == ALLOW && rl.input.mode == Retry && link.LinkMade?
    ensures var w' := RetryWith(w, sid, why, ok1, ok2, link, rl).0;
            && Retried(w, w', sid, link)
            && GainsRun(w.trail, w'.trail, sid, Retry, true, Relinking(w.sessions[sid], why, ok1, link, rl.decision.total))
  {
    var s := w.sessions[sid];
    var e, e' := PaymentRetry(s.attempt + 1, why, s.linkId), LinkCreated(link.linkId, rl.decision.total, s.attempt + 1, link.expireAt);
    var w1 := LogDecision(w, sid, rl);
    Unlinked(w1, sid, ok1);
    var w2 := CancelQuietly(w1, sid, ok1);
    LogTwo(SetSession(w2, sid, RetriedSession(s, link)), sid, e, e');
    var w' := RetryWith(w, sid, why, ok1, ok2, link, rl).0;
    GainsJoin(w1.trail, w2.trail, w'.trail, sid, Unlinking(s.linkId, ok1), [e, e']);
    GainsRunJoin(w.trail, w'.trail, sid, GateDecision(rl.input.mode, rl.decision, Recorded(rl.input)),
                 Unlinking(s.linkId, ok1) + [e, e']);
  }

  lemma RetryReplies(w: World, sid: nat, why: Reason, ok1: bool, ok2: bool, link: LinkAnswer, rl: Ruling)
    requires sid < |w.sessions|
    ensures RetryWith(w, sid, why, ok1, ok2, link, rl).1 == Shown(sid)
  {
  }

  /** Once the attempt is over. */
  lemma OverOutcome(w: World, t: Terms, sid: nat, why: Reason, now: int, ok1: bool, ok2: bool, link: LinkAnswer)
    requires sid < |w.sessions| && OnTerms(w, t)
    ensures var (w', reply) := AfterFailedAttempt(w, sid, why, now, ok1, ok2, link);
            reply == Shown(sid) && Over(w, w', t, sid, why, now, ok1, ok2, link)
  {
    var s := w.sessions[sid];
    if s.attempt >= 2 {
      AbandonedIsGone(w, sid, why, ok1);
    } else {
      var items := ItemList(StoredItems(s.lines));
      RunMeans(w, t, s.agent, items, Some(Pending), Retry, Some(sid), true, now);
      RetryIsOver(w, t, sid, why, now, ok1, ok2, link, Judge(w, s.agent, items, Some(Pending), Retry, Some(sid), true, now));
    }
  }

  lemma RetryIsOver(w: World, t: Terms, sid: nat, why: Reason, now: int, ok1: bool, ok2: bool, link: LinkAnswer, rl: Ruling)
    requires sid < |w.sessions| && w.sessions[sid].attempt < 2 && rl.input.mode == Retry
    requires var s := w.sessions[sid]; var items := ItemList(StoredItems(s.lines)); var cost := Cost(w.catalog, items.xs);
             && (rl.decision.verdict == ALLOW <==> Orderable(w, t, s.agent, items, Some(sid), now) && Reviewed(w, t, Some(sid), cost))
             && (rl.decision.verdict == ALLOW ==> rl.decision.total == cost)
    ensures var (w', reply) := RetryWith(w, sid, why, ok1, ok2, link, rl);
            reply == Shown(sid) && Over(w, w', t, sid, why, now, ok1, ok2, link)
  {
    RetryReplies(w, sid, why, ok1, ok2, link, rl);
    if rl.decision.verdict != ALLOW {
      RetryDeniedForm(w, sid, why, ok1, ok2, link, rl);
    } else if link.LinkRefused? {
      RetryRefusedForm(w, sid, why, ok1, ok2, link, rl);
    } else {
      RetryMadeForm(w, sid, why, ok1, ok2, link, rl);
    }
  }

  // ---- the call ----------------------------------------------------------------------------------

  /** An answered poll of a pending session: a new captured payment settles it, otherwise a new failure, a dead link or a
      passed expiry ends the attempt, and otherwise only what is new is put on file. */
  lemma PollOutcome(w: World, t: Terms, sid: nat, now: int, status: LinkStatus, orderId: Option<string>, attempts: Attempts,
                    c: Option<nat>, ok1: bool, ok2: bool, link: LinkAnswer)
    requires sid < |w.sessions| && w.sessions[sid].status == Pending && OnTerms(w, t)
    requires FirstNewCapture(w.payments, sid, attempts, c)
    ensures var (w', reply) := Reconcile(w, sid, now, Polled(status, orderId, attempts), ok1, ok2, link);
            var noted := Noted(w, sid, now, orderId, attempts); var why := WhyOver(w, sid, attempts, status, now);
            && reply == Shown(sid)
            && if c.Some? then Paid(noted, w', sid, attempts[c.value], now)
               else if why.Some? then Over(noted, w', t, sid, why.value, now, ok1, ok2, link)
               else w' == noted
  {
    var noted, listed := Noted(w, sid, now, orderId, attempts), Unseen(w.payments, sid, attempts);
    NotedIs(w, sid, now, orderId, attempts);
    UnseenAreNew(w.payments, sid, attempts);
    CaptureAmongNew(w.payments, sid, attempts, c);
    OverMeans(w, sid, attempts, status, now);
    var why := WhyOver(w, sid, attempts, status, now);
    assert Reconcile(w, sid, now, Polled(status, orderId, attempts), ok1, ok2, link)
        == Settle(noted, sid, w.sessions[sid], listed, status, now, ok1, ok2, link);
    if c.Some? {
      FinishedIsPaid(noted, sid, attempts[c.value], now);
    } else if why.Some? {
      OverOutcome(noted, t, sid, why.value, now, ok1, ok2, link);
    }
  }

  /** A poll that fails changes no table; neither does any poll of a session that is not pending. */
  lemma NoPollOutcome(w: World, sid: nat, now: int, poll: PollAnswer, ok1: bool, ok2: bool, link: LinkAnswer)
    requires sid < |w.sessions| && w.sessions[sid].status == Pending ==> poll.PollRefused?
    ensures Reconcile(w, sid, now, poll, ok1, ok2, link) ==
              if sid >= |w.sessions| then (w, Nothing)
              else if w.sessions[sid].status != Pending then (w, Shown(sid))
              else (w.(trail := w.trail + Stamped(sid, [ProviderError(PollOp)])), Shown(sid))
  {
    LogIs(w, sid, ProviderError(PollOp));
  }

  /** The session is canceled and holds nothing, or has a new link and one attempt less to go. */
  predicate Ended(w: World, w': World, sid: nat, link: LinkAnswer)
    requires sid < |w.sessions|
  {
    && sid < |w'.sessions|
    && var s, s' := w.sessions[sid], w'.sessions[sid];
       || (s'.status == Canceled
           && forall i | 0 <= i < |w'.reservations| && w'.reservations[i].session == sid :: w'.reservations[i].state != Reserved)
       || (s.attempt < 2 && s'.status == Pending && s'.attempt == s.attempt + 1 && w'.reservations == w.reservations
           && link.LinkMade? && s'.linkId == Some(link.linkId) && s'.linkExpireAt == Some(link.expireAt))
  }

  lemma GoneIsEnded(w: World, w': World, sid: nat, link: LinkAnswer)
    requires sid < |w.sessions| && Gone(w, w', sid)
    ensures Ended(w, w', sid, link)
  {
  }

  lemma OverIsEnded(w: World, w': World, t: Terms, sid: nat, why: Reason, now: int, ok1: bool, ok2: bool, link: LinkAnswer)
    requires sid < |w.sessions| && w.sessions[sid].status == Pending && Over(w, w', t, sid, why, now, ok1, ok2, link)
    ensures Ended(w, w', sid, link)
  {
    if Gone(w, w', sid) {
      GoneIsEnded(w, w', sid, link);
    }
  }

  /** The attempt ends, at any clock, when the provider says that the link is dead or lists a new failure. */
  lemma DeadLinkEndsAttempt(w: World, t: Terms, sid: nat, now: int, status: LinkStatus, orderId: Option<string>,
                            attempts: Attempts, ok1: bool, ok2: bool, link: LinkAnswer)
    requires sid < |w.sessions| && w.sessions[sid].status == Pending && OnTerms(w, t)
    requires FirstNewCapture(w.payments, sid, attempts, None)
    requires status.LinkDead? || NewFailure(w.payments, sid, attempts)
    ensures Ended(w, Reconcile(w, sid, now, Polled(status, orderId, attempts), ok1, ok2, link).0, sid, link)
  {
    var noted := Noted(w, sid, now, orderId, attempts);
    var w' := Reconcile(w, sid, now, Polled(status, orderId, attempts), ok1, ok2, link).0;
    PollOutcome(w, t, sid, now, status, orderId, attempts, None, ok1, ok2, link);
    OverIsEnded(noted, w', t, sid, WhyOver(w, sid, attempts, status, now).value, now, ok1, ok2, link);
    EndedBefore(w, noted, w', sid, link);
  }

  lemma EndedBefore(w: World, noted: World, w': World, sid: nat, link: LinkAnswer)
    requires sid < |w.sessions| && sid < |noted.sessions| && Ended(noted, w', sid, link)
    requires noted.sessions[sid].attempt == w.sessions[sid].attempt && noted.reservations == w.reservations
    ensures Ended(w, w', sid, link)
  {
  }

  lemma {:induction false} NothingNew(ps: seq<Payment>, sid: nat, xs: seq<Attempt>)
    requires FirstNewCapture(ps, sid, xs, None) && !NewFailure(ps, sid, xs)
    ensures NewOnes(ps, sid, xs) == []
  {
    if xs != [] {
      var n := |xs| - 1;
      assert !New(ps, sid, xs[n]);
      assert forall i | 0 <= i < n :: xs[..n][i] == xs[i];
      NothingNew(ps, sid, xs[..n]);
    }
  }

  lemma NothingNoted(w: World, sid: nat, now: int, orderId: Option<string>, xs: seq<Attempt>)
    requires sid < |w.sessions| && NewOnes(w.payments, sid, xs) == []
    ensures Noted(w, sid, now, orderId, xs) == w.(sessions := w.sessions[sid := Identified(w.sessions[sid], orderId)])
  {
    assert Stamped(sid, []) == [];
  }

  /** While the link lives and nothing new is listed, a poll leaves everything alone but a missing order id. */
  lemma LiveLinkWaits(w: World, t: Terms, sid: nat, now: int, status: LinkStatus, orderId: Option<string>, attempts: Attempts,
                      ok1: bool, ok2: bool, link: LinkAnswer)
    requires sid < |w.sessions| && w.sessions[sid].status == Pending && OnTerms(w, t)
    requires FirstNewCapture(w.payments, sid, attempts, None) && !NewFailure(w.payments, sid, attempts) && !status.LinkDead?
    requires w.sessions[sid].linkExpireAt.Some? ==> now < w.sessions[sid].linkExpireAt.value
    ensures Reconcile(w, sid, now, Polled(status, orderId, attempts), ok1, ok2, link)
         == (w.(sessions := w.sessions[sid := Identified(w.sessions[sid], orderId)]), Shown(sid))
  {
    NothingNew(w.payments, sid, attempts);
    NothingNoted(w, sid, now, orderId, attempts);
    PollOutcome(w, t, sid, now, status, orderId, attempts, None, ok1, ok2, link);
  }
}
