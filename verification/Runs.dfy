/** Runs: any sequence of calls by any agents and by the merchant, with any provider answers and clock readings. */
module Runs {
  import opened Basics
  import opened Policy
  import opened Gate
  import opened GateLaws
  import opened RefundGate
  import opened Records
  import opened Books
  import opened Checkout
  import opened Audit
  import opened Accounts
  import opened Evolution

  datatype Step =
    | CreateStep(agent: nat, items: Items, key: Option<string>, hash: string, now: int)
    | UpdateStep(agent: nat, sid: nat, items: Items, now: int)
    | ReviewStep(sid: nat, approved: bool, note: string, now: int)
    | CompleteStep(agent: nat, sid: nat, key: Option<string>, now: int, link: LinkAnswer)
    | ReconcileStep(sid: nat, now: int, poll: PollAnswer, cancel1: bool, cancel2: bool, link: LinkAnswer)
    | CancelStep(caller: Option<nat>, sid: nat, now: int, ok: bool, poll: PollAnswer)
    | RefundStep(sid: nat, amount: Amount, reason: Text, reference: Text, now: int, answer: RefundAnswer)
    | SetPolicyStep(doc: Doc)
    | PutProductStep(id: string, snap: Snap)
    | RegisterAgentStep
    | RevokeAgentStep(agent: nat)
    | IssueMandateStep(agent: nat, perTxn: int, daily: int, total: int, categories: seq<string>, startsAt: int, expiresAt: int, now: int)
    | RevokeMandateStep(mandate: nat)

  /** Calls of an agent reach the service only once the agent is known. */
  function Apply(w: World, step: Step): World {
    match step
    case CreateStep(agent, items, key, hash, now) =>
      if agent < |w.agents| then Create(w, agent, items, key, hash, now).0 else w
    case UpdateStep(agent, sid, items, now) => Update(w, agent, sid, items, now).0
    case ReviewStep(sid, approved, note, now) => ReviewSession(w, sid, approved, note, now).0
    case CompleteStep(agent, sid, key, now, link) => Complete(w, agent, sid, key, now, link).0
    case ReconcileStep(sid, now, poll, c1, c2, link) => Reconcile(w, sid, now, poll, c1, c2, link).0
    case CancelStep(caller, sid, now, ok, poll) => Cancel(w, caller, sid, now, ok, poll).0
    case RefundStep(sid, amount, reason, reference, now, answer) => RefundSession(w, sid, amount, reason, reference, now, answer).0
    case SetPolicyStep(doc) => if Validate(doc).Ok? then w.(policy := Validate(doc).value) else w
    case PutProductStep(id, snap) => if snap.price >= 0 then w.(catalog := w.catalog[id := snap]) else w
    case RegisterAgentStep => w.(agents := w.agents + [Active])
    case RevokeAgentStep(agent) => if agent < |w.agents| then w.(agents := w.agents[agent := Revoked]) else w
    case IssueMandateStep(agent, perTxn, daily, total, categories, startsAt, expiresAt, now) =>
      if agent < |w.agents| then
        w.(mandates := IssueMandate(w.mandates, agent, perTxn, daily, total, categories, startsAt, expiresAt, now))
      else w
    case RevokeMandateStep(m) =>
      if m < |w.mandates| then w.(mandates := w.mandates[m := w.mandates[m].(standing := Revoked)]) else w
  }

  function Run(w: World, steps: seq<Step>): World {
    if steps == [] then w else Apply(Run(w, steps[..|steps| - 1]), steps[|steps| - 1])
  }

  /** A fresh shop: a valid policy and nothing else. */
  predicate Initial(w: World) {
    && ValidPolicy(w.policy) && w.catalog == map[] && w.agents == [] && w.mandates == [] && w.sessions == []
    && w.reservations == [] && w.payments == [] && w.reviews == [] && w.refunds == [] && w.trail == []
  }

  /** The shop is in state `w`, serves the call, and is in state `w'`. */
  predicate Takes(w: World, step: Step, w': World) { w' == Apply(w, step) }

  /** A run: the states of the shop, from a fresh one on, each reached from the one before by one call. */
  ghost predicate IsRun(ws: seq<World>, steps: seq<Step>) {
    && |ws| == |steps| + 1 && Initial(ws[0])
    && forall i {:trigger steps[i]} | 0 <= i < |steps| :: Takes(ws[i], steps[i], ws[i + 1])
  }

  /** The states that `Run` goes through. */
  function Trace(w: World, steps: seq<Step>): (ws: seq<World>)
    ensures |ws| == |steps| + 1 && ws[|steps|] == Run(w, steps)
  {
    if steps == [] then [w] else Trace(w, steps[..|steps| - 1]) + [Run(w, steps)]
  }

  lemma TraceFront(w: World, steps: seq<Step>, i: nat)
    requires i < |steps|
    ensures Trace(w, steps)[i] == Trace(w, steps[..|steps| - 1])[i]
  {
  }

  /** State i of the trace is the state after i steps. */
  lemma {:induction false} TraceAt(w: World, steps: seq<Step>, i: nat)
    requires i <= |steps|
    ensures Trace(w, steps)[i] == Run(w, steps[..i])
  {
    if i == |steps| {
      assert steps[..i] == steps;
    } else {
      var n := |steps| - 1;
      assert steps[..n][..i] == steps[..i];
      TraceAt(w, steps[..n], i);
      TraceFront(w, steps, i);
    }
  }

  lemma RunTakes(w: World, steps: seq<Step>)
    requires steps != []
    ensures Takes(Run(w, steps[..|steps| - 1]), steps[|steps| - 1], Run(w, steps))
  {
  }

  lemma TraceTakes(w: World, steps: seq<Step>, i: nat)
    requires i < |steps|
    ensures Takes(Trace(w, steps)[i], steps[i], Trace(w, steps)[i + 1])
  {
    TraceAt(w, steps, i);
    TraceAt(w, steps, i + 1);
    assert steps[..i + 1][..i] == steps[..i];
    RunTakes(w, steps[..i + 1]);
  }

  lemma TraceIsRun(w: World, steps: seq<Step>)
    requires Initial(w)
    ensures IsRun(Trace(w, steps), steps) && Trace(w, steps)[0] == w
  {
    TraceAt(w, steps, 0);
    forall i | 0 <= i < |steps| ensures Takes(Trace(w, steps)[i], steps[i], Trace(w, steps)[i + 1]) {
      TraceTakes(w, steps, i);
    }
  }

  // ---- the invariant -----------------------------------------------------------------------------

  /** A refund credits the session's mandate; this is the mandate that paid unless that one has been replaced. */
  predicate CreditsPayer(w: World, r: Reservation)
    requires r.session < |w.sessions|
  {
    var credited := w.sessions[r.session].mandate;
    credited.Some? && credited.value < |w.mandates|
    && (credited.value == r.mandate || w.mandates[credited.value].standing == Revoked)
  }

  predicate HoldLinked(w: World, r: Reservation) {
    && r.session < |w.sessions| && r.mandate < |w.mandates|
    && 0 <= r.amount <= w.mandates[r.mandate].perTxnCap
    && r.amount <= w.mandates[r.mandate].totalCap
    && w.mandates[r.mandate].agent == w.sessions[r.session].agent
    && (Live(r) ==> CreditsPayer(w, r))
  }

  predicate HoldsLinked(w: World) { forall i | 0 <= i < |w.reservations| :: HoldLinked(w, w.reservations[i]) }

  predicate Linked(w: World, s: Session) {
    && s.agent < |w.agents|
    && (s.mandate.Some? ==> s.mandate.value < |w.mandates| && w.mandates[s.mandate.value].agent == s.agent)
  }

  predicate AllLinked(w: World) { forall i | 0 <= i < |w.sessions| :: Linked(w, w.sessions[i]) }

  predicate OneActive(ms: seq<Mandate>) {
    forall i, j | 0 <= i < j < |ms| && ms[i].agent == ms[j].agent :: ms[i].standing == Revoked || ms[j].standing == Revoked
  }

  /** At most one session per agent and non-empty idempotency key. */
  predicate KeysUnique(sessions: seq<Session>) {
    forall i, j | 0 <= i < j < |sessions| && Given(sessions[i].idemKey) && sessions[i].agent == sessions[j].agent ::
      sessions[i].idemKey != sessions[j].idemKey
  }

  ghost predicate AllFacts(w: World) { forall s: nat :: FactsOk(FactsOf(w, s)) }

  ghost predicate AllMandates(w: World) { forall m: nat, day: int :: MandateOk(MandateFactsOf(w, m, day)) }

  predicate AllFaithful(t: Trail) { forall i | 0 <= i < |t| :: Faithful(t[i].payload) }

  predicate Merchandise(w: World) { PricesNonNegative(w.catalog) && ValidPolicy(w.policy) }

  ghost predicate Inv(w: World) {
    && AllFacts(w) && AllMandates(w) && HoldsLinked(w) && AllLinked(w) && OneActive(w.mandates) && KeysUnique(w.sessions)
    && AllFaithful(w.trail) && Merchandise(w)
  }

  lemma InitialInv(w: World)
    requires Initial(w)
    ensures Inv(w)
  {
    forall s: nat ensures FactsOk(FactsOf(w, s)) {
      assert FactsOf(w, s) == Facts(None, BLANK, None, 0, 0, 0, None, None, 0, []);
    }
  }

  // ---- what calls leave alone --------------------------------------------------------------------

  predicate SameMerchant(w: World, w': World) {
    w'.catalog == w.catalog && w'.policy == w.policy && w'.agents == w.agents && w'.mandates == w.mandates
  }

  /** No new session, no new reservation, no session credited to another mandate. */
  predicate Local(w: World, w': World) {
    && SameMerchant(w, w') && |w'.reservations| == |w.reservations| && |w'.sessions| == |w.sessions|
    && forall i | 0 <= i < |w.sessions| :: w'.sessions[i].mandate == w.sessions[i].mandate
  }

  lemma LocalTransitive(a: World, b: World, c: World)
    requires Local(a, b) && Local(b, c)
    ensures Local(a, c)
  {
  }

  lemma AbandonLocal(w: World, sid: nat, reason: Reason, ok: bool)
    requires sid < |w.sessions|
    ensures Local(w, Abandon(w, sid, reason, ok).0)
  {
    var w1 := CancelQuietly(w, sid, ok);
    assert Local(w, w1);
    assert Local(w1, ReleaseIfOpen(w1, sid, reason));
    LocalTransitive(w, w1, ReleaseIfOpen(w1, sid, reason));
    LocalTransitive(w, ReleaseIfOpen(w1, sid, reason), Abandon(w, sid, reason, ok).0);
  }

  lemma FinishPaidLocal(w: World, sid: nat, a: Attempt, attemptNo: nat, now: int)
    requires sid < |w.sessions|
    ensures Local(w, FinishPaid(w, sid, a, attemptNo, now).0)
  {
    var w1 := Log(w, sid, PaymentCaptured(a.paymentId, a.amount, attemptNo));
    assert Local(w, CommitIfOpen(w1, sid));
    LocalTransitive(w, CommitIfOpen(w1, sid), FinishPaid(w, sid, a, attemptNo, now).0);
  }

  lemma RetryLocal(w: World, sid: nat, reason: Reason, ok1: bool, ok2: bool, link: LinkAnswer, rl: Ruling)
    requires sid < |w.sessions|
    ensures Local(w, RetryWith(w, sid, reason, ok1, ok2, link, rl).0)
  {
    var done := RetryWith(w, sid, reason, ok1, ok2, link, rl).0;
    var w1 := LogDecision(w, sid, rl);
    assert Local(w, w1);
    if rl.decision.verdict != ALLOW {
      AbandonLocal(w1, sid, RetryDenied(rl.decision.rule), ok1);
      LocalTransitive(w, w1, done);
    } else {
      var w2 := CancelQuietly(w1, sid, ok1);
      assert Local(w, w2);
      if link.LinkRefused? {
        var w3 := Log(w2, sid, ProviderError(CreateLinkOp));
        assert Local(w, w3);
        AbandonLocal(w3, sid, ProviderFailed, ok2);
        LocalTransitive(w, w3, done);
      } else {
        assert Local(w2, done);
        LocalTransitive(w, w2, done);
      }
    }
  }

  lemma ReconcileLocal(w: World, sid: nat, now: int, poll: PollAnswer, ok1: bool, ok2: bool, link: LinkAnswer)
    ensures Local(w, Reconcile(w, sid, now, poll, ok1, ok2, link).0)
  {
    if sid < |w.sessions| && w.sessions[sid].status == Pending && poll.Polled? {
      var row := w.sessions[sid];
      var unseen := Unseen(w.payments, sid, poll.attempts);
      var w2 := RecordAll(WithOrder(w, sid, poll.orderId), sid, unseen, row.attempt, now);
      assert Local(w, w2);
      var done := Reconcile(w, sid, now, poll, ok1, ok2, link).0;
      var over := AttemptOver(row, unseen, poll.linkStatus, now);
      if FirstCapture(unseen).Some? {
        FinishPaidLocal(w2, sid, FirstCapture(unseen).value, row.attempt, now);
        LocalTransitive(w, w2, done);
      } else if over.Some? {
        AfterFailedLocal(w2, sid, over.value, now, ok1, ok2, link);
        LocalTransitive(w, w2, done);
      }
    }
  }

  lemma AfterFailedLocal(w: World, sid: nat, reason: Reason, now: int, ok1: bool, ok2: bool, link: LinkAnswer)
    requires sid < |w.sessions|
    ensures Local(w, AfterFailedAttempt(w, sid, reason, now, ok1, ok2, link).0)
  {
    var row := w.sessions[sid];
    AbandonLocal(w, sid, reason, ok1);
    RetryLocal(w, sid, reason, ok1, ok2, link,
               Judge(w, row.agent, ItemList(StoredItems(row.lines)), Some(Pending), Retry, Some(sid), true, now));
  }

  lemma CancelingLocal(w: World, sid: nat, reason: Reason)
    requires sid < |w.sessions|
    ensures Local(w, Canceling(w, sid, reason).0)
  {
    assert Local(w, ReleaseIfOpen(w, sid, reason));
    LocalTransitive(w, ReleaseIfOpen(w, sid, reason), Canceling(w, sid, reason).0);
  }

  lemma LateCaptureLocal(w: World, sid: nat, now: int, poll: PollAnswer)
    requires sid < |w.sessions| && w.sessions[sid].linkId.Some?
    ensures Local(w, LateCapture(w, sid, now, poll).0)
  {
    var row := w.sessions[sid];
    var w1 := if poll.PollRefused? then Log(w, sid, ProviderError(PollOp)) else w;
    var captured := if poll.PollRefused? then None else FirstCapture(Unseen(w.payments, sid, poll.attempts));
    assert Local(w, w1);
    if captured.Some? {
      var w2 := RecordPayment(w1, sid, captured.value, row.attempt, now);
      assert Local(w, w2);
      FinishPaidLocal(w2, sid, captured.value, row.attempt, now);
      LocalTransitive(w, w2, LateCapture(w, sid, now, poll).0);
    }
  }

  lemma CancelLocal(w: World, sid: nat, reason: Reason, now: int, ok: bool, poll: PollAnswer)
    requires sid < |w.sessions|
    ensures Local(w, CancelSession(w, sid, reason, now, ok, poll).0)
  {
    var row := w.sessions[sid];
    if !Terminal(row.status) {
      if row.status == Pending && Given(row.linkId) {
        if ok {
          var w1 := Log(w, sid, LinkCancelled(row.linkId.value));
          assert Local(w, w1);
          CancelingLocal(w1, sid, reason);
          LocalTransitive(w, w1, Canceling(w1, sid, reason).0);
        } else {
          LateCaptureLocal(w, sid, now, poll);
        }
      } else {
        CancelingLocal(w, sid, reason);
      }
    }
  }

  lemma RefundLocal(w: World, sid: nat, ri: RefundInput, d: RefundDecision, answer: RefundAnswer)
    requires sid < |w.sessions|
    ensures Local(w, RefundWith(w, sid, ri, d, answer).0)
  {
  }

  lemma StartPaymentShape(w: World, sid: nat, key: Option<string>, total: int, link: LinkAnswer)
    requires sid < |w.sessions|
    ensures var w' := StartPayment(w, sid, key, total, link).0;
            Local(w, w') && forall i | 0 <= i < |w.reservations| :: w'.reservations[i] == w.reservations[i].(state := w'.reservations[i].state)
  {
  }

  lemma CompleteShape(w: World, sid: nat, key: Option<string>, now: int, link: LinkAnswer, rl: Ruling)
    requires sid < |w.sessions|
    ensures var w' := CompleteWith(w, sid, key, now, link, rl).0;
            && SameMerchant(w, w') && |w'.sessions| == |w.sessions|
            && (forall i | 0 <= i < |w.sessions| :: w'.sessions[i].mandate == w.sessions[i].mandate)
            && (|w'.reservations| == |w.reservations|
                || (rl.decision.verdict == ALLOW && rl.mandate.Some? && |w'.reservations| == |w.reservations| + 1
                    && var r := w'.reservations[|w.reservations|];
                       r == Reservation(sid, rl.mandate.value, rl.decision.total, r.state, now)))
  {
    var w1 := LogDecision(w, sid, rl);
    if rl.decision.verdict == ALLOW && rl.mandate.Some? {
      var held := Reserve(w1, sid, rl.mandate.value, rl.decision.total, now);
      if held.Some? {
        StartPaymentShape(Log(held.value, sid, MandateReserved(rl.mandate.value, rl.decision.total)), sid, key, rl.decision.total, link);
      }
    }
  }
}
