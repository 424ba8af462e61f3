/** Repeating a request, or being told the same thing twice by the provider. */
module Idempotence {
  import opened Basics
  import opened Gate
  import opened RefundGate
  import opened Records
  import opened Books
  import opened Checkout
  import opened Rulings
  import opened Evolution
  import opened Runs
  import opened Safety

  // ---- create ------------------------------------------------------------------------------------

  /** In every state of every run there is at most one session per agent and non-empty idempotency key. */
  lemma OneSessionPerKey(ws: seq<World>, steps: seq<Step>, k: nat)
    requires IsRun(ws, steps) && k < |ws|
    ensures KeysUnique(ws[k].sessions)
  {
    RunStateInv(ws, steps, k);
  }

  /** Repeating a create with the same key and body, however much later and whatever the cart, changes nothing
      and shows the session the first call made; a different body under the key is refused. */
  lemma CreateRepeats(ws: seq<World>, steps: seq<Step>, j: nat, k: nat, agent: nat, items: Items, key: Option<string>,
                      hash: string, now: int, items': Items, hash': string, now': int)
    requires IsRun(ws, steps) && j < k < |ws| && steps[j] == CreateStep(agent, items, key, hash, now)
    requires agent < |ws[j].agents| && Given(key) && Create(ws[j], agent, items, key, hash, now).1.Shown?
    ensures Create(ws[k], agent, items', key, hash', now')
         == (ws[k], if hash' == hash then Create(ws[j], agent, items, key, hash, now).1 else NotIdempotent)
  {
    assert Takes(ws[j], steps[j], ws[j + 1]);
    CreateTaken(ws[j], ws[j + 1], agent, items, key, hash, now);
    RunStateEvolves(ws, steps, j + 1, k);
    OneSessionPerKey(ws, steps, k);
    CreateAgain(ws[j + 1], ws[k], Create(ws[j], agent, items, key, hash, now).1.session, agent, items', key, hash, hash', now');
  }

  lemma CreateShown(w: World, agent: nat, items: Items, key: Option<string>, hash: string, now: int)
    requires Given(key) && Create(w, agent, items, key, hash, now).1.Shown?
    ensures var first := Create(w, agent, items, key, hash, now); var sid := first.1.session;
            && sid < |first.0.sessions| && first.0.sessions[sid].agent == agent
            && first.0.sessions[sid].idemKey == key && first.0.sessions[sid].bodyHash == hash
  {
    FindKeyExact(w.sessions, agent, key, 0);
  }

  lemma CreateTaken(w: World, w': World, agent: nat, items: Items, key: Option<string>, hash: string, now: int)
    requires Takes(w, CreateStep(agent, items, key, hash, now), w') && agent < |w.agents|
    requires Given(key) && Create(w, agent, items, key, hash, now).1.Shown?
    ensures var sid := Create(w, agent, items, key, hash, now).1.session;
            && sid < |w'.sessions| && w'.sessions[sid].agent == agent
            && w'.sessions[sid].idemKey == key && w'.sessions[sid].bodyHash == hash
  {
    CreateShown(w, agent, items, key, hash, now);
  }

  lemma CreateAgain(w: World, later: World, sid: nat, agent: nat, items: Items, key: Option<string>, hash: string, hash': string, now: int)
    requires Evolves(w, later) && KeysUnique(later.sessions) && Given(key) && sid < |w.sessions|
    requires w.sessions[sid].agent == agent && w.sessions[sid].idemKey == key && w.sessions[sid].bodyHash == hash
    ensures Create(later, agent, items, key, hash', now) == (later, if hash' == hash then Shown(sid) else NotIdempotent)
  {
    assert SessionEvolves(w.sessions[sid], later.sessions[sid]);
    FindKeyExact(later.sessions, agent, key, 0);
    KeyDetermines(later.sessions, sid, FindKey(later.sessions, agent, key, 0).value);
  }

  lemma KeyDetermines(sessions: seq<Session>, i: nat, j: nat)
    requires KeysUnique(sessions) && i < |sessions| && j < |sessions|
    requires Given(sessions[i].idemKey) && sessions[i].agent == sessions[j].agent && sessions[i].idemKey == sessions[j].idemKey
    ensures i == j
  {
  }

  // ---- complete ----------------------------------------------------------------------------------

  /** Repeating a complete that led to a payment link, with the same non-empty key, changes nothing ever after:
      no second link, no second hold, no event. */
  lemma CompleteRepeats(ws: seq<World>, steps: seq<Step>, j: nat, k: nat, agent: nat, sid: nat, key: Option<string>,
                        now: int, link: LinkAnswer, now': int, link': LinkAnswer)
    requires IsRun(ws, steps) && j < k < |ws| && steps[j] == CompleteStep(agent, sid, key, now, link)
    requires Given(key) && Complete(ws[j], agent, sid, key, now, link).1.Shown?
    ensures Complete(ws[k], agent, sid, key, now', link') == (ws[k], Shown(sid))
  {
    assert Takes(ws[j], steps[j], ws[j + 1]);
    CompleteShown(ws[j], agent, sid, key, now, link);
    RunStateEvolves(ws, steps, j + 1, k);
    assert SessionEvolves(ws[j + 1].sessions[sid], ws[k].sessions[sid]);
    CompleteAgain(ws[k], agent, sid, key, now', link');
  }

  lemma CompleteAgain(w: World, agent: nat, sid: nat, key: Option<string>, now: int, link: LinkAnswer)
    requires Owned(w, agent, sid) && Given(key) && w.sessions[sid].completeKey == key && !Editable(w.sessions[sid].status)
    ensures Complete(w, agent, sid, key, now, link) == (w, Shown(sid))
  {
  }

  lemma CompleteShown(w: World, agent: nat, sid: nat, key: Option<string>, now: int, link: LinkAnswer)
    requires Complete(w, agent, sid, key, now, link).1.Shown?
    ensures var w' := Complete(w, agent, sid, key, now, link).0;
            && Owned(w', agent, sid) && !Editable(w'.sessions[sid].status)
            && (Given(key) ==> w'.sessions[sid].completeKey == key)
  {
    if w.sessions[sid].status == Ready {
      var items := ItemList(StoredItems(w.sessions[sid].lines));
      var rl := Judge(w, agent, items, Some(Ready), Authoritative, Some(sid), false, now);
      CompleteIsRuled(w, agent, sid, key, now, link);
      ShownMeansLinked(w, sid, key, now, link, rl);
    }
  }

  lemma ShownMeansLinked(w: World, sid: nat, key: Option<string>, now: int, link: LinkAnswer, rl: Ruling)
    requires sid < |w.sessions| && CompleteWith(w, sid, key, now, link, rl).1.Shown?
    ensures link.LinkMade?
    ensures CompleteWith(w, sid, key, now, link, rl).0.sessions == w.sessions[sid := LinkedSession(w.sessions[sid], key, link)]
  {
  }

  // ---- payments ----------------------------------------------------------------------------------

  /** A payment id is on file at most once per session. */
  predicate PaymentsUnique(ps: seq<Payment>) {
    forall i, j | 0 <= i < j < |ps| && ps[i].session == ps[j].session :: ps[i].paymentId != ps[j].paymentId
  }

  lemma {:induction false} UnseenAreNew(ps: seq<Payment>, sid: nat, xs: seq<Attempt>)
    requires DistinctAttempts(xs)
    ensures DistinctAttempts(Unseen(ps, sid, xs))
    ensures forall i | 0 <= i < |Unseen(ps, sid, xs)| :: !Seen(ps, sid, Unseen(ps, sid, xs)[i].paymentId)
    ensures forall i | 0 <= i < |Unseen(ps, sid, xs)| :: Unseen(ps, sid, xs)[i] in xs
  {
    if xs != [] {
      var n := |xs| - 1;
      var front := Unseen(ps, sid, xs[..n]);
      UnseenAreNew(ps, sid, xs[..n]);
      assert xs == xs[..n] + [xs[n]];
      forall i | 0 <= i < |front| ensures front[i].paymentId != xs[n].paymentId && front[i] in xs {
        assert front[i] in xs[..n];
        var k :| 0 <= k < n && xs[k] == front[i];
      }
    }
  }

  lemma {:induction false} RecordAllPayments(w: World, sid: nat, xs: seq<Attempt>, attemptNo: nat, now: int)
    ensures |RecordAll(w, sid, xs, attemptNo, now).payments| == |w.payments| + |xs|
    ensures w.payments <= RecordAll(w, sid, xs, attemptNo, now).payments
    ensures forall i | 0 <= i < |xs| ::
              RecordAll(w, sid, xs, attemptNo, now).payments[|w.payments| + i]
              == Payment(sid, xs[i].paymentId, xs[i].status, xs[i].amount, attemptNo, now)
  {
    if xs != [] {
      RecordAllPayments(w, sid, xs[..|xs| - 1], attemptNo, now);
    }
  }

  lemma AddedStayUnique(ps: seq<Payment>, added: seq<Payment>, sid: nat, xs: seq<Attempt>)
    requires PaymentsUnique(ps) && DistinctAttempts(xs) && |added| == |xs|
    requires forall i | 0 <= i < |xs| :: !Seen(ps, sid, xs[i].paymentId)
    requires forall i | 0 <= i < |xs| :: added[i].session == sid && added[i].paymentId == xs[i].paymentId
    ensures PaymentsUnique(ps + added)
  {
    var more := ps + added;
    forall i, j | 0 <= i < j < |more| && more[i].session == more[j].session ensures more[i].paymentId != more[j].paymentId {
      if j >= |ps| && i < |ps| {
        assert !Seen(ps, sid, xs[j - |ps|].paymentId);
      }
    }
  }

  lemma RecordAllUnique(w: World, sid: nat, poll: PollAnswer, attemptNo: nat, now: int)
    requires PaymentsUnique(w.payments) && poll.Polled?
    ensures PaymentsUnique(RecordAll(w, sid, Unseen(w.payments, sid, poll.attempts), attemptNo, now).payments)
  {
    var xs := Unseen(w.payments, sid, poll.attempts);
    var more := RecordAll(w, sid, xs, attemptNo, now).payments;
    UnseenAreNew(w.payments, sid, poll.attempts);
    RecordAllPayments(w, sid, xs, attemptNo, now);
    var added := more[|w.payments|..];
    assert more == w.payments + added;
    forall i | 0 <= i < |xs| ensures added[i].session == sid && added[i].paymentId == xs[i].paymentId {
      var p := Payment(sid, xs[i].paymentId, xs[i].status, xs[i].amount, attemptNo, now);
      assert more[|w.payments| + i] == p;
      assert added[i] == p;
    }
    AddedStayUnique(w.payments, added, sid, xs);
  }

  lemma AbandonPayments(w: World, sid: nat, reason: Reason, ok: bool)
    requires sid < |w.sessions|
    ensures Abandon(w, sid, reason, ok).0.payments == w.payments
  {
  }

  lemma FinishPaidPayments(w: World, sid: nat, a: Attempt, attemptNo: nat, now: int)
    requires sid < |w.sessions|
    ensures FinishPaid(w, sid, a, attemptNo, now).0.payments == w.payments
  {
  }

  lemma RetryPayments(w: World, sid: nat, reason: Reason, ok1: bool, ok2: bool, link: LinkAnswer, rl: Ruling)
    requires sid < |w.sessions|
    ensures RetryWith(w, sid, reason, ok1, ok2, link, rl).0.payments == w.payments
  {
    var w1 := LogDecision(w, sid, rl);
    AbandonPayments(w1, sid, RetryDenied(rl.decision.rule), ok1);
    var w2 := Log(CancelQuietly(w1, sid, ok1), sid, ProviderError(CreateLinkOp));
    AbandonPayments(w2, sid, ProviderFailed, ok2);
  }

  lemma AfterFailedPayments(w: World, sid: nat, reason: Reason, now: int, ok1: bool, ok2: bool, link: LinkAnswer)
    requires sid < |w.sessions|
    ensures AfterFailedAttempt(w, sid, reason, now, ok1, ok2, link).0.payments == w.payments
  {
    var row := w.sessions[sid];
    AbandonPayments(w, sid, reason, ok1);
    RetryPayments(w, sid, reason, ok1, ok2, link,
                  Judge(w, row.agent, ItemList(StoredItems(row.lines)), Some(Pending), Retry, Some(sid), true, now));
  }

  lemma ReconcilePayments(w: World, sid: nat, now: int, poll: PollAnswer, ok1: bool, ok2: bool, link: LinkAnswer)
    requires PaymentsUnique(w.payments)
    ensures PaymentsUnique(Reconcile(w, sid, now, poll, ok1, ok2, link).0.payments)
  {
    if sid < |w.sessions| && w.sessions[sid].status == Pending && poll.Polled? {
      var row := w.sessions[sid];
      var xs := Unseen(w.payments, sid, poll.attempts);
      var w1 := WithOrder(w, sid, poll.orderId);
      var w2 := RecordAll(w1, sid, xs, row.attempt, now);
      RecordAllUnique(w1, sid, poll, row.attempt, now);
      var over := AttemptOver(row, xs, poll.linkStatus, now);
      if FirstCapture(xs).Some? {
        FinishPaidPayments(w2, sid, FirstCapture(xs).value, row.attempt, now);
      } else if over.Some? {
        AfterFailedPayments(w2, sid, over.value, now, ok1, ok2, link);
      }
    }
  }

  lemma LateCapturePayments(w: World, sid: nat, now: int, poll: PollAnswer)
    requires PaymentsUnique(w.payments) && sid < |w.sessions| && w.sessions[sid].linkId.Some?
    ensures PaymentsUnique(LateCapture(w, sid, now, poll).0.payments)
  {
    if poll.Polled? {
      var xs := Unseen(w.payments, sid, poll.attempts);
      UnseenAreNew(w.payments, sid, poll.attempts);
      var captured := FirstCapture(xs);
      if captured.Some? {
        FirstCaptureListed(xs);
        var a := captured.value;
        var w1 := RecordPayment(w, sid, a, w.sessions[sid].attempt, now);
        AddedStayUnique(w.payments, [Payment(sid, a.paymentId, a.status, a.amount, w.sessions[sid].attempt, now)], sid, [a]);
        FinishPaidPayments(w1, sid, a, w.sessions[sid].attempt, now);
      }
    }
  }

  lemma {:induction false} FirstCaptureListed(xs: seq<Attempt>)
    ensures FirstCapture(xs).Some? ==> FirstCapture(xs).value in xs && FirstCapture(xs).value.status == CapturedPay
  {
    if xs != [] {
      FirstCaptureListed(xs[..|xs| - 1]);
    }
  }

  lemma CancelPayments(w: World, sid: nat, reason: Reason, now: int, ok: bool, poll: PollAnswer)
    requires PaymentsUnique(w.payments) && sid < |w.sessions|
    ensures PaymentsUnique(CancelSession(w, sid, reason, now, ok, poll).0.payments)
  {
    var s := w.sessions[sid];
    if s.status == Pending && Given(s.linkId) && !ok {
      LateCapturePayments(w, sid, now, poll);
    } else {
      assert CancelSession(w, sid, reason, now, ok, poll).0.payments == w.payments;
    }
  }

  lemma CreatePayments(w: World, agent: nat, items: Items, key: Option<string>, hash: string, now: int)
    ensures Create(w, agent, items, key, hash, now).0.payments == w.payments
  {
  }

  lemma UpdatePayments(w: World, agent: nat, sid: nat, items: Items, now: int)
    ensures Update(w, agent, sid, items, now).0.payments == w.payments
  {
  }

  lemma ReviewPayments(w: World, sid: nat, approved: bool, note: string, now: int)
    ensures ReviewSession(w, sid, approved, note, now).0.payments == w.payments
  {
  }

  lemma CompleteWithPayments(w: World, sid: nat, key: Option<string>, now: int, link: LinkAnswer, rl: Ruling)
    requires sid < |w.sessions|
    ensures CompleteWith(w, sid, key, now, link, rl).0.payments == w.payments
  {
  }

  lemma CompletePayments(w: World, agent: nat, sid: nat, key: Option<string>, now: int, link: LinkAnswer)
    ensures Complete(w, agent, sid, key, now, link).0.payments == w.payments
  {
    if Owned(w, agent, sid) {
      CompleteWithPayments(w, sid, key, now, link,
        Judge(w, agent, ItemList(StoredItems(w.sessions[sid].lines)), Some(Ready), Authoritative, Some(sid), false, now));
    }
  }

  lemma RefundPayments(w: World, sid: nat, amount: Amount, reason: Text, reference: Text, now: int, answer: RefundAnswer)
    ensures RefundSession(w, sid, amount, reason, reference, now, answer).0.payments == w.payments
  {
  }

  /** Only reconcile and cancel file payments. */
  lemma OtherStepsPayments(w: World, step: Step)
    requires !step.ReconcileStep? && !step.CancelStep?
    ensures Apply(w, step).payments == w.payments
  {
    match step
    case CreateStep(agent, items, key, hash, now) => CreatePayments(w, agent, items, key, hash, now);
    case UpdateStep(agent, sid, items, now) => UpdatePayments(w, agent, sid, items, now);
    case ReviewStep(sid, approved, note, now) => ReviewPayments(w, sid, approved, note, now);
    case CompleteStep(agent, sid, key, now, link) => CompletePayments(w, agent, sid, key, now, link);
    case RefundStep(sid, amount, reason, reference, now, answer) => RefundPayments(w, sid, amount, reason, reference, now, answer);
    case _ =>
  }

  /** In every state of every run a payment id is on file at most once per session. */
  lemma {:induction false} PaymentsRecordedOnce(ws: seq<World>, steps: seq<Step>, k: nat)
    requires IsRun(ws, steps) && k < |ws|
    ensures PaymentsUnique(ws[k].payments)
  {
    if k > 0 {
      PaymentsRecordedOnce(ws, steps, k - 1);
      assert Takes(ws[k - 1], steps[k - 1], ws[k]);
      StepPayments(ws[k - 1], steps[k - 1]);
    }
  }

  lemma StepPayments(w: World, step: Step)
    requires PaymentsUnique(w.payments)
    ensures PaymentsUnique(Apply(w, step).payments)
  {
    if step.ReconcileStep? {
      ReconcilePayments(w, step.sid, step.now, step.poll, step.cancel1, step.cancel2, step.link);
    } else if step.CancelStep? {
      if step.sid < |w.sessions| {
        CancelPayments(w, step.sid, if step.caller.Some? then AgentCancelled else MerchantCancelled, step.now, step.ok, step.poll);
      }
    } else {
      OtherStepsPayments(w, step);
    }
  }

  lemma {:induction false} AllSeenMeansNone(ps: seq<Payment>, sid: nat, xs: seq<Attempt>)
    requires forall i | 0 <= i < |xs| :: Seen(ps, sid, xs[i].paymentId)
    ensures Unseen(ps, sid, xs) == []
  {
    if xs != [] {
      AllSeenMeansNone(ps, sid, xs[..|xs| - 1]);
    }
  }

  /** A poll that only lists payments already on file, of a live link before its expiry, changes nothing (at most
      it fills in the order id): an old failure never uses up the second attempt. */
  lemma RelistedPaymentsChangeNothing(w: World, sid: nat, now: int, poll: PollAnswer, ok1: bool, ok2: bool, link: LinkAnswer)
    requires sid < |w.sessions| && w.sessions[sid].status == Pending && poll.Polled? && !poll.linkStatus.LinkDead?
    requires forall i | 0 <= i < |poll.attempts| :: Seen(w.payments, sid, poll.attempts[i].paymentId)
    requires w.sessions[sid].linkExpireAt.Some? ==> now < w.sessions[sid].linkExpireAt.value
    ensures Reconcile(w, sid, now, poll, ok1, ok2, link) == (WithOrder(w, sid, poll.orderId), Shown(sid))
  {
    AllSeenMeansNone(w.payments, sid, poll.attempts);
  }
}
