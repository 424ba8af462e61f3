/** A pending payment does not stay pending: two polls past the expiry of the link in force settle it. */
module Resolution {
  import opened Basics
  import opened Gate
  import opened Records
  import opened Books
  import opened Checkout
  import opened Audit
  import opened Accounts
  import opened Evolution
  import opened Runs
  import opened Safety

  /** Attempts still open to the session: falls on every retry. */
  function Remaining(s: Session): int { MAX_ATTEMPTS + 1 - s.attempt }

  /** The link in force has reached its expiry. */
  predicate PastExpiry(s: Session, now: int) { s.linkExpireAt.Some? && now >= s.linkExpireAt.value }

  /** A poll that answers, at or after the expiry of the current link, settles the session or uses up an attempt. */
  lemma ExpiredPollMakesProgress(w: World, sid: nat, now: int, poll: PollAnswer, ok1: bool, ok2: bool, link: LinkAnswer)
    requires sid < |w.sessions| && w.sessions[sid].status == Pending
    requires poll.Polled? && PastExpiry(w.sessions[sid], now)
    ensures var w' := Reconcile(w, sid, now, poll, ok1, ok2, link).0;
            && sid < |w'.sessions|
            && (Terminal(w'.sessions[sid].status)
                || (w.sessions[sid].attempt < MAX_ATTEMPTS && w'.sessions[sid].status == Pending
                    && Remaining(w'.sessions[sid]) == Remaining(w.sessions[sid]) - 1
                    && link.LinkMade? && w'.sessions[sid].linkExpireAt == Some(link.expireAt)))
  {
    var row := w.sessions[sid];
    var xs := Unseen(w.payments, sid, poll.attempts);
    var w2 := RecordAll(WithOrder(w, sid, poll.orderId), sid, xs, row.attempt, now);
    if FirstCapture(xs).None? {
      var over := AttemptOver(row, xs, poll.linkStatus, now);
      assert over.Some?;
      AfterFailedProgress(w2, sid, over.value, now, ok1, ok2, link);
    }
  }

  lemma AbandonIsTerminal(w: World, sid: nat, reason: Reason, ok: bool)
    requires sid < |w.sessions|
    ensures var w' := Abandon(w, sid, reason, ok).0; sid < |w'.sessions| && w'.sessions[sid].status == Canceled
  {
  }

  lemma AfterFailedProgress(w: World, sid: nat, reason: Reason, now: int, ok1: bool, ok2: bool, link: LinkAnswer)
    requires sid < |w.sessions| && w.sessions[sid].status == Pending
    ensures var w' := AfterFailedAttempt(w, sid, reason, now, ok1, ok2, link).0;
            && sid < |w'.sessions|
            && (w'.sessions[sid].status == Canceled
                || (w.sessions[sid].attempt < MAX_ATTEMPTS && link.LinkMade?
                    && w'.sessions[sid] == RetriedSession(w.sessions[sid], link)))
  {
    var row := w.sessions[sid];
    AbandonIsTerminal(w, sid, reason, ok1);
    var rl := Judge(w, row.agent, ItemList(StoredItems(row.lines)), Some(Pending), Retry, Some(sid), true, now);
    RetryProgress(w, sid, reason, ok1, ok2, link, rl);
  }

  lemma RetryProgress(w: World, sid: nat, reason: Reason, ok1: bool, ok2: bool, link: LinkAnswer, rl: Ruling)
    requires sid < |w.sessions|
    ensures var w' := RetryWith(w, sid, reason, ok1, ok2, link, rl).0;
            && sid < |w'.sessions|
            && (w'.sessions[sid].status == Canceled
                || (link.LinkMade? && w'.sessions[sid] == RetriedSession(w.sessions[sid], link)))
  {
    var w1 := LogDecision(w, sid, rl);
    AbandonIsTerminal(w1, sid, RetryDenied(rl.decision.rule), ok1);
    AbandonIsTerminal(Log(CancelQuietly(w1, sid, ok1), sid, ProviderError(CreateLinkOp)), sid, ProviderFailed, ok2);
  }

  /** A reconcile of this session that is answered, at or after the expiry of the link then in force. */
  predicate ExpiredPoll(w: World, step: Step, sid: nat) {
    && step.ReconcileStep? && step.sid == sid && step.poll.Polled?
    && sid < |w.sessions| && PastExpiry(w.sessions[sid], step.now)
  }

  /** The payment of the session is over, one way or the other, and its hold is closed accordingly. */
  predicate Resolved(w: World, sid: nat) {
    && sid < |w.sessions| && Terminal(w.sessions[sid].status)
    && Count(w.reservations, sid, Reserved) == 0
    && Count(w.reservations, sid, Committed) == (if w.sessions[sid].status == Completed then 1 else 0)
  }

  lemma TerminalIsResolved(w: World, sid: nat)
    requires sid < |w.sessions| && Terminal(w.sessions[sid].status) && FactsOk(FactsOf(w, sid))
    ensures Resolved(w, sid)
  {
  }

  /** What one expired poll leaves: a resolved session, or one on its last attempt. */
  predicate LastAttempt(s: Session) { s.status == Pending && s.attempt >= MAX_ATTEMPTS }

  lemma FirstExpiredPoll(w: World, step: Step, sid: nat)
    requires ExpiredPoll(w, step, sid) && !Editable(w.sessions[sid].status) && FactsOk(FactsOf(w, sid))
    ensures var w' := Apply(w, step);
            sid < |w'.sessions| && (Terminal(w'.sessions[sid].status) || LastAttempt(w'.sessions[sid]))
  {
    if w.sessions[sid].status == Pending {
      AttemptStarted(FactsOf(w, sid));
      ExpiredPollMakesProgress(w, sid, step.now, step.poll, step.cancel1, step.cancel2, step.link);
    }
  }

  lemma AttemptStarted(f: Facts)
    requires FactsOk(f) && f.session.Some? && f.session.value.status == Pending
    ensures 1 <= f.session.value.attempt <= MAX_ATTEMPTS
  {
  }

  lemma SecondExpiredPoll(w: World, step: Step, sid: nat)
    requires ExpiredPoll(w, step, sid) && (Terminal(w.sessions[sid].status) || LastAttempt(w.sessions[sid]))
    ensures var w' := Apply(w, step); sid < |w'.sessions| && Terminal(w'.sessions[sid].status)
  {
    if w.sessions[sid].status == Pending {
      ExpiredPollMakesProgress(w, sid, step.now, step.poll, step.cancel1, step.cancel2, step.link);
    }
  }

  /** Any two reconciles of a session that has been pending, each answered and each at or after the expiry of the link
      then in force, with anything at all in between, leave it resolved, for good. */
  lemma TwoExpiredPollsResolve(ws: seq<World>, steps: seq<Step>, sid: nat, i: nat, j: nat, k: nat)
    requires IsRun(ws, steps) && i < j < k < |ws|
    requires ExpiredPoll(ws[i], steps[i], sid) && !Editable(ws[i].sessions[sid].status)
    requires ExpiredPoll(ws[j], steps[j], sid)
    ensures Resolved(ws[k], sid)
  {
    assert Takes(ws[i], steps[i], ws[i + 1]) && Takes(ws[j], steps[j], ws[j + 1]);
    RunFacts(ws, steps, i, sid);
    FirstExpiredPoll(ws[i], steps[i], sid);
    RunStateEvolves(ws, steps, i + 1, j);
    assert SessionEvolves(ws[i + 1].sessions[sid], ws[j].sessions[sid]);
    RunFacts(ws, steps, j, sid);
    StillLast(ws[i + 1].sessions[sid], ws[j].sessions[sid]);
    SecondExpiredPoll(ws[j], steps[j], sid);
    RunStateEvolves(ws, steps, j + 1, k);
    assert SessionEvolves(ws[j + 1].sessions[sid], ws[k].sessions[sid]);
    RunFacts(ws, steps, k, sid);
    TerminalIsResolved(ws[k], sid);
  }

  lemma StillLast(a: Session, b: Session)
    requires SessionEvolves(a, b) && (Terminal(a.status) || LastAttempt(a))
    ensures Terminal(b.status) || LastAttempt(b)
  {
  }
}
