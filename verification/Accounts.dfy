/**
 * The accounting invariant of one session and one mandate, kept by every call of the service. Each lemma takes
 * an arbitrary session `s` and mandate `m` on an arbitrary `day`, so it also says that calls leave the rest alone.
 */
module Accounts {
  import opened Basics
  import opened Policy
  import opened Gate
  import opened Records
  import opened Books
  import opened Checkout
  import opened Audit
  import opened Rulings

  // ---- the invariant -----------------------------------------------------------------------------

  /** Status and money: what is held, committed and captured for a session in each status. */
  predicate Coupled(s: Session, f: Facts) {
    match s.status
    case Pending =>
      f.reserved == 1 && f.committed == 0 && s.linkId.Some? && 1 <= s.attempt <= MAX_ATTEMPTS && f.captured.None?
    case Completed =>
      f.reserved == 0 && f.committed == 1 && s.linkId.Some? && 1 <= s.attempt <= MAX_ATTEMPTS && f.captured.Some?
    case Canceled =>
      f.reserved == 0 && f.committed == 0 && s.attempt <= MAX_ATTEMPTS && f.captured.None?
    case _ =>
      f.reserved == 0 && f.committed == 0 && s.linkId.None? && s.attempt == 0 && f.captured.None?
      && s.completeKey.None? && (s.status == Ready ==> s.mandate.Some?)
  }

  function HoldOf(open: Option<Reservation>): Option<Hold> {
    if open.Some? then Some(Hold(open.value.mandate, open.value.amount)) else None
  }

  function ReviewedOf(r: Option<Review>): Option<Reviewed> {
    if r.Some? then Some(Reviewed(r.value.approved, r.value.total)) else None
  }

  /** The trail alone rebuilds the session, its holds, its reviews and its refunds; and it is a safe trail. */
  predicate Rebuilt(s: Session, f: Facts) {
    && f.view.safe
    && f.view.status == Some(s.status) && f.view.attempt == s.attempt && f.view.link == s.linkId
    && |f.view.links| == s.attempt
    && f.view.hold == HoldOf(f.open) && (f.open.Some? <==> f.reserved > 0)
    && f.view.committed == f.committed && f.view.released == f.released
    && f.view.reserved == f.reserved + f.committed + f.released
    && f.view.review == ReviewedOf(f.review)
    && f.view.refunded == f.refunded
  }

  predicate Unique(xs: seq<string>) { forall i, j | 0 <= i < j < |xs| :: xs[i] != xs[j] }

  /** Refunds stay within the first captured payment and never repeat a reference. */
  predicate RefundsWithin(s: Session, f: Facts) {
    && Unique(f.references)
    && |f.references| <= f.refunded
    && (f.references == [] ==> f.refunded == 0)
    && (f.references != [] ==> s.status == Completed && f.captured.Some? && f.refunded <= f.captured.value.amount)
  }

  predicate FactsOk(f: Facts) {
    match f.session
    case None => f == Facts(None, BLANK, None, 0, 0, 0, None, None, 0, [])
    case Some(s) => Coupled(s, f) && Rebuilt(s, f) && RefundsWithin(s, f)
  }

  /** Caps of one mandate, overall and on one day, and agreement with the trail. */
  predicate MandateOk(g: MandateFacts) {
    && g.trailSpent == g.spent && g.trailRefunded == g.refunded && g.refunded >= 0
    && match g.terms
       case None => g.spent == 0 && g.spentOnDay == 0 && g.refunded == 0
       case Some(m) => g.spent - g.refunded <= m.totalCap && g.spentOnDay <= m.dailyCap
  }

  // ---- shared pieces -----------------------------------------------------------------------------

  lemma DecisionLogged(w: World, sid: nat, rl: Ruling, s: nat, m: nat, day: int)
    ensures var f := FactsOf(w, s);
            FactsOf(LogDecision(w, sid, rl), s)
            == f.(view := if s == sid then AfterDecision(f.view, rl.input.mode, rl.decision, rl.input) else f.view)
    ensures MandateFactsOf(LogDecision(w, sid, rl), m, day) == MandateFactsOf(w, m, day)
  {
    var e := GateDecision(rl.input.mode, rl.decision, Recorded(rl.input));
    DecisionView(FactsOf(w, s).view, rl);
    LogFacts(w, sid, e, s);
    LogMandate(w, sid, e, m, day);
  }

  /** Cutting the recorded catalog down does not matter to a reader of the trail. */
  lemma DecisionView(v: View, rl: Ruling)
    ensures After(v, GateDecision(rl.input.mode, rl.decision, Recorded(rl.input)))
         == AfterDecision(v, rl.input.mode, rl.decision, rl.input)
  {
  }

  lemma ReviewRequestLogged(w: World, sid: nat, d: Decision, s: nat, m: nat, day: int)
    ensures FactsOf(LogReviewRequest(w, sid, d), s) == FactsOf(w, s)
    ensures MandateFactsOf(LogReviewRequest(w, sid, d), m, day) == MandateFactsOf(w, m, day)
  {
    LogNeutral(w, sid, ReviewRequested(d.total, Get(w.policy.reviewAbove, JInt(0))), s, m, day);
  }

  /** A ruling that is bound by the reviews on file is backed in the view of a session that rebuilds. */
  predicate Backed(f: Facts, rl: Ruling) { ReviewBacked(f.view, rl.decision, rl.input) }

  lemma BoundIsBacked(w: World, sid: nat, rl: Ruling)
    requires FactsOk(FactsOf(w, sid)) && sid < |w.sessions| && ReviewBound(w, Some(sid), rl)
    ensures Backed(FactsOf(w, sid), rl)
  {
  }

  predicate BothOk(w: World, sid: nat, s: nat, m: nat, day: int) {
    FactsOk(FactsOf(w, sid)) && FactsOk(FactsOf(w, s)) && MandateOk(MandateFactsOf(w, m, day))
  }

  predicate OkFor(w: World, s: nat, m: nat, day: int) {
    FactsOk(FactsOf(w, s)) && MandateOk(MandateFactsOf(w, m, day))
  }

  // ---- create, update, review --------------------------------------------------------------------

  /** A session with a preview decision stored on it. */
  function PreviewedFacts(f: Facts, session: Session, rl: Ruling): Facts {
    f.(session := Some(session), view := AfterDecision(f.view, Preview, rl.decision, rl.input))
  }

  lemma CreatedFactsOk(f: Facts, agent: nat, items: Items, key: Option<string>, hash: string, rl: Ruling)
    requires f.session.None? && FactsOk(f) && (rl.decision.verdict == ALLOW ==> rl.mandate.Some?)
    requires ReviewBacked(f.view, rl.decision, rl.input)
    ensures var e: Event := SessionCreated(agent, items, rl.decision.total, StatusFor(rl.decision));
            FactsOk(PreviewedFacts(f.(view := After(f.view, e)), NewSession(agent, key, hash, rl), rl))
  {
  }

  lemma CreateKeeps(w: World, agent: nat, items: Items, key: Option<string>, hash: string, rl: Ruling, s: nat, m: nat, day: int)
    requires BothOk(w, |w.sessions|, s, m, day)
    requires rl.input.mode == Preview && ReviewBound(w, None, rl) && (rl.decision.verdict == ALLOW ==> rl.mandate.Some?)
    ensures OkFor(CreateWith(w, agent, items, key, hash, rl).0, s, m, day)
  {
    var sid := |w.sessions|;
    var session := NewSession(agent, key, hash, rl);
    var e := SessionCreated(agent, items, rl.decision.total, StatusFor(rl.decision));
    var w1 := w.(sessions := w.sessions + [session]);
    NewSessionEffect(w, session, s, m, day);
    LogFacts(w1, sid, e, s);
    LogMandate(w1, sid, e, m, day);
    PreviewRecorded(Log(w1, sid, e), sid, rl, s, m, day);
    if s == sid {
      CreatedFactsOk(FactsOf(w, sid), agent, items, key, hash, rl);
    }
  }

  function Previewed(row: Session, rl: Ruling): Session {
    row.(status := StatusFor(rl.decision), lines := rl.decision.lines, total := rl.decision.total, mandate := rl.mandate)
  }

  lemma PreviewedFactsOk(f: Facts, rl: Ruling)
    requires f.session.Some? && Editable(f.session.value.status) && FactsOk(f) && Backed(f, rl)
    requires rl.decision.verdict == ALLOW ==> rl.mandate.Some?
    ensures FactsOk(PreviewedFacts(f, Previewed(f.session.value, rl), rl))
  {
  }

  /** An announcement says what the decision after it says, too. */
  lemma AnnouncedView(v: View, items: Items, rl: Ruling)
    ensures AfterDecision(After(v, SessionUpdated(items, rl.decision.total, StatusFor(rl.decision))), Preview, rl.decision, rl.input)
         == AfterDecision(v, Preview, rl.decision, rl.input)
  {
  }

  lemma ReevaluateKeeps(w: World, sid: nat, items: Items, announce: bool, rl: Ruling, s: nat, m: nat, day: int)
    requires sid < |w.sessions| && Editable(w.sessions[sid].status)
    requires BothOk(w, sid, s, m, day)
    requires rl.input.mode == Preview && ReviewBound(w, Some(sid), rl) && (rl.decision.verdict == ALLOW ==> rl.mandate.Some?)
    ensures OkFor(Reevaluate(w, sid, items, announce, rl).0, s, m, day)
  {
    var session := Previewed(w.sessions[sid], rl);
    var w1 := SetSession(w, sid, session);
    SetEffect(w, sid, session, s, m, day);
    if announce {
      var e := SessionUpdated(items, rl.decision.total, StatusFor(rl.decision));
      LogFacts(w1, sid, e, s);
      LogMandate(w1, sid, e, m, day);
      AnnouncedView(FactsOf(w, s).view, items, rl);
      PreviewRecorded(Log(w1, sid, e), sid, rl, s, m, day);
    } else {
      PreviewRecorded(w1, sid, rl, s, m, day);
    }
    if s == sid {
      BoundIsBacked(w, sid, rl);
      PreviewedFactsOk(FactsOf(w, sid), rl);
    }
  }

  lemma PreviewRecorded(w: World, sid: nat, rl: Ruling, s: nat, m: nat, day: int)
    requires rl.input.mode == Preview
    ensures var w' := LogReviewRequest(LogDecision(w, sid, rl), sid, rl.decision); var f := FactsOf(w, s);
            && FactsOf(w', s) == (if s == sid then f.(view := AfterDecision(f.view, Preview, rl.decision, rl.input)) else f)
            && MandateFactsOf(w', m, day) == MandateFactsOf(w, m, day)
  {
    DecisionLogged(w, sid, rl, s, m, day);
    ReviewRequestLogged(LogDecision(w, sid, rl), sid, rl.decision, s, m, day);
  }

  /** A review alone: everything of the session stands except its latest review (and a decline's status). */
  lemma GiveReviewFacts(w: World, sid: nat, approved: bool, note: string, s: nat, m: nat, day: int)
    requires sid < |w.sessions|
    ensures var f := FactsOf(w, s); var r := Review(sid, w.sessions[sid].total, approved, note);
            FactsOf(GiveReview(w, sid, approved, note), s)
            == if s != sid then f
               else f.(review := Some(r), view := After(f.view, ReviewGiven(approved, r.total, note)))
    ensures MandateFactsOf(GiveReview(w, sid, approved, note), m, day) == MandateFactsOf(w, m, day)
  {
    var r := Review(sid, w.sessions[sid].total, approved, note);
    var w1 := w.(reviews := w.reviews + [r]);
    ReviewEffect(w, r, s, m, day);
    LogFacts(w1, sid, ReviewGiven(approved, r.total, note), s);
    LogMandate(w1, sid, ReviewGiven(approved, r.total, note), m, day);
  }

  lemma ReviewedFactsOk(f: Facts, r: Review)
    requires FactsOk(f) && f.session.Some? && (r.approved || f.session.value.status == RequiresReview)
    ensures var session := f.session.value;
            FactsOk(f.(review := Some(r), view := After(f.view, ReviewGiven(r.approved, r.total, r.note)),
                       session := Some(if r.approved then session else session.(status := NotReady))))
  {
  }

  lemma ApprovalKeeps(w: World, sid: nat, note: string, s: nat, m: nat, day: int)
    requires sid < |w.sessions| && BothOk(w, sid, s, m, day)
    ensures OkFor(GiveReview(w, sid, true, note), s, m, day)
  {
    GiveReviewFacts(w, sid, true, note, s, m, day);
    if s == sid {
      ReviewedFactsOk(FactsOf(w, sid), Review(sid, w.sessions[sid].total, true, note));
    }
  }

  lemma DeclineKeeps(w: World, sid: nat, note: string, s: nat, m: nat, day: int)
    requires sid < |w.sessions| && BothOk(w, sid, s, m, day) && w.sessions[sid].status == RequiresReview
    ensures var w1 := GiveReview(w, sid, false, note);
            OkFor(SetSession(w1, sid, w.sessions[sid].(status := NotReady)), s, m, day)
  {
    GiveReviewFacts(w, sid, false, note, s, m, day);
    SetEffect(GiveReview(w, sid, false, note), sid, w.sessions[sid].(status := NotReady), s, m, day);
    if s == sid {
      ReviewedFactsOk(FactsOf(w, sid), Review(sid, w.sessions[sid].total, false, note));
    }
  }

  // ---- complete ----------------------------------------------------------------------------------

  lemma RefusedCompleteKeeps(w: World, sid: nat, rl: Ruling, status: Status, s: nat, m: nat, day: int)
    requires sid < |w.sessions| && Editable(w.sessions[sid].status) && BothOk(w, sid, s, m, day)
    requires rl.input.mode == Authoritative && rl.decision.verdict != ALLOW && status == StatusFor(rl.decision)
    ensures var w2 := SetSession(LogDecision(w, sid, rl), sid, w.sessions[sid].(status := status));
            OkFor(w2, s, m, day) && OkFor(LogReviewRequest(w2, sid, rl.decision), s, m, day)
  {
    DecisionLogged(w, sid, rl, s, m, day);
    var w1 := LogDecision(w, sid, rl);
    var session := w.sessions[sid].(status := status);
    SetEffect(w1, sid, session, s, m, day);
    ReviewRequestLogged(SetSession(w1, sid, session), sid, rl.decision, s, m, day);
  }

  /** The state between the reservation and the provider's answer. */
  function Held(w: World, sid: nat, rl: Ruling, mandate: nat, now: int): World {
    var r := Reservation(sid, mandate, rl.decision.total, Reserved, now);
    var w1 := LogDecision(w, sid, rl);
    Log(w1.(reservations := w1.reservations + [r]), sid, MandateReserved(mandate, rl.decision.total))
  }

  lemma HeldFacts(w: World, sid: nat, rl: Ruling, mandate: nat, now: int, s: nat, m: nat, day: int)
    requires OpenFor(w.reservations, sid).None?
    ensures var f := FactsOf(w, s); var total := rl.decision.total; var r := Reservation(sid, mandate, total, Reserved, now);
            var v := AfterDecision(f.view, rl.input.mode, rl.decision, rl.input);
            FactsOf(Held(w, sid, rl, mandate, now), s)
            == if s != sid then f
               else f.(open := Some(r), reserved := f.reserved + 1, view := After(v, MandateReserved(mandate, total)))
    ensures var g := MandateFactsOf(w, m, day); var total := rl.decision.total;
            MandateFactsOf(Held(w, sid, rl, mandate, now), m, day)
            == if m != mandate then g
               else g.(spent := g.spent + total, trailSpent := g.trailSpent + total,
                       spentOnDay := g.spentOnDay + (if DayOf(now) == day then total else 0))
  {
    var r := Reservation(sid, mandate, rl.decision.total, Reserved, now);
    DecisionLogged(w, sid, rl, s, m, day);
    DecisionLogged(w, sid, rl, sid, m, day);
    var w1 := LogDecision(w, sid, rl);
    HoldEffect(w1, r, s, m, day);
    LogEffect(w1.(reservations := w1.reservations + [r]), sid, MandateReserved(mandate, rl.decision.total), s, m, day);
  }

  lemma HeldMandateOk(w: World, sid: nat, rl: Ruling, now: int, agent: nat, m: nat, day: int)
    requires OpenFor(w.reservations, sid).None? && MandateOk(MandateFactsOf(w, m, day))
    requires rl.decision.verdict == ALLOW && Spendable(w, agent, rl, None, now)
    ensures MandateOk(MandateFactsOf(Held(w, sid, rl, rl.mandate.value, now), m, day))
  {
    HeldFacts(w, sid, rl, rl.mandate.value, now, sid, m, day);
  }

  // The session's facts, step by step. -------------------------------------------------------------

  function HeldView(f: Facts, rl: Ruling, r: Reservation): View {
    After(AfterDecision(f.view, rl.input.mode, rl.decision, rl.input), MandateReserved(r.mandate, r.amount))
  }

  function HeldFactsOf(f: Facts, rl: Ruling, r: Reservation): Facts {
    f.(open := Some(r), reserved := f.reserved + 1, view := HeldView(f, rl, r))
  }

  function ReleasedFacts(f: Facts, reason: Reason): Facts
    requires f.open.Some?
  {
    f.(open := None, reserved := 0, released := f.released + f.reserved,
       view := After(f.view, MandateReleased(f.open.value.mandate, f.open.value.amount, reason)))
  }

  function CommittedFacts(f: Facts): Facts
    requires f.open.Some?
  {
    f.(open := None, reserved := 0, committed := f.committed + f.reserved,
       view := After(f.view, MandateCommitted(f.open.value.mandate, f.open.value.amount)))
  }

  lemma PendingFactsOk(f: Facts, rl: Ruling, r: Reservation, session: Session, linkId: string, expireAt: int)
    requires f.session.Some? && f.session.value.status == Ready && FactsOk(f) && Backed(f, rl)
    requires rl.decision.verdict == ALLOW && rl.input.mode == Authoritative && r.amount == rl.decision.total
    requires session == f.session.value.(status := Pending, attempt := 1, linkId := Some(linkId),
                                         linkExpireAt := session.linkExpireAt, orderId := session.orderId, completeKey := session.completeKey)
    ensures var g := HeldFactsOf(f, rl, r);
            FactsOk(g.(session := Some(session), view := After(g.view, LinkCreated(linkId, rl.decision.total, 1, expireAt))))
  {
  }

  lemma RefusedLinkFactsOk(f: Facts, rl: Ruling, r: Reservation, reason: Reason)
    requires f.session.Some? && f.session.value.status == Ready && FactsOk(f) && Backed(f, rl)
    requires rl.decision.verdict == ALLOW && rl.input.mode == Authoritative
    ensures FactsOk(ReleasedFacts(HeldFactsOf(f, rl, r), reason))
  {
  }

  // The same on worlds. ----------------------------------------------------------------------------

  lemma StartPaymentFacts(w: World, sid: nat, key: Option<string>, total: int, link: LinkAnswer, s: nat, m: nat, day: int)
    requires sid < |w.sessions| && link.LinkMade?
    ensures var w1 := StartPayment(w, sid, key, total, link).0; var f := FactsOf(w, s);
            && FactsOf(w1, s) == (if s != sid then f
                                  else f.(session := Some(LinkedSession(w.sessions[sid], key, link)),
                                          view := After(f.view, LinkCreated(link.linkId, total, 1, link.expireAt))))
            && MandateFactsOf(w1, m, day) == MandateFactsOf(w, m, day)
  {
    var session := LinkedSession(w.sessions[sid], key, link);
    SetEffect(w, sid, session, s, m, day);
    LogEffect(SetSession(w, sid, session), sid, LinkCreated(link.linkId, total, 1, link.expireAt), s, m, day);
  }

  lemma LinkMadeKeeps(w: World, sid: nat, rl: Ruling, now: int, key: Option<string>, link: LinkAnswer, agent: nat, s: nat, m: nat, day: int)
    requires sid < |w.sessions| && w.sessions[sid].status == Ready && BothOk(w, sid, s, m, day)
    requires rl.decision.verdict == ALLOW && rl.input.mode == Authoritative
    requires Spendable(w, agent, rl, None, now) && ReviewBound(w, Some(sid), rl)
    requires link.LinkMade?
    ensures OpenFor(w.reservations, sid).None?
    ensures OkFor(StartPayment(Held(w, sid, rl, rl.mandate.value, now), sid, key, rl.decision.total, link).0, s, m, day)
  {
    HeldMandateOk(w, sid, rl, now, agent, m, day);
    HeldFacts(w, sid, rl, rl.mandate.value, now, s, m, day);
    StartPaymentFacts(Held(w, sid, rl, rl.mandate.value, now), sid, key, rl.decision.total, link, s, m, day);
    if s == sid {
      BoundIsBacked(w, sid, rl);
      var r := Reservation(sid, rl.mandate.value, rl.decision.total, Reserved, now);
      PendingFactsOk(FactsOf(w, sid), rl, r, LinkedSession(w.sessions[sid], key, link), link.linkId, link.expireAt);
    }
  }

  lemma ReleaseFacts(w: World, sid: nat, reason: Reason, s: nat)
    requires FactsOf(w, sid).open.Some?
    ensures FactsOf(ReleaseIfOpen(w, sid, reason), s)
         == if s != sid then FactsOf(w, s) else ReleasedFacts(FactsOf(w, s), reason)
  {
    var r := OpenFor(w.reservations, sid).value;
    MoveFacts(w, sid, Released, s);
    LogFacts(WithState(w, sid, Released), sid, MandateReleased(r.mandate, r.amount, reason), s);
  }

  lemma CommitFacts(w: World, sid: nat, s: nat)
    requires FactsOf(w, sid).open.Some?
    ensures FactsOf(CommitIfOpen(w, sid), s) == if s != sid then FactsOf(w, s) else CommittedFacts(FactsOf(w, s))
  {
    var r := OpenFor(w.reservations, sid).value;
    MoveFacts(w, sid, Committed, s);
    LogFacts(WithState(w, sid, Committed), sid, MandateCommitted(r.mandate, r.amount), s);
  }

  lemma ReleaseMandate(w: World, sid: nat, reason: Reason, m: nat, day: int)
    requires Count(w.reservations, sid, Reserved) == 1 && OpenFor(w.reservations, sid).Some?
    ensures var g := MandateFactsOf(w, m, day); var r := OpenFor(w.reservations, sid).value;
            MandateFactsOf(ReleaseIfOpen(w, sid, reason), m, day)
            == g.(spent := g.spent - Weight(Query(m, None, None), r), spentOnDay := g.spentOnDay - Weight(Query(m, Some(day), None), r),
                  trailSpent := g.trailSpent - (if r.mandate == m then r.amount else 0))
  {
    var r := OpenFor(w.reservations, sid).value;
    MoveMandateFacts(w, sid, Released, r, m, day);
    var moved := WithState(w, sid, Released);
    assert ReleaseIfOpen(w, sid, reason) == Log(moved, sid, MandateReleased(r.mandate, r.amount, reason));
    assert moved.trail == w.trail;
    LogMandate(moved, sid, MandateReleased(r.mandate, r.amount, reason), m, day);
  }

  lemma CommitMandate(w: World, sid: nat, m: nat, day: int)
    requires FactsOf(w, sid).reserved == 1 && FactsOf(w, sid).open.Some?
    ensures MandateFactsOf(CommitIfOpen(w, sid), m, day) == MandateFactsOf(w, m, day)
  {
    var r := OpenFor(w.reservations, sid).value;
    MoveMandateFacts(w, sid, Committed, r, m, day);
    LogMandate(WithState(w, sid, Committed), sid, MandateCommitted(r.mandate, r.amount), m, day);
  }

  /** Releasing keeps the caps: only non-negative amounts are ever held. */
  lemma ReleaseMandateOk(w: World, sid: nat, reason: Reason, m: nat, day: int)
    requires FactsOf(w, sid).reserved == 1 && FactsOf(w, sid).open.Some?
    requires FactsOf(w, sid).open.value.amount >= 0 && MandateOk(MandateFactsOf(w, m, day))
    requires FactsOf(w, sid).open.value.mandate < |w.mandates|
    ensures MandateOk(MandateFactsOf(ReleaseIfOpen(w, sid, reason), m, day))
  {
    OpenIsCounted(w.reservations, sid);
    ReleaseMandate(w, sid, reason, m, day);
  }

  lemma LinkRefusedKeeps(w: World, sid: nat, rl: Ruling, now: int, key: Option<string>, agent: nat, s: nat, m: nat, day: int)
    requires sid < |w.sessions| && w.sessions[sid].status == Ready && BothOk(w, sid, s, m, day)
    requires rl.decision.verdict == ALLOW && rl.input.mode == Authoritative
    requires Spendable(w, agent, rl, None, now) && ReviewBound(w, Some(sid), rl)
    ensures OpenFor(w.reservations, sid).None?
    ensures OkFor(StartPayment(Held(w, sid, rl, rl.mandate.value, now), sid, key, rl.decision.total, LinkRefused).0, s, m, day)
  {
    HeldOpen(w, sid, rl, rl.mandate.value, now);
    HeldMandateOk(w, sid, rl, now, agent, m, day);
    var held := Held(w, sid, rl, rl.mandate.value, now);
    ProviderErrorThenRelease(held, sid, s, m, day);
    RefusedStart(held, sid, key, rl.decision.total);
    if s == sid {
      BoundIsBacked(w, sid, rl);
      RefusedLinkFactsOk(FactsOf(w, sid), rl, Reservation(sid, rl.mandate.value, rl.decision.total, Reserved, now), ProviderFailed);
    } else {
      HeldFacts(w, sid, rl, rl.mandate.value, now, s, m, day);
    }
  }

  lemma RefusedStart(w: World, sid: nat, key: Option<string>, total: int)
    requires sid < |w.sessions|
    ensures StartPayment(w, sid, key, total, LinkRefused).0
         == ReleaseIfOpen(Log(w, sid, ProviderError(CreateLinkOp)), sid, ProviderFailed)
  {
  }

  lemma HeldOpen(w: World, sid: nat, rl: Ruling, mandate: nat, now: int)
    requires sid < |w.sessions| && w.sessions[sid].status == Ready && FactsOk(FactsOf(w, sid))
    ensures OpenFor(w.reservations, sid).None?
    ensures FactsOf(Held(w, sid, rl, mandate, now), sid)
         == HeldFactsOf(FactsOf(w, sid), rl, Reservation(sid, mandate, rl.decision.total, Reserved, now))
    ensures FactsOf(w, sid).reserved == 0
  {
    HeldFacts(w, sid, rl, mandate, now, sid, 0, 0);
  }

  lemma ProviderErrorThenRelease(w: World, sid: nat, s: nat, m: nat, day: int)
    requires FactsOf(w, sid).reserved == 1 && FactsOf(w, sid).open.Some? && FactsOf(w, sid).open.value.amount >= 0
    requires FactsOf(w, sid).open.value.mandate < |w.mandates| && MandateOk(MandateFactsOf(w, m, day))
    ensures var w1 := ReleaseIfOpen(Log(w, sid, ProviderError(CreateLinkOp)), sid, ProviderFailed);
            && FactsOf(w1, s) == (if s != sid then FactsOf(w, s) else ReleasedFacts(FactsOf(w, s), ProviderFailed))
            && MandateOk(MandateFactsOf(w1, m, day))
  {
    LogNeutral(w, sid, ProviderError(CreateLinkOp), s, m, day);
    LogNeutral(w, sid, ProviderError(CreateLinkOp), sid, m, day);
    var w1 := Log(w, sid, ProviderError(CreateLinkOp));
    ReleaseFacts(w1, sid, ProviderFailed, s);
    ReleaseMandateOk(w1, sid, ProviderFailed, m, day);
  }

  lemma CompleteKeeps(w: World, sid: nat, key: Option<string>, now: int, link: LinkAnswer, rl: Ruling, agent: nat, s: nat, m: nat, day: int)
    requires sid < |w.sessions| && w.sessions[sid].status == Ready && BothOk(w, sid, s, m, day)
    requires rl.input.mode == Authoritative
    requires Spendable(w, agent, rl, None, now) && ReviewBound(w, Some(sid), rl)
    ensures OkFor(CompleteWith(w, sid, key, now, link, rl).0, s, m, day)
    ensures CompleteWith(w, sid, key, now, link, rl).1 != Crashed
  {
    if rl.decision.verdict != ALLOW {
      RefusedCompleteKeeps(w, sid, rl, StatusFor(rl.decision), s, m, day);
      RefusedComplete(w, sid, key, now, link, rl);
    } else {
      HeldOpen(w, sid, rl, rl.mandate.value, now);
      AllowedComplete(w, sid, key, now, link, rl);
      if link.LinkMade? {
        LinkMadeKeeps(w, sid, rl, now, key, link, agent, s, m, day);
      } else {
        LinkRefusedKeeps(w, sid, rl, now, key, agent, s, m, day);
      }
    }
  }

  lemma AllowedComplete(w: World, sid: nat, key: Option<string>, now: int, link: LinkAnswer, rl: Ruling)
    requires sid < |w.sessions| && OpenFor(w.reservations, sid).None?
    requires rl.decision.verdict == ALLOW && rl.mandate.Some? && rl.decision.total >= 0
    ensures CompleteWith(w, sid, key, now, link, rl) == StartPayment(Held(w, sid, rl, rl.mandate.value, now), sid, key, rl.decision.total, link)
    ensures CompleteWith(w, sid, key, now, link, rl).1 != Crashed
  {
  }

  lemma RefusedComplete(w: World, sid: nat, key: Option<string>, now: int, link: LinkAnswer, rl: Ruling)
    requires sid < |w.sessions| && rl.decision.verdict != ALLOW
    ensures CompleteWith(w, sid, key, now, link, rl).0
         == LogReviewRequest(SetSession(LogDecision(w, sid, rl), sid, w.sessions[sid].(status := StatusFor(rl.decision))), sid, rl.decision)
    ensures CompleteWith(w, sid, key, now, link, rl).1 != Crashed
  {
  }
}
