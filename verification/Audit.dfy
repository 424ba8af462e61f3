/**
 * The trail read on its own. `ViewOf` folds the events of one session and judges them as it goes (`safe`);
 * `TrailSpent` and `TrailRefunded` fold all events for one mandate. `Facts` and `MandateFacts` put next to each
 * other what the tables hold and what the trail says, and the lemmas give the effect of every table write.
 */
module Audit {
  import opened Basics
  import opened Gate
  import opened Records
  import opened Books
  import opened Checkout

  // ---- one session, from its events --------------------------------------------------------------

  datatype Hold = Hold(mandate: nat, amount: int)

  datatype Reviewed = Reviewed(approved: bool, total: int)

  /** `allowed` is set while the latest authoritative or retry decision is an ALLOW that no link has used yet: to its
      total. */
  datatype View = View(
    status: Option<Status>, attempt: nat, link: Option<string>, hold: Option<Hold>,
    reserved: nat, committed: nat, released: nat, allowed: Option<int>, links: seq<int>,
    review: Option<Reviewed>, refunded: int, safe: bool)

  const BLANK: View := View(None, 0, None, None, 0, 0, 0, None, [], None, 0, true)

  /** An ALLOW above the threshold in force is backed by the latest review: an approval of exactly that total. */
  predicate ReviewBacked(v: View, d: Decision, input: GateInput) {
    (d.verdict == ALLOW && Threshold(input.policy).Some? && d.total > Threshold(input.policy).value)
    ==> v.review == Some(Reviewed(true, d.total))
  }

  /** A link is for the amount of an unused ALLOW that is the latest money decision, while money is held; the first link is
      for exactly the held amount; links are numbered 1, 2 and there is no third. */
  predicate LinkBacked(v: View, amount: int, attempt: nat) {
    && v.allowed == Some(amount) && v.hold.Some?
    && attempt == |v.links| + 1 && attempt <= MAX_ATTEMPTS
    && (attempt == 1 ==> amount == v.hold.value.amount)
  }

  function AfterDecision(v: View, mode: Mode, d: Decision, input: GateInput): View {
    var v1 := v.(safe := v.safe && ReviewBacked(v, d, input));
    match mode
    case Preview => v1.(status := Some(StatusFor(d)))
    case Authoritative =>
      if d.verdict == ALLOW then v1.(allowed := Some(d.total)) else v1.(allowed := None, status := Some(StatusFor(d)))
    case Retry => v1.(allowed := if d.verdict == ALLOW then Some(d.total) else None)
    case UnknownMode(_) => v1
  }

  function After(v: View, e: Event): View {
    match e
    case SessionCreated(_, _, _, status) => v.(status := Some(status))
    case SessionUpdated(_, _, status) => v.(status := Some(status))
    case GateDecision(mode, d, input) => AfterDecision(v, mode, d, input)
    case ReviewGiven(approved, total, _) =>
      v.(review := Some(Reviewed(approved, total)), status := if approved then v.status else Some(NotReady))
    case MandateReserved(m, a) =>
      v.(hold := Some(Hold(m, a)), reserved := v.reserved + 1, safe := v.safe && v.hold.None?)
    case MandateReleased(m, a, _) =>
      v.(hold := None, released := v.released + 1, safe := v.safe && v.hold == Some(Hold(m, a)))
    case MandateCommitted(m, a) =>
      v.(hold := None, committed := v.committed + 1, safe := v.safe && v.hold == Some(Hold(m, a)))
    case LinkCreated(linkId, amount, attempt, _) =>
      v.(status := Some(Pending), attempt := attempt, link := Some(linkId), links := v.links + [amount],
         allowed := None, safe := v.safe && LinkBacked(v, amount, attempt))
    case SessionCompleted(_, _) => v.(status := Some(Completed))
    case SessionCanceled(_) => v.(status := Some(Canceled))
    case RefundCreated(_, _, amount, _, _) =>
      v.(refunded := v.refunded + amount, safe := v.safe && v.status == Some(Completed))
    case _ => v
  }

  function ViewOf(t: Trail, sid: nat): View {
    if t == [] then BLANK
    else
      var v := ViewOf(t[..|t| - 1], sid);
      if t[|t| - 1].session == Some(sid) then After(v, t[|t| - 1].payload) else v
  }

  // ---- one mandate, from all events --------------------------------------------------------------

  function SpendEffect(e: Event, m: nat): int {
    match e
    case MandateReserved(mandate, amount) => if mandate == m then amount else 0
    case MandateReleased(mandate, amount, _) => if mandate == m then -amount else 0
    case _ => 0
  }

  function RefundEffect(e: Event, m: nat): int {
    match e
    case RefundCreated(_, _, amount, _, credited) => if credited == Some(m) then amount else 0
    case _ => 0
  }

  function TrailSpent(t: Trail, m: nat): int {
    if t == [] then 0 else TrailSpent(t[..|t| - 1], m) + SpendEffect(t[|t| - 1].payload, m)
  }

  function TrailRefunded(t: Trail, m: nat): int {
    if t == [] then 0 else TrailRefunded(t[..|t| - 1], m) + RefundEffect(t[|t| - 1].payload, m)
  }

  // ---- tables and trail side by side -------------------------------------------------------------

  datatype Facts = Facts(
    session: Option<Session>, view: View, open: Option<Reservation>, reserved: nat, committed: nat, released: nat,
    captured: Option<Payment>, review: Option<Review>, refunded: int, references: seq<string>)

  function FactsOf(w: World, sid: nat): Facts {
    Facts(if sid < |w.sessions| then Some(w.sessions[sid]) else None, ViewOf(w.trail, sid),
          OpenFor(w.reservations, sid), Count(w.reservations, sid, Reserved), Count(w.reservations, sid, Committed),
          Count(w.reservations, sid, Released), FirstCaptured(w.payments, sid), LatestReview(w.reviews, sid),
          RefundedOf(w.refunds, sid), References(w.refunds, sid))
  }

  datatype MandateFacts = MandateFacts(
    terms: Option<Mandate>, spent: int, spentOnDay: int, refunded: int, trailSpent: int, trailRefunded: int)

  function MandateFactsOf(w: World, m: nat, day: int): MandateFacts {
    MandateFacts(if m < |w.mandates| then Some(w.mandates[m]) else None,
                 Sum(Query(m, None, None), w.reservations), Sum(Query(m, Some(day), None), w.reservations),
                 RefundedTo(w.refunds, m), TrailSpent(w.trail, m), TrailRefunded(w.trail, m))
  }

  // ---- effects of the writes ---------------------------------------------------------------------

  lemma LogFacts(w: World, sid: nat, e: Event, s: nat)
    ensures FactsOf(Log(w, sid, e), s)
         == FactsOf(w, s).(view := if s == sid then After(FactsOf(w, s).view, e) else FactsOf(w, s).view)
  {
    var t := Log(w, sid, e).trail;
    assert t[..|t| - 1] == w.trail;
  }

  lemma LogMandate(w: World, sid: nat, e: Event, m: nat, day: int)
    ensures MandateFactsOf(Log(w, sid, e), m, day)
         == MandateFactsOf(w, m, day).(trailSpent := TrailSpent(w.trail, m) + SpendEffect(e, m),
                                       trailRefunded := TrailRefunded(w.trail, m) + RefundEffect(e, m))
  {
    var t := Log(w, sid, e).trail;
    assert t[..|t| - 1] == w.trail;
  }

  lemma LogEffect(w: World, sid: nat, e: Event, s: nat, m: nat, day: int)
    ensures FactsOf(Log(w, sid, e), s)
         == FactsOf(w, s).(view := if s == sid then After(FactsOf(w, s).view, e) else FactsOf(w, s).view)
    ensures MandateFactsOf(Log(w, sid, e), m, day)
         == MandateFactsOf(w, m, day).(trailSpent := TrailSpent(w.trail, m) + SpendEffect(e, m),
                                       trailRefunded := TrailRefunded(w.trail, m) + RefundEffect(e, m))
  {
    LogFacts(w, sid, e, s);
    LogMandate(w, sid, e, m, day);
  }

  /** Events that report something but move neither the session nor any money. */
  predicate Neutral(e: Event) {
    e.ProviderError? || e.LinkCancelled? || e.LinkCancelFailed? || e.PaymentFailed? || e.PaymentCaptured?
    || e.PaymentRetry? || e.PaymentAbandoned? || e.ReviewRequested? || e.RefundDecided?
  }

  lemma NeutralMovesNothing(e: Event, v: View, m: nat)
    requires Neutral(e)
    ensures After(v, e) == v && SpendEffect(e, m) == 0 && RefundEffect(e, m) == 0
  {
  }

  lemma LogNeutral(w: World, sid: nat, e: Event, s: nat, m: nat, day: int)
    requires Neutral(e)
    ensures FactsOf(Log(w, sid, e), s) == FactsOf(w, s)
    ensures MandateFactsOf(Log(w, sid, e), m, day) == MandateFactsOf(w, m, day)
  {
    NeutralMovesNothing(e, FactsOf(w, s).view, m);
    LogFacts(w, sid, e, s);
    LogMandate(w, sid, e, m, day);
  }

  lemma SetEffect(w: World, sid: nat, session: Session, s: nat, m: nat, day: int)
    requires sid < |w.sessions|
    ensures FactsOf(SetSession(w, sid, session), s)
         == FactsOf(w, s).(session := if s == sid then Some(session) else FactsOf(w, s).session)
    ensures MandateFactsOf(SetSession(w, sid, session), m, day) == MandateFactsOf(w, m, day)
  {
  }

  lemma HoldEffect(w: World, r: Reservation, s: nat, m: nat, day: int)
    requires r.state == Reserved && OpenFor(w.reservations, r.session).None?
    ensures var w' := w.(reservations := w.reservations + [r]);
            && FactsOf(w', s) == FactsOf(w, s).(open := if s == r.session then Some(r) else FactsOf(w, s).open,
                                                reserved := FactsOf(w, s).reserved + (if s == r.session then 1 else 0))
            && MandateFactsOf(w', m, day)
               == MandateFactsOf(w, m, day).(spent := MandateFactsOf(w, m, day).spent + Weight(Query(m, None, None), r),
                                             spentOnDay := MandateFactsOf(w, m, day).spentOnDay + Weight(Query(m, Some(day), None), r))
  {
    SumAppend(Query(m, None, None), w.reservations, r);
    SumAppend(Query(m, Some(day), None), w.reservations, r);
    OpenAppend(w.reservations, r, s);
    CountAppend(w.reservations, r, s, Reserved);
    CountAppend(w.reservations, r, s, Committed);
    CountAppend(w.reservations, r, s, Released);
  }

  lemma MoveFacts(w: World, sid: nat, state: HoldState, s: nat)
    requires state != Reserved
    ensures var f := FactsOf(w, s);
            FactsOf(WithState(w, sid, state), s) ==
              if s != sid then f
              else f.(open := None, reserved := 0,
                      committed := f.committed + (if state == Committed then f.reserved else 0),
                      released := f.released + (if state == Released then f.reserved else 0))
  {
    var rs := w.reservations;
    TransitionOpen(rs, sid, state, s);
    TransitionCount(rs, sid, state, s, Reserved);
    TransitionCount(rs, sid, state, s, Committed);
    TransitionCount(rs, sid, state, s, Released);
  }

  lemma MovedSum(rs: seq<Reservation>, sid: nat, state: HoldState, r: Reservation, q: Query)
    requires state != Reserved && Count(rs, sid, Reserved) <= 1 && OpenFor(rs, sid) == Some(r)
    ensures Sum(q, Transition(rs, sid, state)) == Sum(q, rs) - (if state == Committed then 0 else Weight(q, r))
  {
    OpenIsCounted(rs, sid);
    TransitionSum(q, rs, sid, state);
  }

  lemma MoveMandateFacts(w: World, sid: nat, state: HoldState, r: Reservation, m: nat, day: int)
    requires state != Reserved && Count(w.reservations, sid, Reserved) <= 1 && OpenFor(w.reservations, sid) == Some(r)
    ensures var g := MandateFactsOf(w, m, day);
            MandateFactsOf(WithState(w, sid, state), m, day) ==
              if state == Committed then g
              else g.(spent := g.spent - Weight(Query(m, None, None), r),
                      spentOnDay := g.spentOnDay - Weight(Query(m, Some(day), None), r))
  {
    MovedSum(w.reservations, sid, state, r, Query(m, None, None));
    MovedSum(w.reservations, sid, state, r, Query(m, Some(day), None));
  }

  lemma PaymentEffect(w: World, p: Payment, s: nat, m: nat, day: int)
    ensures var w' := w.(payments := w.payments + [p]); var f := FactsOf(w, s);
            && FactsOf(w', s) == f.(captured := if f.captured.Some? then f.captured
                                                else if IsCapture(p, s) then Some(p) else None)
            && MandateFactsOf(w', m, day) == MandateFactsOf(w, m, day)
  {
    CapturedAppend(w.payments, p, s);
  }

  lemma ReviewEffect(w: World, r: Review, s: nat, m: nat, day: int)
    ensures var w' := w.(reviews := w.reviews + [r]);
            && FactsOf(w', s) == FactsOf(w, s).(review := if s == r.session then Some(r) else FactsOf(w, s).review)
            && MandateFactsOf(w', m, day) == MandateFactsOf(w, m, day)
  {
    ReviewAppend(w.reviews, r, s);
  }

  lemma RefundFacts(w: World, f: Refund, s: nat)
    ensures var w' := w.(refunds := w.refunds + [f]); var g := FactsOf(w, s);
            FactsOf(w', s) == (if s != f.session then g
                               else g.(refunded := g.refunded + f.amount, references := g.references + [f.reference]))
  {
    RefundAppend(w.refunds, f, s);
  }

  lemma RefundMandate(w: World, f: Refund, m: nat, day: int)
    ensures var w' := w.(refunds := w.refunds + [f]); var g := MandateFactsOf(w, m, day);
            MandateFactsOf(w', m, day) == g.(refunded := g.refunded + (if f.mandate == Some(m) then f.amount else 0))
  {
    CreditAppend(w.refunds, f, m);
  }

  lemma NewSessionEffect(w: World, session: Session, s: nat, m: nat, day: int)
    ensures var w' := w.(sessions := w.sessions + [session]);
            && FactsOf(w', s) == FactsOf(w, s).(session := if s == |w.sessions| then Some(session) else FactsOf(w, s).session)
            && MandateFactsOf(w', m, day) == MandateFactsOf(w, m, day)
  {
  }
}
