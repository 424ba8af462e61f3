/**
 * What every call of the checkout service does to the tables and the trail. Answers of the payments provider
 * are arguments: any value, or a failure. One call is one step with one reading of the clock.
 */
module Checkout {
  import opened Basics
  import opened Policy
  import opened Gate
  import opened RefundGate
  import opened Ledger
  import opened Records
  import opened Books

  const MAX_ATTEMPTS: nat := 2

  // ---- provider answers --------------------------------------------------------------------------

  datatype LinkAnswer = LinkMade(linkId: string, orderId: Option<string>, expireAt: int) | LinkRefused

  datatype LinkStatus = LinkOpen | LinkPaid | LinkDead(expired: bool)

  /** The adapter reports each payment id once. */
  predicate DistinctAttempts(xs: seq<Attempt>) {
    forall i, j | 0 <= i < j < |xs| :: xs[i].paymentId != xs[j].paymentId
  }

  type Attempts = xs: seq<Attempt> | DistinctAttempts(xs)

  datatype PollAnswer = Polled(linkStatus: LinkStatus, orderId: Option<string>, attempts: Attempts) | PollRefused

  datatype RefundAnswer = RefundMade(refundId: string) | RefundRefused

  datatype Reply =
    | Shown(session: nat) | Nothing | NotFound | WrongState | AwaitsReview | PolicyDenied(rule: Rule) | NotIdempotent
    | ProviderDown | CancelFailed | RefundDenied(refundRule: Option<nat>) | Crashed

  // ---- small steps -------------------------------------------------------------------------------

  function Log(w: World, sid: nat, e: Event): World { w.(trail := w.trail + [Entry(Some(sid), e)]) }

  function SetSession(w: World, sid: nat, s: Session): World
    requires sid < |w.sessions|
  {
    w.(sessions := w.sessions[sid := s])
  }

  predicate Given(s: Option<string>) { s.Some? && s.value != "" }

  predicate Owned(w: World, agent: nat, sid: nat) { sid < |w.sessions| && w.sessions[sid].agent == agent }

  predicate Editable(s: Status) { s in {NotReady, Ready, RequiresReview} }

  predicate Terminal(s: Status) { s in {Completed, Canceled} }

  // ---- one gate run ------------------------------------------------------------------------------

  /** The cart a stored session stands for. */
  function StoredItems(lines: seq<Line>): (xs: seq<Item>)
    ensures |xs| == |lines|
    ensures forall i | 0 <= i < |lines| :: xs[i] == Item(IdStr(lines[i].id), QtyInt(lines[i].quantity))
  {
    if lines == [] then []
    else StoredItems(lines[..|lines| - 1]) + [Item(IdStr(lines[|lines| - 1].id), QtyInt(lines[|lines| - 1].quantity))]
  }

  function ExpectedSum(cat: Catalog, xs: seq<Item>): Option<int> {
    if xs == [] then Some(0)
    else
      var front := ExpectedSum(cat, xs[..|xs| - 1]);
      var it := xs[|xs| - 1];
      if front.None? || !Priceable(cat, it) then None else Some(front.value + cat[it.id.s].price * it.qty.n)
  }

  /** The service's own estimate of what the gate will compute. */
  function ExpectedTotal(cat: Catalog, items: Items): Option<int> {
    if items.NotAList? then None else ExpectedSum(cat, items.xs)
  }

  function MerchantApproved(reviews: seq<Review>, sid: Option<nat>, total: Option<int>): bool {
    sid.Some? && total.Some? && LatestReview(reviews, sid.value).Some?
    && LatestReview(reviews, sid.value).value.approved && LatestReview(reviews, sid.value).value.total == total.value
  }

  datatype Ruling = Ruling(input: GateInput, decision: Decision, mandate: Option<nat>)

  function InputFor(w: World, agent: nat, items: Items, status: Option<Status>, mode: Mode, sid: Option<nat>,
                    excludeSelf: bool, now: int): GateInput
  {
    var m := ActiveFor(w.mandates, agent, now);
    var except := if excludeSelf then sid else None;
    GateInput(
      if agent < |w.agents| then Some(GateAgent(agent, w.agents[agent])) else None,
      if m.Some? then Some(GateMandateOf(w.mandates, m.value)) else None,
      w.policy, w.catalog, items,
      if m.Some? then SpentToday(w.reservations, m.value, now, except) else 0,
      if m.Some? then SpentTotal(w.reservations, w.refunds, m.value, except) else 0,
      now, status, mode, MerchantApproved(w.reviews, sid, ExpectedTotal(w.catalog, items)))
  }

  function Judge(w: World, agent: nat, items: Items, status: Option<Status>, mode: Mode, sid: Option<nat>,
                excludeSelf: bool, now: int): Ruling
  {
    var gi := InputFor(w, agent, items, status, mode, sid, excludeSelf, now);
    Ruling(gi, Decide(gi), ActiveFor(w.mandates, agent, now))
  }

  /** What is recorded of the input: the catalog is cut down to the items in the cart. */
  function Recorded(gi: GateInput): GateInput {
    gi.(catalog := map s | s in gi.catalog && Mentions(gi.items, s) :: gi.catalog[s])
  }

  function LogDecision(w: World, sid: nat, rl: Ruling): World {
    Log(w, sid, GateDecision(rl.input.mode, rl.decision, Recorded(rl.input)))
  }

  function LogReviewRequest(w: World, sid: nat, d: Decision): World {
    if d.verdict == REVIEW then Log(w, sid, ReviewRequested(d.total, Get(w.policy.reviewAbove, JInt(0)))) else w
  }

  function StatusFor(d: Decision): Status {
    match d.verdict
    case ALLOW => Ready
    case REVIEW => RequiresReview
    case DENY => NotReady
  }

  // ---- create, update, review --------------------------------------------------------------------

  function FindKey(sessions: seq<Session>, agent: nat, key: Option<string>, i: nat): Option<nat>
    requires i <= |sessions|
    decreases |sessions| - i
  {
    if i == |sessions| then None
    else if sessions[i].agent == agent && sessions[i].idemKey == key then Some(i)
    else FindKey(sessions, agent, key, i + 1)
  }

  function Create(w: World, agent: nat, items: Items, key: Option<string>, hash: string, now: int): (World, Reply) {
    var existing := if Given(key) then FindKey(w.sessions, agent, key, 0) else None;
    if existing.Some? && existing.value < |w.sessions| then
      if w.sessions[existing.value].bodyHash == hash then (w, Shown(existing.value)) else (w, NotIdempotent)
    else
      CreateWith(w, agent, items, key, hash, Judge(w, agent, items, None, Preview, None, false, now))
  }

  function NewSession(agent: nat, key: Option<string>, hash: string, rl: Ruling): Session {
    Session(agent, rl.mandate, StatusFor(rl.decision), rl.decision.lines, rl.decision.total, key, hash, None,
            None, None, None, 0, None)
  }

  function CreateWith(w: World, agent: nat, items: Items, key: Option<string>, hash: string, rl: Ruling): (World, Reply) {
    var sid := |w.sessions|;
    var w1 := w.(sessions := w.sessions + [NewSession(agent, key, hash, rl)]);
    var w2 := Log(w1, sid, SessionCreated(agent, items, rl.decision.total, StatusFor(rl.decision)));
    (LogReviewRequest(LogDecision(w2, sid, rl), sid, rl.decision), Shown(sid))
  }

  /** Store the result of a preview run on `items`; an update announces itself, an approval does not. */
  function Reevaluate(w: World, sid: nat, items: Items, announce: bool, rl: Ruling): (World, Reply)
    requires sid < |w.sessions|
  {
    var s := w.sessions[sid];
    var d := rl.decision;
    var w1 := SetSession(w, sid, s.(status := StatusFor(d), lines := d.lines, total := d.total, mandate := rl.mandate));
    var w2 := if announce then Log(w1, sid, SessionUpdated(items, d.total, StatusFor(d))) else w1;
    (LogReviewRequest(LogDecision(w2, sid, rl), sid, d), Shown(sid))
  }

  function Update(w: World, agent: nat, sid: nat, items: Items, now: int): (World, Reply) {
    if !Owned(w, agent, sid) then (w, NotFound)
    else if !Editable(w.sessions[sid].status) then (w, WrongState)
    else Reevaluate(w, sid, items, true, Judge(w, agent, items, Some(w.sessions[sid].status), Preview, Some(sid), false, now))
  }

  function GiveReview(w: World, sid: nat, approved: bool, note: string): World
    requires sid < |w.sessions|
  {
    var total := w.sessions[sid].total;
    Log(w.(reviews := w.reviews + [Review(sid, total, approved, note)]), sid, ReviewGiven(approved, total, note))
  }

  function ReviewSession(w: World, sid: nat, approved: bool, note: string, now: int): (World, Reply) {
    if sid >= |w.sessions| then (w, NotFound)
    else
      var s := w.sessions[sid];
      if s.status != RequiresReview then (w, WrongState)
      else
        var w1 := GiveReview(w, sid, approved, note);
        if approved then
          var items := ItemList(StoredItems(s.lines));
          Reevaluate(w1, sid, items, false, Judge(w1, s.agent, items, Some(s.status), Preview, Some(sid), false, now))
        else
          (SetSession(w1, sid, s.(status := NotReady)), Shown(sid))
  }

  // ---- complete ----------------------------------------------------------------------------------

  /** Insert an open reservation; refused for a negative amount or when the session already has one. */
  function Reserve(w: World, sid: nat, mandate: nat, amount: int, now: int): Option<World> {
    if amount < 0 || OpenFor(w.reservations, sid).Some? then None
    else Some(w.(reservations := w.reservations + [Reservation(sid, mandate, amount, Reserved, now)]))
  }

  function WithState(w: World, sid: nat, state: HoldState): World {
    w.(reservations := Transition(w.reservations, sid, state))
  }

  function ReleaseIfOpen(w: World, sid: nat, reason: Reason): World {
    match OpenFor(w.reservations, sid)
    case None => w
    case Some(r) =>
      Log(WithState(w, sid, Released), sid, MandateReleased(r.mandate, r.amount, reason))
  }

  function Complete(w: World, agent: nat, sid: nat, key: Option<string>, now: int, link: LinkAnswer): (World, Reply) {
    if !Owned(w, agent, sid) then (w, NotFound)
    else
      var s := w.sessions[sid];
      if Given(key) && s.completeKey == key && s.status in {Pending, Completed, Canceled} then (w, Shown(sid))
      else if s.status == RequiresReview then (w, AwaitsReview)
      else if s.status != Ready then (w, WrongState)
      else
        CompleteWith(w, sid, key, now, link,
                     Judge(w, agent, ItemList(StoredItems(s.lines)), Some(Ready), Authoritative, Some(sid), false, now))
  }

  function CompleteWith(w: World, sid: nat, key: Option<string>, now: int, link: LinkAnswer, rl: Ruling): (World, Reply)
    requires sid < |w.sessions|
  {
    var s := w.sessions[sid];
    var d := rl.decision;
    var w1 := LogDecision(w, sid, rl);
    if d.verdict == REVIEW then
      (LogReviewRequest(SetSession(w1, sid, s.(status := RequiresReview)), sid, d), AwaitsReview)
    else if d.verdict == DENY then
      (SetSession(w1, sid, s.(status := NotReady)), PolicyDenied(d.rule))
    else
      var held := if rl.mandate.None? then None else Reserve(w1, sid, rl.mandate.value, d.total, now);
      if held.None? then (w1, Crashed)
      else StartPayment(Log(held.value, sid, MandateReserved(rl.mandate.value, d.total)), sid, key, d.total, link)
  }

  function LinkedSession(s: Session, key: Option<string>, link: LinkAnswer): Session
    requires link.LinkMade?
  {
    s.(status := Pending, attempt := 1, linkId := Some(link.linkId), linkExpireAt := Some(link.expireAt),
       orderId := link.orderId, completeKey := key)
  }

  /** The money is held: ask for a link, and give the money back if the provider refuses. */
  function StartPayment(w: World, sid: nat, key: Option<string>, total: int, link: LinkAnswer): (World, Reply)
    requires sid < |w.sessions|
  {
    match link
    case LinkRefused => (ReleaseIfOpen(Log(w, sid, ProviderError(CreateLinkOp)), sid, ProviderFailed), ProviderDown)
    case LinkMade(linkId, orderId, expireAt) =>
      (Log(SetSession(w, sid, LinkedSession(w.sessions[sid], key, link)), sid, LinkCreated(linkId, total, 1, expireAt)), Shown(sid))
  }

  // ---- reconcile ---------------------------------------------------------------------------------

  function Unseen(ps: seq<Payment>, sid: nat, xs: seq<Attempt>): seq<Attempt> {
    if xs == [] then []
    else Unseen(ps, sid, xs[..|xs| - 1]) + (if Seen(ps, sid, xs[|xs| - 1].paymentId) then [] else [xs[|xs| - 1]])
  }

  function FirstCapture(xs: seq<Attempt>): Option<Attempt> {
    if xs == [] then None
    else if FirstCapture(xs[..|xs| - 1]).Some? then FirstCapture(xs[..|xs| - 1])
    else if xs[|xs| - 1].status == CapturedPay then Some(xs[|xs| - 1])
    else None
  }

  predicate AnyFailed(xs: seq<Attempt>) { exists i | 0 <= i < |xs| :: xs[i].status == FailedPay }

  function RecordPayment(w: World, sid: nat, a: Attempt, attemptNo: nat, now: int): World {
    w.(payments := w.payments + [Payment(sid, a.paymentId, a.status, a.amount, attemptNo, now)])
  }

  function RecordAttempt(w: World, sid: nat, a: Attempt, attemptNo: nat, now: int): World {
    var w1 := RecordPayment(w, sid, a, attemptNo, now);
    if a.status == FailedPay then Log(w1, sid, PaymentFailed(a.paymentId, a.amount, attemptNo)) else w1
  }

  function RecordAll(w: World, sid: nat, xs: seq<Attempt>, attemptNo: nat, now: int): (r: World)
    ensures r == w.(payments := r.payments, trail := r.trail)
  {
    if xs == [] then w
    else RecordAttempt(RecordAll(w, sid, xs[..|xs| - 1], attemptNo, now), sid, xs[|xs| - 1], attemptNo, now)
  }

  function WithOrder(w: World, sid: nat, orderId: Option<string>): World
    requires sid < |w.sessions|
  {
    if Given(orderId) && !Given(w.sessions[sid].orderId) then SetSession(w, sid, w.sessions[sid].(orderId := orderId)) else w
  }

  /** Why the current attempt is over, if it is. */
  function AttemptOver(s: Session, unseen: seq<Attempt>, linkStatus: LinkStatus, now: int): Option<Reason> {
    if AnyFailed(unseen) then Some(PaymentWasFailed)
    else if linkStatus.LinkDead? then Some(if linkStatus.expired then LinkWasExpired else LinkWasCancelled)
    else if s.linkExpireAt.Some? && now >= s.linkExpireAt.value then Some(LinkWasExpired)
    else None
  }

  function Reconcile(w: World, sid: nat, now: int, poll: PollAnswer, cancel1: bool, cancel2: bool, link: LinkAnswer): (World, Reply) {
    if sid >= |w.sessions| then (w, Nothing)
    else
      var s := w.sessions[sid];
      if s.status != Pending then (w, Shown(sid))
      else match poll
        case PollRefused => (Log(w, sid, ProviderError(PollOp)), Shown(sid))
        case Polled(linkStatus, orderId, attempts) =>
          var unseen := Unseen(w.payments, sid, attempts);
          var w2 := RecordAll(WithOrder(w, sid, orderId), sid, unseen, s.attempt, now);
          Settle(w2, sid, s, unseen, linkStatus, now, cancel1, cancel2, link)
  }

  /** With the new attempts on file: finish, retry or abandon, or keep waiting. */
  function Settle(w: World, sid: nat, s: Session, unseen: seq<Attempt>, linkStatus: LinkStatus, now: int,
                  cancel1: bool, cancel2: bool, link: LinkAnswer): (World, Reply)
    requires sid < |w.sessions|
  {
    var captured := FirstCapture(unseen);
    var over := AttemptOver(s, unseen, linkStatus, now);
    if captured.Some? then FinishPaid(w, sid, captured.value, s.attempt, now)
    else if over.Some? then AfterFailedAttempt(w, sid, over.value, now, cancel1, cancel2, link)
    else (w, Shown(sid))
  }

  function CommitIfOpen(w: World, sid: nat): World {
    match OpenFor(w.reservations, sid)
    case None => w
    case Some(r) =>
      Log(WithState(w, sid, Committed), sid, MandateCommitted(r.mandate, r.amount))
  }

  function FinishPaid(w: World, sid: nat, a: Attempt, attemptNo: nat, now: int): (World, Reply)
    requires sid < |w.sessions|
  {
    var w1 := CommitIfOpen(Log(w, sid, PaymentCaptured(a.paymentId, a.amount, attemptNo)), sid);
    var s := w.sessions[sid];
    var w2 := SetSession(w1, sid, s.(status := Completed, completedAt := Some(now)));
    (Log(w2, sid, SessionCompleted(s.total, attemptNo)), Shown(sid))
  }

  function CancelQuietly(w: World, sid: nat, ok: bool): World
    requires sid < |w.sessions|
  {
    var linkId := w.sessions[sid].linkId;
    if !Given(linkId) then w
    else if ok then Log(w, sid, LinkCancelled(linkId.value))
    else Log(w, sid, LinkCancelFailed(linkId.value))
  }

  function Abandon(w: World, sid: nat, reason: Reason, ok: bool): (World, Reply)
    requires sid < |w.sessions|
  {
    var s := w.sessions[sid];
    var w1 := ReleaseIfOpen(CancelQuietly(w, sid, ok), sid, reason);
    var w2 := SetSession(w1, sid, s.(status := Canceled));
    (Log(Log(w2, sid, PaymentAbandoned(s.attempt, reason)), sid, SessionCanceled(reason)), Shown(sid))
  }

  function AfterFailedAttempt(w: World, sid: nat, reason: Reason, now: int, cancel1: bool, cancel2: bool, link: LinkAnswer): (World, Reply)
    requires sid < |w.sessions|
  {
    var s := w.sessions[sid];
    if s.attempt >= MAX_ATTEMPTS then Abandon(w, sid, reason, cancel1)
    else
      RetryWith(w, sid, reason, cancel1, cancel2, link,
                Judge(w, s.agent, ItemList(StoredItems(s.lines)), Some(Pending), Retry, Some(sid), true, now))
  }

  function RetriedSession(s: Session, link: LinkAnswer): Session
    requires link.LinkMade?
  {
    s.(attempt := s.attempt + 1, linkId := Some(link.linkId), linkExpireAt := Some(link.expireAt), orderId := link.orderId)
  }

  /** The second link, once the old one has been cancelled: the session moves on, the reservation stays. */
  function Relink(w: World, sid: nat, row: Session, reason: Reason, link: LinkAnswer, total: int): World
    requires sid < |w.sessions| && link.LinkMade?
  {
    var w1 := Log(SetSession(w, sid, RetriedSession(row, link)), sid, PaymentRetry(row.attempt + 1, reason, row.linkId));
    Log(w1, sid, LinkCreated(link.linkId, total, row.attempt + 1, link.expireAt))
  }

  function RetryWith(w: World, sid: nat, reason: Reason, cancel1: bool, cancel2: bool, link: LinkAnswer, rl: Ruling): (World, Reply)
    requires sid < |w.sessions|
  {
    var s := w.sessions[sid];
    var w1 := LogDecision(w, sid, rl);
    if rl.decision.verdict != ALLOW then Abandon(w1, sid, RetryDenied(rl.decision.rule), cancel1)
    else
      var w2 := CancelQuietly(w1, sid, cancel1);
      match link
      case LinkRefused => Abandon(Log(w2, sid, ProviderError(CreateLinkOp)), sid, ProviderFailed, cancel2)
      case LinkMade(_, _, _) => (Relink(w2, sid, s, reason, link, rl.decision.total), Shown(sid))
  }

  // ---- cancel ------------------------------------------------------------------------------------

  function CancelSession(w: World, sid: nat, reason: Reason, now: int, ok: bool, poll: PollAnswer): (World, Reply)
    requires sid < |w.sessions|
  {
    var s := w.sessions[sid];
    if Terminal(s.status) then (w, WrongState)
    else if s.status == Pending && Given(s.linkId) then
      if ok then Canceling(Log(w, sid, LinkCancelled(s.linkId.value)), sid, reason)
      else LateCapture(w, sid, now, poll)
    else Canceling(w, sid, reason)
  }

  function Canceling(w: World, sid: nat, reason: Reason): (World, Reply)
    requires sid < |w.sessions|
  {
    var w1 := ReleaseIfOpen(w, sid, reason);
    (Log(SetSession(w1, sid, w.sessions[sid].(status := Canceled)), sid, SessionCanceled(reason)), Shown(sid))
  }

  /** The provider would not cancel the link: one last poll, in case the customer just paid. */
  function LateCapture(w: World, sid: nat, now: int, poll: PollAnswer): (World, Reply)
    requires sid < |w.sessions| && w.sessions[sid].linkId.Some?
  {
    var s := w.sessions[sid];
    var w1 := if poll.PollRefused? then Log(w, sid, ProviderError(PollOp)) else w;
    var captured := if poll.PollRefused? then None else FirstCapture(Unseen(w.payments, sid, poll.attempts));
    if captured.Some? then FinishPaid(RecordPayment(w1, sid, captured.value, s.attempt, now), sid, captured.value, s.attempt, now)
    else (Log(w1, sid, LinkCancelFailed(s.linkId.value)), CancelFailed)
  }

  /** `caller` is the agent asking, or None for the merchant. */
  function Cancel(w: World, caller: Option<nat>, sid: nat, now: int, ok: bool, poll: PollAnswer): (World, Reply) {
    if sid >= |w.sessions| || (caller.Some? && w.sessions[sid].agent != caller.value) then (w, NotFound)
    else CancelSession(w, sid, if caller.Some? then AgentCancelled else MerchantCancelled, now, ok, poll)
  }

  // ---- refund ------------------------------------------------------------------------------------

  function RefundRequest(w: World, sid: nat, amount: Amount, reason: Text, reference: Text, now: int): RefundInput
    requires sid < |w.sessions|
  {
    var captured := FirstCaptured(w.payments, sid);
    RefundInput(Some(w.sessions[sid].status), if captured.Some? then captured.value.amount else 0,
                RefundedOf(w.refunds, sid), amount, reason, reference, References(w.refunds, sid),
                if captured.Some? then Some(captured.value.createdAt) else None, now, Get(w.policy.refundWindow, JInt(30)))
  }

  function RefundSession(w: World, sid: nat, amount: Amount, reason: Text, reference: Text, now: int, answer: RefundAnswer): (World, Reply) {
    if sid >= |w.sessions| then (w, NotFound)
    else
      var ri := RefundRequest(w, sid, amount, reason, reference, now);
      RefundWith(w, sid, ri, DecideRefund(ri), answer)
  }

  function RefundWith(w: World, sid: nat, ri: RefundInput, d: RefundDecision, answer: RefundAnswer): (World, Reply)
    requires sid < |w.sessions|
  {
    var w1 := Log(w, sid, RefundDecided(d, ri));
    var captured := FirstCaptured(w.payments, sid);
    if d.verdict != ALLOW || !Requested(ri) || captured.None? then (w1, RefundDenied(d.rule))
    else match answer
      case RefundRefused => (Log(w1, sid, ProviderError(RefundOp)), ProviderDown)
      case RefundMade(refundId) =>
        var credited := w.sessions[sid].mandate;
        var f := Refund(sid, credited, captured.value.paymentId, refundId, ri.amount.n, ri.reason.s, ri.reference.s);
        (Log(w1.(refunds := w1.refunds + [f]), sid,
             RefundCreated(refundId, f.paymentId, f.amount, f.reference, credited)), Shown(sid))
  }

  // ---- mandates and the rest of the merchant's world ----------------------------------------------

  function Superseded(ms: seq<Mandate>, agent: nat): (r: seq<Mandate>)
    ensures |r| == |ms|
    ensures forall i | 0 <= i < |ms| :: r[i] == if ms[i].agent == agent then ms[i].(standing := Revoked) else ms[i]
  {
    if ms == [] then []
    else
      var last := ms[|ms| - 1];
      Superseded(ms[..|ms| - 1], agent) + [if last.agent == agent then last.(standing := Revoked) else last]
  }

  predicate MandateTerms(perTxn: int, daily: int, total: int, categories: seq<string>, startsAt: int, expiresAt: int) {
    && perTxn >= 0 && daily >= 0 && total >= 0
    && (forall i | 0 <= i < |categories| :: Strip(categories[i]) != "")
    && startsAt < expiresAt
  }

  function StripAll(xs: seq<string>): (r: seq<string>)
    ensures |r| == |xs| && forall i | 0 <= i < |xs| :: r[i] == Strip(xs[i])
  {
    if xs == [] then [] else StripAll(xs[..|xs| - 1]) + [Strip(xs[|xs| - 1])]
  }

  /** A new mandate replaces every earlier one of the agent; bad terms change nothing. */
  function IssueMandate(ms: seq<Mandate>, agent: nat, perTxn: int, daily: int, total: int, categories: seq<string>,
                        startsAt: int, expiresAt: int, now: int): seq<Mandate>
  {
    if !MandateTerms(perTxn, daily, total, categories, startsAt, expiresAt) then ms
    else
      Superseded(ms, agent)
      + [Mandate(agent, INR, perTxn, daily, total, StripAll(categories), startsAt, expiresAt, Active, now)]
  }
}
