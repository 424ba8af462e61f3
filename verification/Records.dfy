/** Rows of the tables, events of the trail, and the state the checkout service works on. Ids are row numbers. */
module Records {
  import opened Basics
  import opened Policy
  import opened Gate
  import opened RefundGate
  import opened Ledger

  // ---- rows --------------------------------------------------------------------------------------

  datatype Mandate = Mandate(
    agent: nat, currency: string, perTxnCap: int, dailyCap: int, totalCap: int, categories: seq<string>,
    startsAt: int, expiresAt: int, standing: Standing, createdAt: int)

  datatype HoldState = Reserved | Committed | Released

  datatype Reservation = Reservation(session: nat, mandate: nat, amount: int, state: HoldState, createdAt: int)

  datatype Session = Session(
    agent: nat, mandate: Option<nat>, status: Status, lines: seq<Line>, total: int,
    idemKey: Option<string>, bodyHash: string, completeKey: Option<string>,
    linkId: Option<string>, linkExpireAt: Option<int>, orderId: Option<string>, attempt: nat,
    completedAt: Option<int>)

  datatype PayStatus = CapturedPay | FailedPay

  datatype Attempt = Attempt(paymentId: string, status: PayStatus, amount: int)

  datatype Payment = Payment(session: nat, paymentId: string, status: PayStatus, amount: int, attempt: nat, createdAt: int)

  datatype Review = Review(session: nat, total: int, approved: bool, note: string)

  datatype Refund = Refund(
    session: nat, mandate: Option<nat>, paymentId: string, refundId: string, amount: int, reason: string, reference: string)

  // ---- events ------------------------------------------------------------------------------------

  datatype Reason =
    | AgentCancelled | MerchantCancelled | ProviderFailed | PaymentWasFailed | LinkWasExpired | LinkWasCancelled
    | RetryDenied(rule: Rule)

  datatype Operation = CreateLinkOp | PollOp | RefundOp

  datatype Event =
    | SessionCreated(agent: nat, items: Items, total: int, status: Status)
    | SessionUpdated(items: Items, total: int, status: Status)
    | GateDecision(mode: Mode, decision: Decision, input: GateInput)
    | ReviewRequested(total: int, threshold: Json)
    | ReviewGiven(approved: bool, total: int, note: string)
    | MandateReserved(mandate: nat, amount: int)
    | MandateReleased(mandate: nat, amount: int, reason: Reason)
    | MandateCommitted(mandate: nat, amount: int)
    | ProviderError(operation: Operation)
    | LinkCreated(linkId: string, amount: int, attempt: nat, expireAt: int)
    | LinkCancelled(linkId: string)
    | LinkCancelFailed(linkId: string)
    | PaymentFailed(paymentId: string, amount: int, attempt: nat)
    | PaymentCaptured(paymentId: string, amount: int, attempt: nat)
    | PaymentRetry(attempt: nat, reason: Reason, previousLink: Option<string>)
    | PaymentAbandoned(attempt: nat, reason: Reason)
    | SessionCompleted(total: int, attempt: nat)
    | SessionCanceled(reason: Reason)
    | RefundDecided(refund: RefundDecision, request: RefundInput)
    | RefundCreated(refundId: string, paymentId: string, amount: int, reference: string, credited: Option<nat>)

  /** The `type` column of the ledger row that carries the event. */
  function KindName(e: Event): string {
    match e
    case SessionCreated(_, _, _, _) => "session.created"
    case SessionUpdated(_, _, _) => "session.updated"
    case GateDecision(_, _, _) => "gate.decision"
    case ReviewRequested(_, _) => "review.requested"
    case ReviewGiven(approved, _, _) => if approved then "review.approved" else "review.declined"
    case MandateReserved(_, _) => "mandate.reserved"
    case MandateReleased(_, _, _) => "mandate.released"
    case MandateCommitted(_, _) => "mandate.committed"
    case ProviderError(_) => "provider.error"
    case LinkCreated(_, _, _, _) => "payment.link.created"
    case LinkCancelled(_) => "payment.link.cancelled"
    case LinkCancelFailed(_) => "payment.link.cancel_failed"
    case PaymentFailed(_, _, _) => "payment.failed"
    case PaymentCaptured(_, _, _) => "payment.captured"
    case PaymentRetry(_, _, _) => "payment.retry"
    case PaymentAbandoned(_, _) => "payment.abandoned"
    case SessionCompleted(_, _) => "session.completed"
    case SessionCanceled(_) => "session.canceled"
    case RefundDecided(_, _) => "refund.decision"
    case RefundCreated(_, _, _, _, _) => "refund.created"
  }

  type Trail = seq<Entry<Event>>

  // ---- the whole state ---------------------------------------------------------------------------

  datatype World = World(
    catalog: Catalog, policy: Doc, agents: seq<Standing>, mandates: seq<Mandate>, sessions: seq<Session>,
    reservations: seq<Reservation>, payments: seq<Payment>, reviews: seq<Review>, refunds: seq<Refund>, trail: Trail)

  /** The tables as the services hold them: one connection, shared by every store. */
  class Database {
    var catalog: Catalog
    var policy: Doc
    var agents: seq<Standing>
    var mandates: seq<Mandate>
    var sessions: seq<Session>
    var reservations: seq<Reservation>
    var payments: seq<Payment>
    var reviews: seq<Review>
    var refunds: seq<Refund>

    constructor (policy: Doc)
      ensures this.policy == policy && catalog == map[] && agents == [] && mandates == [] && sessions == []
      ensures reservations == [] && payments == [] && reviews == [] && refunds == []
    {
      this.policy := policy;
      catalog, agents, mandates, sessions := map[], [], [], [];
      reservations, payments, reviews, refunds := [], [], [], [];
    }
  }
}
