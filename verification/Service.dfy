/**
 * The checkout service as it runs: rows updated in place, an event appended after every change, loops over rows
 * and provider answers. Every method is proved to be the call that module Checkout specifies: same new tables,
 * same new trail, same reply.
 */
module Service {
  import opened Basics
  import opened Policy
  import opened Gate
  import opened RefundGate
  import opened Ledger
  import opened Records
  import opened Books
  import opened Checkout
  import opened Rulings
  import opened Stores

  class SessionService {
    const db: Database
    const mandates: MandateStore
    const ledger: AuditLedger<Event>
    /** Text of the n-th id that is drawn. */
    const idText: nat -> string
    /** The gate input of the latest decision, kept for the record. */
    var lastInput: Option<GateInput>

    constructor (db: Database, codec: Codec<Event>, idText: nat -> string)
      requires RoundTrips(codec)
      ensures Valid() && this.db == db && this.idText == idText
      ensures fresh(ledger) && State().trail == []
      ensures State() == World(db.catalog, db.policy, db.agents, db.mandates, db.sessions, db.reservations, db.payments,
                               db.reviews, db.refunds, [])
    {
      this.db := db;
      this.idText := idText;
      lastInput := None;
      mandates := new MandateStore(db);
      ledger := new AuditLedger<Event>(codec);
    }

    ghost predicate Valid()
      reads ledger
    {
      mandates.db == db && ledger.Valid()
    }

    /** The state the service works on: the tables, and the events its ledger records. */
    ghost function State(): World
      reads db, ledger
      requires Valid()
    {
      World(db.catalog, db.policy, db.agents, db.mandates, db.sessions, db.reservations, db.payments, db.reviews,
            db.refunds, ledger.Trail())
    }

    // ---- rows and events -------------------------------------------------------------------------

    method Record(sid: nat, e: Event, actor: string, now: int)
      requires Valid()
      modifies ledger`rows
      ensures Valid() && State() == Log(old(State()), sid, e)
    {
      ledger.Append(KindName(e), actor, e, Some(sid), idText(|ledger.rows|), now);
    }

    function AgentActor(agent: nat): string { "agent:" + idText(agent) }

    method Put(sid: nat, row: Session)
      requires Valid() && sid < |db.sessions|
      modifies db`sessions
      ensures Valid() && State() == SetSession(old(State()), sid, row)
    {
      db.sessions := db.sessions[sid := row];
    }

    method PaymentSeen(sid: nat, paymentId: string) returns (seen: bool)
      ensures seen == Seen(db.payments, sid, paymentId)
    {
      for i := 0 to |db.payments|
        invariant !Seen(db.payments[..i], sid, paymentId)
      {
        if db.payments[i].session == sid && db.payments[i].paymentId == paymentId {
          return true;
        }
      }
      return false;
    }

    method RecordPaymentRow(sid: nat, a: Attempt, attemptNo: nat, now: int)
      requires Valid()
      modifies db`payments
      ensures Valid() && State() == RecordPayment(old(State()), sid, a, attemptNo, now)
    {
      db.payments := db.payments + [Payment(sid, a.paymentId, a.status, a.amount, attemptNo, now)];
    }

    // ---- gate ------------------------------------------------------------------------------------

    method Expected(items: Items) returns (total: Option<int>)
      ensures total == ExpectedTotal(db.catalog, items)
    {
      if items.NotAList? {
        return None;
      }
      var sum := 0;
      for i := 0 to |items.xs|
        invariant ExpectedSum(db.catalog, items.xs[..i]) == Some(sum)
      {
        var it := items.xs[i];
        assert items.xs[..i + 1][..i] == items.xs[..i];
        if !it.Item? || !it.id.IdStr? || it.id.s !in db.catalog || !it.qty.QtyInt? {
          ExpectedSumIsSum(db.catalog, items.xs);
          assert !Priceable(db.catalog, items.xs[i]);
          return None;
        }
        sum := sum + db.catalog[it.id.s].price * it.qty.n;
      }
      assert items.xs[..|items.xs|] == items.xs;
      return Some(sum);
    }

    method Approved(sid: Option<nat>, total: Option<int>) returns (approved: bool)
      ensures approved == MerchantApproved(db.reviews, sid, total)
    {
      if sid.None? || total.None? {
        return false;
      }
      var i := |db.reviews|;
      assert db.reviews[..i] == db.reviews;
      while i > 0
        invariant 0 <= i <= |db.reviews|
        invariant LatestReview(db.reviews, sid.value) == LatestReview(db.reviews[..i], sid.value)
      {
        i := i - 1;
        assert db.reviews[..i + 1][..i] == db.reviews[..i];
        if db.reviews[i].session == sid.value {
          return db.reviews[i].approved && db.reviews[i].total == total.value;
        }
      }
      return false;
    }

    /** Everything one gate run is given, and the mandate it is about. */
    method Gather(agent: nat, items: Items, status: Option<Status>, mode: Mode, sid: Option<nat>, excludeSelf: bool, now: int)
      returns (gi: GateInput, mandate: Option<nat>)
      requires Valid()
      ensures gi == InputFor(State(), agent, items, status, mode, sid, excludeSelf, now)
      ensures mandate == ActiveFor(db.mandates, agent, now)
    {
      mandate := mandates.ActiveFor(agent, now);
      var total, today := SpendOn(mandate, now, if excludeSelf then sid else None);
      var expected := Expected(items);
      var approved := Approved(sid, expected);
      gi := GateInput(
        if agent < |db.agents| then Some(GateAgent(agent, db.agents[agent])) else None,
        if mandate.Some? then Some(GateMandateOf(db.mandates, mandate.value)) else None,
        db.policy, db.catalog, items, today, total, now, status, mode, approved);
    }

    method SpendOn(mandate: Option<nat>, now: int, except: Option<nat>) returns (total: int, today: int)
      requires mandates.db == db
      ensures total == if mandate.Some? then SpentTotal(db.reservations, db.refunds, mandate.value, except) else 0
      ensures today == if mandate.Some? then SpentToday(db.reservations, mandate.value, now, except) else 0
    {
      total, today := 0, 0;
      if mandate.Some? {
        total, today := mandates.Spent(mandate.value, now, except);
      }
    }

    method Ruled(agent: nat, items: Items, status: Option<Status>, mode: Mode, sid: Option<nat>, excludeSelf: bool, now: int)
      returns (rl: Ruling)
      requires Valid()
      modifies this`lastInput
      ensures rl == Judge(State(), agent, items, status, mode, sid, excludeSelf, now)
      ensures lastInput == Some(rl.input)
    {
      var gi, mandate := Gather(agent, items, status, mode, sid, excludeSelf, now);
      lastInput := Some(gi);
      var d := Evaluate(gi);
      return Ruling(gi, d, mandate);
    }

    /** The recorded input is the one `lastInput` kept. */
    method RecordDecision(sid: nat, rl: Ruling, now: int)
      requires Valid() && lastInput == Some(rl.input)
      modifies ledger`rows
      ensures Valid() && State() == LogDecision(old(State()), sid, rl)
    {
      var gi := lastInput.value;
      Record(sid, GateDecision(gi.mode, rl.decision, Recorded(gi)), "gate", now);
    }

    method RecordReviewRequest(sid: nat, d: Decision, now: int)
      requires Valid()
      modifies ledger`rows
      ensures Valid() && State() == LogReviewRequest(old(State()), sid, d)
    {
      if d.verdict == REVIEW {
        Record(sid, ReviewRequested(d.total, Get(db.policy.reviewAbove, JInt(0))), "gate", now);
      }
    }

    // ---- create, update, review ------------------------------------------------------------------

    method FindByKey(agent: nat, key: Option<string>) returns (found: Option<nat>)
      ensures found == FindKey(db.sessions, agent, key, 0)
    {
      for i := 0 to |db.sessions|
        invariant FindKey(db.sessions, agent, key, 0) == FindKey(db.sessions, agent, key, i)
      {
        if db.sessions[i].agent == agent && db.sessions[i].idemKey == key {
          return Some(i);
        }
      }
      return None;
    }

    method Create(agent: nat, items: Items, key: Option<string>, hash: string, now: int) returns (reply: Reply)
      requires Valid()
      modifies db`sessions, ledger`rows, this`lastInput
      ensures Valid() && (State(), reply) == Checkout.Create(old(State()), agent, items, key, hash, now)
    {
      if Given(key) {
        var existing := FindByKey(agent, key);
        if existing.Some? {
          FindKeyBound(db.sessions, agent, key, 0);
          return if db.sessions[existing.value].bodyHash == hash then Shown(existing.value) else NotIdempotent;
        }
      }
      var rl := Ruled(agent, items, None, Preview, None, false, now);
      reply := CreateRuled(agent, items, key, hash, rl, now);
    }

    method CreateRuled(agent: nat, items: Items, key: Option<string>, hash: string, rl: Ruling, now: int) returns (reply: Reply)
      requires Valid() && lastInput == Some(rl.input)
      modifies db`sessions, ledger`rows
      ensures Valid() && (State(), reply) == CreateWith(old(State()), agent, items, key, hash, rl)
    {
      var sid := |db.sessions|;
      var d := rl.decision;
      db.sessions := db.sessions + [NewSession(agent, key, hash, rl)];
      Record(sid, SessionCreated(agent, items, d.total, StatusFor(d)), AgentActor(agent), now);
      RecordDecision(sid, rl, now);
      RecordReviewRequest(sid, d, now);
      return Shown(sid);
    }

    /** Store the outcome of a preview run; an approval stays silent, an update announces itself. */
    method StorePreview(sid: nat, items: Items, announce: bool, rl: Ruling, now: int) returns (reply: Reply)
      requires Valid() && sid < |db.sessions| && lastInput == Some(rl.input)
      modifies db`sessions, ledger`rows
      ensures Valid() && (State(), reply) == Reevaluate(old(State()), sid, items, announce, rl)
    {
      var d := rl.decision;
      Put(sid, db.sessions[sid].(status := StatusFor(d), lines := d.lines, total := d.total, mandate := rl.mandate));
      if announce {
        Record(sid, SessionUpdated(items, d.total, StatusFor(d)), AgentActor(db.sessions[sid].agent), now);
      }
      RecordDecision(sid, rl, now);
      RecordReviewRequest(sid, d, now);
      return Shown(sid);
    }

    method Update(agent: nat, sid: nat, items: Items, now: int) returns (reply: Reply)
      requires Valid()
      modifies db`sessions, ledger`rows, this`lastInput
      ensures Valid() && (State(), reply) == Checkout.Update(old(State()), agent, sid, items, now)
    {
      if !(sid < |db.sessions| && db.sessions[sid].agent == agent) {
        return NotFound;
      }
      if db.sessions[sid].status !in {NotReady, Ready, RequiresReview} {
        return WrongState;
      }
      var rl := Ruled(agent, items, Some(db.sessions[sid].status), Preview, Some(sid), false, now);
      reply := StorePreview(sid, items, true, rl, now);
    }

    method Review(sid: nat, approved: bool, note: string, now: int) returns (reply: Reply)
      requires Valid()
      modifies db`sessions, db`reviews, ledger`rows, this`lastInput
      ensures Valid() && (State(), reply) == ReviewSession(old(State()), sid, approved, note, now)
    {
      if sid >= |db.sessions| {
        return NotFound;
      }
      var row := db.sessions[sid];
      if row.status != RequiresReview {
        return WrongState;
      }
      db.reviews := db.reviews + [Records.Review(sid, row.total, approved, note)];
      Record(sid, ReviewGiven(approved, row.total, note), "merchant", now);
      if approved {
        var items := ItemList(StoredItems(row.lines));
        var rl := Ruled(row.agent, items, Some(row.status), Preview, Some(sid), false, now);
        reply := StorePreview(sid, items, false, rl, now);
      } else {
        Put(sid, row.(status := NotReady));
        return Shown(sid);
      }
    }

    // ---- complete --------------------------------------------------------------------------------

    method ReleaseOpen(sid: nat, reason: Reason, now: int)
      requires Valid()
      modifies db`reservations, ledger`rows
      ensures Valid() && State() == ReleaseIfOpen(old(State()), sid, reason)
    {
      var open := mandates.OpenFor(sid);
      if open.Some? {
        var _ := mandates.Release(sid);
        Record(sid, MandateReleased(open.value.mandate, open.value.amount, reason), "sessions", now);
      }
    }

    method Complete(agent: nat, sid: nat, key: Option<string>, now: int, link: LinkAnswer) returns (reply: Reply)
      requires Valid()
      modifies db`sessions, db`reservations, ledger`rows, this`lastInput
      ensures Valid() && (State(), reply) == Checkout.Complete(old(State()), agent, sid, key, now, link)
    {
      if !(sid < |db.sessions| && db.sessions[sid].agent == agent) {
        return NotFound;
      }
      var row := db.sessions[sid];
      if Given(key) && row.completeKey == key && row.status in {Pending, Completed, Canceled} {
        return Shown(sid);
      }
      if row.status == RequiresReview {
        return AwaitsReview;
      }
      if row.status != Ready {
        return WrongState;
      }
      var rl := Ruled(agent, ItemList(StoredItems(row.lines)), Some(Ready), Authoritative, Some(sid), false, now);
      reply := CompleteRuled(sid, key, now, link, rl);
    }

    method CompleteRuled(sid: nat, key: Option<string>, now: int, link: LinkAnswer, rl: Ruling) returns (reply: Reply)
      requires Valid() && sid < |db.sessions| && lastInput == Some(rl.input)
      modifies db`sessions, db`reservations, ledger`rows
      ensures Valid() && (State(), reply) == CompleteWith(old(State()), sid, key, now, link, rl)
    {
      var d := rl.decision;
      RecordDecision(sid, rl, now);
      if d.verdict == REVIEW {
        Put(sid, db.sessions[sid].(status := RequiresReview));
        RecordReviewRequest(sid, d, now);
        return AwaitsReview;
      }
      if d.verdict != ALLOW {
        Put(sid, db.sessions[sid].(status := NotReady));
        return PolicyDenied(d.rule);
      }
      if rl.mandate.None? {
        return Crashed;
      }
      var ok := mandates.Reserve(sid, rl.mandate.value, d.total, now);
      if !ok {
        return Crashed;
      }
      Record(sid, MandateReserved(rl.mandate.value, d.total), "sessions", now);
      reply := Pay(sid, key, d.total, now, link);
    }

    method Pay(sid: nat, key: Option<string>, total: int, now: int, link: LinkAnswer) returns (reply: Reply)
      requires Valid() && sid < |db.sessions|
      modifies db`sessions, db`reservations, ledger`rows
      ensures Valid() && (State(), reply) == StartPayment(old(State()), sid, key, total, link)
    {
      match link
      case LinkRefused =>
        Record(sid, ProviderError(CreateLinkOp), "payments", now);
        ReleaseOpen(sid, ProviderFailed, now);
        return ProviderDown;
      case LinkMade(linkId, orderId, expireAt) =>
        Put(sid, db.sessions[sid].(status := Pending, attempt := 1, linkId := Some(linkId), linkExpireAt := Some(expireAt),
                                   orderId := orderId, completeKey := key));
        Record(sid, LinkCreated(linkId, total, 1, expireAt), "payments", now);
        return Shown(sid);
    }

    // ---- reconcile -------------------------------------------------------------------------------

    method NewAttempts(sid: nat, attempts: seq<Attempt>) returns (unseen: seq<Attempt>)
      ensures unseen == Unseen(db.payments, sid, attempts)
    {
      unseen := [];
      for i := 0 to |attempts|
        invariant unseen == Unseen(db.payments, sid, attempts[..i])
      {
        assert attempts[..i + 1][..i] == attempts[..i];
        var seen := PaymentSeen(sid, attempts[i].paymentId);
        if !seen {
          unseen := unseen + [attempts[i]];
        }
      }
      assert attempts[..|attempts|] == attempts;
    }

    method RecordAttempts(sid: nat, xs: seq<Attempt>, attemptNo: nat, now: int)
      requires Valid()
      modifies db`payments, ledger`rows
      ensures Valid() && State() == RecordAll(old(State()), sid, xs, attemptNo, now)
    {
      for i := 0 to |xs|
        invariant Valid() && State() == RecordAll(old(State()), sid, xs[..i], attemptNo, now)
      {
        assert xs[..i + 1][..i] == xs[..i];
        RecordPaymentRow(sid, xs[i], attemptNo, now);
        if xs[i].status == FailedPay {
          Record(sid, PaymentFailed(xs[i].paymentId, xs[i].amount, attemptNo), "reconciler", now);
        }
      }
      assert xs[..|xs|] == xs;
    }

    method Reconcile(sid: nat, now: int, poll: PollAnswer, cancel1: bool, cancel2: bool, link: LinkAnswer) returns (reply: Reply)
      requires Valid()
      modifies db`sessions, db`reservations, db`payments, ledger`rows, this`lastInput
      ensures Valid() && (State(), reply) == Checkout.Reconcile(old(State()), sid, now, poll, cancel1, cancel2, link)
    {
      if sid >= |db.sessions| {
        return Nothing;
      }
      if db.sessions[sid].status != Pending {
        return Shown(sid);
      }
      match poll
      case PollRefused =>
        Record(sid, ProviderError(PollOp), "reconciler", now);
        return Shown(sid);
      case Polled(linkStatus, orderId, attempts) =>
        reply := ReconcilePolled(sid, now, linkStatus, orderId, attempts, cancel1, cancel2, link);
    }

    method ReconcilePolled(sid: nat, now: int, linkStatus: LinkStatus, orderId: Option<string>, attempts: Attempts,
                           cancel1: bool, cancel2: bool, link: LinkAnswer) returns (reply: Reply)
      requires Valid() && sid < |db.sessions| && db.sessions[sid].status == Pending
      modifies db`sessions, db`reservations, db`payments, ledger`rows, this`lastInput
      ensures Valid()
      ensures (State(), reply) == Checkout.Reconcile(old(State()), sid, now, Polled(linkStatus, orderId, attempts), cancel1, cancel2, link)
    {
      var row := db.sessions[sid];
      if Given(orderId) && !Given(row.orderId) {
        Put(sid, row.(orderId := orderId));
      }
      var unseen := NewAttempts(sid, attempts);
      RecordAttempts(sid, unseen, row.attempt, now);
      reply := SettleAttempt(sid, row, unseen, linkStatus, now, cancel1, cancel2, link);
    }

    method SettleAttempt(sid: nat, row: Session, unseen: seq<Attempt>, linkStatus: LinkStatus, now: int,
                         cancel1: bool, cancel2: bool, link: LinkAnswer) returns (reply: Reply)
      requires Valid() && sid < |db.sessions|
      modifies db`sessions, db`reservations, ledger`rows, this`lastInput
      ensures Valid() && (State(), reply) == Settle(old(State()), sid, row, unseen, linkStatus, now, cancel1, cancel2, link)
    {
      var captured, failed := Outcome(unseen);
      if captured.Some? {
        reply := FinishPaid(sid, captured.value, row.attempt, now);
        return;
      }
      var linkDead := linkStatus.LinkDead?;
      var ttlOver := row.linkExpireAt.Some? && now >= row.linkExpireAt.value;
      if failed || linkDead || ttlOver {
        var reason := if failed then PaymentWasFailed
                      else if linkDead then (if linkStatus.expired then LinkWasExpired else LinkWasCancelled)
                      else LinkWasExpired;
        assert AttemptOver(row, unseen, linkStatus, now) == Some(reason);
        reply := AfterFailed(sid, reason, now, cancel1, cancel2, link);
      } else {
        return Shown(sid);
      }
    }

    method Outcome(xs: seq<Attempt>) returns (captured: Option<Attempt>, failed: bool)
      ensures captured == FirstCapture(xs) && failed == AnyFailed(xs)
    {
      captured, failed := None, false;
      for i := 0 to |xs|
        invariant captured == FirstCapture(xs[..i]) && failed == AnyFailed(xs[..i])
      {
        assert xs[..i + 1][..i] == xs[..i] && xs[..i + 1][i] == xs[i];
        assert AnyFailed(xs[..i]) ==> AnyFailed(xs[..i + 1]) by {
          if j :| 0 <= j < i && xs[..i][j].status == FailedPay {
            assert xs[..i + 1][j] == xs[..i][j];
          }
        }
        if captured.None? && xs[i].status == CapturedPay {
          captured := Some(xs[i]);
        }
        failed := failed || xs[i].status == FailedPay;
      }
      assert xs[..|xs|] == xs;
    }

    method CommitOpen(sid: nat, now: int)
      requires Valid()
      modifies db`reservations, ledger`rows
      ensures Valid() && State() == CommitIfOpen(old(State()), sid)
    {
      var open := mandates.OpenFor(sid);
      if open.Some? {
        var _ := mandates.Commit(sid);
        Record(sid, MandateCommitted(open.value.mandate, open.value.amount), "sessions", now);
      }
    }

    method FinishPaid(sid: nat, a: Attempt, attemptNo: nat, now: int) returns (reply: Reply)
      requires Valid() && sid < |db.sessions|
      modifies db`sessions, db`reservations, ledger`rows
      ensures Valid() && (State(), reply) == Checkout.FinishPaid(old(State()), sid, a, attemptNo, now)
    {
      var row := db.sessions[sid];
      Record(sid, PaymentCaptured(a.paymentId, a.amount, attemptNo), "reconciler", now);
      CommitOpen(sid, now);
      Put(sid, db.sessions[sid].(status := Completed, completedAt := Some(now)));
      Record(sid, SessionCompleted(row.total, attemptNo), "sessions", now);
      return Shown(sid);
    }

    method CancelLinkQuietly(sid: nat, now: int, ok: bool)
      requires Valid() && sid < |db.sessions|
      modifies ledger`rows
      ensures Valid() && State() == CancelQuietly(old(State()), sid, ok)
    {
      var linkId := db.sessions[sid].linkId;
      if !Given(linkId) {
        return;
      }
      if ok {
        Record(sid, LinkCancelled(linkId.value), "reconciler", now);
      } else {
        Record(sid, LinkCancelFailed(linkId.value), "reconciler", now);
      }
    }

    method Abandon(sid: nat, reason: Reason, now: int, ok: bool) returns (reply: Reply)
      requires Valid() && sid < |db.sessions|
      modifies db`sessions, db`reservations, ledger`rows
      ensures Valid() && (State(), reply) == Checkout.Abandon(old(State()), sid, reason, ok)
    {
      var row := db.sessions[sid];
      CancelLinkQuietly(sid, now, ok);
      ReleaseOpen(sid, reason, now);
      Put(sid, db.sessions[sid].(status := Canceled));
      Record(sid, PaymentAbandoned(row.attempt, reason), "reconciler", now);
      Record(sid, SessionCanceled(reason), "sessions", now);
      return Shown(sid);
    }

    method AfterFailed(sid: nat, reason: Reason, now: int, cancel1: bool, cancel2: bool, link: LinkAnswer) returns (reply: Reply)
      requires Valid() && sid < |db.sessions|
      modifies db`sessions, db`reservations, ledger`rows, this`lastInput
      ensures Valid() && (State(), reply) == AfterFailedAttempt(old(State()), sid, reason, now, cancel1, cancel2, link)
    {
      var row := db.sessions[sid];
      if row.attempt >= MAX_ATTEMPTS {
        reply := Abandon(sid, reason, now, cancel1);
        return;
      }
      var rl := Ruled(row.agent, ItemList(StoredItems(row.lines)), Some(Pending), Retry, Some(sid), true, now);
      reply := RetryRuled(sid, reason, now, cancel1, cancel2, link, rl);
    }

    method RetryRuled(sid: nat, reason: Reason, now: int, cancel1: bool, cancel2: bool, link: LinkAnswer, rl: Ruling) returns (reply: Reply)
      requires Valid() && sid < |db.sessions| && lastInput == Some(rl.input)
      modifies db`sessions, db`reservations, ledger`rows
      ensures Valid() && (State(), reply) == RetryWith(old(State()), sid, reason, cancel1, cancel2, link, rl)
    {
      var row := db.sessions[sid];
      RecordDecision(sid, rl, now);
      if rl.decision.verdict != ALLOW {
        reply := Abandon(sid, RetryDenied(rl.decision.rule), now, cancel1);
        return;
      }
      CancelLinkQuietly(sid, now, cancel1);
      match link
      case LinkRefused =>
        Record(sid, ProviderError(CreateLinkOp), "payments", now);
        reply := Abandon(sid, ProviderFailed, now, cancel2);
      case LinkMade(_, _, _) =>
        SecondLink(sid, row, reason, now, link, rl.decision.total);
        return Shown(sid);
    }

    method SecondLink(sid: nat, row: Session, reason: Reason, now: int, link: LinkAnswer, total: int)
      requires Valid() && sid < |db.sessions| && link.LinkMade?
      modifies db`sessions, ledger`rows
      ensures Valid() && State() == Relink(old(State()), sid, row, reason, link, total)
    {
      var next := row.attempt + 1;
      Put(sid, row.(attempt := next, linkId := Some(link.linkId), linkExpireAt := Some(link.expireAt), orderId := link.orderId));
      Record(sid, PaymentRetry(next, reason, row.linkId), "reconciler", now);
      Record(sid, LinkCreated(link.linkId, total, next, link.expireAt), "payments", now);
    }

    // ---- cancel ----------------------------------------------------------------------------------

    method Cancel(caller: Option<nat>, sid: nat, now: int, ok: bool, poll: PollAnswer) returns (reply: Reply)
      requires Valid()
      modifies db`sessions, db`reservations, db`payments, ledger`rows
      ensures Valid() && (State(), reply) == Checkout.Cancel(old(State()), caller, sid, now, ok, poll)
    {
      if sid >= |db.sessions| || (caller.Some? && db.sessions[sid].agent != caller.value) {
        return NotFound;
      }
      var actor := if caller.Some? then AgentActor(caller.value) else "merchant";
      reply := CancelRow(sid, if caller.Some? then AgentCancelled else MerchantCancelled, actor, now, ok, poll);
    }

    method CancelRow(sid: nat, reason: Reason, actor: string, now: int, ok: bool, poll: PollAnswer) returns (reply: Reply)
      requires Valid() && sid < |db.sessions|
      modifies db`sessions, db`reservations, db`payments, ledger`rows
      ensures Valid() && (State(), reply) == CancelSession(old(State()), sid, reason, now, ok, poll)
    {
      var row := db.sessions[sid];
      if row.status in {Completed, Canceled} {
        return WrongState;
      }
      if row.status == Pending && Given(row.linkId) {
        if !ok {
          reply := LastPoll(sid, actor, now, poll);
          return;
        }
        Record(sid, LinkCancelled(row.linkId.value), actor, now);
      }
      CancelNow(sid, reason, actor, now);
      return Shown(sid);
    }

    method CancelNow(sid: nat, reason: Reason, actor: string, now: int)
      requires Valid() && sid < |db.sessions|
      modifies db`sessions, db`reservations, ledger`rows
      ensures Valid() && State() == Canceling(old(State()), sid, reason).0
    {
      ReleaseOpen(sid, reason, now);
      Put(sid, db.sessions[sid].(status := Canceled));
      Record(sid, SessionCanceled(reason), actor, now);
    }

    /** The provider would not cancel the link: one final poll, in case the customer has just paid. */
    method LastPoll(sid: nat, actor: string, now: int, poll: PollAnswer) returns (reply: Reply)
      requires Valid() && sid < |db.sessions| && db.sessions[sid].linkId.Some?
      modifies db`sessions, db`reservations, db`payments, ledger`rows
      ensures Valid() && (State(), reply) == LateCapture(old(State()), sid, now, poll)
    {
      var row := db.sessions[sid];
      var captured: Option<Attempt> := None;
      if poll.Polled? {
        captured := NewCapture(sid, poll.attempts);
      } else {
        Record(sid, ProviderError(PollOp), actor, now);
      }
      if captured.Some? {
        RecordPaymentRow(sid, captured.value, row.attempt, now);
        reply := FinishPaid(sid, captured.value, row.attempt, now);
        return;
      }
      Record(sid, LinkCancelFailed(row.linkId.value), actor, now);
      return CancelFailed;
    }

    method NewCapture(sid: nat, attempts: seq<Attempt>) returns (captured: Option<Attempt>)
      ensures captured == FirstCapture(Unseen(db.payments, sid, attempts))
    {
      captured := None;
      for i := 0 to |attempts|
        invariant captured == FirstCapture(Unseen(db.payments, sid, attempts[..i]))
      {
        assert attempts[..i + 1][..i] == attempts[..i];
        ghost var before := Unseen(db.payments, sid, attempts[..i]);
        assert (before + [attempts[i]])[..|before|] == before;
        assert Unseen(db.payments, sid, attempts[..i + 1])
            == before + (if Seen(db.payments, sid, attempts[i].paymentId) then [] else [attempts[i]]);
        assert before + [] == before;
        var seen := PaymentSeen(sid, attempts[i].paymentId);
        if captured.None? && attempts[i].status == CapturedPay && !seen {
          captured := Some(attempts[i]);
        }
      }
      assert attempts[..|attempts|] == attempts;
    }

    // ---- refund ----------------------------------------------------------------------------------

    method FirstCapturedRow(sid: nat) returns (captured: Option<Payment>)
      ensures captured == FirstCaptured(db.payments, sid)
    {
      captured := None;
      for i := 0 to |db.payments|
        invariant captured == FirstCaptured(db.payments[..i], sid)
      {
        assert db.payments[..i + 1][..i] == db.payments[..i];
        if captured.None? && db.payments[i].session == sid && db.payments[i].status == CapturedPay {
          captured := Some(db.payments[i]);
        }
      }
      assert db.payments[..|db.payments|] == db.payments;
    }

    method RefundsOf(sid: nat) returns (total: int, references: seq<string>)
      ensures total == RefundedOf(db.refunds, sid) && references == References(db.refunds, sid)
    {
      total, references := 0, [];
      for i := 0 to |db.refunds|
        invariant total == RefundedOf(db.refunds[..i], sid) && references == References(db.refunds[..i], sid)
      {
        assert db.refunds[..i + 1][..i] == db.refunds[..i];
        if db.refunds[i].session == sid {
          total, references := total + db.refunds[i].amount, references + [db.refunds[i].reference];
        }
      }
      assert db.refunds[..|db.refunds|] == db.refunds;
    }

    method Refund(sid: nat, amount: Amount, reason: Text, reference: Text, now: int, answer: RefundAnswer) returns (reply: Reply)
      requires Valid()
      modifies db`refunds, ledger`rows
      ensures Valid() && (State(), reply) == RefundSession(old(State()), sid, amount, reason, reference, now, answer)
    {
      if sid >= |db.sessions| {
        return NotFound;
      }
      var captured := FirstCapturedRow(sid);
      var refunded, references := RefundsOf(sid);
      var ri := RefundInput(Some(db.sessions[sid].status), if captured.Some? then captured.value.amount else 0, refunded,
                            amount, reason, reference, references,
                            if captured.Some? then Some(captured.value.createdAt) else None, now,
                            Get(db.policy.refundWindow, JInt(30)));
      var d := EvaluateRefund(ri);
      reply := RefundRuled(sid, ri, d, captured, now, answer);
    }

    method RefundRuled(sid: nat, ri: RefundInput, d: RefundDecision, captured: Option<Payment>, now: int, answer: RefundAnswer) returns (reply: Reply)
      requires Valid() && sid < |db.sessions| && captured == FirstCaptured(db.payments, sid)
      modifies db`refunds, ledger`rows
      ensures Valid() && (State(), reply) == RefundWith(old(State()), sid, ri, d, answer)
    {
      Record(sid, RefundDecided(d, ri), "gate", now);
      if d.verdict != ALLOW || !Requested(ri) || captured.None? {
        return RefundDenied(d.rule);
      }
      match answer
      case RefundRefused =>
        Record(sid, ProviderError(RefundOp), "payments", now);
        return ProviderDown;
      case RefundMade(refundId) =>
        var credited := db.sessions[sid].mandate;
        db.refunds := db.refunds + [Records.Refund(sid, credited, captured.value.paymentId, refundId, ri.amount.n, ri.reason.s, ri.reference.s)];
        Record(sid, RefundCreated(refundId, captured.value.paymentId, ri.amount.n, ri.reference.s, credited), "payments", now);
        return Shown(sid);
    }
  }

  lemma {:induction false} FindKeyBound(sessions: seq<Session>, agent: nat, key: Option<string>, i: nat)
    requires i <= |sessions|
    ensures FindKey(sessions, agent, key, i).Some? ==> FindKey(sessions, agent, key, i).value < |sessions|
    decreases |sessions| - i
  {
    if i < |sessions| {
      FindKeyBound(sessions, agent, key, i + 1);
    }
  }
}
