/** The trail monitor spelled out: what a safe trail says about the events in it, index by index. */
module Trails {
  import opened Basics
  import opened Gate
  import opened Ledger
  import opened Records
  import opened Checkout
  import opened Audit
  import opened Accounts
  import opened Runs
  import opened Safety

  predicate Of(e: Entry<Event>, sid: nat) { e.session == Some(sid) }

  predicate IsLink(e: Entry<Event>, sid: nat) { Of(e, sid) && e.payload.LinkCreated? }

  /** A decision that money depends on: authoritative or retry. */
  predicate IsMoneyDecision(e: Entry<Event>, sid: nat) {
    Of(e, sid) && e.payload.GateDecision? && (e.payload.mode == Authoritative || e.payload.mode == Retry)
  }

  predicate IsMoneyAllow(e: Entry<Event>, sid: nat, total: int) {
    IsMoneyDecision(e, sid) && e.payload.decision.verdict == ALLOW && e.payload.decision.total == total
  }

  predicate NothingBetween(t: Trail, sid: nat, j: nat, i: nat)
    requires i <= |t|
  {
    forall k | j < k < i :: !IsLink(t[k], sid) && !IsMoneyDecision(t[k], sid)
  }

  /** The link at i is backed by an ALLOW at j for the same amount, which is the session's latest money decision, and
      which no other link has used. */
  predicate BackedAt(t: Trail, sid: nat, j: nat, i: nat, amount: int)
    requires j < i <= |t|
  {
    IsMoneyAllow(t[j], sid, amount) && NothingBetween(t, sid, j, i)
  }

  lemma ViewStep(t: Trail, sid: nat, i: nat)
    requires i < |t|
    ensures ViewOf(t[..i + 1], sid) == if Of(t[i], sid) then After(ViewOf(t[..i], sid), t[i].payload) else ViewOf(t[..i], sid)
  {
    assert t[..i + 1][..i] == t[..i];
  }

  lemma {:induction false} AllowedIsOnRecord(t: Trail, sid: nat, i: nat) returns (j: nat)
    requires i <= |t| && ViewOf(t[..i], sid).allowed.Some?
    ensures j < i && BackedAt(t, sid, j, i, ViewOf(t[..i], sid).allowed.value)
  {
    var n := i - 1;
    assert i > 0;
    ViewStep(t, sid, n);
    var a := ViewOf(t[..i], sid).allowed.value;
    if IsMoneyAllow(t[n], sid, a) {
      j := n;
    } else {
      j := AllowedIsOnRecord(t, sid, n);
    }
  }

  lemma {:induction false} SafePrefix(t: Trail, sid: nat, i: nat)
    requires i <= |t| && ViewOf(t, sid).safe
    ensures ViewOf(t[..i], sid).safe
    decreases |t| - i
  {
    if i == |t| {
      assert t[..i] == t;
    } else {
      SafePrefix(t, sid, i + 1);
      ViewStep(t, sid, i);
    }
  }

  lemma {:induction false} HoldIsReserved(t: Trail, sid: nat, i: nat)
    requires i <= |t| && ViewOf(t[..i], sid).hold.Some?
    ensures exists j | 0 <= j < i :: Of(t[j], sid) && t[j].payload.MandateReserved?
                                     && t[j].payload.amount == ViewOf(t[..i], sid).hold.value.amount
  {
    assert i > 0;
    ViewStep(t, sid, i - 1);
    if !(Of(t[i - 1], sid) && t[i - 1].payload.MandateReserved?) {
      HoldIsReserved(t, sid, i - 1);
    }
  }

  lemma RunIsSafe(ws: seq<World>, steps: seq<Step>, k: nat, sid: nat)
    requires IsRun(ws, steps) && k < |ws|
    ensures ViewOf(ws[k].trail, sid).safe && |ViewOf(ws[k].trail, sid).links| <= MAX_ATTEMPTS
  {
    RunFacts(ws, steps, k, sid);
    SafeFacts(FactsOf(ws[k], sid));
  }

  lemma SafeFacts(f: Facts)
    requires FactsOk(f)
    ensures f.view.safe && |f.view.links| <= MAX_ATTEMPTS
  {
  }

  /** In a safe trail the link at i is backed. */
  lemma SafeLinkIsBacked(t: Trail, sid: nat, i: nat)
    requires ViewOf(t, sid).safe && i < |t| && IsLink(t[i], sid)
    ensures var v := ViewOf(t[..i], sid); var link := t[i].payload;
            && (exists j | 0 <= j < i :: BackedAt(t, sid, j, i, link.amount))
            && v.hold.Some?
            && link.attempt == |v.links| + 1 <= MAX_ATTEMPTS
            && (link.attempt == 1 ==> link.amount == v.hold.value.amount)
  {
    SafePrefix(t, sid, i + 1);
    ViewStep(t, sid, i);
    var j := AllowedIsOnRecord(t, sid, i);
  }

  /** Link safety on every run. The session's latest authoritative or retry decision before a payment link is an
      ALLOW for exactly the link's amount, with no other link since, while money is held; links are numbered 1
      then 2; and the first link is for exactly the held amount. */
  lemma EveryLinkIsBacked(ws: seq<World>, steps: seq<Step>, k: nat, sid: nat, i: nat)
    requires IsRun(ws, steps) && k < |ws| && i < |ws[k].trail| && IsLink(ws[k].trail[i], sid)
    ensures var t := ws[k].trail; var v := ViewOf(t[..i], sid); var link := t[i].payload;
            && (exists j | 0 <= j < i :: BackedAt(t, sid, j, i, link.amount))
            && v.hold.Some?
            && link.attempt == |v.links| + 1 <= MAX_ATTEMPTS
            && (link.attempt == 1 ==> link.amount == v.hold.value.amount)
  {
    RunIsSafe(ws, steps, k, sid);
    SafeLinkIsBacked(ws[k].trail, sid, i);
  }

  /** A session never gets a third link. */
  lemma AtMostTwoLinks(ws: seq<World>, steps: seq<Step>, k: nat, sid: nat)
    requires IsRun(ws, steps) && k < |ws|
    ensures |ViewOf(ws[k].trail, sid).links| <= MAX_ATTEMPTS
  {
    RunIsSafe(ws, steps, k, sid);
  }

  predicate IsReview(e: Entry<Event>, sid: nat) { Of(e, sid) && e.payload.ReviewGiven? }

  /** Event j is the session's latest review before i, and approved exactly this total. */
  predicate ApprovedAt(t: Trail, sid: nat, j: nat, i: nat, total: int)
    requires j < i <= |t|
  {
    IsReview(t[j], sid) && t[j].payload.approved && t[j].payload.total == total
    && forall k | j < k < i :: !IsReview(t[k], sid)
  }

  lemma {:induction false} ReviewIsOnRecord(t: Trail, sid: nat, i: nat) returns (j: nat)
    requires i <= |t| && ViewOf(t[..i], sid).review.Some? && ViewOf(t[..i], sid).review.value.approved
    ensures j < i && ApprovedAt(t, sid, j, i, ViewOf(t[..i], sid).review.value.total)
  {
    assert i > 0;
    ViewStep(t, sid, i - 1);
    if IsReview(t[i - 1], sid) {
      j := i - 1;
    } else {
      j := ReviewIsOnRecord(t, sid, i - 1);
    }
  }

  /** An ALLOW above the review threshold in force at the time. */
  predicate IsLargeAllow(e: Entry<Event>, sid: nat) {
    Of(e, sid) && e.payload.GateDecision? && e.payload.decision.verdict == ALLOW
    && Threshold(e.payload.input.policy).Some? && e.payload.decision.total > Threshold(e.payload.input.policy).value
  }

  lemma SafeLargeAllow(t: Trail, sid: nat, i: nat)
    requires ViewOf(t, sid).safe && i < |t| && IsLargeAllow(t[i], sid)
    ensures exists j | 0 <= j < i :: ApprovedAt(t, sid, j, i, t[i].payload.decision.total)
  {
    SafePrefix(t, sid, i + 1);
    ViewStep(t, sid, i);
    var j := ReviewIsOnRecord(t, sid, i);
  }

  /** Review binds the exact total, on every run: an ALLOW above the threshold in force at the time follows an
      approval of exactly that total, and that approval is the session's latest review. */
  lemma ReviewBindsExactTotal(ws: seq<World>, steps: seq<Step>, k: nat, sid: nat, i: nat)
    requires IsRun(ws, steps) && k < |ws| && i < |ws[k].trail| && IsLargeAllow(ws[k].trail[i], sid)
    ensures var t := ws[k].trail;
            exists j | 0 <= j < i :: ApprovedAt(t, sid, j, i, t[i].payload.decision.total)
  {
    RunIsSafe(ws, steps, k, sid);
    SafeLargeAllow(ws[k].trail, sid, i);
  }
}
