/** The refund gate: five ordered rules, the first failure decides. Same shape as the purchase gate. */
module RefundGate {
  import opened Basics
  import opened Policy
  import opened Gate

  /** Request fields arrive untyped; `Other` is a value of any other type. */
  datatype Amount = Paise(n: int) | OtherAmount
  datatype Text = Str(s: string) | OtherText

  datatype RefundInput = RefundInput(
    status: Option<Status>, captured: int, refunded: int, amount: Amount, reason: Text, reference: Text,
    seenReferences: seq<string>, capturedAt: Option<int>, now: int, window: Json)

  datatype RefundDetail =
    | BadAmount | BadReason | BadReference | RequestOk(amount: int, reference: string)
    | SessionIs(status: Option<Status>, captured: int)
    | Balance(amount: int, remaining: int)
    | SeenReference(reference: string) | FreshReference
    | CaptureTimeUnknown | WindowPassed(days: int) | WithinWindow(days: int) | NoWindow
    | AllRefundChecksPassed(count: nat)

  const REFUND_RULES: nat := 5
  const DAY: int := 86400

  datatype RefundCheck = RefundCheck(rule: nat, ok: bool, detail: RefundDetail)

  /** `rule` is the deciding entry of REFUND_RULE_IDS, or None for ALLOW. */
  datatype RefundDecision = RefundDecision(
    verdict: Verdict, rule: Option<nat>, reason: RefundDetail, checks: seq<RefundCheck>, total: int)

  datatype RefundOutcome = RPass(detail: RefundDetail) | RFail(detail: RefundDetail)

  predicate ShortText(t: Text, limit: nat) { t.Str? && Strip(t.s) != "" && |t.s| <= limit }

  predicate Requested(ri: RefundInput) {
    ri.amount.Paise? && ri.amount.n >= 1 && ShortText(ri.reason, 200) && ShortText(ri.reference, 64)
  }

  function RF00(ri: RefundInput): RefundOutcome {
    if !ri.amount.Paise? || ri.amount.n < 1 then RFail(BadAmount)
    else if !ShortText(ri.reason, 200) then RFail(BadReason)
    else if !ShortText(ri.reference, 64) then RFail(BadReference)
    else RPass(RequestOk(ri.amount.n, ri.reference.s))
  }

  function RF01(ri: RefundInput): RefundOutcome {
    if ri.status != Some(Completed) || ri.captured <= 0 then RFail(SessionIs(ri.status, ri.captured))
    else RPass(SessionIs(ri.status, ri.captured))
  }

  function RF02(ri: RefundInput): RefundOutcome
    requires Requested(ri)
  {
    var remaining := ri.captured - ri.refunded;
    if ri.amount.n > remaining then RFail(Balance(ri.amount.n, remaining)) else RPass(Balance(ri.amount.n, remaining))
  }

  function RF03(ri: RefundInput): RefundOutcome
    requires Requested(ri)
  {
    if ri.reference.s in ri.seenReferences then RFail(SeenReference(ri.reference.s)) else RPass(FreshReference)
  }

  function RF04(ri: RefundInput): RefundOutcome {
    if ri.window.JInt? && ri.window.n > 0 then
      if ri.capturedAt.None? then RFail(CaptureTimeUnknown)
      else if ri.now > ri.capturedAt.value + ri.window.n * DAY then RFail(WindowPassed(ri.window.n))
      else RPass(WithinWindow(ri.window.n))
    else RPass(NoWindow)
  }

  function RefundRule(ri: RefundInput, r: nat): RefundOutcome
    requires r < REFUND_RULES && (r > 0 ==> Requested(ri))
  {
    if r == 0 then RF00(ri) else if r == 1 then RF01(ri) else if r == 2 then RF02(ri) else if r == 3 then RF03(ri)
    else RF04(ri)
  }

  /** Runs rules r.. with the checks of the earlier ones already recorded. */
  function RunFrom(ri: RefundInput, r: nat, checks: seq<RefundCheck>): RefundDecision
    requires r <= REFUND_RULES && (r > 0 ==> Requested(ri))
    decreases REFUND_RULES - r
  {
    var amount := if ri.amount.Paise? then ri.amount.n else 0;
    if r == REFUND_RULES then
      RefundDecision(ALLOW, None, AllRefundChecksPassed(|checks|), checks, amount)
    else
      var o := RefundRule(ri, r);
      if o.RPass? then RunFrom(ri, r + 1, checks + [RefundCheck(r, true, o.detail)])
      else RefundDecision(DENY, Some(r), o.detail, checks + [RefundCheck(r, false, o.detail)],
                          if o.detail == BadAmount then 0 else amount)
  }

  function DecideRefund(ri: RefundInput): RefundDecision { RunFrom(ri, 0, []) }

  /** The evaluation as the code runs it. */
  method EvaluateRefund(ri: RefundInput) returns (d: RefundDecision)
    ensures d == DecideRefund(ri)
  {
    var checks: seq<RefundCheck> := [];
    if !ri.amount.Paise? || ri.amount.n < 1 {
      return RefundDecision(DENY, Some(0), BadAmount, checks + [RefundCheck(0, false, BadAmount)], 0);
    }
    var amount := ri.amount.n;
    if !ShortText(ri.reason, 200) {
      return RefundDecision(DENY, Some(0), BadReason, checks + [RefundCheck(0, false, BadReason)], amount);
    }
    if !ShortText(ri.reference, 64) {
      return RefundDecision(DENY, Some(0), BadReference, checks + [RefundCheck(0, false, BadReference)], amount);
    }
    checks := checks + [RefundCheck(0, true, RequestOk(amount, ri.reference.s))];
    d := EvaluateRequested(ri, checks);
  }

  /** RF01 to RF03, once the request is well formed. */
  method EvaluateRequested(ri: RefundInput, before: seq<RefundCheck>) returns (d: RefundDecision)
    requires Requested(ri)
    ensures d == RunFrom(ri, 1, before)
  {
    var checks := before;
    var amount := ri.amount.n;
    var session := SessionIs(ri.status, ri.captured);
    if ri.status != Some(Completed) || ri.captured <= 0 {
      return RefundDecision(DENY, Some(1), session, checks + [RefundCheck(1, false, session)], amount);
    }
    checks := checks + [RefundCheck(1, true, session)];
    assert RunFrom(ri, 1, before) == RunFrom(ri, 2, checks);
    var balance := Balance(amount, ri.captured - ri.refunded);
    if amount > ri.captured - ri.refunded {
      return RefundDecision(DENY, Some(2), balance, checks + [RefundCheck(2, false, balance)], amount);
    }
    ghost var two := checks;
    checks := checks + [RefundCheck(2, true, balance)];
    assert RunFrom(ri, 2, two) == RunFrom(ri, 3, checks);
    if ri.reference.s in ri.seenReferences {
      var seen := SeenReference(ri.reference.s);
      return RefundDecision(DENY, Some(3), seen, checks + [RefundCheck(3, false, seen)], amount);
    }
    ghost var three := checks;
    checks := checks + [RefundCheck(3, true, FreshReference)];
    assert RunFrom(ri, 3, three) == RunFrom(ri, 4, checks);
    d := EvaluateWindow(ri, checks);
  }

  method EvaluateWindow(ri: RefundInput, before: seq<RefundCheck>) returns (d: RefundDecision)
    requires Requested(ri)
    ensures d == RunFrom(ri, 4, before)
  {
    var checks := before;
    var amount := ri.amount.n;
    var window := NoWindow;
    if ri.window.JInt? && ri.window.n > 0 {
      if ri.capturedAt.None? {
        return RefundDecision(DENY, Some(4), CaptureTimeUnknown, checks + [RefundCheck(4, false, CaptureTimeUnknown)], amount);
      }
      if ri.now > ri.capturedAt.value + ri.window.n * DAY {
        window := WindowPassed(ri.window.n);
        return RefundDecision(DENY, Some(4), window, checks + [RefundCheck(4, false, window)], amount);
      }
      window := WithinWindow(ri.window.n);
    }
    checks := checks + [RefundCheck(4, true, window)];
    return RefundDecision(ALLOW, None, AllRefundChecksPassed(|checks|), checks, amount);
  }

  predicate WindowOpen(ri: RefundInput) {
    ri.window.JInt? && ri.window.n > 0 ==> ri.capturedAt.Some? && ri.now <= ri.capturedAt.value + ri.window.n * DAY
  }

  /** ALLOW for a refund, with no rule order in it. */
  predicate Refundable(ri: RefundInput) {
    && Requested(ri)
    && ri.status == Some(Completed) && ri.captured > 0
    && ri.refunded + ri.amount.n <= ri.captured
    && ri.reference.s !in ri.seenReferences
    && WindowOpen(ri)
  }

  lemma RefundAllowIff(ri: RefundInput)
    ensures DecideRefund(ri).verdict == ALLOW <==> Refundable(ri)
    ensures DecideRefund(ri).verdict != REVIEW
    ensures Refundable(ri) ==> DecideRefund(ri).total == ri.amount.n
  {
    if Requested(ri) {
      var c1 := [RefundCheck(0, true, RF00(ri).detail)];
      assert DecideRefund(ri) == RunFrom(ri, 1, [] + c1);
      if RF01(ri).RPass? {
        var c2 := [] + c1 + [RefundCheck(1, true, RF01(ri).detail)];
        assert RunFrom(ri, 1, [] + c1) == RunFrom(ri, 2, c2);
        if RF02(ri).RPass? {
          var c3 := c2 + [RefundCheck(2, true, RF02(ri).detail)];
          assert RunFrom(ri, 2, c2) == RunFrom(ri, 3, c3);
          if RF03(ri).RPass? {
            var c4 := c3 + [RefundCheck(3, true, RF03(ri).detail)];
            assert RunFrom(ri, 3, c3) == RunFrom(ri, 4, c4);
          }
        }
      }
    }
  }
}
