/**
 * When a refund is paid and what it leaves on file, said about the request, the stored policy and the tables: the five
 * rules in words, and the outcome of the call in every case.
 */
module Refunding {
  import opened Basics
  import opened Policy
  import opened Gate
  import opened RefundGate
  import opened Ledger
  import opened Records
  import opened Books
  import opened Checkout
  import opened Runs
  import opened Safety
  import opened PlainGate
  import opened Orders

  /** Text of 1 to `limit` characters that is not blank. */
  predicate Written(text: Text, limit: nat) { text.Str? && Strip(text.s) != "" && |text.s| <= limit }

  /** The session's first captured payment is number c, or there is none. */
  predicate FirstCaptureAt(ps: seq<Payment>, sid: nat, c: Option<nat>) {
    match c
    case None => forall i | 0 <= i < |ps| :: !(ps[i].session == sid && ps[i].status == CapturedPay)
    case Some(n) =>
      && n < |ps| && ps[n].session == sid && ps[n].status == CapturedPay
      && forall i | 0 <= i < n :: !(ps[i].session == sid && ps[i].status == CapturedPay)
  }

  /** Rule k of the five, about the tables. */
  predicate Permits(w: World, t: Terms, sid: nat, c: Option<nat>, amount: Amount, reason: Text, reference: Text, now: int, k: nat)
    requires sid < |w.sessions| && FirstCaptureAt(w.payments, sid, c)
  {
    var captured := if c.Some? then w.payments[c.value].amount else 0;
    if k == 0 then amount.Paise? && amount.n >= 1 && Written(reason, 200) && Written(reference, 64)
    else if k == 1 then w.sessions[sid].status == Completed && captured > 0
    else if k == 2 then amount.Paise? && amount.n <= captured - RefundedOf(w.refunds, sid)
    else if k == 3 then
      reference.Str? && forall i | 0 <= i < |w.refunds| && w.refunds[i].session == sid :: w.refunds[i].reference != reference.s
    else t.refundDays > 0 ==> c.Some? && now <= w.payments[c.value].createdAt + t.refundDays * 86400
  }

  // ---- what the request reads --------------------------------------------------------------------

  lemma {:induction false} FirstCapturedIsFirst(ps: seq<Payment>, sid: nat, c: Option<nat>)
    requires FirstCaptureAt(ps, sid, c)
    ensures FirstCaptured(ps, sid) == if c.Some? then Some(ps[c.value]) else None
  {
    if ps != [] {
      var n := |ps| - 1;
      if c.Some? && c.value == n {
        FirstCapturedIsFirst(ps[..n], sid, None);
      } else {
        FirstCapturedIsFirst(ps[..n], sid, c);
      }
    }
  }

  lemma {:induction false} ReferencesAreAll(fs: seq<Refund>, sid: nat, s: string)
    ensures s in References(fs, sid) <==> exists i | 0 <= i < |fs| :: fs[i].session == sid && fs[i].reference == s
  {
    if fs != [] {
      var n := |fs| - 1;
      ReferencesAreAll(fs[..n], sid, s);
      if exists i | 0 <= i < n :: fs[..n][i].session == sid && fs[..n][i].reference == s {
        var i :| 0 <= i < n && fs[..n][i].session == sid && fs[..n][i].reference == s;
        assert fs[i].session == sid;
      }
      if exists i | 0 <= i < |fs| :: fs[i].session == sid && fs[i].reference == s {
        var i :| 0 <= i < |fs| && fs[i].session == sid && fs[i].reference == s;
        if i < n {
          assert fs[..n][i].session == sid;
        }
      }
    }
  }

  /** The first rule that does not hold decides; if all five hold the refund is allowed. */
  lemma RefundDecision(w: World, t: Terms, sid: nat, c: Option<nat>, amount: Amount, reason: Text, reference: Text, now: int, k: nat)
    requires sid < |w.sessions| && FirstCaptureAt(w.payments, sid, c) && Says(w.policy, t) && k <= 5
    requires forall j: nat | j < k :: Permits(w, t, sid, c, amount, reason, reference, now, j)
    requires k < 5 ==> !Permits(w, t, sid, c, amount, reason, reference, now, k)
    ensures var d := DecideRefund(RefundRequest(w, sid, amount, reason, reference, now));
            && d.verdict == (if k == 5 then ALLOW else DENY) && d.rule == (if k == 5 then None else Some(k))
            && (k == 5 ==> d.total == amount.n)
  {
    FirstCapturedIsFirst(w.payments, sid, c);
    if reference.Str? {
      ReferencesAreAll(w.refunds, sid, reference.s);
    }
    var ri := RefundRequest(w, sid, amount, reason, reference, now);
    assert forall j: nat | j < 5 && (0 < j ==> Requested(ri)) ::
      RefundRule(ri, j).RPass? <==> Permits(w, t, sid, c, amount, reason, reference, now, j);
    if k > 0 {
      assert Permits(w, t, sid, c, amount, reason, reference, now, 0);
    }
    RunStops(ri, 0, k, []);
  }

  lemma {:induction false} RunStops(ri: RefundInput, r: nat, k: nat, checks: seq<RefundCheck>)
    requires r <= k <= REFUND_RULES && (k > 0 ==> Requested(ri)) && (r > 0 ==> Requested(ri))
    requires forall j: nat | r <= j < k :: RefundRule(ri, j).RPass?
    requires k < REFUND_RULES ==> RefundRule(ri, k).RFail?
    ensures var d := RunFrom(ri, r, checks);
            && d.verdict == (if k == REFUND_RULES then ALLOW else DENY)
            && d.rule == (if k == REFUND_RULES then None else Some(k)) && (k == REFUND_RULES ==> d.total == ri.amount.n)
    decreases k - r
  {
    if r < k {
      RunStops(ri, r + 1, k, checks + [RefundCheck(r, true, RefundRule(ri, r).detail)]);
    }
  }

  // ---- the call ----------------------------------------------------------------------------------

  predicate PermitsAll(w: World, t: Terms, sid: nat, c: Option<nat>, amount: Amount, reason: Text, reference: Text, now: int)
    requires sid < |w.sessions| && FirstCaptureAt(w.payments, sid, c)
  {
    forall k | 0 <= k < 5 :: Permits(w, t, sid, c, amount, reason, reference, now, k)
  }

  /** The trail gains the decision on the request and then these events. */
  predicate GainsRefundDecision(a: Trail, b: Trail, sid: nat, verdict: Verdict, after: seq<Event>) {
    && |b| == |a| + 1 + |after| && b[..|a|] == a && b[|a| + 1..] == Stamped(sid, after)
    && b[|a|].session == Some(sid) && b[|a|].payload.RefundDecided? && b[|a|].payload.refund.verdict == verdict
  }

  /** A refund is paid exactly if the five rules hold and the provider pays it; then one row is filed, for the requested
      amount, against the first captured payment, under the session's mandate. Otherwise no table changes. */
  lemma RefundOutcome(w: World, t: Terms, sid: nat, c: Option<nat>, amount: Amount, reason: Text, reference: Text, now: int,
                      answer: RefundAnswer)
    requires sid < |w.sessions| && FirstCaptureAt(w.payments, sid, c) && Says(w.policy, t)
    ensures var (w', reply) := RefundSession(w, sid, amount, reason, reference, now, answer);
            var may := PermitsAll(w, t, sid, c, amount, reason, reference, now);
            if !may then
              && w' == w.(trail := w'.trail) && GainsRefundDecision(w.trail, w'.trail, sid, DENY, [])
              && reply.RefundDenied? && reply.refundRule.Some? && reply.refundRule.value < 5
              && !Permits(w, t, sid, c, amount, reason, reference, now, reply.refundRule.value)
              && forall j: nat | j < reply.refundRule.value :: Permits(w, t, sid, c, amount, reason, reference, now, j)
            else
              && amount.Paise? && reason.Str? && reference.Str? && c.Some?
              && match answer
                 case RefundRefused =>
                   && w' == w.(trail := w'.trail) && reply == ProviderDown
                   && GainsRefundDecision(w.trail, w'.trail, sid, ALLOW, [ProviderError(RefundOp)])
                 case RefundMade(id) =>
                   var row := Refund(sid, w.sessions[sid].mandate, w.payments[c.value].paymentId, id, amount.n, reason.s, reference.s);
                   && w' == w.(refunds := w.refunds + [row], trail := w'.trail) && reply == Shown(sid)
                   && GainsRefundDecision(w.trail, w'.trail, sid, ALLOW,
                                          [RefundCreated(id, row.paymentId, row.amount, row.reference, row.mandate)])
  {
    var k := FirstRefused(w, t, sid, c, amount, reason, reference, now, 5);
    RefundDecision(w, t, sid, c, amount, reason, reference, now, k);
    FirstCapturedIsFirst(w.payments, sid, c);
    var ri := RefundRequest(w, sid, amount, reason, reference, now);
    if k == 5 {
      assert Permits(w, t, sid, c, amount, reason, reference, now, 0) && Permits(w, t, sid, c, amount, reason, reference, now, 1);
      assert Requested(ri);
      PaidRefund(w, sid, ri, DecideRefund(ri), answer);
    } else {
      assert !PermitsAll(w, t, sid, c, amount, reason, reference, now);
      DeniedRefund(w, sid, ri, DecideRefund(ri), answer);
    }
  }

  lemma {:induction false} FirstRefused(w: World, t: Terms, sid: nat, c: Option<nat>, amount: Amount, reason: Text, reference: Text,
                                        now: int, n: nat) returns (k: nat)
    requires sid < |w.sessions| && FirstCaptureAt(w.payments, sid, c)
    ensures k <= n && (forall j: nat | j < k :: Permits(w, t, sid, c, amount, reason, reference, now, j))
    ensures k < n ==> !Permits(w, t, sid, c, amount, reason, reference, now, k)
  {
    if n == 0 {
      k := 0;
    } else {
      k := FirstRefused(w, t, sid, c, amount, reason, reference, now, n - 1);
      if k == n - 1 && Permits(w, t, sid, c, amount, reason, reference, now, k) {
        k := n;
      }
    }
  }

  lemma DeniedRefund(w: World, sid: nat, ri: RefundInput, d: RefundDecision, answer: RefundAnswer)
    requires sid < |w.sessions| && d.verdict == DENY
    ensures var (w', reply) := RefundWith(w, sid, ri, d, answer);
            w' == w.(trail := w'.trail) && GainsRefundDecision(w.trail, w'.trail, sid, DENY, []) && reply == RefundDenied(d.rule)
  {
    assert Stamped(sid, []) == [];
  }

  lemma PaidRefund(w: World, sid: nat, ri: RefundInput, d: RefundDecision, answer: RefundAnswer)
    requires sid < |w.sessions| && d.verdict == ALLOW && Requested(ri) && FirstCaptured(w.payments, sid).Some?
    ensures var (w', reply) := RefundWith(w, sid, ri, d, answer); var paid := FirstCaptured(w.payments, sid).value;
            match answer
            case RefundRefused =>
              && w' == w.(trail := w'.trail) && reply == ProviderDown
              && GainsRefundDecision(w.trail, w'.trail, sid, ALLOW, [ProviderError(RefundOp)])
            case RefundMade(id) =>
              var row := Refund(sid, w.sessions[sid].mandate, paid.paymentId, id, ri.amount.n, ri.reason.s, ri.reference.s);
              && w' == w.(refunds := w.refunds + [row], trail := w'.trail) && reply == Shown(sid)
              && GainsRefundDecision(w.trail, w'.trail, sid, ALLOW,
                                     [RefundCreated(id, row.paymentId, row.amount, row.reference, row.mandate)])
  {
    One(sid, ProviderError(RefundOp));
    if answer.RefundMade? {
      One(sid, RefundCreated(answer.refundId, FirstCaptured(w.payments, sid).value.paymentId, ri.amount.n, ri.reference.s,
                             w.sessions[sid].mandate));
    }
  }

  lemma One(sid: nat, e: Event)
    ensures Stamped(sid, [e]) == [Entry(Some(sid), e)]
  {
  }

  /** There always is such a c. */
  lemma SomeFirstCapture(ps: seq<Payment>, sid: nat) returns (c: Option<nat>)
    ensures FirstCaptureAt(ps, sid, c)
  {
    if ps == [] {
      c := None;
    } else {
      var n := |ps| - 1;
      c := SomeFirstCapture(ps[..n], sid);
      if c.None? && ps[n].session == sid && ps[n].status == CapturedPay {
        c := Some(n);
      }
    }
  }

  /** On every run: a refund that is filed comes no later than the stored number of days after the session's first
      captured payment, unless the merchant set no window. */
  lemma RefundsInTime(ws: seq<World>, steps: seq<Step>, k: nat, c: nat)
    requires IsRun(ws, steps) && k < |steps| && steps[k].RefundStep? && |ws[k + 1].refunds| > |ws[k].refunds|
    requires FirstCaptureAt(ws[k].payments, steps[k].sid, Some(c))
    ensures ws[k].policy.refundWindow.Some? && ws[k].policy.refundWindow.value.JInt?
    ensures var days := ws[k].policy.refundWindow.value.n;
            days == 0 || steps[k].now <= ws[k].payments[c].createdAt + days * 86400
  {
    var t := RunHasTerms(ws, steps, k);
    StoredWindow(ws, steps, k);
    assert Takes(ws[k], steps[k], ws[k + 1]);
    RefundInTime(ws[k], ws[k + 1], t, steps[k], c);
  }

  lemma StoredWindow(ws: seq<World>, steps: seq<Step>, k: nat)
    requires IsRun(ws, steps) && k < |ws|
    ensures ws[k].policy.refundWindow.Some? && ws[k].policy.refundWindow.value.JInt? && ws[k].policy.refundWindow.value.n >= 0
  {
    RunStateInv(ws, steps, k);
  }

  lemma RefundInTime(w: World, w': World, t: Terms, step: Step, c: nat)
    requires Takes(w, step, w') && step.RefundStep? && |w'.refunds| > |w.refunds| && Says(w.policy, t)
    requires FirstCaptureAt(w.payments, step.sid, Some(c))
    ensures t.refundDays <= 0 || step.now <= w.payments[c].createdAt + t.refundDays * 86400
  {
    FiledInTime(w, t, step.sid, c, step.amount, step.reason, step.reference, step.now, step.answer);
  }

  lemma FiledInTime(w: World, t: Terms, sid: nat, c: nat, amount: Amount, reason: Text, reference: Text, now: int, answer: RefundAnswer)
    requires Says(w.policy, t) && FirstCaptureAt(w.payments, sid, Some(c))
    requires |RefundSession(w, sid, amount, reason, reference, now, answer).0.refunds| > |w.refunds|
    ensures t.refundDays <= 0 || now <= w.payments[c].createdAt + t.refundDays * 86400
  {
    RefundOutcome(w, t, sid, Some(c), amount, reason, reference, now, answer);
    assert Permits(w, t, sid, Some(c), amount, reason, reference, now, 4);
  }
}
