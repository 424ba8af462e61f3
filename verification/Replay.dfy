/** Offline replay: re-run both gates on the recorded inputs and compare with the recorded decisions. */
module Replay {
  import opened Basics
  import opened Gate
  import opened RefundGate
  import opened Records
  import opened Evolution
  import opened Runs
  import opened Guarantees

  /** What an auditor reads in one event. The input of a decision may be missing from an old ledger. */
  datatype Logged =
    | Purchase(request: Option<GateInput>, decision: Decision)
    | Return(claim: Option<RefundInput>, refund: RefundDecision)
    | NoDecision

  datatype Field = VerdictField | RuleField | ReasonField | ChecksField | TotalField

  /** The compared parts of a decision, in the order they are compared. */
  const COMPARED: seq<Field> := [VerdictField, RuleField, ReasonField, ChecksField, TotalField]

  datatype Divergence = Divergence(seqNo: nat, field: Field)

  datatype Report = Report(decisions: nat, identical: nat, skipped: nat, divergences: seq<Divergence>)

  // ---- comparing ---------------------------------------------------------------------------------

  predicate DecisionDiffers(a: Decision, b: Decision, f: Field) {
    match f
    case VerdictField => a.verdict != b.verdict
    case RuleField => a.rule != b.rule
    case ReasonField => a.reason != b.reason
    case ChecksField => a.checks != b.checks
    case TotalField => a.total != b.total
  }

  predicate RefundDiffers(a: RefundDecision, b: RefundDecision, f: Field) {
    match f
    case VerdictField => a.verdict != b.verdict
    case RuleField => a.rule != b.rule
    case ReasonField => a.reason != b.reason
    case ChecksField => a.checks != b.checks
    case TotalField => a.total != b.total
  }

  predicate HasInput(l: Logged) { (l.Purchase? && l.request.Some?) || (l.Return? && l.claim.Some?) }

  predicate IsDecision(l: Logged) { !l.NoDecision? }

  /** Re-running the gate on the recorded input gives something else in this part of the decision. */
  predicate Diverges(l: Logged, f: Field)
    requires HasInput(l)
  {
    if l.Purchase? then DecisionDiffers(Decide(l.request.value), l.decision, f)
    else RefundDiffers(DecideRefund(l.claim.value), l.refund, f)
  }

  /** The first compared part, from the i-th on, in which two decisions differ. */
  function FirstDifference(a: Decision, b: Decision, i: nat): Option<Field>
    requires i <= |COMPARED|
    decreases |COMPARED| - i
  {
    if i == |COMPARED| then None
    else if DecisionDiffers(a, b, COMPARED[i]) then Some(COMPARED[i])
    else FirstDifference(a, b, i + 1)
  }

  function FirstRefundDifference(a: RefundDecision, b: RefundDecision, i: nat): Option<Field>
    requires i <= |COMPARED|
    decreases |COMPARED| - i
  {
    if i == |COMPARED| then None
    else if RefundDiffers(a, b, COMPARED[i]) then Some(COMPARED[i])
    else FirstRefundDifference(a, b, i + 1)
  }

  function FirstDivergence(l: Logged): Option<Field>
    requires HasInput(l)
  {
    if l.Purchase? then FirstDifference(Decide(l.request.value), l.decision, 0)
    else FirstRefundDifference(DecideRefund(l.claim.value), l.refund, 0)
  }

  /** What the replay finds at one event. */
  datatype Found = Irrelevant | WithoutInput | Same | Differs(field: Field)

  function Examine(l: Logged): Found {
    if !IsDecision(l) then Irrelevant
    else if !HasInput(l) then WithoutInput
    else if FirstDivergence(l).None? then Same
    else Differs(FirstDivergence(l).value)
  }

  function Findings(ls: seq<Logged>): (fs: seq<Found>)
    ensures |fs| == |ls| && forall i | 0 <= i < |ls| :: fs[i] == Examine(ls[i])
  {
    if ls == [] then [] else Findings(ls[..|ls| - 1]) + [Examine(ls[|ls| - 1])]
  }

  /** The report as counts and a list of divergences over the findings. */
  function ReportOf(fs: seq<Found>): Report {
    if fs == [] then Report(0, 0, 0, [])
    else
      var r := ReportOf(fs[..|fs| - 1]);
      match fs[|fs| - 1]
      case Irrelevant => r
      case WithoutInput => r.(skipped := r.skipped + 1)
      case Same => r.(decisions := r.decisions + 1, identical := r.identical + 1)
      case Differs(f) => r.(decisions := r.decisions + 1, divergences := r.divergences + [Divergence(|fs|, f)])
  }

  // ---- the replay itself -------------------------------------------------------------------------

  method Compare(l: Logged) returns (bad: Option<Field>)
    requires HasInput(l)
    ensures bad == FirstDivergence(l)
  {
    if l.Purchase? {
      var again := Evaluate(l.request.value);
      bad := CompareDecisions(again, l.decision);
    } else {
      var again := EvaluateRefund(l.claim.value);
      bad := CompareRefunds(again, l.refund);
    }
  }

  method CompareDecisions(again: Decision, recorded: Decision) returns (bad: Option<Field>)
    ensures bad == FirstDifference(again, recorded, 0)
  {
    for i := 0 to |COMPARED|
      invariant FirstDifference(again, recorded, 0) == FirstDifference(again, recorded, i)
    {
      if DecisionDiffers(again, recorded, COMPARED[i]) {
        return Some(COMPARED[i]);
      }
    }
    return None;
  }

  method CompareRefunds(again: RefundDecision, recorded: RefundDecision) returns (bad: Option<Field>)
    ensures bad == FirstRefundDifference(again, recorded, 0)
  {
    for i := 0 to |COMPARED|
      invariant FirstRefundDifference(again, recorded, 0) == FirstRefundDifference(again, recorded, i)
    {
      if RefundDiffers(again, recorded, COMPARED[i]) {
        return Some(COMPARED[i]);
      }
    }
    return None;
  }

  method ExamineEvent(l: Logged) returns (f: Found)
    ensures f == Examine(l)
  {
    if !l.Purchase? && !l.Return? {
      return Irrelevant;
    }
    if !HasInput(l) {
      return WithoutInput;
    }
    var bad := Compare(l);
    return if bad.Some? then Differs(bad.value) else Same;
  }

  method Replay(events: seq<Logged>) returns (report: Report)
    ensures report == ReportOf(Findings(events))
  {
    var decisions, identical, skipped := 0, 0, 0;
    var divergences: seq<Divergence> := [];
    ghost var findings := Findings(events);
    for i := 0 to |events|
      invariant ReportOf(findings[..i]) == Report(decisions, identical, skipped, divergences)
    {
      assert findings[..i + 1][..i] == findings[..i];
      var found := ExamineEvent(events[i]);
      if found.Irrelevant? {
        continue;
      }
      if found.WithoutInput? {
        skipped := skipped + 1;
        continue;
      }
      decisions := decisions + 1;
      if found.Differs? {
        divergences := divergences + [Divergence(i + 1, found.field)];
      } else {
        identical := identical + 1;
      }
    }
    assert findings[..|events|] == findings;
    return Report(decisions, identical, skipped, divergences);
  }

  // ---- what a report means -----------------------------------------------------------------------

  /** No difference means equal in every compared part; a difference named is a difference. */
  lemma FirstDifferenceExact(a: Decision, b: Decision)
    ensures FirstDifference(a, b, 0).None? <==> b.(lines := a.lines) == a
    ensures FirstDifference(a, b, 0).Some? ==> DecisionDiffers(a, b, FirstDifference(a, b, 0).value)
    ensures FirstDifference(a, b, 0) ==
              if a.verdict != b.verdict then Some(VerdictField) else if a.rule != b.rule then Some(RuleField)
              else if a.reason != b.reason then Some(ReasonField) else if a.checks != b.checks then Some(ChecksField)
              else if a.total != b.total then Some(TotalField) else None
  {
    assert FirstDifference(a, b, 5).None?;
    assert FirstDifference(a, b, 4) == if a.total != b.total then Some(TotalField) else None;
    assert FirstDifference(a, b, 3) == if a.checks != b.checks then Some(ChecksField) else FirstDifference(a, b, 4);
    assert FirstDifference(a, b, 2) == if a.reason != b.reason then Some(ReasonField) else FirstDifference(a, b, 3);
  }

  lemma FirstRefundDifferenceExact(a: RefundDecision, b: RefundDecision)
    ensures FirstRefundDifference(a, b, 0).None? <==> b == a
    ensures FirstRefundDifference(a, b, 0).Some? ==> RefundDiffers(a, b, FirstRefundDifference(a, b, 0).value)
    ensures FirstRefundDifference(a, b, 0) ==
              if a.verdict != b.verdict then Some(VerdictField) else if a.rule != b.rule then Some(RuleField)
              else if a.reason != b.reason then Some(ReasonField) else if a.checks != b.checks then Some(ChecksField)
              else if a.total != b.total then Some(TotalField) else None
  {
    assert FirstRefundDifference(a, b, 5).None?;
    assert FirstRefundDifference(a, b, 4) == if a.total != b.total then Some(TotalField) else None;
    assert FirstRefundDifference(a, b, 3) == if a.checks != b.checks then Some(ChecksField) else FirstRefundDifference(a, b, 4);
    assert FirstRefundDifference(a, b, 2) == if a.reason != b.reason then Some(ReasonField) else FirstRefundDifference(a, b, 3);
  }

  /** Nothing that is compared differs. The priced lines are not compared. */
  predicate Agrees(l: Logged)
    requires HasInput(l)
  {
    if l.Purchase? then
      var d := Decide(l.request.value);
      l.decision.(lines := d.lines) == d
    else l.refund == DecideRefund(l.claim.value)
  }

  /** What an examination means: it differs in a part that really diverges, exactly when the gate does not agree. */
  lemma ExamineMeans(l: Logged)
    ensures Examine(l).Differs? <==> HasInput(l) && !Agrees(l)
    ensures Examine(l).Differs? ==> Diverges(l, Examine(l).field)
  {
    if HasInput(l) {
      if l.Purchase? {
        FirstDifferenceExact(Decide(l.request.value), l.decision);
      } else {
        FirstRefundDifferenceExact(DecideRefund(l.claim.value), l.refund);
      }
    }
  }

  predicate InRange(ds: seq<Divergence>, n: nat) { forall k | 0 <= k < |ds| :: 1 <= ds[k].seqNo <= n }

  lemma {:induction false} DivergencesInRange(fs: seq<Found>)
    ensures InRange(ReportOf(fs).divergences, |fs|)
  {
    if fs != [] {
      DivergencesInRange(fs[..|fs| - 1]);
    }
  }

  /** The list names event i exactly when it differs there, and in the part that differs. */
  predicate NamesExactly(fs: seq<Found>, ds: seq<Divergence>, i: nat)
    requires i < |fs|
  {
    && ((exists k | 0 <= k < |ds| :: ds[k].seqNo == i + 1) <==> fs[i].Differs?)
    && (forall k | 0 <= k < |ds| && ds[k].seqNo == i + 1 :: fs[i].Differs? && ds[k].field == fs[i].field)
  }

  lemma {:induction false} ReportNamesExactly(fs: seq<Found>, i: nat)
    requires i < |fs|
    ensures NamesExactly(fs, ReportOf(fs).divergences, i)
  {
    var n := |fs| - 1;
    var before, ds := ReportOf(fs[..n]).divergences, ReportOf(fs).divergences;
    DivergencesInRange(fs[..n]);
    assert InRange(before, n);
    if i < n {
      ReportNamesExactly(fs[..n], i);
      if exists k | 0 <= k < |before| :: before[k].seqNo == i + 1 {
        var k :| 0 <= k < |before| && before[k].seqNo == i + 1;
        assert ds[k].seqNo == i + 1;
      }
    } else if fs[n].Differs? {
      assert ds[|before|].seqNo == n + 1;
    }
  }

  predicate Replayed(f: Found) { f.Same? || f.Differs? }

  function CountIf(fs: seq<Found>, p: Found -> bool): nat {
    if fs == [] then 0 else CountIf(fs[..|fs| - 1], p) + (if p(fs[|fs| - 1]) then 1 else 0)
  }

  /** Every decision is counted once: replayed (identical or divergent) or skipped. */
  lemma {:induction false} ReportCountsEveryDecision(fs: seq<Found>)
    ensures var r := ReportOf(fs);
            && r.decisions == CountIf(fs, Replayed) && r.decisions + r.skipped == CountIf(fs, (f: Found) => !f.Irrelevant?)
            && r.identical + |r.divergences| == r.decisions
  {
    if fs != [] {
      ReportCountsEveryDecision(fs[..|fs| - 1]);
    }
  }

  // ---- replaying a run ---------------------------------------------------------------------------

  function LoggedOf(e: Event): Logged {
    match e
    case GateDecision(_, d, input) => Purchase(Some(input), d)
    case RefundDecided(d, request) => Return(Some(request), d)
    case _ => NoDecision
  }

  function LoggedTrail(t: Trail): (ls: seq<Logged>)
    ensures |ls| == |t| && forall i | 0 <= i < |t| :: ls[i] == LoggedOf(t[i].payload)
  {
    if t == [] then [] else LoggedTrail(t[..|t| - 1]) + [LoggedOf(t[|t| - 1].payload)]
  }

  lemma FaithfulAgrees(e: Event)
    requires Faithful(e)
    ensures Examine(LoggedOf(e)).Irrelevant? || Examine(LoggedOf(e)).Same?
  {
    ExamineMeans(LoggedOf(e));
  }

  lemma {:induction false} CleanReport(fs: seq<Found>)
    requires forall i | 0 <= i < |fs| :: fs[i].Irrelevant? || fs[i].Same?
    ensures var r := ReportOf(fs); r.divergences == [] && r.skipped == 0 && r.identical == r.decisions
  {
    if fs != [] {
      CleanReport(fs[..|fs| - 1]);
    }
  }

  /** Whatever the run, replaying its trail re-derives every purchase and refund decision: no divergence, nothing skipped. */
  lemma EveryRunReplays(ws: seq<World>, steps: seq<Step>, k: nat)
    requires IsRun(ws, steps) && k < |ws|
    ensures var fs := Findings(LoggedTrail(ws[k].trail)); var r := ReportOf(fs);
            r.divergences == [] && r.skipped == 0 && r.identical == CountIf(fs, (f: Found) => !f.Irrelevant?)
  {
    DecisionsReplay(ws, steps, k);
    var t := ws[k].trail;
    var fs := Findings(LoggedTrail(t));
    forall i | 0 <= i < |fs| ensures fs[i].Irrelevant? || fs[i].Same? {
      assert fs[i] == Examine(LoggedOf(t[i].payload)) && Faithful(t[i].payload);
      FaithfulAgrees(t[i].payload);
    }
    CleanReport(fs);
    ReportCountsEveryDecision(fs);
  }

  /** A forged decision does not survive: put any decision that differs in a compared part into any event of any run
      and the replay reports exactly that event. */
  lemma ForgeryFound(ws: seq<World>, steps: seq<Step>, k: nat, i: nat, forged: Decision)
    requires IsRun(ws, steps) && k < |ws| && i < |ws[k].trail| && ws[k].trail[i].payload.GateDecision?
    requires var recorded := ws[k].trail[i].payload.decision; forged.(lines := recorded.lines) != recorded
    ensures var t := ws[k].trail; var e := t[i].payload;
            var ls := LoggedTrail(t[i := t[i].(payload := GateDecision(e.mode, forged, e.input))]);
            var ds := ReportOf(Findings(ls)).divergences;
            ds != [] && forall n | 0 <= n < |ds| :: ds[n].seqNo == i + 1
  {
    DecisionsReplay(ws, steps, k);
    ForgedTrail(ws[k].trail, i, forged);
  }

  lemma ForgedTrail(t: Trail, i: nat, forged: Decision)
    requires AllFaithful(t) && i < |t| && t[i].payload.GateDecision?
    requires var recorded := t[i].payload.decision; forged.(lines := recorded.lines) != recorded
    ensures var e := t[i].payload; var ls := LoggedTrail(t[i := t[i].(payload := GateDecision(e.mode, forged, e.input))]);
            var ds := ReportOf(Findings(ls)).divergences;
            ds != [] && forall k | 0 <= k < |ds| :: ds[k].seqNo == i + 1
  {
    var e := t[i].payload;
    var ls := LoggedTrail(t[i := t[i].(payload := GateDecision(e.mode, forged, e.input))]);
    var fs := Findings(ls);
    forall j | 0 <= j < |fs| && j != i ensures !fs[j].Differs? {
      assert fs[j] == Examine(LoggedOf(t[j].payload)) && Faithful(t[j].payload);
      FaithfulAgrees(t[j].payload);
    }
    assert Faithful(e) && fs[i] == Examine(Purchase(Some(e.input), forged));
    ForgedDiffers(e.input, forged);
    OnlyOneDivergence(fs, i);
  }

  lemma ForgedDiffers(input: GateInput, forged: Decision)
    requires var d := Decide(input); forged.(lines := d.lines) != d
    ensures Examine(Purchase(Some(input), forged)).Differs?
  {
    ExamineMeans(Purchase(Some(input), forged));
  }

  lemma OnlyOneDivergence(fs: seq<Found>, i: nat)
    requires i < |fs| && fs[i].Differs? && forall j | 0 <= j < |fs| && j != i :: !fs[j].Differs?
    ensures var ds := ReportOf(fs).divergences; ds != [] && forall k | 0 <= k < |ds| :: ds[k].seqNo == i + 1
  {
    var ds := ReportOf(fs).divergences;
    DivergencesInRange(fs);
    ReportNamesExactly(fs, i);
    forall k | 0 <= k < |ds| ensures ds[k].seqNo == i + 1 {
      ReportNamesExactly(fs, ds[k].seqNo - 1);
    }
  }
}
