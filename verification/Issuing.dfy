/**
 * What a mandate is worth once issued: the terms on file are the ones asked for, they bind every gate run while it is in
 * force, and neither a revoked mandate nor a revoked agent ever pays again.
 */
module Issuing {
  import opened Basics
  import opened Policy
  import opened Gate
  import opened Records
  import opened Books
  import opened Checkout
  import opened Evolution
  import opened Runs
  import opened Safety
  import opened Fairness
  import opened Guarantees
  import opened PlainGate
  import opened Buying
  import opened Orders

  /** Terms that can be issued at all. */
  predicate GoodTerms(perTxn: int, daily: int, total: int, categories: seq<string>, startsAt: int, expiresAt: int) {
    && perTxn >= 0 && daily >= 0 && total >= 0 && startsAt < expiresAt
    && forall i | 0 <= i < |categories| :: Strip(categories[i]) != ""
  }

  /** The row says what was asked for, and is in force. */
  predicate AsAsked(m: Mandate, agent: nat, perTxn: int, daily: int, total: int, categories: seq<string>, startsAt: int, expiresAt: int) {
    && m.agent == agent && m.currency == "INR" && m.perTxnCap == perTxn && m.dailyCap == daily && m.totalCap == total
    && m.startsAt == startsAt && m.expiresAt == expiresAt
    && |m.categories| == |categories| && forall i | 0 <= i < |categories| :: m.categories[i] == Strip(categories[i])
  }

  /** Issuing adds one active row with exactly the terms asked for and revokes the agent's other mandates, whose terms stay
      as they were, and nobody else's; terms that are not good change nothing. */
  lemma IssuedAsAsked(ms: seq<Mandate>, agent: nat, perTxn: int, daily: int, total: int, categories: seq<string>,
                      startsAt: int, expiresAt: int, now: int)
    ensures var ms' := IssueMandate(ms, agent, perTxn, daily, total, categories, startsAt, expiresAt, now);
            if !GoodTerms(perTxn, daily, total, categories, startsAt, expiresAt) then ms' == ms
            else
              && |ms'| == |ms| + 1 && AsAsked(ms'[|ms|], agent, perTxn, daily, total, categories, startsAt, expiresAt)
              && ms'[|ms|].standing == Active && ms'[|ms|].createdAt == now
              && forall i | 0 <= i < |ms| :: ms'[i] == if ms[i].agent == agent then ms[i].(standing := Revoked) else ms[i]
  {
  }

  /** On every run, however much later: the row still says what was asked for, and what is spent on it is within those
      caps. */
  lemma IssuedCapsHold(ws: seq<World>, steps: seq<Step>, j: nat, k: nat, agent: nat, perTxn: int, daily: int, total: int,
                       categories: seq<string>, startsAt: int, expiresAt: int, now: int, day: int)
    requires IsRun(ws, steps) && j < k < |ws| && agent < |ws[j].agents|
    requires steps[j] == IssueMandateStep(agent, perTxn, daily, total, categories, startsAt, expiresAt, now)
    requires GoodTerms(perTxn, daily, total, categories, startsAt, expiresAt)
    ensures var w := ws[k]; var m := |ws[j].mandates|;
            && m < |w.mandates| && AsAsked(w.mandates[m], agent, perTxn, daily, total, categories, startsAt, expiresAt)
            && Sum(Query(m, None, None), w.reservations) - RefundedTo(w.refunds, m) <= total
            && Sum(Query(m, Some(day), None), w.reservations) <= daily
            && forall i | 0 <= i < |w.reservations| && w.reservations[i].mandate == m :: w.reservations[i].amount <= perTxn
  {
    assert Takes(ws[j], steps[j], ws[j + 1]);
    Issued(ws[j], ws[j + 1], steps[j]);
    RunStateEvolves(ws, steps, j + 1, k);
    TermsLast(ws[j + 1], ws[k], |ws[j].mandates|);
    CapsHold(ws, steps, k, |ws[j].mandates|, day);
  }

  lemma Issued(w: World, w': World, step: Step)
    requires Takes(w, step, w') && step.IssueMandateStep? && step.agent < |w.agents|
    requires GoodTerms(step.perTxn, step.daily, step.total, step.categories, step.startsAt, step.expiresAt)
    ensures |w'.mandates| == |w.mandates| + 1
    ensures AsAsked(w'.mandates[|w.mandates|], step.agent, step.perTxn, step.daily, step.total, step.categories,
                    step.startsAt, step.expiresAt)
  {
    IssuedAsAsked(w.mandates, step.agent, step.perTxn, step.daily, step.total, step.categories, step.startsAt, step.expiresAt, step.now);
  }

  lemma TermsLast(w: World, w': World, m: nat)
    requires Evolves(w, w') && m < |w.mandates|
    ensures m < |w'.mandates| && w'.mandates[m] == w.mandates[m].(standing := w'.mandates[m].standing)
  {
    assert MandateEvolves(w.mandates[m], w'.mandates[m]);
  }

  /** A gate run of the agent while the mandate is in force: ALLOW means that it pays, that the cart is in the categories
      asked for, and that its total fits under each of the three caps asked for. */
  lemma IssuedCapsBind(ws: seq<World>, steps: seq<Step>, j: nat, k: nat, agent: nat, perTxn: int, daily: int, total: int,
                       categories: seq<string>, startsAt: int, expiresAt: int, now: int,
                       items: Items, status: Option<Status>, mode: Mode, sid: Option<nat>, excludeSelf: bool, later: int)
    requires IsRun(ws, steps) && j < k < |ws| && agent < |ws[j].agents|
    requires steps[j] == IssueMandateStep(agent, perTxn, daily, total, categories, startsAt, expiresAt, now)
    requires GoodTerms(perTxn, daily, total, categories, startsAt, expiresAt)
    requires |ws[j].mandates| < |ws[k].mandates| && ws[k].mandates[|ws[j].mandates|].standing == Active && startsAt <= later < expiresAt
    requires Judge(ws[k], agent, items, status, mode, sid, excludeSelf, later).decision.verdict == ALLOW
    ensures var w := ws[k]; var m := |ws[j].mandates|; var except := if excludeSelf then sid else None;
            var rl := Judge(w, agent, items, status, mode, sid, excludeSelf, later); var cost := rl.decision.total;
            && rl.mandate == Some(m) && items.ItemList? && cost == Cost(w.catalog, items.xs)
            && cost <= perTxn
            && Sum(Query(m, Some(later / 86400), except), w.reservations) + cost <= daily
            && Sum(Query(m, None, except), w.reservations) - RefundedTo(w.refunds, m) + cost <= total
            && (categories != [] ==> AllIn(w.mandates[m].categories, w.catalog, items.xs))
  {
    IssuedCapsHold(ws, steps, j, k, agent, perTxn, daily, total, categories, startsAt, expiresAt, now, 0);
    var t := RunHasTerms(ws, steps, k);
    RunMandatesSingle(ws, steps, k);
    InForceBinds(ws[k], t, agent, |ws[j].mandates|, items, status, mode, sid, excludeSelf, later);
  }

  lemma RunMandatesSingle(ws: seq<World>, steps: seq<Step>, k: nat)
    requires IsRun(ws, steps) && k < |ws|
    ensures OneActive(ws[k].mandates)
  {
    RunStateInv(ws, steps, k);
  }

  lemma InForceBinds(w: World, t: Terms, agent: nat, m: nat, items: Items, status: Option<Status>, mode: Mode,
                     sid: Option<nat>, excludeSelf: bool, now: int)
    requires OnTerms(w, t) && OneActive(w.mandates) && m < |w.mandates| && Applies(w.mandates[m], agent, now)
    requires Judge(w, agent, items, status, mode, sid, excludeSelf, now).decision.verdict == ALLOW
    ensures var rl := Judge(w, agent, items, status, mode, sid, excludeSelf, now);
            && rl.mandate == Some(m) && items.ItemList? && rl.decision.total == Cost(w.catalog, items.xs)
            && Covers(w, agent, m, items, if excludeSelf then sid else None, now)
  {
    OnlyActive(w.mandates, agent, now, m);
    RunMeans(w, t, agent, items, status, mode, sid, excludeSelf, now);
  }

  /** Once a mandate is revoked no gate run is ever allowed on it again. */
  lemma RevokedMandateNeverPays(ws: seq<World>, steps: seq<Step>, j: nat, k: nat, m: nat, agent: nat, items: Items,
                                status: Option<Status>, mode: Mode, sid: Option<nat>, excludeSelf: bool, later: int)
    requires IsRun(ws, steps) && j < k < |ws| && steps[j] == RevokeMandateStep(m) && m < |ws[j].mandates|
    ensures Judge(ws[k], agent, items, status, mode, sid, excludeSelf, later).mandate != Some(m)
  {
    assert Takes(ws[j], steps[j], ws[j + 1]);
    MandateRevoked(ws[j], ws[j + 1], m);
    RunStateEvolves(ws, steps, j + 1, k);
    assert MandateEvolves(ws[j + 1].mandates[m], ws[k].mandates[m]);
  }

  lemma MandateRevoked(w: World, w': World, m: nat)
    requires Takes(w, RevokeMandateStep(m), w') && m < |w.mandates|
    ensures w' == w.(mandates := w.mandates[m := w.mandates[m].(standing := Revoked)])
  {
  }

  /** Once an agent is revoked no gate run of its sessions is ever allowed again. */
  lemma RevokedAgentNeverBuys(ws: seq<World>, steps: seq<Step>, j: nat, k: nat, agent: nat, items: Items,
                              status: Option<Status>, mode: Mode, sid: Option<nat>, excludeSelf: bool, later: int)
    requires IsRun(ws, steps) && j < k < |ws| && steps[j] == RevokeAgentStep(agent) && agent < |ws[j].agents|
    ensures Judge(ws[k], agent, items, status, mode, sid, excludeSelf, later).decision.verdict == DENY
  {
    assert Takes(ws[j], steps[j], ws[j + 1]);
    AgentRevoked(ws[j], ws[j + 1], agent);
    RunStateEvolves(ws, steps, j + 1, k);
    StaysRevoked(ws[j + 1], ws[k], agent);
    var t := RunHasTerms(ws, steps, k);
    RevokedIsDenied(ws[k], t, agent, items, status, mode, sid, excludeSelf, later);
  }

  lemma StaysRevoked(w: World, w': World, agent: nat)
    requires Evolves(w, w') && agent < |w.agents| && w.agents[agent] == Revoked
    ensures agent < |w'.agents| && w'.agents[agent] == Revoked
  {
  }

  lemma RevokedIsDenied(w: World, t: Terms, agent: nat, items: Items, status: Option<Status>, mode: Mode, sid: Option<nat>,
                        excludeSelf: bool, now: int)
    requires OnTerms(w, t) && agent < |w.agents| && w.agents[agent] == Revoked
    ensures Judge(w, agent, items, status, mode, sid, excludeSelf, now).decision.verdict == DENY
  {
    RunMeans(w, t, agent, items, status, mode, sid, excludeSelf, now);
  }

  lemma AgentRevoked(w: World, w': World, agent: nat)
    requires Takes(w, RevokeAgentStep(agent), w') && agent < |w.agents|
    ensures w' == w.(agents := w.agents[agent := Revoked])
  {
  }
}
