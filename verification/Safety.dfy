/** Every step keeps the invariant, so every run does; and what that says about any run. */
module Safety {
  import opened Basics
  import opened Policy
  import opened Gate
  import opened RefundGate
  import opened Records
  import opened Books
  import opened Checkout
  import opened Audit
  import opened Rulings
  import opened Accounts
  import opened Settlement
  import opened Evolution
  import opened Runs

  // ---- rows, links and keys ----------------------------------------------------------------------

  lemma {:induction false} LiveIsCounted(rs: seq<Reservation>, i: nat)
    requires i < |rs| && Live(rs[i])
    ensures Count(rs, rs[i].session, Reserved) + Count(rs, rs[i].session, Committed) > 0
  {
    if i < |rs| - 1 {
      LiveIsCounted(rs[..|rs| - 1], i);
    }
  }

  lemma OldHoldLinked(w: World, w': World, i: nat)
    requires AllFacts(w) && HoldsLinked(w) && Evolves(w, w') && i < |w.reservations|
    ensures HoldLinked(w', w'.reservations[i])
  {
    var r, r' := w.reservations[i], w'.reservations[i];
    assert HoldLinked(w, r) && HoldEvolves(r, r');
    assert SessionEvolves(w.sessions[r.session], w'.sessions[r.session]);
    assert MandateEvolves(w.mandates[r.mandate], w'.mandates[r.mandate]);
    if Live(r') {
      LiveIsCounted(w.reservations, i);
      assert FactsOk(FactsOf(w, r.session));
      var credited := w.sessions[r.session].mandate.value;
      assert MandateEvolves(w.mandates[credited], w'.mandates[credited]);
    }
  }

  lemma LocalKeeps(w: World, w': World)
    requires Inv(w) && Evolves(w, w') && Local(w, w')
    ensures HoldsLinked(w') && AllLinked(w') && OneActive(w'.mandates) && KeysUnique(w'.sessions) && AllFaithful(w'.trail)
    ensures Merchandise(w')
  {
    forall i | 0 <= i < |w'.reservations| ensures HoldLinked(w', w'.reservations[i]) {
      OldHoldLinked(w, w', i);
    }
    SameKeys(w, w');
    LongerTrailFaithful(w.trail, w'.trail);
    forall i | 0 <= i < |w'.sessions| ensures Linked(w', w'.sessions[i]) {
      assert Linked(w, w.sessions[i]) && SessionEvolves(w.sessions[i], w'.sessions[i]);
    }
  }

  lemma SameKeys(w: World, w': World)
    requires KeysUnique(w.sessions) && SessionsEvolve(w.sessions, w'.sessions) && |w'.sessions| == |w.sessions|
    ensures KeysUnique(w'.sessions)
  {
    forall i, j | 0 <= i < j < |w'.sessions| && Given(w'.sessions[i].idemKey) && w'.sessions[i].agent == w'.sessions[j].agent
      ensures w'.sessions[i].idemKey != w'.sessions[j].idemKey
    {
      assert SessionEvolves(w.sessions[i], w'.sessions[i]) && SessionEvolves(w.sessions[j], w'.sessions[j]);
    }
  }

  lemma LongerTrailFaithful(a: Trail, b: Trail)
    requires AllFaithful(a) && TrailGrows(a, b)
    ensures AllFaithful(b)
  {
    forall i | 0 <= i < |b| ensures Faithful(b[i].payload) {
      if i < |a| {
        assert a[i] == b[i] && Faithful(a[i].payload);
      }
    }
  }

  lemma HoldIsOk(w: World, sid: nat)
    requires HoldsLinked(w)
    ensures HoldOk(w, sid)
  {
    OpenIsCounted(w.reservations, sid);
    if OpenFor(w.reservations, sid).Some? {
      var r := OpenFor(w.reservations, sid).value;
      var i :| 0 <= i < |w.reservations| && w.reservations[i] == r;
      assert HoldLinked(w, r);
    }
  }

  // ---- each call ---------------------------------------------------------------------------------

  lemma {:induction false} FindKeyExact(sessions: seq<Session>, agent: nat, key: Option<string>, i: nat)
    requires i <= |sessions|
    ensures var f := FindKey(sessions, agent, key, i);
            && (f.Some? ==> i <= f.value < |sessions| && sessions[f.value].agent == agent && sessions[f.value].idemKey == key)
            && (f.None? ==> forall j | i <= j < |sessions| :: !(sessions[j].agent == agent && sessions[j].idemKey == key))
    decreases |sessions| - i
  {
    if i < |sessions| {
      FindKeyExact(sessions, agent, key, i + 1);
    }
  }

  lemma CreateStepInv(w: World, agent: nat, items: Items, key: Option<string>, hash: string, now: int)
    requires Inv(w) && agent < |w.agents|
    ensures Inv(Create(w, agent, items, key, hash, now).0) && Evolves(w, Create(w, agent, items, key, hash, now).0)
  {
    EvolvesReflexive(w);
    FindKeyExact(w.sessions, agent, key, 0);
    if !Given(key) || FindKey(w.sessions, agent, key, 0).None? {
      NewSessionInv(w, agent, items, key, hash, now);
    }
  }

  lemma NewSessionInv(w: World, agent: nat, items: Items, key: Option<string>, hash: string, now: int)
    requires Inv(w) && agent < |w.agents| && (Given(key) ==> FindKey(w.sessions, agent, key, 0).None?)
    ensures var w' := CreateWith(w, agent, items, key, hash, Judge(w, agent, items, None, Preview, None, false, now)).0;
            Inv(w') && Evolves(w, w')
  {
    JudgeReviewBound(w, agent, items, None, Preview, None, false, now);
    JudgeSpendable(w, agent, items, None, Preview, None, false, now);
    RuledCreateInv(w, agent, items, key, hash, Judge(w, agent, items, None, Preview, None, false, now));
  }

  predicate MandateOf(w: World, agent: nat, mandate: Option<nat>) {
    mandate.Some? ==> mandate.value < |w.mandates| && w.mandates[mandate.value].agent == agent
  }

  lemma RuledCreateInv(w: World, agent: nat, items: Items, key: Option<string>, hash: string, rl: Ruling)
    requires Inv(w) && agent < |w.agents| && MandateOf(w, agent, rl.mandate)
    requires Given(key) ==> FindKey(w.sessions, agent, key, 0).None?
    requires rl.input.mode == Preview && rl.decision == Decide(rl.input) && ReviewBound(w, None, rl)
    requires rl.decision.verdict == ALLOW ==> rl.mandate.Some?
    ensures var w' := CreateWith(w, agent, items, key, hash, rl).0; Inv(w') && Evolves(w, w')
  {
    CreateEvolves(w, agent, items, key, hash, rl);
    CreateAccounts(w, agent, items, key, hash, rl);
    CreateTables(w, agent, items, key, hash, rl);
  }

  lemma CreateAccounts(w: World, agent: nat, items: Items, key: Option<string>, hash: string, rl: Ruling)
    requires AllFacts(w) && AllMandates(w)
    requires rl.input.mode == Preview && ReviewBound(w, None, rl) && (rl.decision.verdict == ALLOW ==> rl.mandate.Some?)
    ensures var w' := CreateWith(w, agent, items, key, hash, rl).0; AllFacts(w') && AllMandates(w')
  {
    var w' := CreateWith(w, agent, items, key, hash, rl).0;
    forall s: nat ensures FactsOk(FactsOf(w', s)) {
      assert FactsOk(FactsOf(w, |w.sessions|)) && FactsOk(FactsOf(w, s)) && MandateOk(MandateFactsOf(w, 0, 0));
      CreateKeeps(w, agent, items, key, hash, rl, s, 0, 0);
    }
    forall m: nat, day: int ensures MandateOk(MandateFactsOf(w', m, day)) {
      assert FactsOk(FactsOf(w, |w.sessions|)) && MandateOk(MandateFactsOf(w, m, day));
      CreateKeeps(w, agent, items, key, hash, rl, |w.sessions|, m, day);
    }
  }

  lemma CreateTables(w: World, agent: nat, items: Items, key: Option<string>, hash: string, rl: Ruling)
    requires Inv(w) && agent < |w.agents| && MandateOf(w, agent, rl.mandate)
    requires Given(key) ==> FindKey(w.sessions, agent, key, 0).None?
    requires Evolves(w, CreateWith(w, agent, items, key, hash, rl).0)
    ensures var w' := CreateWith(w, agent, items, key, hash, rl).0;
            HoldsLinked(w') && AllLinked(w') && OneActive(w'.mandates) && KeysUnique(w'.sessions) && AllFaithful(w'.trail) && Merchandise(w')
  {
    var w' := CreateWith(w, agent, items, key, hash, rl).0;
    FindKeyExact(w.sessions, agent, key, 0);
    assert w'.sessions == w.sessions + [NewSession(agent, key, hash, rl)];
    forall i | 0 <= i < |w'.reservations| ensures HoldLinked(w', w'.reservations[i]) {
      OldHoldLinked(w, w', i);
    }
    forall i | 0 <= i < |w'.sessions| ensures Linked(w', w'.sessions[i]) {
      if i < |w.sessions| {
        assert Linked(w, w.sessions[i]);
      }
    }
    LongerTrailFaithful(w.trail, w'.trail);
  }

  /** A preview run stored on an editable session. */
  lemma ReevaluateInv(w: World, sid: nat, items: Items, announce: bool, status: Option<Status>, now: int)
    requires Inv(w) && sid < |w.sessions| && Editable(w.sessions[sid].status)
    ensures var rl := Judge(w, w.sessions[sid].agent, items, status, Preview, Some(sid), false, now);
            Inv(Reevaluate(w, sid, items, announce, rl).0) && Evolves(w, Reevaluate(w, sid, items, announce, rl).0)
  {
    var agent := w.sessions[sid].agent;
    var rl := Judge(w, agent, items, status, Preview, Some(sid), false, now);
    JudgeReviewBound(w, agent, items, status, Preview, Some(sid), false, now);
    JudgeSpendable(w, agent, items, status, Preview, Some(sid), false, now);
    RuledPreviewInv(w, sid, items, announce, rl);
  }

  lemma RuledPreviewInv(w: World, sid: nat, items: Items, announce: bool, rl: Ruling)
    requires Inv(w) && sid < |w.sessions| && Editable(w.sessions[sid].status)
    requires rl.input.mode == Preview && rl.decision == Decide(rl.input) && ReviewBound(w, Some(sid), rl)
    requires rl.decision.verdict == ALLOW ==> rl.mandate.Some?
    requires MandateOf(w, w.sessions[sid].agent, rl.mandate)
    ensures var w' := Reevaluate(w, sid, items, announce, rl).0; Inv(w') && Evolves(w, w')
  {
    var w' := Reevaluate(w, sid, items, announce, rl).0;
    ReevaluateEvolves(w, sid, items, announce, rl);
    PreviewAccounts(w, sid, items, announce, rl);
    ReevaluateTables(w, w', sid, rl.mandate);
  }

  lemma PreviewAccounts(w: World, sid: nat, items: Items, announce: bool, rl: Ruling)
    requires AllFacts(w) && AllMandates(w) && sid < |w.sessions| && Editable(w.sessions[sid].status)
    requires rl.input.mode == Preview && ReviewBound(w, Some(sid), rl) && (rl.decision.verdict == ALLOW ==> rl.mandate.Some?)
    ensures var w' := Reevaluate(w, sid, items, announce, rl).0; AllFacts(w') && AllMandates(w')
  {
    var w' := Reevaluate(w, sid, items, announce, rl).0;
    forall s: nat ensures FactsOk(FactsOf(w', s)) {
      assert FactsOk(FactsOf(w, sid)) && FactsOk(FactsOf(w, s)) && MandateOk(MandateFactsOf(w, 0, 0));
      ReevaluateKeeps(w, sid, items, announce, rl, s, 0, 0);
    }
    forall m: nat, day: int ensures MandateOk(MandateFactsOf(w', m, day)) {
      assert FactsOk(FactsOf(w, sid)) && MandateOk(MandateFactsOf(w, m, day));
      ReevaluateKeeps(w, sid, items, announce, rl, sid, m, day);
    }
  }

  lemma ReevaluateTables(w: World, w': World, sid: nat, mandate: Option<nat>)
    requires Inv(w) && Evolves(w, w') && SameMerchant(w, w') && |w'.reservations| == |w.reservations|
    requires sid < |w.sessions| && |w'.sessions| == |w.sessions|
    requires forall i | 0 <= i < |w.sessions| && i != sid :: w'.sessions[i].mandate == w.sessions[i].mandate
    requires w'.sessions[sid].mandate == mandate
    requires MandateOf(w, w.sessions[sid].agent, mandate)
    ensures HoldsLinked(w') && AllLinked(w') && OneActive(w'.mandates) && KeysUnique(w'.sessions) && AllFaithful(w'.trail) && Merchandise(w')
  {
    forall i | 0 <= i < |w'.reservations| ensures HoldLinked(w', w'.reservations[i]) {
      OldHoldLinked(w, w', i);
    }
    SameKeys(w, w');
    LongerTrailFaithful(w.trail, w'.trail);
    forall i | 0 <= i < |w'.sessions| ensures Linked(w', w'.sessions[i]) {
      assert Linked(w, w.sessions[i]) && SessionEvolves(w.sessions[i], w'.sessions[i]);
    }
  }

  lemma ReviewStepInv(w: World, sid: nat, approved: bool, note: string, now: int)
    requires Inv(w)
    ensures Inv(ReviewSession(w, sid, approved, note, now).0) && Evolves(w, ReviewSession(w, sid, approved, note, now).0)
  {
    EvolvesReflexive(w);
    if sid < |w.sessions| && w.sessions[sid].status == RequiresReview {
      var row := w.sessions[sid];
      var w1 := GiveReview(w, sid, approved, note);
      GiveReviewEvolves(w, sid, approved, note);
      if approved {
        ApprovalInv(w, sid, note);
        var items := ItemList(StoredItems(row.lines));
        ReevaluateInv(w1, sid, items, false, Some(row.status), now);
        EvolvesTransitive(w, w1, ReviewSession(w, sid, approved, note, now).0);
      } else {
        SetEvolves(w1, sid, row.(status := NotReady));
        EvolvesTransitive(w, w1, SetSession(w1, sid, row.(status := NotReady)));
        DeclineInv(w, sid, note);
      }
    }
  }

  lemma ApprovalInv(w: World, sid: nat, note: string)
    requires Inv(w) && sid < |w.sessions| && w.sessions[sid].status == RequiresReview
    ensures Inv(GiveReview(w, sid, true, note))
  {
    var w' := GiveReview(w, sid, true, note);
    GiveReviewEvolves(w, sid, true, note);
    forall s: nat ensures FactsOk(FactsOf(w', s)) {
      assert FactsOk(FactsOf(w, sid)) && FactsOk(FactsOf(w, s)) && MandateOk(MandateFactsOf(w, 0, 0));
      ApprovalKeeps(w, sid, note, s, 0, 0);
    }
    forall m: nat, day: int ensures MandateOk(MandateFactsOf(w', m, day)) {
      assert FactsOk(FactsOf(w, sid)) && MandateOk(MandateFactsOf(w, m, day));
      ApprovalKeeps(w, sid, note, sid, m, day);
    }
    LocalKeeps(w, w');
  }

  lemma DeclineInv(w: World, sid: nat, note: string)
    requires Inv(w) && sid < |w.sessions| && w.sessions[sid].status == RequiresReview
    requires Evolves(w, SetSession(GiveReview(w, sid, false, note), sid, w.sessions[sid].(status := NotReady)))
    ensures Inv(SetSession(GiveReview(w, sid, false, note), sid, w.sessions[sid].(status := NotReady)))
  {
    var w' := SetSession(GiveReview(w, sid, false, note), sid, w.sessions[sid].(status := NotReady));
    forall s: nat ensures FactsOk(FactsOf(w', s)) {
      assert FactsOk(FactsOf(w, sid)) && FactsOk(FactsOf(w, s)) && MandateOk(MandateFactsOf(w, 0, 0));
      DeclineKeeps(w, sid, note, s, 0, 0);
    }
    forall m: nat, day: int ensures MandateOk(MandateFactsOf(w', m, day)) {
      assert FactsOk(FactsOf(w, sid)) && MandateOk(MandateFactsOf(w, m, day));
      DeclineKeeps(w, sid, note, sid, m, day);
    }
    LocalKeeps(w, w');
  }

  lemma UpdateStepInv(w: World, agent: nat, sid: nat, items: Items, now: int)
    requires Inv(w)
    ensures Inv(Update(w, agent, sid, items, now).0) && Evolves(w, Update(w, agent, sid, items, now).0)
  {
    EvolvesReflexive(w);
    if Owned(w, agent, sid) && Editable(w.sessions[sid].status) {
      ReevaluateInv(w, sid, items, true, Some(w.sessions[sid].status), now);
    }
  }

  lemma NewHoldLinked(w: World, w': World, sid: nat, rl: Ruling, now: int, r: Reservation)
    requires Inv(w) && Evolves(w, w') && SameMerchant(w, w') && |w'.sessions| == |w.sessions|
    requires sid < |w.sessions| && w.sessions[sid].status == Ready && w'.sessions[sid].mandate == w.sessions[sid].mandate
    requires rl.decision.verdict == ALLOW && Spendable(w, w.sessions[sid].agent, rl, None, now)
    requires r.session == sid && r.mandate == rl.mandate.value && r.amount == rl.decision.total
    ensures HoldLinked(w', r)
  {
    assert SessionEvolves(w.sessions[sid], w'.sessions[sid]);
    assert FactsOk(FactsOf(w, sid)) && Linked(w, w.sessions[sid]);
    var credited := w.sessions[sid].mandate.value;
    if credited != r.mandate {
      OthersRevoked(w.mandates, credited, r.mandate);
    }
  }

  lemma OthersRevoked(ms: seq<Mandate>, a: nat, b: nat)
    requires OneActive(ms) && a < |ms| && b < |ms| && a != b && ms[a].agent == ms[b].agent && ms[b].standing == Active
    ensures ms[a].standing == Revoked
  {
    var i, j := Min(a, b), Max(a, b);
    assert ms[i].standing == Revoked || ms[j].standing == Revoked;
  }

  lemma CompleteStepInv(w: World, agent: nat, sid: nat, key: Option<string>, now: int, link: LinkAnswer)
    requires Inv(w)
    ensures Inv(Complete(w, agent, sid, key, now, link).0) && Evolves(w, Complete(w, agent, sid, key, now, link).0)
    ensures Complete(w, agent, sid, key, now, link).1 != Crashed
  {
    EvolvesReflexive(w);
    if Owned(w, agent, sid) && w.sessions[sid].status == Ready {
      var items := ItemList(StoredItems(w.sessions[sid].lines));
      var rl := Judge(w, agent, items, Some(Ready), Authoritative, Some(sid), false, now);
      JudgeReviewBound(w, agent, items, Some(Ready), Authoritative, Some(sid), false, now);
      JudgeSpendable(w, agent, items, Some(Ready), Authoritative, Some(sid), false, now);
      CompleteEvolves(w, sid, key, now, link, rl);
      CompleteAccounts(w, sid, key, now, link, rl);
      CompleteTables(w, sid, key, now, link, rl);
    }
  }

  lemma CompleteAccounts(w: World, sid: nat, key: Option<string>, now: int, link: LinkAnswer, rl: Ruling)
    requires Inv(w) && sid < |w.sessions| && w.sessions[sid].status == Ready && rl.input.mode == Authoritative
    requires Spendable(w, w.sessions[sid].agent, rl, None, now) && ReviewBound(w, Some(sid), rl)
    ensures var done := CompleteWith(w, sid, key, now, link, rl);
            AllFacts(done.0) && AllMandates(done.0) && done.1 != Crashed
  {
    var agent := w.sessions[sid].agent;
    var w' := CompleteWith(w, sid, key, now, link, rl).0;
    forall s: nat ensures FactsOk(FactsOf(w', s)) {
      assert FactsOk(FactsOf(w, sid)) && FactsOk(FactsOf(w, s)) && MandateOk(MandateFactsOf(w, 0, 0));
      CompleteKeeps(w, sid, key, now, link, rl, agent, s, 0, 0);
    }
    forall m: nat, day: int ensures MandateOk(MandateFactsOf(w', m, day)) {
      assert FactsOk(FactsOf(w, sid)) && MandateOk(MandateFactsOf(w, m, day));
      CompleteKeeps(w, sid, key, now, link, rl, agent, sid, m, day);
    }
    assert FactsOk(FactsOf(w, sid)) && MandateOk(MandateFactsOf(w, 0, 0));
    CompleteKeeps(w, sid, key, now, link, rl, agent, sid, 0, 0);
  }

  lemma CompleteTables(w: World, sid: nat, key: Option<string>, now: int, link: LinkAnswer, rl: Ruling)
    requires Inv(w) && sid < |w.sessions| && w.sessions[sid].status == Ready
    requires Spendable(w, w.sessions[sid].agent, rl, None, now)
    requires Evolves(w, CompleteWith(w, sid, key, now, link, rl).0)
    ensures var w' := CompleteWith(w, sid, key, now, link, rl).0;
            HoldsLinked(w') && AllLinked(w') && OneActive(w'.mandates) && KeysUnique(w'.sessions) && AllFaithful(w'.trail) && Merchandise(w')
  {
    CompleteShape(w, sid, key, now, link, rl);
    OneMoreHoldTables(w, CompleteWith(w, sid, key, now, link, rl).0, sid, rl, now);
  }

  /** A step that adds at most the one hold the ruling allows keeps the tables linked. */
  lemma OneMoreHoldTables(w: World, w': World, sid: nat, rl: Ruling, now: int)
    requires Inv(w) && Evolves(w, w') && SameMerchant(w, w') && |w'.sessions| == |w.sessions|
    requires sid < |w.sessions| && w.sessions[sid].status == Ready && Spendable(w, w.sessions[sid].agent, rl, None, now)
    requires forall i | 0 <= i < |w.sessions| :: w'.sessions[i].mandate == w.sessions[i].mandate
    requires |w'.reservations| > |w.reservations| ==>
               rl.decision.verdict == ALLOW && rl.mandate.Some? && |w'.reservations| == |w.reservations| + 1
               && w'.reservations[|w.reservations|].session == sid && w'.reservations[|w.reservations|].mandate == rl.mandate.value
               && w'.reservations[|w.reservations|].amount == rl.decision.total
    ensures HoldsLinked(w') && AllLinked(w') && OneActive(w'.mandates) && KeysUnique(w'.sessions) && AllFaithful(w'.trail) && Merchandise(w')
  {
    forall i | 0 <= i < |w'.reservations| ensures HoldLinked(w', w'.reservations[i]) {
      if i < |w.reservations| {
        OldHoldLinked(w, w', i);
      } else {
        NewHoldLinked(w, w', sid, rl, now, w'.reservations[i]);
      }
    }
    SameKeys(w, w');
    LongerTrailFaithful(w.trail, w'.trail);
    forall i | 0 <= i < |w'.sessions| ensures Linked(w', w'.sessions[i]) {
      assert Linked(w, w.sessions[i]) && SessionEvolves(w.sessions[i], w'.sessions[i]);
    }
  }

  lemma ReconcileStepInv(w: World, sid: nat, now: int, poll: PollAnswer, ok1: bool, ok2: bool, link: LinkAnswer)
    requires Inv(w)
    ensures Inv(Reconcile(w, sid, now, poll, ok1, ok2, link).0) && Evolves(w, Reconcile(w, sid, now, poll, ok1, ok2, link).0)
  {
    var w' := Reconcile(w, sid, now, poll, ok1, ok2, link).0;
    ReconcileEvolves(w, sid, now, poll, ok1, ok2, link);
    if sid < |w.sessions| && w.sessions[sid].status == Pending {
      HoldIsOk(w, sid);
      forall s: nat ensures FactsOk(FactsOf(w', s)) {
        assert FactsOk(FactsOf(w, sid)) && FactsOk(FactsOf(w, s)) && MandateOk(MandateFactsOf(w, 0, 0));
        ReconcileKeeps(w, sid, now, poll, ok1, ok2, link, s, 0, 0);
      }
      forall m: nat, day: int ensures MandateOk(MandateFactsOf(w', m, day)) {
        assert FactsOk(FactsOf(w, sid)) && MandateOk(MandateFactsOf(w, m, day));
        ReconcileKeeps(w, sid, now, poll, ok1, ok2, link, sid, m, day);
      }
      ReconcileLocal(w, sid, now, poll, ok1, ok2, link);
      LocalKeeps(w, w');
    }
  }

  lemma CancelStepInv(w: World, caller: Option<nat>, sid: nat, now: int, ok: bool, poll: PollAnswer)
    requires Inv(w)
    ensures Inv(Cancel(w, caller, sid, now, ok, poll).0) && Evolves(w, Cancel(w, caller, sid, now, ok, poll).0)
  {
    EvolvesReflexive(w);
    if sid < |w.sessions| && (caller.Some? ==> w.sessions[sid].agent == caller.value) {
      var reason := if caller.Some? then AgentCancelled else MerchantCancelled;
      var w' := CancelSession(w, sid, reason, now, ok, poll).0;
      CancelEvolves(w, sid, reason, now, ok, poll);
      HoldIsOk(w, sid);
      forall s: nat ensures FactsOk(FactsOf(w', s)) {
        assert FactsOk(FactsOf(w, sid)) && FactsOk(FactsOf(w, s)) && MandateOk(MandateFactsOf(w, 0, 0));
        CancelKeeps(w, sid, reason, now, ok, poll, s, 0, 0);
      }
      forall m: nat, day: int ensures MandateOk(MandateFactsOf(w', m, day)) {
        assert FactsOk(FactsOf(w, sid)) && MandateOk(MandateFactsOf(w, m, day));
        CancelKeeps(w, sid, reason, now, ok, poll, sid, m, day);
      }
      CancelLocal(w, sid, reason, now, ok, poll);
      LocalKeeps(w, w');
    }
  }

  lemma RefundStepInv(w: World, sid: nat, amount: Amount, reason: Text, reference: Text, now: int, answer: RefundAnswer)
    requires Inv(w)
    ensures Inv(RefundSession(w, sid, amount, reason, reference, now, answer).0)
    ensures Evolves(w, RefundSession(w, sid, amount, reason, reference, now, answer).0)
  {
    EvolvesReflexive(w);
    if sid < |w.sessions| {
      var ri := RefundRequest(w, sid, amount, reason, reference, now);
      var w' := RefundSession(w, sid, amount, reason, reference, now, answer).0;
      RefundEvolves(w, sid, ri, DecideRefund(ri), answer);
      assert Linked(w, w.sessions[sid]);
      forall s: nat ensures FactsOk(FactsOf(w', s)) {
        assert FactsOk(FactsOf(w, sid)) && FactsOk(FactsOf(w, s)) && MandateOk(MandateFactsOf(w, 0, 0));
        RefundKeeps(w, sid, amount, reason, reference, now, answer, s, 0, 0);
      }
      forall m: nat, day: int ensures MandateOk(MandateFactsOf(w', m, day)) {
        assert FactsOk(FactsOf(w, sid)) && MandateOk(MandateFactsOf(w, m, day));
        RefundKeeps(w, sid, amount, reason, reference, now, answer, sid, m, day);
      }
      RefundLocal(w, sid, ri, DecideRefund(ri), answer);
      LocalKeeps(w, w');
    }
  }

  // ---- the merchant's edits ----------------------------------------------------------------------

  /** Nothing of the sessions' own tables changes; the merchant's side only evolves. */
  predicate MerchantOnly(w: World, w': World) {
    w' == w.(catalog := w'.catalog, policy := w'.policy, agents := w'.agents, mandates := w'.mandates)
    && AgentsEvolve(w.agents, w'.agents) && MandatesEvolve(w.mandates, w'.mandates)
  }

  lemma MerchantStepInv(w: World, w': World)
    requires Inv(w) && MerchantOnly(w, w') && OneActive(w'.mandates) && Merchandise(w')
    requires forall i | |w.mandates| <= i < |w'.mandates| :: w'.mandates[i].dailyCap >= 0 && w'.mandates[i].totalCap >= 0
    ensures Inv(w') && Evolves(w, w')
  {
    assert Evolves(w, w');
    forall s: nat ensures FactsOk(FactsOf(w', s)) {
      assert FactsOk(FactsOf(w, s)) && FactsOf(w', s) == FactsOf(w, s);
    }
    forall m: nat, day: int ensures MandateOk(MandateFactsOf(w', m, day)) {
      assert MandateOk(MandateFactsOf(w, m, day));
      if m < |w.mandates| {
        assert MandateEvolves(w.mandates[m], w'.mandates[m]);
      }
    }
    forall i | 0 <= i < |w'.reservations| ensures HoldLinked(w', w'.reservations[i]) {
      OldHoldLinked(w, w', i);
    }
    forall i | 0 <= i < |w'.sessions| ensures Linked(w', w'.sessions[i]) {
      assert Linked(w, w.sessions[i]);
      if w.sessions[i].mandate.Some? {
        var m := w.sessions[i].mandate.value;
        assert MandateEvolves(w.mandates[m], w'.mandates[m]);
      }
    }
  }

  lemma IssueMandateOk(w: World, agent: nat, perTxn: int, daily: int, total: int, categories: seq<string>, startsAt: int, expiresAt: int, now: int)
    requires Inv(w)
    ensures var ms := IssueMandate(w.mandates, agent, perTxn, daily, total, categories, startsAt, expiresAt, now);
            Inv(w.(mandates := ms)) && Evolves(w, w.(mandates := ms))
  {
    var ms := IssueMandate(w.mandates, agent, perTxn, daily, total, categories, startsAt, expiresAt, now);
    forall i, j | 0 <= i < j < |ms| && ms[i].agent == ms[j].agent ensures ms[i].standing == Revoked || ms[j].standing == Revoked {
      if j < |w.mandates| {
        assert w.mandates[i].standing == Revoked || w.mandates[j].standing == Revoked;
      }
    }
    MerchantStepInv(w, w.(mandates := ms));
  }

  lemma RevokeMandateOk(w: World, m: nat)
    requires Inv(w) && m < |w.mandates|
    ensures var ms := w.mandates[m := w.mandates[m].(standing := Revoked)];
            Inv(w.(mandates := ms)) && Evolves(w, w.(mandates := ms))
  {
    var ms := w.mandates[m := w.mandates[m].(standing := Revoked)];
    forall i, j | 0 <= i < j < |ms| && ms[i].agent == ms[j].agent ensures ms[i].standing == Revoked || ms[j].standing == Revoked {
      assert w.mandates[i].standing == Revoked || w.mandates[j].standing == Revoked;
    }
    MerchantStepInv(w, w.(mandates := ms));
  }

  // ---- every step, every run ---------------------------------------------------------------------

  predicate Administrative(step: Step) {
    step.SetPolicyStep? || step.PutProductStep? || step.RegisterAgentStep? || step.RevokeAgentStep?
    || step.IssueMandateStep? || step.RevokeMandateStep?
  }

  lemma PolicyStepInv(w: World, doc: Doc)
    requires Inv(w)
    ensures var w' := Apply(w, SetPolicyStep(doc)); Inv(w') && Evolves(w, w')
  {
    MerchantStepInv(w, Apply(w, SetPolicyStep(doc)));
  }

  lemma ProductStepInv(w: World, id: string, snap: Snap)
    requires Inv(w)
    ensures var w' := Apply(w, PutProductStep(id, snap)); Inv(w') && Evolves(w, w')
  {
    MerchantStepInv(w, Apply(w, PutProductStep(id, snap)));
  }

  lemma AgentsStepInv(w: World, step: Step)
    requires Inv(w) && (step.RegisterAgentStep? || step.RevokeAgentStep?)
    ensures var w' := Apply(w, step); Inv(w') && Evolves(w, w')
  {
    MerchantStepInv(w, Apply(w, step));
  }

  lemma MandateStepInv(w: World, step: Step)
    requires Inv(w) && (step.IssueMandateStep? || step.RevokeMandateStep?)
    ensures var w' := Apply(w, step); Inv(w') && Evolves(w, w')
  {
    EvolvesReflexive(w);
    match step
    case IssueMandateStep(agent, perTxn, daily, total, categories, startsAt, expiresAt, now) =>
      if agent < |w.agents| { IssueMandateOk(w, agent, perTxn, daily, total, categories, startsAt, expiresAt, now); }
    case RevokeMandateStep(m) =>
      if m < |w.mandates| { RevokeMandateOk(w, m); }
  }

  lemma AdminStepInv(w: World, step: Step)
    requires Inv(w) && Administrative(step)
    ensures Inv(Apply(w, step)) && Evolves(w, Apply(w, step))
  {
    match step
    case SetPolicyStep(doc) => PolicyStepInv(w, doc);
    case PutProductStep(id, snap) => ProductStepInv(w, id, snap);
    case RegisterAgentStep => AgentsStepInv(w, step);
    case RevokeAgentStep(_) => AgentsStepInv(w, step);
    case IssueMandateStep(_, _, _, _, _, _, _, _) => MandateStepInv(w, step);
    case RevokeMandateStep(_) => MandateStepInv(w, step);
  }

  predicate Ordering(step: Step) { step.CreateStep? || step.UpdateStep? || step.ReviewStep? || step.CompleteStep? }

  lemma OrderStepInv(w: World, step: Step)
    requires Inv(w) && Ordering(step)
    ensures Inv(Apply(w, step)) && Evolves(w, Apply(w, step))
  {
    match step
    case CreateStep(agent, items, key, hash, now) =>
      EvolvesReflexive(w);
      if agent < |w.agents| { CreateStepInv(w, agent, items, key, hash, now); }
    case UpdateStep(agent, sid, items, now) => UpdateStepInv(w, agent, sid, items, now);
    case ReviewStep(sid, approved, note, now) => ReviewStepInv(w, sid, approved, note, now);
    case CompleteStep(agent, sid, key, now, link) => CompleteStepInv(w, agent, sid, key, now, link);
  }

  lemma SettlingStepInv(w: World, step: Step)
    requires Inv(w) && (step.ReconcileStep? || step.CancelStep?)
    ensures Inv(Apply(w, step)) && Evolves(w, Apply(w, step))
  {
    if step.ReconcileStep? {
      ReconcileStepInv(w, step.sid, step.now, step.poll, step.cancel1, step.cancel2, step.link);
    } else {
      CancelStepInv(w, step.caller, step.sid, step.now, step.ok, step.poll);
    }
  }

  lemma RefundingStepInv(w: World, step: Step)
    requires Inv(w) && step.RefundStep?
    ensures Inv(Apply(w, step)) && Evolves(w, Apply(w, step))
  {
    RefundStepInv(w, step.sid, step.amount, step.reason, step.reference, step.now, step.answer);
  }

  lemma StepInv(w: World, step: Step)
    requires Inv(w)
    ensures Inv(Apply(w, step)) && Evolves(w, Apply(w, step))
  {
    if Ordering(step) {
      OrderStepInv(w, step);
    } else if Administrative(step) {
      AdminStepInv(w, step);
    } else if step.RefundStep? {
      RefundingStepInv(w, step);
    } else {
      SettlingStepInv(w, step);
    }
  }

  lemma {:induction false} RunInv(w: World, steps: seq<Step>)
    requires Inv(w)
    ensures Inv(Run(w, steps)) && Evolves(w, Run(w, steps))
  {
    if steps == [] {
      EvolvesReflexive(w);
    } else {
      var before := Run(w, steps[..|steps| - 1]);
      RunInv(w, steps[..|steps| - 1]);
      StepInv(before, steps[|steps| - 1]);
      EvolvesTransitive(w, before, Run(w, steps));
    }
  }

  lemma TakenInv(w: World, step: Step, w': World)
    requires Inv(w) && Takes(w, step, w')
    ensures Inv(w') && Evolves(w, w')
  {
    StepInv(w, step);
  }

  lemma {:induction false} RunStateInv(ws: seq<World>, steps: seq<Step>, k: nat)
    requires IsRun(ws, steps) && k < |ws|
    ensures Inv(ws[k])
  {
    if k == 0 {
      InitialInv(ws[0]);
    } else {
      RunStateInv(ws, steps, k - 1);
      assert Takes(ws[k - 1], steps[k - 1], ws[k]);
      TakenInv(ws[k - 1], steps[k - 1], ws[k]);
    }
  }

  lemma NextEvolves(ws: seq<World>, steps: seq<Step>, k: nat)
    requires IsRun(ws, steps) && k < |steps|
    ensures Evolves(ws[k], ws[k + 1])
  {
    RunStateInv(ws, steps, k);
    assert Takes(ws[k], steps[k], ws[k + 1]);
    TakenInv(ws[k], steps[k], ws[k + 1]);
  }

  /** Between any two states of a run, the later one has only evolved from the earlier. */
  lemma {:induction false} RunStateEvolves(ws: seq<World>, steps: seq<Step>, j: nat, k: nat)
    requires IsRun(ws, steps) && j <= k < |ws|
    ensures Evolves(ws[j], ws[k])
  {
    if j == k {
      EvolvesReflexive(ws[j]);
    } else {
      RunStateEvolves(ws, steps, j, k - 1);
      NextEvolves(ws, steps, k - 1);
      EvolvesTransitive(ws[j], ws[k - 1], ws[k]);
    }
  }

  lemma RunFacts(ws: seq<World>, steps: seq<Step>, k: nat, sid: nat)
    requires IsRun(ws, steps) && k < |ws|
    ensures FactsOk(FactsOf(ws[k], sid))
  {
    RunStateInv(ws, steps, k);
  }

  lemma RunMandates(ws: seq<World>, steps: seq<Step>, k: nat, m: nat, day: int)
    requires IsRun(ws, steps) && k < |ws|
    ensures MandateOk(MandateFactsOf(ws[k], m, day))
  {
    RunStateInv(ws, steps, k);
  }

  lemma RunHolds(ws: seq<World>, steps: seq<Step>, k: nat, i: nat)
    requires IsRun(ws, steps) && k < |ws| && i < |ws[k].reservations|
    ensures HoldLinked(ws[k], ws[k].reservations[i])
  {
    RunStateInv(ws, steps, k);
  }
}
