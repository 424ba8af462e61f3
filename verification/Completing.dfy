/** What a complete leads to, case by case, said about the tables: a link, a denial, a wait for review, or nothing. */
module Completing {
  import opened Basics
  import opened Policy
  import opened Gate
  import opened Records
  import opened Books
  import opened Checkout
  import opened Rulings
  import opened Runs
  import opened Guarantees
  import opened PlainGate
  import opened Buying
  import opened Orders
  import opened Polling

  /** This very request has led to a link before. */
  predicate Repeated(s: Session, key: Option<string>) {
    key !in {None, Some("")} && s.completeKey == key && s.status in {Pending, Completed, Canceled}
  }

  predicate NothingOpen(rs: seq<Reservation>, sid: nat) {
    forall i | 0 <= i < |rs| && rs[i].session == sid :: rs[i].state != Reserved
  }

  /** The order is denied, or has to wait for a review: no money moves. */
  predicate Stopped(w: World, w': World, sid: nat, status: Status, after: seq<Event>)
    requires sid < |w.sessions|
  {
    && w' == w.(sessions := w.sessions[sid := w.sessions[sid].(status := status)], trail := w'.trail)
    && GainsRun(w.trail, w'.trail, sid, Authoritative, false, after)
  }

  /** The cost is held on the mandate, and the session waits for the payment through the new link. */
  predicate Linked(w: World, w': World, sid: nat, key: Option<string>, link: LinkAnswer, hold: Reservation)
    requires sid < |w.sessions| && link.LinkMade?
  {
    && w' == w.(sessions := w.sessions[sid := w.sessions[sid].(status := Pending, attempt := 1, linkId := Some(link.linkId),
                                              linkExpireAt := Some(link.expireAt), orderId := link.orderId, completeKey := key)],
                reservations := w.reservations + [hold], trail := w'.trail)
    && GainsRun(w.trail, w'.trail, sid, Authoritative, true,
                [MandateReserved(hold.mandate, hold.amount), LinkCreated(link.linkId, hold.amount, 1, link.expireAt)])
  }

  /** The provider makes no link: the hold is given back at once, and the session stays ready. */
  predicate Unlinked(w: World, w': World, sid: nat, hold: Reservation) {
    && w' == w.(reservations := w.reservations + [hold.(state := Released)], trail := w'.trail)
    && GainsRun(w.trail, w'.trail, sid, Authoritative, true,
                [MandateReserved(hold.mandate, hold.amount), ProviderError(CreateLinkOp),
                 MandateReleased(hold.mandate, hold.amount, ProviderFailed)])
  }

  /** A complete of a ready order: linked exactly if the order may go ahead, is reviewed, and the provider makes a link. */
  predicate Completes(w: World, w': World, reply: Reply, t: Terms, sid: nat, key: Option<string>, now: int, link: LinkAnswer)
    requires sid < |w.sessions|
  {
    var s := w.sessions[sid];
    var items := ItemList(StoredItems(s.lines));
    var cost, m := Cost(w.catalog, items.xs), ActiveFor(w.mandates, s.agent, now);
    if !Orderable(w, t, s.agent, items, None, now) then
      Stopped(w, w', sid, NotReady, []) && |w.trail| < |w'.trail| && Last(w.trail, w'.trail).GateDecision?
      && reply == PolicyDenied(Last(w.trail, w'.trail).decision.rule)
    else if !Reviewed(w, t, Some(sid), cost) then
      && Stopped(w, w', sid, RequiresReview,
                 [ReviewRequested(cost, if w.policy.reviewAbove.Some? then w.policy.reviewAbove.value else JInt(0))])
      && reply == AwaitsReview
    else
      var hold := Reservation(sid, m.value, cost, Reserved, now);
      match link
      case LinkMade(_, _, _) => Linked(w, w', sid, key, link, hold) && reply == Shown(sid)
      case LinkRefused => Unlinked(w, w', sid, hold) && reply == ProviderDown
  }

  // ---- the forms ---------------------------------------------------------------------------------

  lemma {:induction false} NoneIsOpen(rs: seq<Reservation>, sid: nat)
    requires NothingOpen(rs, sid)
    ensures OpenFor(rs, sid).None?
  {
    if rs != [] {
      NoneIsOpen(rs[..|rs| - 1], sid);
    }
  }

  lemma {:induction false} CostNonNegative(cat: Catalog, xs: seq<Item>)
    requires (forall id | id in cat :: cat[id].price >= 0) && forall i | 0 <= i < |xs| :: Plain(xs[i])
    ensures Cost(cat, xs) >= 0
  {
    if xs != [] {
      CostNonNegative(cat, xs[..|xs| - 1]);
      assert Plain(xs[|xs| - 1]);
    }
  }

  lemma StoppedForm(w: World, sid: nat, key: Option<string>, now: int, link: LinkAnswer, rl: Ruling)
    requires sid < |w.sessions| && rl.decision.verdict != ALLOW && rl.input.mode == Authoritative
    ensures var (w', reply) := CompleteWith(w, sid, key, now, link, rl);
            if rl.decision.verdict == DENY then
              && Stopped(w, w', sid, NotReady, []) && |w.trail| < |w'.trail| && Last(w.trail, w'.trail).GateDecision?
              && reply == PolicyDenied(Last(w.trail, w'.trail).decision.rule)
            else
              && reply == AwaitsReview
              && Stopped(w, w', sid, RequiresReview,
                         [ReviewRequested(rl.decision.total, if w.policy.reviewAbove.Some? then w.policy.reviewAbove.value else JInt(0))])
  {
    var threshold := if w.policy.reviewAbove.Some? then w.policy.reviewAbove.value else JInt(0);
    var e := GateDecision(rl.input.mode, rl.decision, Recorded(rl.input));
    var after: seq<Event> := if rl.decision.verdict == DENY then [] else [ReviewRequested(rl.decision.total, threshold)];
    var w1 := LogDecision(w, sid, rl);
    LogIs(w1, sid, ReviewRequested(rl.decision.total, threshold));
    assert Stamped(sid, []) == [];
    GainsRunJoin(w.trail, CompleteWith(w, sid, key, now, link, rl).0.trail, sid, e, after);
  }

  /** The state once the cost is held. */
  lemma HeldForm(w: World, sid: nat, now: int, rl: Ruling)
    requires sid < |w.sessions| && rl.decision.verdict == ALLOW && rl.mandate.Some? && rl.decision.total >= 0
    requires OpenFor(w.reservations, sid).None?
    ensures var m, total := rl.mandate.value, rl.decision.total;
            && Reserve(LogDecision(w, sid, rl), sid, m, total, now).Some?
            && Log(Reserve(LogDecision(w, sid, rl), sid, m, total, now).value, sid, MandateReserved(m, total))
               == w.(reservations := w.reservations + [Reservation(sid, m, total, Reserved, now)],
                     trail := LogDecision(w, sid, rl).trail + Stamped(sid, [MandateReserved(m, total)]))
  {
    LogIs(w, sid, MandateReserved(rl.mandate.value, rl.decision.total));
  }

  lemma LinkedForm(w: World, sid: nat, key: Option<string>, now: int, link: LinkAnswer, rl: Ruling)
    requires sid < |w.sessions| && rl.decision.verdict == ALLOW && rl.mandate.Some? && rl.decision.total >= 0
    requires OpenFor(w.reservations, sid).None? && link.LinkMade? && rl.input.mode == Authoritative
    ensures var (w', reply) := CompleteWith(w, sid, key, now, link, rl);
            Linked(w, w', sid, key, link, Reservation(sid, rl.mandate.value, rl.decision.total, Reserved, now)) && reply == Shown(sid)
  {
    var m, total := rl.mandate.value, rl.decision.total;
    var e, e' := MandateReserved(m, total), LinkCreated(link.linkId, total, 1, link.expireAt);
    HeldForm(w, sid, now, rl);
    var w1 := LogDecision(w, sid, rl);
    var w2 := Log(Reserve(w1, sid, m, total, now).value, sid, e);
    LogIs(SetSession(w2, sid, LinkedSession(w.sessions[sid], key, link)), sid, e');
    var w' := CompleteWith(w, sid, key, now, link, rl).0;
    GainsJoin(w1.trail, w2.trail, w'.trail, sid, [e], [e']);
    assert [e] + [e'] == [e, e'];
    GainsRunJoin(w.trail, w'.trail, sid, GateDecision(rl.input.mode, rl.decision, Recorded(rl.input)), [e, e']);
  }

  lemma HoldReleased(w: World, sid: nat, hold: Reservation)
    requires OpenFor(w.reservations, sid).None? && hold.session == sid && hold.state == Reserved
    ensures ReleaseIfOpen(w.(reservations := w.reservations + [hold]), sid, ProviderFailed)
         == w.(reservations := w.reservations + [hold.(state := Released)],
               trail := w.trail + Stamped(sid, [MandateReleased(hold.mandate, hold.amount, ProviderFailed)]))
  {
    var w1 := w.(reservations := w.reservations + [hold]);
    OpenAppend(w.reservations, hold, sid);
    ReleaseForm(w1, sid, ProviderFailed);
    forall i | 0 <= i < |w.reservations| ensures !(w.reservations[i].session == sid && w.reservations[i].state == Reserved) {
      NoneOpen(w.reservations, sid, i);
    }
    assert ReleaseIfOpen(w1, sid, ProviderFailed).reservations == w.reservations + [hold.(state := Released)];
  }

  lemma UnlinkedForm(w: World, sid: nat, key: Option<string>, now: int, link: LinkAnswer, rl: Ruling)
    requires sid < |w.sessions| && rl.decision.verdict == ALLOW && rl.mandate.Some? && rl.decision.total >= 0
    requires OpenFor(w.reservations, sid).None? && link.LinkRefused? && rl.input.mode == Authoritative
    ensures var (w', reply) := CompleteWith(w, sid, key, now, link, rl);
            Unlinked(w, w', sid, Reservation(sid, rl.mandate.value, rl.decision.total, Reserved, now)) && reply == ProviderDown
  {
    var m, total := rl.mandate.value, rl.decision.total;
    var hold := Reservation(sid, m, total, Reserved, now);
    var e1, e2, e3 := MandateReserved(m, total), ProviderError(CreateLinkOp), MandateReleased(m, total, ProviderFailed);
    HeldForm(w, sid, now, rl);
    var w1 := LogDecision(w, sid, rl);
    var w2 := Log(Reserve(w1, sid, m, total, now).value, sid, e1);
    LogIs(w2, sid, e2);
    var w3 := Log(w2, sid, e2);
    HoldReleased(w3.(reservations := w.reservations), sid, hold);
    var w' := CompleteWith(w, sid, key, now, link, rl).0;
    GainsJoin(w1.trail, w2.trail, w3.trail, sid, [e1], [e2]);
    GainsJoin(w1.trail, w3.trail, w'.trail, sid, [e1] + [e2], [e3]);
    assert [e1] + [e2] + [e3] == [e1, e2, e3];
    GainsRunJoin(w.trail, w'.trail, sid, GateDecision(rl.input.mode, rl.decision, Recorded(rl.input)), [e1, e2, e3]);
  }

  lemma RuledCompletes(w: World, t: Terms, sid: nat, key: Option<string>, now: int, link: LinkAnswer, rl: Ruling)
    requires sid < |w.sessions| && OnTerms(w, t) && NothingOpen(w.reservations, sid) && rl.input.mode == Authoritative
    requires var s := w.sessions[sid]; var items := ItemList(StoredItems(s.lines)); var cost := Cost(w.catalog, items.xs);
             var may := Orderable(w, t, s.agent, items, None, now);
             && (rl.decision.verdict == ALLOW <==> may && Reviewed(w, t, Some(sid), cost))
             && (rl.decision.verdict == REVIEW <==> may && !Reviewed(w, t, Some(sid), cost))
             && (rl.decision.verdict != DENY ==> rl.decision.total == cost) && rl.mandate == ActiveFor(w.mandates, s.agent, now)
    ensures var (w', reply) := CompleteWith(w, sid, key, now, link, rl); Completes(w, w', reply, t, sid, key, now, link)
  {
    var xs := StoredItems(w.sessions[sid].lines);
    NoneIsOpen(w.reservations, sid);
    if rl.decision.verdict != ALLOW {
      StoppedForm(w, sid, key, now, link, rl);
    } else {
      CostNonNegative(w.catalog, xs);
      if link.LinkMade? { LinkedForm(w, sid, key, now, link, rl); } else { UnlinkedForm(w, sid, key, now, link, rl); }
    }
  }

  lemma ReadyCompletes(w: World, t: Terms, agent: nat, sid: nat, key: Option<string>, now: int, link: LinkAnswer)
    requires OnTerms(w, t) && sid < |w.sessions| && w.sessions[sid].agent == agent && w.sessions[sid].status == Ready
    requires NothingOpen(w.reservations, sid)
    ensures var (w', reply) := Complete(w, agent, sid, key, now, link); Completes(w, w', reply, t, sid, key, now, link)
  {
    var items := ItemList(StoredItems(w.sessions[sid].lines));
    CompleteIsRuled(w, agent, sid, key, now, link);
    RunMeans(w, t, agent, items, Some(Ready), Authoritative, Some(sid), false, now);
    RuledCompletes(w, t, sid, key, now, link, Judge(w, agent, items, Some(Ready), Authoritative, Some(sid), false, now));
  }

  /** The outcome of a complete in every case; `ReadyHoldsNothing` says that runs meet the second requirement. */
  lemma CompleteOutcome(w: World, t: Terms, agent: nat, sid: nat, key: Option<string>, now: int, link: LinkAnswer)
    requires OnTerms(w, t)
    requires sid < |w.sessions| && w.sessions[sid].status == Ready ==> NothingOpen(w.reservations, sid)
    ensures var (w', reply) := Complete(w, agent, sid, key, now, link);
            if sid >= |w.sessions| || w.sessions[sid].agent != agent then w' == w && reply == NotFound
            else
              var s := w.sessions[sid];
              if Repeated(s, key) then w' == w && reply == Shown(sid)
              else if s.status == RequiresReview then w' == w && reply == AwaitsReview
              else if s.status != Ready then w' == w && reply == WrongState
              else Completes(w, w', reply, t, sid, key, now, link)
  {
    if sid < |w.sessions| && w.sessions[sid].agent == agent && w.sessions[sid].status == Ready {
      ReadyCompletes(w, t, agent, sid, key, now, link);
    }
  }

  lemma {:induction false} CountedIsOpen(rs: seq<Reservation>, sid: nat)
    requires Count(rs, sid, Reserved) == 0
    ensures NothingOpen(rs, sid)
  {
    if rs != [] {
      CountedIsOpen(rs[..|rs| - 1], sid);
      forall i | 0 <= i < |rs| && rs[i].session == sid ensures rs[i].state != Reserved {
        if i < |rs| - 1 {
          assert rs[..|rs| - 1][i] == rs[i];
        }
      }
    }
  }

  lemma ReadyHoldsNothing(ws: seq<World>, steps: seq<Step>, k: nat, sid: nat)
    requires IsRun(ws, steps) && k < |ws| && sid < |ws[k].sessions| && ws[k].sessions[sid].status == Ready
    ensures NothingOpen(ws[k].reservations, sid)
  {
    StatusMatchesMoney(ws, steps, k, sid);
    CountedIsOpen(ws[k].reservations, sid);
  }
}
