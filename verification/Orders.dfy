/**
 * What create, update and a merchant's review do to an order, said about the request and the tables alone: which cart
 * the session then holds, in which status, and what the trail says about it.
 */
module Orders {
  import opened Basics
  import opened Policy
  import opened Gate
  import opened GateLaws
  import opened Ledger
  import opened Records
  import opened Books
  import opened Checkout
  import opened Runs
  import opened Safety
  import opened PlainGate
  import opened Buying

  /** In every state of every run the merchant's policy says some terms, and no price is negative. */
  predicate OnTerms(w: World, t: Terms) { Says(w.policy, t) && PricesNonNegative(w.catalog) }

  lemma RunHasTerms(ws: seq<World>, steps: seq<Step>, k: nat) returns (t: Terms)
    requires IsRun(ws, steps) && k < |ws|
    ensures OnTerms(ws[k], t)
  {
    RunStateInv(ws, steps, k);
    t := StoredPolicySays(ws[k].policy);
  }

  // ---- what the trail gains ----------------------------------------------------------------------

  function Stamped(sid: nat, es: seq<Event>): (t: Trail)
    ensures |t| == |es| && forall i | 0 <= i < |es| :: t[i] == Entry(Some(sid), es[i])
  {
    if es == [] then [] else Stamped(sid, es[..|es| - 1]) + [Entry(Some(sid), es[|es| - 1])]
  }

  /** The trail gains exactly these events of the session. */
  predicate Gains(a: Trail, b: Trail, sid: nat, es: seq<Event>) { b == a + Stamped(sid, es) }

  /** It gains these events, one decision of a run in this mode for this total, and then those. */
  predicate GainsDecision(a: Trail, b: Trail, sid: nat, before: seq<Event>, mode: Mode, verdict: Verdict, total: int, after: seq<Event>) {
    var n := |a| + |before|;
    && |b| == n + 1 + |after| && b[..n] == a + Stamped(sid, before) && b[n + 1..] == Stamped(sid, after)
    && b[n].session == Some(sid) && b[n].payload.GateDecision?
    && b[n].payload.mode == mode && b[n].payload.decision.verdict == verdict && b[n].payload.decision.total == total
  }

  /** The verdict that an order's status stands for. */
  function VerdictOf(status: Status): Verdict {
    if status == Ready then ALLOW else if status == RequiresReview then REVIEW else DENY
  }

  function Requests(w: World, s: Session): seq<Event> {
    var threshold := if w.policy.reviewAbove.Some? then w.policy.reviewAbove.value else JInt(0);
    if s.status == RequiresReview then [ReviewRequested(s.total, threshold)] else []
  }

  // ---- the row -----------------------------------------------------------------------------------

  /** The order on file is this cart, judged on these tables: ready if it may go ahead, waiting if only the review is
      missing. */
  predicate Holds(w: World, t: Terms, agent: nat, items: Items, sid: Option<nat>, now: int, s: Session) {
    var may := Orderable(w, t, agent, items, None, now);
    && s.status in {NotReady, Ready, RequiresReview}
    && (s.status == Ready <==> may && Reviewed(w, t, sid, Cost(w.catalog, items.xs)))
    && (s.status == RequiresReview <==> may && !Reviewed(w, t, sid, Cost(w.catalog, items.xs)))
    && (s.status != NotReady ==> items.ItemList? && Quoted(w.catalog, items.xs, s.lines) && s.total == Cost(w.catalog, items.xs))
    && Shows(w.catalog, items, s.lines, s.total)
    && s.mandate == ActiveFor(w.mandates, agent, now)
  }

  /** Nobody's request is on file under this key. */
  predicate FreshKey(w: World, agent: nat, key: Option<string>) {
    key in {None, Some("")} || forall i | 0 <= i < |w.sessions| && w.sessions[i].agent == agent :: w.sessions[i].idemKey != key
  }

  /** A first create stores the requested cart on a new row of the agent, and says so. */
  lemma CreateStoresCart(w: World, t: Terms, agent: nat, items: Items, key: Option<string>, hash: string, now: int)
    requires OnTerms(w, t) && FreshKey(w, agent, key)
    ensures var (w', reply) := Create(w, agent, items, key, hash, now); var sid := |w.sessions|;
            && reply == Shown(sid) && |w'.sessions| == sid + 1
            && var s := w'.sessions[sid];
               && w' == w.(sessions := w.sessions + [s], trail := w'.trail)
               && Holds(w, t, agent, items, None, now, s)
               && s == Session(agent, s.mandate, s.status, s.lines, s.total, key, hash, None, None, None, None, 0, None)
               && GainsDecision(w.trail, w'.trail, sid, [SessionCreated(agent, items, s.total, s.status)], Preview,
                                VerdictOf(s.status), s.total, Requests(w, s))
  {
    if Given(key) {
      FreshIsNotFound(w, agent, key, 0);
    }
    RunMeans(w, t, agent, items, None, Preview, None, false, now);
    CreatedRow(w, agent, items, key, hash, Judge(w, agent, items, None, Preview, None, false, now));
  }

  lemma CreatedRow(w: World, agent: nat, items: Items, key: Option<string>, hash: string, rl: Ruling)
    ensures var (w', reply) := CreateWith(w, agent, items, key, hash, rl); var sid := |w.sessions|;
            && reply == Shown(sid) && |w'.sessions| == sid + 1
            && var s := w'.sessions[sid];
               && w' == w.(sessions := w.sessions + [s], trail := w'.trail)
               && s == Session(agent, rl.mandate, s.status, rl.decision.lines, rl.decision.total, key, hash, None, None, None, None, 0, None)
               && s.status in {NotReady, Ready, RequiresReview} && VerdictOf(s.status) == rl.decision.verdict
               && GainsDecision(w.trail, w'.trail, sid, [SessionCreated(agent, items, s.total, s.status)], rl.input.mode,
                                VerdictOf(s.status), s.total, Requests(w, s))
  {
    var sid := |w.sessions|;
    var s := NewSession(agent, key, hash, rl);
    var e: Event := SessionCreated(agent, items, s.total, s.status);
    var w1 := w.(sessions := w.sessions + [s]);
    Stored(w1, sid, [e], rl, s);
  }

  /** After these events: the decision, and the request for a review if there is one. */
  lemma Stored(w: World, sid: nat, first: seq<Event>, rl: Ruling, s: Session)
    requires |first| <= 1 && s.total == rl.decision.total && s.status == StatusFor(rl.decision)
    ensures var w1 := if first == [] then w else Log(w, sid, first[0]);
            var w' := LogReviewRequest(LogDecision(w1, sid, rl), sid, rl.decision);
            GainsDecision(w.trail, w'.trail, sid, first, rl.input.mode, VerdictOf(s.status), s.total, Requests(w, s))
  {
    assert first == [] ==> Stamped(sid, first) == [];
    assert first != [] ==> Stamped(sid, first) == [Entry(Some(sid), first[0])];
  }

  lemma {:induction false} FreshIsNotFound(w: World, agent: nat, key: Option<string>, i: nat)
    requires i <= |w.sessions| && FreshKey(w, agent, key) && Given(key)
    ensures FindKey(w.sessions, agent, key, i).None?
    decreases |w.sessions| - i
  {
    if i < |w.sessions| {
      FreshIsNotFound(w, agent, key, i + 1);
    }
  }

  // ---- update ------------------------------------------------------------------------------------

  /** Who may change the order: its agent, while it has no payment link and is not over. */
  predicate Changeable(w: World, agent: nat, sid: nat) {
    sid < |w.sessions| && w.sessions[sid].agent == agent && w.sessions[sid].status in {NotReady, Ready, RequiresReview}
  }

  /** The row keeps everything that a preview does not judge. */
  predicate SameButCart(s: Session, s': Session) {
    s' == s.(status := s'.status, lines := s'.lines, total := s'.total, mandate := s'.mandate)
  }

  /** An update replaces the cart by the requested one, and says so; anyone else's request, and one that comes too late,
      changes nothing. */
  lemma UpdateStoresCart(w: World, t: Terms, agent: nat, sid: nat, items: Items, now: int)
    requires OnTerms(w, t)
    ensures var (w', reply) := Update(w, agent, sid, items, now);
            if !Changeable(w, agent, sid) then
              w' == w && reply == (if sid < |w.sessions| && w.sessions[sid].agent == agent then WrongState else NotFound)
            else
              && reply == Shown(sid) && |w'.sessions| == |w.sessions|
              && var s := w'.sessions[sid];
                 && w' == w.(sessions := w.sessions[sid := s], trail := w'.trail) && SameButCart(w.sessions[sid], s)
                 && Holds(w, t, agent, items, Some(sid), now, s)
                 && GainsDecision(w.trail, w'.trail, sid, [SessionUpdated(items, s.total, s.status)], Preview,
                                  VerdictOf(s.status), s.total, Requests(w, s))
  {
    if Changeable(w, agent, sid) {
      RunMeans(w, t, agent, items, Some(w.sessions[sid].status), Preview, Some(sid), false, now);
      ReplacedRow(w, sid, items, true, Judge(w, agent, items, Some(w.sessions[sid].status), Preview, Some(sid), false, now));
    }
  }

  lemma ReplacedRow(w: World, sid: nat, items: Items, announce: bool, rl: Ruling)
    requires sid < |w.sessions|
    ensures var (w', reply) := Reevaluate(w, sid, items, announce, rl);
            && reply == Shown(sid) && |w'.sessions| == |w.sessions|
            && var s := w'.sessions[sid];
               && w' == w.(sessions := w.sessions[sid := s], trail := w'.trail) && SameButCart(w.sessions[sid], s)
               && s.lines == rl.decision.lines && s.total == rl.decision.total && s.mandate == rl.mandate
               && s.status in {NotReady, Ready, RequiresReview} && VerdictOf(s.status) == rl.decision.verdict
               && GainsDecision(w.trail, w'.trail, sid, if announce then [SessionUpdated(items, s.total, s.status)] else [],
                                rl.input.mode, VerdictOf(s.status), s.total, Requests(w, s))
  {
    var d := rl.decision;
    var s := w.sessions[sid].(status := StatusFor(d), lines := d.lines, total := d.total, mandate := rl.mandate);
    var first: seq<Event> := if announce then [SessionUpdated(items, d.total, StatusFor(d))] else [];
    Stored(SetSession(w, sid, s), sid, first, rl, s);
  }

  // ---- the merchant's review ---------------------------------------------------------------------

  /** A review is of an order that waits for one; it is filed with the total it is about. */
  function Filed(w: World, sid: nat, approved: bool, note: string): World
    requires sid < |w.sessions|
  {
    w.(reviews := w.reviews + [Review(sid, w.sessions[sid].total, approved, note)],
       trail := w.trail + Stamped(sid, [ReviewGiven(approved, w.sessions[sid].total, note)]))
  }

  predicate Awaits(w: World, sid: nat) { sid < |w.sessions| && w.sessions[sid].status == RequiresReview }

  /** An approval keeps the cart and judges it again with the approval on file: the order is ready if everything else
      holds and it still costs what was approved. */
  lemma ApprovalKeepsCart(w: World, t: Terms, sid: nat, note: string, now: int)
    requires OnTerms(w, t) && Awaits(w, sid)
    ensures var (w', reply) := ReviewSession(w, sid, true, note, now);
            var filed := Filed(w, sid, true, note); var items := ItemList(StoredItems(w.sessions[sid].lines));
            && reply == Shown(sid) && |w'.sessions| == |w.sessions|
            && var s := w'.sessions[sid];
               && w' == filed.(sessions := w.sessions[sid := s], trail := w'.trail) && SameButCart(w.sessions[sid], s)
               && Holds(filed, t, s.agent, items, Some(sid), now, s)
               && (s.status == Ready ==> w.sessions[sid].total == s.total || s.total <= t.reviewAbove || t.reviewAbove <= 0)
               && GainsDecision(filed.trail, w'.trail, sid, [], Preview, VerdictOf(s.status), s.total, Requests(w, s))
  {
    var s, items := w.sessions[sid], ItemList(StoredItems(w.sessions[sid].lines));
    var filed := Filed(w, sid, true, note);
    FiledIsGiven(w, sid, true, note);
    ReviewAppend(w.reviews, Review(sid, s.total, true, note), sid);
    RunMeans(filed, t, s.agent, items, Some(s.status), Preview, Some(sid), false, now);
    ReplacedRow(filed, sid, items, false, Judge(filed, s.agent, items, Some(s.status), Preview, Some(sid), false, now));
  }

  lemma FiledIsGiven(w: World, sid: nat, approved: bool, note: string)
    requires sid < |w.sessions|
    ensures GiveReview(w, sid, approved, note) == Filed(w, sid, approved, note)
  {
    var e: Event := ReviewGiven(approved, w.sessions[sid].total, note);
    assert Stamped(sid, [e]) == [Entry(Some(sid), e)];
  }

  /** A decline files the review and takes the order out of play until the agent changes it. Without an order that waits
      nothing happens. */
  lemma DeclineStopsOrder(w: World, sid: nat, approved: bool, note: string, now: int)
    requires !approved || !Awaits(w, sid)
    ensures ReviewSession(w, sid, approved, note, now) ==
              if sid >= |w.sessions| then (w, NotFound)
              else if w.sessions[sid].status != RequiresReview then (w, WrongState)
              else (Filed(w, sid, false, note).(sessions := w.sessions[sid := w.sessions[sid].(status := NotReady)]), Shown(sid))
  {
    if Awaits(w, sid) {
      FiledIsGiven(w, sid, false, note);
    }
  }
}
