/**
 * A small shop to show failing runs in: one agent, one product, and a mandate with every cap at 1000. The lemmas say
 * what the calls of a run do here, so that an example only has to put them together.
 */
module TeaShop {
  import opened Basics
  import opened Policy
  import opened Gate
  import opened GateLaws
  import opened Records
  import opened Books
  import opened Checkout
  import opened Audit
  import opened Rulings
  import opened Runs
  import opened Fairness
  import opened Retries

  const TEA: string := "tea"
  const CAP: int := 1000

  const POLICY: Doc := Doc(Some(JInt(CAP)), Some(JList([JStr(TEA)])), Some(JList([])), Some(JInt(5)), Some(JBool(true)),
                           Some(JInt(0)), Some(JInt(30)), {})

  const CART: seq<Item> := [Item(IdStr(TEA), QtyInt(1))]

  const LINK: LinkAnswer := LinkMade("plink", None, 50)

  function Terms(at: int): Mandate { Mandate(0, INR, CAP, CAP, CAP, [], 0, 100, Active, at) }

  function Tea(price: int): Snap { Snap("Tea", price, true, Some(TEA)) }

  function Shelf(price: int): Catalog { map[TEA := Tea(price)] }

  function Opened(): World { World(map[], POLICY, [], [], [], [], [], [], [], []) }

  function Stocked(price: int): World { Opened().(agents := [Active], catalog := Shelf(price), mandates := [Terms(0)]) }

  /** A session with one unit of tea, ready to be completed. */
  function Ordered(price: int, m: nat): Session {
    Session(0, Some(m), Ready, [LineOf(Shelf(price), CART[0])], price, None, "", None, None, None, None, 0, None)
  }

  function Issue(now: int): Step { IssueMandateStep(0, CAP, CAP, CAP, [], 0, 100, now) }

  function Opening(price: int): seq<Step> { [RegisterAgentStep, PutProductStep(TEA, Tea(price)), Issue(0)] }

  function Order(now: int): Step { CreateStep(0, ItemList(CART), None, "", now) }

  // ---- the gate here -----------------------------------------------------------------------------

  /** The merchant's side of this shop, with mandate m in force. */
  predicate Trading(w: World, price: int, m: nat, now: int) {
    && w.policy == POLICY && w.agents == [Active] && w.catalog == Shelf(price) && price >= 0 && 0 <= now < 100
    && ActiveFor(w.mandates, 0, now) == Some(m) && w.mandates[m] == Terms(w.mandates[m].createdAt)
  }

  predicate RoomFor(w: World, price: int, m: nat, except: Option<nat>, now: int) {
    SpentToday(w.reservations, m, now, except) + price <= CAP && SpentTotal(w.reservations, w.refunds, m, except) + price <= CAP
  }

  /** Here one unit of tea is allowed at any price the caps leave room for. */
  lemma TeaIsAllowed(w: World, price: int, m: nat, status: Option<Status>, mode: Mode, sid: Option<nat>, excludeSelf: bool, now: int)
    requires Trading(w, price, m, now) && RoomFor(w, price, m, if excludeSelf then sid else None, now) && ExpectedStatus(mode, status)
    ensures var rl := Judge(w, 0, ItemList(CART), status, mode, sid, excludeSelf, now);
            && rl.decision.verdict == ALLOW && rl.decision.total == price && rl.mandate == Some(m)
            && rl.decision.lines == [LineOf(w.catalog, CART[0])]
  {
    var gi := InputFor(w, 0, ItemList(CART), status, mode, sid, excludeSelf, now);
    assert JStr(TEA) in [JStr(TEA)];
    TeaCosts(w.catalog, price);
    assert ItemOk(gi, CART[0]);
    assert Acceptable(gi);
    AllowIffAcceptable(gi);
    AllowMeans(gi);
    assert LinesOf(gi.catalog, CART) == [LineOf(gi.catalog, CART[0])];
  }

  lemma TeaCosts(cat: Catalog, price: int)
    requires cat == Shelf(price)
    ensures SumValue(cat, CART) == price
  {
    assert CART[..0] == [];
    assert Value(cat, CART[0]) == price;
  }

  lemma StoredCart(lines: seq<Line>, price: int)
    requires lines == [LineOf(Shelf(price), CART[0])]
    ensures StoredItems(lines) == CART
  {
  }

  // ---- the calls ---------------------------------------------------------------------------------

  lemma OpenedIsInitial()
    ensures Initial(Opened())
  {
    assert Stripped(TEA);
  }

  /** The run of these calls in this shop. */
  lemma TeaRun(steps: seq<Step>) returns (ws: seq<World>)
    ensures IsRun(ws, steps) && ws[0] == Opened()
  {
    OpenedIsInitial();
    TraceIsRun(Opened(), steps);
    ws := Trace(Opened(), steps);
  }

  lemma Opens(ws: seq<World>, steps: seq<Step>, price: int)
    requires IsRun(ws, steps) && ws[0] == Opened() && Opening(price) <= steps && price >= 0
    ensures ws[3] == Stocked(price)
  {
    assert Takes(ws[0], steps[0], ws[1]) && Takes(ws[1], steps[1], ws[2]) && Takes(ws[2], steps[2], ws[3]);
    assert steps[0] == Opening(price)[0] && steps[1] == Opening(price)[1] && steps[2] == Opening(price)[2];
    OpensOnStates(ws[0], ws[1], ws[2], ws[3], price);
  }

  lemma OpensOnStates(w: World, w1: World, w2: World, w3: World, price: int)
    requires w == Opened() && price >= 0
    requires Takes(w, RegisterAgentStep, w1) && Takes(w1, PutProductStep(TEA, Tea(price)), w2) && Takes(w2, Issue(0), w3)
    ensures w3 == Stocked(price)
  {
    assert Superseded([], 0) == [] && StripAll([]) == [];
    assert w2.catalog == Shelf(price);
  }

  lemma TeaOrdered(w: World, w': World, price: int, m: nat, now: int)
    requires Takes(w, Order(now), w') && Trading(w, price, m, now) && RoomFor(w, price, m, None, now)
    ensures w' == w.(sessions := w.sessions + [Ordered(price, m)], trail := w'.trail)
    ensures ViewOf(w'.trail, |w.sessions|).links == ViewOf(w.trail, |w.sessions|).links
  {
    TeaIsAllowed(w, price, m, None, Preview, None, false, now);
    var rl := Judge(w, 0, ItemList(CART), None, Preview, None, false, now);
    assert w' == CreateWith(w, 0, ItemList(CART), None, "", rl).0;
    OrderStored(w, price, m, rl);
  }

  lemma OrderStored(w: World, price: int, m: nat, rl: Ruling)
    requires rl.decision.verdict == ALLOW && rl.decision.lines == [LineOf(Shelf(price), CART[0])]
    requires rl.decision.total == price && rl.mandate == Some(m)
    ensures var w' := CreateWith(w, 0, ItemList(CART), None, "", rl).0;
            && w' == w.(sessions := w.sessions + [Ordered(price, m)], trail := w'.trail)
            && ViewOf(w'.trail, |w.sessions|).links == ViewOf(w.trail, |w.sessions|).links
  {
    var e: Event := SessionCreated(0, ItemList(CART), price, Ready);
    var w1 := w.(sessions := w.sessions + [Ordered(price, m)]);
    LinksAfter(w1, |w.sessions|, e);
    DecisionLinks(Log(w1, |w.sessions|, e), |w.sessions|, rl);
  }

  /** The complete of an order at the price it was made for, on the mandate in force. */
  lemma TeaPaid(w: World, w': World, sid: nat, price: int, m: nat, credited: nat, now: int)
    requires Takes(w, CompleteStep(0, sid, None, now, LINK), w') && Trading(w, price, m, now) && RoomFor(w, price, m, None, now)
    requires sid < |w.sessions| && w.sessions[sid] == Ordered(price, credited) && OpenFor(w.reservations, sid).None?
    ensures w' == w.(sessions := w.sessions[sid := LinkedSession(Ordered(price, credited), None, LINK)],
                     reservations := w.reservations + [Reservation(sid, m, price, Reserved, now)], trail := w'.trail)
    ensures ViewOf(w'.trail, sid).links == ViewOf(w.trail, sid).links + [price]
  {
    CompleteTaken(w, w', 0, sid, None, now, LINK);
    TeaCompleted(w, sid, price, m, credited, now);
  }

  lemma TeaCompleted(w: World, sid: nat, price: int, m: nat, credited: nat, now: int)
    requires Trading(w, price, m, now) && RoomFor(w, price, m, None, now)
    requires sid < |w.sessions| && w.sessions[sid] == Ordered(price, credited) && OpenFor(w.reservations, sid).None?
    ensures var w' := Complete(w, 0, sid, None, now, LINK).0;
            && w' == w.(sessions := w.sessions[sid := LinkedSession(Ordered(price, credited), None, LINK)],
                        reservations := w.reservations + [Reservation(sid, m, price, Reserved, now)], trail := w'.trail)
            && ViewOf(w'.trail, sid).links == ViewOf(w.trail, sid).links + [price]
  {
    StoredCart(w.sessions[sid].lines, price);
    TeaIsAllowed(w, price, m, Some(Ready), Authoritative, Some(sid), false, now);
    CompleteIsRuled(w, 0, sid, None, now, LINK);
    Paying(w, sid, price, m, credited, now, Judge(w, 0, ItemList(CART), Some(Ready), Authoritative, Some(sid), false, now));
  }

  lemma Paying(w: World, sid: nat, price: int, m: nat, credited: nat, now: int, rl: Ruling)
    requires sid < |w.sessions| && w.sessions[sid] == Ordered(price, credited) && OpenFor(w.reservations, sid).None?
    requires rl.decision.verdict == ALLOW && rl.mandate == Some(m) && rl.decision.total == price >= 0
    ensures var w' := CompleteWith(w, sid, None, now, LINK, rl).0;
            && w' == w.(sessions := w.sessions[sid := LinkedSession(Ordered(price, credited), None, LINK)],
                        reservations := w.reservations + [Reservation(sid, m, price, Reserved, now)], trail := w'.trail)
            && ViewOf(w'.trail, sid).links == ViewOf(w.trail, sid).links + [price]
  {
    DecisionLinks(w, sid, rl);
    var w1 := LogDecision(w, sid, rl);
    var w2 := w1.(reservations := w.reservations + [Reservation(sid, m, price, Reserved, now)]);
    LinksAfter(w2, sid, MandateReserved(m, price));
    var w3 := Log(w2, sid, MandateReserved(m, price));
    LinksAfter(SetSession(w3, sid, LinkedSession(w3.sessions[sid], None, LINK)), sid, LinkCreated("plink", price, 1, 50));
  }

  lemma ReconcileTaken(w: World, w': World, sid: nat, now: int, poll: PollAnswer, ok1: bool, ok2: bool, link: LinkAnswer)
    requires Takes(w, ReconcileStep(sid, now, poll, ok1, ok2, link), w')
    ensures w' == Reconcile(w, sid, now, poll, ok1, ok2, link).0
  {
  }
}
