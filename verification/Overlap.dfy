/** Two ready carts of one agent, each within the daily cap, that are both allowed if their completes overlap. */
module Overlap {
  import opened Basics
  import opened Gate
  import opened Records
  import opened Books
  import opened Runs
  import opened TeaShop
  import opened Transactions

  function Steps(): seq<Step> { Opening(600) + [Order(1), Order(2)] }

  predicate TwoCarts(w: World) {
    w == Stocked(600).(sessions := [Ordered(600, 0), Ordered(600, 0)], trail := w.trail)
  }

  lemma FirstPlaced(w: World, w': World)
    requires w == Stocked(600) && Takes(w, Order(1), w')
    ensures w' == w.(sessions := [Ordered(600, 0)], trail := w'.trail)
  {
    TeaOrdered(w, w', 600, 0, 1);
  }

  lemma SecondPlaced(w: World, w': World)
    requires w == Stocked(600).(sessions := [Ordered(600, 0)], trail := w.trail) && Takes(w, Order(2), w')
    ensures TwoCarts(w')
  {
    TeaOrdered(w, w', 600, 0, 2);
  }

  lemma BothCleared(w: World, sid: nat)
    requires TwoCarts(w) && sid < 2
    ensures Cleared(w, sid, 0, 3) && Asked(w, sid, 3) == 600
  {
    StoredCart(w.sessions[sid].lines, 600);
    TeaIsAllowed(w, 600, 0, Some(Ready), Authoritative, Some(sid), false, 3);
  }

  /** Both completes are allowed on the one mandate, and together they spend more than its daily cap. */
  predicate Overrun(w: World, now: int) {
    && Cleared(w, 0, 0, now) && Cleared(w, 1, 0, now) && |w.mandates| == 1 && w.mandates[0].dailyCap == 1000
    && SpentToday(BothReserved(w, 0, 0, now, 1, now), 0, now, None) == 1200
  }

  lemma CartsOverrun(w: World)
    requires TwoCarts(w)
    ensures Overrun(w, 3)
  {
    BothCleared(w, 0);
    BothCleared(w, 1);
    BothSum(Query(0, Some(DayOf(3)), None), [], 0, 0, 600, 3, 1, 600, 3);
  }

  /** Both gate runs see an empty day under a daily cap of 1000, and each allows 600: the day ends at 1200. */
  lemma DailyCapCanBeExceeded() returns (ws: seq<World>)
    ensures IsRun(ws, Steps()) && Overrun(ws[5], 3)
  {
    ws := TeaRun(Steps());
    Opens(ws, Steps(), 600);
    assert Takes(ws[3], Steps()[3], ws[4]);
    FirstPlaced(ws[3], ws[4]);
    assert Takes(ws[4], Steps()[4], ws[5]);
    SecondPlaced(ws[4], ws[5]);
    CartsOverrun(ws[5]);
  }
}
