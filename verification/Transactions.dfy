/**
 * The reservation ledger under interleaving. Calls of different threads may interleave between transactions, but not
 * inside one; so whatever the threads do, the table sees some sequence of these three transactions.
 */
module Transactions {
  import opened Basics
  import opened Gate
  import opened Records
  import opened Books
  import opened Checkout
  import opened Audit
  import opened Rulings
  import opened Accounts
  import opened Evolution
  import opened Runs
  import opened Safety

  datatype Transaction =
    | ReserveTx(sid: nat, mandate: nat, amount: int, now: int)
    | CommitTx(sid: nat)
    | ReleaseTx(sid: nat)

  function After(rs: seq<Reservation>, t: Transaction): seq<Reservation> {
    match t
    case ReserveTx(sid, mandate, amount, now) =>
      if amount < 0 || OpenFor(rs, sid).Some? then rs else rs + [Reservation(sid, mandate, amount, Reserved, now)]
    case CommitTx(sid) => Transition(rs, sid, Committed)
    case ReleaseTx(sid) => Transition(rs, sid, Released)
  }

  function AfterAll(rs: seq<Reservation>, ts: seq<Transaction>): seq<Reservation> {
    if ts == [] then rs else After(AfterAll(rs, ts[..|ts| - 1]), ts[|ts| - 1])
  }

  /** In every interleaving a session has at most one open reservation. */
  lemma {:induction false} AtMostOneOpen(ts: seq<Transaction>, sid: nat)
    ensures Count(AfterAll([], ts), sid, Reserved) <= 1
  {
    if ts != [] {
      var rs := AfterAll([], ts[..|ts| - 1]);
      var t := ts[|ts| - 1];
      AtMostOneOpen(ts[..|ts| - 1], sid);
      match t
      case ReserveTx(s, m, a, now) =>
        OpenIsCounted(rs, s);
        CountAppend(rs, Reservation(s, m, a, Reserved, now), sid, Reserved);
      case CommitTx(s) => TransitionCount(rs, s, Committed, sid, Reserved);
      case ReleaseTx(s) => TransitionCount(rs, s, Released, sid, Reserved);
    }
  }

  /** In every interleaving a reservation, once committed or released, stays as it is, and no reservation is lost. */
  lemma {:induction false} ClosedForGood(rs: seq<Reservation>, ts: seq<Transaction>)
    ensures HoldsEvolve(rs, AfterAll(rs, ts))
  {
    if ts != [] {
      var before := AfterAll(rs, ts[..|ts| - 1]);
      ClosedForGood(rs, ts[..|ts| - 1]);
      assert HoldsEvolve(before, AfterAll(rs, ts));
      forall i | 0 <= i < |rs| ensures HoldEvolves(rs[i], AfterAll(rs, ts)[i]) {
        assert HoldEvolves(rs[i], before[i]) && HoldEvolves(before[i], AfterAll(rs, ts)[i]);
      }
    }
  }

  // ---- two gate runs before either reservation ---------------------------------------------------

  /** The gate run a complete makes for a ready session. */
  function CompleteRuling(w: World, sid: nat, now: int): Ruling
    requires sid < |w.sessions|
  {
    var s := w.sessions[sid];
    Judge(w, s.agent, ItemList(StoredItems(s.lines)), Some(Ready), Authoritative, Some(sid), false, now)
  }

  /** A ready session whose gate run is ALLOW on this mandate. */
  predicate Cleared(w: World, sid: nat, m: nat, now: int) {
    && sid < |w.sessions| && w.sessions[sid].status == Ready
    && CompleteRuling(w, sid, now).decision.verdict == ALLOW && CompleteRuling(w, sid, now).mandate == Some(m)
  }

  function Asked(w: World, sid: nat, now: int): int
    requires sid < |w.sessions|
  {
    CompleteRuling(w, sid, now).decision.total
  }

  /** The table after two calls whose gate runs both looked at `w` have reserved. */
  function BothReserved(w: World, m: nat, s1: nat, now1: int, s2: nat, now2: int): seq<Reservation>
    requires s1 < |w.sessions| && s2 < |w.sessions|
  {
    AfterAll(w.reservations, [ReserveTx(s1, m, Asked(w, s1, now1), now1), ReserveTx(s2, m, Asked(w, s2, now2), now2)])
  }

  ghost predicate WithinDaily(rs: seq<Reservation>, m: nat, cap: int) { forall day: int :: Sum(Query(m, Some(day), None), rs) <= cap }

  /** The caps hold for calls that are served one after the other. If two calls run the gate on one state of a run
      before either reserves, both are allowed and both reserve, then the total cap still holds if and only if there
      was room for both totals; and the daily cap holds on every day if and only if the two are on different days or
      that day had room for both. */
  lemma InterleavedGateRuns(ws: seq<World>, steps: seq<Step>, k: nat, m: nat, s1: nat, now1: int, s2: nat, now2: int)
    requires IsRun(ws, steps) && k < |ws| && s1 != s2 && Cleared(ws[k], s1, m, now1) && Cleared(ws[k], s2, m, now2)
    ensures m < |ws[k].mandates|
    ensures var w := ws[k]; var both := BothReserved(w, m, s1, now1, s2, now2);
            var sum := Asked(w, s1, now1) + Asked(w, s2, now2);
            && |both| == |w.reservations| + 2
            && (SpentTotal(both, w.refunds, m, None) <= w.mandates[m].totalCap <==>
                Sum(Query(m, None, None), w.reservations) - RefundedTo(w.refunds, m) + sum <= w.mandates[m].totalCap)
            && (WithinDaily(both, m, w.mandates[m].dailyCap) <==>
                DayOf(now1) != DayOf(now2) || SpentToday(w.reservations, m, now1, None) + sum <= w.mandates[m].dailyCap)
  {
    var w := ws[k];
    MandateNeverOver(ws, steps, k, m);
    ClearedMeans(ws, steps, k, s1, m, now1);
    ClearedMeans(ws, steps, k, s2, m, now2);
    BothAdd(w.reservations, m, s1, Asked(w, s1, now1), now1, s2, Asked(w, s2, now2), now2);
    OverlapExact(w, m, s1, Asked(w, s1, now1), now1, s2, Asked(w, s2, now2), now2);
  }

  /** Nothing in the calls stops this: if the second call writes all it has to write after the first, on the strength
      of a gate run that looked before, both show their session with a link, and the table holds both. */
  lemma OverlappingCompletes(ws: seq<World>, steps: seq<Step>, k: nat, m: nat, s1: nat, key1: Option<string>, now1: int,
                             link1: LinkAnswer, s2: nat, key2: Option<string>, now2: int, link2: LinkAnswer)
    requires IsRun(ws, steps) && k < |ws| && s1 != s2 && Cleared(ws[k], s1, m, now1) && Cleared(ws[k], s2, m, now2)
    requires link1.LinkMade? && link2.LinkMade?
    ensures |CompleteWith(ws[k], s1, key1, now1, link1, CompleteRuling(ws[k], s1, now1)).0.sessions| == |ws[k].sessions|
    ensures var w := ws[k];
            var once := CompleteWith(w, s1, key1, now1, link1, CompleteRuling(w, s1, now1));
            var twice := CompleteWith(once.0, s2, key2, now2, link2, CompleteRuling(w, s2, now2));
            && once.1 == Shown(s1) && twice.1 == Shown(s2)
            && twice.0.reservations == BothReserved(w, m, s1, now1, s2, now2)
  {
    var w := ws[k];
    ClearedMeans(ws, steps, k, s1, m, now1);
    ClearedMeans(ws, steps, k, s2, m, now2);
    var rl1, rl2 := CompleteRuling(w, s1, now1), CompleteRuling(w, s2, now2);
    var w1 := CompleteWith(w, s1, key1, now1, link1, rl1).0;
    AllowedCompletes(w, s1, key1, now1, link1, rl1);
    OpenAppend(w.reservations, Reservation(s1, m, rl1.decision.total, Reserved, now1), s2);
    AllowedCompletes(w1, s2, key2, now2, link2, rl2);
    BothAdd(w.reservations, m, s1, rl1.decision.total, now1, s2, rl2.decision.total, now2);
  }

  lemma AllowedCompletes(w: World, sid: nat, key: Option<string>, now: int, link: LinkAnswer, rl: Ruling)
    requires sid < |w.sessions| && OpenFor(w.reservations, sid).None? && link.LinkMade?
    requires rl.decision.verdict == ALLOW && rl.mandate.Some? && rl.decision.total >= 0
    ensures var done := CompleteWith(w, sid, key, now, link, rl);
            && done.1 == Shown(sid) && |done.0.sessions| == |w.sessions|
            && done.0.reservations == w.reservations + [Reservation(sid, rl.mandate.value, rl.decision.total, Reserved, now)]
  {
  }

  /** Before the two calls the daily cap holds, on every day. */
  lemma MandateNeverOver(ws: seq<World>, steps: seq<Step>, k: nat, m: nat)
    requires IsRun(ws, steps) && k < |ws|
    ensures m < |ws[k].mandates| ==> WithinDaily(ws[k].reservations, m, ws[k].mandates[m].dailyCap)
  {
    if m < |ws[k].mandates| {
      forall day: int ensures Sum(Query(m, Some(day), None), ws[k].reservations) <= ws[k].mandates[m].dailyCap {
        RunMandates(ws, steps, k, m, day);
      }
    }
  }

  /** What an ALLOW says about the room there is, and that nothing is held for the session yet. */
  predicate Fits(w: World, sid: nat, m: nat, amount: int, now: int) {
    && m < |w.mandates| && amount >= 0 && OpenFor(w.reservations, sid).None?
    && SpentToday(w.reservations, m, now, None) + amount <= w.mandates[m].dailyCap
    && SpentTotal(w.reservations, w.refunds, m, None) + amount <= w.mandates[m].totalCap
  }

  lemma ClearedMeans(ws: seq<World>, steps: seq<Step>, k: nat, sid: nat, m: nat, now: int)
    requires IsRun(ws, steps) && k < |ws| && Cleared(ws[k], sid, m, now)
    ensures Fits(ws[k], sid, m, Asked(ws[k], sid, now), now)
  {
    RunFacts(ws, steps, k, sid);
    ReadyFits(ws[k], sid, m, now);
  }

  lemma ReadyFits(w: World, sid: nat, m: nat, now: int)
    requires Cleared(w, sid, m, now) && FactsOk(FactsOf(w, sid))
    ensures Fits(w, sid, m, Asked(w, sid, now), now)
  {
    var s := w.sessions[sid];
    JudgeSpendable(w, s.agent, ItemList(StoredItems(s.lines)), Some(Ready), Authoritative, Some(sid), false, now);
  }

  lemma OverlapExact(w: World, m: nat, s1: nat, a1: int, now1: int, s2: nat, a2: int, now2: int)
    requires s1 != s2 && Fits(w, s1, m, a1, now1) && Fits(w, s2, m, a2, now2)
    requires WithinDaily(w.reservations, m, w.mandates[m].dailyCap)
    ensures var both := AfterAll(w.reservations, [ReserveTx(s1, m, a1, now1), ReserveTx(s2, m, a2, now2)]);
            && (SpentTotal(both, w.refunds, m, None) <= w.mandates[m].totalCap <==>
                Sum(Query(m, None, None), w.reservations) - RefundedTo(w.refunds, m) + a1 + a2 <= w.mandates[m].totalCap)
            && (WithinDaily(both, m, w.mandates[m].dailyCap) <==>
                DayOf(now1) != DayOf(now2) || SpentToday(w.reservations, m, now1, None) + a1 + a2 <= w.mandates[m].dailyCap)
  {
    var cap := w.mandates[m].dailyCap;
    var both := AfterAll(w.reservations, [ReserveTx(s1, m, a1, now1), ReserveTx(s2, m, a2, now2)]);
    BothSum(Query(m, None, None), w.reservations, m, s1, a1, now1, s2, a2, now2);
    BothSum(Query(m, Some(DayOf(now1)), None), w.reservations, m, s1, a1, now1, s2, a2, now2);
    if DayOf(now1) != DayOf(now2) || SpentToday(w.reservations, m, now1, None) + a1 + a2 <= cap {
      forall day: int ensures Sum(Query(m, Some(day), None), both) <= cap {
        BothSum(Query(m, Some(day), None), w.reservations, m, s1, a1, now1, s2, a2, now2);
      }
    } else {
      assert Sum(Query(m, Some(DayOf(now1)), None), both) > cap;
    }
  }

  lemma BothAdd(rs: seq<Reservation>, m: nat, s1: nat, a1: int, now1: int, s2: nat, a2: int, now2: int)
    requires s1 != s2 && a1 >= 0 && a2 >= 0 && OpenFor(rs, s1).None? && OpenFor(rs, s2).None?
    ensures AfterAll(rs, [ReserveTx(s1, m, a1, now1), ReserveTx(s2, m, a2, now2)])
         == rs + [Reservation(s1, m, a1, Reserved, now1)] + [Reservation(s2, m, a2, Reserved, now2)]
  {
    TwoAfter(rs, ReserveTx(s1, m, a1, now1), ReserveTx(s2, m, a2, now2));
    OpenAppend(rs, Reservation(s1, m, a1, Reserved, now1), s2);
  }

  lemma BothSum(q: Query, rs: seq<Reservation>, m: nat, s1: nat, a1: int, now1: int, s2: nat, a2: int, now2: int)
    requires s1 != s2 && a1 >= 0 && a2 >= 0 && OpenFor(rs, s1).None? && OpenFor(rs, s2).None?
    ensures var r1 := Reservation(s1, m, a1, Reserved, now1); var r2 := Reservation(s2, m, a2, Reserved, now2);
            Sum(q, AfterAll(rs, [ReserveTx(s1, m, a1, now1), ReserveTx(s2, m, a2, now2)])) == Sum(q, rs) + Weight(q, r1) + Weight(q, r2)
  {
    BothAdd(rs, m, s1, a1, now1, s2, a2, now2);
    SumAppend(q, rs, Reservation(s1, m, a1, Reserved, now1));
    SumAppend(q, rs + [Reservation(s1, m, a1, Reserved, now1)], Reservation(s2, m, a2, Reserved, now2));
  }

  lemma TwoAfter(rs: seq<Reservation>, t1: Transaction, t2: Transaction)
    ensures AfterAll(rs, [t1, t2]) == After(After(rs, t1), t2)
  {
    var ts := [t1, t2];
    assert ts[..1] == [t1] && [t1][..0] == [];
    assert AfterAll(rs, [t1]) == After(AfterAll(rs, [t1][..0]), t1);
    assert AfterAll(rs, ts) == After(AfterAll(rs, ts[..1]), ts[1]);
  }
}
