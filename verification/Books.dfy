/** Queries over the tables, and how they respond to the inserts and updates the services make. */
module Books {
  import opened Basics
  import opened Gate
  import opened RefundGate
  import opened Records

  // ---- days --------------------------------------------------------------------------------------

  function DayStart(now: int): int { now - now % DAY }

  function DayOf(t: int): int { t / DAY }

  /** [start, end) of the UTC day containing `now` holds exactly the instants of that day: the days partition time. */
  lemma DaysPartitionTime(now: int, t: int)
    ensures DayStart(now) <= t < DayStart(now) + DAY <==> DayOf(t) == DayOf(now)
    ensures DayStart(now) <= now < DayStart(now) + DAY
  {
  }

  // ---- reservations ------------------------------------------------------------------------------

  /** Which reservations a spend figure adds up: live ones on a mandate, on one day or any, except a session's own. */
  datatype Query = Query(mandate: nat, day: Option<int>, except: Option<nat>)

  predicate Live(r: Reservation) { r.state != Released }

  predicate Selects(q: Query, r: Reservation) {
    && r.mandate == q.mandate && Live(r)
    && (q.day.Some? ==> DayOf(r.createdAt) == q.day.value)
    && (q.except.Some? ==> r.session != q.except.value)
  }

  function Weight(q: Query, r: Reservation): int { if Selects(q, r) then r.amount else 0 }

  function Sum(q: Query, rs: seq<Reservation>): int {
    if rs == [] then 0 else Sum(q, rs[..|rs| - 1]) + Weight(q, rs[|rs| - 1])
  }

  /** How many reservations of a session are in a state. */
  function Count(rs: seq<Reservation>, sid: nat, state: HoldState): nat {
    if rs == [] then 0
    else Count(rs[..|rs| - 1], sid, state) + (if rs[|rs| - 1].session == sid && rs[|rs| - 1].state == state then 1 else 0)
  }

  predicate IsOpen(r: Reservation, sid: nat) { r.session == sid && r.state == Reserved }

  function OpenFor(rs: seq<Reservation>, sid: nat): Option<Reservation> {
    if rs == [] then None
    else if OpenFor(rs[..|rs| - 1], sid).Some? then OpenFor(rs[..|rs| - 1], sid)
    else if IsOpen(rs[|rs| - 1], sid) then Some(rs[|rs| - 1])
    else None
  }

  function Moved(r: Reservation, sid: nat, state: HoldState): Reservation {
    if IsOpen(r, sid) then r.(state := state) else r
  }

  /** The update statement: every open reservation of the session changes state. */
  function Transition(rs: seq<Reservation>, sid: nat, state: HoldState): (moved: seq<Reservation>)
    ensures |moved| == |rs| && forall i | 0 <= i < |rs| :: moved[i] == Moved(rs[i], sid, state)
  {
    if rs == [] then [] else Transition(rs[..|rs| - 1], sid, state) + [Moved(rs[|rs| - 1], sid, state)]
  }

  lemma SumAppend(q: Query, rs: seq<Reservation>, r: Reservation)
    ensures Sum(q, rs + [r]) == Sum(q, rs) + Weight(q, r)
  {
    assert (rs + [r])[..|rs|] == rs;
  }

  lemma CountAppend(rs: seq<Reservation>, r: Reservation, sid: nat, state: HoldState)
    ensures Count(rs + [r], sid, state) == Count(rs, sid, state) + (if r.session == sid && r.state == state then 1 else 0)
  {
    assert (rs + [r])[..|rs|] == rs;
  }

  lemma OpenAppend(rs: seq<Reservation>, r: Reservation, sid: nat)
    ensures OpenFor(rs + [r], sid) ==
            if OpenFor(rs, sid).Some? then OpenFor(rs, sid) else if IsOpen(r, sid) then Some(r) else None
  {
    assert (rs + [r])[..|rs|] == rs;
  }

  lemma {:induction false} OpenIsCounted(rs: seq<Reservation>, sid: nat)
    ensures OpenFor(rs, sid).Some? <==> Count(rs, sid, Reserved) > 0
    ensures OpenFor(rs, sid).Some? ==> IsOpen(OpenFor(rs, sid).value, sid) && OpenFor(rs, sid).value in rs
  {
    if rs != [] {
      OpenIsCounted(rs[..|rs| - 1], sid);
    }
  }

  lemma {:induction false} NothingToMove(rs: seq<Reservation>, sid: nat, state: HoldState)
    requires Count(rs, sid, Reserved) == 0
    ensures Transition(rs, sid, state) == rs
  {
    if rs != [] {
      NothingToMove(rs[..|rs| - 1], sid, state);
    }
  }

  /** With at most one open reservation, a transition moves exactly that one. */
  lemma {:induction false} TransitionSum(q: Query, rs: seq<Reservation>, sid: nat, state: HoldState)
    requires Count(rs, sid, Reserved) <= 1 && state != Reserved
    ensures Sum(q, Transition(rs, sid, state)) ==
            match OpenFor(rs, sid)
            case None => Sum(q, rs)
            case Some(r) => Sum(q, rs) - Weight(q, r) + Weight(q, r.(state := state))
  {
    if rs != [] {
      var front, last := rs[..|rs| - 1], rs[|rs| - 1];
      OpenIsCounted(front, sid);
      SumAppend(q, Transition(front, sid, state), Moved(last, sid, state));
      if OpenFor(front, sid).Some? {
        TransitionSum(q, front, sid, state);
      } else {
        NothingToMove(front, sid, state);
      }
    }
  }

  lemma {:induction false} TransitionCount(rs: seq<Reservation>, sid: nat, state: HoldState, s: nat, st: HoldState)
    requires state != Reserved
    ensures Count(Transition(rs, sid, state), s, st) ==
            if s != sid then Count(rs, s, st)
            else if st == Reserved then 0
            else if st == state then Count(rs, s, st) + Count(rs, s, Reserved)
            else Count(rs, s, st)
  {
    if rs != [] {
      assert Transition(rs, sid, state)[..|rs| - 1] == Transition(rs[..|rs| - 1], sid, state);
      TransitionCount(rs[..|rs| - 1], sid, state, s, st);
    }
  }

  lemma {:induction false} TransitionOpen(rs: seq<Reservation>, sid: nat, state: HoldState, s: nat)
    requires state != Reserved
    ensures OpenFor(Transition(rs, sid, state), s) == if s == sid then None else OpenFor(rs, s)
  {
    if rs != [] {
      assert Transition(rs, sid, state)[..|rs| - 1] == Transition(rs[..|rs| - 1], sid, state);
      TransitionOpen(rs[..|rs| - 1], sid, state, s);
    }
  }

  // ---- payments ----------------------------------------------------------------------------------

  predicate Seen(ps: seq<Payment>, sid: nat, paymentId: string) {
    exists i | 0 <= i < |ps| :: ps[i].session == sid && ps[i].paymentId == paymentId
  }

  predicate IsCapture(p: Payment, sid: nat) { p.session == sid && p.status == CapturedPay }

  function FirstCaptured(ps: seq<Payment>, sid: nat): Option<Payment> {
    if ps == [] then None
    else if FirstCaptured(ps[..|ps| - 1], sid).Some? then FirstCaptured(ps[..|ps| - 1], sid)
    else if IsCapture(ps[|ps| - 1], sid) then Some(ps[|ps| - 1])
    else None
  }

  lemma CapturedAppend(ps: seq<Payment>, p: Payment, sid: nat)
    ensures FirstCaptured(ps + [p], sid) ==
            if FirstCaptured(ps, sid).Some? then FirstCaptured(ps, sid) else if IsCapture(p, sid) then Some(p) else None
  {
    assert (ps + [p])[..|ps|] == ps;
  }

  // ---- reviews -----------------------------------------------------------------------------------

  function LatestReview(rs: seq<Review>, sid: nat): Option<Review> {
    if rs == [] then None
    else if rs[|rs| - 1].session == sid then Some(rs[|rs| - 1])
    else LatestReview(rs[..|rs| - 1], sid)
  }

  lemma ReviewAppend(rs: seq<Review>, r: Review, sid: nat)
    ensures LatestReview(rs + [r], sid) == if r.session == sid then Some(r) else LatestReview(rs, sid)
  {
    assert (rs + [r])[..|rs|] == rs;
  }

  // ---- refunds -----------------------------------------------------------------------------------

  function RefundedTo(fs: seq<Refund>, mandate: nat): int {
    if fs == [] then 0
    else RefundedTo(fs[..|fs| - 1], mandate) + (if fs[|fs| - 1].mandate == Some(mandate) then fs[|fs| - 1].amount else 0)
  }

  function RefundedOf(fs: seq<Refund>, sid: nat): int {
    if fs == [] then 0
    else RefundedOf(fs[..|fs| - 1], sid) + (if fs[|fs| - 1].session == sid then fs[|fs| - 1].amount else 0)
  }

  function References(fs: seq<Refund>, sid: nat): seq<string> {
    if fs == [] then []
    else References(fs[..|fs| - 1], sid) + (if fs[|fs| - 1].session == sid then [fs[|fs| - 1].reference] else [])
  }

  lemma CreditAppend(fs: seq<Refund>, f: Refund, mandate: nat)
    ensures RefundedTo(fs + [f], mandate) == RefundedTo(fs, mandate) + (if f.mandate == Some(mandate) then f.amount else 0)
  {
    assert (fs + [f])[..|fs|] == fs;
  }

  lemma RefundAppend(fs: seq<Refund>, f: Refund, sid: nat)
    ensures RefundedOf(fs + [f], sid) == RefundedOf(fs, sid) + (if f.session == sid then f.amount else 0)
    ensures References(fs + [f], sid) == References(fs, sid) + (if f.session == sid then [f.reference] else [])
  {
    assert (fs + [f])[..|fs|] == fs;
  }

  // ---- spend -------------------------------------------------------------------------------------

  function SpentTotal(rs: seq<Reservation>, fs: seq<Refund>, mandate: nat, except: Option<nat>): int {
    Max(0, Sum(Query(mandate, None, except), rs) - RefundedTo(fs, mandate))
  }

  function SpentToday(rs: seq<Reservation>, mandate: nat, now: int, except: Option<nat>): int {
    Sum(Query(mandate, Some(DayOf(now)), except), rs)
  }

  // ---- mandates ----------------------------------------------------------------------------------

  predicate Applies(m: Mandate, agent: nat, now: int) {
    m.agent == agent && m.standing == Active && m.startsAt <= now < m.expiresAt
  }

  /** The latest created mandate in force for the agent; on a tie, the later row. */
  function ActiveFor(ms: seq<Mandate>, agent: nat, now: int): (best: Option<nat>)
    ensures best.Some? ==> best.value < |ms| && Applies(ms[best.value], agent, now)
    ensures best.None? ==> forall i | 0 <= i < |ms| :: !Applies(ms[i], agent, now)
    ensures best.Some? ==> forall i | 0 <= i < |ms| && Applies(ms[i], agent, now) ::
                             ms[i].createdAt < ms[best.value].createdAt
                             || (ms[i].createdAt == ms[best.value].createdAt && i <= best.value)
  {
    if ms == [] then None
    else
      var n := |ms| - 1;
      var b := ActiveFor(ms[..n], agent, now);
      if Applies(ms[n], agent, now) && (b.None? || ms[n].createdAt >= ms[b.value].createdAt) then Some(n) else b
  }

  function GateMandateOf(ms: seq<Mandate>, id: nat): GateMandate
    requires id < |ms|
  {
    var m := ms[id];
    GateMandate(id, m.currency, m.perTxnCap, m.dailyCap, m.totalCap, m.categories, m.startsAt, m.expiresAt, m.standing)
  }
}
