/** The stores that own the mandates, the reservations, the policy and the agents, as they work on the tables. */
module Stores {
  import opened Basics
  import opened Policy
  import opened Gate
  import opened RefundGate
  import opened Records
  import opened Books
  import opened Checkout

  // ---- the reservation ledger --------------------------------------------------------------------

  class MandateStore {
    const db: Database

    constructor (db: Database)
      ensures this.db == db
    {
      this.db := db;
    }

    /** Issue a mandate: revoke whatever the agent had, then insert. Bad terms change nothing. */
    method Create(agent: nat, perTxn: int, daily: int, total: int, categories: seq<string>, startsAt: int, expiresAt: int, now: int)
      returns (id: Option<nat>)
      modifies db`mandates
      ensures db.mandates == IssueMandate(old(db.mandates), agent, perTxn, daily, total, categories, startsAt, expiresAt, now)
      ensures id == if MandateTerms(perTxn, daily, total, categories, startsAt, expiresAt) then Some(|old(db.mandates)|) else None
    {
      if perTxn < 0 || daily < 0 || total < 0 {
        return None;
      }
      var names := CleanCategories(categories);
      if names.None? {
        return None;
      }
      if expiresAt <= startsAt {
        return None;
      }
      var n := |db.mandates|;
      Supersede(agent);
      db.mandates := db.mandates + [Mandate(agent, INR, perTxn, daily, total, names.value, startsAt, expiresAt, Active, now)];
      return Some(n);
    }

    method Supersede(agent: nat)
      modifies db`mandates
      ensures db.mandates == Superseded(old(db.mandates), agent)
    {
      ghost var before := db.mandates;
      for i := 0 to |db.mandates|
        invariant |db.mandates| == |before|
        invariant forall j | i <= j < |before| :: db.mandates[j] == before[j]
        invariant forall j | 0 <= j < i :: db.mandates[j] == Superseded(before, agent)[j]
      {
        if db.mandates[i].agent == agent && db.mandates[i].standing == Active {
          db.mandates := db.mandates[i := db.mandates[i].(standing := Revoked)];
        }
      }
    }

    method CleanCategories(categories: seq<string>) returns (names: Option<seq<string>>)
      ensures names.Some? <==> forall i | 0 <= i < |categories| :: Strip(categories[i]) != ""
      ensures names.Some? ==> names.value == StripAll(categories)
    {
      var clean: seq<string> := [];
      for i := 0 to |categories|
        invariant |clean| == i && forall j | 0 <= j < i :: Strip(categories[j]) != "" && clean[j] == Strip(categories[j])
      {
        if Strip(categories[i]) == "" {
          return None;
        }
        clean := clean + [Strip(categories[i])];
      }
      return Some(clean);
    }

    method Revoke(m: nat) returns (ok: bool)
      modifies db`mandates
      ensures ok == (m < |old(db.mandates)|)
      ensures db.mandates == if ok then old(db.mandates)[m := old(db.mandates)[m].(standing := Revoked)] else old(db.mandates)
    {
      ok := m < |db.mandates|;
      if ok {
        db.mandates := db.mandates[m := db.mandates[m].(standing := Revoked)];
      }
    }

    /** The newest mandate in force; a later row wins a tie. */
    method ActiveFor(agent: nat, now: int) returns (best: Option<nat>)
      ensures best == Books.ActiveFor(db.mandates, agent, now)
    {
      best := None;
      for i := 0 to |db.mandates|
        invariant best == Books.ActiveFor(db.mandates[..i], agent, now)
      {
        assert db.mandates[..i + 1][..i] == db.mandates[..i];
        var m := db.mandates[i];
        if m.agent == agent && m.standing == Active && m.startsAt <= now && m.expiresAt > now {
          if best.None? || m.createdAt >= db.mandates[best.value].createdAt {
            best := Some(i);
          }
        }
      }
      assert db.mandates[..|db.mandates|] == db.mandates;
    }

    method OpenFor(sid: nat) returns (open: Option<Reservation>)
      ensures open == Books.OpenFor(db.reservations, sid)
    {
      var i := 0;
      while i < |db.reservations|
        invariant i <= |db.reservations|
        invariant Books.OpenFor(db.reservations[..i], sid).None?
      {
        assert db.reservations[..i + 1][..i] == db.reservations[..i];
        if db.reservations[i].session == sid && db.reservations[i].state == Reserved {
          OpenIsFirst(db.reservations, sid, i + 1);
          return Some(db.reservations[i]);
        }
        i := i + 1;
      }
      assert db.reservations[..|db.reservations|] == db.reservations;
      return None;
    }

    /** Refused for a negative amount and while the session already has an open reservation. */
    method Reserve(sid: nat, mandate: nat, amount: int, now: int) returns (ok: bool)
      modifies db`reservations
      ensures ok == (amount >= 0 && Books.OpenFor(old(db.reservations), sid).None?)
      ensures db.reservations ==
              if ok then old(db.reservations) + [Reservation(sid, mandate, amount, Reserved, now)] else old(db.reservations)
    {
      if amount < 0 {
        return false;
      }
      var open := OpenFor(sid);
      if open.Some? {
        return false;
      }
      db.reservations := db.reservations + [Reservation(sid, mandate, amount, Reserved, now)];
      return true;
    }

    /** Moves every open reservation of the session; an error when there is none. */
    method MoveOpen(sid: nat, state: HoldState) returns (ok: bool)
      requires state != Reserved
      modifies db`reservations
      ensures db.reservations == Transition(old(db.reservations), sid, state)
      ensures ok <==> Count(old(db.reservations), sid, Reserved) > 0
    {
      ghost var before := db.reservations;
      var moved := 0;
      for i := 0 to |db.reservations|
        invariant |db.reservations| == |before|
        invariant forall j | i <= j < |before| :: db.reservations[j] == before[j]
        invariant forall j | 0 <= j < i :: db.reservations[j] == Moved(before[j], sid, state)
        invariant moved == Count(before[..i], sid, Reserved)
      {
        assert before[..i + 1][..i] == before[..i];
        if db.reservations[i].session == sid && db.reservations[i].state == Reserved {
          db.reservations := db.reservations[i := db.reservations[i].(state := state)];
          moved := moved + 1;
        }
      }
      assert before[..|before|] == before;
      return moved > 0;
    }

    method Commit(sid: nat) returns (ok: bool)
      modifies db`reservations
      ensures db.reservations == Transition(old(db.reservations), sid, Committed)
      ensures ok <==> Count(old(db.reservations), sid, Reserved) > 0
    {
      ok := MoveOpen(sid, Committed);
    }

    method Release(sid: nat) returns (ok: bool)
      modifies db`reservations
      ensures db.reservations == Transition(old(db.reservations), sid, Released)
      ensures ok <==> Count(old(db.reservations), sid, Reserved) > 0
    {
      ok := MoveOpen(sid, Released);
    }

    /** Total and today's spend of a mandate, over reserved and committed rows; refunds lower the total, down to 0. */
    method Spent(mandate: nat, now: int, except: Option<nat>) returns (total: int, today: int)
      ensures total == SpentTotal(db.reservations, db.refunds, mandate, except)
      ensures today == SpentToday(db.reservations, mandate, now, except)
    {
      var start := DayStart(now);
      total, today := 0, 0;
      for i := 0 to |db.reservations|
        invariant total == Sum(Query(mandate, None, except), db.reservations[..i])
        invariant today == Sum(Query(mandate, Some(DayOf(now)), except), db.reservations[..i])
      {
        var r := db.reservations[i];
        assert db.reservations[..i + 1][..i] == db.reservations[..i];
        DaysPartitionTime(now, r.createdAt);
        if r.mandate == mandate && (r.state == Reserved || r.state == Committed) && !(except.Some? && r.session == except.value) {
          total := total + r.amount;
          if start <= r.createdAt < start + DAY {
            today := today + r.amount;
          }
        }
      }
      assert db.reservations[..|db.reservations|] == db.reservations;
      var refunded := 0;
      for i := 0 to |db.refunds|
        invariant refunded == RefundedTo(db.refunds[..i], mandate)
      {
        assert db.refunds[..i + 1][..i] == db.refunds[..i];
        if db.refunds[i].mandate == Some(mandate) {
          refunded := refunded + db.refunds[i].amount;
        }
      }
      assert db.refunds[..|db.refunds|] == db.refunds;
      total := Max(0, total - refunded);
    }
  }

  /** Once found in a prefix, the open reservation stays the one found. */
  lemma {:induction false} OpenIsFirst(rs: seq<Reservation>, sid: nat, i: nat)
    requires i <= |rs| && Books.OpenFor(rs[..i], sid).Some?
    ensures Books.OpenFor(rs, sid) == Books.OpenFor(rs[..i], sid)
    decreases |rs| - i
  {
    if i == |rs| {
      assert rs[..i] == rs;
    } else {
      assert rs[..i + 1][..i] == rs[..i];
      OpenIsFirst(rs, sid, i + 1);
    }
  }

  // ---- policy, agents and catalog ----------------------------------------------------------------

  class PolicyStore {
    const db: Database

    constructor (db: Database)
      ensures this.db == db
    {
      this.db := db;
    }

    /** Only a document that validates is stored, and in its cleaned form. */
    method Set(doc: Doc) returns (r: Result<Doc, PolicyError>)
      modifies db`policy
      ensures r == Validate(doc)
      ensures db.policy == if r.Ok? then r.value else old(db.policy)
    {
      r := CheckPolicy(doc);
      if r.Ok? {
        db.policy := r.value;
      }
    }
  }

  method CheckPolicy(doc: Doc) returns (r: Result<Doc, PolicyError>)
    ensures r == Validate(doc)
  {
    if doc.otherKeys != {} {
      return Err(UnknownKeys(doc.otherKeys));
    }
    if !HasRequired(doc) {
      return Err(MissingKeys);
    }
    if !NonNegative(doc.maxOrder.value) {
      return Err(BadValue(MaxOrder));
    }
    if !AtLeastOne(doc.maxQtyPerLine.value) {
      return Err(BadValue(MaxQtyPerLine));
    }
    if !doc.inStockOnly.value.JBool? {
      return Err(BadValue(InStockOnly));
    }
    var review, window := Get(doc.reviewAbove, JInt(0)), Get(doc.refundWindow, JInt(30));
    if !NonNegative(review) {
      return Err(BadValue(ReviewAbove));
    }
    if !NonNegative(window) {
      return Err(BadValue(RefundWindow));
    }
    var allowed := CleanStrList(doc.allowedCategories.value);
    if allowed.None? {
      return Err(BadValue(AllowedCategories));
    }
    var blocked := CleanStrList(doc.blockedSkus.value);
    if blocked.None? {
      return Err(BadValue(BlockedSkus));
    }
    return Ok(doc.(allowedCategories := Some(JList(Quote(allowed.value))), blockedSkus := Some(JList(Quote(blocked.value))),
                   reviewAbove := Some(review), refundWindow := Some(window)));
  }

  class AgentStore {
    const db: Database

    constructor (db: Database)
      ensures this.db == db
    {
      this.db := db;
    }

    method Register() returns (id: nat)
      modifies db`agents
      ensures id == |old(db.agents)| && db.agents == old(db.agents) + [Active]
    {
      id := |db.agents|;
      db.agents := db.agents + [Active];
    }

    method Revoke(id: nat) returns (ok: bool)
      modifies db`agents
      ensures ok == (id < |old(db.agents)|)
      ensures db.agents == if ok then old(db.agents)[id := Revoked] else old(db.agents)
    {
      ok := id < |db.agents|;
      if ok {
        db.agents := db.agents[id := Revoked];
      }
    }
  }

  class CatalogStore {
    const db: Database

    constructor (db: Database)
      ensures this.db == db
    {
      this.db := db;
    }

    /** Insert or replace a product; a negative price is refused. */
    method Upsert(id: string, snap: Snap) returns (ok: bool)
      modifies db`catalog
      ensures ok == (snap.price >= 0)
      ensures db.catalog == if ok then old(db.catalog)[id := snap] else old(db.catalog)
    {
      ok := snap.price >= 0;
      if ok {
        db.catalog := db.catalog[id := snap];
      }
    }
  }
}
