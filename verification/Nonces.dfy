/**
 * Replay protection for signing agents. A nonce is remembered with the time of its acceptance and forgotten once it
 * is older than twice the allowed clock skew; a signed request is still never accepted twice.
 */
module Nonces {
  import opened Basics

  const MAX_SKEW: int := 300

  /** The headers of a request; `target` stands for method, path, query and body. */
  datatype Request = Request(agent: nat, timestamp: Option<string>, nonce: Option<string>, signature: Option<string>, target: string)

  /** Reading a timestamp and checking a signature; nothing is assumed of either. */
  datatype Crypto = Crypto(toInt: string -> Option<int>, verify: (nat, string, int, string, string) -> bool)

  datatype Verdict = Accepted | SignatureRequired | MalformedTimestamp | StaleTimestamp | BadSignature | ReplayedNonce

  type NonceTable = map<(nat, string), int>

  // ---- one request -------------------------------------------------------------------------------

  predicate Filled(s: Option<string>) { s.Some? && s.value != "" }

  predicate AllHeaders(r: Request) { Filled(r.timestamp) && Filled(r.nonce) && Filled(r.signature) }

  predicate Stale(ts: int, now: int) { now - ts > MAX_SKEW || ts - now > MAX_SKEW }

  function TimeOf(c: Crypto, r: Request): Option<int> {
    if r.timestamp.Some? then c.toInt(r.timestamp.value) else None
  }

  predicate Signed(c: Crypto, r: Request) {
    && AllHeaders(r) && TimeOf(c, r).Some?
    && c.verify(r.agent, r.signature.value, TimeOf(c, r).value, r.nonce.value, r.target)
  }

  /** In the order of the guards. */
  function Judged(c: Crypto, table: NonceTable, r: Request, now: int): Verdict {
    if !AllHeaders(r) then SignatureRequired
    else if TimeOf(c, r).None? then MalformedTimestamp
    else if Stale(TimeOf(c, r).value, now) then StaleTimestamp
    else if !Signed(c, r) then BadSignature
    else if (r.agent, r.nonce.value) in table then ReplayedNonce
    else Accepted
  }

  function Pruned(table: NonceTable, now: int, maxAge: int): NonceTable {
    map k | k in table && table[k] >= now - maxAge :: table[k]
  }

  function NonceOf(r: Request): string { if r.nonce.Some? then r.nonce.value else "" }

  /** Only an accepted request is remembered, and only then are old nonces forgotten. */
  function TableAfter(c: Crypto, table: NonceTable, r: Request, now: int, maxAge: int): NonceTable {
    if Judged(c, table, r, now) != Accepted then table
    else Pruned(table[(r.agent, NonceOf(r)) := now], now, maxAge)
  }

  // ---- the guard as it runs ----------------------------------------------------------------------

  class NonceStore {
    var table: NonceTable

    constructor ()
      ensures table == map[]
    {
      table := map[];
    }

    /** True the first time this agent presents this nonce. */
    method Remember(agent: nat, nonce: string, now: int) returns (first: bool)
      modifies this
      ensures first == ((agent, nonce) !in old(table))
      ensures table == if first then old(table)[(agent, nonce) := now] else old(table)
    {
      first := (agent, nonce) !in table;
      if first {
        table := table[(agent, nonce) := now];
      }
    }

    method Prune(now: int, maxAge: int) returns (deleted: nat)
      modifies this
      ensures table == Pruned(old(table), now, maxAge)
      ensures deleted == |old(table)| - |table|
    {
      var kept := map k | k in table && table[k] >= now - maxAge :: table[k];
      FewerKeys(kept, table);
      deleted := |table| - |kept|;
      table := kept;
    }

    method RequireSignature(c: Crypto, r: Request, now: int) returns (v: Verdict)
      modifies this
      ensures v == Judged(c, old(table), r, now)
      ensures table == TableAfter(c, old(table), r, now, 2 * MAX_SKEW)
    {
      if !(Filled(r.timestamp) && Filled(r.nonce) && Filled(r.signature)) {
        return SignatureRequired;
      }
      var ts := c.toInt(r.timestamp.value);
      if ts.None? {
        return MalformedTimestamp;
      }
      var skew := if now >= ts.value then now - ts.value else ts.value - now;
      if skew > MAX_SKEW {
        return StaleTimestamp;
      }
      if !c.verify(r.agent, r.signature.value, ts.value, r.nonce.value, r.target) {
        return BadSignature;
      }
      var first := Remember(r.agent, r.nonce.value, now);
      if !first {
        return ReplayedNonce;
      }
      var _ := Prune(now, 2 * MAX_SKEW);
      return Accepted;
    }
  }

  lemma FewerKeys(a: NonceTable, b: NonceTable)
    requires a.Keys <= b.Keys
    ensures |a| <= |b|
  {
    SubsetSize(a.Keys, b.Keys);
    assert |a| == |a.Keys| && |b| == |b.Keys|;
  }

  lemma {:induction false} SubsetSize<T>(a: set<T>, b: set<T>)
    requires a <= b
    ensures |a| <= |b|
  {
    if a != {} {
      var x :| x in a;
      SubsetSize(a - {x}, b - {x});
    }
  }

  // ---- runs --------------------------------------------------------------------------------------

  datatype Arrival = Arrival(request: Request, now: int)

  predicate ClockForward(xs: seq<Arrival>) { forall i, j | 0 <= i < j < |xs| :: xs[i].now <= xs[j].now }

  /** The nonce table before the i-th arrival, with a given pruning age. */
  function TableAt(c: Crypto, xs: seq<Arrival>, i: nat, maxAge: int): NonceTable
    requires i <= |xs|
  {
    if i == 0 then map[] else TableAfter(c, TableAt(c, xs, i - 1, maxAge), xs[i - 1].request, xs[i - 1].now, maxAge)
  }

  predicate AcceptedAt(c: Crypto, xs: seq<Arrival>, i: nat, maxAge: int)
    requires i < |xs|
  {
    Judged(c, TableAt(c, xs, i, maxAge), xs[i].request, xs[i].now) == Accepted
  }

  /** Agent, nonce and timestamp of a signed request. */
  function Identity(c: Crypto, r: Request): (nat, string, Option<int>) { (r.agent, NonceOf(r), TimeOf(c, r)) }

  /** A remembered nonce stays remembered for the pruning age, whatever arrives. */
  lemma {:induction false} NonceKept(c: Crypto, xs: seq<Arrival>, i: nat, k: nat, maxAge: int)
    requires ClockForward(xs) && i < k < |xs| && AcceptedAt(c, xs, i, maxAge) && maxAge >= 0
    requires xs[k - 1].now - maxAge <= xs[i].now
    ensures var key := (xs[i].request.agent, NonceOf(xs[i].request)); var table := TableAt(c, xs, k, maxAge);
            key in table && table[key] >= xs[i].now
    decreases k
  {
    if k > i + 1 {
      NonceKept(c, xs, i, k - 1, maxAge);
    }
  }

  /** An agent's nonce is accepted again only after more than the pruning age. */
  lemma NonceReuseTakesTime(c: Crypto, xs: seq<Arrival>, i: nat, j: nat, maxAge: int)
    requires ClockForward(xs) && i < j < |xs| && maxAge >= 0
    requires AcceptedAt(c, xs, i, maxAge) && AcceptedAt(c, xs, j, maxAge)
    requires xs[i].request.agent == xs[j].request.agent && NonceOf(xs[i].request) == NonceOf(xs[j].request)
    ensures xs[j].now - xs[i].now > maxAge
  {
    if xs[j].now - maxAge <= xs[i].now {
      assert xs[j - 1].now <= xs[j].now;
      NonceKept(c, xs, i, j, maxAge);
    }
  }

  /** No identity is accepted twice on this run. */
  predicate NeverTwice(c: Crypto, xs: seq<Arrival>, maxAge: int) {
    forall i, j | 0 <= i < j < |xs| && AcceptedAt(c, xs, i, maxAge) && AcceptedAt(c, xs, j, maxAge) ::
      Identity(c, xs[i].request) != Identity(c, xs[j].request)
  }

  /** Replay protection survives pruning: with a clock that never goes back, the same agent, nonce and timestamp are
      accepted at most once, although the nonce itself is forgotten after twice the skew. */
  lemma ReplaySafe(c: Crypto, xs: seq<Arrival>, maxAge: int)
    requires ClockForward(xs) && maxAge >= 2 * MAX_SKEW
    ensures NeverTwice(c, xs, maxAge)
  {
    forall i, j | 0 <= i < j < |xs| && AcceptedAt(c, xs, i, maxAge) && AcceptedAt(c, xs, j, maxAge)
      ensures Identity(c, xs[i].request) != Identity(c, xs[j].request)
    {
      if Identity(c, xs[i].request) == Identity(c, xs[j].request) {
        NonceReuseTakesTime(c, xs, i, j, maxAge);
      }
    }
  }

  /** A fresh, correctly signed request under a nonce the agent has not used is always accepted. */
  lemma NewNonceAccepted(c: Crypto, xs: seq<Arrival>, i: nat, maxAge: int)
    requires i < |xs| && Signed(c, xs[i].request) && !Stale(TimeOf(c, xs[i].request).value, xs[i].now)
    requires forall k | 0 <= k < i :: xs[k].request.agent != xs[i].request.agent || NonceOf(xs[k].request) != NonceOf(xs[i].request)
    ensures AcceptedAt(c, xs, i, maxAge)
  {
    var key := (xs[i].request.agent, NonceOf(xs[i].request));
    if key in TableAt(c, xs, i, maxAge) {
      OnlyUsedNonces(c, xs, i, maxAge, key);
    }
  }

  /** A request is accepted exactly if it carries the three headers, a readable timestamp no more than 300 seconds from
      now and a signature that verifies, and the agent's nonce is not remembered. */
  lemma AcceptedIff(c: Crypto, xs: seq<Arrival>, i: nat, maxAge: int)
    requires i < |xs|
    ensures var r, now := xs[i].request, xs[i].now;
            AcceptedAt(c, xs, i, maxAge) <==>
              && r.timestamp !in {None, Some("")} && r.nonce !in {None, Some("")} && r.signature !in {None, Some("")}
              && c.toInt(r.timestamp.value).Some?
              && -300 <= now - c.toInt(r.timestamp.value).value <= 300
              && c.verify(r.agent, r.signature.value, c.toInt(r.timestamp.value).value, r.nonce.value, r.target)
              && (r.agent, r.nonce.value) !in TableAt(c, xs, i, maxAge)
  {
  }

  lemma {:induction false} OnlyUsedNonces(c: Crypto, xs: seq<Arrival>, i: nat, maxAge: int, key: (nat, string))
    requires i <= |xs| && key in TableAt(c, xs, i, maxAge)
    ensures exists k | 0 <= k < i :: (xs[k].request.agent, NonceOf(xs[k].request)) == key
  {
    if i > 0 && key in TableAt(c, xs, i - 1, maxAge) {
      OnlyUsedNonces(c, xs, i - 1, maxAge, key);
    }
  }

  // ---- twice the skew is tight -------------------------------------------------------------------

  function Trusting(): Crypto { Crypto(s => if s == "300" then Some(300) else Some(600), (a, sig, ts, nonce, target) => true) }

  function Early(): Request { Request(0, Some("300"), Some("n"), Some("s"), "") }

  function Other(): Request { Request(0, Some("600"), Some("m"), Some("s"), "") }

  /** A request at the start of its window, another one at the end of it, then the first one again. */
  function WindowEdges(): seq<Arrival> { [Arrival(Early(), 0), Arrival(Other(), 600), Arrival(Early(), 600)] }

  /** Any shorter pruning age lets some run accept the same request twice. */
  lemma ShorterAgeIsUnsafe(maxAge: int)
    requires maxAge < 2 * MAX_SKEW
    ensures ClockForward(WindowEdges()) && !NeverTwice(Trusting(), WindowEdges(), maxAge)
  {
    var c, xs := Trusting(), WindowEdges();
    assert AcceptedAt(c, xs, 0, maxAge);
    var t1 := TableAt(c, xs, 1, maxAge);
    assert t1 == Pruned(map[(0, "n") := 0], 0, maxAge);
    assert AcceptedAt(c, xs, 1, maxAge);
    var t2 := TableAt(c, xs, 2, maxAge);
    assert t2 == Pruned(t1[(0, "m") := 600], 600, maxAge);
    assert (0, "n") !in t2;
    assert AcceptedAt(c, xs, 2, maxAge);
  }

  /** Twice the allowed skew is exactly the age that is needed. */
  lemma TwiceTheSkewIsTight(maxAge: int)
    ensures (forall c: Crypto, xs: seq<Arrival> | ClockForward(xs) :: NeverTwice(c, xs, maxAge)) <==> maxAge >= 2 * MAX_SKEW
  {
    if maxAge >= 2 * MAX_SKEW {
      forall c: Crypto, xs: seq<Arrival> | ClockForward(xs) ensures NeverTwice(c, xs, maxAge) {
        ReplaySafe(c, xs, maxAge);
      }
    } else {
      ShorterAgeIsUnsafe(maxAge);
    }
  }
}
