/** The hash-chained audit ledger: append, anchor and verify. */
module Ledger {
  import opened Basics

  type Digest = string

  const GENESIS: Digest := "0000000000000000000000000000000000000000000000000000000000000000"

  /** What is hashed for one event, next to the previous hash. */
  datatype Body<+P> = Body(
    seqNo: int, id: string, ts: int, kind: string, actor: string, session: Option<nat>, payload: P)

  /** One stored row; the payload is stored as text. */
  datatype Row = Row(
    seqNo: int, id: string, ts: int, kind: string, actor: string, session: Option<nat>, payload: string,
    prev: Digest, hash: Digest)

  /** JSON reading and writing, and the event hash. Nothing is assumed of the hash. */
  datatype Codec<!P> = Codec(parse: string -> Option<P>, render: P -> string, hash: (Digest, Body<P>) -> Digest)

  /** Reading back what was written gives the payload that was written. */
  ghost predicate RoundTrips<P(!new)>(c: Codec<P>) { forall p: P :: c.parse(c.render(p)) == Some(p) }

  datatype Anchor = Anchor(seqNo: nat, hash: Digest)

  datatype Finding = Verified | AnchorPresent | OutOfOrder | Unparsable | PrevMismatch | HashMismatch | TailCut | TailRewritten

  datatype VerifyResult = VerifyResult(ok: bool, count: nat, badSeq: Option<int>, finding: Finding)

  // ---- what a well-formed chain is ---------------------------------------------------------------

  function PrevOf(rows: seq<Row>, i: nat): Digest
    requires i <= |rows|
  {
    if i == 0 then GENESIS else rows[i - 1].hash
  }

  function Decode<P>(c: Codec<P>, row: Row): Body<P>
    requires c.parse(row.payload).Some?
  {
    Body(row.seqNo, row.id, row.ts, row.kind, row.actor, row.session, c.parse(row.payload).value)
  }

  /** What verification finds at row i, given only that row and the hash stored just before it. */
  function RowFinding<P>(c: Codec<P>, rows: seq<Row>, i: nat): Finding
    requires i < |rows|
  {
    var row := rows[i];
    if row.seqNo != i + 1 then OutOfOrder
    else if c.parse(row.payload).None? then Unparsable
    else if row.prev != PrevOf(rows, i) then PrevMismatch
    else if c.hash(row.prev, Decode(c, row)) != row.hash then HashMismatch
    else Verified
  }

  predicate RowOk<P>(c: Codec<P>, rows: seq<Row>, i: nat)
    requires i < |rows|
  {
    RowFinding(c, rows, i) == Verified
  }

  predicate ChainOk<P>(c: Codec<P>, rows: seq<Row>) { forall i | 0 <= i < |rows| :: RowOk(c, rows, i) }

  predicate Readable<P>(c: Codec<P>, rows: seq<Row>) { forall i | 0 <= i < |rows| :: c.parse(rows[i].payload).Some? }

  lemma ChainReadable<P>(c: Codec<P>, rows: seq<Row>)
    requires ChainOk(c, rows)
    ensures Readable(c, rows)
  {
    forall i | 0 <= i < |rows| ensures c.parse(rows[i].payload).Some? {
      assert RowOk(c, rows, i);
    }
  }

  /** The verdict as a property of the rows: the least bad row, then the anchor. */
  predicate Verdict<P>(c: Codec<P>, rows: seq<Row>, anchor: Option<Anchor>, v: VerifyResult) {
    if !ChainOk(c, rows) then
      && !v.ok && 1 <= v.count <= |rows|
      && (forall i | 0 <= i < v.count - 1 :: RowOk(c, rows, i))
      && !RowOk(c, rows, v.count - 1)
      && v.badSeq == Some(rows[v.count - 1].seqNo) && v.finding == RowFinding(c, rows, v.count - 1)
    else if anchor.None? || anchor.value.seqNo == 0 then v == VerifyResult(true, |rows|, None, Verified)
    else if |rows| < anchor.value.seqNo then v == VerifyResult(false, |rows|, Some(anchor.value.seqNo), TailCut)
    else if rows[anchor.value.seqNo - 1].hash != anchor.value.hash then
      v == VerifyResult(false, |rows|, Some(anchor.value.seqNo), TailRewritten)
    else v == VerifyResult(true, |rows|, None, AnchorPresent)
  }

  function HeadAnchor(rows: seq<Row>): Anchor { Anchor(|rows|, PrevOf(rows, |rows|)) }

  /** The row an append adds. */
  function NextRow<P>(c: Codec<P>, rows: seq<Row>, id: string, ts: int, kind: string, actor: string,
                      session: Option<nat>, payload: P): Row
  {
    var body := Body(|rows| + 1, id, ts, kind, actor, session, payload);
    Row(body.seqNo, id, ts, kind, actor, session, c.render(payload), PrevOf(rows, |rows|), c.hash(PrevOf(rows, |rows|), body))
  }

  datatype Entry<+P> = Entry(session: Option<nat>, payload: P)

  /** The events a verified ledger records. */
  function Entries<P>(c: Codec<P>, rows: seq<Row>): (es: seq<Entry<P>>)
    requires Readable(c, rows)
    ensures |es| == |rows|
  {
    if rows == [] then []
    else Entries(c, rows[..|rows| - 1]) + [Entry(rows[|rows| - 1].session, c.parse(rows[|rows| - 1].payload).value)]
  }

  lemma AppendKeepsVerified<P(!new)>(c: Codec<P>, rows: seq<Row>, id: string, ts: int, kind: string, actor: string,
                                     session: Option<nat>, payload: P)
    requires RoundTrips(c) && ChainOk(c, rows)
    ensures ChainOk(c, rows + [NextRow(c, rows, id, ts, kind, actor, session, payload)])
    ensures Readable(c, rows) && Readable(c, rows + [NextRow(c, rows, id, ts, kind, actor, session, payload)])
    ensures Entries(c, rows + [NextRow(c, rows, id, ts, kind, actor, session, payload)])
         == Entries(c, rows) + [Entry(session, payload)]
  {
    ChainReadable(c, rows);
    var row := NextRow(c, rows, id, ts, kind, actor, session, payload);
    var more := rows + [row];
    forall i | 0 <= i < |more| ensures RowOk(c, more, i) {
      if i < |rows| {
        assert RowOk(c, rows, i) && more[i] == rows[i] && PrevOf(more, i) == PrevOf(rows, i);
      } else {
        assert PrevOf(more, i) == PrevOf(rows, i);
        assert c.parse(c.render(payload)) == Some(payload);
      }
    }
    assert more[..|rows|] == rows;
    ChainReadable(c, more);
  }

  class AuditLedger<P(!new, ==)> {
    const codec: Codec<P>
    var rows: seq<Row>

    constructor (codec: Codec<P>)
      ensures rows == [] && this.codec == codec
    {
      this.codec := codec;
      rows := [];
    }

    ghost predicate Valid()
      reads this
    {
      RoundTrips(codec) && ChainOk(codec, rows)
    }

    ghost function Trail(): seq<Entry<P>>
      reads this
      requires Valid()
    {
      ChainReadable(codec, rows);
      Entries(codec, rows)
    }

    method Append(kind: string, actor: string, payload: P, session: Option<nat>, id: string, now: int)
      requires Valid()
      modifies this`rows
      ensures Valid()
      ensures rows == old(rows) + [NextRow(codec, old(rows), id, now, kind, actor, session, payload)]
      ensures Trail() == old(Trail()) + [Entry(session, payload)]
    {
      AppendKeepsVerified(codec, rows, id, now, kind, actor, session, payload);
      var seqNo, prev := 1, GENESIS;
      if rows != [] {
        seqNo, prev := |rows| + 1, rows[|rows| - 1].hash;
      }
      var hash := codec.hash(prev, Body(seqNo, id, now, kind, actor, session, payload));
      rows := rows + [Row(seqNo, id, now, kind, actor, session, codec.render(payload), prev, hash)];
    }

    method CurrentAnchor() returns (a: Anchor)
      ensures a == HeadAnchor(rows)
    {
      if rows == [] {
        return Anchor(0, GENESIS);
      }
      return Anchor(|rows|, rows[|rows| - 1].hash);
    }
  }

  /** Recompute every hash; with an anchor, also require that event to still be there, unchanged. */
  method Verify<P>(c: Codec<P>, rows: seq<Row>, anchor: Option<Anchor>) returns (v: VerifyResult)
    ensures Verdict(c, rows, anchor, v)
  {
    var prev, expected, n := GENESIS, 1, 0;
    var atAnchor: Option<Digest> := None;
    for i := 0 to |rows|
      invariant n == i && expected == i + 1 && prev == PrevOf(rows, i)
      invariant forall j | 0 <= j < i :: RowOk(c, rows, j)
      invariant anchor.Some? ==>
                  atAnchor == if 1 <= anchor.value.seqNo <= i then Some(rows[anchor.value.seqNo - 1].hash) else None
    {
      var row := rows[i];
      n := n + 1;
      if anchor.Some? && row.seqNo == anchor.value.seqNo {
        atAnchor := Some(row.hash);
      }
      if row.seqNo != expected {
        assert !RowOk(c, rows, i);
        return VerifyResult(false, n, Some(row.seqNo), OutOfOrder);
      }
      var payload := c.parse(row.payload);
      if payload.None? {
        assert !RowOk(c, rows, i);
        return VerifyResult(false, n, Some(row.seqNo), Unparsable);
      }
      if row.prev != prev {
        assert !RowOk(c, rows, i);
        return VerifyResult(false, n, Some(row.seqNo), PrevMismatch);
      }
      var body := Body(row.seqNo, row.id, row.ts, row.kind, row.actor, row.session, payload.value);
      if c.hash(prev, body) != row.hash {
        assert !RowOk(c, rows, i);
        return VerifyResult(false, n, Some(row.seqNo), HashMismatch);
      }
      prev, expected := row.hash, expected + 1;
    }
    if anchor.None? || anchor.value.seqNo == 0 {
      return VerifyResult(true, n, None, Verified);
    }
    if n < anchor.value.seqNo {
      return VerifyResult(false, n, Some(anchor.value.seqNo), TailCut);
    }
    if atAnchor != Some(anchor.value.hash) {
      return VerifyResult(false, n, Some(anchor.value.seqNo), TailRewritten);
    }
    return VerifyResult(true, n, None, AnchorPresent);
  }
}
