/**
 * What the chain detects. The hash is arbitrary, so every conclusion that needs it to be collision-free is
 * stated with its alternative: two different hash inputs, both taken from the ledgers at hand, with one digest.
 */
module LedgerLaws {
  import opened Basics
  import opened Ledger

  // ---- anchors -----------------------------------------------------------------------------------

  /** Row i of the two ledgers records the same event after the same history. */
  predicate SameEvent<P(==)>(c: Codec<P>, a: seq<Row>, b: seq<Row>, i: nat)
    requires i < |a| && i < |b|
    requires c.parse(a[i].payload).Some? && c.parse(b[i].payload).Some?
  {
    a[i].prev == b[i].prev && Decode(c, a[i]) == Decode(c, b[i]) && a[i].hash == b[i].hash
  }

  /** Row i of the two ledgers hashes different inputs to one digest. */
  predicate CollidesAt<P(==)>(c: Codec<P>, a: seq<Row>, b: seq<Row>, i: nat)
    requires i < |a| && i < |b|
    requires c.parse(a[i].payload).Some? && c.parse(b[i].payload).Some?
  {
    && (a[i].prev != b[i].prev || Decode(c, a[i]) != Decode(c, b[i]))
    && c.hash(a[i].prev, Decode(c, a[i])) == c.hash(b[i].prev, Decode(c, b[i]))
  }

  /** Two verified ledgers with equal hashes at row k - 1 record the same first k events, or collide on the way. */
  lemma {:induction false} EqualHashesAgree<P>(c: Codec<P>, a: seq<Row>, b: seq<Row>, k: nat)
    requires ChainOk(c, a) && ChainOk(c, b) && k <= |a| && k <= |b|
    requires PrevOf(a, k) == PrevOf(b, k)
    ensures Readable(c, a) && Readable(c, b)
    ensures (forall i | 0 <= i < k :: SameEvent(c, a, b, i)) || (exists i | 0 <= i < k :: CollidesAt(c, a, b, i))
  {
    ChainReadable(c, a);
    ChainReadable(c, b);
    if k > 0 {
      assert RowOk(c, a, k - 1) && RowOk(c, b, k - 1);
      if CollidesAt(c, a, b, k - 1) {
      } else {
        assert SameEvent(c, a, b, k - 1);
        EqualHashesAgree(c, a, b, k - 1);
      }
    }
  }

  /** An anchor taken from one verified ledger, accepted on another, pins every event up to it. */
  lemma AnchorPinsHistory<P>(c: Codec<P>, a: seq<Row>, k: nat, b: seq<Row>, v: VerifyResult)
    requires ChainOk(c, a) && k <= |a|
    requires Verdict(c, b, Some(HeadAnchor(a[..k])), v) && v.ok
    ensures k <= |b| && Readable(c, a) && Readable(c, b)
    ensures (forall i | 0 <= i < k :: SameEvent(c, a, b, i)) || (exists i | 0 <= i < k :: CollidesAt(c, a, b, i))
  {
    assert PrevOf(a[..k], k) == PrevOf(a, k);
    if k > 0 {
      assert b[k - 1].hash == PrevOf(a, k);
    }
    EqualHashesAgree(c, a, b, k);
  }

  /** What the caller gives an append. */
  datatype Submission<+P> = Submission(id: string, ts: int, kind: string, actor: string, session: Option<nat>, payload: P)

  /** The rows after any sequence of appends. */
  function Grown<P>(c: Codec<P>, rows: seq<Row>, xs: seq<Submission<P>>): seq<Row> {
    if xs == [] then rows
    else
      var front := Grown(c, rows, xs[..|xs| - 1]);
      var x := xs[|xs| - 1];
      front + [NextRow(c, front, x.id, x.ts, x.kind, x.actor, x.session, x.payload)]
  }

  function Submitted<P>(xs: seq<Submission<P>>): seq<Entry<P>> {
    if xs == [] then [] else Submitted(xs[..|xs| - 1]) + [Entry(xs[|xs| - 1].session, xs[|xs| - 1].payload)]
  }

  /** Any sequence of appends keeps the chain and the old rows, and records exactly the events submitted. */
  lemma {:induction false} AppendsKeepVerified<P(!new)>(c: Codec<P>, rows: seq<Row>, xs: seq<Submission<P>>)
    requires RoundTrips(c) && ChainOk(c, rows)
    ensures ChainOk(c, Grown(c, rows, xs)) && rows <= Grown(c, rows, xs)
    ensures Readable(c, rows) && Readable(c, Grown(c, rows, xs))
    ensures Entries(c, Grown(c, rows, xs)) == Entries(c, rows) + Submitted(xs)
  {
    if xs == [] {
      ChainReadable(c, rows);
    } else {
      var front := Grown(c, rows, xs[..|xs| - 1]);
      var x := xs[|xs| - 1];
      AppendsKeepVerified(c, rows, xs[..|xs| - 1]);
      AppendKeepsVerified(c, front, x.id, x.ts, x.kind, x.actor, x.session, x.payload);
    }
  }

  /** An anchor stays good: whatever is appended to a verified ledger after it was taken, verification accepts the
      grown ledger with it. */
  lemma {:induction false} GrownLedgerAccepted<P(!new)>(c: Codec<P>, rows: seq<Row>, xs: seq<Submission<P>>, v: VerifyResult)
    requires RoundTrips(c) && ChainOk(c, rows)
    requires Verdict(c, Grown(c, rows, xs), Some(HeadAnchor(rows)), v)
    ensures v.ok && v.count == |rows| + |xs|
  {
    AppendsKeepVerified(c, rows, xs);
    GrownLength(c, rows, xs);
    if rows != [] {
      assert Grown(c, rows, xs)[|rows| - 1] == rows[|rows| - 1];
    }
  }

  lemma {:induction false} GrownLength<P>(c: Codec<P>, rows: seq<Row>, xs: seq<Submission<P>>)
    ensures |Grown(c, rows, xs)| == |rows| + |xs|
  {
    if xs != [] {
      GrownLength(c, rows, xs[..|xs| - 1]);
    }
  }

  /** Cutting the tail below an anchor is reported as such; without one it goes unnoticed. */
  lemma TruncationNeedsAnchor<P>(c: Codec<P>, rows: seq<Row>, k: nat, v: VerifyResult, w: VerifyResult)
    requires ChainOk(c, rows) && k < |rows|
    requires Verdict(c, rows[..k], None, v) && Verdict(c, rows[..k], Some(HeadAnchor(rows)), w)
    ensures v.ok && w == VerifyResult(false, k, Some(|rows|), TailCut)
  {
    PrefixOk(c, rows, k);
  }

  lemma PrefixOk<P>(c: Codec<P>, rows: seq<Row>, k: nat)
    requires ChainOk(c, rows) && k <= |rows|
    ensures ChainOk(c, rows[..k])
  {
    forall i | 0 <= i < k ensures RowOk(c, rows[..k], i) {
      assert RowOk(c, rows, i) && PrevOf(rows[..k], i) == PrevOf(rows, i);
    }
  }

  // ---- edits, deletions, swaps -------------------------------------------------------------------

  /** The row carries the right previous hash and its own hash is recomputed from what it now says. */
  predicate Rehashed<P>(c: Codec<P>, row: Row, prev: Digest) {
    c.parse(row.payload).Some? && row.prev == prev && c.hash(prev, Decode(c, row)) == row.hash
  }

  /** Where an edit of row i is reported: at that row, at the next one if the editor recomputed the hash, or
      nowhere if the recomputed hash is the old one or nothing follows. */
  lemma EditLocalised<P>(c: Codec<P>, rows: seq<Row>, i: nat, row: Row, v: VerifyResult)
    requires ChainOk(c, rows) && i < |rows| && row.seqNo == rows[i].seqNo
    requires Verdict(c, rows[i := row], None, v)
    ensures v.ok <==> Rehashed(c, row, rows[i].prev) && (i == |rows| - 1 || row.hash == rows[i].hash)
    ensures !v.ok ==> v.badSeq == Some(if Rehashed(c, row, rows[i].prev) then i + 2 else i + 1)
  {
    var edited := rows[i := row];
    assert RowOk(c, rows, i);
    forall j | 0 <= j < |rows| && j != i && j != i + 1 ensures RowOk(c, edited, j) {
      assert RowOk(c, rows, j) && PrevOf(edited, j) == PrevOf(rows, j);
    }
    assert PrevOf(edited, i) == PrevOf(rows, i) == rows[i].prev;
    assert RowOk(c, edited, i) <==> Rehashed(c, row, rows[i].prev);
    if i + 1 < |rows| {
      assert RowOk(c, rows, i + 1);
      assert RowOk(c, edited, i + 1) <==> row.hash == rows[i].hash;
    }
    if !v.ok {
      var bad := v.count - 1;
      assert !RowOk(c, edited, bad);
      assert bad == i || bad == i + 1;
    }
  }

  /** Changing what row i says without recomputing its hash is reported at row i, or the hash collides. */
  lemma SilentEditDetected<P>(c: Codec<P>, rows: seq<Row>, i: nat, row: Row, v: VerifyResult)
    requires ChainOk(c, rows) && i < |rows| && row.seqNo == rows[i].seqNo && row.hash == rows[i].hash
    requires Verdict(c, rows[i := row], None, v)
    requires Readable(c, rows)
    requires row.prev != rows[i].prev || c.parse(row.payload).None? || Decode(c, row) != Decode(c, rows[i])
    ensures (!v.ok && v.badSeq == Some(i + 1)) || (c.parse(row.payload).Some? && CollidesAt(c, rows, rows[i := row], i))
  {
    assert RowOk(c, rows, i);
    EditLocalised(c, rows, i, row, v);
  }

  /** What the hash of a row is computed from: all it says, and the hash before it. */
  predicate SameInput<P(==)>(c: Codec<P>, a: Row, b: Row) {
    && a.prev == b.prev && a.seqNo == b.seqNo && a.id == b.id && a.ts == b.ts && a.kind == b.kind && a.actor == b.actor
    && a.session == b.session && c.parse(a.payload) == c.parse(b.payload)
  }

  /** Whichever column of row i is changed, with the stored hash left as it was: it is reported at row i, or the hash gives
      one digest to two different inputs, the row's and the old row's. */
  lemma AnyColumnCounts<P>(c: Codec<P>, rows: seq<Row>, i: nat, row: Row, v: VerifyResult)
    requires ChainOk(c, rows) && i < |rows| && row.seqNo == rows[i].seqNo && row.hash == rows[i].hash
    requires Verdict(c, rows[i := row], None, v) && !SameInput(c, row, rows[i])
    ensures c.parse(rows[i].payload).Some?
    ensures (!v.ok && v.badSeq == Some(i + 1)) || (
              && c.parse(row.payload).Some?
              && c.hash(row.prev, Body(row.seqNo, row.id, row.ts, row.kind, row.actor, row.session, c.parse(row.payload).value))
                 == c.hash(rows[i].prev, Body(rows[i].seqNo, rows[i].id, rows[i].ts, rows[i].kind, rows[i].actor,
                                              rows[i].session, c.parse(rows[i].payload).value)))
  {
    ChainReadable(c, rows);
    SilentEditDetected(c, rows, i, row, v);
  }

  /** Replacing only the stored hash of row i is reported at row i. */
  lemma HashEditDetected<P>(c: Codec<P>, rows: seq<Row>, i: nat, hash: Digest, v: VerifyResult)
    requires ChainOk(c, rows) && i < |rows| && hash != rows[i].hash
    requires Verdict(c, rows[i := rows[i].(hash := hash)], None, v)
    ensures !v.ok && v.badSeq == Some(i + 1)
  {
    assert RowOk(c, rows, i);
    EditLocalised(c, rows, i, rows[i].(hash := hash), v);
  }

  /** Reformatting the stored payload text so that it reads the same is the one edit that is never noticed. */
  lemma ReformattingUnnoticed<P>(c: Codec<P>, rows: seq<Row>, i: nat, text: string, v: VerifyResult)
    requires ChainOk(c, rows) && i < |rows| && c.parse(text) == c.parse(rows[i].payload)
    requires Verdict(c, rows[i := rows[i].(payload := text)], None, v)
    ensures v.ok
  {
    assert RowOk(c, rows, i);
    EditLocalised(c, rows, i, rows[i].(payload := text), v);
  }

  /** Deleting any row but the last is reported at the row that followed it. */
  lemma DeletionDetected<P>(c: Codec<P>, rows: seq<Row>, i: nat, v: VerifyResult)
    requires ChainOk(c, rows) && i + 1 < |rows|
    requires Verdict(c, rows[..i] + rows[i + 1..], None, v)
    ensures !v.ok && v.badSeq == Some(i + 2) && v.finding == OutOfOrder
  {
    var cut := rows[..i] + rows[i + 1..];
    forall j | 0 <= j < i ensures RowOk(c, cut, j) {
      assert RowOk(c, rows, j) && cut[j] == rows[j] && PrevOf(cut, j) == PrevOf(rows, j);
    }
    assert cut[i] == rows[i + 1] && RowOk(c, rows, i + 1);
    assert cut[i].seqNo == i + 2;
    assert RowFinding(c, cut, i) == OutOfOrder && !RowOk(c, cut, i);
    assert v.count - 1 == i;
  }

  /** Two verified ledgers of one length with one head record the same events, or collide: the head hash pins all. */
  lemma HeadPinsLedger<P>(c: Codec<P>, a: seq<Row>, b: seq<Row>)
    requires ChainOk(c, a) && ChainOk(c, b) && HeadAnchor(a) == HeadAnchor(b)
    ensures Readable(c, a) && Readable(c, b) && |a| == |b|
    ensures Entries(c, a) == Entries(c, b) || (exists i | 0 <= i < |a| :: CollidesAt(c, a, b, i))
  {
    EqualHashesAgree(c, a, b, |a|);
    if forall i | 0 <= i < |a| :: SameEvent(c, a, b, i) {
      SameEntries(c, a, b);
    }
  }

  lemma {:induction false} SameEntries<P>(c: Codec<P>, a: seq<Row>, b: seq<Row>)
    requires Readable(c, a) && Readable(c, b) && |a| == |b|
    requires forall i | 0 <= i < |a| :: SameEvent(c, a, b, i)
    ensures Entries(c, a) == Entries(c, b)
  {
    if a != [] {
      var n := |a| - 1;
      forall i | 0 <= i < n ensures SameEvent(c, a[..n], b[..n], i) {
        assert SameEvent(c, a, b, i);
      }
      SameEntries(c, a[..n], b[..n]);
      assert SameEvent(c, a, b, n);
    }
  }
}
