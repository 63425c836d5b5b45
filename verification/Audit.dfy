/** The audit hash chain and its anchors (internal/audit/verify.go, internal/audit/anchor.go).

    SHA-256 is an arbitrary function parameter `h`. Nothing assumes that it has no collisions: where the
    argument needs one, the conclusion is "or here is a collision". */
module Audit {
  type Bytes = seq<bv8>
  type Hash = Bytes -> Bytes

  datatype Row = Row(seqNo: int, payload: Bytes, prevHash: Bytes, hash: Bytes)

  datatype VerifyResult = VerifyResult(rowCount: nat, ok: bool, badSeq: int, brokenLinkSeq: int)

  /** The bytes hashed for a row: its link and its payload, run together. */
  function Preimage(row: Row): Bytes {
    row.prevHash + row.payload
  }

  ghost predicate Hashes(h: Hash, row: Row) {
    h(Preimage(row)) == row.hash
  }

  ghost predicate Linked(rows: seq<Row>, i: nat)
    requires i < |rows|
  {
    i == 0 || rows[i].prevHash == rows[i - 1].hash
  }

  ghost predicate Sound(h: Hash, rows: seq<Row>, i: nat)
    requires i < |rows|
  {
    Linked(rows, i) && Hashes(h, rows[i])
  }

  ghost predicate ChainOK(h: Hash, rows: seq<Row>) {
    forall i :: 0 <= i < |rows| ==> Sound(h, rows, i)
  }

  ghost predicate FirstFault(h: Hash, rows: seq<Row>, k: nat) {
    k < |rows| && !Sound(h, rows, k) && forall i :: 0 <= i < k ==> Sound(h, rows, i)
  }

  /** Names row `k` as the fault: its broken link if it has one, otherwise its bad hash. */
  ghost predicate Names(rows: seq<Row>, k: nat, r: VerifyResult)
    requires k < |rows|
  {
    if !Linked(rows, k) then r.brokenLinkSeq == rows[k].seqNo && r.badSeq == 0
    else r.badSeq == rows[k].seqNo && r.brokenLinkSeq == 0
  }

  /** Accepts exactly the sound chains; otherwise blames the first unsound row and nothing else. */
  method VerifyRows(h: Hash, rows: seq<Row>) returns (r: VerifyResult)
    ensures r.rowCount == |rows|
    ensures r.ok <==> ChainOK(h, rows)
    ensures r.ok ==> r.badSeq == 0 && r.brokenLinkSeq == 0
    ensures !r.ok ==> exists k :: FirstFault(h, rows, k) && Names(rows, k, r)
  {
    r := VerifyResult(|rows|, true, 0, 0);
    var previous: Bytes := [];
    ghost var k := 0;
    for i := 0 to |rows|
      invariant r.rowCount == |rows|
      invariant i > 0 ==> previous == rows[i - 1].hash
      invariant r.ok <==> forall j :: 0 <= j < i ==> Sound(h, rows, j)
      invariant r.ok ==> r.badSeq == 0 && r.brokenLinkSeq == 0
      invariant !r.ok ==> FirstFault(h, rows, k) && Names(rows, k, r)
    {
      var row := rows[i];
      ghost var wasOK := r.ok;
      if i > 0 && row.prevHash != previous && r.ok {
        r := r.(ok := false, brokenLinkSeq := row.seqNo);
      }
      var got := h(row.prevHash + row.payload);
      assert Sound(h, rows, i) <==> (i == 0 || row.prevHash == previous) && got == row.hash;
      if got != row.hash && r.ok {
        r := r.(ok := false, badSeq := row.seqNo);
      }
      if wasOK && !r.ok {
        k := i;
      }
      previous := row.hash;
    }
  }

  // ---- Tamper evidence ----

  ghost predicate Collides(h: Hash, x: Bytes, y: Bytes) {
    x != y && h(x) == h(y)
  }

  ghost predicate FixedWidth(h: Hash, width: nat) {
    forall x :: |h(x)| == width
  }

  ghost predicate SameContent(a: Row, b: Row) {
    a.payload == b.payload && a.prevHash == b.prevHash && a.hash == b.hash
  }

  /** `a`, aligned at the end of `b`, agrees with it from row `i` of `a` on. */
  ghost predicate AgreeFrom(a: seq<Row>, b: seq<Row>, i: nat)
    requires |a| <= |b|
  {
    forall j :: i <= j < |a| ==> SameContent(a[j], b[|b| - |a| + j])
  }

  ghost predicate CollisionBetween(h: Hash, a: seq<Row>, b: seq<Row>)
    requires |a| <= |b|
  {
    exists j :: 0 <= j < |a| && Collides(h, Preimage(a[j]), Preimage(b[|b| - |a| + j]))
  }

  /** One step of the backwards induction: equal hashes force equal rows, and so equal previous hashes. */
  lemma RowFollowsFromHash(h: Hash, a: Row, b: Row)
    requires Hashes(h, a) && Hashes(h, b)
    requires a.hash == b.hash && |a.prevHash| == |b.prevHash|
    ensures SameContent(a, b) || Collides(h, Preimage(a), Preimage(b))
  {
    if Preimage(a) == Preimage(b) {
      var n := |a.prevHash|;
      assert a.prevHash == Preimage(a)[..n] && b.prevHash == Preimage(b)[..n];
      assert a.payload == Preimage(a)[n..] && b.payload == Preimage(b)[n..];
    }
  }

  lemma {:induction false} AgreeBackwards(h: Hash, width: nat, a: seq<Row>, b: seq<Row>, i: nat)
    requires FixedWidth(h, width) && ChainOK(h, a) && ChainOK(h, b)
    requires 0 < |a| <= |b| && i < |a|
    requires a[|a| - 1].hash == b[|b| - 1].hash
    requires |a[0].prevHash| == |b[|b| - |a|].prevHash|
    ensures AgreeFrom(a, b, i) || CollisionBetween(h, a, b)
    decreases |a| - i
  {
    var off := |b| - |a|;
    if i < |a| - 1 {
      AgreeBackwards(h, width, a, b, i + 1);
    }
    if !CollisionBetween(h, a, b) {
      assert Sound(h, a, i) && Sound(h, b, off + i);
      if i < |a| - 1 {
        assert SameContent(a[i + 1], b[off + i + 1]);
        assert Linked(a, i + 1) by { assert Sound(h, a, i + 1); }
        assert Linked(b, off + i + 1) by { assert Sound(h, b, off + i + 1); }
      }
      assert a[i].hash == b[off + i].hash;
      if i > 0 {
        assert Sound(h, a, i - 1) && Sound(h, b, off + i - 1);
      }
      RowFollowsFromHash(h, a[i], b[off + i]);
    }
  }

  /** Two accepted chains that end in the same hash either hold a collision, or agree row for row over the shorter
      one exactly when the links their overlap starts with have the same length. */
  lemma LastHashPinsTheChain(h: Hash, width: nat, a: seq<Row>, b: seq<Row>)
    requires FixedWidth(h, width) && ChainOK(h, a) && ChainOK(h, b)
    requires 0 < |a| <= |b|
    requires a[|a| - 1].hash == b[|b| - 1].hash
    ensures CollisionBetween(h, a, b) || (AgreeFrom(a, b, 0) <==> |a[0].prevHash| == |b[|b| - |a|].prevHash|)
  {
    if |a[0].prevHash| == |b[|b| - |a|].prevHash| {
      AgreeBackwards(h, width, a, b, 0);
    } else {
      assert !SameContent(a[0], b[|b| - |a|]);
    }
  }

  /** The equal-length condition on the first links is needed: link and payload are hashed without a
      delimiter, so a byte can move between them without changing any hash. */
  lemma FirstLinkIsNotDelimited(h: Hash, link: Bytes, x: bv8, payload: Bytes)
    ensures var a := Row(1, [x] + payload, link, h(link + [x] + payload));
            var b := Row(1, payload, link + [x], h(link + [x] + payload));
            ChainOK(h, [a]) && ChainOK(h, [b]) && a.hash == b.hash && a.payload != b.payload
  {
    assert link + ([x] + payload) == link + [x] + payload;
    assert |[x] + payload| != |payload|;
  }

  /** Sequence numbers are not hashed: renumbering rows is invisible to verification. */
  lemma SequenceNumbersAreNotPinned(h: Hash, a: seq<Row>, b: seq<Row>)
    requires |a| == |b| && forall i :: 0 <= i < |a| ==> SameContent(a[i], b[i])
    ensures ChainOK(h, a) <==> ChainOK(h, b)
  {
    forall i | 0 <= i < |a| ensures Sound(h, a, i) <==> Sound(h, b, i) {
      assert SameContent(a[i], b[i]);
      if i > 0 {
        assert SameContent(a[i - 1], b[i - 1]);
      }
    }
  }

  // ---- Anchors ----

  datatype Anchor = Anchor(startSeq: int, endSeq: int, digest: Bytes, createdAt: int)

  function JoinHashes(rows: seq<Row>): Bytes {
    if rows == [] then [] else JoinHashes(rows[..|rows| - 1]) + rows[|rows| - 1].hash
  }

  /** Feeding the hasher row by row hashes the concatenation. */
  method AnchorDigest(h: Hash, rows: seq<Row>) returns (digest: Bytes)
    ensures digest == h(JoinHashes(rows))
  {
    var written: Bytes := [];
    for i := 0 to |rows|
      invariant written == JoinHashes(rows[..i])
    {
      assert rows[..i + 1][..i] == rows[..i];
      written := written + rows[i].hash;
    }
    assert rows[..|rows|] == rows;
    digest := h(written);
  }

  function EffectiveStride(stride: int): (n: nat)
    ensures n > 0
  {
    if stride <= 0 then 10000 else stride
  }

  /** Cuts the rows into consecutive chunks of `stride` rows, the last one possibly shorter. */
  function Chunks(rows: seq<Row>, stride: nat): seq<seq<Row>>
    requires stride > 0
    decreases |rows|
  {
    if rows == [] then []
    else if |rows| <= stride then [rows]
    else [rows[..stride]] + Chunks(rows[stride..], stride)
  }

  function Flatten(chunks: seq<seq<Row>>): seq<Row> {
    if chunks == [] then [] else chunks[0] + Flatten(chunks[1..])
  }

  /** The chunks are a partition of the rows in order: nothing is skipped, repeated or empty. */
  lemma {:induction false} ChunksPartition(rows: seq<Row>, stride: nat)
    requires stride > 0
    ensures Flatten(Chunks(rows, stride)) == rows
    ensures forall i :: 0 <= i < |Chunks(rows, stride)| ==> 0 < |Chunks(rows, stride)[i]| <= stride
    ensures forall i :: 0 <= i < |Chunks(rows, stride)| - 1 ==> |Chunks(rows, stride)[i]| == stride
    decreases |rows|
  {
    if rows == [] {
    } else if |rows| <= stride {
      assert [rows][1..] == [];
    } else {
      ChunksPartition(rows[stride..], stride);
      var cs := Chunks(rows[stride..], stride);
      assert ([rows[..stride]] + cs)[1..] == cs;
      assert rows == rows[..stride] + rows[stride..];
    }
  }

  function AnchorOf(h: Hash, chunk: seq<Row>, now: int): Anchor
    requires chunk != []
  {
    Anchor(chunk[0].seqNo, chunk[|chunk| - 1].seqNo, h(JoinHashes(chunk)), now)
  }

  function AnchorsOf(h: Hash, chunks: seq<seq<Row>>, now: int): seq<Anchor>
    requires forall i :: 0 <= i < |chunks| ==> chunks[i] != []
  {
    if chunks == [] then [] else [AnchorOf(h, chunks[0], now)] + AnchorsOf(h, chunks[1..], now)
  }

  lemma ChunksNonEmpty(rows: seq<Row>, stride: nat)
    requires stride > 0
    ensures forall i :: 0 <= i < |Chunks(rows, stride)| ==> Chunks(rows, stride)[i] != []
  {
  }

  ghost function AllAnchors(h: Hash, rows: seq<Row>, stride: nat, now: int): seq<Anchor>
    requires stride > 0
  {
    ChunksNonEmpty(rows, stride);
    AnchorsOf(h, Chunks(rows, stride), now)
  }

  /** One anchor per chunk of the partition, in order. */
  method BuildAnchors(h: Hash, rows: seq<Row>, stride0: int, now: int) returns (anchors: seq<Anchor>)
    ensures anchors == AllAnchors(h, rows, EffectiveStride(stride0), now)
  {
    hide AllAnchors, JoinHashes;
    var stride := EffectiveStride(stride0);
    anchors := [];
    ghost var total := AllAnchors(h, rows, stride, now);
    assert rows[0..] == rows;
    var i := 0;
    while i < |rows|
      invariant 0 <= i
      invariant i <= |rows| ==> anchors + AllAnchors(h, rows[i..], stride, now) == total
      invariant i > |rows| ==> anchors == total
    {
      NoAnchors(h, stride, now);
      var end := i + stride;
      if end > |rows| {
        end := |rows|;
      }
      var chunk := rows[i..end];
      var digest := AnchorDigest(h, chunk);
      FirstAnchor(h, rows[i..], stride, now);
      assert chunk == rows[i..][..end - i];
      assert rows[i..][end - i..] == rows[end..];
      assert end == |rows| ==> rows[end..] == [];
      anchors := anchors + [Anchor(chunk[0].seqNo, chunk[|chunk| - 1].seqNo, digest, now)];
      i := i + stride;
    }
    NoAnchors(h, stride, now);
    assert i == |rows| ==> rows[i..] == [];
  }

  lemma NoAnchors(h: Hash, stride: nat, now: int)
    requires stride > 0
    ensures AllAnchors(h, [], stride, now) == []
  {
  }

  lemma FirstAnchor(h: Hash, rows: seq<Row>, stride: nat, now: int)
    requires rows != [] && stride > 0
    ensures var n := if |rows| <= stride then |rows| else stride;
            AllAnchors(h, rows, stride, now) == [AnchorOf(h, rows[..n], now)] + AllAnchors(h, rows[n..], stride, now)
  {
    if |rows| <= stride {
      assert rows[..|rows|] == rows && rows[|rows|..] == [];
      assert [rows][1..] == [];
    } else {
      var cs := Chunks(rows[stride..], stride);
      assert ([rows[..stride]] + cs)[1..] == cs;
      ChunksNonEmpty(rows[stride..], stride);
    }
  }

  /** Joined hashes of a fixed positive width can be cut apart again, row by row from the end. */
  lemma {:induction false} JoinedHashesPin(width: nat, a: seq<Row>, b: seq<Row>)
    requires width > 0 && JoinHashes(a) == JoinHashes(b)
    requires forall i :: 0 <= i < |a| ==> |a[i].hash| == width
    requires forall i :: 0 <= i < |b| ==> |b[i].hash| == width
    ensures |a| == |b| && forall i :: 0 <= i < |a| ==> a[i].hash == b[i].hash
  {
    if a != [] && b != [] {
      var m, n := |a| - 1, |b| - 1;
      var ja, jb := JoinHashes(a[..m]), JoinHashes(b[..n]);
      assert JoinHashes(a) == ja + a[m].hash && JoinHashes(b) == jb + b[n].hash;
      assert |ja| == |jb|;
      assert ja == JoinHashes(a)[..|ja|] && jb == JoinHashes(b)[..|ja|];
      assert a[m].hash == JoinHashes(a)[|ja|..] && b[n].hash == JoinHashes(b)[|ja|..];
      JoinedHashesPin(width, a[..m], b[..n]);
    }
  }

  lemma AcceptedHashesHaveWidth(h: Hash, width: nat, rows: seq<Row>)
    requires FixedWidth(h, width) && ChainOK(h, rows)
    ensures forall i :: 0 <= i < |rows| ==> |rows[i].hash| == width
  {
    forall i | 0 <= i < |rows| ensures |rows[i].hash| == width {
      assert Sound(h, rows, i);
    }
  }

  /** An anchor digest pins its whole chunk. Two accepted chunks with the same digest collide in the anchor, or hold
      the same number of rows - none dropped, none added - and then collide in a row, or agree in every link, payload
      and hash exactly when their first links have the same length. */
  lemma AnchorPinsItsRows(h: Hash, width: nat, a: seq<Row>, b: seq<Row>)
    requires FixedWidth(h, width) && width > 0 && ChainOK(h, a) && ChainOK(h, b)
    requires h(JoinHashes(a)) == h(JoinHashes(b))
    ensures Collides(h, JoinHashes(a), JoinHashes(b))
            || (|a| == |b|
                && (CollisionBetween(h, a, b) || (AgreeFrom(a, b, 0) <==> a == [] || |a[0].prevHash| == |b[0].prevHash|)))
  {
    if JoinHashes(a) == JoinHashes(b) {
      AcceptedHashesHaveWidth(h, width, a);
      AcceptedHashesHaveWidth(h, width, b);
      JoinedHashesPin(width, a, b);
      if a != [] {
        LastHashPinsTheChain(h, width, a, b);
      }
    }
  }

  // ---- All the anchors of a chain ----

  /** Joined chunk by chunk to the same bytes, two chains have the same hashes row by row. */
  lemma {:induction false} ChunksPin(width: nat, a: seq<Row>, b: seq<Row>, stride: nat)
    requires width > 0 && stride > 0 && |Chunks(a, stride)| == |Chunks(b, stride)|
    requires forall i :: 0 <= i < |a| ==> |a[i].hash| == width
    requires forall i :: 0 <= i < |b| ==> |b[i].hash| == width
    requires forall i :: 0 <= i < |Chunks(a, stride)| ==> JoinHashes(Chunks(a, stride)[i]) == JoinHashes(Chunks(b, stride)[i])
    ensures |a| == |b| && forall i :: 0 <= i < |a| ==> a[i].hash == b[i].hash
    decreases |a|
  {
    var ca, cb := Chunks(a, stride), Chunks(b, stride);
    if a != [] && b != [] {
      ChunksPartition(a, stride);
      ChunksPartition(b, stride);
      assert ca[0] <= a && cb[0] <= b;
      JoinedHashesPin(width, ca[0], cb[0]);
      if |a| > stride && |b| > stride {
        var ra, rb := Chunks(a[stride..], stride), Chunks(b[stride..], stride);
        assert ca == [a[..stride]] + ra && cb == [b[..stride]] + rb;
        forall i | 0 <= i < |ra| ensures JoinHashes(ra[i]) == JoinHashes(rb[i]) {
          assert ra[i] == ca[i + 1] && rb[i] == cb[i + 1];
        }
        ChunksPin(width, a[stride..], b[stride..], stride);
        forall i | 0 <= i < |a| ensures a[i].hash == b[i].hash {
          if i < stride {
            assert a[i] == ca[0][i] && b[i] == cb[0][i];
          } else {
            assert a[i] == a[stride..][i - stride] && b[i] == b[stride..][i - stride];
          }
        }
      }
    }
  }

  /** The digest of an anchor is that of its chunk. */
  lemma {:induction false} AnchorsAreOfChunks(h: Hash, chunks: seq<seq<Row>>, now: int)
    requires forall i :: 0 <= i < |chunks| ==> chunks[i] != []
    ensures |AnchorsOf(h, chunks, now)| == |chunks|
    ensures forall i :: 0 <= i < |chunks| ==> AnchorsOf(h, chunks, now)[i] == AnchorOf(h, chunks[i], now)
  {
    if chunks != [] {
      AnchorsAreOfChunks(h, chunks[1..], now);
    }
  }

  ghost predicate SameDigests(a: seq<Anchor>, b: seq<Anchor>) {
    |a| == |b| && forall i :: 0 <= i < |a| ==> a[i].digest == b[i].digest
  }

  ghost predicate ChunksCollide(h: Hash, a: seq<Row>, b: seq<Row>, stride: nat)
    requires stride > 0
  {
    exists i :: 0 <= i < |Chunks(a, stride)| && i < |Chunks(b, stride)|
             && Collides(h, JoinHashes(Chunks(a, stride)[i]), JoinHashes(Chunks(b, stride)[i]))
  }

  /** The anchors pin the whole chain. Two accepted chains, anchored with one stride at any times to the same digests,
      collide in a chunk, or hold equally many rows and then collide in a row or agree in every link, payload and hash
      exactly when their very first links have the same length. */
  lemma AnchorsPinTheChain(h: Hash, width: nat, a: seq<Row>, b: seq<Row>, stride: int, now: int, later: int)
    requires FixedWidth(h, width) && width > 0 && ChainOK(h, a) && ChainOK(h, b)
    requires SameDigests(AllAnchors(h, a, EffectiveStride(stride), now), AllAnchors(h, b, EffectiveStride(stride), later))
    ensures ChunksCollide(h, a, b, EffectiveStride(stride))
            || (|a| == |b|
                && (CollisionBetween(h, a, b) || (AgreeFrom(a, b, 0) <==> a == [] || |a[0].prevHash| == |b[0].prevHash|)))
  {
    var n := EffectiveStride(stride);
    hide EffectiveStride;
    if !ChunksCollide(h, a, b, n) {
      SameJoins(h, a, b, n, now, later);
      AcceptedHashesHaveWidth(h, width, a);
      AcceptedHashesHaveWidth(h, width, b);
      ChunksPin(width, a, b, n);
      if a != [] {
        LastHashPinsTheChain(h, width, a, b);
      }
    }
  }

  lemma SameJoins(h: Hash, a: seq<Row>, b: seq<Row>, stride: nat, now: int, later: int)
    requires stride > 0 && !ChunksCollide(h, a, b, stride)
    requires SameDigests(AllAnchors(h, a, stride, now), AllAnchors(h, b, stride, later))
    ensures |Chunks(a, stride)| == |Chunks(b, stride)|
    ensures forall i :: 0 <= i < |Chunks(a, stride)| ==> JoinHashes(Chunks(a, stride)[i]) == JoinHashes(Chunks(b, stride)[i])
  {
    hide JoinHashes, Chunks;
    var ca, cb := Chunks(a, stride), Chunks(b, stride);
    ChunksNonEmpty(a, stride);
    ChunksNonEmpty(b, stride);
    AnchorsAreOfChunks(h, ca, now);
    AnchorsAreOfChunks(h, cb, later);
    forall i | 0 <= i < |ca| ensures JoinHashes(ca[i]) == JoinHashes(cb[i]) {
      assert AllAnchors(h, a, stride, now)[i].digest == AllAnchors(h, b, stride, later)[i].digest;
      assert !Collides(h, JoinHashes(ca[i]), JoinHashes(cb[i]));
    }
  }
}
