/** The wire form of certificates and blocks (internal/proto/hotstuffpb/convert.go) and their byte form
    (crypto/ecdsa/ecdsa.go, consensus/types.go, consensus/block.go). */
module Wire {
  import opened Types
  import opened Crypto
  import opened Bytes

  // ---- messages ----

  datatype SigProto = SigProto(signer: ID, r: seq<Byte>, s: seq<Byte>)

  /** A missing signature is a message in which no variant is set. */
  datatype ThresholdProto = Unset | EcdsaSigs(sigs: seq<SigProto>)

  datatype QCProto = QCProto(sig: ThresholdProto, hash: seq<Byte>, view: View)

  datatype TCProto = TCProto(sig: ThresholdProto, view: View)

  datatype AggProto = AggProto(qcs: map<ID, QCProto>, sig: ThresholdProto, view: View)

  datatype SyncProto = SyncProto(qc: Option<QCProto>, tc: Option<TCProto>, aggQC: Option<AggProto>)

  datatype BlockProto = BlockProto(parent: seq<Byte>, command: Command, qc: QCProto, view: View, proposer: ID)

  /** How digests are written as bytes and read back, and the order in which the sender iterates over maps. */
  datatype Codec = Codec(write: Hash -> seq<Byte>, read: seq<Byte> -> Hash, order: set<ID> -> seq<ID>)
  {
    ghost predicate Orders() {
      forall s :: Enumerates(order(s), s)
    }

    /** The given digests have 32 bytes each, from which they can be told apart. */
    ghost predicate Reads(digests: set<Hash>) {
      forall h :: h in digests ==> |write(h)| == 32 && read(write(h)) == h
    }
  }

  // ---- integers ----

  /** The integer with the given bytes, most significant first. */
  function NatOf(bytes: seq<Byte>): nat {
    if bytes == [] then 0 else NatOf(bytes[..|bytes| - 1]) * 256 + bytes[|bytes| - 1]
  }

  lemma {:induction false} NatRoundTrip(n: nat)
    ensures NatOf(NatBytes(n)) == n
  {
    if n != 0 {
      NatRoundTrip(n / 256);
      assert NatBytes(n)[..|NatBytes(n)| - 1] == NatBytes(n / 256);
    }
  }

  // ---- signatures ----

  function SigToProto(sig: Signature): SigProto {
    SigProto(sig.signer, NatBytes(sig.r), NatBytes(sig.s))
  }

  function SigFromProto(p: SigProto): Signature {
    Signature(NatOf(p.r), NatOf(p.s), p.signer)
  }

  /** Rebuilds the map from a list of signatures; a later one replaces an earlier one of the same signer. */
  function Restore(sigs: seq<Signature>): ThresholdSignature {
    if sigs == [] then map[] else
    var s := sigs[|sigs| - 1];
    Restore(sigs[..|sigs| - 1])[s.signer := s]
  }

  function SigsToProto(sig: ThresholdSignature, order: seq<ID>): seq<SigProto>
    requires forall id :: id in order ==> id in sig
  {
    seq(|order|, i requires 0 <= i < |order| => SigToProto(sig[order[i]]))
  }

  function SigsFromProto(ps: seq<SigProto>): seq<Signature> {
    seq(|ps|, i requires 0 <= i < |ps| => SigFromProto(ps[i]))
  }

  function ThresholdToProto(c: Codec, sig: Option<ThresholdSignature>): ThresholdProto
    requires c.Orders()
  {
    if sig.None? then Unset else EcdsaSigs(SigsToProto(sig.value, c.order(sig.value.Keys)))
  }

  function ThresholdFromProto(p: ThresholdProto): Option<ThresholdSignature> {
    if p.Unset? then None else Some(Restore(SigsFromProto(p.sigs)))
  }

  method ConvertThreshold(sig: ThresholdSignature, order: seq<ID>) returns (ps: seq<SigProto>)
    requires forall id :: id in order ==> id in sig
    ensures ps == SigsToProto(sig, order)
  {
    ps := [];
    for k := 0 to |order|
      invariant ps == SigsToProto(sig, order)[..k]
    {
      ps := ps + [SigToProto(sig[order[k]])];
    }
  }

  method RestoreThresholdSignature(sigs: seq<Signature>) returns (sig: ThresholdSignature)
    ensures sig == Restore(sigs)
  {
    sig := map[];
    for k := 0 to |sigs|
      invariant sig == Restore(sigs[..k])
    {
      assert sigs[..k + 1][..k] == sigs[..k];
      sig := sig[sigs[k].signer := sigs[k]];
    }
    assert sigs[..|sigs|] == sigs;
  }

  lemma {:induction false} RestoreListed(sig: ThresholdSignature, sigs: seq<Signature>)
    requires forall i :: 0 <= i < |sigs| ==> sigs[i].signer in sig && sigs[i] == sig[sigs[i].signer]
    ensures forall id :: id in Restore(sigs) <==> exists i :: 0 <= i < |sigs| && sigs[i].signer == id
    ensures forall id :: id in Restore(sigs) ==> Restore(sigs)[id] == sig[id]
  {
    if sigs != [] {
      RestoreListed(sig, sigs[..|sigs| - 1]);
    }
  }

  /** Listing the entries of a map in any order and rebuilding it gives the map back. */
  lemma RestoreAll(sig: ThresholdSignature, order: seq<ID>, sigs: seq<Signature>)
    requires Enumerates(order, sig.Keys) && |sigs| == |order|
    requires forall i :: 0 <= i < |sigs| ==> order[i] in sig && sigs[i] == sig[order[i]]
    ensures Restore(sigs) == sig
  {
    RestoreListed(sig, sigs);
    forall id | id in sig ensures id in Restore(sigs) {
      var i :| 0 <= i < |order| && order[i] == id;
      assert sigs[i].signer == id;
    }
  }

  lemma SigRoundTrip(sig: Signature)
    ensures SigFromProto(SigToProto(sig)) == sig
  {
    NatRoundTrip(sig.r);
    NatRoundTrip(sig.s);
  }

  lemma ThresholdRoundTrip(c: Codec, sig: Option<ThresholdSignature>)
    requires c.Orders()
    ensures ThresholdFromProto(ThresholdToProto(c, sig)) == sig
  {
    if sig.Some? {
      var order := c.order(sig.value.Keys);
      var sigs := SigsFromProto(SigsToProto(sig.value, order));
      forall i | 0 <= i < |sigs| ensures order[i] in sig.value && sigs[i] == sig.value[order[i]] {
        SigRoundTrip(sig.value[order[i]]);
      }
      RestoreAll(sig.value, order, sigs);
    }
  }

  method RevertThreshold(ps: seq<SigProto>) returns (sig: ThresholdSignature)
    ensures sig == Restore(SigsFromProto(ps))
  {
    var sigs := [];
    for k := 0 to |ps|
      invariant sigs == SigsFromProto(ps)[..k]
    {
      sigs := sigs + [SigFromProto(ps[k])];
    }
    assert sigs == SigsFromProto(ps);
    sig := RestoreThresholdSignature(sigs);
  }

  /** The loops of sender and receiver put together give the threshold signature back, for every order of iteration. */
  method Transfer(c: Codec, sig: ThresholdSignature) returns (received: ThresholdSignature)
    requires c.Orders()
    ensures received == sig
  {
    var ps := ConvertThreshold(sig, c.order(sig.Keys));
    received := RevertThreshold(ps);
    ThresholdRoundTrip(c, Some(sig));
  }

  // ---- certificates and blocks ----

  function QCToProto(c: Codec, qc: QuorumCert): QCProto
    requires c.Orders()
  {
    QCProto(ThresholdToProto(c, qc.sig), c.write(qc.hash), qc.view)
  }

  function QCFromProto(c: Codec, p: QCProto): QuorumCert {
    QuorumCert(ThresholdFromProto(p.sig), p.view, c.read(p.hash))
  }

  function AggToProto(c: Codec, agg: AggregateQC): AggProto
    requires c.Orders()
  {
    AggProto(map id | id in agg.qcs :: QCToProto(c, agg.qcs[id]), ThresholdToProto(c, agg.sig), agg.view)
  }

  function AggFromProto(c: Codec, p: AggProto): AggregateQC {
    AggregateQC(map id | id in p.qcs :: QCFromProto(c, p.qcs[id]), ThresholdFromProto(p.sig), p.view)
  }

  function SyncToProto(c: Codec, si: SyncInfo): SyncProto
    requires c.Orders()
  {
    SyncProto(
      if si.qc.Some? then Some(QCToProto(c, si.qc.value)) else None,
      if si.tc.Some? then Some(TCProto(ThresholdToProto(c, si.tc.value.sig), si.tc.value.view)) else None,
      if si.aggQC.Some? then Some(AggToProto(c, si.aggQC.value)) else None)
  }

  function SyncFromProto(c: Codec, p: SyncProto): SyncInfo {
    SyncInfo(
      if p.qc.Some? then Some(QCFromProto(c, p.qc.value)) else None,
      if p.tc.Some? then Some(TimeoutCert(ThresholdFromProto(p.tc.value.sig), p.tc.value.view)) else None,
      if p.aggQC.Some? then Some(AggFromProto(c, p.aggQC.value)) else None)
  }

  function BlockToProto(c: Codec, b: Block): BlockProto
    requires c.Orders()
  {
    BlockProto(c.write(b.parent), b.cmd, QCToProto(c, b.cert), b.view, b.proposer)
  }

  function BlockFromProto(c: Codec, p: BlockProto): Block {
    Block(c.read(p.parent), QCFromProto(c, p.qc), p.command, p.view, p.proposer)
  }

  /** The digests written into the messages for sync info and for a block. */
  function SyncDigests(si: SyncInfo): set<Hash> {
    (if si.qc.Some? then {si.qc.value.hash} else {})
    + if si.aggQC.Some? then set id | id in si.aggQC.value.qcs :: si.aggQC.value.qcs[id].hash else {}
  }

  function BlockDigests(b: Block): set<Hash> {
    {b.parent, b.cert.hash}
  }

  lemma QCRoundTrip(c: Codec, qc: QuorumCert)
    requires c.Orders() && c.Reads({qc.hash})
    ensures QCFromProto(c, QCToProto(c, qc)) == qc
  {
    ThresholdRoundTrip(c, qc.sig);
  }

  /** Sync info survives the wire, with all its certificates and for every order of iteration. */
  lemma SyncRoundTrip(c: Codec, si: SyncInfo)
    requires c.Orders() && c.Reads(SyncDigests(si))
    ensures SyncFromProto(c, SyncToProto(c, si)) == si
  {
    if si.qc.Some? {
      QCRoundTrip(c, si.qc.value);
    }
    if si.tc.Some? {
      ThresholdRoundTrip(c, si.tc.value.sig);
    }
    if si.aggQC.Some? {
      var agg := si.aggQC.value;
      ThresholdRoundTrip(c, agg.sig);
      forall id | id in agg.qcs ensures QCFromProto(c, QCToProto(c, agg.qcs[id])) == agg.qcs[id] {
        QCRoundTrip(c, agg.qcs[id]);
      }
      assert AggFromProto(c, AggToProto(c, agg)).qcs == agg.qcs;
    }
  }

  /** A block survives the wire, so its digest does too. */
  lemma BlockRoundTrip(c: Codec, b: Block)
    requires c.Orders() && c.Reads(BlockDigests(b))
    ensures BlockFromProto(c, BlockToProto(c, b)) == b
  {
    QCRoundTrip(c, b.cert);
  }

  // ---- digests ----

  /** The number of sequences of `k` bytes. */
  function ByteStrings(k: nat): nat {
    if k == 0 then 1 else 256 * ByteStrings(k - 1)
  }

  lemma {:induction false} NatOfBound(bytes: seq<Byte>)
    ensures NatOf(bytes) < ByteStrings(|bytes|)
  {
    if bytes != [] {
      NatOfBound(bytes[..|bytes| - 1]);
    }
  }

  /** Byte sequences of the same length that stand for the same integer are the same. */
  lemma {:induction false} NatOfInjective(a: seq<Byte>, b: seq<Byte>)
    requires |a| == |b| && NatOf(a) == NatOf(b)
    ensures a == b
  {
    if a != [] {
      var a', b' := a[..|a| - 1], b[..|b| - 1];
      assert NatOf(a') == NatOf(b') && a[|a| - 1] == b[|b| - 1];
      NatOfInjective(a', b');
      assert a == a' + [a[|a| - 1]] && b == b' + [b[|b| - 1]];
    }
  }

  /** The last `k` bytes of an integer, most significant first. */
  function Padded(n: nat, k: nat): seq<Byte> {
    if k == 0 then [] else Padded(n / 256, k - 1) + [n % 256]
  }

  lemma {:induction false} PaddedRoundTrip(n: nat, k: nat)
    requires n < ByteStrings(k)
    ensures |Padded(n, k)| == k && NatOf(Padded(n, k)) == n
  {
    if k > 0 {
      PaddedRoundTrip(n / 256, k - 1);
      assert Padded(n, k)[..k - 1] == Padded(n / 256, k - 1);
    }
  }

  lemma {:induction false} BelowCount(s: set<nat>, n: nat)
    requires forall x :: x in s ==> x < n
    ensures |s| <= n
  {
    if n == 0 {
      assert s == {};
    } else {
      BelowCount(s - {n - 1}, n - 1);
    }
  }

  /** Digests that can be told apart by their bytes are no more than there are sequences of 32 bytes. */
  lemma {:induction false} ReadsBound(c: Codec, digests: set<Hash>) returns (codes: set<nat>)
    requires c.Reads(digests)
    ensures |codes| == |digests| && codes == set h | h in digests :: NatOf(c.write(h))
    ensures forall x :: x in codes ==> x < ByteStrings(32)
  {
    codes := {};
    if digests != {} {
      var h :| h in digests;
      var rest := digests - {h};
      codes := ReadsBound(c, rest);
      NatOfBound(c.write(h));
      forall g | g in rest ensures NatOf(c.write(g)) != NatOf(c.write(h)) {
        if NatOf(c.write(g)) == NatOf(c.write(h)) {
          NatOfInjective(c.write(g), c.write(h));
        }
      }
      codes := codes + {NatOf(c.write(h))};
    }
  }

  lemma {:induction false} Listing(digests: set<Hash>) returns (list: seq<Hash>)
    ensures |list| == |digests| && forall h :: h in digests <==> h in list
  {
    list := [];
    if digests != {} {
      var h :| h in digests;
      var rest := Listing(digests - {h});
      list := rest + [h];
    }
  }

  /** Writes the position of a digest in the list. */
  ghost function Listed(list: seq<Hash>): Codec {
    Codec(h => if h in list then Padded(Position(list, h), 32) else [],
          bytes => if NatOf(bytes) < |list| then list[NatOf(bytes)] else ZeroHash,
          s => SortedIDs(s))
  }

  /** A codec for given digests exists exactly if they are no more than there are sequences of 32 bytes. */
  lemma CodecExactly(digests: set<Hash>)
    ensures (exists c: Codec :: c.Orders() && c.Reads(digests)) <==> |digests| <= ByteStrings(32)
  {
    if c: Codec :| c.Orders() && c.Reads(digests) {
      var codes := ReadsBound(c, digests);
      BelowCount(codes, ByteStrings(32));
    }
    if |digests| <= ByteStrings(32) {
      var list := Listing(digests);
      var c := Listed(list);
      forall h | h in digests ensures |c.write(h)| == 32 && c.read(c.write(h)) == h {
        PaddedRoundTrip(Position(list, h), 32);
      }
      forall s ensures Enumerates(c.order(s), s) {
        SortedIDsEnumerates(s);
      }
      assert c.Orders() && c.Reads(digests);
    }
  }

  /** So there is one for every block. */
  lemma BlockCodec(b: Block) returns (c: Codec)
    ensures c.Orders() && c.Reads(BlockDigests(b))
  {
    var two: set<Hash> := BlockDigests(b);
    assert two == {b.parent} + {b.cert.hash};
    assert ByteStrings(32) >= 2 by {
      ByteStringsGrow(31);
    }
    CodecExactly(two);
    c :| c.Orders() && c.Reads(two);
  }

  lemma {:induction false} ByteStringsGrow(k: nat)
    ensures ByteStrings(k) >= 1
  {
    if k > 0 {
      ByteStringsGrow(k - 1);
    }
  }

  // ---- byte forms ----

  /** `k` bytes of an integer, least significant first. */
  function LittleEndian(n: nat, k: nat): seq<Byte> {
    if k == 0 then [] else [n % 256] + LittleEndian(n / 256, k - 1)
  }

  function SigBytes(qc: QuorumCert): seq<Byte> {
    if qc.sig.Some? then ThresholdBytes(qc.sig.value) else []
  }

  function QCBytes(c: Codec, qc: QuorumCert): seq<Byte> {
    LittleEndian(qc.view, 8) + c.write(qc.hash) + SigBytes(qc)
  }

  /** What a block's digest is taken of. */
  function BlockBytes(c: Codec, b: Block): seq<Byte> {
    c.write(b.parent) + LittleEndian(b.proposer, 4) + LittleEndian(b.view, 8) + b.cmd + QCBytes(c, b.cert)
  }

  /** `k` bytes tell integers below 256^k apart. */
  lemma {:induction false} LittleEndianExactly(a: nat, b: nat, k: nat)
    requires a < ByteStrings(k) && b < ByteStrings(k)
    ensures |LittleEndian(a, k)| == k == |LittleEndian(b, k)|
    ensures LittleEndian(a, k) == LittleEndian(b, k) <==> a == b
  {
    if k > 0 {
      LittleEndianExactly(a / 256, b / 256, k - 1);
      assert LittleEndian(a, k)[0] == a % 256 && LittleEndian(b, k)[0] == b % 256;
      assert LittleEndian(a, k)[1..] == LittleEndian(a / 256, k - 1);
      assert LittleEndian(b, k)[1..] == LittleEndian(b / 256, k - 1);
    }
  }

  /** The numbers in a block fit into the bytes provided for them, and its digests are written as 32 bytes. */
  ghost predicate Fits(c: Codec, b: Block) {
    && c.Reads(BlockDigests(b))
    && b.proposer < ByteStrings(4) && b.view < ByteStrings(8) && b.cert.view < ByteStrings(8)
  }

  /** Two sequences of two parts, of which the first are of one length. */
  lemma {:induction false} SplitAt(a: seq<Byte>, x: seq<Byte>, b: seq<Byte>, y: seq<Byte>)
    requires |a| == |b|
    ensures a + x == b + y <==> a == b && x == y
  {
    if a + x == b + y {
      assert a == (a + x)[..|a|] && b == (b + y)[..|a|];
      assert x == (a + x)[|a|..] && y == (b + y)[|a|..];
    }
  }

  lemma {:induction false} WrittenExactly(c: Codec, g: Hash, h: Hash)
    requires c.Reads({g}) && c.Reads({h})
    ensures |c.write(g)| == 32 == |c.write(h)| && (c.write(g) == c.write(h) <==> g == h)
  {
    assert g in {g} && h in {h};
  }

  /** Certificates have the same bytes exactly if they agree in view, digest and the bytes of their signatures. */
  lemma {:induction false} SameQCBytes(c: Codec, p: QuorumCert, q: QuorumCert)
    requires c.Reads({p.hash}) && c.Reads({q.hash}) && p.view < ByteStrings(8) && q.view < ByteStrings(8)
    ensures QCBytes(c, p) == QCBytes(c, q) <==> p.view == q.view && p.hash == q.hash && SigBytes(p) == SigBytes(q)
  {
    LittleEndianExactly(p.view, q.view, 8);
    WrittenExactly(c, p.hash, q.hash);
    var v, u := LittleEndian(p.view, 8), LittleEndian(q.view, 8);
    SplitAt(v + c.write(p.hash), SigBytes(p), u + c.write(q.hash), SigBytes(q));
    SplitAt(v, c.write(p.hash), u, c.write(q.hash));
  }

  /** Two blocks have the same bytes exactly if they agree in parent, proposer and view, and in the bytes of command and
      certificate taken together: where the one ends and the other begins is not written down. */
  lemma {:induction false} SameBytesExactly(c: Codec, a: Block, b: Block)
    requires Fits(c, a) && Fits(c, b)
    ensures BlockBytes(c, a) == BlockBytes(c, b) <==>
      && a.parent == b.parent && a.proposer == b.proposer && a.view == b.view
      && a.cmd + QCBytes(c, a.cert) == b.cmd + QCBytes(c, b.cert)
  {
    LittleEndianExactly(a.proposer, b.proposer, 4);
    LittleEndianExactly(a.view, b.view, 8);
    WrittenExactly(c, a.parent, b.parent);
    var p, q := LittleEndian(a.proposer, 4), LittleEndian(b.proposer, 4);
    var v, u := LittleEndian(a.view, 8), LittleEndian(b.view, 8);
    var x, y := a.cmd + QCBytes(c, a.cert), b.cmd + QCBytes(c, b.cert);
    assert BlockBytes(c, a) == c.write(a.parent) + p + v + x && BlockBytes(c, b) == c.write(b.parent) + q + u + y;
    SplitAt(c.write(a.parent) + p + v, x, c.write(b.parent) + q + u, y);
    SplitAt(c.write(a.parent) + p, v, c.write(b.parent) + q, u);
    SplitAt(c.write(a.parent), p, c.write(b.parent), q);
  }

  /** So blocks whose commands are of one length are told apart by their bytes, up to the bytes of the signatures. */
  lemma {:induction false} SameLengthCommands(c: Codec, a: Block, b: Block)
    requires Fits(c, a) && Fits(c, b) && |a.cmd| == |b.cmd|
    ensures BlockBytes(c, a) == BlockBytes(c, b) <==>
      && a.parent == b.parent && a.proposer == b.proposer && a.view == b.view && a.cmd == b.cmd
      && a.cert.view == b.cert.view && a.cert.hash == b.cert.hash && SigBytes(a.cert) == SigBytes(b.cert)
  {
    SameBytesExactly(c, a, b);
    SplitAt(a.cmd, QCBytes(c, a.cert), b.cmd, QCBytes(c, b.cert));
    SameQCBytes(c, a.cert, b.cert);
  }

  ghost predicate Increasing(ids: seq<ID>) {
    forall i, j :: 0 <= i < j < |ids| ==> ids[i] < ids[j]
  }

  /** An increasing sequence is determined by its elements. */
  lemma {:induction false} IncreasingIsSorted(ids: seq<ID>, s: set<ID>)
    requires Increasing(ids) && forall id :: id in ids <==> id in s
    ensures ids == SortedIDs(s)
  {
    if ids == [] {
      assert s == {};
    } else {
      assert ids[0] in s;
      var m := SortedIDs(s)[0];
      assert m in ids && m == ids[0];
      forall id | id in s - {m} ensures id in ids[1..] {
        assert id in ids;
      }
      IncreasingIsSorted(ids[1..], s - {m});
    }
  }

  /** Binary search for the first element greater than `x`. */
  method Search(ids: seq<ID>, x: ID) returns (i: nat)
    requires Increasing(ids)
    ensures i <= |ids|
    ensures forall k :: 0 <= k < i ==> ids[k] <= x
    ensures forall k :: i <= k < |ids| ==> x < ids[k]
  {
    i := 0;
    var j := |ids|;
    while i < j
      invariant i <= j <= |ids|
      invariant forall k :: 0 <= k < i ==> ids[k] <= x
      invariant forall k :: j <= k < |ids| ==> x < ids[k]
    {
      var h := (i + j) / 2;
      if x < ids[h] {
        j := h;
      } else {
        i := h + 1;
      }
    }
  }

  lemma {:induction false} Inserted(ids: seq<ID>, i: nat, x: ID)
    requires Increasing(ids) && i <= |ids| && x !in ids
    requires (forall k :: 0 <= k < i ==> ids[k] <= x) && (forall k :: i <= k < |ids| ==> x < ids[k])
    ensures Increasing(ids[..i] + [x] + ids[i..])
    ensures forall id :: id in ids[..i] + [x] + ids[i..] <==> id in ids || id == x
  {
    assert ids == ids[..i] + ids[i..];
  }

  /** Sorts the signers by insertion, in whatever order the map delivers them. */
  method SortSigners(sig: ThresholdSignature, order: seq<ID>) returns (ids: seq<ID>)
    requires Enumerates(order, sig.Keys)
    ensures ids == SortedIDs(sig.Keys)
  {
    ids := [];
    for k := 0 to |order|
      invariant Increasing(ids)
      invariant forall id :: id in ids <==> id in order[..k]
    {
      var x := sig[order[k]].signer;
      assert x == order[k] && x !in order[..k];
      var i := Search(ids, x);
      Inserted(ids, i, x);
      ids := ids[..i] + [x] + ids[i..];
      assert order[..k + 1] == order[..k] + [x];
    }
    assert order[..|order|] == order;
    IncreasingIsSorted(ids, sig.Keys);
  }

  method Join(sig: ThresholdSignature, ids: seq<ID>) returns (bytes: seq<Byte>)
    requires forall id :: id in ids ==> id in sig
    ensures bytes == Joined(sig, ids)
  {
    bytes := [];
    for k := 0 to |ids|
      invariant bytes + Joined(sig, ids[k..]) == Joined(sig, ids)
    {
      assert ids[k..][1..] == ids[k + 1..];
      bytes := bytes + SignatureBytes(sig[ids[k]]);
    }
  }

  /** The byte form of a threshold signature does not depend on the order of iteration. */
  method ThresholdToBytes(sig: ThresholdSignature, order: seq<ID>) returns (bytes: seq<Byte>)
    requires Enumerates(order, sig.Keys)
    ensures bytes == ThresholdBytes(sig)
  {
    var ids := SortSigners(sig, order);
    SortedIDsElements(sig.Keys);
    bytes := Join(sig, ids);
  }

  /** The bytes hashed for a block are the same before it is sent and after it is received, whatever the orders in which
      the two replicas iterate over the signatures in its certificate. */
  method HashedBytes(c: Codec, b: Block, atSender: seq<ID>, atReceiver: seq<ID>)
    returns (sent: seq<Byte>, received: seq<Byte>)
    requires c.Orders() && c.Reads(BlockDigests(b))
    requires b.cert.sig.Some? ==> Enumerates(atSender, b.cert.sig.value.Keys)
    requires b.cert.sig.Some? ==> Enumerates(atReceiver, b.cert.sig.value.Keys)
    ensures sent == received == BlockBytes(c, b)
  {
    sent := ToBytes(c, b, atSender);
    BlockRoundTrip(c, b);
    received := ToBytes(c, BlockFromProto(c, BlockToProto(c, b)), atReceiver);
  }

  method ToBytes(c: Codec, b: Block, order: seq<ID>) returns (bytes: seq<Byte>)
    requires b.cert.sig.Some? ==> Enumerates(order, b.cert.sig.value.Keys)
    ensures bytes == BlockBytes(c, b)
  {
    bytes := c.write(b.parent);
    bytes := bytes + LittleEndian(b.proposer, 4);
    bytes := bytes + LittleEndian(b.view, 8);
    bytes := bytes + b.cmd;
    var cert := LittleEndian(b.cert.view, 8) + c.write(b.cert.hash);
    if b.cert.sig.Some? {
      var sig := ThresholdToBytes(b.cert.sig.value, order);
      cert := cert + sig;
    }
    bytes := bytes + cert;
  }
}
