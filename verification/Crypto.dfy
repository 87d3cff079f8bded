/** Creation and verification of certificates (crypto/base.go over crypto/ecdsa/ecdsa.go), as functions of the
    partial signatures that verify. The loops that compute them are in module Ecdsa. */
module Crypto {
  import opened Types
  import opened Quorums

  /** A partial signature is checked against the public key of the replica it names. */
  predicate Verify(w: World, sig: Signature, h: Hash) {
    sig.signer in w.replicas && w.verifies(sig, h)
  }

  /** The signers whose entry in `sig` verifies for the digest that `hashes` gives them. */
  function Verified(w: World, sig: ThresholdSignature, hashes: map<ID, Hash>): set<ID> {
    set id | id in sig && id in hashes && Verify(w, sig[id], hashes[id])
  }

  /** The same digest for every replica. */
  function Uniform(w: World, h: Hash): map<ID, Hash> {
    map id | id in w.replicas :: h
  }

  predicate VerifyThreshold(w: World, sig: Option<ThresholdSignature>, h: Hash) {
    sig.Some? && |Verified(w, sig.value, Uniform(w, h))| >= w.Quorum()
  }

  predicate VerifyQC(w: World, qc: QuorumCert) {
    qc.hash == GenesisHash || VerifyThreshold(w, qc.sig, qc.hash)
  }

  predicate VerifyTC(w: World, tc: TimeoutCert) {
    tc.view == 0 || VerifyThreshold(w, tc.sig, ViewHash(tc.view))
  }

  /** The first verifying signature of each signer in a list. */
  function Collect(w: World, sigs: seq<Signature>, hashes: map<ID, Hash>): ThresholdSignature {
    if sigs == [] then map[] else
    var m := Collect(w, sigs[..|sigs| - 1], hashes);
    var s := sigs[|sigs| - 1];
    if s.signer !in m && s.signer in hashes && Verify(w, s, hashes[s.signer]) then m[s.signer := s] else m
  }

  /** The replicas that have a verifying signature in a list. */
  function Signers(w: World, sigs: seq<Signature>, hashes: map<ID, Hash>): set<ID> {
    set s | s in sigs && s.signer in hashes && Verify(w, s, hashes[s.signer]) :: s.signer
  }

  /** A threshold signature, if the list holds verifying signatures of a quorum of distinct replicas. */
  function CreateThreshold(w: World, sigs: seq<Signature>, hashes: map<ID, Hash>): Option<ThresholdSignature> {
    var m := Collect(w, sigs, hashes);
    if |m| >= w.Quorum() then Some(m) else None
  }

  function ViewSigs(ts: seq<TimeoutMsg>): seq<Signature> {
    seq(|ts|, i requires 0 <= i < |ts| => ts[i].viewSig)
  }

  function CreateTC(w: World, view: View, ts: seq<TimeoutMsg>): Option<TimeoutCert> {
    if view == 0 then Some(TimeoutCert(None, 0)) else
    var sig := CreateThreshold(w, ViewSigs(ts), Uniform(w, ViewHash(view)));
    if sig.Some? then Some(TimeoutCert(sig, view)) else None
  }

  function CertSigs(pcs: seq<PartialCert>): seq<Signature> {
    seq(|pcs|, i requires 0 <= i < |pcs| => pcs[i].sig)
  }

  function CreateQC(w: World, b: Block, pcs: seq<PartialCert>): Option<QuorumCert> {
    if b == Genesis then Some(QuorumCert(None, 0, GenesisHash)) else
    var sig := CreateThreshold(w, CertSigs(pcs), Uniform(w, BlockHash(b)));
    if sig.Some? then Some(QuorumCert(sig, b.view, BlockHash(b))) else None
  }

  // ---- aggregate certificates ----

  function QCsOf(ts: seq<TimeoutMsg>): map<ID, QuorumCert> {
    if ts == [] then map[] else
    var m := QCsOf(ts[..|ts| - 1]);
    var t := ts[|ts| - 1];
    if t.syncInfo.qc.Some? then m[t.id := t.syncInfo.qc.value] else m
  }

  function MsgSigs(ts: seq<TimeoutMsg>): seq<Signature> {
    if ts == [] then [] else
    var t := ts[|ts| - 1];
    MsgSigs(ts[..|ts| - 1]) + if t.msgSig.Some? then [t.msgSig.value] else []
  }

  function MsgHashes(ts: seq<TimeoutMsg>): map<ID, Hash> {
    if ts == [] then map[] else
    var m := MsgHashes(ts[..|ts| - 1]);
    var t := ts[|ts| - 1];
    if t.msgSig.Some? then m[t.id := t.Hash()] else m
  }

  function CreateAgg(w: World, view: View, ts: seq<TimeoutMsg>): Option<AggregateQC> {
    var sig := CreateThreshold(w, MsgSigs(ts), MsgHashes(ts));
    if sig.Some? then Some(AggregateQC(QCsOf(ts), sig, view)) else None
  }

  /** The message digests a verifier reconstructs from the certificates of an aggregate. */
  function AggHashes(agg: AggregateQC): map<ID, Hash> {
    map id | id in agg.qcs :: TimeoutHash(agg.view, Some(agg.qcs[id].hash), id)
  }

  /** What comes of checking a threshold signature against a set of messages. One result is awaited per entry
      of the signature while one is produced per message, so with entries to spare the call never returns. */
  datatype Verdict = Accept | Reject | Hang

  predicate Distinct(hashes: map<ID, Hash>) {
    forall i, j :: i in hashes && j in hashes && hashes[i] == hashes[j] ==> i == j
  }

  function VerifyMessageSet(w: World, sig: Option<ThresholdSignature>, hashes: map<ID, Hash>): Verdict {
    if sig.None? || !Distinct(hashes) || !(hashes.Keys <= sig.value.Keys) then Reject
    else if |sig.value| > |hashes| then Hang
    else if |Verified(w, sig.value, hashes)| >= w.Quorum() then Accept
    else Reject
  }

  /** The certificate with the largest view field among `order`, the first of them if several have it. */
  function HighestOf(qcs: map<ID, QuorumCert>, order: seq<ID>): Option<QuorumCert>
    requires forall id :: id in order ==> id in qcs
  {
    if order == [] then None else
    var best := HighestOf(qcs, order[..|order| - 1]);
    var qc := qcs[order[|order| - 1]];
    if best.None? || best.value.view < qc.view then Some(qc) else best
  }

  /** An enumeration of a set: what a loop over a Go map produces. */
  ghost predicate Enumerates(order: seq<ID>, s: set<ID>) {
    && (forall id :: id in order <==> id in s)
    && (forall i, j :: 0 <= i < j < |order| ==> order[i] != order[j])
  }

  /** The high certificate of a verified aggregate, for one order of iteration over its certificates. */
  function VerifyAgg(w: World, agg: AggregateQC, order: seq<ID>): (r: Option<QuorumCert>)
    requires Enumerates(order, agg.qcs.Keys)
  {
    var high := HighestOf(agg.qcs, order);
    if high.Some? && VerifyMessageSet(w, agg.sig, AggHashes(agg)).Accept? && VerifyQC(w, high.value) then high else None
  }
}
