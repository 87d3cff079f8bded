/** The loops of crypto/ecdsa/ecdsa.go and crypto/base.go that create and verify certificates, proved against the
    functions of module Crypto. `order` is the order in which a Go map is iterated. */
module Ecdsa {
  import opened Types
  import opened Quorums
  import opened Crypto

  method CreateThresholdSignature(w: World, sigs: seq<Signature>, hashes: map<ID, Hash>)
    returns (r: Option<ThresholdSignature>)
    ensures r == CreateThreshold(w, sigs, hashes)
  {
    var thrSig: ThresholdSignature := map[];
    for k := 0 to |sigs|
      invariant thrSig == Collect(w, sigs[..k], hashes)
    {
      assert sigs[..k + 1][..k] == sigs[..k];
      var s := sigs[k];
      if s.signer in thrSig {
        continue;
      }
      if s.signer !in hashes {
        continue;
      }
      if Verify(w, s, hashes[s.signer]) {
        thrSig := thrSig[s.signer := s];
      }
    }
    assert sigs[..|sigs|] == sigs;
    if |thrSig| >= w.Quorum() {
      return Some(thrSig);
    }
    return None;
  }

  /** The entries among `visited` that verify. */
  ghost function Seen(w: World, sig: ThresholdSignature, hashes: map<ID, Hash>, visited: seq<ID>): set<ID> {
    set id | id in visited && id in sig && id in hashes && Verify(w, sig[id], hashes[id])
  }

  lemma {:induction false} SeenStep(w: World, sig: ThresholdSignature, hashes: map<ID, Hash>, order: seq<ID>, k: nat)
    requires Enumerates(order, sig.Keys * hashes.Keys) && k < |order|
    ensures order[k] in sig.Keys * hashes.Keys
    ensures |Seen(w, sig, hashes, order[..k + 1])|
         == |Seen(w, sig, hashes, order[..k])| + if Verify(w, sig[order[k]], hashes[order[k]]) then 1 else 0
  {
    var id := order[k];
    assert id in order && id !in order[..k] && order[..k + 1] == order[..k] + [id];
    var before, after := Seen(w, sig, hashes, order[..k]), Seen(w, sig, hashes, order[..k + 1]);
    if Verify(w, sig[id], hashes[id]) {
      assert after == before + {id};
    } else {
      assert after == before;
    }
  }

  /** Counts the entries that verify. */
  method CountVerified(w: World, sig: ThresholdSignature, hashes: map<ID, Hash>, order: seq<ID>) returns (n: nat)
    requires Enumerates(order, sig.Keys * hashes.Keys)
    ensures n == |Verified(w, sig, hashes)|
  {
    n := 0;
    assert Seen(w, sig, hashes, []) == {};
    for k := 0 to |order|
      invariant n == |Seen(w, sig, hashes, order[..k])|
    {
      SeenStep(w, sig, hashes, order, k);
      if Verify(w, sig[order[k]], hashes[order[k]]) {
        n := n + 1;
      }
    }
    assert order[..|order|] == order;
    assert forall id :: id in order <==> id in sig && id in hashes;
    assert Seen(w, sig, hashes, order) == Verified(w, sig, hashes);
  }

  method VerifyThresholdSignature(w: World, sig: Option<ThresholdSignature>, h: Hash, order: seq<ID>) returns (ok: bool)
    requires sig.Some? ==> Enumerates(order, sig.value.Keys * Uniform(w, h).Keys)
    ensures ok == VerifyThreshold(w, sig, h)
  {
    if sig.None? {
      return false;
    }
    if |sig.value| < w.Quorum() {
      assert Verified(w, sig.value, Uniform(w, h)) <= sig.value.Keys;
      CardinalitySubset(Verified(w, sig.value, Uniform(w, h)), sig.value.Keys);
      assert |sig.value| == |sig.value.Keys|;
      return false;
    }
    var n := CountVerified(w, sig.value, Uniform(w, h), order);
    return n >= w.Quorum();
  }

  /** Messages that are different wherever they are visited are different. */
  lemma {:induction false} VisitedDistinct(hashes: map<ID, Hash>, order: seq<ID>)
    requires Enumerates(order, hashes.Keys)
    requires forall i, j :: 0 <= i < j < |order| ==> hashes[order[i]] != hashes[order[j]]
    ensures Distinct(hashes)
  {
    forall i, j | i in hashes && j in hashes && hashes[i] == hashes[j] ensures i == j {
      var a :| 0 <= a < |order| && order[a] == i;
      var b :| 0 <= b < |order| && order[b] == j;
    }
  }

  /** All messages are different and have an entry in the signature. */
  method MessagesMatch(sig: ThresholdSignature, hashes: map<ID, Hash>, order: seq<ID>) returns (ok: bool)
    requires Enumerates(order, hashes.Keys)
    ensures ok == (Distinct(hashes) && hashes.Keys <= sig.Keys)
  {
    var hashSet: set<Hash> := {};
    for k := 0 to |order|
      invariant forall j :: 0 <= j < k ==> hashes[order[j]] in hashSet && order[j] in sig
      invariant forall h :: h in hashSet ==> exists j :: 0 <= j < k && hashes[order[j]] == h
      invariant forall i, j :: 0 <= i < j < k ==> hashes[order[i]] != hashes[order[j]]
    {
      var id := order[k];
      if hashes[id] in hashSet {
        var j :| 0 <= j < k && hashes[order[j]] == hashes[id];
        assert order[j] != order[k];
        return false;
      }
      hashSet := hashSet + {hashes[id]};
      if id !in sig {
        return false;
      }
    }
    VisitedDistinct(hashes, order);
    return true;
  }

  /** Checks a threshold signature against one message per replica. */
  method VerifyForMessageSet(w: World, sig: Option<ThresholdSignature>, hashes: map<ID, Hash>, order: seq<ID>)
    returns (r: Verdict)
    requires Enumerates(order, hashes.Keys)
    ensures r == VerifyMessageSet(w, sig, hashes)
  {
    if sig.None? {
      return Reject;
    }
    var ok := MessagesMatch(sig.value, hashes, order);
    if !ok {
      return Reject;
    }
    if |sig.value| > |hashes| {
      return Hang;
    }
    assert sig.value.Keys * hashes.Keys == hashes.Keys;
    var n := CountVerified(w, sig.value, hashes, order);
    return if n >= w.Quorum() then Accept else Reject;
  }

  method CreateAggregateQC(w: World, view: View, ts: seq<TimeoutMsg>) returns (r: Option<AggregateQC>)
    ensures r == CreateAgg(w, view, ts)
  {
    var qcs: map<ID, QuorumCert>, sigs: seq<Signature>, hashes: map<ID, Hash> := map[], [], map[];
    for k := 0 to |ts|
      invariant qcs == QCsOf(ts[..k]) && sigs == MsgSigs(ts[..k]) && hashes == MsgHashes(ts[..k])
    {
      assert ts[..k + 1][..k] == ts[..k];
      var t := ts[k];
      if t.syncInfo.qc.Some? {
        qcs := qcs[t.id := t.syncInfo.qc.value];
      }
      if t.msgSig.Some? {
        sigs := sigs + [t.msgSig.value];
        hashes := hashes[t.id := t.Hash()];
      }
    }
    assert ts[..|ts|] == ts;
    var sig := CreateThresholdSignature(w, sigs, hashes);
    if sig.None? {
      return None;
    }
    return Some(AggregateQC(qcs, sig, view));
  }

  /** The certificate of largest view, and the digests that were signed. */
  method Reconstruct(agg: AggregateQC, order: seq<ID>) returns (highQC: Option<QuorumCert>, hashes: map<ID, Hash>)
    requires Enumerates(order, agg.qcs.Keys)
    ensures highQC == HighestOf(agg.qcs, order) && hashes == AggHashes(agg)
  {
    highQC, hashes := None, map[];
    for k := 0 to |order|
      invariant highQC == HighestOf(agg.qcs, order[..k])
      invariant hashes == map id | id in order[..k] :: TimeoutHash(agg.view, Some(agg.qcs[id].hash), id)
    {
      assert order[..k + 1][..k] == order[..k];
      var id := order[k];
      var qc := agg.qcs[id];
      if highQC.None? || highQC.value.view < qc.view {
        highQC := Some(qc);
      }
      hashes := hashes[id := TimeoutHash(agg.view, Some(qc.hash), id)];
    }
    assert order[..|order|] == order;
  }

  method VerifyAggregateQC(w: World, agg: AggregateQC, order: seq<ID>) returns (r: Option<QuorumCert>)
    requires Enumerates(order, agg.qcs.Keys)
    ensures r == VerifyAgg(w, agg, order)
  {
    var highQC, hashes := Reconstruct(agg, order);
    var verdict := VerifyForMessageSet(w, agg.sig, hashes, order);
    if verdict != Accept || highQC.None? {
      return None;
    }
    if VerifyQC(w, highQC.value) {
      return highQC;
    }
    return None;
  }
}
