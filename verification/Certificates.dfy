/** What creating a certificate and verifying it have to do with each other. */
module Certificates {
  import opened Types
  import opened Quorums
  import opened Crypto
  import opened Protocol

  /** Collecting keeps exactly the replicas that have a verifying signature in the list, and what it keeps verifies:
      repeated and invalid signatures make no difference. */
  lemma {:induction false} CollectIsSigners(w: World, sigs: seq<Signature>, hashes: map<ID, Hash>)
    ensures Collect(w, sigs, hashes).Keys == Signers(w, sigs, hashes)
    ensures Verified(w, Collect(w, sigs, hashes), hashes) == Collect(w, sigs, hashes).Keys
  {
    if sigs != [] {
      var init, s := sigs[..|sigs| - 1], sigs[|sigs| - 1];
      CollectIsSigners(w, init, hashes);
      assert sigs == init + [s];
      assert Signers(w, sigs, hashes) == Signers(w, init, hashes)
        + if s.signer in hashes && Verify(w, s, hashes[s.signer]) then {s.signer} else {};
    }
  }

  /** A threshold signature can be made exactly of lists with verifying signatures of a quorum, and it verifies. */
  lemma CreateThresholdIff(w: World, sigs: seq<Signature>, h: Hash)
    ensures CreateThreshold(w, sigs, Uniform(w, h)).Some? <==> |Signers(w, sigs, Uniform(w, h))| >= w.Quorum()
    ensures CreateThreshold(w, sigs, Uniform(w, h)).Some? ==>
      VerifyThreshold(w, CreateThreshold(w, sigs, Uniform(w, h)), h)
  {
    CollectIsSigners(w, sigs, Uniform(w, h));
    var m := Collect(w, sigs, Uniform(w, h));
    assert |m| == |m.Keys|;
  }

  // ---- aggregate certificates ----

  /** A timeout message as a correct replica sends it under Fast-HotStuff. */
  predicate ProperTimeout(w: World, v: View, t: TimeoutMsg) {
    && t.view == v
    && t.syncInfo.qc.Some?
    && VerifyQC(w, t.syncInfo.qc.value)
    && t.msgSig.Some?
    && t.msgSig.value.signer == t.id
    && Verify(w, t.msgSig.value, t.Hash())
  }

  ghost predicate DistinctSenders(ts: seq<TimeoutMsg>) {
    forall j, k :: 0 <= j < k < |ts| ==> ts[j].id != ts[k].id
  }

  function Senders(ts: seq<TimeoutMsg>): set<ID> {
    set k | 0 <= k < |ts| :: ts[k].id
  }

  /** A signature verifies for one digest only. */
  ghost predicate Binding(w: World) {
    forall s, h, h' :: w.verifies(s, h) && w.verifies(s, h') ==> h == h'
  }

  ghost predicate AllProper(w: World, v: View, ts: seq<TimeoutMsg>) {
    DistinctSenders(ts) && forall k :: 0 <= k < |ts| ==> ProperTimeout(w, v, ts[k])
  }

  lemma {:induction false} ProperQCs(w: World, v: View, ts: seq<TimeoutMsg>)
    requires AllProper(w, v, ts)
    ensures QCsOf(ts).Keys == Senders(ts)
    ensures forall k :: 0 <= k < |ts| ==> ts[k].id in QCsOf(ts) && Some(QCsOf(ts)[ts[k].id]) == ts[k].syncInfo.qc
  {
    if ts != [] {
      var init, t := ts[..|ts| - 1], ts[|ts| - 1];
      ProperQCs(w, v, init);
      assert ProperTimeout(w, v, t);
      assert Senders(ts) == Senders(init) + {t.id};
      assert forall k :: 0 <= k < |init| ==> init[k] == ts[k];
    }
  }

  /** Distinct senders have signed their messages. */
  ghost predicate AllSigned(ts: seq<TimeoutMsg>) {
    DistinctSenders(ts) && forall k :: 0 <= k < |ts| ==> ts[k].msgSig.Some?
  }

  lemma {:induction false} SignedHashes(ts: seq<TimeoutMsg>)
    requires AllSigned(ts)
    ensures MsgHashes(ts).Keys == Senders(ts)
    ensures forall k :: 0 <= k < |ts| ==> ts[k].id in MsgHashes(ts) && MsgHashes(ts)[ts[k].id] == ts[k].Hash()
  {
    if ts != [] {
      var init, t := ts[..|ts| - 1], ts[|ts| - 1];
      SignedHashes(init);
      SendersGrow(ts);
      forall k | 0 <= k < |ts| ensures ts[k].id in MsgHashes(ts) && MsgHashes(ts)[ts[k].id] == ts[k].Hash() {
        if k < |init| {
          assert init[k] == ts[k] && ts[k].id != t.id;
        }
      }
    }
  }

  lemma {:induction false} ProperHashes(w: World, v: View, ts: seq<TimeoutMsg>)
    requires AllProper(w, v, ts)
    ensures MsgHashes(ts).Keys == Senders(ts)
    ensures forall k :: 0 <= k < |ts| ==> ts[k].id in MsgHashes(ts) && MsgHashes(ts)[ts[k].id] == ts[k].Hash()
  {
    forall k | 0 <= k < |ts| ensures ts[k].msgSig.Some? {
      assert ProperTimeout(w, v, ts[k]);
    }
    SignedHashes(ts);
  }

  lemma {:induction false} SendersGrow(ts: seq<TimeoutMsg>)
    requires ts != []
    ensures Senders(ts) == Senders(ts[..|ts| - 1]) + {ts[|ts| - 1].id}
  {
    var init := ts[..|ts| - 1];
    forall id | id in Senders(ts) ensures id in Senders(init) + {ts[|ts| - 1].id} {
      var k :| 0 <= k < |ts| && ts[k].id == id;
      assert k < |init| ==> init[k] == ts[k];
    }
    forall id | id in Senders(init) ensures id in Senders(ts) {
      var k :| 0 <= k < |init| && init[k].id == id;
      assert ts[k] == init[k];
    }
  }

  lemma {:induction false} ProperSigs(w: World, v: View, ts: seq<TimeoutMsg>)
    requires AllProper(w, v, ts)
    ensures |MsgSigs(ts)| == |ts| && forall k :: 0 <= k < |ts| ==> Some(MsgSigs(ts)[k]) == ts[k].msgSig
  {
    if ts != [] {
      var init, t := ts[..|ts| - 1], ts[|ts| - 1];
      ProperSigs(w, v, init);
      assert ProperTimeout(w, v, t);
    }
  }

  lemma {:induction false} SendersCount(ts: seq<TimeoutMsg>)
    requires DistinctSenders(ts)
    ensures |Senders(ts)| == |ts|
  {
    if ts != [] {
      var init := ts[..|ts| - 1];
      SendersCount(init);
      assert Senders(ts) == Senders(init) + {ts[|ts| - 1].id};
      assert ts[|ts| - 1].id !in Senders(init);
    }
  }

  lemma ProperSigners(w: World, v: View, ts: seq<TimeoutMsg>)
    requires AllProper(w, v, ts)
    ensures Signers(w, MsgSigs(ts), MsgHashes(ts)) == MsgHashes(ts).Keys == Senders(ts)
  {
    ProperHashes(w, v, ts);
    ProperSigs(w, v, ts);
    forall id | id in Senders(ts) ensures id in Signers(w, MsgSigs(ts), MsgHashes(ts)) {
      var k :| 0 <= k < |ts| && ts[k].id == id;
      assert ProperTimeout(w, v, ts[k]);
      assert MsgSigs(ts)[k] in MsgSigs(ts);
    }
  }

  /** The aggregate of proper timeouts of one view from a quorum: its certificates are the senders', and each sender's
      message signature is in it and verifies for what it signed. */
  lemma AggregateOfProper(w: World, view: View, v: View, ts: seq<TimeoutMsg>)
    requires |ts| >= w.Quorum() && AllProper(w, v, ts)
    ensures CreateAgg(w, view, ts).Some?
    ensures var agg := CreateAgg(w, view, ts).value;
      && agg.view == view && agg.qcs == QCsOf(ts) && agg.sig.Some?
      && agg.sig.value.Keys == agg.qcs.Keys == MsgHashes(ts).Keys == Senders(ts)
      && Verified(w, agg.sig.value, MsgHashes(ts)) == Senders(ts)
  {
    ProperQCs(w, v, ts);
    ProperSigners(w, v, ts);
    SendersCount(ts);
    CollectIsSigners(w, MsgSigs(ts), MsgHashes(ts));
    var m := Collect(w, MsgSigs(ts), MsgHashes(ts));
    assert |m| == |m.Keys|;
  }

  /** The digests the verifier reconstructs are those that were signed exactly if the aggregate's view is the
      timeouts' view. */
  lemma ReconstructedHashes(w: World, v: View, ts: seq<TimeoutMsg>, agg: AggregateQC)
    requires AllProper(w, v, ts) && agg.qcs == QCsOf(ts)
    ensures AggHashes(agg).Keys == MsgHashes(ts).Keys == Senders(ts)
    ensures agg.view == v ==> AggHashes(agg) == MsgHashes(ts)
    ensures agg.view != v ==> forall id :: id in AggHashes(agg) ==> AggHashes(agg)[id] != MsgHashes(ts)[id]
  {
    ProperQCs(w, v, ts);
    ProperHashes(w, v, ts);
    forall id | id in agg.qcs ensures AggHashes(agg)[id] == MsgHashes(ts)[id] <==> agg.view == v {
      var k :| 0 <= k < |ts| && ts[k].id == id;
      assert ProperTimeout(w, v, ts[k]);
    }
  }

  /** Signatures that verify for one set of messages verify for no message of another. */
  lemma OtherMessages(w: World, sig: ThresholdSignature, signed: map<ID, Hash>, other: map<ID, Hash>)
    requires Binding(w) && Verified(w, sig, signed) == sig.Keys
    requires forall id :: id in other && id in signed ==> other[id] != signed[id]
    ensures Verified(w, sig, other) == {}
  {
    forall j | j in sig && j in signed && j in other ensures !Verify(w, sig[j], other[j]) {
      assert j in Verified(w, sig, signed);
    }
  }

  /** With one entry per message and distinct messages, the count of verifying entries decides. */
  lemma CountDecides(w: World, sig: ThresholdSignature, agg: AggregateQC)
    requires sig.Keys == agg.qcs.Keys
    ensures VerifyMessageSet(w, Some(sig), AggHashes(agg)).Accept? <==> |Verified(w, sig, AggHashes(agg))| >= w.Quorum()
  {
    var hashes := AggHashes(agg);
    assert hashes.Keys == agg.qcs.Keys;
    assert |hashes| == |hashes.Keys| && |sig| == |sig.Keys|;
    assert Distinct(hashes);
  }

  /** The signature of such an aggregate is accepted exactly if the aggregate is for the timeouts' view. */
  lemma AggregateSignature(w: World, view: View, v: View, ts: seq<TimeoutMsg>)
    requires w.replicas != {} && Binding(w)
    requires |ts| >= w.Quorum() && AllProper(w, v, ts)
    ensures CreateAgg(w, view, ts).Some?
    ensures var agg := CreateAgg(w, view, ts).value;
      VerifyMessageSet(w, agg.sig, AggHashes(agg)).Accept? <==> view == v
  {
    AggregateOfProper(w, view, v, ts);
    var agg := CreateAgg(w, view, ts).value;
    ReconstructedHashes(w, v, ts, agg);
    CountDecides(w, agg.sig.value, agg);
    if view == v {
      SendersCount(ts);
    } else {
      OtherMessages(w, agg.sig.value, MsgHashes(ts), AggHashes(agg));
    }
  }

  /** An aggregate made of proper timeouts of one view from a quorum of replicas verifies exactly if it is made for that
      view; the verifier then returns a certificate with the largest view field, whatever the order in which it visits
      the certificates. */
  lemma AggregateRoundTrip(w: World, view: View, v: View, ts: seq<TimeoutMsg>, order: seq<ID>)
    requires w.replicas != {} && Binding(w)
    requires |ts| >= w.Quorum() && AllProper(w, v, ts)
    requires Enumerates(order, QCsOf(ts).Keys)
    ensures CreateAgg(w, view, ts).Some? && CreateAgg(w, view, ts).value.qcs == QCsOf(ts)
    ensures var high := VerifyAgg(w, CreateAgg(w, view, ts).value, order);
      && (high.Some? <==> view == v)
      && (high.Some? ==>
            && (exists k :: 0 <= k < |ts| && ts[k].syncInfo.qc == high)
            && (forall k, qc :: 0 <= k < |ts| && ts[k].syncInfo.qc == Some(qc) ==> qc.view <= high.value.view))
  {
    AggregateSignature(w, view, v, ts);
    ProperQCs(w, v, ts);
    assert ts[0].id in Senders(ts) && ts[0].id in order;
    HighestIsHighest(QCsOf(ts), order);
    var id :| id in order && QCsOf(ts)[id] == HighestOf(QCsOf(ts), order).value;
    var j :| 0 <= j < |ts| && ts[j].id == id;
    assert ProperTimeout(w, v, ts[j]);
    forall k, qc | 0 <= k < |ts| && ts[k].syncInfo.qc == Some(qc)
      ensures qc.view <= HighestOf(QCsOf(ts), order).value.view
    {
      assert ts[k].id in order;
    }
  }
}
