/** Runs of the protocol. A step lets one non-faulty replica handle one event to the end, as its single event-loop
    goroutine does. Faulty replicas and the network may deliver any messages that do not contain a signature that a
    non-faulty replica has not made. */
module Protocol {
  import opened Types
  import opened Quorums
  import opened Crypto
  import opened Handlers
  import opened History

  // ---- unforgeability ----

  /** If the signature is that of a non-faulty replica and verifies for a digest, that replica signed the digest. */
  ghost predicate Legit(w: World, hist: seq<Act>, sig: Signature) {
    forall h :: w.Honest(sig.signer) && w.verifies(sig, h) ==> SignedBy(hist, sig.signer, h)
  }

  ghost predicate LegitThreshold(w: World, hist: seq<Act>, sig: Option<ThresholdSignature>) {
    sig.Some? ==> forall id :: id in sig.value ==> Legit(w, hist, sig.value[id])
  }

  ghost predicate LegitAgg(w: World, hist: seq<Act>, agg: Option<AggregateQC>) {
    agg.Some? ==>
      && LegitThreshold(w, hist, agg.value.sig)
      && forall id :: id in agg.value.qcs ==> LegitThreshold(w, hist, agg.value.qcs[id].sig)
  }

  ghost predicate LegitSync(w: World, hist: seq<Act>, si: SyncInfo) {
    && (si.qc.Some? ==> LegitThreshold(w, hist, si.qc.value.sig))
    && (si.tc.Some? ==> LegitThreshold(w, hist, si.tc.value.sig))
    && LegitAgg(w, hist, si.aggQC)
  }

  ghost predicate LegitTimeout(w: World, hist: seq<Act>, t: TimeoutMsg) {
    && Legit(w, hist, t.viewSig)
    && (t.msgSig.Some? ==> Legit(w, hist, t.msgSig.value))
    && LegitSync(w, hist, t.syncInfo)
  }

  ghost predicate LegitEvent(w: World, hist: seq<Act>, e: Event) {
    match e
    case Proposal(p) => LegitThreshold(w, hist, p.block.cert.sig) && LegitAgg(w, hist, p.aggQC)
    case NewView(si) => LegitSync(w, hist, si)
    case RemoteTimeout(t) => LegitTimeout(w, hist, t)
    case _ => true
  }

  // ---- surroundings ----

  /** Signatures carry the replica's own identifier and verify for what it signed only. */
  ghost predicate SignsOwn(w: World, c: Env) {
    forall h :: c.sign(h).Some? ==>
      c.sign(h).value.signer == c.self && forall h' :: w.verifies(c.sign(h).value, h') ==> h' == h
  }

  ghost predicate EnvFor(w: World, c: Env, i: ID) {
    c.Valid() && c.w == w && c.self == i && SignsOwn(w, c)
  }

  /** A block that has a certificate is held locally or can be fetched. */
  ghost predicate Fetchable(w: World, c: Env, hist: seq<Act>, n: Node) {
    forall b: Block :: Certified(w, hist, BlockHash(b)) ==> Get(c, n, BlockHash(b)).Some?
  }

  // ---- systems and runs ----

  datatype System = System(nodes: map<ID, Node>, hist: seq<Act>)

  datatype Step = Step(id: ID, env: Env, event: Event)

  function InitialSystem(w: World): System {
    System(map i | i in w.replicas && i !in w.faulty :: InitialNode, [])
  }

  function Tagged(i: ID, acts: seq<What>): seq<Act> {
    seq(|acts|, k requires 0 <= k < |acts| => Act(i, acts[k]))
  }

  /** The history after replica `i` has gone from state `n` to state `r`. */
  function Grown(hist: seq<Act>, i: ID, n: Node, r: Node): seq<Act>
    requires n.acts <= r.acts
  {
    hist + Tagged(i, r.acts[|n.acts|..])
  }

  ghost predicate StepOk(w: World, s: System, st: Step) {
    && st.id in s.nodes
    && EnvFor(w, st.env, st.id)
    && Fetchable(w, st.env, s.hist, s.nodes[st.id])
    && LegitEvent(w, s.hist, st.event)
  }

  function Apply(s: System, st: Step): System
    requires st.id in s.nodes && st.env.Valid()
  {
    var n := s.nodes[st.id];
    var r := Handle(st.env, n, st.event);
    System(s.nodes[st.id := r], Grown(s.hist, st.id, n, r))
  }

  /** The system after a sequence of steps, each of which must be possible where it is taken. */
  ghost function After(w: World, steps: seq<Step>): Option<System> {
    if steps == [] then Some(InitialSystem(w)) else
    var s := After(w, steps[..|steps| - 1]);
    var st := steps[|steps| - 1];
    if s.Some? && StepOk(w, s.value, st) then Some(Apply(s.value, st)) else None
  }

  /** The states that some run reaches. */
  ghost predicate Reachable(w: World, s: System) {
    w.Valid() && exists steps :: After(w, steps) == Some(s)
  }

  lemma ReachableStep(w: World, s: System, st: Step)
    requires Reachable(w, s) && StepOk(w, s, st)
    ensures Reachable(w, Apply(s, st))
  {
    var steps :| After(w, steps) == Some(s);
    var more := steps + [st];
    assert more[..|more| - 1] == steps;
    assert After(w, more) == Some(Apply(s, st));
  }

  lemma GrownTwice(hist: seq<Act>, i: ID, n: Node, m: Node, r: Node)
    requires n.acts <= m.acts <= r.acts
    ensures n.acts <= r.acts
    ensures Grown(Grown(hist, i, n, m), i, m, r) == Grown(hist, i, n, r)
  {
    assert r.acts[|n.acts|..] == m.acts[|n.acts|..] + r.acts[|m.acts|..];
  }

  lemma GrownSame(hist: seq<Act>, i: ID, n: Node, r: Node)
    requires n.acts == r.acts
    ensures Grown(hist, i, n, r) == hist
  {
  }

  lemma GrownOne(hist: seq<Act>, i: ID, n: Node, r: Node, a: What)
    requires r.acts == n.acts + [a]
    ensures Grown(hist, i, n, r) == hist + [Act(i, a)]
  {
  }

  // ---- certificates that verify ----

  lemma VerifiedIsQuorum(w: World, hist: seq<Act>, sig: ThresholdSignature, hashes: map<ID, Hash>)
    requires LegitThreshold(w, hist, Some(sig)) && |Verified(w, sig, hashes)| >= w.Quorum()
    ensures w.IsQuorum(Verified(w, sig, hashes))
    ensures forall j :: j in Verified(w, sig, hashes) && j !in w.faulty ==> SignedBy(hist, j, hashes[j])
  {
    forall j | j in Verified(w, sig, hashes) && j !in w.faulty ensures SignedBy(hist, j, hashes[j]) {
      assert Legit(w, hist, sig[j]);
      assert w.verifies(sig[j], hashes[j]);
    }
  }

  /** A certificate made of legitimate signatures that verifies is for something certified. */
  lemma VerifiedIsCertified(w: World, hist: seq<Act>, qc: QuorumCert)
    requires LegitThreshold(w, hist, qc.sig) && VerifyQC(w, qc)
    ensures Certified(w, hist, qc.hash)
  {
    if qc.hash != GenesisHash {
      var hashes := Uniform(w, qc.hash);
      VerifiedIsQuorum(w, hist, qc.sig.value, hashes);
      assert CertifiedBy(w, hist, qc.hash, Verified(w, qc.sig.value, hashes));
    }
  }

  lemma {:induction false} HighestIsHighest(qcs: map<ID, QuorumCert>, order: seq<ID>)
    requires forall id :: id in order ==> id in qcs
    ensures order != [] ==> HighestOf(qcs, order).Some?
    ensures order != [] ==> exists id :: id in order && qcs[id] == HighestOf(qcs, order).value
    ensures forall id :: id in order ==> qcs[id].view <= HighestOf(qcs, order).value.view
  {
    if order != [] {
      HighestIsHighest(qcs, order[..|order| - 1]);
      var last := order[|order| - 1];
      forall id | id in order ensures id in order[..|order| - 1] || id == last {
      }
    }
  }

  /** An accepted aggregate collects the timeout messages of a quorum, and the block's certificate is as high as all
      of theirs. */
  lemma AcceptedIsBacked(w: World, c: Env, hist: seq<Act>, p: ProposeMsg)
    requires c.Valid() && c.w == w && c.UsesAggQC() && p.aggQC.Some?
    requires AggAccepted(c, p) && LegitThreshold(w, hist, p.aggQC.value.sig)
    ensures exists q :: BackedBy(w, hist, p.aggQC.value, p.block.cert, q)
  {
    var agg := p.aggQC.value;
    var hashes := AggHashes(agg);
    HighestIsHighest(agg.qcs, c.order(agg.qcs.Keys));
    VerifiedIsQuorum(w, hist, agg.sig.value, hashes);
    assert BackedBy(w, hist, agg, p.block.cert, Verified(w, agg.sig.value, hashes));
  }
}
