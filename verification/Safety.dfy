/** Why committed blocks stay: in a good history, every block certified at or above the view of a committed block
    extends it along certificates. */
module Safety {
  import opened Types
  import opened Quorums
  import opened History

  /** Hypothesis: the parent of every certified block is the block its certificate names. */
  ghost predicate ParentsMatch(w: World, hist: seq<Act>) {
    forall b: Block :: b != Genesis && Certified(w, hist, BlockHash(b)) ==> b.parent == b.cert.hash
  }

  lemma {:induction false} ParentIsCert(w: World, hist: seq<Act>, b: Block, a: Block)
    requires w.Valid() && GoodHistory(w, hist) && ParentsMatch(w, hist)
    requires Certified(w, hist, BlockHash(b)) && ParentExtends(b, a)
    ensures QCExtends(b, a)
    decreases b
  {
    if a != b {
      CertIsOlder(w, hist, b);
      ParentIsCert(w, hist, b.parent.block, a);
    }
  }

  /** Three blocks linked by certificates, the top one certified, the top two views above the bottom one. */
  ghost predicate ThreeChain(w: World, hist: seq<Act>, b1: Block, b2: Block, b3: Block) {
    && Justified(b1) == Some(b2)
    && Justified(b2) == Some(b3)
    && b1.view == b3.view + 2
    && Certified(w, hist, BlockHash(b1))
  }

  /** Of a three-chain, the lower blocks are certified and the views are consecutive. */
  lemma ThreeChainViews(w: World, hist: seq<Act>, b1: Block, b2: Block, b3: Block)
    requires w.Valid() && GoodHistory(w, hist) && ThreeChain(w, hist, b1, b2, b3)
    ensures Certified(w, hist, BlockHash(b2)) && Certified(w, hist, BlockHash(b3))
    ensures b2.view == b3.view + 1
  {
    CertIsOlder(w, hist, b1);
    CertIsOlder(w, hist, b2);
  }

  /** A block certified above a three-chain was voted for by a replica that voted for the top of the chain before and
      was locked at least as high as its bottom. */
  lemma LockedVoter(w: World, hist: seq<Act>, b1: Block, b2: Block, b3: Block, m: nat, b: Block)
    returns (k: nat, i: ID, l: Block)
    requires w.Valid() && GoodHistory(w, hist) && !w.rules.FastHotStuff? && ThreeChain(w, hist, b1, b2, b3)
    requires m <= |hist| && Certified(w, hist[..m], BlockHash(b)) && b.view > b1.view
    ensures k < m && RespectsLock(w, hist[..k], i, b, l) && l.view >= b3.view
    ensures Certified(w, hist[..k], b.cert.hash)
  {
    var k1;
    i, k1, k := CommonVoter(w, hist, b1, hist[..m], b);
    assert hist[..m][k] == hist[k];
    NotEarlier(w, hist, i, k, k1);
    assert k != k1;
    assert GoodAct(w, hist[..k], i, hist[k].what);
    l :| RespectsLock(w, hist[..k], i, b, l);
    assert IsVote(hist[..k], k1, i) && VotedBlock(hist[..k], k1) == b1;
    assert LockHeight(b1) == b3.view;
  }

  /** Under the rules with locks, a three-chain fixes its bottom block. The walk goes down the certificates of `b`;
      a replica that voted for both the top of the chain and `b` links the two through its lock. */
  lemma {:induction false} ThreeChainStays(w: World, hist: seq<Act>, b1: Block, b2: Block, b3: Block, m: nat, b: Block)
    requires w.Valid() && GoodHistory(w, hist) && !w.rules.FastHotStuff?
    requires w.rules.ChainedHotStuff? ==> ParentsMatch(w, hist)
    requires ThreeChain(w, hist, b1, b2, b3)
    requires m <= |hist| && Certified(w, hist[..m], BlockHash(b)) && b.view >= b3.view
    ensures QCExtends(b, b3)
    decreases b.view, m
  {
    CertifiedGrows(w, hist[..m], hist, BlockHash(b));
    ThreeChainViews(w, hist, b1, b2, b3);
    if b.view <= b1.view {
      OneCertifiedPerView(w, hist, b, if b.view == b3.view then b3 else if b.view == b1.view then b1 else b2);
    } else {
      CertIsOlder(w, hist, b);
      var k, i, l := LockedVoter(w, hist, b1, b2, b3, m, b);
      if Justified(b).Some? && CertHeight(b) >= l.view {
        ThreeChainStays(w, hist, b1, b2, b3, k, Justified(b).value);
      } else {
        ParentIsCert(w, hist, b, l);
        AncestorsCertified(w, hist, b, l);
        ThreeChainStays(w, hist, b1, b2, b3, k, l);
        QCExtendsTransitive(b, l, b3);
      }
    }
  }

  // ---- Fast-HotStuff ----

  /** A certificate names a block, and its view field is that block's view. */
  predicate Authentic(qc: QuorumCert) {
    qc.hash.BlockHash? && qc.view == qc.hash.block.view
  }

  /** Hypothesis on a proposal: its certificates are authentic, and its aggregate is for the view before. */
  ghost predicate AuthenticProposal(p: ProposeMsg) {
    && Authentic(p.block.cert)
    && (p.aggQC.Some? ==>
          && p.aggQC.value.view + 1 == p.block.view
          && forall id :: id in p.aggQC.value.qcs ==> Authentic(p.aggQC.value.qcs[id]))
  }

  ghost predicate AuthenticVotes(hist: seq<Act>) {
    forall k :: 0 <= k < |hist| && hist[k].what.VoteFor? ==> AuthenticProposal(hist[k].what.p)
  }

  ghost predicate TwoChain(w: World, hist: seq<Act>, b1: Block, b2: Block) {
    && Justified(b1) == Some(b2)
    && b1.view == b2.view + 1
    && Certified(w, hist, BlockHash(b1))
  }

  /** A replica that voted for `b1` and contributed to an aggregate of its view or later reported a certificate at
      least as high as the one in `b1`: it voted before it signed the timeout. */
  lemma TimeoutReportsCert(w: World, hist: seq<Act>, b1: Block, agg: AggregateQC, j: ID, z: nat)
    requires w.Valid() && GoodHistory(w, hist) && w.Honest(j)
    requires IsVote(hist, z, j) && VotedBlock(hist, z) == b1 && Contributed(hist, agg, j)
    requires b1.view <= agg.view
    ensures agg.qcs[j].hash.BlockHash? && CertHeight(b1) <= agg.qcs[j].hash.block.view
  {
    var h := TimeoutHash(agg.view, Some(agg.qcs[j].hash), j);
    var y :| 0 <= y < |hist| && hist[y].id == j && Signs(hist[y].what, h);
    NotEarlier(w, hist, j, y, z);
    assert GoodAct(w, hist[..y], j, hist[y].what);
    assert hist[..y][z] == hist[z] && IsVote(hist[..y], z, j);
    assert CertHeight(VotedBlock(hist[..y], z)) == CertHeight(b1);
  }

  /** Under the fast rules a two-chain fixes its bottom block: a proposal that does not directly follow its
      certificate carries an aggregate in which some voter of the chain's top block reported. */
  lemma {:induction false} TwoChainStays(w: World, hist: seq<Act>, b1: Block, b2: Block, b: Block)
    requires w.Valid() && GoodHistory(w, hist) && w.rules.FastHotStuff? && AuthenticVotes(hist)
    requires TwoChain(w, hist, b1, b2)
    requires Certified(w, hist, BlockHash(b)) && b.view >= b2.view
    ensures QCExtends(b, b2)
    decreases b.view
  {
    CertIsOlder(w, hist, b1);
    if b.view <= b1.view {
      OneCertifiedPerView(w, hist, b, if b.view == b2.view then b2 else b1);
    } else {
      CertIsOlder(w, hist, b);
      var i, k := SomeVote(w, hist, b);
      var p := hist[k].what.p;
      if p.aggQC.Some? {
        var q :| BackedBy(w, hist[..k], p.aggQC.value, b.cert, q);
        var j, z := VoterIn(w, hist, b1, q);
        SignedGrows(hist[..k], hist, j, TimeoutHash(p.aggQC.value.view, Some(p.aggQC.value.qcs[j].hash), j));
        TimeoutReportsCert(w, hist, b1, p.aggQC.value, j, z);
      }
      TwoChainStays(w, hist, b1, b2, Justified(b).value);
    }
  }
}
