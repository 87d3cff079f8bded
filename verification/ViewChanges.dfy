/** Changes of view (synchronizer/synchronizer.go, consensus/consensus.go): the timeouts of correct replicas make an
    aggregate that is accepted, when the proposal made of it is voted for, and how a replica that has fallen behind
    catches up. */
module ViewChanges {
  import opened Types
  import opened Quorums
  import opened Crypto
  import opened Bytes
  import opened Certificates
  import opened Handlers
  import opened Safety
  import opened Protocol
  import opened Invariant
  import opened Synchronizer
  import opened Theorems
  import opened Timeouts
  import opened Rulings
  import opened Conduct

  // ---- timeouts of correct replicas ----

  ghost predicate WellSigned(steps: seq<Step>) {
    forall m :: 0 <= m < |steps| ==> SignsWell(steps[m].env)
  }

  ghost predicate Sent(s: System, i: ID, t: TimeoutMsg) {
    i in s.nodes && TimedOut(t) in s.nodes[i].acts
  }

  /** Under FastHotStuff every timeout of a correct replica is proper: it reports a certificate that verifies, and is
      signed for what an aggregate is verified against. */
  lemma {:induction false} SentIsProper(w: World, steps: seq<Step>, i: ID, t: TimeoutMsg)
    requires w.rules.FastHotStuff? && WellSigned(steps) && After(w, steps).Some? && Sent(After(w, steps).value, i, t)
    ensures t.id == i && ProperTimeout(w, t.view, t)
    ensures t.viewSig.signer == i && Verify(w, t.viewSig, ViewHash(t.view))
  {
    var acts := After(w, steps).value.nodes[i].acts;
    var k :| 0 <= k < |acts| && acts[k] == TimedOut(t);
    var m, n := TimeoutsAreNew(w, steps, i, k);
    CertsVerify(w, steps[..m], i);
    TimeoutExactly(steps[m].env, n);
  }

  /** The bucket for view `v` holds timeouts for that view from correct replicas, each under its sender. */
  ghost predicate SentBucket(s: System, v: View, bucket: map<ID, TimeoutMsg>) {
    forall id :: id in bucket ==> Sent(s, id, bucket[id]) && bucket[id].view == v
  }

  lemma {:induction false} SentBucketIsProper(w: World, steps: seq<Step>, v: View, bucket: map<ID, TimeoutMsg>)
    requires w.rules.FastHotStuff? && WellSigned(steps) && After(w, steps).Some?
    requires SentBucket(After(w, steps).value, v, bucket)
    ensures ProperBucket(w, v, bucket) && GoodEntries(w, bucket.Keys, v, bucket) && SignersIn(bucket) == bucket.Keys
  {
    forall id | id in bucket
      ensures bucket[id].id == id && ProperTimeout(w, v, bucket[id])
      ensures bucket[id].viewSig.signer == id && Verify(w, bucket[id].viewSig, ViewHash(v))
    {
      SentIsProper(w, steps, id, bucket[id]);
    }
  }

  /** A quorum of timeouts for its current view from correct replicas gives a replica a timeout certificate that
      verifies and an aggregate that is accepted, in whatever order its certificates are visited. */
  lemma {:induction false} TimeoutsAggregate(
      w: World, steps: seq<Step>, c: Env, n: Node, v: View, order: seq<ID>)
    requires w.rules.FastHotStuff? && w.replicas != {} && Binding(w) && WellSigned(steps) && After(w, steps).Some?
    requires c.Valid() && c.w == w && n.currentView == v && v in n.timeouts && |n.timeouts[v]| >= w.Quorum()
    requires SentBucket(After(w, steps).value, v, n.timeouts[v]) && Enumerates(order, n.timeouts[v].Keys)
    ensures Certify(c, n, v).Some?
    ensures var si := Certify(c, n, v).value;
      && si.tc.Some? && si.tc.value.view == v && VerifyTC(w, si.tc.value)
      && si.aggQC.Some? && si.aggQC.value.qcs.Keys == n.timeouts[v].Keys
      && VerifyAgg(w, si.aggQC.value, order).Some?
  {
    var bucket := n.timeouts[v];
    SentBucketIsProper(w, steps, v, bucket);
    assert |bucket| == |bucket.Keys|;
    CertifyExactly(c, bucket.Keys, n, v);
    AggregateIsForCurrentView(c, n, v, order);
  }

  // ---- the proposal after a view change ----

  /** The leader holds a quorum of proper timeouts for its current view `v`, leads the next one, and can propose. */
  ghost predicate CanReplace(c: Env, n: Node, v: View) {
    && c.Valid() && c.UsesAggQC() && c.w.replicas != {} && Binding(c.w)
    && n.currentView == v && v in n.timeouts && |n.timeouts[v]| >= c.w.Quorum()
    && ProperBucket(c.w, v, n.timeouts[v]) && Certify(c, n, v).Some?
    && c.leader(v + 1) == c.self && c.command(v + 1).Some?
    && Found(c, n, n.highQC.hash, n.leafBlock) && VerifyQC(c.w, n.highQC)
  }

  /** The certificates of the timeouts. */
  function Reported(bucket: map<ID, TimeoutMsg>): map<ID, QuorumCert> {
    map id | id in bucket && bucket[id].syncInfo.qc.Some? :: bucket[id].syncInfo.qc.value
  }

  lemma {:induction false} CertifiedView(c: Env, n: Node, v: View)
    requires c.Valid() && v in n.timeouts && Certify(c, n, v).Some?
    ensures Certify(c, n, v).value.tc.Some? && Certify(c, n, v).value.tc.value.view == v
    ensures VerifyTC(c.w, Certify(c, n, v).value.tc.value) && Certify(c, n, v).value.qc == Some(n.highQC)
  {
    var ts := Listed(n.timeouts[v], c.order(n.timeouts[v].Keys));
    CreateThresholdIff(c.w, ViewSigs(ts), ViewHash(v));
  }

  lemma {:induction false} ListedReports(w: World, v: View, bucket: map<ID, TimeoutMsg>, visit: seq<ID>)
    requires ProperBucket(w, v, bucket) && Enumerates(visit, bucket.Keys)
    ensures QCsOf(Listed(bucket, visit)) == Reported(bucket) && Reported(bucket).Keys == bucket.Keys
  {
    var ts := Listed(bucket, visit);
    ListedIsProper(w, v, bucket, visit);
    ProperQCs(w, v, ts);
    forall id | id in bucket ensures id in QCsOf(ts) && Some(QCsOf(ts)[id]) == bucket[id].syncInfo.qc {
      var k :| 0 <= k < |visit| && visit[k] == id;
      assert ts[k] == bucket[id];
    }
  }

  /** What the leader sends along when the timeouts for `v` are complete. */
  ghost predicate Replacement(w: World, high: QuorumCert, v: View, bucket: map<ID, TimeoutMsg>, si: SyncInfo) {
    && si.qc == Some(high) && si.tc.Some? && si.tc.value.view == v && VerifyTC(w, si.tc.value)
    && si.aggQC.Some? && si.aggQC.value.qcs == Reported(bucket)
    && forall order :: Enumerates(order, Reported(bucket).Keys) ==> VerifyAgg(w, si.aggQC.value, order).Some?
  }

  lemma {:induction false} CertifyReplaces(c: Env, n: Node, v: View)
    requires CanReplace(c, n, v)
    ensures Replacement(c.w, n.highQC, v, n.timeouts[v], Certify(c, n, v).value)
  {
    var bucket := n.timeouts[v];
    CertifiedView(c, n, v);
    ListedReports(c.w, v, bucket, c.order(bucket.Keys));
    AggregateIsForCurrentView(c, n, v, c.order(bucket.Keys));
    forall order | Enumerates(order, bucket.Keys)
      ensures VerifyAgg(c.w, Certify(c, n, v).value.aggQC.value, order).Some?
    {
      AggregateIsForCurrentView(c, n, v, order);
    }
  }

  /** A proposal for the view after `v` on the leader's leaf block, with its own high certificate and the aggregate. */
  predicate Replaces(c: Env, n: Node, v: View, si: SyncInfo, p: ProposeMsg) {
    && p.id == p.block.proposer == c.self && p.block.view == v + 1 && Some(p.block.cmd) == c.command(v + 1)
    && p.block.parent == BlockHash(n.leafBlock) && p.block.cert == n.highQC
    && p.aggQC.Some? && p.aggQC == si.aggQC
  }

  lemma {:induction false} LeaderProposes(c: Env, n: Node, v: View, si: SyncInfo)
    requires c.Valid() && c.UsesAggQC() && v in n.timeouts && n.currentView <= v
    requires Replacement(c.w, n.highQC, v, n.timeouts[v], si)
    requires c.leader(v + 1) == c.self && c.command(v + 1).Some? && Found(c, n, n.highQC.hash, n.leafBlock)
    ensures var r := AdvanceView(c, n.(timeouts := n.timeouts - {v}), si);
      |r.proposals| > |n.proposals| && Replaces(c, n, v, si, r.proposals[|n.proposals|])
  {
    var n1 := n.(timeouts := n.timeouts - {v});
    assert Found(c, n1, n.highQC.hash, n.leafBlock);
    LeadsExactly(c, n1, si);
  }

  /** Such a leader proposes on its leaf block, with its own high certificate and the aggregate of the timeouts. */
  lemma {:induction false} LeaderReplaces(c: Env, n: Node, v: View) returns (p: ProposeMsg)
    requires CanReplace(c, n, v)
    ensures |Tally(c, n, v).proposals| > |n.proposals| && p == Tally(c, n, v).proposals[|n.proposals|]
    ensures Replaces(c, n, v, Certify(c, n, v).value, p)
    ensures Replacement(c.w, n.highQC, v, n.timeouts[v], Certify(c, n, v).value)
  {
    var si := Certify(c, n, v).value;
    CertifyReplaces(c, n, v);
    LeaderProposes(c, n, v, si);
    assert Tally(c, n, v) == AdvanceView(c, n.(timeouts := n.timeouts - {v}), si);
    p := Tally(c, n, v).proposals[|n.proposals|];
  }

  /** The replica takes `leader` for the leader of the view after `v`, has signed nothing for that view or a later one,
      and takes the command and signs. */
  predicate Willing(c: Env, n: Node, leader: ID, v: View, p: ProposeMsg) {
    c.leader(v + 1) == leader && n.lastVote <= v && c.accept(p.block.cmd) && c.sign(BlockHash(p.block)).Some?
  }

  /** The replica can vote for what the leader `l` in state `nl` proposes after `v`: it is willing to, and holds the
      leader's leaf block. */
  ghost predicate Expects(c: Env, n: Node, l: Env, nl: Node, v: View, p: ProposeMsg) {
    c.Valid() && c.w == l.w && Willing(c, n, l.self, v, p) && Found(c, n, nl.highQC.hash, nl.leafBlock)
  }

  /** The replica votes for the proposal before it does anything else. */
  predicate Votes(c: Env, n: Node, p: ProposeMsg)
    requires c.Valid()
  {
    n.acts + [VoteFor(p)] <= OnPropose(c, n, p).acts
  }

  /** The certificate that a replica takes from the aggregate. */
  function HighestReported(c: Env, bucket: map<ID, TimeoutMsg>): Option<QuorumCert>
    requires c.Valid()
  {
    HighestOf(Reported(bucket), c.order(Reported(bucket).Keys))
  }

  /** A replica votes for what a leader proposes after a view change, exactly if the leader's own high certificate
      equals the highest one that the timeouts report: the leader does not propose with that one. */
  lemma {:induction false} ReplacementVotedExactly(l: Env, nl: Node, v: View, c: Env, n: Node, p: ProposeMsg)
    requires CanReplace(l, nl, v) && nl.leafBlock.view <= v
    requires Replaces(l, nl, v, Certify(l, nl, v).value, p) && Expects(c, n, l, nl, v, p)
    ensures HighestReported(c, nl.timeouts[v]).Some?
    ensures Votes(c, n, p) <==> QCEquals(nl.highQC, HighestReported(c, nl.timeouts[v]).value)
  {
    CertifyReplaces(l, nl, v);
    AcceptedExactly(c, n, nl.highQC, nl.leafBlock, v, nl.timeouts[v], Certify(l, nl, v).value, p);
  }

  lemma {:induction false} AcceptedExactly(
      c: Env, n: Node, high: QuorumCert, leaf: Block, v: View, bucket: map<ID, TimeoutMsg>, si: SyncInfo, p: ProposeMsg)
    requires c.Valid() && c.UsesAggQC() && VerifyQC(c.w, high) && Replacement(c.w, high, v, bucket, si)
    requires p.block.view == v + 1 && p.block.parent == BlockHash(leaf) && p.block.cert == high && leaf.view <= v
    requires p.aggQC.Some? && p.aggQC == si.aggQC && Willing(c, n, p.id, v, p) && Found(c, n, high.hash, leaf)
    ensures HighestReported(c, bucket).Some?
    ensures Votes(c, n, p) <==> QCEquals(high, HighestReported(c, bucket).value)
  {
    var order := c.order(p.aggQC.value.qcs.Keys);
    assert VerifyAgg(c.w, p.aggQC.value, order) == HighestReported(c, bucket);
    assert Checked(c, p) <==> QCEquals(high, HighestReported(c, bucket).value);
    ReplacementIsPermitted(c, n, high, leaf, p);
    VotesIfChecked(c, n, p);
  }

  lemma {:induction false} VotesIfChecked(c: Env, n: Node, p: ProposeMsg)
    requires c.Valid() && MayVote(c, n, p)
    ensures Votes(c, n, p) <==> Checked(c, p)
  {
    OnProposeExactly(c, n, p);
    assert Ballot(c, n, p) == [VoteFor(p)];
    if !Checked(c, p) {
      assert OnPropose(c, n, p).acts == n.acts;
      assert |n.acts + [VoteFor(p)]| == |n.acts| + 1;
    }
  }

  lemma {:induction false} ReplacementIsPermitted(c: Env, n: Node, high: QuorumCert, leaf: Block, p: ProposeMsg)
    requires c.w.rules.FastHotStuff? && p.aggQC.Some? && p.block.cert == high
    requires p.block.parent == BlockHash(leaf) && leaf.view < p.block.view && Found(c, n, high.hash, leaf)
    ensures Permits(c, n, p)
  {
    assert Leads(c, n, [p.block, leaf], p.block, leaf);
  }

  /** In particular it votes if a timeout reports the leader's high certificate, and none reports another one that is as
      high. */
  lemma {:induction false} HighestLeaderIsVoted(l: Env, nl: Node, v: View, c: Env, n: Node, p: ProposeMsg)
    requires CanReplace(l, nl, v) && nl.leafBlock.view <= v
    requires Replaces(l, nl, v, Certify(l, nl, v).value, p) && Expects(c, n, l, nl, v, p)
    requires exists id :: id in nl.timeouts[v] && nl.timeouts[v][id].syncInfo.qc == Some(nl.highQC)
    requires forall id :: id in nl.timeouts[v] && nl.timeouts[v][id].syncInfo.qc.Some? ==>
      var qc := nl.timeouts[v][id].syncInfo.qc.value;
      qc == nl.highQC || qc.view < nl.highQC.view
    ensures Votes(c, n, p)
  {
    ReplacementVotedExactly(l, nl, v, c, n, p);
    HighestIs(c, nl.timeouts[v], nl.highQC);
  }

  lemma {:induction false} HighestIs(c: Env, bucket: map<ID, TimeoutMsg>, high: QuorumCert)
    requires c.Valid() && exists id :: id in bucket && bucket[id].syncInfo.qc == Some(high)
    requires forall id :: id in bucket && bucket[id].syncInfo.qc.Some? ==>
      bucket[id].syncInfo.qc.value == high || bucket[id].syncInfo.qc.value.view < high.view
    ensures HighestReported(c, bucket) == Some(high)
  {
    var qcs := Reported(bucket);
    var order := c.order(qcs.Keys);
    var id :| id in bucket && bucket[id].syncInfo.qc == Some(high);
    assert id in qcs && id in order;
    HighestIsHighest(qcs, order);
    var j :| j in order && qcs[j] == HighestOf(qcs, order).value;
    assert j in qcs;
  }

  /** A run of FastHotStuff, in which signing works, has come to `s`. */
  ghost predicate FastRun(w: World, steps: seq<Step>, s: System) {
    w.Valid() && w.rules.FastHotStuff? && Binding(w) && WellSigned(steps) && After(w, steps) == Some(s)
  }

  /** Replica `i` handles an event in the surroundings `c`. */
  ghost predicate Runs(w: World, s: System, i: ID, c: Env) {
    i in s.nodes && EnvFor(w, c, i) && Fetchable(w, c, s.hist, s.nodes[i])
  }

  /** A replica holds the timeouts for its current view `v` of a quorum of correct replicas. */
  ghost predicate Complete(w: World, s: System, n: Node, v: View) {
    && n.currentView == v && v in n.timeouts && |n.timeouts[v]| >= w.Quorum() && SentBucket(s, v, n.timeouts[v])
  }

  lemma {:induction false} LeafFound(w: World, s: System, i: ID, j: ID, c: Env)
    requires Reachable(w, s) && i in s.nodes && Runs(w, s, j, c)
    ensures Found(c, s.nodes[j], s.nodes[i].highQC.hash, s.nodes[i].leafBlock)
  {
    ReachableInv(w, s);
    assert NodeInv(w, s.hist, i, s.nodes[i]);
    assert Get(c, s.nodes[j], BlockHash(s.nodes[i].leafBlock)).Some?;
  }

  lemma {:induction false} CanReplaceInRuns(w: World, steps: seq<Step>, s: System, l: Env, i: ID, v: View)
    requires FastRun(w, steps, s) && Runs(w, s, i, l) && Complete(w, s, s.nodes[i], v)
    requires l.leader(v + 1) == i && l.command(v + 1).Some?
    ensures CanReplace(l, s.nodes[i], v)
  {
    var n := s.nodes[i];
    assert Reachable(w, s);
    LeafFound(w, s, i, i, l);
    CertsVerify(w, steps, i);
    TimeoutsAggregate(w, steps, l, n, v, l.order(n.timeouts[v].Keys));
    SentBucketIsProper(w, steps, v, n.timeouts[v]);
  }

  /** In every run of FastHotStuff: a leader whose current view ends with the timeouts of a quorum of correct replicas
      proposes, and a replica that expects the proposal votes for it exactly if the leader's high certificate, whose
      view field is right, is the highest one reported. */
  lemma {:induction false} ReplacedInRuns(
      w: World, steps: seq<Step>, s: System, l: Env, i: ID, v: View, c: Env, j: ID) returns (p: ProposeMsg)
    requires FastRun(w, steps, s) && Runs(w, s, i, l) && Runs(w, s, j, c) && Complete(w, s, s.nodes[i], v)
    requires l.leader(v + 1) == i && l.command(v + 1).Some? && s.nodes[i].highQC.view == s.nodes[i].leafBlock.view
    ensures |Tally(l, s.nodes[i], v).proposals| > |s.nodes[i].proposals|
    ensures p == Tally(l, s.nodes[i], v).proposals[|s.nodes[i].proposals|]
    ensures HighestReported(c, s.nodes[i].timeouts[v]).Some?
    ensures Willing(c, s.nodes[j], i, v, p) ==>
      (Votes(c, s.nodes[j], p) <==> QCEquals(s.nodes[i].highQC, HighestReported(c, s.nodes[i].timeouts[v]).value))
  {
    assert Reachable(w, s);
    Synchronized(w, steps, i);
    CanReplaceInRuns(w, steps, s, l, i, v);
    p := LeaderReplaces(l, s.nodes[i], v);
    LeafFound(w, s, i, j, c);
    VotedInRuns(l, s.nodes[i], v, c, s.nodes[j], p);
  }

  lemma {:induction false} VotedInRuns(l: Env, nl: Node, v: View, c: Env, n: Node, p: ProposeMsg)
    requires CanReplace(l, nl, v) && nl.leafBlock.view <= v && Replaces(l, nl, v, Certify(l, nl, v).value, p)
    requires c.Valid() && c.w == l.w && Found(c, n, nl.highQC.hash, nl.leafBlock)
    ensures HighestReported(c, nl.timeouts[v]).Some?
    ensures Willing(c, n, l.self, v, p) ==>
      (Votes(c, n, p) <==> QCEquals(nl.highQC, HighestReported(c, nl.timeouts[v]).value))
  {
    CertifyReplaces(l, nl, v);
    var agg := Certify(l, nl, v).value.aggQC.value;
    assert VerifyAgg(c.w, agg, c.order(Reported(nl.timeouts[v]).Keys)).Some?;
    if Expects(c, n, l, nl, v, p) {
      ReplacementVotedExactly(l, nl, v, c, n, p);
    }
  }

  // ---- catching up ----

  /** The view after that of the higher of a replica's two high certificates. */
  function KnownView(n: Node): View {
    Max(n.highQC.view, n.highTC.view) + 1
  }

  /** The high certificates of a replica take another one to the view after the higher of them, unless it is past that
      view already. So it reaches the view of the first replica exactly if it was there, or if the first one has got
      there by its high certificates. */
  lemma {:induction false} CatchUpExactly(c: Env, m: Node, n: Node)
    requires c.Valid() && VerifyQC(c.w, n.highQC) && VerifyTC(c.w, n.highTC)
    ensures AdvanceView(c, m, HighSyncInfo(n)).currentView == Max(m.currentView, KnownView(n))
    ensures AdvanceView(c, m, HighSyncInfo(n)).currentView >= n.currentView <==>
      m.currentView >= n.currentView || KnownView(n) >= n.currentView
  {
    var si := HighSyncInfo(n);
    var m1 := TakesIn(c, m, si);
    EntersOnce(c, m1, LeftView(si), si);
  }

  lemma {:induction false} EntersOnce(c: Env, n: Node, v: View, si: SyncInfo)
    requires c.Valid() && QCOf(si).view <= v && (si.tc.Some? || v == QCOf(si).view)
    ensures EnterView(c, n, v, si).currentView == Max(n.currentView, v + 1)
  {
    if v >= n.currentView && c.leader(v + 1) == c.self {
      var n1 := n.(currentView := v + 1, lastTimeout := None, entered := n.entered + [v + 1]);
      assert EnterView(c, n, v, si) == Propose(c, n1, si);
      if !((si.qc.Some? && Get(c, n1, si.qc.value.hash).None?) || c.command(v + 1).None?) {
        var p := NewProposal(c, n1, si, c.command(v + 1).value);
        var n2 := n1.(blocks := n1.blocks + {p.block}, proposals := n1.proposals + [p]);
        OnProposeMoves(c, n2, p);
        assert Propose(c, n1, si) == OnPropose(c, n2, p);
      }
    }
  }

  /** The replica has got to its view by its high certificates, and the view field of the quorum certificate is right.
      */
  predicate UpToDate(n: Node) {
    n.currentView == KnownView(n) && n.highQC.hash == BlockHash(n.leafBlock) && n.highQC.view == n.leafBlock.view
  }

  /** The same, but for a certificate that is about to be used to advance the view. */
  predicate UpToDateExcept(n: Node, qc: QuorumCert) {
    && n.highQC.hash == BlockHash(n.leafBlock) && n.highQC.view == n.leafBlock.view
    && (n.currentView == KnownView(n) || (n.highQC == qc && n.highTC.view < n.currentView <= qc.view))
  }

  /** If the certificate verifies, it names a block that is found, and its view field is right. */
  predicate Usable(c: Env, n: Node, qc: QuorumCert) {
    VerifyQC(c.w, qc) ==> Get(c, n, qc.hash).Some? && Authentic(qc)
  }

  lemma {:induction false} TakenUpToDate(c: Env, n: Node, m: Node, r: Node, qc: QuorumCert)
    requires UpToDate(n) && Usable(c, n, qc) && VerifyQC(c.w, qc) && Get(c, n, n.highQC.hash).Some?
    requires m.highQC == n.highQC && m.highTC == n.highTC && m.leafBlock == n.leafBlock && n.blocks <= m.blocks
    requires r.highTC == n.highTC && r.currentView == n.currentView
    requires || (r.highQC == n.highQC && r.leafBlock == n.leafBlock)
             || (r.highQC == UpdateHighQC(c, m, qc).highQC && r.leafBlock == UpdateHighQC(c, m, qc).leafBlock)
    ensures UpToDateExcept(r, qc)
  {
  }

  lemma {:induction false} ConsiderUpToDate(c: Env, n: Node, p: ProposeMsg)
    requires UpToDate(n) && Usable(c, n, p.block.cert) && VerifyQC(c.w, p.block.cert) && Get(c, n, n.highQC.hash).Some?
    ensures var r := Consider(c, n, p);
      UpToDateExcept(r, p.block.cert) && Usable(c, r, p.block.cert) && Get(c, r, r.highQC.hash).Some?
  {
    var m := ConsiderTakes(c, n, p);
    ConsiderLeaves(c, n, p);
    TakenUpToDate(c, n, m, Consider(c, n, p), p.block.cert);
  }

  lemma {:induction false} OnProposeUpToDate(c: Env, n: Node, p: ProposeMsg)
    requires c.Valid() && UpToDate(n) && Usable(c, n, p.block.cert) && Get(c, n, n.highQC.hash).Some?
    ensures UpToDate(OnPropose(c, n, p))
    decreases 0, Pending(n.currentView, p.block.cert.view), 2
  {
    if Checked(c, p) {
      ConsiderUpToDate(c, n, p);
      AdvanceUpToDate(c, Consider(c, n, p), p.block.cert);
    }
  }

  /** Advancing the view with a quorum certificate. */
  lemma {:induction false} AdvanceUpToDate(c: Env, n: Node, qc: QuorumCert)
    requires c.Valid() && UpToDateExcept(n, qc) && VerifyQC(c.w, qc) && Usable(c, n, qc)
    requires Get(c, n, n.highQC.hash).Some?
    ensures UpToDate(AdvanceView(c, n, SyncInfo(Some(qc), None, None)))
    decreases 0, Pending(n.currentView, qc.view), 1
  {
    var n1 := UpdateHighQC(c, n, qc);
    EnterUpToDate(c, n1, qc.view, SyncInfo(Some(qc), None, None));
  }

  lemma {:induction false} EnterUpToDate(c: Env, n: Node, v: View, si: SyncInfo)
    requires c.Valid() && (si.tc.Some? || v == QCOf(si).view)
    requires n.highQC.hash == BlockHash(n.leafBlock) && n.highQC.view == n.leafBlock.view
    requires if v < n.currentView then n.currentView == KnownView(n) else v + 1 == KnownView(n)
    requires Usable(c, n, QCOf(si)) && Get(c, n, n.highQC.hash).Some?
    ensures UpToDate(EnterView(c, n, v, si))
    decreases if si.tc.Some? then 1 else 0, if si.tc.Some? then 0 else Pending(n.currentView, QCOf(si).view), 0
  {
    var n1 := n.(currentView := v + 1, lastTimeout := None, entered := n.entered + [v + 1]);
    if v >= n.currentView && c.leader(v + 1) == c.self {
      ProposeUpToDate(c, n1, si);
    }
  }

  lemma {:induction false} ProposeUpToDate(c: Env, n: Node, si: SyncInfo)
    requires c.Valid() && UpToDate(n) && Usable(c, n, QCOf(si)) && Get(c, n, n.highQC.hash).Some?
    ensures UpToDate(Propose(c, n, si))
    decreases 0, Pending(n.currentView, QCOf(si).view), 3
  {
    var cmd := c.command(n.currentView);
    if !((si.qc.Some? && Get(c, n, si.qc.value.hash).None?) || cmd.None?) {
      var p := NewProposal(c, n, si, cmd.value);
      var n1 := n.(blocks := n.blocks + {p.block}, proposals := n.proposals + [p]);
      OnProposeUpToDate(c, n1, p);
      assert Propose(c, n, si) == OnPropose(c, n1, p);
    }
  }

  lemma {:induction false} AdvanceViewUpToDate(c: Env, n: Node, si: SyncInfo)
    requires c.Valid() && UpToDate(n) && Usable(c, n, QCOf(si)) && Get(c, n, n.highQC.hash).Some?
    ensures UpToDate(AdvanceView(c, n, si))
  {
    if si.tc.Some? {
      if VerifyTC(c.w, si.tc.value) {
        var tc := si.tc.value;
        EnterUpToDate(c, if tc.view > n.highTC.view then n.(highTC := tc) else n, tc.view, si);
      }
    } else if si.qc.Some? {
      if VerifyQC(c.w, si.qc.value) {
        EnterUpToDate(c, UpdateHighQC(c, n, si.qc.value), si.qc.value.view, si);
      }
    }
  }

  lemma {:induction false} RemoteTimeoutUpToDate(c: Env, n: Node, t: TimeoutMsg)
    requires c.Valid() && UpToDate(n) && Usable(c, n, QCOf(t.syncInfo)) && Get(c, n, n.highQC.hash).Some?
    ensures UpToDate(OnRemoteTimeout(c, n, t))
  {
    if Verify(c.w, t.viewSig, ViewHash(t.view)) {
      var n1 := AdvanceView(c, n, t.syncInfo);
      AdvanceViewUpToDate(c, n, t.syncInfo);
      AdvanceViewConducts(c, n, t.syncInfo);
      TallyUpToDate(c, FileTimeout(n1, t), t.view);
    }
  }

  lemma {:induction false} TallyUpToDate(c: Env, n: Node, v: View)
    requires c.Valid() && UpToDate(n) && Get(c, n, n.highQC.hash).Some? && v in n.timeouts
    ensures UpToDate(Tally(c, n, v))
  {
    if |n.timeouts[v]| >= c.w.Quorum() && Certify(c, n, v).Some? {
      AdvanceViewUpToDate(c, n.(timeouts := n.timeouts - {v}), Certify(c, n, v).value);
    }
  }

  // ---- runs ----

  /** The quorum certificate that an event brings. */
  function CertIn(e: Event): QuorumCert {
    match e
    case Proposal(p) => p.block.cert
    case NewView(si) => QCOf(si)
    case RemoteTimeout(t) => QCOf(t.syncInfo)
    case _ => ZeroQC
  }

  lemma {:induction false} HandleUpToDate(c: Env, n: Node, e: Event)
    requires c.Valid() && UpToDate(n) && Usable(c, n, CertIn(e)) && Get(c, n, n.highQC.hash).Some?
    ensures UpToDate(Handle(c, n, e))
  {
    match e
    case Start =>
      if n.currentView == 1 && c.leader(1) == c.self {
        ProposeUpToDate(c, n, HighSyncInfo(n));
      }
    case Proposal(p) => OnProposeUpToDate(c, n, p);
    case NewView(si) => AdvanceViewUpToDate(c, n, si);
    case RemoteTimeout(t) => RemoteTimeoutUpToDate(c, n, t);
    case LocalTimeout =>
      var t := Signing(c, n, e);
      if t.Some? {
        RemoteTimeoutUpToDate(c, Signed(n, t), t.value);
      }
  }

  /** The certificates that are delivered, if they verify, carry the right view. */
  ghost predicate AuthenticRun(w: World, steps: seq<Step>) {
    forall m :: 0 <= m < |steps| && VerifyQC(w, CertIn(steps[m].event)) ==> Authentic(CertIn(steps[m].event))
  }

  lemma {:induction false} StepUpToDate(w: World, s: System, st: Step)
    requires Reachable(w, s) && StepOk(w, s, st) && UpToDate(s.nodes[st.id])
    requires VerifyQC(w, CertIn(st.event)) ==> Authentic(CertIn(st.event))
    ensures UpToDate(Apply(s, st).nodes[st.id])
  {
    HighBlockFound(w, s, st);
    var qc := CertIn(st.event);
    if VerifyQC(w, qc) {
      VerifiedIsCertified(w, s.hist, qc);
      assert Get(st.env, s.nodes[st.id], BlockHash(qc.hash.block)).Some?;
    }
    HandleUpToDate(st.env, s.nodes[st.id], st.event);
  }

  lemma {:induction false} RunUpToDate(w: World, steps: seq<Step>, i: ID)
    requires w.Valid() && After(w, steps).Some? && i in After(w, steps).value.nodes && AuthenticRun(w, steps)
    ensures UpToDate(After(w, steps).value.nodes[i])
  {
    if steps != [] {
      var init, st := steps[..|steps| - 1], steps[|steps| - 1];
      LastStep(w, steps);
      assert AuthenticRun(w, init);
      RunUpToDate(w, init, i);
      if i == st.id {
        assert Reachable(w, After(w, init).value);
        assert AuthenticRun(w, steps) && steps[|init|] == st;
        StepUpToDate(w, After(w, init).value, st);
      }
    }
  }

  /** In every run in which the view fields of the certificates delivered are right, the high certificates of a replica
      take any other replica at least to its view. */
  lemma {:induction false} CatchUpInRuns(w: World, steps: seq<Step>, i: ID, c: Env, m: Node)
    requires w.Valid() && After(w, steps).Some? && i in After(w, steps).value.nodes && AuthenticRun(w, steps)
    requires c.Valid() && c.w == w
    ensures AdvanceView(c, m, HighSyncInfo(After(w, steps).value.nodes[i])).currentView
         >= After(w, steps).value.nodes[i].currentView
  {
    RunUpToDate(w, steps, i);
    CertsVerify(w, steps, i);
    CatchUpExactly(c, m, After(w, steps).value.nodes[i]);
  }
}
