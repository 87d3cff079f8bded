/** A leader that has collected timeouts proposes with its own high certificate (consensus/consensus.go), although it
    need not have taken in those that the timeouts report: a timeout that carries a timeout certificate makes it advance
    the view with that one only (synchronizer/synchronizer.go). What it then proposes, no replica votes for. */
module ReplacementGap {
  import opened Types
  import opened Quorums
  import opened Crypto
  import opened Certificates
  import opened Handlers
  import opened Timeouts
  import opened Rulings
  import opened ViewChanges
  import opened Staging

  const GenesisCert := QuorumCert(None, 0, GenesisHash)

  /** The block of the first view, which the leader has not seen certified. */
  const First := Block(GenesisHash, GenesisCert, [], 1, 0)

  /** What the leader proposes. */
  const Stale := Block(GenesisHash, GenesisCert, [], 4, 3)

  function Reports(i: ID): Hash {
    TimeoutHash(3, Some(BlockHash(First)), i)
  }

  const Digests := [BlockHash(First), ViewHash(2), ViewHash(3), Reports(0), Reports(1), Reports(2), BlockHash(Stale)]

  const TheWorld := FourReplicas(FastHotStuff, {}, Digests)

  /** Replica 3 leads the fourth view. */
  ghost function TheEnv(i: ID): Env {
    Surroundings(TheWorld, Digests, i, v => if v == 4 then 3 else 0, Some([]))
  }

  /** The certificate for the end of the second view. */
  function SecondEnds(): TimeoutCert {
    var sig: ThresholdSignature := map[0 := Signature(1, 0, 0), 1 := Signature(1, 0, 1), 2 := Signature(1, 0, 2)];
    TimeoutCert(Some(sig), 2)
  }

  /** The timeout of replica `i` in the third view. */
  function Third(i: ID): TimeoutMsg {
    TimeoutMsg(i, 3, Signature(2, 0, i), Some(Signature(3 + i, 0, i)),
               SyncInfo(Some(Cert(2, 0, First)), Some(SecondEnds()), None))
  }

  function Filed(): map<ID, TimeoutMsg> {
    map i: ID | i < 3 :: Third(i)
  }

  /** The leader once it has filed the given timeouts. */
  function Filing(ts: map<ID, TimeoutMsg>): Node {
    InitialNode.(currentView := 3, highTC := SecondEnds(), entered := [3], timeouts := map[3 := ts])
  }

  lemma {:induction false} TheWorldIs()
    ensures TheWorld.Valid() && TheWorld.Quorum() == 3 && Binding(TheWorld) && TheEnv(3).Valid()
  {
    FourAreValid(FastHotStuff, {}, Digests);
    SurroundingsOrder(TheWorld, Digests, 3, v => if v == 4 then 3 else 0, Some([]));
  }

  lemma {:induction false} SecondEndsVerifies()
    ensures VerifyTC(TheWorld, SecondEnds())
  {
    TheWorldIs();
    var sig := SecondEnds().sig.value;
    var three: set<ID> := {0, 1, 2};
    assert forall i :: i in three ==> Verify(TheWorld, sig[i], ViewHash(2)) by {
      assert Digests[1] == ViewHash(2);
    }
    assert |three| == 3;
    CardinalitySubset(three, Verified(TheWorld, sig, Uniform(TheWorld, ViewHash(2))));
  }

  lemma {:induction false} ThirdIsProper(i: ID)
    requires i < 3
    ensures ProperTimeout(TheWorld, 3, Third(i)) && Verify(TheWorld, Third(i).viewSig, ViewHash(3))
  {
    assert Digests[0] == BlockHash(First) && Digests[2] == ViewHash(3) && Digests[3 + i] == Reports(i);
    CertVerifies(FastHotStuff, {}, Digests, 2, 0, First);
  }

  /** The first timeout takes the leader to the third view, with the timeout certificate. */
  lemma {:induction false} Advances(n: Node, i: ID)
    requires i < 3
    ensures TheEnv(3).Valid()
    ensures var r := AdvanceView(TheEnv(3), n, Third(i).syncInfo);
      && (n.currentView == 3 && n.highTC.view == 2 ==> r == n)
      && (n.currentView == 1 && n.highTC.view == 0 ==>
            r == n.(currentView := 3, highTC := SecondEnds(), lastTimeout := None, entered := n.entered + [3]))
  {
    TheWorldIs();
    SecondEndsVerifies();
    var c, si := TheEnv(3), Third(i).syncInfo;
    var n1 := if 2 > n.highTC.view then n.(highTC := SecondEnds()) else n;
    assert AdvanceView(c, n, si) == EnterView(c, n1, 2, si);
    assert c.leader(3) == 0;
  }

  lemma {:induction false} FewStay(n: Node, ts: map<ID, TimeoutMsg>)
    requires TheEnv(3).Valid() && TheWorld.Quorum() == 3 && n.timeouts == map[3 := ts] && |ts| < 3 && n.currentView == 3
    ensures DropOld(Tally(TheEnv(3), n, 3)) == n
  {
    assert Tally(TheEnv(3), n, 3) == n;
    assert DropOld(n).timeouts == n.timeouts;
  }

  lemma {:induction false} FilesOne(n: Node, ts: map<ID, TimeoutMsg>, i: ID)
    requires i < 3 && |ts| < 2 && i !in ts && n.currentView == 3 && Bucket(n, 3) == ts
    requires forall v :: v in n.timeouts ==> v == 3
    ensures TheEnv(3).Valid()
    ensures DropOld(Tally(TheEnv(3), FileTimeout(n, Third(i)), 3)) == n.(timeouts := map[3 := ts[i := Third(i)]])
  {
    TheWorldIs();
    var n2 := FileTimeout(n, Third(i));
    assert n2.timeouts == map[3 := ts[i := Third(i)]];
    FewStay(n2, ts[i := Third(i)]);
  }

  /** Handling the timeouts one after the other files them. */
  lemma {:induction false} Handles(ts: map<ID, TimeoutMsg>, i: ID)
    requires i < 3 && |ts| < 2 && i !in ts
    ensures TheEnv(3).Valid()
    ensures OnRemoteTimeout(TheEnv(3), if ts == map[] then InitialNode else Filing(ts), Third(i))
         == Filing(ts[i := Third(i)])
  {
    var n := if ts == map[] then InitialNode else Filing(ts);
    Advances(n, i);
    ThirdIsProper(i);
    FilesOne(AdvanceView(TheEnv(3), n, Third(i).syncInfo), ts, i);
  }

  lemma {:induction false} FiledAre()
    ensures |Filed()| == 3 && SignersIn(Filed()) == Filed().Keys
  {
    var three: set<ID> := {0, 1, 2};
    assert |three| == 3 && Filed().Keys == three;
    assert |Filed()| == |Filed().Keys|;
    assert forall i :: i in Filed() ==> Filed()[i].viewSig.signer == i;
  }

  lemma {:induction false} FiledIsProper()
    ensures ProperBucket(TheWorld, 3, Filed()) && GoodEntries(TheWorld, {}, 3, Filed())
  {
    forall i | i in Filed()
      ensures ProperTimeout(TheWorld, 3, Filed()[i]) && Verify(TheWorld, Filed()[i].viewSig, ViewHash(3))
    {
      ThirdIsProper(i);
    }
    assert forall i :: i in Filed() ==> Filed()[i].id == i;
  }

  lemma {:induction false} ThirdEnds(n: Node)
    requires 3 in n.timeouts && n.timeouts[3] == Filed()
    ensures TheEnv(3).Valid() && Certify(TheEnv(3), n, 3).Some?
  {
    TheWorldIs();
    FiledAre();
    FiledIsProper();
    assert |Filed().Keys| == |Filed()|;
    CertifyExactly(TheEnv(3), {}, n, 3);
  }

  /** The three timeouts are on file, and the high certificate is still that of genesis. */
  predicate TimeoutsFiled(n: Node) {
    && n.currentView == 3 && 3 in n.timeouts && n.timeouts[3] == Filed()
    && n.highQC == GenesisCert && n.leafBlock == Genesis
  }

  lemma {:induction false} LeaderFinds(n: Node)
    requires TimeoutsFiled(n)
    ensures var c := TheEnv(3);
      && c.leader(4) == c.self && c.command(4).Some?
      && Found(c, n, n.highQC.hash, n.leafBlock) && VerifyQC(c.w, n.highQC)
  {
  }

  lemma {:induction false} LeaderCounts(n: Node)
    requires TimeoutsFiled(n)
    ensures |n.timeouts[3]| >= TheEnv(3).w.Quorum() && ProperBucket(TheEnv(3).w, 3, n.timeouts[3])
  {
    TheWorldIs();
    FiledAre();
    FiledIsProper();
  }

  lemma {:induction false} LeaderLives()
    ensures var c := TheEnv(3); c.Valid() && c.UsesAggQC() && c.w.replicas != {} && Binding(c.w)
  {
    TheWorldIs();
  }

  lemma {:induction false} LeaderIsReady(n: Node)
    requires TimeoutsFiled(n)
    ensures CanReplace(TheEnv(3), n, 3)
  {
    LeaderLives();
    LeaderCounts(n);
    LeaderFinds(n);
    ThirdEnds(n);
  }

  lemma {:induction false} HighestIsFirst(j: ID)
    ensures TheEnv(j).Valid() && HighestReported(TheEnv(j), Filed()) == Some(Cert(2, 0, First))
  {
    SurroundingsOrder(TheWorld, Digests, j, v => if v == 4 then 3 else 0, Some([]));
    assert Filed()[0].syncInfo.qc == Some(Cert(2, 0, First));
    HighestIs(TheEnv(j), Filed(), Cert(2, 0, First));
  }

  lemma {:induction false} StaleIsExpected(j: ID, n: Node, nl: Node, p: ProposeMsg)
    requires n.lastVote <= 3 && p.block == Stale && nl.highQC == GenesisCert && nl.leafBlock == Genesis
    ensures Expects(TheEnv(j), n, TheEnv(3), nl, 3, p)
  {
    HighestIsFirst(j);
    assert Digests[6] == BlockHash(Stale);
    assert Found(TheEnv(j), n, nl.highQC.hash, nl.leafBlock);
  }

  /** What the leader then proposes, no replica votes for. */
  lemma {:induction false} Refused(j: ID, n: Node, nl: Node) returns (p: ProposeMsg)
    requires n.lastVote <= 3
    requires TimeoutsFiled(nl)
    ensures TheEnv(3).Valid() && TheEnv(j).Valid()
    ensures |Tally(TheEnv(3), nl, 3).proposals| > |nl.proposals|
    ensures p == Tally(TheEnv(3), nl, 3).proposals[|nl.proposals|]
    ensures !Votes(TheEnv(j), n, p)
  {
    LeaderIsReady(nl);
    p := LeaderReplaces(TheEnv(3), nl, 3);
    assert p.block == Stale;
    StaleIsExpected(j, n, nl, p);
    HighestIsFirst(j);
    ReplacementVotedExactly(TheEnv(3), nl, 3, TheEnv(j), n, p);
  }

  /** The leader that has handled the first two timeouts. */
  lemma {:induction false} TwoHandled()
    ensures TheEnv(3).Valid()
    ensures OnRemoteTimeout(TheEnv(3), OnRemoteTimeout(TheEnv(3), InitialNode, Third(0)), Third(1))
         == Filing(map[0 := Third(0), 1 := Third(1)])
  {
    var none: map<ID, TimeoutMsg>, one: map<ID, TimeoutMsg> := map[], map[0 := Third(0)];
    Handles(none, 0);
    assert none[0 := Third(0)] == one && one[1 := Third(1)] == map[0 := Third(0), 1 := Third(1)];
    Handles(one, 1);
  }

  lemma {:induction false} ThirdIsFiled()
    ensures TimeoutsFiled(FileTimeout(Filing(map[0 := Third(0), 1 := Third(1)]), Third(2)))
  {
    assert map[0 := Third(0), 1 := Third(1)][2 := Third(2)] == Filed();
  }

  /** From the initial state, three proper timeouts make the leader propose a block that no replica votes
      for, whatever it has voted for before. */
  lemma {:induction false} ViewChangeFails(j: ID, n: Node)
    requires n.lastVote <= 3
    ensures TheEnv(3).Valid() && TheEnv(j).Valid()
    ensures var n2 := OnRemoteTimeout(TheEnv(3), OnRemoteTimeout(TheEnv(3), InitialNode, Third(0)), Third(1));
      var r := OnRemoteTimeout(TheEnv(3), n2, Third(2));
      |r.proposals| > 0 && !Votes(TheEnv(j), n, r.proposals[0])
  {
    var n2 := Filing(map[0 := Third(0), 1 := Third(1)]);
    var n3 := FileTimeout(n2, Third(2));
    TwoHandled();
    ThirdIsFiled();
    Advances(n2, 2);
    ThirdIsProper(2);
    var p := Refused(j, n, n3);
    LastHandled(n2, n3);
  }

  lemma {:induction false} LastHandled(n2: Node, n3: Node)
    requires TheEnv(3).Valid() && AdvanceView(TheEnv(3), n2, Third(2).syncInfo) == n2 && n3 == FileTimeout(n2, Third(2))
    requires Verify(TheWorld, Third(2).viewSig, ViewHash(3))
    ensures OnRemoteTimeout(TheEnv(3), n2, Third(2)).proposals == Tally(TheEnv(3), n3, 3).proposals
  {
  }
}
