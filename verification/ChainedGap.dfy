/** ChainedHotStuff commits without looking at views (consensus/chainedhotstuff/chainedhotstuff.go). A commit is in
    agreement with all later ones exactly if its three-chain spans two views: with a view to spare, a run in which three
    correct replicas and one faulty proposer commit conflicting blocks. */
module ChainedGap {
  import opened Types
  import opened Quorums
  import opened Crypto
  import opened Handlers
  import opened History
  import opened Safety
  import opened Agreement
  import opened Protocol
  import opened Invariant
  import opened Theorems
  import opened Staging

  /** The views of the three-chain of a commit. */
  predicate ChainViews(r: Commit, v3: View, v2: View, v1: View) {
    && r.block.view == v3
    && Justified(r.trigger).Some? && Justified(r.trigger).value.view == v1
    && Justified(Justified(r.trigger).value).Some? && Justified(Justified(r.trigger).value).value.view == v2
  }

  /** No commit with these views conflicts with a commit by a three-chain that spans two views. */
  ghost predicate Harmless(v3: View, v2: View, v1: View) {
    forall w, s, i, j, r1, r2 ::
      Reachable(w, s) && w.rules.ChainedHotStuff? && ParentsMatch(w, s.hist)
      && CommittedAt(s, i, r1) && CommittedAt(s, j, r2) && ChainViews(r1, v3, v2, v1) && Tight(w.rules, r2)
      ==> OneChain(r1.block, r2.block)
  }

  // ---- the world of the run ----

  /** Certificates hold the signatures of the three correct replicas. */
  function Child(k: nat, b: Block, view: View): Block {
    Block(BlockHash(b), if b == Genesis then QuorumCert(None, 0, GenesisHash) else Cert(2, k, b), [], view, 3)
  }

  function TheWorld(ds: seq<Hash>): World {
    FourReplicas(ChainedHotStuff, {3}, ds)
  }

  /** Replica 3 leads every view, and no commands are queued. */
  ghost function TheEnv(ds: seq<Hash>, i: ID): Env {
    Surroundings(TheWorld(ds), ds, i, v => 3, None)
  }

  lemma {:induction false} TheWorldValid(ds: seq<Hash>, i: ID)
    ensures TheWorld(ds).Valid() && TheWorld(ds).Quorum() == 3
    ensures EnvFor(TheWorld(ds), TheEnv(ds, i), i)
  {
    FourAreValid(ChainedHotStuff, {3}, ds);
    SurroundingsOrder(TheWorld(ds), ds, i, v => 3, None);
    SurroundingsSign(ChainedHotStuff, {3}, ds, i, v => 3, None);
  }

  // ---- delivering one block ----

  function LockAfter(l: Block, b: Block): Block {
    if Justified(b).Some? && Justified(Justified(b).value).Some? && Justified(Justified(b).value).value.view > l.view
    then Justified(Justified(b).value).value else l
  }

  function Proposed(b: Block): ProposeMsg {
    ProposeMsg(3, b, None)
  }

  /** The block proposed may be voted for. */
  predicate Votable(n: Node, b: Block) {
    && Justified(b).Some?
    && (Justified(b).value.view > n.locked.view || (b.view > 0 && b.parent == GenesisHash && n.locked == Genesis))
  }

  /** `r` is `n` after a vote for `b`, if it can be cast, a lock and a commit. */
  ghost predicate Took(ds: seq<Hash>, n: Node, b: Block, r: Node) {
    && n.commits <= r.commits
    && r.locked == LockAfter(n.locked, b)
    && (if b.view > n.lastVote && BlockHash(b) in ds
        then r.lastVote == b.view && r.acts == n.acts + [VoteFor(Proposed(b))]
        else r.lastVote == n.lastVote && r.acts == n.acts)
    && (forall x, b1, b2 :: CommitChain(ChainedHotStuff, Commit(b, x), b1, b2) ==> Commit(b, x) in r.commits)
  }

  lemma CommitsChain(ds: seq<Hash>, i: ID, n: Node, b: Block)
    ensures var (r, x) := CommitChained(TheEnv(ds, i), n, b);
      && r.locked == LockAfter(n.locked, b)
      && (forall y, b1, b2 :: CommitChain(ChainedHotStuff, Commit(b, y), b1, b2) ==> x == Some(y))
  {
  }

  lemma {:induction false} Considered(ds: seq<Hash>, i: ID, n: Node, b: Block)
    requires Votable(n, b)
    ensures Took(ds, n, b, Consider(TheEnv(ds, i), n, Proposed(b)))
  {
    var c, p := TheEnv(ds, i), Proposed(b);
    if b.parent == GenesisHash && n.locked == Genesis {
      assert Extends(c, n, Genesis, n.locked);
    }
    assert VoteRule(c, n, p);
    var n1 := CastVote(c, n.(blocks := n.blocks + {b}), p);
    CommitsChain(ds, i, n1, b);
  }

  /** A replica that does not lead a view only enters it. */
  lemma Advanced(ds: seq<Hash>, i: ID, n: Node, qc: QuorumCert)
    requires i < 3 && VerifyQC(TheWorld(ds), qc)
    ensures TheEnv(ds, i).Valid()
    ensures var r := AdvanceView(TheEnv(ds, i), n, SyncInfo(Some(qc), None, None));
      r.commits == n.commits && r.locked == n.locked && r.lastVote == n.lastVote && r.acts == n.acts
  {
    TheWorldValid(ds, i);
    var c, si := TheEnv(ds, i), SyncInfo(Some(qc), None, None);
    assert AdvanceView(c, n, si) == EnterView(c, UpdateHighQC(c, n, qc), qc.view, si);
  }

  /** A correct replica that handles the proposal `b` votes if it can, locks, and commits. */
  lemma {:induction false} Delivered(ds: seq<Hash>, i: ID, n: Node, b: Block)
    requires i < 3 && VerifyQC(TheWorld(ds), b.cert) && Votable(n, b)
    ensures TheEnv(ds, i).Valid()
    ensures Took(ds, n, b, Handle(TheEnv(ds, i), n, Proposal(Proposed(b))))
  {
    TheWorldValid(ds, i);
    var c, p := TheEnv(ds, i), Proposed(b);
    Considered(ds, i, n, b);
    Advanced(ds, i, Consider(c, n, p), b.cert);
    assert OnPropose(c, n, p) == AdvanceView(c, Consider(c, n, p), SyncInfo(Some(b.cert), None, None));
  }

  // ---- the run ----

  /** All correct replicas are in the same position: they last voted in view `v` and are locked on `l`. */
  ghost predicate At(runs: iset<System>, ds: seq<Hash>, s: System, v: View, l: Block) {
    && Closed(TheWorld(ds), runs, false) && s in runs
    && ThreeNodes(s)
    && (forall i :: i in s.nodes ==> s.nodes[i].lastVote == v && s.nodes[i].locked == l)
    && MatchingVotes(s.hist)
  }

  ghost predicate ThreeNodes(s: System) {
    forall i: ID :: i in s.nodes <==> i < 3
  }

  ghost predicate MatchingVotes(hist: seq<Act>) {
    forall k :: 0 <= k < |hist| && hist[k].what.VoteFor? ==>
      hist[k].what.p.block.parent == hist[k].what.p.block.cert.hash
  }

  ghost predicate AllVoted(s: System, b: Block) {
    b == Genesis || Voted(s, 2, b)
  }

  ghost function Deliver(ds: seq<Hash>, i: ID, b: Block): Step {
    Step(i, TheEnv(ds, i), Proposal(Proposed(b)))
  }

  lemma ChildVerifies(ds: seq<Hash>, s: System, k: nat, c: Block, view: View)
    requires AllVoted(s, c) && (c != Genesis ==> k < |ds| && ds[k] == BlockHash(c))
    ensures CertOk(TheWorld(ds), s, Child(k, c, view).cert)
  {
    if c != Genesis {
      CertIsOk(ChainedHotStuff, {3}, ds, s, 2, k, c);
    }
  }

  lemma DeliverAllowed(ds: seq<Hash>, s: System, i: ID, k: nat, c: Block, view: View)
    requires ThreeNodes(s) && i in s.nodes && AllVoted(s, c) && (c != Genesis ==> k < |ds| && ds[k] == BlockHash(c))
    ensures StepOk(TheWorld(ds), s, Deliver(ds, i, Child(k, c, view)))
  {
    TheWorldValid(ds, i);
    ChildVerifies(ds, s, k, c, view);
  }

  /** The history after a delivery. */
  lemma HistoryTakes(ds: seq<Hash>, hist: seq<Act>, i: ID, n: Node, b: Block, r: Node)
    requires Took(ds, n, b, r) && MatchingVotes(hist) && b.parent == b.cert.hash
    ensures hist <= Grown(hist, i, n, r) && MatchingVotes(Grown(hist, i, n, r))
    ensures r.lastVote != n.lastVote ==> SignedBy(Grown(hist, i, n, r), i, BlockHash(b))
  {
    if r.acts == n.acts {
      GrownSame(hist, i, n, r);
    } else {
      var a := VoteFor(Proposed(b));
      GrownOne(hist, i, n, r, a);
      assert (hist + [Act(i, a)])[|hist|] == Act(i, a);
    }
  }

  /** One replica handles a block whose certificate is for a block all have voted for. */
  lemma {:induction false} DeliverOne(
      runs: iset<System>, ds: seq<Hash>, s: System, i: ID, k: nat, c: Block, view: View)
    returns (t: System)
    requires Closed(TheWorld(ds), runs, false) && s in runs && ThreeNodes(s) && i in s.nodes && MatchingVotes(s.hist)
    requires AllVoted(s, c) && (c != Genesis ==> k < |ds| && ds[k] == BlockHash(c))
    requires Votable(s.nodes[i], Child(k, c, view))
    ensures t in runs && MatchingVotes(t.hist) && Later(s, t)
    ensures Took(ds, s.nodes[i], Child(k, c, view), t.nodes[i])
    ensures forall j :: j in s.nodes && j != i ==> t.nodes[j] == s.nodes[j]
    ensures t.nodes[i].lastVote != s.nodes[i].lastVote ==> SignedBy(t.hist, i, BlockHash(Child(k, c, view)))
  {
    var w, b := TheWorld(ds), Child(k, c, view);
    var st := Deliver(ds, i, b);
    DeliverAllowed(ds, s, i, k, c, view);
    t := Apply(s, st);
    assert Closed(w, runs, false) && StepOk(w, s, st);
    ChildVerifies(ds, s, k, c, view);
    Delivered(ds, i, s.nodes[i], b);
    HistoryTakes(ds, s.hist, i, s.nodes[i], b, t.nodes[i]);
  }

  lemma AllVotedGrows(s: System, t: System, b: Block)
    requires Later(s, t) && AllVoted(s, b)
    ensures AllVoted(t, b)
  {
    if b != Genesis {
      VotedGrows(s, t, 2, b);
    }
  }

  /** Between `s` and `t` the replicas below `m` have handled `b`. */
  ghost predicate Partway(runs: iset<System>, ds: seq<Hash>, s: System, t: System, b: Block, m: nat) {
    && t in runs && ThreeNodes(t) && MatchingVotes(t.hist) && Later(s, t)
    && (forall i :: i in s.nodes && i < m ==>
          && Took(ds, s.nodes[i], b, t.nodes[i])
          && (t.nodes[i].lastVote != s.nodes[i].lastVote ==> SignedBy(t.hist, i, BlockHash(b))))
    && (forall i :: i in s.nodes && i >= m ==> t.nodes[i] == s.nodes[i])
  }

  lemma {:induction false} DeliverSome(
      runs: iset<System>, ds: seq<Hash>, s: System, k: nat, c: Block, view: View, m: nat)
    returns (t: System)
    requires Closed(TheWorld(ds), runs, false) && s in runs && ThreeNodes(s) && MatchingVotes(s.hist) && m <= 3
    requires AllVoted(s, c) && (c != Genesis ==> k < |ds| && ds[k] == BlockHash(c))
    requires forall i :: i in s.nodes ==> Votable(s.nodes[i], Child(k, c, view))
    ensures Partway(runs, ds, s, t, Child(k, c, view), m)
  {
    if m == 0 {
      t := s;
    } else {
      var b := Child(k, c, view);
      var u := DeliverSome(runs, ds, s, k, c, view, m - 1);
      AllVotedGrows(s, u, c);
      assert u.nodes[m - 1] == s.nodes[m - 1];
      t := DeliverOne(runs, ds, u, m - 1, k, c, view);
      OneFurther(runs, ds, s, u, t, b, m - 1);
    }
  }

  lemma {:induction false} OneFurther(
      runs: iset<System>, ds: seq<Hash>, s: System, u: System, t: System, b: Block, m: nat)
    requires Partway(runs, ds, s, u, b, m) && m in u.nodes && u.nodes[m] == s.nodes[m]
    requires t in runs && MatchingVotes(t.hist) && Later(u, t) && Took(ds, u.nodes[m], b, t.nodes[m])
    requires forall j :: j in u.nodes && j != m ==> t.nodes[j] == u.nodes[j]
    requires t.nodes[m].lastVote != u.nodes[m].lastVote ==> SignedBy(t.hist, m, BlockHash(b))
    ensures Partway(runs, ds, s, t, b, m + 1)
  {
    forall i | i in s.nodes && i < m && t.nodes[i].lastVote != s.nodes[i].lastVote
      ensures SignedBy(t.hist, i, BlockHash(b))
    {
      SignedGrows(u.hist, t.hist, i, BlockHash(b));
    }
  }

  lemma {:induction false} AllDelivered(
      runs: iset<System>, ds: seq<Hash>, s: System, v: View, l: Block, b: Block, t: System)
    requires At(runs, ds, s, v, l) && Partway(runs, ds, s, t, b, 3)
    ensures At(runs, ds, t, if b.view > v && BlockHash(b) in ds then b.view else v, LockAfter(l, b))
    ensures b.view > v && BlockHash(b) in ds ==> AllVoted(t, b)
    ensures forall i, x, b1, b2 ::
      i in t.nodes && CommitChain(ChainedHotStuff, Commit(b, x), b1, b2) ==> Commit(b, x) in t.nodes[i].commits
  {
    assert 0 in s.nodes && 1 in s.nodes && 2 in s.nodes;
    assert forall i :: i in s.nodes ==> Took(ds, s.nodes[i], b, t.nodes[i]);
  }

  /** All correct replicas handle the block `b`, whose certificate is for `c`, at position `k` of `ds`. */
  lemma {:induction false} DeliverAll(
      runs: iset<System>, ds: seq<Hash>, s: System, v: View, l: Block, k: nat, c: Block, b: Block)
    returns (t: System)
    requires At(runs, ds, s, v, l) && b == Child(k, c, b.view)
    requires AllVoted(s, c) && (c != Genesis ==> k < |ds| && ds[k] == BlockHash(c))
    requires c.view > l.view || (b.view > 0 && c == Genesis && l == Genesis)
    ensures At(runs, ds, t, if b.view > v && BlockHash(b) in ds then b.view else v, LockAfter(l, b))
    ensures Later(s, t)
    ensures b.view > v && BlockHash(b) in ds ==> AllVoted(t, b)
    ensures forall i, x, b1, b2 ::
      i in t.nodes && CommitChain(ChainedHotStuff, Commit(b, x), b1, b2) ==> Commit(b, x) in t.nodes[i].commits
  {
    t := DeliverSome(runs, ds, s, k, c, b.view, 3);
    AllDelivered(runs, ds, s, v, l, b, t);
  }

  // ---- a view to spare ----

  /** The blocks of the run: a three-chain `b3`, `b2`, `b1` with a late successor `d`, and a chain `g`, `x`, `y`, `z`
      with a successor `e`, whose first block is in a view that the three-chain passes over. */
  datatype Fork = Fork(b3: Block, b2: Block, b1: Block, d: Block, g: Block, x: Block, y: Block, z: Block, e: Block)
  {
    function Digests(): seq<Hash> {
      [BlockHash(b3), BlockHash(g), BlockHash(b2), BlockHash(b1), BlockHash(x), BlockHash(y), BlockHash(z)]
    }

    ghost predicate Valid() {
      && 0 < b3.view < b2.view < b1.view
      && b3.view < g.view < b1.view && g.view != b2.view
      && d.view == x.view == b1.view + 1 && y.view == x.view + 1 && z.view == y.view + 1 && e.view == z.view + 1
      && b3 == Child(0, Genesis, b3.view) && g == Child(0, Genesis, g.view)
      && b2 == Child(0, b3, b2.view) && b1 == Child(2, b2, b1.view) && d == Child(3, b1, d.view)
      && x == Child(1, g, x.view) && y == Child(4, x, y.view) && z == Child(5, y, z.view) && e == Child(6, z, e.view)
    }
  }

  function MakeFork(v3: View, u: View, v2: View, v1: View): Fork {
    var b3 := Child(0, Genesis, v3);
    var g := Child(0, Genesis, u);
    var b2 := Child(0, b3, v2);
    var b1 := Child(2, b2, v1);
    var x := Child(1, g, v1 + 1);
    var y := Child(4, x, v1 + 2);
    var z := Child(5, y, v1 + 3);
    Fork(b3, b2, b1, Child(3, b1, v1 + 1), g, x, y, z, Child(6, z, v1 + 4))
  }

  lemma MakeForkValid(v3: View, u: View, v2: View, v1: View)
    requires 0 < v3 < v2 < v1 && v3 < u < v1 && u != v2
    ensures MakeFork(v3, u, v2, v1).Valid()
  {
  }

  /** How the replicas are locked as the blocks arrive. */
  lemma {:induction false} EarlyLocks(f: Fork)
    requires f.Valid()
    ensures LockAfter(Genesis, f.b3) == LockAfter(Genesis, f.g) == LockAfter(Genesis, f.b2) == Genesis
  {
    assert Justified(f.b3) == Justified(f.g) == Some(Genesis) && Justified(Genesis) == None;
    assert Justified(f.b2) == Some(f.b3);
  }

  lemma {:induction false} ForkLocks(f: Fork)
    requires f.Valid()
    ensures LockAfter(Genesis, f.b1) == f.b3 && LockAfter(f.b3, f.x) == f.b3
  {
    assert Justified(f.b1) == Some(f.b2) && Justified(f.b2) == Some(f.b3);
    assert Justified(f.x) == Some(f.g) && Justified(f.g) == Some(Genesis);
  }

  lemma {:induction false} OtherLocks(f: Fork)
    requires f.Valid()
    ensures LockAfter(f.b3, f.y) == f.g
  {
    assert Justified(f.y) == Some(f.x) && Justified(f.x) == Some(f.g);
  }

  lemma {:induction false} LateLocks(f: Fork)
    requires f.Valid()
    ensures LockAfter(f.g, f.d).view < f.y.view
    ensures LockAfter(LockAfter(f.g, f.d), f.z) == f.x
  {
    assert Justified(f.d) == Some(f.b1) && Justified(f.b1) == Some(f.b2);
    var l := LockAfter(f.g, f.d);
    assert l == f.g || l == f.b2;
    assert l.view < f.x.view;
    assert Justified(f.z) == Some(f.y) && Justified(f.y) == Some(f.x);
  }

  lemma ForkCommits(f: Fork)
    requires f.Valid()
    ensures CommitChain(ChainedHotStuff, Commit(f.d, f.b3), f.b1, f.b2)
    ensures CommitChain(ChainedHotStuff, Commit(f.e, f.x), f.z, f.y)
  {
  }

  lemma ForkDigests(f: Fork, ds: seq<Hash>)
    requires ds == f.Digests()
    ensures |ds| == 7
    ensures ds[0] == BlockHash(f.b3) && ds[1] == BlockHash(f.g) && ds[2] == BlockHash(f.b2) && ds[3] == BlockHash(f.b1)
    ensures ds[4] == BlockHash(f.x) && ds[5] == BlockHash(f.y) && ds[6] == BlockHash(f.z)
    ensures BlockHash(f.b3) in ds && BlockHash(f.g) in ds && BlockHash(f.b2) in ds && BlockHash(f.b1) in ds
    ensures BlockHash(f.x) in ds && BlockHash(f.y) in ds && BlockHash(f.z) in ds
  {
    assert ds[0] == BlockHash(f.b3) && ds[1] == BlockHash(f.g) && ds[2] == BlockHash(f.b2) && ds[3] == BlockHash(f.b1);
    assert ds[4] == BlockHash(f.x) && ds[5] == BlockHash(f.y) && ds[6] == BlockHash(f.z);
  }

  lemma {:induction false} AllRuns(ds: seq<Hash>) returns (runs: iset<System>)
    ensures runs == (iset s | Reachable(TheWorld(ds), s)) && Closed(TheWorld(ds), runs, false)
  {
    runs := iset s | Reachable(TheWorld(ds), s);
    forall s, st | s in runs && StepOk(TheWorld(ds), s, st) ensures Apply(s, st) in runs {
      ReachableStep(TheWorld(ds), s, st);
    }
  }

  lemma {:induction false} Initially(ds: seq<Hash>) returns (s: System)
    ensures Reachable(TheWorld(ds), s) && ThreeNodes(s) && s.hist == []
    ensures forall i :: i in s.nodes ==> s.nodes[i] == InitialNode
  {
    TheWorldValid(ds, 0);
    var w := TheWorld(ds);
    s := InitialSystem(w);
    assert forall i: ID :: i in s.nodes <==> i == 0 || i == 1 || i == 2;
    assert After(w, []) == Some(s);
  }

  /** All vote for the three-chain and for the block in between, in the order of their views. */
  lemma VoteForChain(runs: iset<System>, f: Fork, ds: seq<Hash>, s0: System) returns (s: System)
    requires f.Valid() && ds == f.Digests() && At(runs, ds, s0, 0, Genesis)
    ensures At(runs, ds, s, f.b1.view, f.b3) && AllVoted(s, f.b1) && AllVoted(s, f.g)
  {
    ForkDigests(f, ds);
    EarlyLocks(f);
    ForkLocks(f);
    OtherLocks(f);
    s := DeliverAll(runs, ds, s0, 0, Genesis, 0, Genesis, f.b3);
    if f.g.view < f.b2.view {
      s := VoteForGapFirst(runs, f, ds, s);
    } else {
      s := VoteForGapSecond(runs, f, ds, s);
    }
    var t := DeliverAll(runs, ds, s, if f.g.view < f.b2.view then f.b2.view else f.g.view, Genesis, 2, f.b2, f.b1);
    AllVotedGrows(s, t, f.g);
    s := t;
  }

  lemma VoteForGapFirst(runs: iset<System>, f: Fork, ds: seq<Hash>, s: System) returns (t: System)
    requires f.Valid() && ds == f.Digests() && f.g.view < f.b2.view && At(runs, ds, s, f.b3.view, Genesis)
    requires AllVoted(s, f.b3)
    ensures At(runs, ds, t, f.b2.view, Genesis) && AllVoted(t, f.g) && AllVoted(t, f.b2)
  {
    ForkDigests(f, ds);
    EarlyLocks(f);
    ForkLocks(f);
    OtherLocks(f);
    var u := DeliverAll(runs, ds, s, f.b3.view, Genesis, 0, Genesis, f.g);
    AllVotedGrows(s, u, f.b3);
    t := DeliverAll(runs, ds, u, f.g.view, Genesis, 0, f.b3, f.b2);
    AllVotedGrows(u, t, f.g);
  }

  lemma VoteForGapSecond(runs: iset<System>, f: Fork, ds: seq<Hash>, s: System) returns (t: System)
    requires f.Valid() && ds == f.Digests() && f.g.view > f.b2.view && At(runs, ds, s, f.b3.view, Genesis)
    requires AllVoted(s, f.b3)
    ensures At(runs, ds, t, f.g.view, Genesis) && AllVoted(t, f.g) && AllVoted(t, f.b2)
  {
    ForkDigests(f, ds);
    EarlyLocks(f);
    ForkLocks(f);
    OtherLocks(f);
    var u := DeliverAll(runs, ds, s, f.b3.view, Genesis, 0, f.b3, f.b2);
    t := DeliverAll(runs, ds, u, f.b2.view, Genesis, 0, Genesis, f.g);
    AllVotedGrows(u, t, f.b2);
  }

  /** A chain is built on the block in between. */
  lemma VoteForOther(runs: iset<System>, f: Fork, ds: seq<Hash>, s: System) returns (t: System)
    requires f.Valid() && ds == f.Digests() && At(runs, ds, s, f.b1.view, f.b3) && AllVoted(s, f.b1) && AllVoted(s, f.g)
    ensures At(runs, ds, t, f.y.view, f.g) && AllVoted(t, f.b1) && AllVoted(t, f.y)
  {
    ForkDigests(f, ds);
    EarlyLocks(f);
    ForkLocks(f);
    OtherLocks(f);
    var u := DeliverAll(runs, ds, s, f.b1.view, f.b3, 1, f.g, f.x);
    AllVotedGrows(s, u, f.b1);
    t := DeliverAll(runs, ds, u, f.x.view, f.b3, 4, f.x, f.y);
    AllVotedGrows(u, t, f.b1);
  }

  /** A late successor of the three-chain commits its bottom. */
  lemma CommitFirst(runs: iset<System>, f: Fork, ds: seq<Hash>, s: System) returns (t: System)
    requires f.Valid() && ds == f.Digests() && At(runs, ds, s, f.y.view, f.g) && AllVoted(s, f.b1) && AllVoted(s, f.y)
    ensures At(runs, ds, t, f.y.view, LockAfter(f.g, f.d)) && AllVoted(t, f.y)
    ensures CommittedAt(t, 0, Commit(f.d, f.b3))
  {
    ForkDigests(f, ds);
    ForkCommits(f);
    t := DeliverAll(runs, ds, s, f.y.view, f.g, 3, f.b1, f.d);
    AllVotedGrows(s, t, f.y);
  }

  /** The other chain commits too. */
  lemma {:induction false} CommitSecond(runs: iset<System>, f: Fork, ds: seq<Hash>, s: System) returns (t: System)
    requires f.Valid() && ds == f.Digests() && At(runs, ds, s, f.y.view, LockAfter(f.g, f.d)) && AllVoted(s, f.y)
    ensures t in runs && MatchingVotes(t.hist) && Later(s, t)
    ensures CommittedAt(t, 0, Commit(f.e, f.x))
  {
    ForkDigests(f, ds);
    LateLocks(f);
    var u := DeliverAll(runs, ds, s, f.y.view, LockAfter(f.g, f.d), 5, f.y, f.z);
    t := DeliverLast(runs, f, ds, u);
  }

  lemma DeliverLast(runs: iset<System>, f: Fork, ds: seq<Hash>, s: System) returns (t: System)
    requires f.Valid() && ds == f.Digests() && At(runs, ds, s, f.z.view, f.x) && AllVoted(s, f.z)
    ensures t in runs && MatchingVotes(t.hist) && Later(s, t)
    ensures CommittedAt(t, 0, Commit(f.e, f.x))
  {
    ForkDigests(f, ds);
    ForkCommits(f);
    t := DeliverAll(runs, ds, s, f.z.view, f.x, 6, f.z, f.e);
  }

  lemma VotesMatchParents(ds: seq<Hash>, hist: seq<Act>)
    requires MatchingVotes(hist)
    ensures ParentsMatch(TheWorld(ds), hist)
  {
    TheWorldValid(ds, 0);
    forall b: Block | b != Genesis && Certified(TheWorld(ds), hist, BlockHash(b)) ensures b.parent == b.cert.hash {
      var q :| CertifiedBy(TheWorld(ds), hist, BlockHash(b), q);
      var i, k := VoterIn(TheWorld(ds), hist, b, q);
    }
  }

  lemma ForkConflicts(f: Fork)
    requires f.Valid()
    ensures !OneChain(f.b3, f.x)
  {
    assert !QCExtends(Genesis, f.b3) && !QCExtends(f.g, f.b3);
    assert !QCExtends(Genesis, f.x);
  }

  lemma Breaks(w: World, s: System, r1: Commit, r2: Commit, v3: View, v2: View, v1: View)
    requires Reachable(w, s) && w.rules.ChainedHotStuff? && ParentsMatch(w, s.hist)
    requires CommittedAt(s, 0, r1) && CommittedAt(s, 0, r2) && ChainViews(r1, v3, v2, v1) && Tight(w.rules, r2)
    requires !OneChain(r1.block, r2.block)
    ensures !Harmless(v3, v2, v1)
  {
  }

  lemma ForkViews(f: Fork)
    requires f.Valid()
    ensures ChainViews(Commit(f.d, f.b3), f.b3.view, f.b2.view, f.b1.view) && Tight(ChainedHotStuff, Commit(f.e, f.x))
  {
  }

  lemma {:induction false} WholeRun(runs: iset<System>, f: Fork, ds: seq<Hash>, s0: System) returns (s: System)
    requires f.Valid() && ds == f.Digests() && At(runs, ds, s0, 0, Genesis)
    ensures s in runs && MatchingVotes(s.hist)
    ensures CommittedAt(s, 0, Commit(f.d, f.b3)) && CommittedAt(s, 0, Commit(f.e, f.x))
  {
    s := VoteForChain(runs, f, ds, s0);
    s := VoteForOther(runs, f, ds, s);
    s := CommitFirst(runs, f, ds, s);
    s := CommitSecond(runs, f, ds, s);
  }

  lemma {:induction false} ForkBreaks(f: Fork)
    requires f.Valid()
    ensures !Harmless(f.b3.view, f.b2.view, f.b1.view)
  {
    var ds := f.Digests();
    var runs := AllRuns(ds);
    var s0 := Initially(ds);
    var s := WholeRun(runs, f, ds, s0);
    VotesMatchParents(ds, s.hist);
    ForkConflicts(f);
    ForkViews(f);
    Breaks(TheWorld(ds), s, Commit(f.d, f.b3), Commit(f.e, f.x), f.b3.view, f.b2.view, f.b1.view);
  }

  /** With a view to spare between the top and the bottom of the three-chain, agreement fails. */
  lemma GapBreaks(v3: View, v2: View, v1: View)
    requires 0 < v3 < v2 < v1 && v1 != v3 + 2
    ensures !Harmless(v3, v2, v1)
  {
    var u := if v2 == v3 + 1 then v3 + 2 else v3 + 1;
    MakeForkValid(v3, u, v2, v1);
    ForkBreaks(MakeFork(v3, u, v2, v1));
  }

  /** All commits agree with a commit of genesis. */
  lemma GenesisAgrees(w: World, s: System, i: ID, j: ID, r1: Commit, r2: Commit)
    requires Reachable(w, s) && w.rules.ChainedHotStuff? && ParentsMatch(w, s.hist)
    requires CommittedAt(s, i, r1) && CommittedAt(s, j, r2) && r1.block.view == 0
    ensures OneChain(r1.block, r2.block)
  {
    ReachableInv(w, s);
    CommitIsCertified(w, s.hist, r1);
    CommitIsCertified(w, s.hist, r2);
    OneCertifiedPerView(w, s.hist, r1.block, Genesis);
    ReachesGenesis(w, s.hist, r2.block);
  }

  /** If parents match certificates, a commit agrees with all commits by three-chains that span two views, exactly if it
      commits genesis or its three-chain spans two views itself. */
  lemma ChainedAgreementExactly(v3: View, v2: View, v1: View)
    requires v3 < v2 < v1
    ensures Harmless(v3, v2, v1) <==> v3 == 0 || v1 == v3 + 2
  {
    if v3 == 0 || v1 == v3 + 2 {
      forall w, s, i, j, r1, r2 |
        Reachable(w, s) && w.rules.ChainedHotStuff? && ParentsMatch(w, s.hist)
        && CommittedAt(s, i, r1) && CommittedAt(s, j, r2) && ChainViews(r1, v3, v2, v1) && Tight(w.rules, r2)
        ensures OneChain(r1.block, r2.block)
      {
        if v3 == 0 {
          GenesisAgrees(w, s, i, j, r1, r2);
        } else {
          ChainedAgreement(w, s, i, j, r1, r2);
        }
      }
    } else {
      GapBreaks(v3, v2, v1);
    }
  }
}
