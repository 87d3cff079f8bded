/** The invariant that ties each replica's state to the history, and its preservation by every handler. */
module Invariant {
  import opened Types
  import opened Quorums
  import opened Crypto
  import opened Handlers
  import opened History
  import opened Safety
  import opened Agreement
  import opened Protocol

  function Max(a: nat, b: nat): nat {
    if a < b then b else a
  }

  // ---- the invariant ----

  ghost predicate StoredLegit(w: World, hist: seq<Act>, n: Node) {
    forall v, id :: v in n.timeouts && id in n.timeouts[v] && n.timeouts[v][id].msgSig.Some? ==>
      Legit(w, hist, n.timeouts[v][id].msgSig.value)
  }

  /** Hypotheses on the history and on a replica's commits: none for SimpleHotStuff. */
  ghost predicate CommitsAssumed(w: World, hist: seq<Act>, commits: seq<Commit>) {
    Assumed(w, hist) && forall r :: r in commits ==> Tight(w.rules, r)
  }

  ghost predicate LogAssumed(w: World, hist: seq<Act>, commits: seq<Commit>) {
    CommitsAssumed(w, hist, commits) && ParentsMatch(w, hist)
  }

  /** What has been executed is the path to the last executed block. */
  ghost predicate LogMatches(n: Node) {
    n.executed == Path(n.bExec)
  }

  /** The executed block is that of the commits, and the log is the path to it exactly if all commits were linked, as
      they are if parents match certificates. */
  ghost predicate LogKept(
      w: World, hist: seq<Act>, commits: seq<Commit>, executed: seq<Block>, exec: Block, linked: bool)
  {
    && exec == ExecAfter(commits)
    && LogEnds(executed, exec)
    && (CommitsAssumed(w, hist, commits) ==> (executed == Path(exec) <==> linked))
    && (LogAssumed(w, hist, commits) ==> linked)
  }

  /** The part of the invariant that concerns the replica's fields. */
  ghost predicate Kept(w: World, hist: seq<Act>, n: Node) {
    && Certified(w, hist, BlockHash(n.locked))
    && Certified(w, hist, BlockHash(n.leafBlock))
    && n.highQC.hash == BlockHash(n.leafBlock)
    && (forall r :: r in n.commits ==> GoodCommit(w, hist, r))
    && StoredLegit(w, hist, n)
    && LogKept(w, hist, n.commits, n.executed, n.bExec, n.linked)
  }

  /** The part that bounds what replica `i` has signed by its fields: `v` by lastVote, `lock` by the locked block,
      `cert` by the block of the high certificate. */
  ghost predicate Bounded(w: World, hist: seq<Act>, i: ID, v: View, lock: View, cert: View) {
    && AllBelow(hist, i, v + 1)
    && (w.rules.FastHotStuff? || CoversLocks(hist, i, lock))
    && CoversCerts(hist, i, cert)
  }

  ghost predicate NodeInv(w: World, hist: seq<Act>, i: ID, n: Node) {
    Kept(w, hist, n) && Bounded(w, hist, i, n.lastVote, n.locked.view, n.leafBlock.view)
  }

  /** Replica `i` can handle an event in the surroundings `c`. */
  ghost predicate Ready(w: World, c: Env, i: ID, hist: seq<Act>, n: Node) {
    && w.Valid() && w.Honest(i) && EnvFor(w, c, i)
    && GoodHistory(w, hist)
    && Fetchable(w, c, hist, n)
  }

  // ---- growth of the history ----

  lemma LegitGrows(w: World, hist: seq<Act>, more: seq<Act>, sig: Signature)
    requires hist <= more && Legit(w, hist, sig)
    ensures Legit(w, more, sig)
  {
    forall h | w.Honest(sig.signer) && w.verifies(sig, h) ensures SignedBy(more, sig.signer, h) {
      SignedGrows(hist, more, sig.signer, h);
    }
  }

  /** The hypotheses hold of a history if they hold of a longer one. */
  lemma AssumedShrinks(w: World, hist: seq<Act>, more: seq<Act>)
    requires hist <= more
    ensures ParentsMatch(w, more) ==> ParentsMatch(w, hist)
    ensures Assumed(w, more) ==> Assumed(w, hist)
  {
    if ParentsMatch(w, more) {
      forall b: Block | b != Genesis && Certified(w, hist, BlockHash(b)) ensures b.parent == b.cert.hash {
        CertifiedGrows(w, hist, more, BlockHash(b));
      }
    }
    if AuthenticVotes(more) {
      forall k | 0 <= k < |hist| && hist[k].what.VoteFor? ensures AuthenticProposal(hist[k].what.p) {
        assert more[k] == hist[k];
      }
    }
  }

  lemma KeptGrows(w: World, hist: seq<Act>, more: seq<Act>, n: Node)
    requires hist <= more && Kept(w, hist, n)
    ensures Kept(w, more, n)
  {
    CertifiedGrows(w, hist, more, BlockHash(n.locked));
    CertifiedGrows(w, hist, more, BlockHash(n.leafBlock));
    forall r | r in n.commits ensures GoodCommit(w, more, r) {
      CertifiedGrows(w, hist, more, r.trigger.cert.hash);
    }
    forall v, id | v in n.timeouts && id in n.timeouts[v] && n.timeouts[v][id].msgSig.Some?
      ensures Legit(w, more, n.timeouts[v][id].msgSig.value)
    {
      LegitGrows(w, hist, more, n.timeouts[v][id].msgSig.value);
    }
    AssumedShrinks(w, hist, more);
  }

  /** What others sign does not disturb a replica's invariant. */
  lemma NodeInvGrows(w: World, hist: seq<Act>, more: seq<Act>, i: ID, n: Node)
    requires hist <= more && NodeInv(w, hist, i, n)
    requires forall k :: |hist| <= k < |more| ==> more[k].id != i
    ensures NodeInv(w, more, i, n)
  {
    KeptGrows(w, hist, more, n);
    assert forall k :: 0 <= k < |hist| ==> more[k] == hist[k];
    assert forall k :: IsVote(more, k, i) ==> IsVote(hist, k, i) && VotedBlock(more, k) == VotedBlock(hist, k);
  }

  /** Signing a digest that is not a block's, or voting for a stored block, leaves certified blocks within reach. */
  lemma FetchableGrows(w: World, c: Env, hist: seq<Act>, n: Node, i: ID, a: What, r: Node)
    requires Fetchable(w, c, hist, n) && n.blocks <= r.blocks
    requires a.VoteFor? ==> a.p.block in r.blocks
    ensures Fetchable(w, c, hist + [Act(i, a)], r)
  {
    var more := hist + [Act(i, a)];
    forall b: Block | Certified(w, more, BlockHash(b)) ensures Get(c, r, BlockHash(b)).Some? {
      if b !in r.blocks && b != Genesis {
        var q :| CertifiedBy(w, more, BlockHash(b), q);
        forall j | j in q && j !in w.faulty ensures SignedBy(hist, j, BlockHash(b)) {
          assert SignedBy(more, j, BlockHash(b));
        }
        assert CertifiedBy(w, hist, BlockHash(b), q);
      }
      if b !in r.blocks {
        assert Certified(w, hist, BlockHash(b));
      }
    }
  }

  // ---- OnPropose, up to the change of view ----

  lemma {:induction false} WalkIsAncestry(c: Env, n: Node, b: Block, target: Block)
    requires Extends(c, n, b, target)
    ensures ParentExtends(b, target)
    decreases b
  {
    if b.view > target.view {
      WalkIsAncestry(c, n, b.parent.block, target);
    }
  }

  /** A vote cast under the vote rule is a good act. */
  lemma VoteIsGood(w: World, c: Env, i: ID, hist: seq<Act>, n: Node, p: ProposeMsg)
    requires Ready(w, c, i, hist, n) && NodeInv(w, hist, i, n)
    requires VoteRule(c, n, p) && p.block.view > n.lastVote
    requires Certified(w, hist, p.block.cert.hash)
    requires w.rules.FastHotStuff? && p.aggQC.Some? ==> exists q :: BackedBy(w, hist, p.aggQC.value, p.block.cert, q)
    ensures GoodAct(w, hist, i, VoteFor(p))
  {
    if !w.rules.FastHotStuff? {
      if w.rules.ChainedHotStuff? && Extends(c, n, p.block, n.locked) {
        WalkIsAncestry(c, n, p.block, n.locked);
      }
      assert RespectsLock(w, hist, i, p.block, n.locked);
    }
  }

  /** After an act, the bounds hold with the act's view, lock and certificate taken in. */
  lemma BoundedAppend(w: World, hist: seq<Act>, i: ID, v: View, lock: View, cert: View, a: What, v': View)
    requires Bounded(w, hist, i, v, lock, cert) && v <= v' && ViewOf(a) <= v'
    ensures a.VoteFor? ==>
      Bounded(w, hist + [Act(i, a)], i, v', Max(lock, LockHeight(a.p.block)), Max(cert, CertHeight(a.p.block)))
    ensures a.TimedOut? ==> Bounded(w, hist + [Act(i, a)], i, v', lock, cert)
  {
    var more := hist + [Act(i, a)];
    assert forall k :: 0 <= k < |hist| ==> more[k] == hist[k];
    assert forall k: nat :: k < |hist| && IsVote(more, k, i) ==>
      IsVote(hist, k, i) && VotedBlock(more, k) == VotedBlock(hist, k);
  }

  lemma {:induction false} CastVoteKeeps(w: World, c: Env, i: ID, hist: seq<Act>, n: Node, p: ProposeMsg, r: Node)
    requires Ready(w, c, i, hist, n) && NodeInv(w, hist, i, n)
    requires VoteRule(c, n, p) && Certified(w, hist, p.block.cert.hash)
    requires w.rules.FastHotStuff? && p.aggQC.Some? ==> exists q :: BackedBy(w, hist, p.aggQC.value, p.block.cert, q)
    requires r == CastVote(c, n.(blocks := n.blocks + {p.block}), p)
    ensures Ready(w, c, i, Grown(hist, i, n, r), r) && Kept(w, Grown(hist, i, n, r), r)
    ensures Bounded(w, Grown(hist, i, n, r), i, r.lastVote,
                    Max(r.locked.view, LockHeight(p.block)), Max(r.leafBlock.view, CertHeight(p.block)))
    ensures Certified(w, Grown(hist, i, n, r), p.block.cert.hash)
  {
    if r.acts == n.acts {
      GrownSame(hist, i, n, r);
    } else {
      var a := VoteFor(p);
      GrownOne(hist, i, n, r, a);
      VoteIsGood(w, c, i, hist, n, p);
      GoodAppend(w, hist, i, a);
      KeptGrows(w, hist, hist + [Act(i, a)], n);
      BoundedAppend(w, hist, i, n.lastVote, n.locked.view, n.leafBlock.view, a, r.lastVote);
      FetchableGrows(w, c, hist, n, i, a, r);
      CertifiedGrows(w, hist, hist + [Act(i, a)], p.block.cert.hash);
    }
  }

  /** The block named by the certificate of a certified block is certified and can be found. */
  lemma CertFound(w: World, c: Env, i: ID, hist: seq<Act>, n: Node, h: Hash)
    requires Ready(w, c, i, hist, n) && Certified(w, hist, h)
    ensures h.BlockHash? ==> Get(c, n, h) == Some(h.block)
    ensures h.BlockHash? && h.block != Genesis ==> Certified(w, hist, h.block.cert.hash)
  {
    if h.BlockHash? && h.block != Genesis {
      CertIsOlder(w, hist, h.block);
    }
  }

  /** Whenever the high certificate is to be replaced, the block of the old one is found: the code does not panic. */
  lemma UpdateHighQCKeeps(w: World, c: Env, i: ID, hist: seq<Act>, n: Node, qc: QuorumCert)
    requires Ready(w, c, i, hist, n) && Kept(w, hist, n)
    requires VerifyQC(w, qc) && Certified(w, hist, qc.hash)
    ensures Get(c, n, n.highQC.hash).Some?
    ensures Kept(w, hist, UpdateHighQC(c, n, qc))
    ensures UpdateHighQC(c, n, qc).leafBlock.view
         == Max(n.leafBlock.view, if qc.hash.BlockHash? then qc.hash.block.view else 0)
  {
    CertFound(w, c, i, hist, n, qc.hash);
    CertFound(w, c, i, hist, n, n.highQC.hash);
  }

  /** What a commit rule returns: it locks as high as the proposed block demands, and commits well. */
  ghost predicate GoodOutcome(w: World, hist: seq<Act>, n: Node, b: Block, r: Node, x: Option<Block>) {
    && Kept(w, hist, r)
    && r.leafBlock.view >= n.leafBlock.view
    && r.locked.view >= n.locked.view
    && (!w.rules.FastHotStuff? ==> r.locked.view >= LockHeight(b))
    && (x.Some? ==> GoodCommit(w, hist, Commit(b, x.value)))
  }

  lemma {:induction false} CommitSimpleKeeps(w: World, c: Env, i: ID, hist: seq<Act>, n: Node, b: Block)
    requires Ready(w, c, i, hist, n) && Kept(w, hist, n) && w.rules.SimpleHotStuff? && Certified(w, hist, b.cert.hash)
    ensures GoodOutcome(w, hist, n, b, CommitSimple(c, n, b).0, CommitSimple(c, n, b).1)
  {
    var (r, x) := CommitSimple(c, n, b);
    CertFound(w, c, i, hist, n, b.cert.hash);
    if b.cert.hash.BlockHash? && b.cert.hash.block.cert.hash.BlockHash? {
      var b1 := b.cert.hash.block;
      CertFound(w, c, i, hist, n, b1.cert.hash);
      if x.Some? {
        assert CommitChain(w.rules, Commit(b, x.value), b1, b1.cert.hash.block);
      }
    }
  }

  lemma CommitChainedKeeps(w: World, c: Env, i: ID, hist: seq<Act>, n: Node, b: Block)
    requires Ready(w, c, i, hist, n) && Kept(w, hist, n) && w.rules.ChainedHotStuff?
    requires VerifyQC(w, b.cert) && Certified(w, hist, b.cert.hash)
    ensures GoodOutcome(w, hist, n, b, CommitChained(c, n, b).0, CommitChained(c, n, b).1)
  {
    UpdateHighQCKeeps(w, c, i, hist, n, b.cert);
    LockChainedKeeps(w, c, i, hist, UpdateHighQC(c, n, b.cert), b, n);
  }

  /** The part of the rule after the high certificate has been updated from `n0` to `n`. */
  lemma {:induction false} LockChainedKeeps(w: World, c: Env, i: ID, hist: seq<Act>, n: Node, b: Block, n0: Node)
    requires Ready(w, c, i, hist, n) && Kept(w, hist, n) && w.rules.ChainedHotStuff? && Certified(w, hist, b.cert.hash)
    requires n == UpdateHighQC(c, n0, b.cert) && n.leafBlock.view >= n0.leafBlock.view
    ensures GoodOutcome(w, hist, n0, b, CommitChained(c, n0, b).0, CommitChained(c, n0, b).1)
  {
    CertFound(w, c, i, hist, n, b.cert.hash);
    ChainedShape(c, n0, b);
    if Justified(b).Some? && Justified(Justified(b).value).Some? {
      var b2 := Justified(Justified(b).value).value;
      CertFound(w, c, i, hist, n, BlockHash(b2));
      LockKeeps(w, hist, n, b2);
      ChainedLocks(c, n0, n, b, b2);
    }
  }

  /** Locking a certified block keeps what is known of the fields. */
  lemma {:induction false} LockKeeps(w: World, hist: seq<Act>, n: Node, b: Block)
    requires Kept(w, hist, n) && Certified(w, hist, BlockHash(b))
    ensures Kept(w, hist, Lock(n, b)) && Lock(n, b).locked.view >= b.view && Lock(n, b).locked.view >= n.locked.view
  {
  }

  lemma {:induction false} ChainedLocks(c: Env, n0: Node, n: Node, b: Block, b2: Block)
    requires n == UpdateHighQC(c, n0, b.cert) && Justified(b).Some? && Justified(Justified(b).value) == Some(b2)
    requires Get(c, n, b.cert.hash).Some? && Get(c, n, BlockHash(b2)).Some?
    ensures CommitChained(c, n0, b).0 == Lock(n, b2)
  {
  }

  lemma {:induction false} ChainedShape(c: Env, n: Node, b: Block)
    ensures var x := CommitChained(c, n, b).1; x.Some? ==> CommitShape(ChainedHotStuff, Commit(b, x.value))
  {
    var x := CommitChained(c, n, b).1;
    if x.Some? {
      assert CommitChain(ChainedHotStuff, Commit(b, x.value), b.cert.hash.block, b.cert.hash.block.cert.hash.block);
    }
  }

  lemma CommitFastKeeps(w: World, c: Env, i: ID, hist: seq<Act>, n: Node, b: Block)
    requires Ready(w, c, i, hist, n) && Kept(w, hist, n) && w.rules.FastHotStuff? && Certified(w, hist, b.cert.hash)
    ensures GoodOutcome(w, hist, n, b, CommitFast(c, n, b).0, CommitFast(c, n, b).1)
  {
    var x := CommitFast(c, n, b).1;
    if x.Some? {
      assert CommitChain(w.rules, Commit(b, x.value), b.cert.hash.block, x.value);
    }
  }

  lemma CommitRuleKeeps(w: World, c: Env, i: ID, hist: seq<Act>, n: Node, b: Block)
    requires Ready(w, c, i, hist, n) && Kept(w, hist, n)
    requires VerifyQC(w, b.cert) && Certified(w, hist, b.cert.hash)
    ensures GoodOutcome(w, hist, n, b, CommitRule(c, n, b).0, CommitRule(c, n, b).1)
  {
    match w.rules
    case SimpleHotStuff => CommitSimpleKeeps(w, c, i, hist, n, b);
    case ChainedHotStuff => CommitChainedKeeps(w, c, i, hist, n, b);
    case FastHotStuff => CommitFastKeeps(w, c, i, hist, n, b);
  }

  /** What commitInner executes completes the path from the executed block to the committed one exactly if the commit is
      linked. */
  lemma {:induction false} CompletesExactly(w: World, c: Env, i: ID, hist: seq<Act>, n: Node, b: Block)
    requires Ready(w, c, i, hist, n) && Certified(w, hist, BlockHash(b)) && QCExtends(b, n.bExec) && b != n.bExec
    ensures Path(n.bExec) + Uncommitted(c, n, b) == Path(b) <==> Linked(c, n, b)
    decreases b
  {
    AncestorsCertified(w, hist, b, n.bExec);
    CertIsOlder(w, hist, b);
    var p := b.cert.hash.block;
    var below := if Get(c, n, b.parent).Some? then Uncommitted(c, n, b.parent.block) else [];
    assert Uncommitted(c, n, b) == below + [b] && Path(b) == Path(p) + [b];
    WithoutLast(Path(n.bExec), below, Path(p), b);
    if p != n.bExec {
      AncestorsCertified(w, hist, p, n.bExec);
      if b.parent == b.cert.hash {
        CertFound(w, c, i, hist, n, b.cert.hash);
        CompletesExactly(w, c, i, hist, n, p);
      } else {
        PathEndsElsewhere(n.bExec, below, p);
      }
    }
  }

  lemma {:induction false} WithoutLast(log: seq<Block>, below: seq<Block>, path: seq<Block>, b: Block)
    ensures log + (below + [b]) == path + [b] <==> log + below == path
  {
    assert log + (below + [b]) == (log + below) + [b];
    assert ((log + below) + [b])[..|log + below|] == log + below && (path + [b])[..|path|] == path;
  }

  lemma {:induction false} PathEndsElsewhere(exec: Block, below: seq<Block>, p: Block)
    requires p != exec && p != Genesis && (below != [] ==> below[|below| - 1] != p)
    ensures Path(exec) + below != Path(p)
  {
    assert Path(p)[|Path(p)| - 1] == p;
    if below == [] {
      assert Path(exec) + below == Path(exec);
    } else {
      assert (Path(exec) + below)[|Path(exec) + below| - 1] == below[|below| - 1];
    }
  }

  /** If parents match certificates, all commits are linked. */
  lemma {:induction false} MatchingIsLinked(w: World, c: Env, i: ID, hist: seq<Act>, n: Node, b: Block)
    requires Ready(w, c, i, hist, n) && ParentsMatch(w, hist)
    requires Certified(w, hist, BlockHash(b)) && QCExtends(b, n.bExec) && b != n.bExec
    ensures Linked(c, n, b)
    decreases b
  {
    AncestorsCertified(w, hist, b, n.bExec);
    CertIsOlder(w, hist, b);
    if b.cert.hash.block != n.bExec {
      MatchingIsLinked(w, c, i, hist, n, b.cert.hash.block);
    }
  }

  /** A block committed above the executed one extends it. */
  lemma {:induction false} CommitExtends(w: World, hist: seq<Act>, n: Node, r: Commit)
    requires w.Valid() && GoodHistory(w, hist) && Kept(w, hist, n) && GoodCommit(w, hist, r)
    requires CommitsAssumed(w, hist, n.commits) && n.bExec.view < r.block.view
    ensures Certified(w, hist, BlockHash(r.block)) && QCExtends(r.block, n.bExec)
  {
    CommitIsCertified(w, hist, r);
    ExecIsCommitted(n.commits);
    if n.bExec != Genesis {
      var q :| q in n.commits && q.block == n.bExec;
      CommitStays(w, hist, q, r.block);
    } else {
      ReachesGenesis(w, hist, r.block);
    }
  }

  /** After a commit the log is the path to the executed block exactly if it was so before and the commit is linked: a
      log that has once left the path does not come back. */
  lemma {:induction false} CommitMatchesExactly(w: World, c: Env, i: ID, hist: seq<Act>, n: Node, r: Commit)
    requires Ready(w, c, i, hist, n) && Kept(w, hist, n) && GoodCommit(w, hist, r) && CommitsAssumed(w, hist, n.commits)
    ensures LogMatches(DoCommit(c, n, r.trigger, r.block)) <==>
      LogMatches(n) && (n.bExec.view < r.block.view ==> Linked(c, n, r.block))
  {
    var b := r.block;
    if n.bExec.view < b.view {
      CommitExtends(w, hist, n, r);
      CompletesExactly(w, c, i, hist, n, b);
      LongerMatches(w, hist, n.executed, n.bExec, Uncommitted(c, n, b), b);
    } else {
      assert n.executed + Uncommitted(c, n, b) == n.executed;
    }
  }

  lemma {:induction false} DoCommitKeeps(w: World, c: Env, i: ID, hist: seq<Act>, n: Node, r: Commit)
    requires Ready(w, c, i, hist, n) && Kept(w, hist, n) && GoodCommit(w, hist, r)
    ensures Kept(w, hist, DoCommit(c, n, r.trigger, r.block))
  {
    var n' := DoCommit(c, n, r.trigger, r.block);
    assert n'.commits[..|n'.commits| - 1] == n.commits;
    assert r in n'.commits && forall q :: q in n'.commits ==> q in n.commits || q == r;
    if CommitsAssumed(w, hist, n'.commits) {
      assert CommitsAssumed(w, hist, n.commits) by {
        forall q | q in n.commits ensures Tight(w.rules, q) { assert q in n'.commits; }
      }
      CommitMatchesExactly(w, c, i, hist, n, r);
      if ParentsMatch(w, hist) && n.bExec.view < r.block.view {
        CommitExtends(w, hist, n, r);
        MatchingIsLinked(w, c, i, hist, n, r.block);
      }
    }
  }

  lemma {:induction false} RunCommitRuleKeeps(w: World, c: Env, i: ID, hist: seq<Act>, n: Node, b: Block)
    requires Ready(w, c, i, hist, n) && Kept(w, hist, n)
    requires VerifyQC(w, b.cert) && Certified(w, hist, b.cert.hash)
    requires Bounded(w, hist, i, n.lastVote, Max(n.locked.view, LockHeight(b)), Max(n.leafBlock.view, CertHeight(b)))
    ensures var r := RunCommitRule(c, n, b);
      && Ready(w, c, i, hist, r)
      && Kept(w, hist, r)
      && Bounded(w, hist, i, r.lastVote, r.locked.view, Max(r.leafBlock.view, CertHeight(b)))
  {
    CommitRuleKeeps(w, c, i, hist, n, b);
    var (n', x) := CommitRule(c, n, b);
    if x.Some? {
      DoCommitKeeps(w, c, i, hist, n', Commit(b, x.value));
    }
  }

  /** Considering a proposal keeps the invariant, but for the certificate in the proposed block, which the replica
      takes in only when it advances the view. */
  lemma {:induction false} ConsiderKeeps(w: World, c: Env, i: ID, hist: seq<Act>, n: Node, p: ProposeMsg)
    requires Ready(w, c, i, hist, n) && NodeInv(w, hist, i, n)
    requires VerifyQC(w, p.block.cert) && Certified(w, hist, p.block.cert.hash)
    requires w.rules.FastHotStuff? && p.aggQC.Some? ==> exists q :: BackedBy(w, hist, p.aggQC.value, p.block.cert, q)
    ensures var r := Consider(c, n, p);
      var more := Grown(hist, i, n, r);
      && Ready(w, c, i, more, r)
      && Kept(w, more, r)
      && Bounded(w, more, i, r.lastVote, r.locked.view, Max(r.leafBlock.view, CertHeight(p.block)))
      && Certified(w, more, p.block.cert.hash)
  {
    var r := Consider(c, n, p);
    if p.id != c.leader(p.block.view) || !VoteRule(c, n, p) || !c.accept(p.block.cmd) {
      GrownSame(hist, i, n, r);
    } else {
      var n1 := CastVote(c, n.(blocks := n.blocks + {p.block}), p);
      CastVoteKeeps(w, c, i, hist, n, p, n1);
      RunCommitRuleKeeps(w, c, i, Grown(hist, i, n, n1), n1, p.block);
    }
  }

  // ---- the change of view ----

  /** The signatures in a message are legitimate, or its certificate is known to be certified. */
  ghost predicate GoodCerts(w: World, hist: seq<Act>, qc: QuorumCert, agg: Option<AggregateQC>) {
    && (VerifyQC(w, qc) ==> Certified(w, hist, qc.hash))
    && (agg.Some? ==> LegitThreshold(w, hist, agg.value.sig))
  }

  ghost predicate Safe(w: World, c: Env, i: ID, hist: seq<Act>, n: Node) {
    Ready(w, c, i, hist, n) && NodeInv(w, hist, i, n)
  }

  /** A proposal whose certificates verify has been considered, and its certificate taken in. */
  lemma {:induction false} TakenIn(w: World, c: Env, i: ID, hist: seq<Act>, n: Node, p: ProposeMsg)
    requires Safe(w, c, i, hist, n) && GoodCerts(w, hist, p.block.cert, p.aggQC)
    requires AggAccepted(c, p) && VerifyQC(w, p.block.cert)
    ensures var n1 := Consider(c, n, p);
      var n2, more := UpdateHighQC(c, n1, p.block.cert), Grown(hist, i, n, n1);
      Safe(w, c, i, more, n2) && GoodCerts(w, more, p.block.cert, None) && n2.acts == n1.acts
  {
    if w.rules.FastHotStuff? && p.aggQC.Some? {
      AcceptedIsBacked(w, c, hist, p);
    }
    ConsiderKeeps(w, c, i, hist, n, p);
    UpdateHighQCKeeps(w, c, i, Grown(hist, i, n, Consider(c, n, p)), Consider(c, n, p), p.block.cert);
  }

  lemma {:induction false} OnProposeKeeps(w: World, c: Env, i: ID, hist: seq<Act>, n: Node, p: ProposeMsg)
    requires Safe(w, c, i, hist, n) && GoodCerts(w, hist, p.block.cert, p.aggQC)
    ensures Safe(w, c, i, Grown(hist, i, n, OnPropose(c, n, p)), OnPropose(c, n, p))
    decreases 0, Pending(n.currentView, p.block.cert.view), 2
  {
    var r := OnPropose(c, n, p);
    if !AggAccepted(c, p) || !VerifyQC(w, p.block.cert) {
      GrownSame(hist, i, n, r);
    } else {
      TakenIn(w, c, i, hist, n, p);
      var n1 := Consider(c, n, p);
      var n2, more := UpdateHighQC(c, n1, p.block.cert), Grown(hist, i, n, n1);
      EnterViewKeeps(w, c, i, more, n2, p.block.cert.view, SyncInfo(Some(p.block.cert), None, None));
      GrownTwice(hist, i, n, n1, r);
    }
  }

  lemma {:induction false} ProposeKeeps(w: World, c: Env, i: ID, hist: seq<Act>, n: Node, si: SyncInfo)
    requires Safe(w, c, i, hist, n) && GoodCerts(w, hist, QCOf(si), si.aggQC)
    ensures Safe(w, c, i, Grown(hist, i, n, Propose(c, n, si)), Propose(c, n, si))
    decreases 0, Pending(n.currentView, QCOf(si).view), 3
  {
    var cmd := c.command(n.currentView);
    if (si.qc.Some? && Get(c, n, si.qc.value.hash).None?) || cmd.None? {
      GrownSame(hist, i, n, n);
    } else {
      var p := NewProposal(c, n, si, cmd.value);
      OnProposeKeeps(w, c, i, hist, n.(blocks := n.blocks + {p.block}, proposals := n.proposals + [p]), p);
    }
  }

  lemma {:induction false} EnterViewKeeps(w: World, c: Env, i: ID, hist: seq<Act>, n: Node, v: View, si: SyncInfo)
    requires Safe(w, c, i, hist, n) && GoodCerts(w, hist, QCOf(si), si.aggQC)
    requires si.tc.Some? || v == QCOf(si).view
    ensures Safe(w, c, i, Grown(hist, i, n, EnterView(c, n, v, si)), EnterView(c, n, v, si))
    decreases if si.tc.Some? then 1 else 0, if si.tc.Some? then 0 else Pending(n.currentView, QCOf(si).view), 0
  {
    var r := EnterView(c, n, v, si);
    if v < n.currentView || c.leader(v + 1) != c.self {
      GrownSame(hist, i, n, r);
    } else {
      ProposeKeeps(w, c, i, hist, n.(currentView := v + 1, lastTimeout := None, entered := n.entered + [v + 1]), si);
    }
  }

  lemma {:induction false} AdvanceViewKeeps(w: World, c: Env, i: ID, hist: seq<Act>, n: Node, si: SyncInfo)
    requires Safe(w, c, i, hist, n) && GoodCerts(w, hist, QCOf(si), si.aggQC)
    ensures Safe(w, c, i, Grown(hist, i, n, AdvanceView(c, n, si)), AdvanceView(c, n, si))
  {
    var r := AdvanceView(c, n, si);
    if si.tc.Some? {
      if !VerifyTC(w, si.tc.value) {
        GrownSame(hist, i, n, r);
      } else {
        var tc := si.tc.value;
        EnterViewKeeps(w, c, i, hist, if tc.view > n.highTC.view then n.(highTC := tc) else n, tc.view, si);
      }
    } else if si.qc.Some? {
      if !VerifyQC(w, si.qc.value) {
        GrownSame(hist, i, n, r);
      } else {
        UpdateHighQCKeeps(w, c, i, hist, n, si.qc.value);
        EnterViewKeeps(w, c, i, hist, UpdateHighQC(c, n, si.qc.value), si.qc.value.view, si);
      }
    } else {
      EnterViewKeeps(w, c, i, hist, n, 0, si);
    }
  }

  // ---- timeouts ----

  lemma {:induction false} CollectedFrom(w: World, sigs: seq<Signature>, hashes: map<ID, Hash>)
    ensures forall id :: id in Collect(w, sigs, hashes) ==> Collect(w, sigs, hashes)[id] in sigs
  {
    if sigs != [] {
      CollectedFrom(w, sigs[..|sigs| - 1], hashes);
    }
  }

  lemma {:induction false} MsgSigsFrom(ts: seq<TimeoutMsg>)
    ensures forall s :: s in MsgSigs(ts) ==> exists k :: 0 <= k < |ts| && ts[k].msgSig == Some(s)
  {
    if ts != [] {
      MsgSigsFrom(ts[..|ts| - 1]);
    }
  }

  lemma ListedSigsLegit(w: World, hist: seq<Act>, bucket: map<ID, TimeoutMsg>, order: seq<ID>, s: Signature)
    requires forall id :: id in order ==> id in bucket
    requires forall id :: id in bucket && bucket[id].msgSig.Some? ==> Legit(w, hist, bucket[id].msgSig.value)
    requires s in MsgSigs(Listed(bucket, order))
    ensures Legit(w, hist, s)
  {
    var ts := Listed(bucket, order);
    MsgSigsFrom(ts);
    var k :| 0 <= k < |ts| && ts[k].msgSig == Some(s);
    assert order[k] in bucket;
  }

  /** The aggregate made of stored timeouts contains legitimate signatures only. */
  lemma CertifiedTimeoutsAreGood(w: World, c: Env, hist: seq<Act>, n: Node, view: View)
    requires c.Valid() && c.w == w && Kept(w, hist, n) && view in n.timeouts
    requires Certify(c, n, view).Some?
    ensures GoodCerts(w, hist, QCOf(Certify(c, n, view).value), Certify(c, n, view).value.aggQC)
  {
    var agg := Certify(c, n, view).value.aggQC;
    if agg.Some? {
      var bucket, order := n.timeouts[view], c.order(n.timeouts[view].Keys);
      var ts := Listed(bucket, order);
      CollectedFrom(w, MsgSigs(ts), MsgHashes(ts));
      forall id | id in agg.value.sig.value ensures Legit(w, hist, agg.value.sig.value[id]) {
        ListedSigsLegit(w, hist, bucket, order, agg.value.sig.value[id]);
      }
    }
  }

  lemma {:induction false} TallyKeeps(w: World, c: Env, i: ID, hist: seq<Act>, n: Node, view: View)
    requires Safe(w, c, i, hist, n) && view in n.timeouts
    ensures Safe(w, c, i, Grown(hist, i, n, Tally(c, n, view)), Tally(c, n, view))
  {
    if |n.timeouts[view]| < w.Quorum() || Certify(c, n, view).None? {
      GrownSame(hist, i, n, n);
    } else {
      CertifiedTimeoutsAreGood(w, c, hist, n, view);
      AdvanceViewKeeps(w, c, i, hist, n.(timeouts := n.timeouts - {view}), Certify(c, n, view).value);
    }
  }

  lemma FileTimeoutKeeps(w: World, c: Env, i: ID, hist: seq<Act>, n: Node, t: TimeoutMsg)
    requires Safe(w, c, i, hist, n) && (t.msgSig.Some? ==> Legit(w, hist, t.msgSig.value))
    ensures Safe(w, c, i, hist, FileTimeout(n, t))
  {
    var r := FileTimeout(n, t);
    assert StoredLegit(w, hist, r);
  }

  lemma DropOldKeeps(w: World, c: Env, i: ID, hist: seq<Act>, n: Node)
    requires Safe(w, c, i, hist, n)
    ensures Safe(w, c, i, hist, DropOld(n))
  {
    assert StoredLegit(w, hist, DropOld(n));
  }

  lemma {:induction false} OnRemoteTimeoutKeeps(w: World, c: Env, i: ID, hist: seq<Act>, n: Node, t: TimeoutMsg)
    requires Safe(w, c, i, hist, n) && GoodCerts(w, hist, QCOf(t.syncInfo), t.syncInfo.aggQC)
    requires t.msgSig.Some? ==> Legit(w, hist, t.msgSig.value)
    ensures Safe(w, c, i, Grown(hist, i, n, OnRemoteTimeout(c, n, t)), OnRemoteTimeout(c, n, t))
  {
    var r := OnRemoteTimeout(c, n, t);
    if !Verify(w, t.viewSig, ViewHash(t.view)) {
      GrownSame(hist, i, n, r);
      DropOldKeeps(w, c, i, hist, n);
    } else {
      var n1 := AdvanceView(c, n, t.syncInfo);
      var more := Grown(hist, i, n, n1);
      AdvanceViewKeeps(w, c, i, hist, n, t.syncInfo);
      if t.msgSig.Some? {
        LegitGrows(w, hist, more, t.msgSig.value);
      }
      FileTimeoutKeeps(w, c, i, more, n1, t);
      var n2 := FileTimeout(n1, t);
      var n3 := Tally(c, n2, t.view);
      TallyKeeps(w, c, i, more, n2, t.view);
      GrownTwice(hist, i, n, n1, n3);
      DropOldKeeps(w, c, i, Grown(hist, i, n, n3), n3);
    }
  }

  /** What is known of the fields does not concern the last vote, the last timeout and what was signed. */
  lemma {:induction false} KeptSame(w: World, hist: seq<Act>, n: Node, r: Node)
    requires Kept(w, hist, n) && r == n.(lastVote := r.lastVote, lastTimeout := r.lastTimeout, acts := r.acts)
    ensures Kept(w, hist, r)
  {
  }

  lemma {:induction false} TimeoutIsGood(w: World, c: Env, i: ID, hist: seq<Act>, n: Node, t: TimeoutMsg)
    requires Safe(w, c, i, hist, n) && NewTimeout(c, n) == Some(t)
    ensures GoodAct(w, hist, i, TimedOut(t)) && GoodCerts(w, hist, QCOf(t.syncInfo), t.syncInfo.aggQC)
  {
  }

  /** Signing a timeout and ceasing to vote keeps the invariant. */
  lemma {:induction false} TimingOutKeeps(
      w: World, c: Env, i: ID, hist: seq<Act>, n: Node, t: TimeoutMsg, n1: Node)
    requires Safe(w, c, i, hist, n) && NewTimeout(c, n) == Some(t)
    requires n1 == StopVoting(n.(lastTimeout := Some(t), acts := n.acts + [TimedOut(t)]), n.currentView)
    ensures Safe(w, c, i, hist + [Act(i, TimedOut(t))], n1)
    ensures GoodCerts(w, hist + [Act(i, TimedOut(t))], QCOf(t.syncInfo), t.syncInfo.aggQC)
  {
    var a := TimedOut(t);
    var more := hist + [Act(i, a)];
    TimeoutIsGood(w, c, i, hist, n, t);
    GoodAppend(w, hist, i, a);
    KeptGrows(w, hist, more, n);
    KeptSame(w, more, n, n1);
    BoundedAppend(w, hist, i, n.lastVote, n.locked.view, n.leafBlock.view, a, n1.lastVote);
    FetchableGrows(w, c, hist, n, i, a, n1);
  }

  lemma {:induction false} TimeoutIsLegit(w: World, c: Env, i: ID, hist: seq<Act>, n: Node, t: TimeoutMsg)
    requires Ready(w, c, i, hist, n) && NewTimeout(c, n) == Some(t) && t.msgSig.Some?
    ensures Legit(w, hist + [Act(i, TimedOut(t))], t.msgSig.value)
  {
    var more := hist + [Act(i, TimedOut(t))];
    assert more[|hist|].id == i && Signs(more[|hist|].what, t.Hash());
  }

  lemma {:induction false} OnLocalTimeoutKeeps(w: World, c: Env, i: ID, hist: seq<Act>, n: Node)
    requires Safe(w, c, i, hist, n)
    ensures Safe(w, c, i, Grown(hist, i, n, OnLocalTimeout(c, n)), OnLocalTimeout(c, n))
  {
    var r := OnLocalTimeout(c, n);
    if (n.lastTimeout.Some? && n.lastTimeout.value.view == n.currentView) || NewTimeout(c, n).None? {
      GrownSame(hist, i, n, r);
    } else {
      var t := NewTimeout(c, n).value;
      var a := TimedOut(t);
      var n1 := StopVoting(n.(lastTimeout := Some(t), acts := n.acts + [a]), n.currentView);
      var more := hist + [Act(i, a)];
      GrownOne(hist, i, n, n1, a);
      TimingOutKeeps(w, c, i, hist, n, t, n1);
      if t.msgSig.Some? {
        TimeoutIsLegit(w, c, i, hist, n, t);
      }
      OnRemoteTimeoutKeeps(w, c, i, more, n1, t);
      GrownTwice(hist, i, n, n1, r);
    }
  }

  // ---- runs ----

  lemma HandleKeeps(w: World, c: Env, i: ID, hist: seq<Act>, n: Node, e: Event)
    requires Safe(w, c, i, hist, n) && LegitEvent(w, hist, e)
    ensures Safe(w, c, i, Grown(hist, i, n, Handle(c, n, e)), Handle(c, n, e))
  {
    match e
    case Start =>
      if n.currentView == 1 && c.leader(1) == c.self {
        ProposeKeeps(w, c, i, hist, n, HighSyncInfo(n));
      } else {
        GrownSame(hist, i, n, n);
      }
    case Proposal(p) =>
      if VerifyQC(w, p.block.cert) {
        VerifiedIsCertified(w, hist, p.block.cert);
      }
      OnProposeKeeps(w, c, i, hist, n, p);
    case NewView(si) =>
      LegitIsGood(w, hist, si);
      AdvanceViewKeeps(w, c, i, hist, n, si);
    case RemoteTimeout(t) =>
      LegitIsGood(w, hist, t.syncInfo);
      OnRemoteTimeoutKeeps(w, c, i, hist, n, t);
    case LocalTimeout =>
      OnLocalTimeoutKeeps(w, c, i, hist, n);
  }

  lemma LegitIsGood(w: World, hist: seq<Act>, si: SyncInfo)
    requires LegitSync(w, hist, si)
    ensures GoodCerts(w, hist, QCOf(si), si.aggQC)
  {
    if VerifyQC(w, QCOf(si)) {
      VerifiedIsCertified(w, hist, QCOf(si));
    }
  }

  /** What replica `i` did in a history. */
  function Mine(hist: seq<Act>, i: ID): seq<What> {
    if hist == [] then [] else
    Mine(hist[..|hist| - 1], i) + if hist[|hist| - 1].id == i then [hist[|hist| - 1].what] else []
  }

  lemma {:induction false} MineGrows(hist: seq<Act>, j: ID, acts: seq<What>, i: ID)
    ensures Mine(hist + Tagged(j, acts), i) == Mine(hist, i) + if i == j then acts else []
  {
    var more := hist + Tagged(j, acts);
    if acts == [] {
      assert more == hist;
    } else {
      var init := acts[..|acts| - 1];
      assert more[..|more| - 1] == hist + Tagged(j, init);
      MineGrows(hist, j, init, i);
      assert acts == init + [acts[|acts| - 1]];
    }
  }

  ghost predicate SystemInv(w: World, s: System) {
    && w.Valid()
    && GoodHistory(w, s.hist)
    && (forall i :: i in s.nodes <==> w.Honest(i))
    && (forall i :: i in s.nodes ==> NodeInv(w, s.hist, i, s.nodes[i]) && Mine(s.hist, i) == s.nodes[i].acts)
  }

  lemma InitialSystemInv(w: World)
    requires w.Valid()
    ensures SystemInv(w, InitialSystem(w))
  {
  }

  lemma OthersKeep(w: World, s: System, j: ID, acts: seq<What>, i: ID)
    requires SystemInv(w, s) && i in s.nodes && i != j
    ensures NodeInv(w, s.hist + Tagged(j, acts), i, s.nodes[i])
    ensures Mine(s.hist + Tagged(j, acts), i) == s.nodes[i].acts
  {
    NodeInvGrows(w, s.hist, s.hist + Tagged(j, acts), i, s.nodes[i]);
    MineGrows(s.hist, j, acts, i);
  }

  lemma {:induction false} StepKeeps(w: World, s: System, st: Step)
    requires SystemInv(w, s) && StepOk(w, s, st)
    ensures SystemInv(w, Apply(s, st))
  {
    var n := s.nodes[st.id];
    var r := Handle(st.env, n, st.event);
    var acts := r.acts[|n.acts|..];
    assert Safe(w, st.env, st.id, s.hist, n);
    HandleKeeps(w, st.env, st.id, s.hist, n, st.event);
    MineGrows(s.hist, st.id, acts, st.id);
    assert r.acts == n.acts + acts;
    forall i | i in s.nodes && i != st.id
      ensures NodeInv(w, s.hist + Tagged(st.id, acts), i, s.nodes[i])
      ensures Mine(s.hist + Tagged(st.id, acts), i) == s.nodes[i].acts
    {
      OthersKeep(w, s, st.id, acts, i);
    }
  }

  lemma {:induction false} RunKeeps(w: World, steps: seq<Step>)
    requires w.Valid() && After(w, steps).Some?
    ensures SystemInv(w, After(w, steps).value)
  {
    if steps == [] {
      InitialSystemInv(w);
    } else {
      RunKeeps(w, steps[..|steps| - 1]);
      StepKeeps(w, After(w, steps[..|steps| - 1]).value, steps[|steps| - 1]);
    }
  }

  lemma ReachableInv(w: World, s: System)
    requires Reachable(w, s)
    ensures SystemInv(w, s)
  {
    var steps :| After(w, steps) == Some(s);
    RunKeeps(w, steps);
  }
}
