/** What the vote and commit rules (consensus/simplehotstuff, consensus/chainedhotstuff, consensus/fasthotstuff) decide,
    in terms of blocks that are found and of the links between them. */
module Rulings {
  import opened Types
  import opened Quorums
  import opened Handlers
  import opened History
  import opened Agreement
  import opened Protocol
  import opened Invariant

  /** The digest is that of a block which is held or can be fetched. */
  predicate Found(c: Env, n: Node, h: Hash, b: Block) {
    h == BlockHash(b) && (b in n.blocks || c.fetch(h))
  }

  // ---- ancestry ----

  /** A path from `b` to `a` along parents that are found, whose blocks before `a` are above it. */
  ghost predicate Leads(c: Env, n: Node, path: seq<Block>, b: Block, a: Block) {
    && path != [] && path[0] == b && path[|path| - 1] == a
    && forall k :: 0 <= k < |path| - 1 ==> path[k].view > a.view && Found(c, n, path[k].parent, path[k + 1])
  }

  ghost predicate Reaches(c: Env, n: Node, b: Block, a: Block) {
    exists path :: Leads(c, n, path, b, a)
  }

  lemma {:induction false} WalkLeads(c: Env, n: Node, b: Block, a: Block) returns (path: seq<Block>)
    requires Extends(c, n, b, a)
    ensures Leads(c, n, path, b, a)
    decreases b
  {
    if b.view > a.view {
      var rest := WalkLeads(c, n, b.parent.block, a);
      path := [b] + rest;
      forall k | 0 <= k < |path| - 1 ensures path[k].view > a.view && Found(c, n, path[k].parent, path[k + 1]) {
        if k > 0 {
          assert path[k] == rest[k - 1] && path[k + 1] == rest[k];
        }
      }
    } else {
      path := [b];
    }
  }

  lemma {:induction false} PathWalks(c: Env, n: Node, path: seq<Block>, b: Block, a: Block)
    requires Leads(c, n, path, b, a)
    ensures Extends(c, n, b, a)
    decreases |path|
  {
    if |path| > 1 {
      assert path[0].view > a.view && Found(c, n, path[0].parent, path[1]);
      assert forall k :: 0 <= k < |path[1..]| ==> path[1..][k] == path[k + 1];
      PathWalks(c, n, path[1..], path[1], a);
    }
  }

  /** The walk answers whether there is such a path. */
  lemma {:induction false} ReachesExactly(c: Env, n: Node, b: Block, a: Block)
    ensures Extends(c, n, b, a) <==> Reaches(c, n, b, a)
  {
    if Extends(c, n, b, a) {
      var path := WalkLeads(c, n, b, a);
    }
    if path :| Leads(c, n, path, b, a) {
      PathWalks(c, n, path, b, a);
    }
  }

  // ---- voting ----

  /** What a rule set asks of a proposal: a certificate for a block that is found and is as high as the lock, or higher,
      or the locked block below the proposed one; under FastHotStuff the next view, or, after a view change, the
      certified block below the proposed one. */
  ghost predicate Permits(c: Env, n: Node, p: ProposeMsg) {
    var b := p.block;
    match c.w.rules
    case SimpleHotStuff =>
      b.view >= n.currentView && exists x :: Found(c, n, b.cert.hash, x) && x.view >= n.locked.view
    case ChainedHotStuff =>
      (exists x :: Found(c, n, b.cert.hash, x) && x.view > n.locked.view) || Reaches(c, n, b, n.locked)
    case FastHotStuff =>
      if p.aggQC.None? then b.view >= n.currentView && b.view == b.cert.view + 1
      else exists x :: Found(c, n, b.cert.hash, x) && Reaches(c, n, b, x)
  }

  lemma {:induction false} VoteRuleExactly(c: Env, n: Node, p: ProposeMsg)
    ensures VoteRule(c, n, p) <==> Permits(c, n, p)
  {
    var h := p.block.cert.hash;
    ReachesExactly(c, n, p.block, n.locked);
    if Get(c, n, h).Some? {
      assert Found(c, n, h, h.block);
      ReachesExactly(c, n, p.block, h.block);
    }
  }

  // ---- committing ----

  /** The chain on which `r` is committed, all of whose blocks are found. */
  ghost predicate FoundChain(c: Env, n: Node, r: Commit, b1: Block, b2: Block) {
    && CommitChain(c.w.rules, r, b1, b2)
    && Found(c, n, BlockHash(b1), b1) && Found(c, n, BlockHash(b2), b2) && Found(c, n, BlockHash(r.block), r.block)
  }

  /** A commit rule returns a block exactly if there is a chain on which the block is committed and which is found. */
  lemma {:induction false} CommitsExactly(c: Env, n: Node, b: Block, x: Block)
    ensures CommitRule(c, n, b).1 == Some(x) <==> exists b1, b2 :: FoundChain(c, n, Commit(b, x), b1, b2)
  {
    if CommitRule(c, n, b).1 == Some(x) {
      var b1 := b.cert.hash.block;
      assert FoundChain(c, n, Commit(b, x), b1, b1.cert.hash.block);
    }
  }

  /** In every reachable state a commit rule, run on a block whose certificate is genuine, returns exactly the blocks at
      the bottom of a chain: what is certified is found. */
  lemma {:induction false} CommitsInRuns(w: World, s: System, i: ID, c: Env, b: Block, x: Block)
    requires Reachable(w, s) && i in s.nodes && EnvFor(w, c, i) && Fetchable(w, c, s.hist, s.nodes[i])
    requires Certified(w, s.hist, b.cert.hash)
    ensures CommitRule(c, s.nodes[i], b).1 == Some(x) <==> CommitShape(w.rules, Commit(b, x))
  {
    ReachableInv(w, s);
    CommitsExactly(c, s.nodes[i], b, x);
    if b1, b2 :| CommitChain(w.rules, Commit(b, x), b1, b2) {
      ChainIsFound(w, s, i, c, Commit(b, x), b1, b2);
    }
  }

  lemma {:induction false} ChainIsFound(w: World, s: System, i: ID, c: Env, r: Commit, b1: Block, b2: Block)
    requires SystemInv(w, s) && i in s.nodes && c.w == w && Fetchable(w, c, s.hist, s.nodes[i])
    requires Certified(w, s.hist, r.trigger.cert.hash) && CommitChain(w.rules, r, b1, b2)
    ensures FoundChain(c, s.nodes[i], r, b1, b2)
  {
    forall a | QCExtends(b1, a) ensures Found(c, s.nodes[i], BlockHash(a), a) {
      AncestorsCertified(w, s.hist, b1, a);
      assert Get(c, s.nodes[i], BlockHash(a)).Some?;
    }
    assert QCExtends(b1, b1) && QCExtends(b1, b2);
    assert QCExtends(b1, r.block);
  }

  /** The block two certificates below `b`, if both blocks are found. */
  ghost predicate TwoBelow(c: Env, n: Node, b: Block, b1: Block, b2: Block) {
    && Justified(b) == Some(b1) && Justified(b1) == Some(b2)
    && Found(c, n, BlockHash(b1), b1) && Found(c, n, BlockHash(b2), b2)
  }

  /** A replica locks on the block two certificates below the proposed one, if it is higher than the lock, and on no
      other; under FastHotStuff it never locks. */
  lemma {:induction false} LocksExactly(c: Env, n: Node, b: Block, l: Block)
    ensures CommitRule(c, n, b).0.locked == l <==>
      if !c.w.rules.FastHotStuff? && exists b1, b2 :: TwoBelow(c, n, b, b1, b2) && b2.view > n.locked.view
      then exists b1 :: TwoBelow(c, n, b, b1, l)
      else l == n.locked
  {
    if Justified(b).Some? && Justified(Justified(b).value).Some? {
      var b1 := Justified(b).value;
      var b2 := Justified(b1).value;
      assert TwoBelow(c, n, b, b1, b2) <==> Get(c, n, BlockHash(b1)).Some? && Get(c, n, BlockHash(b2)).Some?;
    }
  }
}
