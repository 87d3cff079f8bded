/** What a commit means, and why two commits agree. */
module Agreement {
  import opened Types
  import opened Quorums
  import opened Handlers
  import opened History
  import opened Safety

  /** The link of a commit between the triggering block and the committed one: the block named by the trigger's
      certificate, which is certified. */
  ghost predicate CommitShape(rules: Rules, r: Commit) {
    exists b1, b2 :: CommitChain(rules, r, b1, b2)
  }

  ghost predicate CommitChain(rules: Rules, r: Commit, b1: Block, b2: Block) {
    && Justified(r.trigger) == Some(b1)
    && match rules
       case SimpleHotStuff =>
         Justified(b1) == Some(b2) && Justified(b2) == Some(r.block) && b1.view == r.block.view + 2
       case ChainedHotStuff =>
         Justified(b1) == Some(b2) && Justified(b2) == Some(r.block)
         && b1.parent == BlockHash(b2) && b2.parent == BlockHash(r.block)
       case FastHotStuff =>
         b2 == r.block && Justified(b1) == Some(b2) && b1.view == b2.view + 1
         && r.trigger.view == b1.view + 1 && r.trigger.parent == BlockHash(b1) && b1.parent == BlockHash(b2)
  }

  ghost predicate GoodCommit(w: World, hist: seq<Act>, r: Commit) {
    Certified(w, hist, r.trigger.cert.hash) && CommitShape(w.rules, r)
  }

  /** Hypothesis on a commit of ChainedHotStuff, whose commit rule does not look at views: the certified block at the
      top of the three-chain is two views above the committed one. Under the other rules the commit rule checks it. */
  predicate Tight(rules: Rules, r: Commit) {
    rules.ChainedHotStuff? ==> Justified(r.trigger).Some? && Justified(r.trigger).value.view == r.block.view + 2
  }

  /** Hypotheses on a history: none for SimpleHotStuff, parents that match certificates for ChainedHotStuff, authentic
      view fields for FastHotStuff. */
  ghost predicate Assumed(w: World, hist: seq<Act>) {
    && (w.rules.ChainedHotStuff? ==> ParentsMatch(w, hist))
    && (w.rules.FastHotStuff? ==> AuthenticVotes(hist))
  }

  predicate OneChain(a: Block, b: Block) {
    QCExtends(a, b) || QCExtends(b, a)
  }

  lemma CommitIsCertified(w: World, hist: seq<Act>, r: Commit)
    requires w.Valid() && GoodHistory(w, hist) && GoodCommit(w, hist, r)
    ensures Certified(w, hist, BlockHash(r.block))
  {
    var b1, b2 :| CommitChain(w.rules, r, b1, b2);
    AncestorsCertified(w, hist, b1, r.block);
  }

  /** Everything certified at or above a committed block extends it. */
  lemma CommitStays(w: World, hist: seq<Act>, r: Commit, b: Block)
    requires w.Valid() && GoodHistory(w, hist) && Assumed(w, hist)
    requires GoodCommit(w, hist, r) && Tight(w.rules, r)
    requires Certified(w, hist, BlockHash(b)) && b.view >= r.block.view
    ensures QCExtends(b, r.block)
  {
    var b1, b2 :| CommitChain(w.rules, r, b1, b2);
    if w.rules.FastHotStuff? {
      TwoChainStays(w, hist, b1, b2, b);
    } else {
      assert hist[..|hist|] == hist;
      ThreeChainStays(w, hist, b1, b2, r.block, |hist|, b);
    }
  }

  /** The certificate of a certified block names a block. */
  lemma CertNamesBlock(w: World, hist: seq<Act>, b: Block)
    requires w.Valid() && GoodHistory(w, hist) && Assumed(w, hist)
    requires b != Genesis && Certified(w, hist, BlockHash(b))
    ensures Justified(b).Some?
  {
    var i, k := SomeVote(w, hist, b);
    var m := FirstVote(hist, b, k, i);
    assert GoodAct(w, hist[..m], hist[m].id, hist[m].what);
    if w.rules.ChainedHotStuff? {
      var l :| RespectsLock(w, hist[..m], hist[m].id, b, l);
      if l == b {
        GoodPrefix(w, hist, m);
        var i', k' := SomeVote(w, hist[..m], b);
        assert false;
      }
    }
  }

  /** Every certified block extends genesis along certificates. */
  lemma {:induction false} ReachesGenesis(w: World, hist: seq<Act>, b: Block)
    requires w.Valid() && GoodHistory(w, hist) && Assumed(w, hist) && Certified(w, hist, BlockHash(b))
    ensures QCExtends(b, Genesis)
    decreases b
  {
    if b != Genesis {
      CertNamesBlock(w, hist, b);
      CertIsOlder(w, hist, b);
      ReachesGenesis(w, hist, b.cert.hash.block);
    }
  }

  /** Two commits lie on one chain of certificates. */
  lemma CommitsAgree(w: World, hist: seq<Act>, r1: Commit, r2: Commit)
    requires w.Valid() && GoodHistory(w, hist) && Assumed(w, hist)
    requires GoodCommit(w, hist, r1) && GoodCommit(w, hist, r2) && Tight(w.rules, r1) && Tight(w.rules, r2)
    ensures OneChain(r1.block, r2.block)
  {
    CommitIsCertified(w, hist, r1);
    CommitIsCertified(w, hist, r2);
    if r1.block.view <= r2.block.view {
      CommitStays(w, hist, r1, r2.block);
    } else {
      CommitStays(w, hist, r2, r1.block);
    }
  }

  // ---- logs ----

  /** The executed block after a sequence of commits: the first of the highest ones. */
  function ExecAfter(commits: seq<Commit>): Block {
    if commits == [] then Genesis else
    var exec := ExecAfter(commits[..|commits| - 1]);
    var b := commits[|commits| - 1].block;
    if exec.view < b.view then b else exec
  }

  lemma {:induction false} ExecIsCommitted(commits: seq<Commit>)
    ensures ExecAfter(commits) == Genesis || exists r :: r in commits && r.block == ExecAfter(commits)
  {
    if commits != [] {
      ExecIsCommitted(commits[..|commits| - 1]);
      assert commits[|commits| - 1] in commits;
    }
  }

  /** The blocks from genesis, exclusive, to `b`, inclusive, along certificates. */
  function Path(b: Block): seq<Block>
    decreases b
  {
    if b == Genesis then [] else
    (if b.cert.hash.BlockHash? then Path(b.cert.hash.block) else []) + [b]
  }

  lemma {:induction false} PathPrefix(b: Block, a: Block)
    requires QCExtends(b, a)
    ensures Path(a) <= Path(b)
    decreases b
  {
    if a != b {
      PathPrefix(b.cert.hash.block, a);
    }
  }

  /** A path ends with its block, its blocks are certified and follow each other along certificates and with
      increasing views: no gap, repeat or reordering. */
  lemma {:induction false} PathIsChain(w: World, hist: seq<Act>, b: Block)
    requires w.Valid() && GoodHistory(w, hist) && Certified(w, hist, BlockHash(b)) && b != Genesis
    ensures Path(b) != [] && Path(b)[|Path(b)| - 1] == b
    ensures forall k :: 0 <= k < |Path(b)| ==> Certified(w, hist, BlockHash(Path(b)[k]))
    ensures forall k :: 0 < k < |Path(b)| ==>
              Justified(Path(b)[k]) == Some(Path(b)[k - 1]) && Path(b)[k - 1].view < Path(b)[k].view
    decreases b
  {
    CertIsOlder(w, hist, b);
    if b.cert.hash.BlockHash? && b.cert.hash.block != Genesis {
      PathIsChain(w, hist, b.cert.hash.block);
    }
  }

  lemma {:induction false} PathViews(w: World, hist: seq<Act>, b: Block, j: nat, k: nat)
    requires w.Valid() && GoodHistory(w, hist) && Certified(w, hist, BlockHash(b)) && j < k < |Path(b)|
    ensures Path(b)[j].view < Path(b)[k].view
  {
    PathIsChain(w, hist, b);
    if j < k - 1 {
      PathViews(w, hist, b, j, k - 1);
    }
  }

  /** A log that ends with a block, and is a beginning of a path through that block, is the path to that block. */
  lemma {:induction false} BeginningIsPath(w: World, hist: seq<Act>, log: seq<Block>, exec: Block, b: Block)
    requires w.Valid() && GoodHistory(w, hist) && Certified(w, hist, BlockHash(b)) && QCExtends(b, exec)
    requires exec != Genesis && log != [] && log[|log| - 1] == exec && log <= Path(b)
    ensures log == Path(exec)
  {
    AncestorsCertified(w, hist, b, exec);
    PathIsChain(w, hist, exec);
    PathPrefix(b, exec);
    var j, k := |log| - 1, |Path(exec)| - 1;
    assert Path(b)[j] == exec && Path(b)[k] == exec;
    if j < k {
      PathViews(w, hist, b, j, k);
    } else if k < j {
      PathViews(w, hist, b, k, j);
    }
  }

  /** The log ends with the executed block. */
  predicate LogEnds(executed: seq<Block>, exec: Block) {
    if exec == Genesis then executed == [] else executed != [] && executed[|executed| - 1] == exec
  }

  lemma {:induction false} BeginningExactly(w: World, hist: seq<Act>, log: seq<Block>, exec: Block, b: Block)
    requires w.Valid() && GoodHistory(w, hist) && Certified(w, hist, BlockHash(b)) && QCExtends(b, exec)
    requires LogEnds(log, exec)
    ensures log <= Path(b) <==> log == Path(exec)
  {
    PathPrefix(b, exec);
    if log <= Path(b) && exec != Genesis {
      BeginningIsPath(w, hist, log, exec, b);
    }
  }

  /** A longer log is the path to `b` exactly if the log was the path to its end and the rest completes it. */
  lemma {:induction false} LongerMatches(
      w: World, hist: seq<Act>, log: seq<Block>, exec: Block, rest: seq<Block>, b: Block)
    requires w.Valid() && GoodHistory(w, hist) && Certified(w, hist, BlockHash(b)) && QCExtends(b, exec)
    requires LogEnds(log, exec)
    ensures log + rest == Path(b) <==> log == Path(exec) && Path(exec) + rest == Path(b)
  {
    if log + rest == Path(b) {
      assert log <= Path(b);
      BeginningExactly(w, hist, log, exec, b);
    }
  }
}
