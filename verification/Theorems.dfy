/** What holds in every reachable state, for any behaviour of the faulty replicas. */
module Theorems {
  import opened Types
  import opened Quorums
  import opened Handlers
  import opened History
  import opened Safety
  import opened Agreement
  import opened Protocol
  import opened Invariant
  import opened BlockChains
  import opened Synchronizer

  /** A block returned by the commit rule of a non-faulty replica. */
  ghost predicate CommittedAt(s: System, i: ID, r: Commit) {
    i in s.nodes && r in s.nodes[i].commits
  }

  /** Under SimpleHotStuff any two committed blocks lie on one chain of certificates, without further hypotheses. */
  lemma SimpleAgreement(w: World, s: System, i: ID, j: ID, r1: Commit, r2: Commit)
    requires Reachable(w, s) && w.rules.SimpleHotStuff?
    requires CommittedAt(s, i, r1) && CommittedAt(s, j, r2)
    ensures OneChain(r1.block, r2.block)
  {
    ReachableInv(w, s);
    CommitsAgree(w, s.hist, r1, r2);
  }

  /** Under ChainedHotStuff, if parents match certificates, any two blocks committed by a three-chain that spans two
      views lie on one chain. */
  lemma ChainedAgreement(w: World, s: System, i: ID, j: ID, r1: Commit, r2: Commit)
    requires Reachable(w, s) && w.rules.ChainedHotStuff? && ParentsMatch(w, s.hist)
    requires CommittedAt(s, i, r1) && CommittedAt(s, j, r2) && Tight(w.rules, r1) && Tight(w.rules, r2)
    ensures OneChain(r1.block, r2.block)
  {
    ReachableInv(w, s);
    CommitsAgree(w, s.hist, r1, r2);
  }

  /** Under FastHotStuff, if what non-faulty replicas voted for carried authentic certificates, any two committed
      blocks lie on one chain, through any changes of view. */
  lemma FastAgreement(w: World, s: System, i: ID, j: ID, r1: Commit, r2: Commit)
    requires Reachable(w, s) && w.rules.FastHotStuff? && AuthenticVotes(s.hist)
    requires CommittedAt(s, i, r1) && CommittedAt(s, j, r2)
    ensures OneChain(r1.block, r2.block)
  {
    ReachableInv(w, s);
    CommitsAgree(w, s.hist, r1, r2);
  }

  /** At most one block per view can have a certificate, under every rule set. */
  lemma OneCertificatePerView(w: World, s: System, b1: Block, b2: Block)
    requires Reachable(w, s) && b1.view == b2.view
    requires Certified(w, s.hist, BlockHash(b1)) && Certified(w, s.hist, BlockHash(b2))
    ensures b1 == b2
  {
    ReachableInv(w, s);
    OneCertifiedPerView(w, s.hist, b1, b2);
  }

  /** A certified block is in a later view than the block its certificate names, and that one is certified too. */
  lemma CertificatesPointBack(w: World, s: System, b: Block)
    requires Reachable(w, s) && b != Genesis && Certified(w, s.hist, BlockHash(b)) && Justified(b).Some?
    ensures Justified(b).value.view < b.view && Certified(w, s.hist, BlockHash(Justified(b).value))
  {
    ReachableInv(w, s);
    CertIsOlder(w, s.hist, b);
  }

  // ---- replicated log ----

  /** The executed block of a replica is certified, and was committed unless it is genesis. */
  lemma ExecutedIsCertified(w: World, s: System, i: ID)
    requires Reachable(w, s) && i in s.nodes
    ensures SystemInv(w, s) && Certified(w, s.hist, BlockHash(s.nodes[i].bExec))
    ensures s.nodes[i].bExec == Genesis || exists r :: r in s.nodes[i].commits && r.block == s.nodes[i].bExec
  {
    ReachableInv(w, s);
    var n := s.nodes[i];
    ExecIsCommitted(n.commits);
    if n.bExec != Genesis {
      var r :| r in n.commits && r.block == n.bExec;
      CommitIsCertified(w, s.hist, r);
    }
  }

  /** A replica's log is the path of certificates to its executed block exactly if all its commits were linked; under
      SimpleHotStuff without further hypotheses. */
  lemma LogIsPathExactly(w: World, s: System, i: ID)
    requires Reachable(w, s) && i in s.nodes && CommitsAssumed(w, s.hist, s.nodes[i].commits)
    ensures s.nodes[i].executed == Path(s.nodes[i].bExec) <==> s.nodes[i].linked
  {
    ReachableInv(w, s);
  }

  /** If parents match certificates, all commits of a replica were linked. */
  lemma MatchingParentsLink(w: World, s: System, i: ID)
    requires Reachable(w, s) && i in s.nodes && LogAssumed(w, s.hist, s.nodes[i].commits)
    ensures s.nodes[i].linked
  {
    ReachableInv(w, s);
  }

  lemma ExecutedIsPath(w: World, s: System, i: ID)
    requires Reachable(w, s) && i in s.nodes && LogAssumed(w, s.hist, s.nodes[i].commits)
    ensures SystemInv(w, s) && LogMatches(s.nodes[i])
    ensures Certified(w, s.hist, BlockHash(s.nodes[i].bExec))
  {
    ExecutedIsCertified(w, s, i);
  }

  /** Of two executed blocks, the higher extends the lower. */
  lemma ExecutedAgree(w: World, s: System, i: ID, j: ID)
    requires Reachable(w, s) && i in s.nodes && j in s.nodes && s.nodes[i].bExec.view <= s.nodes[j].bExec.view
    requires CommitsAssumed(w, s.hist, s.nodes[i].commits)
    ensures QCExtends(s.nodes[j].bExec, s.nodes[i].bExec)
  {
    ExecutedIsCertified(w, s, i);
    ExecutedIsCertified(w, s, j);
    var a, b := s.nodes[i].bExec, s.nodes[j].bExec;
    if a == Genesis {
      ReachesGenesis(w, s.hist, b);
    } else {
      var r :| r in s.nodes[i].commits && r.block == a;
      CommitStays(w, s.hist, r, b);
    }
  }

  /** If all commits of a replica were linked, the log of another one that has executed no higher block is a prefix of
      its log exactly if all commits of that one were linked too. */
  lemma PrefixExactly(w: World, s: System, i: ID, j: ID)
    requires Reachable(w, s) && i in s.nodes && j in s.nodes && s.nodes[i].bExec.view <= s.nodes[j].bExec.view
    requires CommitsAssumed(w, s.hist, s.nodes[i].commits) && CommitsAssumed(w, s.hist, s.nodes[j].commits)
    requires s.nodes[j].linked
    ensures s.nodes[i].executed <= s.nodes[j].executed <==> s.nodes[i].linked
  {
    var m, n := s.nodes[i], s.nodes[j];
    ExecutedIsCertified(w, s, j);
    LogIsPathExactly(w, s, i);
    LogIsPathExactly(w, s, j);
    ExecutedAgree(w, s, i, j);
    BeginningExactly(w, s.hist, m.executed, m.bExec, n.bExec);
  }

  /** If all commits of two replicas were linked, their logs are prefixes of one another. */
  lemma LinkedLogs(w: World, s: System, i: ID, j: ID)
    requires Reachable(w, s) && i in s.nodes && j in s.nodes && s.nodes[i].linked && s.nodes[j].linked
    requires CommitsAssumed(w, s.hist, s.nodes[i].commits) && CommitsAssumed(w, s.hist, s.nodes[j].commits)
    ensures s.nodes[i].executed <= s.nodes[j].executed || s.nodes[j].executed <= s.nodes[i].executed
  {
    if s.nodes[i].bExec.view <= s.nodes[j].bExec.view {
      PrefixExactly(w, s, i, j);
    } else {
      PrefixExactly(w, s, j, i);
    }
  }

  /** If parents match certificates, the logs executed by two replicas are prefixes of one another. */
  lemma ReplicatedLog(w: World, s: System, i: ID, j: ID)
    requires Reachable(w, s) && i in s.nodes && j in s.nodes
    requires LogAssumed(w, s.hist, s.nodes[i].commits) && LogAssumed(w, s.hist, s.nodes[j].commits)
    ensures s.nodes[i].executed <= s.nodes[j].executed || s.nodes[j].executed <= s.nodes[i].executed
  {
    MatchingParentsLink(w, s, i);
    MatchingParentsLink(w, s, j);
    LinkedLogs(w, s, i, j);
  }

  /** A replica executes a gapless chain: the first block's parent is genesis, each block's parent is the one executed
      before it, views increase, and all of them are certified. */
  lemma ExecutedIsChain(w: World, s: System, i: ID, k: nat)
    requires Reachable(w, s) && i in s.nodes && LogAssumed(w, s.hist, s.nodes[i].commits)
    requires k < |s.nodes[i].executed|
    ensures Certified(w, s.hist, BlockHash(s.nodes[i].executed[k]))
    ensures s.nodes[i].executed[k].parent == BlockHash(if k == 0 then Genesis else s.nodes[i].executed[k - 1])
    ensures k > 0 ==> s.nodes[i].executed[k - 1].view < s.nodes[i].executed[k].view
  {
    ExecutedIsPath(w, s, i);
    var log := s.nodes[i].executed;
    PathIsChain(w, s.hist, s.nodes[i].bExec);
    if k == 0 {
      ReachesGenesis(w, s.hist, log[0]);
      PathStart(w, s.hist, s.nodes[i].bExec);
    } else {
      assert Justified(log[k]) == Some(log[k - 1]) && Justified(Genesis) == None;
    }
  }

  lemma {:induction false} PathStart(w: World, hist: seq<Act>, b: Block)
    requires w.Valid() && GoodHistory(w, hist) && Assumed(w, hist) && Certified(w, hist, BlockHash(b)) && b != Genesis
    ensures Path(b) != [] && Path(b)[0] != Genesis && Justified(Path(b)[0]) == Some(Genesis)
    decreases b
  {
    CertNamesBlock(w, hist, b);
    CertIsOlder(w, hist, b);
    if Justified(b).value != Genesis {
      PathStart(w, hist, Justified(b).value);
    }
  }

  // ---- ancestry ----

  /** If parents match certificates, the parent links of a certified block lead to smaller and smaller views. */
  lemma CertifiedDescends(w: World, s: System, b: Block)
    requires Reachable(w, s) && ParentsMatch(w, s.hist) && Certified(w, s.hist, BlockHash(b))
    ensures Descending(b)
  {
    ReachableInv(w, s);
    forall a | ParentExtends(b, a) && a.parent.BlockHash? ensures a.parent.block.view < a.view {
      ParentIsCert(w, s.hist, b, a);
      AncestorsCertified(w, s.hist, b, a);
      CertIsOlder(w, s.hist, a);
    }
  }

  /** On certified blocks a replica's ancestry walk answers whether one extends the other along certificates. */
  lemma WalkDecides(w: World, s: System, i: ID, c: Env, b: Block, target: Block)
    requires Reachable(w, s) && i in s.nodes && ParentsMatch(w, s.hist) && Fetchable(w, c, s.hist, s.nodes[i])
    requires Certified(w, s.hist, BlockHash(b))
    ensures Extends(c, s.nodes[i], b, target) <==> QCExtends(b, target)
  {
    ReachableInv(w, s);
    CertifiedDescends(w, s, b);
    forall a | ParentExtends(b, a) && a.view > target.view && a.parent.BlockHash?
      ensures Get(c, s.nodes[i], a.parent).Some?
    {
      ParentIsCert(w, s.hist, b, a);
      AncestorsCertified(w, s.hist, b, a);
      CertIsOlder(w, s.hist, a);
    }
    ExtendsExactly(c, s.nodes[i], b, target);
    if ParentExtends(b, target) {
      ParentIsCert(w, s.hist, b, target);
    }
    if QCExtends(b, target) {
      CertIsParent(w, s.hist, b, target);
    }
  }

  lemma {:induction false} CertIsParent(w: World, hist: seq<Act>, b: Block, a: Block)
    requires w.Valid() && GoodHistory(w, hist) && ParentsMatch(w, hist)
    requires Certified(w, hist, BlockHash(b)) && QCExtends(b, a)
    ensures ParentExtends(b, a)
    decreases b
  {
    if a != b {
      CertIsOlder(w, hist, b);
      CertIsParent(w, hist, b.cert.hash.block, a);
    }
  }

  // ---- what a replica signs ----

  lemma {:induction false} MineAt(hist: seq<Act>, i: ID, a: nat, b: nat) returns (j: nat, k: nat)
    requires a < b < |Mine(hist, i)|
    ensures j < k < |hist| && hist[j] == Act(i, Mine(hist, i)[a]) && hist[k] == Act(i, Mine(hist, i)[b])
  {
    var init := hist[..|hist| - 1];
    if b < |Mine(init, i)| {
      j, k := MineAt(init, i, a, b);
    } else {
      j := MineFirst(init, i, a);
      k := |init|;
    }
  }

  lemma {:induction false} MineFirst(hist: seq<Act>, i: ID, a: nat) returns (j: nat)
    requires a < |Mine(hist, i)|
    ensures j < |hist| && hist[j] == Act(i, Mine(hist, i)[a])
  {
    var init := hist[..|hist| - 1];
    if a < |Mine(init, i)| {
      j := MineFirst(init, i, a);
    } else {
      j := |init|;
    }
  }

  /** A replica's votes have increasing views; after a timeout for a view it votes in later views only; and its
      timeouts report a certificate at least as high as those in the blocks it voted for before. */
  lemma SigningDiscipline(w: World, s: System, i: ID, a: nat, b: nat)
    requires Reachable(w, s) && i in s.nodes && a < b < |s.nodes[i].acts|
    ensures s.nodes[i].acts[b].VoteFor? ==> ViewOf(s.nodes[i].acts[a]) < s.nodes[i].acts[b].p.block.view
    ensures s.nodes[i].acts[a].VoteFor? && s.nodes[i].acts[b].TimedOut? ==>
      var qc := s.nodes[i].acts[b].t.syncInfo.qc;
      && qc.Some? && qc.value.hash.BlockHash?
      && Certified(w, s.hist, qc.value.hash)
      && qc.value.hash.block.view >= CertHeight(s.nodes[i].acts[a].p.block)
  {
    ReachableInv(w, s);
    var j, k := MineAt(s.hist, i, a, b);
    assert GoodAct(w, s.hist[..k], i, s.hist[k].what);
    if s.hist[k].what.VoteFor? {
      EarlierIsBelow(w, s.hist, i, j, k);
    } else if s.hist[j].what.VoteFor? {
      CertifiedGrows(w, s.hist[..k], s.hist, s.hist[k].what.t.syncInfo.qc.value.hash);
      assert IsVote(s.hist[..k], j, i) && VotedBlock(s.hist[..k], j) == VotedBlock(s.hist, j);
    }
  }

  // ---- the synchronizer ----

  lemma StepSynchronizes(w: World, s: System, st: Step, i: ID)
    requires i in s.nodes && SyncInv(s.nodes[i]) && StepOk(w, s, st)
    ensures Keeps(s.nodes[i], Apply(s, st).nodes[i])
  {
    if i == st.id {
      HandleSync(st.env, s.nodes[i], st.event);
    }
  }

  lemma {:induction false} NodesStay(w: World, steps: seq<Step>)
    requires After(w, steps).Some?
    ensures After(w, steps).value.nodes.Keys == InitialSystem(w).nodes.Keys
  {
    if steps != [] {
      NodesStay(w, steps[..|steps| - 1]);
    }
  }

  /** In every reachable state, a replica's view is above those of both its high certificates, and its leaf block is the
      one its high certificate names. */
  lemma {:induction false} Synchronized(w: World, steps: seq<Step>, i: ID)
    requires After(w, steps).Some? && i in After(w, steps).value.nodes
    ensures SyncInv(After(w, steps).value.nodes[i])
  {
    if steps != [] {
      var init := steps[..|steps| - 1];
      NodesStay(w, init);
      NodesStay(w, steps);
      Synchronized(w, init, i);
      StepSynchronizes(w, After(w, init).value, steps[|steps| - 1], i);
    }
  }

  /** From any point of a run to any later one, neither a replica's view nor the height of its leaf block decreases. */
  lemma {:induction false} ViewsAdvance(w: World, steps: seq<Step>, m: nat, i: ID)
    requires After(w, steps).Some? && i in After(w, steps).value.nodes && m <= |steps|
    ensures After(w, steps[..m]).Some? && i in After(w, steps[..m]).value.nodes
    ensures Keeps(After(w, steps[..m]).value.nodes[i], After(w, steps).value.nodes[i])
  {
    Synchronized(w, steps, i);
    if m == |steps| {
      assert steps[..m] == steps;
    } else {
      var init := steps[..|steps| - 1];
      assert init[..m] == steps[..m];
      NodesStay(w, init);
      NodesStay(w, steps);
      ViewsAdvance(w, init, m, i);
      StepSynchronizes(w, After(w, init).value, steps[|steps| - 1], i);
    }
  }

  /** The block of a replica's high certificate is found whenever the replica handles an event, so that replacing the
      certificate does not panic. */
  lemma HighBlockFound(w: World, s: System, st: Step)
    requires Reachable(w, s) && StepOk(w, s, st)
    ensures Get(st.env, s.nodes[st.id], s.nodes[st.id].highQC.hash) == Some(s.nodes[st.id].leafBlock)
  {
    ReachableInv(w, s);
  }
}
