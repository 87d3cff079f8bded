/** What a correct replica signs and sends (consensus/consensus.go, synchronizer/synchronizer.go): when it votes,
    proposes and times out, and what it then says; for one event and over runs. */
module Conduct {
  import opened Types
  import opened Quorums
  import opened Crypto
  import opened Handlers
  import opened Protocol
  import opened Synchronizer
  import opened Rulings

  // ---- votes ----

  /** The certificates that come with a proposal are in order. */
  predicate Checked(c: Env, p: ProposeMsg)
    requires c.Valid()
  {
    VerifyQC(c.w, p.block.cert) && AggAccepted(c, p)
  }

  /** The proposal comes from the leader of its view, the rules permit it, and its command is accepted. */
  ghost predicate Welcome(c: Env, n: Node, p: ProposeMsg) {
    p.id == c.leader(p.block.view) && Permits(c, n, p) && c.accept(p.block.cmd)
  }

  /** The replica may vote for a proposal: it is welcome, in a view for which the replica has neither voted nor timed
      out and after all such views, and can be signed. */
  ghost predicate MayVote(c: Env, n: Node, p: ProposeMsg) {
    Welcome(c, n, p) && p.block.view > n.lastVote && c.sign(BlockHash(p.block)).Some?
  }

  ghost function Ballot(c: Env, n: Node, p: ProposeMsg): seq<What> {
    if MayVote(c, n, p) then [VoteFor(p)] else []
  }

  /** What is done with a proposal before the view is advanced. It is voted for exactly if it may be; it is stored, and
      a block committed on it, exactly if it is welcome and the block is at the bottom of a chain. */
  lemma {:induction false} ConsideredExactly(c: Env, n: Node, p: ProposeMsg)
    ensures var r := Consider(c, n, p);
      && r.acts == n.acts + Ballot(c, n, p)
      && r.lastVote == (if MayVote(c, n, p) then p.block.view else n.lastVote)
      && r.blocks == n.blocks + (if Welcome(c, n, p) then {p.block} else {})
      && (!Welcome(c, n, p) ==> r == n)
      && forall x :: r.commits == n.commits + [Commit(p.block, x)] <==>
           Welcome(c, n, p) && exists b1, b2 :: FoundChain(c, r, Commit(p.block, x), b1, b2)
  {
    VoteRuleExactly(c, n, p);
    if Welcome(c, n, p) {
      var n1 := CastVote(c, n.(blocks := n.blocks + {p.block}), p);
      var r := Consider(c, n, p);
      forall x ensures r.commits == n.commits + [Commit(p.block, x)] <==>
        exists b1, b2 :: FoundChain(c, r, Commit(p.block, x), b1, b2)
      {
        CommitsExactly(c, n1, p.block, x);
        CommittedIs(c, n1, p.block, x);
        assert forall b1, b2 :: FoundChain(c, r, Commit(p.block, x), b1, b2) <==>
          FoundChain(c, n1, Commit(p.block, x), b1, b2);
      }
    }
  }

  lemma {:induction false} CommittedIs(c: Env, n: Node, b: Block, x: Block)
    ensures RunCommitRule(c, n, b).commits == n.commits + [Commit(b, x)] <==> CommitRule(c, n, b).1 == Some(x)
  {
    var y := CommitRule(c, n, b).1;
    var r := RunCommitRule(c, n, b);
    if y.Some? {
      assert r.commits == n.commits + [Commit(b, y.value)];
      assert r.commits[|n.commits|] == Commit(b, y.value);
    } else {
      assert r.commits == n.commits;
      assert |n.commits + [Commit(b, x)]| == |n.commits| + 1;
    }
  }

  /** The replica's vote for a proposal, if there is one, is the first thing it signs; whatever else it signs are votes
      for its own proposals. The view of the certificate is left. A proposal whose certificates are not in order is
      ignored. */
  lemma {:induction false} OnProposeExactly(c: Env, n: Node, p: ProposeMsg)
    requires c.Valid()
    ensures var r := OnPropose(c, n, p);
      if !Checked(c, p) then r == n
      else
        && n.acts + Ballot(c, n, p) <= r.acts
        && r.currentView > p.block.cert.view
        && forall k :: |n.acts + Ballot(c, n, p)| <= k < |r.acts| ==>
             r.acts[k].VoteFor? && r.acts[k].p in r.proposals[|n.proposals|..]
  {
    if Checked(c, p) {
      ConsideredExactly(c, n, p);
      var n1 := Consider(c, n, p);
      var si := SyncInfo(Some(p.block.cert), None, None);
      var r := AdvanceView(c, n1, si);
      assert n1.proposals == n.proposals;
      AdvanceViewConducts(c, n1, si);
      EntersAbove(c, n1, si);
    }
  }

  // ---- everything that is sent ----

  /** A vote that the replica casts in the surroundings `c` in view `v` or later: for a proposal from the leader of its
      view, with certificates in order and a command that is accepted; and not for a view that has been left, but under
      ChainedHotStuff and after a view change. */
  ghost predicate Endorsed(c: Env, v: View, a: What)
    requires c.Valid()
  {
    && a.VoteFor? && Checked(c, a.p)
    && a.p.id == c.leader(a.p.block.view) && c.accept(a.p.block.cmd) && c.sign(BlockHash(a.p.block)).Some?
    && (c.w.rules.SimpleHotStuff? || (c.w.rules.FastHotStuff? && a.p.aggQC.None?) ==> a.p.block.view >= v)
  }

  /** A proposal that the replica makes in the surroundings `c`: in a view that it leads, with the command that is
      queued for that view. */
  predicate Offered(c: Env, p: ProposeMsg) {
    && p.id == p.block.proposer == c.self == c.leader(p.block.view)
    && c.command(p.block.view) == Some(p.block.cmd)
    && (p.aggQC.Some? ==> c.UsesAggQC())
  }

  /** What the replica does on its way from `n` to `r` in the surroundings `c`: it votes, for its own proposals or for
      `voted`; it proposes, in increasing views from `from` on; and it keeps high certificates that verify and whose
      block is found. */
  ghost predicate Conducts(c: Env, n: Node, r: Node, from: View, voted: Option<ProposeMsg>)
    requires c.Valid()
  {
    && n.acts <= r.acts && n.proposals <= r.proposals && n.currentView <= r.currentView
    && (r.currentView == n.currentView ==> r.lastTimeout == n.lastTimeout)
    && (forall k :: |n.acts| <= k < |r.acts| ==>
          Endorsed(c, n.currentView, r.acts[k])
          && (Some(r.acts[k].p) == voted || r.acts[k].p in r.proposals[|n.proposals|..]))
    && (forall k :: |n.proposals| <= k < |r.proposals| ==>
          Offered(c, r.proposals[k]) && from <= r.proposals[k].block.view <= r.currentView)
    && (forall j, k :: |n.proposals| <= j < k < |r.proposals| ==>
          r.proposals[j].block.view < r.proposals[k].block.view)
    && (VerifyQC(c.w, n.highQC) ==> VerifyQC(c.w, r.highQC))
    && (VerifyTC(c.w, n.highTC) ==> VerifyTC(c.w, r.highTC))
    && (Get(c, n, n.highQC.hash).Some? ==> Get(c, r, r.highQC.hash).Some?)
  }

  /** Nothing but the listed fields differs. */
  lemma {:induction false} ConductsNothing(c: Env, n: Node, r: Node, from: View)
    requires c.Valid() && r.acts == n.acts && r.proposals == n.proposals && n.currentView <= r.currentView
    requires r.currentView == n.currentView ==> r.lastTimeout == n.lastTimeout
    requires VerifyQC(c.w, n.highQC) ==> VerifyQC(c.w, r.highQC)
    requires VerifyTC(c.w, n.highTC) ==> VerifyTC(c.w, r.highTC)
    requires Get(c, n, n.highQC.hash).Some? ==> Get(c, r, r.highQC.hash).Some?
    ensures Conducts(c, n, r, from, None)
  {
  }

  lemma {:induction false} ConductsTwice(
      c: Env, n: Node, m: Node, r: Node, from: View, voted: Option<ProposeMsg>)
    requires c.Valid() && Conducts(c, n, m, from, voted) && Conducts(c, m, r, m.currentView + 1, None)
    requires from <= m.currentView + 1
    ensures Conducts(c, n, r, from, voted)
  {
    forall k | |n.acts| <= k < |r.acts|
      ensures Endorsed(c, n.currentView, r.acts[k])
        && (Some(r.acts[k].p) == voted || r.acts[k].p in r.proposals[|n.proposals|..])
    {
      if k < |m.acts| {
        assert r.acts[k] == m.acts[k];
        if Some(m.acts[k].p) != voted {
          MoreProposals(n.proposals, m.proposals, r.proposals, m.acts[k].p);
        }
      } else {
        assert Endorsed(c, m.currentView, r.acts[k]);
        assert r.proposals[|m.proposals|..] == r.proposals[|n.proposals|..][|m.proposals| - |n.proposals|..];
      }
    }
  }

  lemma {:induction false} MoreProposals(
      ns: seq<ProposeMsg>, ms: seq<ProposeMsg>, rs: seq<ProposeMsg>, p: ProposeMsg)
    requires ns <= ms <= rs && p in ms[|ns|..]
    ensures p in rs[|ns|..]
  {
    var k :| 0 <= k < |ms[|ns|..]| && ms[|ns|..][k] == p;
    assert rs[|ns|..][k] == p;
  }

  lemma {:induction false} ConsiderConducts(c: Env, n: Node, p: ProposeMsg)
    requires c.Valid() && Checked(c, p)
    ensures Conducts(c, n, Consider(c, n, p), n.currentView + 1, Some(p))
    ensures Consider(c, n, p).currentView == n.currentView && Consider(c, n, p).proposals == n.proposals
  {
    ConsideredExactly(c, n, p);
    ConsiderLeaves(c, n, p);
  }

  /** Only ChainedHotStuff's commit rule takes in the certificate. */
  lemma {:induction false} ConsiderTakes(c: Env, n: Node, p: ProposeMsg) returns (m: Node)
    ensures m.highQC == n.highQC && m.highTC == n.highTC && m.leafBlock == n.leafBlock && n.blocks <= m.blocks
    ensures m.currentView == n.currentView && m.blocks <= n.blocks + {p.block}
    ensures var r := Consider(c, n, p);
      || (r.highQC == n.highQC && r.leafBlock == n.leafBlock)
      || (r.highQC == UpdateHighQC(c, m, p.block.cert).highQC
          && r.leafBlock == UpdateHighQC(c, m, p.block.cert).leafBlock)
  {
    m := CastVote(c, n.(blocks := n.blocks + {p.block}), p);
    var r := CommitRule(c, m, p.block).0;
    assert c.w.rules.ChainedHotStuff? || (r.highQC == n.highQC && r.leafBlock == n.leafBlock);
  }

  lemma {:induction false} HighKept(c: Env, n: Node, m: Node, r: Node, qc: QuorumCert)
    requires m.highQC == n.highQC && m.leafBlock == n.leafBlock && n.blocks <= m.blocks <= r.blocks
    requires r.highQC == n.highQC || r.highQC == UpdateHighQC(c, m, qc).highQC
    ensures VerifyQC(c.w, n.highQC) ==> VerifyQC(c.w, r.highQC)
    ensures Get(c, n, n.highQC.hash).Some? ==> Get(c, r, r.highQC.hash).Some?
  {
  }

  lemma {:induction false} ConsiderLeaves(c: Env, n: Node, p: ProposeMsg)
    ensures var r := Consider(c, n, p);
      && r.proposals == n.proposals && r.lastTimeout == n.lastTimeout && r.highTC == n.highTC
      && (VerifyQC(c.w, n.highQC) ==> VerifyQC(c.w, r.highQC))
      && (Get(c, n, n.highQC.hash).Some? ==> Get(c, r, r.highQC.hash).Some?)
  {
    var m := ConsiderTakes(c, n, p);
    if VoteRule(c, n, p) && p.id == c.leader(p.block.view) && c.accept(p.block.cmd) {
      HighKept(c, n, m, Consider(c, n, p), p.block.cert);
    }
  }

  lemma {:induction false} OnProposeConducts(c: Env, n: Node, p: ProposeMsg)
    requires c.Valid()
    ensures Conducts(c, n, OnPropose(c, n, p), n.currentView + 1, Some(p))
    decreases 0, Pending(n.currentView, p.block.cert.view), 2
  {
    if Checked(c, p) {
      var n1 := Consider(c, n, p);
      ConsiderConducts(c, n, p);
      AdvanceViewConducts(c, n1, SyncInfo(Some(p.block.cert), None, None));
      ConductsTwice(c, n, n1, OnPropose(c, n, p), n.currentView + 1, Some(p));
    }
  }

  lemma {:induction false} ProposeConducts(c: Env, n: Node, si: SyncInfo)
    requires c.Valid() && c.leader(n.currentView) == c.self
    ensures Conducts(c, n, Propose(c, n, si), n.currentView, None)
    decreases 0, Pending(n.currentView, QCOf(si).view), 3
  {
    var cmd := c.command(n.currentView);
    if !((si.qc.Some? && Get(c, n, si.qc.value.hash).None?) || cmd.None?) {
      var p := NewProposal(c, n, si, cmd.value);
      var n1 := n.(blocks := n.blocks + {p.block}, proposals := n.proposals + [p]);
      OnProposeConducts(c, n1, p);
      ProposalConducts(c, n, n1, p, OnPropose(c, n1, p));
    }
  }

  lemma {:induction false} ProposalConducts(c: Env, n: Node, n1: Node, p: ProposeMsg, r: Node)
    requires c.Valid() && n1 == n.(blocks := n1.blocks, proposals := n.proposals + [p]) && n.blocks <= n1.blocks
    requires Offered(c, p) && p.block.view == n.currentView && Conducts(c, n1, r, n.currentView + 1, Some(p))
    ensures Conducts(c, n, r, n.currentView, None)
  {
    assert r.proposals[|n.proposals|] == p;
    forall k | |n.acts| <= k < |r.acts| ensures r.acts[k].p in r.proposals[|n.proposals|..] {
      if r.acts[k].p == p {
        assert r.proposals[|n.proposals|..][0] == p;
      } else {
        assert r.proposals[|n1.proposals|..] == r.proposals[|n.proposals|..][1..];
      }
    }
  }

  lemma {:induction false} EnterViewConducts(c: Env, n: Node, v: View, si: SyncInfo)
    requires c.Valid() && (si.tc.Some? || v == QCOf(si).view)
    ensures Conducts(c, n, EnterView(c, n, v, si), n.currentView + 1, None)
    decreases if si.tc.Some? then 1 else 0, if si.tc.Some? then 0 else Pending(n.currentView, QCOf(si).view), 0
  {
    var n1 := n.(currentView := v + 1, lastTimeout := None, entered := n.entered + [v + 1]);
    if v >= n.currentView && c.leader(v + 1) == c.self {
      ProposeConducts(c, n1, si);
      EnteredConducts(c, n, n1, Propose(c, n1, si));
    }
  }

  lemma {:induction false} EnteredConducts(c: Env, n: Node, n1: Node, r: Node)
    requires c.Valid() && n1 == n.(currentView := n1.currentView, lastTimeout := None, entered := n1.entered)
    requires n.currentView < n1.currentView && Conducts(c, n1, r, n1.currentView, None)
    ensures Conducts(c, n, r, n.currentView + 1, None)
  {
    forall k | |n.acts| <= k < |r.acts| ensures Endorsed(c, n.currentView, r.acts[k]) {
      assert Endorsed(c, n1.currentView, r.acts[k]);
    }
  }

  /** The certificate of a change of view verifies; nothing is checked if there is none. */
  predicate Admitted(c: Env, si: SyncInfo) {
    if si.tc.Some? then VerifyTC(c.w, si.tc.value) else si.qc.Some? ==> VerifyQC(c.w, si.qc.value)
  }

  /** The view that a change of view leaves behind. */
  function LeftView(si: SyncInfo): View {
    if si.tc.Some? then si.tc.value.view else QCOf(si).view
  }

  /** The leaf block once the certificate of a change of view has been taken in. */
  function LeafAfter(c: Env, n: Node, si: SyncInfo): Block {
    if si.tc.None? && si.qc.Some? then UpdateHighQC(c, n, si.qc.value).leafBlock else n.leafBlock
  }

  /** A change of view takes in its certificate, if that verifies, and enters the next view. */
  lemma {:induction false} TakesIn(c: Env, n: Node, si: SyncInfo) returns (n1: Node)
    requires c.Valid()
    ensures n1 == n.(highTC := n1.highTC, highQC := n1.highQC, leafBlock := LeafAfter(c, n, si))
    ensures AdvanceView(c, n, si) == if Admitted(c, si) then EnterView(c, n1, LeftView(si), si) else n
    ensures Admitted(c, si) ==> n1.highQC == n.highQC || (VerifyQC(c.w, n1.highQC) && Get(c, n1, n1.highQC.hash).Some?)
    ensures Admitted(c, si) ==> n1.highTC == n.highTC || VerifyTC(c.w, n1.highTC)
  {
    n1 := if si.tc.Some? then (if si.tc.value.view > n.highTC.view then n.(highTC := si.tc.value) else n)
          else if si.qc.Some? then UpdateHighQC(c, n, si.qc.value) else n;
  }

  lemma {:induction false} AdvanceViewConducts(c: Env, n: Node, si: SyncInfo)
    requires c.Valid()
    ensures Conducts(c, n, AdvanceView(c, n, si), n.currentView + 1, None)
    decreases if si.tc.Some? then 1 else 0, if si.tc.Some? then 0 else Pending(n.currentView, QCOf(si).view), 1
  {
    var n1 := TakesIn(c, n, si);
    if Admitted(c, si) {
      EnterViewConducts(c, n1, LeftView(si), si);
      TakenConducts(c, n, n1, EnterView(c, n1, LeftView(si), si));
    } else {
      ConductsNothing(c, n, n, n.currentView + 1);
    }
  }

  /** Taking in a certificate that verifies changes nothing else. */
  lemma {:induction false} TakenConducts(c: Env, n: Node, n1: Node, r: Node)
    requires c.Valid() && n1 == n.(highTC := n1.highTC, highQC := n1.highQC, leafBlock := n1.leafBlock)
    requires n1.highQC == n.highQC || (VerifyQC(c.w, n1.highQC) && Get(c, n1, n1.highQC.hash).Some?)
    requires n1.highTC == n.highTC || VerifyTC(c.w, n1.highTC)
    requires Conducts(c, n1, r, n.currentView + 1, None)
    ensures Conducts(c, n, r, n.currentView + 1, None)
  {
  }

  lemma {:induction false} RemoteTimeoutConducts(c: Env, n: Node, t: TimeoutMsg)
    requires c.Valid()
    ensures Conducts(c, n, OnRemoteTimeout(c, n, t), n.currentView + 1, None)
  {
    var r := OnRemoteTimeout(c, n, t);
    if !Verify(c.w, t.viewSig, ViewHash(t.view)) {
      ConductsNothing(c, n, r, n.currentView + 1);
    } else {
      var n1 := AdvanceView(c, n, t.syncInfo);
      AdvanceViewConducts(c, n, t.syncInfo);
      TallyConducts(c, FileTimeout(n1, t), t.view);
      FiledConducts(c, n1, FileTimeout(n1, t), Tally(c, FileTimeout(n1, t), t.view), r);
      ConductsTwice(c, n, n1, r, n.currentView + 1, None);
    }
  }

  /** Filing timeouts and dropping old ones makes no difference. */
  lemma {:induction false} FiledConducts(c: Env, n: Node, n1: Node, r1: Node, r: Node)
    requires c.Valid() && n1 == n.(timeouts := n1.timeouts) && r == r1.(timeouts := r.timeouts)
    requires Conducts(c, n1, r1, n.currentView + 1, None)
    ensures Conducts(c, n, r, n.currentView + 1, None)
  {
  }

  lemma {:induction false} TallyConducts(c: Env, n: Node, view: View)
    requires c.Valid() && view in n.timeouts
    ensures Conducts(c, n, Tally(c, n, view), n.currentView + 1, None)
  {
    if |n.timeouts[view]| >= c.w.Quorum() && Certify(c, n, view).Some? {
      var n1 := n.(timeouts := n.timeouts - {view});
      AdvanceViewConducts(c, n1, Certify(c, n, view).value);
      FiledConducts(c, n, n1, Tally(c, n, view), Tally(c, n, view));
    } else {
      ConductsNothing(c, n, n, n.currentView + 1);
    }
  }

  // ---- proposals ----

  /** There is something to propose in view `v`: the block of the certificate is found and a command is queued. */
  ghost predicate CanPropose(c: Env, n: Node, v: View, si: SyncInfo) {
    c.command(v).Some? && (si.qc.Some? ==> exists x :: Found(c, n, si.qc.value.hash, x))
  }

  /** A proposal for view `v` on the block `leaf`, with what came along. */
  predicate ProposalFor(c: Env, v: View, leaf: Block, si: SyncInfo, p: ProposeMsg) {
    && p.id == c.self && p.block.proposer == c.self
    && p.block.view == v && p.block.parent == BlockHash(leaf)
    && Some(p.block.cmd) == c.command(v)
    && p.block.cert == QCOf(si)
    && p.aggQC == if c.UsesAggQC() then si.aggQC else None
  }

  /** A replica proposes exactly if it can. Its first proposal is for its current view and on its leaf block, and holds
      the queued command and the certificates that came along; the replica holds the block. */
  lemma {:induction false} ProposesExactly(c: Env, n: Node, si: SyncInfo)
    requires c.Valid()
    ensures var r := Propose(c, n, si);
      if CanPropose(c, n, n.currentView, si)
      then |r.proposals| > |n.proposals| && ProposalFor(c, n.currentView, n.leafBlock, si, r.proposals[|n.proposals|])
           && r.proposals[|n.proposals|].block in r.blocks
      else r == n
  {
    if si.qc.Some? && si.qc.value.hash.BlockHash? {
      assert Found(c, n, si.qc.value.hash, si.qc.value.hash.block) <==> Get(c, n, si.qc.value.hash).Some?;
    }
    if CanPropose(c, n, n.currentView, si) {
      var p := NewProposal(c, n, si, c.command(n.currentView).value);
      var n1 := n.(blocks := n.blocks + {p.block}, proposals := n.proposals + [p]);
      assert Propose(c, n, si) == OnPropose(c, n1, p);
      assert n1.proposals[|n.proposals|] == p;
    }
  }

  lemma {:induction false} EntersExactly(c: Env, n: Node, v: View, si: SyncInfo)
    requires c.Valid() && (si.tc.Some? || v == QCOf(si).view)
    ensures var r := EnterView(c, n, v, si);
      if v >= n.currentView && c.leader(v + 1) == c.self && CanPropose(c, n, v + 1, si)
      then |r.proposals| > |n.proposals| && ProposalFor(c, v + 1, n.leafBlock, si, r.proposals[|n.proposals|])
      else r.proposals == n.proposals
  {
    if v >= n.currentView && c.leader(v + 1) == c.self {
      var n1 := n.(currentView := v + 1, lastTimeout := None, entered := n.entered + [v + 1]);
      CanProposeSame(c, n, n1, v + 1, si);
      ProposesExactly(c, n1, si);
      assert EnterView(c, n, v, si) == Propose(c, n1, si);
    }
  }

  lemma {:induction false} CanProposeSame(c: Env, n: Node, n1: Node, v: View, si: SyncInfo)
    requires n1.blocks == n.blocks
    ensures CanPropose(c, n1, v, si) <==> CanPropose(c, n, v, si)
  {
    assert forall h, x :: Found(c, n1, h, x) <==> Found(c, n, h, x);
  }

  /** A change of view makes a replica propose exactly if its certificate verifies and is not for a view that has been
      left, and the replica leads the next view and can propose there. */
  lemma {:induction false} LeadsExactly(c: Env, n: Node, si: SyncInfo)
    requires c.Valid()
    ensures var r, v := AdvanceView(c, n, si), LeftView(si);
      if Admitted(c, si) && v >= n.currentView && c.leader(v + 1) == c.self && CanPropose(c, n, v + 1, si)
      then |r.proposals| > |n.proposals| && ProposalFor(c, v + 1, LeafAfter(c, n, si), si, r.proposals[|n.proposals|])
      else r.proposals == n.proposals
  {
    var n1 := TakesIn(c, n, si);
    CanProposeSame(c, n, n1, LeftView(si) + 1, si);
    EntersExactly(c, n1, LeftView(si), si);
  }

  // ---- timeouts ----

  /** The timeout that an event makes the replica sign: the first one in its current view, if signing succeeds. */
  function Signing(c: Env, n: Node, e: Event): Option<TimeoutMsg> {
    if e.LocalTimeout? && (n.lastTimeout.None? || n.lastTimeout.value.view != n.currentView) then NewTimeout(c, n)
    else None
  }

  function Signed(n: Node, t: Option<TimeoutMsg>): Node {
    if t.None? then n
    else StopVoting(n.(lastTimeout := t, acts := n.acts + [TimedOut(t.value)]), n.currentView)
  }

  /** What signing yields are signatures of the replica that verify. */
  ghost predicate SignsWell(c: Env) {
    forall h :: c.sign(h).Some? ==> c.sign(h).value.signer == c.self && Verify(c.w, c.sign(h).value, h)
  }

  /** A timeout is signed exactly if its view can be signed and, under FastHotStuff, its digest too. It is for the
      current view, reports the high certificates, and carries a message signature exactly under FastHotStuff. If
      signing works, it is signed by the replica, and what it is signed with verifies. */
  lemma {:induction false} TimeoutExactly(c: Env, n: Node)
    ensures NewTimeout(c, n).Some? <==>
      && c.sign(ViewHash(n.currentView)).Some?
      && (c.w.rules.FastHotStuff? ==> c.sign(TimeoutHash(n.currentView, Some(n.highQC.hash), c.self)).Some?)
    ensures NewTimeout(c, n).Some? ==>
      var t := NewTimeout(c, n).value;
      && t.id == c.self && t.view == n.currentView && t.syncInfo.qc == Some(n.highQC) && t.syncInfo.aggQC.None?
      && t.syncInfo.tc == (if n.highTC.view > n.highQC.view then Some(n.highTC) else None)
      && (t.msgSig.Some? <==> c.w.rules.FastHotStuff?)
    ensures NewTimeout(c, n).Some? && SignsWell(c) ==>
      var t := NewTimeout(c, n).value;
      && t.viewSig.signer == c.self && Verify(c.w, t.viewSig, ViewHash(n.currentView))
      && (t.msgSig.Some? ==>
            && t.msgSig.value.signer == c.self
            && Verify(c.w, t.msgSig.value, TimeoutHash(n.currentView, Some(n.highQC.hash), c.self)))
  {
  }

  // ---- one event ----

  lemma {:induction false} StartConducts(c: Env, n: Node)
    requires c.Valid()
    ensures Conducts(c, n, Handle(c, n, Start), n.currentView, None)
  {
    if n.currentView == 1 && c.leader(1) == c.self {
      ProposeConducts(c, n, HighSyncInfo(n));
    } else {
      ConductsNothing(c, n, n, n.currentView);
    }
  }

  lemma {:induction false} LocalTimeoutConducts(c: Env, n: Node)
    requires c.Valid()
    ensures Conducts(c, Signed(n, Signing(c, n, LocalTimeout)), OnLocalTimeout(c, n), n.currentView + 1, None)
  {
    var t := Signing(c, n, LocalTimeout);
    if t.Some? {
      RemoteTimeoutConducts(c, Signed(n, t), t.value);
    } else {
      ConductsNothing(c, n, n, n.currentView + 1);
    }
  }

  /** An event makes the replica sign at most one timeout, and that first. */
  lemma {:induction false} HandleConducts(c: Env, n: Node, e: Event)
    requires c.Valid()
    ensures Conducts(c, Signed(n, Signing(c, n, e)), Handle(c, n, e),
                     if e.Start? then n.currentView else n.currentView + 1, if e.Proposal? then Some(e.p) else None)
  {
    match e
    case Start => StartConducts(c, n);
    case Proposal(p) => OnProposeConducts(c, n, p);
    case NewView(si) => AdvanceViewConducts(c, n, si);
    case RemoteTimeout(t) => RemoteTimeoutConducts(c, n, t);
    case LocalTimeout => LocalTimeoutConducts(c, n);
  }

  // ---- runs ----

  /** Step `m` of a run is one of replica `i`, which is then in state `n`. */
  ghost predicate Acts(w: World, steps: seq<Step>, m: nat, i: ID, n: Node) {
    && m < |steps| && steps[m].id == i && After(w, steps[..m]).Some?
    && EnvFor(w, steps[m].env, i)
    && i in After(w, steps[..m]).value.nodes && After(w, steps[..m]).value.nodes[i] == n
  }

  lemma {:induction false} LastStep(w: World, steps: seq<Step>)
    requires steps != [] && After(w, steps).Some?
    ensures var st, init := steps[|steps| - 1], steps[..|steps| - 1];
      && After(w, init).Some? && st.id in After(w, init).value.nodes
      && Acts(w, steps, |init|, st.id, After(w, init).value.nodes[st.id])
      && After(w, steps).value.nodes == After(w, init).value.nodes[
           st.id := Handle(st.env, After(w, init).value.nodes[st.id], st.event)]
  {
  }

  lemma {:induction false} ActsLater(w: World, steps: seq<Step>, m: nat, i: ID, n: Node)
    requires steps != [] && Acts(w, steps[..|steps| - 1], m, i, n)
    ensures Acts(w, steps, m, i, n)
  {
    assert steps[..|steps| - 1][..m] == steps[..m];
  }

  /** The step in which a replica signed something. */
  lemma {:induction false} SignedAtStep(w: World, steps: seq<Step>, i: ID, k: nat) returns (m: nat, n: Node)
    requires After(w, steps).Some? && i in After(w, steps).value.nodes && k < |After(w, steps).value.nodes[i].acts|
    ensures Acts(w, steps, m, i, n)
    ensures var r := Handle(steps[m].env, n, steps[m].event);
      |n.acts| <= k < |r.acts| && r.acts[k] == After(w, steps).value.nodes[i].acts[k]
  {
    LastStep(w, steps);
    var init, st := steps[..|steps| - 1], steps[|steps| - 1];
    var before := After(w, init).value.nodes;
    if i == st.id && k >= |before[i].acts| {
      m, n := |init|, before[i];
    } else {
      m, n := SignedAtStep(w, init, i, k);
      ActsLater(w, steps, m, i, n);
    }
  }

  /** Every vote of a correct replica is for a proposal from the leader it computed, whose certificates it verified and
      whose command it accepted. */
  lemma {:induction false} VotesAreEndorsed(w: World, steps: seq<Step>, i: ID, k: nat) returns (m: nat, n: Node)
    requires After(w, steps).Some? && i in After(w, steps).value.nodes && k < |After(w, steps).value.nodes[i].acts|
    requires After(w, steps).value.nodes[i].acts[k].VoteFor?
    ensures Acts(w, steps, m, i, n) && Endorsed(steps[m].env, n.currentView, After(w, steps).value.nodes[i].acts[k])
  {
    m, n := SignedAtStep(w, steps, i, k);
    HandleConducts(steps[m].env, n, steps[m].event);
    var t := Signing(steps[m].env, n, steps[m].event);
    assert k >= |Signed(n, t).acts|;
  }

  /** Every timeout of a correct replica is the one for its view at that time, with its high certificates. */
  lemma {:induction false} TimeoutsAreNew(w: World, steps: seq<Step>, i: ID, k: nat) returns (m: nat, n: Node)
    requires After(w, steps).Some? && i in After(w, steps).value.nodes && k < |After(w, steps).value.nodes[i].acts|
    requires After(w, steps).value.nodes[i].acts[k].TimedOut?
    ensures Acts(w, steps, m, i, n) && NewTimeout(steps[m].env, n) == Some(After(w, steps).value.nodes[i].acts[k].t)
  {
    m, n := SignedAtStep(w, steps, i, k);
    HandleConducts(steps[m].env, n, steps[m].event);
    var t := Signing(steps[m].env, n, steps[m].event);
    assert k < |Signed(n, t).acts|;
  }

  lemma {:induction false} OfferedNow(c: Env, n: Node, e: Event, k: nat)
    requires c.Valid() && |n.proposals| <= k < |Handle(c, n, e).proposals|
    ensures Offered(c, Handle(c, n, e).proposals[k])
  {
    HandleConducts(c, n, e);
  }

  /** Every block that a correct replica proposed holds a command that its queue gave for that view, which it leads. */
  lemma {:induction false} ProposalsAreOffered(w: World, steps: seq<Step>, i: ID, k: nat) returns (m: nat, n: Node)
    requires After(w, steps).Some? && i in After(w, steps).value.nodes
    requires k < |After(w, steps).value.nodes[i].proposals|
    ensures Acts(w, steps, m, i, n) && Offered(steps[m].env, After(w, steps).value.nodes[i].proposals[k])
  {
    LastStep(w, steps);
    var init, st := steps[..|steps| - 1], steps[|steps| - 1];
    var before := After(w, init).value.nodes;
    if i == st.id && k >= |before[i].proposals| {
      m, n := |init|, before[i];
      OfferedNow(st.env, n, st.event, k);
    } else {
      m, n := ProposalsAreOffered(w, init, i, k);
      ActsLater(w, steps, m, i, n);
    }
  }

  /** The high certificates of a replica verify. */
  lemma {:induction false} CertsVerify(w: World, steps: seq<Step>, i: ID)
    requires After(w, steps).Some? && i in After(w, steps).value.nodes
    ensures VerifyQC(w, After(w, steps).value.nodes[i].highQC) && VerifyTC(w, After(w, steps).value.nodes[i].highTC)
  {
    if steps != [] {
      LastStep(w, steps);
      var init, st := steps[..|steps| - 1], steps[|steps| - 1];
      CertsVerify(w, init, i);
      if i == st.id {
        HandleConducts(st.env, After(w, init).value.nodes[i], st.event);
      }
    }
  }

  /** Proposals are for increasing views, but for those made at the start. */
  ghost predicate ProposedOnce(n: Node) {
    && (forall k :: 0 <= k < |n.proposals| ==> n.proposals[k].block.view <= n.currentView)
    && (forall j, k :: 0 <= j < k < |n.proposals| && n.proposals[k].block.view > 1 ==>
          n.proposals[j].block.view < n.proposals[k].block.view)
  }

  /** Timeouts are for increasing views, and the last timeout is kept as long as its view lasts. */
  ghost predicate TimedOutOnce(n: Node) {
    && (forall k :: 0 <= k < |n.acts| && n.acts[k].TimedOut? ==>
          && n.acts[k].t.view <= n.currentView
          && (n.acts[k].t.view == n.currentView ==>
                n.lastTimeout.Some? && n.lastTimeout.value.view == n.currentView))
    && (forall j, k :: 0 <= j < k < |n.acts| && n.acts[j].TimedOut? && n.acts[k].TimedOut? ==>
          n.acts[j].t.view < n.acts[k].t.view)
  }

  lemma {:induction false} ConductsOnce(c: Env, n: Node, r: Node, from: View, voted: Option<ProposeMsg>)
    requires c.Valid() && Conducts(c, n, r, from, voted) && ProposedOnce(n) && TimedOutOnce(n)
    requires from == n.currentView + 1 || (from == n.currentView == 1)
    ensures ProposedOnce(r) && TimedOutOnce(r)
  {
    assert forall k :: 0 <= k < |n.proposals| ==> r.proposals[k] == n.proposals[k];
    assert forall k :: 0 <= k < |r.acts| && r.acts[k].TimedOut? ==> k < |n.acts| && r.acts[k] == n.acts[k];
  }

  lemma {:induction false} SignedOnce(c: Env, n: Node, e: Event)
    requires ProposedOnce(n) && TimedOutOnce(n)
    ensures ProposedOnce(Signed(n, Signing(c, n, e))) && TimedOutOnce(Signed(n, Signing(c, n, e)))
  {
    var t := Signing(c, n, e);
    var r := Signed(n, t);
    if t.Some? {
      assert t.value.view == n.currentView;
      assert forall k :: 0 <= k < |n.acts| ==> r.acts[k] == n.acts[k];
    }
  }

  lemma {:induction false} HandleOnce(c: Env, n: Node, e: Event)
    requires c.Valid() && ProposedOnce(n) && TimedOutOnce(n)
    ensures ProposedOnce(Handle(c, n, e)) && TimedOutOnce(Handle(c, n, e))
  {
    if e.Start? && n.currentView != 1 {
      assert Handle(c, n, e) == n;
    } else {
      SignedOnce(c, n, e);
      HandleConducts(c, n, e);
      ConductsOnce(c, Signed(n, Signing(c, n, e)), Handle(c, n, e),
                   if e.Start? then n.currentView else n.currentView + 1,
                   if e.Proposal? then Some(e.p) else None);
    }
  }

  /** A correct replica proposes at most once in every view but the first, where it proposes whenever it is started; and
      it signs at most one timeout in every view. */
  lemma {:induction false} OncePerView(w: World, steps: seq<Step>, i: ID)
    requires After(w, steps).Some? && i in After(w, steps).value.nodes
    ensures ProposedOnce(After(w, steps).value.nodes[i]) && TimedOutOnce(After(w, steps).value.nodes[i])
  {
    if steps != [] {
      LastStep(w, steps);
      var init, st := steps[..|steps| - 1], steps[|steps| - 1];
      OncePerView(w, init, i);
      if i == st.id {
        HandleOnce(st.env, After(w, init).value.nodes[i], st.event);
      }
    }
  }
}
