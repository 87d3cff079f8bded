/** The view synchronizer (synchronizer/synchronizer.go): what holds of its fields between events, how far one call
    can move the view, and what becomes of timeouts. Nothing here depends on which replicas are faulty. */
module Synchronizer {
  import opened Types
  import opened Crypto
  import opened Handlers

  // ---- certificates and the current view ----

  /** The replica has left the views of both its high certificates, and its leaf block is the one its high quorum
      certificate names. */
  predicate SyncInv(n: Node) {
    && n.highQC.hash == BlockHash(n.leafBlock)
    && n.highQC.view < n.currentView
    && n.highTC.view < n.currentView
  }

  /** The same, but for a certificate that is about to be used to advance the view. */
  predicate SyncInvExcept(n: Node, qc: QuorumCert) {
    && n.highQC.hash == BlockHash(n.leafBlock)
    && (n.highQC.view < n.currentView || n.highQC == qc)
    && n.highTC.view < n.currentView
  }

  /** `r` keeps the invariant and does not fall behind `n`. */
  predicate Keeps(n: Node, r: Node) {
    SyncInv(r) && n.leafBlock.view <= r.leafBlock.view && n.currentView <= r.currentView
  }

  lemma UpdateHighQCSync(c: Env, n: Node, qc: QuorumCert, other: QuorumCert)
    requires SyncInvExcept(n, other) && (other == qc || n.highQC.view < n.currentView)
    ensures SyncInvExcept(UpdateHighQC(c, n, qc), qc)
    ensures n.leafBlock.view <= UpdateHighQC(c, n, qc).leafBlock.view
  {
  }

  /** The certificate that ChainedHotStuff's commit rule takes in is the one the proposal then advances the view with.
      */
  lemma CommitRuleSync(c: Env, n: Node, b: Block)
    requires SyncInv(n)
    ensures SyncInvExcept(CommitRule(c, n, b).0, b.cert)
    ensures n.leafBlock.view <= CommitRule(c, n, b).0.leafBlock.view
  {
    UpdateHighQCSync(c, n, b.cert, b.cert);
    var r := CommitRule(c, n, b).0;
    match c.w.rules
    case SimpleHotStuff => assert r == n.(locked := r.locked);
    case ChainedHotStuff => assert r == UpdateHighQC(c, n, b.cert).(locked := r.locked);
    case FastHotStuff =>
  }

  lemma ConsiderSync(c: Env, n: Node, p: ProposeMsg)
    requires SyncInv(n)
    ensures SyncInvExcept(Consider(c, n, p), p.block.cert)
    ensures n.leafBlock.view <= Consider(c, n, p).leafBlock.view
  {
    CommitRuleSync(c, CastVote(c, n.(blocks := n.blocks + {p.block}), p), p.block);
  }

  lemma {:induction false} OnProposeSync(c: Env, n: Node, p: ProposeMsg)
    requires c.Valid() && SyncInv(n)
    ensures Keeps(n, OnPropose(c, n, p))
    decreases 0, Pending(n.currentView, p.block.cert.view), 2
  {
    if AggAccepted(c, p) && VerifyQC(c.w, p.block.cert) {
      ConsiderSync(c, n, p);
      AdvanceViewSync(c, Consider(c, n, p), SyncInfo(Some(p.block.cert), None, None));
    }
  }

  lemma {:induction false} ProposeSync(c: Env, n: Node, si: SyncInfo)
    requires c.Valid() && SyncInv(n)
    ensures Keeps(n, Propose(c, n, si))
    decreases 0, Pending(n.currentView, QCOf(si).view), 3
  {
    var cmd := c.command(n.currentView);
    if !(si.qc.Some? && Get(c, n, si.qc.value.hash).None?) && cmd.Some? {
      var p := NewProposal(c, n, si, cmd.value);
      OnProposeSync(c, n.(blocks := n.blocks + {p.block}, proposals := n.proposals + [p]), p);
    }
  }

  lemma {:induction false} AdvanceViewSync(c: Env, n: Node, si: SyncInfo)
    requires c.Valid()
    requires SyncInv(n) || (si.tc.None? && si.qc.Some? && VerifyQC(c.w, si.qc.value) && SyncInvExcept(n, si.qc.value))
    ensures Keeps(n, AdvanceView(c, n, si))
    decreases if si.tc.Some? then 1 else 0, if si.tc.Some? then 0 else Pending(n.currentView, QCOf(si).view), 1
  {
    if si.tc.Some? {
      if VerifyTC(c.w, si.tc.value) {
        var tc := si.tc.value;
        EnterViewSync(c, if tc.view > n.highTC.view then n.(highTC := tc) else n, tc.view, si);
      }
    } else if si.qc.Some? {
      if VerifyQC(c.w, si.qc.value) {
        UpdateHighQCSync(c, n, si.qc.value, si.qc.value);
        EnterViewSync(c, UpdateHighQC(c, n, si.qc.value), si.qc.value.view, si);
      }
    } else {
      EnterViewSync(c, n, 0, si);
    }
  }

  lemma {:induction false} EnterViewSync(c: Env, n: Node, v: View, si: SyncInfo)
    requires c.Valid() && (si.tc.Some? || v == QCOf(si).view)
    requires n.highQC.hash == BlockHash(n.leafBlock)
    requires n.highQC.view < n.currentView || n.highQC.view <= v
    requires n.highTC.view < n.currentView || n.highTC.view <= v
    ensures Keeps(n, EnterView(c, n, v, si))
    decreases if si.tc.Some? then 1 else 0, if si.tc.Some? then 0 else Pending(n.currentView, QCOf(si).view), 0
  {
    if v >= n.currentView && c.leader(v + 1) == c.self {
      ProposeSync(c, n.(currentView := v + 1, lastTimeout := None, entered := n.entered + [v + 1]), si);
    }
  }

  /** Every event keeps the invariant; neither the view nor the height of the leaf block ever decreases. */
  lemma {:induction false} HandleSync(c: Env, n: Node, e: Event)
    requires c.Valid() && SyncInv(n)
    ensures Keeps(n, Handle(c, n, e))
  {
    match e
    case Start =>
      if n.currentView == 1 && c.leader(1) == c.self {
        ProposeSync(c, n, HighSyncInfo(n));
      }
    case Proposal(p) => OnProposeSync(c, n, p);
    case NewView(si) => AdvanceViewSync(c, n, si);
    case RemoteTimeout(t) => RemoteTimeoutSync(c, n, t);
    case LocalTimeout =>
      var t := NewTimeout(c, n);
      if !(n.lastTimeout.Some? && n.lastTimeout.value.view == n.currentView) && t.Some? {
        var n1 := n.(lastTimeout := t, acts := n.acts + [TimedOut(t.value)]);
        RemoteTimeoutSync(c, StopVoting(n1, n.currentView), t.value);
      }
  }

  lemma {:induction false} RemoteTimeoutSync(c: Env, n: Node, t: TimeoutMsg)
    requires c.Valid() && SyncInv(n)
    ensures Keeps(n, OnRemoteTimeout(c, n, t))
  {
    if Verify(c.w, t.viewSig, ViewHash(t.view)) {
      AdvanceViewSync(c, n, t.syncInfo);
      var n1 := FileTimeout(AdvanceView(c, n, t.syncInfo), t);
      if |n1.timeouts[t.view]| >= c.w.Quorum() && Certify(c, n1, t.view).Some? {
        AdvanceViewSync(c, n1.(timeouts := n1.timeouts - {t.view}), Certify(c, n1, t.view).value);
      }
    }
  }

  // ---- proposals ----

  /** A leader that enters its view with a quorum certificate, whose view field is authentic like that of its own high
      certificate, proposes in the next view and on the certified block: parent and certificate name the same block. */
  lemma ProposalFollowsCert(c: Env, n: Node, qc: QuorumCert, cmd: Command)
    requires SyncInv(n) && n.highQC.view == n.leafBlock.view
    requires VerifyQC(c.w, qc) && qc.hash.BlockHash? && qc.view == qc.hash.block.view && qc.view >= n.currentView
    requires Get(c, n, qc.hash).Some? && Get(c, n, n.highQC.hash).Some?
    ensures var n1 := UpdateHighQC(c, n, qc).(currentView := qc.view + 1);
      var b := NewProposal(c, n1, SyncInfo(Some(qc), None, None), cmd).block;
      b.cert == qc && b.parent == qc.hash && b.view == qc.view + 1
  {
    assert UpdateHighQC(c, n, qc).leafBlock == qc.hash.block;
  }

  // ---- how often one call moves the view ----

  /** Handling a proposal enters at most one view; a certificate alone enters at most one; a timeout certificate, which
      may come with a quorum certificate of a later view, at most two. The views entered increase, and the last of them
      is the current one. */
  ghost predicate Moves(n: Node, r: Node, k: nat) {
    && n.entered <= r.entered
    && |r.entered| <= |n.entered| + k
    && (|r.entered| == |n.entered| ==> r.currentView == n.currentView)
    && (|r.entered| > |n.entered| ==> r.entered[|r.entered| - 1] == r.currentView > n.currentView)
    && (|r.entered| == |n.entered| + 2 ==> n.currentView < r.entered[|n.entered|] < r.currentView)
  }

  lemma {:induction false} OnProposeMoves(c: Env, n: Node, p: ProposeMsg)
    requires c.Valid()
    ensures Moves(n, OnPropose(c, n, p), Pending(n.currentView, p.block.cert.view))
    decreases 0, Pending(n.currentView, p.block.cert.view), 2
  {
    if AggAccepted(c, p) && VerifyQC(c.w, p.block.cert) {
      var n1 := Consider(c, n, p);
      ConsiderStays(c, n, p);
      EnterViewMoves(c, UpdateHighQC(c, n1, p.block.cert), p.block.cert.view, SyncInfo(Some(p.block.cert), None, None));
    }
  }

  lemma ConsiderStays(c: Env, n: Node, p: ProposeMsg)
    ensures Consider(c, n, p).entered == n.entered
  {
  }

  lemma {:induction false} EnterViewMoves(c: Env, n: Node, v: View, si: SyncInfo)
    requires c.Valid() && (si.tc.Some? || v == QCOf(si).view)
    ensures Moves(n, EnterView(c, n, v, si), if v < n.currentView then 0 else 1 + Pending(v + 1, QCOf(si).view))
    decreases if si.tc.Some? then 1 else 0, if si.tc.Some? then 0 else Pending(n.currentView, QCOf(si).view), 0
  {
    var n1 := n.(currentView := v + 1, lastTimeout := None, entered := n.entered + [v + 1]);
    var cmd := c.command(v + 1);
    if v >= n.currentView && c.leader(v + 1) == c.self
       && !(si.qc.Some? && Get(c, n1, si.qc.value.hash).None?) && cmd.Some?
    {
      var p := NewProposal(c, n1, si, cmd.value);
      OnProposeMoves(c, n1.(blocks := n1.blocks + {p.block}, proposals := n1.proposals + [p]), p);
    }
  }

  /** One call of AdvanceView enters at most two views, and two only with a timeout certificate whose accompanying
      quorum certificate claims a later view. */
  lemma {:induction false} AdvanceViewMoves(c: Env, n: Node, si: SyncInfo)
    requires c.Valid()
    ensures Moves(n, AdvanceView(c, n, si),
                  if si.tc.Some? then 1 + Pending(si.tc.value.view + 1, QCOf(si).view)
                  else Pending(n.currentView, QCOf(si).view))
  {
    if si.tc.Some? {
      if VerifyTC(c.w, si.tc.value) {
        var tc := si.tc.value;
        EnterViewMoves(c, if tc.view > n.highTC.view then n.(highTC := tc) else n, tc.view, si);
      }
    } else if si.qc.Some? {
      if VerifyQC(c.w, si.qc.value) {
        EnterViewMoves(c, UpdateHighQC(c, n, si.qc.value), si.qc.value.view, si);
      }
    } else {
      EnterViewMoves(c, n, 0, si);
    }
  }

  /** A certificate that verifies takes the replica past its view. */
  lemma {:induction false} EntersAbove(c: Env, n: Node, si: SyncInfo)
    requires c.Valid()
    ensures si.tc.Some? && VerifyTC(c.w, si.tc.value) ==> AdvanceView(c, n, si).currentView > si.tc.value.view
    ensures si.tc.None? && si.qc.Some? && VerifyQC(c.w, si.qc.value) ==>
      AdvanceView(c, n, si).currentView > si.qc.value.view
  {
  }
}
