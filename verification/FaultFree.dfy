/** Runs without faults: every replica is correct, and every message handled was sent by one of them. Even so a leader
    that enters its view with another replica's timeout certificate proposes on its own leaf block with that replica's
    quorum certificate (synchronizer/synchronizer.go, consensus/consensus.go). */
module FaultFree {
  import opened Types
  import opened Quorums
  import opened Crypto
  import opened Handlers
  import opened History
  import opened Safety
  import opened Protocol
  import opened Invariant
  import opened Theorems
  import opened Synchronizer
  import opened Conduct

  // ---- what correct replicas send ----

  /** A certificate made of votes that replicas have cast. */
  ghost predicate FromVotes(w: World, s: System, qc: QuorumCert) {
    exists b, pcs :: MadeOf(w, s, qc, b, pcs)
  }

  ghost predicate MadeOf(w: World, s: System, qc: QuorumCert, b: Block, pcs: seq<PartialCert>) {
    && CreateQC(w, b, pcs) == Some(qc)
    && forall k :: 0 <= k < |pcs| ==>
         pcs[k].hash == BlockHash(b) && SignedBy(s.hist, pcs[k].sig.signer, BlockHash(b))
  }

  /** Some replica has sent the message: its proposal, its timeout, its highest certificates, or a certificate made of
      the votes it has received. */
  ghost predicate Genuine(w: World, s: System, e: Event) {
    match e
    case Proposal(p) => exists j :: j in s.nodes && p in s.nodes[j].proposals
    case RemoteTimeout(t) => exists j :: j in s.nodes && TimedOut(t) in s.nodes[j].acts
    case NewView(si) =>
      || (exists j :: j in s.nodes && si == HighSyncInfo(s.nodes[j]))
      || (exists qc :: si == SyncInfo(Some(qc), None, None) && FromVotes(w, s, qc))
    case _ => true
  }

  ghost predicate GenuineRun(w: World, steps: seq<Step>) {
    && After(w, steps).Some?
    && (steps == [] ||
        var init := steps[..|steps| - 1];
        GenuineRun(w, init) && Genuine(w, After(w, init).value, steps[|steps| - 1].event))
  }

  /** The states that runs without faults reach. */
  ghost predicate ReachableCleanly(w: World, s: System) {
    && w.Valid() && w.faulty == {}
    && exists steps :: GenuineRun(w, steps) && After(w, steps) == Some(s)
  }

  lemma CleanStep(w: World, s: System, st: Step)
    requires ReachableCleanly(w, s) && StepOk(w, s, st) && Genuine(w, s, st.event)
    ensures ReachableCleanly(w, Apply(s, st))
  {
    var steps :| GenuineRun(w, steps) && After(w, steps) == Some(s);
    var more := steps + [st];
    assert more[..|more| - 1] == steps;
    assert After(w, more) == Some(Apply(s, st));
    assert GenuineRun(w, more);
  }

  // ---- parents of what is proposed ----

  predicate Matches(p: ProposeMsg) {
    p.block.parent == p.block.cert.hash
  }

  /** The first proposal that a change of view brings about is made on the replica's own leaf block, with the
      certificate that came with the change of view. Its parent matches exactly if that certificate is for the leaf
      block. */
  lemma {:induction false} ProposalMatchesExactly(c: Env, n: Node, si: SyncInfo)
    requires c.Valid() && SyncInv(n) && |AdvanceView(c, n, si).proposals| > |n.proposals|
    ensures var p := AdvanceView(c, n, si).proposals[|n.proposals|];
      var high := if si.tc.None? && si.qc.Some? then UpdateHighQC(c, n, si.qc.value).highQC else n.highQC;
      && p.block.cert == QCOf(si) && p.block.parent == high.hash
      && (Matches(p) <==> QCOf(si).hash == high.hash)
  {
    LeadsExactly(c, n, si);
  }

  /** What is voted for on the way from `n` to `r` is `p`, or proposed on the way. */
  ghost predicate VotesFor(n: Node, r: Node, p: Option<ProposeMsg>) {
    forall q :: VoteFor(q) in r.acts ==> VoteFor(q) in n.acts || p == Some(q) || q in r.proposals
  }

  lemma {:induction false} ConductedVotes(
      c: Env, n: Node, m: Node, r: Node, from: View, voted: Option<ProposeMsg>)
    requires c.Valid() && Conducts(c, m, r, from, voted) && n.acts <= m.acts
    requires forall k :: |n.acts| <= k < |m.acts| ==> m.acts[k].TimedOut?
    ensures VotesFor(n, r, voted)
  {
    forall q | VoteFor(q) in r.acts && voted != Some(q) ensures VoteFor(q) in n.acts || q in r.proposals {
      var k :| 0 <= k < |r.acts| && r.acts[k] == VoteFor(q);
      if k >= |m.acts| {
        assert q in r.proposals[|m.proposals|..];
      } else {
        assert m.acts[k] == r.acts[k];
      }
    }
  }

  lemma {:induction false} SignedTimesOut(n: Node, t: Option<TimeoutMsg>)
    ensures n.acts <= Signed(n, t).acts
    ensures forall k :: |n.acts| <= k < |Signed(n, t).acts| ==> Signed(n, t).acts[k].TimedOut?
  {
  }

  lemma {:induction false} HandleVotes(c: Env, n: Node, e: Event)
    requires c.Valid()
    ensures VotesFor(n, Handle(c, n, e), if e.Proposal? then Some(e.p) else None)
  {
    HandleConducts(c, n, e);
    SignedTimesOut(n, Signing(c, n, e));
    ConductedVotes(c, n, Signed(n, Signing(c, n, e)), Handle(c, n, e),
                   if e.Start? then n.currentView else n.currentView + 1, if e.Proposal? then Some(e.p) else None);
  }

  ghost predicate Proposed(s: System, p: ProposeMsg) {
    exists j :: j in s.nodes && p in s.nodes[j].proposals
  }

  /** Everything voted for was proposed. */
  lemma {:induction false} VotedIsProposed(w: World, steps: seq<Step>, i: ID, p: ProposeMsg)
    requires GenuineRun(w, steps) && i in After(w, steps).value.nodes
    requires VoteFor(p) in After(w, steps).value.nodes[i].acts
    ensures Proposed(After(w, steps).value, p)
  {
    if steps != [] {
      var init, st := steps[..|steps| - 1], steps[|steps| - 1];
      var s, t := After(w, init).value, After(w, steps).value;
      HandleVotes(st.env, s.nodes[st.id], st.event);
      assert forall j :: j in s.nodes ==> j in t.nodes && s.nodes[j].proposals <= t.nodes[j].proposals;
      if VoteFor(p) in s.nodes[i].acts {
        VotedIsProposed(w, init, i, p);
      }
      if Proposed(s, p) {
        var j :| j in s.nodes && p in s.nodes[j].proposals;
        assert p in t.nodes[j].proposals;
      } else {
        assert p in t.nodes[st.id].proposals;
      }
    }
  }

  /** Without faults, and if every leader proposed with a certificate for its own leaf block, parents match
      certificates. */
  lemma ProposedMatch(w: World, s: System)
    requires ReachableCleanly(w, s) && forall p :: Proposed(s, p) ==> Matches(p)
    ensures ParentsMatch(w, s.hist)
  {
    ReachableInv(w, s);
    var steps :| GenuineRun(w, steps) && After(w, steps) == Some(s);
    forall b: Block | b != Genesis && Certified(w, s.hist, BlockHash(b)) ensures b.parent == b.cert.hash {
      var i, k := SomeVote(w, s.hist, b);
      MineHolds(s.hist, i, k);
      VotedIsProposed(w, steps, i, s.hist[k].what.p);
    }
  }

  lemma {:induction false} MineHolds(hist: seq<Act>, i: ID, k: nat)
    requires k < |hist| && hist[k].id == i
    ensures hist[k].what in Mine(hist, i)
  {
    if k < |hist| - 1 {
      MineHolds(hist[..|hist| - 1], i, k);
    }
  }

  /** Under SimpleHotStuff without faults, if every leader proposed with a certificate for its own leaf block, all
      commits were linked, and executed logs are prefixes of one another. */
  lemma CleanLogs(w: World, s: System, i: ID, j: ID)
    requires ReachableCleanly(w, s) && w.rules.SimpleHotStuff? && i in s.nodes && j in s.nodes
    requires forall p :: Proposed(s, p) ==> Matches(p)
    ensures s.nodes[i].linked && s.nodes[j].linked
    ensures s.nodes[i].executed <= s.nodes[j].executed || s.nodes[j].executed <= s.nodes[i].executed
  {
    ProposedMatch(w, s);
    MatchingParentsLink(w, s, i);
    MatchingParentsLink(w, s, j);
    LinkedLogs(w, s, i, j);
  }
}
