/** Steps of four correct replicas under SimpleHotStuff, in a world in which everything can be fetched: what a replica
    does that votes, leads a view or times out, where this takes it, and that such steps belong to runs without
    faults. */
module CleanSteps {
  import opened Types
  import opened Quorums
  import opened Crypto
  import opened Bytes
  import opened Handlers
  import opened History
  import opened Protocol
  import opened Invariant
  import opened FaultFree
  import opened Staging
  import T = Timeouts

  // ---- the world of the run ----

  function TheWorld(ds: seq<Hash>): World {
    FourReplicas(SimpleHotStuff, {}, ds)
  }

  /** Replica 0 leads the first three views and replica 3 the others. */
  function Leader(v: View): ID {
    if v <= 3 then 0 else 3
  }

  /** Empty commands are queued. */
  ghost function TheEnv(ds: seq<Hash>, i: ID): Env {
    Surroundings(TheWorld(ds), ds, i, v => Leader(v), Some([]))
  }

  lemma {:induction false} TheWorldValid(ds: seq<Hash>)
    ensures TheWorld(ds).Valid() && TheWorld(ds).Quorum() == 3
  {
    FourAreValid(SimpleHotStuff, {}, ds);
  }

  lemma {:induction false} TheEnvValid(ds: seq<Hash>, i: ID)
    ensures TheEnv(ds, i).Valid()
  {
    SurroundingsOrder(TheWorld(ds), ds, i, v => Leader(v), Some([]));
  }

  // ---- one proposal ----

  /** Where a replica is: its view, its last vote, its lock, its high certificate, and what it has executed. */
  datatype Place = Place(view: View, vote: View, locked: Block, high: QuorumCert, exec: Block, log: seq<Block>)

  predicate At(n: Node, p: Place) {
    && n.currentView == p.view && n.lastVote == p.vote && n.locked == p.locked && n.highQC == p.high
    && n.highQC.hash == BlockHash(n.leafBlock) && n.bExec == p.exec && n.executed == p.log
  }

  function Below(b: Option<Block>): Option<Block> {
    if b.Some? then Justified(b.value) else None
  }

  /** The block that a commit rule run on `b` returns. */
  function Commits(b: Block): Option<Block> {
    var b1 := Justified(b);
    var b2 := Below(b1);
    var b3 := Below(b2);
    if b3.Some? && b3.value.view + 2 == b1.value.view then b3 else None
  }

  /** Where a replica is after it has voted for `b`, if what it then executes has genesis as its parent. */
  function Next(p: Place, b: Block): Place {
    var b1 := Justified(b);
    var b2 := Below(b1);
    var x := Commits(b);
    var done := x.Some? && p.exec.view < x.value.view;
    Place(
      if b.cert.view >= p.view then b.cert.view + 1 else p.view,
      b.view,
      if b2.Some? && b2.value.view > p.locked.view then b2.value else p.locked,
      if b1.Some? && p.high.hash.BlockHash? && b1.value.view > p.high.hash.block.view then b.cert else p.high,
      if done then x.value else p.exec,
      if done then p.log + [x.value] else p.log)
  }

  /** The replica may vote for `b`, and executes nothing but children of genesis. */
  predicate Votable(p: Place, b: Block) {
    && b.view >= p.view && b.view > p.vote
    && Justified(b).Some? && Justified(b).value.view >= p.locked.view
    && (Commits(b).Some? && p.exec.view < Commits(b).value.view ==> Commits(b).value.parent == GenesisHash)
  }

  function Message(b: Block): ProposeMsg {
    ProposeMsg(b.proposer, b, None)
  }

  /** What handling a proposal leaves alone. */
  predicate Same(n: Node, r: Node) {
    && r.proposals == n.proposals && r.timeouts == n.timeouts && r.highTC == n.highTC
    && (r.lastTimeout == n.lastTimeout || r.lastTimeout == None)
  }

  lemma {:induction false} Considered(ds: seq<Hash>, i: ID, n: Node, p: Place, b: Block)
    requires At(n, p) && Votable(p, b) && BlockHash(b) in ds && b.proposer == Leader(b.view)
    ensures var r := Consider(TheEnv(ds, i), n, Message(b));
      && At(r, Next(p, b).(view := p.view, high := p.high))
      && Same(n, r) && r.acts == n.acts + [VoteFor(Message(b))]
  {
    var c := TheEnv(ds, i);
    assert VoteRule(c, n, Message(b));
    var n1 := CastVote(c, n.(blocks := n.blocks + {b}), Message(b));
    var (n2, x) := CommitSimple(c, n1, b);
    assert x == Commits(b);
    if x.Some? && n2.bExec.view < x.value.view {
      assert Uncommitted(c, n2, Genesis) == [];
      assert Uncommitted(c, n2, x.value) == [] + [x.value];
    }
  }

  /** A replica that does not lead the next view votes for a proposal and takes its certificate. */
  lemma {:induction false} Followed(ds: seq<Hash>, i: ID, n: Node, p: Place, b: Block)
    requires At(n, p) && Votable(p, b) && BlockHash(b) in ds && b.proposer == Leader(b.view)
    requires VerifyQC(TheWorld(ds), b.cert) && (b.cert.view < p.view || Leader(b.cert.view + 1) != i)
    ensures TheEnv(ds, i).Valid()
    ensures var r := OnPropose(TheEnv(ds, i), n, Message(b));
      At(r, Next(p, b)) && Same(n, r) && r.acts == n.acts + [VoteFor(Message(b))]
  {
    TheEnvValid(ds, i);
    Considered(ds, i, n, p, b);
    var c, si := TheEnv(ds, i), SyncInfo(Some(b.cert), None, None);
    var n1 := Consider(c, n, Message(b));
    assert OnPropose(c, n, Message(b)) == AdvanceView(c, n1, si);
    assert AdvanceView(c, n1, si) == EnterView(c, UpdateHighQC(c, n1, b.cert), b.cert.view, si);
  }

  /** What a leader proposes at `p` with the certificate `qc`: a block on its own leaf. */
  function OnLeaf(i: ID, p: Place, qc: QuorumCert): Block {
    Block(p.high.hash, qc, [], p.view, i)
  }

  /** A leader proposes, votes for its proposal, and takes the certificate. */
  lemma {:induction false} Proposes(ds: seq<Hash>, i: ID, n: Node, p: Place, si: SyncInfo)
    requires At(n, p) && Leader(p.view) == i && si.qc.Some? && si.qc.value.view < p.view
    requires VerifyQC(TheWorld(ds), si.qc.value)
    requires var b := OnLeaf(i, p, si.qc.value); Votable(p, b) && BlockHash(b) in ds
    ensures TheEnv(ds, i).Valid()
    ensures var b, r := OnLeaf(i, p, si.qc.value), Propose(TheEnv(ds, i), n, si);
      && At(r, Next(p, b)) && Same(n.(proposals := n.proposals + [Message(b)]), r)
      && r.acts == n.acts + [VoteFor(Message(b))]
  {
    TheEnvValid(ds, i);
    var c, b := TheEnv(ds, i), OnLeaf(i, p, si.qc.value);
    assert NewProposal(c, n, si, []) == Message(b);
    var n1 := n.(blocks := n.blocks + {b}, proposals := n.proposals + [Message(b)]);
    Followed(ds, i, n1, p, b);
    assert Propose(c, n, si) == OnPropose(c, n1, Message(b));
  }

  /** A replica that enters a view which it leads proposes. */
  lemma {:induction false} Leads(ds: seq<Hash>, i: ID, n: Node, p: Place, v: View, si: SyncInfo)
    requires At(n, p.(view := n.currentView)) && n.currentView <= v && p.view == v + 1 && Leader(v + 1) == i
    requires si.qc.Some? && VerifyQC(TheWorld(ds), si.qc.value) && si.qc.value.view <= v
    requires (si.tc.Some? || v == si.qc.value.view)
    requires Votable(p, OnLeaf(i, p, si.qc.value)) && BlockHash(OnLeaf(i, p, si.qc.value)) in ds
    ensures TheEnv(ds, i).Valid()
    ensures var b, r := OnLeaf(i, p, si.qc.value), EnterView(TheEnv(ds, i), n, v, si);
      && At(r, Next(p, b)) && Same(n.(proposals := n.proposals + [Message(b)]), r)
      && r.acts == n.acts + [VoteFor(Message(b))]
  {
    TheEnvValid(ds, i);
    var n1 := n.(currentView := v + 1, lastTimeout := None, entered := n.entered + [v + 1]);
    assert EnterView(TheEnv(ds, i), n, v, si) == Propose(TheEnv(ds, i), n1, si);
    Proposes(ds, i, n1, p, si);
  }

  /** A leader that is handed a certificate for a block above its leaf takes it and proposes. */
  lemma {:induction false} Led(ds: seq<Hash>, i: ID, n: Node, p: Place, qc: QuorumCert)
    requires At(n, p.(view := n.currentView, high := n.highQC)) && n.currentView <= qc.view && Leader(qc.view + 1) == i
    requires qc.hash.BlockHash? && qc.hash.block.view > n.leafBlock.view && VerifyQC(TheWorld(ds), qc)
    requires p.view == qc.view + 1 && p.high == qc && Votable(p, OnLeaf(i, p, qc)) && BlockHash(OnLeaf(i, p, qc)) in ds
    ensures TheEnv(ds, i).Valid()
    ensures var b, r := OnLeaf(i, p, qc), AdvanceView(TheEnv(ds, i), n, SyncInfo(Some(qc), None, None));
      && At(r, Next(p, b)) && Same(n.(proposals := n.proposals + [Message(b)]), r)
      && r.acts == n.acts + [VoteFor(Message(b))]
  {
    TheEnvValid(ds, i);
    var si := SyncInfo(Some(qc), None, None);
    var n1 := UpdateHighQC(TheEnv(ds, i), n, qc);
    assert AdvanceView(TheEnv(ds, i), n, si) == EnterView(TheEnv(ds, i), n1, qc.view, si);
    Leads(ds, i, n1, p, qc.view, si);
  }

  /** A replica that does not lead the next view takes a certificate for a block above its leaf, and enters the view. */
  lemma {:induction false} Entered(ds: seq<Hash>, i: ID, n: Node, p: Place, qc: QuorumCert)
    requires At(n, p) && Leader(qc.view + 1) != i && VerifyQC(TheWorld(ds), qc) && qc.view >= p.view
    requires qc.hash.BlockHash? && qc.hash.block.view > n.leafBlock.view
    ensures TheEnv(ds, i).Valid()
    ensures var r := AdvanceView(TheEnv(ds, i), n, SyncInfo(Some(qc), None, None));
      && At(r, p.(view := qc.view + 1, high := qc))
      && r.proposals == n.proposals && r.acts == n.acts
      && r.timeouts == n.timeouts && r.highTC == n.highTC && r.lastTimeout == None
  {
    TheEnvValid(ds, i);
    var c, si := TheEnv(ds, i), SyncInfo(Some(qc), None, None);
    assert AdvanceView(c, n, si) == EnterView(c, UpdateHighQC(c, n, qc), qc.view, si);
  }

  // ---- steps of the system ----

  /** The run has come to `s`, where the four replicas are at the given places. */
  ghost predicate Come(runs: iset<System>, ds: seq<Hash>, s: System, ps: seq<Place>) {
    Closed(TheWorld(ds), runs, true) && s in runs && Placed(s, ps)
  }

  lemma {:induction false} Allowed(ds: seq<Hash>, s: System, i: ID, e: Event)
    requires i in s.nodes && LegitEvent(TheWorld(ds), s.hist, e)
    ensures StepOk(TheWorld(ds), s, Step(i, TheEnv(ds, i), e))
  {
    TheEnvValid(ds, i);
    SurroundingsSign(SimpleHotStuff, {}, ds, i, v => Leader(v), Some([]));
  }

  ghost predicate Placed(s: System, ps: seq<Place>) {
    && |ps| == 4
    && (forall i: ID :: i in s.nodes <==> i < 4)
    && (forall i :: i in s.nodes ==> At(s.nodes[i], ps[i]))
  }

  /** The places `qs` are `ps` but for that of replica `i`. */
  predicate Moved(ps: seq<Place>, qs: seq<Place>, i: ID, p: Place) {
    |ps| == |qs| == 4 && i < 4 && qs == ps[i := p]
  }

  lemma {:induction false} MovedTwice(ps: seq<Place>, qs: seq<Place>, rs: seq<Place>, i: ID, p: Place, q: Place)
    requires Moved(ps, qs, i, p) && Moved(qs, rs, i, q)
    ensures Moved(ps, rs, i, q)
  {
  }

  lemma {:induction false} MovedAt(ps: seq<Place>, qs: seq<Place>, i: ID, p: Place, j: ID)
    requires Moved(ps, qs, i, p) && j < 4
    ensures qs[j] == if j == i then p else ps[j]
  {
  }

  lemma {:induction false} PlacedNext(s: System, ps: seq<Place>, i: ID, r: Node, p: Place, t: System)
    returns (qs: seq<Place>)
    requires Placed(s, ps) && i < 4 && At(r, p) && t.nodes == s.nodes[i := r]
    ensures Placed(t, qs) && Moved(ps, qs, i, p)
  {
    qs := ps[i := p];
  }

  /** Replica `i` handles a genuine event, and becomes `r`. */
  lemma {:induction false} Handles(runs: iset<System>, ds: seq<Hash>, s: System, i: ID, e: Event, r: Node)
    returns (t: System)
    requires Closed(TheWorld(ds), runs, true) && s in runs && i in s.nodes
    requires Genuine(TheWorld(ds), s, e) && LegitEvent(TheWorld(ds), s.hist, e)
    requires TheEnv(ds, i).Valid() && r == Handle(TheEnv(ds, i), s.nodes[i], e)
    ensures t in runs && Becomes(s, t, i, r)
  {
    var st := Step(i, TheEnv(ds, i), e);
    Allowed(ds, s, i, e);
    t := Apply(s, st);
    assert Closed(TheWorld(ds), runs, true) && StepOk(TheWorld(ds), s, st) && Genuine(TheWorld(ds), s, st.event);
  }

  ghost predicate Becomes(s: System, t: System, i: ID, r: Node)
    requires i in s.nodes
  {
    && s.nodes[i].acts <= r.acts && s.nodes[i].proposals <= r.proposals && s.nodes[i].commits <= r.commits
    && t == System(s.nodes[i := r], Grown(s.hist, i, s.nodes[i], r))
  }

  /** On the way from `n` to `r`, a replica at `p` votes for `b`. */
  ghost predicate Votes1(n: Node, r: Node, p: Place, b: Block) {
    && At(r, Next(p, b)) && r.acts == n.acts + [VoteFor(Message(b))]
    && r.timeouts == n.timeouts && r.highTC == n.highTC && (n.lastTimeout == None ==> r.lastTimeout == None)
  }

  lemma {:induction false} FollowStep(runs: iset<System>, ds: seq<Hash>, s: System, i: ID, p: Place, b: Block)
    returns (t: System, r: Node)
    requires Closed(TheWorld(ds), runs, true) && s in runs && i in s.nodes && At(s.nodes[i], p)
    requires Votable(p, b) && BlockHash(b) in ds && CertOk(TheWorld(ds), s, b.cert) && b.proposer == Leader(b.view)
    requires b.proposer in s.nodes && Message(b) in s.nodes[b.proposer].proposals
    requires b.cert.view < p.view || Leader(b.cert.view + 1) != i
    ensures t in runs && Becomes(s, t, i, r) && Votes1(s.nodes[i], r, p, b)
  {
    Followed(ds, i, s.nodes[i], p, b);
    r := OnPropose(TheEnv(ds, i), s.nodes[i], Message(b));
    t := Handles(runs, ds, s, i, Proposal(Message(b)), r);
  }

  lemma {:induction false} LeadStep(
      runs: iset<System>, ds: seq<Hash>, s: System, i: ID, p: Place, qc: QuorumCert, b: Block)
    returns (t: System, r: Node)
    requires Closed(TheWorld(ds), runs, true) && s in runs && i in s.nodes && CertOk(TheWorld(ds), s, qc)
    requires FromVotes(TheWorld(ds), s, qc)
    requires At(s.nodes[i], p.(view := s.nodes[i].currentView, high := s.nodes[i].highQC))
    requires s.nodes[i].currentView <= qc.view
    requires qc.hash.BlockHash? && qc.hash.block.view > s.nodes[i].leafBlock.view && Leader(qc.view + 1) == i
    requires p.view == qc.view + 1 && p.high == qc && b == OnLeaf(i, p, qc) && Votable(p, b) && BlockHash(b) in ds
    ensures t in runs && Becomes(s, t, i, r) && Votes1(s.nodes[i], r, p, b)
    ensures r.proposals == s.nodes[i].proposals + [Message(b)]
  {
    Led(ds, i, s.nodes[i], p, qc);
    r := AdvanceView(TheEnv(ds, i), s.nodes[i], SyncInfo(Some(qc), None, None));
    t := Handles(runs, ds, s, i, NewView(SyncInfo(Some(qc), None, None)), r);
  }

  lemma {:induction false} VoteIsSigned(hist: seq<Act>, i: ID, n: Node, r: Node, b: Block)
    requires r.acts == n.acts + [VoteFor(Message(b))]
    ensures SignedBy(Grown(hist, i, n, r), i, BlockHash(b))
  {
    GrownOne(hist, i, n, r, VoteFor(Message(b)));
    var more := hist + [Act(i, VoteFor(Message(b)))];
    assert more[|hist|].id == i && Signs(more[|hist|].what, BlockHash(b));
  }

  /** Replica `i` voted for `b` on the way from `s` to `t`, and nobody else did anything. */
  ghost predicate VotedOn(s: System, t: System, i: ID, b: Block) {
    && s.nodes.Keys == t.nodes.Keys && i in s.nodes
    && SignedBy(t.hist, i, BlockHash(b))
    && (forall j :: j in s.nodes && j != i ==> t.nodes[j] == s.nodes[j])
    && (Quiet(s.nodes[i]) ==> Quiet(t.nodes[i]))
  }

  /** The replica has not yet heard of a timeout. */
  predicate Quiet(n: Node) {
    n.timeouts == map[] && n.lastTimeout == None && n.highTC == TimeoutCert(None, 0)
  }

  lemma {:induction false} Placing(s: System, ps: seq<Place>, i: ID, p: Place, b: Block, t: System, r: Node)
    returns (qs: seq<Place>)
    requires Placed(s, ps) && i < 4 && Becomes(s, t, i, r) && Votes1(s.nodes[i], r, p, b)
    ensures Placed(t, qs) && Moved(ps, qs, i, Next(p, b)) && Later(s, t) && VotedOn(s, t, i, b)
  {
    qs := PlacedNext(s, ps, i, r, Next(p, b), t);
    VoteIsSigned(s.hist, i, s.nodes[i], r, b);
  }

  /** Replica `i`, at `p`, votes for the block `b` of another replica. */
  lemma {:induction false} Follows(
      runs: iset<System>, ds: seq<Hash>, s: System, ps: seq<Place>, i: ID, p: Place, b: Block)
    returns (t: System, qs: seq<Place>)
    requires Come(runs, ds, s, ps) && i < 4 && ps[i] == p && Votable(p, b) && BlockHash(b) in ds
    requires CertOk(TheWorld(ds), s, b.cert)
    requires b.proposer == Leader(b.view) && Message(b) in s.nodes[b.proposer].proposals
    requires b.cert.view < p.view || Leader(b.cert.view + 1) != i
    ensures Come(runs, ds, t, qs) && Moved(ps, qs, i, Next(p, b)) && Later(s, t) && VotedOn(s, t, i, b)
  {
    var r;
    t, r := FollowStep(runs, ds, s, i, p, b);
    qs := Placing(s, ps, i, p, b, t, r);
  }

  /** Replica `i`, at `a`, is handed a certificate made of votes, goes to `p` and proposes the block `b`. */
  lemma {:induction false} Proposing(
      runs: iset<System>, ds: seq<Hash>, s: System, ps: seq<Place>, i: ID, qc: QuorumCert, a: Place, p: Place, b: Block)
    returns (t: System, qs: seq<Place>)
    requires Come(runs, ds, s, ps) && i < 4 && ps[i] == a && CertOk(TheWorld(ds), s, qc)
    requires FromVotes(TheWorld(ds), s, qc)
    requires Plan(i, qc, a, p, b) && BlockHash(b) in ds
    ensures Come(runs, ds, t, qs) && Moved(ps, qs, i, Next(p, b)) && Later(s, t) && VotedOn(s, t, i, b)
    ensures Message(b) in t.nodes[i].proposals
  {
    LeafIs(s.nodes[i], a);
    var r;
    t, r := LeadStep(runs, ds, s, i, p, qc, b);
    qs := Placing(s, ps, i, p, b, t, r);
  }

  /** With the certificate `qc`, the leader goes from `a` to `p` and proposes `b`. */
  predicate Plan(l: ID, qc: QuorumCert, a: Place, p: Place, b: Block) {
    && qc.hash.BlockHash? && a.high.hash.BlockHash? && qc.hash.block.view > a.high.hash.block.view
    && Leader(qc.view + 1) == l && a.view <= qc.view
    && p == a.(view := qc.view + 1, high := qc) && b == OnLeaf(l, p, qc) && Votable(p, b)
  }

  lemma {:induction false} LeafIs(n: Node, a: Place)
    requires At(n, a) && a.high.hash.BlockHash?
    ensures n.leafBlock == a.high.hash.block
  {
  }

  // ---- a round ----

  /** Replicas `j` and `m`, at `p` and `q`, vote for a block of replica `l`, who has voted for it; they are 0, 1 and
      `c`. */
  lemma {:induction false} TwoFollow(
      runs: iset<System>, ds: seq<Hash>, s: System, ps: seq<Place>, l: ID, j: ID, p: Place, m: ID, q: Place,
      c: ID, b: Block)
    returns (t: System, qs: seq<Place>, rs: seq<Place>)
    requires Come(runs, ds, s, ps) && Three(l, j, m, c) && CertOk(TheWorld(ds), s, b.cert) && BlockHash(b) in ds
    requires ps[j] == p && ps[m] == q && Votable(p, b) && Votable(q, b) && b.proposer == Leader(b.view)
    requires b.proposer < 4
    requires Message(b) in s.nodes[b.proposer].proposals && SignedBy(s.hist, l, BlockHash(b))
    requires b.cert.view < p.view || Leader(b.cert.view + 1) != j
    requires b.cert.view < q.view || Leader(b.cert.view + 1) != m
    ensures Come(runs, ds, t, rs) && Moved(ps, qs, j, Next(p, b)) && Moved(qs, rs, m, Next(q, b))
    ensures Later(s, t) && Voted(t, c, b) && TwoVoted(s, t, j, m)
  {
    var u;
    u, qs := Follows(runs, ds, s, ps, j, p, b);
    CertOkGrows(TheWorld(ds), s, u, b.cert);
    MovedAt(ps, qs, j, Next(p, b), m);
    t, rs := Follows(runs, ds, u, qs, m, q, b);
    SignedGrows(s.hist, t.hist, l, BlockHash(b));
    SignedGrows(u.hist, t.hist, j, BlockHash(b));
  }

  /** Only replicas `j` and `m` did something, and heard of no timeout. */
  ghost predicate TwoVoted(s: System, t: System, j: ID, m: ID) {
    && s.nodes.Keys == t.nodes.Keys && j in s.nodes && m in s.nodes
    && (forall i :: i in s.nodes && i != j && i != m ==> t.nodes[i] == s.nodes[i])
    && (Quiet(s.nodes[j]) ==> Quiet(t.nodes[j])) && (Quiet(s.nodes[m]) ==> Quiet(t.nodes[m]))
  }

  predicate Three(l: ID, j: ID, m: ID, c: ID) {
    Third(c) && ((l, j, m) == (0, 1, c) || (l, j, m) == (c, 0, 1))
  }

  /** What a round leaves alone. */
  ghost predicate RoundOf(s: System, t: System, l: ID, j: ID, m: ID) {
    && s.nodes.Keys == t.nodes.Keys
    && (forall i :: i in s.nodes && i != l && i != j && i != m ==> t.nodes[i] == s.nodes[i])
    && (forall i :: i in s.nodes && Quiet(s.nodes[i]) ==> Quiet(t.nodes[i]))
  }

  lemma {:induction false} RoundIsOf(s: System, u: System, t: System, l: ID, j: ID, m: ID, b: Block)
    requires VotedOn(s, u, l, b) && TwoVoted(u, t, j, m) && j != l && m != l
    ensures RoundOf(s, t, l, j, m)
  {
  }

  /** All three replicas are at `z` after the round, and the fourth is where it was. */
  ghost predicate AllAt(ps: seq<Place>, qs: seq<Place>, l: ID, j: ID, m: ID, z: Place) {
    && |ps| == |qs| == 4 && l < 4 && j < 4 && m < 4
    && qs[l] == qs[j] == qs[m] == z
    && forall i :: 0 <= i < 4 && i != l && i != j && i != m ==> qs[i] == ps[i]
  }

  lemma {:induction false} MovedAll(
      ps: seq<Place>, qs: seq<Place>, rs: seq<Place>, ts: seq<Place>, l: ID, j: ID, m: ID, z: Place)
    requires Moved(ps, qs, l, z) && Moved(qs, rs, j, z) && Moved(rs, ts, m, z)
    ensures AllAt(ps, ts, l, j, m, z)
  {
  }

  /** Replica `l`, at `a`, proposes the block `b` with the certificate `qc`, and all three vote for it. */
  lemma {:induction false} Round(
      runs: iset<System>, ds: seq<Hash>, s: System, ps: seq<Place>, l: ID, a: Place, j: ID, p: Place, m: ID, q: Place,
      c: ID, qc: QuorumCert, la: Place, b: Block, z: Place)
    returns (t: System, ts: seq<Place>)
    requires Come(runs, ds, s, ps) && Three(l, j, m, c) && CertOk(TheWorld(ds), s, qc) && FromVotes(TheWorld(ds), s, qc)
    requires ps[l] == a && ps[j] == p && ps[m] == q && Plan(l, qc, a, la, b) && BlockHash(b) in ds
    requires Votable(p, b) && Votable(q, b) && Next(la, b) == z && Next(p, b) == z && Next(q, b) == z
    ensures Come(runs, ds, t, ts) && AllAt(ps, ts, l, j, m, z) && Later(s, t) && Voted(t, c, b)
    ensures RoundOf(s, t, l, j, m)
  {
    var u, qs := Proposing(runs, ds, s, ps, l, qc, a, la, b);
    CertOkGrows(TheWorld(ds), s, u, qc);
    MovedAt(ps, qs, l, z, j);
    MovedAt(ps, qs, l, z, m);
    var rs;
    t, rs, ts := TwoFollow(runs, ds, u, qs, l, j, p, m, q, c, b);
    MovedAll(ps, qs, rs, ts, l, j, m, z);
    RoundIsOf(s, u, t, l, j, m, b);
  }

  // ---- timeouts for view 4 ----

  ghost function TimeoutBy(ds: seq<Hash>, i: ID, qc: QuorumCert): TimeoutMsg
    requires ViewHash(4) in ds
  {
    TimeoutMsg(i, 4, Signature(Position(ds, ViewHash(4)), 0, i), None, SyncInfo(Some(qc), None, None))
  }

  /** The replica has heard of timeouts for view 4 only, and of fewer than three. */
  predicate Heard(n: Node) {
    (forall v :: v in n.timeouts ==> v == 4) && |Bucket(n, 4)| < 3
  }

  /** A timeout is filed without completing a quorum. */
  lemma {:induction false} IsFiled(c: Env, n: Node, n1: Node, t: TimeoutMsg)
    requires c.Valid() && c.w.Quorum() == 3 && t.view == 4 && Verify(c.w, t.viewSig, ViewHash(4))
    requires n1 == AdvanceView(c, n, t.syncInfo) && n1.currentView <= 4 && Heard(FileTimeout(n1, t))
    ensures OnRemoteTimeout(c, n, t) == FileTimeout(n1, t)
  {
    var n2 := FileTimeout(n1, t);
    assert Tally(c, n2, 4) == n2;
    assert DropOld(n2).timeouts == n2.timeouts;
  }

  lemma {:induction false} SignatureVerifies(ds: seq<Hash>, j: ID, qc: QuorumCert)
    requires j < 4 && ViewHash(4) in ds
    ensures Verify(TheWorld(ds), TimeoutBy(ds, j, qc).viewSig, ViewHash(4))
  {
  }

  lemma {:induction false} Stays(ds: seq<Hash>, i: ID, n: Node, p: Place)
    requires At(n, p) && p.high.view < p.view && VerifyQC(TheWorld(ds), p.high)
    ensures TheEnv(ds, i).Valid()
    ensures AdvanceView(TheEnv(ds, i), n, SyncInfo(Some(p.high), None, None)) == n
  {
    TheEnvValid(ds, i);
    var si := SyncInfo(Some(p.high), None, None);
    assert UpdateHighQC(TheEnv(ds, i), n, p.high) == n;
    assert AdvanceView(TheEnv(ds, i), n, si) == EnterView(TheEnv(ds, i), n, p.high.view, si);
  }

  /** A replica times out in view 4. */
  lemma {:induction false} TimesOut(ds: seq<Hash>, i: ID, n: Node, p: Place)
    requires At(n, p) && p.view == 4 && p.vote < 4 && p.high.view == 3 && VerifyQC(TheWorld(ds), p.high) && i < 4
    requires n.lastTimeout == None && n.highTC.view == 0 && ViewHash(4) in ds
    requires Heard(FileTimeout(n, TimeoutBy(ds, i, p.high)))
    ensures TheEnv(ds, i).Valid()
    ensures var t, r := TimeoutBy(ds, i, p.high), OnLocalTimeout(TheEnv(ds, i), n);
      && At(r, p.(vote := 4)) && r.acts == n.acts + [TimedOut(t)] && r.proposals == n.proposals
      && r.timeouts == FileTimeout(n, t).timeouts && r.highTC == n.highTC
  {
    var t := TimeoutBy(ds, i, p.high);
    assert NewTimeout(TheEnv(ds, i), n) == Some(t);
    var n1 := StopVoting(n.(lastTimeout := Some(t), acts := n.acts + [TimedOut(t)]), 4);
    Stays(ds, i, n1, p.(vote := 4));
    TheWorldValid(ds);
    SignatureVerifies(ds, i, p.high);
    IsFiled(TheEnv(ds, i), n1, n1, t);
    assert OnLocalTimeout(TheEnv(ds, i), n) == OnRemoteTimeout(TheEnv(ds, i), n1, t);
  }

  /** A replica in view 3 hears of a timeout, takes the certificate that comes with it and enters view 4. */
  lemma {:induction false} Hears(ds: seq<Hash>, i: ID, j: ID, n: Node, p: Place, qc: QuorumCert)
    requires At(n, p) && p.view <= 3 == qc.view && VerifyQC(TheWorld(ds), qc) && i < 3 && j < 4 && ViewHash(4) in ds
    requires qc.hash.BlockHash? && qc.hash.block.view > n.leafBlock.view && Heard(FileTimeout(n, TimeoutBy(ds, j, qc)))
    ensures TheEnv(ds, i).Valid()
    ensures var t := TimeoutBy(ds, j, qc);
      var r := OnRemoteTimeout(TheEnv(ds, i), n, t);
      && At(r, p.(view := 4, high := qc)) && r.acts == n.acts && r.proposals == n.proposals
      && r.timeouts == FileTimeout(n, t).timeouts && r.highTC == n.highTC && r.lastTimeout == None
  {
    Entered(ds, i, n, p, qc);
    TheWorldValid(ds);
    SignatureVerifies(ds, j, qc);
    IsFiled(TheEnv(ds, i), n, AdvanceView(TheEnv(ds, i), n, SyncInfo(Some(qc), None, None)), TimeoutBy(ds, j, qc));
  }

  /** A replica in view 4 hears of another timeout. */
  lemma {:induction false} HearsMore(ds: seq<Hash>, i: ID, j: ID, n: Node, p: Place)
    requires At(n, p) && p.view == 4 && p.high.view == 3 && VerifyQC(TheWorld(ds), p.high) && j < 4 && ViewHash(4) in ds
    requires Heard(FileTimeout(n, TimeoutBy(ds, j, p.high)))
    ensures TheEnv(ds, i).Valid()
    ensures OnRemoteTimeout(TheEnv(ds, i), n, TimeoutBy(ds, j, p.high)) == FileTimeout(n, TimeoutBy(ds, j, p.high))
  {
    Stays(ds, i, n, p);
    TheWorldValid(ds);
    SignatureVerifies(ds, j, p.high);
    IsFiled(TheEnv(ds, i), n, n, TimeoutBy(ds, j, p.high));
  }

  /** The bucket holds the timeouts of the replicas `ids`, all with the certificate `qc`. */
  ghost predicate Holds(ds: seq<Hash>, qc: QuorumCert, bucket: map<ID, TimeoutMsg>, ids: set<ID>)
    requires ViewHash(4) in ds
  {
    bucket.Keys == ids && forall id :: id in ids ==> bucket[id] == TimeoutBy(ds, id, qc)
  }

  /** The signature of a timeout certificate made of these. */
  ghost predicate FromTimeouts(ds: seq<Hash>, tc: TimeoutCert)
    requires ViewHash(4) in ds
  {
    && tc.view == 4 && VerifyTC(TheWorld(ds), tc)
    && (tc.sig.Some? ==> forall id :: id in tc.sig.value ==>
          tc.sig.value[id].signer < 3 && tc.sig.value[id].r == Position(ds, ViewHash(4)))
  }

  lemma {:induction false} TheyAreGood(ds: seq<Hash>, qc: QuorumCert, bucket: map<ID, TimeoutMsg>, ids: set<ID>)
    requires ViewHash(4) in ds && Holds(ds, qc, bucket, ids) && forall id :: id in ids ==> id < 4
    ensures T.GoodEntries(TheWorld(ds), ids, 4, bucket) && T.SignersIn(bucket) == ids && |bucket| == |ids|
  {
    forall id | id in ids ensures Verify(TheWorld(ds), bucket[id].viewSig, ViewHash(4)) {
      SignatureVerifies(ds, id, qc);
    }
    forall id | id in ids ensures id in T.SignersIn(bucket) {
      assert bucket[id].viewSig.signer == id;
    }
    assert |bucket| == |bucket.Keys|;
  }

  lemma {:induction false} TheyCertify(ds: seq<Hash>, i: ID, n: Node, qc: QuorumCert) returns (si: SyncInfo)
    requires ViewHash(4) in ds && 4 in n.timeouts && Holds(ds, qc, n.timeouts[4], {0, 1, 2})
    ensures TheEnv(ds, i).Valid() && Certify(TheEnv(ds, i), n, 4) == Some(si) && |n.timeouts[4]| == 3
    ensures si.tc.Some? && FromTimeouts(ds, si.tc.value)
  {
    TheEnvValid(ds, i);
    TheWorldValid(ds);
    var three: set<ID> := {0, 1, 2};
    assert |three| == 3;
    TheyAreGood(ds, qc, n.timeouts[4], three);
    T.CertifyExactly(TheEnv(ds, i), three, n, 4);
    si := Certify(TheEnv(ds, i), n, 4).value;
    CollectsThese(ds, TheEnv(ds, i), n, qc, si.tc.value);
  }

  /** The signatures in a timeout certificate are those of stored timeouts. */
  lemma {:induction false} SignedByStored(c: Env, n: Node, v: View, id: ID) returns (k: ID)
    requires c.Valid() && v in n.timeouts && Certify(c, n, v).Some?
    requires Certify(c, n, v).value.tc.value.sig.Some? && id in Certify(c, n, v).value.tc.value.sig.value
    ensures k in n.timeouts[v] && Certify(c, n, v).value.tc.value.sig.value[id] == n.timeouts[v][k].viewSig
  {
    var bucket := n.timeouts[v];
    var order := c.order(bucket.Keys);
    var sigs := ViewSigs(Listed(bucket, order));
    CollectedFrom(c.w, sigs, Uniform(c.w, ViewHash(v)));
    var m :| 0 <= m < |sigs| && sigs[m] == Certify(c, n, v).value.tc.value.sig.value[id];
    k := order[m];
  }

  lemma {:induction false} CollectsThese(ds: seq<Hash>, c: Env, n: Node, qc: QuorumCert, tc: TimeoutCert)
    requires ViewHash(4) in ds && 4 in n.timeouts && Holds(ds, qc, n.timeouts[4], {0, 1, 2})
    requires c.Valid() && Certify(c, n, 4).Some? && Certify(c, n, 4).value.tc == Some(tc)
    requires tc.view == 4 && VerifyTC(TheWorld(ds), tc)
    ensures FromTimeouts(ds, tc)
  {
    if tc.sig.Some? {
      forall id | id in tc.sig.value
        ensures tc.sig.value[id].signer < 3 && tc.sig.value[id].r == Position(ds, ViewHash(4))
      {
        var k := SignedByStored(c, n, 4, id);
      }
    }
  }

  /** A full bucket takes the replica to view 5, which it does not lead. */
  lemma {:induction false} TallyEnters(c: Env, n: Node, si: SyncInfo)
    requires c.Valid() && 4 in n.timeouts && |n.timeouts[4]| >= c.w.Quorum() && Certify(c, n, 4) == Some(si)
    requires si.tc.Some? && si.tc.value.view == 4 > n.highTC.view && VerifyTC(c.w, si.tc.value)
    requires n.currentView == 4 && c.leader(5) != c.self
    ensures Tally(c, n, 4) == n.(timeouts := n.timeouts - {4}, highTC := si.tc.value, currentView := 5,
                                lastTimeout := None, entered := n.entered + [5])
  {
    var n1 := n.(timeouts := n.timeouts - {4});
    assert Tally(c, n, 4) == AdvanceView(c, n1, si);
    assert AdvanceView(c, n1, si) == EnterView(c, n1.(highTC := si.tc.value), 4, si);
  }

  lemma {:induction false} Fills(c: Env, n: Node, t: TimeoutMsg, si: SyncInfo, p: Place)
    requires At(n, p)
    requires c.Valid() && t.view == 4 && Verify(c.w, t.viewSig, ViewHash(4)) && AdvanceView(c, n, t.syncInfo) == n
    requires var n1 := FileTimeout(n, t); |n1.timeouts[4]| >= c.w.Quorum() && Certify(c, n1, 4) == Some(si)
    requires si.tc.Some? && si.tc.value.view == 4 > n.highTC.view && VerifyTC(c.w, si.tc.value)
    requires n.currentView == 4 && c.leader(5) != c.self
    ensures var r := OnRemoteTimeout(c, n, t);
      At(r, p.(view := 5)) && r.acts == n.acts && r.proposals == n.proposals && r.highTC == si.tc.value
  {
    TallyEnters(c, FileTimeout(n, t), si);
    var r := OnRemoteTimeout(c, n, t);
    assert r == n.(timeouts := r.timeouts, highTC := si.tc.value, currentView := 5, lastTimeout := None,
                   entered := r.entered);
  }

  /** Replica 0 hears of the third timeout and makes a timeout certificate. */
  lemma {:induction false} Completes(ds: seq<Hash>, n: Node, p: Place)
    requires At(n, p) && p.view == 4 && p.high.view == 3 && VerifyQC(TheWorld(ds), p.high) && ViewHash(4) in ds
    requires n.highTC.view == 0 && 4 in n.timeouts && Holds(ds, p.high, n.timeouts[4], {0, 1})
    ensures TheEnv(ds, 0).Valid()
    ensures var r := OnRemoteTimeout(TheEnv(ds, 0), n, TimeoutBy(ds, 2, p.high));
      At(r, p.(view := 5)) && r.acts == n.acts && r.proposals == n.proposals && FromTimeouts(ds, r.highTC)
  {
    var si := Full(ds, n, p);
    Fills(TheEnv(ds, 0), n, TimeoutBy(ds, 2, p.high), si, p);
  }

  lemma {:induction false} Full(ds: seq<Hash>, n: Node, p: Place) returns (si: SyncInfo)
    requires At(n, p) && p.view == 4 && p.high.view == 3 && VerifyQC(TheWorld(ds), p.high) && ViewHash(4) in ds
    requires 4 in n.timeouts && Holds(ds, p.high, n.timeouts[4], {0, 1})
    ensures var c, t := TheEnv(ds, 0), TimeoutBy(ds, 2, p.high);
      && c.Valid() && Verify(c.w, t.viewSig, ViewHash(4)) && AdvanceView(c, n, t.syncInfo) == n
      && |FileTimeout(n, t).timeouts[4]| >= c.w.Quorum() && Certify(c, FileTimeout(n, t), 4) == Some(si)
      && si.tc.Some? && FromTimeouts(ds, si.tc.value)
  {
    Stays(ds, 0, n, p);
    TheWorldValid(ds);
    SignatureVerifies(ds, 2, p.high);
    HoldsThree(ds, p.high, n);
    si := TheyCertify(ds, 0, FileTimeout(n, TimeoutBy(ds, 2, p.high)), p.high);
  }

  lemma {:induction false} HoldsThree(ds: seq<Hash>, qc: QuorumCert, n: Node)
    requires ViewHash(4) in ds && 4 in n.timeouts && Holds(ds, qc, n.timeouts[4], {0, 1})
    ensures Holds(ds, qc, FileTimeout(n, TimeoutBy(ds, 2, qc)).timeouts[4], {0, 1, 2})
  {
  }

  /** The replica holds the timeouts of `ids`, and knows of no timeout certificate. */
  ghost predicate Holding(ds: seq<Hash>, qc: QuorumCert, n: Node, ids: set<ID>) {
    && ViewHash(4) in ds && n.highTC.view == 0
    && (forall v :: v in n.timeouts ==> v == 4)
    && Holds(ds, qc, Bucket(n, 4), ids)
  }

  lemma {:induction false} HoldingMore(ds: seq<Hash>, qc: QuorumCert, n: Node, ids: set<ID>, j: ID)
    requires Holding(ds, qc, n, ids) && j !in ids && |ids| < 2
    ensures Heard(FileTimeout(n, TimeoutBy(ds, j, qc)))
    ensures Holding(ds, qc, FileTimeout(n, TimeoutBy(ds, j, qc)), ids + {j})
  {
    var r := FileTimeout(n, TimeoutBy(ds, j, qc));
    var bucket := Bucket(r, 4);
    assert bucket == Bucket(n, 4)[j := TimeoutBy(ds, j, qc)];
    assert |bucket| == |bucket.Keys| && bucket.Keys == ids + {j};
  }

  lemma {:induction false} HoldsAfter(ds: seq<Hash>, qc: QuorumCert, n: Node, ids: set<ID>, j: ID, r: Node)
    requires Holding(ds, qc, n, ids) && j !in ids && |ids| < 2
    requires r.timeouts == FileTimeout(n, TimeoutBy(ds, j, qc)).timeouts && r.highTC == n.highTC
    ensures Holding(ds, qc, r, ids + {j})
  {
    HoldingMore(ds, qc, n, ids, j);
  }

  lemma {:induction false} Moves(s: System, ps: seq<Place>, i: ID, r: Node, p: Place, t: System)
    returns (qs: seq<Place>)
    requires Placed(s, ps) && i < 4 && At(r, p) && Becomes(s, t, i, r)
    ensures Placed(t, qs) && Moved(ps, qs, i, p)
    ensures Later(s, t) && Only(s, t, i) && s.nodes[i].acts <= t.nodes[i].acts && t.nodes[i] == r
  {
    qs := PlacedNext(s, ps, i, r, p, t);
  }

  /** Replica `j` has sent its timeout for view 4. */
  ghost predicate Timed(ds: seq<Hash>, s: System, j: ID, qc: QuorumCert) {
    && j in s.nodes && ViewHash(4) in ds
    && TimedOut(TimeoutBy(ds, j, qc)) in s.nodes[j].acts && SignedBy(s.hist, j, ViewHash(4))
  }

  /** Only replica `i` did something on the way from `s` to `t`. */
  ghost predicate Only(s: System, t: System, i: ID) {
    s.nodes.Keys == t.nodes.Keys && forall j :: j in s.nodes && j != i ==> t.nodes[j] == s.nodes[j]
  }

  lemma {:induction false} TimedGrows(ds: seq<Hash>, s: System, t: System, j: ID, qc: QuorumCert)
    requires Timed(ds, s, j, qc) && Later(s, t) && s.nodes[j].acts <= t.nodes[j].acts
    ensures Timed(ds, t, j, qc)
  {
    SignedGrows(s.hist, t.hist, j, ViewHash(4));
  }

  lemma {:induction false} TimeoutLegit(ds: seq<Hash>, s: System, j: ID, qc: QuorumCert)
    requires Timed(ds, s, j, qc) && CertOk(TheWorld(ds), s, qc)
    ensures LegitTimeout(TheWorld(ds), s.hist, TimeoutBy(ds, j, qc))
  {
  }

  lemma {:induction false} OutStep(runs: iset<System>, ds: seq<Hash>, s: System, i: ID, p: Place)
    returns (t: System, r: Node)
    requires Closed(TheWorld(ds), runs, true) && s in runs && i in s.nodes && i < 4 && At(s.nodes[i], p)
    requires p.view == 4 && p.vote < 4 && p.high.view == 3 && VerifyQC(TheWorld(ds), p.high)
    requires s.nodes[i].lastTimeout == None && s.nodes[i].highTC.view == 0 && ViewHash(4) in ds
    requires Heard(FileTimeout(s.nodes[i], TimeoutBy(ds, i, p.high)))
    ensures t in runs && Becomes(s, t, i, r) && At(r, p.(vote := 4))
    ensures r.acts == s.nodes[i].acts + [TimedOut(TimeoutBy(ds, i, p.high))]
    ensures r.timeouts == FileTimeout(s.nodes[i], TimeoutBy(ds, i, p.high)).timeouts && r.highTC == s.nodes[i].highTC
  {
    TimesOut(ds, i, s.nodes[i], p);
    r := OnLocalTimeout(TheEnv(ds, i), s.nodes[i]);
    t := Handles(runs, ds, s, i, LocalTimeout, r);
  }

  /** Replica `i`, at `p`, times out in view 4. */
  lemma {:induction false} Out(
      runs: iset<System>, ds: seq<Hash>, s: System, ps: seq<Place>, i: ID, p: Place, ids: set<ID>)
    returns (t: System, qs: seq<Place>)
    requires Come(runs, ds, s, ps) && i < 4 && ps[i] == p && p.view == 4 && p.vote < 4 && p.high.view == 3
    requires VerifyQC(TheWorld(ds), p.high) && s.nodes[i].lastTimeout == None
    requires Holding(ds, p.high, s.nodes[i], ids) && i !in ids && |ids| < 2
    ensures Come(runs, ds, t, qs) && Moved(ps, qs, i, p.(vote := 4)) && Later(s, t) && Only(s, t, i)
    ensures Holding(ds, p.high, t.nodes[i], ids + {i}) && Timed(ds, t, i, p.high)
    ensures s.nodes[i].acts <= t.nodes[i].acts
  {
    var n, msg := s.nodes[i], TimeoutBy(ds, i, p.high);
    HoldingMore(ds, p.high, n, ids, i);
    var r;
    t, r := OutStep(runs, ds, s, i, p);
    HoldsAfter(ds, p.high, n, ids, i, r);
    qs := Moves(s, ps, i, r, p.(vote := 4), t);
    TimeoutIsSigned(s.hist, i, n, r, msg);
  }

  lemma {:induction false} TimeoutIsSigned(hist: seq<Act>, i: ID, n: Node, r: Node, t: TimeoutMsg)
    requires r.acts == n.acts + [TimedOut(t)]
    ensures SignedBy(Grown(hist, i, n, r), i, ViewHash(t.view)) && TimedOut(t) in r.acts
  {
    GrownOne(hist, i, n, r, TimedOut(t));
    var more := hist + [Act(i, TimedOut(t))];
    assert more[|hist|].id == i && Signs(more[|hist|].what, ViewHash(t.view));
    assert r.acts[|n.acts|] == TimedOut(t);
  }

  lemma {:induction false} HearStep(
      runs: iset<System>, ds: seq<Hash>, s: System, i: ID, j: ID, p: Place, qc: QuorumCert)
    returns (t: System, r: Node)
    requires Closed(TheWorld(ds), runs, true) && s in runs && i in s.nodes && i < 3 && At(s.nodes[i], p)
    requires p.view <= 3 == qc.view && CertOk(TheWorld(ds), s, qc) && Timed(ds, s, j, qc) && j < 4
    requires qc.hash.BlockHash? && qc.hash.block.view > s.nodes[i].leafBlock.view
    requires Heard(FileTimeout(s.nodes[i], TimeoutBy(ds, j, qc)))
    ensures t in runs && Becomes(s, t, i, r) && At(r, p.(view := 4, high := qc))
    ensures r.acts == s.nodes[i].acts && r.highTC == s.nodes[i].highTC && r.lastTimeout == None
    ensures r.timeouts == FileTimeout(s.nodes[i], TimeoutBy(ds, j, qc)).timeouts
  {
    Hears(ds, i, j, s.nodes[i], p, qc);
    TimeoutLegit(ds, s, j, qc);
    r := OnRemoteTimeout(TheEnv(ds, i), s.nodes[i], TimeoutBy(ds, j, qc));
    t := Handles(runs, ds, s, i, RemoteTimeout(TimeoutBy(ds, j, qc)), r);
  }

  /** Replica `i`, at `p` in view 3, hears of the timeout of replica `j`. */
  lemma {:induction false} Hear(
      runs: iset<System>, ds: seq<Hash>, s: System, ps: seq<Place>, i: ID, p: Place, j: ID, qc: QuorumCert)
    returns (t: System, qs: seq<Place>)
    requires Come(runs, ds, s, ps) && i < 3 && j < 4 && ps[i] == p && p.view <= 3 == qc.view
    requires CertOk(TheWorld(ds), s, qc)
    requires Timed(ds, s, j, qc) && qc.hash.BlockHash? && qc.hash.block.view > s.nodes[i].leafBlock.view
    requires Holding(ds, qc, s.nodes[i], {})
    ensures Come(runs, ds, t, qs) && Moved(ps, qs, i, p.(view := 4, high := qc)) && Later(s, t) && Only(s, t, i)
    ensures Holding(ds, qc, t.nodes[i], {j}) && t.nodes[i].lastTimeout == None && s.nodes[i].acts <= t.nodes[i].acts
  {
    var none: set<ID> := {};
    HoldingMore(ds, qc, s.nodes[i], none, j);
    assert none + {j} == {j};
    var r;
    t, r := HearStep(runs, ds, s, i, j, p, qc);
    HoldsAfter(ds, qc, s.nodes[i], none, j, r);
    qs := Moves(s, ps, i, r, p.(view := 4, high := qc), t);
  }

  lemma {:induction false} MoreStep(runs: iset<System>, ds: seq<Hash>, s: System, i: ID, j: ID, p: Place)
    returns (t: System, r: Node)
    requires Closed(TheWorld(ds), runs, true) && s in runs && i in s.nodes && At(s.nodes[i], p) && j < 4
    requires p.view == 4 && p.high.view == 3 && CertOk(TheWorld(ds), s, p.high) && Timed(ds, s, j, p.high)
    requires Heard(FileTimeout(s.nodes[i], TimeoutBy(ds, j, p.high)))
    ensures t in runs && Becomes(s, t, i, r) && At(r, p) && r.highTC == s.nodes[i].highTC
    ensures r.timeouts == FileTimeout(s.nodes[i], TimeoutBy(ds, j, p.high)).timeouts
  {
    HearsMore(ds, i, j, s.nodes[i], p);
    TimeoutLegit(ds, s, j, p.high);
    r := OnRemoteTimeout(TheEnv(ds, i), s.nodes[i], TimeoutBy(ds, j, p.high));
    t := Handles(runs, ds, s, i, RemoteTimeout(TimeoutBy(ds, j, p.high)), r);
  }

  /** Replica `i`, at `p` in view 4, hears of the timeout of replica `j`. */
  lemma {:induction false} More(
      runs: iset<System>, ds: seq<Hash>, s: System, ps: seq<Place>, i: ID, p: Place, j: ID, ids: set<ID>)
    returns (t: System, qs: seq<Place>)
    requires Come(runs, ds, s, ps) && i < 4 && j < 4 && ps[i] == p && p.view == 4 && p.high.view == 3
    requires CertOk(TheWorld(ds), s, p.high)
    requires Timed(ds, s, j, p.high) && Holding(ds, p.high, s.nodes[i], ids) && j !in ids && |ids| < 2
    ensures Come(runs, ds, t, qs) && Moved(ps, qs, i, p) && Later(s, t) && Only(s, t, i)
    ensures Holding(ds, p.high, t.nodes[i], ids + {j}) && s.nodes[i].acts <= t.nodes[i].acts
  {
    HoldingMore(ds, p.high, s.nodes[i], ids, j);
    var r;
    t, r := MoreStep(runs, ds, s, i, j, p);
    HoldsAfter(ds, p.high, s.nodes[i], ids, j, r);
    qs := Moves(s, ps, i, r, p, t);
  }

  lemma {:induction false} LastStep(runs: iset<System>, ds: seq<Hash>, s: System, p: Place) returns (t: System, r: Node)
    requires Closed(TheWorld(ds), runs, true) && s in runs && 0 in s.nodes && At(s.nodes[0], p)
    requires p.view == 4 && p.high.view == 3 && CertOk(TheWorld(ds), s, p.high) && Timed(ds, s, 2, p.high)
    requires s.nodes[0].highTC.view == 0 && 4 in s.nodes[0].timeouts
    requires Holds(ds, p.high, s.nodes[0].timeouts[4], {0, 1})
    ensures t in runs && Becomes(s, t, 0, r)
    ensures At(r, p.(view := 5)) && FromTimeouts(ds, r.highTC)
  {
    Completes(ds, s.nodes[0], p);
    TimeoutLegit(ds, s, 2, p.high);
    r := OnRemoteTimeout(TheEnv(ds, 0), s.nodes[0], TimeoutBy(ds, 2, p.high));
    t := Handles(runs, ds, s, 0, RemoteTimeout(TimeoutBy(ds, 2, p.high)), r);
  }

  // ---- replica 3 leads view 5 ----

  lemma {:induction false} LedByTimeout(ds: seq<Hash>, n: Node, p: Place, si: SyncInfo)
    requires At(n, p.(view := n.currentView)) && n.currentView <= 4 && p.view == 5 && n.highTC.view == 0
    requires si.tc.Some? && si.tc.value.view == 4 && VerifyTC(TheWorld(ds), si.tc.value)
    requires si.qc.Some? && si.qc.value.view <= 4 && VerifyQC(TheWorld(ds), si.qc.value)
    requires Votable(p, OnLeaf(3, p, si.qc.value)) && BlockHash(OnLeaf(3, p, si.qc.value)) in ds
    ensures TheEnv(ds, 3).Valid()
    ensures var b, r := OnLeaf(3, p, si.qc.value), AdvanceView(TheEnv(ds, 3), n, si);
      At(r, Next(p, b)) && r.acts == n.acts + [VoteFor(Message(b))] && r.proposals == n.proposals + [Message(b)]
  {
    TheEnvValid(ds, 3);
    var n1 := n.(highTC := si.tc.value);
    assert AdvanceView(TheEnv(ds, 3), n, si) == EnterView(TheEnv(ds, 3), n1, 4, si);
    Leads(ds, 3, n1, p, 4, si);
  }

  lemma {:induction false} SyncLegit(ds: seq<Hash>, s: System, si: SyncInfo)
    requires ViewHash(4) in ds && si.tc.Some? && FromTimeouts(ds, si.tc.value) && si.aggQC.None?
    requires si.qc.Some? && CertOk(TheWorld(ds), s, si.qc.value)
    requires forall j: ID :: j < 3 ==> SignedBy(s.hist, j, ViewHash(4))
    ensures LegitSync(TheWorld(ds), s.hist, si)
  {
  }

  lemma {:induction false} LeadByTimeoutStep(
      runs: iset<System>, ds: seq<Hash>, s: System, p: Place, si: SyncInfo, b: Block)
    returns (t: System, r: Node)
    requires Closed(TheWorld(ds), runs, true) && s in runs && 0 in s.nodes && 3 in s.nodes
    requires si == HighSyncInfo(s.nodes[0])
    requires LegitSync(TheWorld(ds), s.hist, si) && At(s.nodes[3], p.(view := s.nodes[3].currentView))
    requires s.nodes[3].currentView <= 4 && p.view == 5 && s.nodes[3].highTC.view == 0
    requires si.tc.Some? && si.tc.value.view == 4 && VerifyTC(TheWorld(ds), si.tc.value)
    requires si.qc.Some? && si.qc.value.view <= 4 && VerifyQC(TheWorld(ds), si.qc.value)
    requires b == OnLeaf(3, p, si.qc.value) && Votable(p, b) && BlockHash(b) in ds
    ensures t in runs && Becomes(s, t, 3, r) && At(r, Next(p, b))
    ensures r.acts == s.nodes[3].acts + [VoteFor(Message(b))] && r.proposals == s.nodes[3].proposals + [Message(b)]
  {
    LedByTimeout(ds, s.nodes[3], p, si);
    r := AdvanceView(TheEnv(ds, 3), s.nodes[3], si);
    t := Handles(runs, ds, s, 3, NewView(si), r);
  }
}
