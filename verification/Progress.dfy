/** Runs without faults in which messages arrive in time: under every rule set, and for any commands, four replicas
    execute all of them in the order in which they are queued (consensus/consensus.go, synchronizer/synchronizer.go and
    the three rule sets). */
module Progress {
  import opened Types
  import opened Quorums
  import opened Crypto
  import opened Handlers
  import opened History
  import opened Protocol
  import opened FaultFree
  import opened Conduct
  import opened Staging

  // ---- the blocks of the run ----

  /** The blocks of successive views, from genesis on: each on that of the view before, with a certificate for it and
      the command queued for its view. */
  datatype Line = Line(rules: Rules, cmds: View -> Command, blocks: seq<Block>, certs: seq<QuorumCert>)
  {
    predicate Follows(j: nat)
      requires 0 < j < |blocks| == |certs|
    {
      blocks[j] == Block(BlockHash(blocks[j - 1]), certs[j - 1], cmds(j), j, 0)
    }

    predicate Names(j: nat)
      requires j < |blocks| == |certs|
    {
      blocks[j].view == j && certs[j].view == j && certs[j].hash == BlockHash(blocks[j])
    }

    ghost predicate Valid() {
      && 0 < |blocks| == |certs| && blocks[0] == Genesis && certs[0] == QuorumCert(None, 0, GenesisHash)
      && (forall j :: 0 < j < |blocks| ==> Follows(j))
      && (forall j :: 0 <= j < |blocks| ==> Names(j))
    }

    function Message(j: nat): ProposeMsg
      requires j < |blocks|
    {
      ProposeMsg(0, blocks[j], None)
    }

    /** By how many views a commit lags behind the proposal on which it is made. */
    function Lag(): nat {
      if rules.FastHotStuff? then 2 else 3
    }
  }

  function Minus(a: nat, b: nat): nat {
    if a < b then 0 else a - b
  }

  /** What a replica finds around it: certificates verify, all blocks can be fetched, all commands are accepted and
      queued in order, and replica 0 leads all views. */
  ghost predicate Serves(l: Line, c: Env) {
    && l.Valid() && c.Valid() && c.w.rules == l.rules
    && (forall j :: 0 <= j < |l.certs| ==> VerifyQC(c.w, l.certs[j]))
    && (forall v :: c.leader(v) == 0) && (forall h :: c.fetch(h)) && (forall x :: c.accept(x))
    && (forall v :: c.command(v) == Some(l.cmds(v)))
    && (forall j :: 0 < j < |l.blocks| ==> c.sign(BlockHash(l.blocks[j])).Some?)
  }

  // ---- one proposal ----

  /** What a replica has voted for, locked and executed once it has handled the proposal of view `j`. */
  ghost predicate Settled(l: Line, j: nat, n: Node)
    requires j < |l.blocks|
  {
    && n.lastVote == j
    && n.locked == (if l.rules.FastHotStuff? then Genesis else l.blocks[Minus(j, 2)])
    && Executed(l, Minus(j, l.Lag()), n)
  }

  /** The blocks up to that of view `m` have been executed. */
  ghost predicate Executed(l: Line, m: nat, n: Node)
    requires m < |l.blocks|
  {
    n.bExec == l.blocks[m] && n.executed == l.blocks[1..m + 1]
  }

  /** The high certificate is that of view `j`. */
  predicate Knows(l: Line, j: nat, n: Node)
    requires j < |l.blocks| == |l.certs|
  {
    n.highQC == l.certs[j] && n.leafBlock == l.blocks[j]
  }

  lemma {:induction false} Permitted(l: Line, c: Env, n: Node, j: nat)
    requires Serves(l, c) && 0 < j < |l.blocks| && Settled(l, j - 1, n) && n.currentView <= j
    ensures VoteRule(c, n, l.Message(j))
  {
    assert l.Follows(j) && l.Names(j - 1) && l.Names(Minus(j - 1, 2));
    if j == 1 {
      assert Extends(c, n, Genesis, Genesis);
    }
  }

  /** The blocks below `b` along certificates, as long as there are any. They are parents too, and each is in the view
      before. */
  predicate Below(b: Block, b1: Block, b2: Option<Block>, b3: Option<Block>) {
    && Justified(b) == Some(b1) && Justified(b1) == b2
    && b3 == (if b2.Some? then Justified(b2.value) else None)
    && b.parent == BlockHash(b1) && b.view == b1.view + 1
    && (b2.Some? ==> b1.parent == BlockHash(b2.value) && b1.view == b2.value.view + 1)
    && (b3.Some? ==> b2.value.parent == BlockHash(b3.value) && b2.value.view == b3.value.view + 1)
  }

  lemma {:induction false} BelowAt(l: Line, j: nat)
    requires l.Valid() && 0 < j < |l.blocks|
    ensures Below(l.blocks[j], l.blocks[j - 1], if j >= 2 then Some(l.blocks[j - 2]) else None,
                  if j >= 3 then Some(l.blocks[j - 3]) else None)
  {
    assert l.Follows(j) && (j >= 2 ==> l.Follows(j - 1)) && (j >= 3 ==> l.Follows(j - 2));
    assert l.Names(j - 1) && (j >= 2 ==> l.Names(j - 2)) && (j >= 3 ==> l.Names(j - 3));
  }

  lemma {:induction false} RuledOn(c: Env, n: Node, b: Block, b1: Block, b2: Option<Block>, b3: Option<Block>)
    requires Below(b, b1, b2, b3) && forall h :: c.fetch(h)
    ensures var (r, x) := CommitRule(c, n, b);
      && x == (if c.w.rules.FastHotStuff? then b2 else b3)
      && r.locked == (if !c.w.rules.FastHotStuff? && b2.Some? && b2.value.view > n.locked.view then b2.value
                      else n.locked)
  {
    match c.w.rules
    case SimpleHotStuff =>
    case ChainedHotStuff =>
    case FastHotStuff =>
  }

  /** The commit rule locks two views below the proposal, and commits as many below as it lags. */
  lemma {:induction false} Ruled(l: Line, c: Env, n: Node, j: nat)
    requires Serves(l, c) && 0 < j < |l.blocks|
    requires n.locked == (if l.rules.FastHotStuff? then Genesis else l.blocks[Minus(j - 1, 2)])
    ensures var (r, x) := CommitRule(c, n, l.blocks[j]);
      && x == (if j >= l.Lag() then Some(l.blocks[j - l.Lag()]) else None)
      && r.locked == (if l.rules.FastHotStuff? then Genesis else l.blocks[Minus(j, 2)])
  {
    BelowAt(l, j);
    assert l.Names(Minus(j, 2)) && l.Names(Minus(j - 1, 2));
    RuledOn(c, n, l.blocks[j], l.blocks[j - 1], if j >= 2 then Some(l.blocks[j - 2]) else None,
            if j >= 3 then Some(l.blocks[j - 3]) else None);
  }

  /** A commit of the block of view `m` executes it. */
  lemma {:induction false} Executes(l: Line, c: Env, n: Node, b: Block, m: nat)
    requires Serves(l, c) && m < |l.blocks| && Executed(l, Minus(m, 1), n)
    ensures Executed(l, m, DoCommit(c, n, b, l.blocks[m]))
  {
    assert l.Names(m) && l.Names(Minus(m, 1));
    if m > 0 {
      assert l.Follows(m);
      assert Uncommitted(c, n, l.blocks[m - 1]) == [];
      assert Uncommitted(c, n, l.blocks[m]) == [] + [l.blocks[m]];
      assert l.blocks[1..m + 1] == l.blocks[1..m] + [l.blocks[m]];
    } else {
      assert n.executed + Uncommitted(c, n, l.blocks[0]) == n.executed;
    }
  }

  /** What running the commit rule comes to, if the rule ends in `r` and returns `x`. */
  lemma {:induction false} RunIs(c: Env, n: Node, b: Block) returns (r: Node, x: Option<Block>)
    ensures CommitRule(c, n, b) == (r, x) && RunCommitRule(c, n, b) == if x.Some? then DoCommit(c, r, b, x.value) else r
    ensures r == n.(locked := r.locked, highQC := r.highQC, leafBlock := r.leafBlock)
  {
    var (r', x') := CommitRule(c, n, b);
    r, x := r', x';
  }

  lemma {:induction false} Committed(l: Line, c: Env, n: Node, j: nat)
    requires Serves(l, c) && 0 < j < |l.blocks| && Settled(l, j - 1, n.(lastVote := j - 1)) && n.lastVote == j
    ensures Settled(l, j, RunCommitRule(c, n, l.blocks[j]))
  {
    Ruled(l, c, n, j);
    var r, x := RunIs(c, n, l.blocks[j]);
    if j >= l.Lag() {
      assert Minus(j - l.Lag(), 1) == Minus(j - 1, l.Lag());
      Executes(l, c, r, l.blocks[j], j - l.Lag());
    }
  }

  /** A replica that has handled the proposals before handles that of view `j`. */
  lemma {:induction false} Considered(l: Line, c: Env, n: Node, j: nat)
    requires Serves(l, c) && 0 < j < |l.blocks| && Settled(l, j - 1, n) && n.currentView <= j
    ensures var r := Consider(c, n, l.Message(j));
      && Settled(l, j, r) && r.acts == n.acts + [VoteFor(l.Message(j))] && r.proposals == n.proposals
  {
    Permitted(l, c, n, j);
    assert l.Names(j);
    var n1 := CastVote(c, n.(blocks := n.blocks + {l.blocks[j]}), l.Message(j));
    Committed(l, c, n1, j);
    assert Consider(c, n, l.Message(j)) == RunCommitRule(c, n1, l.blocks[j]);
  }

  // ---- handling an event ----

  /** Where a replica is that has handled the proposal of view `j`. */
  ghost predicate Reached(l: Line, j: nat, n: Node) {
    && j < |l.blocks| == |l.certs| && Settled(l, j, n) && Knows(l, Minus(j, 1), n)
    && n.currentView == (if j == 0 then 1 else j)
  }

  /** Taking in the certificate for view `j`. */
  lemma {:induction false} Takes(l: Line, c: Env, n: Node, j: nat)
    requires Serves(l, c) && j < |l.blocks| && (Knows(l, Minus(j, 1), n) || Knows(l, j, n))
    ensures Knows(l, j, UpdateHighQC(c, n, l.certs[j]))
  {
    assert l.Names(j) && l.Names(Minus(j, 1));
  }

  predicate SameHigh(n: Node, r: Node) {
    r.highQC == n.highQC && r.leafBlock == n.leafBlock
  }

  lemma {:induction false} TakesEarly(c: Env, n: Node, p: ProposeMsg)
    requires forall h :: c.fetch(h)
    ensures var r := Consider(c, n, p);
      (SameHigh(n, r) || SameHigh(UpdateHighQC(c, n, p.block.cert), r)) && r.currentView == n.currentView
  {
    var m := ConsiderTakes(c, n, p);
    assert SameHigh(UpdateHighQC(c, n, p.block.cert), UpdateHighQC(c, m, p.block.cert));
  }

  lemma {:induction false} TakesAfter(l: Line, c: Env, n: Node, r: Node, j: nat)
    requires Serves(l, c) && j < |l.blocks| && (Knows(l, Minus(j, 1), n) || Knows(l, j, n))
    requires SameHigh(n, r) || SameHigh(UpdateHighQC(c, n, l.certs[j]), r)
    ensures Knows(l, j, UpdateHighQC(c, r, l.certs[j]))
  {
    Takes(l, c, n, j);
    Takes(l, c, r, j);
  }

  /** What has become of a proposal before the view is advanced. */
  ghost predicate Ready(l: Line, c: Env, n: Node, r: Node, j: nat)
    requires 0 < j < |l.blocks| == |l.certs|
  {
    && Settled(l, j, r) && r.acts == n.acts + [VoteFor(l.Message(j))] && r.proposals == n.proposals
    && r.currentView == n.currentView && Knows(l, j - 1, UpdateHighQC(c, r, l.certs[j - 1]))
  }

  lemma {:induction false} BecomesReady(l: Line, c: Env, n: Node, j: nat)
    requires Serves(l, c) && 0 < j < |l.blocks| && Settled(l, j - 1, n) && n.currentView <= j
    requires Knows(l, Minus(j - 1, 1), n) || Knows(l, j - 1, n)
    ensures Ready(l, c, n, Consider(c, n, l.Message(j)), j)
  {
    Considered(l, c, n, j);
    TakesEarly(c, n, l.Message(j));
    assert l.Follows(j);
    TakesAfter(l, c, n, Consider(c, n, l.Message(j)), j - 1);
  }

  lemma {:induction false} Reassembled(c: Env, n: Node, p: ProposeMsg, r: Node)
    requires c.Valid() && p.aggQC.None? && VerifyQC(c.w, p.block.cert) && r == Consider(c, n, p)
    ensures OnPropose(c, n, p) == AdvanceView(c, r, SyncInfo(Some(p.block.cert), None, None))
  {
  }

  lemma {:induction false} Passes(l: Line, c: Env, n: Node, j: nat) returns (r: Node)
    requires Serves(l, c) && 0 < j < |l.blocks| && Settled(l, j - 1, n) && n.currentView <= j
    requires Knows(l, Minus(j - 1, 1), n) || Knows(l, j - 1, n)
    ensures Ready(l, c, n, r, j)
    ensures OnPropose(c, n, l.Message(j)) == AdvanceView(c, r, SyncInfo(Some(l.certs[j - 1]), None, None))
  {
    assert l.Follows(j);
    BecomesReady(l, c, n, j);
    r := Consider(c, n, l.Message(j));
    Reassembled(c, n, l.Message(j), r);
  }

  /** Entering a view that it does not lead, or is in already, a replica does nothing else. */
  lemma {:induction false} Enters(c: Env, n: Node, j: nat, qc: QuorumCert)
    requires c.Valid() && j > 0 && VerifyQC(c.w, qc) && qc.view == j - 1
    requires n.currentView == j || (n.currentView == j - 1 && c.leader(j) != c.self)
    ensures var r := AdvanceView(c, n, SyncInfo(Some(qc), None, None));
      r == UpdateHighQC(c, n, qc).(currentView := j, lastTimeout := r.lastTimeout, entered := r.entered)
  {
    var si := SyncInfo(Some(qc), None, None);
    assert AdvanceView(c, n, si) == EnterView(c, UpdateHighQC(c, n, qc), j - 1, si);
  }

  lemma {:induction false} Finishes(l: Line, c: Env, n: Node, r: Node, j: nat, t: Node, x: Node)
    requires 0 < j < |l.blocks| == |l.certs| && Ready(l, c, n, r, j) && t == UpdateHighQC(c, r, l.certs[j - 1])
    requires x == t.(currentView := j, lastTimeout := x.lastTimeout, entered := x.entered)
    ensures Reached(l, j, x) && x.acts == n.acts + [VoteFor(l.Message(j))] && x.proposals == n.proposals
  {
    assert t == r.(highQC := t.highQC, leafBlock := t.leafBlock);
  }

  /** A replica that handles the proposal of view `j`, in that view or the one before, votes for it, and ends up in view
      `j`. */
  lemma {:induction false} Handled(l: Line, c: Env, n: Node, j: nat)
    requires Serves(l, c) && 0 < j < |l.blocks| && Settled(l, j - 1, n)
    requires n.currentView == j || (n.currentView == j - 1 && c.self != 0)
    requires Knows(l, Minus(j - 1, 1), n) || Knows(l, j - 1, n)
    ensures var r := OnPropose(c, n, l.Message(j));
      Reached(l, j, r) && r.acts == n.acts + [VoteFor(l.Message(j))] && r.proposals == n.proposals
  {
    var qc := l.certs[j - 1];
    assert l.Names(j - 1);
    var r := Passes(l, c, n, j);
    Enters(c, r, j, qc);
    Finishes(l, c, n, r, j, UpdateHighQC(c, r, qc), AdvanceView(c, r, SyncInfo(Some(qc), None, None)));
  }

  /** The leader in view `j` proposes, and handles its own proposal. */
  lemma {:induction false} Proposes(l: Line, c: Env, n: Node, j: nat, si: SyncInfo)
    requires Serves(l, c) && c.self == 0 && 0 < j < |l.blocks|
    requires Settled(l, j - 1, n) && n.currentView == j && Knows(l, j - 1, n)
    requires si == SyncInfo(Some(l.certs[j - 1]), None, None)
    ensures var r := Propose(c, n, si);
      && Reached(l, j, r) && r.acts == n.acts + [VoteFor(l.Message(j))] && r.proposals == n.proposals + [l.Message(j)]
  {
    assert l.Follows(j) && l.Names(j - 1);
    assert NewProposal(c, n, si, l.cmds(j)) == l.Message(j);
    var n1 := n.(blocks := n.blocks + {l.blocks[j]}, proposals := n.proposals + [l.Message(j)]);
    Handled(l, c, n1, j);
    assert Propose(c, n, si) == OnPropose(c, n1, l.Message(j));
  }

  /** The certificate for the view before makes the leader propose. */
  lemma {:induction false} LeaderAdvances(l: Line, c: Env, n: Node, j: nat)
    requires Serves(l, c) && c.self == 0 && 1 < j && 0 < j < |l.blocks| && Reached(l, j - 1, n)
    ensures var r := AdvanceView(c, n, SyncInfo(Some(l.certs[j - 1]), None, None));
      && Reached(l, j, r) && r.acts == n.acts + [VoteFor(l.Message(j))] && r.proposals == n.proposals + [l.Message(j)]
  {
    var qc := l.certs[j - 1];
    var si := SyncInfo(Some(qc), None, None);
    assert l.Names(j - 1);
    Takes(l, c, n, j - 1);
    var n1 := UpdateHighQC(c, n, qc);
    var n2 := n1.(currentView := j, lastTimeout := None, entered := n.entered + [j]);
    Proposes(l, c, n2, j, si);
    assert AdvanceView(c, n, si) == EnterView(c, n1, j - 1, si);
    assert EnterView(c, n1, j - 1, si) == Propose(c, n2, si);
  }

  /** Nothing but the high quorum certificate is known, which is that of genesis. */
  predicate Fresh(l: Line, n: Node)
    requires l.certs != []
  {
    n.currentView == 1 && HighSyncInfo(n) == SyncInfo(Some(l.certs[0]), None, None)
  }

  lemma {:induction false} Initially(l: Line)
    requires l.Valid()
    ensures Reached(l, 0, InitialNode) && Fresh(l, InitialNode)
  {
  }

  /** Starting makes the leader propose in the first view. */
  lemma {:induction false} LeaderStarts(l: Line, c: Env, n: Node)
    requires Serves(l, c) && c.self == 0 && |l.blocks| > 1 && Reached(l, 0, n) && Fresh(l, n)
    ensures var r := Handle(c, n, Start);
      Reached(l, 1, r) && r.acts == n.acts + [VoteFor(l.Message(1))] && r.proposals == n.proposals + [l.Message(1)]
  {
    Proposes(l, c, n, 1, HighSyncInfo(n));
    assert Handle(c, n, Start) == Propose(c, n, HighSyncInfo(n));
  }

  // ---- the run ----

  function Digests(l: Line): seq<Hash>
    requires l.blocks != []
  {
    seq(|l.blocks| - 1, m requires 0 <= m < |l.blocks| - 1 => BlockHash(l.blocks[m + 1]))
  }

  function WorldOf(l: Line): World
    requires l.blocks != []
  {
    FourReplicas(l.rules, {}, Digests(l))
  }

  predicate MadeAt(l: Line, j: nat)
    requires 0 < j < |l.blocks| == |l.certs|
  {
    l.certs[j] == Cert(2, j - 1, l.blocks[j])
  }

  /** The certificates are made of the votes of three replicas. */
  ghost predicate Made(l: Line) {
    l.Valid() && forall j :: 0 < j < |l.certs| ==> MadeAt(l, j)
  }

  /** Replica 0 leads all views. */
  ghost function TheEnv(l: Line, i: ID): Env
    requires l.Valid()
  {
    Surroundings(WorldOf(l), Digests(l), i, v => 0, None).(command := v => Some(l.cmds(v)))
  }

  lemma {:induction false} CertsVerify(l: Line, j: nat)
    requires Made(l) && j < |l.certs|
    ensures VerifyQC(WorldOf(l), l.certs[j])
  {
    if j > 0 {
      assert MadeAt(l, j);
      CertVerifies(l.rules, {}, Digests(l), 2, j - 1, l.blocks[j]);
    }
  }

  lemma {:induction false} TheEnvFor(l: Line, i: ID)
    requires l.Valid()
    ensures EnvFor(WorldOf(l), TheEnv(l, i), i)
  {
    var c := Surroundings(WorldOf(l), Digests(l), i, v => 0, None);
    SurroundingsOrder(WorldOf(l), Digests(l), i, v => 0, None);
    SurroundingsSign(l.rules, {}, Digests(l), i, v => 0, None);
    var c' := TheEnv(l, i);
    assert c'.order == c.order && c'.sign == c.sign && c'.self == c.self;
    forall s ensures Enumerates(c'.order(s), s) {
      assert Enumerates(c.order(s), s);
    }
  }

  lemma {:induction false} TheEnvIs(l: Line, i: ID)
    requires Made(l)
    ensures EnvFor(WorldOf(l), TheEnv(l, i), i) && Serves(l, TheEnv(l, i))
  {
    TheEnvFor(l, i);
    forall j | 0 < j < |l.blocks| ensures TheEnv(l, i).sign(BlockHash(l.blocks[j])).Some? {
      assert Digests(l)[j - 1] == BlockHash(l.blocks[j]);
    }
    forall j | 0 <= j < |l.certs| ensures VerifyQC(WorldOf(l), l.certs[j]) {
      CertsVerify(l, j);
    }
  }

  /** The replicas below `m` have handled the proposal `p`, and are where `after` says; the others are where `before`
      says. The certificate of the proposal is genuine. */
  ghost predicate Partway(
      runs: iset<System>, w: World, s: System, before: Node -> bool, after: Node -> bool, p: ProposeMsg, m: nat)
  {
    && Closed(w, runs, true) && s in runs && (forall i: ID :: i in s.nodes <==> i < 4)
    && (forall i :: i in s.nodes ==> if i < m then after(s.nodes[i]) else before(s.nodes[i]))
    && (forall i: ID :: i < m ==> SignedBy(s.hist, i, BlockHash(p.block)))
    && (m > 0 ==> p in s.nodes[0].proposals)
    && CertOk(w, s, p.block.cert)
  }

  lemma {:induction false} OneFurther(
      runs: iset<System>, w: World, s: System, before: Node -> bool, after: Node -> bool, p: ProposeMsg, m: nat,
      r: Node, t: System)
    requires m < 4 && Partway(runs, w, s, before, after, p, m) && t in runs && Later(s, t)
    requires t == System(s.nodes[m := r], s.hist + [Act(m, VoteFor(p))])
    requires after(r) && (m == 0 ==> p in r.proposals)
    ensures Partway(runs, w, t, before, after, p, m + 1)
  {
    assert t.hist[|s.hist|] == Act(m, VoteFor(p));
    forall i: ID | i < m ensures SignedBy(t.hist, i, BlockHash(p.block)) {
      SignedGrows(s.hist, t.hist, i, BlockHash(p.block));
    }
    CertOkGrows(w, s, t, p.block.cert);
  }

  /** Replica `i` handles an event by a vote for `p`. */
  lemma {:induction false} Steps(
      runs: iset<System>, w: World, s: System, i: ID, c: Env, e: Event, p: ProposeMsg, r: Node)
    returns (t: System)
    requires Closed(w, runs, true) && s in runs && i in s.nodes && EnvFor(w, c, i) && forall h :: c.fetch(h)
    requires Genuine(w, s, e) && LegitEvent(w, s.hist, e)
    requires r == Handle(c, s.nodes[i], e) && r.acts == s.nodes[i].acts + [VoteFor(p)]
    ensures t in runs && t == System(s.nodes[i := r], s.hist + [Act(i, VoteFor(p))])
    ensures Later(s, t)
  {
    var st := Step(i, c, e);
    assert StepOk(w, s, st);
    t := Apply(s, st);
    GrownOne(s.hist, i, s.nodes[i], r, VoteFor(p));
    assert Closed(w, runs, true) && Genuine(w, s, st.event);
  }

  /** The replicas below `m` have handled the proposal of view `j`, and the others that of the view before. */
  ghost predicate InRound(runs: iset<System>, l: Line, s: System, j: nat, m: nat)
    requires l.Valid() && 0 < j < |l.blocks|
  {
    Partway(runs, WorldOf(l), s, n => Reached(l, j - 1, n), n => Reached(l, j, n), l.Message(j), m)
  }

  /** A follower handles the proposal. */
  lemma {:induction false} Heard(runs: iset<System>, l: Line, s: System, j: nat, m: nat) returns (t: System)
    requires Made(l) && 0 < j < |l.blocks| && 0 < m < 4 && InRound(runs, l, s, j, m)
    ensures InRound(runs, l, t, j, m + 1)
  {
    var c, n, p := TheEnv(l, m), s.nodes[m], l.Message(j);
    var before: Node -> bool, after: Node -> bool := n => Reached(l, j - 1, n), n => Reached(l, j, n);
    assert before(n);
    TheEnvIs(l, m);
    Handled(l, c, n, j);
    t := Steps(runs, WorldOf(l), s, m, c, Proposal(p), p, OnPropose(c, n, p));
    OneFurther(runs, WorldOf(l), s, before, after, p, m, OnPropose(c, n, p), t);
  }

  /** The leader of a later view is handed the certificate made of the votes. */
  lemma {:induction false} Led(runs: iset<System>, l: Line, s: System, j: nat) returns (t: System)
    requires Made(l) && 1 < j < |l.blocks| && InRound(runs, l, s, j, 0) && FromVotes(WorldOf(l), s, l.certs[j - 1])
    ensures InRound(runs, l, t, j, 1)
  {
    var c, n, p := TheEnv(l, 0), s.nodes[0], l.Message(j);
    var before: Node -> bool, after: Node -> bool := n => Reached(l, j - 1, n), n => Reached(l, j, n);
    var si := SyncInfo(Some(l.certs[j - 1]), None, None);
    assert before(n) && l.Follows(j);
    TheEnvIs(l, 0);
    LeaderAdvances(l, c, n, j);
    t := Steps(runs, WorldOf(l), s, 0, c, NewView(si), p, AdvanceView(c, n, si));
    OneFurther(runs, WorldOf(l), s, before, after, p, 0, AdvanceView(c, n, si), t);
  }

  lemma {:induction false} Begun(runs: iset<System>, l: Line, s: System) returns (t: System)
    requires Made(l) && |l.blocks| > 1 && InRound(runs, l, s, 1, 0) && 0 in s.nodes && Fresh(l, s.nodes[0])
    ensures InRound(runs, l, t, 1, 1)
  {
    var c, n, p := TheEnv(l, 0), s.nodes[0], l.Message(1);
    var before: Node -> bool, after: Node -> bool := n => Reached(l, 0, n), n => Reached(l, 1, n);
    assert before(n);
    TheEnvIs(l, 0);
    LeaderStarts(l, c, n);
    t := Steps(runs, WorldOf(l), s, 0, c, Start, p, Handle(c, n, Start));
    OneFurther(runs, WorldOf(l), s, before, after, p, 0, Handle(c, n, Start), t);
  }

  /** When all have handled a proposal, the next one can be made, if its certificate is genuine. */
  lemma {:induction false} NextRound(
      runs: iset<System>, w: World, s: System, before: Node -> bool, after: Node -> bool, p: ProposeMsg,
      next: Node -> bool, q: ProposeMsg)
    requires Partway(runs, w, s, before, after, p, 4) && CertOk(w, s, q.block.cert)
    ensures Partway(runs, w, s, after, next, q, 0)
  {
  }

  lemma {:induction false} VotesAreIn(l: Line, s: System, j: nat)
    requires 0 < j < |l.blocks| == |l.certs| && l.blocks[j] != Genesis && Voted(s, 2, l.blocks[j])
    requires MadeAt(l, j)
    ensures CertOk(WorldOf(l), s, l.certs[j]) && FromVotes(WorldOf(l), s, l.certs[j])
  {
    CertIsOk(l.rules, {}, Digests(l), s, 2, j - 1, l.blocks[j]);
    CertIsMade(l.rules, {}, Digests(l), s, 2, j - 1, l.blocks[j]);
  }

  /** When all have voted, the certificate for the next view can be made. */
  lemma {:induction false} RoundEnds(runs: iset<System>, l: Line, s: System, j: nat)
    requires Made(l) && 0 < j < |l.blocks| - 1 && InRound(runs, l, s, j, 4)
    ensures InRound(runs, l, s, j + 1, 0) && FromVotes(WorldOf(l), s, l.certs[j])
  {
    assert l.Names(j) && l.Follows(j + 1) && MadeAt(l, j);
    VotesAreIn(l, s, j);
    NextRound(runs, WorldOf(l), s, n => Reached(l, j - 1, n), n => Reached(l, j, n), l.Message(j),
              n => Reached(l, j + 1, n), l.Message(j + 1));
  }

  lemma {:induction false} AllHeard(runs: iset<System>, l: Line, s: System, j: nat) returns (t: System)
    requires Made(l) && 0 < j < |l.blocks| && InRound(runs, l, s, j, 1)
    ensures InRound(runs, l, t, j, 4)
  {
    t := Heard(runs, l, s, j, 1);
    t := Heard(runs, l, t, j, 2);
    t := Heard(runs, l, t, j, 3);
  }

  lemma {:induction false} NextHeard(runs: iset<System>, l: Line, s: System, j: nat) returns (t: System)
    requires Made(l) && 0 < j < |l.blocks| - 1 && InRound(runs, l, s, j, 4)
    ensures InRound(runs, l, t, j + 1, 4)
  {
    RoundEnds(runs, l, s, j);
    t := Led(runs, l, s, j + 1);
    t := AllHeard(runs, l, t, j + 1);
  }

  lemma {:induction false} FirstHeard(runs: iset<System>, l: Line, s: System) returns (t: System)
    requires Made(l) && |l.blocks| > 1 && InRound(runs, l, s, 1, 0) && 0 in s.nodes && Fresh(l, s.nodes[0])
    ensures InRound(runs, l, t, 1, 4)
  {
    t := Begun(runs, l, s);
    t := AllHeard(runs, l, t, 1);
  }

  /** All replicas have handled the proposals up to that of view `j`. */
  lemma {:induction false} Rounds(runs: iset<System>, l: Line, s1: System, j: nat) returns (s: System)
    requires Made(l) && 0 < j < |l.blocks| && InRound(runs, l, s1, 1, 4)
    ensures InRound(runs, l, s, j, 4)
  {
    if j == 1 {
      s := s1;
    } else {
      s := Rounds(runs, l, s1, j - 1);
      s := NextHeard(runs, l, s, j - 1);
    }
  }

  lemma {:induction false} CleanRuns(w: World) returns (runs: iset<System>)
    ensures runs == (iset s | ReachableCleanly(w, s)) && Closed(w, runs, true)
  {
    runs := iset s | ReachableCleanly(w, s);
    forall s, st | s in runs && StepOk(w, s, st) && Genuine(w, s, st.event) ensures Apply(s, st) in runs {
      CleanStep(w, s, st);
    }
  }

  lemma {:induction false} Untouched(w: World) returns (s: System)
    requires w.Valid() && w.faulty == {} && w.replicas == {0, 1, 2, 3}
    ensures ReachableCleanly(w, s) && s.hist == [] && (forall i: ID :: i in s.nodes <==> i < 4)
    ensures forall i :: i in s.nodes ==> s.nodes[i] == InitialNode
  {
    s := InitialSystem(w);
    var none: seq<Step> := [];
    assert After(w, none) == Some(s) && GenuineRun(w, none);
  }

  lemma {:induction false} Beginning(l: Line, runs: iset<System>) returns (s: System)
    requires Made(l) && |l.blocks| > 1
    requires runs == (iset s | ReachableCleanly(WorldOf(l), s)) && Closed(WorldOf(l), runs, true)
    ensures InRound(runs, l, s, 1, 0) && 0 in s.nodes && Fresh(l, s.nodes[0])
  {
    FourAreValid(l.rules, {}, Digests(l));
    s := Untouched(WorldOf(l));
    Initially(l);
    assert l.Follows(1);
    var before: Node -> bool := n => Reached(l, 0, n);
    assert before(InitialNode);
  }

  // ---- any number of commands ----

  lemma {:induction false} Lengthened(m: Line, b: Block, qc: QuorumCert) returns (l: Line)
    requires m.Valid()
    requires var k := |m.blocks|;
      b == Block(BlockHash(m.blocks[k - 1]), m.certs[k - 1], m.cmds(k), k, 0) && qc.view == k && qc.hash == BlockHash(b)
    ensures l == m.(blocks := m.blocks + [b], certs := m.certs + [qc]) && l.Valid()
  {
    l := m.(blocks := m.blocks + [b], certs := m.certs + [qc]);
    forall j | 0 < j < |l.blocks| ensures l.Follows(j) {
      assert j < |m.blocks| ==> m.Follows(j);
    }
    forall j | 0 <= j < |l.blocks| ensures l.Names(j) {
      assert j < |m.blocks| ==> m.Names(j);
    }
  }

  lemma {:induction false} Lined(rules: Rules, cmds: View -> Command, k: nat) returns (l: Line)
    ensures Made(l) && l.rules == rules && l.cmds == cmds && |l.blocks| == k + 1
  {
    if k == 0 {
      l := Line(rules, cmds, [Genesis], [QuorumCert(None, 0, GenesisHash)]);
      assert l.Names(0);
    } else {
      var m := Lined(rules, cmds, k - 1);
      var b := Block(BlockHash(m.blocks[k - 1]), m.certs[k - 1], cmds(k), k, 0);
      l := Lengthened(m, b, Cert(2, k - 1, b));
      forall j | 0 < j < |l.certs| ensures MadeAt(l, j) {
        assert j < k ==> MadeAt(m, j);
      }
    }
  }

  /** The blocks in the log hold the commands queued for the first `m` views. */
  ghost predicate HoldsCommands(cmds: View -> Command, m: nat, log: seq<Block>) {
    |log| == m && forall k :: 0 <= k < m ==> log[k].cmd == cmds(k + 1)
  }

  lemma {:induction false} ExecutedCommands(l: Line, m: nat, n: Node)
    requires Made(l) && Reached(l, m + l.Lag(), n)
    ensures HoldsCommands(l.cmds, m, n.executed)
  {
    assert Minus(m + l.Lag(), l.Lag()) == m;
    forall k | 0 <= k < m ensures n.executed[k].cmd == l.cmds(k + 1) {
      assert n.executed[k] == l.blocks[k + 1] && l.Follows(k + 1);
    }
  }

  lemma {:induction false} FourNodes(
      runs: iset<System>, w: World, s: System, before: Node -> bool, after: Node -> bool, p: ProposeMsg)
    requires Partway(runs, w, s, before, after, p, 4)
    ensures s in runs && |s.nodes| == 4 && forall i :: i in s.nodes ==> after(s.nodes[i])
  {
    var four: set<ID> := {0, 1, 2, 3};
    assert s.nodes.Keys == four && |four| == 4;
    assert |s.nodes| == |s.nodes.Keys|;
  }

  /** The whole run of a line. */
  lemma {:induction false} WholeRun(l: Line, runs: iset<System>, k: nat) returns (s: System)
    requires Made(l) && 0 < k < |l.blocks|
    requires runs == (iset s | ReachableCleanly(WorldOf(l), s)) && Closed(WorldOf(l), runs, true)
    ensures InRound(runs, l, s, k, 4)
  {
    s := Beginning(l, runs);
    s := FirstHeard(runs, l, s);
    s := Rounds(runs, l, s, k);
  }

  lemma {:induction false} AllExecute(l: Line, runs: iset<System>, m: nat, s: System)
    requires Made(l) && m + l.Lag() < |l.blocks| && InRound(runs, l, s, m + l.Lag(), 4)
    ensures s in runs && |s.nodes| == 4 && forall i :: i in s.nodes ==> HoldsCommands(l.cmds, m, s.nodes[i].executed)
  {
    var k := m + l.Lag();
    var after: Node -> bool := n => Reached(l, k, n);
    FourNodes(runs, WorldOf(l), s, n => Reached(l, k - 1, n), after, l.Message(k));
    forall i | i in s.nodes ensures HoldsCommands(l.cmds, m, s.nodes[i].executed) {
      assert after(s.nodes[i]);
      ExecutedCommands(l, m, s.nodes[i]);
    }
  }

  /** Under every rule set, for any number of commands: some run without faults has all four replicas execute exactly
      these commands, in the order in which they are queued. */
  lemma {:induction false} CommandsExecuted(rules: Rules, cmds: View -> Command, m: nat) returns (w: World, s: System)
    ensures w.rules == rules && ReachableCleanly(w, s) && |s.nodes| == 4
    ensures forall i :: i in s.nodes ==> HoldsCommands(cmds, m, s.nodes[i].executed)
  {
    var l := Lined(rules, cmds, m + if rules.FastHotStuff? then 2 else 3);
    w := WorldOf(l);
    var runs := CleanRuns(w);
    s := WholeRun(l, runs, m + l.Lag());
    AllExecute(l, runs, m, s);
  }
}
