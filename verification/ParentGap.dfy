/** A run of SimpleHotStuff without faults after which two replicas have executed different logs. Replica 3 misses the
    first views. It enters view 5 with the timeout certificate and the quorum certificate of replica 0, and proposes on
    its own leaf block, which is genesis. No vote rule compares parent and certificate, so the block is voted for and
    committed; and who executes it without having executed the blocks of the first views passes over them. */
module ParentGap {
  import opened Types
  import opened Quorums
  import opened Crypto
  import opened Handlers
  import opened History
  import opened Protocol
  import opened FaultFree
  import opened Staging
  import opened CleanSteps

  // ---- the blocks ----

  /** Replica 0 proposes `b1`, `b2` and `b3`; replica 3 proposes `x` on genesis with the certificate for `b3`, and
      then `y`, `z` and `u`. */
  datatype Blocks = Blocks(b1: Block, b2: Block, b3: Block, x: Block, y: Block, z: Block, u: Block)
  {
    function Digests(): seq<Hash> {
      [BlockHash(b1), BlockHash(b2), BlockHash(b3), ViewHash(4), BlockHash(x), BlockHash(y), BlockHash(z), BlockHash(u)]
    }

    predicate Valid() {
      && b1 == Block(GenesisHash, GenesisCert, [], 1, 0)
      && b2 == Block(BlockHash(b1), Cert(2, 0, b1), [], 2, 0)
      && b3 == Block(BlockHash(b2), Cert(2, 1, b2), [], 3, 0)
      && x == Block(GenesisHash, Cert(2, 2, b3), [], 5, 3)
      && y == Block(BlockHash(x), Cert(3, 4, x), [], 6, 3)
      && z == Block(BlockHash(y), Cert(3, 5, y), [], 7, 3)
      && u == Block(BlockHash(z), Cert(3, 6, z), [], 8, 3)
    }
  }

  const GenesisCert := QuorumCert(None, 0, GenesisHash)

  const First := Place(1, 0, Genesis, GenesisCert, Genesis, [])

  lemma {:induction false} TheBlocks() returns (f: Blocks)
    ensures f.Valid()
  {
    var b1 := Block(GenesisHash, GenesisCert, [], 1, 0);
    var b2 := Block(BlockHash(b1), Cert(2, 0, b1), [], 2, 0);
    var b3 := Block(BlockHash(b2), Cert(2, 1, b2), [], 3, 0);
    var x := Block(GenesisHash, Cert(2, 2, b3), [], 5, 3);
    var y := Block(BlockHash(x), Cert(3, 4, x), [], 6, 3);
    var z := Block(BlockHash(y), Cert(3, 5, y), [], 7, 3);
    f := Blocks(b1, b2, b3, x, y, z, Block(BlockHash(z), Cert(3, 6, z), [], 8, 3));
  }

  lemma {:induction false} DigestsAre(f: Blocks, ds: seq<Hash>)
    requires ds == f.Digests()
    ensures |ds| == 8 && ds[0] == BlockHash(f.b1) && ds[1] == BlockHash(f.b2) && ds[2] == BlockHash(f.b3)
    ensures ds[3] == ViewHash(4) && ds[4] == BlockHash(f.x) && ds[5] == BlockHash(f.y) && ds[6] == BlockHash(f.z)
    ensures BlockHash(f.b1) in ds && BlockHash(f.b2) in ds && BlockHash(f.b3) in ds && ViewHash(4) in ds
    ensures BlockHash(f.x) in ds && BlockHash(f.y) in ds && BlockHash(f.z) in ds && BlockHash(f.u) in ds
  {
    assert ds[0] == BlockHash(f.b1) && ds[1] == BlockHash(f.b2) && ds[2] == BlockHash(f.b3) && ds[3] == ViewHash(4);
    assert ds[4] == BlockHash(f.x) && ds[5] == BlockHash(f.y) && ds[6] == BlockHash(f.z) && ds[7] == BlockHash(f.u);
  }

  // ---- places ----

  /** Where the replicas that see the first views are after voting for `b1`, `b2` and `b3`. */
  const After1 := Place(1, 1, Genesis, GenesisCert, Genesis, [])

  function After2(f: Blocks): Place {
    Place(2, 2, Genesis, f.b2.cert, Genesis, [])
  }

  function After3(f: Blocks): Place {
    Place(3, 3, f.b1, f.b3.cert, Genesis, [])
  }

  /** The same after they have timed out in view 4. */
  function After4(f: Blocks, view: View): Place {
    Place(view, 4, f.b1, f.x.cert, Genesis, [])
  }

  function AfterX(f: Blocks, view: View): Place {
    Place(view, 5, f.b2, f.x.cert, f.b1, [f.b1])
  }

  function AfterY(f: Blocks): Place {
    Place(6, 6, f.b3, f.y.cert, f.b1, [f.b1])
  }

  function AfterZ(f: Blocks): Place {
    Place(7, 7, f.x, f.z.cert, f.b1, [f.b1])
  }

  /** The place of a leader that has taken the certificate of the block it is about to propose. */
  function Leading(p: Place, b: Block): Place {
    p.(view := b.cert.view + 1, high := b.cert)
  }

  lemma {:induction false} FirstPlaces(f: Blocks)
    requires f.Valid()
    ensures Votable(First, f.b1) && Next(First, f.b1) == After1
    ensures Votable(After1, f.b2) && Next(After1, f.b2) == After2(f)
    ensures Votable(Leading(After1, f.b2), f.b2) && Next(Leading(After1, f.b2), f.b2) == After2(f)
  {
    assert Justified(f.b1) == Some(Genesis) && Justified(Genesis) == None && Justified(f.b2) == Some(f.b1);
    assert Commits(f.b1) == None && Commits(f.b2) == None;
  }

  lemma {:induction false} ThirdPlaces(f: Blocks)
    requires f.Valid()
    ensures Votable(After2(f), f.b3) && Next(After2(f), f.b3) == After3(f)
    ensures Votable(Leading(After2(f), f.b3), f.b3) && Next(Leading(After2(f), f.b3), f.b3) == After3(f)
  {
    assert Justified(f.b1) == Some(Genesis) && Justified(f.b2) == Some(f.b1) && Justified(f.b3) == Some(f.b2);
    assert Commits(f.b3) == Some(Genesis);
  }

  /** The blocks that `x` is voted for and commits with. */
  predicate ChainX(f: Blocks) {
    && Justified(f.x) == Some(f.b3) && Justified(f.b3) == Some(f.b2) && Justified(f.b2) == Some(f.b1)
    && f.b1.parent == GenesisHash && f.b1.view == 1 && f.b2.view == 2 && f.b3.view == 3
    && f.x.view == 5 && f.x.cert.view == 3
  }

  lemma {:induction false} ChainXHolds(f: Blocks)
    requires f.Valid()
    ensures ChainX(f) && f.x.cert.hash == BlockHash(f.b3)
  {
  }

  lemma {:induction false} PlacesX(f: Blocks, p: Place)
    requires ChainX(f) && f.x.cert.hash == BlockHash(f.b3) && 4 <= p.view <= 5 && p.vote < 5 && p.locked.view < 2
    requires p.exec == Genesis && p.log == [] && (p.high == GenesisCert || p.high == f.x.cert)
    ensures Votable(p, f.x) && Next(p, f.x) == AfterX(f, p.view)
  {
    assert Commits(f.x) == Some(f.b1);
  }

  lemma {:induction false} LaterPlaces(f: Blocks)
    requires f.Valid()
    ensures Votable(First.(view := 5), f.x) && Next(First.(view := 5), f.x) == AfterX(f, 5)
    ensures Votable(After4(f, 5), f.x) && Next(After4(f, 5), f.x) == AfterX(f, 5)
    ensures Votable(After4(f, 4), f.x) && Next(After4(f, 4), f.x) == AfterX(f, 4)
  {
    ChainXHolds(f);
    PlacesX(f, First.(view := 5));
    PlacesX(f, After4(f, 5));
    PlacesX(f, After4(f, 4));
  }

  lemma {:induction false} PlacesY(f: Blocks, view: View)
    requires f.Valid() && 4 <= view <= 5
    ensures Votable(AfterX(f, view), f.y) && Next(AfterX(f, view), f.y) == AfterY(f)
    ensures Votable(Leading(AfterX(f, view), f.y), f.y) && Next(Leading(AfterX(f, view), f.y), f.y) == AfterY(f)
  {
    assert Justified(f.y) == Some(f.x) && Justified(f.x) == Some(f.b3) && Justified(f.b3) == Some(f.b2);
    assert Commits(f.y) == None;
  }

  lemma {:induction false} PlacesZ(f: Blocks)
    requires f.Valid()
    ensures Votable(AfterY(f), f.z) && Next(AfterY(f), f.z) == AfterZ(f)
    ensures Votable(Leading(AfterY(f), f.z), f.z) && Next(Leading(AfterY(f), f.z), f.z) == AfterZ(f)
  {
    assert Justified(f.z) == Some(f.y) && Justified(f.y) == Some(f.x) && Justified(f.x) == Some(f.b3);
    assert Commits(f.z) == None;
  }

  lemma {:induction false} EndPlaces(f: Blocks)
    requires f.Valid()
    ensures Votable(Leading(AfterZ(f), f.u), f.u) && Next(Leading(AfterZ(f), f.u), f.u).log == [f.b1, f.x]
    ensures Votable(After4(f, 4), f.u) && Next(After4(f, 4), f.u).log == [f.x]
  {
    assert Justified(f.u) == Some(f.z) && Justified(f.z) == Some(f.y) && Justified(f.y) == Some(f.x);
    assert Commits(f.u) == Some(f.x);
  }

  // ---- the run ----

  lemma {:induction false} Initially(ds: seq<Hash>) returns (runs: iset<System>, s: System)
    ensures runs == (iset t | ReachableCleanly(TheWorld(ds), t))
    ensures Closed(TheWorld(ds), runs, true) && s in runs && s == InitialSystem(TheWorld(ds))
  {
    TheWorldValid(ds);
    var w := TheWorld(ds);
    runs := iset t | ReachableCleanly(w, t);
    s := InitialSystem(w);
    assert After(w, []) == Some(s) && GenuineRun(w, []);
    forall s, st | s in runs && StepOk(w, s, st) && Genuine(w, s, st.event) ensures Apply(s, st) in runs {
      CleanStep(w, s, st);
    }
  }

  lemma {:induction false} InitialPlaces(ds: seq<Hash>) returns (ps: seq<Place>)
    ensures Placed(InitialSystem(TheWorld(ds)), ps) && ps[0] == ps[1] == ps[2] == ps[3] == First
    ensures forall i :: i in InitialSystem(TheWorld(ds)).nodes ==> InitialSystem(TheWorld(ds)).nodes[i] == InitialNode
  {
    ps := [First, First, First, First];
    assert forall i: ID :: i in TheWorld(ds).replicas <==> i < 4;
  }

  lemma {:induction false} StartStep(runs: iset<System>, ds: seq<Hash>, s: System, b: Block)
    returns (t: System, r: Node)
    requires Closed(TheWorld(ds), runs, true) && s in runs && 0 in s.nodes && s.nodes[0] == InitialNode
    requires b == OnLeaf(0, First, GenesisCert) && Votable(First, b) && BlockHash(b) in ds
    ensures t in runs && Becomes(s, t, 0, r) && Votes1(s.nodes[0], r, First, b)
    ensures r.proposals == [Message(b)]
  {
    var si := SyncInfo(Some(GenesisCert), None, None);
    assert HighSyncInfo(InitialNode) == si;
    Proposes(ds, 0, InitialNode, First, si);
    r := Propose(TheEnv(ds, 0), InitialNode, si);
    assert r == Handle(TheEnv(ds, 0), InitialNode, Start);
    t := Handles(runs, ds, s, 0, Start, r);
  }

  // the first views

  lemma {:induction false} Started(runs: iset<System>, ds: seq<Hash>, s: System, ps: seq<Place>, b: Block)
    returns (t: System, qs: seq<Place>)
    requires Come(runs, ds, s, ps) && s.nodes[0] == InitialNode && ps[0] == First
    requires b == OnLeaf(0, First, GenesisCert) && Votable(First, b) && BlockHash(b) in ds
    ensures Come(runs, ds, t, qs) && Moved(ps, qs, 0, Next(First, b)) && Later(s, t) && VotedOn(s, t, 0, b)
    ensures Message(b) in t.nodes[0].proposals
  {
    var r;
    t, r := StartStep(runs, ds, s, b);
    qs := Placing(s, ps, 0, First, b, t, r);
  }

  lemma {:induction false} FirstRound(runs: iset<System>, ds: seq<Hash>, s: System, ps: seq<Place>, b: Block, z: Place)
    returns (t: System, ts: seq<Place>)
    requires Come(runs, ds, s, ps) && s.nodes[0] == InitialNode && ps[0] == ps[1] == ps[2] == First
    requires b == OnLeaf(0, First, GenesisCert) && Votable(First, b) && BlockHash(b) in ds && z == Next(First, b)
    ensures Come(runs, ds, t, ts) && AllAt(ps, ts, 0, 1, 2, z) && Voted(t, 2, b) && RoundOf(s, t, 0, 1, 2)
  {
    var u, qs := Started(runs, ds, s, ps, b);
    MovedAt(ps, qs, 0, z, 1);
    MovedAt(ps, qs, 0, z, 2);
    var rs;
    t, rs, ts := TwoFollow(runs, ds, u, qs, 0, 1, First, 2, First, 2, b);
    MovedAll(ps, qs, rs, ts, 0, 1, 2, z);
    RoundIsOf(s, u, t, 0, 1, 2, b);
  }

  /** All but replica 3 vote for the first block. */
  lemma {:induction false} FirstView(ds: seq<Hash>, f: Blocks, runs: iset<System>, s: System)
    returns (t: System, ps: seq<Place>)
    requires f.Valid() && ds == f.Digests() && Closed(TheWorld(ds), runs, true) && s in runs
    requires s == InitialSystem(TheWorld(ds))
    ensures Come(runs, ds, t, ps) && ps[0] == ps[1] == ps[2] == After1 && ps[3] == First
    ensures Voted(t, 2, f.b1) && forall i :: i in t.nodes ==> Quiet(t.nodes[i])
  {
    DigestsAre(f, ds);
    FirstPlaces(f);
    var qs := InitialPlaces(ds);
    t, ps := FirstRound(runs, ds, s, qs, f.b1, After1);
  }

  lemma {:induction false} CertReady(ds: seq<Hash>, s: System, c: ID, k: nat, b: Block, qc: QuorumCert)
    requires Third(c) && k < |ds| && ds[k] == BlockHash(b) && b != Genesis && Voted(s, c, b) && qc == Cert(c, k, b)
    ensures CertOk(TheWorld(ds), s, qc) && FromVotes(TheWorld(ds), s, qc)
  {
    CertIsOk(SimpleHotStuff, {}, ds, s, c, k, b);
    CertIsMade(SimpleHotStuff, {}, ds, s, c, k, b);
  }

  lemma {:induction false} PlanB2(f: Blocks)
    requires f.Valid()
    ensures Plan(0, f.b2.cert, After1, Leading(After1, f.b2), f.b2) && Next(Leading(After1, f.b2), f.b2) == After2(f)
    ensures Votable(After1, f.b2) && Next(After1, f.b2) == After2(f)
  {
    FirstPlaces(f);
  }

  lemma {:induction false} PlanB3(f: Blocks)
    requires f.Valid()
    ensures Plan(0, f.b3.cert, After2(f), Leading(After2(f), f.b3), f.b3)
    ensures Next(Leading(After2(f), f.b3), f.b3) == After3(f)
    ensures Votable(After2(f), f.b3) && Next(After2(f), f.b3) == After3(f)
  {
    ThirdPlaces(f);
  }

  /** They vote for the second block. */
  lemma {:induction false} SecondView(ds: seq<Hash>, f: Blocks, runs: iset<System>, s: System, ps: seq<Place>)
    returns (t: System, qs: seq<Place>)
    requires f.Valid() && ds == f.Digests() && Come(runs, ds, s, ps) && ps[0] == ps[1] == ps[2] == After1
    requires Voted(s, 2, f.b1)
    ensures Come(runs, ds, t, qs) && AllAt(ps, qs, 0, 1, 2, After2(f)) && Voted(t, 2, f.b2) && RoundOf(s, t, 0, 1, 2)
  {
    DigestsAre(f, ds);
    CertReady(ds, s, 2, 0, f.b1, f.b2.cert);
    PlanB2(f);
    var a, la := After1, Leading(After1, f.b2);
    t, qs := Round(runs, ds, s, ps, 0, a, 1, a, 2, a, 2, f.b2.cert, la, f.b2, After2(f));
  }

  /** They vote for the third block. */
  lemma {:induction false} ThirdView(ds: seq<Hash>, f: Blocks, runs: iset<System>, s: System, ps: seq<Place>)
    returns (t: System, qs: seq<Place>)
    requires f.Valid() && ds == f.Digests() && Come(runs, ds, s, ps) && ps[0] == ps[1] == ps[2] == After2(f)
    requires Voted(s, 2, f.b2)
    ensures Come(runs, ds, t, qs) && AllAt(ps, qs, 0, 1, 2, After3(f)) && Voted(t, 2, f.b3) && RoundOf(s, t, 0, 1, 2)
  {
    var a, la := After2(f), Leading(After2(f), f.b3);
    DigestsAre(f, ds);
    CertReady(ds, s, 2, 1, f.b2, f.b3.cert);
    PlanB3(f);
    t, qs := Round(runs, ds, s, ps, 0, a, 1, a, 2, a, 2, f.b3.cert, la, f.b3, After3(f));
  }

  // the fourth view

  lemma {:induction false} EnterStep(runs: iset<System>, ds: seq<Hash>, s: System, i: ID, p: Place, qc: QuorumCert)
    returns (t: System, r: Node)
    requires Closed(TheWorld(ds), runs, true) && s in runs && i in s.nodes && At(s.nodes[i], p)
    requires CertOk(TheWorld(ds), s, qc) && FromVotes(TheWorld(ds), s, qc) && Leader(qc.view + 1) != i
    requires qc.view >= p.view
    requires qc.hash.BlockHash? && qc.hash.block.view > s.nodes[i].leafBlock.view
    ensures t in runs && Becomes(s, t, i, r) && At(r, p.(view := qc.view + 1, high := qc))
    ensures r.acts == s.nodes[i].acts && (Quiet(s.nodes[i]) ==> Quiet(r))
  {
    Entered(ds, i, s.nodes[i], p, qc);
    r := AdvanceView(TheEnv(ds, i), s.nodes[i], SyncInfo(Some(qc), None, None));
    t := Handles(runs, ds, s, i, NewView(SyncInfo(Some(qc), None, None)), r);
  }

  /** The place `e` of a replica in view 4 with the certificate `qc`, that was at `a` before. */
  predicate Fourth(a: Place, qc: QuorumCert, e: Place) {
    && a.view == 3 && a.vote < 4 && qc.view == 3 && e == a.(view := 4, high := qc)
    && qc.hash.BlockHash? && a.high.hash.BlockHash? && qc.hash.block.view > a.high.hash.block.view
  }

  lemma {:induction false} QuietHolds(ds: seq<Hash>, qc: QuorumCert, n: Node)
    requires Quiet(n) && ViewHash(4) in ds
    ensures Holding(ds, qc, n, {}) && n.lastTimeout == None
  {
  }

  lemma {:induction false} Then(s: System, u: System, t: System, i: ID)
    requires Later(s, u) && Later(u, t) && Only(s, u, i) && Only(u, t, i)
    ensures Later(s, t) && Only(s, t, i)
  {
  }

  lemma {:induction false} EnterFourth(
      runs: iset<System>, ds: seq<Hash>, s: System, ps: seq<Place>, a: Place, qc: QuorumCert, e: Place)
    returns (t: System, qs: seq<Place>)
    requires Come(runs, ds, s, ps) && ps[0] == a && Fourth(a, qc, e) && CertOk(TheWorld(ds), s, qc)
    requires FromVotes(TheWorld(ds), s, qc)
    requires Quiet(s.nodes[0])
    ensures Come(runs, ds, t, qs) && Moved(ps, qs, 0, e) && Later(s, t) && Only(s, t, 0) && Quiet(t.nodes[0])
  {
    LeafIs(s.nodes[0], a);
    var r;
    t, r := EnterStep(runs, ds, s, 0, a, qc);
    qs := Moves(s, ps, 0, r, e, t);
  }

  lemma {:induction false} HearFourth(
      runs: iset<System>, ds: seq<Hash>, s: System, ps: seq<Place>, i: ID, a: Place, qc: QuorumCert, e: Place)
    returns (t: System, qs: seq<Place>)
    requires Come(runs, ds, s, ps) && 1 <= i < 3 && ps[i] == a && Fourth(a, qc, e) && CertOk(TheWorld(ds), s, qc)
    requires Timed(ds, s, 0, qc)
    requires Quiet(s.nodes[i])
    ensures Come(runs, ds, t, qs) && Moved(ps, qs, i, e) && Later(s, t) && Only(s, t, i)
    ensures Holding(ds, qc, t.nodes[i], {0}) && t.nodes[i].lastTimeout == None
  {
    LeafIs(s.nodes[i], a);
    QuietHolds(ds, qc, s.nodes[i]);
    t, qs := Hear(runs, ds, s, ps, i, a, 0, qc);
  }

  lemma {:induction false} OutFresh(
      runs: iset<System>, ds: seq<Hash>, s: System, ps: seq<Place>, qc: QuorumCert, e: Place)
    returns (t: System, qs: seq<Place>)
    requires Come(runs, ds, s, ps) && ps[0] == e && e.view == 4 && e.vote < 4 && e.high == qc && qc.view == 3
    requires VerifyQC(TheWorld(ds), qc) && ViewHash(4) in ds && Quiet(s.nodes[0])
    ensures Come(runs, ds, t, qs) && Moved(ps, qs, 0, e.(vote := 4)) && Later(s, t) && Only(s, t, 0)
    ensures Holding(ds, qc, t.nodes[0], {0}) && Timed(ds, t, 0, qc)
  {
    var none: set<ID> := {};
    QuietHolds(ds, qc, s.nodes[0]);
    assert none + {0} == {0};
    t, qs := Out(runs, ds, s, ps, 0, e, none);
  }

  /** Replica 0 takes the certificate for the third block, and times out in view 4. */
  lemma {:induction false} OutFirst(
      runs: iset<System>, ds: seq<Hash>, s: System, ps: seq<Place>, a: Place, qc: QuorumCert, e: Place)
    returns (t: System, rs: seq<Place>)
    requires Come(runs, ds, s, ps) && ps[0] == a && Fourth(a, qc, e) && CertOk(TheWorld(ds), s, qc)
    requires FromVotes(TheWorld(ds), s, qc)
    requires ViewHash(4) in ds && Quiet(s.nodes[0])
    ensures Come(runs, ds, t, rs) && Moved(ps, rs, 0, e.(vote := 4)) && Later(s, t) && Only(s, t, 0)
    ensures Holding(ds, qc, t.nodes[0], {0}) && Timed(ds, t, 0, qc)
  {
    var u, qs := EnterFourth(runs, ds, s, ps, a, qc, e);
    MovedAt(ps, qs, 0, e, 0);
    t, rs := OutFresh(runs, ds, u, qs, qc, e);
    MovedTwice(ps, qs, rs, 0, e, e.(vote := 4));
    Then(s, u, t, 0);
  }

  /** Replica `i` hears of the timeout of replica 0 and times out in view 4 as well. */
  lemma {:induction false} OutOther(
      runs: iset<System>, ds: seq<Hash>, s: System, ps: seq<Place>, i: ID, a: Place, qc: QuorumCert, e: Place)
    returns (t: System, rs: seq<Place>)
    requires Come(runs, ds, s, ps) && 1 <= i < 3 && ps[i] == a && Fourth(a, qc, e) && CertOk(TheWorld(ds), s, qc)
    requires Timed(ds, s, 0, qc)
    requires Quiet(s.nodes[i])
    ensures Come(runs, ds, t, rs) && Moved(ps, rs, i, e.(vote := 4)) && Later(s, t) && Only(s, t, i)
    ensures Timed(ds, t, i, qc)
  {
    var u, qs := HearFourth(runs, ds, s, ps, i, a, qc, e);
    MovedAt(ps, qs, i, e, i);
    t, rs := Out(runs, ds, u, qs, i, e, {0});
    MovedTwice(ps, qs, rs, i, e, e.(vote := 4));
    Then(s, u, t, i);
  }

  lemma {:induction false} MoreFourth(runs: iset<System>, ds: seq<Hash>, s: System, ps: seq<Place>, p: Place)
    returns (t: System, qs: seq<Place>)
    requires Come(runs, ds, s, ps) && ps[0] == p && p.view == 4 && p.high.view == 3 && CertOk(TheWorld(ds), s, p.high)
    requires Holding(ds, p.high, s.nodes[0], {0}) && Timed(ds, s, 1, p.high) && Timed(ds, s, 2, p.high)
    ensures Come(runs, ds, t, qs) && Moved(ps, qs, 0, p) && Later(s, t) && Only(s, t, 0)
    ensures CertOk(TheWorld(ds), t, p.high)
    ensures Holding(ds, p.high, t.nodes[0], {0, 1}) && Timed(ds, t, 2, p.high)
  {
    t, qs := More(runs, ds, s, ps, 0, p, 1, {0});
    TimedGrows(ds, s, t, 2, p.high);
    CertOkGrows(TheWorld(ds), s, t, p.high);
    assert {0} + {1} == {0, 1};
  }

  /** Replica 0 hears of the timeouts of replicas 1 and 2, and enters view 5 with a timeout certificate. */
  lemma {:induction false} OutLast(runs: iset<System>, ds: seq<Hash>, s: System, ps: seq<Place>, p: Place)
    returns (t: System, rs: seq<Place>)
    requires Come(runs, ds, s, ps) && ps[0] == p && p.view == 4 && p.high.view == 3 && CertOk(TheWorld(ds), s, p.high)
    requires Holding(ds, p.high, s.nodes[0], {0}) && Timed(ds, s, 1, p.high) && Timed(ds, s, 2, p.high)
    ensures Come(runs, ds, t, rs) && Moved(ps, rs, 0, p.(view := 5)) && Later(s, t) && Only(s, t, 0)
    ensures ViewHash(4) in ds && FromTimeouts(ds, t.nodes[0].highTC)
  {
    var u, qs := MoreFourth(runs, ds, s, ps, p);
    MovedAt(ps, qs, 0, p, 0);
    var r;
    t, r := LastStep(runs, ds, u, p);
    rs := Moves(u, qs, 0, r, p.(view := 5), t);
    MovedTwice(ps, qs, rs, 0, p, p.(view := 5));
    Then(s, u, t, 0);
  }

  lemma {:induction false} MovedOne(ps: seq<Place>, qs: seq<Place>, i: ID, p: Place)
    requires Moved(ps, qs, i, p)
    ensures qs[i] == p
    ensures (i != 0 ==> qs[0] == ps[0]) && (i != 1 ==> qs[1] == ps[1])
    ensures (i != 2 ==> qs[2] == ps[2]) && (i != 3 ==> qs[3] == ps[3])
  {
  }

  /** Replica 0 has timed out in view 4. */
  lemma {:induction false} OneOut(
      runs: iset<System>, ds: seq<Hash>, s: System, ps: seq<Place>, a: Place, qc: QuorumCert, e: Place, o: Place)
    returns (t: System, qs: seq<Place>)
    requires Come(runs, ds, s, ps) && ps[0] == a && Fourth(a, qc, e) && o == e.(vote := 4)
    requires CertOk(TheWorld(ds), s, qc) && FromVotes(TheWorld(ds), s, qc) && ViewHash(4) in ds && Quiet(s.nodes[0])
    ensures Come(runs, ds, t, qs) && qs[0] == o && qs[1] == ps[1] && qs[2] == ps[2] && qs[3] == ps[3]
    ensures Later(s, t) && CertOk(TheWorld(ds), t, qc) && Only(s, t, 0)
    ensures Holding(ds, qc, t.nodes[0], {0}) && Timed(ds, t, 0, qc)
  {
    t, qs := OutFirst(runs, ds, s, ps, a, qc, e);
    CertOkGrows(TheWorld(ds), s, t, qc);
    MovedOne(ps, qs, 0, o);
  }

  /** Replica 1 as well. */
  lemma {:induction false} TwoOut(
      runs: iset<System>, ds: seq<Hash>, s: System, ps: seq<Place>, a: Place, qc: QuorumCert, e: Place, o: Place)
    returns (t: System, qs: seq<Place>)
    requires Come(runs, ds, s, ps) && ps[1] == a && Fourth(a, qc, e) && CertOk(TheWorld(ds), s, qc) && Quiet(s.nodes[1])
    requires o == e.(vote := 4) && Timed(ds, s, 0, qc)
    ensures Come(runs, ds, t, qs) && qs[1] == o && qs[0] == ps[0] && qs[2] == ps[2] && qs[3] == ps[3]
    ensures Later(s, t) && CertOk(TheWorld(ds), t, qc) && Only(s, t, 1) && Timed(ds, t, 0, qc) && Timed(ds, t, 1, qc)
  {
    t, qs := OutOther(runs, ds, s, ps, 1, a, qc, e);
    CertOkGrows(TheWorld(ds), s, t, qc);
    MovedOne(ps, qs, 1, o);
    TimedGrows(ds, s, t, 0, qc);
  }

  /** And replica 2. */
  lemma {:induction false} ThreeOut(
      runs: iset<System>, ds: seq<Hash>, s: System, ps: seq<Place>, a: Place, qc: QuorumCert, e: Place, o: Place)
    returns (t: System, qs: seq<Place>)
    requires Come(runs, ds, s, ps) && ps[2] == a && Fourth(a, qc, e) && CertOk(TheWorld(ds), s, qc) && Quiet(s.nodes[2])
    requires o == e.(vote := 4) && Timed(ds, s, 0, qc) && Timed(ds, s, 1, qc)
    ensures Come(runs, ds, t, qs) && qs[2] == o && qs[0] == ps[0] && qs[1] == ps[1] && qs[3] == ps[3]
    ensures Later(s, t) && CertOk(TheWorld(ds), t, qc) && Only(s, t, 2)
    ensures Timed(ds, t, 0, qc) && Timed(ds, t, 1, qc) && Timed(ds, t, 2, qc)
  {
    t, qs := OutOther(runs, ds, s, ps, 2, a, qc, e);
    CertOkGrows(TheWorld(ds), s, t, qc);
    MovedOne(ps, qs, 2, o);
    TimedGrows(ds, s, t, 0, qc);
    TimedGrows(ds, s, t, 1, qc);
  }

  /** Replica 0 has made a timeout certificate for view 4 of the signatures of three replicas. */
  ghost predicate Certifies(ds: seq<Hash>, s: System) {
    && 0 in s.nodes && ViewHash(4) in ds && FromTimeouts(ds, s.nodes[0].highTC)
    && forall j: ID :: j < 3 ==> SignedBy(s.hist, j, ViewHash(4))
  }

  lemma {:induction false} AllOut(runs: iset<System>, ds: seq<Hash>, s: System, ps: seq<Place>, p: Place)
    returns (t: System, qs: seq<Place>)
    requires Come(runs, ds, s, ps) && ps[0] == p && p.view == 4 && p.high.view == 3 && CertOk(TheWorld(ds), s, p.high)
    requires Holding(ds, p.high, s.nodes[0], {0})
    requires Timed(ds, s, 0, p.high) && Timed(ds, s, 1, p.high) && Timed(ds, s, 2, p.high)
    ensures Come(runs, ds, t, qs) && qs[0] == p.(view := 5) && qs[1] == ps[1] && qs[2] == ps[2] && qs[3] == ps[3]
    ensures Later(s, t) && Only(s, t, 0) && Certifies(ds, t)
  {
    t, qs := OutLast(runs, ds, s, ps, p);
    MovedOne(ps, qs, 0, p.(view := 5));
    forall j: ID | j < 3 ensures SignedBy(t.hist, j, ViewHash(4)) {
      SignedGrows(s.hist, t.hist, j, ViewHash(4));
    }
  }

  lemma {:induction false} BothOut(
      runs: iset<System>, ds: seq<Hash>, s: System, ps: seq<Place>, a: Place, qc: QuorumCert, e: Place, o: Place)
    returns (t: System, qs: seq<Place>)
    requires Come(runs, ds, s, ps) && ps[1] == ps[2] == a && Fourth(a, qc, e) && o == e.(vote := 4)
    requires CertOk(TheWorld(ds), s, qc) && Quiet(s.nodes[1]) && Quiet(s.nodes[2]) && Timed(ds, s, 0, qc)
    ensures Come(runs, ds, t, qs) && qs[0] == ps[0] && qs[1] == qs[2] == o && qs[3] == ps[3] && Later(s, t)
    ensures CertOk(TheWorld(ds), t, qc)
    ensures t.nodes[0] == s.nodes[0] && t.nodes[3] == s.nodes[3]
    ensures Timed(ds, t, 0, qc) && Timed(ds, t, 1, qc) && Timed(ds, t, 2, qc)
  {
    var u, rs := TwoOut(runs, ds, s, ps, a, qc, e, o);
    t, qs := ThreeOut(runs, ds, u, rs, a, qc, e, o);
  }

  lemma {:induction false} RestOut(
      runs: iset<System>, ds: seq<Hash>, s: System, ps: seq<Place>, a: Place, qc: QuorumCert, e: Place, o: Place)
    returns (t: System, qs: seq<Place>)
    requires Come(runs, ds, s, ps) && ps[0] == o && ps[1] == ps[2] == a && Fourth(a, qc, e) && o == e.(vote := 4)
    requires CertOk(TheWorld(ds), s, qc) && Quiet(s.nodes[1]) && Quiet(s.nodes[2])
    requires Holding(ds, qc, s.nodes[0], {0}) && Timed(ds, s, 0, qc)
    ensures Come(runs, ds, t, qs) && qs[0] == o.(view := 5) && qs[1] == qs[2] == o && qs[3] == ps[3]
    ensures Later(s, t) && t.nodes[3] == s.nodes[3] && Certifies(ds, t)
  {
    assert o.high == qc && o.view == 4 && qc.view == 3;
    var u, rs := BothOut(runs, ds, s, ps, a, qc, e, o);
    t, qs := AllOut(runs, ds, u, rs, o);
  }

  /** All but replica 3 time out in view 4, and replica 0 enters view 5. */
  lemma {:induction false} FourthRound(
      runs: iset<System>, ds: seq<Hash>, s: System, ps: seq<Place>, a: Place, qc: QuorumCert, e: Place, o: Place)
    returns (t: System, us: seq<Place>)
    requires Come(runs, ds, s, ps) && ps[0] == ps[1] == ps[2] == a && Fourth(a, qc, e) && o == e.(vote := 4)
    requires CertOk(TheWorld(ds), s, qc) && FromVotes(TheWorld(ds), s, qc) && ViewHash(4) in ds
    requires Quiet(s.nodes[0]) && Quiet(s.nodes[1]) && Quiet(s.nodes[2])
    ensures Come(runs, ds, t, us) && us[0] == o.(view := 5) && us[1] == us[2] == o && us[3] == ps[3]
    ensures Later(s, t) && t.nodes[3] == s.nodes[3] && Certifies(ds, t)
  {
    var s1, qs := OneOut(runs, ds, s, ps, a, qc, e, o);
    t, us := RestOut(runs, ds, s1, qs, a, qc, e, o);
  }

  lemma {:induction false} PlanFourth(f: Blocks)
    requires f.Valid()
    ensures Fourth(After3(f), f.x.cert, After3(f).(view := 4, high := f.x.cert))
    ensures After4(f, 4) == After3(f).(view := 4, high := f.x.cert, vote := 4)
    ensures After4(f, 5) == After4(f, 4).(view := 5)
  {
  }

  lemma {:induction false} FourthView(ds: seq<Hash>, f: Blocks, runs: iset<System>, s: System, ps: seq<Place>)
    returns (t: System, qs: seq<Place>)
    requires f.Valid() && ds == f.Digests() && Come(runs, ds, s, ps) && ps[0] == ps[1] == ps[2] == After3(f)
    requires Voted(s, 2, f.b3) && forall i :: i in s.nodes ==> Quiet(s.nodes[i])
    ensures Come(runs, ds, t, qs) && qs[0] == After4(f, 5) && qs[1] == qs[2] == After4(f, 4) && qs[3] == ps[3]
    ensures Later(s, t) && Quiet(t.nodes[3]) && Certifies(ds, t) && Voted(t, 2, f.b3)
  {
    DigestsAre(f, ds);
    CertReady(ds, s, 2, 2, f.b3, f.x.cert);
    PlanFourth(f);
    t, qs := FourthRound(
      runs, ds, s, ps, After3(f), f.x.cert, After3(f).(view := 4, high := f.x.cert), After4(f, 4));
    VotedGrows(s, t, 2, f.b3);
  }

  // the later views

  /** Replica 3, which has missed the first views, leads view 5 with the certificates of replica 0. */
  lemma {:induction false} LeadsFifth(
      runs: iset<System>, ds: seq<Hash>, s: System, ps: seq<Place>, o: Place, p: Place, b: Block)
    returns (t: System, qs: seq<Place>)
    requires Come(runs, ds, s, ps) && ps[0] == o && o.high.view == 3 && CertOk(TheWorld(ds), s, o.high)
    requires Certifies(ds, s)
    requires ps[3] == First && p == First.(view := 5) && Quiet(s.nodes[3])
    requires b == OnLeaf(3, p, o.high) && Votable(p, b) && BlockHash(b) in ds
    ensures Come(runs, ds, t, qs) && Moved(ps, qs, 3, Next(p, b)) && Later(s, t) && Only(s, t, 3)
    ensures SignedBy(t.hist, 3, BlockHash(b)) && Message(b) in t.nodes[3].proposals
  {
    var si := HighSyncInfo(s.nodes[0]);
    assert si == SyncInfo(Some(o.high), Some(s.nodes[0].highTC), None);
    SyncLegit(ds, s, si);
    var r;
    t, r := LeadByTimeoutStep(runs, ds, s, p, si, b);
    qs := Moves(s, ps, 3, r, Next(p, b), t);
    VoteIsSigned(s.hist, 3, s.nodes[3], r, b);
  }

  /** Replicas 0, 1 and 3 vote for its block. */
  lemma {:induction false} FifthRound(
      runs: iset<System>, ds: seq<Hash>, s: System, ps: seq<Place>, o: Place, m: Place, p: Place, b: Block)
    returns (t: System, us: seq<Place>)
    requires Come(runs, ds, s, ps) && ps[0] == o && ps[1] == m && o.high.view == 3 && CertOk(TheWorld(ds), s, o.high)
    requires Certifies(ds, s)
    requires ps[3] == First && p == First.(view := 5) && Quiet(s.nodes[3]) && o.view == 5 && m.view == 4
    requires b == OnLeaf(3, p, o.high) && Votable(p, b) && Votable(o, b) && Votable(m, b) && BlockHash(b) in ds
    ensures Come(runs, ds, t, us) && us[0] == Next(o, b) && us[1] == Next(m, b) && us[2] == ps[2] && us[3] == Next(p, b)
    ensures Later(s, t) && Voted(t, 3, b)
  {
    var u, qs := LeadsFifth(runs, ds, s, ps, o, p, b);
    MovedOne(ps, qs, 3, Next(p, b));
    CertOkGrows(TheWorld(ds), s, u, o.high);
    var rs;
    t, rs, us := TwoFollow(runs, ds, u, qs, 3, 0, o, 1, m, 3, b);
    MovedOne(qs, rs, 0, Next(o, b));
    MovedOne(rs, us, 1, Next(m, b));
  }

  lemma {:induction false} FifthView(ds: seq<Hash>, f: Blocks, runs: iset<System>, s: System, ps: seq<Place>)
    returns (t: System, qs: seq<Place>)
    requires f.Valid() && ds == f.Digests() && Come(runs, ds, s, ps)
    requires ps[0] == After4(f, 5) && ps[1] == ps[2] == After4(f, 4) && ps[3] == First
    requires Quiet(s.nodes[3]) && Certifies(ds, s) && Voted(s, 2, f.b3)
    ensures Come(runs, ds, t, qs) && Voted(t, 3, f.x)
    ensures qs[0] == qs[3] == AfterX(f, 5) && qs[1] == AfterX(f, 4) && qs[2] == After4(f, 4)
  {
    DigestsAre(f, ds);
    CertReady(ds, s, 2, 2, f.b3, f.x.cert);
    LaterPlaces(f);
    assert f.x == OnLeaf(3, First.(view := 5), f.x.cert);
    t, qs := FifthRound(runs, ds, s, ps, After4(f, 5), After4(f, 4), First.(view := 5), f.x);
  }

  lemma {:induction false} PlanY(f: Blocks)
    requires f.Valid()
    ensures Plan(3, f.y.cert, AfterX(f, 5), Leading(AfterX(f, 5), f.y), f.y)
    ensures Next(Leading(AfterX(f, 5), f.y), f.y) == AfterY(f)
    ensures Votable(AfterX(f, 5), f.y) && Next(AfterX(f, 5), f.y) == AfterY(f)
    ensures Votable(AfterX(f, 4), f.y) && Next(AfterX(f, 4), f.y) == AfterY(f)
  {
    PlacesY(f, 5);
    PlacesY(f, 4);
  }

  lemma {:induction false} PlanZ(f: Blocks)
    requires f.Valid()
    ensures Plan(3, f.z.cert, AfterY(f), Leading(AfterY(f), f.z), f.z)
    ensures Next(Leading(AfterY(f), f.z), f.z) == AfterZ(f)
    ensures Votable(AfterY(f), f.z) && Next(AfterY(f), f.z) == AfterZ(f)
  {
    PlacesZ(f);
  }

  lemma {:induction false} PlanU(f: Blocks)
    requires f.Valid()
    ensures Plan(3, f.u.cert, AfterZ(f), Leading(AfterZ(f), f.u), f.u)
    ensures Next(Leading(AfterZ(f), f.u), f.u).log == [f.b1, f.x]
    ensures Votable(After4(f, 4), f.u) && Next(After4(f, 4), f.u).log == [f.x]
  {
    EndPlaces(f);
  }

  lemma {:induction false} SixthView(ds: seq<Hash>, f: Blocks, runs: iset<System>, s: System, ps: seq<Place>)
    returns (t: System, qs: seq<Place>)
    requires f.Valid() && ds == f.Digests() && Come(runs, ds, s, ps) && Voted(s, 3, f.x)
    requires ps[0] == ps[3] == AfterX(f, 5) && ps[1] == AfterX(f, 4)
    ensures Come(runs, ds, t, qs) && AllAt(ps, qs, 3, 0, 1, AfterY(f)) && Voted(t, 3, f.y)
  {
    var a, m, la := AfterX(f, 5), AfterX(f, 4), Leading(AfterX(f, 5), f.y);
    DigestsAre(f, ds);
    CertReady(ds, s, 3, 4, f.x, f.y.cert);
    PlanY(f);
    t, qs := Round(runs, ds, s, ps, 3, a, 0, a, 1, m, 3, f.y.cert, la, f.y, AfterY(f));
  }

  lemma {:induction false} SeventhView(ds: seq<Hash>, f: Blocks, runs: iset<System>, s: System, ps: seq<Place>)
    returns (t: System, qs: seq<Place>)
    requires f.Valid() && ds == f.Digests() && Come(runs, ds, s, ps) && Voted(s, 3, f.y)
    requires ps[0] == ps[1] == ps[3] == AfterY(f)
    ensures Come(runs, ds, t, qs) && AllAt(ps, qs, 3, 0, 1, AfterZ(f)) && Voted(t, 3, f.z)
  {
    var a, la := AfterY(f), Leading(AfterY(f), f.z);
    DigestsAre(f, ds);
    CertReady(ds, s, 3, 5, f.y, f.z.cert);
    PlanZ(f);
    t, qs := Round(runs, ds, s, ps, 3, a, 0, a, 1, a, 3, f.z.cert, la, f.z, AfterZ(f));
  }

  /** Replica 3 proposes the last block, and replica 2, which has missed the last views, receives it. */
  lemma {:induction false} LastRound(
      runs: iset<System>, ds: seq<Hash>, s: System, ps: seq<Place>, qc: QuorumCert, a: Place, la: Place, b: Block,
      p: Place)
    returns (t: System, rs: seq<Place>)
    requires Come(runs, ds, s, ps) && ps[3] == a && ps[2] == p && CertOk(TheWorld(ds), s, qc)
    requires FromVotes(TheWorld(ds), s, qc)
    requires Plan(3, qc, a, la, b) && Votable(p, b) && BlockHash(b) in ds
    ensures Come(runs, ds, t, rs) && rs[3] == Next(la, b) && rs[2] == Next(p, b)
  {
    var u, qs := Proposing(runs, ds, s, ps, 3, qc, a, la, b);
    CertOkGrows(TheWorld(ds), s, u, qc);
    MovedOne(ps, qs, 3, Next(la, b));
    t, rs := Follows(runs, ds, u, qs, 2, p, b);
    MovedOne(qs, rs, 2, Next(p, b));
  }

  lemma {:induction false} EighthView(ds: seq<Hash>, f: Blocks, runs: iset<System>, s: System, ps: seq<Place>)
    returns (t: System)
    requires f.Valid() && ds == f.Digests() && Come(runs, ds, s, ps) && Voted(s, 3, f.z)
    requires ps[3] == AfterZ(f) && ps[2] == After4(f, 4)
    ensures t in runs && 2 in t.nodes && 3 in t.nodes && t.nodes[3].executed == [f.b1, f.x]
    ensures t.nodes[2].executed == [f.x]
  {
    DigestsAre(f, ds);
    CertReady(ds, s, 3, 6, f.z, f.u.cert);
    PlanU(f);
    var qs;
    t, qs := LastRound(runs, ds, s, ps, f.u.cert, AfterZ(f), Leading(AfterZ(f), f.u), f.u, After4(f, 4));
  }

  lemma {:induction false} FirstViews(ds: seq<Hash>, f: Blocks, runs: iset<System>, s: System)
    returns (t: System, ps: seq<Place>)
    requires f.Valid() && ds == f.Digests() && Closed(TheWorld(ds), runs, true) && s in runs
    requires s == InitialSystem(TheWorld(ds))
    ensures Come(runs, ds, t, ps) && ps[0] == ps[1] == ps[2] == After3(f) && ps[3] == First
    ensures Voted(t, 2, f.b3) && forall i :: i in t.nodes ==> Quiet(t.nodes[i])
  {
    t, ps := FirstView(ds, f, runs, s);
    t, ps := SecondView(ds, f, runs, t, ps);
    t, ps := ThirdView(ds, f, runs, t, ps);
  }

  lemma {:induction false} LastViews(ds: seq<Hash>, f: Blocks, runs: iset<System>, s: System, ps: seq<Place>)
    returns (t: System)
    requires f.Valid() && ds == f.Digests() && Come(runs, ds, s, ps) && Voted(s, 3, f.x)
    requires ps[0] == ps[3] == AfterX(f, 5) && ps[1] == AfterX(f, 4) && ps[2] == After4(f, 4)
    ensures t in runs && 2 in t.nodes && 3 in t.nodes && t.nodes[3].executed == [f.b1, f.x]
    ensures t.nodes[2].executed == [f.x]
  {
    var qs;
    t, qs := SixthView(ds, f, runs, s, ps);
    t, qs := SeventhView(ds, f, runs, t, qs);
    t := EighthView(ds, f, runs, t, qs);
  }

  lemma {:induction false} MiddleViews(ds: seq<Hash>, f: Blocks, runs: iset<System>, s: System, ps: seq<Place>)
    returns (t: System, qs: seq<Place>)
    requires f.Valid() && ds == f.Digests() && Come(runs, ds, s, ps) && ps[0] == ps[1] == ps[2] == After3(f)
    requires ps[3] == First
    requires Voted(s, 2, f.b3) && forall i :: i in s.nodes ==> Quiet(s.nodes[i])
    ensures Come(runs, ds, t, qs) && Voted(t, 3, f.x)
    ensures qs[0] == qs[3] == AfterX(f, 5) && qs[1] == AfterX(f, 4) && qs[2] == After4(f, 4)
  {
    t, qs := FourthView(ds, f, runs, s, ps);
    t, qs := FifthView(ds, f, runs, t, qs);
  }

  lemma {:induction false} AllViews(ds: seq<Hash>, f: Blocks, runs: iset<System>, s: System) returns (t: System)
    requires f.Valid() && ds == f.Digests() && Closed(TheWorld(ds), runs, true) && s in runs
    requires s == InitialSystem(TheWorld(ds))
    ensures t in runs && 2 in t.nodes && 3 in t.nodes && t.nodes[3].executed == [f.b1, f.x]
    ensures t.nodes[2].executed == [f.x]
  {
    var u, ps := FirstViews(ds, f, runs, s);
    u, ps := MiddleViews(ds, f, runs, u, ps);
    t := LastViews(ds, f, runs, u, ps);
  }

  /** Under SimpleHotStuff and without any fault, two replicas can execute logs neither of which is a prefix of the
      other. */
  lemma {:induction false} LogsDiverge() returns (w: World, s: System, i: ID, j: ID)
    ensures ReachableCleanly(w, s) && w.rules.SimpleHotStuff? && i in s.nodes && j in s.nodes
    ensures !(s.nodes[i].executed <= s.nodes[j].executed) && !(s.nodes[j].executed <= s.nodes[i].executed)
  {
    var f := TheBlocks();
    var ds := f.Digests();
    var runs, s0 := Initially(ds);
    s := AllViews(ds, f, runs, s0);
    w, i, j := TheWorld(ds), 2, 3;
    assert f.b1 != f.x;
    assert s.nodes[j].executed[0] == f.b1 && s.nodes[i].executed[0] == f.x;
  }
}
