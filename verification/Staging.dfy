/** Worlds of four replicas for runs that are constructed: what signatures are for is fixed beforehand, and everything
    can be fetched. */
module Staging {
  import opened Types
  import opened Quorums
  import opened Crypto
  import opened Bytes
  import opened Handlers
  import opened History
  import opened Protocol
  import opened Invariant
  import opened FaultFree

  // ---- worlds and surroundings ----

  /** The integer `r` of a signature is the position in `ds` of the digest it is for. */
  predicate SignedAt(ds: seq<Hash>, sig: Signature, h: Hash) {
    sig.r < |ds| && h == ds[sig.r]
  }

  function FourReplicas(rules: Rules, faulty: set<ID>, ds: seq<Hash>): World {
    World(rules, {0, 1, 2, 3}, faulty, (sig, h) => SignedAt(ds, sig, h))
  }

  ghost function SignIn(ds: seq<Hash>, i: ID, h: Hash): Option<Signature> {
    if h in ds then Some(Signature(Position(ds, h), 0, i)) else None
  }

  /** All blocks can be fetched, and the same command is always queued, or none. */
  ghost function Surroundings(w: World, ds: seq<Hash>, i: ID, leader: View -> ID, command: Option<Command>): Env {
    Env(w, i, leader, h => true, cmd => true, v => command, h => SignIn(ds, i, h), s => SortedIDs(s))
  }

  lemma {:induction false} FourAreValid(rules: Rules, faulty: set<ID>, ds: seq<Hash>)
    requires faulty <= {3}
    ensures FourReplicas(rules, faulty, ds).Valid() && FourReplicas(rules, faulty, ds).Quorum() == 3
  {
    var replicas: set<ID>, one: set<ID> := {0, 1, 2, 3}, {3};
    assert |replicas| == 4 && |one| == 1;
    CardinalitySubset(faulty, one);
  }

  lemma {:induction false} SurroundingsOrder(
      w: World, ds: seq<Hash>, i: ID, leader: View -> ID, command: Option<Command>)
    ensures Surroundings(w, ds, i, leader, command).Valid()
  {
    forall s ensures Enumerates(Surroundings(w, ds, i, leader, command).order(s), s) {
      SortedIDsEnumerates(s);
    }
  }

  lemma {:induction false} SurroundingsSign(
      rules: Rules, faulty: set<ID>, ds: seq<Hash>, i: ID, leader: View -> ID, command: Option<Command>)
    ensures var w := FourReplicas(rules, faulty, ds); SignsOwn(w, Surroundings(w, ds, i, leader, command))
  {
  }

  // ---- certificates ----

  /** A certificate with the signatures of replicas 0, 1 and `c` for the block at position `k`. */
  function Cert(c: ID, k: nat, b: Block): QuorumCert {
    var sig: ThresholdSignature := map[0 := Signature(k, 0, 0), 1 := Signature(k, 0, 1), c := Signature(k, 0, c)];
    QuorumCert(Some(sig), b.view, BlockHash(b))
  }

  predicate Third(c: ID) {
    c == 2 || c == 3
  }

  lemma {:induction false} CertVerifies(rules: Rules, faulty: set<ID>, ds: seq<Hash>, c: ID, k: nat, b: Block)
    requires faulty <= {3} && Third(c) && k < |ds| && ds[k] == BlockHash(b)
    ensures VerifyQC(FourReplicas(rules, faulty, ds), Cert(c, k, b))
  {
    FourAreValid(rules, faulty, ds);
    var w, sig := FourReplicas(rules, faulty, ds), Cert(c, k, b).sig.value;
    var verified := Verified(w, sig, Uniform(w, BlockHash(b)));
    assert Verify(w, sig[0], BlockHash(b)) && Verify(w, sig[1], BlockHash(b)) && Verify(w, sig[c], BlockHash(b));
    var three: set<ID> := {0, 1, c};
    assert |three| == 3;
    CardinalitySubset(three, verified);
  }

  /** Replicas 0, 1 and `c` have voted for `b`. */
  ghost predicate Voted(s: System, c: ID, b: Block) {
    SignedBy(s.hist, 0, BlockHash(b)) && SignedBy(s.hist, 1, BlockHash(b)) && SignedBy(s.hist, c, BlockHash(b))
  }

  /** A certificate that verifies and may be delivered. */
  ghost predicate CertOk(w: World, s: System, qc: QuorumCert) {
    VerifyQC(w, qc) && LegitThreshold(w, s.hist, qc.sig)
  }

  lemma {:induction false} CertIsOk(
      rules: Rules, faulty: set<ID>, ds: seq<Hash>, s: System, c: ID, k: nat, b: Block)
    requires faulty <= {3} && Third(c) && k < |ds| && ds[k] == BlockHash(b) && Voted(s, c, b)
    ensures CertOk(FourReplicas(rules, faulty, ds), s, Cert(c, k, b))
  {
    CertVerifies(rules, faulty, ds, c, k, b);
  }

  /** The vote of replica `i` for the block at position `k`. */
  function Vote(k: nat, i: ID, b: Block): PartialCert {
    PartialCert(Signature(k, 0, i), BlockHash(b))
  }

  function VotesOf(c: ID, k: nat, b: Block): seq<PartialCert> {
    [Vote(k, 0, b), Vote(k, 1, b), Vote(k, c, b)]
  }

  lemma {:induction false} VotesAreCollected(
      rules: Rules, faulty: set<ID>, ds: seq<Hash>, c: ID, k: nat, b: Block)
    requires Third(c) && k < |ds| && ds[k] == BlockHash(b)
    ensures var w := FourReplicas(rules, faulty, ds);
      Collect(w, [Signature(k, 0, 0), Signature(k, 0, 1), Signature(k, 0, c)], Uniform(w, BlockHash(b)))
      == Cert(c, k, b).sig.value
  {
    var w := FourReplicas(rules, faulty, ds);
    var h := Uniform(w, BlockHash(b));
    var s1, s2 := [Signature(k, 0, 0)], [Signature(k, 0, 0), Signature(k, 0, 1)];
    var s3 := [Signature(k, 0, 0), Signature(k, 0, 1), Signature(k, 0, c)];
    assert s3[..2] == s2 && s2[..1] == s1 && s1[..0] == [];
    assert Collect(w, s1, h) == map[0 := Signature(k, 0, 0)];
    assert Collect(w, s2, h) == map[0 := Signature(k, 0, 0), 1 := Signature(k, 0, 1)];
  }

  lemma {:induction false} CertIsCreated(rules: Rules, faulty: set<ID>, ds: seq<Hash>, c: ID, k: nat, b: Block)
    requires faulty <= {3} && Third(c) && k < |ds| && ds[k] == BlockHash(b) && b != Genesis
    ensures CreateQC(FourReplicas(rules, faulty, ds), b, VotesOf(c, k, b)) == Some(Cert(c, k, b))
  {
    FourAreValid(rules, faulty, ds);
    VotesAreCollected(rules, faulty, ds, c, k, b);
    assert CertSigs(VotesOf(c, k, b)) == [Signature(k, 0, 0), Signature(k, 0, 1), Signature(k, 0, c)];
    assert |Cert(c, k, b).sig.value| == 3;
  }

  /** The certificate is one that can be made of these votes. */
  lemma {:induction false} CertIsMade(
      rules: Rules, faulty: set<ID>, ds: seq<Hash>, s: System, c: ID, k: nat, b: Block)
    requires faulty <= {3} && Third(c) && k < |ds| && ds[k] == BlockHash(b) && b != Genesis && Voted(s, c, b)
    ensures FromVotes(FourReplicas(rules, faulty, ds), s, Cert(c, k, b))
  {
    CertIsCreated(rules, faulty, ds, c, k, b);
    assert MadeOf(FourReplicas(rules, faulty, ds), s, Cert(c, k, b), b, VotesOf(c, k, b));
  }

  // ---- runs ----

  /** A set of states that is closed under steps, or under genuine ones. */
  ghost predicate Closed(w: World, runs: iset<System>, genuine: bool) {
    forall s, st :: s in runs && StepOk(w, s, st) && (genuine ==> Genuine(w, s, st.event)) ==> Apply(s, st) in runs
  }

  /** `t` comes after `s`: nothing signed, proposed or committed is lost. */
  ghost predicate Later(s: System, t: System) {
    && s.hist <= t.hist && s.nodes.Keys == t.nodes.Keys
    && forall i :: i in s.nodes ==>
         s.nodes[i].proposals <= t.nodes[i].proposals && s.nodes[i].commits <= t.nodes[i].commits
  }

  lemma {:induction false} VotedGrows(s: System, t: System, c: ID, b: Block)
    requires Later(s, t) && Voted(s, c, b)
    ensures Voted(t, c, b)
  {
    SignedGrows(s.hist, t.hist, 0, BlockHash(b));
    SignedGrows(s.hist, t.hist, 1, BlockHash(b));
    SignedGrows(s.hist, t.hist, c, BlockHash(b));
  }

  lemma {:induction false} CertOkGrows(w: World, s: System, t: System, qc: QuorumCert)
    requires CertOk(w, s, qc) && Later(s, t)
    ensures CertOk(w, t, qc)
  {
    if qc.sig.Some? {
      forall id | id in qc.sig.value ensures Legit(w, t.hist, qc.sig.value[id]) {
        LegitGrows(w, s.hist, t.hist, qc.sig.value[id]);
      }
    }
  }
}
