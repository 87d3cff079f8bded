/** Collection of votes into quorum certificates (consensus/votingmachine.go). */
module VotingMachines {
  import opened Types
  import opened Quorums
  import opened Crypto
  import opened Certificates

  /** What a voting machine has stored and announced. */
  datatype Votes = Votes(stored: map<Hash, seq<PartialCert>>, announced: seq<QuorumCert>)

  /** A vote that arrives while the leaf block is in view `leaf` and the blocks in `held` are held locally. A vote
      that has been deferred once makes the replica fetch its block, which succeeds or not. */
  datatype Vote = Vote(cert: PartialCert, held: set<Block>, leaf: View, deferred: bool, fetched: bool)
  {
    /** The blocks held once the block of the vote has been looked up. */
    function Blocks(): set<Block> {
      if deferred && fetched && cert.hash.BlockHash? then held + {cert.hash.block} else held
    }
  }

  function VotesFor(m: Votes, h: Hash): seq<PartialCert> {
    if h in m.stored then m.stored[h] else []
  }

  /** Votes for blocks that are unknown or not above the leaf block are dropped. */
  function Current(v: Vote, h: Hash): bool {
    h.BlockHash? && h.block in v.Blocks() && h.block.view > v.leaf
  }

  function CleanUp(m: Votes, v: Vote): Votes {
    m.(stored := map h | h in m.stored && Current(v, h) :: m.stored[h])
  }

  /** Adds a verified vote and announces a certificate if one can be made. */
  function Count(w: World, m: Votes, cert: PartialCert, block: Block): Votes {
    var votes := VotesFor(m, cert.hash) + [cert];
    var qc := if |votes| < w.Quorum() then None else CreateQC(w, block, votes);
    if qc.Some? then Votes(m.stored - {cert.hash}, m.announced + [qc.value])
    else m.(stored := m.stored[cert.hash := votes])
  }

  function Received(w: World, m: Votes, v: Vote): Votes {
    if !Current(v, v.cert.hash) || !Verify(w, v.cert.sig, v.cert.hash) then m
    else CleanUp(Count(w, m, v.cert, v.cert.hash.block), v)
  }

  class VotingMachine {
    var verifiedVotes: map<Hash, seq<PartialCert>>
    var announced: seq<QuorumCert>

    ghost function Value(): Votes
      reads this
    {
      Votes(verifiedVotes, announced)
    }

    constructor ()
      ensures Value() == Votes(map[], [])
    {
      verifiedVotes, announced := map[], [];
    }

    method OnVote(w: World, v: Vote)
      modifies this
      ensures Value() == Received(w, old(Value()), v)
    {
      if !v.cert.hash.BlockHash? {
        return;
      }
      var block := v.cert.hash.block;
      if !v.deferred {
        if block !in v.held {
          return;
        }
      } else if block !in v.held && !v.fetched {
        return;
      }
      if block.view <= v.leaf {
        return;
      }
      VerifyCert(w, v, block);
    }

    method VerifyCert(w: World, v: Vote, block: Block)
      requires v.cert.hash == BlockHash(block)
      modifies this
      ensures Value() == if !Verify(w, v.cert.sig, v.cert.hash) then old(Value())
                         else CleanUp(Count(w, old(Value()), v.cert, block), v)
    {
      if !Verify(w, v.cert.sig, v.cert.hash) {
        return;
      }
      var votes := if v.cert.hash in verifiedVotes then verifiedVotes[v.cert.hash] else [];
      votes := votes + [v.cert];
      verifiedVotes := verifiedVotes[v.cert.hash := votes];
      if |votes| >= w.Quorum() {
        var qc := CreateQC(w, block, votes);
        if qc.Some? {
          verifiedVotes := verifiedVotes - {v.cert.hash};
          announced := announced + [qc.value];
        }
      }
      assert Value() == Count(w, old(Value()), v.cert, block);
      DropOld(v);
    }

    method DropOld(v: Vote)
      modifies this`verifiedVotes
      ensures Value() == CleanUp(old(Value()), v)
    {
      var hashes := verifiedVotes.Keys;
      while hashes != {}
        invariant hashes <= old(verifiedVotes).Keys
        invariant forall h :: h in verifiedVotes <==> h in old(verifiedVotes) && (h in hashes || Current(v, h))
        invariant forall h :: h in verifiedVotes ==> verifiedVotes[h] == old(verifiedVotes)[h]
        decreases hashes
      {
        var h :| h in hashes;
        if h.BlockHash? && h.block in v.Blocks() {
          if h.block.view <= v.leaf {
            verifiedVotes := verifiedVotes - {h};
          }
        } else {
          verifiedVotes := verifiedVotes - {h};
        }
        hashes := hashes - {h};
      }
    }
  }

  // ---- what the machine computes ----

  /** The machine with sets of signers in place of lists of votes. */
  datatype Tally = Tally(signers: map<Hash, set<ID>>, announced: seq<Hash>)

  /** Adds a signer, and announces the block when its signers are a quorum. */
  function Counted(w: World, t: Tally, cert: PartialCert): Tally {
    var ids := (if cert.hash in t.signers then t.signers[cert.hash] else {}) + {cert.sig.signer};
    if |ids| >= w.Quorum() then Tally(t.signers - {cert.hash}, t.announced + [cert.hash])
    else t.(signers := t.signers[cert.hash := ids])
  }

  function Kept(t: Tally, v: Vote): Tally {
    t.(signers := map h | h in t.signers && Current(v, h) :: t.signers[h])
  }

  function TallyVote(w: World, t: Tally, v: Vote): Tally {
    if !Current(v, v.cert.hash) || !Verify(w, v.cert.sig, v.cert.hash) then t else Kept(Counted(w, t, v.cert), v)
  }

  function SignersOf(votes: seq<PartialCert>): set<ID> {
    set k | 0 <= k < |votes| :: votes[k].sig.signer
  }

  ghost function Abstract(m: Votes): Tally {
    Tally(map h | h in m.stored :: SignersOf(m.stored[h]),
          seq(|m.announced|, k requires 0 <= k < |m.announced| => m.announced[k].hash))
  }

  ghost predicate GoodVotes(w: World, h: Hash, votes: seq<PartialCert>) {
    forall k :: 0 <= k < |votes| ==> Verify(w, votes[k].sig, h)
  }

  /** No stored list holds votes of a quorum, and every announced certificate holds those of one and verifies. */
  ghost predicate VotesInv(w: World, m: Votes) {
    && (forall h :: h in m.stored ==> GoodVotes(w, h, m.stored[h]) && |SignersOf(m.stored[h])| < w.Quorum())
    && (forall qc :: qc in m.announced ==> GoodQC(w, qc))
  }

  ghost predicate GoodQC(w: World, qc: QuorumCert) {
    && VerifyQC(w, qc) && qc.sig.Some? && |qc.sig.value| >= w.Quorum()
    && qc.hash.BlockHash? && qc.view == qc.hash.block.view
  }

  lemma SignersAreSigners(w: World, h: Hash, votes: seq<PartialCert>)
    requires GoodVotes(w, h, votes)
    ensures Signers(w, CertSigs(votes), Uniform(w, h)) == SignersOf(votes)
  {
    var sigs := CertSigs(votes);
    forall id | id in SignersOf(votes) ensures id in Signers(w, sigs, Uniform(w, h)) {
      var k :| 0 <= k < |votes| && votes[k].sig.signer == id;
      assert sigs[k] == votes[k].sig && sigs[k] in sigs;
    }
  }

  lemma SignersAppend(votes: seq<PartialCert>, cert: PartialCert)
    ensures SignersOf(votes + [cert]) == SignersOf(votes) + {cert.sig.signer}
  {
    var more := votes + [cert];
    assert more[|votes|] == cert;
    forall id | id in SignersOf(votes) ensures id in SignersOf(more) {
      var k :| 0 <= k < |votes| && votes[k].sig.signer == id;
      assert more[k] == votes[k];
    }
  }

  lemma {:induction false} SignersBound(votes: seq<PartialCert>)
    ensures |SignersOf(votes)| <= |votes|
  {
    if votes != [] {
      var init := votes[..|votes| - 1];
      SignersBound(init);
      SignersAppend(init, votes[|votes| - 1]);
      assert votes == init + [votes[|votes| - 1]];
    }
  }

  /** A certificate can be made exactly of votes whose distinct signers are a quorum. */
  lemma CreateQCExactly(w: World, b: Block, votes: seq<PartialCert>)
    requires b != Genesis && GoodVotes(w, BlockHash(b), votes)
    ensures CreateQC(w, b, votes).Some? <==> |SignersOf(votes)| >= w.Quorum()
    ensures CreateQC(w, b, votes).Some? ==>
      GoodQC(w, CreateQC(w, b, votes).value) && CreateQC(w, b, votes).value.hash == BlockHash(b)
  {
    SignersAreSigners(w, BlockHash(b), votes);
    CreateThresholdIff(w, CertSigs(votes), BlockHash(b));
  }

  function Grouped(m: Votes, cert: PartialCert): seq<PartialCert> {
    VotesFor(m, cert.hash) + [cert]
  }

  lemma GroupedVotes(w: World, m: Votes, cert: PartialCert)
    requires VotesInv(w, m) && Verify(w, cert.sig, cert.hash)
    ensures GoodVotes(w, cert.hash, Grouped(m, cert))
    ensures SignersOf(Grouped(m, cert)) == SignersOf(VotesFor(m, cert.hash)) + {cert.sig.signer}
  {
    SignersAppend(VotesFor(m, cert.hash), cert);
  }

  /** A vote makes the machine announce a certificate exactly when the distinct signers of the votes reach a quorum. */
  lemma {:induction false} CountExactly(w: World, m: Votes, cert: PartialCert, block: Block)
    requires VotesInv(w, m) && cert.hash == BlockHash(block) && block != Genesis && Verify(w, cert.sig, cert.hash)
    ensures var votes := Grouped(m, cert);
      var qc := CreateQC(w, block, votes);
      if |SignersOf(votes)| >= w.Quorum()
      then qc.Some? && GoodQC(w, qc.value) && qc.value.hash == cert.hash
           && Count(w, m, cert, block) == Votes(m.stored - {cert.hash}, m.announced + [qc.value])
      else Count(w, m, cert, block) == m.(stored := m.stored[cert.hash := votes])
  {
    GroupedVotes(w, m, cert);
    SignersBound(Grouped(m, cert));
    CreateQCExactly(w, block, Grouped(m, cert));
  }

  lemma {:induction false} CountKeeps(w: World, m: Votes, cert: PartialCert, block: Block)
    requires VotesInv(w, m) && cert.hash == BlockHash(block) && block != Genesis && Verify(w, cert.sig, cert.hash)
    ensures VotesInv(w, Count(w, m, cert, block))
  {
    GroupedVotes(w, m, cert);
    CountExactly(w, m, cert, block);
  }

  lemma AnnounceRefines(m: Votes, h: Hash, qc: QuorumCert)
    requires qc.hash == h
    ensures Abstract(Votes(m.stored - {h}, m.announced + [qc]))
         == Tally(Abstract(m).signers - {h}, Abstract(m).announced + [h])
  {
    var r := Abstract(Votes(m.stored - {h}, m.announced + [qc]));
    assert r.signers == Abstract(m).signers - {h};
    assert r.announced == Abstract(m).announced + [h];
  }

  lemma StoreRefines(m: Votes, h: Hash, votes: seq<PartialCert>)
    ensures Abstract(m.(stored := m.stored[h := votes]))
         == Abstract(m).(signers := Abstract(m).signers[h := SignersOf(votes)])
  {
    assert Abstract(m.(stored := m.stored[h := votes])).signers == Abstract(m).signers[h := SignersOf(votes)];
  }

  lemma CountRefines(w: World, m: Votes, cert: PartialCert, block: Block)
    requires VotesInv(w, m) && cert.hash == BlockHash(block) && block != Genesis && Verify(w, cert.sig, cert.hash)
    ensures Abstract(Count(w, m, cert, block)) == Counted(w, Abstract(m), cert)
  {
    var votes := Grouped(m, cert);
    GroupedVotes(w, m, cert);
    CountExactly(w, m, cert, block);
    assert SignersOf([]) == {};
    if |SignersOf(votes)| >= w.Quorum() {
      AnnounceRefines(m, cert.hash, CreateQC(w, block, votes).value);
    } else {
      StoreRefines(m, cert.hash, votes);
    }
  }

  lemma CleanUpRefines(w: World, m: Votes, v: Vote)
    requires VotesInv(w, m)
    ensures VotesInv(w, CleanUp(m, v))
    ensures Abstract(CleanUp(m, v)) == Kept(Abstract(m), v)
  {
    assert Abstract(CleanUp(m, v)).signers == Kept(Abstract(m), v).signers;
  }

  /** Storing repeated votes makes no difference: the machine does what the machine with sets of signers does. */
  lemma ReceivedRefines(w: World, m: Votes, v: Vote)
    requires VotesInv(w, m)
    ensures VotesInv(w, Received(w, m, v)) && Abstract(Received(w, m, v)) == TallyVote(w, Abstract(m), v)
  {
    if Current(v, v.cert.hash) && Verify(w, v.cert.sig, v.cert.hash) {
      CountKeeps(w, m, v.cert, v.cert.hash.block);
      CountRefines(w, m, v.cert, v.cert.hash.block);
      CleanUpRefines(w, Count(w, m, v.cert, v.cert.hash.block), v);
    }
  }

  function AfterVotes(w: World, vs: seq<Vote>): Votes {
    if vs == [] then Votes(map[], []) else Received(w, AfterVotes(w, vs[..|vs| - 1]), vs[|vs| - 1])
  }

  function AfterTallies(w: World, vs: seq<Vote>): Tally {
    if vs == [] then Tally(map[], []) else TallyVote(w, AfterTallies(w, vs[..|vs| - 1]), vs[|vs| - 1])
  }

  /** Over every sequence of votes: at rest no list holds a quorum of signers, every announced certificate verifies, and
      certificates are announced for the same blocks, in the same order, as by the machine with sets of signers. */
  lemma {:induction false} VoteCollection(w: World, vs: seq<Vote>)
    ensures VotesInv(w, AfterVotes(w, vs)) && Abstract(AfterVotes(w, vs)) == AfterTallies(w, vs)
  {
    if vs != [] {
      VoteCollection(w, vs[..|vs| - 1]);
      ReceivedRefines(w, AfterVotes(w, vs[..|vs| - 1]), vs[|vs| - 1]);
    }
  }

  // ---- when a certificate is announced ----

  /** The replicas whose votes for `h` are among `vs` and verify. */
  function Voters(w: World, vs: seq<Vote>, h: Hash): set<ID> {
    set k | 0 <= k < |vs| && vs[k].cert.hash == h && Verify(w, vs[k].cert.sig, h) :: vs[k].cert.sig.signer
  }

  /** Whenever a vote arrives, the block is held and above the leaf block. */
  ghost predicate StaysOpen(vs: seq<Vote>, b: Block) {
    forall k :: 0 <= k < |vs| ==> b in vs[k].held && vs[k].leaf < b.view
  }

  lemma {:induction false} VotersAppend(w: World, vs: seq<Vote>, h: Hash)
    requires vs != []
    ensures var v := vs[|vs| - 1];
      Voters(w, vs, h) == Voters(w, vs[..|vs| - 1], h)
        + if v.cert.hash == h && Verify(w, v.cert.sig, h) then {v.cert.sig.signer} else {}
  {
    var init, v := vs[..|vs| - 1], vs[|vs| - 1];
    var last := if v.cert.hash == h && Verify(w, v.cert.sig, h) then {v.cert.sig.signer} else {};
    forall id | id in Voters(w, vs, h) ensures id in Voters(w, init, h) + last {
      var k :| 0 <= k < |vs| && vs[k].cert.hash == h && Verify(w, vs[k].cert.sig, h) && vs[k].cert.sig.signer == id;
      assert k == |init| || init[k] == vs[k];
    }
    forall id | id in Voters(w, init, h) ensures id in Voters(w, vs, h) {
      var k :| 0 <= k < |init| && init[k].cert.hash == h && Verify(w, init[k].cert.sig, h)
        && init[k].cert.sig.signer == id;
      assert vs[k] == init[k];
    }
  }

  function SignersFor(t: Tally, h: Hash): set<ID> {
    if h in t.signers then t.signers[h] else {}
  }

  /** One vote, as far as an open block is concerned. */
  lemma {:induction false} TallyStep(w: World, t: Tally, v: Vote, b: Block)
    requires b in v.held && v.leaf < b.view
    ensures var r, h := TallyVote(w, t, v), BlockHash(b);
      var ids := SignersFor(t, h) + {v.cert.sig.signer};
      if v.cert.hash != h || !Verify(w, v.cert.sig, h)
      then SignersFor(r, h) == SignersFor(t, h) && (h in r.announced <==> h in t.announced)
      else if |ids| < w.Quorum() then SignersFor(r, h) == ids && (h in r.announced <==> h in t.announced)
      else h in r.announced
    ensures t.announced <= TallyVote(w, t, v).announced
  {
    assert Current(v, BlockHash(b));
  }

  /** Up to a quorum the voters for an open block are on file, and from then on the block has been announced. */
  lemma {:induction false} TalliedExactly(w: World, vs: seq<Vote>, b: Block)
    requires StaysOpen(vs, b) && w.Quorum() > 0
    ensures var t, h := AfterTallies(w, vs), BlockHash(b);
      if |Voters(w, vs, h)| < w.Quorum() then h !in t.announced && SignersFor(t, h) == Voters(w, vs, h)
      else h in t.announced
  {
    var h := BlockHash(b);
    if vs == [] {
      assert Voters(w, vs, h) == {};
    } else {
      var init := vs[..|vs| - 1];
      assert StaysOpen(init, b);
      TalliedExactly(w, init, b);
      VotersAppend(w, vs, h);
      TallyStep(w, AfterTallies(w, init), vs[|vs| - 1], b);
      CardinalitySubset(Voters(w, init, h), Voters(w, vs, h));
    }
  }

  /** While a block is held and above the leaf block, a certificate for it is announced exactly when votes for it by a
      quorum of distinct replicas have arrived that verify; whatever else arrives in between. */
  lemma {:induction false} AnnouncedExactly(w: World, vs: seq<Vote>, b: Block)
    requires StaysOpen(vs, b) && w.replicas != {}
    ensures (exists qc :: qc in AfterVotes(w, vs).announced && qc.hash == BlockHash(b)) <==>
      |Voters(w, vs, BlockHash(b))| >= w.Quorum()
  {
    VoteCollection(w, vs);
    TalliedExactly(w, vs, b);
    var qcs, hs := AfterVotes(w, vs).announced, AfterTallies(w, vs).announced;
    assert |qcs| == |hs| && forall k :: 0 <= k < |qcs| ==> hs[k] == qcs[k].hash;
    if BlockHash(b) in hs {
      var k :| 0 <= k < |hs| && hs[k] == BlockHash(b);
      assert qcs[k] in qcs && qcs[k].hash == BlockHash(b);
    }
  }
}
