/** Histories of what non-faulty replicas have signed, the certificates that can exist because of them, and the
    facts all rule sets share. */
module History {
  import opened Types
  import opened Quorums
  import opened Handlers

  /** One replica signs one thing. A history lists such acts of the non-faulty replicas in the order in which they
      happened; faulty replicas may have signed anything. */
  datatype Act = Act(id: ID, what: What)

  predicate Signs(a: What, h: Hash) {
    match a
    case VoteFor(p) => h == BlockHash(p.block)
    case TimedOut(t) => h == ViewHash(t.view) || (t.msgSig.Some? && h == t.Hash())
  }

  function ViewOf(a: What): View {
    match a
    case VoteFor(p) => p.block.view
    case TimedOut(t) => t.view
  }

  ghost predicate SignedBy(hist: seq<Act>, i: ID, h: Hash) {
    exists k :: 0 <= k < |hist| && hist[k].id == i && Signs(hist[k].what, h)
  }

  ghost predicate CertifiedBy(w: World, hist: seq<Act>, h: Hash, q: set<ID>) {
    w.IsQuorum(q) && forall i :: i in q && i !in w.faulty ==> SignedBy(hist, i, h)
  }

  /** A verifying certificate for `h` can exist: `h` is the genesis digest, or a quorum has signed it. */
  ghost predicate Certified(w: World, hist: seq<Act>, h: Hash) {
    h == GenesisHash || exists q :: CertifiedBy(w, hist, h, q)
  }

  /** The k-th act is a vote of replica `i`. */
  predicate IsVote(hist: seq<Act>, k: nat, i: ID) {
    k < |hist| && hist[k].id == i && hist[k].what.VoteFor?
  }

  function VotedBlock(hist: seq<Act>, k: nat): Block
    requires k < |hist| && hist[k].what.VoteFor?
  {
    hist[k].what.p.block
  }

  /** Everything replica `i` signed belongs to views below `v`. */
  ghost predicate AllBelow(hist: seq<Act>, i: ID, v: View) {
    forall k :: 0 <= k < |hist| && hist[k].id == i ==> ViewOf(hist[k].what) < v
  }

  /** The view of the block named by the certificate of `b`, 0 if it names none. */
  function CertHeight(b: Block): View {
    if Justified(b).Some? then Justified(b).value.view else 0
  }

  /** The view of the block two certificates below `b`, 0 if there is none. */
  function LockHeight(b: Block): View {
    if Justified(b).Some? then CertHeight(Justified(b).value) else 0
  }

  /** `v` is at least the height of every block certified by a block that `i` voted for. */
  ghost predicate CoversCerts(hist: seq<Act>, i: ID, v: View) {
    forall k :: IsVote(hist, k, i) ==> CertHeight(VotedBlock(hist, k)) <= v
  }

  /** `v` is at least the height on which every vote of `i` locked it. */
  ghost predicate CoversLocks(hist: seq<Act>, i: ID, v: View) {
    forall k :: IsVote(hist, k, i) ==> LockHeight(VotedBlock(hist, k)) <= v
  }

  /** A vote that respects a lock on `l`. */
  ghost predicate RespectsLock(w: World, hist: seq<Act>, i: ID, b: Block, l: Block) {
    && Certified(w, hist, BlockHash(l))
    && CoversLocks(hist, i, l.view)
    && (if w.rules.SimpleHotStuff? then Justified(b).Some? && CertHeight(b) >= l.view
        else (Justified(b).Some? && CertHeight(b) > l.view) || ParentExtends(b, l))
  }

  /** Replica `j` signed a timeout message for `agg.view` that carries the certificate `agg` has for it. */
  ghost predicate Contributed(hist: seq<Act>, agg: AggregateQC, j: ID) {
    j in agg.qcs && SignedBy(hist, j, TimeoutHash(agg.view, Some(agg.qcs[j].hash), j))
  }

  /** `agg` collects timeout messages of a quorum, and `qc` has the largest view field of its certificates. */
  ghost predicate BackedBy(w: World, hist: seq<Act>, agg: AggregateQC, qc: QuorumCert, q: set<ID>) {
    && w.IsQuorum(q)
    && (forall j :: j in q && j !in w.faulty ==> Contributed(hist, agg, j))
    && (forall j :: j in agg.qcs ==> agg.qcs[j].view <= qc.view)
  }

  ghost predicate FollowsRule(w: World, hist: seq<Act>, i: ID, p: ProposeMsg) {
    if w.rules.FastHotStuff? then
      if p.aggQC.Some? then exists q :: BackedBy(w, hist, p.aggQC.value, p.block.cert, q)
      else p.block.view == p.block.cert.view + 1
    else exists l :: RespectsLock(w, hist, i, p.block, l)
  }

  /** An act that a non-faulty replica may append to `hist`. */
  ghost predicate GoodAct(w: World, hist: seq<Act>, i: ID, a: What) {
    w.Honest(i) &&
    match a
    case VoteFor(p) =>
      && p.block.view > 0
      && AllBelow(hist, i, p.block.view)
      && Certified(w, hist, p.block.cert.hash)
      && FollowsRule(w, hist, i, p)
    case TimedOut(t) =>
      && t.id == i
      && t.syncInfo.qc.Some?
      && t.syncInfo.qc.value.hash.BlockHash?
      && Certified(w, hist, t.syncInfo.qc.value.hash)
      && CoversCerts(hist, i, t.syncInfo.qc.value.hash.block.view)
  }

  ghost predicate GoodHistory(w: World, hist: seq<Act>) {
    forall k :: 0 <= k < |hist| ==> GoodAct(w, hist[..k], hist[k].id, hist[k].what)
  }

  // ---- growing histories ----

  lemma GoodPrefix(w: World, hist: seq<Act>, m: nat)
    requires GoodHistory(w, hist) && m <= |hist|
    ensures GoodHistory(w, hist[..m])
  {
    forall k | 0 <= k < m ensures GoodAct(w, hist[..m][..k], hist[..m][k].id, hist[..m][k].what) {
      assert hist[..m][..k] == hist[..k];
    }
  }

  lemma GoodAppend(w: World, hist: seq<Act>, i: ID, a: What)
    requires GoodHistory(w, hist) && GoodAct(w, hist, i, a)
    ensures GoodHistory(w, hist + [Act(i, a)])
  {
    var next := hist + [Act(i, a)];
    forall k | 0 <= k < |next| ensures GoodAct(w, next[..k], next[k].id, next[k].what) {
      assert next[..k] == hist[..k];
      assert hist[..|hist|] == hist;
    }
  }

  lemma SignedGrows(hist: seq<Act>, more: seq<Act>, i: ID, h: Hash)
    requires hist <= more && SignedBy(hist, i, h)
    ensures SignedBy(more, i, h)
  {
    var k :| 0 <= k < |hist| && hist[k].id == i && Signs(hist[k].what, h);
    assert more[k] == hist[k];
  }

  lemma CertifiedGrows(w: World, hist: seq<Act>, more: seq<Act>, h: Hash)
    requires hist <= more && Certified(w, hist, h)
    ensures Certified(w, more, h)
  {
    if h != GenesisHash {
      var q :| CertifiedBy(w, hist, h, q);
      forall i | i in q && i !in w.faulty ensures SignedBy(more, i, h) {
        SignedGrows(hist, more, i, h);
      }
      assert CertifiedBy(w, more, h, q);
    }
  }

  // ---- votes behind certificates ----

  /** If a block other than genesis is certified, every quorum holds a non-faulty replica that voted for it. */
  lemma VoterIn(w: World, hist: seq<Act>, b: Block, q: set<ID>) returns (i: ID, k: nat)
    requires w.Valid() && w.IsQuorum(q) && b != Genesis && Certified(w, hist, BlockHash(b))
    ensures i in q && w.Honest(i) && IsVote(hist, k, i) && VotedBlock(hist, k) == b
  {
    var q' :| CertifiedBy(w, hist, BlockHash(b), q');
    i := HonestInBoth(w, q, q');
    assert SignedBy(hist, i, BlockHash(b));
    k :| 0 <= k < |hist| && hist[k].id == i && Signs(hist[k].what, BlockHash(b));
  }

  /** Some non-faulty replica voted for both of two certified blocks. */
  lemma CommonVoter(w: World, h1: seq<Act>, b1: Block, h2: seq<Act>, b2: Block) returns (i: ID, k1: nat, k2: nat)
    requires w.Valid() && b1 != Genesis && b2 != Genesis
    requires Certified(w, h1, BlockHash(b1)) && Certified(w, h2, BlockHash(b2))
    ensures w.Honest(i)
    ensures IsVote(h1, k1, i) && VotedBlock(h1, k1) == b1
    ensures IsVote(h2, k2, i) && VotedBlock(h2, k2) == b2
  {
    var q :| CertifiedBy(w, h1, BlockHash(b1), q);
    i, k2 := VoterIn(w, h2, b2, q);
    assert SignedBy(h1, i, BlockHash(b1));
    k1 :| 0 <= k1 < |h1| && h1[k1].id == i && Signs(h1[k1].what, BlockHash(b1));
  }

  lemma SomeVote(w: World, hist: seq<Act>, b: Block) returns (i: ID, k: nat)
    requires w.Valid() && GoodHistory(w, hist) && b != Genesis && Certified(w, hist, BlockHash(b))
    ensures w.Honest(i) && IsVote(hist, k, i) && VotedBlock(hist, k) == b
    ensures GoodAct(w, hist[..k], i, hist[k].what)
  {
    var q :| CertifiedBy(w, hist, BlockHash(b), q);
    i, k := VoterIn(w, hist, b, q);
  }

  /** A replica signs for larger and larger views: what it signs before a vote is for a smaller view. */
  lemma EarlierIsBelow(w: World, hist: seq<Act>, i: ID, j: nat, k: nat)
    requires GoodHistory(w, hist) && j < k && IsVote(hist, k, i) && hist[j].id == i
    ensures ViewOf(hist[j].what) < VotedBlock(hist, k).view
  {
    assert hist[..k][j] == hist[j];
  }

  /** What a replica signs for the view of a vote or a later one, it signs no earlier than that vote. */
  lemma NotEarlier(w: World, hist: seq<Act>, i: ID, j: nat, k: nat)
    requires GoodHistory(w, hist) && IsVote(hist, k, i) && j < |hist| && hist[j].id == i
    requires ViewOf(hist[j].what) >= VotedBlock(hist, k).view
    ensures j >= k
  {
    if j < k {
      EarlierIsBelow(w, hist, i, j, k);
    }
  }

  /** At most one block is certified in each view. */
  lemma OneCertifiedPerView(w: World, hist: seq<Act>, b1: Block, b2: Block)
    requires w.Valid() && GoodHistory(w, hist)
    requires Certified(w, hist, BlockHash(b1)) && Certified(w, hist, BlockHash(b2))
    requires b1.view == b2.view
    ensures b1 == b2
  {
    if b1 != Genesis && b2 != Genesis {
      var i, k1, k2 := CommonVoter(w, hist, b1, hist, b2);
      if k1 < k2 {
        EarlierIsBelow(w, hist, i, k1, k2);
      } else if k2 < k1 {
        EarlierIsBelow(w, hist, i, k2, k1);
      }
    } else if b1 != Genesis {
      var i, k := SomeVote(w, hist, b1);
    } else if b2 != Genesis {
      var i, k := SomeVote(w, hist, b2);
    }
  }

  /** The first vote for a block. */
  lemma FirstVote(hist: seq<Act>, b: Block, k: nat, i: ID) returns (m: nat)
    requires IsVote(hist, k, i) && VotedBlock(hist, k) == b
    ensures m < |hist| && hist[m].what.VoteFor? && VotedBlock(hist, m) == b
    ensures forall j :: 0 <= j < m && hist[j].what.VoteFor? ==> VotedBlock(hist, j) != b
  {
    m := 0;
    while !(hist[m].what.VoteFor? && VotedBlock(hist, m) == b)
      invariant m <= k
      invariant forall j :: 0 <= j < m && hist[j].what.VoteFor? ==> VotedBlock(hist, j) != b
      decreases k - m
    {
      m := m + 1;
    }
  }

  /** The certificate in a certified block is for something certified; and if that is a block, its view is smaller,
      although no handler compares the two views. */
  lemma CertIsOlder(w: World, hist: seq<Act>, b: Block)
    requires w.Valid() && GoodHistory(w, hist) && b != Genesis && Certified(w, hist, BlockHash(b))
    ensures Certified(w, hist, b.cert.hash)
    ensures Justified(b).Some? ==> Justified(b).value.view < b.view
  {
    var i, k := SomeVote(w, hist, b);
    var m := FirstVote(hist, b, k, i);
    assert GoodAct(w, hist[..m], hist[m].id, hist[m].what);
    CertifiedGrows(w, hist[..m], hist, b.cert.hash);
    if Justified(b).Some? && Justified(b).value != Genesis {
      var c := Justified(b).value;
      var j, k1, k2 := CommonVoter(w, hist[..m], c, hist, b);
      EarlierIsBelow(w, hist, j, k1, k2);
    }
  }

  /** Everything below a certified block along certificates that name blocks is certified and older. */
  lemma {:induction false} AncestorsCertified(w: World, hist: seq<Act>, b: Block, a: Block)
    requires w.Valid() && GoodHistory(w, hist) && Certified(w, hist, BlockHash(b)) && QCExtends(b, a)
    ensures Certified(w, hist, BlockHash(a)) && (a == b || a.view < b.view)
    decreases b
  {
    if a != b {
      CertIsOlder(w, hist, b);
      AncestorsCertified(w, hist, b.cert.hash.block, a);
    }
  }
}
