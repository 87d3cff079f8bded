/** What one replica does with an event: the handlers of consensus/consensus.go and
    synchronizer/synchronizer.go with the three rule sets under consensus/, as functions from the replica's
    state to its next state. The classes that compute them step by step are in module Replicas. */
module Handlers {
  import opened Types
  import opened Quorums
  import opened Crypto
  import opened Bytes

  /** Something the replica signed: a vote for the block of a proposal, or a timeout message. */
  datatype What = VoteFor(p: ProposeMsg) | TimedOut(t: TimeoutMsg)

  /** A block returned by a commit rule, with the proposed block on which the rule was run. */
  datatype Commit = Commit(trigger: Block, block: Block)

  /** The fields of the Synchronizer, of consensusBase and of its rules, the blocks held locally, and what the
      replica has done so far: signed, committed, executed, proposed, and entered as a view. Nothing is decided by
      `linked`, which records whether all commits so far were linked. */
  datatype Node = Node(
    currentView: View,
    highTC: TimeoutCert,
    highQC: QuorumCert,
    leafBlock: Block,
    lastTimeout: Option<TimeoutMsg>,
    timeouts: map<View, map<ID, TimeoutMsg>>,
    lastVote: View,
    bExec: Block,
    locked: Block,
    blocks: set<Block>,
    acts: seq<What>,
    commits: seq<Commit>,
    executed: seq<Block>,
    proposals: seq<ProposeMsg>,
    entered: seq<View>,
    linked: bool)

  /** What a handler never takes back. */
  predicate Grows(n: Node, r: Node) {
    && n.acts <= r.acts
    && n.commits <= r.commits
    && n.executed <= r.executed
    && n.proposals <= r.proposals
    && n.entered <= r.entered
    && n.blocks <= r.blocks
    && n.currentView <= r.currentView
    && n.lastVote <= r.lastVote
    && (r.linked ==> n.linked)
  }

  const InitialNode := Node(
    1, TimeoutCert(None, 0), QuorumCert(None, 0, GenesisHash), Genesis, None, map[],
    0, Genesis, Genesis, {Genesis}, [], [], [], [], [], true)

  /** The replica's surroundings while it handles one event: who leads a view, which blocks can be fetched, which
      commands the acceptor takes, which command is queued, signing, and the order in which a map is iterated. */
  datatype Env = Env(
    w: World,
    self: ID,
    leader: View -> ID,
    fetch: Hash -> bool,
    accept: Command -> bool,
    command: View -> Option<Command>,
    sign: Hash -> Option<Signature>,
    order: set<ID> -> seq<ID>)
  {
    /** Iterating over a map visits every key once. */
    ghost predicate Valid() {
      forall s :: Enumerates(order(s), s)
    }

    predicate UsesAggQC() {
      w.rules.FastHotStuff?
    }
  }

  // ---- block store ----

  /** The block with the given digest, if it is held locally or can be fetched. */
  function Get(c: Env, n: Node, h: Hash): Option<Block> {
    if h.BlockHash? && (h.block in n.blocks || c.fetch(h)) then Some(h.block) else None
  }

  /** The walk over parent links down to the view of `target`. */
  predicate Extends(c: Env, n: Node, b: Block, target: Block)
    decreases b
  {
    if b.view > target.view then
      Get(c, n, b.parent).Some? && Extends(c, n, b.parent.block, target)
    else
      b == target
  }

  // ---- rules ----

  function QCRef(c: Env, n: Node, qc: QuorumCert): Option<Block> {
    if qc.hash == ZeroHash then None else Get(c, n, qc.hash)
  }

  predicate VoteRule(c: Env, n: Node, p: ProposeMsg) {
    var b := p.block;
    var qcBlock := Get(c, n, b.cert.hash);
    match c.w.rules
    case SimpleHotStuff =>
      b.view >= n.currentView && qcBlock.Some? && qcBlock.value.view >= n.locked.view
    case ChainedHotStuff =>
      (qcBlock.Some? && qcBlock.value.view > n.locked.view) || Extends(c, n, b, n.locked)
    case FastHotStuff =>
      if p.aggQC.Some? then qcBlock.Some? && Extends(c, n, b, qcBlock.value)
      else b.view >= n.currentView && b.view == b.cert.view + 1
  }

  function Lock(n: Node, b: Block): Node {
    if b.view > n.locked.view then n.(locked := b) else n
  }

  function CommitSimple(c: Env, n: Node, b: Block): (r: (Node, Option<Block>))
    ensures r.0 == n.(locked := r.0.locked, highQC := r.0.highQC, leafBlock := r.0.leafBlock)
  {
    var p := Get(c, n, b.cert.hash);
    if p.None? then (n, None) else
    var gp := Get(c, n, p.value.cert.hash);
    if gp.None? then (n, None) else
    var n' := Lock(n, gp.value);
    var ggp := Get(c, n', gp.value.cert.hash);
    (n', if ggp.Some? && ggp.value.view + 2 == p.value.view then ggp else None)
  }

  function CommitChained(c: Env, n0: Node, b: Block): (r: (Node, Option<Block>))
    ensures r.0 == n0.(locked := r.0.locked, highQC := r.0.highQC, leafBlock := r.0.leafBlock)
  {
    var n := UpdateHighQC(c, n0, b.cert);
    var b1 := QCRef(c, n, b.cert);
    if b1.None? then (n, None) else
    var b2 := QCRef(c, n, b1.value.cert);
    if b2.None? then (n, None) else
    var n' := Lock(n, b2.value);
    var b3 := QCRef(c, n', b2.value.cert);
    (n', if b3.Some? && b1.value.parent == BlockHash(b2.value) && b2.value.parent == BlockHash(b3.value)
         then b3 else None)
  }

  function CommitFast(c: Env, n: Node, b: Block): (r: (Node, Option<Block>))
    ensures r.0 == n.(locked := r.0.locked, highQC := r.0.highQC, leafBlock := r.0.leafBlock)
  {
    var p := QCRef(c, n, b.cert);
    if p.None? then (n, None) else
    var gp := QCRef(c, n, p.value.cert);
    (n, if gp.Some? && b.parent == BlockHash(p.value) && b.view == p.value.view + 1
           && p.value.parent == BlockHash(gp.value) && p.value.view == gp.value.view + 1 then gp else None)
  }

  function CommitRule(c: Env, n: Node, b: Block): (r: (Node, Option<Block>))
    ensures r.0 == n.(locked := r.0.locked, highQC := r.0.highQC, leafBlock := r.0.leafBlock)
  {
    match c.w.rules
    case SimpleHotStuff => CommitSimple(c, n, b)
    case ChainedHotStuff => CommitChained(c, n, b)
    case FastHotStuff => CommitFast(c, n, b)
  }

  // ---- consensusBase ----

  /** The blocks commitInner executes, in order: `b` preceded by its ancestors above the executed block, as far as
      they can be found. */
  function Uncommitted(c: Env, n: Node, b: Block): seq<Block>
    decreases b
  {
    if n.bExec.view < b.view then
      (if Get(c, n, b.parent).Some? then Uncommitted(c, n, b.parent.block) else []) + [b]
    else []
  }

  /** From `b` down the certificates to the executed block, the parent of every block is the block its certificate
      names; but for the lowest one, whose parent only has to be none that commitInner would execute: it is not found,
      or is not above the executed block. */
  predicate Linked(c: Env, n: Node, b: Block)
    decreases b
  {
    && b.cert.hash.BlockHash?
    && if b.cert.hash.block == n.bExec then Get(c, n, b.parent).None? || b.parent.block.view <= n.bExec.view
       else b.parent == b.cert.hash && Linked(c, n, b.cert.hash.block)
  }

  function DoCommit(c: Env, n: Node, trigger: Block, b: Block): Node {
    n.(executed := n.executed + Uncommitted(c, n, b),
       bExec := if n.bExec.view < b.view then b else n.bExec,
       commits := n.commits + [Commit(trigger, b)],
       linked := n.linked && (n.bExec.view < b.view ==> Linked(c, n, b)))
  }

  /** Runs the commit rule on a stored block and commits what it returns. */
  function RunCommitRule(c: Env, n: Node, b: Block): (r: Node)
    ensures Grows(n, r) && r.currentView == n.currentView && r.timeouts == n.timeouts && r.acts == n.acts
  {
    var (n', x) := CommitRule(c, n, b);
    if x.Some? then DoCommit(c, n', b, x.value) else n'
  }

  function StopVoting(n: Node, view: View): Node {
    if n.lastVote < view then n.(lastVote := view) else n
  }

  /** Signs a vote unless the replica has voted or stopped voting in that view, or signing fails. */
  function CastVote(c: Env, n: Node, p: ProposeMsg): Node {
    if p.block.view <= n.lastVote || c.sign(BlockHash(p.block)).None? then n
    else n.(lastVote := p.block.view, acts := n.acts + [VoteFor(p)])
  }

  /** What OnPropose does with a proposal whose certificates verified, before it advances the view. */
  function Consider(c: Env, n: Node, p: ProposeMsg): (r: Node)
    ensures Grows(n, r) && r.currentView == n.currentView && r.timeouts == n.timeouts
  {
    if p.id != c.leader(p.block.view) || !VoteRule(c, n, p) || !c.accept(p.block.cmd) then n
    else RunCommitRule(c, CastVote(c, n.(blocks := n.blocks + {p.block}), p), p.block)
  }

  /** The aggregate certificate of a proposal, where one is used, verifies and its high certificate is the
      block's. */
  predicate AggAccepted(c: Env, p: ProposeMsg)
    requires c.Valid()
  {
    c.UsesAggQC() && p.aggQC.Some? ==>
      var high := VerifyAgg(c.w, p.aggQC.value, c.order(p.aggQC.value.qcs.Keys));
      high.Some? && QCEquals(p.block.cert, high.value)
  }

  /** 1 if a certificate with this view would still raise the current view. */
  function Pending(currentView: View, certView: View): nat {
    if certView >= currentView then 1 else 0
  }

  function QCOf(si: SyncInfo): QuorumCert {
    if si.qc.Some? then si.qc.value else ZeroQC
  }

  function OnPropose(c: Env, n: Node, p: ProposeMsg): (r: Node)
    requires c.Valid()
    ensures Grows(n, r) && r.timeouts == n.timeouts
    decreases 0, Pending(n.currentView, p.block.cert.view), 2
  {
    if !AggAccepted(c, p) || !VerifyQC(c.w, p.block.cert) then n
    else AdvanceView(c, Consider(c, n, p), SyncInfo(Some(p.block.cert), None, None))
  }

  /** The proposal a leader makes in its current view. */
  function NewProposal(c: Env, n: Node, si: SyncInfo, cmd: Command): ProposeMsg {
    ProposeMsg(c.self, Block(BlockHash(n.leafBlock), QCOf(si), cmd, n.currentView, c.self),
               if c.UsesAggQC() then si.aggQC else None)
  }

  function Propose(c: Env, n: Node, si: SyncInfo): (r: Node)
    requires c.Valid()
    ensures Grows(n, r) && r.timeouts == n.timeouts
    decreases 0, Pending(n.currentView, QCOf(si).view), 3
  {
    var cmd := c.command(n.currentView);
    if (si.qc.Some? && Get(c, n, si.qc.value.hash).None?) || cmd.None? then n
    else
      var p := NewProposal(c, n, si, cmd.value);
      OnPropose(c, n.(blocks := n.blocks + {p.block}, proposals := n.proposals + [p]), p)
  }

  // ---- Synchronizer ----

  /** The highest certificates known. */
  function HighSyncInfo(n: Node): SyncInfo {
    SyncInfo(Some(n.highQC), if n.highQC.view >= n.highTC.view then None else Some(n.highTC), None)
  }

  /** A missing block for the old high certificate makes the code panic; the replica then does nothing more. */
  function UpdateHighQC(c: Env, n: Node, qc: QuorumCert): (r: Node)
    ensures r == n.(highQC := r.highQC, leafBlock := r.leafBlock)
  {
    var newBlock := Get(c, n, qc.hash);
    var oldBlock := Get(c, n, n.highQC.hash);
    if VerifyQC(c.w, qc) && newBlock.Some? && oldBlock.Some? && newBlock.value.view > oldBlock.value.view
    then n.(highQC := qc, leafBlock := newBlock.value)
    else n
  }

  function AdvanceView(c: Env, n: Node, si: SyncInfo): (r: Node)
    requires c.Valid()
    ensures Grows(n, r) && r.timeouts == n.timeouts
    decreases if si.tc.Some? then 1 else 0, if si.tc.Some? then 0 else Pending(n.currentView, QCOf(si).view), 1
  {
    if si.tc.Some? then
      var tc := si.tc.value;
      if !VerifyTC(c.w, tc) then n
      else EnterView(c, if tc.view > n.highTC.view then n.(highTC := tc) else n, tc.view, si)
    else if si.qc.Some? then
      var qc := si.qc.value;
      if !VerifyQC(c.w, qc) then n
      else EnterView(c, UpdateHighQC(c, n, qc), qc.view, si)
    else EnterView(c, n, 0, si)
  }

  /** Enters the view after `v`, unless the replica is already past `v`, and proposes if it leads the new view. */
  function EnterView(c: Env, n: Node, v: View, si: SyncInfo): (r: Node)
    requires c.Valid()
    requires si.tc.Some? || v == QCOf(si).view
    ensures Grows(n, r) && r.timeouts == n.timeouts
    decreases if si.tc.Some? then 1 else 0, if si.tc.Some? then 0 else Pending(n.currentView, QCOf(si).view), 0
  {
    if v < n.currentView then n else
    var n' := n.(currentView := v + 1, lastTimeout := None, entered := n.entered + [v + 1]);
    if c.leader(v + 1) == c.self then Propose(c, n', si) else n'
  }

  /** Timeouts for views that have been left are dropped. */
  function DropOld(n: Node): Node {
    n.(timeouts := map v | v in n.timeouts && v >= n.currentView :: n.timeouts[v])
  }

  function Bucket(n: Node, v: View): map<ID, TimeoutMsg> {
    if v in n.timeouts then n.timeouts[v] else map[]
  }

  /** Files a timeout under its view and sender, unless that sender's is already there. */
  function FileTimeout(n: Node, t: TimeoutMsg): Node {
    var bucket := Bucket(n, t.view);
    n.(timeouts := n.timeouts[t.view := if t.id in bucket then bucket else bucket[t.id := t]])
  }

  function Listed(bucket: map<ID, TimeoutMsg>, order: seq<ID>): seq<TimeoutMsg>
    requires forall id :: id in order ==> id in bucket
  {
    seq(|order|, i requires 0 <= i < |order| => bucket[order[i]])
  }

  /** The sync info made of a full bucket of timeouts, if a timeout certificate can be made of it. */
  function Certify(c: Env, n: Node, view: View): Option<SyncInfo>
    requires c.Valid() && view in n.timeouts
  {
    var ts := Listed(n.timeouts[view], c.order(n.timeouts[view].Keys));
    var tc := CreateTC(c.w, view, ts);
    if tc.None? then None else
    Some(HighSyncInfo(n).(tc := tc, aggQC := if c.UsesAggQC() then CreateAgg(c.w, n.currentView, ts) else None))
  }

  /** A filed timeout may complete a quorum, which ends the view. */
  function Tally(c: Env, n: Node, view: View): (r: Node)
    requires c.Valid() && view in n.timeouts
    ensures Grows(n, r)
  {
    if |n.timeouts[view]| < c.w.Quorum() then n else
    var si := Certify(c, n, view);
    if si.None? then n else AdvanceView(c, n.(timeouts := n.timeouts - {view}), si.value)
  }

  function OnRemoteTimeout(c: Env, n: Node, t: TimeoutMsg): (r: Node)
    requires c.Valid()
    ensures Grows(n, r)
  {
    if !Verify(c.w, t.viewSig, ViewHash(t.view)) then DropOld(n)
    else DropOld(Tally(c, FileTimeout(AdvanceView(c, n, t.syncInfo), t), t.view))
  }

  /** The timeout message for the current view, if signing succeeds. */
  function NewTimeout(c: Env, n: Node): Option<TimeoutMsg> {
    var viewSig := c.sign(ViewHash(n.currentView));
    if viewSig.None? then None else
    var t := TimeoutMsg(c.self, n.currentView, viewSig.value, None, HighSyncInfo(n));
    if !c.UsesAggQC() then Some(t) else
    var msgSig := c.sign(t.Hash());
    if msgSig.None? then None else Some(t.(msgSig := msgSig))
  }

  function OnLocalTimeout(c: Env, n: Node): (r: Node)
    requires c.Valid()
    ensures Grows(n, r)
  {
    if n.lastTimeout.Some? && n.lastTimeout.value.view == n.currentView then n else
    var t := NewTimeout(c, n);
    if t.None? then n else
    OnRemoteTimeout(c, StopVoting(n.(lastTimeout := t, acts := n.acts + [TimedOut(t.value)]), n.currentView), t.value)
  }

  // ---- events ----

  datatype Event = Start | Proposal(p: ProposeMsg) | NewView(si: SyncInfo) | RemoteTimeout(t: TimeoutMsg) | LocalTimeout

  function Handle(c: Env, n: Node, e: Event): (r: Node)
    requires c.Valid()
    ensures Grows(n, r)
  {
    match e
    case Start => if n.currentView == 1 && c.leader(1) == c.self then Propose(c, n, HighSyncInfo(n)) else n
    case Proposal(p) => OnPropose(c, n, p)
    case NewView(si) => AdvanceView(c, n, si)
    case RemoteTimeout(t) => OnRemoteTimeout(c, n, t)
    case LocalTimeout => OnLocalTimeout(c, n)
  }
}
