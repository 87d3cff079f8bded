/** One replica as an object: consensusBase with its rules (consensus/consensus.go and the three rule sets) and the
    Synchronizer (synchronizer/synchronizer.go), whose methods run on one event-loop goroutine and update their fields
    in place. Every method is proved against the function of the same name in module Handlers. */
module Replicas {
  import opened Types
  import opened Crypto
  import opened Bytes
  import H = Handlers
  import opened Handlers

  class Replica {
    // Synchronizer
    var currentView: View
    var highTC: TimeoutCert
    var highQC: QuorumCert
    var leafBlock: Block
    var lastTimeout: Option<TimeoutMsg>
    var timeouts: map<View, map<ID, TimeoutMsg>>
    // consensusBase and rules
    var lastVote: View
    var bExec: Block
    var locked: Block
    // block store
    var blocks: set<Block>
    // what was sent to other replicas and modules
    var acts: seq<What>
    var commits: seq<Commit>
    var executed: seq<Block>
    var proposals: seq<ProposeMsg>
    var entered: seq<View>
    // whether all commits were linked
    ghost var linked: bool

    ghost function State(): Node
      reads this
    {
      Node(currentView, highTC, highQC, leafBlock, lastTimeout, timeouts, lastVote, bExec, locked, blocks,
           acts, commits, executed, proposals, entered, linked)
    }

    constructor ()
      ensures State() == InitialNode
    {
      currentView, highTC, highQC := 1, TimeoutCert(None, 0), QuorumCert(None, 0, GenesisHash);
      leafBlock, lastTimeout, timeouts := Genesis, None, map[];
      lastVote, bExec, locked, blocks := 0, Genesis, Genesis, {Genesis};
      acts, commits, executed, proposals, entered, linked := [], [], [], [], [], true;
    }

    // ---- block store ----

    method Get(c: Env, h: Hash) returns (block: Block, ok: bool)
      ensures H.Get(c, State(), h) == if ok then Some(block) else None
    {
      ok := h.BlockHash? && (h.block in blocks || c.fetch(h));
      block := if ok then h.block else Genesis;
    }

    method Extends(c: Env, block: Block, target: Block) returns (result: bool)
      ensures result == H.Extends(c, State(), block, target)
    {
      var current, ok := block, true;
      while ok && current.view > target.view
        invariant ok ==> H.Extends(c, State(), block, target) == H.Extends(c, State(), current, target)
        invariant !ok ==> !H.Extends(c, State(), block, target)
        decreases ok, current
      {
        var parent, found := Get(c, current.parent);
        if found {
          current := parent;
        } else {
          ok := false;
        }
      }
      result := ok && current == target;
    }

    // ---- rules ----

    method QCRef(c: Env, qc: QuorumCert) returns (block: Block, ok: bool)
      ensures H.QCRef(c, State(), qc) == if ok then Some(block) else None
    {
      if qc.hash == ZeroHash {
        return Genesis, false;
      }
      block, ok := Get(c, qc.hash);
    }

    method VoteRule(c: Env, p: ProposeMsg) returns (safe: bool)
      ensures safe == H.VoteRule(c, State(), p)
    {
      var block := p.block;
      var qcBlock, haveQCBlock := Get(c, block.cert.hash);
      match c.w.rules
      case SimpleHotStuff =>
        if block.view < currentView {
          return false;
        }
        if !haveQCBlock {
          return false;
        }
        return qcBlock.view >= locked.view;
      case ChainedHotStuff =>
        if haveQCBlock && qcBlock.view > locked.view {
          return true;
        }
        safe := Extends(c, block, locked);
      case FastHotStuff =>
        if p.aggQC.Some? {
          if !haveQCBlock {
            return false;
          }
          safe := Extends(c, block, qcBlock);
        } else {
          safe := block.view >= currentView && block.view == block.cert.view + 1;
        }
    }

    method CommitSimple(c: Env, block: Block) returns (x: Option<Block>)
      modifies this`locked
      ensures (State(), x) == H.CommitSimple(c, old(State()), block)
    {
      var p, ok := Get(c, block.cert.hash);
      if !ok {
        return None;
      }
      var gp;
      gp, ok := Get(c, p.cert.hash);
      if ok && gp.view > locked.view {
        locked := gp;
      } else if !ok {
        return None;
      }
      var ggp;
      ggp, ok := Get(c, gp.cert.hash);
      if ok && ggp.view + 2 == p.view {
        return Some(ggp);
      }
      return None;
    }

    method CommitChained(c: Env, block: Block) returns (x: Option<Block>)
      modifies this`locked, this`highQC, this`leafBlock
      ensures (State(), x) == H.CommitChained(c, old(State()), block)
    {
      UpdateHighQC(c, block.cert);
      var block1, ok := QCRef(c, block.cert);
      if !ok {
        return None;
      }
      var block2;
      block2, ok := QCRef(c, block1.cert);
      if !ok {
        return None;
      }
      if block2.view > locked.view {
        locked := block2;
      }
      var block3;
      block3, ok := QCRef(c, block2.cert);
      if !ok {
        return None;
      }
      if block1.parent == BlockHash(block2) && block2.parent == BlockHash(block3) {
        return Some(block3);
      }
      return None;
    }

    method CommitFast(c: Env, block: Block) returns (x: Option<Block>)
      ensures (State(), x) == H.CommitFast(c, State(), block)
    {
      var parent, ok := QCRef(c, block.cert);
      if !ok {
        return None;
      }
      var grandparent;
      grandparent, ok := QCRef(c, parent.cert);
      if !ok {
        return None;
      }
      if block.parent == BlockHash(parent) && block.view == parent.view + 1
         && parent.parent == BlockHash(grandparent) && parent.view == grandparent.view + 1 {
        return Some(grandparent);
      }
      return None;
    }

    // ---- consensusBase ----

    method StopVoting(view: View)
      modifies this`lastVote
      ensures State() == H.StopVoting(old(State()), view)
    {
      if lastVote < view {
        lastVote := view;
      }
    }

    /** Executes the ancestors of a block above the executed one, oldest first, and then the block. */
    method CommitInner(c: Env, block: Block)
      modifies this`bExec, this`executed
      ensures executed == old(executed) + Uncommitted(c, old(State()), block)
      ensures bExec == if old(bExec).view < block.view then block else old(bExec)
      decreases block
    {
      if bExec.view < block.view {
        var parent, ok := Get(c, block.parent);
        if ok {
          CommitInner(c, parent);
        }
        executed := executed + [block];
        bExec := block;
      }
    }

    method DoCommit(c: Env, trigger: Block, block: Block)
      modifies this`bExec, this`executed, this`commits, this`linked
      ensures State() == H.DoCommit(c, old(State()), trigger, block)
    {
      ghost var isLinked := bExec.view < block.view ==> Linked(c, State(), block);
      CommitInner(c, block);
      linked := linked && isLinked;
      commits := commits + [Commit(trigger, block)];
    }

    method RunCommitRule(c: Env, block: Block)
      modifies this`locked, this`highQC, this`leafBlock, this`bExec, this`executed, this`commits, this`linked
      ensures State() == H.RunCommitRule(c, old(State()), block)
    {
      var x;
      match c.w.rules {
        case SimpleHotStuff => x := CommitSimple(c, block);
        case ChainedHotStuff => x := CommitChained(c, block);
        case FastHotStuff => x := CommitFast(c, block);
      }
      if x.Some? {
        DoCommit(c, block, x.value);
      }
    }

    method CastVote(c: Env, p: ProposeMsg)
      modifies this`lastVote, this`acts
      ensures State() == H.CastVote(c, old(State()), p)
    {
      if p.block.view <= lastVote {
        return;
      }
      var sig := c.sign(BlockHash(p.block));
      if sig.None? {
        return;
      }
      lastVote := p.block.view;
      acts := acts + [VoteFor(p)];
    }

    method Consider(c: Env, p: ProposeMsg)
      modifies this
      ensures State() == H.Consider(c, old(State()), p)
    {
      if p.id != c.leader(p.block.view) {
        return;
      }
      var safe := VoteRule(c, p);
      if !safe {
        return;
      }
      if !c.accept(p.block.cmd) {
        return;
      }
      blocks := blocks + {p.block};
      CastVote(c, p);
      RunCommitRule(c, p.block);
    }

    method OnPropose(c: Env, p: ProposeMsg)
      requires c.Valid()
      modifies this
      ensures State() == H.OnPropose(c, old(State()), p)
      decreases 0, Pending(currentView, p.block.cert.view), 2
    {
      if c.UsesAggQC() && p.aggQC.Some? {
        var high := VerifyAgg(c.w, p.aggQC.value, c.order(p.aggQC.value.qcs.Keys));
        if high.None? {
          return;
        }
        if !QCEquals(p.block.cert, high.value) {
          return;
        }
      }
      if !VerifyQC(c.w, p.block.cert) {
        return;
      }
      Consider(c, p);
      AdvanceView(c, SyncInfo(Some(p.block.cert), None, None));
    }

    method Propose(c: Env, si: SyncInfo)
      requires c.Valid()
      modifies this
      ensures State() == H.Propose(c, old(State()), si)
      decreases 0, Pending(currentView, QCOf(si).view), 3
    {
      if si.qc.Some? {
        var _, ok := Get(c, si.qc.value.hash);
        if !ok {
          return;
        }
      }
      var cmd := c.command(currentView);
      if cmd.None? {
        return;
      }
      var p := ProposeMsg(c.self, Block(BlockHash(leafBlock), QCOf(si), cmd.value, currentView, c.self), None);
      if si.aggQC.Some? && c.UsesAggQC() {
        p := p.(aggQC := si.aggQC);
      }
      blocks := blocks + {p.block};
      proposals := proposals + [p];
      OnPropose(c, p);
    }

    // ---- Synchronizer ----

    method UpdateHighQC(c: Env, qc: QuorumCert)
      modifies this`highQC, this`leafBlock
      ensures State() == H.UpdateHighQC(c, old(State()), qc)
    {
      if !VerifyQC(c.w, qc) {
        return;
      }
      var newBlock, ok := Get(c, qc.hash);
      if !ok {
        return;
      }
      var oldBlock;
      oldBlock, ok := Get(c, highQC.hash);
      if !ok {
        return;
      }
      if newBlock.view > oldBlock.view {
        highQC := qc;
        leafBlock := newBlock;
      }
    }

    method AdvanceView(c: Env, si: SyncInfo)
      requires c.Valid()
      modifies this
      ensures State() == H.AdvanceView(c, old(State()), si)
      decreases if si.tc.Some? then 1 else 0, if si.tc.Some? then 0 else Pending(currentView, QCOf(si).view), 1
    {
      var v := 0;
      if si.tc.Some? {
        var tc := si.tc.value;
        if !VerifyTC(c.w, tc) {
          return;
        }
        v := tc.view;
        if v > highTC.view {
          highTC := tc;
        }
      } else if si.qc.Some? {
        var qc := si.qc.value;
        if !VerifyQC(c.w, qc) {
          return;
        }
        UpdateHighQC(c, qc);
        v := qc.view;
      }
      EnterView(c, v, si);
    }

    method EnterView(c: Env, v: View, si: SyncInfo)
      requires c.Valid() && (si.tc.Some? || v == QCOf(si).view)
      modifies this
      ensures State() == H.EnterView(c, old(State()), v, si)
      decreases if si.tc.Some? then 1 else 0, if si.tc.Some? then 0 else Pending(currentView, QCOf(si).view), 0
    {
      if v < currentView {
        return;
      }
      currentView := v + 1;
      lastTimeout := None;
      entered := entered + [currentView];
      if c.leader(currentView) == c.self {
        Propose(c, si);
      }
    }

    method DropOld()
      modifies this`timeouts
      ensures State() == H.DropOld(old(State()))
    {
      var views := timeouts.Keys;
      while views != {}
        invariant views <= old(timeouts).Keys
        invariant timeouts == map v | v in old(timeouts) && (v in views || v >= currentView) :: old(timeouts)[v]
        decreases views
      {
        var view :| view in views;
        if view < currentView {
          timeouts := timeouts - {view};
        }
        views := views - {view};
      }
    }

    method FileTimeout(t: TimeoutMsg)
      modifies this`timeouts
      ensures State() == H.FileTimeout(old(State()), t)
    {
      var bucket := if t.view in timeouts then timeouts[t.view] else map[];
      if t.id !in bucket {
        bucket := bucket[t.id := t];
      }
      timeouts := timeouts[t.view := bucket];
    }

    method ListTimeouts(c: Env, view: View) returns (ts: seq<TimeoutMsg>)
      requires c.Valid() && view in timeouts
      ensures ts == Listed(timeouts[view], c.order(timeouts[view].Keys))
    {
      var order := c.order(timeouts[view].Keys);
      ts := [];
      for k := 0 to |order|
        invariant ts == Listed(timeouts[view], order)[..k]
      {
        ts := ts + [timeouts[view][order[k]]];
      }
    }

    method Tally(c: Env, view: View)
      requires c.Valid() && view in timeouts
      modifies this
      ensures State() == H.Tally(c, old(State()), view)
    {
      if |timeouts[view]| < c.w.Quorum() {
        return;
      }
      var ts := ListTimeouts(c, view);
      var tc := CreateTC(c.w, view, ts);
      if tc.None? {
        return;
      }
      var si := HighSyncInfo().(tc := tc);
      if c.UsesAggQC() {
        si := si.(aggQC := CreateAgg(c.w, currentView, ts));
      }
      assert Certify(c, old(State()), view) == Some(si);
      timeouts := timeouts - {view};
      assert State() == old(State()).(timeouts := old(timeouts) - {view});
      AdvanceView(c, si);
    }

    function HighSyncInfo(): SyncInfo
      reads this
    {
      if highQC.view >= highTC.view then SyncInfo(Some(highQC), None, None)
      else SyncInfo(Some(highQC), Some(highTC), None)
    }

    method OnRemoteTimeout(c: Env, t: TimeoutMsg)
      requires c.Valid()
      modifies this
      ensures State() == H.OnRemoteTimeout(c, old(State()), t)
    {
      if Verify(c.w, t.viewSig, ViewHash(t.view)) {
        AdvanceView(c, t.syncInfo);
        FileTimeout(t);
        Tally(c, t.view);
      }
      DropOld();
    }

    method OnLocalTimeout(c: Env)
      requires c.Valid()
      modifies this
      ensures State() == H.OnLocalTimeout(c, old(State()))
    {
      if lastTimeout.Some? && lastTimeout.value.view == currentView {
        return;
      }
      var view := currentView;
      var viewSig := c.sign(ViewHash(view));
      if viewSig.None? {
        return;
      }
      var t := TimeoutMsg(c.self, view, viewSig.value, None, HighSyncInfo());
      if c.UsesAggQC() {
        var msgSig := c.sign(t.Hash());
        if msgSig.None? {
          return;
        }
        t := t.(msgSig := msgSig);
      }
      assert NewTimeout(c, State()) == Some(t);
      lastTimeout := Some(t);
      acts := acts + [TimedOut(t)];
      assert State() == old(State()).(lastTimeout := Some(t), acts := old(acts) + [TimedOut(t)]);
      StopVoting(currentView);
      OnRemoteTimeout(c, t);
    }

    /** Handles one event to the end. */
    method Handle(c: Env, e: Event)
      requires c.Valid()
      modifies this
      ensures State() == H.Handle(c, old(State()), e)
    {
      match e
      case Start =>
        if currentView == 1 && c.leader(1) == c.self {
          Propose(c, HighSyncInfo());
        }
      case Proposal(p) => OnPropose(c, p);
      case NewView(si) => AdvanceView(c, si);
      case RemoteTimeout(t) => OnRemoteTimeout(c, t);
      case LocalTimeout => OnLocalTimeout(c);
    }
  }
}
