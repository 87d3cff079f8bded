/** What committing does to the block store (consensus/consensus.go with blockchain/blockchain.go): over the commits of
    every replica in every run, exactly the blocks that are never executed are reported as forked. */
module Pruning {
  import opened Types
  import opened Quorums
  import opened Handlers
  import opened History
  import opened Safety
  import opened Agreement
  import opened Protocol
  import opened Invariant
  import opened Theorems
  import opened BlockChains

  // ---- one commit ----

  /** The store after commitInner has looked up the parents of `b` and its ancestors above the executed block: a parent
      that is not held is stored if it can be fetched. */
  function LookedUp(ch: Chain, exec: Block, b: Block, fetch: Hash -> bool): Chain
    decreases b
  {
    if exec.view < b.view && b.parent.BlockHash? && (b.parent in ch.blocks || fetch(b.parent)) then
      LookedUp(if b.parent in ch.blocks then ch else ch.Add(b.parent.block), exec, b.parent.block, fetch)
    else ch
  }

  function Higher(exec: Block, b: Block): Block {
    if exec.view < b.view then b else exec
  }

  /** The store holds what the replica has stored, and what it holds can be found. */
  ghost predicate InStep(ch: Chain, c: Env, n: Node) {
    && ch.Filed()
    && (forall b: Block :: b in n.blocks ==> ch.Holds(b))
    && (forall b: Block :: ch.Holds(b) ==> Get(c, n, BlockHash(b)).Some?)
  }

  /** The part of consensusBase that commits, with the block store. */
  class Committer {
    const chain: BlockChain
    var bExec: Block
    var executed: seq<Block>

    constructor (chain: BlockChain)
      ensures this.chain == chain && bExec == Genesis && executed == []
    {
      this.chain := chain;
      bExec, executed := Genesis, [];
    }

    method CommitInner(c: Env, ghost n: Node, b: Block)
      requires InStep(chain.Value(), c, n) && n.bExec == bExec
      modifies this`bExec, this`executed, chain
      ensures executed == old(executed) + Uncommitted(c, n, b) && bExec == Higher(n.bExec, b)
      ensures chain.Value() == LookedUp(old(chain.Value()), n.bExec, b, c.fetch)
      decreases b
    {
      if bExec.view < b.view {
        var fetched := if b.parent.BlockHash? && c.fetch(b.parent) then Some(b.parent.block) else None;
        var parent := chain.Get(b.parent, fetched);
        if parent.Some? {
          CommitInner(c, n, parent.value);
        }
        executed := executed + [b];
        bExec := b;
      }
    }

    /** Commits a block, and returns the blocks that are handed to the fork handler. */
    method Commit(c: Env, ghost n: Node, ghost trigger: Block, b: Block, ghost m: nat) returns (forked: seq<Block>)
      requires InStep(chain.Value(), c, n) && n.bExec == bExec && n.executed == executed
      requires LookedUp(chain.Value(), bExec, b, c.fetch).Stops(Higher(bExec, b).view, m)
      modifies this`bExec, this`executed, chain
      ensures bExec == DoCommit(c, n, trigger, b).bExec && executed == DoCommit(c, n, trigger, b).executed
      ensures var ch := LookedUp(old(chain.Value()), old(bExec), b, c.fetch);
        chain.Value() == ch.Pruned(b.view) && forked == ch.Forked(bExec.view, b.view, m)
    {
      CommitInner(c, n, b);
      forked := chain.PruneToHeight(bExec.view, b.view, m);
    }
  }

  // ---- the executed blocks of a replica ----

  /** What is known of a replica's commits in a reachable state. */
  ghost predicate GoodCommits(w: World, hist: seq<Act>, cs: seq<Commit>) {
    && w.Valid() && GoodHistory(w, hist) && LogAssumed(w, hist, cs)
    && forall r :: r in cs ==> GoodCommit(w, hist, r)
  }

  /** Every executed block is certified and extends those executed before. */
  lemma {:induction false} ExecutedExtends(w: World, hist: seq<Act>, cs: seq<Commit>, j: nat, k: nat)
    requires GoodCommits(w, hist, cs) && j <= k <= |cs|
    ensures Certified(w, hist, BlockHash(ExecAfter(cs[..k])))
    ensures QCExtends(ExecAfter(cs[..k]), ExecAfter(cs[..j]))
  {
    if k == 0 {
      assert cs[..0] == [];
    } else {
      var before, r := cs[..k - 1], cs[k - 1];
      assert cs[..k][..k - 1] == before && r in cs;
      ExecutedExtends(w, hist, cs, if j < k then j else k - 1, k - 1);
      var exec := ExecAfter(before);
      CommitIsCertified(w, hist, r);
      if exec.view < r.block.view {
        ExecIsCommitted(before);
        if exec == Genesis {
          ReachesGenesis(w, hist, r.block);
        } else {
          var q :| q in before && q.block == exec;
          assert q in cs;
          CommitStays(w, hist, q, r.block);
        }
        if j < k {
          QCExtendsTransitive(r.block, exec, ExecAfter(cs[..j]));
        }
      }
    }
  }

  /** The same along parents, which lead to smaller and smaller views. */
  lemma ExecutedDescends(w: World, s: System, i: ID, j: nat, k: nat)
    requires Reachable(w, s) && i in s.nodes && LogAssumed(w, s.hist, s.nodes[i].commits)
    requires j <= k <= |s.nodes[i].commits|
    ensures var cs := s.nodes[i].commits;
      && Descending(ExecAfter(cs[..k]))
      && ParentExtends(ExecAfter(cs[..k]), ExecAfter(cs[..j]))
  {
    ReachableInv(w, s);
    var cs := s.nodes[i].commits;
    ExecutedExtends(w, s.hist, cs, j, k);
    CertIsParent(w, s.hist, ExecAfter(cs[..k]), ExecAfter(cs[..j]));
    CertifiedDescends(w, s, ExecAfter(cs[..k]));
  }

  lemma {:induction false} PathElements(x: Block, b: Block)
    ensures b in Path(x) <==> QCExtends(x, b) && b != Genesis && x != Genesis
    decreases x
  {
    if x != Genesis && x.cert.hash.BlockHash? {
      PathElements(x.cert.hash.block, b);
    }
  }

  /** Up to the view of the block that is executed after `k` commits, what is ever executed is its ancestors. */
  lemma ExecutedExactly(w: World, s: System, i: ID, k: nat, b: Block)
    requires Reachable(w, s) && i in s.nodes && LogAssumed(w, s.hist, s.nodes[i].commits)
    requires k <= |s.nodes[i].commits| && 0 < b.view <= ExecAfter(s.nodes[i].commits[..k]).view
    ensures b in s.nodes[i].executed <==> ParentExtends(ExecAfter(s.nodes[i].commits[..k]), b)
  {
    var n := s.nodes[i];
    ExecutedIsPath(w, s, i);
    var last, exec := n.bExec, ExecAfter(n.commits[..k]);
    assert n.commits[..|n.commits|] == n.commits;
    ExecutedDescends(w, s, i, k, |n.commits|);
    PathElements(last, b);
    if b in n.executed {
      CertIsParent(w, s.hist, last, b);
      AncestorsAreLinear(last, exec, b);
    }
    if ParentExtends(exec, b) {
      ParentExtendsTransitive(last, exec, b);
      ParentIsCert(w, s.hist, last, b);
    }
  }

  // ---- the store over a run ----

  predicate Grew(ch: Chain, next: Chain) {
    ch.blocks.Keys <= next.blocks.Keys
  }

  /** The ancestors of `b` are held or can be fetched. */
  ghost predicate Finds(ch: Chain, b: Block, fetch: Hash -> bool) {
    forall a :: ParentExtends(b, a) ==> ch.Holds(a) || fetch(BlockHash(a))
  }

  ghost predicate AllHeld(ch: Chain, b: Block) {
    forall a :: ParentExtends(b, a) ==> ch.Holds(a)
  }

  lemma {:induction false} LookedUpGrows(ch: Chain, exec: Block, b: Block, fetch: Hash -> bool)
    ensures Grew(ch, LookedUp(ch, exec, b, fetch))
    ensures LookedUp(ch, exec, b, fetch).pruneHeight == ch.pruneHeight
    decreases b
  {
    if exec.view < b.view && b.parent.BlockHash? && (b.parent in ch.blocks || fetch(b.parent)) {
      LookedUpGrows(if b.parent in ch.blocks then ch else ch.Add(b.parent.block), exec, b.parent.block, fetch);
    }
  }

  lemma AddIsIndexed(ch: Chain, b: Block, last: Chain)
    requires ch.Filed() && Indexed(ch) && Grew(ch.Add(b), last) && last.OnePerView()
    ensures ch.Add(b).Filed() && Indexed(ch.Add(b))
  {
    var next := ch.Add(b);
    forall a: Block | next.Holds(a) && a.view > next.pruneHeight
      ensures a.view in next.atHeight && next.atHeight[a.view] == a
    {
      assert last.Holds(a) && last.Holds(b);
    }
  }

  lemma {:induction false} LookedUpIsIndexed(ch: Chain, exec: Block, b: Block, fetch: Hash -> bool, last: Chain)
    requires ch.Filed() && Indexed(ch) && Grew(LookedUp(ch, exec, b, fetch), last) && last.OnePerView()
    ensures LookedUp(ch, exec, b, fetch).Filed() && Indexed(LookedUp(ch, exec, b, fetch))
    decreases b
  {
    if exec.view < b.view && b.parent.BlockHash? && (b.parent in ch.blocks || fetch(b.parent)) {
      var p := b.parent.block;
      if b.parent in ch.blocks {
        LookedUpIsIndexed(ch, exec, p, fetch, last);
      } else {
        LookedUpGrows(ch.Add(p), exec, p, fetch);
        AddIsIndexed(ch, p, last);
        LookedUpIsIndexed(ch.Add(p), exec, p, fetch, last);
      }
    }
  }

  /** commitInner stores the ancestors of the committed block down to the executed one. */
  lemma {:induction false} LookedUpHolds(ch: Chain, exec: Block, b: Block, fetch: Hash -> bool)
    requires ch.Holds(b) && ParentExtends(b, exec) && Descending(b) && AllHeld(ch, exec) && Finds(ch, b, fetch)
    ensures AllHeld(LookedUp(ch, exec, b, fetch), b)
    decreases b
  {
    LookedUpGrows(ch, exec, b, fetch);
    if b == exec {
    } else {
      var p := b.parent.block;
      DescendingParent(b);
      AncestorsAreLower(p, exec);
      assert ParentExtends(b, p);
      assert forall a :: ParentExtends(p, a) ==> ParentExtends(b, a);
      LookedUpHolds(if ch.Holds(p) then ch else ch.Add(p), exec, p, fetch);
    }
  }

  /** The store when a commit comes to pruning: the commit rule has looked up the block, and commitInner its
      ancestors. */
  function AtPruning(ch: Chain, exec: Block, b: Block, fetch: Hash -> bool): Chain {
    LookedUp(if ch.Holds(b) || !fetch(BlockHash(b)) then ch else ch.Add(b), exec, b, fetch)
  }

  /** The store is well filed, and holds the executed block with its ancestors. */
  ghost predicate StoreOk(ch: Chain, exec: Block) {
    ch.Filed() && Indexed(ch) && AllHeld(ch, exec)
  }

  /** It is so when a commit comes to pruning. */
  lemma CommitHolds(ch: Chain, exec: Block, b: Block, fetch: Hash -> bool, last: Chain)
    requires StoreOk(ch, exec) && Finds(ch, b, fetch)
    requires Descending(Higher(exec, b)) && ParentExtends(Higher(exec, b), exec)
    requires last.OnePerView() && Grew(AtPruning(ch, exec, b, fetch), last)
    ensures StoreOk(AtPruning(ch, exec, b, fetch), Higher(exec, b))
  {
    var ch1 := if ch.Holds(b) || !fetch(BlockHash(b)) then ch else ch.Add(b);
    LookedUpGrows(ch1, exec, b, fetch);
    if ch1 != ch {
      AddIsIndexed(ch, b, last);
    }
    LookedUpIsIndexed(ch1, exec, b, fetch, last);
    if exec.view < b.view {
      assert ParentExtends(b, b);
      LookedUpHolds(ch1, exec, b, fetch);
    }
  }

  lemma PruningHolds(ch: Chain, exec: Block, height: View)
    requires StoreOk(ch, exec) && ch.pruneHeight <= height
    ensures StoreOk(ch.Pruned(height), exec)
  {
    assert forall b: Block :: ch.Pruned(height).Holds(b) <==> ch.Holds(b);
  }

  lemma AtPruningGrows(ch: Chain, exec: Block, b: Block, fetch: Hash -> bool)
    ensures Grew(ch, AtPruning(ch, exec, b, fetch)) && AtPruning(ch, exec, b, fetch).pruneHeight == ch.pruneHeight
  {
    LookedUpGrows(if ch.Holds(b) || !fetch(BlockHash(b)) then ch else ch.Add(b), exec, b, fetch);
  }

  /** A block is stored; or one is committed, while `fetch` says what can be fetched. */
  datatype Item = Stores(b: Block) | Commits(b: Block, fetch: Hash -> bool)

  /** A run of the store: before item `k`, and at the end, the store is `chains[k]` and the executed block `execs[k]`.
      */
  datatype Run = Run(items: seq<Item>, chains: seq<Chain>, execs: seq<Block>)
  {
    predicate Valid() {
      && |chains| == |execs| == |items| + 1
      && chains[0] == EmptyChain.Add(Genesis) && execs[0] == Genesis
      && forall k :: 0 <= k < |items| ==> Does(k)
    }

    predicate Does(k: nat)
      requires k < |items| && |chains| == |execs| == |items| + 1
    {
      match items[k]
      case Stores(b) => chains[k + 1] == chains[k].Add(b) && execs[k + 1] == execs[k]
      case Commits(b, _) => chains[k + 1] == Mid(k).Pruned(b.view) && execs[k + 1] == Higher(execs[k], b)
    }

    /** The store when the commit of item `k` comes to pruning. */
    function Mid(k: nat): Chain
      requires k < |items| && |chains| == |execs| == |items| + 1 && items[k].Commits?
    {
      AtPruning(chains[k], execs[k], items[k].b, items[k].fetch)
    }

    /** The blocks that this commit hands to the fork handler. */
    function Report(k: nat): seq<Block>
      requires k < |items| && |chains| == |execs| == |items| + 1 && items[k].Commits?
    {
      Mid(k).Forked(execs[k + 1].view, items[k].b.view, execs[k + 1].view)
    }

    /** One block is stored per view; the store is pruned to non-decreasing views; and the ancestors of a committed
        block, which are certified, can be found. */
    ghost predicate Good() {
      && Valid()
      && chains[|items|].OnePerView()
      && forall k :: 0 <= k < |items| && items[k].Commits? ==>
           chains[k].pruneHeight <= items[k].b.view && Finds(chains[k], items[k].b, items[k].fetch)
    }

    /** Executed blocks descend and extend those executed before. */
    ghost predicate Linear() {
      forall j, k :: 0 <= j <= k < |execs| ==> Descending(execs[k]) && ParentExtends(execs[k], execs[j])
    }
  }

  /** The store only grows, and is pruned further and further. */
  lemma {:induction false} RunGrows(r: Run, j: nat, k: nat)
    requires r.Good() && j <= k <= |r.items|
    ensures Grew(r.chains[j], r.chains[k]) && r.chains[j].pruneHeight <= r.chains[k].pruneHeight
    decreases k - j
  {
    if j < k {
      assert r.Does(j);
      if r.items[j].Commits? {
        AtPruningGrows(r.chains[j], r.execs[j], r.items[j].b, r.items[j].fetch);
      }
      RunGrows(r, j + 1, k);
    }
  }

  /** What is known of the store when the commit of item `k` comes to pruning. */
  lemma MidHolds(r: Run, k: nat)
    requires r.Good() && r.Linear() && k < |r.items| && r.items[k].Commits? && StoreOk(r.chains[k], r.execs[k])
    ensures StoreOk(r.Mid(k), r.execs[k + 1]) && r.Mid(k).OnePerView()
    ensures r.Mid(k).pruneHeight == r.chains[k].pruneHeight
  {
    var ch, exec, b, fetch, last := r.chains[k], r.execs[k], r.items[k].b, r.items[k].fetch, r.chains[|r.items|];
    assert r.Does(k);
    AtPruningGrows(ch, exec, b, fetch);
    RunGrows(r, k + 1, |r.items|);
    CommitHolds(ch, exec, b, fetch, last);
    MidOnePerView(r.Mid(k), last);
  }

  lemma MidOnePerView(ch: Chain, last: Chain)
    requires Grew(ch, last) && last.OnePerView()
    ensures ch.OnePerView()
  {
    assert forall b: Block :: ch.Holds(b) ==> last.Holds(b);
  }

  lemma {:induction false} RunHolds(r: Run, k: nat)
    requires r.Good() && r.Linear() && k <= |r.items|
    ensures StoreOk(r.chains[k], r.execs[k])
  {
    if k > 0 {
      var j := k - 1;
      RunHolds(r, j);
      assert r.Does(j);
      match r.items[j]
      case Stores(b) =>
        RunGrows(r, k, |r.items|);
        AddIsIndexed(r.chains[j], b, r.chains[|r.items|]);
      case Commits(b, _) =>
        MidHolds(r, j);
        PruningHolds(r.Mid(j), r.execs[k], b.view);
    }
  }

  /** A commit reports exactly the blocks held for the views it prunes that are off the executed chain, and the walk
      along that chain ends. */
  lemma ReportIsOff(r: Run, k: nat, b: Block)
    requires r.Good() && r.Linear() && k < |r.items| && r.items[k].Commits?
    ensures r.Mid(k).Stops(r.execs[k + 1].view, r.execs[k + 1].view)
    ensures b in r.Report(k) <==>
      && r.Mid(k).Holds(b) && r.chains[k].pruneHeight < b.view <= r.items[k].b.view
      && !ParentExtends(r.execs[k + 1], b)
  {
    RunHolds(r, k);
    MidHolds(r, k);
    var exec := r.execs[k + 1];
    assert Descending(exec) && ParentExtends(exec, exec);
    ForkedExactly(r.Mid(k), exec, r.items[k].b.view, exec.view, b);
  }

  // ---- the store of a replica ----

  function Committed(items: seq<Item>): seq<Block> {
    if items == [] then [] else
    Committed(items[..|items| - 1]) + if items[|items| - 1].Commits? then [items[|items| - 1].b] else []
  }

  function BlocksOf(cs: seq<Commit>): seq<Block> {
    seq(|cs|, k requires 0 <= k < |cs| => cs[k].block)
  }

  /** The executed block before item `k` is that after as many commits of the replica. */
  lemma {:induction false} ExecIsAfter(r: Run, cs: seq<Commit>, k: nat)
    requires r.Valid() && k <= |r.items| && Committed(r.items[..k]) <= BlocksOf(cs)
    ensures |Committed(r.items[..k])| <= |cs| && r.execs[k] == ExecAfter(cs[..|Committed(r.items[..k])|])
  {
    assert |BlocksOf(cs)| == |cs|;
    if k == 0 {
      assert r.items[..0] == [] && cs[..0] == [];
    } else {
      var j := k - 1;
      assert r.items[..k][..j] == r.items[..j];
      ExecIsAfter(r, cs, j);
      assert r.Does(j);
      if r.items[j].Commits? {
        var m := |Committed(r.items[..j])|;
        assert Committed(r.items[..k])[m] == r.items[j].b == BlocksOf(cs)[m] == cs[m].block;
        assert cs[..m + 1][..m] == cs[..m];
      }
    }
  }

  lemma {:induction false} CommittedGrows(items: seq<Item>, k: nat)
    requires k <= |items|
    ensures Committed(items[..k]) <= Committed(items)
    decreases |items|
  {
    if k == |items| {
      assert items[..k] == items;
    } else {
      var init := items[..|items| - 1];
      assert init[..k] == items[..k];
      CommittedGrows(init, k);
    }
  }

  /** When `b` is committed, at a point of the run where the history is `hist`, it is certified, and blocks that are
      certified are held or can be fetched. */
  ghost predicate CommittedWhen(w: World, hist: seq<Act>, ch: Chain, b: Block, fetch: Hash -> bool) {
    && Certified(w, hist, BlockHash(b))
    && forall a: Block :: Certified(w, hist, BlockHash(a)) ==> ch.Holds(a) || fetch(BlockHash(a))
  }

  /** It is so at every commit of a replica whose store holds what the replica has stored. */
  lemma CommitsWhen(w: World, hist: seq<Act>, c: Env, n: Node, ch: Chain, x: Commit)
    requires w.Valid() && GoodHistory(w, hist) && Fetchable(w, c, hist, n) && GoodCommit(w, hist, x)
    requires forall b: Block :: b in n.blocks ==> ch.Holds(b)
    ensures CommittedWhen(w, hist, ch, x.block, c.fetch)
  {
    CommitIsCertified(w, hist, x);
    forall a: Block | Certified(w, hist, BlockHash(a)) ensures ch.Holds(a) || c.fetch(BlockHash(a)) {
      assert Get(c, n, BlockHash(a)).Some?;
    }
  }

  /** The ancestors of a committed block can then be found, because they are certified. */
  lemma {:induction false} CommittedIsFound(
      w: World, hist: seq<Act>, more: seq<Act>, ch: Chain, b: Block, fetch: Hash -> bool)
    requires w.Valid() && GoodHistory(w, more) && ParentsMatch(w, more) && hist <= more
    requires CommittedWhen(w, hist, ch, b, fetch)
    ensures Finds(ch, b, fetch)
  {
    assert more[..|hist|] == hist;
    GoodPrefix(w, more, |hist|);
    AssumedShrinks(w, hist, more);
    FoundIn(w, hist, ch, b, fetch);
  }

  lemma {:induction false} FoundIn(w: World, hist: seq<Act>, ch: Chain, b: Block, fetch: Hash -> bool)
    requires w.Valid() && GoodHistory(w, hist) && ParentsMatch(w, hist) && CommittedWhen(w, hist, ch, b, fetch)
    ensures Finds(ch, b, fetch)
  {
    forall a | ParentExtends(b, a) ensures ch.Holds(a) || fetch(BlockHash(a)) {
      ParentIsCert(w, hist, b, a);
      AncestorsCertified(w, hist, b, a);
    }
  }

  /** The store of a replica, over the commits that the replica has made in a reachable state: one block is stored per
      view, and the store is pruned to non-decreasing views. */
  ghost predicate StoreOf(w: World, s: System, i: ID, r: Run) {
    && Reachable(w, s) && i in s.nodes && LogAssumed(w, s.hist, s.nodes[i].commits)
    && r.Valid() && Committed(r.items) <= BlocksOf(s.nodes[i].commits)
    && r.chains[|r.items|].OnePerView()
    && forall k :: 0 <= k < |r.items| && r.items[k].Commits? ==>
         && r.chains[k].pruneHeight <= r.items[k].b.view
         && exists hist :: hist <= s.hist && CommittedWhen(w, hist, r.chains[k], r.items[k].b, r.items[k].fetch)
  }

  lemma StoreIsGood(w: World, s: System, i: ID, r: Run)
    requires StoreOf(w, s, i, r)
    ensures r.Good()
  {
    ReachableInv(w, s);
    forall k | 0 <= k < |r.items| && r.items[k].Commits? ensures Finds(r.chains[k], r.items[k].b, r.items[k].fetch) {
      var hist :| hist <= s.hist && CommittedWhen(w, hist, r.chains[k], r.items[k].b, r.items[k].fetch);
      CommittedIsFound(w, hist, s.hist, r.chains[k], r.items[k].b, r.items[k].fetch);
    }
  }

  lemma StoreIsLinear(w: World, s: System, i: ID, r: Run)
    requires StoreOf(w, s, i, r)
    ensures r.Linear()
  {
    var cs := s.nodes[i].commits;
    forall j, k | 0 <= j <= k < |r.execs| ensures Descending(r.execs[k]) && ParentExtends(r.execs[k], r.execs[j]) {
      CommittedGrows(r.items, k);
      CommittedGrows(r.items[..k], j);
      assert r.items[..k][..j] == r.items[..j];
      ExecIsAfter(r, cs, j);
      ExecIsAfter(r, cs, k);
      ExecutedDescends(w, s, i, |Committed(r.items[..j])|, |Committed(r.items[..k])|);
    }
  }

  /** A replica's commit reports exactly the blocks held for the views it prunes that the replica never executes,
      neither before nor after; and the walk by which it finds out ends. */
  lemma ReportedExactly(w: World, s: System, i: ID, r: Run, k: nat, b: Block)
    requires StoreOf(w, s, i, r) && k < |r.items| && r.items[k].Commits?
    ensures r.Mid(k).Stops(r.execs[k + 1].view, r.execs[k + 1].view)
    ensures b in r.Report(k) <==>
      && r.Mid(k).Holds(b) && r.chains[k].pruneHeight < b.view <= r.items[k].b.view
      && b !in s.nodes[i].executed
  {
    var cs := s.nodes[i].commits;
    StoreIsGood(w, s, i, r);
    StoreIsLinear(w, s, i, r);
    ReportIsOff(r, k, b);
    assert r.Does(k);
    if r.chains[k].pruneHeight < b.view <= r.items[k].b.view {
      CommittedGrows(r.items, k + 1);
      ExecIsAfter(r, cs, k + 1);
      ExecutedExactly(w, s, i, |Committed(r.items[..k + 1])|, b);
    }
  }

  /** No block is reported twice. */
  lemma NoneReportedTwice(w: World, s: System, i: ID, r: Run, j: nat, k: nat, b: Block)
    requires StoreOf(w, s, i, r) && j < k < |r.items| && r.items[j].Commits? && r.items[k].Commits?
    ensures b in r.Report(j) ==> b !in r.Report(k)
  {
    StoreIsGood(w, s, i, r);
    StoreIsLinear(w, s, i, r);
    ReportIsOff(r, j, b);
    ReportIsOff(r, k, b);
    assert r.Does(j);
    RunGrows(r, j + 1, k);
  }
}
