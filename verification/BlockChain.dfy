/** The block store (blockchain/blockchain.go): ancestry and pruning. */
module BlockChains {
  import opened Types
  import opened Quorums
  import opened Handlers

  // ---- ancestry ----

  /** Every parent link above `b` leads to a smaller view. */
  ghost predicate Descending(b: Block) {
    forall a :: ParentExtends(b, a) && a.parent.BlockHash? ==> a.parent.block.view < a.view
  }

  lemma {:induction false} ParentExtendsTransitive(c: Block, b: Block, a: Block)
    requires ParentExtends(c, b) && ParentExtends(b, a)
    ensures ParentExtends(c, a)
    decreases c
  {
    if b != c {
      ParentExtendsTransitive(c.parent.block, b, a);
    }
  }

  lemma DescendingParent(b: Block)
    requires Descending(b) && b.parent.BlockHash?
    ensures Descending(b.parent.block) && b.parent.block.view < b.view
  {
    assert ParentExtends(b, b);
  }

  lemma {:induction false} AncestorsAreLower(b: Block, a: Block)
    requires Descending(b) && ParentExtends(b, a)
    ensures Descending(a) && (a == b || a.view < b.view)
    decreases b
  {
    if a != b {
      DescendingParent(b);
      AncestorsAreLower(b.parent.block, a);
    }
  }

  /** Of two ancestors of a block, the lower one is an ancestor of the other. */
  lemma {:induction false} AncestorsAreLinear(c: Block, b: Block, a: Block)
    requires Descending(c) && ParentExtends(c, b) && ParentExtends(c, a) && a.view <= b.view
    ensures ParentExtends(b, a)
    decreases c
  {
    if c != b {
      DescendingParent(c);
      AncestorsAreLower(c.parent.block, b);
      if a == c {
        assert false;
      }
      AncestorsAreLinear(c.parent.block, b, a);
    }
  }

  /** The parents of the ancestors of `b` above view `v` can be found. */
  ghost predicate ParentsFound(c: Env, n: Node, b: Block, v: View) {
    forall a :: ParentExtends(b, a) && a.view > v && a.parent.BlockHash? ==> Get(c, n, a.parent).Some?
  }

  /** In any store, a positive answer of the walk means ancestry. Where links descend and the parents above the target's
      view can be found, the walk answers exactly whether the target is the block or one of its ancestors. */
  lemma {:induction false} ExtendsExactly(c: Env, n: Node, b: Block, target: Block)
    ensures Extends(c, n, b, target) ==> ParentExtends(b, target)
    ensures Descending(b) && ParentsFound(c, n, b, target.view) ==>
      (Extends(c, n, b, target) <==> ParentExtends(b, target))
    decreases b
  {
    if b.view > target.view && b.parent.BlockHash? {
      ExtendsExactly(c, n, b.parent.block, target);
      assert ParentExtends(b, b);
      assert forall a :: ParentExtends(b.parent.block, a) ==> ParentExtends(b, a);
    } else if Descending(b) && ParentExtends(b, target) {
      AncestorsAreLower(b, target);
    }
  }

  // ---- the store ----

  /** The value of the store: blocks by digest, blocks by view, and the height up to which it has been pruned. */
  datatype Chain = Chain(pruneHeight: View, blocks: map<Hash, Block>, atHeight: map<View, Block>)
  {
    /** Entries are filed under their own digests and views. */
    ghost predicate Filed() {
      && (forall h :: h in blocks ==> h == BlockHash(blocks[h]))
      && (forall v :: v in atHeight ==> atHeight[v].view == v && Holds(atHeight[v]))
    }

    /** At most one block is held per view. */
    ghost predicate OnePerView() {
      forall a: Block, b: Block :: Holds(a) && Holds(b) && a.view == b.view ==> a == b
    }

    predicate Holds(b: Block) {
      BlockHash(b) in blocks
    }

    function Add(b: Block): Chain {
      Chain(pruneHeight, blocks[BlockHash(b) := b], atHeight[b.view := b])
    }

    /** The block whose parent the walk from view `h` goes on to. */
    function Below(h: View): Option<Block> {
      if h >= pruneHeight && h in atHeight && atHeight[h].parent in blocks
         && blocks[atHeight[h].parent].view >= pruneHeight
      then Some(blocks[atHeight[h].parent]) else None
    }

    /** The walk from view `h` along parents ends after at most `n` steps. */
    predicate Stops(h: View, n: nat)
      decreases n
    {
      Below(h).Some? ==> n > 0 && Stops(Below(h).value.view, n - 1)
    }

    /** The views visited on that walk. */
    function Visited(h: View, n: nat): set<View>
      decreases n
    {
      {h} + if Below(h).Some? && n > 0 then Visited(Below(h).value.view, n - 1) else {}
    }

    /** The blocks in the views (low, high] other than those in `kept`, highest first. */
    function Others(kept: set<View>, low: View, high: View): seq<Block>
      decreases high
    {
      if high <= low then [] else
      (if high !in kept && high in atHeight then [atHeight[high]] else []) + Others(kept, low, high - 1)
    }

    /** The blocks that pruning to `height` reports, if the walk from the view `committed` ends after `n` steps. */
    function Forked(committed: View, height: View, n: nat): seq<Block> {
      Others(Visited(committed, n), pruneHeight, height)
    }

    /** What is found by view without the views (low, high]. */
    function Swept(low: View, high: View): map<View, Block> {
      map v | v in atHeight && !(low < v <= high) :: atHeight[v]
    }

    function Pruned(height: View): Chain {
      Chain(height, blocks, Swept(pruneHeight, height))
    }
  }

  const EmptyChain := Chain(0, map[], map[])

  lemma {:induction false} SweptStep(ch: Chain, h: View, height: View)
    requires 0 < h <= height
    ensures h in ch.Swept(h, height) <==> h in ch.atHeight
    ensures h in ch.atHeight ==> ch.Swept(h, height)[h] == ch.atHeight[h]
    ensures ch.Swept(h, height) - {h} == ch.Swept(h - 1, height)
  {
  }

  lemma {:induction false} OthersStep(ch: Chain, kept: set<View>, low: View, h: View, forked: seq<Block>)
    requires low < h
    ensures forked + ch.Others(kept, low, h)
         == (if h !in kept && h in ch.atHeight then forked + [ch.atHeight[h]] else forked) + ch.Others(kept, low, h - 1)
  {
  }

  /** The store as an object that is updated in place. */
  class BlockChain {
    var pruneHeight: View
    var blocks: map<Hash, Block>
    var blockAtHeight: map<View, Block>
    var pendingFetch: set<Hash>

    ghost function Value(): Chain
      reads this
    {
      Chain(pruneHeight, blocks, blockAtHeight)
    }

    constructor ()
      ensures Value() == EmptyChain.Add(Genesis) && pendingFetch == {}
    {
      pruneHeight, pendingFetch := 0, {};
      blocks, blockAtHeight := map[GenesisHash := Genesis], map[0 := Genesis];
    }

    method Store(b: Block)
      modifies this`blocks, this`blockAtHeight
      ensures Value() == old(Value()).Add(b)
    {
      blocks := blocks[BlockHash(b) := b];
      blockAtHeight := blockAtHeight[b.view := b];
    }

    /** `fetched` is what the other replicas answer if they are asked: nothing, or a block with the requested digest. */
    method Get(h: Hash, fetched: Option<Block>) returns (r: Option<Block>)
      requires fetched.Some? ==> h == BlockHash(fetched.value)
      modifies this
      ensures pendingFetch == old(pendingFetch) - if h in old(blocks) then {} else {h}
      ensures r == if h in old(blocks) then Some(old(blocks)[h]) else fetched
      ensures Value() == if h in old(blocks) || fetched.None? then old(Value()) else old(Value()).Add(fetched.value)
    {
      if h in blocks {
        return Some(blocks[h]);
      }
      pendingFetch := pendingFetch + {h};
      r := fetched;
      pendingFetch := pendingFetch - {h};
      if r.None? {
        return;
      }
      blocks := blocks[h := r.value];
      blockAtHeight := blockAtHeight[r.value.view := r.value];
    }

    /** The views on the committed chain, down to the pruned ones. The loop ends if the walk does. */
    method CommittedViews(committed: View, ghost n: nat) returns (views: set<View>)
      requires Value().Stops(committed, n)
      ensures views == Value().Visited(committed, n)
    {
      views := {committed};
      var h: View := committed;
      ghost var left := n;
      while h >= pruneHeight
        invariant Value().Stops(h, left)
        invariant h in views && views + Value().Visited(h, left) == Value().Visited(committed, n)
        decreases left
      {
        if h !in blockAtHeight {
          break;
        }
        var block := blockAtHeight[h];
        if block.parent !in blocks || blocks[block.parent].view < pruneHeight {
          break;
        }
        h := blocks[block.parent].view;
        views := views + {h};
        left := left - 1;
      }
    }

    /** Forgets by view what is up to `height`, and returns the blocks there that are not in the views `kept`. */
    method Sweep(kept: set<View>, height: View) returns (forked: seq<Block>)
      modifies this`blockAtHeight
      ensures forked == old(Value()).Others(kept, pruneHeight, height)
      ensures blockAtHeight == old(Value()).Pruned(height).atHeight
    {
      ghost var ch := Value();
      forked := [];
      var h: View := height;
      while h > pruneHeight
        invariant h <= height && (h == height || h >= pruneHeight)
        invariant blockAtHeight == ch.Swept(h, height)
        invariant forked + ch.Others(kept, pruneHeight, h) == ch.Others(kept, pruneHeight, height)
        decreases h
      {
        SweptStep(ch, h, height);
        OthersStep(ch, kept, pruneHeight, h, forked);
        if h !in kept && h in blockAtHeight {
          forked := forked + [blockAtHeight[h]];
        }
        blockAtHeight := blockAtHeight - {h};
        h := h - 1;
      }
      assert ch.Others(kept, pruneHeight, h) == [];
      assert ch.Swept(h, height) == ch.Swept(pruneHeight, height);
    }

    /** Forgets by view what is up to `height`, and returns the blocks there that are off the committed chain. */
    method PruneToHeight(committed: View, height: View, ghost n: nat) returns (forked: seq<Block>)
      requires Value().Stops(committed, n)
      modifies this`pruneHeight, this`blockAtHeight
      ensures forked == old(Value()).Forked(committed, height, n)
      ensures Value() == old(Value()).Pruned(height)
    {
      var committedViews := CommittedViews(committed, n);
      forked := Sweep(committedViews, height);
      pruneHeight := height;
    }
  }

  // ---- what pruning returns ----

  /** The block held for a view above the pruned ones is found under that view. */
  ghost predicate Indexed(ch: Chain) {
    forall b: Block :: ch.Holds(b) && b.view > ch.pruneHeight ==> b.view in ch.atHeight && ch.atHeight[b.view] == b
  }

  /** The ancestors of `b` above the pruned views are held. */
  ghost predicate AncestorsHeld(ch: Chain, b: Block) {
    forall a :: ParentExtends(b, a) && a.view > ch.pruneHeight ==> ch.Holds(a)
  }

  // ---- when the walk ends ----

  /** The view that the walk from `h` visits after `k` steps, if it gets so far. */
  function ViewAfter(ch: Chain, h: View, k: nat): Option<View>
    decreases k
  {
    if k == 0 then Some(h) else
    if ch.Below(h).None? then None else ViewAfter(ch, ch.Below(h).value.view, k - 1)
  }

  /** The walk visits no view twice. */
  ghost predicate NoViewTwice(ch: Chain, h: View) {
    forall i: nat, j: nat :: i < j && ViewAfter(ch, h, j).Some? ==> ViewAfter(ch, h, i) != ViewAfter(ch, h, j)
  }

  lemma {:induction false} StopsAfter(ch: Chain, h: View, n: nat)
    ensures ch.Stops(h, n) <==> ViewAfter(ch, h, n + 1).None?
    decreases n
  {
    if ch.Below(h).Some? && n > 0 {
      StopsAfter(ch, ch.Below(h).value.view, n - 1);
    }
  }

  lemma {:induction false} ViewAfterSum(ch: Chain, h: View, i: nat, j: nat)
    ensures ViewAfter(ch, h, i + j)
         == if ViewAfter(ch, h, i).None? then None else ViewAfter(ch, ViewAfter(ch, h, i).value, j)
    decreases i
  {
    if i > 0 && ch.Below(h).Some? {
      ViewAfterSum(ch, ch.Below(h).value.view, i - 1, j);
    }
  }

  lemma {:induction false} EarlierVisited(ch: Chain, h: View, i: nat, j: nat)
    requires i <= j && ViewAfter(ch, h, j).Some?
    ensures ViewAfter(ch, h, i).Some?
  {
    ViewAfterSum(ch, h, i, j - i);
  }

  /** A walk that comes back to where it was goes on for ever. */
  lemma {:induction false} Cycles(ch: Chain, v: View, d: nat, m: nat)
    requires d > 0 && ViewAfter(ch, v, d) == Some(v)
    ensures ViewAfter(ch, v, m).Some?
    decreases m
  {
    if m <= d {
      EarlierVisited(ch, v, m, d);
    } else {
      ViewAfterSum(ch, v, d, m - d);
      Cycles(ch, v, d, m - d);
    }
  }

  ghost predicate VisitedBefore(ch: Chain, h: View, k: nat, v: View) {
    exists i: nat :: i < k && ViewAfter(ch, h, i) == Some(v)
  }

  lemma {:induction false} VisitedViews(ch: Chain, h: View, k: nat) returns (views: set<View>)
    requires NoViewTwice(ch, h) && ViewAfter(ch, h, k).Some?
    ensures |views| == k && views <= ch.atHeight.Keys
    ensures forall v :: v in views ==> VisitedBefore(ch, h, k, v)
  {
    views := {};
    if k > 0 {
      EarlierVisited(ch, h, k - 1, k);
      views := VisitedViews(ch, h, k - 1);
      var v := ViewAfter(ch, h, k - 1).value;
      ViewAfterSum(ch, h, k - 1, 1);
      assert ch.Below(v).Some?;
      forall u | u in views ensures u != v {
        var i: nat :| i < k - 1 && ViewAfter(ch, h, i) == Some(u);
      }
      views := views + {v};
    }
  }

  /** The walk ends exactly if it visits no view twice. */
  lemma WalkEndsExactly(ch: Chain, h: View)
    ensures (exists n: nat :: ch.Stops(h, n)) <==> NoViewTwice(ch, h)
  {
    if n: nat :| ch.Stops(h, n) {
      forall i: nat, j: nat | i < j && ViewAfter(ch, h, j).Some? ensures ViewAfter(ch, h, i) != ViewAfter(ch, h, j) {
        if ViewAfter(ch, h, i) == ViewAfter(ch, h, j) {
          var v := ViewAfter(ch, h, j).value;
          ViewAfterSum(ch, h, i, j - i);
          Cycles(ch, v, j - i, n + 1);
          ViewAfterSum(ch, h, i, n + 1);
          EarlierVisited(ch, h, n + 1, i + (n + 1));
          StopsAfter(ch, h, n);
        }
      }
    }
    if NoViewTwice(ch, h) {
      var n := |ch.atHeight.Keys|;
      StopsAfter(ch, h, n);
      if ViewAfter(ch, h, n + 1).Some? {
        var views := VisitedViews(ch, h, n + 1);
        CardinalitySubset(views, ch.atHeight.Keys);
      }
    }
  }

  function Depth(b: Block): nat
    decreases b
  {
    if b.parent.BlockHash? then 1 + Depth(b.parent.block) else 0
  }

  /** With one block held per view, the walk from a block held goes to its parent. */
  lemma {:induction false} BelowHeld(ch: Chain, b: Block)
    requires ch.Filed() && ch.OnePerView() && ch.Holds(b) && ch.Below(b.view).Some?
    ensures b.parent.BlockHash? && ch.Below(b.view).value == b.parent.block && ch.Holds(b.parent.block)
    ensures b.view >= ch.pruneHeight && b.parent.block.view >= ch.pruneHeight
  {
    assert ch.atHeight[b.view] == b;
  }

  lemma {:induction false} HeldWalkEnds(ch: Chain, b: Block)
    requires ch.Filed() && ch.OnePerView() && ch.Holds(b)
    ensures ch.Stops(b.view, Depth(b))
    decreases b
  {
    if ch.Below(b.view).Some? {
      BelowHeld(ch, b);
      HeldWalkEnds(ch, b.parent.block);
    }
  }

  /** With one block held per view every walk ends, whatever the views of the parents. */
  lemma WalkEnds(ch: Chain, h: View)
    requires ch.Filed() && ch.OnePerView()
    ensures exists n: nat :: ch.Stops(h, n)
  {
    if h in ch.atHeight {
      HeldWalkEnds(ch, ch.atHeight[h]);
    } else {
      assert ch.Stops(h, 0);
    }
  }

  /** With two blocks of one view it need not: if the second one stored has the first as its parent, it never does. */
  lemma {:induction false} SameViewNeverEnds(ch: Chain, x: Block, a: Block, n: nat)
    requires a.view == x.view >= ch.pruneHeight && a.parent == BlockHash(x)
    ensures !ch.Add(x).Add(a).Stops(a.view, n)
    decreases n
  {
    var next := ch.Add(x).Add(a);
    assert next.Below(a.view) == Some(x);
    if n > 0 {
      SameViewNeverEnds(ch, x, a, n - 1);
    }
  }

  /** Once the walk has ended, more steps make no difference. */
  lemma {:induction false} VisitedStays(ch: Chain, h: View, m: nat, n: nat)
    requires ch.Stops(h, m) && ch.Stops(h, n)
    ensures ch.Visited(h, m) == ch.Visited(h, n)
    decreases m
  {
    if ch.Below(h).Some? {
      VisitedStays(ch, ch.Below(h).value.view, m - 1, n - 1);
    }
  }

  // ---- what the walk visits ----

  /** Along descending parents the walk takes no more steps than there are views. */
  lemma {:induction false} DescendingWalkEnds(ch: Chain, b: Block, n: nat)
    requires ch.Filed() && ch.OnePerView() && ch.Holds(b) && Descending(b) && b.view <= n
    ensures ch.Stops(b.view, n)
    decreases b
  {
    if ch.Below(b.view).Some? {
      BelowHeld(ch, b);
      DescendingParent(b);
      DescendingWalkEnds(ch, b.parent.block, n - 1);
    }
  }

  lemma NoneAbove(b: Block, v: View)
    requires Descending(b) && b.view < v
    ensures !Passes(b, v)
  {
    forall a | ParentExtends(b, a) ensures a.view != v {
      AncestorsAreLower(b, a);
    }
  }

  /** One of the ancestors of `b` is in view `v`. */
  ghost predicate Passes(b: Block, v: View) {
    exists a :: ParentExtends(b, a) && a.view == v
  }

  lemma {:induction false} PassesStep(b: Block, v: View)
    ensures Passes(b, v) <==> b.view == v || (b.parent.BlockHash? && Passes(b.parent.block, v))
  {
    if b.view == v {
      assert ParentExtends(b, b);
    } else if b.parent.BlockHash? && Passes(b.parent.block, v) {
      var a :| ParentExtends(b.parent.block, a) && a.view == v;
      assert ParentExtends(b, a);
    }
  }

  lemma {:induction false} HeldParent(ch: Chain, b: Block)
    requires AncestorsHeld(ch, b) && b.parent.BlockHash?
    ensures AncestorsHeld(ch, b.parent.block) && (b.parent.block.view > ch.pruneHeight ==> ch.Holds(b.parent.block))
  {
    assert ParentExtends(b.parent.block, b.parent.block);
    forall a | ParentExtends(b.parent.block, a) ensures ParentExtends(b, a) {
    }
  }

  /** The walk goes from a block above the pruned views to its parent, if that is held and not below them. */
  lemma {:induction false} BelowIsParent(ch: Chain, b: Block)
    requires ch.Filed() && Indexed(ch) && ch.Holds(b) && b.view > ch.pruneHeight
    ensures ch.Below(b.view) ==
      if b.parent.BlockHash? && ch.Holds(b.parent.block) && b.parent.block.view >= ch.pruneHeight
      then Some(b.parent.block) else None
  {
  }

  lemma {:induction false} VisitedStep(ch: Chain, b: Block, n: nat, v: View)
    requires ch.Filed() && Indexed(ch) && ch.Holds(b) && b.view > ch.pruneHeight && n > 0
    ensures v in ch.Visited(b.view, n) <==>
      v == b.view || (b.parent.BlockHash? && ch.Holds(b.parent.block) && b.parent.block.view >= ch.pruneHeight
                      && v in ch.Visited(b.parent.block.view, n - 1))
  {
    BelowIsParent(ch, b);
  }

  lemma {:induction false} VisitedBelow(ch: Chain, b: Block, n: nat, v: View)
    requires ch.Filed() && ch.OnePerView() && ch.Holds(b) && Descending(b) && b.view <= ch.pruneHeight < v
    ensures v !in ch.Visited(b.view, n) && !Passes(b, v)
  {
    if ch.Below(b.view).Some? {
      BelowHeld(ch, b);
      DescendingParent(b);
    }
    NoneAbove(b, v);
  }

  lemma {:induction false} ParentNotVisited(ch: Chain, b: Block, v: View)
    requires Descending(b) && AncestorsHeld(ch, b) && b.parent.BlockHash? && v > ch.pruneHeight
    requires !ch.Holds(b.parent.block) || b.parent.block.view < ch.pruneHeight
    ensures !Passes(b.parent.block, v)
  {
    DescendingParent(b);
    HeldParent(ch, b);
    NoneAbove(b.parent.block, v);
  }

  /** Above the pruned views, the walk visits exactly the views of the block's ancestors. */
  lemma {:induction false} VisitedIsChain(ch: Chain, b: Block, n: nat, v: View)
    requires ch.Filed() && ch.OnePerView() && Indexed(ch) && v > ch.pruneHeight
    requires ch.Holds(b) && Descending(b) && AncestorsHeld(ch, b) && b.view <= n
    ensures v in ch.Visited(b.view, n) <==> Passes(b, v)
    decreases b
  {
    if b.view <= ch.pruneHeight {
      VisitedBelow(ch, b, n, v);
    } else {
      if b.parent.BlockHash? && ch.Holds(b.parent.block) && b.parent.block.view >= ch.pruneHeight {
        DescendingParent(b);
        HeldParent(ch, b);
        assert b.parent.block.view <= n - 1;
        VisitedIsChain(ch, b.parent.block, n - 1, v);
      } else if b.parent.BlockHash? {
        ParentNotVisited(ch, b, v);
      }
      PassesStep(b, v);
      VisitedStep(ch, b, n, v);
    }
  }

  lemma {:induction false} OthersExactly(ch: Chain, kept: set<View>, low: View, high: View, b: Block)
    requires ch.Filed()
    ensures b in ch.Others(kept, low, high) <==>
      low < b.view <= high && b.view !in kept && b.view in ch.atHeight && ch.atHeight[b.view] == b
    decreases high
  {
    if high > low {
      OthersExactly(ch, kept, low, high - 1, b);
    }
  }

  /** Pruning returns exactly the blocks held for the pruned views that are not on the committed chain. */
  lemma ForkedExactly(ch: Chain, committed: Block, height: View, n: nat, b: Block)
    requires ch.Filed() && ch.OnePerView() && Indexed(ch)
    requires ch.Holds(committed) && Descending(committed) && AncestorsHeld(ch, committed) && committed.view <= n
    ensures ch.Stops(committed.view, n)
    ensures b in ch.Forked(committed.view, height, n) <==>
      ch.Holds(b) && ch.pruneHeight < b.view <= height && !ParentExtends(committed, b)
  {
    DescendingWalkEnds(ch, committed, n);
    OthersExactly(ch, ch.Visited(committed.view, n), ch.pruneHeight, height, b);
    if b.view > ch.pruneHeight {
      VisitedIsChain(ch, committed, n, b.view);
    }
  }
}
