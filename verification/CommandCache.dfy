/** The cache of client commands (replica/cmdcache.go): batching and the filter against repeated proposals. */
module CommandCaches {
  import opened Types

  datatype Cmd = Cmd(client: nat, seqNo: nat, data: seq<Byte>)

  /** A command as a replica sees it: the batch it unmarshals to, or nothing if it does not. */
  type Payload = Option<seq<Cmd>>

  /** Highest proposed sequence numbers by client. */
  type Serials = map<nat, nat>

  function Serial(serials: Serials, client: nat): nat {
    if client in serials then serials[client] else 0
  }

  /** The command is not too old. */
  predicate Fresh(serials: Serials, cmd: Cmd) {
    Serial(serials, cmd.client) < cmd.seqNo
  }

  function FreshOf(serials: Serials, cmds: seq<Cmd>): seq<Cmd> {
    if cmds == [] then [] else
    FreshOf(serials, cmds[..|cmds| - 1]) + if Fresh(serials, cmds[|cmds| - 1]) then [cmds[|cmds| - 1]] else []
  }

  function Record(serials: Serials, cmds: seq<Cmd>): Serials {
    if cmds == [] then serials else
    var before := Record(serials, cmds[..|cmds| - 1]);
    var cmd := cmds[|cmds| - 1];
    if Fresh(before, cmd) then before[cmd.client := cmd.seqNo] else before
  }

  /** The batch is accepted: it can be read, and none of its commands is too old. */
  predicate Acceptable(serials: Serials, p: Payload) {
    p.Some? && forall k :: 0 <= k < |p.value| ==> Fresh(serials, p.value[k])
  }

  /** `m` is the length of the shortest prefix of the queue with `n` fresh commands, or of the whole queue. */
  ghost predicate Shortest(serials: Serials, queue: seq<Cmd>, n: nat, m: nat) {
    && m <= |queue|
    && (|FreshOf(serials, queue[..m])| == n || (m == |queue| && |FreshOf(serials, queue)| < n))
    && forall k :: 0 <= k < m ==> |FreshOf(serials, queue[..k])| < n
  }

  lemma {:induction false} FreshAppend(serials: Serials, a: seq<Cmd>, b: seq<Cmd>)
    ensures FreshOf(serials, a + b) == FreshOf(serials, a) + FreshOf(serials, b)
  {
    if b == [] {
      assert a + b == a;
    } else {
      var init := b[..|b| - 1];
      FreshAppend(serials, a, init);
      assert (a + b)[..|a + b| - 1] == a + init;
    }
  }

  lemma {:induction false} FreshTwice(serials: Serials, cmds: seq<Cmd>)
    ensures FreshOf(serials, FreshOf(serials, cmds)) == FreshOf(serials, cmds)
  {
    if cmds != [] {
      var init, last := cmds[..|cmds| - 1], cmds[|cmds| - 1];
      FreshTwice(serials, init);
      FreshAppend(serials, FreshOf(serials, init), if Fresh(serials, last) then [last] else []);
    }
  }

  /** Everything that arrived, in order. */
  function Arrived(arrivals: seq<seq<Cmd>>): seq<Cmd> {
    if arrivals == [] then [] else Arrived(arrivals[..|arrivals| - 1]) + arrivals[|arrivals| - 1]
  }

  /** Adding the next commands to what is queued keeps the fresh commands of all that was queued or arrived. */
  lemma ArrivesNext(serials: Serials, queue: seq<Cmd>, arrivals: seq<seq<Cmd>>, j: nat, cache: seq<Cmd>)
    requires j < |arrivals| && FreshOf(serials, queue + Arrived(arrivals[..j])) == FreshOf(serials, cache)
    ensures FreshOf(serials, queue + Arrived(arrivals[..j + 1]))
         == FreshOf(serials, cache + FreshOf(serials, arrivals[j]))
  {
    assert arrivals[..j + 1][..j] == arrivals[..j];
    var before := queue + Arrived(arrivals[..j]);
    assert queue + Arrived(arrivals[..j + 1]) == before + arrivals[j];
    FreshAppend(serials, before, arrivals[j]);
    FreshAppend(serials, cache, FreshOf(serials, arrivals[j]));
    FreshTwice(serials, arrivals[j]);
  }

  class CmdCache {
    const batchSize: nat
    var serialNumbers: Serials
    var cache: seq<Cmd>

    constructor (batchSize: nat)
      ensures serialNumbers == map[] && cache == [] && this.batchSize == batchSize
    {
      this.batchSize := batchSize;
      serialNumbers, cache := map[], [];
    }

    method AddCommand(cmd: Cmd)
      modifies this`cache
      ensures cache == old(cache) + if Fresh(serialNumbers, cmd) then [cmd] else []
    {
      if Serial(serialNumbers, cmd.client) >= cmd.seqNo {
        return;
      }
      cache := cache + [cmd];
    }

    /** One scan of the queue: takes the shortest prefix with a batch of fresh commands off the queue and returns
        these in order. The index steps back over commands that are too old. */
    method Scan() returns (batch: seq<Cmd>, ghost m: nat)
      requires batchSize >= 1
      modifies this`cache
      ensures Shortest(serialNumbers, old(cache), batchSize, m)
      ensures cache == old(cache)[m..] && batch == FreshOf(serialNumbers, old(cache)[..m])
    {
      ghost var queue := cache;
      batch, m := [], 0;
      var i := 0;
      while i < batchSize
        invariant m <= |queue| && cache == queue[m..] && batch == FreshOf(serialNumbers, queue[..m])
        invariant i == |batch| <= batchSize
        invariant forall k :: 0 <= k < m ==> |FreshOf(serialNumbers, queue[..k])| < batchSize
        decreases |queue| - m, batchSize - i
      {
        if cache == [] {
          break;
        }
        var cmd := cache[0];
        assert cmd == queue[m] && queue[..m + 1][..m] == queue[..m];
        cache := cache[1..];
        m := m + 1;
        if Serial(serialNumbers, cmd.client) >= cmd.seqNo {
          i := i - 1;
        } else {
          batch := batch + [cmd];
        }
        i := i + 1;
      }
      if m == |queue| {
        assert queue[..m] == queue;
      }
    }

    method AddCommands(cmds: seq<Cmd>)
      modifies this`cache
      ensures cache == old(cache) + FreshOf(serialNumbers, cmds)
    {
      for k := 0 to |cmds|
        invariant cache == old(cache) + FreshOf(serialNumbers, cmds[..k])
      {
        assert cmds[..k + 1][..k] == cmds[..k];
        AddCommand(cmds[k]);
      }
      assert cmds[..|cmds|] == cmds;
    }

    /** Waits until more than a batch is queued, and takes a batch off the queue; if no command in the queue was
        fresh, waits again. `arrivals` are the commands added before each of the times it wakes up, after which the
        context is done. After `j` of them, the fresh commands that were queued or arrived are, in order, those
        returned and those still queued. */
    method Get(arrivals: seq<seq<Cmd>>) returns (batch: Option<seq<Cmd>>, ghost j: nat)
      requires batchSize >= 1
      modifies this`cache
      ensures j <= |arrivals|
      ensures FreshOf(serialNumbers, old(cache) + Arrived(arrivals[..j]))
           == (if batch.Some? then batch.value else []) + FreshOf(serialNumbers, cache)
      ensures batch.Some? ==> 1 <= |batch.value| <= batchSize
      ensures batch.Some? && |batch.value| < batchSize ==> FreshOf(serialNumbers, cache) == []
      ensures batch.None? ==> j == |arrivals| && |cache| <= batchSize
    {
      j := 0;
      ghost var queue := cache;
      assert queue + Arrived(arrivals[..0]) == queue;
      var i := 0;
      while true
        invariant i == j <= |arrivals|
        invariant FreshOf(serialNumbers, queue + Arrived(arrivals[..j])) == FreshOf(serialNumbers, cache)
        decreases |arrivals| - i, |cache|
      {
        if |cache| <= batchSize {
          if i == |arrivals| {
            return None, j;
          }
          ArrivesNext(serialNumbers, queue, arrivals, j, cache);
          AddCommands(arrivals[i]);
          i := i + 1;
          j := j + 1;
        } else {
          ghost var before := cache;
          var cmds;
          ghost var m: nat;
          cmds, m := Scan();
          FreshAppend(serialNumbers, before[..m], before[m..]);
          assert before[..m] + before[m..] == before;
          if |cmds| > 0 {
            return Some(cmds), j;
          }
        }
      }
    }

    method Accept(p: Payload) returns (ok: bool)
      ensures ok == Acceptable(serialNumbers, p)
    {
      if p.None? {
        return false;
      }
      for k := 0 to |p.value|
        invariant forall j :: 0 <= j < k ==> Fresh(serialNumbers, p.value[j])
      {
        if Serial(serialNumbers, p.value[k].client) >= p.value[k].seqNo {
          return false;
        }
      }
      return true;
    }

    method Proposed(p: Payload)
      modifies this`serialNumbers
      ensures serialNumbers == if p.None? then old(serialNumbers) else Record(old(serialNumbers), p.value)
    {
      if p.None? {
        return;
      }
      for k := 0 to |p.value|
        invariant serialNumbers == Record(old(serialNumbers), p.value[..k])
      {
        assert p.value[..k + 1][..k] == p.value[..k];
        var cmd := p.value[k];
        if Serial(serialNumbers, cmd.client) < cmd.seqNo {
          serialNumbers := serialNumbers[cmd.client := cmd.seqNo];
        }
      }
      assert p.value[..|p.value|] == p.value;
    }
  }

  // ---- runs ----

  /** Only one prefix of a queue is the shortest with so many fresh commands, so a scan has one outcome. */
  lemma ShortestIsUnique(serials: Serials, queue: seq<Cmd>, n: nat, m1: nat, m2: nat)
    requires Shortest(serials, queue, n, m1) && Shortest(serials, queue, n, m2)
    ensures m1 == m2
  {
    assert queue[..|queue|] == queue;
  }

  /** The calls that change or ask for serial numbers, in any interleaving with the others. */
  datatype Call = Added(cmd: Cmd) | Got | Accepted(p: Payload) | WasProposed(p: Payload)

  function SerialsAfter(calls: seq<Call>): Serials {
    if calls == [] then map[] else
    var before := SerialsAfter(calls[..|calls| - 1]);
    var call := calls[|calls| - 1];
    if call.WasProposed? && call.p.Some? then Record(before, call.p.value) else before
  }

  /** Recording a batch lowers no serial number and makes all its commands too old. */
  lemma {:induction false} RecordRaises(serials: Serials, cmds: seq<Cmd>)
    ensures forall c :: Serial(serials, c) <= Serial(Record(serials, cmds), c)
    ensures forall k :: 0 <= k < |cmds| ==> !Fresh(Record(serials, cmds), cmds[k])
  {
    if cmds != [] {
      RecordRaises(serials, cmds[..|cmds| - 1]);
    }
  }

  /** Serial numbers never decrease. */
  lemma {:induction false} SerialsGrow(calls: seq<Call>, m: nat, client: nat)
    requires m <= |calls|
    ensures Serial(SerialsAfter(calls[..m]), client) <= Serial(SerialsAfter(calls), client)
  {
    if m == |calls| {
      assert calls[..m] == calls;
    } else {
      var init, call := calls[..|calls| - 1], calls[|calls| - 1];
      assert init[..m] == calls[..m];
      SerialsGrow(init, m, client);
      if call.WasProposed? && call.p.Some? {
        RecordRaises(SerialsAfter(init), call.p.value);
      }
    }
  }

  /** A batch with commands that has been proposed is not accepted at any later time. */
  lemma ProposedIsNotAccepted(calls: seq<Call>, m: nat, p: Payload)
    requires m < |calls| && calls[m] == WasProposed(p) && p.Some? && p.value != []
    ensures !Acceptable(SerialsAfter(calls), p)
  {
    var cmd := p.value[0];
    var upTo := calls[..m + 1];
    assert upTo[..m] == calls[..m];
    RecordRaises(SerialsAfter(calls[..m]), p.value);
    assert !Fresh(SerialsAfter(upTo), cmd);
    SerialsGrow(calls, m + 1, cmd.client);
  }
}
