/** The cache of verified signatures (crypto/cache.go). */
module SignatureCaches {
  import opened Types
  import opened Quorums
  import opened Crypto
  import opened Bytes

  // ---- recency lists ----

  function Without<K(==)>(keys: seq<K>, key: K): seq<K> {
    if keys == [] then [] else
    if keys[0] == key then Without(keys[1..], key) else [keys[0]] + Without(keys[1..], key)
  }

  /** The distinct keys of a list of touches, the most recently touched one first. */
  function Recent<K(==)>(touches: seq<K>): seq<K> {
    if touches == [] then [] else
    var last := touches[|touches| - 1];
    [last] + Without(Recent(touches[..|touches| - 1]), last)
  }

  function Take<K>(keys: seq<K>, n: nat): seq<K> {
    if |keys| <= n then keys else keys[..n]
  }

  ghost predicate NoRepeats<K(!new)>(keys: seq<K>) {
    forall i, j :: 0 <= i < j < |keys| ==> keys[i] != keys[j]
  }

  function Elements<K>(keys: seq<K>): set<K> {
    set k | k in keys
  }

  /** The list with its i-th key moved to the front. */
  function Moved<K>(keys: seq<K>, i: nat): seq<K>
    requires i < |keys|
  {
    [keys[i]] + keys[..i] + keys[i + 1..]
  }

  /** What one touch does to a list of at most `capacity` keys: the key moves, or comes, to the front, and the last key
      makes room. */
  function Touch<K(==)>(order: seq<K>, capacity: nat, key: K): seq<K>
    requires capacity >= 1
  {
    if key in order then [key] + Without(order, key)
    else [key] + if |order| < capacity then order else order[..|order| - 1]
  }

  // ---- what is asked of the cache ----

  /** Does a partial signature, or a threshold signature, verify for a digest? */
  datatype Query = Partial(sig: Signature, h: Hash) | Threshold(t: ThresholdSignature, h: Hash)

  /** The answer without a cache. */
  predicate Holds(w: World, q: Query) {
    match q
    case Partial(sig, h) => Verify(w, sig, h)
    case Threshold(t, h) => VerifyThreshold(w, Some(t), h)
  }

  /** A cache: what verifies, how many keys it holds, and the key under which it files a query. */
  datatype Cached<!K> = Cached(w: World, capacity: nat, keyOf: Query -> K)

  /** The keys held after a sequence of touches. */
  function Held<K(==)>(c: Cached<K>, touches: seq<K>): seq<K> {
    Take(Recent(touches), c.capacity)
  }

  /** The touches after a partial signature has been verified through the cache, and the answer. */
  function AskPartial<K(==)>(c: Cached<K>, touches: seq<K>, sig: Signature, h: Hash): (seq<K>, bool) {
    var key := c.keyOf(Partial(sig, h));
    if key in Held(c, touches) || Verify(c.w, sig, h) then (touches + [key], true) else (touches, false)
  }

  /** The same for the entries of a threshold signature in the order `visit`, with the number of positive answers. */
  function AskEntries<K(==)>(
      c: Cached<K>, touches: seq<K>, t: ThresholdSignature, h: Hash, visit: seq<ID>): (seq<K>, nat)
    requires forall id :: id in visit ==> id in t
  {
    if visit == [] then (touches, 0) else
    var (before, n) := AskEntries(c, touches, t, h, visit[..|visit| - 1]);
    var (after, ok) := AskPartial(c, before, t[visit[|visit| - 1]], h);
    (after, if ok then n + 1 else n)
  }

  /** The same for a threshold signature. Behind the cache its entries are verified through the cache again. */
  function AskThreshold<K(==)>(
      c: Cached<K>, touches: seq<K>, t: ThresholdSignature, h: Hash, visit: seq<ID>): (seq<K>, bool)
    requires forall id :: id in visit ==> id in t
  {
    var key := c.keyOf(Threshold(t, h));
    if key in Held(c, touches) then (touches + [key], true) else
    if |t| < c.w.Quorum() then (touches, false) else
    var (after, n) := AskEntries(c, touches, t, h, visit);
    if n >= c.w.Quorum() then (after + [key], true) else (after, false)
  }

  lemma {:induction false} EntriesStep<K>(
      c: Cached<K>, touches: seq<K>, t: ThresholdSignature, h: Hash, visit: seq<ID>, i: nat)
    requires i < |visit| && forall id :: id in visit ==> id in t
    ensures var (before, n) := AskEntries(c, touches, t, h, visit[..i]);
      var (after, ok) := AskPartial(c, before, t[visit[i]], h);
      AskEntries(c, touches, t, h, visit[..i + 1]) == (after, if ok then n + 1 else n)
  {
    assert visit[..i + 1][..i] == visit[..i];
  }

  class SignatureCache<K(!new, ==)> {
    const c: Cached<K>
    var entries: set<K>
    var accessOrder: seq<K>

    /** All keys touched so far, the latest one last. */
    ghost var touches: seq<K>

    /** The map and the list hold the most recently touched keys. */
    ghost predicate Valid()
      reads this
    {
      && c.capacity >= 1
      && accessOrder == Held(c, touches)
      && entries == Elements(accessOrder)
    }

    constructor (c: Cached<K>)
      requires c.capacity >= 1
      ensures Valid() && touches == [] && this.c == c
    {
      this.c := c;
      entries, accessOrder, touches := {}, [], [];
    }

    method MoveToFront(key: K)
      requires Valid() && key in accessOrder
      modifies this`accessOrder, this`touches
      ensures Valid() && touches == old(touches) + [key]
    {
      TouchKeepsMostRecent(c, touches, key);
      var i := 0;
      while accessOrder[i] != key
        invariant 0 <= i < |accessOrder| && key !in accessOrder[..i] && key in accessOrder[i..]
        decreases |accessOrder| - i
      {
        i := i + 1;
      }
      MovedElements(accessOrder, i);
      MovedIsTouch(accessOrder, c.capacity, i);
      accessOrder := Moved(accessOrder, i);
      touches := touches + [key];
    }

    method Evict()
      requires c.capacity >= 1 && |accessOrder| <= c.capacity && NoRepeats(accessOrder)
      requires entries == Elements(accessOrder)
      modifies this`entries, this`accessOrder
      ensures entries == Elements(accessOrder)
      ensures accessOrder == if |old(accessOrder)| < c.capacity then old(accessOrder)
                             else old(accessOrder)[..c.capacity - 1]
    {
      NoRepeatsCount(accessOrder);
      if |entries| < c.capacity {
        return;
      }
      var key := accessOrder[|accessOrder| - 1];
      accessOrder := accessOrder[..|accessOrder| - 1];
      entries := entries - {key};
    }

    method Insert(key: K)
      requires Valid()
      modifies this
      ensures Valid() && touches == old(touches) + [key]
    {
      if key in entries {
        MoveToFront(key);
        return;
      }
      TouchKeepsMostRecent(c, touches, key);
      Evict();
      accessOrder := [key] + accessOrder;
      entries := entries + {key};
      touches := touches + [key];
    }

    method Check(key: K) returns (found: bool)
      requires Valid()
      modifies this
      ensures Valid() && found == (key in Held(c, old(touches)))
      ensures touches == if found then old(touches) + [key] else old(touches)
    {
      if key !in entries {
        return false;
      }
      MoveToFront(key);
      return true;
    }

    method VerifyPartial(sig: Option<Signature>, h: Hash) returns (ok: bool)
      requires Valid()
      modifies this
      ensures Valid()
      ensures (touches, ok) == if sig.None? then (old(touches), false) else AskPartial(c, old(touches), sig.value, h)
    {
      if sig.None? {
        return false;
      }
      var key := c.keyOf(Partial(sig.value, h));
      var hit := Check(key);
      if hit {
        return true;
      }
      if Verify(c.w, sig.value, h) {
        Insert(key);
        return true;
      }
      return false;
    }

    /** The implementation behind the cache, which counts the entries that verify through the cache. */
    method CountEntries(t: ThresholdSignature, h: Hash, visit: seq<ID>) returns (n: nat)
      requires Valid() && forall id :: id in visit ==> id in t
      modifies this
      ensures Valid() && (touches, n) == AskEntries(c, old(touches), t, h, visit)
    {
      n := 0;
      var i := 0;
      while i < |visit|
        invariant i <= |visit| && Valid()
        invariant (touches, n) == AskEntries(c, old(touches), t, h, visit[..i])
      {
        EntriesStep(c, old(touches), t, h, visit, i);
        var ok := VerifyPartial(Some(t[visit[i]]), h);
        n := if ok then n + 1 else n;
        i := i + 1;
      }
      assert visit[..i] == visit;
    }

    method VerifyThresholdSignature(t: Option<ThresholdSignature>, h: Hash, visit: seq<ID>) returns (ok: bool)
      requires Valid() && (t.Some? ==> forall id :: id in visit ==> id in t.value)
      modifies this
      ensures Valid()
      ensures (touches, ok) == if t.None? then (old(touches), false)
                               else AskThreshold(c, old(touches), t.value, h, visit)
    {
      if t.None? {
        return false;
      }
      var key := c.keyOf(Threshold(t.value, h));
      var hit := Check(key);
      if hit {
        return true;
      }
      if |t.value| < c.w.Quorum() {
        return false;
      }
      var n := CountEntries(t.value, h, visit);
      if n >= c.w.Quorum() {
        Insert(key);
        return true;
      }
      return false;
    }
  }

  // ---- which keys are kept ----

  lemma {:induction false} WithoutElements<K>(keys: seq<K>, key: K)
    ensures forall k :: k in Without(keys, key) <==> k in keys && k != key
  {
    if keys != [] {
      WithoutElements(keys[1..], key);
      assert forall k :: k in keys <==> k == keys[0] || k in keys[1..];
    }
  }

  lemma {:induction false} WithoutAbsent<K>(keys: seq<K>, key: K)
    requires key !in keys
    ensures Without(keys, key) == keys
  {
    if keys != [] {
      WithoutAbsent(keys[1..], key);
    }
  }

  /** Removing a key that occurs once removes one element. */
  lemma {:induction false} WithoutAt<K(!new)>(keys: seq<K>, i: nat)
    requires i < |keys| && NoRepeats(keys)
    ensures Without(keys, keys[i]) == keys[..i] + keys[i + 1..]
  {
    if i == 0 {
      WithoutAbsent(keys[1..], keys[0]);
      assert keys[..0] + keys[1..] == keys[1..];
    } else {
      WithoutAt(keys[1..], i - 1);
      assert keys[..i] + keys[i + 1..] == [keys[0]] + (keys[1..][..i - 1] + keys[1..][i..]);
    }
  }

  lemma MovedElements<K(!new)>(keys: seq<K>, i: nat)
    requires i < |keys| && NoRepeats(keys)
    ensures NoRepeats(Moved(keys, i)) && Elements(Moved(keys, i)) == Elements(keys)
  {
    var moved := Moved(keys, i);
    assert forall j :: 0 <= j < |keys| ==>
      moved[j] == if j == 0 then keys[i] else if j <= i then keys[j - 1] else keys[j];
    forall k | k in keys ensures k in moved {
      var j :| 0 <= j < |keys| && keys[j] == k;
      assert moved[if j < i then j + 1 else if j == i then 0 else j] == k;
    }
  }

  lemma MovedIsTouch<K(!new)>(keys: seq<K>, capacity: nat, i: nat)
    requires i < |keys| && NoRepeats(keys) && capacity >= 1
    ensures Moved(keys, i) == [keys[i]] + Without(keys, keys[i]) == Touch(keys, capacity, keys[i])
  {
    WithoutAt(keys, i);
    var key, rest := keys[i], keys[..i] + keys[i + 1..];
    assert Moved(keys, i) == [key] + rest;
    assert Touch(keys, capacity, key) == [key] + Without(keys, key);
  }

  lemma MovedTake<K>(keys: seq<K>, capacity: nat, i: nat)
    requires i < |keys| && i < capacity
    ensures Moved(Take(keys, capacity), i) == Take(Moved(keys, i), capacity)
  {
    if |keys| > capacity {
      assert keys[..capacity][i + 1..] == keys[i + 1..][..capacity - i - 1];
    }
  }

  lemma {:induction false} NoRepeatsCount<K(!new)>(keys: seq<K>)
    requires NoRepeats(keys)
    ensures |Elements(keys)| == |keys|
  {
    if keys != [] {
      var init, last := keys[..|keys| - 1], keys[|keys| - 1];
      NoRepeatsCount(init);
      assert Elements(keys) == Elements(init) + {last};
    }
  }

  /** Recency lists do not repeat keys and hold exactly the keys touched. */
  lemma {:induction false} RecentElements<K(!new)>(touches: seq<K>)
    ensures NoRepeats(Recent(touches))
    ensures forall k :: k in Recent(touches) <==> k in touches
  {
    if touches != [] {
      var init, last := touches[..|touches| - 1], touches[|touches| - 1];
      RecentElements(init);
      WithoutElements(Recent(init), last);
      WithoutKeepsDistinct(Recent(init), last);
      assert forall k :: k in touches <==> k in init || k == last;
    }
  }

  lemma WithoutKeepsDistinct<K(!new)>(keys: seq<K>, key: K)
    requires NoRepeats(keys)
    ensures NoRepeats(Without(keys, key)) && key !in Without(keys, key)
  {
    WithoutElements(keys, key);
    if key in keys {
      var i :| 0 <= i < |keys| && keys[i] == key;
      WithoutAt(keys, i);
    } else {
      WithoutAbsent(keys, key);
    }
  }

  /** The position of the last touch of a key, -1 if there is none. */
  function LastTouch<K(==)>(touches: seq<K>, key: K): int
    ensures -1 <= LastTouch(touches, key) < |touches|
  {
    if touches == [] then -1 else
    if touches[|touches| - 1] == key then |touches| - 1 else LastTouch(touches[..|touches| - 1], key)
  }

  /** Removing a key keeps the others in their order. */
  lemma WithoutOrder<K(!new)>(keys: seq<K>, key: K, i: nat, j: nat) returns (i': nat, j': nat)
    requires NoRepeats(keys) && i < j < |Without(keys, key)|
    ensures i' < j' < |keys| && keys[i'] == Without(keys, key)[i] && keys[j'] == Without(keys, key)[j]
  {
    if key in keys {
      var m :| 0 <= m < |keys| && keys[m] == key;
      WithoutAt(keys, m);
      i', j' := if i < m then i else i + 1, if j < m then j else j + 1;
    } else {
      WithoutAbsent(keys, key);
      i', j' := i, j;
    }
  }

  /** Earlier in the recency list means touched later. */
  lemma {:induction false} RecentIsByLastTouch<K(!new)>(touches: seq<K>, i: nat, j: nat)
    requires i < j < |Recent(touches)|
    ensures LastTouch(touches, Recent(touches)[i]) > LastTouch(touches, Recent(touches)[j])
  {
    var init, last := touches[..|touches| - 1], touches[|touches| - 1];
    var rest := Without(Recent(init), last);
    RecentElements(init);
    WithoutKeepsDistinct(Recent(init), last);
    assert Recent(touches)[j] == rest[j - 1];
    if i > 0 {
      assert Recent(touches)[i] == rest[i - 1];
      var i', j' := WithoutOrder(Recent(init), last, i - 1, j - 1);
      RecentIsByLastTouch(init, i', j');
    }
  }

  lemma {:induction false} TouchKept<K(!new)>(keys: seq<K>, capacity: nat, i: nat)
    requires NoRepeats(keys) && i < |keys| && i < capacity
    ensures Touch(Take(keys, capacity), capacity, keys[i]) == Take([keys[i]] + Without(keys, keys[i]), capacity)
  {
    MovedIsTouch(keys, capacity, i);
    MovedIsTouch(Take(keys, capacity), capacity, i);
    MovedTake(keys, capacity, i);
  }

  lemma {:induction false} TouchDropped<K(!new)>(keys: seq<K>, capacity: nat, i: nat)
    requires NoRepeats(keys) && i < |keys| && 1 <= capacity <= i
    ensures Touch(Take(keys, capacity), capacity, keys[i]) == Take([keys[i]] + Without(keys, keys[i]), capacity)
  {
    assert keys[i] !in Take(keys, capacity);
    WithoutAt(keys, i);
  }

  /** A touch of the kept keys is a touch of all keys, cut to the capacity. */
  lemma TouchIsRecent<K(!new)>(keys: seq<K>, capacity: nat, key: K)
    requires NoRepeats(keys) && capacity >= 1
    ensures Touch(Take(keys, capacity), capacity, key) == Take([key] + Without(keys, key), capacity)
  {
    if key in keys {
      var i :| 0 <= i < |keys| && keys[i] == key;
      if i < capacity {
        TouchKept(keys, capacity, i);
      } else {
        TouchDropped(keys, capacity, i);
      }
    } else {
      WithoutAbsent(keys, key);
      assert key !in Take(keys, capacity);
    }
  }

  lemma RecentAppend<K>(touches: seq<K>, key: K)
    ensures Recent(touches + [key]) == [key] + Without(Recent(touches), key)
  {
    assert (touches + [key])[..|touches|] == touches;
  }

  /** A touch of the keys held leaves the most recently touched keys. */
  lemma TouchKeepsMostRecent<K(!new)>(c: Cached<K>, touches: seq<K>, key: K)
    requires c.capacity >= 1
    ensures NoRepeats(Held(c, touches))
    ensures Touch(Held(c, touches), c.capacity, key) == Held(c, touches + [key])
  {
    RecentElements(touches);
    RecentAppend(touches, key);
    TouchIsRecent(Recent(touches), c.capacity, key);
  }

  // ---- when the cache makes no difference ----

  /** A query, with the order in which the entries of a threshold signature are visited; or a signature was made here
      and is put into the cache. */
  datatype Call = Ask(q: Query, visit: seq<ID>) | Made(q: Query)
  {
    ghost predicate Valid() {
      Ask? && q.Threshold? ==> Enumerates(visit, q.t.Keys)
    }
  }

  function Answered<K(==)>(c: Cached<K>, touches: seq<K>, call: Call): (seq<K>, bool)
    requires call.Valid()
  {
    match call
    case Ask(Partial(sig, h), _) => AskPartial(c, touches, sig, h)
    case Ask(Threshold(t, h), visit) => AskThreshold(c, touches, t, h, visit)
    case Made(q) => (touches + [c.keyOf(q)], true)
  }

  /** A run: queries and orders are possible, and signatures made here verify. */
  ghost predicate GoodCalls(w: World, calls: seq<Call>) {
    forall k :: 0 <= k < |calls| ==> calls[k].Valid() && (calls[k].Made? ==> Holds(w, calls[k].q))
  }

  function TouchesAfter<K(==)>(c: Cached<K>, calls: seq<Call>): seq<K>
    requires GoodCalls(c.w, calls)
  {
    if calls == [] then [] else
    Answered(c, TouchesAfter(c, calls[..|calls| - 1]), calls[|calls| - 1]).0
  }

  /** After every run, every query is answered as without the cache. */
  ghost predicate Transparent<K>(c: Cached<K>) {
    forall calls, call: Call :: GoodCalls(c.w, calls) && call.Ask? && call.Valid() ==>
      Answered(c, TouchesAfter(c, calls), call).1 == Holds(c.w, call.q)
  }

  /** Queries with the same key have the same answer. */
  ghost predicate KeysDecide<K>(c: Cached<K>) {
    forall p, q :: c.keyOf(p) == c.keyOf(q) && Holds(c.w, p) ==> Holds(c.w, q)
  }

  /** Only queries with a positive answer have been filed. */
  ghost predicate Sound<K>(c: Cached<K>, touches: seq<K>) {
    forall q :: c.keyOf(q) in touches ==> Holds(c.w, q)
  }

  lemma HeldIsTouched<K(!new)>(c: Cached<K>, touches: seq<K>, key: K)
    requires key in Held(c, touches)
    ensures key in touches
  {
    RecentElements(touches);
  }

  lemma {:induction false} SoundAppend<K(!new)>(c: Cached<K>, touches: seq<K>, q: Query)
    requires KeysDecide(c) && Sound(c, touches) && Holds(c.w, q)
    ensures Sound(c, touches + [c.keyOf(q)])
  {
  }

  lemma {:induction false} HeldHolds<K(!new)>(c: Cached<K>, touches: seq<K>, q: Query)
    requires Sound(c, touches) && c.keyOf(q) in Held(c, touches)
    ensures Holds(c.w, q)
  {
    HeldIsTouched(c, touches, c.keyOf(q));
  }

  lemma {:induction false} PartialIsSound<K(!new)>(c: Cached<K>, touches: seq<K>, sig: Signature, h: Hash)
    requires KeysDecide(c) && Sound(c, touches)
    ensures Sound(c, AskPartial(c, touches, sig, h).0)
    ensures AskPartial(c, touches, sig, h).1 == Verify(c.w, sig, h)
  {
    var q := Partial(sig, h);
    if c.keyOf(q) in Held(c, touches) {
      HeldHolds(c, touches, q);
    }
    if Verify(c.w, sig, h) {
      SoundAppend(c, touches, q);
    }
  }

  /** The signers among `visit` whose entry verifies. */
  function VerifiedIn(w: World, t: ThresholdSignature, h: Hash, visit: seq<ID>): set<ID>
    requires forall id :: id in visit ==> id in t
  {
    set id | id in visit && Verify(w, t[id], h)
  }

  /** With all entries visited, those that verify are the ones that are counted without a cache. */
  lemma {:induction false} VerifiedAll(w: World, t: ThresholdSignature, h: Hash, visit: seq<ID>)
    requires Enumerates(visit, t.Keys)
    ensures |VerifiedIn(w, t, h, visit)| == |Verified(w, t, Uniform(w, h))| <= |t|
  {
    var verified := Verified(w, t, Uniform(w, h));
    assert VerifiedIn(w, t, h, visit) == verified;
    CardinalitySubset(verified, t.Keys);
    assert |t| == |t.Keys|;
  }

  lemma {:induction false} VerifiedGrows(w: World, t: ThresholdSignature, h: Hash, visit: seq<ID>)
    requires visit != [] && (forall id :: id in visit ==> id in t) && NoRepeats(visit)
    ensures var init, last := visit[..|visit| - 1], visit[|visit| - 1];
      |VerifiedIn(w, t, h, visit)| == |VerifiedIn(w, t, h, init)| + if Verify(w, t[last], h) then 1 else 0
  {
    var init, last := visit[..|visit| - 1], visit[|visit| - 1];
    var before, after := VerifiedIn(w, t, h, init), VerifiedIn(w, t, h, visit);
    assert last !in init && forall id :: id in visit <==> id in init || id == last;
    if Verify(w, t[last], h) {
      assert after == before + {last};
    } else {
      assert after == before;
    }
  }

  lemma {:induction false} EntriesAreSound<K(!new)>(
      c: Cached<K>, touches: seq<K>, t: ThresholdSignature, h: Hash, visit: seq<ID>)
    requires KeysDecide(c) && Sound(c, touches) && (forall id :: id in visit ==> id in t) && NoRepeats(visit)
    ensures Sound(c, AskEntries(c, touches, t, h, visit).0)
    ensures AskEntries(c, touches, t, h, visit).1 == |VerifiedIn(c.w, t, h, visit)|
  {
    if visit != [] {
      var init, last := visit[..|visit| - 1], visit[|visit| - 1];
      EntriesAreSound(c, touches, t, h, init);
      PartialIsSound(c, AskEntries(c, touches, t, h, init).0, t[last], h);
      VerifiedGrows(c.w, t, h, visit);
    }
  }

  lemma {:induction false} ThresholdIsSound<K(!new)>(
      c: Cached<K>, touches: seq<K>, t: ThresholdSignature, h: Hash, visit: seq<ID>)
    requires KeysDecide(c) && Sound(c, touches) && Enumerates(visit, t.Keys)
    ensures Sound(c, AskThreshold(c, touches, t, h, visit).0)
    ensures AskThreshold(c, touches, t, h, visit).1 == Holds(c.w, Threshold(t, h))
  {
    var q := Threshold(t, h);
    if c.keyOf(q) in Held(c, touches) {
      HeldHolds(c, touches, q);
      SoundAppend(c, touches, q);
    } else {
      EntriesAreSound(c, touches, t, h, visit);
      VerifiedAll(c.w, t, h, visit);
      if VerifyThreshold(c.w, Some(t), h) {
        SoundAppend(c, AskEntries(c, touches, t, h, visit).0, q);
      }
    }
  }

  lemma {:induction false} RunIsSound<K(!new)>(c: Cached<K>, calls: seq<Call>)
    requires KeysDecide(c) && GoodCalls(c.w, calls)
    ensures Sound(c, TouchesAfter(c, calls))
  {
    if calls != [] {
      var init, call := calls[..|calls| - 1], calls[|calls| - 1];
      RunIsSound(c, init);
      match call
      case Ask(Partial(sig, h), _) => PartialIsSound(c, TouchesAfter(c, init), sig, h);
      case Ask(Threshold(t, h), visit) => ThresholdIsSound(c, TouchesAfter(c, init), t, h, visit);
      case Made(q) =>
    }
  }

  /** An entry may be found in the cache although it does not verify, but none that verifies is missed. */
  lemma {:induction false} EntriesCount<K(!new)>(
      c: Cached<K>, touches: seq<K>, t: ThresholdSignature, h: Hash, visit: seq<ID>)
    requires (forall id :: id in visit ==> id in t) && NoRepeats(visit)
    ensures AskEntries(c, touches, t, h, visit).1 >= |VerifiedIn(c.w, t, h, visit)|
  {
    if visit != [] {
      EntriesCount(c, touches, t, h, visit[..|visit| - 1]);
      VerifiedGrows(c.w, t, h, visit);
    }
  }

  lemma {:induction false} ThresholdIsFiled<K(!new)>(c: Cached<K>, t: ThresholdSignature, h: Hash, visit: seq<ID>)
    requires Holds(c.w, Threshold(t, h)) && Enumerates(visit, t.Keys)
    ensures var touches := AskThreshold(c, [], t, h, visit).0;
      touches != [] && touches[|touches| - 1] == c.keyOf(Threshold(t, h))
  {
    EntriesCount(c, [], t, h, visit);
    VerifiedAll(c.w, t, h, visit);
  }

  /** A query that verifies is filed by asking it, so that another query with its key is accepted after it. */
  lemma {:induction false} FiledByAsking<K(!new)>(c: Cached<K>, p: Call, q: Call)
    requires c.capacity >= 1 && p.Ask? && p.Valid() && q.Ask? && q.Valid()
    requires Holds(c.w, p.q) && c.keyOf(p.q) == c.keyOf(q.q)
    ensures Answered(c, TouchesAfter(c, [p]), q).1
  {
    TouchesOfOne(c, p);
    var touches := Answered(c, [], p).0;
    if p.q.Threshold? {
      ThresholdIsFiled(c, p.q.t, p.q.h, p.visit);
    }
    LastIsHeld(c, touches, c.keyOf(p.q));
  }

  lemma {:induction false} TouchesOfOne<K(!new)>(c: Cached<K>, p: Call)
    requires p.Ask? && p.Valid()
    ensures TouchesAfter(c, [p]) == Answered(c, [], p).0
  {
    var one := [p];
    assert one[..|one| - 1] == [] && TouchesAfter(c, one[..|one| - 1]) == [];
  }

  lemma {:induction false} LastIsHeld<K(!new)>(c: Cached<K>, touches: seq<K>, key: K)
    requires c.capacity >= 1 && touches != [] && touches[|touches| - 1] == key
    ensures key in Held(c, touches)
  {
    assert Recent(touches)[0] == key;
    assert Held(c, touches)[0] == key;
  }

  function Visit(q: Query): (call: Call)
    ensures call.Valid() && call.Ask? && call.q == q
  {
    if q.Threshold? then
      SortedIDsEnumerates(q.t.Keys);
      Ask(q, SortedIDs(q.t.Keys))
    else Ask(q, [])
  }

  /** In one world: verification through the cache answers as the implementation behind it, over every run, exactly if
      queries with the same key have the same answer. */
  lemma {:induction false} TransparentExactly<K(!new)>(c: Cached<K>)
    requires c.capacity >= 1
    ensures Transparent(c) <==> KeysDecide(c)
  {
    if KeysDecide(c) {
      forall calls, call: Call | GoodCalls(c.w, calls) && call.Ask? && call.Valid()
        ensures Answered(c, TouchesAfter(c, calls), call).1 == Holds(c.w, call.q)
      {
        RunIsSound(c, calls);
        match call
        case Ask(Partial(sig, h), _) => PartialIsSound(c, TouchesAfter(c, calls), sig, h);
        case Ask(Threshold(t, h), visit) => ThresholdIsSound(c, TouchesAfter(c, calls), t, h, visit);
      }
    } else {
      var p, q :| c.keyOf(p) == c.keyOf(q) && Holds(c.w, p) && !Holds(c.w, q);
      FiledByAsking(c, Visit(p), Visit(q));
      assert GoodCalls(c.w, [Visit(p)]);
    }
  }

  // ---- what the key has to tell apart ----

  /** The key determines the operation, the signature with its signers, and the digest; an empty threshold signature,
      which never verifies, need not be told from another one. */
  ghost predicate KeyDetermines<K>(keyOf: Query -> K) {
    forall p, q :: keyOf(p) == keyOf(q) ==> p == q || (Empty(p) && Empty(q))
  }

  predicate Empty(q: Query) {
    q.Threshold? && q.t == map[]
  }

  /** A world in which just one signature verifies, for one digest. */
  function OneSignature(replicas: set<ID>, sig: Signature, h: Hash): World {
    World(SimpleHotStuff, replicas, {}, (s, d) => s == sig && d == h)
  }

  lemma TellPartial(sig: Signature, h: Hash, q: Query) returns (w: World)
    requires q != Partial(sig, h)
    ensures w.Valid() && Holds(w, Partial(sig, h)) && !Holds(w, q)
  {
    var two: set<ID> := {sig.signer, sig.signer + 1};
    w := OneSignature(two, sig, h);
    assert |two| == 2 && w.Quorum() == 2;
    if q.Threshold? {
      var one: set<ID> := {sig.signer};
      CardinalitySubset(Verified(w, q.t, Uniform(w, q.h)), one);
    }
  }

  lemma TellEntry(t: ThresholdSignature, h: Hash, i: ID, q: Query) returns (w: World)
    requires i in t && q.Threshold? && (q.h != h || i !in q.t || q.t[i] != t[i])
    ensures w.Valid() && Holds(w, Threshold(t, h)) && !Holds(w, q)
  {
    var one: set<ID> := {i};
    w := OneSignature(one, t[i], h);
    assert |one| == 1 && w.Quorum() == 1;
    assert Verified(w, t, Uniform(w, h)) == one;
    assert Verified(w, q.t, Uniform(w, q.h)) == {};
  }

  /** Two different queries, unless both are empty, are answered differently in some world. */
  lemma SomeWorldTells(p: Query, q: Query) returns (w: World)
    requires p != q && !(Empty(p) && Empty(q))
    ensures w.Valid() && Holds(w, p) != Holds(w, q)
  {
    if p.Partial? {
      w := TellPartial(p.sig, p.h, q);
    } else if q.Partial? {
      w := TellPartial(q.sig, q.h, p);
    } else if i :| i in p.t && (q.h != p.h || i !in q.t || q.t[i] != p.t[i]) {
      w := TellEntry(p.t, p.h, i, q);
    } else {
      assert p.h != q.h || p.t != q.t;
      var i :| i in q.t && (q.h != p.h || i !in p.t || q.t[i] != p.t[i]);
      w := TellEntry(q.t, q.h, i, p);
    }
  }

  lemma {:induction false} DeterminingDecides<K(!new)>(w: World, capacity: nat, keyOf: Query -> K)
    requires w.Valid() && KeyDetermines(keyOf)
    ensures KeysDecide(Cached(w, capacity, keyOf))
  {
    forall p | Empty(p) ensures !Holds(w, p) {
      assert Verified(w, p.t, Uniform(w, p.h)) == {};
    }
  }

  /** A cache makes no difference in any world exactly if its key determines the query. */
  lemma {:induction false} TransparentEverywhere<K(!new)>(capacity: nat, keyOf: Query -> K)
    requires capacity >= 1
    ensures (forall w: World :: w.Valid() ==> Transparent(Cached(w, capacity, keyOf))) <==> KeyDetermines(keyOf)
  {
    if KeyDetermines(keyOf) {
      forall w: World | w.Valid() ensures Transparent(Cached(w, capacity, keyOf)) {
        DeterminingDecides(w, capacity, keyOf);
        TransparentExactly(Cached(w, capacity, keyOf));
      }
    } else {
      var p, q :| keyOf(p) == keyOf(q) && p != q && !(Empty(p) && Empty(q));
      var w := SomeWorldTells(p, q);
      TransparentExactly(Cached(w, capacity, keyOf));
      assert !KeysDecide(Cached(w, capacity, keyOf));
    }
  }

  /** A quorum certificate checked through the cache. */
  function CachedVerifyQC<K(==)>(c: Cached<K>, touches: seq<K>, qc: QuorumCert, visit: seq<ID>): bool
    requires qc.sig.Some? ==> forall id :: id in visit ==> id in qc.sig.value
  {
    qc.hash == GenesisHash || (qc.sig.Some? && AskThreshold(c, touches, qc.sig.value, qc.hash, visit).1)
  }

  /** With a key that determines the query, certificates are accepted through the cache as without it, after every run:
      the results on agreement then hold of replicas that verify through the cache. */
  lemma {:induction false} CertificatesThroughCache<K(!new)>(
      c: Cached<K>, calls: seq<Call>, qc: QuorumCert, visit: seq<ID>)
    requires c.w.Valid() && c.capacity >= 1 && KeyDetermines(c.keyOf) && GoodCalls(c.w, calls)
    requires qc.sig.Some? ==> Enumerates(visit, qc.sig.value.Keys)
    ensures CachedVerifyQC(c, TouchesAfter(c, calls), qc, visit) == VerifyQC(c.w, qc)
  {
    DeterminingDecides(c.w, c.capacity, c.keyOf);
    RunIsSound(c, calls);
    if qc.sig.Some? {
      ThresholdIsSound(c, TouchesAfter(c, calls), qc.sig.value, qc.hash, visit);
    }
  }

  // ---- the key in use ----

  /** What is hashed into a key: the digest, whose length is fixed, and the byte form of the signature. */
  datatype Key = Key(h: Hash, bytes: seq<Byte>)

  function EcdsaKey(q: Query): Key {
    Key(q.h, match q case Partial(sig, _) => SignatureBytes(sig) case Threshold(t, _) => ThresholdBytes(t))
  }

  function EcdsaCache(w: World, capacity: nat): Cached<Key> {
    Cached(w, capacity, q => EcdsaKey(q))
  }

  /** The threshold signature with a single entry. */
  function Alone(sig: Signature): ThresholdSignature {
    map[sig.signer := sig]
  }

  lemma AloneHasTheKey(sig: Signature, h: Hash)
    ensures EcdsaKey(Threshold(Alone(sig), h)) == EcdsaKey(Partial(sig, h))
  {
    var t, i := Alone(sig), sig.signer;
    var ids := SortedIDs(t.Keys);
    SortedIDsElements(t.Keys);
    assert ids[0] == i && t.Keys - {i} == {};
    assert SortedIDs(t.Keys - {i}) == [];
    assert ids == [i];
    assert Joined(t, ids) == SignatureBytes(sig) + Joined(t, []);
  }

  /** The key does not tell a partial signature from the threshold signature that holds nothing else: once the first has
      been verified, the second is accepted although it is no quorum. */
  lemma KeyOmitsOperation(w: World, capacity: nat, sig: Signature, h: Hash)
    requires capacity >= 1 && w.Quorum() > 1 && Verify(w, sig, h)
    ensures var c := EcdsaCache(w, capacity);
      Answered(c, TouchesAfter(c, [Visit(Partial(sig, h))]), Visit(Threshold(Alone(sig), h))).1
    ensures !Holds(w, Threshold(Alone(sig), h))
  {
    AloneHasTheKey(sig, h);
    FiledByAsking(EcdsaCache(w, capacity), Visit(Partial(sig, h)), Visit(Threshold(Alone(sig), h)));
    var one: set<ID> := {sig.signer};
    CardinalitySubset(Verified(w, Alone(sig), Uniform(w, h)), one);
  }

  /** Nor does it tell who signed: once a signature has been verified, it is accepted under any name. */
  lemma KeyOmitsSigner(w: World, capacity: nat, sig: Signature, h: Hash, other: ID)
    requires capacity >= 1 && Verify(w, sig, h)
    ensures var c := EcdsaCache(w, capacity);
      Answered(c, TouchesAfter(c, [Visit(Partial(sig, h))]), Visit(Partial(sig.(signer := other), h))).1
  {
    FiledByAsking(EcdsaCache(w, capacity), Visit(Partial(sig, h)), Visit(Partial(sig.(signer := other), h)));
  }

  lemma {:induction false} Outsider(s: set<ID>) returns (j: ID)
    ensures forall i :: i in s ==> i < j
  {
    if s == {} {
      j := 0;
    } else {
      var m :| m in s;
      var k := Outsider(s - {m});
      assert forall i :: i in s ==> i == m || i in s - {m};
      j := if m < k then k else m + 1;
    }
  }

  /** With the key in use, the cache makes no difference in a world exactly if nothing verifies there. */
  lemma {:induction false} EcdsaTransparentExactly(w: World, capacity: nat)
    requires capacity >= 1 && w.Valid()
    ensures Transparent(EcdsaCache(w, capacity)) <==> forall sig, h :: !Verify(w, sig, h)
  {
    var c := EcdsaCache(w, capacity);
    if sig, h :| Verify(w, sig, h) {
      var j := Outsider(w.replicas);
      KeyOmitsSigner(w, capacity, sig, h, j);
      assert GoodCalls(w, [Visit(Partial(sig, h))]);
      assert !Holds(w, Partial(sig.(signer := j), h));
    } else {
      forall q ensures !Holds(w, q) {
        if q.Threshold? {
          assert Verified(w, q.t, Uniform(w, q.h)) == {};
        }
      }
      TransparentExactly(c);
    }
  }
}
