/** Collection of timeout messages into timeout certificates (synchronizer/synchronizer.go). */
module Timeouts {
  import opened Types
  import opened Quorums
  import opened Crypto
  import opened Certificates
  import opened Handlers
  import opened Synchronizer

  /** The distinct signers of the timeouts in a bucket, which may be fewer than their senders. */
  function SignersIn(bucket: map<ID, TimeoutMsg>): set<ID> {
    set id | id in bucket :: bucket[id].viewSig.signer
  }

  /** The timeouts in a bucket verify, and those sent by `good` replicas are signed by their senders. */
  ghost predicate GoodEntries(w: World, good: set<ID>, v: View, bucket: map<ID, TimeoutMsg>) {
    forall id :: id in bucket ==>
      Verify(w, bucket[id].viewSig, ViewHash(v)) && (id in good ==> bucket[id].viewSig.signer == id)
  }

  /** Stored timeouts are good, and in every view their signers are fewer than a quorum. */
  ghost predicate BucketsOk(w: World, good: set<ID>, n: Node) {
    forall v :: v in n.timeouts ==> GoodEntries(w, good, v, n.timeouts[v]) && |SignersIn(n.timeouts[v])| < w.Quorum()
  }

  /** A stored bucket whose senders are all good holds fewer than a quorum of timeouts. */
  lemma NoQuorumStored(w: World, good: set<ID>, n: Node, v: View)
    requires BucketsOk(w, good, n) && v in n.timeouts && n.timeouts[v].Keys <= good
    ensures |n.timeouts[v]| < w.Quorum()
  {
    var bucket := n.timeouts[v];
    assert forall id :: id in bucket ==> bucket[id].viewSig.signer == id;
    assert SignersIn(bucket) == bucket.Keys;
    assert |bucket| == |bucket.Keys|;
  }

  lemma {:induction false} SignersAreFewer(bucket: map<ID, TimeoutMsg>)
    ensures |SignersIn(bucket)| <= |bucket|
    decreases |bucket|
  {
    if bucket != map[] {
      var id :| id in bucket;
      var rest := bucket - {id};
      SignersAreFewer(rest);
      forall s | s in SignersIn(bucket) ensures s in SignersIn(rest) + {bucket[id].viewSig.signer} {
        var j :| j in bucket && bucket[j].viewSig.signer == s;
        assert j == id || (j in rest && rest[j] == bucket[j]);
      }
      CardinalitySubset(SignersIn(bucket), SignersIn(rest) + {bucket[id].viewSig.signer});
    }
  }

  /** A bucket of verified timeouts yields a timeout certificate exactly if their signers are a quorum, and it verifies.
      No signatures are needed for view 0. */
  lemma CertifyExactly(c: Env, good: set<ID>, n: Node, v: View)
    requires c.Valid() && v in n.timeouts && GoodEntries(c.w, good, v, n.timeouts[v])
    ensures Certify(c, n, v).Some? <==> v == 0 || |SignersIn(n.timeouts[v])| >= c.w.Quorum()
    ensures Certify(c, n, v).Some? ==>
      var tc := Certify(c, n, v).value.tc;
      tc.Some? && tc.value.view == v && VerifyTC(c.w, tc.value)
  {
    var bucket := n.timeouts[v];
    var order := c.order(bucket.Keys);
    var sigs := ViewSigs(Listed(bucket, order));
    var signers := Signers(c.w, sigs, Uniform(c.w, ViewHash(v)));
    forall id | id in bucket ensures bucket[id].viewSig.signer in signers {
      var k :| 0 <= k < |order| && order[k] == id;
      assert sigs[k] == bucket[id].viewSig && sigs[k] in sigs;
    }
    assert signers == SignersIn(bucket);
    CreateThresholdIff(c.w, sigs, ViewHash(v));
  }

  lemma {:induction false} EnumerationLength(order: seq<ID>, s: set<ID>)
    requires Enumerates(order, s)
    ensures |order| == |s|
  {
    if order == [] {
      assert s == {};
    } else {
      var init, last := order[..|order| - 1], order[|order| - 1];
      forall id ensures id in init <==> id in s - {last} {
        assert id in order <==> id in init || id == last;
      }
      EnumerationLength(init, s - {last});
    }
  }

  ghost predicate ProperBucket(w: World, v: View, bucket: map<ID, TimeoutMsg>) {
    forall id :: id in bucket ==> bucket[id].id == id && ProperTimeout(w, v, bucket[id])
  }

  lemma {:induction false} ListedIsProper(w: World, v: View, bucket: map<ID, TimeoutMsg>, visit: seq<ID>)
    requires ProperBucket(w, v, bucket) && Enumerates(visit, bucket.Keys)
    ensures AllProper(w, v, Listed(bucket, visit)) && Senders(Listed(bucket, visit)) == bucket.Keys
    ensures |Listed(bucket, visit)| == |bucket|
  {
    var ts := Listed(bucket, visit);
    EnumerationLength(visit, bucket.Keys);
    assert forall k :: 0 <= k < |ts| ==> visit[k] in bucket && ts[k].id == visit[k];
    forall id | id in bucket ensures id in Senders(ts) {
      var k :| 0 <= k < |visit| && visit[k] == id;
      assert ts[k].id == id;
    }
  }

  /** The aggregate that is sent along is made for the replica's current view. It verifies, for every order of
      iteration, exactly if the timeouts are for that view. */
  lemma AggregateIsForCurrentView(c: Env, n: Node, v: View, order: seq<ID>)
    requires c.Valid() && c.UsesAggQC() && c.w.replicas != {} && Binding(c.w)
    requires v in n.timeouts && ProperBucket(c.w, v, n.timeouts[v]) && |n.timeouts[v]| >= c.w.Quorum()
    requires Enumerates(order, n.timeouts[v].Keys) && Certify(c, n, v).Some?
    ensures Certify(c, n, v).value.aggQC.Some?
    ensures Certify(c, n, v).value.aggQC.value.qcs.Keys == n.timeouts[v].Keys
    ensures VerifyAgg(c.w, Certify(c, n, v).value.aggQC.value, order).Some? <==> n.currentView == v
  {
    var bucket := n.timeouts[v];
    var ts := Listed(bucket, c.order(bucket.Keys));
    ListedIsProper(c.w, v, bucket, c.order(bucket.Keys));
    ProperQCs(c.w, v, ts);
    AggregateRoundTrip(c.w, n.currentView, v, ts, order);
  }

  /** A bucket with a quorum of signers is emptied into a certificate that ends its view. */
  lemma TallyCollects(c: Env, good: set<ID>, n: Node, view: View)
    requires c.Valid() && view in n.timeouts && GoodEntries(c.w, good, view, n.timeouts[view])
    ensures var r := Tally(c, n, view);
      || (r == n && |SignersIn(n.timeouts[view])| < c.w.Quorum())
      || (r.timeouts == n.timeouts - {view} && r.currentView > view)
  {
    SignersAreFewer(n.timeouts[view]);
    CertifyExactly(c, good, n, view);
    if Certify(c, n, view).Some? {
      EntersAbove(c, n.(timeouts := n.timeouts - {view}), Certify(c, n, view).value);
    }
  }

  /** The sender a timeout adds to the bucket of view `v`. */
  function Adds(w: World, t: Option<TimeoutMsg>, v: View): set<ID> {
    if t.Some? && t.value.view == v && Verify(w, t.value.viewSig, ViewHash(v)) then {t.value.id} else {}
  }

  /** The timeouts in `more` are those in `bucket`, and `t` under its sender if it is the first one from there. */
  ghost predicate FilesIn(
      w: World, bucket: map<ID, TimeoutMsg>, more: map<ID, TimeoutMsg>, t: Option<TimeoutMsg>, v: View)
  {
    && more.Keys == bucket.Keys + Adds(w, t, v)
    && (forall id :: id in bucket ==> more[id] == bucket[id])
    && (forall id :: id in more && id !in bucket ==> t == Some(more[id]))
  }

  /** In every view not yet left, the timeouts on file are those of before and `t`. */
  ghost predicate Files(w: World, n: Node, r: Node, t: Option<TimeoutMsg>) {
    forall v :: v >= r.currentView ==> FilesIn(w, Bucket(n, v), Bucket(r, v), t, v)
  }

  /** A timeout from a good replica is signed by its sender. */
  predicate Own(good: set<ID>, t: TimeoutMsg) {
    t.id in good ==> t.viewSig.signer == t.id
  }

  lemma FileTimeoutCollects(w: World, good: set<ID>, n: Node, t: TimeoutMsg, v: View)
    requires BucketsOk(w, good, n) && Own(good, t) && Verify(w, t.viewSig, ViewHash(t.view))
    ensures FilesIn(w, Bucket(n, v), Bucket(FileTimeout(n, t), v), Some(t), v)
    ensures GoodEntries(w, good, v, Bucket(FileTimeout(n, t), v))
    ensures v != t.view ==> Bucket(FileTimeout(n, t), v) == Bucket(n, v)
  {
    var bucket := Bucket(n, v);
    assert GoodEntries(w, good, v, bucket);
    if v == t.view && t.id !in bucket {
      assert Bucket(FileTimeout(n, t), v) == bucket[t.id := t];
    }
  }

  lemma DropOldCollects(n: Node, v: View)
    ensures v in DropOld(n).timeouts <==> v in n.timeouts && v >= n.currentView
    ensures v >= n.currentView ==> Bucket(DropOld(n), v) == Bucket(n, v)
  {
  }

  ghost predicate BucketOk(w: World, good: set<ID>, r: Node, v: View) {
    v in r.timeouts ==>
      v >= r.currentView && GoodEntries(w, good, v, r.timeouts[v]) && |SignersIn(r.timeouts[v])| < w.Quorum()
  }

  lemma {:induction false} TalliedBucket(c: Env, good: set<ID>, n: Node, n1: Node, t: TimeoutMsg, v: View)
    requires c.Valid() && BucketsOk(c.w, good, n) && Own(good, t) && Verify(c.w, t.viewSig, ViewHash(t.view))
    requires n1.timeouts == n.timeouts
    ensures var r := DropOld(Tally(c, FileTimeout(n1, t), t.view));
      && BucketOk(c.w, good, r, v)
      && (v >= r.currentView ==> FilesIn(c.w, Bucket(n, v), Bucket(r, v), Some(t), v))
  {
    var n2 := FileTimeout(n1, t);
    FileTimeoutCollects(c.w, good, n1, t, v);
    FileTimeoutCollects(c.w, good, n1, t, t.view);
    TallyCollects(c, good, n2, t.view);
    DropOldCollects(Tally(c, n2, t.view), v);
  }

  lemma {:induction false} BucketAfter(c: Env, good: set<ID>, n: Node, t: TimeoutMsg, v: View)
    requires c.Valid() && BucketsOk(c.w, good, n) && Own(good, t)
    ensures var r := OnRemoteTimeout(c, n, t);
      && BucketOk(c.w, good, r, v)
      && (v >= r.currentView ==> FilesIn(c.w, Bucket(n, v), Bucket(r, v), Some(t), v))
  {
    if Verify(c.w, t.viewSig, ViewHash(t.view)) {
      TalliedBucket(c, good, n, AdvanceView(c, n, t.syncInfo), t, v);
    } else {
      DropOldCollects(n, v);
    }
  }

  /** Handling a timeout files it under its sender, unless its view has been left; stale views are dropped, and no view
      keeps timeouts signed by a quorum. */
  lemma RemoteTimeoutCollects(c: Env, good: set<ID>, n: Node, t: TimeoutMsg)
    requires c.Valid() && BucketsOk(c.w, good, n) && Own(good, t)
    ensures BucketsOk(c.w, good, OnRemoteTimeout(c, n, t))
    ensures forall v :: v in OnRemoteTimeout(c, n, t).timeouts ==> v >= OnRemoteTimeout(c, n, t).currentView
    ensures Files(c.w, n, OnRemoteTimeout(c, n, t), Some(t))
  {
    var r := OnRemoteTimeout(c, n, t);
    forall v | v in r.timeouts ensures BucketOk(c.w, good, r, v) {
      BucketAfter(c, good, n, t, v);
    }
    forall v | v >= r.currentView ensures FilesIn(c.w, Bucket(n, v), Bucket(r, v), Some(t), v) {
      BucketAfter(c, good, n, t, v);
    }
  }

  // ---- runs of one replica ----

  datatype Local = Local(env: Env, event: Event)

  /** The timeout an event makes the replica handle. */
  function TimeoutIn(l: Local, n: Node): Option<TimeoutMsg> {
    match l.event
    case RemoteTimeout(t) => Some(t)
    case LocalTimeout =>
      if n.lastTimeout.Some? && n.lastTimeout.value.view == n.currentView then None else NewTimeout(l.env, n)
    case _ => None
  }

  /** Good replicas sign the timeouts they send; the others may send anything. */
  ghost predicate SendersMatch(w: World, good: set<ID>, l: Local) {
    && l.env.Valid() && l.env.w == w
    && (forall h :: l.env.sign(h).Some? ==> l.env.sign(h).value.signer == l.env.self)
    && (l.event.RemoteTimeout? ==> Own(good, l.event.t))
  }

  ghost predicate LocalRun(w: World, good: set<ID>, run: seq<Local>) {
    forall k :: 0 <= k < |run| ==> SendersMatch(w, good, run[k])
  }

  ghost function StateAfter(w: World, good: set<ID>, run: seq<Local>): Node
    requires LocalRun(w, good, run)
  {
    if run == [] then InitialNode else
    var l := run[|run| - 1];
    Handle(l.env, StateAfter(w, good, run[..|run| - 1]), l.event)
  }

  /** The senders of the verified timeouts for view `v` that were handled in a run. */
  ghost function Heard(w: World, good: set<ID>, run: seq<Local>, v: View): set<ID>
    requires LocalRun(w, good, run)
  {
    if run == [] then {} else
    var init := run[..|run| - 1];
    var t := TimeoutIn(run[|run| - 1], StateAfter(w, good, init));
    Heard(w, good, init, v) + Adds(w, t, v)
  }

  lemma {:induction false} HandleCollects(w: World, good: set<ID>, l: Local, n: Node)
    requires SendersMatch(w, good, l) && BucketsOk(w, good, n)
    ensures BucketsOk(w, good, Handle(l.env, n, l.event))
    ensures Files(w, n, Handle(l.env, n, l.event), TimeoutIn(l, n))
  {
    var t := TimeoutIn(l, n);
    if l.event.RemoteTimeout? {
      RemoteTimeoutCollects(l.env, good, n, l.event.t);
    } else if t.Some? {
      var n1 := StopVoting(n.(lastTimeout := t, acts := n.acts + [TimedOut(t.value)]), n.currentView);
      RemoteTimeoutCollects(l.env, good, n1, t.value);
      FilesSame(w, n, n1, Handle(l.env, n, l.event), t);
    } else {
      NothingFiled(w, good, n, Handle(l.env, n, l.event));
    }
  }

  lemma {:induction false} FilesSame(w: World, n: Node, n1: Node, r: Node, t: Option<TimeoutMsg>)
    requires n1.timeouts == n.timeouts && Files(w, n1, r, t)
    ensures Files(w, n, r, t)
  {
    assert forall v :: Bucket(n1, v) == Bucket(n, v);
  }

  lemma {:induction false} NothingFiled(w: World, good: set<ID>, n: Node, r: Node)
    requires r.timeouts == n.timeouts && BucketsOk(w, good, n)
    ensures BucketsOk(w, good, r) && Files(w, n, r, None)
  {
    assert forall v :: Bucket(r, v) == Bucket(n, v);
    assert forall v :: Adds(w, None, v) == {};
  }

  lemma {:induction false} RunCollects(w: World, good: set<ID>, run: seq<Local>)
    requires LocalRun(w, good, run)
    ensures BucketsOk(w, good, StateAfter(w, good, run))
    ensures forall v :: v >= StateAfter(w, good, run).currentView ==>
      Bucket(StateAfter(w, good, run), v).Keys == Heard(w, good, run, v)
  {
    if run != [] {
      RunCollects(w, good, run[..|run| - 1]);
      HandleCollects(w, good, run[|run| - 1], StateAfter(w, good, run[..|run| - 1]));
    }
  }

  /** Once timeouts for a view from a quorum of good replicas have been handled, in any order, among any other events
      and whatever the other replicas send, the replica has left that view. */
  lemma QuorumOfTimeoutsEndsView(w: World, good: set<ID>, run: seq<Local>, v: View)
    requires w.replicas != {} && LocalRun(w, good, run) && |Heard(w, good, run, v) * good| >= w.Quorum()
    ensures StateAfter(w, good, run).currentView > v
  {
    RunCollects(w, good, run);
    var n := StateAfter(w, good, run);
    if n.currentView <= v {
      var bucket := Bucket(n, v);
      forall id | id in Heard(w, good, run, v) * good ensures id in SignersIn(bucket) {
        assert id in bucket && bucket[id].viewSig.signer == id;
      }
      CardinalitySubset(Heard(w, good, run, v) * good, SignersIn(bucket));
    }
  }
}
