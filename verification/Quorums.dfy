/** Quorum sizes (helper.go) and the world the replicas live in. */
module Quorums {
  import opened Types

  /** The number of replicas of a configuration of size `n` that may be faulty. The division truncates towards
      zero, so an empty configuration gives 0. */
  function NumFaulty(n: nat): nat {
    if n == 0 then 0 else (n - 1) / 3
  }

  function QuorumSize(n: nat): nat {
    n - NumFaulty(n)
  }

  datatype Rules = SimpleHotStuff | ChainedHotStuff | FastHotStuff

  /** The rule set in use, the replicas, which of them are faulty, and which partial signatures verify for
      which digests. Nothing is known of the signature scheme beyond what a theorem assumes. */
  datatype World = World(rules: Rules, replicas: set<ID>, faulty: set<ID>, verifies: (Signature, Hash) -> bool)
  {
    function Quorum(): nat {
      QuorumSize(|replicas|)
    }

    ghost predicate Valid() {
      && replicas != {}
      && faulty <= replicas
      && |faulty| <= NumFaulty(|replicas|)
    }

    predicate Honest(i: ID) {
      i in replicas && i !in faulty
    }

    predicate IsQuorum(q: set<ID>) {
      q <= replicas && |q| >= Quorum()
    }
  }

  /** Two quorums share a replica that is not faulty. */
  lemma HonestInBoth(w: World, p: set<ID>, q: set<ID>) returns (i: ID)
    requires w.Valid() && w.IsQuorum(p) && w.IsQuorum(q)
    ensures i in p && i in q && w.Honest(i)
  {
    assert |p + q| + |p * q| == |p| + |q|;
    CardinalitySubset(p + q, w.replicas);
    if p * q <= w.faulty {
      CardinalitySubset(p * q, w.faulty);
      assert false;
    }
    i :| i in p * q && i !in w.faulty;
  }

  lemma {:induction false} CardinalitySubset<T>(a: set<T>, b: set<T>)
    requires a <= b
    ensures |a| <= |b|
  {
    assert b == a + (b - a);
  }
}
