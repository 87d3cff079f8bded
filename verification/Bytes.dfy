/** Byte forms (consensus/types.go, consensus/block.go, crypto/ecdsa/ecdsa.go). */
module Bytes {
  import opened Types
  import opened Crypto

  /** The bytes of a big integer: big-endian, without leading zeros. */
  function NatBytes(n: nat): seq<Byte> {
    if n == 0 then [] else NatBytes(n / 256) + [n % 256]
  }

  /** The two integers of a signature; the signer is not part of the byte form. */
  function SignatureBytes(sig: Signature): seq<Byte> {
    NatBytes(sig.r) + NatBytes(sig.s)
  }

  lemma {:induction false} LeastOf(s: set<ID>) returns (m: ID)
    requires s != {}
    ensures m in s && forall x :: x in s ==> m <= x
  {
    m :| m in s;
    var rest := s - {m};
    assert forall x :: x in s ==> x == m || x in rest;
    if rest != {} {
      var least := LeastOf(rest);
      if least < m {
        m := least;
      }
    }
  }

  lemma LeastExists(s: set<ID>)
    requires s != {}
    ensures exists m :: m in s && forall x :: x in s ==> m <= x
  {
    var m := LeastOf(s);
  }

  /** The elements of a set in increasing order. */
  function SortedIDs(s: set<ID>): seq<ID> {
    if s == {} then [] else
    LeastExists(s);
    var m :| m in s && forall x :: x in s ==> m <= x;
    [m] + SortedIDs(s - {m})
  }

  /** The byte forms of the given entries, one after the other. */
  function Joined(sig: ThresholdSignature, order: seq<ID>): seq<Byte>
    requires forall id :: id in order ==> id in sig
  {
    if order == [] then [] else SignatureBytes(sig[order[0]]) + Joined(sig, order[1..])
  }

  lemma {:induction false} SortedIDsElements(s: set<ID>)
    ensures forall id :: id in SortedIDs(s) <==> id in s
  {
    if s != {} {
      var m := SortedIDs(s)[0];
      SortedIDsElements(s - {m});
    }
  }

  lemma {:induction false} SortedIDsEnumerates(s: set<ID>)
    ensures Enumerates(SortedIDs(s), s)
  {
    SortedIDsElements(s);
    if s != {} {
      var m := SortedIDs(s)[0];
      SortedIDsEnumerates(s - {m});
      SortedIDsElements(s - {m});
    }
  }

  /** The byte form of a threshold signature: its entries in increasing order of signer. */
  function ThresholdBytes(sig: ThresholdSignature): seq<Byte> {
    SortedIDsElements(sig.Keys);
    Joined(sig, SortedIDs(sig.Keys))
  }

  /** The position of a digest in a list. */
  ghost function Position(list: seq<Hash>, h: Hash): (k: nat)
    requires h in list
    ensures k < |list| && list[k] == h
  {
    var k: nat :| k < |list| && list[k] == h;
    k
  }

  /** Equality of certificates as the code decides it. */
  predicate QCEquals(a: QuorumCert, b: QuorumCert) {
    && a.view == b.view
    && a.hash == b.hash
    && (if a.sig.None? || b.sig.None? then a.sig.None? && b.sig.None?
        else ThresholdBytes(a.sig.value) == ThresholdBytes(b.sig.value))
  }
}
