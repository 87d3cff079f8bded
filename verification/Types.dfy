/** The values of the protocol: blocks, certificates and messages (consensus/types.go, consensus/block.go,
    consensus/events.go). */
module Types {

  datatype Option<+T> = None | Some(value: T)

  /** A replica's identifier. */
  type ID = nat

  /** A view number. */
  type View = nat

  type Byte = b: nat | b < 256

  /** A marshalled batch of client commands. */
  type Command = seq<Byte>

  /** A partial signature: the two ECDSA integers and the replica that claims to have made them. */
  datatype Signature = Signature(r: nat, s: nat, signer: ID)

  /** A threshold signature is a map of partial signatures keyed by their signers: both functions that build
      one, CreateThresholdSignature and RestoreThresholdSignature, insert `sig` under `sig.signer`. */
  type ThresholdSignature = m: map<ID, Signature> | forall id :: id in m ==> m[id].signer == id witness map[]

  /** A digest. Digests are symbolic: two digests are equal exactly when what was hashed is equal, and no block
      contains its own digest. A view is turned into a digest by writing it into the first bytes, so the
      all-zero digest is that of view 0. */
  datatype Hash =
    | BlockHash(block: Block)
    | ViewHash(view: View)
    | TimeoutHash(timeoutView: View, qcHash: Option<Hash>, id: ID)

  datatype QuorumCert = QuorumCert(sig: Option<ThresholdSignature>, view: View, hash: Hash)

  /** The parent digest and the digest named by the certificate are separate fields. */
  datatype Block = Block(parent: Hash, cert: QuorumCert, cmd: Command, view: View, proposer: ID)

  const ZeroHash := ViewHash(0)
  const ZeroQC := QuorumCert(None, 0, ZeroHash)
  const Genesis := Block(ZeroHash, ZeroQC, [], 0, 0)
  const GenesisHash := BlockHash(Genesis)

  datatype TimeoutCert = TimeoutCert(sig: Option<ThresholdSignature>, view: View)

  datatype AggregateQC = AggregateQC(qcs: map<ID, QuorumCert>, sig: Option<ThresholdSignature>, view: View)

  datatype SyncInfo = SyncInfo(qc: Option<QuorumCert>, tc: Option<TimeoutCert>, aggQC: Option<AggregateQC>)

  datatype PartialCert = PartialCert(sig: Signature, hash: Hash)

  datatype ProposeMsg = ProposeMsg(id: ID, block: Block, aggQC: Option<AggregateQC>)

  datatype TimeoutMsg =
    TimeoutMsg(id: ID, view: View, viewSig: Signature, msgSig: Option<Signature>, syncInfo: SyncInfo)
  {
    /** What the message signature of an aggregate certificate covers: the view, the digest named by the
        certificate if there is one, and the sender. */
    function Hash(): Hash {
      TimeoutHash(view, if syncInfo.qc.Some? then Some(syncInfo.qc.value.hash) else None, id)
    }
  }

  /** The block a certificate names, if its digest is that of a block. */
  function Named(h: Hash): Option<Block> {
    if h.BlockHash? then Some(h.block) else None
  }

  /** The block named by the certificate inside `b`. */
  function Justified(b: Block): Option<Block> {
    Named(b.cert.hash)
  }

  /** `a` is `b`, or is reached from `b` by following certificates. */
  predicate QCExtends(b: Block, a: Block)
    decreases b
  {
    a == b || (b.cert.hash.BlockHash? && QCExtends(b.cert.hash.block, a))
  }

  /** `a` is `b`, or is reached from `b` by following parent links. */
  predicate ParentExtends(b: Block, a: Block)
    decreases b
  {
    a == b || (b.parent.BlockHash? && ParentExtends(b.parent.block, a))
  }

  lemma {:induction false} QCExtendsTransitive(c: Block, b: Block, a: Block)
    requires QCExtends(c, b) && QCExtends(b, a)
    ensures QCExtends(c, a)
    decreases c
  {
    if b != c {
      QCExtendsTransitive(c.cert.hash.block, b, a);
    }
  }
}
