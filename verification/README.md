# HotStuff replica: a verified model

This project models the Byzantine fault tolerant replica of the `hotstuff` repository: voting, locking, committing and
changing views under the SimpleHotStuff, ChainedHotStuff and FastHotStuff rules, and the data structures around it.
It proves agreement of commits over all runs, with up to `NumFaulty(n)` replicas behaving arbitrarily; exactly when a
replica votes, proposes, locks, commits and times out, and what it then says; and that in runs without faults all
commands are executed in order.

`dafny verify dfyconfig.toml` checks all of it.

## Structure

- `Types`, `Quorums`, `Crypto`, `Bytes`: blocks, certificates, messages, quorum sizes, creation and verification of
  certificates, byte forms.
- `Handlers`: what a replica does with one event, as functions on its state. `Replicas.Replica` is the object that
  does it in place; every method is proved equal to its function.
- `History`: the sequence of all votes and timeouts signed by non-faulty replicas, and the rules they obey. `Safety` and
  `Agreement` derive from these rules that committed blocks stay.
- `Protocol`: runs of the whole system. `Invariant`: every handler, and so every run, keeps to the rules.
  `Theorems`: the results for every reachable state. `ChainedGap`: where ChainedHotStuff's commit rule stops being safe.
- `Rulings`: what the vote and commit rules decide, for all inputs. `Conduct`: what a replica signs and sends, for one event
  and over runs. `ViewChanges`: timeouts, aggregates, the proposal made of them, and catching up. `ReplacementGap`: a
  change of view whose proposal nobody votes for.
- `Staging`: the worlds of the runs that are constructed. `FaultFree`: runs in which every replica is correct, and when
  their leaders keep parents and certificates together. `Progress`: runs in which they execute any commands in order.
  `ParentGap`, over the steps in `CleanSteps`: such a run of SimpleHotStuff in which two executed logs diverge.
- `Synchronizer`, `Timeouts`: the view synchronizer. `Certificates`, `Ecdsa`: certificates and the loops that make them.
- `BlockChains`, `VotingMachines`, `Wire`, `SignatureCaches`, `CommandCaches`: the block store, vote collection,
  conversion for the wire, the LRU cache of verified signatures, the cache of client commands. `Pruning`: committing with
  the block store, and what is reported as forked over the commits of a replica in a run.

## Assumptions

- A digest determines what was hashed: `Hash` is a datatype whose constructors hold the hashed value. Digests of blocks,
  views and timeout messages are different from one another. Where digests are written as 32 bytes, those in one
  message are assumed to be told apart by their bytes, which is possible exactly if there are no more than
  256^32 of them (`Wire.CodecExactly`). The bytes of a block do not say where its command ends and its certificate
  begins: two blocks have the same bytes exactly if they agree in parent, proposer and view and in command and
  certificate taken together (`Wire.SameBytesExactly`), so that commands of one length are told apart
  (`Wire.SameLengthCommands`).
- Signatures are unforgeable: a delivered message holds a non-faulty replica's signature only if that replica made it
  (`Protocol.LegitEvent`). A non-faulty replica's signature verifies for one digest only. Faulty replicas, and the network, may
  otherwise send any message to anyone, in any order, any number of times, or never.
- A block that has a certificate is held locally or can be fetched (`Protocol.Fetchable`); fetching a digest yields
  nothing or the block with that digest.
- Signatures are verified as without the cache of `crypto/cache.go`. With a cache whose key determines the operation, the
  signature with its signers and the digest, this makes no difference, and with any other key it does in some
  world (`SignatureCaches.TransparentEverywhere`). The key in use, made of digest and byte form, does not determine them: it
  makes no difference only where no signature verifies at all (`SignatureCaches.EcdsaTransparentExactly`). The
  results on agreement are for verification without the cache for this reason; with a key that determines the query
  certificates are accepted as without it (`SignatureCaches.CertificatesThroughCache`).
- One event is handled to the end before the next one, as the event loop does (`eventloop/eventloop.go:73-85`).
- The leader of a view, what can be fetched, what the acceptor takes, which command is queued, the outcome of signing, and
  the order in which a Go map is iterated are parameters (`Handlers.Env`) and may differ from event to event.

No handler compares a block's parent with the block its certificate names, or a certificate's view field with that
block's view. Results that depend on it say so: `ParentsMatch` (parents of certified blocks match their
certificates), `AuthenticVotes` (view fields in the proposals that non-faulty replicas voted for are right, and an aggregate is for the
view before the proposal's), and `Tight` (a three-chain of ChainedHotStuff spans two views). SimpleHotStuff's agreement needs
none of these.

`ParentsMatch` is not only a matter of faults. A correct leader that enters its view with another replica's timeout
certificate proposes on its own leaf block with that replica's quorum certificate, so parent and certificate agree exactly if
that certificate is for the leader's leaf (`FaultFree.ProposalMatchesExactly`). Where all leaders of a run without faults
propose so, logs are prefixes of one another (`FaultFree.CleanLogs`). Otherwise they need not be: `ParentGap.LogsDiverge`
gives a run of SimpleHotStuff in which all replicas are correct and all messages genuine.

What decides is whether commits are linked (`Handlers.Linked`), which can be seen before a commit: from the committed block down
to the executed one every parent is the block named by the certificate, but for the lowest block, whose parent only has
to be none that would be executed. A replica's log is the path of certificates to its executed block exactly if all its commits
were linked (`Theorems.LogIsPathExactly`). If those of one replica were, the log of another that has executed no
higher block is a prefix of its log exactly if those of the other were too (`Theorems.PrefixExactly`). For
SimpleHotStuff this needs no hypothesis. The field `linked` of a replica only records this.

## Where code and comments differ

- `QuorumSize` is documented as 2f + 1; the code computes n - f, which is larger unless n = 3f + 1. The model has n - f.
- ChainedHotStuff's commit rule looks at parents and not at views. If parents match certificates, a commit agrees with all
  commits by three-chains that span two views, exactly if it commits genesis or its own three-chain spans two views
  (`ChainedGap.ChainedAgreementExactly`).
- `OnRemoteTimeout` makes the aggregate for the current view, not for the timeouts' view. It verifies exactly if
  the two are equal (`Timeouts.AggregateIsForCurrentView`).
- A leader that has collected timeouts proposes with its own high certificate, and a proposal with an aggregate is accepted
  only if its certificate equals the highest one in the aggregate. So a replica votes for it exactly if the leader's high
  certificate is the highest one reported (`ViewChanges.ReplacementVotedExactly`, and `ReplacedInRuns` for runs). The leader need
  not have taken in what was reported: a timeout that carries a timeout certificate does not update the high quorum
  certificate (`ReplacementGap.ViewChangeFails`).
- `SyncInfo` is documented to hold the highest certificates known. They bring another replica to the sender's view exactly if
  it is there already or the sender's view follows one of them (`ViewChanges.CatchUpExactly`), as it does in every run in which
  view fields are right (`ViewChanges.CatchUpInRuns`).
- `StopVoting` is documented to stop votes in views before the given one; it also stops them in that view.
- Verification of a message set waits for a result that never comes, if the signature has more entries than there are messages.
  The code blocks there for ever. Only the model goes on: the verdict is `Hang`, which a handler treats like a rejection.
- `UpdateHighQC` panics if the block of the old high certificate cannot be found. This does not happen in any run
  (`Theorems.HighBlockFound`, and `Invariant.UpdateHighQCKeeps` for every call); the model leaves the state unchanged.
- Pruning walks along parents by view, and ends exactly if it visits no view twice (`BlockChains.WalkEndsExactly`). With one
  block held per view it always ends, whatever the views of the parents (`BlockChains.WalkEnds`). With two blocks of a
  view, of which the one stored last has the other as its parent, it never ends
  (`BlockChains.SameViewNeverEnds`). `PruneToHeight` is specified for all stores on which it ends.
- The block store is documented to drop blocks in least-recently-used order; it drops none.

## Model

| member | source | states |
|---|---|---|
| `Theorems.SimpleAgreement` | consensus/simplehotstuff/simplehotstuff.go:30-78 | in every reachable state, any two blocks committed by non-faulty replicas lie on one chain of certificates |
| `Theorems.ChainedAgreement` | consensus/chainedhotstuff/chainedhotstuff.go:38-91 | if parents match certificates, any two blocks committed by three-chains that span two views lie on one chain, although a newer certificate lets a replica vote against its lock |
| `Theorems.FastAgreement` | consensus/fasthotstuff/fasthotstuff.go:33-61 | if view fields are authentic, any two committed blocks lie on one chain, through any changes of view |
| `ChainedGap.ChainedAgreementExactly` | consensus/chainedhotstuff/chainedhotstuff.go:38-69 | for all views v3 < v2 < v1 of a three-chain: in all runs where parents match certificates a commit by it agrees with all commits by three-chains that span two views, if and only if v3 = 0 or v1 = v3 + 2 |
| `ChainedGap.GapBreaks` | consensus/chainedhotstuff/chainedhotstuff.go:38-69 | for every other choice of views there is a run, in which parents match certificates, with two conflicting commits |
| `ChainedGap.Delivered` | consensus/consensus.go:127-212 | what a correct replica does with a proposal in that run: it votes if it can, locks the second ancestor and commits the third |
| `ChainedGap.VoteForChain` | consensus/chainedhotstuff/chainedhotstuff.go:72-91 | all correct replicas vote for the three-chain and for the block in the gap |
| `ChainedGap.CommitSecond` | consensus/chainedhotstuff/chainedhotstuff.go:38-69 | the chain on the block in the gap commits as well |
| `Theorems.OneCertificatePerView` | consensus/consensus.go:145-195 | under every rule set at most one block per view is certified |
| `Theorems.CertificatesPointBack` | consensus/consensus.go:150-195 | a certified block has a larger view than the block its certificate names, which is certified too, although no handler compares the two views |
| `Theorems.LogIsPathExactly` | consensus/consensus.go:228-237 | in every reachable state the log of a replica is the path of certificates to its executed block if and only if all its commits were linked; for SimpleHotStuff without hypotheses |
| `Theorems.PrefixExactly` | consensus/consensus.go:214-237 | if all commits of a replica were linked, the log of another that has executed no higher block is a prefix of its log if and only if all commits of that one were linked |
| `Theorems.LinkedLogs` | consensus/consensus.go:214-237 | the logs of two replicas whose commits were all linked are prefixes of one another |
| `Theorems.ReplicatedLog` | consensus/consensus.go:214-237 | if parents match certificates, the logs executed by any two replicas are prefixes of one another |
| `Theorems.ExecutedIsChain` | consensus/consensus.go:228-237 | a log has no gap, repeat or reordering: each block has the one before as parent and a larger view, the first has genesis as parent, all are certified |
| `Theorems.SigningDiscipline` | synchronizer/synchronizer.go:151-200 | in every run a replica's votes have increasing views, it votes above the view of every timeout it signed, and a timeout reports a certified block at least as high as the certificates in what it voted for earlier |
| `Theorems.Synchronized` | synchronizer/synchronizer.go:271-344 | in every state of every run the current view is above those of both high certificates, and the leaf block is the one named by the high certificate |
| `Theorems.ViewsAdvance` | synchronizer/synchronizer.go:271-344 | from any point of a run to any later one, neither view nor height of the leaf block decreases |
| `Theorems.HighBlockFound` | synchronizer/synchronizer.go:334-337 | whenever a replica handles an event the block of its high certificate is found, so that the code does not panic |
| `FaultFree.ProposalMatchesExactly` | consensus/consensus.go:100-110 | on both ways into a view, a leader proposes on its own leaf with the certificate that came with the change of view; parent and certificate match exactly if that certificate is for its leaf |
| `FaultFree.VotedIsProposed` | consensus/consensus.go:127-195 | in a run without faults everything voted for was proposed by a replica |
| `FaultFree.CleanLogs` | consensus/consensus.go:73-125 | in a run of SimpleHotStuff without faults in which leaders propose with certificates for their leaf blocks, all commits are linked, and executed logs are prefixes of one another |
| `ParentGap.LogsDiverge` | consensus/consensus.go:73-125 | without that condition they are not: a run without faults after which neither of two logs is a prefix of the other |
| `ParentGap.FifthView` | synchronizer/synchronizer.go:271-318 | in that run a leader that missed the first views enters view 5 by a timeout certificate, proposes on genesis with the certificate of another replica, and is voted for |
| `CleanSteps.Followed` | consensus/consensus.go:127-212 | what a replica that votes for a proposal does: where it is afterwards, what it locks and executes |
| `CleanSteps.Completes` | synchronizer/synchronizer.go:203-262 | the third timeout makes a timeout certificate and takes the replica to the next view |
| `Theorems.WalkDecides` | blockchain/blockchain.go:113-120 | on certified blocks whose parents match certificates, the ancestry walk answers exactly whether one block extends the other along certificates |
| `Theorems.CertifiedDescends` | blockchain/blockchain.go:113-120 | the parent links of a certified block lower the view, so that the walk reaches every ancestor |
| `Progress.CommandsExecuted` | consensus/consensus.go:73-237 | under every rule set and for any number of arbitrary commands there is a run without faults after which all four replicas have executed exactly these commands, in the order in which they were queued |
| `Progress.Handled` | consensus/consensus.go:127-212 | in that run: a replica that handles the proposal of a view votes for it, locks two views below, executes the block two or three views below, and enters the view |
| `Progress.LeaderAdvances` | synchronizer/synchronizer.go:271-318 | a certificate made of votes takes the leader to the next view, where it proposes on the certified block and votes for its proposal |
| `Rulings.ReachesExactly` | blockchain/blockchain.go:113-120 | in any store the ancestry walk answers exactly whether a path of parents that are found leads to the target, above its view up to there |
| `Rulings.VoteRuleExactly` | consensus/fasthotstuff/fasthotstuff.go:52-61 | for each of the three rule sets and all inputs, when a proposal is permitted; with an aggregate under FastHotStuff exactly if the block of the certificate is found and below the proposed one |
| `Rulings.CommitsExactly` | consensus/fasthotstuff/fasthotstuff.go:33-49 | for each of the three rule sets and all inputs: a block is returned exactly if it is at the bottom of a chain of the required shape whose blocks are found |
| `Rulings.CommitsInRuns` | consensus/chainedhotstuff/chainedhotstuff.go:38-69 | in every reachable state a block is returned exactly if it is at the bottom of such a chain above a certified block |
| `Rulings.LocksExactly` | consensus/simplehotstuff/simplehotstuff.go:55-78 | the lock moves exactly to the block two certificates below the proposed one, if that is found and higher; never under FastHotStuff |
| `Conduct.ConsideredExactly` | consensus/consensus.go:150-195 | a proposal is voted for exactly if it comes from the leader of its view, is permitted, has an accepted command and a view above the last vote, and can be signed; it is stored, and a block committed on it, exactly if it is so far welcome and the block is at the bottom of a chain |
| `Conduct.OnProposeExactly` | consensus/consensus.go:127-212 | with certificates that are not in order nothing happens; otherwise the vote for the proposal, if any, is the first thing signed, all else signed are votes for proposals of its own, and the view of the certificate is left |
| `Conduct.VotesAreEndorsed` | consensus/consensus.go:127-195 | in every run, every vote of a correct replica is for a proposal from the leader it computed in that step, with certificates it verified and a command it accepted; and not for a view it had left, but under ChainedHotStuff and after a view change |
| `Conduct.ProposesExactly` | consensus/consensus.go:73-125 | a replica proposes exactly if a command is queued and the block of the certificate is found; the proposal holds the queued command, its view, its own ID, its leaf block as parent, and the certificates that came along |
| `Conduct.LeadsExactly` | synchronizer/synchronizer.go:271-318 | a change of view leads to such a proposal exactly if its certificate verifies and is not for a view left before, and the replica leads the next view |
| `Conduct.ProposalsAreOffered` | consensus/consensus.go:87-116 | in every run, every proposal of a correct replica is for a view it leads, under its own ID, with the command its queue gave for that view |
| `Conduct.TimeoutExactly` | synchronizer/synchronizer.go:169-193 | when a timeout is signed; its view, sender and high certificates; that the view signature verifies for the view, and the message signature, which it has exactly under FastHotStuff, for the digest of the message |
| `Conduct.TimeoutsAreNew` | synchronizer/synchronizer.go:151-200 | in every run, every timeout of a correct replica is the one for its view at that time, with its high certificates of that time |
| `Conduct.OncePerView` | synchronizer/synchronizer.go:151-200 | in every run a correct replica signs at most one timeout per view, and makes at most one proposal per view but the first, where it makes one whenever it is started |
| `Conduct.CertsVerify` | synchronizer/synchronizer.go:274-292 | in every state of every run both high certificates verify |
| `Conduct.HandleConducts` | eventloop/eventloop.go:73-85 | for every event: at most one timeout is signed, and that first; all else that is signed or proposed is as above |
| `ViewChanges.SentIsProper` | synchronizer/synchronizer.go:185-193 | in every run of FastHotStuff every timeout of a correct replica reports a certificate that verifies and is signed for what an aggregate is verified against |
| `ViewChanges.TimeoutsAggregate` | synchronizer/synchronizer.go:231-257 | so a quorum of timeouts of correct replicas for its current view gives a replica a timeout certificate that verifies and an aggregate that is accepted in every order of iteration |
| `ViewChanges.LeaderReplaces` | consensus/consensus.go:100-115 | a leader with such timeouts proposes on its leaf block with its own high certificate and the aggregate |
| `ViewChanges.ReplacementVotedExactly` | consensus/consensus.go:132-143 | a replica that expects the proposal votes for it exactly if the high certificate of the leader equals the highest one reported |
| `ViewChanges.HighestLeaderIsVoted` | consensus/fasthotstuff/fasthotstuff.go:55-58 | in particular if a timeout reports it and none reports another as high |
| `ViewChanges.ReplacedInRuns` | synchronizer/synchronizer.go:203-262 | the same for every state of every run in which timeouts of a quorum of correct replicas have been filed |
| `ReplacementGap.ViewChangeFails` | consensus/consensus.go:138-142 | from the initial state, three proper timeouts make a leader propose what no replica votes for |
| `ViewChanges.CatchUpExactly` | synchronizer/synchronizer.go:144-149 | the high certificates of a replica take any other one exactly to the view after the higher of them, unless it is past it; so to the view of the sender exactly if it was there or that view follows one of them |
| `ViewChanges.CatchUpInRuns` | synchronizer/synchronizer.go:271-318 | in every run in which delivered certificates carry the right view they take every other replica at least to the view of the sender |
| `Quorums.HonestInBoth` | helper.go:4-11 | two quorums share a replica that is not faulty |
| `History.OneCertifiedPerView` | consensus/consensus.go:184-195 | two blocks certified in one view are equal, by a common voter and its last vote |
| `History.CertIsOlder` | consensus/consensus.go:150-195 | the certificate in a certified block is for a certified block of a smaller view |
| `Safety.ThreeChainStays` | consensus/simplehotstuff/simplehotstuff.go:30-78 | a block certified at or above the bottom of a three-chain extends it, through the lock of a common voter (also for ChainedHotStuff) |
| `Safety.TimeoutReportsCert` | synchronizer/synchronizer.go:151-200 | a voter for a block who contributes to an aggregate of that view or later reports a certificate at least as high as that in the block |
| `Safety.TwoChainStays` | consensus/fasthotstuff/fasthotstuff.go:33-61 | a block certified at or above the bottom of a two-chain extends it, through the aggregate |
| `Agreement.CommitStays` | consensus/consensus.go:214-225 | every block certified at or above a committed block extends it |
| `Protocol.VerifiedIsCertified` | crypto/base.go:96-101 | a quorum certificate of legitimate signatures that verifies is for genesis or for a digest signed by a quorum |
| `Protocol.AcceptedIsBacked` | consensus/consensus.go:132-143 | an accepted aggregate holds timeouts signed by a quorum, and the block's certificate is as high as all of theirs |
| `Invariant.VoteIsGood` | consensus/consensus.go:150-195 | a vote cast under any of the three vote rules obeys the rules of the history: later view, lock respected, certificate certified |
| `Invariant.CommitRuleKeeps` | consensus/chainedhotstuff/chainedhotstuff.go:38-69 | a commit rule keeps lock and high certificate certified and high enough for what was signed, and returns certified chains only |
| `Invariant.UpdateHighQCKeeps` | synchronizer/synchronizer.go:321-344 | replacing the high certificate finds the old block, keeps certificate and leaf certified, and raises the leaf to the higher of the two |
| `Invariant.CompletesExactly` | consensus/consensus.go:228-237 | what commitInner executes is the rest of the path of certificates from the executed block to the committed one exactly if the commit is linked |
| `Invariant.MatchingIsLinked` | consensus/consensus.go:228-237 | if parents match certificates, a commit is linked |
| `Invariant.CommitMatchesExactly` | consensus/consensus.go:214-237 | after a commit the log is the path to the executed block exactly if it was before and the commit is linked; a log that has left the path does not come back |
| `Invariant.OnProposeKeeps` | consensus/consensus.go:127-212 | handling a proposal, with the proposals of its own that follow, keeps the invariant |
| `Invariant.AdvanceViewKeeps` | synchronizer/synchronizer.go:271-318 | advancing the view keeps the invariant |
| `Invariant.OnRemoteTimeoutKeeps` | synchronizer/synchronizer.go:203-262 | handling a timeout keeps the invariant |
| `Invariant.OnLocalTimeoutKeeps` | synchronizer/synchronizer.go:151-200 | timing out keeps the invariant; the signed timeout obeys the rules of the history |
| `Invariant.ReachableInv` | eventloop/eventloop.go:73-85 | the invariant holds in every reachable state |
| `Handlers.OnPropose` | consensus/consensus.go:127-212 | terminates through its mutual recursion with AdvanceView and Propose; takes back no vote, commit, execution or view, and touches no stored timeout (what it signs: Conduct.OnProposeExactly) |
| `Handlers.Propose` | consensus/consensus.go:73-125 | the same of making a proposal (what it proposes: Conduct.ProposesExactly) |
| `Handlers.AdvanceView` | synchronizer/synchronizer.go:271-318 | the same of advancing the view |
| `Handlers.OnRemoteTimeout` | synchronizer/synchronizer.go:203-262 | takes back no vote, commit, execution or view |
| `Handlers.OnLocalTimeout` | synchronizer/synchronizer.go:151-200 | takes back no vote, commit, execution or view (what it signs: Conduct.TimeoutExactly) |
| `Handlers.RunCommitRule` | consensus/consensus.go:177-182 | commits without signing anything or moving the view |
| `Synchronizer.HandleSync` | synchronizer/synchronizer.go:271-344 | every event keeps the current view above those of both high certificates and the leaf block the one named by the high certificate; view and height of the leaf never decrease |
| `Synchronizer.CommitRuleSync` | consensus/chainedhotstuff/chainedhotstuff.go:38-39 | the same of the update made inside ChainedHotStuff's commit rule, up to the certificate then used to advance the view |
| `Synchronizer.AdvanceViewMoves` | synchronizer/synchronizer.go:271-318 | one call enters at most two views, in increasing order, and two only with a timeout certificate whose accompanying quorum certificate claims a later view |
| `Synchronizer.OnProposeMoves` | consensus/consensus.go:127-212 | handling a proposal enters at most one view |
| `Synchronizer.ProposalFollowsCert` | consensus/consensus.go:73-125 | on the way by a quorum certificate with an authentic view: the leader proposes in the next view, with the certified block as parent |
| `Timeouts.CertifyExactly` | crypto/base.go:54-68 | stored timeouts yield a timeout certificate exactly if their distinct signers are a quorum (or the view is 0), and it verifies |
| `Timeouts.AggregateIsForCurrentView` | synchronizer/synchronizer.go:250-257 | the aggregate made beside it holds the certificates of all senders and verifies, for every order of iteration, exactly if the timeouts are for the current view |
| `Timeouts.RemoteTimeoutCollects` | synchronizer/synchronizer.go:203-262 | a verified timeout is filed under its sender, unless its view has been left or the sender has one there, which stays; stale views are dropped; no view keeps timeouts signed by a quorum |
| `Timeouts.NoQuorumStored` | synchronizer/synchronizer.go:231-233 | if the senders in a stored bucket sign for themselves, it holds fewer than a quorum of timeouts |
| `Timeouts.QuorumOfTimeoutsEndsView` | synchronizer/synchronizer.go:203-262 | once a quorum of replicas that sign for themselves has been heard for a view, in any order, among any events and whatever the others send, the view has been left |
| `Certificates.CreateThresholdIff` | crypto/ecdsa/ecdsa.go:168-194 | a threshold signature is made exactly of lists with verifying signatures of a quorum of distinct replicas, and it verifies |
| `Certificates.AggregateOfProper` | crypto/base.go:70-88 | the aggregate of proper timeouts holds each sender's certificate and verifying signature |
| `Certificates.AggregateRoundTrip` | crypto/base.go:112-138 | an aggregate of proper timeouts from a quorum verifies exactly if made for their view, and then yields a certificate of largest view, for every order of iteration |
| `Ecdsa.CreateThresholdSignature` | crypto/ecdsa/ecdsa.go:168-194 | the loop keeps the first verifying signature of each signer, and fails below a quorum |
| `Ecdsa.VerifyThresholdSignature` | crypto/ecdsa/ecdsa.go:233-254 | accepts exactly if the verifying entries are a quorum |
| `Ecdsa.VerifyForMessageSet` | crypto/ecdsa/ecdsa.go:257-285 | accepts, rejects or waits forever exactly as the specification says, for every order of iteration |
| `Ecdsa.CreateAggregateQC` | crypto/base.go:70-88 | collects certificates, digests and signatures of the timeouts that have them |
| `Ecdsa.VerifyAggregateQC` | crypto/base.go:112-138 | returns the certificate of largest view, if the signatures verify for the reconstructed digests and that certificate verifies |
| `Replicas.Replica.constructor` | synchronizer/synchronizer.go:71-87 | a new replica is in the initial state |
| `Replicas.Replica.Extends` | blockchain/blockchain.go:113-120 | the loop over parents computes the ancestry walk |
| `Replicas.Replica.VoteRule` | consensus/fasthotstuff/fasthotstuff.go:52-61 | computes the vote rule of the rule set in use, decided in Rulings.VoteRuleExactly |
| `Replicas.Replica.CommitSimple` | consensus/simplehotstuff/simplehotstuff.go:55-78 | locks the grandparent if it is higher, and returns the great-grandparent if it is two views below the parent |
| `Replicas.Replica.CommitChained` | consensus/chainedhotstuff/chainedhotstuff.go:38-69 | updates the high certificate, locks the second block, and returns the third of a chain linked by parents |
| `Replicas.Replica.CommitFast` | consensus/fasthotstuff/fasthotstuff.go:33-49 | returns the grandparent of a chain with consecutive views, linked by parents: exactly the blocks of Rulings.CommitsExactly |
| `Replicas.Replica.StopVoting` | consensus/consensus.go:66-70 | raises the last vote and changes nothing else |
| `Replicas.Replica.CommitInner` | consensus/consensus.go:228-237 | executes the unexecuted ancestors that can be found, oldest first, then the block |
| `Replicas.Replica.DoCommit` | consensus/consensus.go:214-225 | executes, records the commit, and changes nothing else; with pruning it is Pruning.Committer.Commit |
| `Replicas.Replica.OnPropose` | consensus/consensus.go:127-212 | the new state is that of the specification proved safe, whose votes are those of Conduct.OnProposeExactly |
| `Replicas.Replica.Propose` | consensus/consensus.go:73-125 | the new state is that of the specification proved safe, whose proposals are those of Conduct.ProposesExactly |
| `Replicas.Replica.UpdateHighQC` | synchronizer/synchronizer.go:321-344 | replaces high certificate and leaf together, if the certificate verifies and is for a higher block |
| `Replicas.Replica.AdvanceView` | synchronizer/synchronizer.go:271-318 | the new state is that of the specification proved safe |
| `Replicas.Replica.OnRemoteTimeout` | synchronizer/synchronizer.go:203-262 | the new state is that of the specification proved safe |
| `Replicas.Replica.OnLocalTimeout` | synchronizer/synchronizer.go:151-200 | the new state is that of the specification proved safe, whose timeouts are those of Conduct.TimeoutExactly |
| `Replicas.Replica.Handle` | eventloop/eventloop.go:73-85 | an event takes the replica to the state that runs of the system are made of |
| `BlockChains.ExtendsExactly` | blockchain/blockchain.go:113-120 | a positive answer means ancestry in any store; where links descend and parents are found, the answer is exactly ancestry |
| `BlockChains.BlockChain.constructor` | blockchain/blockchain.go:30-38 | a new store holds genesis |
| `BlockChains.BlockChain.Store` | blockchain/blockchain.go:41-52 | adds the block under its digest and its view |
| `BlockChains.BlockChain.Get` | blockchain/blockchain.go:69-110 | answers from the store, or else stores and returns what is fetched |
| `BlockChains.BlockChain.PruneToHeight` | blockchain/blockchain.go:122-154 | for every store on which the walk ends: returns the forked blocks of the specification, forgets the pruned views, changes nothing else |
| `BlockChains.VisitedIsChain` | blockchain/blockchain.go:126-140 | the walk visits exactly the views of the committed chain above the pruned ones |
| `BlockChains.ForkedExactly` | blockchain/blockchain.go:122-154 | with one block held per view the walk from the committed block ends, and pruning returns exactly the blocks held for the newly pruned views that are off the committed chain |
| `BlockChains.WalkEndsExactly` | blockchain/blockchain.go:129-140 | in any store, the walk ends if and only if it visits no view twice |
| `BlockChains.VisitedStays` | blockchain/blockchain.go:129-140 | what the walk has visited when it ends does not depend on how many more steps it is given |
| `BlockChains.WalkEnds` | blockchain/blockchain.go:129-140 | with one block held per view the walk ends from every view, whatever the views of the parents |
| `BlockChains.SameViewNeverEnds` | blockchain/blockchain.go:129-140 | if the block stored last for a view has another block of that view as its parent, the walk from there does not end |
| `Pruning.Committer.CommitInner` | consensus/consensus.go:228-237 | executes what the specification proved safe executes, and stores the ancestors it had to fetch |
| `Pruning.Committer.Commit` | consensus/consensus.go:214-225 | executes, prunes to the view of the block, and returns what goes to the fork handler |
| `Pruning.ExecutedDescends` | consensus/consensus.go:228-237 | over the commits of a replica in a run, executed blocks extend those executed before, along parents of smaller and smaller views |
| `Pruning.ExecutedExactly` | consensus/consensus.go:228-237 | up to the view of the block executed after any number of commits, what the replica ever executes is exactly its ancestors |
| `Pruning.LookedUpHolds` | consensus/consensus.go:228-237 | commitInner leaves all ancestors of the committed block in the store |
| `Pruning.CommitsWhen` | blockchain/blockchain.go:69-110 | when a replica commits a block it is certified, and what is certified is held by its store or can be fetched |
| `Pruning.CommittedIsFound` | blockchain/blockchain.go:69-110 | the ancestors of a committed block can be found, because they are certified |
| `Pruning.ReportedExactly` | blockchain/blockchain.go:122-154 | over the commits of a replica in a run: a commit reports exactly the blocks held for the views it prunes that the replica never executes, before or after; and its walk ends |
| `Pruning.NoneReportedTwice` | blockchain/blockchain.go:122-154 | over the commits of a replica in a run no block is reported twice |
| `VotingMachines.CreateQCExactly` | crypto/base.go:37-51 | a quorum certificate is made exactly of votes whose distinct signers are a quorum, and it verifies |
| `VotingMachines.VotingMachine.OnVote` | consensus/votingmachine.go:29-64 | the new state is that of the specification: votes for unknown blocks and for old ones, and deferred votes that fetch their block |
| `VotingMachines.VotingMachine.VerifyCert` | consensus/votingmachine.go:66-107 | verifies, groups, announces a certificate if there is a quorum, and cleans up |
| `VotingMachines.CountExactly` | consensus/votingmachine.go:89-107 | a vote makes the machine announce exactly when the distinct signers reach a quorum, and otherwise the votes are kept |
| `VotingMachines.ReceivedRefines` | consensus/votingmachine.go:29-107 | storing repeated votes makes no difference to a machine with sets of signers |
| `VotingMachines.VoteCollection` | consensus/votingmachine.go:29-107 | over all sequences of votes: no list holds a quorum of signers, every announced certificate verifies, and announcements are those of the machine with sets |
| `VotingMachines.AnnouncedExactly` | consensus/votingmachine.go:29-107 | while a block is held and above the leaf, over all sequences of votes: a certificate for it has been announced if and only if votes for it by a quorum of distinct replicas have arrived that verify |
| `Wire.SyncRoundTrip` | internal/proto/hotstuffpb/convert.go:235-262 | sync info survives conversion, with all certificates and for every order of iteration, if its digests are told apart by their 32 bytes |
| `Wire.CodecExactly` | internal/proto/hotstuffpb/convert.go:115-129 | digests can be told apart by 32 bytes if and only if they are no more than there are sequences of 32 bytes |
| `Wire.BlockCodec` | internal/proto/hotstuffpb/convert.go:153-175 | so those of every block can |
| `Wire.QCRoundTrip` | internal/proto/hotstuffpb/convert.go:115-129 | a quorum certificate survives conversion |
| `Wire.Transfer` | internal/proto/hotstuffpb/convert.go:51-96 | the loops of sender and receiver together give a threshold signature back, for every order of iteration |
| `Wire.ThresholdRoundTrip` | internal/proto/hotstuffpb/convert.go:51-96 | a threshold signature survives conversion |
| `Wire.BlockRoundTrip` | internal/proto/hotstuffpb/convert.go:153-175 | a block survives conversion |
| `Wire.HashedBytes` | consensus/block.go:78-89 | the bytes hashed by sender and receiver of a block are equal, whatever the orders in which they iterate |
| `Wire.SameBytesExactly` | consensus/block.go:78-89 | two blocks have the same bytes if and only if they agree in parent, proposer and view, and in the bytes of command and certificate taken together |
| `Wire.SameLengthCommands` | consensus/block.go:78-89 | blocks with commands of one length have the same bytes if and only if they agree in all fields, the signature up to its bytes |
| `Wire.SortSigners` | crypto/ecdsa/ecdsa.go:76-90 | insertion by binary search yields the sorted signers for every order of iteration |
| `Wire.Search` | crypto/ecdsa/ecdsa.go:81-81 | finds the first larger element |
| `Wire.ThresholdToBytes` | crypto/ecdsa/ecdsa.go:76-90 | the byte form does not depend on the order of iteration |
| `Wire.RestoreThresholdSignature` | crypto/ecdsa/ecdsa.go:67-73 | the loop rebuilds the map, the last signature of a signer winning |
| `Wire.RestoreAll` | crypto/ecdsa/ecdsa.go:67-73 | listing a threshold signature in any order and restoring it gives it back |
| `SignatureCaches.SignatureCache.Insert` | crypto/cache.go:38-49 | touches the key; map and access list hold exactly the most recently touched keys up to the capacity, in order |
| `SignatureCaches.SignatureCache.Check` | crypto/cache.go:51-60 | answers whether the key is among them, and touches it if so |
| `SignatureCaches.SignatureCache.Evict` | crypto/cache.go:62-68 | drops the least recent key of a full cache |
| `SignatureCaches.SignatureCache.VerifyPartial` | crypto/cache.go:82-95 | answers and touches as specified; a missing signature is rejected |
| `SignatureCaches.SignatureCache.VerifyThresholdSignature` | crypto/cache.go:109-122 | the same, with the entries verified through the cache again by the implementation behind it |
| `SignatureCaches.TouchKeepsMostRecent` | crypto/cache.go:38-68 | a touch of the keys held leaves exactly the most recently touched keys |
| `SignatureCaches.RecentIsByLastTouch` | crypto/cache.go:38-60 | the recency list is ordered by last touch |
| `SignatureCaches.TransparentExactly` | crypto/cache.go:82-122 | in one world, cached verification answers as the uncached one over all runs, if and only if queries with the same key have the same answer |
| `SignatureCaches.TransparentEverywhere` | crypto/cache.go:82-122 | it does so in all worlds if and only if the key determines the operation, the signature with its signers, and the digest |
| `SignatureCaches.CertificatesThroughCache` | crypto/cache.go:109-122 | with a key that determines the query, quorum certificates are accepted through the cache as without it, after every run |
| `SignatureCaches.KeyOmitsOperation` | crypto/cache.go:103-113 | the key in use does not tell a signature from the threshold signature that holds only it: after the first the second is accepted, though no quorum |
| `SignatureCaches.KeyOmitsSigner` | crypto/cache.go:76-86 | nor does it tell who signed: a verified signature is then accepted under any name |
| `SignatureCaches.EcdsaTransparentExactly` | crypto/cache.go:71-122 | with the key in use, cached verification answers as the uncached one in a world if and only if nothing verifies there |
| `CommandCaches.CmdCache.AddCommand` | replica/cmdcache.go:40-55 | queues fresh commands only |
| `CommandCaches.CmdCache.Scan` | replica/cmdcache.go:74-89 | terminates, takes the shortest prefix with a batch of fresh commands, or the whole queue, and returns its fresh commands in order |
| `CommandCaches.CmdCache.Get` | replica/cmdcache.go:58-107 | waits, scans and waits again: the fresh commands that were queued or arrived are, in order, those returned and those still queued; a batch is short only if none are left; nothing is returned only when the context is done |
| `CommandCaches.CmdCache.Accept` | replica/cmdcache.go:110-129 | accepts exactly batches of which all commands are fresh |
| `CommandCaches.CmdCache.Proposed` | replica/cmdcache.go:132-148 | records the serial numbers of a batch |
| `CommandCaches.ShortestIsUnique` | replica/cmdcache.go:74-89 | a scan has one outcome |
| `CommandCaches.SerialsGrow` | replica/cmdcache.go:132-148 | over all calls serial numbers never decrease |
| `CommandCaches.ProposedIsNotAccepted` | replica/cmdcache.go:110-148 | a non-empty batch that was proposed is never accepted again |

## Left out

- Views are unbounded naturals: wrap-around of the 64-bit view counter is not modelled.
- Liveness under partial synchrony, timers and view durations; `Progress.CommandsExecuted`, `Timeouts.QuorumOfTimeoutsEndsView` and the results of `ViewChanges` are the parts that need no clock.
- ECDSA, BLS12-381, SHA-256 and key generation: replaced by an abstract verification predicate and injective digests.
- Networking, gRPC and the protobuf byte encoding; conversions are modelled up to the protobuf message values.
- Conversion of partial certificates, proposals and timeout messages, which only wrap the conversions modelled.
- Redelivery of delayed events: a vote for an unknown block is dropped; that it comes back as a deferred vote is not modelled.
- Progress.CommandsExecuted: is for four replicas with one leader and messages that arrive in time, because it gives runs and does not speak of all runs.
- ViewChanges.ReplacedInRuns: assumes that the view field of the leader's high certificate is right, which no handler checks.
- Leader rotation: the leader is an arbitrary function of the view, for every replica and event its own.
- The Byzantine strategies of consensus/byzantine and custom propose rules: a faulty replica is not modelled by code but may do anything.
- Interleaving inside a handler: fetching, verification in goroutines and mutexes; each handler is atomic.
- Calls of the command cache from inside the handlers: the handlers take acceptance and the next command as parameters.
- BlockChain.Get: does not model the cancellation of a pending fetch by a concurrent store, because each call is atomic.
- CmdCache.Get: commands that arrive while it waits are a parameter; marshalling the batch is left out.
- CmdCache.Accept: an unreadable payload is a value of its own; decoding of bytes is left out.
- SignatureCache.VerifyThresholdSignature: each verification through the cache is atomic; the goroutines may interleave.
- The cached verification for sets of messages, whose key depends on the order in which a map is iterated.
- Pruning.ReportedExactly: assumes one stored block per view and non-decreasing heights, neither of which the store checks. What is stored between the commits is a parameter of the run of the store.
- Replica.DoCommit: leaves pruning to Pruning.Committer.Commit, because the replica's state does not hold the blocks by view.
- Agreement with verification through the cache and the key in use: what fails is shown for the cache, not for a run of replicas.
- Pruning.Committer.Commit: the call of the fork handler is left out; its argument is returned.
- Logging, metrics, command-line and experiment code.
