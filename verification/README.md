# Braft, verified

A Dafny 4.11 model of the Braft consensus core of the gateway and of the bookkeeping that
hangs off it, with proofs. `dafny verify dfyconfig.toml` checks everything.

Nodes agree on a hash-linked chain of blocks in rounds of Init, Prepare and Commit. A
leader that a quorum accuses is replaced: nodes enter the next term and vote, each vote
reporting the highest block its sender has seen prepared (its votie), and the new leader
must carry the highest reported votie forward. The main results are about every run of a
cluster of any size with fixed membership, in which messages are lost, delayed, reordered
and duplicated at will and nodes restart at any moment with only their database.

* `BraftSafety`: nodes never hold different blocks at one height; a chosen block is
  carried forward by every later proposal; one proposal per term and height, across
  restarts; chain and index consistent and no assertion failing in any reachable state.
* `BraftAccuses`: a term is entered only after enough distinct nodes accused the one before.
* `BraftCertificates`: what nodes broadcast passes the checks its receivers make, and in every
  reachable state any node can sync from any other.
* `NodeInvariant`, `NodeEvents`, `NodeReplies`: what every handler keeps on one node for any message,
  exactly when each event is raised and each assertion fails, and what is recorded and dropped.
* `EarlyMessages`: certificates that overtake their init are not lost. `LeaderEvents`: leadership is
  announced exactly when it is gained, and a proposal is exactly what was asked for.
* `BlockStore`, `Leader`, `MsgValidation`, `Sync`, `TxStore`, `SignCollect`, `SignSafety`, `Preimage`,
  `MessagePreimage`, `KeyCodec`, `HexCodec`, `Amounts`, `ClusterParams`: the imperative code, loop by
  loop and branch by branch, proved against specification functions, and the properties of those
  functions.
* `Counterexamples`: inputs at which an expected property fails; the exact conditions stand beside
  the operations.

## How the consensus proof is built

1. `Protocol` holds the messages. A block stands for its own id, so equal ids mean equal
   contents back to genesis, and the height of a block is fixed by its id.
2. `NodeSpec` and `LeaderSpec` say, as functions of the stored state, what each handler
   does, oracle answers (transaction validation, expiry, map iteration order) being
   arguments. `BlockStore` and `Leader` are the classes with fields and loops, each method
   proved equal to its function, assertions of the source included.
3. `MessageLog` argues about the list of sent messages alone. If each message is justified
   by those before it (a proposal by a quorum of votes, a commit by a proposal, a vote by a
   votie at least as high as what its sender committed), chosen blocks are carried forward,
   by induction on the position of the proposal.
4. `Braft` composes the handlers with the event wiring of `node/node.go` into a step
   relation over one growing log. Receiving is always from the log, at any time, any number
   of times or never. What the leader hands to a goroutine waits in memory until it runs or
   the node restarts. The vote daemon reads the term in one step and the votie in a later one.
5. `BraftSteps` and `BraftLeaderSteps` show that every step keeps the cluster invariant and
   justifies what it sends; `BraftSafety` concludes for whole runs. `BraftWitness` takes four
   nodes, whose states are in `FourNodes`, step by step to a commit in the second term.

## Where the code decides

* A leader's pending block may be overwritten by another init, and the proposer of an init
  is not compared with the leader of its term, so uniqueness of proposals comes from the
  proposer alone and is proved from its code.
* Certificates merged from the caches are matched on term and height only. That a merged
  quorum really is for the pending block is proved, not assumed (`BraftSteps.FreshChosen`).
* A prepare is dropped when more than QuorumN are already held, so a quorum of prepares does
  not always raise the event; `NodeEvents.PreparedIff` has the exact condition and
  `Counterexamples.QuorumRaisesNothing` the input.
* Normal sync-up neither clears the pending block nor raises the node term. The invariant
  allows for the pending block this leaves stale, and it never makes a commit panic.
* The vote daemon reads the term before the votie, so a vote can carry a votie of a later term.
  That is safe, but checkVote refuses it; `BraftCertificates.VotesAreCertified` is exact, and
  `BraftWitness.SomeVoteIsRefused` is such a run.
* At height 0 checkVotie accepts any block without certificates. No node of a run sends such a
  votie except genesis (`BraftCertificates.VotesAreCertified`);
  `MsgValidation.AcceptedIsGenesisOrCertified` has the exact condition.
* A refused block ends a sync-up batch but not the loop; `SyncDaemons.StopsIff` has the exact
  condition for doSyncUp to end and `Counterexamples.SyncUpNeedNotEnd` an input at which it does not.
* HandleSignTx takes no lock between reading the sign record and writing it, unlike the consensus
  handlers at lines 338-376. Signing at most once therefore needs the requests for one transaction
  not to overlap; `SignSafety.SignsTwoIff` is exact and `SignSafety.TwoPayoutsInFlight` the input.
* doSave runs in goroutines and looks a result up before it stores it. `SignCollect.OvercountsIff` says
  exactly when signatures can be counted twice and `SignCollect.OneSignatureSent` is the input.
* `cluster/params_test.go:32` expects a quorum of 2 for three nodes; `cluster/params.go:84`
  gives 3, and so does the model. AddNodeInfo sizes its quorum differently from every other
  place; `ClusterParams.JoinQuorumAcrossAdd` says exactly when that is still safe.
* RecoverNode counts a node again even if it is normal already; its contract says exactly when
  the counters stay right.
* JustCommitIt checks no height; its contract says exactly when the stored keys stay a chain.

## Model

| member | source | states |
|---|---|---|
| `BraftSafety.NodesAgree` | primitives/blockstore.go:447-592 | Agreement: in any run with fixed membership, any loss, delay, reordering, duplication and restarts, the block one node holds at height h at some time is the block any node holds at h at any time |
| `BraftSafety.ChosenIsCarriedForward` | node/leader.go:298-324 | once a quorum has sent commits for (term, height, block), every proposal broadcast in a later term, at any time of the run, is at that height or above, and at that height it is that block |
| `BraftSafety.OneProposalPerTermAndHeight` | node/leader.go:287-351 | two proposals broadcast at any times of a run for one term and height are the same message, whatever crashes lie between, and only the leader of the term proposes |
| `BraftSafety.ChainsStayConsistent` | primitives/dbops.go:163-257 | in every state of every run, sync-ups included, heights are 0 .. top of one hash-linked chain with terms never decreasing, and the id-to-height index is the inverse of the chain; with it the whole node invariant |
| `BraftSafety.RunNeverPanics` | primitives/blockstore.go:939-1059 | in every state of every run every step that can be taken goes through: none of the assertions at lines 589, 968-970, 984 and 1022 fails |
| `BraftSafety.RunProgress` | primitives/blockstore.go:983-1059 | over any stretch of a run no node loses a committed block, lowers its term or lowers its votie, restarts included, and no sent message is unsent |
| `BraftSafety.StepKeeps` | node/node.go:293-368 | every step of the cluster (handling a message and broadcasting what its events subscribe to, syncing a block, voting, accusing, leading, restarting) keeps the cluster invariant |
| `BraftSafety.CommittedIsSettled` | primitives/blockstore.go:1011-1059 | every block above genesis in any chain of a reachable cluster had commits sent for it by a quorum of nodes |
| `BraftAccuses.EnteredTermsWereAccused` | primitives/blockstore.go:594-640 | in any run a node is in term t > 0, or a vote or proposal for t has been sent, only after AccuseQuorumN distinct nodes, more than can be faulty, each sent a weak accuse of term t - 1 |
| `BraftAccuses.AccusesStepKeeps` | node/node.go:357-368 | every step keeps it so that each strong accuse sent names enough nodes that each sent a weak accuse of its term, and each vote and node term was accused into being |
| `BraftWitness.SomeRunCommits` | node/node.go:298-336 | the run relation is inhabited up to a commit: of four nodes two accuse the first term, three vote, the leader of the next proposes, three prepare and commit, and one stores the block |
| `BraftWitness.SomeVoteIsRefused` | node/node.go:610-625 | a run of four nodes sends a vote whose votie, read after its term, is of a later term, and checkVote refuses it |
| `BraftWitness.SomeRunGoesOn` | node/leader.go:164-171 | in the same run the leader commits its block, hears of it and proposes the next one on top of it |
| `BraftWitness.SomeRunSyncs` | node/sync_daemon.go:234-242 | in the same run a node that neither prepared nor committed the block takes it from another and still holds it after a restart |
| `BraftWiring.SentIff` | node/node.go:303-368 | after handling a message a node sends exactly: its own init and a prepare for a block taken up, a commit for one prepared, an answer in kind about its top, and a strong accuse it has made |
| `BraftWiring.AnswerSent` | node/node.go:338-350 | a node that receives a prepare or a commit naming its top sends its own and stays as it is |
| `Counterexamples.QuorumRaisesNothing` | primitives/blockstore.go:534-550 | seven nodes: one that receives the prepares of the six others before the init holds more than a quorum of them and raises NewPreparedEvent neither then nor at any prepare to come |
| `Counterexamples.SyncUpNeedNotEnd` | node/sync_daemon.go:94-141 | four nodes: a peer is 101 blocks ahead of a fresh node and fewer than AccuseQuorumN peers, only that one, confirm its first block: doSyncUp goes round for ever |
| `BraftCertificates.AnyNodeCanSync` | node/sync_daemon.go:93-242 | in every reachable state, a node behind another ends doSyncUp from it with exactly the other's chain whenever enough peers confirm the missing blocks |
| `BraftCertificates.ChainsAreCertified` | node/sync_daemon.go:186-209 | in every reachable state every block above genesis in any chain has a sound proposal and at least one commit, every commit naming it, so it passes the checks of a syncing node |
| `BraftCertificates.VotesAreCertified` | node/msg_validation.go:122-172 | the votie of every vote broadcast in a run is the genesis votie itself or certified by a quorum of prepares or commits naming it; the vote passes checkVote if and only if its votie is not of a later term, which reading the two apart allows |
| `BraftCertificates.ProposalsAreValid` | node/msg_validation.go:73-120 | every init broadcast in a run passes checkInit with all its votes |
| `BraftCertificates.FreshNamed` | primitives/blockstore.go:482-497 | the prepares and commits of a pending block in a reachable state all name it, although they were merged on term and height |
| `BraftCertificates.StepValid` | node/node.go:293-368 | every step of the cluster keeps all stored and sent certificates sound |
| `MsgValidation.CheckVotie` | node/msg_validation.go:138-172 | accepts exactly blocks above height 0 that a quorum of known nodes prepared or committed, each certificate under its sender and naming the block, and at height 0 any block of term 0 without certificates |
| `MsgValidation.AcceptedIsGenesisOrCertified` | node/msg_validation.go:168-171 | an accepted votie is genesis or certified by a quorum if and only if at height 0 it names the genesis block, which checkVotie does not look at |
| `MsgValidation.AnyBlockAtHeightZero` | node/msg_validation.go:168-170 | every other block is accepted at height 0 too, neither genesis nor certified |
| `MsgValidation.VotieAskedIff` | node/msg_validation.go:138-172 | field by field what an accepted votie is: sender, term, height and block of every certificate, and how many |
| `MsgValidation.InitAskedIff` | node/msg_validation.go:73-94 | field by field what an accepted init is, down to each vote's sender, term and votie |
| `MsgValidation.PackAskedIff` | node/msg_validation.go:269-286 | field by field what the commits of an accepted pack are |
| `MsgValidation.CheckVote` | node/msg_validation.go:122-136 | accepts exactly the votes of known nodes with a sound votie of no later term |
| `MsgValidation.CheckInitMsg` | node/msg_validation.go:73-94 | accepts exactly the inits of known nodes whose votes are all sound, for its term and under their sender |
| `MsgValidation.CheckInit` | node/msg_validation.go:95-120 | clears votes that are fewer than a quorum and accepts exactly the inits that then pass |
| `MsgValidation.CheckCommits` | node/msg_validation.go:269-286 | accepts exactly non-empty commits that are each of a known node, under it, and name the term, height and block of the pack |
| `MsgValidation.NameCommits` | node/msg_validation.go:156-166 | accepts exactly commits, possibly none, that are each of a known node, under it, and name the term, height and block of the votie |
| `MsgValidation.CheckPrepares` | node/msg_validation.go:144-154 | the same for the prepares of a votie |
| `MessageLog.CarryForward` | node/leader.go:230-261 | on any log whose messages are each justified by earlier ones, a proposal of a later term than a chosen block is higher or proposes that block; by induction on the position of the proposal |
| `MessageLog.ReportedVotie` | node/leader.go:298-311 | the greatest votie of a vote quorum that met a chosen block is that block or stands higher |
| `MessageLog.SettledTop` | node/leader.go:303-306 | the committed top a later proposal extends is at the chosen height or above, unless the votie it followed was above the top |
| `MessageLog.VoterReports` | node/node.go:610-625 | a node that committed a block and voted in a later term reported a votie at least as high, unless the block had been chosen even earlier |
| `MessageLog.Agreement` | primitives/blockstore.go:1011-1059 | on such a log no two different blocks are ever settled at one height |
| `MessageLog.TermsFollowHeights` | primitives/dbops.go:251-257 | a block settled above another was settled in no earlier term |
| `MessageLog.ProposalsUnique` | node/leader.go:331-350 | on such a log there is one proposal per term and height |
| `MessageLog.InitsHaveHeight` | node/leader.go:331-336 | a proposed block stands at the height its own hash chain fixes and is a TXS or RECONFIG block |
| `BraftSteps.InitStep` | primitives/blockstore.go:447-509 | receiving any broadcast init keeps the node, the log and the justification of what is sent |
| `BraftSteps.OwnInitStep` | node/node.go:298-317 | the leader node handling its own init in the background, at any later time, broadcasts it only if it is the first for its term and height |
| `BraftSteps.PrepareStep` | primitives/blockstore.go:511-553 | receiving any broadcast prepare keeps the invariant; the commit sent in answer is covered by the persisted votie |
| `BraftSteps.CommitStep` | primitives/blockstore.go:555-592 | receiving any broadcast commit keeps the invariant; the block it commits was chosen by a quorum |
| `BraftSteps.EchoCovered` | node/node.go:338-350 | the answer to a commit for the top in a higher term is harmless: that block was already chosen in a lower term |
| `BraftSteps.FreshChosen` | primitives/blockstore.go:588-590 | a pending block with a quorum of merged commits really was committed to by a quorum, although merging compares only term and height |
| `BraftSteps.WeakStep` | primitives/blockstore.go:597-626 | receiving a weak accuse, with any stored ones expired, keeps the invariant |
| `BraftSteps.StrongStep` | primitives/blockstore.go:628-640 | receiving any strong accuse keeps the invariant |
| `BraftSteps.RestartStep` | node/leader.go:73-105 | a restart, with the database kept and caches, votes and pending proposals lost, keeps the invariant |
| `BraftLeaderSteps.PackStep` | node/sync_daemon.go:234-242 | committing a synced block keeps the invariant although neither the pending block nor the node term is touched |
| `BraftLeaderSteps.SyncedExtendsTop` | node/sync_daemon.go:210-225 | checkBlockPack asks only that the parent be committed, yet a pack some node really committed always extends the top |
| `BraftLeaderSteps.SendVoteStep` | node/node.go:614-630 | a vote for the term read earlier with the votie read now covers every commit the node sent before that term |
| `BraftLeaderSteps.LeaderTermStep` | node/leader.go:199-215 | a term the leader object learns of late lets go of no proposal that could still be accepted |
| `BraftLeaderSteps.LeaderCommittedStep` | node/leader.go:164-171 | a late or repeated commit notice never clears initing while that proposal could still be accepted |
| `BraftLeaderSteps.ProposalSupported` | node/leader.go:298-340 | what tryCreateBlockImpl builds is justified by its votes: it extends a settled top and re-proposes the greatest votie when that is above the top |
| `BraftLeaderSteps.ProposeStep` | node/leader.go:282-351 | proposing while nothing is initing leaves at most one proposal that could still be accepted |
| `NodeInvariant.HandleInitKeeps` | primitives/blockstore.go:447-509 | any init keeps the node invariant (pending block of the node term extending an uncommitted height, certificates under their sender with its term and height, accuses of the node term), lowers nothing and fails no assertion |
| `NodeInvariant.HandlePrepareKeeps` | primitives/blockstore.go:511-553 | the same for any prepare whose block id fixes its height |
| `NodeInvariant.HandleCommitKeeps` | primitives/blockstore.go:555-592 | the same for any such commit while the pending block is TXS or RECONFIG: commitBlockWithCheck returns no error, stale pending block after a sync-up included |
| `NodeInvariant.CommitPanicsIff` | primitives/blockstore.go:555-592 | for arbitrary commits: the exact condition under which the assertion at line 589 or 1022 fails |
| `NodeInvariant.HandleWeakKeeps` | primitives/blockstore.go:597-626 | any weak accuse keeps the invariant and lowers nothing |
| `NodeInvariant.HandleStrongKeeps` | primitives/blockstore.go:628-640 | any strong accuse, of whatever term, keeps the invariant and lowers nothing |
| `NodeInvariant.SyncBlockKeeps` | primitives/blockstore.go:306-311 | storing a synced block on top keeps the invariant with the pending block left stale |
| `NodeInvariant.HistoryKeeps` | primitives/blockstore.go:335-378 | no history of well-formed messages, however hostile, fails an assertion or takes back a block, term or votie, from any state with the invariant |
| `NodeInvariant.NeverPanics` | primitives/dbops.go:51-64 | the same from InitDB |
| `NodeInvariant.ChainOnTop` | primitives/dbops.go:163-171 | JustCommitIt of a pack that extends the top keeps the chain linked, its terms ordered and the index its inverse |
| `NodeEvents.InitAcceptedIff` | primitives/blockstore.go:447-509 | exactly when an init becomes the pending block: term, quorum for a higher term, extends the top, valid, and in a term above the top supported by its greatest votie; and what is then pending |
| `NodeEvents.PreparedIff` | primitives/blockstore.go:534-551 | exactly when NewPreparedEvent is raised, the dropped prepares of an already large set included, and that the votie then covers the block |
| `NodeEvents.CommitIff` | primitives/blockstore.go:566-590 | exactly when a commit completes a block, and the node that leaves: the block on top without prepares, nothing pending, votie raised, one NewCommittedEvent; otherwise the chain is untouched |
| `NodeEvents.AnsweredIff` | primitives/blockstore.go:939-980 | a prepare or commit is answered in kind exactly when it is of the present term and names the top, committed in a lower one, whoever sent it and whatever the node has sent a commit for above its top; the node stays as it is |
| `NodeReplies.InitAccusedIff` | primitives/blockstore.go:468-508 | an init is answered with a weak accuse of its term if and only if it is of the node's term or brings the votes to enter its own, is at the next height, and either is sound but not supported by its votes in a term above the top's, or is not sound and not merely waiting for transactions |
| `NodeReplies.InitNeedsSyncIff` | primitives/blockstore.go:447-466 | a sync-up is asked of the proposer if and only if the init is of the node's term or a later one and more than one above the top, whatever votes it brings |
| `NodeReplies.InitEntersIff` | primitives/blockstore.go:429-445 | the node enters the init's term if and only if that is later, the init is not too high and brings a quorum of votes; accuses of the old term are then forgotten; chain, index and votie stay |
| `NodeReplies.InitPending` | primitives/blockstore.go:451-499 | afterwards the init named by NewInitedEvent is pending or, without one, what was pending in the same term |
| `NodeReplies.PrepareNeedsSyncIff` | primitives/blockstore.go:511-523 | a prepare asks for a sync-up of its sender if and only if it is of a later term, or of the node's and more than one above the top |
| `NodeReplies.CommitNeedsSyncIff` | primitives/blockstore.go:555-563 | the same for a commit |
| `NodeReplies.PrepareJoinsIff` | primitives/blockstore.go:534-551 | a prepare joins the pending block if and only if it is of this term and height, names it, is its sender's first and at most QuorumN are held; nothing else stored changes but the votie, which becomes the block's when that has enough prepares and ranks higher |
| `NodeReplies.CommitJoinsIff` | primitives/blockstore.go:576-587 | the same for a commit short of a quorum |
| `NodeReplies.CheckedCommitIff` | primitives/blockstore.go:1011-1041 | for any pack: which of the three checks it fails first, and the whole store and the events after it passes them |
| `NodeReplies.AccuseRecordedIff` | primitives/blockstore.go:597-626 | a weak accuse is recorded if and only if it is of this term, its sender's first on record and fewer than AccuseQuorumN are recorded; exactly the expired ones then go |
| `NodeReplies.StrongAccuseFollowedIff` | primitives/blockstore.go:628-640 | a strong accuse of this term or a later one is followed into the next term with everything that drops, keeps and raises; an older one does nothing |
| `EarlyMessages.EarlyMessagesMerged` | primitives/blockstore.go:482-497 | order does not matter: with nothing pending, any prepares and commits of the node's term and next height followed by an init it takes up leave a pending block with the last prepare and the last commit of every sender, on top of what it would have had without them |
| `EarlyMessages.NothingKeptAtStart` | primitives/blockstore.go:490-497 | after a restart a pending block starts with no certificates |
| `EarlyMessages.MergedOnce` | primitives/blockstore.go:482-497 | messages are merged into one init only: one that replaces it in the same term and height starts with none |
| `NodeEvents.StrongAccuseIff` | primitives/blockstore.go:602-625 | exactly when a weak accuse makes a strong one, expired accuses not counted, and whom it names |
| `BlockStores.BlockStore.InitDB` | primitives/dbops.go:51-64 | a fresh database holds genesis only, term 0 and the genesis votie |
| `BlockStores.BlockStore.LastKey` | primitives/dbops.go:174-185 | the last key in byte order under the chain prefix is that of the numerically greatest height |
| `BlockStores.BlockStore.GetCommitHeight` | primitives/dbops.go:173-185 | returns the height of the top; its decoding does not fail and its assertion holds |
| `BlockStores.BlockStore.GetCommitTop` | primitives/dbops.go:187-196 | returns the block of the greatest height |
| `BlockStores.BlockStore.GetCommitByHeight` | primitives/dbops.go:198-207 | returns the block of a stored height and nothing for one above the top |
| `BlockStores.BlockStore.GetCommitByID` | primitives/dbops.go:236-249 | returns the block of an id through the index, for exactly the committed ids |
| `BlockStores.BlockStore.IsConnectingTop` | primitives/dbops.go:251-257 | parent is the top, term not lower, height one more |
| `BlockStores.BlockStore.JustCommitIt` | primitives/dbops.go:162-171 | puts the pack under its height key and the height under the id, whatever they are; the stored keys stay those of heights 0 .. top if and only if the height is at most one above the top, and the store is then what its specification says |
| `BlockStores.BlockStore.GenSyncUpResponse` | primitives/blockstore.go:1073-1085 | returns the blocks above base, at most maxBlockN, More exactly when some are left out, and the pending block and last accuse only with the last batch |
| `BlockStores.BlockStore.UpdateVotie` | primitives/blockstore.go:983-991 | fails exactly when the candidate has no quorum of prepares or commits; otherwise the votie is the greater of the two |
| `BlockStores.BlockStore.CommitBlockWithCheck` | primitives/blockstore.go:1011-1059 | the three refusals, the assertion and the whole new state and events of a commit |
| `BlockStores.BlockStore.HandleWrongHeightProgressMsg` | primitives/blockstore.go:939-981 | its two assertions fail exactly for a message of another term or of the next height; events for the top height and for heights above |
| `BlockStores.BlockStore.IsInitSupportedByVotes` | primitives/blockstore.go:1061-1071 | true exactly when there are enough votes and their greatest votie is below the top, is the top, or is the init's block |
| `BlockStores.BlockStore.UpdateNodeTermWithInit` | primitives/blockstore.go:429-445 | enters the term, clearing accuses and the pending block, exactly for a higher term with a quorum of votes |
| `BlockStores.BlockStore.AcceptFresh` | primitives/blockstore.go:482-498 | the pending block stored has the cached certificates of its term and height merged in, later ones winning, and those cache entries are dropped |
| `BlockStores.BlockStore.HandleInitMsg` | primitives/blockstore.go:447-509 | does to the stored state and the deferred events what the specification says, every branch and the fall-through included, with the max votie its map iteration found |
| `BlockStores.BlockStore.HandlePrepareMsg` | primitives/blockstore.go:511-553 | the same for prepares, caching included, with the guard that drops prepares beyond QuorumN |
| `BlockStores.BlockStore.HandleCommitMsg` | primitives/blockstore.go:555-592 | the same for commits, committing included; fails exactly where the specification panics |
| `BlockStores.BlockStore.HandleWeakAccuse` | primitives/blockstore.go:597-626 | the same for weak accuses, expired ones deleted in a loop |
| `BlockStores.BlockStore.HandleStrongAccuse` | primitives/blockstore.go:628-640 | the same for strong accuses |
| `Protocol.GetMaxVotie` | proto/pbtypes_ext.go:346-354 | returns a votie of the votes that none of them exceeds, and none exactly for no votes |
| `LeaderSpec.LeaderOncePerTerm` | node/leader.go:230-261 | between restarts BecomeLeaderEvent fires at most once per term, for any sequence of terms, votes, commits and proposals |
| `LeaderSpec.LeadershipLasts` | node/leader.go:190-215 | leadership once gained lasts until the term changes |
| `LeaderSpec.ScanKeeps` | node/leader.go:230-261 | scanning the pool keeps votes under their own term and voter, voters among the pool's, and announces leadership only on gaining it with nothing initing |
| `LeaderSpec.AddVoteKeeps` | node/leader.go:217-225 | adding any vote keeps that, with pool terms within [term, term + 500] |
| `LeaderSpec.UpdateTermKeeps` | node/leader.go:199-215 | changing the term keeps that |
| `LeaderSpec.AlwaysLeaderInv` | node/leader.go:144-182 | it holds after any sequence of inputs to a new leader |
| `LeaderEvents.ReactAnnounces` | node/leader.go:199-256 | in every reaction BecomeLeaderEvent is raised for a term if and only if the node is in charge of it afterwards and was not before, and RetireEvent if and only if a new term has taken the charge away; one event at most |
| `LeaderEvents.AnnouncedExactlyOnce` | node/leader.go:254-256 | over any inputs a term is announced if and only if the node comes to be in charge of it, and then exactly once |
| `LeaderEvents.VoteTakenIff` | node/leader.go:217-252 | a vote of the present term or the next 500 replaces the one pooled for its term and sender; counted are then exactly those counted before and, while not in charge, the pooled votes of the term whose votie is below the top, is it or connects it |
| `LeaderEvents.TermTakenIff` | node/leader.go:199-215 | a later term drops votes and proposal and counts what has been pooled for it; an earlier one changes nothing |
| `LeaderEvents.CommitTakenIff` | node/leader.go:164-171 | a committed block ends the leader's own proposal exactly when that is the block; a node not in charge counts its votes again |
| `LeaderEvents.ProposalIsAsked` | node/leader.go:287-351 | refused exactly when the term has moved on, a block is pending, the votie's block does not connect or there is nothing to propose; otherwise the votie's block or a block on the top with exactly the given time and contents, and the votes exactly when it is the first of its term or follows the votie |
| `LeaderEvents.ProposalIsTakenUp` | node/leader.go:317-340 | what a leader proposes, a node of its term with the same top and no objection takes up, exactly when the top is of the same term, or of an earlier one and no rival of the votie followed |
| `Leaders.LeaderNode.constructor` | node/leader.go:71-115 | a new leader takes its term from the store and has no votes, pool or proposal |
| `Leaders.LeaderNode.DropOldRows` | node/leader.go:231-235 | deletes exactly the rows of earlier terms |
| `Leaders.LeaderNode.CountVotes` | node/leader.go:241-252 | adds exactly the usable votes of the current row, replacing none already counted |
| `Leaders.LeaderNode.ScanVotePool` | node/leader.go:230-261 | does what the specification says; the assertion at line 256 holds |
| `Leaders.LeaderNode.UpdateTerm` | node/leader.go:199-215 | does what the specification says, retiring exactly when leadership is lost |
| `Leaders.LeaderNode.AddVote` | node/leader.go:217-225 | does what the specification says |
| `Leaders.LeaderNode.OnCommitted` | node/leader.go:164-171 | clears initing exactly when in charge and its own block is committed, otherwise rescans the pool |
| `Leaders.LeaderNode.TryCreateBlock` | node/leader.go:287-351 | refuses or builds the init the specification says, re-proposing the max votie's block or a new one on the store's top, with votes exactly when needed |
| `SyncDaemons.StopsIff` | node/sync_daemon.go:94-141 | against a fixed honest peer doSyncUp ends if and only if every missing block except the peer's last hundred is confirmed by AccuseQuorumN peers; a refused block below those is asked for for ever |
| `SyncDaemons.StopsSynced` | node/sync_daemon.go:94-141 | when it ends our chain is the peer's up to the first refused height, and all of the peer's exactly when every missing block was confirmed |
| `SyncDaemons.RoundsApplied` | node/sync_daemon.go:111-140 | after k rounds we hold the peer's chain up to k batches or the first refused height: no height skipped, duplicated or out of order |
| `SyncDaemons.NextBlock` | node/sync_daemon.go:186-233 | the peer's next block passes checkBlockPack exactly when enough peers confirm it, and committing it keeps our chain the lower part of the peer's |
| `SyncDaemons.FreshPartKeeps` | node/sync_daemon.go:244-258 | handling the pending block, its certificates and the last accuse of a response takes back no synced block and fails no assertion |
| `SyncDaemons.TakenIff` | node/sync_daemon.go:186-242 | whoever sends the response, its next block is stored if and only if it has a sound proposal, commits that name it, a committed parent right below, no copy stored already, and enough peers confirm it |
| `SyncDaemons.StoredAreTrustworthy` | node/sync_daemon.go:186-242 | every block of any response that is stored and was not before is sound, certified and confirmed by AccuseQuorumN peers |
| `SyncDaemons.SyncDaemon.CheckBlockPackOf` | node/sync_daemon.go:186-233 | the whole check: sound proposal and votes, certificates, committed parent, not a duplicate, next height of the parent, enough confirmations |
| `SyncDaemons.SyncDaemon.ProcessSyncUpResponse` | node/sync_daemon.go:234-242 | commits the blocks of a response up to the first that fails the check |
| `SyncDaemons.SyncDaemon.SyncRound` | node/sync_daemon.go:94-141 | one request and its response: the batch above our height is applied up to the first block that fails its check, and More is the peer's |
| `SyncDaemons.SyncDaemon.DoSyncUp` | node/sync_daemon.go:94-141 | terminates whenever all the missing blocks but the peer's last hundred are confirmed, the distance to the first refused height shrinking, with our chain the peer's up to that height |
| `KeyCodec.U64ToBytes` | util/base.go:20-40 | fills the buffer with the eight base-256 digits, most significant first |
| `KeyCodec.BytesToU64` | util/base.go:46-69 | fails exactly when there are not eight bytes, else returns the number they spell; no shift or addition wraps |
| `KeyCodec.I64ToBytes` | util/base.go:42-44 | encodes the bit pattern of the signed integer |
| `KeyCodec.BytesToI64` | util/base.go:71-75 | returns the integer whose encoding the bytes are |
| `KeyCodec.I64RoundTrip` | util/base.go:42-75 | decoding an encoding gives the integer back, so distinct integers have distinct keys |
| `KeyCodec.I64Order` | util/base.go:20-44 | byte order of two keys is numeric order if and only if the integers have the same sign |
| `KeyCodec.DigitsKeepOrder` | util/base.go:20-40 | lexicographic order of encodings of any fixed length is the order of the numbers |
| `KeyCodec.LastKeyIsTop` | primitives/dbops.go:173-185 | among the keys of heights 0 .. top the last in byte order is exactly that of the top |
| `TxPool.WatchedNeverLost` | primitives/txstore.go:172-218 | after any sequence of requests and restarts, a transaction taken in since the last restart and not dropped by DeleteWatchedTx is watched, on its way to or in the inner pool, or recorded as committed |
| `TxPool.HandingOutPartitions` | primitives/txstore.go:309-334 | GetFreshWatchedTxs splits the pending entries into handed out, kept for the next term and already done, exactly |
| `TxPool.HandedOutOnce` | primitives/txstore.go:328-333 | what was handed out is not handed out again until it is put back |
| `TxPool.ApplyKeeps` | primitives/txstore.go:172-218 | no single request, DeleteWatchedTx for it and a restart aside, loses a transaction that is kept somewhere |
| `TxPool.CommittedTakenOut` | primitives/txstore.go:441-460 | a committed block takes exactly its own transactions out of the inner, the watched and the pending pool |
| `TxPool.WatchedTaken` | primitives/txstore.go:181-199 | an unknown transaction is watched and, unless it is a distribution, pending; a known or recorded one is not taken, with an error from AddWatchedInfo |
| `TxPool.AddedAre` | primitives/txstore.go:409-422 | for every id not in the inner pool the first transaction of the list with it that is not recorded is added, and exactly the other positions are returned |
| `TxPool.InnerQueued` | primitives/txstore.go:358-385 | signing an inner transaction queues it and drops exactly its watched and pending entries |
| `TxPool.OldestServed` | primitives/txstore.go:177-178 | the queue is served in order, and a request joins the inner pool unless its id is there or it is recorded |
| `TxPool.HandedOutIff` | primitives/txstore.go:309-334 | which pending transactions are handed out and which stay, in terms of the tables, the pools and the failures of the term |
| `TxPool.HeartbeatIs` | primitives/txstore.go:548-588 | which entries a heartbeat drops and when it accuses |
| `TxPool.SmallRequests` | primitives/txstore.go:286-356 | deleting or refreshing an entry, and a new term, touch nothing else |
| `TxIndex.FindIsScan` | primitives/txstore.go:462-502 | with distinct ids, looking an id of either chain up in the tables finds exactly what a linear scan of the recorded transactions finds, none included |
| `TxIndex.DigestFinds` | primitives/txstore.go:504-534 | looking a recorded digest up gives its place |
| `TxIndex.IndexAgreesWithChain` | primitives/txstore.go:442-534 | after any run of the store, restarts included, whose committed blocks are blocks of the chain, looking an id up is a linear scan of what was processed; and it is a scan of the whole chain if and only if no block the store was never handed holds a transaction with that id |
| `TxIndex.RunRecords` | primitives/txstore.go:172-218 | in every reachable state of the store the two tables are exactly what recording the processed transactions one after another gives; no other request touches them |
| `TxIndex.ProcessedIs` | primitives/txstore.go:442-460 | what was processed is exactly what stands in the chain at the heights handed to the store |
| `TxIndex.RecordedSoundly` | primitives/txstore.go:442-460 | every recorded id leads to a transaction that has it, every digest to a place it was recorded at, and nothing recorded is missing |
| `TxIndex.CleanUpRecords` | primitives/txstore.go:442-460 | cleanUpOnNewCommitted records each transaction of the block at its height and position |
| `TxStores.TxStore.OnAddWatchedTx` | primitives/txstore.go:181-199 | adds an unknown transaction to the watched ones and, unless it is a distribution, to the pending ones |
| `TxStores.TxStore.AddWatchedInfo` | primitives/txstore.go:260-283 | adds a transaction known nowhere, and reports an error exactly when it is watched or recorded |
| `TxStores.TxStore.AddTxs` | primitives/txstore.go:409-422 | adds the transactions one after another and returns exactly the positions refused |
| `TxStores.TxStore.CreateInnerTx` | primitives/txstore.go:358-385 | drops the watched and pending entries of the signed request and queues its inner transaction; nothing without a stored request |
| `TxStores.TxStore.CleanUpOnNewCommitted` | primitives/txstore.go:441-460 | records every transaction it is given at that height and its position, and removes it from all pools |
| `TxStores.TxStore.GetFreshWatchedTxs` | primitives/txstore.go:309-334 | returns each transaction to hand out exactly once and leaves exactly those deferred to the next term |
| `TxStores.TxStore.DoHeartbeat` | primitives/txstore.go:548-588 | drops overdue entries that are committed and raises an accuse exactly when some overdue entry is not done |
| `TxStores.TxStore.Locate` | primitives/txstore.go:479-498 | finds exactly the recorded digests, with the transaction that stands there; the assertions at lines 485, 492, 521 and 527 hold |
| `TxStores.TxStore.GetTx` | primitives/txstore.go:504-534 | returns a recorded transaction with its place and block when the text is an id of either chain, the one a linear scan of the processed blocks finds, or failing that its digest in hex; and nothing exactly when no recorded transaction is meant |
| `TxStores.HexFinds` | primitives/txstore.go:504-515 | a recorded digest whose hex text is no id of either chain is what that text means, and nothing else is |
| `HexCodec.HexRoundTrip` | primitives/txstore.go:508-514 | decoding the hex text of a digest gives the digest back |
| `HexCodec.HexDecodesIff` | primitives/txstore.go:508-511 | exactly texts of an even number of hex digits of either case decode, and what they decode to spells them in lower case |
| `TxStores.TxStore.QueryTxsInfo` | primitives/txstore.go:462-502 | answers every id in order: the inner pool's transaction at height -1, otherwise place and block exactly as the tables, and with distinct ids a linear scan of the processed blocks, find them |
| `TxStores.FitsGrows` | primitives/dbops.go:162-171 | committing more blocks leaves every recorded place in the chain |
| `TxStores.HistoryFits` | primitives/txstore.go:485-492 | after any run on blocks of the chain every recorded place is in the chain, which is what the assertions at lines 485, 492, 521 and 527 ask |
| `TxStores.TxStore.Reopen` | primitives/txstore.go:149-169 | a new process on the old database: the tables as they were, the pools empty |
| `SignSafety.OnePayout` | primitives/blockstore.go:1448-1468 | if every honest node keeps its sign record of a transaction and never lets a request for one payout of it pass while one for another has passed and is unrecorded, and at most MaxFaultyN nodes are faulty, at most one payout gathers a quorum of signatures, over any histories |
| `SignSafety.SignsTwoIff` | primitives/blockstore.go:663-715 | the handler takes no lock between reading the record and writing it: a node that never deletes its record can come to sign two payouts of a transaction if and only if a request for one passes the checks while one for another has passed them and is unrecorded |
| `SignSafety.TwoPayoutsInFlight` | primitives/blockstore.go:418-427 | requests handled at the same time do break it: with no faulty node and no record deleted, in a cluster of any size, two payouts gather quorums when every node has both requests in hand together |
| `SignSafety.SignsOnce` | primitives/blockstore.go:663-715 | without such an overlap it signs at most one payout, whatever requests, terms, restarts and wallet failures it sees |
| `SignSafety.TwoPayoutsAfterClear` | node/node_sign.go:81-99 | the guarantee needs the records: after clearOnFail has deleted them two payouts gather quorums in a cluster of any size with no faulty node |
| `SignSafety.SignedWasChecked` | primitives/blockstore.go:673-709 | no signature without its checks: in any history a payout signed was asked for by a request of the node's term for a watched transaction neither done nor on record, whose outputs pay what was asked |
| `SignSafety.AnswerIs` | primitives/blockstore.go:644-715 | when exactly the answer is a signature, REJECT, NEEDSYNC or none |
| `SignSafety.RequestLeaves` | primitives/blockstore.go:644-715 | an uninterrupted request leaves a record of itself unless it is old, and its signature exactly when it was signable and the wallet signs |
| `SignSafety.SignStore.CheckSignTx` | primitives/blockstore.go:644-690 | up to the wallet: a request of an earlier term is dropped, of a later one answered NEEDSYNC, and one of the node's term passes exactly when every check does and no record exists; nothing is written |
| `SignSafety.SignStore.FinishSignTx` | primitives/blockstore.go:692-715 | the rest: every branch writes the record, and the signature is given exactly when the checks passed and the wallet signs |
| `SignSafety.SignStore.HandleSignTx` | primitives/blockstore.go:644-715 | a request nothing comes in between of: one check and one record, nothing else in flight touched |
| `SignCollect.OvercountsIff` | node/node_sign.go:203-245 | the lookup and the store of a result are not one step: more signatures can come to be counted than there are signers if and only if a signature passes the lookup while one of the same node has passed it and is not stored |
| `SignCollect.CountersAdd` | node/node_sign.go:203-290 | in every reachable state, overlaps included, total = signed + errors, at least as many signatures are counted as cached, and the transaction has been sent at most once |
| `SignCollect.SentSigners` | node/node_sign.go:264-286 | the transaction is sent with quorumN signatures, or with all cached ones when those are fewer; without an overlap always with quorumN |
| `SignCollect.OneSignatureSent` | node/node_sign.go:203-286 | two results of one node looked up before either is stored: sent with one signature where the quorum is two |
| `SignCollect.SignedResultCache.LookUp` | node/node_sign.go:203-227 | a result is taken up exactly when signing has not failed in its term and none of its node is cached; nothing is written |
| `SignCollect.SignedResultCache.Save` | node/node_sign.go:228-290 | counters, cache, flag and outcome of storing a result in flight, whatever else is in flight |
| `SignCollect.SignedResultCache.DoSave` | node/node_sign.go:203-290 | a result nothing comes in between of: every counter, the cache and the flag; signed = distinct cached signers stays so, and then sent with exactly quorumN signatures; sent at most once per cache; given up exactly past AccuseQuorumN errors |
| `SignCollect.SignedResultCache.CollectSigs` | node/node_sign.go:272-281 | collects the first quorumN cached signers in the node list, or all of them when there are fewer |
| `SignCollect.SignersAre` | node/node_sign.go:272-281 | the signers are cached, strictly increasing in node id, and no cached id was skipped |
| `Preimage.FieldDecodes` | util/hash_utils.go:22-38 | a field can be read back from the front of any text that starts with it: name, text, inner fields and what follows |
| `Preimage.EncodeInjective` | util/hash_utils.go:22-38 | two fields fed as the same bytes are the same field |
| `Preimage.DecimalsDiffer` | util/hash_utils.go:40-46 | distinct integers are fed as distinct text |
| `HexCodec.HexesDiffer` | util/hash_utils.go:14-18 | distinct byte strings are fed as distinct text |
| `Preimage.PrepareDecodes` | proto/pbtypes_ext.go:693-700 | prepares with equal preimages are equal |
| `Preimage.CommitDecodes` | proto/pbtypes_ext.go:702-709 | commits with equal preimages are equal |
| `Preimage.VotieDecodes` | proto/pbtypes_ext.go:635-661 | voties with equal preimages are equal, both maps of certificates included |
| `Preimage.KindsDiffer` | proto/pbtypes_ext.go:635-709 | no prepare, commit and votie share a preimage |
| `MessagePreimage.VoteDecodes` | proto/pbtypes_ext.go:663-669 | votes with equal preimages are equal, votie and certificates included |
| `MessagePreimage.InitDecodes` | proto/pbtypes_ext.go:671-691 | inits with equal preimages are equal, all votes included; none and some differ by a field |
| `MessagePreimage.WeakDecodes` | proto/pbtypes_ext.go:711-716 | weak accuses with equal preimages are equal |
| `MessagePreimage.MessagesDecode` | proto/pbtypes_ext.go:635-716 | the bytes tell the kind and the whole message: of all voties, votes, inits, prepares, commits and weak accuses no two share a preimage |
| `MessagePreimage.FeedVoteFields` | proto/pbtypes_ext.go:663-669 | appends exactly the vote's field, with the id of its votie |
| `MessagePreimage.FeedInitMsgFields` | proto/pbtypes_ext.go:671-691 | appends exactly the init's field, vote ids in increasing key order and no field for them when there are none |
| `MessagePreimage.FeedWeakAccuseFields` | proto/pbtypes_ext.go:711-716 | appends exactly the accuse's field |
| `MessagePreimage.PreparePreimage` | proto/pbtypes_ext.go:693-700 | the exact text hashed for a prepare |
| `MessagePreimage.CommitPreimage` | proto/pbtypes_ext.go:702-709 | the exact text hashed for a commit |
| `MessagePreimage.VotiePreimage` | proto/pbtypes_ext.go:635-661 | the exact text hashed for a votie |
| `MessagePreimage.VotePreimage` | proto/pbtypes_ext.go:663-669 | the exact text hashed for a vote |
| `MessagePreimage.InitPreimage` | proto/pbtypes_ext.go:671-691 | the exact text hashed for an init, with and without votes |
| `MessagePreimage.WeakPreimage` | proto/pbtypes_ext.go:711-716 | the exact text hashed for a weak accuse |
| `MessagePreimage.NumbersFed` | util/hash_utils.go:40-46 | numbers are decimal, with a sign only when negative |
| `MessagePreimage.BytesFed` | util/hash_utils.go:34-38 | bytes are two lower-case hex digits each, the higher first |
| `Preimage.VotieOrderFree` | proto/pbtypes_ext.go:641-648 | the votie preimage does not depend on the order the maps are iterated in |
| `Preimage.Hasher256.FeedTextField` | util/hash_utils.go:28-32 | appends one field with that text |
| `Preimage.Hasher256.FeedBinField` | util/hash_utils.go:34-38 | appends one field with the bytes in hex |
| `Preimage.Hasher256.FeedInt64Field` | util/hash_utils.go:44-46 | appends one field with the decimal |
| `Preimage.Hasher256.FeedPrepareMsgFields` | proto/pbtypes_ext.go:693-700 | appends exactly the prepare's field |
| `Preimage.Hasher256.FeedCommitMsgFields` | proto/pbtypes_ext.go:702-709 | appends exactly the commit's field |
| `Preimage.Hasher256.FeedVotieFields` | proto/pbtypes_ext.go:635-661 | appends exactly the votie's field, ids in increasing key order whatever order the maps give |
| `Amounts.BtcToPbTx` | proto/pbtypes_ext.go:861-897 | refuses exactly the inputs with no positive amount, no output or a non-positive output before the amount runs out; otherwise a prefix of the addresses in order, all positive, only the last cut, summing to the lesser of amount and what they asked for |
| `Amounts.PaysTheLesser` | proto/pbtypes_ext.go:878-895 | for positive requests the sum paid is the lesser of the amount and the total of all requests |
| `Amounts.NetInRange` | node/leader.go:537 | a fee rate of at most 10000 leaves between zero and the amount |
| `Amounts.NetMonotone` | node/leader.go:537 | a larger amount never nets less |
| `Amounts.FeesAddUp` | node/leader.go:518-543 | fees taken output by output total at most the fee on the total and fall short of it by at most k - 1 units |
| `Amounts.PayoutIs` | node/leader.go:530-540 | a distribution pays what was asked; everything else goes to the address asked for less the whole units of rate ten-thousandths of the amount |
| `Amounts.PaidInAll` | node/leader.go:518-543 | a list of payouts comes to everything asked in a distribution, and otherwise to that less the fee on the total, or at most one unit more for each further output |
| `Amounts.CreateOutputs` | node/leader.go:518-543 | one output per recharge, in order, net of the fee unless it is a distribution |
| `Amounts.ValidateOutputs` | primitives/blockstore.go:1195-1257 | a signer accepts exactly the transactions that pay what the leader would pay, with at most two outputs of change unless it is a distribution; and exactly when indexing runs off the outputs |
| `ClusterParams.QuorumSizes` | cluster/params.go:81-110 | of n nodes MaxFaultyN is the greatest f with 3f + 1 <= n, a quorum is all but f, enough accusers are f + 1, and the other formula is the least with which two quorums share more than f |
| `ClusterParams.QuorumsIntersect` | cluster/params.go:81-152 | for every n and either quorum formula, also one of each, two quorums share at least MaxFaultyN + 1 nodes, and a quorum is at most n - MaxFaultyN |
| `ClusterParams.QuorumsIntersectAcrossAdd` | cluster/params.go:123-142 | a quorum before and one after a single AddNode share more nodes than either MaxFaultyN |
| `ClusterParams.QuorumsIntersectAcrossDelete` | cluster/params.go:183-195 | the same across a single DeleteNode |
| `ClusterParams.JoinQuorumAcrossAdd` | cluster/params.go:144-152 | a quorum sized by AddNodeInfo keeps that guarantee across the next AddNode if and only if the old size is not a multiple of three |
| `ClusterParams.LeaderIsNextNormal` | cluster/params.go:112-121 | the leader is the first normal node at or after term mod TotalNodeCount |
| `ClusterParams.EveryNormalNodeLeads` | cluster/params.go:112-121 | every normal node leads one of any TotalNodeCount consecutive terms |
| `ClusterParams.Membership.FromNodeList` | cluster/params.go:88-110 | the counters and quorums after reading a node list agree with it |
| `ClusterParams.Membership.UpdateQuorum` | cluster/params.go:107-109 | the three quorum numbers from the cluster size, division truncating |
| `ClusterParams.Membership.LeaderNodeOfTerm` | cluster/params.go:112-121 | terminates with the leader of the term whenever some node is normal |
| `ClusterParams.Membership.AddNode` | cluster/params.go:123-142 | appends a normal node exactly when its id is the next one, counters following |
| `ClusterParams.Membership.AddNodeInfo` | cluster/params.go:144-152 | appends and counts the node and sizes the quorum by the other formula |
| `ClusterParams.Membership.DeleteNode` | cluster/params.go:183-195 | marks an existing node as not normal, counters following, and does nothing to one already marked |
| `ClusterParams.Membership.RecoverNode` | cluster/params.go:197-208 | marks the node as normal and counts it, already normal or not; the counters stay right if and only if it was not |
| `Protocol.MembershipConfig` | cluster/params.go:88-110 | the quorum numbers of the consensus proofs, sizes of sets of normal nodes, are those the cluster package computes, and a run can start exactly when some node is normal |

Members that stand for nothing in the source by themselves (lemmas about sequences, sets
and arithmetic, and the pieces of the proofs above) have no row.

## Left out

- Byzantine nodes in the cluster: agreement is for nodes that follow the code and crash, and is not promised once nodes may send anything: a node answers whoever names its top in a later term, also after sending a commit for a block above it (`NodeEvents.AnsweredIff`), so a lower block can come to be certified in a later term than a chosen one. A single node's invariant and panic freedom are proved for arbitrary messages.
- Membership changes: join and leave flow, JoinedEvent and LeavedEvent, reconfiguration of the address, simple sync-up; a run has fixed membership, and membership enters through the quorum lemmas only. justAddVote belongs to the join flow.
- Liveness: timers, accuse throttling and delivery are arbitrary, so nothing is claimed to happen eventually, except termination of the loops modelled.
- Crashes inside a handler: a handler with its deferred broadcasts is one step, and a message counts as sent even if the node stops before it leaves. A handler runs under one lock; what runs outside it is split only where said here or below.
- NewTerm and NewCommitted channels of the leader: any term up to the node's and any committed block may arrive at any time, which includes every order the channels allow.
- Signatures: messages are taken as sent by the node they name. Refusing a received init, prepare, commit or accuse is loss here; only the leader's check of votes is part of a step.
- Hashing: ids are collision free. A transaction's id covers the fields feedTxFields feeds; preimages with free text (transactions, sign requests, addresses) are not proved to decode uniquely.
- int64 overflow of terms, heights and amounts: terms and heights are natural numbers; the store asks that heights stay below 2^63, and products of amounts and fee rates do not wrap.
- validateTxs, checkReconfigBlock, validateWatchedTx, on-chain lookups, wallets and prices: their answers are arguments. EthToPbTx, XIN and EOS packing and price conversions are not modelled.
- SHA-256, ECDSA, leveldb itself, protobuf encoding, gRPC, HTTP, logging and metrics: not modelled; the database is a set of maps with byte-ordered height keys.
- cluster.Init: it counts every configured node as part of the cluster whatever its status; a run starts from the normal nodes, as InitWithNodeList counts them.
- ReadVoteTerm of `Braft`: it may happen at any time, where the vote daemon first looks at the pending block and the top; the runs of the model include those of the source.
- BraftLeaderSteps.PackStep: checkBlockPack and JustCommitIt are one step, while the source holds no lock between them; a handler that commits the same height in between is not modelled. The pack that is then overwritten is of the same block, but may be of a lower term than the one that replaces it.
- SyncDaemons.SyncDaemon.ProcessSyncUpResponse: the same holds of each block of a response.
- BraftLeaderSteps.ProposeStep: the leader's several reads of the store when it builds a proposal are one step.
- BlockStores.BlockStore.CommitBlockWithCheck: the JoinedEvent and LeavedEvent of a reconfiguration block are not among its events.
- SyncDaemons.SyncDaemon.SyncRound: the request does not fail, and the response's pending block is handled by FreshPartKeeps.
- SyncDaemons.SyncDaemon.DoSyncUp: the peer's chain and the number of peers confirming a block do not change during one call, and the last response's pending block is handled by FreshPartKeeps instead of in the loop.
- Amounts.CreateOutputs: for amounts that are not negative, which is what BtcToPbTx lets through; deposits from XIN, whose amounts are converted by a price, are not modelled.
- Amounts.ValidateOutputs: the same.
- SignCollect.SignedResultCache.Save: the counters, the cache and the flag of one result change in one step, while the source takes each of them by itself; LoadOrStore and the deletion of caches by the timers are outside it.
- SignSafety.OnePayout: for BTC and BCH transactions that are not transfers; transfers are signed without a record, and ETH, XIN and EOS requests follow other paths. The node term is read when the handler starts and is an argument of the checks; the other reads before the sign record are arguments too.
- TxPool.WatchedNeverLost: for transactions taken in since the last restart; the pools are in memory and are refilled by the watchers.
- TxIndex.IndexAgreesWithChain: a request is one step, so a crash in the middle of processing a block is not modelled; one between committing a block and processing it leaves that block unhanded.
- Overdue times, tolerances and the amount and time of inner transactions: which entries are overdue is an argument of the heartbeat.
