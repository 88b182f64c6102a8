/** The states of four nodes along one run, and what the handlers make of them. */
module FourNodes {
  import opened ClusterParams
  import opened Protocol
  import opened MsgValidation
  import opened NodeSpec
  import opened LeaderSpec

  const FOUR := Config([true, true, true, true])
  const ACCUSE := StrongAccuse(0, {0, 1})
  const BLOCK := Block(Genesis, 1, TxsBody([]))
  const VOTES: map<NodeId, Vote> := map[0 := VoteBy(0), 1 := VoteBy(1), 2 := VoteBy(2)]
  const INIT := InitMsg(1, 1, BLOCK, 1, VOTES)
  const PREPARES: map<NodeId, PrepareMsg> := map[0 := PrepareBy(0), 1 := PrepareBy(1), 3 := PrepareBy(3)]
  const COMMITS: map<NodeId, CommitMsg> := map[0 := CommitBy(0), 1 := CommitBy(1), 3 := CommitBy(3)]
  const TOP := Pack(INIT, map[], COMMITS)

  function VoteBy(i: NodeId): Vote { Vote(1, GENESIS_VOTIE, i) }

  function PrepareBy(i: NodeId): PrepareMsg { PrepareMsg(1, 1, BLOCK, i) }

  function CommitBy(i: NodeId): CommitMsg { CommitMsg(1, 1, BLOCK, i) }

  lemma FourAreValid()
    ensures FOUR.Valid() && FOUR.Nodes() == {0, 1, 2, 3}
    ensures FOUR.QuorumN() == 3 && FOUR.AccuseQuorumN() == 2 && LeaderOf(FOUR.normal, 1) == 1
  {
    assert FOUR.normal[0];
    assert FOUR.Nodes() == {0, 1, 2, 3};
    assert At(FOUR.normal, 1, 0);
    LeaderIsNextNormal(FOUR.normal, 1, 0);
  }

  lemma FourQuorums()
    ensures FOUR.Valid() && FOUR.QuorumN() == 3 && FOUR.AccuseQuorumN() == 2
  {
    FourAreValid();
  }

  // ------------------------------------------------------ leaving the first term

  const ACCUSED_BY_0: map<NodeId, WeakAccuse> := map[0 := WeakAccuse(0, 0)]
  const ACCUSED_BY_BOTH: map<NodeId, WeakAccuse> := map[0 := WeakAccuse(0, 0), 1 := WeakAccuse(0, 1)]

  function Accusing(weak: map<NodeId, WeakAccuse>): Node { InitNode().(weak := weak) }

  lemma FirstAccuse()
    ensures HandleWeak(FOUR, InitNode(), WeakAccuse(0, 0), {}) == Done(Accusing(ACCUSED_BY_0), [])
  {
    hide Config.QuorumN, Config.AccuseQuorumN, Quorum, AccuseQuorum;
    FourQuorums();
    var none: map<NodeId, WeakAccuse> := map[];
    assert (none - {})[0 := WeakAccuse(0, 0)] == ACCUSED_BY_0;
  }

  lemma SecondAccuse()
    ensures HandleWeak(FOUR, Accusing(ACCUSED_BY_0), WeakAccuse(0, 1), {})
            == Done(Accusing(ACCUSED_BY_BOTH), [NewStrongAccuse(ACCUSE)])
  {
    hide Config.QuorumN, Config.AccuseQuorumN, Quorum, AccuseQuorum;
    FourQuorums();
    assert (ACCUSED_BY_0 - {})[1 := WeakAccuse(0, 1)] == ACCUSED_BY_BOTH;
    assert ACCUSED_BY_BOTH.Keys == {0, 1};
    assert |ACCUSED_BY_BOTH| == |ACCUSED_BY_BOTH.Keys|;
  }

  /** A node in term 1, reached by the accuse or, with none on record, by an init. */
  function Entered(accuse: Option<StrongAccuse>): Node { InitNode().(term := 1, lastAccuse := accuse) }

  lemma EnteredNode(accuse: Option<StrongAccuse>)
    ensures Entered(accuse).chain != [] && Entered(accuse).Top() == GENESIS_PACK && Entered(accuse).term == 1
  {
  }

  lemma TermLeft(weak: map<NodeId, WeakAccuse>)
    ensures HandleStrong(Accusing(weak), ACCUSE)
            == Done(Entered(Some(ACCUSE)), [NewTerm(1), StrongAccuseProcessed(ACCUSE)])
  {
    var prepares: Cache<PrepareMsg>, commits: Cache<CommitMsg> := map[], map[];
    assert prepares - {0} == prepares && commits - {0} == commits;
  }

  // ----------------------------------------------------------- counting votes

  /** Node 1 after counting some votes. */
  function Counting(votes: map<NodeId, Vote>): Leader {
    Leader(1, votes, None, if votes == map[] then map[] else map[1 := votes])
  }

  ghost predicate SomeVotes(votes: map<NodeId, Vote>) {
    forall i :: i in votes ==> votes[i] == VoteBy(i)
  }

  lemma TermLearnt()
    ensures FOUR.Valid() && UpdateTerm(FOUR, 1, NewLeader(0), 1, GENESIS_PACK).0 == Counting(map[])
  {
    hide Config.QuorumN, Config.AccuseQuorumN, Quorum, AccuseQuorum, LeaderOf;
    FourQuorums();
    var ld := Leader(1, map[], None, map[]);
    assert CurrentRows(ld) == map[];
    assert CountedVotes(ld, GENESIS_PACK) + ld.votes == map[];
  }

  lemma VoteCounted(votes: map<NodeId, Vote>, i: NodeId)
    requires SomeVotes(votes) && |votes| < 3
    ensures FOUR.Valid()
    ensures AddVote(FOUR, 1, Counting(votes), VoteBy(i), GENESIS_PACK).0 == Counting(votes[i := VoteBy(i)])
  {
    hide Config.QuorumN, Config.AccuseQuorumN, Quorum, AccuseQuorum, LeaderOf, CurrentRows, CountedVotes,
         SomeVotes;
    FourQuorums();
    var row := votes[i := VoteBy(i)];
    var ld := Counting(votes).(pool := map[1 := row]);
    OneMoreVote(votes, i);
    Pooled(votes, row);
    Counted(votes, row);
    assert AddVote(FOUR, 1, Counting(votes), VoteBy(i), GENESIS_PACK) == ScanVotePool(FOUR, 1, ld, GENESIS_PACK);
  }

  lemma OneMoreVote(votes: map<NodeId, Vote>, i: NodeId)
    requires SomeVotes(votes)
    ensures SomeVotes(votes[i := VoteBy(i)]) && votes.Keys <= votes[i := VoteBy(i)].Keys
  {
  }

  lemma Pooled(votes: map<NodeId, Vote>, row: map<NodeId, Vote>)
    ensures Counting(votes).pool[1 := row] == map[1 := row]
    ensures PoolRow(Counting(votes).pool, 1) == votes
    ensures CurrentRows(Counting(votes).(pool := map[1 := row])) == map[1 := row]
  {
  }

  lemma Counted(votes: map<NodeId, Vote>, row: map<NodeId, Vote>)
    requires SomeVotes(row) && votes.Keys <= row.Keys && SomeVotes(votes)
    ensures CountedVotes(Counting(votes).(pool := map[1 := row]), GENESIS_PACK) + votes == row
  {
    assert forall i :: i in row ==> Usable(row[i], GENESIS_PACK);
    assert CountedVotes(Counting(votes).(pool := map[1 := row]), GENESIS_PACK) == row;
  }

  lemma VoteIsValid(i: NodeId)
    requires i < 4
    ensures ValidVote(FOUR, VoteBy(i))
  {
  }

  lemma VotesGrow()
    ensures var none: map<NodeId, Vote> := map[];
            var one, two := map[0 := VoteBy(0)], map[0 := VoteBy(0), 1 := VoteBy(1)];
            && one == none[0 := VoteBy(0)] && two == one[1 := VoteBy(1)] && VOTES == two[2 := VoteBy(2)]
            && |none| == 0 && |one| == 1 && |two| == 2 && |VOTES| == 3
            && SomeVotes(none) && SomeVotes(one) && SomeVotes(two) && SomeVotes(VOTES)
  {
  }

  // ------------------------------------------------- proposing and preparing

  lemma VotesAnswer()
    ensures IsMaxVotie(VOTES, GENESIS_VOTIE) && |VOTES| == 3
  {
    VotesGrow();
    assert 0 in VOTES && VOTES[0].votie == GENESIS_VOTIE;
  }

  lemma Created()
    ensures TryCreateBlock(1, Entered(Some(ACCUSE)), Counting(VOTES), GENESIS_VOTIE, 1, Some(TxsBody([]))) == Some(INIT)
  {
  }

  lemma Leads()
    ensures FOUR.Valid() && InCharge(FOUR, 1, Counting(VOTES)) && Entered(Some(ACCUSE)).chain != []
  {
    hide Config.QuorumN, Config.AccuseQuorumN, Quorum, AccuseQuorum, LeaderOf;
    FourAreValid();
    VotesAnswer();
  }

  /** A node of term 1 with the block pending, as accepted and once it is prepared. */
  function Pending(accuse: Option<StrongAccuse>, prepares: map<NodeId, PrepareMsg>): Node {
    Entered(accuse).(freshPack := Some(Pack(INIT, prepares, map[])))
  }

  function Prepared3(accuse: Option<StrongAccuse>): Node {
    Pending(accuse, PREPARES).(votie := Pack(INIT, PREPARES, map[]).ToVotie())
  }

  const NEW_PACK := Pack(INIT, map[], map[])

  lemma NothingCached(s: Node)
    requires s.prepareCache == map[] && s.commitCache == map[]
    ensures MergedFresh(s, INIT) == NEW_PACK
    ensures CacheDrop(s.prepareCache, 1, 1) == map[] && CacheDrop(s.commitCache, 1, 1) == map[]
  {
  }

  lemma VotesSupport(s: Node)
    requires s.Keyed() && s.Top() == GENESIS_PACK
    ensures SupportedBy(s, INIT, GENESIS_VOTIE)
  {
  }

  lemma InitTaken(accuse: Option<StrongAccuse>, before: seq<Event>)
    ensures Entered(accuse).Keyed()
    ensures InitInTerm(FOUR, Entered(accuse), INIT, Verdict.Valid, true, Some(GENESIS_VOTIE), before)
            == Done(Pending(accuse, map[]), before + [NewInited(NEW_PACK)])
  {
    hide Config.QuorumN, Config.AccuseQuorumN, Quorum, AccuseQuorum, SupportedBy, MergedFresh, CacheDrop;
    FourQuorums();
    VotesAnswer();
    NothingCached(Entered(accuse));
    VotesSupport(Entered(accuse));
  }

  /** A voter accepts the init in its term. */
  lemma VoterAccepts()
    ensures Entered(Some(ACCUSE)).Keyed()
    ensures HandleInit(FOUR, Entered(Some(ACCUSE)), INIT, Verdict.Valid, true, Some(GENESIS_VOTIE))
            == Done(Pending(Some(ACCUSE), map[]), [] + [NewInited(NEW_PACK)])
  {
    hide InitInTerm, Config.QuorumN, Pending, Node.Keyed;
    InitTaken(Some(ACCUSE), []);
  }

  lemma TermEntered()
    ensures EnterTerm(InitNode(), 1) == Entered(None)
  {
  }

  /** Node 3 enters the term with the init. */
  lemma LateAccepts()
    ensures InitNode().Keyed()
    ensures HandleInit(FOUR, InitNode(), INIT, Verdict.Valid, true, Some(GENESIS_VOTIE))
            == Done(Pending(None, map[]), [NewTerm(1)] + [NewInited(NEW_PACK)])
  {
    hide InitInTerm, Config.QuorumN, Config.AccuseQuorumN, Quorum, AccuseQuorum, Pending, Entered, EnterTerm,
         IsMaxVotie;
    FourQuorums();
    VotesAnswer();
    InitTaken(None, [NewTerm(1)]);
    TermEntered();
  }

  lemma PreparesGrow()
    ensures var none: map<NodeId, PrepareMsg> := map[];
            var one, two := map[0 := PrepareBy(0)], map[0 := PrepareBy(0), 1 := PrepareBy(1)];
            && one == none[0 := PrepareBy(0)] && two == one[1 := PrepareBy(1)] && PREPARES == two[3 := PrepareBy(3)]
            && |none| == 0 && |one| == 1 && |two| == 2 && |PREPARES| == 3
  {
  }

  lemma PrepareHandled(accuse: Option<StrongAccuse>, prepares: map<NodeId, PrepareMsg>, j: NodeId)
    requires |prepares| < 3 && j !in prepares && |prepares[j := PrepareBy(j)]| == |prepares| + 1
    ensures Pending(accuse, prepares).Keyed()
    ensures var grown := prepares[j := PrepareBy(j)];
            var p := Pack(INIT, grown, map[]);
            HandlePrepare(FOUR, Pending(accuse, prepares), PrepareBy(j))
            == if |grown| < 3 then Done(Pending(accuse, grown), [])
               else Done(Pending(accuse, grown).(votie := p.ToVotie()), [NewPrepared(p)])
  {
    hide Config.QuorumN, Config.AccuseQuorumN, Quorum, AccuseQuorum;
    FourQuorums();
  }

  /** A vote started in term 0 that leaves with the votie of term 1. */
  const LATE_VOTE := Vote(0, Pack(INIT, PREPARES, map[]).ToVotie(), 3)

  lemma LateVoteRefused()
    ensures LATE_VOTE.votie == Prepared3(None).votie && LATE_VOTE.votie.term > LATE_VOTE.term
    ensures !ValidVote(FOUR, LATE_VOTE)
  {
  }

  // -------------------------------------------------------------- committing

  function Committing(accuse: Option<StrongAccuse>, commits: map<NodeId, CommitMsg>): Node {
    Prepared3(accuse).(freshPack := Some(Pack(INIT, PREPARES, commits)))
  }

  function CommittedNode(accuse: Option<StrongAccuse>): Node {
    Prepared3(accuse).(freshPack := None, chain := [GENESIS_PACK, TOP], index := map[Genesis := 0, BLOCK := 1])
  }

  lemma CommitsGrow()
    ensures var none: map<NodeId, CommitMsg> := map[];
            var one, two := map[0 := CommitBy(0)], map[0 := CommitBy(0), 1 := CommitBy(1)];
            && one == none[0 := CommitBy(0)] && two == one[1 := CommitBy(1)] && COMMITS == two[3 := CommitBy(3)]
            && |none| == 0 && |one| == 1 && |two| == 2 && |COMMITS| == 3
  {
  }

  lemma BlockStored(accuse: Option<StrongAccuse>)
    ensures JustCommitIt(Committing(accuse, COMMITS), TOP).(freshPack := None) == CommittedNode(accuse)
    ensures RaiseVotie(CommittedNode(accuse), TOP) == CommittedNode(accuse)
  {
    var index: map<Block, nat> := map[Genesis := 0];
    assert index[BLOCK := 1] == map[Genesis := 0, BLOCK := 1];
  }

  lemma BlockConnects(accuse: Option<StrongAccuse>)
    ensures var s := Committing(accuse, COMMITS);
            s.Keyed() && s.IsConnectingTop(Pack(INIT, PREPARES, COMMITS)) && !s.IsCommitted(BLOCK) && s.term == 1
    ensures JustCommitIt(Committing(accuse, COMMITS), TOP).term == 1 && Committable(BLOCK)
  {
  }

  lemma BlockCommitted(accuse: Option<StrongAccuse>, s: Node)
    requires s == Committing(accuse, COMMITS)
    ensures s.Keyed()
    ensures CommitBlockWithCheck(FOUR, s, Pack(INIT, PREPARES, COMMITS))
            == Committed(CommittedNode(accuse), [NewCommitted(TOP)])
  {
    hide Config.QuorumN, Config.AccuseQuorumN, Quorum, AccuseQuorum, Committing, CommittedNode, JustCommitIt,
         RaiseVotie, Node.Keyed, Node.IsConnectingTop, Node.IsCommitted;
    FourQuorums();
    CommitsGrow();
    BlockConnects(accuse);
    BlockStored(accuse);
    assert |COMMITS| == 3;
    assert Pack(INIT, PREPARES, COMMITS).(prepares := map[]) == TOP;
    assert [] + [NewCommitted(TOP)] == [NewCommitted(TOP)];
  }

  lemma CommitHandled(accuse: Option<StrongAccuse>, commits: map<NodeId, CommitMsg>, j: NodeId)
    requires |commits| < 3 && j !in commits && |commits[j := CommitBy(j)]| == |commits| + 1
    requires |commits[j := CommitBy(j)]| == 3 ==> commits[j := CommitBy(j)] == COMMITS
    ensures Committing(accuse, commits).Keyed()
    ensures HandleCommit(FOUR, Committing(accuse, commits), CommitBy(j))
            == if |commits| < 2 then Done(Committing(accuse, commits[j := CommitBy(j)]), [])
               else Done(CommittedNode(accuse), [NewCommitted(TOP)])
  {
    hide Config.QuorumN, Config.AccuseQuorumN, Quorum, AccuseQuorum, CommitBlockWithCheck, CommittedNode;
    FourQuorums();
    BlockCommitted(accuse, Committing(accuse, COMMITS));
  }

  lemma CommitsHandled(accuse: Option<StrongAccuse>)
    ensures Prepared3(accuse) == Committing(accuse, map[]) && CommittedNode(accuse).chain == [GENESIS_PACK, TOP]
    ensures forall commits :: Committing(accuse, commits).Keyed()
    ensures HandleCommit(FOUR, Committing(accuse, map[]), CommitBy(0))
            == Done(Committing(accuse, map[0 := CommitBy(0)]), [])
    ensures HandleCommit(FOUR, Committing(accuse, map[0 := CommitBy(0)]), CommitBy(1))
            == Done(Committing(accuse, map[0 := CommitBy(0), 1 := CommitBy(1)]), [])
    ensures HandleCommit(FOUR, Committing(accuse, map[0 := CommitBy(0), 1 := CommitBy(1)]), CommitBy(3))
            == Done(CommittedNode(accuse), [NewCommitted(TOP)])
  {
    hide HandleCommit;
    CommitsGrow();
    var none: map<NodeId, CommitMsg> := map[];
    CommitHandled(accuse, none, 0);
    CommitHandled(accuse, none[0 := CommitBy(0)], 1);
    CommitHandled(accuse, none[0 := CommitBy(0)][1 := CommitBy(1)], 3);
  }

  // ----------------------------------------------------------------- going on

  const NEXT := Block(BLOCK, 2, TxsBody([]))
  const SECOND := InitMsg(1, 2, NEXT, 1, map[])

  /** Hearing of the committed block ends the leader's proposal. */
  lemma ProposalEnded()
    ensures FOUR.Valid()
    ensures OnCommitted(FOUR, 1, Counting(VOTES).(initing := Some(INIT)), TOP, TOP) == (Counting(VOTES), [])
  {
    hide Config.QuorumN, Config.AccuseQuorumN, Quorum, AccuseQuorum, LeaderOf, ScanVotePool;
    FourAreValid();
    VotesAnswer();
  }

  lemma NextCreated()
    ensures CommittedNode(Some(ACCUSE)).chain == [GENESIS_PACK, TOP]
    ensures TryCreateBlock(1, CommittedNode(Some(ACCUSE)), Counting(VOTES), GENESIS_VOTIE, 2, Some(TxsBody([])))
            == Some(SECOND)
  {
  }

  lemma TopSound()
    ensures ValidInit(FOUR, INIT) && CertifiedPack(FOUR, TOP)
  {
    hide ValidVotie, CommitsName;
    VotieSound();
    CommitsSound();
    assert 0 in COMMITS;
  }

  lemma VotieSound()
    ensures ValidVotie(FOUR, GENESIS_VOTIE) && |FOUR.normal| == 4
  {
  }

  lemma CommitsSound()
    ensures CommitsName(FOUR, 1, 1, BLOCK, COMMITS)
  {
  }

  lemma AtGenesis()
    ensures var s := Entered(Some(ACCUSE));
            && s.Keyed() && s.IsCommitted(Genesis) && s.index[Genesis] == 0 && !s.IsCommitted(BLOCK)
            && s.chain == [GENESIS_PACK] && s.term == 1
  {
  }

  /** Node 2, still at genesis, may take the block from another node. */
  lemma TopTaken()
    ensures Entered(Some(ACCUSE)).Keyed()
    ensures SyncBlock(FOUR, Entered(Some(ACCUSE)), TOP, 2).chain == [GENESIS_PACK, TOP]
    ensures SyncBlock(FOUR, Entered(Some(ACCUSE)), TOP, 2).term == 1
  {
    hide Config.QuorumN, Config.AccuseQuorumN, Quorum, AccuseQuorum;
    hide ValidInit, CertifiedPack, Node.Keyed, Node.IsCommitted, Entered;
    FourQuorums();
    TopSound();
    AtGenesis();
  }
}
