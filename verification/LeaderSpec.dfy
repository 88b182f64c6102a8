/** The leader's bookkeeping of votes and proposals (node/leader.go). */
module LeaderSpec {
  import opened ClusterParams
  import opened Protocol
  import opened NodeSpec

  const VOTE_POOL_TERM_RANGE: nat := 500

  datatype Leader = Leader(term: nat, votes: map<NodeId, Vote>, initing: Option<InitMsg>,
                           pool: map<nat, map<NodeId, Vote>>)

  /** NewLeader at a node whose stored term is term. */
  function NewLeader(term: nat): Leader { Leader(term, map[], None, map[]) }

  predicate InCharge(cfg: Config, me: NodeId, ld: Leader)
    requires cfg.Valid()
  {
    LeaderOf(cfg.normal, ld.term) == me && |ld.votes| >= cfg.QuorumN()
  }

  /** A vote counts when its votie is below the top, is the top, or connects it. */
  predicate Usable(v: Vote, top: Pack) {
    || HasLessTermHeightThan(v.votie, top.ToVotie())
    || v.votie.block == top.init.block
    || (v.votie.block.Block? && v.votie.block.prev == top.init.block)
  }

  function PoolRow(pool: map<nat, map<NodeId, Vote>>, term: nat): map<NodeId, Vote> {
    if term in pool then pool[term] else map[]
  }

  function CurrentRows(ld: Leader): map<nat, map<NodeId, Vote>> {
    map t | t in ld.pool && t >= ld.term :: ld.pool[t]
  }

  function CountedVotes(ld: Leader, top: Pack): map<NodeId, Vote> {
    var row := PoolRow(ld.pool, ld.term);
    map i | i in row && Usable(row[i], top) :: row[i]
  }

  /** Whether a call made the node leader, or ended its leadership. */
  datatype LeaderEvent = BecomeLeader(term: nat) | Retire(term: nat)

  /** scanVotePool; a vote already counted is not replaced. */
  function ScanVotePool(cfg: Config, me: NodeId, ld: Leader, top: Pack): (r: (Leader, seq<LeaderEvent>))
    requires cfg.Valid()
  {
    var ld1 := ld.(pool := CurrentRows(ld));
    if InCharge(cfg, me, ld1) then (ld1, [])
    else
      var ld2 := ld1.(votes := CountedVotes(ld1, top) + ld1.votes);
      (ld2, if InCharge(cfg, me, ld2) then [BecomeLeader(ld2.term)] else [])
  }

  function UpdateTerm(cfg: Config, me: NodeId, ld: Leader, newTerm: nat, top: Pack): (Leader, seq<LeaderEvent>)
    requires cfg.Valid()
  {
    if newTerm <= ld.term then (ld, [])
    else
      var r := ScanVotePool(cfg, me, ld.(term := newTerm, votes := map[], initing := None), top);
      (r.0, r.1 + if InCharge(cfg, me, ld) && !InCharge(cfg, me, r.0) then [Retire(newTerm)] else [])
  }

  function AddVote(cfg: Config, me: NodeId, ld: Leader, v: Vote, top: Pack): (Leader, seq<LeaderEvent>)
    requires cfg.Valid()
  {
    if ld.term <= v.term <= ld.term + VOTE_POOL_TERM_RANGE then
      var row := PoolRow(ld.pool, v.term);
      ScanVotePool(cfg, me, ld.(pool := ld.pool[v.term := row[v.nodeId := v]]), top)
    else (ld, [])
  }

  /** The branch of Run taken when a block is committed. */
  function OnCommitted(cfg: Config, me: NodeId, ld: Leader, committed: Pack, top: Pack): (Leader, seq<LeaderEvent>)
    requires cfg.Valid()
  {
    if InCharge(cfg, me, ld) then
      if ld.initing.Some? && committed.init.block == ld.initing.value.block
      then (ld.(initing := None), []) else (ld, [])
    else ScanVotePool(cfg, me, ld, top)
  }

  /** The block tryCreateBlockImpl proposes on top: the max votie m's block again, or a
      new one with the given contents (None when a joining node's request is missing). */
  function BlockToInit(top: Pack, m: Votie, timestampMs: int, body: Option<Body>): Option<Block> {
    if HasLessTermHeightThan(top.ToVotie(), m) && m.block != top.init.block then
      if m.block.Block? && m.block.prev == top.init.block then Some(m.block) else None
    else if body.Some? then Some(Block(top.init.block, timestampMs, body.value))
    else None
  }

  /** tryCreateBlock, once readyToInitNewBlock holds. */
  function TryCreateBlock(me: NodeId, s: Node, ld: Leader, m: Votie, timestampMs: int,
                          body: Option<Body>): Option<InitMsg>
    requires s.chain != []
  {
    if s.term != ld.term || s.freshPack.Some? then None
    else
      match BlockToInit(s.Top(), m, timestampMs, body)
      case None => None
      case Some(b) =>
        var withVotes := s.Top().init.term < ld.term || (b.Block? && b.prev == m.block);
        Some(InitMsg(ld.term, s.Top().init.height + 1, b, me, if withVotes then ld.votes else map[]))
  }

  // ------------------------------------------------- votes and leadership

  /** Pooled votes sit under their own term and voter, within the term range. */
  ghost predicate PoolInv(pool: map<nat, map<NodeId, Vote>>, term: nat) {
    && (forall t :: t in pool ==> term <= t <= term + VOTE_POOL_TERM_RANGE)
    && (forall t, i :: t in pool && i in pool[t] ==> pool[t][i].term == t && pool[t][i].nodeId == i)
  }

  /** Counted votes are for the current term, from voters in its row. */
  ghost predicate VotesInv(votes: map<NodeId, Vote>, row: map<NodeId, Vote>, term: nat) {
    && votes.Keys <= row.Keys
    && (forall i :: i in votes ==> votes[i].term == term && votes[i].nodeId == i)
  }

  ghost predicate LeaderInv(cfg: Config, me: NodeId, ld: Leader)
    requires cfg.Valid()
  {
    && PoolInv(ld.pool, ld.term)
    && VotesInv(ld.votes, PoolRow(ld.pool, ld.term), ld.term)
    && (ld.initing.Some? ==> ld.initing.value.term == ld.term && InCharge(cfg, me, ld))
  }

  /** Leadership is announced only on gaining it, and then nothing is being proposed:
      the assertion in scanVotePool. */
  ghost predicate Announced(cfg: Config, me: NodeId, ld: Leader, ld': Leader, events: seq<LeaderEvent>)
    requires cfg.Valid()
  {
    && (forall t :: BecomeLeader(t) in events ==>
          t == ld'.term && InCharge(cfg, me, ld') && ld'.initing.None?
          && (ld.term < ld'.term || !InCharge(cfg, me, ld)))
    && (ld'.term == ld.term && InCharge(cfg, me, ld) ==> InCharge(cfg, me, ld'))
    && ld.term <= ld'.term
  }

  lemma CountedVotesKeep(ld: Leader, top: Pack)
    requires PoolInv(ld.pool, ld.term) && VotesInv(ld.votes, PoolRow(ld.pool, ld.term), ld.term)
    ensures VotesInv(CountedVotes(ld, top) + ld.votes, PoolRow(ld.pool, ld.term), ld.term)
    ensures |ld.votes| <= |CountedVotes(ld, top) + ld.votes|
  {
    var votes := CountedVotes(ld, top) + ld.votes;
    SubsetSize(ld.votes.Keys, votes.Keys);
    assert |votes| == |votes.Keys| && |ld.votes| == |ld.votes.Keys|;
  }

  lemma ScanKeeps(cfg: Config, me: NodeId, ld: Leader, top: Pack)
    requires cfg.Valid() && LeaderInv(cfg, me, ld.(pool := CurrentRows(ld)))
    ensures var r := ScanVotePool(cfg, me, ld, top);
            LeaderInv(cfg, me, r.0) && Announced(cfg, me, ld, r.0, r.1) && r.0.term == ld.term
  {
    hide PoolInv, VotesInv, CountedVotes, CurrentRows, LeaderOf, PoolRow, Config.QuorumN;
    CountedVotesKeep(ld.(pool := CurrentRows(ld)), top);
  }

  lemma PooledVoteKeeps(ld: Leader, v: Vote)
    requires PoolInv(ld.pool, ld.term) && VotesInv(ld.votes, PoolRow(ld.pool, ld.term), ld.term)
    requires ld.term <= v.term <= ld.term + VOTE_POOL_TERM_RANGE
    ensures var pool := ld.pool[v.term := PoolRow(ld.pool, v.term)[v.nodeId := v]];
            PoolInv(pool, ld.term) && VotesInv(ld.votes, PoolRow(pool, ld.term), ld.term)
  {
  }

  lemma RowsAreCurrent(cfg: Config, me: NodeId, ld: Leader)
    requires cfg.Valid() && LeaderInv(cfg, me, ld)
    ensures ld.(pool := CurrentRows(ld)) == ld
  {
    assert CurrentRows(ld) == ld.pool;
  }

  lemma UpdateTermKeeps(cfg: Config, me: NodeId, ld: Leader, newTerm: nat, top: Pack)
    requires cfg.Valid() && LeaderInv(cfg, me, ld)
    ensures var r := UpdateTerm(cfg, me, ld, newTerm, top);
            LeaderInv(cfg, me, r.0) && Announced(cfg, me, ld, r.0, r.1)
  {
    if newTerm > ld.term {
      var ld1 := ld.(term := newTerm, votes := map[], initing := None);
      ScanKeeps(cfg, me, ld1, top);
    }
  }

  lemma PooledLeader(cfg: Config, me: NodeId, ld: Leader, v: Vote)
    requires cfg.Valid() && LeaderInv(cfg, me, ld) && ld.term <= v.term <= ld.term + VOTE_POOL_TERM_RANGE
    ensures LeaderInv(cfg, me, ld.(pool := ld.pool[v.term := PoolRow(ld.pool, v.term)[v.nodeId := v]]))
  {
    hide PoolInv, VotesInv, PoolRow, LeaderOf, Config.QuorumN, Config.Valid;
    PooledVoteKeeps(ld, v);
  }

  lemma AddVoteKeeps(cfg: Config, me: NodeId, ld: Leader, v: Vote, top: Pack)
    requires cfg.Valid() && LeaderInv(cfg, me, ld)
    ensures var r := AddVote(cfg, me, ld, v, top);
            LeaderInv(cfg, me, r.0) && Announced(cfg, me, ld, r.0, r.1)
  {
    hide LeaderInv, ScanVotePool, PoolRow, CurrentRows, LeaderOf, Config.QuorumN, Config.Valid;
    if ld.term <= v.term <= ld.term + VOTE_POOL_TERM_RANGE {
      var ld1 := ld.(pool := ld.pool[v.term := PoolRow(ld.pool, v.term)[v.nodeId := v]]);
      PooledLeader(cfg, me, ld, v);
      RowsAreCurrent(cfg, me, ld1);
      ScanKeeps(cfg, me, ld1, top);
    }
  }

  lemma OnCommittedKeeps(cfg: Config, me: NodeId, ld: Leader, committed: Pack, top: Pack)
    requires cfg.Valid() && LeaderInv(cfg, me, ld)
    ensures var r := OnCommitted(cfg, me, ld, committed, top);
            LeaderInv(cfg, me, r.0) && Announced(cfg, me, ld, r.0, r.1)
  {
    RowsAreCurrent(cfg, me, ld);
    ScanKeeps(cfg, me, ld, top);
  }

  /** One thing a leader object reacts to between two restarts. */
  datatype LeaderInput = GotTerm(newTerm: nat, top: Pack)
                       | GotVote(vote: Vote, top: Pack)
                       | GotCommitted(committed: Pack, top: Pack)
                       | Proposed(init: InitMsg)

  function React(cfg: Config, me: NodeId, ld: Leader, x: LeaderInput): (Leader, seq<LeaderEvent>)
    requires cfg.Valid()
  {
    match x
    case GotTerm(t, top) => UpdateTerm(cfg, me, ld, t, top)
    case GotVote(v, top) => AddVote(cfg, me, ld, v, top)
    case GotCommitted(p, top) => OnCommitted(cfg, me, ld, p, top)
    case Proposed(init) =>
      if InCharge(cfg, me, ld) && ld.initing.None? && init.term == ld.term
      then (ld.(initing := Some(init)), []) else (ld, [])
  }

  lemma ReactKeeps(cfg: Config, me: NodeId, ld: Leader, x: LeaderInput)
    requires cfg.Valid() && LeaderInv(cfg, me, ld)
    ensures var r := React(cfg, me, ld, x);
            LeaderInv(cfg, me, r.0) && Announced(cfg, me, ld, r.0, r.1)
  {
    hide UpdateTerm, AddVote, OnCommitted, LeaderOf, PoolInv, VotesInv, Config.Valid, Config.QuorumN;
    match x
    case GotTerm(t, top) => UpdateTermKeeps(cfg, me, ld, t, top);
    case GotVote(v, top) => AddVoteKeeps(cfg, me, ld, v, top);
    case GotCommitted(p, top) => OnCommittedKeeps(cfg, me, ld, p, top);
    case Proposed(_) =>
  }

  /** The state after each input, starting from a new leader. */
  function LeaderAfter(cfg: Config, me: NodeId, term: nat, xs: seq<LeaderInput>): Leader
    requires cfg.Valid()
  {
    if xs == [] then NewLeader(term)
    else React(cfg, me, LeaderAfter(cfg, me, term, xs[..|xs| - 1]), xs[|xs| - 1]).0
  }

  /** The k-th input announces leadership of term t. */
  predicate Announces(cfg: Config, me: NodeId, term: nat, xs: seq<LeaderInput>, k: nat, t: nat)
    requires cfg.Valid() && k < |xs|
  {
    BecomeLeader(t) in React(cfg, me, LeaderAfter(cfg, me, term, xs[..k]), xs[k]).1
  }

  lemma {:induction false} AlwaysLeaderInv(cfg: Config, me: NodeId, term: nat, xs: seq<LeaderInput>)
    requires cfg.Valid()
    ensures LeaderInv(cfg, me, LeaderAfter(cfg, me, term, xs))
  {
    hide React, Announced, InCharge, Config.Valid;
    if xs != [] {
      AlwaysLeaderInv(cfg, me, term, xs[..|xs| - 1]);
      ReactKeeps(cfg, me, LeaderAfter(cfg, me, term, xs[..|xs| - 1]), xs[|xs| - 1]);
    }
  }

  /** Leadership held after k inputs lasts until the term changes. */
  lemma {:induction false} LeadershipLasts(cfg: Config, me: NodeId, term: nat, xs: seq<LeaderInput>, k: nat)
    requires cfg.Valid() && k <= |xs|
    requires InCharge(cfg, me, LeaderAfter(cfg, me, term, xs[..k]))
    ensures LeaderAfter(cfg, me, term, xs[..k]).term <= LeaderAfter(cfg, me, term, xs).term
    ensures LeaderAfter(cfg, me, term, xs[..k]).term == LeaderAfter(cfg, me, term, xs).term ==>
              InCharge(cfg, me, LeaderAfter(cfg, me, term, xs))
    decreases |xs|
  {
    hide React, LeaderInv, InCharge, Config.Valid;
    if k < |xs| {
      var front := xs[..|xs| - 1];
      assert front[..k] == xs[..k];
      LeadershipLasts(cfg, me, term, front, k);
      AlwaysLeaderInv(cfg, me, term, front);
      ReactKeeps(cfg, me, LeaderAfter(cfg, me, term, front), xs[|xs| - 1]);
    } else {
      assert xs[..k] == xs;
    }
  }

  /** BecomeLeaderEvent fires at most once per term. */
  lemma LeaderOncePerTerm(cfg: Config, me: NodeId, term: nat, xs: seq<LeaderInput>, j: nat, k: nat, t: nat)
    requires cfg.Valid() && j < k < |xs|
    ensures !(Announces(cfg, me, term, xs, j, t) && Announces(cfg, me, term, xs, k, t))
  {
    hide React, LeaderInv, InCharge, Config.Valid;
    if Announces(cfg, me, term, xs, j, t) && Announces(cfg, me, term, xs, k, t) {
      AlwaysLeaderInv(cfg, me, term, xs[..j]);
      ReactKeeps(cfg, me, LeaderAfter(cfg, me, term, xs[..j]), xs[j]);
      assert xs[..j + 1][..j] == xs[..j];
      assert xs[..k][..j + 1] == xs[..j + 1];
      LeadershipLasts(cfg, me, term, xs[..k], j + 1);
      AlwaysLeaderInv(cfg, me, term, xs[..k]);
      ReactKeeps(cfg, me, LeaderAfter(cfg, me, term, xs[..k]), xs[k]);
    }
  }
}
