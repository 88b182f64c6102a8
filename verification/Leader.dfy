/** The leader object as it is written (node/leader.go), proved against LeaderSpec. */
module Leaders {
  import opened ClusterParams
  import opened Protocol
  import opened NodeSpec
  import opened LeaderSpec
  import opened BlockStores

  class LeaderNode {
    const cfg: Config
    const nodeId: NodeId
    const blockStore: BlockStore

    var term: nat
    var votes: map<NodeId, Vote>
    var initing: Option<InitMsg>
    var votePool: map<nat, map<NodeId, Vote>>

    ghost function State(): Leader
      reads this
    {
      Leader(term, votes, initing, votePool)
    }

    ghost predicate Valid()
      reads this
    {
      cfg.Valid() && LeaderInv(cfg, nodeId, State())
    }

    constructor (cfg: Config, nodeId: NodeId, blockStore: BlockStore)
      requires cfg.Valid()
      ensures this.cfg == cfg && this.nodeId == nodeId && this.blockStore == blockStore
      ensures Valid() && State() == NewLeader(blockStore.term)
    {
      this.cfg, this.nodeId, this.blockStore := cfg, nodeId, blockStore;
      term, votes, initing, votePool := blockStore.term, map[], None, map[];
    }

    predicate IsInCharge()
      requires cfg.Valid()
      reads this
      ensures IsInCharge() <==> InCharge(cfg, nodeId, State())
    {
      LeaderOf(cfg.normal, term) == nodeId && |votes| >= cfg.QuorumN()
    }

    /** Deletes the rows of earlier terms. */
    method DropOldRows()
      modifies this`votePool
      ensures votePool == CurrentRows(old(State()))
    {
      var rest := votePool.Keys;
      while rest != {}
        invariant rest <= old(votePool).Keys
        invariant votePool == map t | t in old(votePool) && (t in rest || t >= term) :: old(votePool)[t]
        decreases rest
      {
        var t :| t in rest;
        if t < term { votePool := votePool - {t}; }
        rest := rest - {t};
      }
    }

    /** Counts the usable votes of this term's row that are not counted yet. */
    method CountVotes(top: Pack)
      modifies this`votes
      ensures votes == CountedVotes(old(State()), top) + old(votes)
    {
      var row := if term in votePool then votePool[term] else map[];
      var rest := row.Keys;
      while rest != {}
        invariant rest <= row.Keys
        invariant votes == (map i | i in row && i !in rest && Usable(row[i], top) :: row[i]) + old(votes)
        decreases rest
      {
        var i :| i in rest;
        rest := rest - {i};
        if i in votes { continue; }
        var v := row[i];
        if HasLessTermHeightThan(v.votie, top.ToVotie())
           || v.votie.block == top.init.block
           || (v.votie.block.Block? && v.votie.block.prev == top.init.block) {
          votes := votes[i := v];
        }
      }
    }

    method ScanVotePool() returns (events: seq<LeaderEvent>)
      requires cfg.Valid() && blockStore.Valid()
      requires LeaderInv(cfg, nodeId, State().(pool := CurrentRows(State())))
      modifies this`votePool, this`votes
      ensures Valid()
      ensures (State(), events) == LeaderSpec.ScanVotePool(cfg, nodeId, old(State()), blockStore.State().Top())
    {
      hide LeaderInv, LeaderOf, CountedVotes, CurrentRows, Config.QuorumN, StoresChain, StoresIndex, Heights,
           Node.Keyed;
      ghost var before := State();
      ScanKeeps(cfg, nodeId, before, blockStore.State().Top());
      ProposingInCharge(cfg, nodeId, before.(pool := CurrentRows(before)));
      DropOldRows();
      if IsInCharge() { return []; }
      var commitTop := blockStore.GetCommitTop();
      CountVotes(commitTop);
      events := [];
      if IsInCharge() {
        events := [BecomeLeader(term)];
        assert initing.None?;
      }
    }

    method UpdateTerm(newTerm: nat) returns (events: seq<LeaderEvent>)
      requires Valid() && blockStore.Valid()
      modifies this
      ensures Valid()
      ensures (State(), events) == LeaderSpec.UpdateTerm(cfg, nodeId, old(State()), newTerm, blockStore.State().Top())
    {
      hide LeaderInv, LeaderOf, CountedVotes, CurrentRows, LeaderSpec.ScanVotePool, Config.QuorumN, InCharge,
           StoresChain, StoresIndex, Heights, Node.Keyed;
      if newTerm <= term { return []; }
      var wasInCharge := IsInCharge();
      NewTermRows(cfg, nodeId, State(), newTerm);
      term := newTerm;
      votes := map[];
      initing := None;
      events := ScanVotePool();
      assert events + [] == events;
      if wasInCharge && !IsInCharge() { events := events + [Retire(newTerm)]; }
    }

    method AddVote(vote: Vote) returns (events: seq<LeaderEvent>)
      requires Valid() && blockStore.Valid()
      modifies this
      ensures Valid()
      ensures (State(), events) == LeaderSpec.AddVote(cfg, nodeId, old(State()), vote, blockStore.State().Top())
    {
      hide LeaderInv, LeaderOf, CountedVotes, LeaderSpec.ScanVotePool, Config.QuorumN;
      events := [];
      if term <= vote.term <= term + VOTE_POOL_TERM_RANGE {
        PooledRows(cfg, nodeId, State(), vote);
        ghost var pooled := votePool[vote.term := PoolRow(votePool, vote.term)[vote.nodeId := vote]];
        if vote.term !in votePool { votePool := votePool[vote.term := map[]]; }
        var row: map<NodeId, Vote> := votePool[vote.term];
        votePool := votePool[vote.term := row[vote.nodeId := vote]];
        assert votePool == pooled;
        events := ScanVotePool();
      }
    }

    /** A block has been committed: the branch of Run. */
    method OnCommitted(committed: Pack) returns (events: seq<LeaderEvent>)
      requires Valid() && blockStore.Valid()
      modifies this
      ensures Valid()
      ensures (State(), events)
              == LeaderSpec.OnCommitted(cfg, nodeId, old(State()), committed, blockStore.State().Top())
    {
      hide LeaderOf, CountedVotes, LeaderSpec.ScanVotePool, Config.QuorumN, PoolInv, VotesInv;
      events := [];
      if IsInCharge() {
        if initing.Some? && committed.init.block == initing.value.block { initing := None; }
      } else {
        CurrentRowsAll(cfg, nodeId, State());
        hide LeaderInv;
        events := ScanVotePool();
      }
    }

    /** tryCreateBlockImpl; body holds what a new block would contain. */
    method TryCreateBlock(timestampMs: int, body: Option<Body>) returns (init: Option<InitMsg>, ghost m: Votie)
      requires Valid() && blockStore.Valid()
      requires IsInCharge() && initing.None?
      modifies this`initing
      ensures Valid() && IsMaxVotie(votes, m)
      ensures init == LeaderSpec.TryCreateBlock(nodeId, blockStore.State(), old(State()), m, timestampMs, body)
      ensures initing == init
    {
      hide LeaderOf, PoolInv, VotesInv, StoresChain, StoresIndex, IsMaxVotie;
      cfg.Sizes();
      assert votes != map[];
      ghost var some := SomeMaxVotie(votes);
      m, init := some.value, None;
      if blockStore.term != term { return; }
      if blockStore.freshPack.Some? { return; }
      var top := blockStore.GetCommitTop();
      var maxVotie := GetMaxVotie(votes);
      m := maxVotie.value;

      var blockToInit: Option<Block> := None;
      if HasLessTermHeightThan(top.ToVotie(), maxVotie.value) && maxVotie.value.block != top.init.block {
        var b := maxVotie.value.block;
        if !(b.Block? && b.prev == top.init.block) { return; }
        blockToInit := Some(b);
      } else if body.Some? {
        blockToInit := Some(Block(top.init.block, timestampMs, body.value));
      }
      if blockToInit.None? { return; }
      var x := InitMsg(term, top.init.height + 1, blockToInit.value, nodeId, map[]);
      if top.init.term < term || x.block.prev == maxVotie.value.block {
        x := x.(votes := votes);
      }
      init := Some(x);
      initing := init;
    }
  }

  lemma ProposingInCharge(cfg: Config, me: NodeId, ld: Leader)
    requires cfg.Valid() && LeaderInv(cfg, me, ld)
    ensures ld.initing.Some? ==> InCharge(cfg, me, ld)
  {
  }

  lemma NewTermRows(cfg: Config, me: NodeId, ld: Leader, newTerm: nat)
    requires cfg.Valid() && LeaderInv(cfg, me, ld) && ld.term < newTerm
    ensures var ld' := ld.(term := newTerm, votes := map[], initing := None);
            LeaderInv(cfg, me, ld'.(pool := CurrentRows(ld')))
  {
  }

  lemma PooledRows(cfg: Config, me: NodeId, ld: Leader, v: Vote)
    requires cfg.Valid() && LeaderInv(cfg, me, ld) && ld.term <= v.term <= ld.term + VOTE_POOL_TERM_RANGE
    ensures var ld' := ld.(pool := ld.pool[v.term := PoolRow(ld.pool, v.term)[v.nodeId := v]]);
            LeaderInv(cfg, me, ld'.(pool := CurrentRows(ld')))
  {
    PooledVoteKeeps(ld, v);
    var ld' := ld.(pool := ld.pool[v.term := PoolRow(ld.pool, v.term)[v.nodeId := v]]);
    CurrentRowsAll(cfg, me, ld');
  }

  lemma CurrentRowsAll(cfg: Config, me: NodeId, ld: Leader)
    requires cfg.Valid() && LeaderInv(cfg, me, ld)
    ensures LeaderInv(cfg, me, ld.(pool := CurrentRows(ld)))
  {
    RowsAreCurrent(cfg, me, ld);
  }
}
