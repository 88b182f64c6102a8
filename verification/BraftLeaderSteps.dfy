/** The steps that are not message handlers: sync-up, voting, accusing and leading. */
module BraftLeaderSteps {
  import opened ClusterParams
  import opened Protocol
  import opened MsgValidation
  import opened NodeSpec
  import opened LeaderSpec
  import opened MessageLog
  import opened NodeInvariant
  import opened Braft
  import opened BraftSteps

  // ------------------------------------------------------------------ sync-up

  lemma PackSettled(cfg: Config, log: seq<Msg>, p: Pack)
    requires LogOk(cfg, log) && PackM(p) in log
    ensures Settled(cfg, log, PackPoint(p))
  {
    var k :| 0 <= k < |log| && log[k] == PackM(p);
    assert MsgOk(cfg, log[..k], log[k]);
    if Chosen(cfg, log[..k], PackPoint(p)) { ChosenGrows(cfg, log[..k], log, PackPoint(p)); }
  }

  /** checkBlockPack only asks that the parent be committed; agreement makes that the top. */
  lemma SyncedExtendsTop(cfg: Config, log: seq<Msg>, s: Node, p: Pack, confirmed: nat)
    requires cfg.Valid() && LogOk(cfg, log) && ChainInv(s.chain, s.index) && s.Keyed()
    requires ChainBacked(cfg, log, s.chain) && Settled(cfg, log, PackPoint(p))
    requires CheckBlockPack(cfg, s, p, confirmed)
    ensures Extends(p, s.chain)
  {
    var h := s.index[p.init.block.prev];
    hide LogOk, Settled, Quorum, AccuseQuorum, ValidInit, CertifiedPack;
    if h + 1 < |s.chain| {
      Agreement(cfg, log, PackPoint(p), PackPoint(s.chain[h + 1]));
    } else {
      TermsFollowHeights(cfg, log, PackPoint(s.chain[h]), PackPoint(p));
    }
  }

  lemma PackStep(cfg: Config, log: seq<Msg>, i: NodeId, r: Replica, p: Pack, confirmed: nat)
    requires cfg.Valid() && LogOk(cfg, log) && RepInv(cfg, log, i, r) && r.node.Keyed()
    requires PackM(p) in log
    ensures StepOk(cfg, log, i, r, Moved(r.(node := SyncBlock(cfg, r.node, p, confirmed)), []))
  {
    var s := r.node;
    PackSettled(cfg, log, p);
    if CheckBlockPack(cfg, s, p, confirmed) {
      SyncedExtendsTop(cfg, log, s, p, confirmed);
      SyncBlockKeeps(s, p);
      ChainBackedOnTop(cfg, log, s.chain, p);
      hide NodeInv, LogOk, ChainBacked, CheckBlockPack, Settled, Progress;
      Taller(cfg, log, i, r, JustCommitIt(s, p));
      QuietStep(cfg, log, i, r, r.(node := JustCommitIt(s, p)));
    } else {
      SameNodeProgress(s);
      QuietStep(cfg, log, i, r, r);
    }
  }

  lemma SendPackStep(cfg: Config, log: seq<Msg>, i: NodeId, r: Replica, h: nat)
    requires cfg.Valid() && LogOk(cfg, log) && RepInv(cfg, log, i, r) && h < |r.node.chain|
    ensures StepOk(cfg, log, i, r, Moved(r, [PackM(r.node.chain[h])]))
  {
    assert Settled(cfg, log, PackPoint(r.node.chain[h]));
    hide RepInv, LogOk, Settled;
    SameNodeProgress(r.node);
    SendingStep(cfg, log, i, r, r, PackM(r.node.chain[h]));
  }

  // ------------------------------------------------------- votes and accuses

  lemma VoteIsOk(cfg: Config, log: seq<Msg>, i: NodeId, r: Replica)
    requires cfg.Valid() && RepInv(cfg, log, i, r) && i in cfg.Nodes() && r.voteTerm.Some?
    ensures VoteOk(cfg, log, Vote(r.voteTerm.value, r.node.votie, i)) && r.voteTerm.value <= r.node.term
    ensures RepInv(cfg, log, i, r.(voteTerm := None))
  {
  }

  lemma ReadVoteTermStep(cfg: Config, log: seq<Msg>, i: NodeId, r: Replica)
    requires cfg.Valid() && LogOk(cfg, log) && RepInv(cfg, log, i, r)
    ensures StepOk(cfg, log, i, r, Moved(r.(voteTerm := Some(r.node.term)), []))
  {
    assert RepCore(cfg, log, i, r.(voteTerm := Some(r.node.term)));
    hide RepCore, PendingOk, LogOk;
    SameNodeProgress(r.node);
    QuietStep(cfg, log, i, r, r.(voteTerm := Some(r.node.term)));
  }

  /** The votie is read after the term, when the node may be in a later term already. */
  lemma SendVoteStep(cfg: Config, log: seq<Msg>, i: NodeId, r: Replica)
    requires cfg.Valid() && LogOk(cfg, log) && RepInv(cfg, log, i, r) && i in cfg.Nodes() && r.voteTerm.Some?
    ensures StepOk(cfg, log, i, r,
                   Moved(r.(voteTerm := None), [VoteM(Vote(r.voteTerm.value, r.node.votie, i))]))
  {
    VoteIsOk(cfg, log, i, r);
    hide RepInv, LogOk, VoteOk;
    SameNodeProgress(r.node);
    SendingStep(cfg, log, i, r, r.(voteTerm := None), VoteM(Vote(r.voteTerm.value, r.node.votie, i)));
  }

  lemma SendWeakStep(cfg: Config, log: seq<Msg>, i: NodeId, r: Replica, t: nat)
    requires cfg.Valid() && LogOk(cfg, log) && RepInv(cfg, log, i, r)
    ensures StepOk(cfg, log, i, r, Moved(r, [WeakM(WeakAccuse(t, i))]))
  {
    hide RepInv, LogOk;
    SameNodeProgress(r.node);
    SendingStep(cfg, log, i, r, r, WeakM(WeakAccuse(t, i)));
  }

  // ------------------------------------------------------------------ leading

  /** The leader object may change as long as it stays backed by sent votes and does
      not let go of an init that could still be accepted. */
  lemma LeaderChanges(cfg: Config, log: seq<Msg>, i: NodeId, r: Replica, ld: Leader)
    requires cfg.Valid() && LogOk(cfg, log) && RepInv(cfg, log, i, r)
    requires LeaderInv(cfg, i, ld) && LeaderBacked(cfg, log, ld, r.node.term)
    requires forall x :: x in r.pending ==> PendingOk(cfg, log, i, x, r.node, ld)
    ensures StepOk(cfg, log, i, r, Moved(r.(leader := ld), []))
  {
    assert RepCore(cfg, log, i, r.(leader := ld));
    hide RepCore, PendingOk, LogOk;
    SameNodeProgress(r.node);
    QuietStep(cfg, log, i, r, r.(leader := ld));
  }

  lemma ScanBacked(cfg: Config, log: seq<Msg>, me: NodeId, ld: Leader, top: Pack, nodeTerm: nat)
    requires cfg.Valid() && LeaderBacked(cfg, log, ld, nodeTerm)
    ensures LeaderBacked(cfg, log, ScanVotePool(cfg, me, ld, top).0, nodeTerm)
  {
    hide Usable, InCharge;
  }

  lemma LeaderTermStep(cfg: Config, log: seq<Msg>, i: NodeId, r: Replica, t: nat, top: Pack)
    requires cfg.Valid() && LogOk(cfg, log) && RepInv(cfg, log, i, r) && t <= r.node.term
    ensures StepOk(cfg, log, i, r, Moved(r.(leader := UpdateTerm(cfg, i, r.leader, t, top).0), []))
  {
    var ld := UpdateTerm(cfg, i, r.leader, t, top).0;
    UpdateTermKeeps(cfg, i, r.leader, t, top);
    if t > r.leader.term {
      ScanBacked(cfg, log, i, r.leader.(term := t, votes := map[], initing := None), top, r.node.term);
    }
    hide ScanVotePool, LeaderInv, LogOk, LeaderBacked, HasSupport;
    LeaderChanges(cfg, log, i, r, ld);
  }

  lemma ScanKeepsProposal(cfg: Config, me: NodeId, ld: Leader, top: Pack)
    requires cfg.Valid()
    ensures var ld' := ScanVotePool(cfg, me, ld, top).0; ld'.term == ld.term && ld'.initing == ld.initing
  {
  }

  lemma PooledBacked(cfg: Config, log: seq<Msg>, ld: Leader, v: Vote, nodeTerm: nat)
    requires LeaderBacked(cfg, log, ld, nodeTerm) && VoteM(v) in log
    ensures LeaderBacked(cfg, log, ld.(pool := ld.pool[v.term := PoolRow(ld.pool, v.term)[v.nodeId := v]]), nodeTerm)
  {
  }

  lemma LeaderVoteStep(cfg: Config, log: seq<Msg>, i: NodeId, r: Replica, v: Vote, top: Pack)
    requires cfg.Valid() && LogOk(cfg, log) && RepInv(cfg, log, i, r) && VoteM(v) in log
    ensures StepOk(cfg, log, i, r, Moved(r.(leader := AddVote(cfg, i, r.leader, v, top).0), []))
  {
    var ld := AddVote(cfg, i, r.leader, v, top).0;
    AddVoteKeeps(cfg, i, r.leader, v, top);
    hide ScanVotePool, LeaderInv, LogOk, LeaderBacked, HasSupport;
    var ld1 := r.leader.(pool := r.leader.pool[v.term := PoolRow(r.leader.pool, v.term)[v.nodeId := v]]);
    PooledBacked(cfg, log, r.leader, v, r.node.term);
    ScanBacked(cfg, log, i, ld1, top, r.node.term);
    ScanKeepsProposal(cfg, i, ld1, top);
    LeaderChanges(cfg, log, i, r, ld);
  }

  /** A committed block is lower than any init that could still be accepted. */
  lemma CommittedIsNotPending(cfg: Config, log: seq<Msg>, i: NodeId, r: Replica, x: InitMsg, h: nat)
    requires cfg.Valid() && RepInv(cfg, log, i, r) && x in r.pending && h < |r.node.chain|
    requires x.height == |r.node.chain|
    ensures x.block != r.node.chain[h].init.block
  {
    hide CommitsCovered, VotesBelow, LeaderInv, CacheBacked, ChainBacked;
    assert PendingOk(cfg, log, i, x, r.node, r.leader);
    var votes, top, m :| Supported(cfg, log, x, votes, top, m);
  }

  lemma LeaderCommittedStep(cfg: Config, log: seq<Msg>, i: NodeId, r: Replica, h: nat, top: Pack)
    requires cfg.Valid() && LogOk(cfg, log) && RepInv(cfg, log, i, r) && h < |r.node.chain|
    ensures StepOk(cfg, log, i, r,
                   Moved(r.(leader := OnCommitted(cfg, i, r.leader, r.node.chain[h], top).0), []))
  {
    var ld := OnCommitted(cfg, i, r.leader, r.node.chain[h], top).0;
    OnCommittedKeeps(cfg, i, r.leader, r.node.chain[h], top);
    ScanBacked(cfg, log, i, r.leader, top, r.node.term);
    ScanKeepsProposal(cfg, i, r.leader, top);
    hide ScanVotePool, LeaderInv, LogOk, HasSupport, InCharge;
    forall x | x in r.pending ensures PendingOk(cfg, log, i, x, r.node, ld) {
      if x.height == |r.node.chain| { CommittedIsNotPending(cfg, log, i, r, x, h); }
    }
    hide RepCore, PendingOk;
    LeaderChanges(cfg, log, i, r, ld);
  }

  // ---------------------------------------------------------------- proposing

  lemma VoteInLog(cfg: Config, log: seq<Msg>, v: Vote)
    requires LogOk(cfg, log) && VoteM(v) in log
    ensures v.nodeId in cfg.Nodes()
    ensures v.votie.block.Block? ==> Committable(v.votie.block)
  {
    var k :| 0 <= k < |log| && log[k] == VoteM(v);
    assert MsgOk(cfg, log[..k], log[k]);
    if VotiePoint(v.votie) != GENESIS_POINT {
      HasInitGrows(log[..k], log, VotiePoint(v.votie));
      InitsHaveHeight(cfg, log, VotiePoint(v.votie));
    }
  }

  /** What tryCreateBlockImpl can propose, given the max votie m. */
  lemma ProposalShape(i: NodeId, s: Node, ld: Leader, m: Votie, ts: int, body: Option<Body>)
    requires Linked(s.chain) && TryCreateBlock(i, s, ld, m, ts, body).Some?
    requires m.block.Block? ==> Committable(m.block)
    requires body.Some? ==> !body.value.BchBody?
    ensures s.term == ld.term && s.freshPack.None?
    ensures var x, top := TryCreateBlock(i, s, ld, m, ts, body).value, PackPoint(s.Top());
            && x.term == ld.term && x.nodeId == i && x.height == |s.chain|
            && x.height == top.height + 1 == Ht(x.block)
            && Committable(x.block) && x.block.prev == top.block
            && (Below(top, VotiePoint(m)) && m.block != top.block ==> x.block == m.block)
  {
  }

  lemma VotersAreNodes(cfg: Config, log: seq<Msg>, i: NodeId, ld: Leader, m: Votie, nodeTerm: nat)
    requires cfg.Valid() && LogOk(cfg, log) && LeaderInv(cfg, i, ld) && LeaderBacked(cfg, log, ld, nodeTerm)
    requires InCharge(cfg, i, ld) && IsMaxVotie(ld.votes, m)
    ensures ld.votes.Keys <= cfg.Nodes() && |ld.votes.Keys| >= cfg.QuorumN()
    ensures forall j :: j in ld.votes ==>
              ld.votes[j].nodeId == j && ld.votes[j].term == ld.term && VoteM(ld.votes[j]) in log
    ensures m.block.Block? ==> Committable(m.block)
  {
    hide LogOk, PoolInv, LeaderOf;
    forall j | j in ld.votes ensures j in cfg.Nodes() { VoteInLog(cfg, log, ld.votes[j]); }
    var j :| j in ld.votes && ld.votes[j].votie == m;
    VoteInLog(cfg, log, ld.votes[j]);
    assert |ld.votes| == |ld.votes.Keys|;
  }

  /** What tryCreateBlockImpl proposes is what its votes support. */
  lemma ProposalSupported(cfg: Config, log: seq<Msg>, i: NodeId, s: Node, ld: Leader, m: Votie,
                          ts: int, body: Option<Body>)
    requires cfg.Valid() && LogOk(cfg, log) && Linked(s.chain) && ChainBacked(cfg, log, s.chain)
    requires LeaderInv(cfg, i, ld) && LeaderBacked(cfg, log, ld, s.term)
    requires InCharge(cfg, i, ld) && IsMaxVotie(ld.votes, m)
    requires body.Some? ==> !body.value.BchBody?
    requires TryCreateBlock(i, s, ld, m, ts, body).Some?
    ensures HasSupport(cfg, log, TryCreateBlock(i, s, ld, m, ts, body).value)
    ensures m.block.Block? ==> Committable(m.block)
  {
    hide LogOk, Settled, PoolInv, LeaderOf, IsMaxVotie, TryCreateBlock, LeaderInv, LeaderBacked, InCharge, Below,
         Committable, Linked;
    VotersAreNodes(cfg, log, i, ld, m, s.term);
    ProposalShape(i, s, ld, m, ts, body);
    var top := PackPoint(s.Top());
    assert Settled(cfg, log, top);
    hide ChainBacked;
    assert Supported(cfg, log, TryCreateBlock(i, s, ld, m, ts, body).value, ld.votes, top, m);
  }

  lemma ProposeStep(cfg: Config, log: seq<Msg>, i: NodeId, r: Replica, m: Votie, ts: int, body: Option<Body>)
    requires cfg.Valid() && LogOk(cfg, log) && RepInv(cfg, log, i, r) && r.node.chain != []
    requires InCharge(cfg, i, r.leader) && r.leader.initing.None? && IsMaxVotie(r.leader.votes, m)
    requires body.Some? ==> !body.value.BchBody?
    ensures var o := TryCreateBlock(i, r.node, r.leader, m, ts, body);
            if o.None? then StepOk(cfg, log, i, r, Moved(r, []))
            else StepOk(cfg, log, i, r,
                        Moved(r.(leader := r.leader.(initing := o), pending := r.pending + {o.value}), []))
  {
    hide *;
    RepParts(cfg, log, i, r);
    var o := TryCreateBlock(i, r.node, r.leader, m, ts, body);
    SameNodeProgress(r.node);
    if o.None? {
      QuietStep(cfg, log, i, r, r);
    } else {
      ProposalSupported(cfg, log, i, r.node, r.leader, m, ts, body);
      ProposalShape(i, r.node, r.leader, m, ts, body);
      ProposalPending(cfg, log, i, r, o.value);
    }
  }

  lemma RepParts(cfg: Config, log: seq<Msg>, i: NodeId, r: Replica)
    requires cfg.Valid() && RepInv(cfg, log, i, r)
    ensures LeaderInv(cfg, i, r.leader) && LeaderBacked(cfg, log, r.leader, r.node.term)
    ensures Linked(r.node.chain) && ChainBacked(cfg, log, r.node.chain)
  {
  }

  lemma InitingCore(cfg: Config, log: seq<Msg>, i: NodeId, r: Replica, x: InitMsg)
    requires cfg.Valid() && RepCore(cfg, log, i, r)
    requires InCharge(cfg, i, r.leader) && x.term == r.leader.term
    ensures RepCore(cfg, log, i, r.(leader := r.leader.(initing := Some(x)), pending := r.pending + {x}))
  {
    hide LeaderOf, NodeInv, ChainBacked, CacheBacked, VotieBacked, CommitsCovered, VotesBelow, PoolInv, VotesInv;
  }

  /** With nothing initing no init is waiting at the next height, so x may join them. */
  lemma ProposalPending(cfg: Config, log: seq<Msg>, i: NodeId, r: Replica, x: InitMsg)
    requires cfg.Valid() && LogOk(cfg, log) && RepInv(cfg, log, i, r)
    requires InCharge(cfg, i, r.leader) && r.leader.initing.None? && HasSupport(cfg, log, x)
    requires x.term == r.leader.term == r.node.term && x.height == |r.node.chain| && x.nodeId == i
    requires r.node.freshPack.None?
    ensures StepOk(cfg, log, i, r,
                   Moved(r.(leader := r.leader.(initing := Some(x)), pending := r.pending + {x}), []))
  {
    hide LogOk, HasSupport, RepCore, LeaderOf, InitsTracked, FreshBacked, Config.Valid, Progress;
    var ld := r.leader.(initing := Some(x));
    var r' := r.(leader := ld, pending := r.pending + {x});
    InitingCore(cfg, log, i, r, x);
    forall y | y in r'.pending ensures PendingOk(cfg, log, i, y, r.node, ld) {
      if y != x { assert PendingOk(cfg, log, i, y, r.node, r.leader); }
    }
    assert RepInv(cfg, log, i, r');
    hide RepInv, PendingOk;
    SameNodeProgress(r.node);
    QuietStep(cfg, log, i, r, r');
  }
}
