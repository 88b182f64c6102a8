/** When each consensus event is raised, and what the node then holds. */
module NodeEvents {
  import opened Protocol
  import opened NodeSpec
  import opened NodeInvariant

  // ------------------------------------------------------------------- inits

  /** What a votie m, greatest among an init's votes, lets the init propose: anything when
      m is below the committed top or is the top itself, m's own block otherwise. */
  predicate Supports(m: Votie, top: Pack, init: InitMsg) {
    HasLessTermHeightThan(m, top.ToVotie()) || m.block == top.init.block || m.block == init.block
  }

  /** The inits a node takes up as its pending block. */
  predicate Acceptable(cfg: Config, s: Node, init: InitMsg, txs: Verdict, ok: bool, m: Option<Votie>)
    requires s.chain != []
  {
    && init.term >= s.term
    && (init.term > s.term ==> |init.votes| >= cfg.QuorumN())
    && Extends(Pack(init, map[], map[]), s.chain)
    && txs == Verdict.Valid && ok
    && (init.term > s.Top().init.term ==>
          |init.votes| >= cfg.QuorumN() && m.Some? && Supports(m.value, s.Top(), init))
  }

  predicate HasInited(events: seq<Event>) { exists k :: 0 <= k < |events| && events[k].NewInited? }

  lemma InTermIff(cfg: Config, s: Node, init: InitMsg, txs: Verdict, ok: bool, m: Option<Votie>, before: seq<Event>)
    requires NodeInv(s) && init.term == s.term && !HasInited(before)
    ensures s.Keyed()
    ensures var o := InitInTerm(cfg, s, init, txs, ok, m, before);
            && o.Done? && o.node.term == init.term
            && (HasInited(o.events) <==> Acceptable(cfg, s, init, txs, ok, m))
            && (HasInited(o.events) ==> o.node.freshPack == Some(MergedFresh(s, init)))
            && (!HasInited(o.events) ==> o.node == s)
  {
    InvIsKeyed(s);
    WrongHeightInits(s, init, before);
    if Ht(init.block) == |s.chain| { NextHeightUncommitted(s.chain, s.index, init.block); }
    ExtendsFixesHeight(s.chain, Pack(init, map[], map[]));
    hide NodeInv, ChainInv, WrongHeight, MergedFresh;
    InitsAfter(before, NewInited(MergedFresh(s, init)));
    InitsAfter(before, NewWeakAccuse(init.term));
  }

  lemma ExtendsFixesHeight(chain: seq<Pack>, p: Pack)
    requires Linked(chain)
    ensures Extends(p, chain) ==> p.init.height == |chain| == Ht(p.init.block)
  {
    assert chain[|chain| - 1].init.height == |chain| - 1 == Ht(chain[|chain| - 1].init.block);
  }

  lemma WrongHeightInits(s: Node, init: InitMsg, before: seq<Event>)
    requires NodeInv(s) && s.Keyed() && init.term == s.term && !HasInited(before)
    ensures init.height != s.Height() + 1 ==>
              var o := WrongHeight(s, init.term, init.height, init.block, init.nodeId, InitM(init), before);
              o.Done? && o.node == s && !HasInited(o.events)
  {
    if init.height != s.Height() + 1 {
      WrongHeightKeeps(s, init.term, init.height, init.block, init.nodeId, InitM(init), before);
    }
  }

  lemma InitsAfter(before: seq<Event>, e: Event)
    requires !HasInited(before)
    ensures HasInited(before + [e]) <==> e.NewInited?
  {
    if e.NewInited? { assert (before + [e])[|before|].NewInited?; }
  }

  /** handleInitMsg takes an init up exactly when it is of the node's term or of a later
      one with a quorum of votes, extends the top, is valid, and, in a term above the
      top's, is supported by the greatest votie of its votes. */
  lemma InitAcceptedIff(cfg: Config, s: Node, init: InitMsg, txs: Verdict, ok: bool, m: Option<Votie>)
    requires NodeInv(s)
    ensures s.Keyed()
    ensures var o := HandleInit(cfg, s, init, txs, ok, m);
            && o.Done?
            && (HasInited(o.events) <==> Acceptable(cfg, s, init, txs, ok, m))
            && (HasInited(o.events) ==>
                  o.node.term == init.term && o.node.freshPack == Some(MergedFresh(s, init)))
            && (!HasInited(o.events) ==> o.node.freshPack == s.freshPack || o.node.freshPack.None?)
  {
    hide NodeInv, InitInTerm, Extends, Supports, MergedFresh, Config.QuorumN, Node.Keyed, Linked;
    StoreIsKeyed(s);
    ChainIsLinked(s);
    ExtendsFixesHeight(s.chain, Pack(init, map[], map[]));
    if init.term > s.term && init.height <= s.Height() + 1 && |init.votes| >= cfg.QuorumN() {
      EnterTermKeeps(s, init.term);
      SameMerge(s, init);
      InTermIff(cfg, EnterTerm(s, init.term), init, txs, ok, m, [NewTerm(init.term)]);
    } else if init.term == s.term {
      InTermIff(cfg, s, init, txs, ok, m, []);
    }
  }

  lemma ChainIsLinked(s: Node)
    requires NodeInv(s)
    ensures s.chain != [] && Linked(s.chain)
  {
  }

  lemma SameMerge(s: Node, init: InitMsg)
    ensures MergedFresh(EnterTerm(s, init.term), init) == MergedFresh(s, init)
  {
  }

  // ---------------------------------------------------------------- prepares

  /** NewPreparedEvent is raised exactly when a prepare not seen before joins the pending
      block of this term and height, and with it there are enough; the votie is then at
      least as high as that block, so the commit to follow is covered by it. */
  lemma PreparedIff(cfg: Config, s: Node, msg: PrepareMsg)
    requires NodeInv(s) && msg.height == Ht(msg.block)
    ensures s.Keyed() && HandlePrepare(cfg, s, msg).Done?
    ensures var o := HandlePrepare(cfg, s, msg);
            (exists p :: NewPrepared(p) in o.events) <==>
              && msg.term == s.term && msg.height == |s.chain| && s.freshPack.Some?
              && msg.block == s.freshPack.value.init.block && msg.nodeId !in s.freshPack.value.prepares
              && cfg.QuorumN() - 1 <= |s.freshPack.value.prepares| <= cfg.QuorumN()
    ensures var o := HandlePrepare(cfg, s, msg);
            forall p :: NewPrepared(p) in o.events ==>
              && o.node.freshPack == Some(p) && p.init == s.freshPack.value.init
              && p.prepares == s.freshPack.value.prepares[msg.nodeId := msg]
              && !HasLessTermHeightThan(o.node.votie, p.ToVotie())
  {
    hide NodeInv, Config.QuorumN, Node.Keyed, WrongHeight, CacheAppend, Progress, FreshCommittable;
    HandlePrepareKeeps(cfg, s, msg);
    FreshHeight(s);
    if msg.term == s.term && msg.height != s.Height() + 1 {
      WrongHeightEvents(s, msg.term, msg.height, msg.block, msg.nodeId, PrepareM(msg));
    }
    if s.freshPack.Some? { OneMore(s.freshPack.value.prepares, msg.nodeId, msg); }
    var o := HandlePrepare(cfg, s, msg);
    assert |o.events| == 1 ==> o.events == [o.events[0]] && o.events[0] in o.events;
  }

  lemma OneMore<T>(m: map<NodeId, T>, i: NodeId, t: T)
    ensures i !in m ==> |m[i := t]| == |m| + 1
  {
    assert m[i := t].Keys == m.Keys + {i};
    assert |m[i := t]| == |m[i := t].Keys| && |m| == |m.Keys|;
  }

  lemma FreshHeight(s: Node)
    requires NodeInv(s)
    ensures s.freshPack.Some? ==> s.freshPack.value.init.height == Ht(s.freshPack.value.init.block)
  {
  }

  lemma WrongHeightEvents(s: Node, term: nat, height: nat, b: Block, from: NodeId, msg: Msg)
    requires NodeInv(s) && s.Keyed() && term == s.term && height != s.Height() + 1
    ensures var o := WrongHeight(s, term, height, b, from, msg, []);
            && o.Done? && o.node == s
            && (forall p :: NewPrepared(p) !in o.events) && (forall p :: NewCommitted(p) !in o.events)
  {
    WrongHeightKeeps(s, term, height, b, from, msg, []);
  }

  // ----------------------------------------------------------------- commits

  /** handleCommitMsg commits exactly when a commit not seen before joins the pending
      block at the next height and with it there are enough: that block, without its
      prepares, becomes the top, nothing is pending, the term stays, the votie is at
      least as high as the new top, and one NewCommittedEvent is raised. */
  lemma CommitIff(cfg: Config, s: Node, msg: CommitMsg)
    requires NodeInv(s) && FreshCommittable(s) && msg.height == Ht(msg.block)
    ensures s.Keyed() && HandleCommit(cfg, s, msg).Done?
    ensures var o := HandleCommit(cfg, s, msg);
            var commits := msg.term == s.term && msg.height == |s.chain| && s.freshPack.Some?
                           && msg.block == s.freshPack.value.init.block
                           && msg.nodeId !in s.freshPack.value.commits
                           && |s.freshPack.value.commits| + 1 >= cfg.QuorumN();
            if commits then
              var top := s.freshPack.value.(prepares := map[],
                                            commits := s.freshPack.value.commits[msg.nodeId := msg]);
              && o.node.chain == s.chain + [top] && o.node.index == s.index[top.init.block := |s.chain|]
              && o.node.freshPack.None? && o.node.term == s.term
              && !HasLessTermHeightThan(o.node.votie, top.ToVotie())
              && o.events == [NewCommitted(top)]
            else o.node.chain == s.chain && forall p :: NewCommitted(p) !in o.events
  {
    hide NodeInv, Config.QuorumN, Node.Keyed, WrongHeight, CacheAppend, Progress, CommitBlockWithCheck;
    HandleCommitKeeps(cfg, s, msg);
    FreshHeight(s);
    if msg.term == s.term && msg.height != s.Height() + 1 {
      WrongHeightEvents(s, msg.term, msg.height, msg.block, msg.nodeId, CommitM(msg));
    } else if msg.term == s.term && s.freshPack.Some? && msg.block == s.freshPack.value.init.block
              && msg.nodeId !in s.freshPack.value.commits {
      OneMore(s.freshPack.value.commits, msg.nodeId, msg);
      var grown := s.freshPack.value.(commits := s.freshPack.value.commits[msg.nodeId := msg]);
      GrownCommitKeeps(s, msg);
      if |grown.commits| >= cfg.QuorumN() {
        CommitSucceeds(cfg, s.(freshPack := Some(grown)), grown);
        FinishedNode(s.(freshPack := Some(grown)), grown.(prepares := map[]));
      }
    }
  }

  /** The store after a block has been put on top. */
  lemma FinishedNode(s: Node, top: Pack)
    requires top.init.height == |s.chain|
    ensures var t := RaiseVotie(JustCommitIt(s, top).(freshPack := None), top);
            && t.chain == s.chain + [top] && t.index == s.index[top.init.block := |s.chain|]
            && t.freshPack.None? && t.term == s.term && !HasLessTermHeightThan(t.votie, top.ToVotie())
  {
  }

  // ----------------------------------------------------------------- answers

  /** The message is of the node's term and names its top, committed in a lower term. */
  predicate NamesTop(s: Node, term: nat, height: nat, b: Block)
    requires s.chain != []
  {
    term == s.term && height == s.Top().init.height && term > s.Top().init.term && b == s.Top().init.block
  }

  /** A prepare or commit is answered with one of the node's own exactly when it names the
      top, whoever sent it and whatever block above the top the node has already sent a
      commit for; answering changes nothing at the node. */
  lemma AnsweredIff(cfg: Config, s: Node, p: PrepareMsg, c: CommitMsg)
    requires NodeInv(s) && FreshCommittable(s) && p.height == Ht(p.block) && c.height == Ht(c.block)
    ensures s.Keyed() && HandlePrepare(cfg, s, p).Done? && HandleCommit(cfg, s, c).Done?
    ensures CommittedInLowerTerm(PrepareM(p)) in HandlePrepare(cfg, s, p).events
            <==> NamesTop(s, p.term, p.height, p.block)
    ensures CommittedInLowerTerm(CommitM(c)) in HandleCommit(cfg, s, c).events
            <==> NamesTop(s, c.term, c.height, c.block)
    ensures NamesTop(s, p.term, p.height, p.block) ==> HandlePrepare(cfg, s, p).node == s
    ensures NamesTop(s, c.term, c.height, c.block) ==> HandleCommit(cfg, s, c).node == s
  {
    hide NodeInv, Config.QuorumN, Node.Keyed, CacheAppend, Progress, CommitBlockWithCheck, FreshCommittable;
    HandlePrepareKeeps(cfg, s, p);
    HandleCommitKeeps(cfg, s, c);
    StoreIsKeyed(s);
    TopHeight(s);
    if c.term == s.term && c.height == |s.chain| { CommitNotAnswered(cfg, s, c); }
  }

  lemma TopHeight(s: Node)
    requires NodeInv(s)
    ensures s.chain != [] && s.Top().init.height == |s.chain| - 1
  {
  }

  lemma CommitNotAnswered(cfg: Config, s: Node, c: CommitMsg)
    requires NodeInv(s) && s.Keyed() && c.term == s.term && c.height == |s.chain| && HandleCommit(cfg, s, c).Done?
    ensures CommittedInLowerTerm(CommitM(c)) !in HandleCommit(cfg, s, c).events
  {
    hide NodeInv, Config.QuorumN, CacheAppend, Node.Keyed, RaiseVotie, JustCommitIt;
  }

  // ----------------------------------------------------------------- accuses

  /** Whether a weak accuse makes the recorded ones enough, the expired ones not counted. */
  predicate Raises(cfg: Config, s: Node, msg: WeakAccuse, expired: set<NodeId>) {
    && msg.term == s.term && msg.nodeId !in s.weak && |s.weak| < cfg.AccuseQuorumN()
    && |s.weak.Keys - expired| + 1 >= cfg.AccuseQuorumN()
  }

  /** A strong accuse is raised exactly when enough distinct nodes' accuses of the present
      term are on record and none of them has expired; it names just those nodes. */
  lemma StrongAccuseIff(cfg: Config, s: Node, msg: WeakAccuse, expired: set<NodeId>)
    ensures var o := HandleWeak(cfg, s, msg, expired);
            && o.Done?
            && (if Raises(cfg, s, msg, expired)
                then o.events == [NewStrongAccuse(StrongAccuse(s.term, o.node.weak.Keys))]
                     && |o.node.weak.Keys| >= cfg.AccuseQuorumN()
                else forall e :: e in o.events ==> e.NeedSyncUp?)
  {
    hide Config.AccuseQuorumN;
    RecordedAccuses(s.weak, expired, msg);
  }

  lemma RecordedAccuses(weak: map<NodeId, WeakAccuse>, expired: set<NodeId>, msg: WeakAccuse)
    ensures var weak' := (weak - expired)[msg.nodeId := msg];
            && |weak'.Keys| == |weak'|
            && (msg.nodeId !in weak ==> |weak'| == |weak.Keys - expired| + 1)
  {
    var kept := weak - expired;
    assert kept.Keys == weak.Keys - expired;
    OneMore(kept, msg.nodeId, msg);
  }
}
