/** What a node does about a message besides taking it up: when it accuses, asks for a
    sync-up or enters a term, which certificates and accuses it records, and what it drops. */
module NodeReplies {
  import opened Protocol
  import opened NodeSpec
  import opened NodeInvariant
  import opened NodeEvents

  // ------------------------------------------------------------------- inits

  /** The init is of the node's term, or brings the votes to enter its own. */
  predicate Heeded(cfg: Config, s: Node, init: InitMsg) {
    || init.term == s.term
    || (init.term > s.term && init.height <= |s.chain| && |init.votes| >= cfg.QuorumN())
  }

  /** Leave to propose in a term above the top's. */
  predicate Elected(cfg: Config, top: Pack, init: InitMsg, m: Option<Votie>) {
    && |init.votes| >= cfg.QuorumN() && m.Some?
    && (RankLess(m.value.term, m.value.height, top.init.term, top.init.height)
        || m.value.block == top.init.block || m.value.block == init.block)
  }

  /** The proposal breaks a rule: it is sound but its proposer has no leave to make it, or it
      is not sound, unless what is wrong may only be transactions yet to arrive. */
  predicate Culpable(cfg: Config, s: Node, init: InitMsg, txs: Verdict, ok: bool, m: Option<Votie>)
    requires s.chain != []
  {
    if Extends(Pack(init, map[], map[]), s.chain) && txs.Valid? && ok
    then init.term > s.Top().init.term && !Elected(cfg, s.Top(), init, m)
    else !txs.NotExist?
  }

  /** The init makes the node enter its term. */
  predicate Enters(cfg: Config, s: Node, init: InitMsg) {
    init.term > s.term && init.height <= |s.chain| && |init.votes| >= cfg.QuorumN()
  }

  lemma StoreFacts(s: Node)
    requires NodeInv(s)
    ensures s.chain != [] && s.Keyed() && Linked(s.chain) && s.Top().init.height == |s.chain| - 1
    ensures forall p :: s.IsConnectingTop(p) <==> Extends(p, s.chain)
    ensures forall p :: Extends(p, s.chain) ==> !s.IsCommitted(p.init.block)
  {
    InvIsKeyed(s);
    forall p | Extends(p, s.chain) ensures !s.IsCommitted(p.init.block) {
      ExtendsFixesHeight(s.chain, p);
      NextHeightUncommitted(s.chain, s.index, p.init.block);
    }
  }

  /** The one event, if any, that the handler raises in the init's own term, in a node that
      may just have entered it, and what that leaves. */
  lemma InTermReply(cfg: Config, s: Node, init: InitMsg, txs: Verdict, ok: bool, m: Option<Votie>,
                    before: seq<Event>) returns (rest: seq<Event>)
    requires NodeInv(s) && init.term == s.term
    ensures s.chain != [] && s.Keyed()
    ensures var o := InitInTerm(cfg, s, init, txs, ok, m, before);
            && o.Done? && o.events == before + rest && |rest| <= 1
            && (rest == [NeedSyncUp(init.nodeId)] <==> init.height > |s.chain|)
            && (rest == [NewWeakAccuse(init.term)] <==>
                  init.height == |s.chain| && Culpable(cfg, s, init, txs, ok, m))
            && (forall e :: rest == [e] ==>
                  e == NeedSyncUp(init.nodeId) || e == NewWeakAccuse(init.term) || e.NewInited?
                  || e.CommittedInLowerTerm?)
            && (if rest != [] && rest[0].NewInited?
                then o.node.freshPack == Some(rest[0].pack) && rest[0].pack.init == init
                     && o.node.(freshPack := s.freshPack, prepareCache := s.prepareCache,
                                commitCache := s.commitCache) == s
                else o.node == s)
  {
    StoreFacts(s);
    hide NodeInv, Linked, Config.QuorumN, MergedFresh, CacheDrop, Extends, Node.IsConnectingTop, Node.IsCommitted,
         Node.Keyed;
    var o := InitInTerm(cfg, s, init, txs, ok, m, before);
    rest := o.events[|before|..];
  }

  lemma InitReply(cfg: Config, s: Node, init: InitMsg, txs: Verdict, ok: bool, m: Option<Votie>)
    returns (t: Node, rest: seq<Event>)
    requires NodeInv(s)
    ensures s.chain != [] && s.Keyed() && HandleInit(cfg, s, init, txs, ok, m).Done?
    ensures t == if Enters(cfg, s, init) then EnterTerm(s, init.term) else s
    ensures var o := HandleInit(cfg, s, init, txs, ok, m);
            && o.events == (if Enters(cfg, s, init) then [NewTerm(init.term)] else []) + rest && |rest| <= 1
            && (rest == [NeedSyncUp(init.nodeId)] <==> init.term >= s.term && init.height > |s.chain|)
            && (rest == [NewWeakAccuse(init.term)] <==>
                  Heeded(cfg, s, init) && init.height == |s.chain| && Culpable(cfg, s, init, txs, ok, m))
            && (forall e :: rest == [e] ==>
                  e == NeedSyncUp(init.nodeId) || e == NewWeakAccuse(init.term) || e.NewInited?
                  || e.CommittedInLowerTerm?)
            && (if rest != [] && rest[0].NewInited?
                then o.node.freshPack == Some(rest[0].pack) && rest[0].pack.init == init
                     && o.node.(freshPack := t.freshPack, prepareCache := t.prepareCache,
                                commitCache := t.commitCache) == t
                else o.node == t)
  {
    hide NodeInv, InitInTerm, Culpable, Node.Keyed, Config.QuorumN;
    StoreFacts(s);
    t := if Enters(cfg, s, init) then EnterTerm(s, init.term) else s;
    if Enters(cfg, s, init) {
      EnterTermKeeps(s, init.term);
      SameCulpable(cfg, s, init, txs, ok, m);
      rest := InTermReply(cfg, t, init, txs, ok, m, [NewTerm(init.term)]);
    } else if init.term == s.term {
      rest := InTermReply(cfg, s, init, txs, ok, m, []);
      assert [] + rest == rest;
    } else {
      rest := HandleInit(cfg, s, init, txs, ok, m).events;
      assert [] + rest == rest;
    }
  }

  lemma SameCulpable(cfg: Config, s: Node, init: InitMsg, txs: Verdict, ok: bool, m: Option<Votie>)
    requires s.chain != []
    ensures Culpable(cfg, EnterTerm(s, init.term), init, txs, ok, m) <==> Culpable(cfg, s, init, txs, ok, m)
  {
  }

  /** An init at the next height is answered with a weak accuse of its term exactly when it
      is heeded and culpable; a proposer whose transactions are merely missing is not accused. */
  lemma InitAccusedIff(cfg: Config, s: Node, init: InitMsg, txs: Verdict, ok: bool, m: Option<Votie>, t: nat)
    requires NodeInv(s)
    ensures s.chain != [] && s.Keyed() && HandleInit(cfg, s, init, txs, ok, m).Done?
    ensures NewWeakAccuse(t) in HandleInit(cfg, s, init, txs, ok, m).events
            <==> t == init.term && Heeded(cfg, s, init) && init.height == |s.chain|
                 && Culpable(cfg, s, init, txs, ok, m)
  {
    hide NodeInv, HandleInit, EnterTerm, Culpable, Enters, Heeded, Node.Keyed;
    var _, rest := InitReply(cfg, s, init, txs, ok, m);
    OneEvent(rest);
  }

  /** A sync-up is asked of the proposer exactly when the init is of the node's term or a
      later one and too high for the chain, whatever votes it brings. */
  lemma InitNeedsSyncIff(cfg: Config, s: Node, init: InitMsg, txs: Verdict, ok: bool, m: Option<Votie>, p: NodeId)
    requires NodeInv(s)
    ensures s.Keyed() && HandleInit(cfg, s, init, txs, ok, m).Done?
    ensures NeedSyncUp(p) in HandleInit(cfg, s, init, txs, ok, m).events
            <==> p == init.nodeId && init.term >= s.term && init.height > |s.chain|
  {
    hide NodeInv, HandleInit, EnterTerm, Culpable, Enters, Heeded, Node.Keyed;
    var _, rest := InitReply(cfg, s, init, txs, ok, m);
    OneEvent(rest);
  }

  /** The node enters the init's term exactly when that is later, the init is not too high
      and brings a quorum of votes; it then forgets the accuses of the old term. Chain,
      index and votie stay, and so does everything else if it does not. */
  lemma InitEntersIff(cfg: Config, s: Node, init: InitMsg, txs: Verdict, ok: bool, m: Option<Votie>, t: nat)
    requires NodeInv(s)
    ensures s.Keyed() && HandleInit(cfg, s, init, txs, ok, m).Done?
    ensures var o := HandleInit(cfg, s, init, txs, ok, m);
            var enters := init.term > s.term && init.height <= |s.chain| && |init.votes| >= cfg.QuorumN();
            && (NewTerm(t) in o.events <==> enters && t == init.term)
            && o.node.chain == s.chain && o.node.index == s.index && o.node.votie == s.votie
            && (enters ==> o.node.term == init.term && o.node.weak == map[] && o.node.lastAccuse.None?)
            && (!enters ==> o.node.term == s.term && o.node.weak == s.weak && o.node.lastAccuse == s.lastAccuse)
  {
    hide NodeInv, HandleInit, Culpable, Heeded, Node.Keyed, Config.QuorumN;
    var u, rest := InitReply(cfg, s, init, txs, ok, m);
    OneEvent(rest);
  }

  /** What is pending afterwards: the init named by NewInitedEvent or, without one, what was
      pending before in the same term. */
  lemma InitPending(cfg: Config, s: Node, init: InitMsg, txs: Verdict, ok: bool, m: Option<Votie>)
    requires NodeInv(s)
    ensures s.Keyed() && HandleInit(cfg, s, init, txs, ok, m).Done?
    ensures var o := HandleInit(cfg, s, init, txs, ok, m);
            && (forall p :: NewInited(p) in o.events ==> o.node.freshPack == Some(p) && p.init == init)
            && ((forall p :: NewInited(p) !in o.events) ==>
                  o.node.freshPack == if o.node.term == s.term then s.freshPack else None)
  {
    hide NodeInv, HandleInit, Culpable, Heeded, Node.Keyed, Config.QuorumN;
    var u, rest := InitReply(cfg, s, init, txs, ok, m);
    OneEvent(rest);
    if rest != [] { assert rest[0] in HandleInit(cfg, s, init, txs, ok, m).events; }
  }

  lemma OneEvent(rest: seq<Event>)
    requires |rest| <= 1
    ensures forall e :: e in rest <==> rest == [e]
    ensures rest != [] ==> rest == [rest[0]]
  {
  }
  // --------------------------------------------------- prepares and commits

  /** A sync-up is asked of the sender exactly when the message is of a later term, or of
      the node's term and too high for its chain. */
  predicate Ahead(s: Node, term: nat, height: nat) {
    term > s.term || (term == s.term && height > |s.chain|)
  }

  lemma PrepareNeedsSyncIff(cfg: Config, s: Node, msg: PrepareMsg, p: NodeId)
    requires NodeInv(s)
    ensures s.Keyed() && HandlePrepare(cfg, s, msg).Done?
    ensures NeedSyncUp(p) in HandlePrepare(cfg, s, msg).events
            <==> p == msg.nodeId && Ahead(s, msg.term, msg.height)
  {
    hide NodeInv, Config.QuorumN, RaiseVotie, CacheAppend, Linked;
    StoreFacts(s);
  }

  lemma CommitNeedsSyncIff(cfg: Config, s: Node, msg: CommitMsg, p: NodeId)
    requires NodeInv(s) && FreshCommittable(s) && msg.height == Ht(msg.block)
    ensures s.Keyed() && HandleCommit(cfg, s, msg).Done?
    ensures NeedSyncUp(p) in HandleCommit(cfg, s, msg).events
            <==> p == msg.nodeId && Ahead(s, msg.term, msg.height)
  {
    hide NodeInv, FreshCommittable, Config.QuorumN, RaiseVotie, CacheAppend, Linked, CommitBlockWithCheck, Progress;
    StoreFacts(s);
    HandleCommitKeeps(cfg, s, msg);
    if msg.term == s.term && msg.height == |s.chain| { CommittingAsks(cfg, s, msg, p); }
  }

  lemma CommittingAsks(cfg: Config, s: Node, msg: CommitMsg, p: NodeId)
    requires s.Keyed() && msg.term == s.term && msg.height == s.Height() + 1 && HandleCommit(cfg, s, msg).Done?
    ensures NeedSyncUp(p) !in HandleCommit(cfg, s, msg).events
  {
    hide Config.QuorumN, RaiseVotie, CacheAppend, JustCommitIt, Node.Keyed;
  }

  /** A prepare joins the pending block exactly when it is of the node's term and next
      height, names that block, is the first of its sender, and at most QuorumN are held.
      Nothing else stored changes but the votie, which becomes the block's when that now
      has enough prepares and ranks higher. */
  lemma PrepareJoinsIff(cfg: Config, s: Node, msg: PrepareMsg)
    requires NodeInv(s)
    ensures s.Keyed() && HandlePrepare(cfg, s, msg).Done?
    ensures var t := HandlePrepare(cfg, s, msg).node;
            var joins := msg.term == s.term && msg.height == |s.chain| && s.freshPack.Some?
                         && msg.block == s.freshPack.value.init.block && msg.nodeId !in s.freshPack.value.prepares
                         && |s.freshPack.value.prepares| <= cfg.QuorumN();
            && t.(freshPack := s.freshPack, votie := s.votie, prepareCache := s.prepareCache) == s
            && (s.freshPack.Some? ==> t.prepareCache == s.prepareCache)
            && (if !joins then t.freshPack == s.freshPack && t.votie == s.votie
                else
                  var grown := s.freshPack.value.(prepares := s.freshPack.value.prepares[msg.nodeId := msg]);
                  && t.freshPack == Some(grown)
                  && t.votie == if |grown.prepares| >= cfg.QuorumN()
                                   && RankLess(s.votie.term, s.votie.height, grown.init.term, grown.init.height)
                                then grown.ToVotie() else s.votie)
  {
    hide NodeInv, Config.QuorumN, CacheAppend, Linked;
    StoreFacts(s);
  }

  /** A commit joins the pending block exactly when it is of the node's term and next height,
      names that block and is the first of its sender; short of a quorum nothing else
      stored changes. What happens with a quorum is NodeEvents.CommitIff. */
  lemma CommitJoinsIff(cfg: Config, s: Node, msg: CommitMsg)
    requires NodeInv(s) && s.freshPack.Some?
    requires |s.freshPack.value.commits| + 1 < cfg.QuorumN()
    ensures s.Keyed() && HandleCommit(cfg, s, msg).Done?
    ensures var o := HandleCommit(cfg, s, msg);
            var was := s.freshPack.value;
            var joins := msg.term == s.term && msg.height == |s.chain| && msg.block == was.init.block
                         && msg.nodeId !in was.commits;
            o.node == if joins then s.(freshPack := Some(was.(commits := was.commits[msg.nodeId := msg]))) else s
  {
    hide NodeInv, Config.QuorumN, CacheAppend, Linked, CommitBlockWithCheck;
    StoreFacts(s);
    OneMore(s.freshPack.value.commits, msg.nodeId, msg);
  }

  /** commitBlockWithCheck on any pack: which of the three checks it fails first, and what
      committing it leaves. */
  lemma CheckedCommitIff(cfg: Config, s: Node, p: Pack)
    requires NodeInv(s) && cfg.Valid() && Committable(p.init.block)
    ensures s.Keyed()
    ensures var r := CommitBlockWithCheck(cfg, s, p);
            var fails := p.init.block in s.index || |p.commits| < cfg.QuorumN() || !Extends(p, s.chain);
            && (r == Refused(Duplicated) <==> p.init.block in s.index)
            && (r == Refused(NotEnoughCommits) <==> p.init.block !in s.index && |p.commits| < cfg.QuorumN())
            && (r == Refused(NotConnecting) <==>
                  p.init.block !in s.index && |p.commits| >= cfg.QuorumN() && !Extends(p, s.chain))
            && (r.Committed? <==> !fails)
            && (r.Committed? ==>
                  var top := p.(prepares := map[]);
                  var raised := p.init.term > s.term;
                  && r.node.chain == s.chain + [top] && r.node.index == s.index[p.init.block := |s.chain|]
                  && r.node.freshPack.None?
                  && r.node.term == (if raised then p.init.term else s.term)
                  && r.node.weak == (if raised then map[] else s.weak)
                  && r.node.lastAccuse == (if raised then None else s.lastAccuse)
                  && r.node.votie == (if RankLess(s.votie.term, s.votie.height, p.init.term, p.init.height)
                                      then top.ToVotie() else s.votie)
                  && r.node.prepareCache == s.prepareCache && r.node.commitCache == s.commitCache
                  && r.events == (if raised then [NewTerm(p.init.term)] else []) + [NewCommitted(top)])
  {
    hide NodeInv, Config.QuorumN, Linked, Node.Keyed;
    StoreFacts(s);
    ExtendsFixesHeight(s.chain, p);
  }

  // ----------------------------------------------------------------- accuses

  /** A weak accuse is recorded exactly when it is of the node's term, the first on record of
      its sender, and fewer than AccuseQuorumN are recorded; the expired ones then go. */
  lemma AccuseRecordedIff(cfg: Config, s: Node, msg: WeakAccuse, expired: set<NodeId>)
    ensures var o := HandleWeak(cfg, s, msg, expired);
            && o.Done? && o.node.(weak := s.weak) == s
            && (NeedSyncUp(msg.nodeId) in o.events <==> msg.term > s.term)
            && if msg.term == s.term && msg.nodeId !in s.weak && |s.weak| < cfg.AccuseQuorumN()
               then (forall i :: i in o.node.weak <==> i == msg.nodeId || (i in s.weak && i !in expired))
                    && o.node.weak[msg.nodeId] == msg
                    && (forall i :: i in o.node.weak && i != msg.nodeId ==> o.node.weak[i] == s.weak[i])
               else o.node.weak == s.weak
  {
    hide Config.AccuseQuorumN;
  }

  /** A strong accuse of the node's term or a later one is followed into the next term: what
      is pending, the weak accuses and the messages kept for the accused term go, the
      accuse is kept and both events are raised. An older one does nothing. */
  lemma StrongAccuseFollowedIff(s: Node, msg: StrongAccuse)
    ensures var o := HandleStrong(s, msg);
            && o.Done?
            && (if msg.term < s.term then o.node == s && o.events == []
                else
                  && o.node.term == msg.term + 1 && o.node.freshPack.None? && o.node.weak == map[]
                  && o.node.lastAccuse == Some(msg)
                  && o.events == [NewTerm(msg.term + 1), StrongAccuseProcessed(msg)]
                  && o.node.chain == s.chain && o.node.index == s.index && o.node.votie == s.votie
                  && (forall t, h :: Cached(o.node.prepareCache, t, h)
                                     == if t == msg.term then [] else Cached(s.prepareCache, t, h))
                  && (forall t, h :: Cached(o.node.commitCache, t, h)
                                     == if t == msg.term then [] else Cached(s.commitCache, t, h)))
  {
  }
}
