/** In every reachable cluster the certificates nodes hold and send are sound: what a node
    broadcasts passes the checks its receivers make, and any node can sync from any other. */
module BraftCertificates {
  import opened ClusterParams
  import opened Protocol
  import opened MsgValidation
  import opened NodeSpec
  import opened LeaderSpec
  import opened MessageLog
  import opened NodeInvariant
  import opened Braft
  import opened BraftSteps
  import opened BraftLeaderSteps
  import opened BraftSafety
  import opened SyncDaemons

  // ---------------------------------------------------------------- invariant

  /** Every block above genesis has a sound proposal and a certificate. */
  predicate ValidPack(cfg: Config, p: Pack) {
    p.init.height == 0 || (ValidInit(cfg, p.init) && CertifiedPack(cfg, p))
  }

  ghost predicate ValidMsg(cfg: Config, m: Msg) {
    match m
    case InitM(x) => ValidInit(cfg, x)
    case PrepareM(p) => KnownNode(cfg, p.nodeId)
    case VoteM(v) => KnownNode(cfg, v.nodeId) && ValidVotie(cfg, v.votie)
    case PackM(p) => ValidPack(cfg, p)
    case _ => true
  }

  ghost predicate ValidLog(cfg: Config, log: seq<Msg>) {
    forall m :: m in log ==> ValidMsg(cfg, m)
  }

  ghost predicate PreparesSent(log: seq<Msg>, cache: Cache<PrepareMsg>) {
    forall t, h, k :: 0 <= k < |Cached(cache, t, h)| ==> PrepareM(Cached(cache, t, h)[k]) in log
  }

  ghost predicate FreshSent(log: seq<Msg>, freshPack: Option<Pack>) {
    freshPack.Some? ==> forall i :: i in freshPack.value.prepares ==> PrepareM(freshPack.value.prepares[i]) in log
  }

  ghost predicate ValidStore(cfg: Config, log: seq<Msg>, s: Node) {
    && (forall h :: 0 <= h < |s.chain| ==> ValidPack(cfg, s.chain[h]))
    && PreparesSent(log, s.prepareCache) && FreshSent(log, s.freshPack)
    && ValidVotie(cfg, s.votie)
  }

  ghost predicate ValidLeader(cfg: Config, ld: Leader) {
    && (forall j :: j in ld.votes ==> ValidVote(cfg, ld.votes[j]))
    && (forall t, j :: t in ld.pool && j in ld.pool[t] ==> ValidVote(cfg, ld.pool[t][j]))
  }

  ghost predicate ValidReplica(cfg: Config, log: seq<Msg>, r: Replica) {
    && ValidStore(cfg, log, r.node) && ValidLeader(cfg, r.leader)
    && forall x :: x in r.pending ==> ValidInit(cfg, x)
  }

  ghost predicate ValidCluster(cfg: Config, c: Cluster) {
    ValidLog(cfg, c.log) && forall i :: 0 <= i < |c.reps| ==> ValidReplica(cfg, c.log, c.reps[i])
  }

  lemma StoreGrows(cfg: Config, log: seq<Msg>, sent: seq<Msg>, s: Node)
    requires ValidStore(cfg, log, s)
    ensures ValidStore(cfg, log + sent, s)
  {
    hide ValidPack, ValidVotie;
  }

  // ------------------------------------------------------- certificates match

  lemma PrepareNamed(cfg: Config, log: seq<Msg>, m: PrepareMsg, p: Point)
    requires LogOk(cfg, log) && ValidLog(cfg, log) && PrepareM(m) in log && HasInit(log, p)
    requires m.term == p.term && m.height == p.height
    ensures m.block == p.block && KnownNode(cfg, m.nodeId)
  {
    hide LogOk, HasInit;
    PrepareHasInit(cfg, log, m);
    InitsUnique(cfg, log, PreparePoint(m), p);
    assert ValidMsg(cfg, PrepareM(m));
  }

  lemma CommitNamed(cfg: Config, log: seq<Msg>, m: CommitMsg, p: Point)
    requires LogOk(cfg, log) && CommitM(m) in log && HasInit(log, p)
    requires m.term == p.term && m.height == p.height
    ensures m.block == p.block && KnownNode(cfg, m.nodeId)
  {
    hide LogOk, HasInit;
    CommitMsgHasInit(cfg, log, m);
    InitsUnique(cfg, log, CommitPoint(m), p);
  }

  lemma InitIsValid(cfg: Config, log: seq<Msg>, x: InitMsg)
    requires ValidLog(cfg, log) && InitM(x) in log
    ensures ValidInit(cfg, x)
  {
    assert ValidMsg(cfg, InitM(x));
  }

  lemma FreshPrepareNamed(cfg: Config, log: seq<Msg>, i: NodeId, r: Replica, j: NodeId)
    requires cfg.Valid() && LogOk(cfg, log) && RepInv(cfg, log, i, r) && r.node.freshPack.Some?
    requires ValidLog(cfg, log) && FreshSent(log, r.node.freshPack) && j in r.node.freshPack.value.prepares
    ensures var p := r.node.freshPack.value;
            KnownNode(cfg, j) && p.prepares[j] == PrepareMsg(p.init.term, p.init.height, p.init.block, j)
  {
    FreshCerts(cfg, log, i, r);
    hide RepInv, LogOk, ValidLog, HasInit;
    PrepareNamed(cfg, log, r.node.freshPack.value.prepares[j], PackPoint(r.node.freshPack.value));
  }

  lemma FreshCommitNamed(cfg: Config, log: seq<Msg>, i: NodeId, r: Replica, j: NodeId)
    requires cfg.Valid() && LogOk(cfg, log) && RepInv(cfg, log, i, r) && r.node.freshPack.Some?
    requires j in r.node.freshPack.value.commits
    ensures var p := r.node.freshPack.value;
            KnownNode(cfg, j) && p.commits[j] == CommitMsg(p.init.term, p.init.height, p.init.block, j)
  {
    FreshCerts(cfg, log, i, r);
    hide RepInv, LogOk, HasInit;
    CommitNamed(cfg, log, r.node.freshPack.value.commits[j], PackPoint(r.node.freshPack.value));
  }

  lemma FreshCertsNamed(cfg: Config, log: seq<Msg>, i: NodeId, r: Replica)
    requires cfg.Valid() && LogOk(cfg, log) && RepInv(cfg, log, i, r) && r.node.freshPack.Some?
    requires ValidLog(cfg, log) && FreshSent(log, r.node.freshPack)
    ensures var p := r.node.freshPack.value;
            && PreparesName(cfg, p.init.term, p.init.height, p.init.block, p.prepares)
            && CommitsName(cfg, p.init.term, p.init.height, p.init.block, p.commits)
  {
    hide RepInv, LogOk, ValidLog, FreshSent, KnownNode, Config.Valid;
    var p := r.node.freshPack.value;
    forall j | j in p.prepares
      ensures KnownNode(cfg, j) && p.prepares[j] == PrepareMsg(p.init.term, p.init.height, p.init.block, j)
    {
      FreshPrepareNamed(cfg, log, i, r, j);
    }
    forall j | j in p.commits
      ensures KnownNode(cfg, j) && p.commits[j] == CommitMsg(p.init.term, p.init.height, p.init.block, j)
    {
      FreshCommitNamed(cfg, log, i, r, j);
    }
  }

  /** The prepares and commits of a pending block all name it, although they were merged
      on term and height alone: one block is proposed at a term and height. */
  lemma FreshNamed(cfg: Config, log: seq<Msg>, i: NodeId, r: Replica)
    requires cfg.Valid() && LogOk(cfg, log) && RepInv(cfg, log, i, r) && r.node.freshPack.Some?
    requires ValidLog(cfg, log) && FreshSent(log, r.node.freshPack)
    ensures var p := r.node.freshPack.value;
            && PreparesName(cfg, p.init.term, p.init.height, p.init.block, p.prepares)
            && CommitsName(cfg, p.init.term, p.init.height, p.init.block, p.commits)
            && ValidInit(cfg, p.init) && p.init.height >= 1
  {
    hide RepInv, LogOk, ValidLog, ValidInit, HasInit, FreshSent, PreparesName, CommitsName, Tracked;
    FreshCertsNamed(cfg, log, i, r);
    FreshIsSent(cfg, log, i, r);
    FreshHasInit(cfg, log, i, r);
    InitIsValid(cfg, log, r.node.freshPack.value.init);
    InitsHaveHeight(cfg, log, PackPoint(r.node.freshPack.value));
  }

  lemma FreshCerts(cfg: Config, log: seq<Msg>, i: NodeId, r: Replica)
    requires cfg.Valid() && LogOk(cfg, log) && RepInv(cfg, log, i, r) && r.node.freshPack.Some?
    ensures var p := r.node.freshPack.value;
            && CertsCarry(p) && InitM(p.init) in log && HasInit(log, PackPoint(p))
            && (forall j :: j in p.commits ==> CommitM(p.commits[j]) in log)
  {
    FreshHasInit(cfg, log, i, r);
  }

  lemma ValidRaised(cfg: Config, s: Node, p: Pack)
    requires ValidVotie(cfg, s.votie)
    requires PreparesName(cfg, p.init.term, p.init.height, p.init.block, p.prepares)
    requires CommitsName(cfg, p.init.term, p.init.height, p.init.block, p.commits)
    requires p.init.height >= 1 && Prepared(cfg, p)
    ensures ValidVotie(cfg, RaiseVotie(s, p).votie)
  {
  }

  // ------------------------------------------------------------------ handlers

  lemma InTermValid(cfg: Config, log: seq<Msg>, s: Node, x: InitMsg, txs: Verdict, ok: bool, m: Option<Votie>,
                    before: seq<Event>)
    requires s.Keyed() && ValidStore(cfg, log, s)
    ensures var o := InitInTerm(cfg, s, x, txs, ok, m, before);
            o.Done? ==> ValidStore(cfg, log, o.node)
  {
    hide ValidPack, ValidVotie, Node.Keyed, SupportedBy, Config.QuorumN, CacheDrop;
    DroppedCache(s.prepareCache, x.term, x.height);
    PreparesOfFrom(Cached(s.prepareCache, x.term, x.height));
  }

  lemma InitValid(cfg: Config, log: seq<Msg>, s: Node, x: InitMsg, txs: Verdict, ok: bool, m: Option<Votie>)
    requires s.Keyed() && ValidStore(cfg, log, s) && HandleInit(cfg, s, x, txs, ok, m).Done?
    ensures ValidStore(cfg, log, HandleInit(cfg, s, x, txs, ok, m).node)
  {
    hide ValidPack, ValidVotie, InitInTerm, Config.QuorumN;
    if x.term > s.term {
      InTermValid(cfg, log, EnterTerm(s, x.term), x, txs, ok, m, [NewTerm(x.term)]);
    } else {
      InTermValid(cfg, log, s, x, txs, ok, m, []);
    }
  }

  lemma WrongHeightSame(s: Node, term: nat, height: nat, b: Block, from: NodeId, msg: Msg)
    requires s.Keyed()
    ensures var o := WrongHeight(s, term, height, b, from, msg, []); o.Done? ==> o.node == s
  {
  }

  lemma CachedPrepareValid(cfg: Config, log: seq<Msg>, s: Node, x: PrepareMsg)
    requires ValidStore(cfg, log, s) && PrepareM(x) in log
    ensures ValidStore(cfg, log, s.(prepareCache := CacheAppend(s.prepareCache, x.term, x.height, x)))
  {
    hide ValidPack, ValidVotie, CacheAppend;
    AppendedCache(s.prepareCache, x.term, x.height, x);
  }

  /** The pending block grown by a prepare, and the votie raised to it. */
  lemma GrownPrepareValid(cfg: Config, log: seq<Msg>, i: NodeId, r: Replica, x: PrepareMsg)
    requires cfg.Valid() && LogOk(cfg, log) && RepInv(cfg, log, i, r) && ValidLog(cfg, log)
    requires ValidStore(cfg, log, r.node) && PrepareM(x) in log && r.node.freshPack.Some?
    requires x.term == r.node.term && x.block == r.node.freshPack.value.init.block
    ensures var grown := r.node.freshPack.value.(prepares := r.node.freshPack.value.prepares[x.nodeId := x]);
            var s1 := r.node.(freshPack := Some(grown));
            ValidStore(cfg, log, s1)
            && (|grown.prepares| >= cfg.QuorumN() ==> ValidStore(cfg, log, RaiseVotie(s1, grown)))
  {
    var was := r.node.freshPack.value;
    var grown := was.(prepares := was.prepares[x.nodeId := x]);
    var s1 := r.node.(freshPack := Some(grown));
    hide RepInv, LogOk, ValidLog, ValidVotie, ValidInit, ValidStore, PreparesName, CommitsName, Config.QuorumN,
         HasInit;
    PrepareHasInit(cfg, log, x);
    FreshFixesHeight(cfg, log, i, r);
    FreshHasInit(cfg, log, i, r);
    FreshOf(cfg, log, r.node);
    FreshNamed(cfg, log, i, r);
    PrepareNamed(cfg, log, x, PackPoint(was));
    NamedGrows(cfg, was, x);
    GrownStore(cfg, log, r.node, x);
    if |grown.prepares| >= cfg.QuorumN() {
      StoredVotie(cfg, log, s1);
      ValidRaised(cfg, s1, grown);
      RaisedStore(cfg, log, s1, grown);
    }
  }

  lemma NamedGrows(cfg: Config, p: Pack, x: PrepareMsg)
    requires PreparesName(cfg, p.init.term, p.init.height, p.init.block, p.prepares)
    requires x == PrepareMsg(p.init.term, p.init.height, p.init.block, x.nodeId) && KnownNode(cfg, x.nodeId)
    ensures PreparesName(cfg, p.init.term, p.init.height, p.init.block, p.prepares[x.nodeId := x])
  {
  }

  lemma GrownStore(cfg: Config, log: seq<Msg>, s: Node, x: PrepareMsg)
    requires ValidStore(cfg, log, s) && s.freshPack.Some? && PrepareM(x) in log
    ensures ValidStore(cfg, log, s.(freshPack := Some(
                         s.freshPack.value.(prepares := s.freshPack.value.prepares[x.nodeId := x]))))
  {
    hide ValidPack, ValidVotie, PreparesSent;
  }

  lemma StoredVotie(cfg: Config, log: seq<Msg>, s: Node)
    requires ValidStore(cfg, log, s)
    ensures ValidVotie(cfg, s.votie)
  {
    hide ValidPack, ValidVotie, PreparesSent;
  }

  lemma RaisedStore(cfg: Config, log: seq<Msg>, s: Node, p: Pack)
    requires ValidStore(cfg, log, s) && ValidVotie(cfg, RaiseVotie(s, p).votie)
    ensures ValidStore(cfg, log, RaiseVotie(s, p))
  {
    hide ValidPack, ValidVotie, PreparesSent;
  }

  lemma PrepareValid(cfg: Config, log: seq<Msg>, i: NodeId, r: Replica, x: PrepareMsg)
    requires cfg.Valid() && LogOk(cfg, log) && RepInv(cfg, log, i, r) && ValidLog(cfg, log) && r.node.Keyed()
    requires ValidStore(cfg, log, r.node) && PrepareM(x) in log && HandlePrepare(cfg, r.node, x).Done?
    ensures ValidStore(cfg, log, HandlePrepare(cfg, r.node, x).node)
  {
    hide RepInv, LogOk, ValidStore, ValidLog, RaiseVotie, CacheAppend, WrongHeight, Node.Keyed, Config.QuorumN;
    WrongHeightSame(r.node, x.term, x.height, x.block, x.nodeId, PrepareM(x));
    CachedPrepareValid(cfg, log, r.node, x);
    if r.node.freshPack.Some? && x.term == r.node.term && x.block == r.node.freshPack.value.init.block {
      GrownPrepareValid(cfg, log, i, r, x);
    }
  }

  lemma FinishedShape(cfg: Config, s: Node, p: Pack)
    requires s.Keyed() && CommitBlockWithCheck(cfg, s, p).Committed?
    ensures var t, top := CommitBlockWithCheck(cfg, s, p).node, p.(prepares := map[]);
            && t.chain == s.chain + [top] && t.freshPack.None? && t.prepareCache == s.prepareCache
            && t.votie == RaiseVotie(s, top).votie && Prepared(cfg, top)
  {
    hide Config.QuorumN, HasLessTermHeightThan, Committable;
  }

  lemma FinishedValid(cfg: Config, log: seq<Msg>, s: Node, p: Pack)
    requires s.Keyed() && ValidStore(cfg, log, s) && CommitBlockWithCheck(cfg, s, p).Committed?
    requires ValidInit(cfg, p.init) && p.init.height >= 1 && p.commits != map[]
    requires CommitsName(cfg, p.init.term, p.init.height, p.init.block, p.commits)
    ensures ValidStore(cfg, log, CommitBlockWithCheck(cfg, s, p).node)
  {
    hide ValidInit, CommitsName, ValidVotie, Config.QuorumN, CommitBlockWithCheck, Node.Keyed, PreparesSent,
         RaiseVotie;
    var top := p.(prepares := map[]);
    FinishedShape(cfg, s, p);
    NoPrepares(cfg, top);
    ValidRaised(cfg, s, top);
  }

  lemma NoPrepares(cfg: Config, p: Pack)
    requires p.prepares == map[]
    ensures PreparesName(cfg, p.init.term, p.init.height, p.init.block, p.prepares)
  {
  }

  lemma CommitValid(cfg: Config, log: seq<Msg>, i: NodeId, r: Replica, x: CommitMsg)
    requires cfg.Valid() && LogOk(cfg, log) && RepInv(cfg, log, i, r) && ValidLog(cfg, log) && r.node.Keyed()
    requires ValidStore(cfg, log, r.node) && CommitM(x) in log && HandleCommit(cfg, r.node, x).Done?
    ensures ValidStore(cfg, log, HandleCommit(cfg, r.node, x).node)
  {
    hide RepInv, LogOk, ValidStore, ValidLog, CommitBlockWithCheck, CacheAppend, WrongHeight, Node.Keyed,
         Config.QuorumN, CommitsName, ValidInit;
    WrongHeightSame(r.node, x.term, x.height, x.block, x.nodeId, CommitM(x));
    SameChecked(cfg, log, r.node, r.node.(commitCache := CacheAppend(r.node.commitCache, x.term, x.height, x)));
    if r.node.freshPack.Some? && x.term == r.node.term && x.block == r.node.freshPack.value.init.block {
      var grown := r.node.freshPack.value.(commits := r.node.freshPack.value.commits[x.nodeId := x]);
      var s1 := r.node.(freshPack := Some(grown));
      CommitMsgHasInit(cfg, log, x);
      FreshFixesHeight(cfg, log, i, r);
      GrownCommit(cfg, log, i, r, x);
      SameChecked(cfg, log, r.node, s1);
      FreshOf(cfg, log, s1);
      FreshNamed(cfg, log, i, r.(node := s1));
      KeyedSame(r.node, s1);
      assert x.nodeId in grown.commits;
      if CommitBlockWithCheck(cfg, s1, grown).Committed? { FinishedValid(cfg, log, s1, grown); }
    }
  }

  lemma FreshOf(cfg: Config, log: seq<Msg>, s: Node)
    requires ValidStore(cfg, log, s)
    ensures FreshSent(log, s.freshPack)
  {
    hide ValidPack, ValidVotie;
  }

  lemma KeyedSame(s: Node, s': Node)
    requires s.Keyed() && s'.chain == s.chain && s'.index == s.index
    ensures s'.Keyed()
  {
  }

  /** What the invariant looks at has not changed, or has been dropped. */
  lemma SameChecked(cfg: Config, log: seq<Msg>, s: Node, s': Node)
    requires ValidStore(cfg, log, s)
    requires s'.chain == s.chain && s'.votie == s.votie
    requires s'.prepareCache == s.prepareCache || s'.prepareCache == map[]
    requires s'.freshPack.Some? ==> s.freshPack.Some? && s'.freshPack.value.prepares == s.freshPack.value.prepares
    ensures ValidStore(cfg, log, s')
  {
    hide ValidPack, ValidVotie;
  }

  lemma StrongValid(cfg: Config, log: seq<Msg>, s: Node, x: StrongAccuse)
    requires ValidStore(cfg, log, s)
    ensures HandleStrong(s, x).Done? && ValidStore(cfg, log, HandleStrong(s, x).node)
  {
    hide ValidPack, ValidVotie;
    var s' := HandleStrong(s, x).node;
    if x.term >= s.term {
      assert forall t, h :: Cached(s'.prepareCache, t, h)
                            == if t == x.term then [] else Cached(s.prepareCache, t, h);
    }
  }

  lemma SyncValid(cfg: Config, log: seq<Msg>, s: Node, p: Pack, n: nat)
    requires s.Keyed() && ValidStore(cfg, log, s)
    ensures ValidStore(cfg, log, SyncBlock(cfg, s, p, n))
  {
    hide ValidInit, CertifiedPack, ValidVotie, Config.AccuseQuorumN;
    if CheckBlockPack(cfg, s, p, n) { assert ValidPack(cfg, p); }
  }

  // -------------------------------------------------------------- broadcasts

  /** Inits announced by the events are sound. */
  predicate InitsSound(cfg: Config, events: seq<Event>) {
    forall e :: e in events && e.NewInited? ==> ValidInit(cfg, e.pack.init)
  }

  ghost predicate SentSound(cfg: Config, sent: seq<Msg>) { forall m :: m in sent ==> ValidMsg(cfg, m) }

  lemma {:induction false} SendsSound(cfg: Config, i: NodeId, events: seq<Event>)
    requires KnownNode(cfg, i) && InitsSound(cfg, events)
    ensures SentSound(cfg, SendsAll(i, events))
  {
    hide ValidInit, ValidVotie, ValidPack;
    if events != [] {
      SendsSound(cfg, i, events[..|events| - 1]);
      assert events[|events| - 1] in events;
    }
  }

  lemma InTermAnnounces(cfg: Config, s: Node, x: InitMsg, txs: Verdict, ok: bool, m: Option<Votie>, before: seq<Event>)
    requires s.Keyed() && ValidInit(cfg, x) && InitsSound(cfg, before)
    ensures var o := InitInTerm(cfg, s, x, txs, ok, m, before); o.Done? ==> InitsSound(cfg, o.events)
  {
    hide Node.Keyed, SupportedBy, Config.QuorumN, Node.IsConnectingTop, Node.IsCommitted, ValidInit;
  }

  lemma InitAnnounces(cfg: Config, s: Node, x: InitMsg, txs: Verdict, ok: bool, m: Option<Votie>)
    requires s.Keyed() && ValidInit(cfg, x) && HandleInit(cfg, s, x, txs, ok, m).Done?
    ensures InitsSound(cfg, HandleInit(cfg, s, x, txs, ok, m).events)
  {
    hide InitInTerm, Config.QuorumN, ValidInit;
    if x.term > s.term {
      InTermAnnounces(cfg, EnterTerm(s, x.term), x, txs, ok, m, [NewTerm(x.term)]);
    } else {
      InTermAnnounces(cfg, s, x, txs, ok, m, []);
    }
  }

  lemma PrepareAnnounces(cfg: Config, s: Node, x: PrepareMsg)
    requires s.Keyed() && HandlePrepare(cfg, s, x).Done?
    ensures InitsSound(cfg, HandlePrepare(cfg, s, x).events)
  {
    hide Node.Keyed, Config.QuorumN, ValidInit, CacheAppend;
  }

  lemma CommitBlockAnnounces(cfg: Config, s: Node, p: Pack)
    requires s.Keyed()
    ensures var o := CommitBlockWithCheck(cfg, s, p); o.Committed? ==> InitsSound(cfg, o.events)
  {
    hide Node.Keyed, Config.QuorumN, ValidInit, Prepared, Committable;
  }

  lemma CommitAnnounces(cfg: Config, s: Node, x: CommitMsg)
    requires s.Keyed() && HandleCommit(cfg, s, x).Done?
    ensures InitsSound(cfg, HandleCommit(cfg, s, x).events)
  {
    hide Node.Keyed, Config.QuorumN, ValidInit, CacheAppend, CommitBlockWithCheck;
    if s.freshPack.Some? {
      var grown := s.freshPack.value.(commits := s.freshPack.value.commits[x.nodeId := x]);
      var s1 := s.(freshPack := Some(grown));
      KeyedSame(s, s1);
      CommitBlockAnnounces(cfg, s1, grown);
    }
  }

  // ------------------------------------------------------------------- leader

  lemma ScanValid(cfg: Config, me: NodeId, ld: Leader, top: Pack)
    requires cfg.Valid() && ValidLeader(cfg, ld)
    ensures ValidLeader(cfg, ScanVotePool(cfg, me, ld, top).0)
  {
    hide ValidVote, Usable, InCharge;
  }

  lemma UpdateTermValid(cfg: Config, me: NodeId, ld: Leader, t: nat, top: Pack)
    requires cfg.Valid() && ValidLeader(cfg, ld)
    ensures ValidLeader(cfg, UpdateTerm(cfg, me, ld, t, top).0)
  {
    hide ValidVote, ScanVotePool, InCharge;
    if t > ld.term { ScanValid(cfg, me, ld.(term := t, votes := map[], initing := None), top); }
  }

  lemma AddVoteValid(cfg: Config, me: NodeId, ld: Leader, v: Vote, top: Pack)
    requires cfg.Valid() && ValidLeader(cfg, ld) && ValidVote(cfg, v)
    ensures ValidLeader(cfg, AddVote(cfg, me, ld, v, top).0)
  {
    hide ValidVote, ScanVotePool, InCharge;
    var ld1 := ld.(pool := ld.pool[v.term := PoolRow(ld.pool, v.term)[v.nodeId := v]]);
    assert ValidLeader(cfg, ld1);
    ScanValid(cfg, me, ld1, top);
  }

  lemma OnCommittedValid(cfg: Config, me: NodeId, ld: Leader, p: Pack, top: Pack)
    requires cfg.Valid() && ValidLeader(cfg, ld)
    ensures ValidLeader(cfg, OnCommitted(cfg, me, ld, p, top).0)
  {
    hide ValidVote, ScanVotePool, InCharge;
    ScanValid(cfg, me, ld, top);
  }

  /** A proposal carries votes the leader counted, all sound and for its term. */
  lemma ProposalValid(cfg: Config, i: NodeId, s: Node, ld: Leader, m: Votie, ts: int, body: Option<Body>)
    requires cfg.Valid() && LeaderInv(cfg, i, ld) && ValidLeader(cfg, ld) && KnownNode(cfg, i) && s.chain != []
    ensures var x := TryCreateBlock(i, s, ld, m, ts, body); x.Some? ==> ValidInit(cfg, x.value)
  {
    hide ValidVotie, PoolInv, InCharge, BlockToInit;
  }

  // -------------------------------------------------------------------- steps

  ghost predicate EffectValid(cfg: Config, log: seq<Msg>, e: Effect) {
    e.Moved? ==> ValidReplica(cfg, log, e.rep) && SentSound(cfg, e.sent)
  }

  lemma HandledValid(cfg: Config, log: seq<Msg>, i: NodeId, r: Replica, o: Outcome)
    requires KnownNode(cfg, i) && ValidReplica(cfg, log, r)
    requires o.Done? ==> ValidStore(cfg, log, o.node) && InitsSound(cfg, o.events)
    ensures EffectValid(cfg, log, Handled(i, r, o))
  {
    hide ValidStore, ValidLeader, ValidInit, InitsSound, SentSound;
    if o.Done? { SendsSound(cfg, i, o.events); }
  }

  lemma WeakValid(cfg: Config, log: seq<Msg>, s: Node, x: WeakAccuse, expired: set<NodeId>)
    requires ValidStore(cfg, log, s)
    ensures var o := HandleWeak(cfg, s, x, expired);
            o.Done? && ValidStore(cfg, log, o.node) && InitsSound(cfg, o.events)
  {
    hide ValidPack, ValidVotie, PreparesSent, ValidInit, Config.AccuseQuorumN;
  }

  lemma StrongAnnounces(cfg: Config, s: Node, x: StrongAccuse)
    ensures InitsSound(cfg, HandleStrong(s, x).events)
  {
    hide ValidInit;
  }

  lemma ReplicaParts(cfg: Config, log: seq<Msg>, r: Replica)
    requires ValidReplica(cfg, log, r)
    ensures ValidStore(cfg, log, r.node) && ValidLeader(cfg, r.leader)
    ensures forall x :: x in r.pending ==> ValidInit(cfg, x)
  {
    hide ValidStore, ValidLeader, ValidInit;
  }

  lemma HandlerValid(cfg: Config, c: Cluster, i: NodeId, a: Action)
    requires cfg.Valid() && LogOk(cfg, c.log) && Enabled(cfg, c, i, a)
    requires RepInv(cfg, c.log, i, c.reps[i]) && c.reps[i].node.Keyed()
    requires ValidLog(cfg, c.log) && ValidReplica(cfg, c.log, c.reps[i])
    requires a.OnInit? || a.OnOwnInit? || a.OnPrepare? || a.OnCommit? || a.OnWeak? || a.OnStrong?
    requires EffectOf(cfg, c.reps[i], i, a).Moved?
    ensures EffectValid(cfg, c.log, EffectOf(cfg, c.reps[i], i, a))
  {
    var r, log := c.reps[i], c.log;
    var s := r.node;
    KnownMember(cfg, i);
    ReplicaParts(cfg, log, r);
    HandledMoved(i, r);
    hide RepInv, LogOk, ClusterInv, HandleInit, HandlePrepare, HandleCommit, HandleWeak, HandleStrong, MaxAnswer,
         SyncBlock, UpdateTerm, AddVote, OnCommitted, TryCreateBlock, InCharge, IsMaxVotie, ValidStore,
         ValidLeader, ValidLog, ValidInit, ValidVote, InitsSound, SentSound, LeaderInv, Node.Keyed, Handled;
    match a
    case OnInit(x, txs, ok, m) =>
      InitIsValid(cfg, log, x);
      InitValid(cfg, log, s, x, txs, ok, m);
      InitAnnounces(cfg, s, x, txs, ok, m);
      HandledValid(cfg, log, i, r, HandleInit(cfg, s, x, txs, ok, m));
    case OnOwnInit(x, txs, ok, m) =>
      HandledMoved(i, r.(pending := r.pending - {x}));
      InitValid(cfg, log, s, x, txs, ok, m);
      InitAnnounces(cfg, s, x, txs, ok, m);
      HandledValid(cfg, log, i, r.(pending := r.pending - {x}), HandleInit(cfg, s, x, txs, ok, m));
    case OnPrepare(x) =>
      PrepareValid(cfg, log, i, r, x);
      PrepareAnnounces(cfg, s, x);
      HandledValid(cfg, log, i, r, HandlePrepare(cfg, s, x));
    case OnCommit(x) =>
      CommitValid(cfg, log, i, r, x);
      CommitAnnounces(cfg, s, x);
      HandledValid(cfg, log, i, r, HandleCommit(cfg, s, x));
    case OnWeak(x, expired) =>
      WeakValid(cfg, log, s, x, expired);
      HandledValid(cfg, log, i, r, HandleWeak(cfg, s, x, expired));
    case OnStrong(x) =>
      StrongValid(cfg, log, s, x);
      StrongAnnounces(cfg, s, x);
      HandledValid(cfg, log, i, r, HandleStrong(s, x));
  }

  lemma HandledMoved(i: NodeId, r: Replica)
    ensures forall o :: Handled(i, r, o).Moved? ==> o.Done?
  {
  }

  lemma KnownMember(cfg: Config, i: NodeId)
    requires i in cfg.Nodes()
    ensures KnownNode(cfg, i)
  {
  }

  lemma StoredPack(cfg: Config, log: seq<Msg>, s: Node, h: nat)
    requires ValidStore(cfg, log, s) && h < |s.chain|
    ensures ValidPack(cfg, s.chain[h])
  {
    hide ValidPack, ValidVotie, PreparesSent;
  }

  lemma NodeChanged(cfg: Config, log: seq<Msg>, r: Replica, s: Node)
    requires ValidReplica(cfg, log, r) && ValidStore(cfg, log, s)
    ensures EffectValid(cfg, log, Moved(r.(node := s), []))
  {
    hide ValidStore, ValidLeader, ValidInit;
  }

  lemma LeaderChanged(cfg: Config, log: seq<Msg>, r: Replica, ld: Leader)
    requires ValidReplica(cfg, log, r) && ValidLeader(cfg, ld)
    ensures EffectValid(cfg, log, Moved(r.(leader := ld), []))
  {
    hide ValidStore, ValidLeader, ValidInit;
  }

  lemma ProposalAdded(cfg: Config, log: seq<Msg>, r: Replica, x: InitMsg)
    requires ValidReplica(cfg, log, r) && ValidInit(cfg, x)
    ensures EffectValid(cfg, log, Moved(r.(leader := r.leader.(initing := Some(x)), pending := r.pending + {x}), []))
  {
    hide ValidStore, ValidInit, ValidVote;
  }

  lemma OneSent(cfg: Config, log: seq<Msg>, r: Replica, m: Msg)
    requires ValidReplica(cfg, log, r) && ValidMsg(cfg, m)
    ensures EffectValid(cfg, log, Moved(r, [m])) && EffectValid(cfg, log, Moved(r, []))
  {
    hide ValidReplica, ValidMsg;
  }

  lemma Reborn(cfg: Config, log: seq<Msg>, r: Replica)
    requires ValidStore(cfg, log, r.node)
    ensures EffectValid(cfg, log, Moved(Replica(Restarted(r.node), NewLeader(r.node.term), {}, None), []))
  {
    EmptyValid(cfg, log, r.node);
    hide ValidStore, ValidLeader, ValidInit;
  }

  lemma TermRead(cfg: Config, log: seq<Msg>, r: Replica)
    requires ValidReplica(cfg, log, r)
    ensures EffectValid(cfg, log, Moved(r.(voteTerm := Some(r.node.term)), []))
  {
    hide ValidStore, ValidLeader, ValidInit;
  }

  lemma VoteSent(cfg: Config, log: seq<Msg>, i: NodeId, r: Replica)
    requires ValidReplica(cfg, log, r) && r.voteTerm.Some? && KnownNode(cfg, i) && ValidVotie(cfg, r.node.votie)
    ensures EffectValid(cfg, log, Moved(r.(voteTerm := None), [VoteM(Vote(r.voteTerm.value, r.node.votie, i))]))
  {
    hide ValidStore, ValidLeader, ValidInit, ValidVotie;
  }

  lemma OtherValid(cfg: Config, c: Cluster, i: NodeId, a: Action)
    requires cfg.Valid() && Enabled(cfg, c, i, a) && c.reps[i].node.Keyed() && LeaderInv(cfg, i, c.reps[i].leader)
    requires ValidReplica(cfg, c.log, c.reps[i])
    requires !(a.OnInit? || a.OnOwnInit? || a.OnPrepare? || a.OnCommit? || a.OnWeak? || a.OnStrong?)
    ensures EffectValid(cfg, c.log, EffectOf(cfg, c.reps[i], i, a))
  {
    hide ClusterInv, MaxAnswer, SyncBlock, UpdateTerm, AddVote, OnCommitted, TryCreateBlock, InCharge, IsMaxVotie,
         ValidStore, ValidLeader, ValidLog, ValidInit, ValidVote, ValidReplica, SentSound, LeaderInv, Node.Keyed;
    hide EffectValid;
    var r, log := c.reps[i], c.log;
    var s := r.node;
    KnownMember(cfg, i);
    ReplicaParts(cfg, log, r);
    OneSent(cfg, log, r, WeakM(WeakAccuse(0, i)));
    match a
    case OnPack(p, n) => SyncValid(cfg, log, s, p, n); NodeChanged(cfg, log, r, SyncBlock(cfg, s, p, n));
    case SendPack(h) => StoredPack(cfg, log, s, h); OneSent(cfg, log, r, PackM(s.chain[h]));
    case ReadVoteTerm => TermRead(cfg, log, r);
    case SendVote => StoredVotie(cfg, log, s); VoteSent(cfg, log, i, r);
    case SendWeak(t) => OneSent(cfg, log, r, WeakM(WeakAccuse(t, i)));
    case LeaderTerm(t) =>
      UpdateTermValid(cfg, i, r.leader, t, s.Top());
      LeaderChanged(cfg, log, r, UpdateTerm(cfg, i, r.leader, t, s.Top()).0);
    case LeaderVote(v) =>
      AddVoteValid(cfg, i, r.leader, v, s.Top());
      LeaderChanged(cfg, log, r, AddVote(cfg, i, r.leader, v, s.Top()).0);
    case LeaderCommitted(h) =>
      OnCommittedValid(cfg, i, r.leader, s.chain[h], s.Top());
      LeaderChanged(cfg, log, r, OnCommitted(cfg, i, r.leader, s.chain[h], s.Top()).0);
    case Propose(m, ts, body) =>
      ProposalValid(cfg, i, s, r.leader, m, ts, body);
      var o := TryCreateBlock(i, s, r.leader, m, ts, body);
      if o.Some? { ProposalAdded(cfg, log, r, o.value); }
    case Restart => Reborn(cfg, log, r);
  }

  lemma EmptyValid(cfg: Config, log: seq<Msg>, s: Node)
    requires ValidStore(cfg, log, s)
    ensures ValidStore(cfg, log, Restarted(s)) && ValidLeader(cfg, NewLeader(s.term))
  {
    hide ValidPack, ValidVotie;
    var empty: Cache<PrepareMsg> := map[];
    assert forall t, h :: Cached(empty, t, h) == [];
  }

  lemma LeaderIsSound(cfg: Config, log: seq<Msg>, i: NodeId, r: Replica)
    requires cfg.Valid() && RepInv(cfg, log, i, r)
    ensures LeaderInv(cfg, i, r.leader)
  {
  }

  lemma StepValid(cfg: Config, c: Cluster, c': Cluster, i: NodeId, a: Action)
    requires cfg.Valid() && ClusterInv(cfg, c) && ValidCluster(cfg, c) && Next(cfg, c, c', i, a)
    ensures ValidCluster(cfg, c')
  {
    hide ClusterInv, Enabled, EffectOf, ValidReplica, RepInv, LogOk, LeaderInv, ValidLog, Node.Keyed, NodeInv,
         FreshInv, ChainInv, Config.Valid;
    ActingNode(cfg, c, i, a);
    var e := EffectOf(cfg, c.reps[i], i, a);
    EnabledNode(cfg, c, i);
    LeaderIsSound(cfg, c.log, i, c.reps[i]);
    if a.OnInit? || a.OnOwnInit? || a.OnPrepare? || a.OnCommit? || a.OnWeak? || a.OnStrong? {
      HandlerValid(cfg, c, i, a);
    } else {
      OtherValid(cfg, c, i, a);
    }
    LogStaysValid(cfg, c.log, e.sent);
    forall j | 0 <= j < |c'.reps| ensures ValidReplica(cfg, c'.log, c'.reps[j]) {
      ReplicaGrows(cfg, c.log, e.sent, c'.reps[j]);
    }
  }

  lemma LogStaysValid(cfg: Config, log: seq<Msg>, sent: seq<Msg>)
    requires ValidLog(cfg, log) && SentSound(cfg, sent)
    ensures ValidLog(cfg, log + sent)
  {
    hide ValidMsg;
  }

  lemma ReplicaGrows(cfg: Config, log: seq<Msg>, sent: seq<Msg>, r: Replica)
    requires ValidReplica(cfg, log, r)
    ensures ValidReplica(cfg, log + sent, r)
  {
    hide ValidStore, ValidLeader, ValidInit;
    StoreGrows(cfg, log, sent, r.node);
  }

  lemma StartValid(cfg: Config)
    ensures ValidCluster(cfg, InitCluster(cfg))
  {
    hide ValidReplica, InitReplica;
    FreshReplica(cfg);
  }

  lemma FreshReplica(cfg: Config)
    ensures ValidReplica(cfg, [], InitReplica())
  {
  }

  lemma {:induction false} RunValid(cfg: Config, run: seq<Cluster>, k: nat)
    requires cfg.Valid() && IsRun(cfg, run) && k < |run|
    ensures ValidCluster(cfg, run[k])
  {
    hide ClusterInv, Next, ValidCluster, InitCluster, Config.Valid;
    if k == 0 {
      StartValid(cfg);
    } else {
      RunValid(cfg, run, k - 1);
      RunInv(cfg, run, k - 1);
      assert Steps(cfg, run[k - 1], run[k]);
      var i, a :| Next(cfg, run[k - 1], run[k], i, a);
      StepValid(cfg, run[k - 1], run[k], i, a);
    }
  }

  // ----------------------------------------------------------------- theorems

  /** PROPOSALS PASS VALIDATION. Every init broadcast in a run passes checkInit. */
  lemma ProposalsAreValid(cfg: Config, run: seq<Cluster>, k: nat, x: InitMsg)
    requires cfg.Valid() && IsRun(cfg, run) && k < |run| && InitM(x) in run[k].log
    ensures ValidInit(cfg, x)
  {
    RunValid(cfg, run, k);
    hide IsRun;
    InitIsValid(cfg, run[k].log, x);
  }

  /** A votie on an orderly log is of genesis or above it. */
  lemma SentVotie(cfg: Config, log: seq<Msg>, v: Vote)
    requires LogOk(cfg, log) && VoteM(v) in log
    ensures VotiePoint(v.votie) == GENESIS_POINT || v.votie.height >= 1
  {
    var j: nat :| j < |log| && log[j] == VoteM(v);
    VoteWasOk(cfg, log, j, v);
    if VotiePoint(v.votie) != GENESIS_POINT {
      HasInitGrows(log[..j], log, VotiePoint(v.votie));
      InitsHaveHeight(cfg, log, VotiePoint(v.votie));
    }
  }

  lemma RunLogOk(cfg: Config, run: seq<Cluster>, k: nat)
    requires cfg.Valid() && IsRun(cfg, run) && k < |run|
    ensures LogOk(cfg, run[k].log)
  {
    hide IsRun, LogOk, RepInv;
    RunInv(cfg, run, k);
  }

  /** VOTES CARRY CERTIFICATES. The votie of every vote broadcast in a run is genesis itself
      or certified by a quorum; the vote passes checkVote unless its votie, read after its
      term, is of a later term. */
  lemma VotesAreCertified(cfg: Config, run: seq<Cluster>, k: nat, v: Vote)
    requires cfg.Valid() && IsRun(cfg, run) && k < |run| && VoteM(v) in run[k].log
    ensures v.votie == GENESIS_VOTIE || CertifiedVotie(cfg, v.votie)
    ensures ValidVote(cfg, v) <==> v.votie.term <= v.term
  {
    hide IsRun, LogOk, PreparesName, CommitsName, ValidReplica, Config.QuorumN;
    RunValid(cfg, run, k);
    RunLogOk(cfg, run, k);
    SentVotie(cfg, run[k].log, v);
    assert ValidMsg(cfg, VoteM(v));
  }

  /** EVERY NODE CAN SERVE. In every reachable state each node's chain is one a peer can
      sync from: linked, with sound proposals and certificates. */
  lemma ChainsAreCertified(cfg: Config, run: seq<Cluster>, k: nat, b: nat)
    requires cfg.Valid() && IsRun(cfg, run) && k < |run| && b < |run[k].reps|
    ensures HonestPeer(cfg, ChainOf(run[k], b))
  {
    RunValid(cfg, run, k);
    ChainsStayConsistent(cfg, run, k, b);
    hide IsRun, ValidInit, CertifiedPack, ValidVotie, ValidLeader;
    var chain := ChainOf(run[k], b);
    assert ValidReplica(cfg, run[k].log, run[k].reps[b]);
    forall h | 0 < h < |chain| ensures ValidInit(cfg, chain[h].init) && CertifiedPack(cfg, chain[h]) {
      assert ValidPack(cfg, chain[h]);
    }
  }

  /** The peer's whole chain is confirmed to us, so syncing ends with it. */
  ghost predicate SyncsFully(cfg: Config, s: Node, peer: seq<Pack>, confirmed: Confirmations) {
    && s.Keyed() && Stops(cfg, s, peer, confirmed)
    && forall n: nat :: StopsAt(cfg, s, peer, confirmed, n) ==>
         var s' := Rounds(cfg, s, peer, confirmed, n + 1);
         |s'.chain| == |peer| && forall h :: 0 <= h < |peer| ==> s'.chain[h].init.block == peer[h].init.block
  }

  lemma ConfirmedSyncs(cfg: Config, s: Node, peer: seq<Pack>, confirmed: Confirmations)
    requires HonestPeer(cfg, peer) && Behind(s, peer)
    requires forall h :: |s.chain| <= h < |peer| ==> Confirmed(cfg, peer[h], confirmed)
    ensures SyncsFully(cfg, s, peer, confirmed)
  {
    hide HonestPeer, Behind, Rounds, Confirmed, StopsAt, Stops, Node.Keyed;
    StopsIff(cfg, s, peer, confirmed);
    forall n: nat | StopsAt(cfg, s, peer, confirmed, n)
      ensures |Rounds(cfg, s, peer, confirmed, n + 1).chain| == |peer|
      ensures forall h :: 0 <= h < |peer| ==>
                Rounds(cfg, s, peer, confirmed, n + 1).chain[h].init.block == peer[h].init.block
    {
      StopsSynced(cfg, s, peer, confirmed, n);
    }
  }

  /** ANY NODE CAN SYNC FROM ANY OTHER. In every reachable state a node that is behind
      another meets what doSyncUp needs, so syncing from it ends, and ends with the other's
      chain, whenever enough peers confirm the missing blocks. */
  lemma AnyNodeCanSync(cfg: Config, run: seq<Cluster>, k: nat, a: nat, b: nat, confirmed: Confirmations)
    requires cfg.Valid() && IsRun(cfg, run) && k < |run| && a < |run[k].reps| && b < |run[k].reps|
    requires |ChainOf(run[k], a)| <= |ChainOf(run[k], b)|
    requires forall h :: |ChainOf(run[k], a)| <= h < |ChainOf(run[k], b)| ==>
               Confirmed(cfg, ChainOf(run[k], b)[h], confirmed)
    ensures SyncsFully(cfg, run[k].reps[a].node, ChainOf(run[k], b), confirmed)
  {
    hide IsRun, HonestPeer, Behind, SyncsFully, Confirmed;
    ChainsAreCertified(cfg, run, k, b);
    NodeBehind(cfg, run, k, a, b);
    ConfirmedSyncs(cfg, run[k].reps[a].node, ChainOf(run[k], b), confirmed);
  }

  lemma NodeBehind(cfg: Config, run: seq<Cluster>, k: nat, a: nat, b: nat)
    requires cfg.Valid() && IsRun(cfg, run) && k < |run| && a < |run[k].reps| && b < |run[k].reps|
    requires |ChainOf(run[k], a)| <= |ChainOf(run[k], b)|
    ensures Behind(run[k].reps[a].node, ChainOf(run[k], b))
  {
    ChainsStayConsistent(cfg, run, k, a);
    hide IsRun, NodeInv, Linked, IndexInverts;
    forall h | 0 <= h < |ChainOf(run[k], a)|
      ensures ChainOf(run[k], a)[h].init.block == ChainOf(run[k], b)[h].init.block
    {
      NodesAgree(cfg, run, k, a, k, b, h);
    }
  }
}
