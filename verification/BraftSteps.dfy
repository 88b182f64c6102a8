/** Every step of the cluster keeps its invariant. */
module BraftSteps {
  import opened ClusterParams
  import opened Protocol
  import opened NodeSpec
  import opened LeaderSpec
  import opened MessageLog
  import opened NodeInvariant
  import opened Braft

  // ------------------------------------------------------ growing the log

  lemma LogAppend(cfg: Config, log: seq<Msg>, m: Msg)
    requires LogOk(cfg, log) && MsgOk(cfg, log, m)
    ensures LogOk(cfg, log + [m])
  {
    var log' := log + [m];
    forall k | 0 <= k < |log'| ensures MsgOk(cfg, log'[..k], log'[k]) {
      if k < |log| {
        assert log'[..k] == log[..k];
      } else {
        assert log'[..k] == log;
      }
    }
  }

  lemma SupportGrows(cfg: Config, log: seq<Msg>, log': seq<Msg>, x: InitMsg)
    requires log <= log' && HasSupport(cfg, log, x)
    ensures HasSupport(cfg, log', x)
  {
    var votes, top, m :| Supported(cfg, log, x, votes, top, m);
    if Chosen(cfg, log, top) { ChosenGrows(cfg, log, log', top); }
    assert Supported(cfg, log', x, votes, top, m);
  }

  lemma ChainBackedGrows(cfg: Config, log: seq<Msg>, log': seq<Msg>, chain: seq<Pack>)
    requires log <= log' && ChainBacked(cfg, log, chain)
    ensures ChainBacked(cfg, log', chain)
  {
    forall h | 0 <= h < |chain| ensures Settled(cfg, log', PackPoint(chain[h])) {
      if Chosen(cfg, log, PackPoint(chain[h])) { ChosenGrows(cfg, log, log', PackPoint(chain[h])); }
    }
  }

  lemma ChosenBeforeGrows(cfg: Config, log: seq<Msg>, log': seq<Msg>, p: Point)
    requires log <= log' && ChosenBefore(cfg, log, p)
    ensures ChosenBefore(cfg, log', p)
  {
    var t: nat :| t < p.term && Chosen(cfg, log, p.(term := t));
    ChosenGrows(cfg, log, log', p.(term := t));
  }

  /** What a new commit of node i must satisfy for the log to stay covered. */
  ghost predicate Covered(cfg: Config, log: seq<Msg>, c: CommitMsg, term: nat, votie: Votie) {
    && c.term <= term
    && (!Below(VotiePoint(votie), CommitPoint(c)) || ChosenBefore(cfg, log, CommitPoint(c)))
  }

  /** What m asks of node j when m joins the log; nothing when j did not send it. */
  ghost predicate Harmless(cfg: Config, log: seq<Msg>, j: NodeId, s: Node, m: Msg) {
    match m
    case InitM(x) => x.nodeId == j ==> Tracked(x, s.term, |s.chain|, s.freshPack)
    case CommitM(c) => c.nodeId == j ==> Covered(cfg, log, c, s.term, s.votie)
    case VoteM(v) => v.nodeId == j ==> v.term <= s.term
    case _ => true
  }

  lemma CoreGrows(cfg: Config, log: seq<Msg>, m: Msg, j: NodeId, r: Replica)
    requires cfg.Valid() && RepCore(cfg, log, j, r)
    requires !m.InitM? ==> Harmless(cfg, log, j, r.node, m)
    ensures RepCore(cfg, log + [m], j, r)
  {
    hide NodeInv, LeaderInv, Settled, Chosen, Below;
    var log' := log + [m];
    ChainBackedGrows(cfg, log, log', r.node.chain);
    if HasInit(log, VotiePoint(r.node.votie)) { HasInitGrows(log, log', VotiePoint(r.node.votie)); }
    forall c | CommitM(c) in log' && c.nodeId == j
      ensures Covered(cfg, log', c, r.node.term, r.node.votie)
    {
      if ChosenBefore(cfg, log, CommitPoint(c)) { ChosenBeforeGrows(cfg, log, log', CommitPoint(c)); }
    }
    assert CommitsCovered(cfg, log', j, r.node.term, r.node.votie);
    assert VotesBelow(log', j, r.node.term);
  }

  lemma RepGrows(cfg: Config, log: seq<Msg>, m: Msg, j: NodeId, r: Replica)
    requires cfg.Valid() && RepInv(cfg, log, j, r) && Harmless(cfg, log, j, r.node, m)
    ensures RepInv(cfg, log + [m], j, r)
  {
    CoreGrows(cfg, log, m, j, r);
    hide RepCore;
    forall x | x in r.pending ensures PendingOk(cfg, log + [m], j, x, r.node, r.leader) {
      SupportGrows(cfg, log, log + [m], x);
    }
  }

  // ---------------------------------------------------- what a step must show

  /** Inits, commits and votes are sent under the sender's own id. */
  predicate Authored(i: NodeId, sent: seq<Msg>) {
    forall m :: m in sent ==>
      && (m.InitM? ==> m.init.nodeId == i)
      && (m.CommitM? ==> m.commit.nodeId == i)
      && (m.VoteM? ==> m.vote.nodeId == i)
  }

  ghost predicate StepOk(cfg: Config, log: seq<Msg>, i: NodeId, r: Replica, e: Effect)
    requires cfg.Valid()
  {
    && e.Moved?
    && Authored(i, e.sent)
    && LogOk(cfg, log + e.sent)
    && RepInv(cfg, log + e.sent, i, e.rep)
    && Progress(r.node, e.rep.node)
  }

  lemma QuietStep(cfg: Config, log: seq<Msg>, i: NodeId, r: Replica, r': Replica)
    requires cfg.Valid() && LogOk(cfg, log)
    requires RepInv(cfg, log, i, r') && Progress(r.node, r'.node)
    ensures StepOk(cfg, log, i, r, Moved(r', []))
  {
    assert log + [] == log;
  }

  lemma SendingStep(cfg: Config, log: seq<Msg>, i: NodeId, r: Replica, r': Replica, m: Msg)
    requires cfg.Valid() && LogOk(cfg, log)
    requires RepInv(cfg, log, i, r') && Progress(r.node, r'.node)
    requires MsgOk(cfg, log, m) && Harmless(cfg, log, i, r'.node, m) && Authored(i, [m])
    ensures StepOk(cfg, log, i, r, Moved(r', [m]))
  {
    hide RepInv, MsgOk, Harmless, Progress;
    LogAppend(cfg, log, m);
    RepGrows(cfg, log, m, i, r');
  }

  // ------------------------------------------------------- changes of a node

  /** A higher term drops the pending block and with it every claim on proposals. */
  lemma HigherTerm(cfg: Config, log: seq<Msg>, i: NodeId, r: Replica, s: Node)
    requires cfg.Valid() && RepInv(cfg, log, i, r)
    requires s.term > r.node.term && s.freshPack.None?
    requires s.chain == r.node.chain && s.votie == r.node.votie
    requires NodeInv(s) && CacheBacked(log, s.commitCache)
    ensures RepInv(cfg, log, i, r.(node := s))
  {
    hide NodeInv, LeaderInv, Below, HasSupport, ChainBacked;
    assert CommitsCovered(cfg, log, i, s.term, s.votie);
    assert InitsTracked(log, i, s.term, |s.chain|, s.freshPack);
  }

  lemma CoveredByHigher(cfg: Config, log: seq<Msg>, i: NodeId, term: nat, v: Votie, w: Votie)
    requires CommitsCovered(cfg, log, i, term, v) && !HasLessTermHeightThan(w, v)
    ensures CommitsCovered(cfg, log, i, term, w)
  {
    forall c | CommitM(c) in log && c.nodeId == i ensures Covered(cfg, log, c, term, w) {
      assert Covered(cfg, log, c, term, v);
    }
  }

  /** Within one round: certificates, caches, accuses and the votie may change. */
  lemma SameRound(cfg: Config, log: seq<Msg>, i: NodeId, r: Replica, s: Node)
    requires cfg.Valid() && RepInv(cfg, log, i, r)
    requires s.term == r.node.term && s.chain == r.node.chain
    requires s.freshPack.Some? <==> r.node.freshPack.Some?
    requires s.freshPack.Some? ==> s.freshPack.value.init == r.node.freshPack.value.init
    requires FreshBacked(log, s.freshPack) && CacheBacked(log, s.commitCache)
    requires VotieBacked(log, s.votie) && !HasLessTermHeightThan(s.votie, r.node.votie)
    requires NodeInv(s)
    ensures RepInv(cfg, log, i, r.(node := s))
  {
    hide NodeInv, LeaderInv, CommitsCovered, HasSupport, ChainBacked, LeaderOf, VotesBelow, LeaderBacked,
         CacheBacked, VotieBacked, HasLessTermHeightThan, Committable;
    CoveredByHigher(cfg, log, i, s.term, r.node.votie, s.votie);
    assert InitsTracked(log, i, s.term, |s.chain|, s.freshPack);
  }

  /** A block on top: proposals at its height are done with. */
  lemma Taller(cfg: Config, log: seq<Msg>, i: NodeId, r: Replica, s: Node)
    requires cfg.Valid() && RepInv(cfg, log, i, r)
    requires s.term == r.node.term && |s.chain| == |r.node.chain| + 1
    requires s.freshPack == r.node.freshPack || s.freshPack.None?
    requires ChainBacked(cfg, log, s.chain) && s.commitCache == r.node.commitCache
    requires VotieBacked(log, s.votie) && !HasLessTermHeightThan(s.votie, r.node.votie)
    requires NodeInv(s)
    ensures RepInv(cfg, log, i, r.(node := s))
  {
    hide NodeInv, LeaderInv, CommitsCovered, HasSupport, ChainBacked, LeaderOf, VotesBelow, LeaderBacked,
         CacheBacked, VotieBacked, HasLessTermHeightThan, Committable;
    CoveredByHigher(cfg, log, i, s.term, r.node.votie, s.votie);
    FreshFixesHeight(cfg, log, i, r);
    assert InitsTracked(log, i, s.term, |s.chain|, s.freshPack);
  }

  // ------------------------------------------------------------------ events

  lemma SendsAppend(i: NodeId, events: seq<Event>, e: Event)
    ensures SendsAll(i, events + [e]) == SendsAll(i, events) + Sends(i, e)
  {
    assert (events + [e])[..|events|] == events;
  }

  lemma SendsOfOne(i: NodeId, e: Event)
    ensures SendsAll(i, [e]) == Sends(i, e)
  {
    SendsAppend(i, [], e);
    assert [] + [e] == [e];
    assert SendsAll(i, []) + Sends(i, e) == Sends(i, e);
  }

  lemma SendsOfTwo(i: NodeId, e: Event, f: Event)
    ensures SendsAll(i, [e, f]) == Sends(i, e) + Sends(i, f)
  {
    SendsAppend(i, [e], f);
    assert [e] + [f] == [e, f];
    SendsOfOne(i, e);
  }

  // ------------------------------------------------------- accuses, restart

  lemma WeakCases(cfg: Config, i: NodeId, s: Node, x: WeakAccuse, expired: set<NodeId>)
    ensures var o := HandleWeak(cfg, s, x, expired);
            && o.Done? && o.node == s.(weak := o.node.weak)
            && (SendsAll(i, o.events) == [] || exists sa :: SendsAll(i, o.events) == [StrongM(sa)])
  {
    var o := HandleWeak(cfg, s, x, expired);
    if o.events != [] {
      SendsOfOne(i, o.events[0]);
      assert o.events == [o.events[0]];
      assert o.events[0].NewStrongAccuse? ==> Sends(i, o.events[0]) == [StrongM(o.events[0].accuse)];
    }
  }

  lemma WeakStep(cfg: Config, log: seq<Msg>, i: NodeId, r: Replica, x: WeakAccuse, expired: set<NodeId>)
    requires cfg.Valid() && LogOk(cfg, log) && RepInv(cfg, log, i, r)
    ensures StepOk(cfg, log, i, r, Handled(i, r, HandleWeak(cfg, r.node, x, expired)))
  {
    var o := HandleWeak(cfg, r.node, x, expired);
    hide NodeInv, Progress, LogOk, HandleWeak, ChainBacked, CommitsCovered, LeaderInv, LeaderBacked, StepOk,
         CacheBacked, VotieBacked, FreshBacked, PendingOk, InitsTracked, VotesBelow;
    HandleWeakKeeps(cfg, r.node, x, expired);
    WeakCases(cfg, i, r.node, x, expired);
    SameRound(cfg, log, i, r, o.node);
    hide RepInv;
    if SendsAll(i, o.events) == [] {
      QuietStep(cfg, log, i, r, r.(node := o.node));
    } else {
      var sa :| SendsAll(i, o.events) == [StrongM(sa)];
      SendingStep(cfg, log, i, r, r.(node := o.node), StrongM(sa));
    }
  }

  /** What handleStrongAccuse leaves of the store, and that it sends nothing. */
  lemma StrongCases(log: seq<Msg>, i: NodeId, s: Node, x: StrongAccuse)
    requires CacheBacked(log, s.commitCache)
    ensures var o := HandleStrong(s, x);
            && o.Done? && SendsAll(i, o.events) == []
            && (x.term < s.term ==> o.node == s)
            && (x.term >= s.term ==> o.node.term > s.term && o.node.freshPack.None?)
            && o.node.chain == s.chain && o.node.votie == s.votie && CacheBacked(log, o.node.commitCache)
  {
    var o := HandleStrong(s, x);
    if x.term >= s.term {
      assert forall t, h :: Cached(o.node.commitCache, t, h)
                            == if t == x.term then [] else Cached(s.commitCache, t, h);
      SendsOfTwo(i, o.events[0], o.events[1]);
      assert o.events == [o.events[0], o.events[1]];
    }
  }

  lemma StrongStep(cfg: Config, log: seq<Msg>, i: NodeId, r: Replica, x: StrongAccuse)
    requires cfg.Valid() && LogOk(cfg, log) && RepInv(cfg, log, i, r)
    ensures StepOk(cfg, log, i, r, Handled(i, r, HandleStrong(r.node, x)))
  {
    var o := HandleStrong(r.node, x);
    hide NodeInv, Progress, LogOk, HandleStrong, ChainBacked, CommitsCovered, LeaderInv, LeaderBacked, StepOk,
         CacheBacked, VotieBacked, FreshBacked, PendingOk, InitsTracked, VotesBelow;
    HandleStrongKeeps(r.node, x);
    StrongCases(log, i, r.node, x);
    if x.term >= r.node.term { HigherTerm(cfg, log, i, r, o.node); }
    hide RepInv;
    QuietStep(cfg, log, i, r, r.(node := o.node));
  }

  lemma RestartStep(cfg: Config, log: seq<Msg>, i: NodeId, r: Replica)
    requires cfg.Valid() && LogOk(cfg, log) && RepInv(cfg, log, i, r)
    ensures StepOk(cfg, log, i, r, Moved(Replica(Restarted(r.node), NewLeader(r.node.term), {}, None), []))
  {
    hide LogOk, NodeInv, Progress, ChainBacked, CommitsCovered, VotesBelow, VotieBacked, FreshBacked, InitsTracked,
         Config.Valid;
    var s := Restarted(r.node);
    RestartKeeps(r.node);
    SameRound(cfg, log, i, r, s);
    QuietStep(cfg, log, i, r, Replica(s, NewLeader(r.node.term), {}, None));
  }

  // -------------------------------------------------------------------- inits

  /** handleInitMsg makes x the pending block. */
  predicate Accepts(cfg: Config, t: Node, x: InitMsg, txs: Verdict, ok: bool, m: Option<Votie>)
    requires t.Keyed()
  {
    && x.height == t.Height() + 1
    && !t.IsCommitted(x.block) && t.IsConnectingTop(Pack(x, map[], map[]))
    && txs == Verdict.Valid && ok
    && (x.term > t.Top().init.term ==>
          |x.votes| >= cfg.QuorumN() && m.Some? && SupportedBy(t, x, m.value))
  }

  lemma WrongInitQuiet(i: NodeId, t: Node, x: InitMsg, events: seq<Event>)
    requires NodeInv(t) && t.Keyed() && x.term == t.term && x.height != t.Height() + 1
    requires SendsAll(i, events) == []
    ensures var o := WrongHeight(t, x.term, x.height, x.block, x.nodeId, InitM(x), events);
            o.Done? && o.node == t && SendsAll(i, o.events) == []
  {
    WrongHeightKeeps(t, x.term, x.height, x.block, x.nodeId, InitM(x), events);
    hide NodeInv, SendsAll, Node.Keyed;
    SendsAppend(i, events, NeedSyncUp(x.nodeId));
    SendsAppend(i, events, CommittedInLowerTerm(InitM(x)));
    assert Sends(i, NeedSyncUp(x.nodeId)) == [] && Sends(i, CommittedInLowerTerm(InitM(x))) == [];
    hide Sends;
  }

  lemma InitInTermCases(cfg: Config, i: NodeId, t: Node, x: InitMsg, txs: Verdict, ok: bool, m: Option<Votie>,
                        events: seq<Event>)
    requires NodeInv(t) && t.Keyed() && x.term == t.term && SendsAll(i, events) == []
    ensures var o := InitInTerm(cfg, t, x, txs, ok, m, events);
            && o.Done?
            && (if Accepts(cfg, t, x, txs, ok, m)
                then o.node == AcceptInit(t, x, []).node
                     && SendsAll(i, o.events) == Sends(i, NewInited(MergedFresh(t, x)))
                else o.node == t && SendsAll(i, o.events) == [])
  {
    hide NodeInv, SendsAll, MergedFresh, SupportedBy, WrongHeight, Sends, Node.IsConnectingTop, Node.IsCommitted;
    if x.height != t.Height() + 1 {
      WrongInitQuiet(i, t, x, events);
    } else if Accepts(cfg, t, x, txs, ok, m) {
      SendsAppend(i, events, NewInited(MergedFresh(t, x)));
      assert [] + Sends(i, NewInited(MergedFresh(t, x))) == Sends(i, NewInited(MergedFresh(t, x)));
    } else {
      SendsAppend(i, events, NewWeakAccuse(x.term));
      QuietEvents(i, x.term);
    }
  }

  lemma QuietEvents(i: NodeId, term: nat)
    ensures Sends(i, NewWeakAccuse(term)) == [] && Sends(i, NewTerm(term)) == []
    ensures Sends(i, NeedSyncUp(term)) == []
  {
  }

  lemma InitCases(cfg: Config, i: NodeId, s: Node, x: InitMsg, txs: Verdict, ok: bool, m: Option<Votie>)
    requires NodeInv(s) && s.Keyed()
    ensures var o := HandleInit(cfg, s, x, txs, ok, m);
            var t := if x.term > s.term then EnterTerm(s, x.term) else s;
            && o.Done?
            && ((o.node == s && SendsAll(i, o.events) == [])
                || (x.term >= s.term && t.Keyed()
                    && if Accepts(cfg, t, x, txs, ok, m)
                       then o.node == AcceptInit(t, x, []).node
                            && SendsAll(i, o.events) == Sends(i, NewInited(MergedFresh(t, x)))
                       else o.node == t && SendsAll(i, o.events) == []))
  {
    hide NodeInv, MergedFresh, Accepts, InitInTerm;
    SendsOfOne(i, NewTerm(x.term));
    SendsOfOne(i, NeedSyncUp(x.nodeId));
    if x.term > s.term {
      EnterTermKeeps(s, x.term);
      InitInTermCases(cfg, i, EnterTerm(s, x.term), x, txs, ok, m, [NewTerm(x.term)]);
    } else if x.term == s.term {
      InitInTermCases(cfg, i, s, x, txs, ok, m, []);
    }
  }

  lemma MergedFreshBacked(log: seq<Msg>, s: Node, x: InitMsg)
    requires CacheBacked(log, s.commitCache) && InitM(x) in log
    ensures FreshBacked(log, Some(MergedFresh(s, x)))
  {
    CommitsOfFrom(Cached(s.commitCache, x.term, x.height));
  }

  lemma CacheDropBacked(log: seq<Msg>, c: Cache<CommitMsg>, term: nat, height: nat)
    requires CacheBacked(log, c)
    ensures CacheBacked(log, CacheDrop(c, term, height))
  {
    DroppedCache(c, term, height);
  }

  lemma SendingTwo(cfg: Config, log: seq<Msg>, i: NodeId, r: Replica, r': Replica, m: Msg, n: Msg)
    requires cfg.Valid() && StepOk(cfg, log, i, r, Moved(r', [m]))
    requires MsgOk(cfg, log + [m], n) && Harmless(cfg, log + [m], i, r'.node, n) && Authored(i, [n])
    ensures StepOk(cfg, log, i, r, Moved(r', [m, n]))
  {
    hide RepInv, MsgOk, Harmless, Progress, LogOk;
    LogAppend(cfg, log + [m], n);
    RepGrows(cfg, log + [m], n, i, r');
    assert log + [m] + [n] == log + [m, n];
  }

  /** Accepting x as the pending block keeps what does not concern proposals. */
  lemma AcceptCore(cfg: Config, log: seq<Msg>, i: NodeId, r: Replica, x: InitMsg)
    requires cfg.Valid() && RepCore(cfg, log, i, r) && x.term == r.node.term
    requires Extends(Pack(x, map[], map[]), r.node.chain) && Committable(x.block)
    ensures RepCore(cfg, log, i, r.(node := AcceptInit(r.node, x, []).node))
    ensures Progress(r.node, AcceptInit(r.node, x, []).node)
  {
    AcceptInitKeeps(r.node, x, []);
    CacheDropBacked(log, r.node.commitCache, x.term, x.height);
  }

  lemma SentInitOk(cfg: Config, log: seq<Msg>, x: InitMsg)
    requires LogOk(cfg, log) && InitM(x) in log
    ensures InitOk(cfg, log, x) && HasInit(log, InitPoint(x)) && Committable(x.block)
  {
    var k :| 0 <= k < |log| && log[k] == InitM(x);
    assert MsgOk(cfg, log[..k], log[k]);
    SupportGrows(cfg, log[..k], log, x);
    forall y | InitM(y) in log && y.term == x.term && y.height == x.height
      ensures y == x
    {
      ProposalsUnique(cfg, log, x, y);
    }
    assert Proposes(log[k], InitPoint(x));
    InitsHaveHeight(cfg, log, InitPoint(x));
  }

  /** A broadcast proposal of this node at the height of x is x itself. */
  lemma TrackedAfterAccept(cfg: Config, log: seq<Msg>, i: NodeId, term: nat, len: nat,
                           before: Option<Pack>, x: InitMsg, p: Pack)
    requires LogOk(cfg, log) && InitM(x) in log && x.term == term && x.height == len
    requires InitsTracked(log, i, term, len, before)
    requires before.Some? ==> before.value.init.height <= len
    requires p.init == x
    ensures InitsTracked(log, i, term, len, Some(p))
  {
    forall y | InitM(y) in log && y.nodeId == i ensures Tracked(y, term, len, Some(p)) {
      assert Tracked(y, term, len, before);
      if y.term == term && y.height >= len { ProposalsUnique(cfg, log, x, y); }
    }
  }

  /** No init of this node is waiting at the height of a broadcast one of this term. */
  lemma PendingAfterAccept(cfg: Config, log: seq<Msg>, i: NodeId, r: Replica, x: InitMsg, s: Node)
    requires cfg.Valid() && RepInv(cfg, log, i, r) && InitM(x) in log
    requires x.nodeId == LeaderOf(cfg.normal, x.term)
    requires x.term == r.node.term == s.term && x.height == |r.node.chain| && s.chain == r.node.chain
    ensures forall p :: p in r.pending ==> PendingOk(cfg, log, i, p, s, r.leader)
  {
    hide RepCore, HasSupport;
    assert x.nodeId == i ==> Tracked(x, r.node.term, |r.node.chain|, r.node.freshPack);
    forall p | p in r.pending ensures PendingOk(cfg, log, i, p, s, r.leader) {
      assert PendingOk(cfg, log, i, p, r.node, r.leader);
    }
  }

  /** Accepting an init that has been broadcast: its proposer, if it is this node,
      already had it pending, so no proposal is forgotten. */
  lemma AcceptSent(cfg: Config, log: seq<Msg>, i: NodeId, r: Replica, x: InitMsg)
    requires cfg.Valid() && LogOk(cfg, log) && RepInv(cfg, log, i, r)
    requires InitM(x) in log && x.term == r.node.term
    requires Extends(Pack(x, map[], map[]), r.node.chain)
    ensures RepInv(cfg, log, i, r.(node := AcceptInit(r.node, x, []).node))
    ensures Progress(r.node, AcceptInit(r.node, x, []).node)
  {
    SentInitOk(cfg, log, x);
    AcceptCore(cfg, log, i, r, x);
    MergedFreshBacked(log, r.node, x);
    assert x.height == |r.node.chain|;
    assert r.node.freshPack.Some? ==> r.node.freshPack.value.init.height <= |r.node.chain|;
    TrackedAfterAccept(cfg, log, i, r.node.term, |r.node.chain|, r.node.freshPack, x, MergedFresh(r.node, x));
    PendingAfterAccept(cfg, log, i, r, x, AcceptInit(r.node, x, []).node);
    hide RepCore, LogOk, PendingOk, InitsTracked, FreshBacked;
  }

  lemma PrepareFollowsInit(cfg: Config, log: seq<Msg>, x: InitMsg, i: NodeId)
    requires HasInit(log, InitPoint(x))
    ensures MsgOk(cfg, log, PrepareM(PrepareMsg(x.term, x.height, x.block, i)))
  {
  }

  lemma ProposerSends(cfg: Config, log: seq<Msg>, i: NodeId, r: Replica, r': Replica, x: InitMsg)
    requires cfg.Valid() && LogOk(cfg, log) && RepInv(cfg, log, i, r') && Progress(r.node, r'.node)
    requires InitM(x) in log && x.nodeId == i
    requires Tracked(x, r'.node.term, |r'.node.chain|, r'.node.freshPack)
    ensures StepOk(cfg, log, i, r, Moved(r', [InitM(x), PrepareM(PrepareMsg(x.term, x.height, x.block, i))]))
  {
    hide RepInv, LogOk, Progress, HasInit, InitOk, Tracked, StepOk, LeaderOf;
    SentInitOk(cfg, log, x);
    HasInitGrows(log, log + [InitM(x)], InitPoint(x));
    PrepareFollowsInit(cfg, log + [InitM(x)], x, i);
    SendingStep(cfg, log, i, r, r', InitM(x));
    SendingTwo(cfg, log, i, r, r', InitM(x), PrepareM(PrepareMsg(x.term, x.height, x.block, i)));
  }

  lemma FreshIsSent(cfg: Config, log: seq<Msg>, i: NodeId, r: Replica)
    requires cfg.Valid() && RepInv(cfg, log, i, r) && r.node.freshPack.Some?
    ensures InitM(r.node.freshPack.value.init) in log
    ensures r.node.freshPack.value.init.term == r.node.term
    ensures Tracked(r.node.freshPack.value.init, r.node.term, |r.node.chain|, r.node.freshPack)
  {
  }

  /** Broadcasting an accepted init (by its proposer) and the node's prepare for it. */
  lemma InitedSends(cfg: Config, log: seq<Msg>, i: NodeId, r: Replica, r': Replica, p: Pack)
    requires cfg.Valid() && LogOk(cfg, log) && RepInv(cfg, log, i, r') && Progress(r.node, r'.node)
    requires r'.node.freshPack == Some(p)
    ensures StepOk(cfg, log, i, r, Moved(r', Sends(i, NewInited(p))))
  {
    hide RepInv, LogOk, Progress, HasInit, InitOk, Tracked, StepOk, LeaderOf;
    var x := p.init;
    var n := PrepareM(PrepareMsg(x.term, x.height, x.block, i));
    FreshIsSent(cfg, log, i, r');
    SentInitOk(cfg, log, x);
    if x.nodeId == i {
      ProposerSends(cfg, log, i, r, r', x);
      assert Sends(i, NewInited(p)) == [InitM(x), n];
    } else {
      PrepareFollowsInit(cfg, log, x, i);
      SendingStep(cfg, log, i, r, r', n);
      assert Sends(i, NewInited(p)) == [n];
    }
  }

  lemma InitStep(cfg: Config, log: seq<Msg>, i: NodeId, r: Replica, x: InitMsg, txs: Verdict, ok: bool,
                 m: Option<Votie>)
    requires cfg.Valid() && LogOk(cfg, log) && RepInv(cfg, log, i, r) && r.node.Keyed()
    requires InitM(x) in log
    ensures StepOk(cfg, log, i, r, Handled(i, r, HandleInit(cfg, r.node, x, txs, ok, m)))
  {
    var s := r.node;
    var o := HandleInit(cfg, s, x, txs, ok, m);
    InitCases(cfg, i, s, x, txs, ok, m);
    if o.node == s && SendsAll(i, o.events) == [] {
      QuietStep(cfg, log, i, r, r);
    } else {
      var t := if x.term > s.term then EnterTerm(s, x.term) else s;
      if x.term > s.term {
        EnterTermKeeps(s, x.term);
        HigherTerm(cfg, log, i, r, t);
      }
      var r1 := r.(node := t);
      if Accepts(cfg, t, x, txs, ok, m) {
        InvIsKeyed(t);
        AcceptSent(cfg, log, i, r1, x);
        ProgressTrans(s, t, o.node);
        InitedSends(cfg, log, i, r, r.(node := o.node), MergedFresh(t, x));
      } else {
        QuietStep(cfg, log, i, r, r1);
      }
    }
  }

  // ---------------------------------------------------------------- own inits

  lemma SentIsTracked(cfg: Config, log: seq<Msg>, i: NodeId, r: Replica, y: InitMsg)
    requires cfg.Valid() && RepInv(cfg, log, i, r) && InitM(y) in log && y.nodeId == i
    ensures Tracked(y, r.node.term, |r.node.chain|, r.node.freshPack)
  {
  }

  lemma WaitingMeansNoFresh(cfg: Config, log: seq<Msg>, i: NodeId, r: Replica, x: InitMsg)
    requires cfg.Valid() && RepInv(cfg, log, i, r) && x in r.pending
    requires x.term == r.node.term && x.height == |r.node.chain|
    ensures r.node.freshPack.None? && x.nodeId == i == LeaderOf(cfg.normal, x.term)
  {
    hide RepCore;
    assert PendingOk(cfg, log, i, x, r.node, r.leader);
  }

  /** The init the leader has initing is accepted before it is broadcast: the node has
      sent no other proposal for this term and height. */
  lemma OwnInitUnsent(cfg: Config, log: seq<Msg>, i: NodeId, r: Replica, x: InitMsg, y: InitMsg)
    requires cfg.Valid() && LogOk(cfg, log) && RepInv(cfg, log, i, r) && x in r.pending
    requires x.term == r.node.term && x.height == |r.node.chain|
    requires y.term == x.term && y.height == x.height
    ensures InitM(y) !in log
  {
    hide RepInv, LogOk, LeaderOf, HasSupport;
    WaitingMeansNoFresh(cfg, log, i, r, x);
    if InitM(y) in log {
      SentInitOk(cfg, log, y);
      SentIsTracked(cfg, log, i, r, y);
    }
  }

  lemma OwnInitTracked(cfg: Config, log: seq<Msg>, i: NodeId, r: Replica, x: InitMsg, p: Pack)
    requires cfg.Valid() && LogOk(cfg, log) && RepInv(cfg, log, i, r) && x in r.pending
    requires x.term == r.node.term && x.height == |r.node.chain| && p.init == x
    ensures InitsTracked(log + [InitM(x)], i, r.node.term, |r.node.chain|, Some(p))
  {
    hide RepCore, HasSupport, LogOk, LeaderOf;
    assert PendingOk(cfg, log, i, x, r.node, r.leader);
    forall y | InitM(y) in log + [InitM(x)] && y.nodeId == i
      ensures Tracked(y, r.node.term, |r.node.chain|, Some(p))
    {
      if InitM(y) in log { assert Tracked(y, r.node.term, |r.node.chain|, r.node.freshPack); }
    }
  }

  lemma OthersPendingAfterOwn(cfg: Config, log: seq<Msg>, i: NodeId, r: Replica, x: InitMsg, s: Node)
    requires cfg.Valid() && RepInv(cfg, log, i, r) && x in r.pending
    requires x.term == r.node.term == s.term && x.height == |r.node.chain| && s.chain == r.node.chain
    ensures forall p :: p in r.pending - {x} ==> PendingOk(cfg, log + [InitM(x)], i, p, s, r.leader)
  {
    hide RepCore, HasSupport, LeaderOf;
    assert PendingOk(cfg, log, i, x, r.node, r.leader);
    forall p | p in r.pending - {x} ensures PendingOk(cfg, log + [InitM(x)], i, p, s, r.leader) {
      assert PendingOk(cfg, log, i, p, r.node, r.leader);
      SupportGrows(cfg, log, log + [InitM(x)], p);
    }
  }

  lemma OwnInitOk(cfg: Config, log: seq<Msg>, i: NodeId, r: Replica, x: InitMsg)
    requires cfg.Valid() && LogOk(cfg, log) && RepInv(cfg, log, i, r) && x in r.pending
    requires x.term == r.node.term && x.height == |r.node.chain|
    ensures InitOk(cfg, log, x) && Committable(x.block) && x.nodeId == i
  {
    hide RepCore, LogOk, LeaderOf;
    assert PendingOk(cfg, log, i, x, r.node, r.leader);
    forall y: InitMsg | y.term == x.term && y.height == x.height ensures InitM(y) !in log {
      OwnInitUnsent(cfg, log, i, r, x, y);
    }
  }

  lemma OwnInitAccepted(cfg: Config, log: seq<Msg>, i: NodeId, r: Replica, x: InitMsg)
    requires cfg.Valid() && LogOk(cfg, log) && RepInv(cfg, log, i, r) && x in r.pending
    requires x.term == r.node.term && Extends(Pack(x, map[], map[]), r.node.chain)
    requires x.height == |r.node.chain|
    ensures LogOk(cfg, log + [InitM(x)]) && x.nodeId == i
    ensures var s := AcceptInit(r.node, x, []).node;
            RepInv(cfg, log + [InitM(x)], i, r.(node := s, pending := r.pending - {x}))
            && Progress(r.node, s)
  {
    hide LogOk, LeaderOf, InitOk, HasSupport, CommitsCovered, VotesBelow, NodeInv, ChainBacked, CertsCarry,
         LeaderInv;
    var log' := log + [InitM(x)];
    var s := AcceptInit(r.node, x, []).node;
    OwnInitOk(cfg, log, i, r, x);
    LogAppend(cfg, log, InitM(x));
    AcceptCore(cfg, log, i, r, x);
    OwnInitTracked(cfg, log, i, r, x, MergedFresh(r.node, x));
    OthersPendingAfterOwn(cfg, log, i, r, x, s);
    MergedFreshSent(log, r.node, x);
    hide RepCore, PendingOk, InitsTracked, FreshBacked;
    CoreGrows(cfg, log, InitM(x), i, r.(node := s));
    SmallerPendingCore(cfg, log', i, r.(node := s), r.pending - {x});
  }

  lemma SmallerPendingCore(cfg: Config, log: seq<Msg>, i: NodeId, r: Replica, pending: set<InitMsg>)
    requires cfg.Valid() && RepCore(cfg, log, i, r)
    ensures RepCore(cfg, log, i, r.(pending := pending))
  {
  }

  lemma MergedFreshSent(log: seq<Msg>, s: Node, x: InitMsg)
    requires CacheBacked(log, s.commitCache)
    ensures FreshBacked(log + [InitM(x)], Some(MergedFresh(s, x)))
  {
    MergedFreshBacked(log + [InitM(x)], s, x);
  }

  lemma SmallerPending(cfg: Config, log: seq<Msg>, i: NodeId, r: Replica, pending: set<InitMsg>)
    requires cfg.Valid() && RepInv(cfg, log, i, r) && pending <= r.pending
    ensures RepInv(cfg, log, i, r.(pending := pending))
  {
    hide PendingOk;
  }

  lemma OwnInitStep(cfg: Config, log: seq<Msg>, i: NodeId, r: Replica, x: InitMsg, txs: Verdict, ok: bool,
                    m: Option<Votie>)
    requires cfg.Valid() && LogOk(cfg, log) && RepInv(cfg, log, i, r) && r.node.Keyed()
    requires x in r.pending
    ensures StepOk(cfg, log, i, r, Handled(i, r.(pending := r.pending - {x}), HandleInit(cfg, r.node, x, txs, ok, m)))
  {
    var s := r.node;
    var o := HandleInit(cfg, s, x, txs, ok, m);
    InitCases(cfg, i, s, x, txs, ok, m);
    InvIsKeyed(s);
    assert PendingOk(cfg, log, i, x, s, r.leader);
    hide LogOk, LeaderOf, HasSupport, RepInv, StepOk, NodeInv, Progress, HandleInit, MergedFresh;
    SmallerPending(cfg, log, i, r, r.pending - {x});
    var r' := r.(pending := r.pending - {x});
    if x.term == s.term && Accepts(cfg, s, x, txs, ok, m) && o.node == AcceptInit(s, x, []).node
       && SendsAll(i, o.events) == Sends(i, NewInited(MergedFresh(s, x))) {
      OwnInitAccepted(cfg, log, i, r, x);
      ProposerFirst(cfg, log, i, r, r'.(node := o.node), x, MergedFresh(s, x));
    } else {
      SameNodeProgress(s);
      QuietStep(cfg, log, i, r, r');
    }
  }

  lemma SameNodeProgress(s: Node)
    ensures Progress(s, s)
  {
  }

  /** The init and the prepare leave together once the init is pending. */
  lemma ProposerFirst(cfg: Config, log: seq<Msg>, i: NodeId, r: Replica, r': Replica, x: InitMsg, p: Pack)
    requires cfg.Valid() && LogOk(cfg, log + [InitM(x)]) && RepInv(cfg, log + [InitM(x)], i, r')
    requires Progress(r.node, r'.node) && x.nodeId == i && p.init == x
    ensures StepOk(cfg, log, i, r, Moved(r', Sends(i, NewInited(p))))
  {
    hide RepInv, LogOk, Progress, HasInit, LeaderOf, InitOk;
    var log1 := log + [InitM(x)];
    SentInitOk(cfg, log1, x);
    PrepareFollowsInit(cfg, log1, x, i);
    var n := PrepareM(PrepareMsg(x.term, x.height, x.block, i));
    SendingStep(cfg, log1, i, r, r', n);
    assert log1 + [n] == log + [InitM(x), n];
    assert Sends(i, NewInited(p)) == [InitM(x), n];
  }

  // ----------------------------------------------------------------- prepares

  lemma PrepareHasInit(cfg: Config, log: seq<Msg>, x: PrepareMsg)
    requires LogOk(cfg, log) && PrepareM(x) in log
    ensures HasInit(log, PreparePoint(x)) && x.height == Ht(x.block) >= 1
  {
    var k :| 0 <= k < |log| && log[k] == PrepareM(x);
    assert MsgOk(cfg, log[..k], log[k]);
    HasInitGrows(log[..k], log, PreparePoint(x));
    InitsHaveHeight(cfg, log, PreparePoint(x));
  }

  lemma CommitMsgHasInit(cfg: Config, log: seq<Msg>, x: CommitMsg)
    requires LogOk(cfg, log) && CommitM(x) in log
    ensures HasInit(log, CommitPoint(x)) && x.height == Ht(x.block) >= 1 && x.nodeId in cfg.Nodes()
  {
    var k :| 0 <= k < |log| && log[k] == CommitM(x);
    assert MsgOk(cfg, log[..k], log[k]);
    HasInitGrows(log[..k], log, CommitPoint(x));
    InitsHaveHeight(cfg, log, CommitPoint(x));
  }

  lemma FreshHasInit(cfg: Config, log: seq<Msg>, i: NodeId, r: Replica)
    requires cfg.Valid() && LogOk(cfg, log) && RepInv(cfg, log, i, r) && r.node.freshPack.Some?
    ensures HasInit(log, PackPoint(r.node.freshPack.value))
  {
    SentInitOk(cfg, log, r.node.freshPack.value.init);
  }

  /** A node that moved on within its round and has nothing to send. */
  lemma RoundQuiet(cfg: Config, log: seq<Msg>, i: NodeId, r: Replica, s: Node)
    requires cfg.Valid() && LogOk(cfg, log) && RepInv(cfg, log, i, r)
    requires NodeInv(s) && Progress(r.node, s)
    requires s.term == r.node.term && s.chain == r.node.chain
    requires s.freshPack.Some? <==> r.node.freshPack.Some?
    requires s.freshPack.Some? ==> s.freshPack.value.init == r.node.freshPack.value.init
    requires FreshBacked(log, s.freshPack) && CacheBacked(log, s.commitCache)
    requires VotieBacked(log, s.votie)
    ensures StepOk(cfg, log, i, r, Moved(r.(node := s), []))
  {
    hide NodeInv, FreshBacked, CacheBacked, VotieBacked, StepOk, LogOk;
    SameRound(cfg, log, i, r, s);
    hide RepInv, Progress;
    QuietStep(cfg, log, i, r, r.(node := s));
  }

  lemma StayQuiet(cfg: Config, log: seq<Msg>, i: NodeId, r: Replica, e: Event)
    requires cfg.Valid() && LogOk(cfg, log) && RepInv(cfg, log, i, r) && Sends(i, e) == []
    ensures StepOk(cfg, log, i, r, Moved(r, SendsAll(i, [e])))
    ensures StepOk(cfg, log, i, r, Moved(r, SendsAll(i, [])))
  {
    hide RepInv, LogOk, StepOk, Progress;
    SendsOfOne(i, e);
    SameNodeProgress(r.node);
    QuietStep(cfg, log, i, r, r);
  }

  /** A prepare for a height committed in a lower term is answered with the node's own. */
  lemma PrepareEcho(cfg: Config, log: seq<Msg>, i: NodeId, r: Replica, x: PrepareMsg)
    requires cfg.Valid() && LogOk(cfg, log) && RepInv(cfg, log, i, r) && PrepareM(x) in log
    ensures StepOk(cfg, log, i, r, Moved(r, SendsAll(i, [CommittedInLowerTerm(PrepareM(x))])))
  {
    hide RepInv, LogOk, StepOk, Progress;
    SendsOfOne(i, CommittedInLowerTerm(PrepareM(x)));
    SameNodeProgress(r.node);
    PrepareHasInit(cfg, log, x);
    SendingStep(cfg, log, i, r, r, PrepareM(x.(nodeId := i)));
  }

  lemma WrongPrepareStep(cfg: Config, log: seq<Msg>, i: NodeId, r: Replica, x: PrepareMsg)
    requires cfg.Valid() && LogOk(cfg, log) && RepInv(cfg, log, i, r) && r.node.Keyed()
    requires PrepareM(x) in log && x.term == r.node.term && x.height != r.node.Height() + 1
    ensures StepOk(cfg, log, i, r,
                   Handled(i, r, WrongHeight(r.node, x.term, x.height, x.block, x.nodeId, PrepareM(x), [])))
  {
    WrongHeightKeeps(r.node, x.term, x.height, x.block, x.nodeId, PrepareM(x), []);
    hide RepInv, LogOk, StepOk, NodeInv, Node.Keyed;
    StayQuiet(cfg, log, i, r, NeedSyncUp(x.nodeId));
    PrepareEcho(cfg, log, i, r, x);
    assert [] + [NeedSyncUp(x.nodeId)] == [NeedSyncUp(x.nodeId)];
    assert [] + [CommittedInLowerTerm(PrepareM(x))] == [CommittedInLowerTerm(PrepareM(x))];
  }

  /** Every vote so far is for the pending block's term or an earlier one. */
  lemma PreparedCommitOk(cfg: Config, log: seq<Msg>, i: NodeId, r: Replica)
    requires cfg.Valid() && LogOk(cfg, log) && RepInv(cfg, log, i, r) && r.node.freshPack.Some?
    requires i in cfg.Nodes()
    ensures MsgOk(cfg, log, Commit(PackPoint(r.node.freshPack.value), i))
    ensures r.node.freshPack.value.init.term == r.node.term
  {
    FreshHasInit(cfg, log, i, r);
  }

  /** Sending the commit of a prepared block, which the votie already covers. */
  lemma PreparedSends(cfg: Config, log: seq<Msg>, i: NodeId, r: Replica, r': Replica, p: Pack)
    requires cfg.Valid() && LogOk(cfg, log) && RepInv(cfg, log, i, r') && Progress(r.node, r'.node)
    requires r'.node.freshPack == Some(p) && i in cfg.Nodes()
    requires !Below(VotiePoint(r'.node.votie), PackPoint(p))
    ensures StepOk(cfg, log, i, r, Moved(r', SendsAll(i, [NewPrepared(p)])))
  {
    hide RepInv, LogOk, StepOk, Progress, MsgOk, Below;
    PreparedCommitOk(cfg, log, i, r');
    SendsOfOne(i, NewPrepared(p));
    SendingStep(cfg, log, i, r, r', Commit(PackPoint(p), i));
  }

  lemma GrownPrepareStep(cfg: Config, log: seq<Msg>, i: NodeId, r: Replica, x: PrepareMsg)
    requires cfg.Valid() && LogOk(cfg, log) && RepInv(cfg, log, i, r) && i in cfg.Nodes()
    requires x.term == r.node.term && r.node.freshPack.Some?
    requires x.block == r.node.freshPack.value.init.block && x.height == r.node.freshPack.value.init.height
    ensures var grown := r.node.freshPack.value.(prepares := r.node.freshPack.value.prepares[x.nodeId := x]);
            var s1 := r.node.(freshPack := Some(grown));
            && StepOk(cfg, log, i, r, Moved(r.(node := s1), SendsAll(i, [])))
            && StepOk(cfg, log, i, r, Moved(r.(node := RaiseVotie(s1, grown)), SendsAll(i, [NewPrepared(grown)])))
  {
    var grown := r.node.freshPack.value.(prepares := r.node.freshPack.value.prepares[x.nodeId := x]);
    var s1 := r.node.(freshPack := Some(grown));
    var s2 := RaiseVotie(s1, grown);
    GrownPrepareKeeps(r.node, x);
    RaiseVotieKeeps(s1, grown);
    FreshHasInit(cfg, log, i, r);
    hide NodeInv, LogOk, StepOk;
    RoundQuiet(cfg, log, i, r, s1);
    assert VotieBacked(log, s2.votie);
    SameRound(cfg, log, i, r, s2);
    hide RepInv;
    PreparedSends(cfg, log, i, r, r.(node := s2), grown);
  }

  lemma CachedPrepareStep(cfg: Config, log: seq<Msg>, i: NodeId, r: Replica, x: PrepareMsg)
    requires cfg.Valid() && LogOk(cfg, log) && RepInv(cfg, log, i, r)
    ensures var s := r.node.(prepareCache := CacheAppend(r.node.prepareCache, x.term, x.height, x));
            StepOk(cfg, log, i, r, Moved(r.(node := s), SendsAll(i, [])))
  {
    hide LogOk, StepOk, NodeInv, CacheAppend, Progress, FreshBacked, CacheBacked, VotieBacked;
    CachedPrepareKeeps(r.node, x);
    RoundQuiet(cfg, log, i, r, r.node.(prepareCache := CacheAppend(r.node.prepareCache, x.term, x.height, x)));
  }

  lemma PrepareStep(cfg: Config, log: seq<Msg>, i: NodeId, r: Replica, x: PrepareMsg)
    requires cfg.Valid() && LogOk(cfg, log) && RepInv(cfg, log, i, r) && r.node.Keyed()
    requires PrepareM(x) in log && i in cfg.Nodes()
    ensures StepOk(cfg, log, i, r, Handled(i, r, HandlePrepare(cfg, r.node, x)))
  {
    hide RepInv, NodeInv, LogOk, StepOk, SendsAll, RaiseVotie, CacheAppend, WrongHeight, Node.Keyed,
         Config.QuorumN;
    StayQuiet(cfg, log, i, r, NeedSyncUp(x.nodeId));
    if x.term == r.node.term {
      if x.height != r.node.Height() + 1 {
        WrongPrepareStep(cfg, log, i, r, x);
      } else if r.node.freshPack.None? {
        CachedPrepareStep(cfg, log, i, r, x);
      } else if x.block == r.node.freshPack.value.init.block {
        PrepareHasInit(cfg, log, x);
        FreshFixesHeight(cfg, log, i, r);
        GrownPrepareStep(cfg, log, i, r, x);
      }
    }
  }

  lemma FreshFixesHeight(cfg: Config, log: seq<Msg>, i: NodeId, r: Replica)
    requires cfg.Valid() && RepInv(cfg, log, i, r)
    ensures r.node.freshPack.Some? ==>
              var x := r.node.freshPack.value.init;
              x.height == Ht(x.block) <= |r.node.chain| && x.term == r.node.term
  {
  }

  // ------------------------------------------------------------------ commits

  /** The node's top is x's block in a lower term, so that block was chosen before x. */
  lemma EchoCovered(cfg: Config, log: seq<Msg>, i: NodeId, r: Replica, x: CommitMsg)
    requires cfg.Valid() && LogOk(cfg, log) && RepInv(cfg, log, i, r) && r.node.Keyed() && CommitM(x) in log
    requires i in cfg.Nodes() && x.term == r.node.term
    requires var top := r.node.Top().init;
             x.height == top.height && x.term > top.term && x.block == top.block
    ensures MsgOk(cfg, log, CommitM(x.(nodeId := i)))
    ensures Covered(cfg, log, x.(nodeId := i), r.node.term, r.node.votie)
  {
    CommitMsgHasInit(cfg, log, x);
    var p := PackPoint(r.node.Top());
    assert Settled(cfg, log, p);
    assert CommitPoint(x.(nodeId := i)).(term := p.term) == p;
    assert ChosenBefore(cfg, log, CommitPoint(x.(nodeId := i)));
  }

  lemma CommitEcho(cfg: Config, log: seq<Msg>, i: NodeId, r: Replica, x: CommitMsg)
    requires cfg.Valid() && LogOk(cfg, log) && RepInv(cfg, log, i, r) && r.node.Keyed() && CommitM(x) in log
    requires i in cfg.Nodes() && x.term == r.node.term
    requires var top := r.node.Top().init;
             x.height == top.height && x.term > top.term && x.block == top.block
    ensures StepOk(cfg, log, i, r, Moved(r, SendsAll(i, [CommittedInLowerTerm(CommitM(x))])))
  {
    hide RepInv, LogOk, StepOk, Progress, MsgOk, Covered;
    SendsOfOne(i, CommittedInLowerTerm(CommitM(x)));
    SameNodeProgress(r.node);
    EchoCovered(cfg, log, i, r, x);
    SendingStep(cfg, log, i, r, r, CommitM(x.(nodeId := i)));
  }

  lemma WrongCommitStep(cfg: Config, log: seq<Msg>, i: NodeId, r: Replica, x: CommitMsg)
    requires cfg.Valid() && LogOk(cfg, log) && RepInv(cfg, log, i, r) && r.node.Keyed()
    requires CommitM(x) in log && x.term == r.node.term && x.height != r.node.Height() + 1
    requires i in cfg.Nodes()
    ensures StepOk(cfg, log, i, r,
                   Handled(i, r, WrongHeight(r.node, x.term, x.height, x.block, x.nodeId, CommitM(x), [])))
  {
    WrongHeightKeeps(r.node, x.term, x.height, x.block, x.nodeId, CommitM(x), []);
    hide RepInv, LogOk, StepOk, NodeInv, Node.Keyed;
    StayQuiet(cfg, log, i, r, NeedSyncUp(x.nodeId));
    var top := r.node.Top().init;
    if x.height == top.height && x.term > top.term && x.block == top.block {
      CommitEcho(cfg, log, i, r, x);
    }
    assert [] + [NeedSyncUp(x.nodeId)] == [NeedSyncUp(x.nodeId)];
    assert [] + [CommittedInLowerTerm(CommitM(x))] == [CommittedInLowerTerm(CommitM(x))];
  }

  lemma AppendedCommits(log: seq<Msg>, c: Cache<CommitMsg>, x: CommitMsg)
    requires CommitsKeyed(c) && CacheBacked(log, c) && CommitM(x) in log
    ensures var c' := CacheAppend(c, x.term, x.height, x); CommitsKeyed(c') && CacheBacked(log, c')
  {
    hide CacheAppend;
    AppendedCache(c, x.term, x.height, x);
  }

  lemma CachedCommitKeeps(log: seq<Msg>, s: Node, x: CommitMsg)
    requires NodeInv(s) && CacheBacked(log, s.commitCache) && CommitM(x) in log
    ensures var s' := s.(commitCache := CacheAppend(s.commitCache, x.term, x.height, x));
            NodeInv(s') && Progress(s, s') && CacheBacked(log, s'.commitCache)
  {
    hide ChainInv, FreshInv, WeakInv, PreparesKeyed, CommitsKeyed, CacheBacked, CacheAppend;
    AppendedCommits(log, s.commitCache, x);
  }

  lemma CachedCommitStep(cfg: Config, log: seq<Msg>, i: NodeId, r: Replica, x: CommitMsg)
    requires cfg.Valid() && LogOk(cfg, log) && RepInv(cfg, log, i, r) && CommitM(x) in log
    ensures var s := r.node.(commitCache := CacheAppend(r.node.commitCache, x.term, x.height, x));
            StepOk(cfg, log, i, r, Moved(r.(node := s), SendsAll(i, [])))
  {
    hide LogOk, StepOk, NodeInv, CacheAppend, Progress, FreshBacked, CacheBacked, VotieBacked;
    CachedCommitKeeps(log, r.node, x);
    RoundQuiet(cfg, log, i, r, r.node.(commitCache := CacheAppend(r.node.commitCache, x.term, x.height, x)));
  }

  lemma GrownCommit(cfg: Config, log: seq<Msg>, i: NodeId, r: Replica, x: CommitMsg)
    requires cfg.Valid() && LogOk(cfg, log) && RepInv(cfg, log, i, r) && CommitM(x) in log
    requires x.term == r.node.term && r.node.freshPack.Some?
    requires x.block == r.node.freshPack.value.init.block && x.height == r.node.freshPack.value.init.height
    ensures var grown := r.node.freshPack.value.(commits := r.node.freshPack.value.commits[x.nodeId := x]);
            var s1 := r.node.(freshPack := Some(grown));
            NodeInv(s1) && Progress(r.node, s1) && FreshCommittable(s1)
            && RepInv(cfg, log, i, r.(node := s1))
            && StepOk(cfg, log, i, r, Moved(r.(node := s1), SendsAll(i, [])))
  {
    var grown := r.node.freshPack.value.(commits := r.node.freshPack.value.commits[x.nodeId := x]);
    var s1 := r.node.(freshPack := Some(grown));
    GrownCommitKeeps(r.node, x);
    hide NodeInv, LogOk, StepOk;
    assert FreshBacked(log, s1.freshPack);
    SameRound(cfg, log, i, r, s1);
    RoundQuiet(cfg, log, i, r, s1);
  }

  /** A pending block with a quorum of commits is chosen: all its commits name it,
      because only one block was proposed at its term and height. */
  lemma FreshChosen(cfg: Config, log: seq<Msg>, i: NodeId, r: Replica)
    requires cfg.Valid() && LogOk(cfg, log) && RepInv(cfg, log, i, r) && r.node.freshPack.Some?
    requires |r.node.freshPack.value.commits| >= cfg.QuorumN()
    ensures Chosen(cfg, log, PackPoint(r.node.freshPack.value))
  {
    var p := r.node.freshPack.value;
    FreshHasInit(cfg, log, i, r);
    forall j | j in p.commits ensures j in Committers(cfg, log, PackPoint(p)) {
      var c := p.commits[j];
      CommitMsgHasInit(cfg, log, c);
      InitsUnique(cfg, log, CommitPoint(c), PackPoint(p));
      assert CommitM(c) == Commit(PackPoint(p), j);
    }
    assert p.commits.Keys <= Committers(cfg, log, PackPoint(p));
    SubsetSize(p.commits.Keys, Committers(cfg, log, PackPoint(p)));
  }

  lemma ChainBackedOnTop(cfg: Config, log: seq<Msg>, chain: seq<Pack>, p: Pack)
    requires ChainBacked(cfg, log, chain) && Settled(cfg, log, PackPoint(p))
    ensures ChainBacked(cfg, log, chain + [p])
  {
    hide Settled;
  }

  lemma VotieRaised(log: seq<Msg>, s: Node, p: Pack)
    requires VotieBacked(log, s.votie) && HasInit(log, PackPoint(p))
    ensures VotieBacked(log, RaiseVotie(s, p).votie)
  {
  }

  /** The node commitBlockWithCheck leaves: the pending block on top, nothing pending. */
  function Finished(s: Node, p: Pack): Node
    requires p.init.height <= |s.chain|
  {
    RaiseVotie(JustCommitIt(s, p.(prepares := map[])).(freshPack := None), p.(prepares := map[]))
  }

  lemma FinishedKeeps(cfg: Config, log: seq<Msg>, i: NodeId, r: Replica)
    requires cfg.Valid() && LogOk(cfg, log) && RepInv(cfg, log, i, r)
    requires r.node.freshPack.Some? && r.node.freshPack.value.init.height == |r.node.chain|
    requires |r.node.freshPack.value.commits| >= cfg.QuorumN()
    ensures r.node.Keyed()
    ensures var p := r.node.freshPack.value;
            var s := Finished(r.node, p);
            && CommitBlockWithCheck(cfg, r.node, p) == Committed(s, [NewCommitted(p.(prepares := map[]))])
            && NodeInv(s) && Progress(r.node, s)
            && s.term == r.node.term && s.chain == r.node.chain + [p.(prepares := map[])]
            && s.freshPack.None? && s.commitCache == r.node.commitCache
            && ChainBacked(cfg, log, s.chain) && VotieBacked(log, s.votie)
  {
    var p := r.node.freshPack.value;
    var top := p.(prepares := map[]);
    CommitSucceeds(cfg, r.node, p);
    CommitKeeps(cfg, r.node, p);
    FreshChosen(cfg, log, i, r);
    FreshHasInit(cfg, log, i, r);
    ChainBackedOnTop(cfg, log, r.node.chain, top);
    VotieRaised(log, JustCommitIt(r.node, top).(freshPack := None), top);
    hide NodeInv, LogOk, Chosen, HasInit, ChainBacked, CommitBlockWithCheck, VotieBacked, Progress;
  }

  /** commitBlockWithCheck on the pending block. */
  lemma CommitBlockStep(cfg: Config, log: seq<Msg>, i: NodeId, r: Replica, r1: Replica)
    requires cfg.Valid() && LogOk(cfg, log) && RepInv(cfg, log, i, r1)
    requires r1 == r.(node := r1.node) && Progress(r.node, r1.node)
    requires r1.node.freshPack.Some? && r1.node.freshPack.value.init.height == |r1.node.chain|
    requires |r1.node.freshPack.value.commits| >= cfg.QuorumN()
    ensures r1.node.Keyed()
    ensures var o := CommitBlockWithCheck(cfg, r1.node, r1.node.freshPack.value);
            o.Committed? && StepOk(cfg, log, i, r, Moved(r.(node := o.node), SendsAll(i, o.events)))
  {
    hide NodeInv, LogOk, StepOk, ChainBacked, CommitBlockWithCheck, VotieBacked, Finished, RepInv;
    var p := r1.node.freshPack.value;
    var s := Finished(r1.node, p);
    FinishedKeeps(cfg, log, i, r1);
    Taller(cfg, log, i, r1, s);
    ProgressTrans(r.node, r1.node, s);
    hide Progress;
    SendsOfOne(i, NewCommitted(p.(prepares := map[])));
    QuietStep(cfg, log, i, r, r.(node := s));
  }

  lemma CommitStep(cfg: Config, log: seq<Msg>, i: NodeId, r: Replica, x: CommitMsg)
    requires cfg.Valid() && LogOk(cfg, log) && RepInv(cfg, log, i, r) && r.node.Keyed()
    requires CommitM(x) in log && i in cfg.Nodes()
    ensures StepOk(cfg, log, i, r, Handled(i, r, HandleCommit(cfg, r.node, x)))
  {
    hide RepInv, NodeInv, LogOk, StepOk, SendsAll, CacheAppend, WrongHeight, Node.Keyed, Config.QuorumN,
         CommitBlockWithCheck, Progress;
    StayQuiet(cfg, log, i, r, NeedSyncUp(x.nodeId));
    if x.term == r.node.term {
      if x.height != r.node.Height() + 1 {
        WrongCommitStep(cfg, log, i, r, x);
      } else if r.node.freshPack.None? {
        CachedCommitStep(cfg, log, i, r, x);
      } else if x.block == r.node.freshPack.value.init.block && x.nodeId !in r.node.freshPack.value.commits {
        CommitMsgHasInit(cfg, log, x);
        FreshFixesHeight(cfg, log, i, r);
        GrownCommit(cfg, log, i, r, x);
        var grown := r.node.freshPack.value.(commits := r.node.freshPack.value.commits[x.nodeId := x]);
        if |grown.commits| >= cfg.QuorumN() {
          CommitBlockStep(cfg, log, i, r, r.(node := r.node.(freshPack := Some(grown))));
        }
      }
    }
  }
}
