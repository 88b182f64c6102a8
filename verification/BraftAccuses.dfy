/** How the cluster leaves a term: in every run a term is entered only after enough
    distinct nodes have accused the one before it. */
module BraftAccuses {
  import opened ClusterParams
  import opened Protocol
  import opened NodeSpec
  import opened LeaderSpec
  import opened MessageLog
  import opened NodeInvariant
  import opened Braft
  import opened BraftSteps
  import opened BraftSafety

  /** Term t is the first, or a strong accuse of the term before it has been sent. */
  ghost predicate Accused(log: seq<Msg>, t: nat) {
    t == 0 || exists sa :: StrongM(sa) in log && sa.term + 1 == t
  }

  /** A strong accuse names enough nodes, each of which sent a weak accuse of the term. */
  ghost predicate Genuine(cfg: Config, log: seq<Msg>, sa: StrongAccuse) {
    && |sa.accusers| >= cfg.AccuseQuorumN()
    && forall j :: j in sa.accusers ==> WeakM(WeakAccuse(sa.term, j)) in log
  }

  ghost predicate LogAccusesOk(cfg: Config, log: seq<Msg>) {
    && (forall sa :: StrongM(sa) in log ==> Genuine(cfg, log, sa))
    && (forall v :: VoteM(v) in log ==> Accused(log, v.term))
  }

  ghost predicate NodeAccusesOk(log: seq<Msg>, s: Node) {
    && Accused(log, s.term)
    && forall j :: j in s.weak ==> WeakM(WeakAccuse(s.term, j)) in log
  }

  /** The term the vote daemon has read, if any, was accused into being. */
  ghost predicate VotesAccused(log: seq<Msg>, voteTerm: Option<nat>) {
    voteTerm.Some? ==> Accused(log, voteTerm.value)
  }

  ghost predicate AccuseInv(cfg: Config, c: Cluster) {
    && LogAccusesOk(cfg, c.log)
    && forall i :: 0 <= i < |c.reps| ==>
         NodeAccusesOk(c.log, c.reps[i].node) && VotesAccused(c.log, c.reps[i].voteTerm)
  }

  // --------------------------------------------------------- growing the log

  lemma AccusedGrows(log: seq<Msg>, sent: seq<Msg>, t: nat)
    requires Accused(log, t)
    ensures Accused(log + sent, t)
  {
    if t != 0 {
      var sa :| StrongM(sa) in log && sa.term + 1 == t;
      assert StrongM(sa) in log + sent;
    }
  }

  lemma NodeGrows(log: seq<Msg>, sent: seq<Msg>, s: Node)
    requires NodeAccusesOk(log, s)
    ensures NodeAccusesOk(log + sent, s)
  {
    AccusedGrows(log, sent, s.term);
  }

  /** The accuses and votes a step adds are as they should be. */
  ghost predicate SentOk(cfg: Config, log: seq<Msg>, sent: seq<Msg>) {
    && (forall sa :: StrongM(sa) in sent ==> Genuine(cfg, log, sa))
    && (forall v :: VoteM(v) in sent ==> Accused(log, v.term))
  }

  lemma LogGrows(cfg: Config, log: seq<Msg>, sent: seq<Msg>)
    requires LogAccusesOk(cfg, log) && SentOk(cfg, log, sent)
    ensures LogAccusesOk(cfg, log + sent)
  {
    hide Accused;
    forall v | VoteM(v) in log + sent ensures Accused(log + sent, v.term) {
      AccusedGrows(log, sent, v.term);
    }
    forall sa | StrongM(sa) in log + sent ensures Genuine(cfg, log + sent, sa) {
      assert Genuine(cfg, log, sa);
    }
  }

  // ------------------------------------------------------------------ a step

  /** Events other than a new strong accuse send neither strong accuses nor votes. */
  predicate Plain(events: seq<Event>) { forall e :: e in events ==> !e.NewStrongAccuse? }

  lemma {:induction false} PlainSends(cfg: Config, log: seq<Msg>, i: NodeId, events: seq<Event>)
    requires Plain(events)
    ensures SentOk(cfg, log, SendsAll(i, events))
  {
    if events != [] {
      PlainSends(cfg, log, i, events[..|events| - 1]);
      assert events[|events| - 1] in events;
    }
  }

  /** A proposal's term has been voted for, and so accused into being. */
  lemma InitAccused(cfg: Config, log: seq<Msg>, x: InitMsg)
    requires cfg.Valid() && LogOk(cfg, log) && LogAccusesOk(cfg, log) && InitM(x) in log
    ensures Accused(log, x.term)
  {
    var k :| 0 <= k < |log| && log[k] == InitM(x);
    assert MsgOk(cfg, log[..k], log[k]);
    var votes: map<NodeId, Vote>, top, m :| Supported(cfg, log[..k], x, votes, top, m);
    var i: NodeId :| i in votes && votes[i].votie == m;
    assert VoteM(votes[i]) in log;
  }

  /** What a handler leaves of a node's term and accuses. */
  ghost predicate Left(cfg: Config, log: seq<Msg>, i: NodeId, o: Outcome) {
    o.Done? && NodeAccusesOk(log, o.node) && SentOk(cfg, log, SendsAll(i, o.events))
  }

  lemma InTermPlain(cfg: Config, s: Node, x: InitMsg, txs: Verdict, ok: bool, m: Option<Votie>, before: seq<Event>)
    requires s.Keyed() && Plain(before)
    ensures var o := InitInTerm(cfg, s, x, txs, ok, m, before);
            o.Done? ==> o.node.term == s.term && o.node.weak == s.weak && Plain(o.events)
  {
    hide Node.Keyed, SupportedBy, MergedFresh, Config.QuorumN, Node.IsConnectingTop, Node.IsCommitted;
  }

  lemma InitLeaves(cfg: Config, log: seq<Msg>, i: NodeId, s: Node, x: InitMsg, txs: Verdict, ok: bool, m: Option<Votie>)
    requires s.Keyed() && NodeAccusesOk(log, s) && HandleInit(cfg, s, x, txs, ok, m).Done?
    requires x.term > s.term ==> Accused(log, x.term)
    ensures Left(cfg, log, i, HandleInit(cfg, s, x, txs, ok, m))
  {
    hide Accused, InitInTerm, Config.QuorumN;
    var o := HandleInit(cfg, s, x, txs, ok, m);
    if x.term > s.term {
      InTermPlain(cfg, EnterTerm(s, x.term), x, txs, ok, m, [NewTerm(x.term)]);
    } else {
      InTermPlain(cfg, s, x, txs, ok, m, []);
    }
    assert Plain(o.events);
    PlainSends(cfg, log, i, o.events);
  }

  lemma PrepareLeaves(cfg: Config, log: seq<Msg>, i: NodeId, s: Node, x: PrepareMsg)
    requires s.Keyed() && NodeAccusesOk(log, s) && HandlePrepare(cfg, s, x).Done?
    ensures Left(cfg, log, i, HandlePrepare(cfg, s, x))
  {
    var o := HandlePrepare(cfg, s, x);
    hide Accused, Node.Keyed, Config.QuorumN, CacheAppend;
    assert Plain(o.events);
    PlainSends(cfg, log, i, o.events);
  }

  lemma CommitBlockPlain(cfg: Config, s: Node, p: Pack)
    requires s.Keyed() && p.init.term <= s.term
    ensures var o := CommitBlockWithCheck(cfg, s, p);
            o.Committed? ==> o.node.term == s.term && o.node.weak == s.weak && Plain(o.events)
  {
    hide Node.Keyed, Config.QuorumN, Prepared, Committable;
  }

  lemma FreshTerm(s: Node)
    requires NodeInv(s)
    ensures s.freshPack.Some? ==> s.freshPack.value.init.term == s.term
  {
  }

  lemma CommitLeaves(cfg: Config, log: seq<Msg>, i: NodeId, s: Node, x: CommitMsg)
    requires NodeInv(s) && s.Keyed() && NodeAccusesOk(log, s) && HandleCommit(cfg, s, x).Done?
    ensures Left(cfg, log, i, HandleCommit(cfg, s, x))
  {
    hide NodeInv, Accused, Config.QuorumN, CacheAppend, CommitBlockWithCheck;
    var o := HandleCommit(cfg, s, x);
    FreshTerm(s);
    if s.freshPack.Some? {
      var grown := s.freshPack.value.(commits := s.freshPack.value.commits[x.nodeId := x]);
      CommitBlockPlain(cfg, s.(freshPack := Some(grown)), grown);
    }
    assert Plain(o.events);
    PlainSends(cfg, log, i, o.events);
  }

  lemma WeakRecorded(cfg: Config, log: seq<Msg>, s: Node, x: WeakAccuse, expired: set<NodeId>)
    requires NodeAccusesOk(log, s) && WeakM(x) in log
    ensures HandleWeak(cfg, s, x, expired).Done? && NodeAccusesOk(log, HandleWeak(cfg, s, x, expired).node)
  {
    hide Accused, Config.AccuseQuorumN;
  }

  lemma RaisedIsGenuine(cfg: Config, log: seq<Msg>, s: Node, x: WeakAccuse, expired: set<NodeId>)
    requires NodeAccusesOk(log, HandleWeak(cfg, s, x, expired).node)
    ensures forall sa :: NewStrongAccuse(sa) in HandleWeak(cfg, s, x, expired).events ==> Genuine(cfg, log, sa)
    ensures |HandleWeak(cfg, s, x, expired).events| <= 1
  {
    hide Accused, Config.AccuseQuorumN;
    var o := HandleWeak(cfg, s, x, expired);
    assert |o.node.weak| == |o.node.weak.Keys|;
  }

  lemma GenuineSends(cfg: Config, log: seq<Msg>, i: NodeId, e: Event)
    requires forall sa :: e == NewStrongAccuse(sa) ==> Genuine(cfg, log, sa)
    ensures SentOk(cfg, log, Sends(i, e))
  {
    hide Genuine, Accused;
  }

  lemma WeakLeaves(cfg: Config, log: seq<Msg>, i: NodeId, s: Node, x: WeakAccuse, expired: set<NodeId>)
    requires NodeAccusesOk(log, s) && WeakM(x) in log
    ensures Left(cfg, log, i, HandleWeak(cfg, s, x, expired))
  {
    hide NodeAccusesOk, HandleWeak, SentOk, Genuine, Accused;
    var o := HandleWeak(cfg, s, x, expired);
    WeakRecorded(cfg, log, s, x, expired);
    RaisedIsGenuine(cfg, log, s, x, expired);
    if o.events == [] {
      PlainSends(cfg, log, i, o.events);
    } else {
      assert o.events == [o.events[0]] && o.events[0] in o.events;
      SendsOfOne(i, o.events[0]);
      GenuineSends(cfg, log, i, o.events[0]);
    }
  }

  lemma StrongLeaves(cfg: Config, log: seq<Msg>, i: NodeId, s: Node, x: StrongAccuse)
    requires NodeAccusesOk(log, s) && StrongM(x) in log
    ensures Left(cfg, log, i, HandleStrong(s, x))
  {
    var o := HandleStrong(s, x);
    PlainSends(cfg, log, i, o.events);
  }

  /** Any enabled step leaves its node and sends what the invariant asks for. */
  ghost predicate EffectLeft(cfg: Config, log: seq<Msg>, e: Effect) {
    e.Moved? ==>
      NodeAccusesOk(log, e.rep.node) && VotesAccused(log, e.rep.voteTerm) && SentOk(cfg, log, e.sent)
  }

  lemma HandlerLeaves(cfg: Config, c: Cluster, i: NodeId, a: Action)
    requires cfg.Valid() && LogOk(cfg, c.log) && Enabled(cfg, c, i, a)
    requires LogAccusesOk(cfg, c.log) && NodeAccusesOk(c.log, c.reps[i].node) && c.reps[i].node.Keyed()
    requires RepInv(cfg, c.log, i, c.reps[i]) && NodeInv(c.reps[i].node)
    requires a.OnInit? || a.OnOwnInit? || a.OnPrepare? || a.OnCommit? || a.OnWeak? || a.OnStrong?
    requires EffectOf(cfg, c.reps[i], i, a).Moved? && VotesAccused(c.log, c.reps[i].voteTerm)
    ensures EffectLeft(cfg, c.log, EffectOf(cfg, c.reps[i], i, a))
  {
    hide RepInv, LogOk, StepOk, NodeInv, ChainInv, FreshInv, ClusterInv, HandleInit, HandlePrepare, HandleCommit,
         HandleWeak, HandleStrong, MaxAnswer, Members, SyncBlock, UpdateTerm, AddVote, OnCommitted, TryCreateBlock,
         InCharge, IsMaxVotie, Accused, Genuine, Node.Keyed, LogAccusesOk, NodeAccusesOk, SentOk, SendsAll;
    var r, log := c.reps[i], c.log;
    var s := r.node;
    match a
    case OnInit(x, txs, ok, m) => InitAccused(cfg, log, x); InitLeaves(cfg, log, i, s, x, txs, ok, m);
    case OnOwnInit(x, txs, ok, m) => OwnInitTerm(cfg, log, i, r, x); InitLeaves(cfg, log, i, s, x, txs, ok, m);
    case OnPrepare(x) => PrepareLeaves(cfg, log, i, s, x);
    case OnCommit(x) => CommitLeaves(cfg, log, i, s, x);
    case OnWeak(x, expired) => WeakLeaves(cfg, log, i, s, x, expired);
    case OnStrong(x) => StrongLeaves(cfg, log, i, s, x);
  }

  lemma NothingSent(cfg: Config, log: seq<Msg>, m: Msg)
    requires !m.StrongM? && (m.VoteM? ==> Accused(log, m.vote.term))
    ensures SentOk(cfg, log, []) && SentOk(cfg, log, [m])
  {
    hide Accused, Genuine;
  }

  lemma OtherLeaves(cfg: Config, c: Cluster, i: NodeId, a: Action)
    requires cfg.Valid() && Enabled(cfg, c, i, a) && NodeAccusesOk(c.log, c.reps[i].node) && c.reps[i].node.Keyed()
    requires VotesAccused(c.log, c.reps[i].voteTerm)
    requires !(a.OnInit? || a.OnOwnInit? || a.OnPrepare? || a.OnCommit? || a.OnWeak? || a.OnStrong?)
    ensures EffectLeft(cfg, c.log, EffectOf(cfg, c.reps[i], i, a))
  {
    hide RepInv, LogOk, StepOk, NodeInv, ChainInv, FreshInv, ClusterInv, HandleInit, HandlePrepare, HandleCommit,
         HandleWeak, HandleStrong, MaxAnswer, Members, SyncBlock, UpdateTerm, AddVote, OnCommitted, TryCreateBlock,
         InCharge, IsMaxVotie, Accused, Genuine, Node.Keyed, LogAccusesOk, NodeAccusesOk, SentOk, SendsAll;
    var r, log := c.reps[i], c.log;
    var s := r.node;
    NothingSent(cfg, log, WeakM(WeakAccuse(0, i)));
    match a
    case OnPack(p, n) => SyncLeaves(cfg, log, s, p, n);
    case SendPack(h) => NothingSent(cfg, log, PackM(s.chain[h]));
    case ReadVoteTerm => EnteredTerm(log, s);
    case SendVote => NothingSent(cfg, log, VoteM(Vote(r.voteTerm.value, s.votie, i)));
    case SendWeak(t) => NothingSent(cfg, log, WeakM(WeakAccuse(t, i)));
    case Restart => RestartLeaves(log, s);
    case _ =>
  }

  lemma EnteredTerm(log: seq<Msg>, s: Node)
    requires NodeAccusesOk(log, s)
    ensures Accused(log, s.term)
  {
  }

  lemma RestartLeaves(log: seq<Msg>, s: Node)
    requires NodeAccusesOk(log, s)
    ensures NodeAccusesOk(log, Restarted(s))
  {
    hide Accused;
  }

  lemma StepLeaves(cfg: Config, c: Cluster, i: NodeId, a: Action)
    requires cfg.Valid() && ClusterInv(cfg, c) && AccuseInv(cfg, c) && Enabled(cfg, c, i, a)
    ensures c.reps[i].node.Keyed() && EffectLeft(cfg, c.log, EffectOf(cfg, c.reps[i], i, a))
  {
    hide ClusterInv, Enabled, EffectOf, EffectLeft, NodeAccusesOk, LogAccusesOk, RepInv, NodeInv, LogOk;
    StepNeverPanics(cfg, c, i, a);
    NodeOfAction(cfg, c, i, a);
    EnabledNode(cfg, c, i);
    if a.OnInit? || a.OnOwnInit? || a.OnPrepare? || a.OnCommit? || a.OnWeak? || a.OnStrong? {
      HandlerLeaves(cfg, c, i, a);
    } else {
      OtherLeaves(cfg, c, i, a);
    }
  }

  lemma NodeOfAction(cfg: Config, c: Cluster, i: NodeId, a: Action)
    requires cfg.Valid() && Enabled(cfg, c, i, a)
    ensures i < |c.reps|
  {
  }

  lemma OwnInitTerm(cfg: Config, log: seq<Msg>, i: NodeId, r: Replica, x: InitMsg)
    requires cfg.Valid() && RepInv(cfg, log, i, r) && x in r.pending
    ensures x.term <= r.node.term
  {
    hide RepCore, HasSupport, LeaderOf;
    assert PendingOk(cfg, log, i, x, r.node, r.leader);
  }

  lemma SyncLeaves(cfg: Config, log: seq<Msg>, s: Node, p: Pack, n: nat)
    requires s.Keyed() && NodeAccusesOk(log, s)
    ensures NodeAccusesOk(log, SyncBlock(cfg, s, p, n))
  {
    hide CheckBlockPack, Accused;
  }

  lemma AccusesStepKeeps(cfg: Config, c: Cluster, c': Cluster, i: NodeId, a: Action)
    requires cfg.Valid() && ClusterInv(cfg, c) && AccuseInv(cfg, c) && Next(cfg, c, c', i, a)
    ensures AccuseInv(cfg, c')
  {
    hide EffectOf, ClusterInv, Enabled, NodeAccusesOk, SentOk, LogAccusesOk, Node.Keyed, Config.Valid;
    ActingNode(cfg, c, i, a);
    StepLeaves(cfg, c, i, a);
    var e := EffectOf(cfg, c.reps[i], i, a);
    LogGrows(cfg, c.log, e.sent);
    forall j | 0 <= j < |c'.reps|
      ensures NodeAccusesOk(c'.log, c'.reps[j].node) && VotesAccused(c'.log, c'.reps[j].voteTerm)
    {
      NodeGrows(c.log, e.sent, c'.reps[j].node);
      if c'.reps[j].voteTerm.Some? { AccusedGrows(c.log, e.sent, c'.reps[j].voteTerm.value); }
    }
  }

  lemma StartAccused(cfg: Config)
    ensures AccuseInv(cfg, InitCluster(cfg))
  {
  }

  lemma {:induction false} RunAccuses(cfg: Config, run: seq<Cluster>, k: nat)
    requires cfg.Valid() && IsRun(cfg, run) && k < |run|
    ensures AccuseInv(cfg, run[k])
  {
    hide ClusterInv, Next, AccuseInv, InitCluster, Config.Valid;
    if k == 0 {
      StartAccused(cfg);
    } else {
      RunAccuses(cfg, run, k - 1);
      RunInv(cfg, run, k - 1);
      assert Steps(cfg, run[k - 1], run[k]);
      var i, a :| Next(cfg, run[k - 1], run[k], i, a);
      AccusesStepKeeps(cfg, run[k - 1], run[k], i, a);
    }
  }

  /** TERMS ARE LEFT BY ACCUSE ONLY. In any run, a node is in term t > 0, or a vote or a
      proposal for it has been sent, only after AccuseQuorumN distinct nodes, hence at
      least one that is not faulty, have each sent a weak accuse of term t - 1. */
  lemma EnteredTermsWereAccused(cfg: Config, run: seq<Cluster>, k: nat, t: nat)
    requires cfg.Valid() && IsRun(cfg, run) && k < |run| && t > 0
    requires || (exists i :: 0 <= i < |run[k].reps| && run[k].reps[i].node.term == t)
             || (exists v :: VoteM(v) in run[k].log && v.term == t)
             || (exists x :: InitM(x) in run[k].log && x.term == t)
    ensures exists accusers: set<NodeId> ::
              && |accusers| >= cfg.AccuseQuorumN() > MaxFaulty(|cfg.Nodes()|)
              && forall j :: j in accusers ==> WeakM(WeakAccuse(t - 1, j)) in run[k].log
  {
    hide IsRun, AccuseInv, ClusterInv;
    RunAccuses(cfg, run, k);
    RunInv(cfg, run, k);
    var accusers := TermAccused(cfg, run[k], t);
  }

  lemma TermAccused(cfg: Config, c: Cluster, t: nat) returns (accusers: set<NodeId>)
    requires cfg.Valid() && ClusterInv(cfg, c) && AccuseInv(cfg, c) && t > 0
    requires || (exists i :: 0 <= i < |c.reps| && c.reps[i].node.term == t)
             || (exists v :: VoteM(v) in c.log && v.term == t)
             || (exists x :: InitM(x) in c.log && x.term == t)
    ensures |accusers| >= cfg.AccuseQuorumN()
    ensures forall j :: j in accusers ==> WeakM(WeakAccuse(t - 1, j)) in c.log
  {
    hide RepInv, LogOk, Config.AccuseQuorumN;
    if exists x :: InitM(x) in c.log && x.term == t {
      var x :| InitM(x) in c.log && x.term == t;
      InitAccused(cfg, c.log, x);
    }
    assert Accused(c.log, t);
    var sa :| StrongM(sa) in c.log && sa.term + 1 == t;
    assert Genuine(cfg, c.log, sa);
    accusers := sa.accusers;
  }
}
