/** What holds in every run of the cluster: any number of nodes, any loss, delay,
    reordering and duplication of messages, any restarts. */
module BraftSafety {
  import opened ClusterParams
  import opened Protocol
  import opened NodeSpec
  import opened LeaderSpec
  import opened MessageLog
  import opened NodeInvariant
  import opened Braft
  import opened BraftSteps
  import opened BraftLeaderSteps

  // ---------------------------------------------------------------- one step

  lemma EnabledNode(cfg: Config, c: Cluster, i: NodeId)
    requires cfg.Valid() && ClusterInv(cfg, c) && i < |c.reps|
    ensures RepInv(cfg, c.log, i, c.reps[i]) && LogOk(cfg, c.log)
    ensures c.reps[i].node.Keyed() && ChainInv(c.reps[i].node.chain, c.reps[i].node.index)
    ensures FreshInv(c.reps[i].node.freshPack, c.reps[i].node.term, c.reps[i].node.chain, c.reps[i].node.index)
    ensures NodeInv(c.reps[i].node)
  {
    hide LogOk;
    InvIsKeyed(c.reps[i].node);
  }

  lemma ActingNode(cfg: Config, c: Cluster, i: NodeId, a: Action)
    requires cfg.Valid() && Enabled(cfg, c, i, a)
    ensures i < |c.reps| && i in cfg.Nodes()
  {
    hide Config.Valid, Config.Nodes;
  }

  lemma HandlerStep(cfg: Config, c: Cluster, i: NodeId, a: Action)
    requires cfg.Valid() && ClusterInv(cfg, c) && Enabled(cfg, c, i, a)
    requires a.OnInit? || a.OnOwnInit? || a.OnPrepare? || a.OnCommit? || a.OnWeak? || a.OnStrong? || a.Restart?
    ensures c.reps[i].node.Keyed()
    ensures StepOk(cfg, c.log, i, c.reps[i], EffectOf(cfg, c.reps[i], i, a))
  {
    hide RepInv, LogOk, StepOk, NodeInv, ChainInv, FreshInv, ClusterInv, HandleInit, HandlePrepare, HandleCommit,
         HandleWeak, HandleStrong, MaxAnswer, Handled, Members, SyncBlock, UpdateTerm, AddVote, OnCommitted,
         TryCreateBlock, InCharge, IsMaxVotie, Node.Keyed, Config.Valid, Config.Nodes;
    EnabledNode(cfg, c, i);
    var r, log := c.reps[i], c.log;
    match a
    case OnInit(x, txs, ok, m) => InitStep(cfg, log, i, r, x, txs, ok, m);
    case OnOwnInit(x, txs, ok, m) => OwnInitStep(cfg, log, i, r, x, txs, ok, m);
    case OnPrepare(x) => PrepareStep(cfg, log, i, r, x);
    case OnCommit(x) => CommitStep(cfg, log, i, r, x);
    case OnWeak(x, expired) => WeakStep(cfg, log, i, r, x, expired);
    case OnStrong(x) => StrongStep(cfg, log, i, r, x);
    case Restart => RestartStep(cfg, log, i, r);
  }

  lemma OtherStep(cfg: Config, c: Cluster, i: NodeId, a: Action)
    requires cfg.Valid() && ClusterInv(cfg, c) && Enabled(cfg, c, i, a)
    requires a.OnPack? || a.SendPack? || a.ReadVoteTerm? || a.SendVote? || a.SendWeak? || a.LeaderTerm? || a.LeaderVote?
             || a.LeaderCommitted? || a.Propose?
    ensures c.reps[i].node.Keyed()
    ensures StepOk(cfg, c.log, i, c.reps[i], EffectOf(cfg, c.reps[i], i, a))
  {
    hide RepInv, LogOk, StepOk, NodeInv, ChainInv, FreshInv, ClusterInv, HandleInit, HandlePrepare, HandleCommit,
         HandleWeak, HandleStrong, MaxAnswer, Handled, Members, SyncBlock, UpdateTerm, AddVote, OnCommitted,
         TryCreateBlock, InCharge, IsMaxVotie, Node.Keyed, Config.Valid, Config.Nodes;
    EnabledNode(cfg, c, i);
    var r, log := c.reps[i], c.log;
    match a
    case OnPack(p, n) => PackStep(cfg, log, i, r, p, n);
    case SendPack(h) => SendPackStep(cfg, log, i, r, h);
    case ReadVoteTerm => ReadVoteTermStep(cfg, log, i, r);
    case SendVote => SendVoteStep(cfg, log, i, r);
    case SendWeak(t) => SendWeakStep(cfg, log, i, r, t);
    case LeaderTerm(t) => LeaderTermStep(cfg, log, i, r, t, r.node.Top());
    case LeaderVote(v) => LeaderVoteStep(cfg, log, i, r, v, r.node.Top());
    case LeaderCommitted(h) => LeaderCommittedStep(cfg, log, i, r, h, r.node.Top());
    case Propose(m, ts, body) => ProposeStep(cfg, log, i, r, m, ts, body);
  }

  lemma {:induction false} OthersGrow(cfg: Config, log: seq<Msg>, i: NodeId, sent: seq<Msg>, j: NodeId, r: Replica)
    requires cfg.Valid() && RepInv(cfg, log, j, r) && Authored(i, sent) && i != j
    ensures RepInv(cfg, log + sent, j, r)
  {
    if sent == [] {
      assert log + sent == log;
    } else {
      hide RepInv;
      var n := |sent| - 1;
      OthersGrow(cfg, log, i, sent[..n], j, r);
      assert sent[n] in sent;
      RepGrows(cfg, log + sent[..n], sent[n], j, r);
      assert log + sent[..n] + [sent[n]] == log + sent;
    }
  }

  /** No step that can be taken fails an assertion of the source. */
  lemma StepNeverPanics(cfg: Config, c: Cluster, i: NodeId, a: Action)
    requires cfg.Valid() && ClusterInv(cfg, c) && Enabled(cfg, c, i, a)
    ensures c.reps[i].node.Keyed() && EffectOf(cfg, c.reps[i], i, a).Moved?
    ensures StepOk(cfg, c.log, i, c.reps[i], EffectOf(cfg, c.reps[i], i, a))
  {
    hide ClusterInv, Enabled, EffectOf;
    if a.OnInit? || a.OnOwnInit? || a.OnPrepare? || a.OnCommit? || a.OnWeak? || a.OnStrong? || a.Restart? {
      HandlerStep(cfg, c, i, a);
    } else {
      OtherStep(cfg, c, i, a);
    }
    hide RepInv, LogOk, Progress;
  }

  lemma StepKeeps(cfg: Config, c: Cluster, c': Cluster, i: NodeId, a: Action)
    requires cfg.Valid() && ClusterInv(cfg, c) && Next(cfg, c, c', i, a)
    ensures ClusterInv(cfg, c')
    ensures c.log <= c'.log && |c'.reps| == |c.reps|
    ensures forall j :: 0 <= j < |c.reps| ==> Progress(c.reps[j].node, c'.reps[j].node)
  {
    StepNeverPanics(cfg, c, i, a);
    var e := EffectOf(cfg, c.reps[i], i, a);
    hide EffectOf, RepInv, LogOk, Enabled, Members;
    forall j: nat | j < |c'.reps|
      ensures RepInv(cfg, c'.log, j, c'.reps[j]) && Progress(c.reps[j].node, c'.reps[j].node)
    {
      if j != i {
        OthersGrow(cfg, c.log, i, e.sent, j, c.reps[j]);
        SameNodeProgress(c.reps[j].node);
      }
    }
  }

  lemma InitialInv(cfg: Config)
    requires cfg.Valid()
    ensures ClusterInv(cfg, InitCluster(cfg))
  {
    InitiallyInv();
  }

  // --------------------------------------------------------------- whole runs

  ghost predicate Steps(cfg: Config, c: Cluster, c': Cluster)
    requires cfg.Valid()
  {
    exists i, a :: Next(cfg, c, c', i, a)
  }

  /** A run: the cluster's states from the start, one step after another. */
  ghost predicate IsRun(cfg: Config, run: seq<Cluster>)
    requires cfg.Valid()
  {
    && run != [] && run[0] == InitCluster(cfg)
    && forall j, k :: 0 <= j < |run| && 0 <= k < |run| && k == j + 1 ==> Steps(cfg, run[j], run[k])
  }

  lemma {:induction false} RunInv(cfg: Config, run: seq<Cluster>, k: nat)
    requires cfg.Valid() && IsRun(cfg, run) && k < |run|
    ensures ClusterInv(cfg, run[k])
  {
    if k == 0 {
      InitialInv(cfg);
    } else {
      RunInv(cfg, run, k - 1);
      assert Steps(cfg, run[k - 1], run[k]);
      var i, a :| Next(cfg, run[k - 1], run[k], i, a);
      hide ClusterInv, Next;
      StepKeeps(cfg, run[k - 1], run[k], i, a);
    }
  }

  lemma OneStepOn(cfg: Config, run: seq<Cluster>, k: nat)
    requires cfg.Valid() && IsRun(cfg, run) && k + 1 < |run|
    ensures run[k].log <= run[k + 1].log && |run[k + 1].reps| == |run[k].reps| == |cfg.normal|
    ensures forall i :: 0 <= i < |run[k].reps| ==> Progress(run[k].reps[i].node, run[k + 1].reps[i].node)
  {
    RunInv(cfg, run, k);
    assert Steps(cfg, run[k], run[k + 1]);
    var i, a :| Next(cfg, run[k], run[k + 1], i, a);
    hide Next, Progress, RepInv, LogOk, IsRun;
    StepKeeps(cfg, run[k], run[k + 1], i, a);
  }

  /** Nothing sent, committed or entered is ever taken back, across restarts too. */
  lemma {:induction false} RunProgress(cfg: Config, run: seq<Cluster>, j: nat, k: nat)
    requires cfg.Valid() && IsRun(cfg, run) && j <= k < |run|
    ensures run[j].log <= run[k].log && |run[k].reps| == |run[j].reps| == |cfg.normal|
    ensures forall i :: 0 <= i < |run[j].reps| ==> Progress(run[j].reps[i].node, run[k].reps[i].node)
  {
    hide IsRun, Progress;
    if j < k {
      RunProgress(cfg, run, j, k - 1);
      OneStepOn(cfg, run, k - 1);
      forall n | 0 <= n < |run[j].reps| ensures Progress(run[j].reps[n].node, run[k].reps[n].node) {
        ProgressTrans(run[j].reps[n].node, run[k - 1].reps[n].node, run[k].reps[n].node);
      }
    } else {
      RunSize(cfg, run, j);
      forall n | 0 <= n < |run[j].reps| ensures Progress(run[j].reps[n].node, run[k].reps[n].node) {
        SameNodeProgress(run[j].reps[n].node);
      }
    }
  }

  lemma RunSize(cfg: Config, run: seq<Cluster>, k: nat)
    requires cfg.Valid() && IsRun(cfg, run) && k < |run|
    ensures |run[k].reps| == |cfg.normal|
  {
    RunInv(cfg, run, k);
    hide IsRun, RepInv, LogOk;
  }

  /** Chain of node i in a state of the run. */
  function ChainOf(c: Cluster, i: nat): seq<Pack>
    requires i < |c.reps|
  {
    c.reps[i].node.chain
  }

  lemma CommittedIsSettled(cfg: Config, run: seq<Cluster>, k: nat, i: nat, h: nat)
    requires cfg.Valid() && IsRun(cfg, run) && k < |run| && i < |run[k].reps| && h < |ChainOf(run[k], i)|
    ensures LogOk(cfg, run[k].log)
    ensures Settled(cfg, run[k].log, PackPoint(ChainOf(run[k], i)[h]))
    ensures ChainOf(run[k], i)[h].init.height == h
  {
    RunInv(cfg, run, k);
    hide IsRun, LogOk;
  }

  /** AGREEMENT. In any run, a block that node a has committed at height h at some time
      is the block any node b has committed at h at any time. */
  lemma NodesAgree(cfg: Config, run: seq<Cluster>, j: nat, a: nat, k: nat, b: nat, h: nat)
    requires cfg.Valid() && IsRun(cfg, run)
    requires j < |run| && a < |run[j].reps| && h < |ChainOf(run[j], a)|
    requires k < |run| && b < |run[k].reps| && h < |ChainOf(run[k], b)|
    ensures ChainOf(run[j], a)[h].init.block == ChainOf(run[k], b)[h].init.block
  {
    if j <= k {
      RunProgress(cfg, run, j, k);
      CommittedIsSettled(cfg, run, k, a, h);
      CommittedIsSettled(cfg, run, k, b, h);
      hide IsRun, LogOk, Settled;
      Agreement(cfg, run[k].log, PackPoint(ChainOf(run[k], a)[h]), PackPoint(ChainOf(run[k], b)[h]));
    } else {
      RunProgress(cfg, run, k, j);
      CommittedIsSettled(cfg, run, j, a, h);
      CommittedIsSettled(cfg, run, j, b, h);
      hide IsRun, LogOk, Settled;
      Agreement(cfg, run[j].log, PackPoint(ChainOf(run[j], a)[h]), PackPoint(ChainOf(run[j], b)[h]));
    }
  }

  /** CARRY-FORWARD. Once a quorum has sent commits for p, every proposal of a later
      term broadcast before or after is higher, or proposes p's block at p's height. */
  lemma ChosenIsCarriedForward(cfg: Config, run: seq<Cluster>, j: nat, k: nat, p: Point, x: InitMsg)
    requires cfg.Valid() && IsRun(cfg, run) && j < |run| && k < |run|
    requires Chosen(cfg, run[j].log, p) && InitM(x) in run[k].log && p.term < x.term
    ensures x.height >= p.height && (x.height == p.height ==> x.block == p.block)
  {
    var n := if j <= k then k else j;
    RunInv(cfg, run, n);
    RunProgress(cfg, run, j, n);
    RunProgress(cfg, run, k, n);
    var log := run[n].log;
    hide IsRun;
    ChosenGrows(cfg, run[j].log, log, p);
    var s :| 0 <= s < |log| && log[s] == InitM(x);
    CarryForward(cfg, log, p, s);
  }

  /** PROPOSAL UNIQUENESS. Whatever crashes happen in between, no two different inits
      for one term and height are ever broadcast, and only by that term's leader. */
  lemma OneProposalPerTermAndHeight(cfg: Config, run: seq<Cluster>, j: nat, k: nat, x: InitMsg, y: InitMsg)
    requires cfg.Valid() && IsRun(cfg, run) && j < |run| && k < |run|
    requires InitM(x) in run[j].log && InitM(y) in run[k].log
    ensures x.nodeId == LeaderOf(cfg.normal, x.term)
    ensures x.term == y.term && x.height == y.height ==> x == y
  {
    var n := if j <= k then k else j;
    RunInv(cfg, run, n);
    RunProgress(cfg, run, j, n);
    RunProgress(cfg, run, k, n);
    hide IsRun;
    SentInitOk(cfg, run[n].log, x);
    if x.term == y.term && x.height == y.height { ProposalsUnique(cfg, run[n].log, x, y); }
  }

  /** CHAIN AND INDEX. In every state of every run, sync-ups and restarts included, each
      node holds heights 0 .. top of one hash-linked chain whose terms never decrease,
      and its id-to-height index is the exact inverse of the chain. */
  lemma ChainsStayConsistent(cfg: Config, run: seq<Cluster>, k: nat, i: nat)
    requires cfg.Valid() && IsRun(cfg, run) && k < |run| && i < |run[k].reps|
    ensures ChainInv(run[k].reps[i].node.chain, run[k].reps[i].node.index)
    ensures NodeInv(run[k].reps[i].node)
  {
    RunInv(cfg, run, k);
    hide IsRun;
    EnabledNode(cfg, run[k], i);
  }

  /** PANIC FREEDOM. In every state of every run, every enabled step goes through. */
  lemma RunNeverPanics(cfg: Config, run: seq<Cluster>, k: nat, i: NodeId, a: Action)
    requires cfg.Valid() && IsRun(cfg, run) && k < |run| && Enabled(cfg, run[k], i, a)
    ensures run[k].reps[i].node.Keyed() && EffectOf(cfg, run[k].reps[i], i, a).Moved?
    ensures exists c' :: Next(cfg, run[k], c', i, a)
  {
    RunInv(cfg, run, k);
    hide IsRun, ClusterInv, EffectOf, Next;
    StepNeverPanics(cfg, run[k], i, a);
    MovedIsNext(cfg, run[k], i, a);
  }

  lemma MovedIsNext(cfg: Config, c: Cluster, i: NodeId, a: Action)
    requires cfg.Valid() && Enabled(cfg, c, i, a)
    requires c.reps[i].node.Keyed() && EffectOf(cfg, c.reps[i], i, a).Moved?
    ensures exists c' :: Next(cfg, c, c', i, a)
  {
    hide EffectOf;
    var e := EffectOf(cfg, c.reps[i], i, a);
    assert Next(cfg, c, Cluster(c.reps[i := e.rep], c.log + e.sent), i, a);
  }
}
