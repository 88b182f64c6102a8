/** The cluster: every node's handlers, leader and sync-up over one log of sent
    messages. Messages can be lost, delayed, reordered and duplicated (any message of
    the log can be received at any time, or never), and a node can restart at any
    time, keeping its database only. */
module Braft {
  import opened ClusterParams
  import opened Protocol
  import opened MsgValidation
  import opened NodeSpec
  import opened LeaderSpec
  import opened MessageLog
  import opened NodeInvariant

  /** A node: its store, its leader object, the inits the leader has handed to
      HandleInitMsg in a goroutine that has not run yet, and the term the vote daemon
      has read and will vote for with the votie it reads later. */
  datatype Replica = Replica(node: Node, leader: Leader, pending: set<InitMsg>, voteTerm: Option<nat>)

  datatype Cluster = Cluster(reps: seq<Replica>, log: seq<Msg>)

  function InitReplica(): Replica { Replica(InitNode(), NewLeader(0), {}, None) }

  function InitCluster(cfg: Config): Cluster {
    Cluster(seq(|cfg.normal|, _ => InitReplica()), [])
  }

  // ------------------------------------------------- what an event broadcasts

  /** The messages the subscribers of an event send (node/node.go). */
  function Sends(i: NodeId, e: Event): seq<Msg> {
    match e
    case NewInited(p) =>
      (if p.init.nodeId == i then [InitM(p.init)] else [])
      + [PrepareM(PrepareMsg(p.init.term, p.init.height, p.init.block, i))]
    case NewPrepared(p) => [CommitM(CommitMsg(p.init.term, p.init.height, p.init.block, i))]
    case CommittedInLowerTerm(PrepareM(m)) => [PrepareM(m.(nodeId := i))]
    case CommittedInLowerTerm(CommitM(m)) => [CommitM(m.(nodeId := i))]
    case NewStrongAccuse(sa) => [StrongM(sa)]
    case _ => []
  }

  function SendsAll(i: NodeId, events: seq<Event>): seq<Msg> {
    if events == [] then [] else SendsAll(i, events[..|events| - 1]) + Sends(i, events[|events| - 1])
  }

  // -------------------------------------------------------------------- steps

  datatype Action = OnInit(init: InitMsg, txs: Verdict, reconfigOk: bool, m: Option<Votie>)
                  | OnOwnInit(init: InitMsg, txs: Verdict, reconfigOk: bool, m: Option<Votie>)
                  | OnPrepare(prepare: PrepareMsg)
                  | OnCommit(commit: CommitMsg)
                  | OnWeak(weak: WeakAccuse, expired: set<NodeId>)
                  | OnStrong(strong: StrongAccuse)
                  | OnPack(pack: Pack, confirmed: nat)
                  | SendPack(height: nat)
                  | ReadVoteTerm
                  | SendVote
                  | SendWeak(term: nat)
                  | LeaderTerm(term: nat)
                  | LeaderVote(vote: Vote)
                  | LeaderCommitted(height: nat)
                  | Propose(maxVotie: Votie, timestampMs: int, body: Option<Body>)
                  | Restart

  /** A received message has been sent, and a received vote has passed checkVote; the
      leader's channels carry terms and blocks of its own store; new blocks are TXS or
      RECONFIG blocks. */
  ghost predicate Enabled(cfg: Config, c: Cluster, i: NodeId, a: Action)
    requires cfg.Valid()
  {
    && i in cfg.Nodes() && i < |c.reps| && c.reps[i].node.chain != []
    && var r := c.reps[i];
       match a
       case OnInit(x, _, _, m) => InitM(x) in c.log && MaxAnswer(x.votes, m)
       case OnOwnInit(x, _, _, m) => x in r.pending && MaxAnswer(x.votes, m)
       case OnPrepare(x) => PrepareM(x) in c.log
       case OnCommit(x) => CommitM(x) in c.log
       case OnWeak(x, _) => WeakM(x) in c.log
       case OnStrong(x) => StrongM(x) in c.log
       case OnPack(p, _) => PackM(p) in c.log
       case SendPack(h) => h < |r.node.chain|
       case ReadVoteTerm => true
       case SendVote => r.voteTerm.Some?
       case SendWeak(_) => true
       case LeaderTerm(t) => t <= r.node.term
       case LeaderVote(v) => VoteM(v) in c.log && ValidVote(cfg, v)
       case LeaderCommitted(h) => h < |r.node.chain|
       case Propose(m, _, body) =>
         InCharge(cfg, i, r.leader) && r.leader.initing.None?
         && IsMaxVotie(r.leader.votes, m)
         && (body.Some? ==> !body.value.BchBody?)
       case Restart => true
  }

  datatype Effect = Moved(rep: Replica, sent: seq<Msg>) | Panicked

  /** A handler's outcome at node i: its events' broadcasts join the log. */
  function Handled(i: NodeId, r: Replica, o: Outcome): Effect {
    match o
    case Done(node, events) => Moved(r.(node := node), SendsAll(i, events))
    case Panic => Panicked
  }

  function EffectOf(cfg: Config, r: Replica, i: NodeId, a: Action): Effect
    requires cfg.Valid() && r.node.Keyed()
  {
    match a
    case OnInit(x, txs, ok, m) => Handled(i, r, HandleInit(cfg, r.node, x, txs, ok, m))
    case OnOwnInit(x, txs, ok, m) =>
      Handled(i, r.(pending := r.pending - {x}), HandleInit(cfg, r.node, x, txs, ok, m))
    case OnPrepare(x) => Handled(i, r, HandlePrepare(cfg, r.node, x))
    case OnCommit(x) => Handled(i, r, HandleCommit(cfg, r.node, x))
    case OnWeak(x, expired) => Handled(i, r, HandleWeak(cfg, r.node, x, expired))
    case OnStrong(x) => Handled(i, r, HandleStrong(r.node, x))
    case OnPack(p, n) => Moved(r.(node := SyncBlock(cfg, r.node, p, n)), [])
    case SendPack(h) => Moved(r, if h < |r.node.chain| then [PackM(r.node.chain[h])] else [])
    case ReadVoteTerm => Moved(r.(voteTerm := Some(r.node.term)), [])
    case SendVote =>
      if r.voteTerm.None? then Moved(r, [])
      else Moved(r.(voteTerm := None), [VoteM(Vote(r.voteTerm.value, r.node.votie, i))])
    case SendWeak(t) => Moved(r, [WeakM(WeakAccuse(t, i))])
    case LeaderTerm(t) => Moved(r.(leader := UpdateTerm(cfg, i, r.leader, t, r.node.Top()).0), [])
    case LeaderVote(v) => Moved(r.(leader := AddVote(cfg, i, r.leader, v, r.node.Top()).0), [])
    case LeaderCommitted(h) =>
      if h < |r.node.chain|
      then Moved(r.(leader := OnCommitted(cfg, i, r.leader, r.node.chain[h], r.node.Top()).0), [])
      else Moved(r, [])
    case Propose(m, ts, body) =>
      (match TryCreateBlock(i, r.node, r.leader, m, ts, body)
       case None => Moved(r, [])
       case Some(x) => Moved(r.(leader := r.leader.(initing := Some(x)), pending := r.pending + {x}), []))
    case Restart => Moved(Replica(Restarted(r.node), NewLeader(r.node.term), {}, None), [])
  }

  ghost predicate Next(cfg: Config, c: Cluster, c': Cluster, i: NodeId, a: Action)
    requires cfg.Valid()
  {
    && Enabled(cfg, c, i, a)
    && c.reps[i].node.Keyed()
    && var e := EffectOf(cfg, c.reps[i], i, a);
       e.Moved? && c' == Cluster(c.reps[i := e.rep], c.log + e.sent)
  }

  // ---------------------------------------------------------------- invariant

  ghost predicate ChainBacked(cfg: Config, log: seq<Msg>, chain: seq<Pack>) {
    forall h :: 0 <= h < |chain| ==> Settled(cfg, log, PackPoint(chain[h]))
  }

  ghost predicate FreshBacked(log: seq<Msg>, freshPack: Option<Pack>) {
    freshPack.Some? ==>
      && InitM(freshPack.value.init) in log
      && forall i :: i in freshPack.value.commits ==> CommitM(freshPack.value.commits[i]) in log
  }

  ghost predicate CacheBacked(log: seq<Msg>, cache: Cache<CommitMsg>) {
    forall t, h, k :: 0 <= k < |Cached(cache, t, h)| ==> CommitM(Cached(cache, t, h)[k]) in log
  }

  ghost predicate VotieBacked(log: seq<Msg>, v: Votie) {
    VotiePoint(v) == GENESIS_POINT || HasInit(log, VotiePoint(v))
  }

  /** Every commit the node ever sent is of a term it has entered, and its votie is at
      least as high unless the block was already chosen in an earlier term. */
  ghost predicate CommitsCovered(cfg: Config, log: seq<Msg>, i: NodeId, term: nat, votie: Votie) {
    forall c :: CommitM(c) in log && c.nodeId == i ==>
      && c.term <= term
      && (!Below(VotiePoint(votie), CommitPoint(c)) || ChosenBefore(cfg, log, CommitPoint(c)))
  }

  ghost predicate VotesBelow(log: seq<Msg>, i: NodeId, term: nat) {
    forall v :: VoteM(v) in log && v.nodeId == i ==> v.term <= term
  }

  /** A proposal the node broadcast in its present term is committed or still pending. */
  predicate Tracked(x: InitMsg, term: nat, len: nat, freshPack: Option<Pack>) {
    || x.term < term
    || (x.term == term && (x.height < len || (freshPack.Some? && freshPack.value.init == x)))
  }

  ghost predicate InitsTracked(log: seq<Msg>, i: NodeId, term: nat, len: nat, freshPack: Option<Pack>) {
    forall x :: InitM(x) in log && x.nodeId == i ==> Tracked(x, term, len, freshPack)
  }

  ghost predicate LeaderBacked(cfg: Config, log: seq<Msg>, ld: Leader, nodeTerm: nat) {
    && ld.term <= nodeTerm
    && (forall j :: j in ld.votes ==> VoteM(ld.votes[j]) in log)
    && (forall t, j :: t in ld.pool && j in ld.pool[t] ==> VoteM(ld.pool[t][j]) in log)
  }

  /** An init waiting for its own node: supported, and the only one that could still
      be accepted is the one the leader is initing. */
  ghost predicate PendingOk(cfg: Config, log: seq<Msg>, i: NodeId, x: InitMsg, s: Node, ld: Leader)
    requires cfg.Valid()
  {
    && x.nodeId == i == LeaderOf(cfg.normal, x.term)
    && HasSupport(cfg, log, x)
    && x.term <= s.term && x.height <= |s.chain|
    && (x.term == s.term && x.height == |s.chain| ==>
          s.freshPack.None? && ld.term == s.term && ld.initing == Some(x))
  }

  /** The part of a node's invariant that does not concern its own proposals. */
  ghost predicate RepCore(cfg: Config, log: seq<Msg>, i: NodeId, r: Replica)
    requires cfg.Valid()
  {
    && NodeInv(r.node) && FreshCommittable(r.node)
    && ChainBacked(cfg, log, r.node.chain)
    && CacheBacked(log, r.node.commitCache)
    && VotieBacked(log, r.node.votie)
    && CommitsCovered(cfg, log, i, r.node.term, r.node.votie)
    && VotesBelow(log, i, r.node.term)
    && LeaderInv(cfg, i, r.leader)
    && LeaderBacked(cfg, log, r.leader, r.node.term)
    && (r.voteTerm.Some? ==> r.voteTerm.value <= r.node.term)
  }

  ghost predicate RepInv(cfg: Config, log: seq<Msg>, i: NodeId, r: Replica)
    requires cfg.Valid()
  {
    && RepCore(cfg, log, i, r)
    && FreshBacked(log, r.node.freshPack)
    && InitsTracked(log, i, r.node.term, |r.node.chain|, r.node.freshPack)
    && (forall x :: x in r.pending ==> PendingOk(cfg, log, i, x, r.node, r.leader))
  }

  ghost predicate ClusterInv(cfg: Config, c: Cluster)
    requires cfg.Valid()
  {
    && |c.reps| == |cfg.normal|
    && LogOk(cfg, c.log)
    && forall i: nat :: i < |c.reps| ==> RepInv(cfg, c.log, i, c.reps[i])
  }
}
