/** What each consensus handler of primitives/blockstore.go does to one node, as a
    function of the node's stored state. BlockStore.dfy proves the imperative
    handlers against these functions. */
module NodeSpec {
  import opened Protocol
  import opened MsgValidation

  /** Verdict of validateTxs; the chains it consults are not modelled. */
  datatype Verdict = Valid | Invalid | NotExist

  datatype Event = NeedSyncUp(peer: NodeId)
                 | NewInited(pack: Pack)
                 | NewPrepared(pack: Pack)
                 | NewCommitted(top: Pack)
                 | CommittedInLowerTerm(msg: Msg)
                 | NewTerm(term: nat)
                 | NewWeakAccuse(term: nat)
                 | NewStrongAccuse(accuse: StrongAccuse)
                 | StrongAccuseProcessed(accuse: StrongAccuse)

  type Cache<T> = map<nat, map<nat, seq<T>>>

  /** The database keys NodeState_*, the committed chain by height, the heights by
      block id, and the two in-memory caches. */
  datatype Node = Node(term: nat, freshPack: Option<Pack>, votie: Votie,
                       weak: map<NodeId, WeakAccuse>, lastAccuse: Option<StrongAccuse>,
                       chain: seq<Pack>, index: map<Block, nat>,
                       prepareCache: Cache<PrepareMsg>, commitCache: Cache<CommitMsg>)
  {
    /** The chain is stored by height and the index refers to stored heights. */
    ghost predicate Keyed() {
      && chain != []
      && (forall h :: 0 <= h < |chain| ==> chain[h].init.height == h)
      && (forall b :: b in index ==> index[b] < |chain|)
    }

    function Height(): int { |chain| - 1 }

    function Top(): Pack
      requires chain != []
    {
      chain[|chain| - 1]
    }

    predicate IsCommitted(b: Block) { b in index }

    predicate IsConnectingTop(p: Pack)
      requires chain != []
    {
      && p.init.block.Block? && p.init.block.prev == Top().init.block
      && p.init.term >= Top().init.term
      && p.init.height == Top().init.height + 1
    }
  }

  /** A handler either finishes with the new state and the deferred events, or an
      assertion of the source fails. */
  datatype Outcome = Done(node: Node, events: seq<Event>) | Panic

  function InitNode(): Node {
    Node(0, None, GENESIS_PACK.ToVotie(), map[], None,
         [GENESIS_PACK], map[Genesis := 0], map[], map[])
  }

  // ----------------------------------------------------------------- caches

  function Cached<T>(c: Cache<T>, term: nat, height: nat): seq<T> {
    if term in c && height in c[term] then c[term][height] else []
  }

  function CacheAppend<T>(c: Cache<T>, term: nat, height: nat, m: T): Cache<T> {
    var row := if term in c then c[term] else map[];
    c[term := row[height := (if height in row then row[height] else []) + [m]]]
  }

  function CacheDrop<T>(c: Cache<T>, term: nat, height: nat): Cache<T> {
    if term in c && height in c[term] then c[term := c[term] - {height}] else c
  }

  /** Later entries of the cache replace earlier ones from the same node. */
  function PreparesOf(ms: seq<PrepareMsg>): map<NodeId, PrepareMsg> {
    if ms == [] then map[]
    else
      var m := ms[|ms| - 1];
      PreparesOf(ms[..|ms| - 1])[m.nodeId := m]
  }

  function CommitsOf(ms: seq<CommitMsg>): map<NodeId, CommitMsg> {
    if ms == [] then map[]
    else
      var m := ms[|ms| - 1];
      CommitsOf(ms[..|ms| - 1])[m.nodeId := m]
  }

  // --------------------------------------------------------------- handlers

  /** JustCommitIt: store under the pack's height and record the id's height. */
  function JustCommitIt(s: Node, p: Pack): Node
    requires p.init.height <= |s.chain|
  {
    s.(chain := if p.init.height == |s.chain| then s.chain + [p] else s.chain[p.init.height := p],
       index := s.index[p.init.block := p.init.height])
  }

  /** updateVotie past its assertion. */
  function RaiseVotie(s: Node, p: Pack): Node {
    if HasLessTermHeightThan(s.votie, p.ToVotie()) then s.(votie := p.ToVotie()) else s
  }

  predicate Prepared(cfg: Config, p: Pack) {
    |p.prepares| >= cfg.QuorumN() || |p.commits| >= cfg.QuorumN()
  }

  /** handleWrongHeightProgressMsg; msg is the init, prepare or commit itself. */
  function WrongHeight(s: Node, term: nat, height: nat, block: Block, from: NodeId, msg: Msg,
                       events: seq<Event>): Outcome
    requires s.Keyed()
  {
    var top := s.Top().init;
    if term != s.term || height == top.height + 1 then Panic
    else if height == top.height then
      if term > top.term && block == top.block
      then Done(s, events + [CommittedInLowerTerm(msg)]) else Done(s, events)
    else if height > top.height + 1 then Done(s, events + [NeedSyncUp(from)])
    else Done(s, events)
  }

  /** updateNodeTermWithInit past its two guards. */
  function EnterTerm(s: Node, term: nat): Node {
    s.(term := term, lastAccuse := None, weak := map[], freshPack := None)
  }

  /** isInitSupportedByVotes for the max votie m its map iteration found. */
  predicate SupportedBy(s: Node, init: InitMsg, m: Votie)
    requires s.Keyed()
  {
    || HasLessTermHeightThan(m, s.Top().ToVotie())
    || m.block == s.Top().init.block
    || m.block == init.block
  }

  /** The pack SetFresh stores: the init with the cached certificates merged in. */
  function MergedFresh(s: Node, init: InitMsg): Pack {
    Pack(init, PreparesOf(Cached(s.prepareCache, init.term, init.height)),
         CommitsOf(Cached(s.commitCache, init.term, init.height)))
  }

  function AcceptInit(s: Node, init: InitMsg, events: seq<Event>): Outcome {
    var merged := MergedFresh(s, init);
    Done(s.(freshPack := Some(merged),
            prepareCache := CacheDrop(s.prepareCache, init.term, init.height),
            commitCache := CacheDrop(s.commitCache, init.term, init.height)),
         events + [NewInited(merged)])
  }

  /** handleInitMsg once the init's term is the node's term. */
  function InitInTerm(cfg: Config, s: Node, init: InitMsg, txs: Verdict, reconfigOk: bool,
                      m: Option<Votie>, events: seq<Event>): Outcome
    requires s.Keyed()
  {
    if init.height != s.Height() + 1 then
      WrongHeight(s, init.term, init.height, init.block, init.nodeId, InitM(init), events)
    else if !s.IsCommitted(init.block) && s.IsConnectingTop(Pack(init, map[], map[]))
            && txs == Valid && reconfigOk then
      if init.term > s.Top().init.term
         && (|init.votes| < cfg.QuorumN() || m.None? || !SupportedBy(s, init, m.value))
      then Done(s, events + [NewWeakAccuse(init.term)])
      else AcceptInit(s, init, events)
    else if txs == NotExist then Done(s, events)
    else Done(s, events + [NewWeakAccuse(init.term)])
  }

  /** handleInitMsg. txs and reconfigOk are what validateTxs and checkReconfigBlock
      answered, m the max votie of the init's votes. */
  function HandleInit(cfg: Config, s: Node, init: InitMsg, txs: Verdict, reconfigOk: bool,
                      m: Option<Votie>): Outcome
    requires s.Keyed()
  {
    if init.term > s.term then
      if init.height > s.Height() + 1 then Done(s, [NeedSyncUp(init.nodeId)])
      else if |init.votes| < cfg.QuorumN() then Done(s, [])
      else InitInTerm(cfg, EnterTerm(s, init.term), init, txs, reconfigOk, m, [NewTerm(init.term)])
    else if init.term == s.term then InitInTerm(cfg, s, init, txs, reconfigOk, m, [])
    else Done(s, [])
  }

  function HandlePrepare(cfg: Config, s: Node, msg: PrepareMsg): Outcome
    requires s.Keyed()
  {
    if msg.term > s.term then Done(s, [NeedSyncUp(msg.nodeId)])
    else if msg.term < s.term then Done(s, [])
    else if msg.height != s.Height() + 1 then
      WrongHeight(s, msg.term, msg.height, msg.block, msg.nodeId, PrepareM(msg), [])
    else if s.freshPack.None? then
      Done(s.(prepareCache := CacheAppend(s.prepareCache, msg.term, msg.height, msg)), [])
    else
      var was := s.freshPack.value;
      if msg.block != was.init.block then Done(s, [])
      else if msg.nodeId in was.prepares || |was.prepares| > cfg.QuorumN() then Done(s, [])
      else
        var grown := was.(prepares := was.prepares[msg.nodeId := msg]);
        var s1 := s.(freshPack := Some(grown));
        if |grown.prepares| >= cfg.QuorumN()
        then Done(RaiseVotie(s1, grown), [NewPrepared(grown)])
        else Done(s1, [])
  }

  datatype CommitError = Duplicated | NotEnoughCommits | NotConnecting

  datatype CommitResult = Committed(node: Node, events: seq<Event>)
                        | Refused(error: CommitError)
                        | CommitPanic

  /** commitBlockWithCheck, with the assertions at its third check and in updateVotie. */
  function CommitBlockWithCheck(cfg: Config, s: Node, p: Pack): CommitResult
    requires s.Keyed()
  {
    if s.IsCommitted(p.init.block) then Refused(Duplicated)
    else if |p.commits| < cfg.QuorumN() then Refused(NotEnoughCommits)
    else if !s.IsConnectingTop(p) then Refused(NotConnecting)
    else if !Committable(p.init.block) then CommitPanic
    else
      var top := p.(prepares := map[]);
      var s1 := JustCommitIt(s, top);
      var raise := top.init.term > s1.term;
      var s2 := if raise then s1.(term := top.init.term, lastAccuse := None, weak := map[]) else s1;
      var s3 := s2.(freshPack := None);
      if !Prepared(cfg, top) then CommitPanic
      else Committed(RaiseVotie(s3, top),
                     (if raise then [NewTerm(top.init.term)] else []) + [NewCommitted(top)])
  }

  function HandleCommit(cfg: Config, s: Node, msg: CommitMsg): Outcome
    requires s.Keyed()
  {
    if msg.term > s.term then Done(s, [NeedSyncUp(msg.nodeId)])
    else if msg.term < s.term then Done(s, [])
    else if msg.height != s.Height() + 1 then
      WrongHeight(s, msg.term, msg.height, msg.block, msg.nodeId, CommitM(msg), [])
    else if s.freshPack.None? then
      Done(s.(commitCache := CacheAppend(s.commitCache, msg.term, msg.height, msg)), [])
    else
      var was := s.freshPack.value;
      if msg.block != was.init.block || msg.nodeId in was.commits then Done(s, [])
      else
        var grown := was.(commits := was.commits[msg.nodeId := msg]);
        var s1 := s.(freshPack := Some(grown));
        if |grown.commits| >= cfg.QuorumN() then
          match CommitBlockWithCheck(cfg, s1, grown)
          case Committed(s2, events) => Done(s2, events)
          case Refused(_) => Panic
          case CommitPanic => Panic
        else Done(s1, [])
  }

  /** handleWeakAccuse; expired are the stored accuses that are too old by now. */
  function HandleWeak(cfg: Config, s: Node, msg: WeakAccuse, expired: set<NodeId>): Outcome {
    if msg.term > s.term then Done(s, [NeedSyncUp(msg.nodeId)])
    else if msg.term < s.term || |s.weak| >= cfg.AccuseQuorumN() || msg.nodeId in s.weak
    then Done(s, [])
    else
      var weak := (s.weak - expired)[msg.nodeId := msg];
      Done(s.(weak := weak),
           if |weak| >= cfg.AccuseQuorumN()
           then [NewStrongAccuse(StrongAccuse(msg.term, weak.Keys))] else [])
  }

  function HandleStrong(s: Node, msg: StrongAccuse): Outcome {
    if msg.term >= s.term then
      Done(s.(term := msg.term + 1, lastAccuse := Some(msg), weak := map[], freshPack := None,
              prepareCache := s.prepareCache - {msg.term}, commitCache := s.commitCache - {msg.term}),
           [NewTerm(msg.term + 1), StrongAccuseProcessed(msg)])
    else Done(s, [])
  }

  // ---------------------------------------------------------------- sync-up

  /** The blocks of a sync-up response and its More flag, for a chain and a base height. */
  function SyncResponse(chain: seq<Pack>, base: nat, maxBlockN: nat): (seq<Pack>, bool) {
    var end := if base + 1 + maxBlockN < |chain| then base + 1 + maxBlockN else |chain|;
    (if base + 1 <= |chain| then chain[base + 1..end] else [], |chain| - 1 - base > maxBlockN)
  }

  /** checkBlockPack; confirmed is the number of peers that report the block committed. */
  predicate CheckBlockPack(cfg: Config, s: Node, p: Pack, confirmed: nat)
    requires s.Keyed()
  {
    && ValidInit(cfg, p.init) && CertifiedPack(cfg, p)
    && p.init.block.Block?
    && s.IsCommitted(p.init.block.prev)
    && !s.IsCommitted(p.init.block)
    && p.init.height == s.chain[s.index[p.init.block.prev]].init.height + 1
    && confirmed >= cfg.AccuseQuorumN()
  }

  /** One block of processSyncUpResponse. */
  function SyncBlock(cfg: Config, s: Node, p: Pack, confirmed: nat): Node
    requires s.Keyed()
  {
    if CheckBlockPack(cfg, s, p, confirmed) then JustCommitIt(s, p) else s
  }

  /** The database survives a restart, the caches do not. */
  function Restarted(s: Node): Node {
    s.(prepareCache := map[], commitCache := map[])
  }
}
