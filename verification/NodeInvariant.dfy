/** What every consensus handler keeps on one node, whatever messages arrive, and
    exactly when an assertion of the source can fail. */
module NodeInvariant {
  import opened ClusterParams
  import opened Protocol
  import opened NodeSpec

  // -------------------------------------------------------------- invariant

  /** Heights 0 .. top hold one hash-linked chain from genesis. */
  ghost predicate Linked(chain: seq<Pack>) {
    && chain != []
    && chain[0].init.block == Genesis
    && (forall h :: 0 <= h < |chain| ==> chain[h].init.height == h == Ht(chain[h].init.block))
    && (forall h, k :: 0 <= h < |chain| && 0 <= k < |chain| && k == h + 1 ==>
          chain[k].init.block.Block? && chain[k].init.block.prev == chain[h].init.block)
  }

  ghost predicate TermsOrdered(chain: seq<Pack>) {
    forall h, k :: 0 <= h <= k < |chain| ==> chain[h].init.term <= chain[k].init.term
  }

  /** The id-to-height index is the inverse of the height-to-block map. */
  ghost predicate IndexInverts(chain: seq<Pack>, index: map<Block, nat>) {
    && (forall h :: 0 <= h < |chain| ==>
          chain[h].init.block in index && index[chain[h].init.block] == h)
    && (forall b :: b in index ==> index[b] < |chain| && chain[index[b]].init.block == b)
  }

  ghost predicate ChainInv(chain: seq<Pack>, index: map<Block, nat>) {
    Linked(chain) && TermsOrdered(chain) && IndexInverts(chain, index)
  }

  /** Every certificate is keyed by its sender and carries the pack's term and height. */
  ghost predicate CertsCarry(p: Pack) {
    && (forall i :: i in p.prepares ==>
          p.prepares[i].nodeId == i && p.prepares[i].term == p.init.term && p.prepares[i].height == p.init.height)
    && (forall i :: i in p.commits ==>
          p.commits[i].nodeId == i && p.commits[i].term == p.init.term && p.commits[i].height == p.init.height)
  }

  /** p is right upon the top of the chain. */
  predicate Extends(p: Pack, chain: seq<Pack>)
    requires chain != []
  {
    var top := chain[|chain| - 1].init;
    && p.init.block.Block? && p.init.block.prev == top.block
    && p.init.term >= top.term && p.init.height == top.height + 1
  }

  /** A pending block has the node's term; it connects the top and is uncommitted,
      unless a sync-up has meanwhile committed its height. */
  ghost predicate FreshInv(freshPack: Option<Pack>, term: nat, chain: seq<Pack>, index: map<Block, nat>)
    requires chain != []
  {
    freshPack.Some? ==>
      var p := freshPack.value;
      && p.init.term == term
      && p.init.block.Block? && p.init.height == Ht(p.init.block) <= |chain|
      && (p.init.height == |chain| ==> Extends(p, chain) && p.init.block !in index)
      && CertsCarry(p)
  }

  ghost predicate WeakInv(weak: map<NodeId, WeakAccuse>, term: nat) {
    forall i :: i in weak ==> weak[i] == WeakAccuse(term, i)
  }

  ghost predicate PreparesKeyed(c: Cache<PrepareMsg>) {
    forall t, h, k :: 0 <= k < |Cached(c, t, h)| ==>
      Cached(c, t, h)[k].term == t && Cached(c, t, h)[k].height == h
  }

  ghost predicate CommitsKeyed(c: Cache<CommitMsg>) {
    forall t, h, k :: 0 <= k < |Cached(c, t, h)| ==>
      Cached(c, t, h)[k].term == t && Cached(c, t, h)[k].height == h
  }

  ghost predicate NodeInv(s: Node) {
    && ChainInv(s.chain, s.index)
    && FreshInv(s.freshPack, s.term, s.chain, s.index)
    && WeakInv(s.weak, s.term)
    && PreparesKeyed(s.prepareCache) && CommitsKeyed(s.commitCache)
  }

  /** The pending block, if any, is of a kind commitBlockWithCheck accepts. */
  predicate FreshCommittable(s: Node) {
    s.freshPack.Some? ==> Committable(s.freshPack.value.init.block)
  }

  /** Nothing a node has stored for good is ever lost or lowered. */
  ghost predicate Progress(s: Node, s': Node) {
    && s.term <= s'.term
    && s.chain <= s'.chain
    && !HasLessTermHeightThan(s'.votie, s.votie)
  }

  /** The handler finished, kept the invariant and lowered nothing. */
  ghost predicate Kept(s: Node, o: Outcome) {
    o.Done? && NodeInv(o.node) && Progress(s, o.node)
  }

  lemma InitiallyInv()
    ensures NodeInv(InitNode()) && FreshCommittable(InitNode())
  {
  }

  lemma InvIsKeyed(s: Node)
    requires ChainInv(s.chain, s.index)
    ensures s.Keyed() && s.Top().init.height == s.Height()
    ensures forall p :: s.IsConnectingTop(p) <==> Extends(p, s.chain)
  {
  }

  lemma StoreIsKeyed(s: Node)
    requires NodeInv(s)
    ensures s.Keyed() && Progress(s, s)
  {
    InvIsKeyed(s);
  }

  // ------------------------------------------------------------ chain facts

  /** No block at the next height is committed yet. */
  lemma NextHeightUncommitted(chain: seq<Pack>, index: map<Block, nat>, b: Block)
    requires ChainInv(chain, index) && Ht(b) == |chain|
    ensures b !in index
  {
  }

  lemma LinkedOnTop(chain: seq<Pack>, p: Pack)
    requires Linked(chain) && TermsOrdered(chain) && Extends(p, chain)
    ensures p.init.height == |chain| == Ht(p.init.block)
    ensures Linked(chain + [p]) && TermsOrdered(chain + [p])
  {
    var n := |chain|;
    assert chain[n - 1].init.height == n - 1 == Ht(chain[n - 1].init.block);
    assert p.init.height == n == Ht(p.init.block);
    var c := chain + [p];
    assert forall h :: 0 <= h < n ==> c[h] == chain[h];
    assert c[n] == p;
  }

  lemma ChainOnTop(chain: seq<Pack>, index: map<Block, nat>, p: Pack)
    requires ChainInv(chain, index) && Extends(p, chain)
    ensures p.init.height == |chain| == Ht(p.init.block)
    ensures ChainInv(chain + [p], index[p.init.block := p.init.height])
  {
    LinkedOnTop(chain, p);
    NextHeightUncommitted(chain, index, p.init.block);
    var c, x := chain + [p], index[p.init.block := p.init.height];
    assert forall h :: 0 <= h < |chain| ==> c[h] == chain[h];
    assert IndexInverts(c, x);
  }

  // ------------------------------------------------------------ cache facts

  lemma AppendedCache<T>(c: Cache<T>, term: nat, height: nat, m: T)
    ensures forall t, h :: Cached(CacheAppend(c, term, height, m), t, h)
                           == if t == term && h == height then Cached(c, t, h) + [m] else Cached(c, t, h)
  {
  }

  lemma DroppedCache<T>(c: Cache<T>, term: nat, height: nat)
    ensures forall t, h :: Cached(CacheDrop(c, term, height), t, h)
                           == if t == term && h == height then [] else Cached(c, t, h)
  {
  }

  lemma {:induction false} PreparesOfFrom(ms: seq<PrepareMsg>)
    ensures forall i :: i in PreparesOf(ms) ==> PreparesOf(ms)[i] in ms && PreparesOf(ms)[i].nodeId == i
  {
    if ms != [] { PreparesOfFrom(ms[..|ms| - 1]); }
  }

  lemma {:induction false} CommitsOfFrom(ms: seq<CommitMsg>)
    ensures forall i :: i in CommitsOf(ms) ==> CommitsOf(ms)[i] in ms && CommitsOf(ms)[i].nodeId == i
  {
    if ms != [] { CommitsOfFrom(ms[..|ms| - 1]); }
  }

  lemma MergedCertsCarry(s: Node, init: InitMsg)
    requires PreparesKeyed(s.prepareCache) && CommitsKeyed(s.commitCache)
    ensures CertsCarry(MergedFresh(s, init))
  {
    PreparesOfFrom(Cached(s.prepareCache, init.term, init.height));
    CommitsOfFrom(Cached(s.commitCache, init.term, init.height));
  }

  // --------------------------------------------------------------- handlers

  lemma EnterTermKeeps(s: Node, term: nat)
    requires NodeInv(s) && s.term <= term
    ensures NodeInv(EnterTerm(s, term)) && Progress(s, EnterTerm(s, term))
    ensures FreshCommittable(EnterTerm(s, term))
  {
  }

  lemma WrongHeightKeeps(s: Node, term: nat, height: nat, b: Block, from: NodeId, msg: Msg, events: seq<Event>)
    requires NodeInv(s) && s.Keyed() && term == s.term && height != s.Height() + 1
    ensures WrongHeight(s, term, height, b, from, msg, events).Done?
    ensures WrongHeight(s, term, height, b, from, msg, events).node == s
  {
  }

  lemma AcceptInitKeeps(s: Node, init: InitMsg, events: seq<Event>)
    requires NodeInv(s) && init.term == s.term
    requires Extends(Pack(init, map[], map[]), s.chain)
    ensures Kept(s, AcceptInit(s, init, events))
  {
    var n := |s.chain|;
    assert s.chain[n - 1].init.height == n - 1 == Ht(s.chain[n - 1].init.block);
    MergedCertsCarry(s, init);
    NextHeightUncommitted(s.chain, s.index, init.block);
    DroppedCache(s.prepareCache, init.term, init.height);
    DroppedCache(s.commitCache, init.term, init.height);
    var s' := AcceptInit(s, init, events).node;
    assert PreparesKeyed(s'.prepareCache);
    assert CommitsKeyed(s'.commitCache);
  }

  lemma InitInTermKeeps(cfg: Config, s: Node, init: InitMsg, txs: Verdict, ok: bool, m: Option<Votie>,
                        events: seq<Event>)
    requires NodeInv(s) && init.term == s.term
    ensures s.Keyed() && Kept(s, InitInTerm(cfg, s, init, txs, ok, m, events))
    ensures FreshCommittable(s) && Committable(init.block) ==>
              FreshCommittable(InitInTerm(cfg, s, init, txs, ok, m, events).node)
  {
    InvIsKeyed(s);
    if init.height != s.Height() + 1 {
      WrongHeightKeeps(s, init.term, init.height, init.block, init.nodeId, InitM(init), events);
    } else if s.IsConnectingTop(Pack(init, map[], map[])) {
      AcceptInitKeeps(s, init, events);
    }
  }

  lemma ProgressTrans(s: Node, t: Node, u: Node)
    requires Progress(s, t) && Progress(t, u)
    ensures Progress(s, u)
  {
  }

  lemma InitEntersTermKeeps(cfg: Config, s: Node, init: InitMsg, txs: Verdict, ok: bool, m: Option<Votie>)
    requires NodeInv(s) && s.term <= init.term
    ensures EnterTerm(s, init.term).Keyed()
    ensures Kept(s, InitInTerm(cfg, EnterTerm(s, init.term), init, txs, ok, m, [NewTerm(init.term)]))
    ensures Committable(init.block) ==>
              FreshCommittable(InitInTerm(cfg, EnterTerm(s, init.term), init, txs, ok, m, [NewTerm(init.term)]).node)
  {
    var t := EnterTerm(s, init.term);
    EnterTermKeeps(s, init.term);
    InitInTermKeeps(cfg, t, init, txs, ok, m, [NewTerm(init.term)]);
    hide NodeInv, InitInTerm;
    ProgressTrans(s, t, InitInTerm(cfg, t, init, txs, ok, m, [NewTerm(init.term)]).node);
  }

  /** handleInitMsg keeps the invariant and never panics, for any init. */
  lemma HandleInitKeeps(cfg: Config, s: Node, init: InitMsg, txs: Verdict, ok: bool, m: Option<Votie>)
    requires NodeInv(s)
    ensures s.Keyed() && Kept(s, HandleInit(cfg, s, init, txs, ok, m))
    ensures FreshCommittable(s) && Committable(init.block) ==>
              FreshCommittable(HandleInit(cfg, s, init, txs, ok, m).node)
  {
    hide NodeInv, Progress, InitInTerm, EnterTerm, FreshCommittable, Node.Keyed;
    StoreIsKeyed(s);
    if init.term > s.term {
      InitEntersTermKeeps(cfg, s, init, txs, ok, m);
    } else if init.term == s.term {
      InitInTermKeeps(cfg, s, init, txs, ok, m, []);
    }
  }

  lemma GrownPrepareKeeps(s: Node, msg: PrepareMsg)
    requires NodeInv(s) && s.freshPack.Some? && msg.block == s.freshPack.value.init.block
    requires msg.term == s.term && msg.height == s.freshPack.value.init.height
    ensures NodeInv(s.(freshPack := Some(
                         s.freshPack.value.(prepares := s.freshPack.value.prepares[msg.nodeId := msg]))))
  {
  }

  lemma RaiseVotieKeeps(s: Node, p: Pack)
    requires NodeInv(s)
    ensures NodeInv(RaiseVotie(s, p)) && Progress(s, RaiseVotie(s, p))
  {
  }

  lemma AppendedPrepares(c: Cache<PrepareMsg>, x: PrepareMsg)
    requires PreparesKeyed(c)
    ensures PreparesKeyed(CacheAppend(c, x.term, x.height, x))
  {
    hide CacheAppend;
    AppendedCache(c, x.term, x.height, x);
  }

  lemma CachedPrepareKeeps(s: Node, x: PrepareMsg)
    requires NodeInv(s)
    ensures var s' := s.(prepareCache := CacheAppend(s.prepareCache, x.term, x.height, x));
            NodeInv(s') && Progress(s, s')
  {
    hide ChainInv, FreshInv, WeakInv, PreparesKeyed, CommitsKeyed, CacheAppend;
    AppendedPrepares(s.prepareCache, x);
  }

  /** Adding a matching prepare to the pending block, and raising the votie to it. */
  lemma PrepareGrows(s: Node, msg: PrepareMsg)
    requires NodeInv(s) && s.freshPack.Some? && msg.block == s.freshPack.value.init.block
    requires msg.term == s.term && msg.height == Ht(msg.block)
    ensures var grown := s.freshPack.value.(prepares := s.freshPack.value.prepares[msg.nodeId := msg]);
            var s1 := s.(freshPack := Some(grown));
            && NodeInv(s1) && Progress(s, s1)
            && NodeInv(RaiseVotie(s1, grown)) && Progress(s, RaiseVotie(s1, grown))
  {
    GrownPrepareKeeps(s, msg);
    var grown := s.freshPack.value.(prepares := s.freshPack.value.prepares[msg.nodeId := msg]);
    RaiseVotieKeeps(s.(freshPack := Some(grown)), grown);
    hide NodeInv, RaiseVotie;
  }

  /** handlePrepareMsg keeps the invariant for any prepare whose block id fixes its height. */
  lemma HandlePrepareKeeps(cfg: Config, s: Node, msg: PrepareMsg)
    requires NodeInv(s) && msg.height == Ht(msg.block)
    ensures s.Keyed() && Kept(s, HandlePrepare(cfg, s, msg))
    ensures FreshCommittable(s) ==> FreshCommittable(HandlePrepare(cfg, s, msg).node)
  {
    hide NodeInv, Progress, Node.Keyed, CacheAppend, WrongHeight, Quorum;
    StoreIsKeyed(s);
    if msg.term == s.term {
      if msg.height != s.Height() + 1 {
        WrongHeightKeeps(s, msg.term, msg.height, msg.block, msg.nodeId, PrepareM(msg), []);
      } else if s.freshPack.None? {
        CachedPrepareKeeps(s, msg);
      } else if msg.block == s.freshPack.value.init.block {
        PrepareGrows(s, msg);
      }
    }
  }

  /** What commitBlockWithCheck does to a pending block with enough commits. */
  lemma CommitSucceeds(cfg: Config, s: Node, p: Pack)
    requires NodeInv(s) && s.freshPack == Some(p) && p.init.height == |s.chain|
    requires |p.commits| >= cfg.QuorumN() && Committable(p.init.block)
    ensures s.Keyed()
    ensures CommitBlockWithCheck(cfg, s, p)
            == Committed(RaiseVotie(JustCommitIt(s, p.(prepares := map[])).(freshPack := None),
                                    p.(prepares := map[])),
                         [NewCommitted(p.(prepares := map[]))])
  {
    InvIsKeyed(s);
    assert !s.IsCommitted(p.init.block) && s.IsConnectingTop(p) && s.term == p.init.term;
    hide NodeInv, RaiseVotie, ChainInv;
  }

  lemma CommitKeeps(cfg: Config, s: Node, p: Pack)
    requires NodeInv(s) && s.freshPack == Some(p) && p.init.height == |s.chain|
    requires |p.commits| >= cfg.QuorumN() && Committable(p.init.block)
    ensures s.Keyed() && CommitBlockWithCheck(cfg, s, p).Committed?
    ensures NodeInv(CommitBlockWithCheck(cfg, s, p).node)
    ensures Progress(s, CommitBlockWithCheck(cfg, s, p).node)
    ensures CommitBlockWithCheck(cfg, s, p).node.freshPack.None?
  {
    CommitSucceeds(cfg, s, p);
    var top := p.(prepares := map[]);
    StoredOnTopKeeps(s, top);
    var s1 := JustCommitIt(s, top).(freshPack := None);
    RaiseVotieKeeps(s1, top);
    hide NodeInv, CommitBlockWithCheck;
    ProgressTrans(s, s1, RaiseVotie(s1, top));
  }

  lemma StoredOnTopKeeps(s: Node, p: Pack)
    requires NodeInv(s) && Extends(p, s.chain)
    ensures p.init.height == |s.chain|
    ensures NodeInv(JustCommitIt(s, p).(freshPack := None))
    ensures Progress(s, JustCommitIt(s, p).(freshPack := None))
  {
    ChainOnTop(s.chain, s.index, p);
  }

  /** The only way an assertion behind handleCommitMsg fails: a commit at the next
      height that names the pending block while that block is stale (a sync-up has
      committed its height) or of a kind that is never committed. */
  predicate CommitWouldPanic(cfg: Config, s: Node, msg: CommitMsg) {
    && msg.term == s.term && msg.height == s.Height() + 1
    && s.freshPack.Some?
    && var p := s.freshPack.value;
       && msg.block == p.init.block && msg.nodeId !in p.commits
       && |p.commits| + 1 >= cfg.QuorumN()
       && (p.init.height != msg.height || !Committable(p.init.block))
  }

  lemma CommitPanicsIff(cfg: Config, s: Node, msg: CommitMsg)
    requires NodeInv(s)
    ensures s.Keyed()
    ensures HandleCommit(cfg, s, msg).Panic? <==> CommitWouldPanic(cfg, s, msg)
  {
    InvIsKeyed(s);
    if msg.term == s.term {
      if msg.height != s.Height() + 1 {
        WrongHeightKeeps(s, msg.term, msg.height, msg.block, msg.nodeId, CommitM(msg), []);
      } else if s.freshPack.Some? && msg.block == s.freshPack.value.init.block
                && msg.nodeId !in s.freshPack.value.commits {
        var grown := s.freshPack.value.(commits := s.freshPack.value.commits[msg.nodeId := msg]);
        if |grown.commits| >= cfg.QuorumN() && grown.init.height == msg.height && Committable(grown.init.block) {
          GrownCommitKeeps(s, msg);
          CommitKeeps(cfg, s.(freshPack := Some(grown)), grown);
        }
      }
    }
  }

  lemma GrownCommitKeeps(s: Node, msg: CommitMsg)
    requires NodeInv(s) && s.freshPack.Some? && msg.block == s.freshPack.value.init.block
    requires msg.term == s.term && msg.height == s.freshPack.value.init.height
    ensures NodeInv(s.(freshPack := Some(
                         s.freshPack.value.(commits := s.freshPack.value.commits[msg.nodeId := msg]))))
  {
  }

  lemma AppendedCommitsKeyed(s: Node, x: CommitMsg)
    requires NodeInv(s)
    ensures var s' := s.(commitCache := CacheAppend(s.commitCache, x.term, x.height, x));
            NodeInv(s') && Progress(s, s')
  {
    hide ChainInv, FreshInv, WeakInv, PreparesKeyed, CacheAppend;
    AppendedCache(s.commitCache, x.term, x.height, x);
    assert CommitsKeyed(CacheAppend(s.commitCache, x.term, x.height, x));
    hide CommitsKeyed;
  }

  /** Adding a matching commit to the pending block, and committing it when it has
      a quorum and stands at the next height. */
  lemma CommitGrows(cfg: Config, s: Node, msg: CommitMsg)
    requires NodeInv(s) && FreshCommittable(s) && s.freshPack.Some? && msg.block == s.freshPack.value.init.block
    requires msg.term == s.term && msg.height == Ht(msg.block) == |s.chain|
    ensures var grown := s.freshPack.value.(commits := s.freshPack.value.commits[msg.nodeId := msg]);
            var s1 := s.(freshPack := Some(grown));
            && s1.Keyed() && NodeInv(s1) && Progress(s, s1)
            && (|grown.commits| >= cfg.QuorumN() ==>
                  var o := CommitBlockWithCheck(cfg, s1, grown);
                  o.Committed? && NodeInv(o.node) && Progress(s, o.node) && o.node.freshPack.None?)
  {
    var grown := s.freshPack.value.(commits := s.freshPack.value.commits[msg.nodeId := msg]);
    var s1 := s.(freshPack := Some(grown));
    assert s.freshPack.value.init.height == Ht(s.freshPack.value.init.block);
    hide NodeInv, CommitBlockWithCheck, Progress, Node.Keyed;
    GrownCommitKeeps(s, msg);
    StoreIsKeyed(s1);
    SameStoreProgress(s, s1);
    if |grown.commits| >= cfg.QuorumN() {
      CommitKeeps(cfg, s1, grown);
      ProgressTrans(s, s1, CommitBlockWithCheck(cfg, s1, grown).node);
    }
  }

  lemma SameStoreProgress(s: Node, s': Node)
    requires s.term == s'.term && s.chain == s'.chain && s.votie == s'.votie
    ensures Progress(s, s')
  {
  }

  /** A commit whose block id fixes its height never makes handleCommitMsg panic:
      in particular commitBlockWithCheck returns no error to it. */
  lemma HandleCommitKeeps(cfg: Config, s: Node, msg: CommitMsg)
    requires NodeInv(s) && FreshCommittable(s) && msg.height == Ht(msg.block)
    ensures s.Keyed() && Kept(s, HandleCommit(cfg, s, msg))
    ensures FreshCommittable(HandleCommit(cfg, s, msg).node)
  {
    hide NodeInv, Progress, Node.Keyed, CacheAppend, WrongHeight, Quorum, CommitBlockWithCheck;
    StoreIsKeyed(s);
    if msg.term == s.term {
      if msg.height != s.Height() + 1 {
        WrongHeightKeeps(s, msg.term, msg.height, msg.block, msg.nodeId, CommitM(msg), []);
      } else if s.freshPack.None? {
        AppendedCommitsKeyed(s, msg);
      } else if msg.block == s.freshPack.value.init.block && msg.nodeId !in s.freshPack.value.commits {
        CommitGrows(cfg, s, msg);
      }
    }
  }

  lemma HandleWeakKeeps(cfg: Config, s: Node, msg: WeakAccuse, expired: set<NodeId>)
    requires NodeInv(s)
    ensures Kept(s, HandleWeak(cfg, s, msg, expired))
    ensures FreshCommittable(s) ==> FreshCommittable(HandleWeak(cfg, s, msg, expired).node)
  {
    if msg.term == s.term {
      assert WeakInv((s.weak - expired)[msg.nodeId := msg], s.term);
    }
  }

  lemma HandleStrongKeeps(s: Node, msg: StrongAccuse)
    requires NodeInv(s)
    ensures Kept(s, HandleStrong(s, msg))
    ensures FreshCommittable(s) ==> FreshCommittable(HandleStrong(s, msg).node)
  {
    var s' := HandleStrong(s, msg).node;
    if msg.term >= s.term {
      assert forall t, h :: Cached(s'.prepareCache, t, h)
                            == if t == msg.term then [] else Cached(s.prepareCache, t, h);
      assert forall t, h :: Cached(s'.commitCache, t, h)
                            == if t == msg.term then [] else Cached(s.commitCache, t, h);
    }
  }

  lemma RestartKeeps(s: Node)
    requires NodeInv(s)
    ensures NodeInv(Restarted(s)) && Progress(s, Restarted(s))
  {
  }

  /** A synced block that extends the top keeps the invariant and leaves a pending
      block of the same height stale. */
  lemma SyncBlockKeeps(s: Node, p: Pack)
    requires NodeInv(s) && Extends(p, s.chain)
    ensures p.init.height == |s.chain|
    ensures NodeInv(JustCommitIt(s, p)) && Progress(s, JustCommitIt(s, p))
  {
    ChainOnTop(s.chain, s.index, p);
  }

  // ---------------------------------------------- histories of one node

  /** One message a node processes, with the answers of the oracles it consulted. */
  datatype Input = GotInit(init: InitMsg, txs: Verdict, reconfigOk: bool, m: Option<Votie>)
                 | GotPrepare(prepare: PrepareMsg)
                 | GotCommit(commit: CommitMsg)
                 | GotWeak(weak: WeakAccuse, expired: set<NodeId>)
                 | GotStrong(strong: StrongAccuse)
                 | GotRestart

  function Process(cfg: Config, s: Node, x: Input): Outcome
    requires s.Keyed()
  {
    match x
    case GotInit(init, txs, ok, m) => HandleInit(cfg, s, init, txs, ok, m)
    case GotPrepare(msg) => HandlePrepare(cfg, s, msg)
    case GotCommit(msg) => HandleCommit(cfg, s, msg)
    case GotWeak(msg, expired) => HandleWeak(cfg, s, msg, expired)
    case GotStrong(msg) => HandleStrong(s, msg)
    case GotRestart => Done(Restarted(s), [])
  }

  /** Blocks are TXS or RECONFIG blocks, and a message's block id fixes its height. */
  predicate WellFormed(x: Input) {
    match x
    case GotInit(init, _, _, _) => Committable(init.block)
    case GotPrepare(msg) => msg.height == Ht(msg.block)
    case GotCommit(msg) => msg.height == Ht(msg.block)
    case _ => true
  }

  lemma ProcessKeeps(cfg: Config, s: Node, x: Input)
    requires NodeInv(s) && FreshCommittable(s) && WellFormed(x)
    ensures s.Keyed() && Kept(s, Process(cfg, s, x))
    ensures FreshCommittable(Process(cfg, s, x).node)
  {
    InvIsKeyed(s);
    hide NodeInv, Progress, HandleInit, HandlePrepare, HandleCommit, HandleWeak, HandleStrong;
    match x
    case GotInit(init, txs, ok, m) => HandleInitKeeps(cfg, s, init, txs, ok, m);
    case GotPrepare(msg) => HandlePrepareKeeps(cfg, s, msg);
    case GotCommit(msg) => HandleCommitKeeps(cfg, s, msg);
    case GotWeak(msg, expired) => HandleWeakKeeps(cfg, s, msg, expired);
    case GotStrong(msg) => HandleStrongKeeps(s, msg);
    case GotRestart => RestartKeeps(s);
  }

  /** The node after a whole history of inputs, or a panic on the way. */
  ghost function Replay(cfg: Config, s: Node, xs: seq<Input>): Outcome {
    if xs == [] then Done(s, [])
    else
      match Replay(cfg, s, xs[..|xs| - 1])
      case Panic => Panic
      case Done(t, _) => if t.Keyed() then Process(cfg, t, xs[|xs| - 1]) else Panic
  }

  /** From any state with the invariant, no history of well-formed inputs, however
      hostile, fails an assertion, and the node never loses what it stored. */
  lemma {:induction false} HistoryKeeps(cfg: Config, s: Node, xs: seq<Input>, k: nat)
    requires NodeInv(s) && FreshCommittable(s)
    requires forall x :: x in xs ==> WellFormed(x)
    requires k <= |xs|
    ensures Replay(cfg, s, xs[..k]).Done?
    ensures Kept(Replay(cfg, s, xs[..k]).node, Replay(cfg, s, xs))
    ensures FreshCommittable(Replay(cfg, s, xs).node)
    decreases |xs|
  {
    hide NodeInv, Progress, Process, FreshCommittable, WellFormed;
    if xs == [] {
      StoreIsKeyed(s);
    } else {
      var front := xs[..|xs| - 1];
      HistoryKeeps(cfg, s, front, if k < |xs| then k else k - 1);
      var t := Replay(cfg, s, front).node;
      ProcessKeeps(cfg, t, xs[|xs| - 1]);
      var u := Process(cfg, t, xs[|xs| - 1]).node;
      StoreIsKeyed(u);
      if k < |xs| {
        assert front[..k] == xs[..k];
        ProgressTrans(Replay(cfg, s, front[..k]).node, t, u);
      } else {
        assert xs[..k] == xs;
      }
    }
  }

  /** Panic freedom of a whole history, starting from a fresh database. */
  lemma NeverPanics(cfg: Config, xs: seq<Input>, k: nat)
    requires forall x :: x in xs ==> WellFormed(x)
    requires k <= |xs|
    ensures Replay(cfg, InitNode(), xs[..k]).Done?
    ensures Kept(Replay(cfg, InitNode(), xs[..k]).node, Replay(cfg, InitNode(), xs))
  {
    InitiallyInv();
    HistoryKeeps(cfg, InitNode(), xs, k);
  }
}
