/** Certificates may overtake the proposal they are for: whatever order they arrive in, the
    block the init makes pending holds them all. */
module EarlyMessages {
  import opened Protocol
  import opened NodeSpec
  import opened NodeInvariant
  import opened NodeEvents
  import opened NodeReplies

  /** A prepare or a commit of the node's term and the next height. */
  predicate Early(s: Node, x: Input) {
    || (x.GotPrepare? && x.prepare.term == s.term && x.prepare.height == |s.chain|)
    || (x.GotCommit? && x.commit.term == s.term && x.commit.height == |s.chain|)
  }

  /** The last prepare, and the last commit, of a sender in the list. */
  function LastPrepare(xs: seq<Input>, i: NodeId): Option<PrepareMsg> {
    if xs == [] then None
    else
      var x := xs[|xs| - 1];
      if x.GotPrepare? && x.prepare.nodeId == i then Some(x.prepare) else LastPrepare(xs[..|xs| - 1], i)
  }

  function LastCommit(xs: seq<Input>, i: NodeId): Option<CommitMsg> {
    if xs == [] then None
    else
      var x := xs[|xs| - 1];
      if x.GotCommit? && x.commit.nodeId == i then Some(x.commit) else LastCommit(xs[..|xs| - 1], i)
  }

  /** What a sender's entry becomes: its last message in the list, else the earlier one. */
  ghost predicate Overlaid<T>(after: map<NodeId, T>, before: map<NodeId, T>, last: NodeId -> Option<T>) {
    && (forall i :: i in after <==> last(i).Some? || i in before)
    && (forall i :: i in after ==> after[i] == if last(i).Some? then last(i).value else before[i])
  }

  // ------------------------------------------------------------- the messages

  /** s and t differ in the messages they have kept at most. */
  predicate SameButKept(s: Node, t: Node) {
    t.(prepareCache := s.prepareCache, commitCache := s.commitCache) == s
  }

  /** What t would merge into an init of its term is what s would, overlaid with xs. */
  ghost predicate Merging(s: Node, t: Node, xs: seq<Input>) {
    && SameButKept(s, t)
    && Overlaid(PreparesOf(Cached(t.prepareCache, s.term, |s.chain|)),
                PreparesOf(Cached(s.prepareCache, s.term, |s.chain|)), i => LastPrepare(xs, i))
    && Overlaid(CommitsOf(Cached(t.commitCache, s.term, |s.chain|)),
                CommitsOf(Cached(s.commitCache, s.term, |s.chain|)), i => LastCommit(xs, i))
  }

  lemma PreparesOfOneMore(c: Cache<PrepareMsg>, t: nat, h: nat, m: PrepareMsg)
    ensures Cached(CacheAppend(c, t, h, m), t, h) == Cached(c, t, h) + [m]
    ensures PreparesOf(Cached(CacheAppend(c, t, h, m), t, h)) == PreparesOf(Cached(c, t, h))[m.nodeId := m]
  {
    var ms := Cached(c, t, h) + [m];
    assert ms[..|ms| - 1] == Cached(c, t, h);
  }

  lemma CommitsOfOneMore(c: Cache<CommitMsg>, t: nat, h: nat, m: CommitMsg)
    ensures Cached(CacheAppend(c, t, h, m), t, h) == Cached(c, t, h) + [m]
    ensures CommitsOf(Cached(CacheAppend(c, t, h, m), t, h)) == CommitsOf(Cached(c, t, h))[m.nodeId := m]
  {
    var ms := Cached(c, t, h) + [m];
    assert ms[..|ms| - 1] == Cached(c, t, h);
  }

  lemma EarlyStep(cfg: Config, t: Node, x: Input)
    requires t.Keyed() && t.freshPack.None? && Early(t, x)
    ensures Process(cfg, t, x)
            == Done(if x.GotPrepare?
                    then t.(prepareCache := CacheAppend(t.prepareCache, t.term, |t.chain|, x.prepare))
                    else t.(commitCache := CacheAppend(t.commitCache, t.term, |t.chain|, x.commit)), [])
  {
    hide CacheAppend, Config.QuorumN;
  }

  lemma KeptOneMore(s: Node, t: Node, xs: seq<Input>, x: Input)
    requires Merging(s, t, xs) && Early(s, x)
    ensures var u := if x.GotPrepare?
                     then t.(prepareCache := CacheAppend(t.prepareCache, t.term, |t.chain|, x.prepare))
                     else t.(commitCache := CacheAppend(t.commitCache, t.term, |t.chain|, x.commit));
            Merging(s, u, xs + [x])
  {
    hide CacheAppend, Cached, PreparesOf, CommitsOf;
    assert (xs + [x])[..|xs|] == xs;
    if x.GotPrepare? {
      PreparesOfOneMore(t.prepareCache, t.term, |t.chain|, x.prepare);
    } else {
      CommitsOfOneMore(t.commitCache, t.term, |t.chain|, x.commit);
    }
  }

  lemma {:induction false} AllKept(cfg: Config, s: Node, xs: seq<Input>)
    requires s.Keyed() && s.freshPack.None? && forall x :: x in xs ==> Early(s, x)
    ensures Replay(cfg, s, xs).Done? && Merging(s, Replay(cfg, s, xs).node, xs)
  {
    if xs == [] {
      NothingKept(s);
    } else {
      var front, x := xs[..|xs| - 1], xs[|xs| - 1];
      assert xs == front + [x] && x in xs;
      AllKept(cfg, s, front);
      var t := Replay(cfg, s, front).node;
      hide Process, CacheAppend, Early;
      SameStore(s, t, x);
      EarlyStep(cfg, t, x);
      KeptOneMore(s, t, front, x);
    }
  }

  lemma NothingKept(s: Node)
    ensures Merging(s, s, [])
  {
  }

  lemma SameStore(s: Node, t: Node, x: Input)
    requires SameButKept(s, t) && s.Keyed()
    ensures t.Keyed() && t.freshPack == s.freshPack && t.term == s.term && t.chain == s.chain
    ensures Early(t, x) <==> Early(s, x)
  {
  }

  // ----------------------------------------------------------------- the init

  /** Taking an init of the node's term up, or not, does not look at what was kept. */
  lemma SameVerdict(cfg: Config, s: Node, t: Node, init: InitMsg, txs: Verdict, ok: bool, m: Option<Votie>)
    requires NodeInv(s) && SameButKept(s, t) && init.term == s.term
    ensures s.Keyed() && t.Keyed()
    ensures var o, p := HandleInit(cfg, s, init, txs, ok, m), HandleInit(cfg, t, init, txs, ok, m);
            && o.Done? && p.Done?
            && (HasInited(o.events) ==>
                  HasInited(p.events) && init.height == |s.chain|
                  && o.node.freshPack == Some(MergedFresh(s, init)) && p.node.freshPack == Some(MergedFresh(t, init)))
  {
    hide MergedFresh, CacheDrop, Config.QuorumN, Linked;
    StoreFacts(s);
    InitAcceptedIff(cfg, s, init, txs, ok, m);
    assert Acceptable(cfg, s, init, txs, ok, m) <==> HasInited(HandleInit(cfg, s, init, txs, ok, m).events);
    hide NodeInv;
    if HasInited(HandleInit(cfg, s, init, txs, ok, m).events) { InitedLast(t, init); }
  }

  lemma InitedLast(t: Node, init: InitMsg)
    ensures HasInited([] + [NewInited(MergedFresh(t, init))])
  {
    assert ([] + [NewInited(MergedFresh(t, init))])[0].NewInited?;
  }

  /** ORDER DOES NOT MATTER. With nothing pending, let a node receive any prepares and commits
      of its term and the next height and then an init it would have taken up anyway. It
      takes it up, and the pending block holds the last prepare and the last commit of
      every sender, on top of what it would have held without them. */
  lemma EarlyMessagesMerged(cfg: Config, s: Node, xs: seq<Input>, init: InitMsg, txs: Verdict, ok: bool,
                            m: Option<Votie>)
    requires NodeInv(s) && s.freshPack.None? && (forall x :: x in xs ==> Early(s, x)) && init.term == s.term
    requires s.Keyed() && HandleInit(cfg, s, init, txs, ok, m).Done?
    requires HasInited(HandleInit(cfg, s, init, txs, ok, m).events)
    ensures Replay(cfg, s, xs).Done? && Replay(cfg, s, xs).node.Keyed()
    ensures var direct := HandleInit(cfg, s, init, txs, ok, m);
            var late := HandleInit(cfg, Replay(cfg, s, xs).node, init, txs, ok, m);
            && late.Done? && HasInited(late.events)
            && direct.node.freshPack.Some? && late.node.freshPack.Some?
            && late.node.freshPack.value.init == init
            && Overlaid(late.node.freshPack.value.prepares, direct.node.freshPack.value.prepares,
                        i => LastPrepare(xs, i))
            && Overlaid(late.node.freshPack.value.commits, direct.node.freshPack.value.commits,
                        i => LastCommit(xs, i))
  {
    AllKept(cfg, s, xs);
    hide HandleInit, NodeInv, Replay, Overlaid, Cached, PreparesOf, CommitsOf;
    SameVerdict(cfg, s, Replay(cfg, s, xs).node, init, txs, ok, m);
  }

  /** A restarted node holds none: what its pending block gets is what it receives. */
  lemma NothingKeptAtStart(cfg: Config, s: Node, init: InitMsg, txs: Verdict, ok: bool, m: Option<Votie>)
    requires NodeInv(s) && s.freshPack.None? && init.term == s.term
    ensures Restarted(s).Keyed() && HandleInit(cfg, Restarted(s), init, txs, ok, m).Done?
    ensures var o := HandleInit(cfg, Restarted(s), init, txs, ok, m);
            HasInited(o.events) ==> o.node.freshPack == Some(Pack(init, map[], map[]))
  {
    hide NodeInv, Config.QuorumN, Linked;
    RestartKeeps(s);
    InitAcceptedIff(cfg, Restarted(s), init, txs, ok, m);
  }

  /** What has been merged is not kept: an init that replaces the pending one in the same
      term and height starts with no certificates. */
  lemma MergedOnce(cfg: Config, s: Node, x: InitMsg, txs: Verdict, ok: bool, m: Option<Votie>,
                   y: InitMsg, txs': Verdict, ok': bool, m': Option<Votie>)
    requires NodeInv(s) && x.term == s.term == y.term
    ensures s.Keyed() && HandleInit(cfg, s, x, txs, ok, m).Done?
    ensures var t := HandleInit(cfg, s, x, txs, ok, m).node;
            HasInited(HandleInit(cfg, s, x, txs, ok, m).events) ==>
              && t.Keyed() && HandleInit(cfg, t, y, txs', ok', m').Done?
              && var o := HandleInit(cfg, t, y, txs', ok', m');
                 HasInited(o.events) ==> o.node.freshPack == Some(Pack(y, map[], map[]))
  {
    InitAcceptedIff(cfg, s, x, txs, ok, m);
    if HasInited(HandleInit(cfg, s, x, txs, ok, m).events) {
      HandleInitKeeps(cfg, s, x, txs, ok, m);
      var t := HandleInit(cfg, s, x, txs, ok, m).node;
      InitAcceptedIff(cfg, t, y, txs', ok', m');
      DroppedWhenMerged(cfg, s, x, txs, ok, m);
      ExtendsFixesHeight(s.chain, Pack(x, map[], map[]));
      ExtendsFixesHeight(s.chain, Pack(y, map[], map[]));
    }
  }

  lemma DroppedWhenMerged(cfg: Config, s: Node, x: InitMsg, txs: Verdict, ok: bool, m: Option<Votie>)
    requires NodeInv(s) && x.term == s.term
    ensures s.Keyed() && HandleInit(cfg, s, x, txs, ok, m).Done?
    ensures var o := HandleInit(cfg, s, x, txs, ok, m);
            HasInited(o.events) ==>
              && Cached(o.node.prepareCache, x.term, x.height) == []
              && Cached(o.node.commitCache, x.term, x.height) == []
              && o.node.chain == s.chain && o.node.term == s.term
  {
    InitAcceptedIff(cfg, s, x, txs, ok, m);
    DroppedCache(s.prepareCache, x.term, x.height);
    DroppedCache(s.commitCache, x.term, x.height);
    StoreFacts(s);
    hide NodeInv, Cached, MergedFresh, CacheDrop, Config.QuorumN, Linked, Node.Keyed;
  }
}
