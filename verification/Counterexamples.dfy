/** Two inputs at which the code falls short of what one would expect of it. The exact
    conditions are NodeEvents.PreparedIff and SyncDaemons.StopsIff. */
module Counterexamples {
  import opened ClusterParams
  import opened Protocol
  import opened MsgValidation
  import opened NodeSpec
  import opened NodeInvariant
  import opened NodeEvents
  import opened SyncDaemons
  import opened FourNodes

  // --------------------------------------- a quorum of prepares without an event

  const SEVEN := Config([true, true, true, true, true, true, true])
  const EARLY := Block(Genesis, 1, TxsBody([]))
  const EARLY_INIT := InitMsg(0, 1, EARLY, 0, map[])

  function Early(i: NodeId): PrepareMsg { PrepareMsg(0, 1, EARLY, i) }

  function EarlyPrepares(n: nat): seq<PrepareMsg> {
    if n == 0 then [] else EarlyPrepares(n - 1) + [Early(n - 1)]
  }

  /** The prepares of nodes 0 .. n - 1. */
  function EarlyInputs(n: nat): seq<Input> {
    if n == 0 then [] else EarlyInputs(n - 1) + [GotPrepare(Early(n - 1))]
  }

  /** A node that has received them and no init yet. */
  function Waiting(n: nat): Node {
    InitNode().(prepareCache := if n == 0 then map[] else map[0 := map[1 := EarlyPrepares(n)]])
  }

  function Merged(n: nat): Pack { Pack(EARLY_INIT, PreparesOf(EarlyPrepares(n)), map[]) }

  lemma SevenQuorum()
    ensures SEVEN.Valid() && SEVEN.QuorumN() == 5
  {
    assert SEVEN.normal[0];
    IdsSize(7);
    assert SEVEN.Nodes() == Ids(7);
  }

  lemma OneMoreWaits(n: nat)
    ensures Waiting(n).Keyed()
    ensures Process(SEVEN, Waiting(n), GotPrepare(Early(n))) == Done(Waiting(n + 1), [])
  {
    hide EarlyPrepares, Config.QuorumN;
    Listed(n);
    if n > 0 {
      var row: map<nat, seq<PrepareMsg>> := map[1 := EarlyPrepares(n)];
      assert row[1 := EarlyPrepares(n + 1)] == map[1 := EarlyPrepares(n + 1)];
    }
  }

  lemma Listed(n: nat)
    ensures EarlyPrepares(n + 1) == EarlyPrepares(n) + [Early(n)] && EarlyPrepares(0) == []
  {
  }

  lemma {:induction false} AllWait(n: nat)
    ensures Replay(SEVEN, InitNode(), EarlyInputs(n)) == Done(Waiting(n), [])
  {
    hide Process, Node.Keyed;
    if n > 0 {
      AllWait(n - 1);
      OneMoreWaits(n - 1);
      var xs := EarlyInputs(n);
      assert xs[..|xs| - 1] == EarlyInputs(n - 1);
    } else {
      NoneWaits();
    }
  }

  lemma NoneWaits()
    ensures Waiting(0) == InitNode()
  {
  }

  lemma MergedOne(n: nat)
    ensures PreparesOf(EarlyPrepares(n + 1)) == PreparesOf(EarlyPrepares(n))[n := Early(n)]
  {
    var ms := EarlyPrepares(n + 1);
    assert ms[..|ms| - 1] == EarlyPrepares(n);
  }

  lemma {:induction false} SendersMerged(n: nat)
    ensures forall i :: i in PreparesOf(EarlyPrepares(n)) ==> i < n
    ensures |PreparesOf(EarlyPrepares(n))| == n
  {
    if n > 0 {
      hide EarlyPrepares, PreparesOf;
      SendersMerged(n - 1);
      MergedOne(n - 1);
      OneMore(PreparesOf(EarlyPrepares(n - 1)), n - 1, Early(n - 1));
    }
  }

  lemma InitMerges(n: nat)
    ensures Waiting(n).Keyed()
    ensures var o := Process(SEVEN, Waiting(n), GotInit(EARLY_INIT, Verdict.Valid, true, None));
            o == Done(o.node, [NewInited(Merged(n))]) && o.node.freshPack == Some(Merged(n))
            && o.node.term == 0 && o.node.chain == [GENESIS_PACK] && o.node.Keyed()
  {
    hide EarlyPrepares, PreparesOf, Config.QuorumN;
    Listed(n);
    NoneMerged();
  }

  lemma NoneMerged()
    ensures PreparesOf([]) == map[]
  {
  }

  /** The outcome raises no NewPreparedEvent. */
  ghost predicate Quiet(o: Outcome) {
    o.Done? && forall p :: NewPrepared(p) !in o.events
  }

  /** No prepare whatever changes the node or raises NewPreparedEvent. */
  ghost predicate Deaf(cfg: Config, s: Node) {
    && s.Keyed()
    && forall msg :: Quiet(HandlePrepare(cfg, s, msg)) && HandlePrepare(cfg, s, msg).node == s
  }

  /** While more than QuorumN prepares are pending every further one is dropped. */
  lemma FurtherDropped(s: Node)
    requires s.Keyed() && s.freshPack.Some? && |s.freshPack.value.prepares| > SEVEN.QuorumN()
    ensures Deaf(SEVEN, s)
  {
    hide Config.QuorumN;
  }

  /** The prepares of the six other nodes, and then the init. */
  function EarlyRun(): seq<Input> { EarlyInputs(6) + [GotInit(EARLY_INIT, Verdict.Valid, true, None)] }

  lemma {:induction false} QuietWaiting(k: nat)
    requires k <= 6
    ensures Replay(SEVEN, InitNode(), EarlyRun()[..k]) == Done(Waiting(k), [])
    ensures Quiet(Replay(SEVEN, InitNode(), EarlyRun()[..k]))
  {
    hide Replay, Waiting;
    SixInputs();
    assert EarlyRun()[..k] == EarlyInputs(6)[..k];
    AllWait(k);
  }

  lemma QuietMerge()
    ensures var o := Replay(SEVEN, InitNode(), EarlyRun());
            && o.Done? && o.events == [NewInited(Merged(6))] && Quiet(o)
            && o.node.Keyed() && o.node.freshPack == Some(Merged(6))
  {
    hide Process, Waiting, EarlyInputs, Merged, Node.Keyed;
    var xs := EarlyRun();
    assert xs[..|xs| - 1] == EarlyInputs(6);
    AllWait(6);
    InitMerges(6);
  }

  /** Seven nodes: one that receives the prepares of the six others before the init takes
      up the block with more than a quorum of prepares, and neither then nor at any
      prepare to come, its own included, raises NewPreparedEvent. */
  lemma QuorumRaisesNothing()
    ensures forall k :: 0 <= k <= 7 == |EarlyRun()| ==> Quiet(Replay(SEVEN, InitNode(), EarlyRun()[..k]))
    ensures Replay(SEVEN, InitNode(), EarlyRun()).Done?
    ensures var s := Replay(SEVEN, InitNode(), EarlyRun()).node;
            && s.freshPack.Some? && |s.freshPack.value.prepares| > SEVEN.QuorumN()
            && Deaf(SEVEN, s)
  {
    hide Replay, Quiet, Deaf, EarlyInputs, PreparesOf, EarlyPrepares, Config.QuorumN, Node.Keyed;
    SixInputs();
    QuietMerge();
    SevenQuorum();
    SendersMerged(6);
    FurtherDropped(Replay(SEVEN, InitNode(), EarlyRun()).node);
    forall k | 0 <= k <= 7 ensures Quiet(Replay(SEVEN, InitNode(), EarlyRun()[..k])) {
      if k < 7 {
        QuietWaiting(k);
      } else {
        assert EarlyRun()[..k] == EarlyRun();
      }
    }
  }

  lemma SixInputs()
    ensures |EarlyInputs(6)| == 6 && forall k :: 0 <= k <= 6 ==> EarlyInputs(6)[..k] == EarlyInputs(k)
  {
    FirstInputs(6);
  }

  lemma {:induction false} FirstInputs(n: nat)
    ensures |EarlyInputs(n)| == n && forall k :: 0 <= k <= n ==> EarlyInputs(n)[..k] == EarlyInputs(k)
  {
    if n > 0 {
      FirstInputs(n - 1);
      forall k | 0 <= k <= n ensures EarlyInputs(n)[..k] == EarlyInputs(k) {
        if k < n { assert EarlyInputs(n)[..k] == EarlyInputs(n - 1)[..k]; }
      }
    }
  }

  // ----------------------------------------------- a sync-up that does not end

  function LongPack(h: nat): Pack {
    if h == 0 then GENESIS_PACK
    else
      var b := Block(LongPack(h - 1).init.block, h, TxsBody([]));
      var commits := map[0 := CommitMsg(0, h, b, 0), 1 := CommitMsg(0, h, b, 1), 2 := CommitMsg(0, h, b, 2)];
      Pack(InitMsg(0, h, b, 0, map[]), map[], commits)
  }

  function LongChain(n: nat): seq<Pack> {
    if n == 0 then [] else LongChain(n - 1) + [LongPack(n - 1)]
  }

  lemma LongPackSound(h: nat)
    requires h > 0
    ensures ValidInit(FOUR, LongPack(h).init) && CertifiedPack(FOUR, LongPack(h))
    ensures LongPack(h).init.height == h
    ensures LongPack(h).init.block.Block? && LongPack(h).init.block.prev == LongPack(h - 1).init.block
  {
    assert 0 in LongPack(h).commits;
  }

  lemma PeerAppends(chain: seq<Pack>, n: nat)
    requires HonestPeer(FOUR, chain) && |chain| == n > 0 && chain[n - 1] == LongPack(n - 1)
    ensures HonestPeer(FOUR, chain + [LongPack(n)])
  {
    hide LongPack, ValidInit, CertifiedPack, Linked;
    LongPackSound(n);
    LinkedAppends(chain, LongPack(n));
  }

  lemma {:induction false} LongChainLinked(n: nat)
    ensures |LongChain(n)| == n && forall h :: 0 <= h < n ==> LongChain(n)[h] == LongPack(h)
    ensures n > 0 ==> HonestPeer(FOUR, LongChain(n))
  {
    if n == 1 {
      assert LongChain(1) == [GENESIS_PACK];
    } else if n > 1 {
      LongChainLinked(n - 1);
      PeerAppends(LongChain(n - 1), n - 1);
    }
  }

  /** Four nodes: a peer is 101 blocks ahead of a fresh node and alone reports its first
      block committed, one confirmation where two are needed. The response always
      announces more, and the loop goes round for ever. */
  lemma SyncUpNeedNotEnd()
    ensures FOUR.AccuseQuorumN() == 2
    ensures HonestPeer(FOUR, LongChain(102)) && Behind(InitNode(), LongChain(102))
    ensures InitNode().Keyed() && !Stops(FOUR, InitNode(), LongChain(102), _ => 1)
  {
    hide LongPack, LongChain, HonestPeer, Stops, Config.AccuseQuorumN;
    LongChainLinked(102);
    var one: Confirmations := _ => 1;
    FourQuorums();
    NodeAtGenesis();
    StopsIff(FOUR, InitNode(), LongChain(102), one);
    assert !Confirmed(FOUR, LongChain(102)[1], one);
  }

  lemma NodeAtGenesis()
    ensures LongPack(0) == GENESIS_PACK && Linked(InitNode().chain)
    ensures IndexInverts(InitNode().chain, InitNode().index)
  {
  }
}
