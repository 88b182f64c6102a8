/** Normal sync-up from one peer (node/sync_daemon.go). */
module SyncDaemons {
  import opened Protocol
  import opened MsgValidation
  import opened NodeSpec
  import opened NodeInvariant
  import opened KeyCodec
  import opened BlockStores

  const SYNC_UP_BATCH_SIZE: nat := 100

  // ----------------------------------------------------------- specification

  /** The number of peers that report a block committed, as GetCommitedCnt counts them. */
  type Confirmations = Block -> nat

  function ApplyBlocks(cfg: Config, s: Node, blocks: seq<Pack>, confirmed: Confirmations): (s': Node)
    requires s.Keyed()
    ensures s'.Keyed()
    decreases |blocks|
  {
    if blocks == [] || !CheckBlockPack(cfg, s, blocks[0], confirmed(blocks[0].init.block)) then s
    else ApplyBlocks(cfg, JustCommitIt(s, blocks[0]), blocks[1..], confirmed)
  }

  /** The response an honest peer with this chain gives to our present height. */
  function Answer(peer: seq<Pack>, s: Node): (seq<Pack>, bool)
    requires s.Keyed()
  {
    SyncResponse(peer, |s.chain| - 1, SYNC_UP_BATCH_SIZE)
  }

  /** One iteration of doSyncUp. */
  function Round(cfg: Config, s: Node, peer: seq<Pack>, confirmed: Confirmations): (s': Node)
    requires s.Keyed()
    ensures s'.Keyed()
  {
    ApplyBlocks(cfg, s, Answer(peer, s).0, confirmed)
  }

  function Rounds(cfg: Config, s: Node, peer: seq<Pack>, confirmed: Confirmations, k: nat): (s': Node)
    requires s.Keyed()
    ensures s'.Keyed()
  {
    if k == 0 then s else Round(cfg, Rounds(cfg, s, peer, confirmed, k - 1), peer, confirmed)
  }

  /** A hash-linked chain with a sound proposal and a certificate for every block above
      genesis; BraftCertificates shows that every node of a reachable cluster is one. */
  ghost predicate HonestPeer(cfg: Config, peer: seq<Pack>) {
    && Linked(peer)
    && forall h :: 0 < h < |peer| ==> ValidInit(cfg, peer[h].init) && CertifiedPack(cfg, peer[h])
  }

  /** Our chain is the lower part of the peer's, and our index matches it. */
  ghost predicate Behind(s: Node, peer: seq<Pack>) {
    && Linked(s.chain) && IndexInverts(s.chain, s.index)
    && |s.chain| <= |peer|
    && forall h :: 0 <= h < |s.chain| ==> s.chain[h].init.block == peer[h].init.block
  }

  predicate Confirmed(cfg: Config, p: Pack, confirmed: Confirmations) {
    confirmed(p.init.block) >= cfg.AccuseQuorumN()
  }

  /** The first height from h on that too few peers confirm, or the peer's length. */
  function FirstRefused(cfg: Config, peer: seq<Pack>, confirmed: Confirmations, h: nat): (k: nat)
    requires h <= |peer|
    ensures h <= k <= |peer|
    ensures forall j :: h <= j < k ==> Confirmed(cfg, peer[j], confirmed)
    ensures k < |peer| ==> !Confirmed(cfg, peer[k], confirmed)
    decreases |peer| - h
  {
    if h == |peer| || !Confirmed(cfg, peer[h], confirmed) then h
    else FirstRefused(cfg, peer, confirmed, h + 1)
  }

  // ------------------------------------------------------------------ rounds

  lemma BehindIsKeyed(s: Node, peer: seq<Pack>)
    requires Behind(s, peer)
    ensures s.Keyed() && 0 < |s.chain| <= |peer|
  {
  }

  lemma BehindAgrees(s: Node, peer: seq<Pack>)
    requires Behind(s, peer)
    ensures |s.chain| <= |peer| && forall h :: 0 <= h < |s.chain| ==> s.chain[h].init.block == peer[h].init.block
  {
  }

  lemma LinkedAppends(chain: seq<Pack>, p: Pack)
    requires Linked(chain) && p.init.block.Block? && p.init.block.prev == chain[|chain| - 1].init.block
    requires p.init.height == |chain|
    ensures Linked(chain + [p]) && Ht(p.init.block) == |chain|
  {
    var n := |chain|;
    assert chain[n - 1].init.height == n - 1 == Ht(chain[n - 1].init.block);
    var c := chain + [p];
    assert forall h :: 0 <= h < n ==> c[h] == chain[h];
  }

  lemma IndexAppends(chain: seq<Pack>, index: map<Block, nat>, p: Pack)
    requires Linked(chain) && IndexInverts(chain, index) && Ht(p.init.block) == |chain|
    ensures p.init.block !in index
    ensures IndexInverts(chain + [p], index[p.init.block := |chain|])
  {
    var c := chain + [p];
    assert forall h :: 0 <= h < |chain| ==> c[h] == chain[h];
  }

  lemma PeerBlock(cfg: Config, peer: seq<Pack>, n: nat)
    requires HonestPeer(cfg, peer) && 0 < n < |peer|
    ensures var p := peer[n];
            p.init.block.Block? && p.init.block.prev == peer[n - 1].init.block && p.init.height == n
            && ValidInit(cfg, p.init) && CertifiedPack(cfg, p)
  {
  }

  /** The peer's next block passes checkBlockPack exactly when enough peers confirm it,
      and committing it keeps us behind the same peer. */
  lemma NextBlock(cfg: Config, s: Node, peer: seq<Pack>, confirmed: Confirmations)
    requires HonestPeer(cfg, peer) && Behind(s, peer) && |s.chain| < |peer|
    ensures s.Keyed()
    ensures var p := peer[|s.chain|];
            && (CheckBlockPack(cfg, s, p, confirmed(p.init.block)) <==> Confirmed(cfg, p, confirmed))
            && p.init.height == |s.chain|
            && Behind(JustCommitIt(s, p), peer)
            && JustCommitIt(s, p).chain == s.chain + [p]
  {
    hide HonestPeer, ValidInit, CertifiedPack, Config.AccuseQuorumN;
    BehindIsKeyed(s, peer);
    var n := |s.chain|;
    var p := peer[n];
    PeerBlock(cfg, peer, n);
    assert p.init.block.prev == s.chain[n - 1].init.block;
    LinkedAppends(s.chain, p);
    IndexAppends(s.chain, s.index, p);
    hide Linked;
    assert s.index[p.init.block.prev] == n - 1;
  }

  /** A batch of the peer's next blocks is taken up to the first refused one. */
  lemma {:induction false} BatchApplied(cfg: Config, s: Node, peer: seq<Pack>, confirmed: Confirmations, end: nat)
    requires HonestPeer(cfg, peer) && Behind(s, peer) && |s.chain| <= end <= |peer|
    ensures s.Keyed()
    ensures var s' := ApplyBlocks(cfg, s, peer[|s.chain|..end], confirmed);
            Behind(s', peer) && s.chain <= s'.chain
            && |s'.chain| == Min(end, FirstRefused(cfg, peer, confirmed, |s.chain|))
    decreases end - |s.chain|
  {
    hide HonestPeer, Behind, CheckBlockPack, Confirmed, Node.Keyed, JustCommitIt;
    BehindIsKeyed(s, peer);
    var n := |s.chain|;
    if n < end {
      NextBlock(cfg, s, peer, confirmed);
      var blocks := peer[n..end];
      assert blocks[0] == peer[n] && blocks[1..] == peer[n + 1..end];
      if Confirmed(cfg, peer[n], confirmed) {
        BatchApplied(cfg, JustCommitIt(s, peer[n]), peer, confirmed, end);
      }
    }
  }

  lemma RoundApplied(cfg: Config, s: Node, peer: seq<Pack>, confirmed: Confirmations)
    requires HonestPeer(cfg, peer) && Behind(s, peer)
    ensures s.Keyed()
    ensures var s' := Round(cfg, s, peer, confirmed);
            Behind(s', peer) && s.chain <= s'.chain
            && |s'.chain| == Min(|s.chain| + SYNC_UP_BATCH_SIZE, FirstRefused(cfg, peer, confirmed, |s.chain|))
  {
    hide HonestPeer, Behind, Node.Keyed, ApplyBlocks, FirstRefused;
    BehindIsKeyed(s, peer);
    BatchApplied(cfg, s, peer, confirmed, Min(|s.chain| + SYNC_UP_BATCH_SIZE, |peer|));
  }

  /** After k rounds we hold the peer's chain up to the first refused height, or k
      batches of it: no height is skipped, duplicated or out of order. */
  lemma {:induction false} RoundsApplied(cfg: Config, s: Node, peer: seq<Pack>, confirmed: Confirmations, k: nat)
    requires HonestPeer(cfg, peer) && Behind(s, peer)
    ensures s.Keyed()
    ensures var s' := Rounds(cfg, s, peer, confirmed, k);
            Behind(s', peer) && s.chain <= s'.chain
            && |s'.chain| == Min(|s.chain| + k * SYNC_UP_BATCH_SIZE, FirstRefused(cfg, peer, confirmed, |s.chain|))
  {
    hide HonestPeer, Behind, Round, Node.Keyed, FirstRefused;
    BehindIsKeyed(s, peer);
    if k > 0 {
      RoundsApplied(cfg, s, peer, confirmed, k - 1);
      var t := Rounds(cfg, s, peer, confirmed, k - 1);
      RoundApplied(cfg, t, peer, confirmed);
      SameRefusal(cfg, peer, confirmed, |s.chain|, |t.chain|);
    }
  }

  lemma {:induction false} SameRefusal(cfg: Config, peer: seq<Pack>, confirmed: Confirmations, h: nat, k: nat)
    requires h <= k <= |peer| && k <= FirstRefused(cfg, peer, confirmed, h)
    ensures FirstRefused(cfg, peer, confirmed, k) == FirstRefused(cfg, peer, confirmed, h)
    decreases k - h
  {
    if h < k { SameRefusal(cfg, peer, confirmed, h + 1, k); }
  }

  /** The loop ends after the round whose response had More unset. */
  ghost predicate StopsAt(cfg: Config, s: Node, peer: seq<Pack>, confirmed: Confirmations, k: nat)
    requires s.Keyed()
  {
    !Answer(peer, Rounds(cfg, s, peer, confirmed, k)).1
  }

  ghost predicate Stops(cfg: Config, s: Node, peer: seq<Pack>, confirmed: Confirmations)
    requires s.Keyed()
  {
    exists k :: StopsAt(cfg, s, peer, confirmed, k)
  }

  /** doSyncUp ends exactly when every block we miss is confirmed except possibly the
      peer's last hundred: a refused block stops the batch but not the loop, so below
      those it is asked for again and again. */
  lemma StopsIff(cfg: Config, s: Node, peer: seq<Pack>, confirmed: Confirmations)
    requires HonestPeer(cfg, peer) && Behind(s, peer)
    ensures s.Keyed()
    ensures Stops(cfg, s, peer, confirmed)
            <==> forall h :: |s.chain| <= h < |peer| - 100 ==> Confirmed(cfg, peer[h], confirmed)
  {
    BehindIsKeyed(s, peer);
    hide HonestPeer, Behind, Rounds;
    var f := FirstRefused(cfg, peer, confirmed, |s.chain|);
    if f >= |peer| - SYNC_UP_BATCH_SIZE {
      RoundsApplied(cfg, s, peer, confirmed, |peer|);
      assert StopsAt(cfg, s, peer, confirmed, |peer|);
    } else {
      forall k ensures !StopsAt(cfg, s, peer, confirmed, k) {
        RoundsApplied(cfg, s, peer, confirmed, k);
      }
    }
  }

  /** When it ends, our chain is the peer's up to the first refused height; it is the
      whole of the peer's chain exactly when every missing block was confirmed. */
  lemma StopsSynced(cfg: Config, s: Node, peer: seq<Pack>, confirmed: Confirmations, k: nat)
    requires HonestPeer(cfg, peer) && Behind(s, peer) && s.Keyed() && StopsAt(cfg, s, peer, confirmed, k)
    ensures var s' := Rounds(cfg, s, peer, confirmed, k + 1);
            && |s'.chain| == FirstRefused(cfg, peer, confirmed, |s.chain|)
            && (forall h :: 0 <= h < |s'.chain| ==> s'.chain[h].init.block == peer[h].init.block)
            && (|s'.chain| == |peer|
                <==> forall h :: |s.chain| <= h < |peer| ==> Confirmed(cfg, peer[h], confirmed))
  {
    hide HonestPeer, Rounds, Behind, Node.Keyed, FirstRefused;
    BehindIsKeyed(s, peer);
    RoundsApplied(cfg, s, peer, confirmed, k);
    RoundsApplied(cfg, s, peer, confirmed, k + 1);
    BehindAgrees(Rounds(cfg, s, peer, confirmed, k + 1), peer);
    var f := FirstRefused(cfg, peer, confirmed, |s.chain|);
    assert f < |peer| ==> |s.chain| <= f && !Confirmed(cfg, peer[f], confirmed);
  }

  // ------------------------------------------------- blocks from any peer

  /** A sound, certified block that enough peers report committed, one above a committed
      parent. */
  predicate Trustworthy(cfg: Config, s: Node, p: Pack, confirmed: nat) {
    && ValidInit(cfg, p.init) && CertifiedPack(cfg, p) && confirmed >= cfg.AccuseQuorumN()
    && p.init.block.Block? && p.init.block.prev in s.index && p.init.block !in s.index
    && p.init.height == s.index[p.init.block.prev] + 1
  }

  /** Whoever sends the response, its first block is stored exactly when it is trustworthy;
      otherwise nothing of the response is. */
  lemma {:induction false} TakenIff(cfg: Config, s: Node, blocks: seq<Pack>, confirmed: Confirmations)
    requires s.Keyed() && blocks != []
    ensures var p := blocks[0];
            var s' := ApplyBlocks(cfg, s, blocks, confirmed);
            if Trustworthy(cfg, s, p, confirmed(p.init.block))
            then p.init.height <= |s.chain| && JustCommitIt(s, p).Keyed()
                 && s' == ApplyBlocks(cfg, JustCommitIt(s, p), blocks[1..], confirmed)
            else s' == s
  {
    hide ValidInit, CertifiedPack, Config.AccuseQuorumN;
  }

  /** Every block of any response that is stored, and was not before, is sound, certified and
      confirmed by enough peers, at a height above a committed block. */
  lemma {:induction false} StoredAreTrustworthy(cfg: Config, s: Node, blocks: seq<Pack>, confirmed: Confirmations,
                                               h: nat)
    requires s.Keyed()
    requires h < |ApplyBlocks(cfg, s, blocks, confirmed).chain|
    ensures var p := ApplyBlocks(cfg, s, blocks, confirmed).chain[h];
            || (h < |s.chain| && p == s.chain[h])
            || (p in blocks && ValidInit(cfg, p.init) && CertifiedPack(cfg, p) && p.init.height == h > 0
                && confirmed(p.init.block) >= cfg.AccuseQuorumN())
    decreases |blocks|
  {
    if blocks != [] {
      TakenIff(cfg, s, blocks, confirmed);
      hide ApplyBlocks, ValidInit, CertifiedPack, Config.AccuseQuorumN, Node.Keyed;
      var p := blocks[0];
      if Trustworthy(cfg, s, p, confirmed(p.init.block)) {
        StoredAreTrustworthy(cfg, JustCommitIt(s, p), blocks[1..], confirmed, h);
        assert p in blocks && forall q :: q in blocks[1..] ==> q in blocks;
      }
    } else {
      NothingApplied(cfg, s, confirmed);
    }
  }

  lemma NothingApplied(cfg: Config, s: Node, confirmed: Confirmations)
    requires s.Keyed()
    ensures ApplyBlocks(cfg, s, [], confirmed) == s
  {
  }

  // ---------------------------------------------- the rest of the response

  /** A message the last response carries besides committed blocks: the pending
      block's init, its prepares and its commits, and the last strong accuse. */
  predicate FromFresh(x: Input, pending: Pack, accuse: Option<StrongAccuse>) {
    match x
    case GotInit(init, _, _, _) => init == pending.init
    case GotPrepare(msg) => exists i :: i in pending.prepares && pending.prepares[i] == msg
    case GotCommit(msg) => exists i :: i in pending.commits && pending.commits[i] == msg
    case GotStrong(msg) => accuse == Some(msg)
    case _ => false
  }

  /** Handling those messages, in whatever order, takes none of the synced blocks back
      and fails no assertion. */
  lemma FreshPartKeeps(cfg: Config, s: Node, pending: Pack, accuse: Option<StrongAccuse>, xs: seq<Input>)
    requires NodeInv(s) && FreshCommittable(s)
    requires Committable(pending.init.block)
    requires forall i :: i in pending.prepares ==> pending.prepares[i].height == Ht(pending.prepares[i].block)
    requires forall i :: i in pending.commits ==> pending.commits[i].height == Ht(pending.commits[i].block)
    requires forall x :: x in xs ==> FromFresh(x, pending, accuse)
    ensures Replay(cfg, s, xs).Done?
    ensures NodeInv(Replay(cfg, s, xs).node) && s.chain <= Replay(cfg, s, xs).node.chain
  {
    hide NodeInv, FreshCommittable, Replay;
    HistoryKeeps(cfg, s, xs, 0);
    EmptyHistory(cfg, s, xs);
  }

  lemma EmptyHistory(cfg: Config, s: Node, xs: seq<Input>)
    ensures Replay(cfg, s, xs[..0]) == Done(s, [])
  {
  }

  // ------------------------------------------------------------- the daemon

  class SyncDaemon {
    const blockStore: BlockStore

    constructor (blockStore: BlockStore)
      ensures this.blockStore == blockStore
    {
      this.blockStore := blockStore;
    }

    method CheckBlockPackOf(p: Pack, count: nat) returns (ok: bool)
      requires blockStore.Valid()
      ensures ok == CheckBlockPack(blockStore.cfg, blockStore.State(), p, count)
    {
      hide StoresChain, StoresIndex, HeightKey, ValidInit, CommitsName;
      var sound := CheckInitMsg(blockStore.cfg, p.init);
      if !sound { return false; }
      var named := CheckCommits(blockStore.cfg, p);
      if !named || !p.init.block.Block? { return false; }
      var parent := blockStore.IsCommitted(p.init.block.prev);
      if !parent { return false; }
      var duplicate := blockStore.IsCommitted(p.init.block);
      if duplicate { return false; }
      var below := blockStore.GetCommitByID(p.init.block.prev);
      if p.init.height != below.value.init.height + 1 { return false; }
      ok := count >= blockStore.cfg.AccuseQuorumN();
    }

    /** The committed blocks of a response, up to the first that fails the check. */
    method ProcessSyncUpResponse(commits: seq<Pack>, confirmed: Confirmations)
      requires blockStore.Valid() && forall p :: p in commits ==> p.init.height < TWO_63
      modifies blockStore
      ensures blockStore.Valid()
      ensures blockStore.State() == ApplyBlocks(blockStore.cfg, old(blockStore.State()), commits, confirmed)
    {
      hide StoresChain, StoresIndex, HeightKey, CheckBlockPack;
      var k := 0;
      while k < |commits|
        invariant 0 <= k <= |commits| && blockStore.Valid()
        invariant ApplyBlocks(blockStore.cfg, blockStore.State(), commits[k..], confirmed)
                  == ApplyBlocks(blockStore.cfg, old(blockStore.State()), commits, confirmed)
      {
        var ok := CheckBlockPackOf(commits[k], confirmed(commits[k].init.block));
        if !ok { break; }
        CheckedHeight(blockStore.cfg, blockStore.State(), commits[k], confirmed(commits[k].init.block));
        assert commits[k..][1..] == commits[k + 1..];
        blockStore.JustCommitIt(commits[k]);
        k := k + 1;
      }
    }

    /** One iteration of doSyncUp, its request answered by the peer's store. */
    method SyncRound(peer: BlockStore, confirmed: Confirmations) returns (more: bool)
      requires blockStore.Valid() && peer.Valid() && peer != blockStore
      requires HonestPeer(blockStore.cfg, peer.chain)
      modifies blockStore
      ensures blockStore.Valid() && more == Answer(peer.chain, old(blockStore.State())).1
      ensures blockStore.State() == Round(blockStore.cfg, old(blockStore.State()), peer.chain, confirmed)
    {
      hide StoresChain, StoresIndex, HeightKey, CheckBlockPack, HonestPeer, Heights, ApplyBlocks;
      var base := blockStore.GetCommitHeight();
      var commits, announced, _, _ := peer.GenSyncUpResponse(base, SYNC_UP_BATCH_SIZE, true);
      HeightsFit(blockStore.cfg, peer.chain, base);
      ProcessSyncUpResponse(commits, confirmed);
      more := announced;
    }

    /** doSyncUp, the peer's chain not changing meanwhile. The third precondition is exactly
        when the loop ends (StopsIff). */
    method DoSyncUp(peer: BlockStore, confirmed: Confirmations)
      requires blockStore.Valid() && peer.Valid() && peer != blockStore
      requires HonestPeer(blockStore.cfg, peer.chain) && Behind(blockStore.State(), peer.chain)
      requires forall h :: |blockStore.chain| <= h < |peer.chain| - SYNC_UP_BATCH_SIZE ==>
                 Confirmed(blockStore.cfg, peer.chain[h], confirmed)
      modifies blockStore
      ensures blockStore.Valid() && Behind(blockStore.State(), peer.chain)
      ensures old(blockStore.chain) <= blockStore.chain
      ensures |blockStore.chain|
              == FirstRefused(blockStore.cfg, peer.chain, confirmed, old(|blockStore.chain|))
    {
      hide BlockStore.Valid, HonestPeer, Behind, Round, Confirmed, FirstRefused, Node.Keyed;
      BehindIsKeyed(blockStore.State(), peer.chain);
      ghost var start := |blockStore.chain|;
      ghost var refused := FirstRefused(blockStore.cfg, peer.chain, confirmed, start);
      while true
        invariant blockStore.Valid() && Behind(blockStore.State(), peer.chain)
        invariant old(blockStore.chain) <= blockStore.chain && |blockStore.chain| <= refused
        decreases refused - |blockStore.chain|
      {
        SameRefusal(blockStore.cfg, peer.chain, confirmed, start, |blockStore.chain|);
        RoundApplied(blockStore.cfg, blockStore.State(), peer.chain, confirmed);
        var more := SyncRound(peer, confirmed);
        if !more { return; }
      }
    }
  }

  lemma CheckedHeight(cfg: Config, s: Node, p: Pack, count: nat)
    requires s.Keyed() && CheckBlockPack(cfg, s, p, count)
    ensures p.init.height <= |s.chain|
  {
  }

  lemma HeightsFit(cfg: Config, peer: seq<Pack>, base: nat)
    requires HonestPeer(cfg, peer) && |peer| <= TWO_63
    ensures forall p :: p in SyncResponse(peer, base, SYNC_UP_BATCH_SIZE).0 ==> p.init.height < TWO_63
  {
  }
}
