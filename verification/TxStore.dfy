/** The transaction store as it is written (primitives/txstore.go): maps inserted into and
    deleted from in place, proved against TxPool and TxIndex. */
module TxStores {
  import opened Protocol
  import opened NodeSpec
  import opened KeyCodec
  import opened HexCodec
  import opened BlockStores
  import opened TxPool
  import opened TxIndex

  /** A query's answer: the transaction, its height (-1 while it is in the inner pool) and
      the block that holds it. */
  datatype QueryResult = QueryResult(tx: Tx, height: int, block: Option<Pack>)

  /** Every recorded entry stands in the chain. */
  ghost predicate Fits(db: Index, chain: seq<Pack>) {
    forall tx :: tx in db.lookup ==> StandsIn(chain, Located(tx, db.lookup[tx]))
  }

  /** Committing more blocks takes nothing away. */
  lemma FitsGrows(db: Index, chain: seq<Pack>, chain': seq<Pack>)
    requires Fits(db, chain) && chain <= chain'
    ensures Fits(db, chain')
  {
    forall tx | tx in db.lookup ensures StandsIn(chain', Located(tx, db.lookup[tx])) {
      assert StandsIn(chain, Located(tx, db.lookup[tx]));
    }
  }

  /** What a store has recorded stands in the chain its blocks come from. */
  lemma HistoryFits(ops: seq<Op>, chain: seq<Pack>)
    requires FromChain(ops, chain)
    ensures Fits(After(ops).db, chain)
  {
    hide FromChain, StandsIn, After, IndexOf, Processed, Sound, Complete, HandedBlock;
    RunRecords(ops);
    RecordedSoundly(Processed(ops));
    var db := After(ops).db;
    forall tx | tx in db.lookup ensures StandsIn(chain, Located(tx, db.lookup[tx])) {
      SoundPlace(db, Processed(ops), tx);
      ProcessedIs(ops, chain, Located(tx, db.lookup[tx]));
    }
  }

  lemma AfterOp(ops: seq<Op>, op: Op)
    ensures After(ops + [op]) == Apply(After(ops), op)
  {
    assert (ops + [op])[..|ops|] == ops;
  }

  /** rst holds, once each, the transactions of out except those still to come. */
  ghost predicate Collected(rst: seq<WatchedTx>, out: map<string, WatchedTx>, rest: set<string>) {
    && (forall w :: w in rst ==> w.txid in out && w.txid !in rest && out[w.txid] == w)
    && (forall id :: id in out && id !in rest ==> out[id] in rst)
    && (forall j, k :: 0 <= j < k < |rst| ==> rst[j].txid != rst[k].txid)
  }

  lemma NothingCollected(s: Pools, failed: set<string>)
    ensures Collected([], HandedOut(s, failed), s.pending.Keys)
  {
  }

  lemma CollectedOne(s: Pools, failed: set<string>, rst: seq<WatchedTx>, rest: set<string>, id: string)
    requires id in rest && id in s.pending && s.pending[id].txid == id
    requires Collected(rst, HandedOut(s, failed), rest)
    ensures if !Deferred(s, failed, id) && !TxPool.Done(s, id)
            then Collected(rst + [s.pending[id]], HandedOut(s, failed), rest - {id})
            else Collected(rst, HandedOut(s, failed), rest - {id})
  {
    var out, v := HandedOut(s, failed), s.pending[id];
    assert id in out <==> !Deferred(s, failed, id) && !TxPool.Done(s, id);
    if id in out {
      var rst' := rst + [v];
      assert rst'[|rst|] == v;
      forall w | w in rst' ensures w.txid in out && w.txid !in rest - {id} && out[w.txid] == w {
        if w != v { assert w in rst; }
      }
      forall j, k | 0 <= j < k < |rst'| ensures rst'[j].txid != rst'[k].txid {
        assert rst'[j] == rst[j] && rst[j] in rst;
      }
      forall i | i in out && i !in rest - {id} ensures out[i] in rst' {
        if i != id { assert out[i] in rst; }
      }
    }
  }

  /** The answer says where the transaction stands and in which block, or that there is none. */
  predicate Tells(chain: seq<Pack>, e: Option<Located>, r: Option<QueryResult>) {
    match e
    case None => r.None?
    case Some(Located(tx, at)) => at.height < |chain| && r == Some(QueryResult(tx, at.height, Some(chain[at.height])))
  }

  /** The answer to a query: the inner pool's transaction, or what the database finds. */
  predicate IsAnswer(s: Pools, chain: seq<Pack>, id: string, found: Option<Located>, r: Option<QueryResult>) {
    if id in s.inner then r == Some(QueryResult(s.inner[id], -1, None)) else Tells(chain, found, r)
  }

  class TxStore {
    const blockStore: BlockStore

    /** The digest of a transaction, under which its place is stored. */
    const digest: Tx -> seq<Byte>

    var txInfoById: map<string, Tx>
    var watchedTxInfo: map<string, WatchedTx>
    var freshWatchedTxInfo: map<string, WatchedTx>
    var addTxsChan: seq<Tx>
    var currTerm: nat

    // database
    var txLookup: map<Tx, Entry>
    var txIdMap: map<string, Tx>

    /** Every request the store has handled. */
    ghost var history: seq<Op>

    ghost function State(): Pools
      reads this
    {
      Pools(txInfoById, watchedTxInfo, freshWatchedTxInfo, addTxsChan, Index(txLookup, txIdMap), currTerm)
    }

    /** Pending entries sit under their own id. */
    predicate Keyed()
      reads this
    {
      forall id :: id in freshWatchedTxInfo ==> freshWatchedTxInfo[id].txid == id
    }

    /** The store is what its history makes of it. */
    ghost predicate Valid()
      reads this
    {
      Keyed() && State() == After(history)
    }

    constructor (blockStore: BlockStore, digest: Tx -> seq<Byte>)
      ensures this.blockStore == blockStore && this.digest == digest
      ensures Valid() && history == []
    {
      this.blockStore, this.digest := blockStore, digest;
      txInfoById, watchedTxInfo, freshWatchedTxInfo, addTxsChan, currTerm := map[], map[], map[], [], 0;
      txLookup, txIdMap, history := map[], map[], [];
    }

    /** A new process on the database an earlier one has left. */
    constructor Reopen(was: TxStore)
      requires was.Valid()
      ensures blockStore == was.blockStore && digest == was.digest
      ensures Valid() && history == was.history + [Restart]
    {
      blockStore, digest := was.blockStore, was.digest;
      txInfoById, watchedTxInfo, freshWatchedTxInfo, addTxsChan, currTerm := map[], map[], map[], [], 0;
      txLookup, txIdMap, history := was.txLookup, was.txIdMap, was.history + [Restart];
      new;
      AfterOp(was.history, Restart);
    }

    // -------------------------------------------------------------- the pools

    /** Run's case for a watched transaction. */
    method OnAddWatchedTx(w: WatchedTx)
      requires Valid()
      modifies this`watchedTxInfo, this`freshWatchedTxInfo, this`history
      ensures Valid() && history == old(history) + [Watch(w)]
      ensures State() == AddWatched(old(State()), w)
    {
      AfterOp(history, Watch(w));
      history := history + [Watch(w)];
      if w.txid !in watchedTxInfo {
        watchedTxInfo := watchedTxInfo[w.txid := w];
        if !IsDistributionTx(w) { freshWatchedTxInfo := freshWatchedTxInfo[w.txid := w]; }
      }
    }

    method OnAddFresh(w: WatchedTx)
      requires Valid()
      modifies this`freshWatchedTxInfo, this`history
      ensures Valid() && history == old(history) + [Refresh(w)]
      ensures State() == AddFresh(old(State()), w)
    {
      AfterOp(history, Refresh(w));
      history := history + [Refresh(w)];
      freshWatchedTxInfo := freshWatchedTxInfo[w.txid := w];
    }

    method AddWatchedInfo(w: WatchedTx) returns (err: bool)
      requires Valid()
      modifies this`watchedTxInfo, this`history
      ensures Valid() && history == old(history) + [WatchInfo(w)]
      ensures (State(), err) == TxPool.AddWatchedInfo(old(State()), w)
    {
      AfterOp(history, WatchInfo(w));
      history := history + [WatchInfo(w)];
      if w.txid in watchedTxInfo { return true; }
      if w.txid in txIdMap { return true; }
      watchedTxInfo := watchedTxInfo[w.txid := w];
      err := false;
    }

    /** addTxs returns the positions it did not add. */
    method AddTxs(txs: seq<Tx>) returns (notAdded: seq<nat>)
      requires Valid()
      modifies this`txInfoById, this`history
      ensures Valid() && history == old(history) + [Add(txs)]
      ensures State() == TxPool.AddTxs(old(State()), txs)
      ensures notAdded == NotAdded(old(State()), txs)
    {
      AfterOp(history, Add(txs));
      history := history + [Add(txs)];
      notAdded := Insert(txs);
    }

    /** The loop of addTxs. */
    method Insert(txs: seq<Tx>) returns (notAdded: seq<nat>)
      modifies this`txInfoById
      ensures State() == TxPool.AddTxs(old(State()), txs)
      ensures notAdded == NotAdded(old(State()), txs)
    {
      notAdded := [];
      var k := 0;
      while k < |txs|
        invariant 0 <= k <= |txs|
        invariant State() == TxPool.AddTxs(old(State()), txs[..k])
        invariant notAdded == NotAdded(old(State()), txs[..k])
      {
        var tx := txs[k];
        assert txs[..k + 1][..k] == txs[..k];
        if tx.watched.txid !in txInfoById && tx !in txLookup {
          txInfoById := txInfoById[tx.watched.txid := tx];
        } else {
          notAdded := notAdded + [k];
        }
        k := k + 1;
      }
      assert txs[..k] == txs;
    }

    /** CreateInnerTx; signMsg is the transaction of the stored sign request, if any. */
    method CreateInnerTx(newlyTxId: string, signMsg: Option<WatchedTx>)
      requires Valid()
      modifies this`watchedTxInfo, this`freshWatchedTxInfo, this`addTxsChan, this`history
      ensures Valid()
      ensures history == old(history) + if signMsg.Some? then [Inner(signMsg.value, newlyTxId)] else []
      ensures State() == if signMsg.Some? then CreateInner(old(State()), signMsg.value, newlyTxId) else old(State())
    {
      if signMsg.None? { return; }
      var w := signMsg.value;
      AfterOp(history, Inner(w, newlyTxId));
      history := history + [Inner(w, newlyTxId)];
      watchedTxInfo := watchedTxInfo - {w.txid};
      freshWatchedTxInfo := freshWatchedTxInfo - {w.txid};
      addTxsChan := addTxsChan + [Tx(w, newlyTxId)];
    }

    /** Run's case for a request on the channel. */
    method OnAddTxs()
      requires Valid()
      modifies this`txInfoById, this`addTxsChan, this`history
      ensures Valid() && history == old(history) + [Take]
      ensures State() == TakeRequest(old(State()))
    {
      AfterOp(history, Take);
      history := history + [Take];
      if addTxsChan == [] { return; }
      var tx := addTxsChan[0];
      addTxsChan := addTxsChan[1..];
      var _ := Insert([tx]);
      assert [tx][..0] == [];
    }

    /** cleanUpOnNewCommitted on the transactions of a committed block. */
    method CleanUpOnNewCommitted(txs: seq<Tx>, height: nat)
      requires Valid()
      modifies this
      ensures Valid() && history == old(history) + [Op.Committed(txs, height)]
      ensures State() == CleanUp(old(State()), txs, height)
    {
      hide After, CleanUp;
      AfterOp(history, Op.Committed(txs, height));
      history := history + [Op.Committed(txs, height)];
      RecordTxs(txs, height);
    }

    /** Its loop. */
    method RecordTxs(txs: seq<Tx>, height: nat)
      requires Keyed()
      modifies this`txLookup, this`txIdMap, this`txInfoById, this`watchedTxInfo, this`freshWatchedTxInfo
      ensures Keyed() && State() == CleanUp(old(State()), txs, height)
    {
      hide CleanUpOne;
      var k := 0;
      while k < |txs|
        invariant 0 <= k <= |txs| && Keyed()
        invariant State() == CleanUp(old(State()), txs[..k], height)
      {
        assert txs[..k + 1][..k] == txs[..k];
        RecordTx(txs[k], Entry(height, k));
        k := k + 1;
      }
      assert txs[..k] == txs;
    }

    method RecordTx(tx: Tx, at: Entry)
      requires Keyed()
      modifies this`txLookup, this`txIdMap, this`txInfoById, this`watchedTxInfo, this`freshWatchedTxInfo
      ensures Keyed() && State() == CleanUpOne(old(State()), tx, at)
    {
      txLookup := txLookup[tx := at];
      txIdMap := txIdMap[tx.watched.txid := tx];
      txIdMap := txIdMap[tx.newlyTxId := tx];
      txInfoById := txInfoById - {tx.watched.txid};
      watchedTxInfo := watchedTxInfo - {tx.watched.txid};
      freshWatchedTxInfo := freshWatchedTxInfo - {tx.watched.txid};
    }

    /** GetFreshWatchedTxs; failed holds the ids whose signing failed in this term. */
    method GetFreshWatchedTxs(failed: set<string>) returns (rst: seq<WatchedTx>)
      requires Valid()
      modifies this`freshWatchedTxInfo, this`history
      ensures Valid() && history == old(history) + [HandOut(failed)]
      ensures State() == AfterHandingOut(old(State()), failed)
      ensures Collected(rst, HandedOut(old(State()), failed), {})
    {
      hide After, Collected, HandedOut, AfterHandingOut;
      AfterOp(history, HandOut(failed));
      history := history + [HandOut(failed)];
      rst := Pick(failed);
    }

    /** Its loop. */
    method Pick(failed: set<string>) returns (rst: seq<WatchedTx>)
      requires Keyed()
      modifies this`freshWatchedTxInfo
      ensures Keyed() && State() == AfterHandingOut(old(State()), failed)
      ensures Collected(rst, HandedOut(old(State()), failed), {})
    {
      hide Collected, HandedOut;
      rst := [];
      ghost var before := State();
      ghost var out := HandedOut(before, failed);
      ghost var kept := AfterHandingOut(before, failed).pending;
      var reAppend: map<string, WatchedTx> := map[];
      var rest := freshWatchedTxInfo.Keys;
      NothingCollected(before, failed);
      while rest != {}
        invariant rest <= freshWatchedTxInfo.Keys <= before.pending.Keys
        invariant forall id :: id in freshWatchedTxInfo ==> freshWatchedTxInfo[id] == before.pending[id]
        invariant reAppend == kept - rest
        invariant Collected(rst, out, rest)
        decreases rest
      {
        var id :| id in rest;
        var v := freshWatchedTxInfo[id];
        CollectedOne(before, failed, rst, rest, id);
        rest := rest - {id};
        if v.txid in failed && !IsDistributionTx(v) {
          reAppend := reAppend[id := v];
          continue;
        }
        if v.txid in txIdMap || v.txid in txInfoById {
          freshWatchedTxInfo := freshWatchedTxInfo - {id};
          continue;
        }
        rst := rst + [v];
      }
      freshWatchedTxInfo := reAppend;
    }

    /** The first loop of doHeartbeat, over the pending transactions. */
    method BeatPending(overdue: set<string>) returns (late: bool)
      requires Keyed()
      modifies this`freshWatchedTxInfo, this`watchedTxInfo
      ensures Keyed()
      ensures State() == old(State()).(pending := old(State()).pending - Settled(old(State()), overdue),
                                       watched := old(State()).watched - Settled(old(State()), overdue))
      ensures late <==> PendingLate(old(State()), overdue)
    {
      ghost var before := State();
      late := false;
      var rest := freshWatchedTxInfo.Keys;
      ghost var settled: set<string> := {};
      while rest != {}
        invariant rest <= freshWatchedTxInfo.Keys
        invariant settled == Settled(before, overdue) - rest
        invariant freshWatchedTxInfo == before.pending - settled
        invariant watchedTxInfo == before.watched - settled
        invariant late <==> exists id :: id in before.pending && id !in rest && Late(before, overdue, id)
        decreases rest
      {
        var id :| id in rest;
        rest := rest - {id};
        if id !in overdue { continue; }
        if id in txInfoById { continue; }
        if id in txIdMap {
          watchedTxInfo := watchedTxInfo - {id};
          freshWatchedTxInfo := freshWatchedTxInfo - {id};
          settled := settled + {id};
          continue;
        }
        assert Late(before, overdue, id);
        late := true;
      }
    }

    /** The second loop of doHeartbeat, over the inner pool. */
    method BeatInner(overdueInner: set<string>) returns (late: bool)
      requires Keyed()
      modifies this`txInfoById
      ensures Keyed()
      ensures State() == old(State()).(inner := old(State()).inner - SettledInner(old(State()), overdueInner))
      ensures late <==> InnerLate(old(State()), overdueInner)
    {
      ghost var before := State();
      late := false;
      var rest := txInfoById.Keys;
      ghost var dropped: set<string> := {};
      while rest != {}
        invariant rest <= txInfoById.Keys
        invariant dropped == SettledInner(before, overdueInner) - rest
        invariant txInfoById == before.inner - dropped
        invariant late <==> exists id :: id in before.inner && id !in rest && id in overdueInner && id !in before.db.ids
        decreases rest
      {
        var id :| id in rest;
        rest := rest - {id};
        if id !in overdueInner { continue; }
        if id in txIdMap {
          txInfoById := txInfoById - {id};
          dropped := dropped + {id};
          continue;
        }
        late := true;
      }
    }

    /** doHeartbeat; overdue and overdueInner are the entries whose time is up. It returns
        whether some of them are still not done, which raises an accuse. */
    method DoHeartbeat(overdue: set<string>, overdueInner: set<string>) returns (accuse: bool)
      requires Valid()
      modifies this`freshWatchedTxInfo, this`watchedTxInfo, this`txInfoById, this`history
      ensures Valid() && history == old(history) + [Beat(overdue, overdueInner)]
      ensures (State(), accuse) == Heartbeat(old(State()), overdue, overdueInner)
    {
      AfterOp(history, Beat(overdue, overdueInner));
      history := history + [Beat(overdue, overdueInner)];
      hide Settled, SettledInner, PendingLate;
      var watchedTxHasOverdue := BeatPending(overdue);
      BeatsCommute(old(State()), State(), overdueInner);
      var innerTxHasOverdue := BeatInner(overdueInner);
      accuse := innerTxHasOverdue || watchedTxHasOverdue;
    }

    // ------------------------------------------------------------------ queries

    /** The part of GetTx and queryTxsInfo behind the digest; its two assertions hold. */
    method Locate(id: Tx) returns (r: Option<QueryResult>)
      requires Valid() && blockStore.Valid() && FromChain(history, blockStore.chain)
      ensures id in txLookup ==> StandsIn(blockStore.chain, Located(id, txLookup[id]))
      ensures r == if id in txLookup
                   then Some(QueryResult(id, txLookup[id].height, Some(blockStore.chain[txLookup[id].height])))
                   else None
    {
      HistoryFits(history, blockStore.chain);
      if id !in txLookup { return None; }
      var entry := txLookup[id];
      assert StandsIn(blockStore.chain, Located(id, entry));
      var commitHeight := blockStore.GetCommitHeight();
      assert entry.height <= commitHeight;
      ChainFits(blockStore);
      var block := blockStore.GetCommitByHeight(entry.height);
      if block.None? { return None; }
      var txs := TxsOf(block.value.init.block);
      assert entry.index < |txs|;
      r := Some(QueryResult(txs[entry.index], entry.height, block));
    }

    /** The transactions a query text can mean: the one an id of either chain is mapped to,
        or else one whose digest the text spells in hex. */
    predicate Means(txid: string, tx: Tx)
      reads this
    {
      if txid in txIdMap then tx == txIdMap[txid] else DecodeHex(txid) == Some(digest(tx))
    }

    method GetTx(txid: string) returns (r: Option<QueryResult>)
      requires Valid() && blockStore.Valid() && FromChain(history, blockStore.chain)
      ensures r.Some? ==>
                var tx := r.value.tx;
                && Means(txid, tx) && tx in txLookup && r.value.height == txLookup[tx].height
                && StandsIn(blockStore.chain, Located(tx, txLookup[tx]))
      ensures r.None? ==> forall tx :: tx in txLookup ==> !Means(txid, tx)
      ensures txid in txIdMap ==> Tells(blockStore.chain, Find(State().db, txid), r)
      ensures txid in txIdMap && Unambiguous(AllTxs(blockStore.chain)) ==>
                Tells(blockStore.chain, Scan(Processed(history), txid), r)
    {
      hide FromChain, StandsIn, After, Scan, Processed, AllTxs, Unambiguous;
      FoundByScan(history, blockStore.chain, txid);
      if txid in txIdMap {
        r := Locate(txIdMap[txid]);
        return;
      }
      var data := DecodeHex(txid);
      if data.None? { return None; }
      if tx :| tx in txLookup && digest(tx) == data.value {
        r := Locate(tx);
      } else {
        r := None;
      }
    }

    /** queryTxsInfo: one answer for each id, the inner pool first. */
    method QueryTxsInfo(ids: seq<string>) returns (rst: seq<Option<QueryResult>>)
      requires Valid() && blockStore.Valid() && FromChain(history, blockStore.chain)
      ensures |rst| == |ids|
      ensures forall k :: 0 <= k < |ids| ==>
                IsAnswer(State(), blockStore.chain, ids[k], Find(State().db, ids[k]), rst[k])
      ensures Unambiguous(AllTxs(blockStore.chain)) ==>
                forall k :: 0 <= k < |ids| ==>
                  IsAnswer(State(), blockStore.chain, ids[k], Scan(Processed(history), ids[k]), rst[k])
    {
      hide FromChain, IsAnswer, After, Find, Scan, Processed, AllTxs, Unambiguous, BlockStore.Valid;
      rst := [];
      for n := 0 to |ids|
        invariant |rst| == n
        invariant forall k :: 0 <= k < n ==>
                    IsAnswer(State(), blockStore.chain, ids[k], Find(State().db, ids[k]), rst[k])
      {
        var r := QueryOne(ids[n]);
        rst := rst + [r];
      }
      forall k | 0 <= k < |ids| {
        FoundByScan(history, blockStore.chain, ids[k]);
      }
    }

    method QueryOne(id: string) returns (r: Option<QueryResult>)
      requires Valid() && blockStore.Valid() && FromChain(history, blockStore.chain)
      ensures IsAnswer(State(), blockStore.chain, id, Find(State().db, id), r)
    {
      hide FromChain, StandsIn, After;
      if id in txInfoById { return Some(QueryResult(txInfoById[id], -1, None)); }
      if id !in txIdMap { return None; }
      r := Locate(txIdMap[id]);
    }
  }

  lemma FoundByScan(ops: seq<Op>, chain: seq<Pack>, id: string)
    requires FromChain(ops, chain)
    ensures Unambiguous(AllTxs(chain)) ==> Find(After(ops).db, id) == Scan(Processed(ops), id)
    ensures id in After(ops).db.ids ==> Find(After(ops).db, id).Some?
  {
    hide FromChain, After, Scan, IndexOf, Processed, AllTxs, Unambiguous, Sound, Complete;
    if Unambiguous(AllTxs(chain)) { IndexAgreesWithChain(ops, chain, id); }
    RunRecords(ops);
    RecordedSoundly(Processed(ops));
    if id in After(ops).db.ids { SoundAt(After(ops).db, Processed(ops), id); }
  }

  /** The second loop does not look at what the first one changed. */
  lemma BeatsCommute(s: Pools, s': Pools, overdueInner: set<string>)
    requires s'.inner == s.inner && s'.db == s.db
    ensures SettledInner(s', overdueInner) == SettledInner(s, overdueInner)
    ensures InnerLate(s', overdueInner) <==> InnerLate(s, overdueInner)
  {
  }

  /** A recorded digest that is no id of either chain is found by its hex text, and by
      that alone: digests are collision free. */
  lemma HexFinds(store: TxStore, tx: Tx)
    requires tx in store.txLookup && Hex(store.digest(tx)) !in store.txIdMap
    requires forall a, b :: store.digest(a) == store.digest(b) ==> a == b
    ensures forall t :: store.Means(Hex(store.digest(tx)), t) <==> t == tx
  {
    HexRoundTrip(store.digest(tx));
  }

  lemma ChainFits(bs: BlockStore)
    requires bs.Valid()
    ensures |bs.chain| <= TWO_63
  {
  }
}
