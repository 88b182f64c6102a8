/** The transaction index agrees with the committed blocks (primitives/txstore.go). */
module TxIndex {
  import opened Protocol
  import opened TxPool

  /** A transaction and where it stands in the chain. */
  datatype Located = Located(tx: Tx, at: Entry)

  function TxsOf(b: Block): seq<Tx> {
    if b.Block? && b.body.TxsBody? then b.body.txs else []
  }

  function Locate(txs: seq<Tx>, height: nat): seq<Located> {
    seq(|txs|, i requires 0 <= i < |txs| => Located(txs[i], Entry(height, i)))
  }

  /** Every transaction of the chain, in chain order. */
  function AllTxs(chain: seq<Pack>): seq<Located> {
    if chain == [] then []
    else AllTxs(chain[..|chain| - 1]) + Locate(TxsOf(chain[|chain| - 1].init.block), |chain| - 1)
  }

  predicate HasId(tx: Tx, id: string) { tx.watched.txid == id || tx.newlyTxId == id }

  /** The first transaction with that id on either chain. */
  function Scan(all: seq<Located>, id: string): Option<Located> {
    if all == [] then None
    else
      var r := Scan(all[..|all| - 1], id);
      if r.Some? then r
      else if HasId(all[|all| - 1].tx, id) then Some(all[|all| - 1]) else None
  }

  /** The index after the transactions have been recorded one after another. */
  function RecordAll(db: Index, all: seq<Located>): Index {
    if all == [] then db
    else
      var e := all[|all| - 1];
      Recorded(RecordAll(db, all[..|all| - 1]), e.tx, e.at)
  }

  function IndexOf(all: seq<Located>): Index { RecordAll(Index(map[], map[]), all) }

  /** The database half of GetTx and queryTxsInfo, for an id on either chain. */
  function Find(db: Index, id: string): Option<Located> {
    if id in db.ids && db.ids[id] in db.lookup
    then Some(Located(db.ids[id], db.lookup[db.ids[id]])) else None
  }

  /** Ids and digests are distinct: transactions that share an id on either chain are the
      same transaction at the same place. */
  ghost predicate Unambiguous(all: seq<Located>) {
    forall j, k, id :: 0 <= j < |all| && 0 <= k < |all| && HasId(all[j].tx, id) && HasId(all[k].tx, id) ==>
      all[j] == all[k]
  }

  lemma {:induction false} ScanIsMember(all: seq<Located>, id: string)
    ensures Scan(all, id).Some? ==> Scan(all, id).value in all && HasId(Scan(all, id).value.tx, id)
    ensures Scan(all, id).None? ==> forall e :: e in all ==> !HasId(e.tx, id)
  {
    if all != [] {
      ScanIsMember(all[..|all| - 1], id);
      assert all == all[..|all| - 1] + [all[|all| - 1]];
    }
  }

  /** Every id leads to a transaction that has it, and every digest to a place where the
      transaction was recorded. */
  ghost predicate Sound(db: Index, all: seq<Located>) {
    && (forall id :: id in db.ids ==> HasId(db.ids[id], id) && db.ids[id] in db.lookup)
    && (forall tx :: tx in db.lookup ==> Located(tx, db.lookup[tx]) in all)
  }

  ghost predicate Complete(db: Index, all: seq<Located>) {
    forall e :: e in all ==> e.tx in db.lookup && e.tx.watched.txid in db.ids && e.tx.newlyTxId in db.ids
  }

  lemma RecordOneSound(db: Index, front: seq<Located>, e: Located)
    requires Sound(db, front)
    ensures Sound(Recorded(db, e.tx, e.at), front + [e])
  {
    var db', all := Recorded(db, e.tx, e.at), front + [e];
    assert all[|front|] == e;
    forall tx | tx in db'.lookup ensures Located(tx, db'.lookup[tx]) in all {
      if tx != e.tx { assert Located(tx, db.lookup[tx]) in front; }
    }
  }

  lemma RecordOneComplete(db: Index, front: seq<Located>, e: Located)
    requires Complete(db, front)
    ensures Complete(Recorded(db, e.tx, e.at), front + [e])
  {
  }

  lemma SoundAt(db: Index, all: seq<Located>, id: string)
    requires Sound(db, all) && id in db.ids
    ensures HasId(db.ids[id], id) && db.ids[id] in db.lookup
    ensures Located(db.ids[id], db.lookup[db.ids[id]]) in all
  {
  }

  lemma SoundPlace(db: Index, all: seq<Located>, tx: Tx)
    requires Sound(db, all) && tx in db.lookup
    ensures Located(tx, db.lookup[tx]) in all
  {
  }

  lemma CompleteAt(db: Index, all: seq<Located>, e: Located, id: string)
    requires Complete(db, all) && e in all && HasId(e.tx, id)
    ensures e.tx in db.lookup && id in db.ids
  {
  }

  lemma {:induction false} RecordedSoundly(all: seq<Located>)
    ensures Sound(IndexOf(all), all) && Complete(IndexOf(all), all)
  {
    hide Sound, Complete, Recorded;
    if all != [] {
      RecordedSoundly(all[..|all| - 1]);
      RecordOneSound(IndexOf(all[..|all| - 1]), all[..|all| - 1], all[|all| - 1]);
      RecordOneComplete(IndexOf(all[..|all| - 1]), all[..|all| - 1], all[|all| - 1]);
      assert all == all[..|all| - 1] + [all[|all| - 1]];
    } else {
      NothingRecorded();
    }
  }

  lemma NothingRecorded()
    ensures Sound(IndexOf([]), []) && Complete(IndexOf([]), [])
  {
  }

  lemma SameIdSamePlace(all: seq<Located>, e: Located, f: Located, id: string)
    requires Unambiguous(all) && e in all && f in all && HasId(e.tx, id) && HasId(f.tx, id)
    ensures e == f
  {
    var j :| 0 <= j < |all| && all[j] == e;
    var k :| 0 <= k < |all| && all[k] == f;
    assert HasId(all[j].tx, id) && HasId(all[k].tx, id);
  }

  /** Looking an id up gives exactly what a linear scan of the recorded transactions
      finds, in whatever order and however often they were recorded. */
  lemma FindIsScan(all: seq<Located>, id: string)
    requires Unambiguous(all)
    ensures Find(IndexOf(all), id) == Scan(all, id)
  {
    hide IndexOf, Scan, Unambiguous, Sound, Complete, HasId;
    RecordedSoundly(all);
    ScanIsMember(all, id);
    var db := IndexOf(all);
    if Scan(all, id).Some? { CompleteAt(db, all, Scan(all, id).value, id); }
    if id in db.ids {
      SoundAt(db, all, id);
      SameIdSamePlace(all, Located(db.ids[id], db.lookup[db.ids[id]]), Scan(all, id).value, id);
    }
  }

  /** Looking a digest up gives the place where the transaction stands. */
  lemma DigestFinds(all: seq<Located>, e: Located)
    requires Unambiguous(all) && e in all
    ensures e.tx in IndexOf(all).lookup && IndexOf(all).lookup[e.tx] == e.at
  {
    hide IndexOf, Unambiguous, Sound, Complete;
    RecordedSoundly(all);
    CompleteAt(IndexOf(all), all, e, e.tx.watched.txid);
    SoundPlace(IndexOf(all), all, e.tx);
    SameIdSamePlace(all, e, Located(e.tx, IndexOf(all).lookup[e.tx]), e.tx.watched.txid);
  }

  /** A place in the chain that holds the transaction. */
  predicate StandsIn(chain: seq<Pack>, e: Located) {
    && e.at.height < |chain|
    && e.at.index < |TxsOf(chain[e.at.height].init.block)|
    && TxsOf(chain[e.at.height].init.block)[e.at.index] == e.tx
  }

  lemma {:induction false} AllTxsStand(chain: seq<Pack>, e: Located)
    ensures e in AllTxs(chain) <==> StandsIn(chain, e)
  {
    if chain != [] {
      var n := |chain| - 1;
      AllTxsStand(chain[..n], e);
      var txs := TxsOf(chain[n].init.block);
      if e in Locate(txs, n) {
        var i :| 0 <= i < |txs| && Locate(txs, n)[i] == e;
        assert e.at == Entry(n, i);
      }
      if StandsIn(chain, e) && e.at.height == n {
        assert Locate(txs, n)[e.at.index] == e;
      }
    }
  }

  lemma SameUnambiguous(a: seq<Located>, b: seq<Located>)
    requires Unambiguous(b) && forall e :: e in a ==> e in b
    ensures Unambiguous(a)
  {
    forall j, k, id | 0 <= j < |a| && 0 <= k < |a| && HasId(a[j].tx, id) && HasId(a[k].tx, id)
      ensures a[j] == a[k]
    {
      assert a[j] in b && a[k] in b;
      var j' :| 0 <= j' < |b| && b[j'] == a[j];
      var k' :| 0 <= k' < |b| && b[k'] == a[k];
      assert HasId(b[j'].tx, id) && HasId(b[k'].tx, id);
    }
  }

  /** What cleanUpOnNewCommitted does to the database. */
  lemma {:induction false} CleanUpRecords(s: Pools, txs: seq<Tx>, height: nat)
    ensures CleanUp(s, txs, height).db == RecordAll(s.db, Locate(txs, height))
  {
    if txs != [] {
      var n := |txs| - 1;
      CleanUpRecords(s, txs[..n], height);
      assert Locate(txs, height)[..n] == Locate(txs[..n], height);
    }
  }

  lemma {:induction false} RecordAllAppends(db: Index, a: seq<Located>, b: seq<Located>)
    ensures RecordAll(db, a + b) == RecordAll(RecordAll(db, a), b)
  {
    if b == [] {
      assert a + b == a;
    } else {
      var n := |b| - 1;
      RecordAllAppends(db, a, b[..n]);
      assert (a + b)[..|a| + n] == a + b[..n];
    }
  }

  // -------------------------------------------------------------------- runs

  /** The transactions the committed blocks handed to the store held, in its own order. */
  function Processed(ops: seq<Op>): seq<Located> {
    if ops == [] then []
    else
      var op := ops[|ops| - 1];
      Processed(ops[..|ops| - 1]) + if op.Committed? then Locate(op.txs, op.height) else []
  }

  /** No request but a committed block changes the index, and restarts keep it. */
  lemma ApplyRecords(s: Pools, op: Op)
    ensures Apply(s, op).db == if op.Committed? then RecordAll(s.db, Locate(op.txs, op.height)) else s.db
  {
    match op
    case Add(txs) => AddTxsKeeps(s, txs);
    case Committed(txs, height) => CleanUpRecords(s, txs, height);
    case _ =>
  }

  /** In every reachable state the index is what recording the processed transactions one
      after another gives. */
  lemma {:induction false} RunRecords(ops: seq<Op>)
    ensures After(ops).db == IndexOf(Processed(ops))
  {
    if ops != [] {
      var front, op := ops[..|ops| - 1], ops[|ops| - 1];
      RunRecords(front);
      ApplyRecords(After(front), op);
      if op.Committed? {
        RecordAllAppends(Index(map[], map[]), Processed(front), Locate(op.txs, op.height));
        assert Processed(ops) == Processed(front) + Locate(op.txs, op.height);
      } else {
        assert Processed(ops) == Processed(front);
      }
    }
  }

  /** Every committed block the store was handed is a block of the chain. */
  ghost predicate FromChain(ops: seq<Op>, chain: seq<Pack>) {
    forall op :: op in ops && op.Committed? ==>
      op.height < |chain| && op.txs == TxsOf(chain[op.height].init.block)
  }

  /** The store was handed the block of this height. */
  predicate HandedBlock(ops: seq<Op>, h: nat) {
    exists op :: op in ops && op.Committed? && op.height == h
  }

  lemma LocateIs(chain: seq<Pack>, h: nat, e: Located)
    requires h < |chain|
    ensures e in Locate(TxsOf(chain[h].init.block), h) <==> StandsIn(chain, e) && e.at.height == h
  {
    var txs := TxsOf(chain[h].init.block);
    if e in Locate(txs, h) {
      var i :| 0 <= i < |txs| && Locate(txs, h)[i] == e;
    }
    if StandsIn(chain, e) && e.at.height == h {
      assert Locate(txs, h)[e.at.index] == e;
    }
  }

  lemma {:induction false} ProcessedIs(ops: seq<Op>, chain: seq<Pack>, e: Located)
    requires FromChain(ops, chain)
    ensures e in Processed(ops) <==> StandsIn(chain, e) && HandedBlock(ops, e.at.height)
  {
    hide StandsIn, Locate, TxsOf;
    if ops != [] {
      var front, op := ops[..|ops| - 1], ops[|ops| - 1];
      assert ops == front + [op];
      ProcessedIs(front, chain, e);
      assert op in ops;
      if op.Committed? { LocateIs(chain, op.height, e); }
      assert HandedBlock(ops, e.at.height)
             <==> HandedBlock(front, e.at.height) || (op.Committed? && op.height == e.at.height);
    }
  }

  predicate HoldsId(b: Block, id: string) {
    exists tx :: tx in TxsOf(b) && HasId(tx, id)
  }

  lemma HoldsAt(chain: seq<Pack>, e: Located, id: string)
    requires StandsIn(chain, e) && HasId(e.tx, id)
    ensures HoldsId(chain[e.at.height].init.block, id)
  {
    assert TxsOf(chain[e.at.height].init.block)[e.at.index] in TxsOf(chain[e.at.height].init.block);
  }

  lemma HeldStands(chain: seq<Pack>, h: nat, id: string) returns (e: Located)
    requires h < |chain| && HoldsId(chain[h].init.block, id)
    ensures StandsIn(chain, e) && HasId(e.tx, id) && e.at.height == h
  {
    var txs := TxsOf(chain[h].init.block);
    var tx :| tx in txs && HasId(tx, id);
    var i: nat :| i < |txs| && txs[i] == tx;
    e := Located(tx, Entry(h, i));
  }

  /** The index after any run of the store, restarts included, whose committed blocks are
      blocks of the chain: looking up an id of either chain is a linear scan of what was
      processed, and it is a scan of the whole chain exactly when no block the store was
      never handed holds a transaction with that id. */
  lemma IndexAgreesWithChain(ops: seq<Op>, chain: seq<Pack>, id: string)
    requires FromChain(ops, chain) && Unambiguous(AllTxs(chain))
    ensures Find(After(ops).db, id) == Scan(Processed(ops), id)
    ensures Find(After(ops).db, id) == Scan(AllTxs(chain), id)
            <==> forall h: nat :: h < |chain| && !HandedBlock(ops, h) ==> !HoldsId(chain[h].init.block, id)
  {
    hide FromChain, HoldsId, HandedBlock, StandsIn, After, Find, IndexOf, Processed, AllTxs, Unambiguous, HasId,
         Scan;
    var some, all := Processed(ops), AllTxs(chain);
    RunRecords(ops);
    forall e ensures (e in all <==> StandsIn(chain, e))
                     && (e in some <==> StandsIn(chain, e) && HandedBlock(ops, e.at.height)) {
      AllTxsStand(chain, e);
      ProcessedIs(ops, chain, e);
    }
    SameUnambiguous(some, all);
    FindIsScan(some, id);
    ScanIsMember(some, id);
    ScanIsMember(all, id);
    if Scan(all, id).Some? {
      var e := Scan(all, id).value;
      HoldsAt(chain, e, id);
      PlaceInChain(chain, e);
      if Scan(some, id).Some? { SameIdSamePlace(all, Scan(some, id).value, e, id); }
      forall h: nat | h < |chain| && HoldsId(chain[h].init.block, id) ensures h == e.at.height {
        var f := HeldStands(chain, h, id);
        SameIdSamePlace(all, f, e, id);
      }
    } else {
      forall h: nat | h < |chain| ensures !HoldsId(chain[h].init.block, id) {
        if HoldsId(chain[h].init.block, id) { var f := HeldStands(chain, h, id); }
      }
    }
  }

  lemma PlaceInChain(chain: seq<Pack>, e: Located)
    requires StandsIn(chain, e)
    ensures e.at.height < |chain|
  {
  }
}
