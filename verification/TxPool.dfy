/** What the pools and the index of primitives/txstore.go hold after each request, and
    what is true of them over whole runs. TxStore.dfy proves the loops against this. */
module TxPool {
  import opened Protocol

  /** Where a committed transaction stands. */
  datatype Entry = Entry(height: nat, index: nat)

  /** The two database tables written for committed transactions: by digest (a Tx stands
      for its own digest), and from ids on either chain to digests. */
  datatype Index = Index(lookup: map<Tx, Entry>, ids: map<string, Tx>)

  /** The memory pools; requests are the transactions CreateInnerTx has put on the
      channel that Run has not taken off yet. */
  datatype Pools = Pools(inner: map<string, Tx>, watched: map<string, WatchedTx>,
                         pending: map<string, WatchedTx>, requests: seq<Tx>,
                         db: Index, term: nat)

  predicate IsDistributionTx(w: WatchedTx) {
    w.from == w.to && "DistributionTx" <= w.txid
  }

  // ---------------------------------------------------------------- requests

  function AddWatched(s: Pools, w: WatchedTx): Pools {
    if w.txid in s.watched then s
    else s.(watched := s.watched[w.txid := w],
            pending := if IsDistributionTx(w) then s.pending else s.pending[w.txid := w])
  }

  function AddFresh(s: Pools, w: WatchedTx): Pools { s.(pending := s.pending[w.txid := w]) }

  /** AddWatchedInfo, and whether it reports an error. */
  function AddWatchedInfo(s: Pools, w: WatchedTx): (Pools, bool) {
    if w.txid in s.watched || w.txid in s.db.ids then (s, true)
    else (s.(watched := s.watched[w.txid := w]), false)
  }

  predicate Refused(s: Pools, tx: Tx) { tx.watched.txid in s.inner || tx in s.db.lookup }

  function AddTx(s: Pools, tx: Tx): Pools {
    if Refused(s, tx) then s else s.(inner := s.inner[tx.watched.txid := tx])
  }

  function AddTxs(s: Pools, txs: seq<Tx>): Pools {
    if txs == [] then s else AddTx(AddTxs(s, txs[..|txs| - 1]), txs[|txs| - 1])
  }

  /** The positions addTxs returns. */
  function NotAdded(s: Pools, txs: seq<Tx>): seq<nat> {
    if txs == [] then []
    else
      var n := |txs| - 1;
      NotAdded(s, txs[..n]) + if Refused(AddTxs(s, txs[..n]), txs[n]) then [n] else []
  }

  /** CreateInnerTx for a stored sign request on w: the watched entry goes before the
      inner transaction is on its way. */
  function CreateInner(s: Pools, w: WatchedTx, newlyTxId: string): Pools {
    s.(watched := s.watched - {w.txid}, pending := s.pending - {w.txid},
       requests := s.requests + [Tx(w, newlyTxId)])
  }

  function TakeRequest(s: Pools): Pools {
    if s.requests == [] then s else AddTx(s.(requests := s.requests[1..]), s.requests[0])
  }

  function Recorded(db: Index, tx: Tx, at: Entry): Index {
    Index(db.lookup[tx := at], db.ids[tx.watched.txid := tx][tx.newlyTxId := tx])
  }

  function CleanUpOne(s: Pools, tx: Tx, at: Entry): Pools {
    s.(db := Recorded(s.db, tx, at), inner := s.inner - {tx.watched.txid},
       watched := s.watched - {tx.watched.txid}, pending := s.pending - {tx.watched.txid})
  }

  /** cleanUpOnNewCommitted. */
  function CleanUp(s: Pools, txs: seq<Tx>, height: nat): Pools {
    if txs == [] then s
    else CleanUpOne(CleanUp(s, txs[..|txs| - 1], height), txs[|txs| - 1], Entry(height, |txs| - 1))
  }

  predicate Done(s: Pools, id: string) { id in s.db.ids || id in s.inner }

  /** A pending transaction whose signing failed this term waits for the next one. */
  predicate Deferred(s: Pools, failed: set<string>, id: string)
    requires id in s.pending
  {
    s.pending[id].txid in failed && !IsDistributionTx(s.pending[id])
  }

  /** GetFreshWatchedTxs: what it hands out, and what it leaves. */
  function HandedOut(s: Pools, failed: set<string>): map<string, WatchedTx> {
    map id | id in s.pending && !Deferred(s, failed, id) && !Done(s, id) :: s.pending[id]
  }

  function AfterHandingOut(s: Pools, failed: set<string>): Pools {
    s.(pending := map id | id in s.pending && Deferred(s, failed, id) :: s.pending[id])
  }

  /** Overdue pending transactions that turn out to be committed. */
  function Settled(s: Pools, overdue: set<string>): set<string> {
    set id | id in s.pending && id in overdue && id !in s.inner && id in s.db.ids
  }

  predicate Late(s: Pools, overdue: set<string>, id: string) { id in overdue && !Done(s, id) }

  predicate PendingLate(s: Pools, overdue: set<string>) {
    exists id :: id in s.pending && Late(s, overdue, id)
  }

  function SettledInner(s: Pools, overdueInner: set<string>): set<string> {
    set id | id in s.inner && id in overdueInner && id in s.db.ids
  }

  predicate InnerLate(s: Pools, overdueInner: set<string>) {
    exists id :: id in s.inner && id in overdueInner && id !in s.db.ids
  }

  /** doHeartbeat, given which entries are overdue, and whether it raises an accuse. */
  function Heartbeat(s: Pools, overdue: set<string>, overdueInner: set<string>): (Pools, bool) {
    var settled := Settled(s, overdue);
    (s.(pending := s.pending - settled, watched := s.watched - settled,
        inner := s.inner - SettledInner(s, overdueInner)),
     PendingLate(s, overdue) || InnerLate(s, overdueInner))
  }

  // -------------------------------------------------------------------- runs

  datatype Op = Watch(w: WatchedTx)
              | WatchInfo(w: WatchedTx)
              | Refresh(w: WatchedTx)
              | Add(txs: seq<Tx>)
              | Inner(w: WatchedTx, newlyTxId: string)
              | Take
              | Committed(txs: seq<Tx>, height: nat)
              | HandOut(failed: set<string>)
              | DeleteFresh(id: string)
              | DeleteWatched(id: string)
              | Beat(overdue: set<string>, overdueInner: set<string>)
              | NewTerm(term: nat)
              | Restart

  function Apply(s: Pools, op: Op): Pools {
    match op
    case Watch(w) => AddWatched(s, w)
    case WatchInfo(w) => AddWatchedInfo(s, w).0
    case Refresh(w) => AddFresh(s, w)
    case Add(txs) => AddTxs(s, txs)
    case Inner(w, newlyTxId) => CreateInner(s, w, newlyTxId)
    case Take => TakeRequest(s)
    case Committed(txs, height) => CleanUp(s, txs, height)
    case HandOut(failed) => AfterHandingOut(s, failed)
    case DeleteFresh(id) => s.(pending := s.pending - {id})
    case DeleteWatched(id) => s.(watched := s.watched - {id})
    case Beat(overdue, overdueInner) => Heartbeat(s, overdue, overdueInner).0
    case NewTerm(t) => s.(term := t)
    case Restart => EmptyPools().(db := s.db)
  }

  function EmptyPools(): Pools { Pools(map[], map[], map[], [], Index(map[], map[]), 0) }

  function After(ops: seq<Op>): Pools {
    if ops == [] then EmptyPools() else Apply(After(ops[..|ops| - 1]), ops[|ops| - 1])
  }

  /** The store has taken the transaction in since it was last restarted and has not been
      told to drop it since. */
  predicate Accepted(ops: seq<Op>, id: string) {
    ops != [] &&
    var front, op := ops[..|ops| - 1], ops[|ops| - 1];
    if (op.Watch? || op.WatchInfo?) && op.w.txid == id then true
    else if op == DeleteWatched(id) || op.Restart? then false
    else Accepted(front, id)
  }

  /** Somewhere it cannot be forgotten. */
  predicate Kept(s: Pools, id: string) {
    || id in s.watched || id in s.inner || id in s.db.ids
    || exists k :: 0 <= k < |s.requests| && s.requests[k].watched.txid == id
  }

  /** A recorded transaction's own id is recorded with it. */
  ghost predicate IdsRecorded(db: Index) {
    forall tx :: tx in db.lookup ==> tx.watched.txid in db.ids
  }

  lemma {:induction false} AddTxsKeeps(s: Pools, txs: seq<Tx>)
    ensures AddTxs(s, txs) == s.(inner := AddTxs(s, txs).inner)
    ensures forall id :: id in s.inner ==> id in AddTxs(s, txs).inner
  {
    if txs != [] { AddTxsKeeps(s, txs[..|txs| - 1]); }
  }

  lemma {:induction false} CleanUpKeeps(s: Pools, txs: seq<Tx>, height: nat)
    requires IdsRecorded(s.db)
    ensures var s' := CleanUp(s, txs, height);
            && IdsRecorded(s'.db) && s'.requests == s.requests
            && (forall id :: id in s.db.ids ==> id in s'.db.ids)
            && (forall id :: id in s.watched || id in s.inner ==>
                  id in s'.watched || id in s'.inner || id in s'.db.ids)
  {
    if txs != [] { CleanUpKeeps(s, txs[..|txs| - 1], height); }
  }

  lemma TakeKeeps(s: Pools, id: string)
    requires IdsRecorded(s.db) && Kept(s, id)
    ensures Kept(TakeRequest(s), id)
  {
    if s.requests != [] {
      var s' := TakeRequest(s);
      if exists k :: 0 <= k < |s.requests| && s.requests[k].watched.txid == id {
        var k :| 0 <= k < |s.requests| && s.requests[k].watched.txid == id;
        if k > 0 { assert s'.requests[k - 1] == s.requests[k]; }
      }
    }
  }

  lemma InnerKeeps(s: Pools, w: WatchedTx, newlyTxId: string, id: string)
    requires Kept(s, id)
    ensures Kept(CreateInner(s, w, newlyTxId), id)
  {
    var s' := CreateInner(s, w, newlyTxId);
    assert s'.requests[|s.requests|] == Tx(w, newlyTxId);
    if exists k :: 0 <= k < |s.requests| && s.requests[k].watched.txid == id {
      var k :| 0 <= k < |s.requests| && s.requests[k].watched.txid == id;
      assert s'.requests[k] == s.requests[k];
    }
  }

  lemma ApplyKeeps(s: Pools, op: Op, id: string)
    requires IdsRecorded(s.db)
    ensures IdsRecorded(Apply(s, op).db)
    ensures Kept(s, id) && op != DeleteWatched(id) && !op.Restart? ==> Kept(Apply(s, op), id)
    ensures (op.Watch? || op.WatchInfo?) && op.w.txid == id ==> Kept(Apply(s, op), id)
  {
    match op
    case Add(txs) => AddTxsKeeps(s, txs);
    case Inner(w, newlyTxId) => if Kept(s, id) { InnerKeeps(s, w, newlyTxId, id); }
    case Take => if Kept(s, id) { TakeKeeps(s, id); }
    case Committed(txs, height) => CleanUpKeeps(s, txs, height);
    case _ =>
  }

  /** In every reachable state, a transaction the store took in is still watched, on its
      way to or in the inner pool, or recorded as committed, unless DeleteWatchedTx
      dropped it. */
  lemma {:induction false} WatchedNeverLost(ops: seq<Op>, id: string)
    ensures IdsRecorded(After(ops).db)
    ensures Accepted(ops, id) ==> Kept(After(ops), id)
  {
    if ops != [] {
      WatchedNeverLost(ops[..|ops| - 1], id);
      hide IdsRecorded, Kept, Apply;
      ApplyKeeps(After(ops[..|ops| - 1]), ops[|ops| - 1], id);
    }
  }

  /** GetFreshWatchedTxs splits the pending entries in three: handed out, kept for the
      next term, and dropped because they are done already. */
  lemma HandingOutPartitions(s: Pools, failed: set<string>)
    ensures var out, kept := HandedOut(s, failed), AfterHandingOut(s, failed).pending;
            var dropped := s.pending.Keys - out.Keys - kept.Keys;
            && out.Keys !! kept.Keys
            && out.Keys + kept.Keys <= s.pending.Keys
            && (forall id :: id in out ==> out[id] == s.pending[id] && !Done(s, id))
            && (forall id :: id in kept ==> kept[id] == s.pending[id])
            && (forall id :: id in dropped <==> id in s.pending && Done(s, id) && !Deferred(s, failed, id))
  {
  }

  /** A transaction is handed out at most once until it is put in the queue again. */
  lemma HandedOutOnce(s: Pools, failed: set<string>, failed': set<string>, id: string)
    requires id in HandedOut(s, failed)
    ensures id !in HandedOut(AfterHandingOut(s, failed), failed')
  {
  }
  // ------------------------------------------------ what each request changes

  /** The same map without some keys. */
  ghost predicate Without<T>(after: map<string, T>, before: map<string, T>, gone: string -> bool) {
    && (forall id :: id in after <==> id in before && !gone(id))
    && (forall id :: id in after ==> after[id] == before[id])
  }

  predicate OfOne(txs: seq<Tx>, id: string) { exists k :: 0 <= k < |txs| && txs[k].watched.txid == id }

  /** A multi-asset distribution, which nobody hands out and nobody defers. */
  predicate Distribution(w: WatchedTx) {
    w.from == w.to && |w.txid| >= 14 && w.txid[..14] == "DistributionTx"
  }

  lemma DistributionIs(w: WatchedTx)
    ensures IsDistributionTx(w) <==> Distribution(w)
  {
    assert |"DistributionTx"| == 14;
  }

  lemma OneMoreOf(txs: seq<Tx>, id: string)
    requires txs != []
    ensures OfOne(txs, id) <==> OfOne(txs[..|txs| - 1], id) || txs[|txs| - 1].watched.txid == id
  {
    var n := |txs| - 1;
    if k :| 0 <= k < n && txs[..n][k].watched.txid == id { assert txs[k].watched.txid == id; }
    if k :| 0 <= k < |txs| && txs[k].watched.txid == id {
      if k < n { assert txs[..n][k].watched.txid == id; }
    }
  }

  lemma NoneGone<T>(m: map<string, T>)
    ensures Without(m, m, id => OfOne([], id))
  {
  }

  lemma OneMoreGone<T>(m: map<string, T>, before: map<string, T>, txs: seq<Tx>)
    requires txs != [] && Without(m, before, id => OfOne(txs[..|txs| - 1], id))
    ensures Without(m - {txs[|txs| - 1].watched.txid}, before, id => OfOne(txs, id))
  {
    forall id ensures OfOne(txs, id) <==> OfOne(txs[..|txs| - 1], id) || txs[|txs| - 1].watched.txid == id {
      OneMoreOf(txs, id);
    }
    hide OfOne;
  }

  /** A committed block takes exactly its own transactions out of all three pools; the
      queue and the other entries stay. */
  lemma {:induction false} CommittedTakenOut(s: Pools, txs: seq<Tx>, height: nat)
    ensures var s' := CleanUp(s, txs, height);
            && Without(s'.inner, s.inner, id => OfOne(txs, id))
            && Without(s'.watched, s.watched, id => OfOne(txs, id))
            && Without(s'.pending, s.pending, id => OfOne(txs, id))
            && s'.requests == s.requests && s'.term == s.term
  {
    hide Without, OfOne, Recorded;
    if txs == [] {
      NoneGone(s.inner);
      NoneGone(s.watched);
      NoneGone(s.pending);
    } else {
      var n := |txs| - 1;
      CommittedTakenOut(s, txs[..n], height);
      var t, id := CleanUp(s, txs[..n], height), txs[n].watched.txid;
      OneMoreGone(t.inner, s.inner, txs);
      OneMoreGone(t.watched, s.watched, txs);
      OneMoreGone(t.pending, s.pending, txs);
    }
  }

  /** An unknown watched transaction is watched and, unless it is a distribution, pending;
      a known one changes nothing. */
  lemma WatchedTaken(s: Pools, w: WatchedTx)
    ensures var s' := AddWatched(s, w);
            if w.txid in s.watched then s' == s
            else s' == s.(watched := s.watched[w.txid := w], pending := s'.pending)
                 && s'.pending == if Distribution(w) then s.pending else s.pending[w.txid := w]
    ensures var (s', failed) := AddWatchedInfo(s, w);
            && (failed <==> w.txid in s.watched || w.txid in s.db.ids)
            && s' == if failed then s else s.(watched := s.watched[w.txid := w])
  {
    DistributionIs(w);
  }

  /** The first transaction of the list with that id that is not recorded. */
  predicate FirstNew(s: Pools, txs: seq<Tx>, id: string, k: nat) {
    && k < |txs| && txs[k].watched.txid == id && txs[k] !in s.db.lookup
    && forall j :: 0 <= j < k && txs[j].watched.txid == id ==> txs[j] in s.db.lookup
  }

  /** addTxs puts into the inner pool, for every id not there yet, the first transaction with
      it that is not recorded, and refuses exactly the others. */
  lemma {:induction false} AddedAre(s: Pools, txs: seq<Tx>, id: string, n: nat)
    ensures var s' := AddTxs(s, txs);
            && s' == s.(inner := s'.inner)
            && (id in s'.inner <==> id in s.inner || exists k: nat :: FirstNew(s, txs, id, k))
            && (id in s.inner ==> s'.inner[id] == s.inner[id])
            && (id !in s.inner ==>
                  forall k: nat :: FirstNew(s, txs, id, k) ==> id in s'.inner && s'.inner[id] == txs[k])
    ensures n in NotAdded(s, txs)
            <==> n < |txs| && (txs[n].watched.txid in s.inner || !FirstNew(s, txs, txs[n].watched.txid, n))
  {
    if txs != [] {
      var m := |txs| - 1;
      AddedAre(s, txs[..m], id, n);
      AddedAre(s, txs[..m], txs[m].watched.txid, n);
      FirstOfPrefix(s, txs, id);
      FirstOfPrefix(s, txs, txs[m].watched.txid);
      if n < m { FirstOfPrefix(s, txs, txs[n].watched.txid); }
      hide NotAdded, FirstNew;
      LastRefused(s, txs, n);
    }
  }

  lemma FirstOfPrefix(s: Pools, txs: seq<Tx>, id: string)
    requires txs != []
    ensures var m := |txs| - 1;
            && (forall k: nat :: k < m ==> (FirstNew(s, txs, id, k) <==> FirstNew(s, txs[..m], id, k)))
            && (forall k: nat :: k >= m ==> !FirstNew(s, txs[..m], id, k))
            && (forall k: nat :: k > m ==> !FirstNew(s, txs, id, k))
            && (FirstNew(s, txs, id, m) <==>
                  txs[m].watched.txid == id && txs[m] !in s.db.lookup
                  && !exists k: nat :: FirstNew(s, txs[..m], id, k))
  {
    SomeFirst(s, txs[..|txs| - 1], id);
  }

  lemma {:induction false} SomeFirst(s: Pools, txs: seq<Tx>, id: string)
    ensures (exists k: nat :: FirstNew(s, txs, id, k))
            <==> exists j :: 0 <= j < |txs| && txs[j].watched.txid == id && txs[j] !in s.db.lookup
  {
    if j :| 0 <= j < |txs| && txs[j].watched.txid == id && txs[j] !in s.db.lookup {
      var k := 0;
      while txs[k].watched.txid != id || txs[k] in s.db.lookup
        invariant 0 <= k <= j
        invariant forall i :: 0 <= i < k && txs[i].watched.txid == id ==> txs[i] in s.db.lookup
        decreases j - k
      {
        k := k + 1;
      }
      assert FirstNew(s, txs, id, k);
    }
  }

  lemma LastRefused(s: Pools, txs: seq<Tx>, n: nat)
    requires txs != []
    ensures var m := |txs| - 1;
            n in NotAdded(s, txs) <==>
              n in NotAdded(s, txs[..m])
              || (n == m && (txs[m].watched.txid in AddTxs(s, txs[..m]).inner
                             || txs[m] in AddTxs(s, txs[..m]).db.lookup))
  {
  }

  /** Deleting, refreshing and a new term touch the one entry, the pending entry, the term. */
  lemma SmallRequests(s: Pools, id: string, w: WatchedTx, t: nat)
    ensures Without(Apply(s, DeleteFresh(id)).pending, s.pending, i => i == id)
    ensures Without(Apply(s, DeleteWatched(id)).watched, s.watched, i => i == id)
    ensures Apply(s, DeleteFresh(id)).(pending := s.pending) == s
    ensures Apply(s, DeleteWatched(id)).(watched := s.watched) == s
    ensures Apply(s, Refresh(w)).(pending := s.pending) == s && w.txid in Apply(s, Refresh(w)).pending
    ensures Apply(s, Refresh(w)).pending[w.txid] == w && Apply(s, NewTerm(t)) == s.(term := t)
    ensures Without(Apply(s, Refresh(w)).pending - {w.txid}, s.pending, i => i == w.txid)
  {
  }

  /** Signing an inner transaction queues it and drops the watched and the pending entry. */
  lemma InnerQueued(s: Pools, w: WatchedTx, newlyTxId: string)
    ensures var s' := CreateInner(s, w, newlyTxId);
            && Without(s'.watched, s.watched, id => id == w.txid)
            && Without(s'.pending, s.pending, id => id == w.txid)
            && s'.requests == s.requests + [Tx(w, newlyTxId)]
            && s'.inner == s.inner && s'.db == s.db && s'.term == s.term
  {
  }

  /** The queue is served in order: the oldest request joins the inner pool unless its id is
      there or it is recorded. */
  lemma OldestServed(s: Pools)
    ensures var s' := TakeRequest(s);
            if s.requests == [] then s' == s
            else
              var tx := s.requests[0];
              && s.requests == [tx] + s'.requests
              && s' == s.(requests := s'.requests, inner := s'.inner)
              && s'.inner == if tx.watched.txid in s.inner || tx in s.db.lookup then s.inner
                             else s.inner[tx.watched.txid := tx]
  {
  }

  /** A pending transaction is handed out exactly when it is neither recorded nor in the inner
      pool, and its signing has not failed this term or it is a distribution; one whose
      signing failed stays pending, unless it is a distribution. */
  lemma HandedOutIff(s: Pools, failed: set<string>, id: string)
    ensures id in HandedOut(s, failed) <==>
              id in s.pending && id !in s.db.ids && id !in s.inner
              && (s.pending[id].txid !in failed || Distribution(s.pending[id]))
    ensures id in AfterHandingOut(s, failed).pending <==>
              id in s.pending && s.pending[id].txid in failed && !Distribution(s.pending[id])
    ensures AfterHandingOut(s, failed) == s.(pending := AfterHandingOut(s, failed).pending)
  {
    if id in s.pending { DistributionIs(s.pending[id]); }
  }

  /** The heartbeat drops the overdue pending and inner transactions that are recorded, and
      accuses exactly when an overdue one is not, and is not in the inner pool either. */
  lemma HeartbeatIs(s: Pools, overdue: set<string>, overdueInner: set<string>)
    ensures var (s', accuse) := Heartbeat(s, overdue, overdueInner);
            && Without(s'.pending, s.pending,
                       id => id in s.pending && id in overdue && id !in s.inner && id in s.db.ids)
            && Without(s'.watched, s.watched,
                       id => id in s.pending && id in overdue && id !in s.inner && id in s.db.ids)
            && Without(s'.inner, s.inner, id => id in overdueInner && id in s.db.ids)
            && s'.requests == s.requests && s'.db == s.db && s'.term == s.term
            && (accuse <==>
                  || (exists id :: id in s.pending && id in overdue && id !in s.db.ids && id !in s.inner)
                  || (exists id :: id in s.inner && id in overdueInner && id !in s.db.ids))
  {
  }
}
