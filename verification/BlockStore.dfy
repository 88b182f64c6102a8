/** The block store as it is written: database keys put, deleted and looked up one by
    one, caches and pending block updated in place (primitives/blockstore.go over
    primitives/dbops.go). Every handler is proved to do to State() what NodeSpec says,
    and to fail an assertion only where NodeSpec says Panic. */
module BlockStores {
  import opened Protocol
  import opened NodeSpec
  import opened KeyCodec

  /** The 8-byte database key of a height. */
  function HeightKey(h: nat): (k: seq<Byte>)
    requires h < TWO_63
    ensures |k| == 8 && Number(k) == h
  {
    I64RoundTrip(h, h);
    EightBytes();
    NumberOfDigits(h, 8);
    I64Bytes(h)
  }

  lemma HeightKeysDiffer(g: nat, h: nat)
    requires g < TWO_63 && h < TWO_63 && HeightKey(g) == HeightKey(h)
    ensures g == h
  {
  }

  lemma HeightKeyIs(h: nat)
    requires h < TWO_63
    ensures HeightKey(h) == I64Bytes(h)
  {
  }

  /** The index as numbers. */
  function Heights(byId: map<Block, seq<Byte>>): map<Block, nat> {
    map b | b in byId :: Number(byId[b])
  }

  /** The keys under the chain prefix are exactly those of heights 0 .. top. */
  ghost predicate StoresChain(db: map<seq<Byte>, Pack>, chain: seq<Pack>) {
    && 0 < |chain| <= TWO_63
    && (forall h :: 0 <= h < |chain| ==> HeightKey(h) in db && db[HeightKey(h)] == chain[h])
    && (forall k :: k in db ==> exists h :: 0 <= h < |chain| && k == HeightKey(h))
  }

  lemma StoredOnTop(db: map<seq<Byte>, Pack>, chain: seq<Pack>, p: Pack)
    requires StoresChain(db, chain) && p.init.height == |chain| < TWO_63
    ensures StoresChain(db[HeightKey(p.init.height) := p], chain + [p])
  {
    var db', chain' := db[HeightKey(p.init.height) := p], chain + [p];
    forall h | 0 <= h < |chain'| ensures HeightKey(h) in db' && db'[HeightKey(h)] == chain'[h] {
      if h < |chain| && HeightKey(h) == HeightKey(|chain|) { HeightKeysDiffer(h, |chain|); }
    }
    forall k | k in db' ensures exists h :: 0 <= h < |chain'| && k == HeightKey(h) {
      if k in db {
        var h :| 0 <= h < |chain| && k == HeightKey(h);
        assert h < |chain'|;
      } else {
        assert k == HeightKey(|chain|);
      }
    }
  }

  lemma StoredAgain(db: map<seq<Byte>, Pack>, chain: seq<Pack>, p: Pack)
    requires StoresChain(db, chain) && p.init.height < |chain|
    ensures StoresChain(db[HeightKey(p.init.height) := p], chain[p.init.height := p])
  {
    var h0 := p.init.height;
    var db', chain' := db[HeightKey(h0) := p], chain[h0 := p];
    forall h | 0 <= h < |chain'| ensures HeightKey(h) in db' && db'[HeightKey(h)] == chain'[h] {
      if HeightKey(h) == HeightKey(h0) { HeightKeysDiffer(h, h0); }
    }
  }

  lemma KeyStored(db: map<seq<Byte>, Pack>, chain: seq<Pack>, h: nat)
    requires StoresChain(db, chain) && h < TWO_63
    ensures HeightKey(h) in db <==> h < |chain|
  {
    if HeightKey(h) in db {
      var g :| 0 <= g < |chain| && HeightKey(h) == HeightKey(g);
      HeightKeysDiffer(h, g);
    }
  }

  /** The keys are those of some chain. */
  ghost predicate HoldsChain(db: map<seq<Byte>, Pack>) {
    exists chain :: StoresChain(db, chain)
  }

  /** Putting a block further up than the next height leaves a gap. */
  lemma GapHoldsNoChain(db: map<seq<Byte>, Pack>, chain: seq<Pack>, p: Pack)
    requires StoresChain(db, chain) && |chain| < p.init.height < TWO_63
    ensures !HoldsChain(db[HeightKey(p.init.height) := p])
  {
    var h := p.init.height;
    hide StoresChain, HeightKey;
    KeyStored(db, chain, |chain|);
    if HeightKey(|chain|) == HeightKey(h) { HeightKeysDiffer(|chain|, h); }
    if HoldsChain(db[HeightKey(h) := p]) {
      var c :| StoresChain(db[HeightKey(h) := p], c);
      KeyStored(db[HeightKey(h) := p], c, h);
      KeyStored(db[HeightKey(h) := p], c, |chain|);
    }
  }

  /** Where iterator.Last stops. */
  lemma LastStoredKey(db: map<seq<Byte>, Pack>, chain: seq<Pack>, k: seq<Byte>)
    requires StoresChain(db, chain)
    ensures IsLastKey(db.Keys, k) <==> k == HeightKey(|chain| - 1)
  {
    forall h: I64 | 0 <= h <= |chain| - 1 ensures I64Bytes(h) in db.Keys { assert HeightKey(h) in db; }
    forall j | j in db.Keys ensures exists h: I64 :: 0 <= h <= |chain| - 1 && j == I64Bytes(h) {
      var h :| 0 <= h < |chain| && j == HeightKey(h);
      assert j == I64Bytes(h);
    }
    LastKeyIsTop(db.Keys, |chain| - 1, k);
  }

  /** Every index entry is the key of a stored height. */
  ghost predicate StoresIndex(byId: map<Block, seq<Byte>>, n: nat) {
    forall b :: b in byId ==> exists h :: 0 <= h < n <= TWO_63 && byId[b] == HeightKey(h)
  }

  lemma StoredId(byId: map<Block, seq<Byte>>, n: nat, n': nat, id: Block, h0: nat)
    requires StoresIndex(byId, n) && n <= n' <= TWO_63 && h0 < n'
    ensures StoresIndex(byId[id := HeightKey(h0)], n')
    ensures Heights(byId[id := HeightKey(h0)]) == Heights(byId)[id := h0]
  {
    var byId' := byId[id := HeightKey(h0)];
    forall b | b in byId' ensures exists h :: 0 <= h < n' && byId'[b] == HeightKey(h) {
      if b == id {
        assert byId'[b] == HeightKey(h0);
      } else {
        var h :| 0 <= h < n && byId[b] == HeightKey(h);
        assert 0 <= h < n';
      }
    }
  }

  lemma KeyedAfterCommit(s: Node, p: Pack)
    requires s.Keyed() && p.init.height <= |s.chain|
    ensures NodeSpec.JustCommitIt(s, p).Keyed()
  {
  }

  class BlockStore {
    const cfg: Config

    // database
    var term: nat
    var lastTermAccuse: Option<StrongAccuse>
    var weakAccuses: map<NodeId, WeakAccuse>
    var freshPack: Option<Pack>
    var votie: Votie
    var commitChain: map<seq<Byte>, Pack>
    var commitHsByIds: map<Block, seq<Byte>>

    // memory
    var prepareCache: Cache<PrepareMsg>
    var commitCache: Cache<CommitMsg>

    /** The chain the height keys hold. */
    ghost var chain: seq<Pack>

    ghost predicate Valid()
      reads this
    {
      && 0 < |chain| <= TWO_63
      && StoresChain(commitChain, chain)
      && StoresIndex(commitHsByIds, |chain|)
      && State().Keyed()
    }

    ghost function State(): Node
      reads this
    {
      Node(term, freshPack, votie, weakAccuses, lastTermAccuse, chain, Heights(commitHsByIds),
           prepareCache, commitCache)
    }

    /** The handler left the state and the deferred events the outcome describes, or
        failed an assertion where the outcome is a panic. */
    ghost predicate Matches(o: Outcome, events: seq<Event>, failed: bool)
      reads this
    {
      if failed then o.Panic? else o == Done(State(), events)
    }

    /** InitDB on an empty database. */
    constructor InitDB(cfg: Config)
      ensures Valid() && State() == InitNode() && this.cfg == cfg
    {
      this.cfg := cfg;
      term, lastTermAccuse, weakAccuses, freshPack := 0, None, map[], None;
      votie := GENESIS_PACK.ToVotie();
      prepareCache, commitCache := map[], map[];
      commitChain := map[HeightKey(0) := GENESIS_PACK];
      commitHsByIds := map[Genesis := HeightKey(0)];
      chain := [GENESIS_PACK];
      new;
      assert Heights(commitHsByIds) == map[Genesis := 0];
    }

    // ---------------------------------------------------------------- lookups

    /** iterator.Last over the chain prefix. */
    method LastKey() returns (key: seq<Byte>)
      requires Valid()
      ensures key == HeightKey(|chain| - 1) && key in commitChain && commitChain[key] == State().Top()
    {
      ghost var k := HeightKey(|chain| - 1);
      LastStoredKey(commitChain, chain, k);
      assert k in commitChain.Keys && IsLastKey(commitChain.Keys, k);
      key :| key in commitChain.Keys && IsLastKey(commitChain.Keys, key);
      LastStoredKey(commitChain, chain, key);
    }

    method GetCommitHeight() returns (height: int)
      requires Valid()
      ensures height == State().Height()
    {
      var key := LastKey();
      var failed;
      height, failed := BytesToI64(key);
      assert !failed;
      I64RoundTrip(height, |chain| - 1);
      assert height >= 0;
    }

    method GetCommitTop() returns (top: Pack)
      requires Valid()
      ensures top == State().Top()
    {
      var key := LastKey();
      top := commitChain[key];
    }

    method GetCommitByHeight(height: int) returns (r: Option<Pack>)
      requires Valid() && 0 <= height < TWO_63
      ensures r == if height < |chain| then Some(chain[height]) else None
    {
      var key := I64ToBytes(height);
      assert key[..] == HeightKey(height);
      if key[..] in commitChain {
        ghost var h :| 0 <= h < |chain| && key[..] == HeightKey(h);
        HeightKeysDiffer(h, height);
        r := Some(commitChain[key[..]]);
      } else {
        r := None;
      }
    }

    method IsCommitted(id: Block) returns (r: bool)
      ensures r == State().IsCommitted(id)
    {
      r := id in commitHsByIds;
    }

    /** The block of an id: the one at the height its index entry names. */
    method GetCommitByID(id: Block) returns (r: Option<Pack>)
      requires Valid()
      ensures r == if State().IsCommitted(id) then Some(chain[State().index[id]]) else None
    {
      if id !in commitHsByIds { return None; }
      ghost var h :| 0 <= h < |chain| && commitHsByIds[id] == HeightKey(h);
      var height, failed := BytesToI64(commitHsByIds[id]);
      assert !failed;
      I64RoundTrip(height, h);
      r := GetCommitByHeight(height);
    }

    method IsConnectingTop(p: Pack) returns (r: bool)
      requires Valid()
      ensures r == State().IsConnectingTop(p)
    {
      var top := GetCommitTop();
      r := p.init.block.Block? && p.init.block.prev == top.init.block
           && p.init.term >= top.init.term
           && p.init.height == top.init.height + 1;
    }

    /** genSyncUpResponse: at most maxBlockN blocks above base, and whether that leaves
        some out; the pending block and the last accuse only go with the last batch. */
    method GenSyncUpResponse(base: nat, maxBlockN: nat, needFresh: bool)
      returns (commits: seq<Pack>, more: bool, pending: Option<Pack>, accuse: Option<StrongAccuse>)
      requires Valid()
      ensures (commits, more) == SyncResponse(chain, base, maxBlockN)
      ensures pending == if !more && needFresh then freshPack else None
      ensures accuse == if !more && needFresh then lastTermAccuse else None
    {
      hide Node.Keyed, StoresIndex, StoresChain, HeightKey, Heights;
      commits, pending, accuse := [], None, None;
      var commitHeight := GetCommitHeight();
      var h := base + 1;
      while h <= commitHeight && h - base <= maxBlockN
        invariant base + 1 <= h
        invariant base + 1 <= |chain| ==> h <= |chain| && h <= base + 1 + maxBlockN && commits == chain[base + 1..h]
        invariant base + 1 > |chain| ==> h == base + 1 && commits == []
      {
        var b := GetCommitByHeight(h);
        commits := commits + [b.value];
        h := h + 1;
      }
      more := commitHeight - base > maxBlockN;
      if !more && needFresh { pending, accuse := freshPack, lastTermAccuse; }
    }

    // ----------------------------------------------------------------- commits

    /** Two puts, unconditional: the keys hold a chain afterwards exactly when the height is at
        most one above the top. */
    method JustCommitIt(p: Pack)
      requires Valid() && p.init.height < TWO_63
      modifies this`commitChain, this`commitHsByIds, this`chain
      ensures commitChain == old(commitChain)[HeightKey(p.init.height) := p]
      ensures commitHsByIds == old(commitHsByIds)[p.init.block := HeightKey(p.init.height)]
      ensures p.init.height <= old(|chain|) ==>
                Valid() && State() == NodeSpec.JustCommitIt(old(State()), p)
      ensures HoldsChain(commitChain) <==> p.init.height <= old(|chain|)
    {
      hide HeightKey, I64Bytes, StoresChain, StoresIndex, Heights, Node.Keyed;
      ghost var key := HeightKey(p.init.height);
      if p.init.height <= |chain| {
        KeyedAfterCommit(State(), p);
        StoredId(commitHsByIds, |chain|, if p.init.height == |chain| then |chain| + 1 else |chain|, p.init.block,
                 p.init.height);
      }
      if p.init.height == |chain| {
        StoredOnTop(commitChain, chain, p);
      } else if p.init.height < |chain| {
        StoredAgain(commitChain, chain, p);
      } else {
        GapHoldsNoChain(commitChain, chain, p);
      }
      var hBytes := I64ToBytes(p.init.height);
      HeightKeyIs(p.init.height);
      commitChain := commitChain[hBytes[..] := p];
      commitHsByIds := commitHsByIds[p.init.block := hBytes[..]];
      if p.init.height <= |chain| {
        chain := if p.init.height == |chain| then chain + [p] else chain[p.init.height := p];
      }
    }

    /** The assertion, and the votie raised to the candidate when that is higher. */
    method UpdateVotie(candidate: Pack) returns (failed: bool)
      modifies this`votie
      ensures failed <==> !Prepared(cfg, candidate)
      ensures !failed ==> State() == RaiseVotie(old(State()), candidate)
      ensures failed ==> votie == old(votie)
    {
      failed := !(|candidate.prepares| >= cfg.QuorumN() || |candidate.commits| >= cfg.QuorumN());
      if failed { return; }
      if HasLessTermHeightThan(votie, candidate.ToVotie()) {
        votie := candidate.ToVotie();
      }
    }

    /** The rest of commitBlockWithCheck, once the new top is stored. */
    method UpdateStateWith(newTop: Pack) returns (events: seq<Event>, failed: bool)
      requires Valid()
      modifies this`term, this`lastTermAccuse, this`weakAccuses, this`freshPack, this`votie
      ensures Valid() && (failed <==> !Prepared(cfg, newTop))
      ensures var s, raise := old(State()), newTop.init.term > old(term);
              var s1 := if raise then s.(term := newTop.init.term, lastAccuse := None, weak := map[]) else s;
              !failed ==> State() == RaiseVotie(s1.(freshPack := None), newTop)
      ensures events == (if newTop.init.term > old(term) then [NewTerm(newTop.init.term)] else [])
                        + [NewCommitted(newTop)]
    {
      hide StoresChain, StoresIndex, Heights, Prepared, RaiseVotie, HeightKey, Config.QuorumN;
      events := [];
      if newTop.init.term > term {
        term := newTop.init.term;
        events := [NewTerm(newTop.init.term)];
        lastTermAccuse := None;
        weakAccuses := map[];
      }
      freshPack := None;
      failed := UpdateVotie(newTop);
      events := events + [NewCommitted(newTop)];
    }

    method CommitBlockWithCheck(p: Pack) returns (err: Option<CommitError>, events: seq<Event>, failed: bool)
      requires Valid() && |chain| < TWO_63
      modifies this
      ensures Valid()
      ensures var r := NodeSpec.CommitBlockWithCheck(cfg, old(State()), p);
              if failed then r == CommitPanic
              else if err.Some? then r == Refused(err.value) && State() == old(State())
              else r == Committed(State(), events)
    {
      hide StoresChain, StoresIndex, HoldsChain, Heights, Prepared, RaiseVotie, Committable, HeightKey,
           Config.QuorumN;
      err, events, failed := None, [], false;
      var committed := IsCommitted(p.init.block);
      if committed { return Some(Duplicated), [], false; }
      if |p.commits| < cfg.QuorumN() { return Some(NotEnoughCommits), [], false; }
      var connecting := IsConnectingTop(p);
      if !connecting { return Some(NotConnecting), [], false; }
      if !Committable(p.init.block) { return None, [], true; }

      var newTop := p.(prepares := map[]);
      JustCommitIt(newTop);
      events, failed := UpdateStateWith(newTop);
    }

    // ---------------------------------------------------------------- handlers

    method HandleWrongHeightProgressMsg(term: nat, height: nat, block: Block, from: NodeId, msg: Msg,
                                        before: seq<Event>)
      returns (events: seq<Event>, failed: bool)
      requires Valid()
      ensures Matches(WrongHeight(State(), term, height, block, from, msg, before), events, failed)
    {
      events, failed := before, false;
      if term != this.term { return before, true; }
      var top := GetCommitTop();
      if height == top.init.height + 1 { return before, true; }
      if height == top.init.height {
        if term > top.init.term && block == top.init.block {
          events := before + [CommittedInLowerTerm(msg)];
        }
      } else if height > top.init.height + 1 {
        events := before + [NeedSyncUp(from)];
      }
    }

    method IsInitSupportedByVotes(init: InitMsg) returns (supported: bool, ghost m: Option<Votie>)
      requires Valid()
      ensures MaxAnswer(init.votes, m)
      ensures supported <==> |init.votes| >= cfg.QuorumN() && m.Some? && SupportedBy(State(), init, m.value)
    {
      supported := false;
      m := SomeMaxVotie(init.votes);
      if |init.votes| < cfg.QuorumN() { return; }
      var maxVotie := GetMaxVotie(init.votes);
      m := maxVotie;
      if maxVotie.None? { return; }
      var top := GetCommitTop();
      supported := HasLessTermHeightThan(maxVotie.value, top.ToVotie())
                   || maxVotie.value.block == top.init.block
                   || maxVotie.value.block == init.block;
    }

    method MergePrepares(cache: seq<PrepareMsg>) returns (prepares: map<NodeId, PrepareMsg>)
      ensures prepares == PreparesOf(cache)
    {
      prepares := map[];
      for k := 0 to |cache|
        invariant prepares == PreparesOf(cache[..k])
      {
        prepares := prepares[cache[k].nodeId := cache[k]];
        assert cache[..k + 1][..k] == cache[..k];
      }
      assert cache[..|cache|] == cache;
    }

    method MergeCommits(cache: seq<CommitMsg>) returns (commits: map<NodeId, CommitMsg>)
      ensures commits == CommitsOf(cache)
    {
      commits := map[];
      for k := 0 to |cache|
        invariant commits == CommitsOf(cache[..k])
      {
        commits := commits[cache[k].nodeId := cache[k]];
        assert cache[..k + 1][..k] == cache[..k];
      }
      assert cache[..|cache|] == cache;
    }

    method UpdateNodeTermWithInit(init: InitMsg) returns (updated: bool)
      requires Valid()
      modifies this`term, this`lastTermAccuse, this`weakAccuses, this`freshPack
      ensures Valid()
      ensures updated <==> init.term > old(term) && |init.votes| >= cfg.QuorumN()
      ensures State() == if updated then EnterTerm(old(State()), init.term) else old(State())
    {
      hide StoresChain, StoresIndex, Heights, HeightKey, Config.QuorumN;
      if init.term <= term { return false; }
      if |init.votes| < cfg.QuorumN() { return false; }
      term := init.term;
      lastTermAccuse, weakAccuses, freshPack := None, map[], None;
      updated := true;
    }

    /** The second case of handleInitMsg's switch, also reached by falling through. */
    method HandleInitInTerm(init: InitMsg, txs: Verdict, reconfigOk: bool, before: seq<Event>)
      returns (events: seq<Event>, failed: bool, ghost m: Option<Votie>)
      requires Valid() && init.term == term
      modifies this`freshPack, this`prepareCache, this`commitCache
      ensures Valid() && MaxAnswer(init.votes, m)
      ensures Matches(InitInTerm(cfg, old(State()), init, txs, reconfigOk, m, before), events, failed)
    {
      hide StoresChain, StoresIndex, Heights, HeightKey, HasLessTermHeightThan, Config.QuorumN, SupportedBy,
           MaxAnswer;
      events, failed := before, false;
      m := SomeMaxVotie(init.votes);
      var height := GetCommitHeight();
      if init.height != height + 1 {
        events, failed := HandleWrongHeightProgressMsg(init.term, init.height, init.block, init.nodeId, InitM(init),
                                                       before);
        return;
      }
      var newFresh := Pack(init, map[], map[]);
      var committed := IsCommitted(init.block);
      var connecting := IsConnectingTop(newFresh);
      if !committed && connecting && txs == Verdict.Valid && reconfigOk {
        var top := GetCommitTop();
        if init.term > top.init.term {
          var supported;
          supported, m := IsInitSupportedByVotes(init);
          if !supported {
            events := before + [NewWeakAccuse(init.term)];
            return;
          }
        }
        newFresh := AcceptFresh(init);
        events := before + [NewInited(newFresh)];
      } else if txs != NotExist {
        events := before + [NewWeakAccuse(init.term)];
      }
    }

    /** Merges the cached certificates into a new pending block and stores it. */
    method AcceptFresh(init: InitMsg) returns (newFresh: Pack)
      requires Valid()
      modifies this`freshPack, this`prepareCache, this`commitCache
      ensures Valid() && newFresh == MergedFresh(old(State()), init)
      ensures State() == AcceptInit(old(State()), init, []).node
    {
      hide StoresChain, StoresIndex, Heights, HeightKey;
      newFresh := Pack(init, map[], map[]);
      if init.term in prepareCache && init.height in prepareCache[init.term] {
        var prepares := MergePrepares(prepareCache[init.term][init.height]);
        newFresh := newFresh.(prepares := prepares);
        prepareCache := prepareCache[init.term := prepareCache[init.term] - {init.height}];
      }
      if init.term in commitCache && init.height in commitCache[init.term] {
        var commits := MergeCommits(commitCache[init.term][init.height]);
        newFresh := newFresh.(commits := commits);
        commitCache := commitCache[init.term := commitCache[init.term] - {init.height}];
      }
      freshPack := Some(newFresh);
    }

    /** handleInitMsg; txs and reconfigOk are the answers of validateTxs and
        checkReconfigBlock, m the max votie of the init's votes it went by. */
    method HandleInitMsg(init: InitMsg, txs: Verdict, reconfigOk: bool)
      returns (events: seq<Event>, failed: bool, ghost m: Option<Votie>)
      requires Valid()
      modifies this
      ensures Valid() && MaxAnswer(init.votes, m)
      ensures Matches(HandleInit(cfg, old(State()), init, txs, reconfigOk, m), events, failed)
    {
      hide StoresChain, StoresIndex, Heights, HeightKey, Config.QuorumN, MaxAnswer, InitInTerm;
      events, failed := [], false;
      m := SomeMaxVotie(init.votes);
      if init.term > term {
        var height := GetCommitHeight();
        if init.height > height + 1 { return [NeedSyncUp(init.nodeId)], false, m; }
        var updated := UpdateNodeTermWithInit(init);
        if !updated { return; }
        events, failed, m := HandleInitInTerm(init, txs, reconfigOk, [NewTerm(init.term)]);
      } else if init.term == term {
        events, failed, m := HandleInitInTerm(init, txs, reconfigOk, []);
      }
    }

    method HandlePrepareMsg(msg: PrepareMsg) returns (events: seq<Event>, failed: bool)
      requires Valid()
      modifies this
      ensures Valid() && Matches(HandlePrepare(cfg, old(State()), msg), events, failed)
    {
      hide StoresChain, StoresIndex, Heights, HeightKey, WrongHeight, RaiseVotie, Config.QuorumN;
      events, failed := [], false;
      if msg.term > term { return [NeedSyncUp(msg.nodeId)], false; }
      if msg.term < term { return; }
      var height := GetCommitHeight();
      if msg.height != height + 1 {
        events, failed := HandleWrongHeightProgressMsg(msg.term, msg.height, msg.block, msg.nodeId, PrepareM(msg), []);
        return;
      }
      if freshPack.None? {
        if msg.term !in prepareCache { prepareCache := prepareCache[msg.term := map[]]; }
        var row: map<nat, seq<PrepareMsg>> := prepareCache[msg.term];
        var cached := if msg.height in row then row[msg.height] else [];
        prepareCache := prepareCache[msg.term := row[msg.height := cached + [msg]]];
        return;
      }
      var pending := freshPack.value;
      if msg.block != pending.init.block { return; }
      if msg.nodeId in pending.prepares || |pending.prepares| > cfg.QuorumN() { return; }
      pending := pending.(prepares := pending.prepares[msg.nodeId := msg]);
      freshPack := Some(pending);
      if |pending.prepares| >= cfg.QuorumN() {
        failed := UpdateVotie(pending);
        events := [NewPrepared(pending)];
      }
    }

    method HandleCommitMsg(msg: CommitMsg) returns (events: seq<Event>, failed: bool)
      requires Valid() && |chain| < TWO_63
      modifies this
      ensures Valid() && Matches(HandleCommit(cfg, old(State()), msg), events, failed)
    {
      hide StoresChain, StoresIndex, Heights, HeightKey, WrongHeight, Config.QuorumN, NodeSpec.CommitBlockWithCheck;
      events, failed := [], false;
      if msg.term > term { return [NeedSyncUp(msg.nodeId)], false; }
      if msg.term < term { return; }
      var height := GetCommitHeight();
      if msg.height != height + 1 {
        events, failed := HandleWrongHeightProgressMsg(msg.term, msg.height, msg.block, msg.nodeId, CommitM(msg), []);
        return;
      }
      if freshPack.None? {
        if msg.term !in commitCache { commitCache := commitCache[msg.term := map[]]; }
        var row: map<nat, seq<CommitMsg>> := commitCache[msg.term];
        var cached := if msg.height in row then row[msg.height] else [];
        commitCache := commitCache[msg.term := row[msg.height := cached + [msg]]];
        return;
      }
      var pending := freshPack.value;
      if msg.block != pending.init.block { return; }
      if msg.nodeId in pending.commits { return; }
      pending := pending.(commits := pending.commits[msg.nodeId := msg]);
      freshPack := Some(pending);
      if |pending.commits| >= cfg.QuorumN() {
        var err;
        err, events, failed := CommitBlockWithCheck(pending);
        failed := failed || err.Some?;
      }
    }

    method Unexpired(weak: map<NodeId, WeakAccuse>, expired: set<NodeId>) returns (kept: map<NodeId, WeakAccuse>)
      ensures kept == weak - expired
    {
      kept := weak;
      var rest := weak.Keys;
      while rest != {}
        invariant rest <= weak.Keys
        invariant kept == weak - (expired * (weak.Keys - rest))
        decreases rest
      {
        var i :| i in rest;
        if i in expired { kept := kept - {i}; }
        rest := rest - {i};
      }
    }

    /** handleWeakAccuse; expired are the stored accuses that are too old by now. */
    method HandleWeakAccuse(msg: WeakAccuse, expired: set<NodeId>) returns (events: seq<Event>)
      requires Valid()
      modifies this`weakAccuses
      ensures Valid() && Matches(HandleWeak(cfg, old(State()), msg, expired), events, false)
    {
      hide StoresChain, StoresIndex, Heights, HeightKey, Config.AccuseQuorumN;
      events := [];
      if msg.term > term { return [NeedSyncUp(msg.nodeId)]; }
      if msg.term < term { return; }
      if |weakAccuses| >= cfg.AccuseQuorumN() || msg.nodeId in weakAccuses { return; }
      var kept := Unexpired(weakAccuses, expired);
      weakAccuses := kept[msg.nodeId := msg];
      if |weakAccuses| >= cfg.AccuseQuorumN() {
        events := [NewStrongAccuse(StrongAccuse(msg.term, weakAccuses.Keys))];
      }
    }

    method HandleStrongAccuse(msg: StrongAccuse) returns (events: seq<Event>)
      requires Valid()
      modifies this
      ensures Valid() && Matches(HandleStrong(old(State()), msg), events, false)
    {
      hide StoresChain, StoresIndex, Heights, HeightKey;
      events := [];
      if msg.term >= term {
        term := msg.term + 1;
        events := [NewTerm(msg.term + 1)];
        lastTermAccuse, weakAccuses, freshPack := Some(msg), map[], None;
        prepareCache := prepareCache - {msg.term};
        commitCache := commitCache - {msg.term};
        events := events + [StrongAccuseProcessed(msg)];
      }
    }
  }
}
