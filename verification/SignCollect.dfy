/** Collecting the signatures on one transaction (node/node_sign.go). */
module SignCollect {
  import opened ClusterParams
  import opened Protocol

  datatype SignedResult = SignedResult(nodeId: NodeId, signed: bool, data: seq<nat>)

  /** The quorums the sign request of the transaction asks for. */
  datatype Quorums = Quorums(quorumN: nat, accuseQuorumN: nat)

  /** What doSave made of a result: sent the transaction with those signers' signatures,
      gave the transaction up (clearOnFail), or neither. */
  datatype SaveOutcome = Sent(signers: seq<NodeId>) | GivenUp | Noted

  // ---------------------------------------------------------- the signers

  /** The first q ids in increasing order, from the ids below n that are in keys. */
  function FirstSigners(keys: set<NodeId>, n: nat, q: nat): (s: seq<NodeId>)
    ensures |s| <= q
  {
    if n == 0 then []
    else
      var s := FirstSigners(keys, n - 1, q);
      if n - 1 in keys && |s| < q then s + [n - 1] else s
  }

  /** They are distinct, in increasing order, all from keys, and none that was skipped is
      smaller than one that was taken; there are q of them if keys has that many. */
  lemma {:induction false} SignersAre(keys: set<NodeId>, n: nat, q: nat)
    ensures var s := FirstSigners(keys, n, q);
            && (forall k :: 0 <= k < |s| ==> s[k] in keys && s[k] < n)
            && (forall j, k :: 0 <= j < k < |s| ==> s[j] < s[k])
            && (forall i, k :: i in keys && 0 <= k < |s| && i < s[k] ==> i in s)
            && (|s| < q ==> forall i :: i in keys && i < n ==> i in s)
  {
    if n > 0 {
      SignersAre(keys, n - 1, q);
      var s := FirstSigners(keys, n - 1, q);
      if n - 1 in keys && |s| < q {
        var t := s + [n - 1];
        assert t[|s|] == n - 1;
        forall i | i in keys && i < n ensures i in t {
          if i < n - 1 { assert i in s; }
        }
      }
    }
  }

  lemma {:induction false} MembersBound(s: seq<NodeId>, keys: set<NodeId>)
    requires forall i :: i in keys ==> i in s
    ensures |keys| <= |s|
  {
    if s != [] {
      var n := |s| - 1;
      MembersBound(s[..n], keys - {s[n]});
      SubsetSize(keys, keys - {s[n]} + {s[n]});
    }
  }

  /** There are q of them, or all the ids if those are fewer. */
  lemma HowManySigners(keys: set<NodeId>, n: nat, q: nat)
    requires forall i :: i in keys ==> i < n
    ensures |FirstSigners(keys, n, q)| == Min(q, |keys|)
  {
    var s := FirstSigners(keys, n, q);
    SignersAre(keys, n, q);
    if |s| < q { MembersBound(s, keys); }
    SignersFit(s, keys);
  }

  lemma {:induction false} SignersFit(s: seq<NodeId>, keys: set<NodeId>)
    requires forall k :: 0 <= k < |s| ==> s[k] in keys
    requires forall j, k :: 0 <= j < k < |s| ==> s[j] < s[k]
    ensures |s| <= |keys|
  {
    if s != [] {
      var n := |s| - 1;
      SignersFit(s[..n], keys - {s[n]});
    }
  }

  /** Once q signers are found no later node changes them. */
  lemma {:induction false} FullStays(keys: set<NodeId>, m: nat, n: nat, q: nat)
    requires m <= n && |FirstSigners(keys, m, q)| == q
    ensures FirstSigners(keys, n, q) == FirstSigners(keys, m, q)
  {
    if m < n { FullStays(keys, m, n - 1, q); }
  }
  // ----------------------------------------------------------- specification

  /** A result that doSave has not found in the cache and not stored yet, and whether the
      sign request was there when it looked. */
  datatype Flight = Flight(msg: SignedResult, request: bool)

  /** What a cache of one transaction holds, how often the transaction has been sent from
      it, and the results in flight. */
  datatype Tally = Tally(cache: map<NodeId, SignedResult>, total: int, signed: int, errs: int, done: bool,
                         sends: nat, inFlight: seq<Flight>)

  const EMPTY := Tally(map[], 0, 0, 0, false, 0, [])

  /** doSave up to the counters. */
  function Look(t: Tally, msg: SignedResult, failedInTerm: bool, request: bool): Tally {
    if failedInTerm || msg.nodeId in t.cache then t else t.(inFlight := t.inFlight + [Flight(msg, request)])
  }

  predicate Good(f: Flight, verified: bool) { f.msg.signed && (f.request ==> verified) }

  /** The counters and the cache with the result in flight at k. */
  function Counted(t: Tally, k: nat, verified: bool): Tally
    requires k < |t.inFlight|
  {
    var f := t.inFlight[k];
    var rest := t.inFlight[..k] + t.inFlight[k + 1..];
    if Good(f, verified)
    then t.(cache := t.cache[f.msg.nodeId := f.msg], total := t.total + 1, signed := t.signed + 1, inFlight := rest)
    else t.(total := t.total + 1, errs := t.errs + 1, inFlight := rest)
  }

  /** The rest of doSave: with the sign request at hand it sends the transaction, gives it
      up or waits. quorums are absent when a transfer names no known cluster snapshot. */
  function Store(t: Tally, nodeCount: nat, k: nat, verified: bool, quorums: Option<Quorums>): (Tally, SaveOutcome) {
    if k >= |t.inFlight| then (t, Noted)
    else
      var t1 := Counted(t, k, verified);
      if !t.inFlight[k].request || quorums.None? then (t1, Noted)
      else if t1.signed >= quorums.value.quorumN && !t1.done then
        (t1.(done := true, sends := t1.sends + 1), Sent(FirstSigners(t1.cache.Keys, nodeCount, quorums.value.quorumN)))
      else (t1, if t1.errs > quorums.value.accuseQuorumN then GivenUp else Noted)
  }

  // -------------------------------------------------------------------- runs

  /** Two goroutines can be between the lookup and the store at once. */
  datatype Step = OnLook(msg: SignedResult, failedInTerm: bool, request: bool)
                | OnStore(k: nat, verified: bool, quorums: Option<Quorums>)

  function Take(t: Tally, nodeCount: nat, x: Step): Tally {
    match x
    case OnLook(msg, failed, request) => Look(t, msg, failed, request)
    case OnStore(k, verified, quorums) => Store(t, nodeCount, k, verified, quorums).0
  }

  function After(nodeCount: nat, xs: seq<Step>): Tally {
    if xs == [] then EMPTY else Take(After(nodeCount, xs[..|xs| - 1]), nodeCount, xs[|xs| - 1])
  }

  /** Holds over any steps whatever. */
  ghost predicate Adds(t: Tally) {
    && t.total == t.signed + t.errs && t.errs >= 0
    && t.signed >= |t.cache|
    && (forall i :: i in t.cache ==> t.cache[i].nodeId == i && t.cache[i].signed)
    && t.sends == (if t.done then 1 else 0)
  }

  lemma CacheGrows(cache: map<NodeId, SignedResult>, i: NodeId, msg: SignedResult)
    ensures |cache[i := msg]| == |cache| + if i in cache then 0 else 1
  {
    var grown := cache[i := msg];
    assert grown.Keys == cache.Keys + {i};
    assert |grown| == |grown.Keys| && |cache| == |cache.Keys|;
  }

  lemma AtMostOneSend(t: Tally)
    requires Adds(t)
    ensures t.sends <= 1
  {
  }

  lemma EmptyAdds()
    ensures Adds(EMPTY)
  {
  }

  lemma CountedAdds(t: Tally, k: nat, verified: bool)
    requires Adds(t) && k < |t.inFlight|
    ensures Adds(Counted(t, k, verified))
  {
    CacheGrows(t.cache, t.inFlight[k].msg.nodeId, t.inFlight[k].msg);
  }

  lemma StoreAdds(t: Tally, nodeCount: nat, k: nat, verified: bool, quorums: Option<Quorums>)
    requires Adds(t)
    ensures Adds(Store(t, nodeCount, k, verified, quorums).0)
  {
    hide Counted, FirstSigners;
    if k < |t.inFlight| { CountedAdds(t, k, verified); }
  }

  /** In every reachable state the counters add up, at least as many signatures are
      counted as cached, and the transaction has been sent at most once. */
  lemma {:induction false} CountersAdd(nodeCount: nat, xs: seq<Step>)
    ensures Adds(After(nodeCount, xs)) && After(nodeCount, xs).sends <= 1
  {
    if xs != [] {
      var front, x := xs[..|xs| - 1], xs[|xs| - 1];
      CountersAdd(nodeCount, front);
      if x.OnStore? { StoreAdds(After(nodeCount, front), nodeCount, x.k, x.verified, x.quorums); }
    }
  }

  /** A signature of the node in flight. */
  ghost predicate Pending(t: Tally, i: NodeId) {
    exists k :: 0 <= k < |t.inFlight| && t.inFlight[k].msg.signed && t.inFlight[k].msg.nodeId == i
  }

  ghost predicate OverlapAt(nodeCount: nat, xs: seq<Step>, n: nat) {
    && n < |xs| && xs[n].OnLook? && xs[n].msg.signed
    && Look(After(nodeCount, xs[..n]), xs[n].msg, xs[n].failedInTerm, xs[n].request) != After(nodeCount, xs[..n])
    && Pending(After(nodeCount, xs[..n]), xs[n].msg.nodeId)
  }

  /** A signature passes the lookup while one of the same node has passed it and is not
      stored yet. Handling the results of one node one at a time excludes it. */
  ghost predicate Overlaps(nodeCount: nat, xs: seq<Step>) {
    exists n :: OverlapAt(nodeCount, xs, n)
  }

  predicate Ends(rs: seq<Step>) {
    forall r :: r in rs ==> r.OnStore?
  }

  /** At some time the results in flight can be stored so that more signatures are counted
      than there are signers. */
  ghost predicate CanOvercount(nodeCount: nat, xs: seq<Step>) {
    exists n: nat, rs :: n <= |xs| && Ends(rs) && Overcounted(After(nodeCount, xs[..n] + rs))
  }

  predicate Overcounted(t: Tally) { t.signed > |t.cache| }

  /** Every signature counted or in flight is of a different node. */
  ghost predicate Distinct(t: Tally) {
    && t.signed == |t.cache|
    && (forall k :: 0 <= k < |t.inFlight| && t.inFlight[k].msg.signed ==> t.inFlight[k].msg.nodeId !in t.cache)
    && (forall j, k :: 0 <= j < k < |t.inFlight| && t.inFlight[j].msg.signed && t.inFlight[k].msg.signed ==>
          t.inFlight[j].msg.nodeId != t.inFlight[k].msg.nodeId)
  }

  lemma LookKeepsDistinct(t: Tally, msg: SignedResult, failedInTerm: bool, request: bool)
    requires Distinct(t)
    requires msg.signed && Look(t, msg, failedInTerm, request) != t ==> !Pending(t, msg.nodeId)
    ensures Distinct(Look(t, msg, failedInTerm, request))
  {
  }

  lemma CountedKeepsDistinct(t: Tally, k: nat, verified: bool)
    requires Distinct(t) && k < |t.inFlight|
    ensures Distinct(Counted(t, k, verified))
  {
    CacheGrows(t.cache, t.inFlight[k].msg.nodeId, t.inFlight[k].msg);
    var t1 := Counted(t, k, verified);
    forall j | 0 <= j < |t1.inFlight| ensures t1.inFlight[j] == t.inFlight[if j < k then j else j + 1] {
    }
  }

  lemma StoreKeepsDistinct(t: Tally, nodeCount: nat, k: nat, verified: bool, quorums: Option<Quorums>)
    requires Distinct(t)
    ensures Distinct(Store(t, nodeCount, k, verified, quorums).0)
  {
    hide Counted, FirstSigners;
    if k < |t.inFlight| { CountedKeepsDistinct(t, k, verified); }
  }

  lemma {:induction false} PrefixDistinct(nodeCount: nat, xs: seq<Step>, n: nat)
    requires !Overlaps(nodeCount, xs) && n <= |xs|
    ensures Distinct(After(nodeCount, xs[..n]))
  {
    if n > 0 {
      PrefixDistinct(nodeCount, xs, n - 1);
      var t, x := After(nodeCount, xs[..n - 1]), xs[n - 1];
      assert xs[..n][..n - 1] == xs[..n - 1];
      assert !OverlapAt(nodeCount, xs, n - 1);
      hide Distinct, Overlaps, Look, Store;
      match x
      case OnLook(msg, failed, request) => LookKeepsDistinct(t, msg, failed, request);
      case OnStore(k, verified, quorums) => StoreKeepsDistinct(t, nodeCount, k, verified, quorums);
    } else {
      NothingCounted(nodeCount, xs);
    }
  }

  lemma NothingCounted(nodeCount: nat, xs: seq<Step>)
    ensures Distinct(After(nodeCount, xs[..0]))
  {
  }

  lemma AfterOne(nodeCount: nat, xs: seq<Step>, x: Step)
    ensures After(nodeCount, xs + [x]) == Take(After(nodeCount, xs), nodeCount, x)
  {
    assert (xs + [x])[..|xs|] == xs;
  }

  lemma {:induction false} EndsDistinct(nodeCount: nat, xs: seq<Step>, rs: seq<Step>)
    requires Distinct(After(nodeCount, xs)) && Ends(rs)
    ensures Distinct(After(nodeCount, xs + rs))
  {
    hide Distinct, After, Store;
    if rs == [] {
      assert xs + rs == xs;
    } else {
      var front, r := rs[..|rs| - 1], rs[|rs| - 1];
      EndsDistinct(nodeCount, xs, front);
      assert xs + rs == xs + front + [r] && r in rs;
      AfterOne(nodeCount, xs + front, r);
      StoreKeepsDistinct(After(nodeCount, xs + front), nodeCount, r.k, r.verified, r.quorums);
    }
  }

  /** Two signatures of one node in flight, both stored, are counted twice and cached once. */
  lemma BothCounted(nodeCount: nat, xs: seq<Step>, j: nat, k: nat)
    requires j < k < |After(nodeCount, xs).inFlight|
    requires var f, g := After(nodeCount, xs).inFlight[j].msg, After(nodeCount, xs).inFlight[k].msg;
             f.signed && g.signed && f.nodeId == g.nodeId
    ensures Overcounted(After(nodeCount, xs + [OnStore(k, true, None), OnStore(j, true, None)]))
  {
    var rs := [OnStore(k, true, None), OnStore(j, true, None)];
    assert xs + rs == xs + [rs[0]] + [rs[1]];
    AfterOne(nodeCount, xs, rs[0]);
    AfterOne(nodeCount, xs + [rs[0]], rs[1]);
    CountersAdd(nodeCount, xs);
    hide After;
    var t := After(nodeCount, xs);
    var t1 := Counted(t, k, true);
    assert t1.inFlight[j] == t.inFlight[j];
    CacheGrows(t.cache, t.inFlight[k].msg.nodeId, t.inFlight[k].msg);
    CacheGrows(t1.cache, t.inFlight[j].msg.nodeId, t.inFlight[j].msg);
  }

  lemma OverlapCounts(nodeCount: nat, xs: seq<Step>, n: nat)
    requires OverlapAt(nodeCount, xs, n)
    ensures CanOvercount(nodeCount, xs)
  {
    var t, msg := After(nodeCount, xs[..n]), xs[n].msg;
    var j: nat :| j < |t.inFlight| && t.inFlight[j].msg.signed && t.inFlight[j].msg.nodeId == msg.nodeId;
    assert xs[..n + 1] == xs[..n] + [xs[n]];
    AfterOne(nodeCount, xs[..n], xs[n]);
    assert After(nodeCount, xs[..n + 1]).inFlight == t.inFlight + [Flight(msg, xs[n].request)];
    hide Take;
    BothCounted(nodeCount, xs[..n + 1], j, |t.inFlight|);
    assert Ends([OnStore(|t.inFlight|, true, None), OnStore(j, true, None)]);
  }

  /** More signatures can come to be counted than there are signers exactly when two
      results of one node overlap. */
  lemma OvercountsIff(nodeCount: nat, xs: seq<Step>)
    ensures CanOvercount(nodeCount, xs) <==> Overlaps(nodeCount, xs)
  {
    hide After, OverlapAt;
    if Overlaps(nodeCount, xs) {
      var n :| OverlapAt(nodeCount, xs, n);
      OverlapCounts(nodeCount, xs, n);
    } else if CanOvercount(nodeCount, xs) {
      var n: nat, rs :| n <= |xs| && Ends(rs) && Overcounted(After(nodeCount, xs[..n] + rs));
      PrefixDistinct(nodeCount, xs, n);
      EndsDistinct(nodeCount, xs[..n], rs);
      assert false;
    }
  }

  /** The transaction is sent with quorumN signatures, or with all the cached ones when
      those are fewer, which needs an overlap. */
  lemma SentSigners(nodeCount: nat, xs: seq<Step>, k: nat, verified: bool, q: Quorums)
    requires forall x :: x in xs && x.OnLook? ==> x.msg.nodeId < nodeCount
    requires Store(After(nodeCount, xs), nodeCount, k, verified, Some(q)).1.Sent?
    ensures var o := Store(After(nodeCount, xs), nodeCount, k, verified, Some(q));
            && |o.1.signers| == Min(q.quorumN, |o.0.cache|)
            && (!Overlaps(nodeCount, xs) ==> |o.1.signers| == q.quorumN)
  {
    var t := After(nodeCount, xs);
    var t1 := Counted(t, k, verified);
    KnownSigners(nodeCount, xs);
    HowManySigners(t1.cache.Keys, nodeCount, q.quorumN);
    assert |t1.cache| == |t1.cache.Keys|;
    if !Overlaps(nodeCount, xs) {
      assert xs[..|xs|] == xs;
      PrefixDistinct(nodeCount, xs, |xs|);
      hide After;
      StoreKeepsDistinct(t, nodeCount, k, verified, Some(q));
    }
  }

  lemma {:induction false} KnownSigners(nodeCount: nat, xs: seq<Step>)
    requires forall x :: x in xs && x.OnLook? ==> x.msg.nodeId < nodeCount
    ensures forall i :: i in After(nodeCount, xs).cache ==> i < nodeCount
    ensures forall k :: 0 <= k < |After(nodeCount, xs).inFlight| ==>
              After(nodeCount, xs).inFlight[k].msg.nodeId < nodeCount
  {
    if xs != [] {
      var front, x := xs[..|xs| - 1], xs[|xs| - 1];
      KnownSigners(nodeCount, front);
      assert x in xs;
      hide After, FirstSigners;
      var t := After(nodeCount, front);
      if x.OnStore? && x.k < |t.inFlight| {
        var t1 := Counted(t, x.k, x.verified);
        assert forall j :: 0 <= j < |t1.inFlight| ==> t1.inFlight[j] in t.inFlight;
      }
    }
  }

  /** Two results of node 0 looked up before either is stored. */
  function LookTwice(msg: SignedResult): seq<Step> {
    [OnLook(msg, false, true), OnLook(msg, false, true), OnStore(0, true, Some(Quorums(2, 1)))]
  }

  /** The code sends the transaction with one signature where the quorum is two. */
  lemma OneSignatureSent(data: seq<nat>)
    ensures var msg := SignedResult(0, true, data);
            Store(After(2, LookTwice(msg)), 2, 0, true, Some(Quorums(2, 1))).1 == Sent([0])
  {
    var msg := SignedResult(0, true, data);
    var xs := LookTwice(msg);
    assert xs == [] + [xs[0]] + [xs[1]] + [xs[2]];
    AfterOne(2, [], xs[0]);
    AfterOne(2, [] + [xs[0]], xs[1]);
    AfterOne(2, [] + [xs[0]] + [xs[1]], xs[2]);
    hide After;
    var t := After(2, xs);
    assert t.inFlight == [Flight(msg, true)] && t.cache == map[0 := msg] && t.signed == 1;
    var t1 := Counted(t, 0, true);
    assert t1.cache == map[0 := msg] && t1.cache.Keys == {0} && t1.signed == 2 && !t1.done;
    OnlyNodeZero();
  }

  lemma OnlyNodeZero()
    ensures FirstSigners({0}, 2, 2) == [0]
  {
    assert FirstSigners({0}, 0, 2) == [];
    assert FirstSigners({0}, 1, 2) == [0];
  }

  /** A new result that nothing comes in between of. */
  lemma Uninterrupted(t: Tally, nodeCount: nat, msg: SignedResult, request: bool, verified: bool,
                      quorums: Option<Quorums>)
    requires Adds(t) && msg.nodeId !in t.cache && msg.nodeId < nodeCount && forall i :: i in t.cache ==> i < nodeCount
    ensures var (u, o) := Store(Look(t, msg, false, request), nodeCount, |t.inFlight|, verified, quorums);
            var good := msg.signed && (request ==> verified);
            var decides := request && quorums.Some?;
            && u.inFlight == t.inFlight && u.total == t.total + 1
            && u.cache == (if good then t.cache[msg.nodeId := msg] else t.cache)
            && |u.cache| == |t.cache| + (if good then 1 else 0)
            && u.signed == t.signed + (if good then 1 else 0)
            && u.errs == t.errs + (if good then 0 else 1)
            && (o.Sent? <==> decides && u.signed >= quorums.value.quorumN && !t.done)
            && (o.GivenUp? <==> decides && !o.Sent? && u.errs > quorums.value.accuseQuorumN)
            && (o.Sent? ==>
                  o.signers == FirstSigners(u.cache.Keys, nodeCount, quorums.value.quorumN)
                  && |o.signers| == Min(quorums.value.quorumN, |u.cache|))
            && u.done == (t.done || o.Sent?)
            && u.sends == t.sends + (if o.Sent? then 1 else 0) && u.sends <= 1
  {
    hide FirstSigners;
    CacheGrows(t.cache, msg.nodeId, msg);
    var t0 := Look(t, msg, false, request);
    var t1 := Counted(t0, |t.inFlight|, verified);
    assert t1.inFlight == t.inFlight;
    if quorums.Some? { HowManySigners(t1.cache.Keys, nodeCount, quorums.value.quorumN); }
    assert |t1.cache| == |t1.cache.Keys|;
  }

  // -------------------------------------------------------------- the cache

  class SignedResultCache {
    const nodeCount: nat

    var cache: map<NodeId, SignedResult>
    var totalCount: int
    var signedCount: int
    var errCnt: int
    var doneFlag: bool

    /** How often the transaction has been sent from this cache. */
    ghost var sends: nat

    ghost var inFlight: seq<Flight>

    ghost function State(): Tally
      reads this
    {
      Tally(cache, totalCount, signedCount, errCnt, doneFlag, sends, inFlight)
    }

    /** The counters add up and every result is of a known node. */
    ghost predicate Valid()
      reads this
    {
      && Adds(State())
      && (forall i :: i in cache ==> i < nodeCount)
      && (forall k :: 0 <= k < |inFlight| ==> inFlight[k].msg.nodeId < nodeCount)
    }

    constructor (nodeCount: nat)
      ensures Valid() && State() == EMPTY && this.nodeCount == nodeCount
    {
      hide Adds;
      EmptyAdds();
      this.nodeCount := nodeCount;
      cache, totalCount, signedCount, errCnt, doneFlag, sends, inFlight := map[], 0, 0, 0, false, 0, [];
    }

    /** The signatures to merge: those of the first quorumN signers in the node list. */
    method CollectSigs(quorumN: nat) returns (signers: seq<NodeId>)
      requires Valid() && 1 <= quorumN
      ensures signers == FirstSigners(cache.Keys, nodeCount, quorumN)
      ensures |signers| == Min(quorumN, |cache|)
    {
      HowManySigners(cache.Keys, nodeCount, quorumN);
      signers := [];
      var idx := 0;
      while idx < nodeCount
        invariant 0 <= idx <= nodeCount
        invariant signers == FirstSigners(cache.Keys, idx, quorumN) && |signers| < quorumN
      {
        if idx in cache {
          signers := signers + [idx];
          if |signers| == quorumN {
            FullStays(cache.Keys, idx + 1, nodeCount, quorumN);
            break;
          }
        }
        idx := idx + 1;
      }
    }

    /** doSave up to the counters. failedInTerm is IsSignFailed; request is present once
        this node holds the sign request. */
    method LookUp(msg: SignedResult, failedInTerm: bool, request: bool) returns (flight: Option<Flight>)
      requires Valid() && msg.nodeId < nodeCount
      modifies this`inFlight
      ensures Valid() && State() == Look(old(State()), msg, failedInTerm, request)
      ensures flight == if failedInTerm || msg.nodeId in cache then None else Some(Flight(msg, request))
    {
      flight := None;
      if failedInTerm { return; }
      if msg.nodeId in cache { return; }
      flight := Some(Flight(msg, request));
      inFlight := inFlight + [Flight(msg, request)];
    }

    /** The counters and the cache with the result in flight at k. verified tells whether
        the signature fits the request. */
    method Count(flight: Flight, ghost k: nat, verified: bool)
      requires Valid() && k < |inFlight| && inFlight[k] == flight
      modifies this`cache, this`totalCount, this`signedCount, this`errCnt, this`inFlight
      ensures Valid() && State() == Counted(old(State()), k, verified)
    {
      hide Adds;
      var msg := flight.msg;
      CountedAdds(State(), k, verified);
      inFlight := inFlight[..k] + inFlight[k + 1..];
      totalCount := totalCount + 1;
      if !flight.request {
        if msg.signed {
          signedCount := signedCount + 1;
          cache := cache[msg.nodeId := msg];
        } else {
          errCnt := errCnt + 1;
        }
        return;
      }
      if msg.signed {
        if !verified {
          errCnt := errCnt + 1;
        } else {
          cache := cache[msg.nodeId := msg];
          signedCount := signedCount + 1;
        }
      } else {
        errCnt := errCnt + 1;
      }
    }

    /** The rest of doSave for the result in flight at k. */
    method Save(flight: Flight, ghost k: nat, verified: bool, quorums: Option<Quorums>) returns (outcome: SaveOutcome)
      requires Valid() && k < |inFlight| && inFlight[k] == flight
      requires quorums.Some? ==> quorums.value.quorumN >= 1
      modifies this
      ensures Valid() && (State(), outcome) == Store(old(State()), nodeCount, k, verified, quorums)
    {
      hide FirstSigners, Counted;
      outcome := Noted;
      Count(flight, k, verified);
      if !flight.request || quorums.None? { return; }
      var q := quorums.value;
      if signedCount >= q.quorumN && !doneFlag {
        doneFlag := true;
        sends := sends + 1;
        var signers := CollectSigs(q.quorumN);
        outcome := Sent(signers);
      } else if errCnt > q.accuseQuorumN {
        outcome := GivenUp;
      }
    }

    /** doSave once the cache is loaded, with nothing coming in between. */
    method DoSave(msg: SignedResult, failedInTerm: bool, request: bool, verified: bool, quorums: Option<Quorums>)
      returns (outcome: SaveOutcome)
      requires Valid() && msg.nodeId < nodeCount
      requires quorums.Some? ==> quorums.value.quorumN >= 1
      modifies this
      ensures Valid() && inFlight == old(inFlight)
      ensures failedInTerm || msg.nodeId in old(cache) ==> outcome == Noted && State() == old(State())
      ensures !failedInTerm && msg.nodeId !in old(cache) ==>
                var good := msg.signed && (request ==> verified);
                var decides := request && quorums.Some?;
                && totalCount == old(totalCount) + 1
                && cache == (if good then old(cache)[msg.nodeId := msg] else old(cache))
                && signedCount == old(signedCount) + (if good then 1 else 0)
                && errCnt == old(errCnt) + (if good then 0 else 1)
                && (outcome.Sent? <==> decides && signedCount >= quorums.value.quorumN && !old(doneFlag))
                && (outcome.GivenUp? <==> decides && !outcome.Sent? && errCnt > quorums.value.accuseQuorumN)
                && (outcome.Sent? ==>
                      outcome.signers == FirstSigners(cache.Keys, nodeCount, quorums.value.quorumN))
      ensures old(signedCount) == |old(cache)| ==>
                && signedCount == |cache|
                && (outcome.Sent? ==> quorums.Some? && |outcome.signers| == quorums.value.quorumN)
      ensures doneFlag == (old(doneFlag) || outcome.Sent?)
      ensures sends == old(sends) + (if outcome.Sent? then 1 else 0) && sends <= 1
    {
      hide FirstSigners, Store, Adds;
      ghost var before := State();
      AtMostOneSend(before);
      var flight := LookUp(msg, failedInTerm, request);
      if flight.None? { return Noted; }
      Uninterrupted(before, nodeCount, msg, request, verified, quorums);
      outcome := Save(flight.value, |inFlight| - 1, verified, quorums);
    }
  }
}
