/** Cluster membership: quorum sizes, leader rotation and the operations that
    change the node list (cluster/params.go). */
module ClusterParams {

  /** Go's integer division by three, which truncates toward zero. */
  function TruncThird(a: int): int {
    if a >= 0 then a / 3 else -((-a) / 3)
  }

  function MaxFaulty(size: int): int { TruncThird(size - 1) }

  function Quorum(size: int): int { size - MaxFaulty(size) }

  function AccuseQuorum(size: int): int { MaxFaulty(size) + 1 }

  /** The formula used by AddNodeInfo only. */
  function JoinQuorum(size: nat): int { (size + MaxFaulty(size)) / 2 + 1 }

  /** Of n nodes up to f may be faulty, f being the greatest number with 3f + 1 <= n; a quorum
      is all but f, enough accusers are one more than f, and the other formula is the least
      number with which two quorums share more than f nodes. */
  lemma QuorumSizes(n: nat)
    requires n >= 1
    ensures var f := MaxFaulty(n);
            && 0 <= f && 3 * f + 1 <= n < 3 * f + 4
            && Quorum(n) == n - f && AccuseQuorum(n) == f + 1
            && 2 * JoinQuorum(n) - n > f >= 2 * (JoinQuorum(n) - 1) - n
    ensures MaxFaulty(0) == 0
  {
  }

  // ---------------------------------------------------------------- quorums

  function Ids(n: nat): (s: set<nat>)
    ensures forall i: nat :: i in s <==> i < n
  {
    if n == 0 then {} else Ids(n - 1) + {n - 1}
  }

  lemma {:induction false} IdsSize(n: nat)
    ensures |Ids(n)| == n
  {
    if n == 0 {
      assert Ids(0) == {};
    } else {
      IdsSize(n - 1);
      assert Ids(n) == Ids(n - 1) + {n - 1};
    }
  }

  lemma {:induction false} SubsetSize<T>(a: set<T>, b: set<T>)
    requires a <= b
    ensures |a| <= |b|
  {
    if a != {} {
      var x :| x in a;
      SubsetSize(a - {x}, b - {x});
    }
  }

  /** Inclusion-exclusion inside a finite universe. */
  lemma OverlapIn<T>(u: set<T>, a: set<T>, b: set<T>)
    requires a <= u && b <= u
    ensures |a * b| >= |a| + |b| - |u|
  {
    SubsetSize(a + b, u);
    assert |a + b| + |a * b| == |a| + |b|;
  }

  lemma Overlap(n: nat, a: set<nat>, b: set<nat>)
    requires a <= Ids(n) && b <= Ids(n)
    ensures |a * b| >= |a| + |b| - n
  {
    IdsSize(n);
    OverlapIn(Ids(n), a, b);
  }

  /** Either quorum formula of the source. */
  predicate IsQuorumSize(n: nat, q: int) {
    n >= 1 && (q == Quorum(n) || q == JoinQuorum(n))
  }

  /** Two quorums of one membership, each by either formula, share a node that is
      not faulty, and the non-faulty nodes alone can form a quorum. */
  lemma QuorumsIntersect(n: nat, a: set<nat>, b: set<nat>, p: int, q: int)
    requires IsQuorumSize(n, p) && IsQuorumSize(n, q)
    requires a <= Ids(n) && b <= Ids(n) && |a| >= p && |b| >= q
    ensures |a * b| >= MaxFaulty(n) + 1
    ensures p <= n - MaxFaulty(n)
  {
    Overlap(n, a, b);
  }

  /** Used by the consensus proof: two quorums of one membership meet. */
  lemma CommonMember(members: set<nat>, a: set<nat>, b: set<nat>) returns (i: nat)
    requires |members| >= 1 && a <= members && b <= members
    requires |a| >= Quorum(|members|) && |b| >= Quorum(|members|)
    ensures i in a && i in b
  {
    OverlapIn(members, a, b);
    assert a * b != {};
    i :| i in a * b;
  }

  /** One AddNode: a quorum of the n old members and one of the n + 1 new members
      share more nodes than either membership tolerates as faulty. */
  lemma QuorumsIntersectAcrossAdd(n: nat, old_: set<nat>, new_: set<nat>, q: int)
    requires n >= 1 && IsQuorumSize(n + 1, q)
    requires old_ <= Ids(n) && |old_| >= Quorum(n)
    requires new_ <= Ids(n + 1) && |new_| >= q
    ensures |old_ * new_| > MaxFaulty(n)
    ensures |old_ * new_| > MaxFaulty(n + 1)
  {
    assert old_ <= Ids(n + 1);
    Overlap(n + 1, old_, new_);
  }

  /** One DeleteNode, with gone the id marked as deleted. */
  lemma QuorumsIntersectAcrossDelete(n: nat, gone: nat, old_: set<nat>, new_: set<nat>)
    requires n >= 2 && gone < n
    requires old_ <= Ids(n) && |old_| >= Quorum(n)
    requires new_ <= Ids(n) - {gone} && |new_| >= Quorum(n - 1)
    ensures |old_ * new_| > MaxFaulty(n)
    ensures |old_ * new_| > MaxFaulty(n - 1)
  {
    Overlap(n, old_, new_);
  }

  /** Every old quorum sized by AddNodeInfo meets every quorum of the n + 1 members
      in more nodes than the new membership tolerates as faulty. */
  ghost predicate JoinQuorumSurvivesAdd(n: nat) {
    forall a: set<nat>, b: set<nat> ::
      a <= Ids(n) && b <= Ids(n + 1) && |a| >= JoinQuorum(n) && |b| >= Quorum(n + 1) ==>
      |a * b| > MaxFaulty(n + 1)
  }

  /** That guarantee survives the next AddNode exactly when the old size is not a
      multiple of three. */
  lemma JoinQuorumAcrossAdd(n: nat)
    requires n >= 1
    ensures JoinQuorumSurvivesAdd(n) <==> n % 3 != 0
  {
    if n % 3 != 0 {
      forall a: set<nat>, b: set<nat> |
        a <= Ids(n) && b <= Ids(n + 1) && |a| >= JoinQuorum(n) && |b| >= Quorum(n + 1)
        ensures |a * b| > MaxFaulty(n + 1)
      {
        assert a <= Ids(n + 1);
        Overlap(n + 1, a, b);
      }
    } else {
      ThinOverlap(n);
    }
  }

  /** The first JoinQuorum(n) ids against the last Quorum(n + 1) ids. */
  lemma ThinOverlap(n: nat)
    requires n >= 1 && n % 3 == 0
    ensures !JoinQuorumSurvivesAdd(n)
  {
    var q, lo := JoinQuorum(n), n + 1 - Quorum(n + 1);
    assert 0 <= lo <= q <= n;
    var a, b := Ids(q), Ids(n + 1) - Ids(lo);
    IdsSize(q); IdsSize(n + 1); IdsSize(lo);
    assert a * b == a - Ids(lo);
    assert Ids(lo) <= a && Ids(lo) <= Ids(n + 1);
    assert |a * b| == q - lo && |b| == Quorum(n + 1);
    assert a <= Ids(n) && b <= Ids(n + 1);
  }

  // --------------------------------------------------------- leader rotation

  lemma EuclideanUnique(p: int, s: int, q: int, r: int, n: int)
    requires 0 <= r < n && 0 <= s < n && p * n + s == q * n + r
    ensures p == q && r == s
  {
    var k := p - q;
    assert k * n == p * n - q * n;
    assert k >= 1 ==> k * n >= n;
    assert k <= -1 ==> (-k) * n >= n;
  }

  lemma QuotientUnique(a: int, q: int, r: int, n: int)
    requires n > 0 && 0 <= r < n && a == q * n + r
    ensures a / n == q && a % n == r
  {
    EuclideanUnique(a / n, a % n, q, r, n);
  }

  lemma ModStep(a: nat, e: nat, n: nat)
    requires n > 0
    ensures (a + e) % n == (a % n + e) % n
  {
    var p, s := a / n, (a % n + e) / n;
    assert a + e == (p + s) * n + (a % n + e) % n;
    QuotientUnique(a + e, p + s, (a % n + e) % n, n);
  }

  /** The node e positions after start, cyclically. */
  function At(normal: seq<bool>, start: nat, e: nat): bool
    requires |normal| > 0
  {
    normal[(start + e) % |normal|]
  }

  /** Some node in cyclic positions start + d .. start + n - 1 is normal. */
  ghost predicate NormalAhead(normal: seq<bool>, start: nat, d: nat) {
    |normal| > 0 && exists e: nat :: d <= e < |normal| && At(normal, start, e)
  }

  /** How far after start the cyclic position of id is. */
  function Offset(n: nat, start: nat, id: nat): (e: nat)
    requires id < n
    ensures e < n && (start + e) % n == id
  {
    var r := start % n;
    var e := if id >= r then id - r else id + n - r;
    ModStep(start, e, n);
    assert (r + e) % n == id by {
      QuotientUnique(r + e, if id >= r then 0 else 1, id, n);
    }
    e
  }

  lemma SomeNormalAhead(normal: seq<bool>, start: nat)
    requires true in normal
    ensures NormalAhead(normal, start, 0)
  {
    var k :| 0 <= k < |normal| && normal[k];
    var e := Offset(|normal|, start, k);
    assert At(normal, start, e);
  }

  /** Cyclic distance from start to the next normal node. */
  function Distance(normal: seq<bool>, start: nat, d: nat): (r: nat)
    requires NormalAhead(normal, start, d)
    ensures d <= r < |normal| && At(normal, start, r)
    ensures forall e: nat :: d <= e < r ==> !At(normal, start, e)
    decreases |normal| - d
  {
    if At(normal, start, d) then d else Distance(normal, start, d + 1)
  }

  function LeaderOf(normal: seq<bool>, term: nat): (id: nat)
    requires true in normal
    ensures id < |normal| && normal[id]
  {
    SomeNormalAhead(normal, term);
    (term + Distance(normal, term, 0)) % |normal|
  }

  /** The leader is the first normal node at or after position term mod n. */
  lemma LeaderIsNextNormal(normal: seq<bool>, term: nat, d: nat)
    requires true in normal && d < |normal| && At(normal, term, d)
    requires forall e: nat :: e < d ==> !At(normal, term, e)
    ensures LeaderOf(normal, term) == (term + d) % |normal|
  {
    SomeNormalAhead(normal, term);
    assert Distance(normal, term, 0) == d;
  }

  /** Moving one position past a node that is not normal brings the leader nearer. */
  lemma OneStepNearer(normal: seq<bool>, term: nat, d: nat, idx: nat)
    requires true in normal && idx < |normal| && idx == (term + d) % |normal|
    requires NormalAhead(normal, term, 0) && d <= Distance(normal, term, 0)
    ensures normal[idx] <==> d == Distance(normal, term, 0)
    ensures normal[idx] ==> idx == LeaderOf(normal, term)
    ensures (idx + 1) % |normal| == (term + (d + 1)) % |normal|
  {
    assert normal[idx] == At(normal, term, d);
    ModStep(term + d, 1, |normal|);
  }

  /** Every normal node leads one of any |normal| consecutive terms. */
  lemma EveryNormalNodeLeads(normal: seq<bool>, from: nat, id: nat)
    requires id < |normal| && normal[id]
    ensures exists t: nat :: from <= t < from + |normal| && LeaderOf(normal, t) == id
  {
    var t := from + Offset(|normal|, from, id);
    assert (t + 0) % |normal| == id;
    LeaderIsNextNormal(normal, t, 0);
  }

  // ------------------------------------------------------------ membership

  datatype NodeInfo = NodeInfo(id: nat, isNormal: bool)

  function Flags(nodes: seq<NodeInfo>): (f: seq<bool>)
    ensures |f| == |nodes| && forall i :: 0 <= i < |nodes| ==> f[i] == nodes[i].isNormal
  {
    seq(|nodes|, i requires 0 <= i < |nodes| => nodes[i].isNormal)
  }

  function CountNormal(nodes: seq<NodeInfo>): nat {
    if nodes == [] then 0
    else CountNormal(nodes[..|nodes| - 1]) + if nodes[|nodes| - 1].isNormal then 1 else 0
  }

  /** The ids of the normal nodes. */
  function Members(normal: seq<bool>): (s: set<nat>)
    ensures forall i: nat :: i in s <==> i < |normal| && normal[i]
  {
    if normal == [] then {}
    else
      var k := |normal| - 1;
      Members(normal[..k]) + if normal[k] then {k} else {}
  }

  lemma {:induction false} MembersSize(nodes: seq<NodeInfo>)
    ensures |Members(Flags(nodes))| == CountNormal(nodes)
  {
    if nodes != [] {
      var k := |nodes| - 1;
      MembersSize(nodes[..k]);
      assert Flags(nodes)[..k] == Flags(nodes[..k]);
    }
  }

  lemma {:induction false} CountAfterFlip(nodes: seq<NodeInfo>, id: nat, flag: bool)
    requires id < |nodes| && nodes[id].isNormal != flag
    ensures CountNormal(nodes[id := nodes[id].(isNormal := flag)])
            == CountNormal(nodes) + if flag then 1 else -1
  {
    var m := nodes[id := nodes[id].(isNormal := flag)];
    var k := |nodes| - 1;
    if id == k {
      assert m[..k] == nodes[..k];
    } else {
      CountAfterFlip(nodes[..k], id, flag);
      assert m[..k] == nodes[..k][id := nodes[id].(isNormal := flag)];
    }
  }

  /** The package variables of cluster/params.go. */
  class Membership {
    var nodeList: seq<NodeInfo>
    var clusterSize: int
    var totalNodeCount: int
    var maxFaultyN: int
    var quorumN: int
    var accuseQuorumN: int

    /** The counters agree with the node list, and the quorum is the normal formula. */
    ghost predicate Valid()
      reads this
    {
      && totalNodeCount == |nodeList|
      && (forall i :: 0 <= i < |nodeList| ==> nodeList[i].id == i)
      && clusterSize == CountNormal(nodeList)
      && maxFaultyN == MaxFaulty(clusterSize)
      && quorumN == Quorum(clusterSize)
      && accuseQuorumN == AccuseQuorum(clusterSize)
    }

    /** InitWithNodeList on an empty package state. */
    constructor FromNodeList(flags: seq<bool>)
      ensures Valid() && Flags(nodeList) == flags
    {
      nodeList, clusterSize := [], 0;
      totalNodeCount, maxFaultyN, quorumN, accuseQuorumN := 0, 0, 0, 0;
      new;
      var i := 0;
      while i < |flags|
        invariant 0 <= i <= |flags| && |nodeList| == i
        invariant forall k :: 0 <= k < i ==> nodeList[k] == NodeInfo(k, flags[k])
        invariant clusterSize == CountNormal(nodeList)
      {
        ghost var before := nodeList;
        nodeList := nodeList + [NodeInfo(i, flags[i])];
        assert nodeList[..i] == before;
        if flags[i] { clusterSize := clusterSize + 1; }
        i := i + 1;
      }
      totalNodeCount := |flags|;
      UpdateQuorum();
    }

    method UpdateQuorum()
      modifies this`maxFaultyN, this`quorumN, this`accuseQuorumN
      ensures maxFaultyN == MaxFaulty(clusterSize)
      ensures quorumN == Quorum(clusterSize) && accuseQuorumN == AccuseQuorum(clusterSize)
    {
      var a := clusterSize - 1;
      maxFaultyN := if a >= 0 then a / 3 else -((-a) / 3);
      quorumN := clusterSize - maxFaultyN;
      accuseQuorumN := maxFaultyN + 1;
    }

    /** Terminates because the cyclic distance to the next normal node shrinks. */
    method LeaderNodeOfTerm(term: nat) returns (idx: nat)
      requires Valid() && clusterSize >= 1
      ensures true in Flags(nodeList) && idx == LeaderOf(Flags(nodeList), term)
    {
      SomeNormal(nodeList);
      ghost var flags := Flags(nodeList);
      SomeNormalAhead(flags, term);
      ghost var r := Distance(flags, term, 0);
      ghost var d := 0;
      idx := term % totalNodeCount;
      OneStepNearer(flags, term, d, idx);
      while !nodeList[idx].isNormal
        invariant d <= r && idx < |flags| && idx == (term + d) % |flags|
        invariant flags[idx] <==> d == r
        invariant flags[idx] ==> idx == LeaderOf(flags, term)
        decreases r - d
      {
        OneStepNearer(flags, term, d, idx);
        idx := (idx + 1) % totalNodeCount;
        d := d + 1;
        OneStepNearer(flags, term, d, idx);
      }
    }

    method AddNode(nodeId: int)
      requires Valid()
      modifies this
      ensures Valid()
      ensures nodeList == if nodeId == old(totalNodeCount)
                          then old(nodeList) + [NodeInfo(nodeId, true)] else old(nodeList)
      ensures clusterSize == old(clusterSize) + if nodeId == old(totalNodeCount) then 1 else 0
    {
      if nodeId != totalNodeCount { return; }
      nodeList := nodeList + [NodeInfo(nodeId, true)];
      assert nodeList[..|nodeList| - 1] == old(nodeList);
      clusterSize := clusterSize + 1;
      totalNodeCount := totalNodeCount + 1;
      UpdateQuorum();
    }

    /** Used by the simple sync-up only: it sizes the quorum by the other formula. */
    method AddNodeInfo(info: NodeInfo)
      requires Valid()
      modifies this
      ensures nodeList == old(nodeList) + [info]
      ensures clusterSize == old(clusterSize) + 1 && totalNodeCount == old(totalNodeCount) + 1
      ensures quorumN == JoinQuorum(clusterSize)
      ensures maxFaultyN == MaxFaulty(clusterSize) && accuseQuorumN == AccuseQuorum(clusterSize)
    {
      nodeList := nodeList + [info];
      clusterSize := clusterSize + 1;
      totalNodeCount := totalNodeCount + 1;
      UpdateQuorum();
      quorumN := (clusterSize + maxFaultyN) / 2 + 1;
    }

    method DeleteNode(nodeId: int)
      requires Valid()
      modifies this
      ensures Valid()
      ensures nodeList == if 0 <= nodeId < old(totalNodeCount)
                          then old(nodeList)[nodeId := NodeInfo(nodeId, false)] else old(nodeList)
    {
      if nodeId >= totalNodeCount || nodeId < 0 { return; }
      if nodeList[nodeId].isNormal {
        CountAfterFlip(nodeList, nodeId, false);
        nodeList := nodeList[nodeId := nodeList[nodeId].(isNormal := false)];
        clusterSize := clusterSize - 1;
        UpdateQuorum();
      }
    }

    /** The source counts the node again even when it is already normal: the counters stay
        right exactly when it was not. */
    method RecoverNode(nodeId: int)
      requires Valid()
      modifies this
      ensures nodeList == if 0 <= nodeId < old(totalNodeCount)
                          then old(nodeList)[nodeId := NodeInfo(nodeId, true)] else old(nodeList)
      ensures clusterSize == old(clusterSize) + if 0 <= nodeId < old(totalNodeCount) then 1 else 0
      ensures maxFaultyN == MaxFaulty(clusterSize) && totalNodeCount == old(totalNodeCount)
      ensures quorumN == Quorum(clusterSize) && accuseQuorumN == AccuseQuorum(clusterSize)
      ensures Valid() <==> (0 <= nodeId < old(totalNodeCount) ==> !old(nodeList)[nodeId].isNormal)
    {
      if nodeId >= totalNodeCount || nodeId < 0 { return; }
      if !nodeList[nodeId].isNormal { CountAfterFlip(nodeList, nodeId, true); }
      assert nodeList[nodeId].isNormal ==> nodeList[nodeId := nodeList[nodeId].(isNormal := true)] == nodeList;
      nodeList := nodeList[nodeId := nodeList[nodeId].(isNormal := true)];
      clusterSize := clusterSize + 1;
      UpdateQuorum();
    }
  }

  lemma {:induction false} SomeNormal(nodes: seq<NodeInfo>)
    requires CountNormal(nodes) >= 1
    ensures true in Flags(nodes)
  {
    var k := |nodes| - 1;
    if nodes[k].isNormal {
      assert Flags(nodes)[k];
    } else {
      SomeNormal(nodes[..k]);
      var i :| 0 <= i < k && Flags(nodes[..k])[i];
      assert Flags(nodes)[i];
    }
  }
}
