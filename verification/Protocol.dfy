/** The values the consensus core exchanges and stores (proto/pbtypes_ext.go). */
module Protocol {
  import opened ClusterParams

  type NodeId = nat

  datatype Option<+T> = None | Some(value: T)

  function Min(a: int, b: int): int { if a < b then a else b }

  // ----------------------------------------------------------------- blocks

  datatype Recharge = Recharge(address: string, amount: int)

  datatype WatchedTx = WatchedTx(txid: string, amount: int, from: string, to: string,
                                 recharges: seq<Recharge>)

  /** A gateway transaction: the contents its digest covers. */
  datatype Tx = Tx(watched: WatchedTx, newlyTxId: string)

  datatype Body = TxsBody(txs: seq<Tx>)
                | ReconfigBody(joining: bool, host: string, nodeId: NodeId)
                | BchBody(header: nat)

  /** A block stands for its own id: the digest is taken to be collision free, so
      equal ids mean equal contents, back to genesis. Digest is an id that is not
      the digest of any block with known contents. */
  datatype Block = Genesis
                 | Digest(raw: nat)
                 | Block(prev: Block, timestampMs: int, body: Body)

  /** The only height at which a block can be linked to genesis. */
  function Ht(b: Block): nat {
    match b
    case Genesis => 0
    case Digest(_) => 0
    case Block(p, _, _) => 1 + Ht(p)
  }

  /** IsTxsBlock() || IsReconfigBlock() */
  predicate Committable(b: Block) {
    b.Block? && !b.body.BchBody?
  }

  // --------------------------------------------------------------- messages

  datatype PrepareMsg = PrepareMsg(term: nat, height: nat, block: Block, nodeId: NodeId)

  datatype CommitMsg = CommitMsg(term: nat, height: nat, block: Block, nodeId: NodeId)

  datatype Votie = Votie(term: nat, height: nat, block: Block,
                         prepares: map<NodeId, PrepareMsg>, commits: map<NodeId, CommitMsg>)

  datatype Vote = Vote(term: nat, votie: Votie, nodeId: NodeId)

  datatype InitMsg = InitMsg(term: nat, height: nat, block: Block, nodeId: NodeId,
                             votes: map<NodeId, Vote>)

  datatype WeakAccuse = WeakAccuse(term: nat, nodeId: NodeId)

  datatype StrongAccuse = StrongAccuse(term: nat, accusers: set<NodeId>)

  /** A block being agreed on or already committed, with its certificates. */
  datatype Pack = Pack(init: InitMsg, prepares: map<NodeId, PrepareMsg>,
                       commits: map<NodeId, CommitMsg>)
  {
    function ToVotie(): Votie {
      Votie(init.term, init.height, init.block, prepares, commits)
    }
  }

  const GENESIS_PACK := Pack(InitMsg(0, 0, Genesis, 0, map[]), map[], map[])

  /** Everything one node can send another. */
  datatype Msg = InitM(init: InitMsg)
               | PrepareM(prepare: PrepareMsg)
               | CommitM(commit: CommitMsg)
               | VoteM(vote: Vote)
               | WeakM(weak: WeakAccuse)
               | StrongM(strong: StrongAccuse)
               | PackM(pack: Pack)  // a committed block inside a sync-up response

  // ------------------------------------------------------------------ votie

  /** Lexicographic order on (term, height): Votie.HasLessTermHeightThan. */
  predicate RankLess(t: nat, h: nat, t': nat, h': nat) {
    t < t' || (t == t' && h < h')
  }

  predicate HasLessTermHeightThan(v: Votie, w: Votie) {
    RankLess(v.term, v.height, w.term, w.height)
  }

  /** m is a vote's votie that no other vote's votie exceeds. */
  ghost predicate IsMaxVotie(votes: map<NodeId, Vote>, m: Votie) {
    && (exists i :: i in votes && votes[i].votie == m)
    && (forall i :: i in votes ==> !HasLessTermHeightThan(m, votes[i].votie))
  }

  /** m is an answer of GetMaxVotie on the votes. */
  ghost predicate MaxAnswer(votes: map<NodeId, Vote>, m: Option<Votie>) {
    if m.Some? then IsMaxVotie(votes, m.value) else votes == map[]
  }

  /** Every non-empty map of votes has a greatest votie. */
  lemma {:induction false} SomeMaxVotie(votes: map<NodeId, Vote>) returns (m: Option<Votie>)
    ensures MaxAnswer(votes, m)
    decreases |votes|
  {
    m := None;
    if votes != map[] {
      var i :| i in votes;
      assert |votes.Keys - {i}| < |votes|;
      var rest := votes - {i};
      assert rest.Keys == votes.Keys - {i};
      var n := SomeMaxVotie(rest);
      m := if n.None? || HasLessTermHeightThan(n.value, votes[i].votie) then Some(votes[i].votie) else n;
      assert forall j :: j in votes && j != i ==> j in rest && rest[j] == votes[j];
      if m == n {
        var j :| j in rest && rest[j].votie == m.value;
        assert votes[j].votie == m.value;
      }
    }
  }

  /** GetMaxVotie: among voties of equal rank the map's iteration order decides. */
  method GetMaxVotie(votes: map<NodeId, Vote>) returns (rst: Option<Votie>)
    ensures MaxAnswer(votes, rst)
  {
    rst := None;
    var rest := votes.Keys;
    while rest != {}
      invariant rest <= votes.Keys
      invariant rst.None? <==> rest == votes.Keys
      invariant rst.Some? ==> exists i :: i in votes && votes[i].votie == rst.value
      invariant rst.Some? ==>
                  forall i :: i in votes && i !in rest ==> !HasLessTermHeightThan(rst.value, votes[i].votie)
      decreases rest
    {
      var i :| i in rest;
      if rst.None? || HasLessTermHeightThan(rst.value, votes[i].votie) {
        rst := Some(votes[i].votie);
      }
      rest := rest - {i};
    }
  }

  // ---------------------------------------------------------------- cluster

  /** The fixed membership of a run: which of the configured nodes are normal. */
  datatype Config = Config(normal: seq<bool>) {
    predicate Valid() { true in normal }

    function Nodes(): set<NodeId> { Members(normal) }

    function QuorumN(): int { Quorum(|Nodes()|) }

    function AccuseQuorumN(): int { AccuseQuorum(|Nodes()|) }

    lemma Sizes()
      requires Valid()
      ensures |Nodes()| >= 1 && QuorumN() >= 1 && AccuseQuorumN() >= 1
    {
      var k :| 0 <= k < |normal| && normal[k];
      assert k in Nodes();
    }
  }

  /** The quorums of a run are those the cluster package computes from its node list. */
  lemma MembershipConfig(m: Membership)
    requires m.Valid()
    ensures var cfg := Config(Flags(m.nodeList));
            && cfg.QuorumN() == m.quorumN && cfg.AccuseQuorumN() == m.accuseQuorumN
            && |cfg.Nodes()| == m.clusterSize && (cfg.Valid() <==> m.clusterSize >= 1)
  {
    var cfg := Config(Flags(m.nodeList));
    MembersSize(m.nodeList);
    if m.clusterSize >= 1 { SomeNormal(m.nodeList); }
    if cfg.Valid() { cfg.Sizes(); }
  }
}
