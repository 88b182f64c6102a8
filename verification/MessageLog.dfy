/** Safety of the round structure, argued on the log of sent messages alone: if each
    message is justified by those sent before it, chosen blocks are carried forward
    and no two blocks are ever chosen at one height. */
module MessageLog {
  import opened ClusterParams
  import opened Protocol

  /** A block at a height, proposed or agreed on in a term. */
  datatype Point = Point(term: nat, height: nat, block: Block)

  const GENESIS_POINT := Point(0, 0, Genesis)

  predicate Below(p: Point, q: Point) { RankLess(p.term, p.height, q.term, q.height) }

  function VotiePoint(v: Votie): Point { Point(v.term, v.height, v.block) }

  function InitPoint(x: InitMsg): Point { Point(x.term, x.height, x.block) }

  function PackPoint(p: Pack): Point { InitPoint(p.init) }

  function CommitPoint(c: CommitMsg): Point { Point(c.term, c.height, c.block) }

  function PreparePoint(c: PrepareMsg): Point { Point(c.term, c.height, c.block) }

  // ------------------------------------------------------- views of the log

  predicate Proposes(m: Msg, p: Point) { m.InitM? && InitPoint(m.init) == p }

  ghost predicate HasInit(log: seq<Msg>, p: Point) {
    exists k :: 0 <= k < |log| && Proposes(log[k], p)
  }

  function Commit(p: Point, i: NodeId): Msg { CommitM(CommitMsg(p.term, p.height, p.block, i)) }

  function Committers(cfg: Config, log: seq<Msg>, p: Point): set<NodeId> {
    set i | i in cfg.Nodes() && Commit(p, i) in log
  }

  /** A quorum has sent a commit for p. */
  ghost predicate Chosen(cfg: Config, log: seq<Msg>, p: Point) {
    |Committers(cfg, log, p)| >= cfg.QuorumN()
  }

  /** p may stand in a committed chain. */
  ghost predicate Settled(cfg: Config, log: seq<Msg>, p: Point) {
    p == GENESIS_POINT || Chosen(cfg, log, p)
  }

  /** The block of p was chosen at its height in an earlier term. */
  ghost predicate ChosenBefore(cfg: Config, log: seq<Msg>, p: Point) {
    exists t: nat :: t < p.term && Chosen(cfg, log, p.(term := t))
  }

  lemma HasInitGrows(log: seq<Msg>, log': seq<Msg>, p: Point)
    requires log <= log' && HasInit(log, p)
    ensures HasInit(log', p)
  {
    var k :| 0 <= k < |log| && Proposes(log[k], p);
    assert log'[k] == log[k];
  }

  lemma ChosenGrows(cfg: Config, log: seq<Msg>, log': seq<Msg>, p: Point)
    requires log <= log' && Chosen(cfg, log, p)
    ensures Chosen(cfg, log', p)
  {
    assert Committers(cfg, log, p) <= Committers(cfg, log', p);
    SubsetSize(Committers(cfg, log, p), Committers(cfg, log', p));
  }

  // ---------------------------------------------------------- justification

  /** What entitles a leader to propose x: a quorum of votes for the term, m the
      greatest votie among them, and a committed top that x extends. When m is above
      the top and not the top block itself, x must re-propose m's block. */
  ghost predicate Supported(cfg: Config, pre: seq<Msg>, x: InitMsg,
                            votes: map<NodeId, Vote>, top: Point, m: Votie) {
    && votes.Keys <= cfg.Nodes() && |votes.Keys| >= cfg.QuorumN()
    && (forall i :: i in votes ==>
          votes[i].nodeId == i && votes[i].term == x.term && VoteM(votes[i]) in pre)
    && IsMaxVotie(votes, m)
    && Settled(cfg, pre, top)
    && x.height == top.height + 1 == Ht(x.block)
    && Committable(x.block) && x.block.prev == top.block
    && (Below(top, VotiePoint(m)) && m.block != top.block ==> x.block == m.block)
  }

  ghost predicate HasSupport(cfg: Config, pre: seq<Msg>, x: InitMsg) {
    exists votes, top, m :: Supported(cfg, pre, x, votes, top, m)
  }

  /** The proposer is supported and made no other proposal at this term and height. */
  ghost predicate InitOk(cfg: Config, pre: seq<Msg>, x: InitMsg) {
    && cfg.Valid() && x.nodeId == LeaderOf(cfg.normal, x.term)
    && HasSupport(cfg, pre, x)
    && (forall y :: InitM(y) in pre && y.term == x.term && y.height == x.height ==> y == x)
  }

  ghost predicate PrepareOk(pre: seq<Msg>, p: PrepareMsg) { HasInit(pre, PreparePoint(p)) }

  /** The sender has voted in no later term. */
  ghost predicate CommitOk(cfg: Config, pre: seq<Msg>, c: CommitMsg) {
    && c.nodeId in cfg.Nodes()
    && HasInit(pre, CommitPoint(c))
    && (forall v :: VoteM(v) in pre && v.nodeId == c.nodeId ==> v.term <= c.term)
  }

  /** The votie is at least as high as every commit the voter sent in an earlier
      term, unless that block had already been chosen in a still earlier term. */
  ghost predicate VoteOk(cfg: Config, pre: seq<Msg>, v: Vote) {
    && v.nodeId in cfg.Nodes()
    && (VotiePoint(v.votie) == GENESIS_POINT || HasInit(pre, VotiePoint(v.votie)))
    && (forall c :: CommitM(c) in pre && c.nodeId == v.nodeId && c.term < v.term ==>
          !Below(VotiePoint(v.votie), CommitPoint(c)) || ChosenBefore(cfg, pre, CommitPoint(c)))
  }

  ghost predicate MsgOk(cfg: Config, pre: seq<Msg>, m: Msg) {
    match m
    case InitM(x) => InitOk(cfg, pre, x)
    case PrepareM(p) => PrepareOk(pre, p)
    case CommitM(c) => CommitOk(cfg, pre, c)
    case VoteM(v) => VoteOk(cfg, pre, v)
    case PackM(p) => Settled(cfg, pre, PackPoint(p))
    case WeakM(_) => true
    case StrongM(_) => true
  }

  ghost predicate LogOk(cfg: Config, log: seq<Msg>) {
    forall k :: 0 <= k < |log| ==> MsgOk(cfg, log[..k], log[k])
  }

  // ------------------------------------------------------------ consequences

  lemma InitsHaveHeight(cfg: Config, log: seq<Msg>, p: Point)
    requires LogOk(cfg, log) && HasInit(log, p)
    ensures p.height == Ht(p.block) >= 1 && Committable(p.block)
  {
    var k :| 0 <= k < |log| && Proposes(log[k], p);
    var votes, top, m :| Supported(cfg, log[..k], log[k].init, votes, top, m);
  }

  /** One proposal per term and height. */
  lemma ProposalsUnique(cfg: Config, log: seq<Msg>, x: InitMsg, y: InitMsg)
    requires LogOk(cfg, log) && InitM(x) in log && InitM(y) in log
    requires x.term == y.term && x.height == y.height
    ensures x == y
  {
    var j :| 0 <= j < |log| && log[j] == InitM(x);
    var k :| 0 <= k < |log| && log[k] == InitM(y);
    if j < k {
      assert log[..k][j] == InitM(x);
    } else if k < j {
      assert log[..j][k] == InitM(y);
    }
  }

  lemma InitsUnique(cfg: Config, log: seq<Msg>, p: Point, q: Point)
    requires LogOk(cfg, log) && HasInit(log, p) && HasInit(log, q)
    requires p.term == q.term && p.height == q.height
    ensures p == q
  {
    var j :| 0 <= j < |log| && Proposes(log[j], p);
    var k :| 0 <= k < |log| && Proposes(log[k], q);
    ProposalsUnique(cfg, log, log[j].init, log[k].init);
  }

  lemma CommitHasInit(cfg: Config, log: seq<Msg>, p: Point, i: NodeId)
    requires LogOk(cfg, log) && Commit(p, i) in log
    ensures HasInit(log, p)
  {
    var k :| 0 <= k < |log| && log[k] == Commit(p, i);
    HasInitGrows(log[..k], log, p);
  }

  lemma ChosenHasInit(cfg: Config, log: seq<Msg>, p: Point)
    requires cfg.Valid() && LogOk(cfg, log) && Chosen(cfg, log, p)
    ensures HasInit(log, p)
  {
    cfg.Sizes();
    assert Committers(cfg, log, p) != {};
    var i :| i in Committers(cfg, log, p);
    CommitHasInit(cfg, log, p, i);
  }

  lemma PrefixOk(cfg: Config, log: seq<Msg>, k: nat)
    requires LogOk(cfg, log) && k <= |log|
    ensures LogOk(cfg, log[..k])
  {
    forall j | 0 <= j < k ensures MsgOk(cfg, log[..k][..j], log[..k][j]) {
      assert log[..k][..j] == log[..j];
    }
  }

  lemma CommitAfterVote(cfg: Config, log: seq<Msg>, j: nat, c: nat, v: Vote, p: Point)
    requires LogOk(cfg, log) && j < c < |log|
    requires log[j] == VoteM(v) && log[c] == Commit(p, v.nodeId)
    ensures v.term <= p.term
  {
    assert MsgOk(cfg, log[..c], log[c]);
    assert log[..c][j] == VoteM(v);
  }

  lemma VoteWasOk(cfg: Config, log: seq<Msg>, j: nat, v: Vote)
    requires LogOk(cfg, log) && j < |log| && log[j] == VoteM(v)
    ensures VoteOk(cfg, log[..j], v)
  {
    assert MsgOk(cfg, log[..j], log[j]);
  }

  lemma VoteAfterCommit(cfg: Config, log: seq<Msg>, c: nat, j: nat, v: Vote, p: Point)
    requires LogOk(cfg, log) && c < j < |log| && p.term < v.term
    requires log[j] == VoteM(v) && log[c] == Commit(p, v.nodeId)
    ensures !Below(VotiePoint(v.votie), p) || ChosenBefore(cfg, log, p)
  {
    hide LogOk, HasInit, Chosen, Below;
    VoteWasOk(cfg, log, j, v);
    assert log[..j][c] == Commit(p, v.nodeId);
    if ChosenBefore(cfg, log[..j], p) {
      var t: nat :| t < p.term && Chosen(cfg, log[..j], p.(term := t));
      ChosenGrows(cfg, log[..j], log, p.(term := t));
    }
  }

  /** A voter for a term who also committed p in an earlier term reported a votie at
      least as high as p, unless p's block was chosen even before. */
  lemma VoterReports(cfg: Config, log: seq<Msg>, p: Point, i: NodeId, v: Vote)
    requires LogOk(cfg, log) && Commit(p, i) in log && VoteM(v) in log
    requires v.nodeId == i && p.term < v.term
    ensures !Below(VotiePoint(v.votie), p) || ChosenBefore(cfg, log, p)
  {
    hide LogOk, ChosenBefore;
    var c :| 0 <= c < |log| && log[c] == Commit(p, i);
    var j :| 0 <= j < |log| && log[j] == VoteM(v);
    if j < c {
      CommitAfterVote(cfg, log, j, c, v, p);
    } else {
      VoteAfterCommit(cfg, log, c, j, v, p);
    }
  }

  lemma CommittedVoter(cfg: Config, log: seq<Msg>, p: Point, votes: map<NodeId, Vote>) returns (i: NodeId)
    requires cfg.Valid() && Chosen(cfg, log, p)
    requires votes.Keys <= cfg.Nodes() && |votes.Keys| >= cfg.QuorumN()
    ensures i in votes && Commit(p, i) in log
  {
    cfg.Sizes();
    i := CommonMember(cfg.Nodes(), Committers(cfg, log, p), votes.Keys);
  }

  lemma MaxVotieReports(votes: map<NodeId, Vote>, m: Votie, i: NodeId, p: Point)
    requires IsMaxVotie(votes, m) && i in votes && !Below(VotiePoint(votes[i].votie), p)
    ensures !Below(VotiePoint(m), p)
  {
  }

  lemma ProposalWasOk(cfg: Config, log: seq<Msg>, k: nat)
    requires LogOk(cfg, log) && k < |log| && log[k].InitM?
    ensures InitOk(cfg, log[..k], log[k].init)
  {
    assert MsgOk(cfg, log[..k], log[k]);
  }

  /** Carry-forward: once p is chosen, every proposal of a later term is higher than p
      or proposes p's own block. By induction on the position of the proposal. */
  lemma {:induction false} CarryForward(cfg: Config, log: seq<Msg>, p: Point, k: nat)
    requires cfg.Valid() && LogOk(cfg, log) && Chosen(cfg, log, p)
    requires k < |log| && log[k].InitM? && p.term < log[k].init.term
    ensures log[k].init.height >= p.height
    ensures log[k].init.height == p.height ==> log[k].init.block == p.block
    decreases k, p.term
  {
    hide LogOk, HasInit, Chosen, Below, MsgOk, IsMaxVotie, Settled, Config.QuorumN, Config.Valid, Config.Nodes;
    var x := log[k].init;
    var pre := log[..k];
    ProposalWasOk(cfg, log, k);
    var votes, top, m :| Supported(cfg, pre, x, votes, top, m);
    var i := CommittedVoter(cfg, log, p, votes);
    assert VoteM(votes[i]) in pre;
    VoterReports(cfg, log, p, i, votes[i]);
    if ChosenBefore(cfg, log, p) {
      var t: nat :| t < p.term && Chosen(cfg, log, p.(term := t));
      CarryForward(cfg, log, p.(term := t), k);
    } else {
      MaxVotieReports(votes, m, i, p);
      ChosenHasInit(cfg, log, p);
      InitsHaveHeight(cfg, log, p);
      ReportedVotie(cfg, log, p, k, votes, m);
      SettledTop(cfg, log, p, k, top, m);
    }
  }

  /** A votie above genesis was proposed before the vote carrying it was sent. */
  lemma VotieWasProposed(cfg: Config, log: seq<Msg>, k: nat, v: Vote) returns (a: nat)
    requires LogOk(cfg, log) && k <= |log| && VoteM(v) in log[..k]
    requires VotiePoint(v.votie) != GENESIS_POINT
    ensures a < k && Proposes(log[a], VotiePoint(v.votie))
    ensures v.votie.height == Ht(v.votie.block)
  {
    var j :| 0 <= j < k && log[j] == VoteM(v);
    assert MsgOk(cfg, log[..j], log[j]);
    a :| 0 <= a < j && Proposes(log[..j][a], VotiePoint(v.votie));
    assert log[a] == log[..j][a];
    InitsHaveHeight(cfg, log, VotiePoint(v.votie));
  }

  /** The votie the leader followed is p's block or a higher one. */
  lemma {:induction false} ReportedVotie(cfg: Config, log: seq<Msg>, p: Point, k: nat, votes: map<NodeId, Vote>,
                                         m: Votie)
    requires cfg.Valid() && LogOk(cfg, log) && Chosen(cfg, log, p) && HasInit(log, p)
    requires k < |log| && log[k].InitM? && p.term < log[k].init.term && p.height >= 1
    requires IsMaxVotie(votes, m) && forall i :: i in votes ==> VoteM(votes[i]) in log[..k]
    requires !Below(VotiePoint(m), p)
    ensures m.height >= p.height && (m.height == p.height ==> m.block == p.block)
    ensures m.height == Ht(m.block)
    decreases k, p.term, 0
  {
    var i :| i in votes && votes[i].votie == m;
    var a := VotieWasProposed(cfg, log, k, votes[i]);
    if m.term > p.term {
      CarryForward(cfg, log, p, a);
    } else if m.height == p.height {
      InitsUnique(cfg, log, p, VotiePoint(m));
    }
  }

  lemma ChosenProposal(cfg: Config, log: seq<Msg>, k: nat, top: Point) returns (a: nat)
    requires cfg.Valid() && LogOk(cfg, log) && k <= |log| && Chosen(cfg, log[..k], top)
    ensures a < k && Proposes(log[a], top) && top.height == Ht(top.block)
  {
    hide LogOk, Chosen, Config.Valid;
    PrefixOk(cfg, log, k);
    ChosenHasInit(cfg, log[..k], top);
    InitsHaveHeight(cfg, log[..k], top);
    a :| 0 <= a < k && Proposes(log[..k][a], top);
    assert log[a] == log[..k][a];
  }

  /** The top the proposal extends is at p's height or above it, unless the votie is
      above the top. */
  lemma {:induction false} SettledTop(cfg: Config, log: seq<Msg>, p: Point, k: nat, top: Point, m: Votie)
    requires cfg.Valid() && LogOk(cfg, log) && Chosen(cfg, log, p)
    requires k < |log| && log[k].InitM? && p.term < log[k].init.term && p.height >= 1
    requires Settled(cfg, log[..k], top)
    requires !Below(VotiePoint(m), p)
    ensures Below(top, VotiePoint(m)) || top.height >= p.height
    ensures top.height == Ht(top.block)
    decreases k, p.term, 0
  {
    hide LogOk, Chosen, HasInit, Config.Valid;
    if Chosen(cfg, log[..k], top) {
      var a := ChosenProposal(cfg, log, k, top);
      if top.term > p.term { CarryForward(cfg, log, p, a); }
    }
  }

  /** No two nodes can ever commit different blocks at one height. */
  lemma Agreement(cfg: Config, log: seq<Msg>, p: Point, q: Point)
    requires cfg.Valid() && LogOk(cfg, log)
    requires Settled(cfg, log, p) && Settled(cfg, log, q) && p.height == q.height
    ensures p.block == q.block
  {
    if Chosen(cfg, log, p) { ChosenHasInit(cfg, log, p); InitsHaveHeight(cfg, log, p); }
    if Chosen(cfg, log, q) { ChosenHasInit(cfg, log, q); InitsHaveHeight(cfg, log, q); }
    if p.height > 0 {
      if p.term == q.term {
        InitsUnique(cfg, log, p, q);
      } else if p.term < q.term {
        LaterChoice(cfg, log, p, q);
      } else {
        LaterChoice(cfg, log, q, p);
      }
    }
  }

  lemma LaterChoice(cfg: Config, log: seq<Msg>, p: Point, q: Point)
    requires cfg.Valid() && LogOk(cfg, log)
    requires Chosen(cfg, log, p) && Chosen(cfg, log, q) && p.term < q.term
    ensures q.height >= p.height && (q.height == p.height ==> q.block == p.block)
  {
    ChosenHasInit(cfg, log, q);
    var k :| 0 <= k < |log| && Proposes(log[k], q);
    CarryForward(cfg, log, p, k);
  }

  /** A block settled above another was settled in no earlier term. */
  lemma TermsFollowHeights(cfg: Config, log: seq<Msg>, p: Point, q: Point)
    requires cfg.Valid() && LogOk(cfg, log)
    requires Settled(cfg, log, p) && Settled(cfg, log, q) && p.height < q.height
    ensures p.term <= q.term
  {
    if q.term < p.term { LaterChoice(cfg, log, q, p); }
  }
}
