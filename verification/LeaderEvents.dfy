/** When leadership is announced and given up, which votes count, and what a leader proposes. */
module LeaderEvents {
  import opened ClusterParams
  import opened Protocol
  import opened NodeSpec
  import opened NodeInvariant
  import opened NodeEvents
  import opened LeaderSpec

  // ------------------------------------------------------------ announcements

  /** A reaction announces leadership exactly when it gains it for the term it ends in, and
      retirement exactly when a new term takes it away; one event at most. */
  ghost predicate Announcing(cfg: Config, me: NodeId, ld: Leader, ld': Leader, events: seq<LeaderEvent>)
    requires cfg.Valid()
  {
    && ld.term <= ld'.term && |events| <= 1
    && (forall t :: BecomeLeader(t) in events <==>
          t == ld'.term && InCharge(cfg, me, ld') && !(ld.term == t && InCharge(cfg, me, ld)))
    && (forall t :: Retire(t) in events <==>
          t == ld'.term && ld.term < t && InCharge(cfg, me, ld) && !InCharge(cfg, me, ld'))
  }

  lemma OneMember(e: LeaderEvent)
    ensures forall f :: f in [e] <==> f == e
  {
  }

  lemma ScanAnnounces(cfg: Config, me: NodeId, ld: Leader, top: Pack)
    requires cfg.Valid()
    ensures var r := ScanVotePool(cfg, me, ld, top);
            && r.0.term == ld.term && (InCharge(cfg, me, ld) ==> InCharge(cfg, me, r.0))
            && r.1 == if InCharge(cfg, me, r.0) && !InCharge(cfg, me, ld) then [BecomeLeader(ld.term)] else []
  {
    hide LeaderOf, CountedVotes, CurrentRows, Config.QuorumN;
  }

  lemma NoVotesNoCharge(cfg: Config, me: NodeId, ld: Leader)
    requires cfg.Valid() && ld.votes == map[]
    ensures !InCharge(cfg, me, ld)
  {
    hide LeaderOf, Config.QuorumN;
    cfg.Sizes();
  }

  lemma ReactAnnounces(cfg: Config, me: NodeId, ld: Leader, x: LeaderInput)
    requires cfg.Valid()
    ensures Announcing(cfg, me, ld, React(cfg, me, ld, x).0, React(cfg, me, ld, x).1)
  {
    hide LeaderOf, ScanVotePool, PoolRow, Config.QuorumN, Config.Valid;
    OneMember(BecomeLeader(React(cfg, me, ld, x).0.term));
    OneMember(Retire(React(cfg, me, ld, x).0.term));
    match x
    case GotTerm(t, top) =>
      var ld1 := ld.(term := t, votes := map[], initing := None);
      ScanAnnounces(cfg, me, ld1, top);
      NoVotesNoCharge(cfg, me, ld1);
    case GotVote(v, top) =>
      ScanAnnounces(cfg, me, ld.(pool := ld.pool[v.term := PoolRow(ld.pool, v.term)[v.nodeId := v]]), top);
    case GotCommitted(_, top) =>
      ScanAnnounces(cfg, me, ld, top);
    case Proposed(_) =>
  }

  lemma AfterOne(cfg: Config, me: NodeId, term: nat, xs: seq<LeaderInput>, k: nat)
    requires cfg.Valid() && k < |xs|
    ensures LeaderAfter(cfg, me, term, xs[..k + 1]) == React(cfg, me, LeaderAfter(cfg, me, term, xs[..k]), xs[k]).0
  {
    assert xs[..k + 1][..k] == xs[..k];
  }

  lemma NoneAtStart(cfg: Config, me: NodeId, term: nat, xs: seq<LeaderInput>)
    requires cfg.Valid()
    ensures !InCharge(cfg, me, LeaderAfter(cfg, me, term, xs[..0]))
  {
    NoVotesNoCharge(cfg, me, NewLeader(term));
  }

  /** Whoever is in charge of a term has announced it. */
  lemma {:induction false} GainedWasAnnounced(cfg: Config, me: NodeId, term: nat, xs: seq<LeaderInput>, n: nat)
    returns (k: nat)
    requires cfg.Valid() && n <= |xs| && InCharge(cfg, me, LeaderAfter(cfg, me, term, xs[..n]))
    ensures k < n && Announces(cfg, me, term, xs, k, LeaderAfter(cfg, me, term, xs[..n]).term)
    ensures forall t :: Announces(cfg, me, term, xs, k, t) ==> t == LeaderAfter(cfg, me, term, xs[..n]).term
    decreases n
  {
    hide React, InCharge, LeaderAfter, Config.Valid;
    if n == 0 {
      NoneAtStart(cfg, me, term, xs);
    } else {
      AfterOne(cfg, me, term, xs, n - 1);
      var was, now := LeaderAfter(cfg, me, term, xs[..n - 1]), LeaderAfter(cfg, me, term, xs[..n]);
      ReactAnnounces(cfg, me, was, xs[n - 1]);
      if was.term == now.term && InCharge(cfg, me, was) {
        k := GainedWasAnnounced(cfg, me, term, xs, n - 1);
      } else {
        k := n - 1;
      }
    }
  }

  /** Over any inputs, a term in which the node comes to be in charge is announced exactly
      once, and no other term is. */
  lemma AnnouncedExactlyOnce(cfg: Config, me: NodeId, term: nat, xs: seq<LeaderInput>, t: nat)
    requires cfg.Valid()
    ensures (exists k :: 0 <= k < |xs| && Announces(cfg, me, term, xs, k, t))
            <==> exists n :: 0 <= n <= |xs| && Leads(cfg, me, term, xs, n, t)
    ensures forall j, k ::
              0 <= j < |xs| && 0 <= k < |xs| && Announces(cfg, me, term, xs, j, t) && Announces(cfg, me, term, xs, k, t)
              ==> j == k
  {
    hide InCharge, LeaderAfter, React;
    if n: nat :| n <= |xs| && Leads(cfg, me, term, xs, n, t) {
      var k := GainedWasAnnounced(cfg, me, term, xs, n);
    }
    if k: nat :| k < |xs| && Announces(cfg, me, term, xs, k, t) {
      AfterOne(cfg, me, term, xs, k);
      ReactAnnounces(cfg, me, LeaderAfter(cfg, me, term, xs[..k]), xs[k]);
      assert Leads(cfg, me, term, xs, k + 1, t);
    }
    forall j: nat, k: nat | j < |xs| && k < |xs| && Announces(cfg, me, term, xs, j, t)
                            && Announces(cfg, me, term, xs, k, t)
      ensures j == k
    {
      if j < k { LeaderOncePerTerm(cfg, me, term, xs, j, k, t); }
      if k < j { LeaderOncePerTerm(cfg, me, term, xs, k, j, t); }
    }
  }

  /** After n inputs the node is in charge of term t. */
  predicate Leads(cfg: Config, me: NodeId, term: nat, xs: seq<LeaderInput>, n: nat, t: nat)
    requires cfg.Valid() && n <= |xs|
  {
    LeaderAfter(cfg, me, term, xs[..n]).term == t && InCharge(cfg, me, LeaderAfter(cfg, me, term, xs[..n]))
  }

  // ------------------------------------------------------------- which votes

  /** The votie may be carried forward on this top: it is below it, is it, or connects it. */
  predicate Fits(v: Votie, top: Pack) {
    || RankLess(v.term, v.height, top.init.term, top.init.height)
    || v.block == top.init.block
    || (v.block.Block? && v.block.prev == top.init.block)
  }

  predicate InPool(pool: map<nat, map<NodeId, Vote>>, t: nat, i: NodeId) { t in pool && i in pool[t] }

  /** The votes counted after a scan: those counted before and, unless the node was in
      charge already, every pooled vote of the term that fits the top. */
  ghost predicate VotesAre(votes: map<NodeId, Vote>, was: map<NodeId, Vote>, scanned: bool, term: nat,
                           pool: map<nat, map<NodeId, Vote>>, top: Pack) {
    && (forall i :: i in votes <==> i in was || (scanned && InPool(pool, term, i) && Fits(pool[term][i].votie, top)))
    && (forall i :: i in votes ==> votes[i] == if i in was then was[i] else pool[term][i])
  }

  /** The rows of the pool from a term on. */
  ghost predicate RowsFrom(pool: map<nat, map<NodeId, Vote>>, was: map<nat, map<NodeId, Vote>>, term: nat) {
    && (forall u :: u in pool <==> u >= term && u in was)
    && (forall u :: u in pool ==> pool[u] == was[u])
  }

  lemma CountsAre(ld: Leader, pool: map<nat, map<NodeId, Vote>>, top: Pack)
    requires RowsFrom(pool, ld.pool, ld.term)
    ensures VotesAre(CountedVotes(ld.(pool := pool), top) + ld.votes, ld.votes, true, ld.term, pool, top)
  {
  }

  lemma RowsKept(ld: Leader)
    ensures RowsFrom(CurrentRows(ld), ld.pool, ld.term)
  {
  }

  lemma SameVotes(ld: Leader, pool: map<nat, map<NodeId, Vote>>, top: Pack)
    ensures VotesAre(ld.votes, ld.votes, false, ld.term, pool, top)
  {
  }

  lemma ScanCounts(cfg: Config, me: NodeId, ld: Leader, top: Pack)
    requires cfg.Valid()
    ensures var r := ScanVotePool(cfg, me, ld, top).0;
            && r.term == ld.term && r.initing == ld.initing && RowsFrom(r.pool, ld.pool, ld.term)
            && VotesAre(r.votes, ld.votes, !InCharge(cfg, me, ld), ld.term, r.pool, top)
  {
    hide LeaderOf, CountedVotes, CurrentRows, VotesAre, RowsFrom, Config.QuorumN, Config.Valid;
    RowsKept(ld);
    CountsAre(ld, CurrentRows(ld), top);
    SameVotes(ld, CurrentRows(ld), top);
  }

  /** A vote of the present term or one of the next five hundred replaces the one pooled for
      its term and sender, earlier terms' votes go, and the term's votes are counted. Any
      other vote is ignored. */
  lemma VoteTakenIff(cfg: Config, me: NodeId, ld: Leader, v: Vote, top: Pack)
    requires cfg.Valid()
    ensures var r := AddVote(cfg, me, ld, v, top).0;
            && r.term == ld.term && r.initing == ld.initing
            && (if !(ld.term <= v.term <= ld.term + 500) then r == ld
                else
                  && (forall t: nat, i: nat :: InPool(r.pool, t, i) <==>
                        (t == v.term && i == v.nodeId) || (t >= ld.term && InPool(ld.pool, t, i)))
                  && (forall t: nat, i: nat :: InPool(r.pool, t, i) ==>
                        r.pool[t][i] == if t == v.term && i == v.nodeId then v else ld.pool[t][i])
                  && VotesAre(r.votes, ld.votes, !InCharge(cfg, me, ld), ld.term, r.pool, top))
  {
    hide LeaderOf, ScanVotePool, VotesAre, Config.QuorumN, Config.Valid;
    ScanCounts(cfg, me, ld.(pool := ld.pool[v.term := PoolRow(ld.pool, v.term)[v.nodeId := v]]), top);
  }

  /** A later term drops the votes and the proposal of the present one and counts what has
      been pooled for it; an earlier term changes nothing. */
  lemma TermTakenIff(cfg: Config, me: NodeId, ld: Leader, t: nat, top: Pack)
    requires cfg.Valid()
    ensures var r := UpdateTerm(cfg, me, ld, t, top).0;
            if t <= ld.term then r == ld
            else r.term == t && r.initing.None? && RowsFrom(r.pool, ld.pool, t)
                 && VotesAre(r.votes, map[], true, t, r.pool, top)
  {
    hide LeaderOf, ScanVotePool, VotesAre, InCharge, Config.QuorumN, Config.Valid;
    var ld1 := ld.(term := t, votes := map[], initing := None);
    NoVotesNoCharge(cfg, me, ld1);
    ScanCounts(cfg, me, ld1, top);
  }

  /** A committed block ends the leader's own proposal when that is the block; otherwise a
      leader goes on as it is, and a node not in charge counts again with the new top. */
  lemma CommitTakenIff(cfg: Config, me: NodeId, ld: Leader, committed: Pack, top: Pack)
    requires cfg.Valid()
    ensures var r := OnCommitted(cfg, me, ld, committed, top).0;
            && r.term == ld.term
            && (if InCharge(cfg, me, ld)
                then r == ld.(initing := if ld.initing.Some? && ld.initing.value.block == committed.init.block
                                         then None else ld.initing)
                else r.initing == ld.initing && RowsFrom(r.pool, ld.pool, ld.term)
                     && VotesAre(r.votes, ld.votes, true, ld.term, r.pool, top))
  {
    hide LeaderOf, ScanVotePool, VotesAre, InCharge, RowsFrom, Config.QuorumN, Config.Valid;
    ScanCounts(cfg, me, ld, top);
  }

  // --------------------------------------------------------------- proposals

  /** The votes show a block above the top that has to be proposed again. */
  predicate Owes(m: Votie, top: Pack) {
    RankLess(top.init.term, top.init.height, m.term, m.height) && m.block != top.init.block
  }

  /** A PROPOSAL IS WHAT WAS ASKED. It is refused exactly when the node's term has moved on,
      a block is pending, the owed block does not connect the top, or nothing is owed and
      no contents are given. Otherwise it is of the leader's term, at the next height, and
      its block is the owed one or, with nothing owed, one on the top with exactly the given
      time and contents. It carries all the leader's votes when it is the first of its term
      or follows the votie's block, and none else. */
  lemma ProposalIsAsked(me: NodeId, s: Node, ld: Leader, m: Votie, timestampMs: int, body: Option<Body>)
    requires s.chain != []
    ensures var o, top := TryCreateBlock(me, s, ld, m, timestampMs, body), s.Top();
            && (o.None? <==>
                  || s.term != ld.term || s.freshPack.Some?
                  || (Owes(m, top) && !(m.block.Block? && m.block.prev == top.init.block))
                  || (!Owes(m, top) && body.None?))
            && (o.Some? ==>
                  var x := o.value;
                  && x.term == ld.term && x.height == top.init.height + 1 && x.nodeId == me
                  && x.block.Block? && x.block.prev == top.init.block
                  && (Owes(m, top) ==> x.block == m.block)
                  && (!Owes(m, top) ==> x.block.timestampMs == timestampMs && body == Some(x.block.body))
                  && x.votes == if top.init.term < ld.term || x.block.prev == m.block then ld.votes else map[])
  {
  }

  /** The votie is of the top's term and height and names neither block. */
  predicate Rivals(m: Votie, top: Pack, proposed: Block) {
    m.term == top.init.term && m.height == top.init.height && m.block != top.init.block && m.block != proposed
  }

  /** What a leader proposes, a node of its term with the same top and no objection to the
      contents takes up, exactly when the top is of the same term, or of an earlier one
      and no rival of the votie the leader followed. */
  lemma ProposalIsTakenUp(cfg: Config, me: NodeId, s: Node, ld: Leader, m: Votie, timestampMs: int,
                          body: Option<Body>, t: Node)
    requires cfg.Valid() && s.chain != [] && TryCreateBlock(me, s, ld, m, timestampMs, body).Some?
    requires |ld.votes| >= cfg.QuorumN()
    requires NodeInv(t) && t.chain != [] && t.term == ld.term && t.Top().init == s.Top().init
    ensures t.Keyed()
    ensures var x := TryCreateBlock(me, s, ld, m, timestampMs, body).value;
            var o := HandleInit(cfg, t, x, Verdict.Valid, true, Some(m));
            o.Done? && (HasInited(o.events) <==>
                          s.Top().init.term == ld.term
                          || (s.Top().init.term < ld.term && !Rivals(m, s.Top(), x.block)))
  {
    hide NodeInv, HandleInit, TryCreateBlock, Config.QuorumN, Config.Valid, Node.Keyed;
    var x := TryCreateBlock(me, s, ld, m, timestampMs, body).value;
    ProposalIsAsked(me, s, ld, m, timestampMs, body);
    InitAcceptedIff(cfg, t, x, Verdict.Valid, true, Some(m));
    assert Acceptable(cfg, t, x, Verdict.Valid, true, Some(m))
           <==> HasInited(HandleInit(cfg, t, x, Verdict.Valid, true, Some(m)).events);
  }
}
