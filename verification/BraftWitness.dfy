/** A run of four nodes, step by step. A term is accused and left, a leader elected, a block
    proposed, prepared and committed: the safety theorems are not about nothing. And a vote
    is sent whose votie is of a later term than the vote, which its receiver refuses. */
module BraftWitness {
  import opened ClusterParams
  import opened Protocol
  import opened MsgValidation
  import opened NodeSpec
  import opened NodeInvariant
  import opened LeaderSpec
  import opened MessageLog
  import opened Braft
  import opened BraftSteps
  import opened BraftSafety
  import opened FourNodes

  // ------------------------------------------------------------ building runs

  ghost predicate Reached(c: Cluster) {
    FOUR.Valid() && exists run :: IsRun(FOUR, run) && run[|run| - 1] == c
  }

  lemma Start() returns (c: Cluster)
    ensures Reached(c) && c.log == [] && |c.reps| == 4
    ensures forall i :: 0 <= i < 4 ==> c.reps[i] == InitReplica()
  {
    FourAreValid();
    c := InitCluster(FOUR);
    assert IsRun(FOUR, [c]);
    assert [c][|[c]| - 1] == c;
  }

  lemma LongerRun(run: seq<Cluster>, c': Cluster)
    requires FOUR.Valid() && IsRun(FOUR, run) && Steps(FOUR, run[|run| - 1], c')
    ensures Reached(c')
  {
    hide Steps, Config.Valid;
    var run' := run + [c'];
    forall j, k | 0 <= j < |run'| && 0 <= k < |run'| && k == j + 1 ensures Steps(FOUR, run'[j], run'[k]) {
      if k < |run| { assert run'[j] == run[j] && run'[k] == run[k]; }
    }
    assert IsRun(FOUR, run') && run'[|run'| - 1] == c';
  }

  lemma RunTo(c: Cluster) returns (run: seq<Cluster>)
    requires Reached(c)
    ensures FOUR.Valid() && IsRun(FOUR, run) && run != [] && run[|run| - 1] == c
  {
    hide Steps, Config.Valid;
    run :| IsRun(FOUR, run) && run[|run| - 1] == c;
  }

  /** Node i of a reached state can take a step. */
  lemma ReachedNode(c: Cluster, i: NodeId)
    requires Reached(c) && i < 4
    ensures FOUR.Valid() && |c.reps| == 4 && i in FOUR.Nodes() && c.reps[i].node.Keyed()
    ensures c.reps[i].node.chain != []
  {
    hide Reached, IsRun, ClusterInv, LogOk, RepInv, NodeInv, ChainInv, FreshInv, Config.Valid, Config.Nodes,
         Members;
    FourAreValid();
    var run := RunTo(c);
    RunInv(FOUR, run, |run| - 1);
    RunSize(FOUR, run, |run| - 1);
    EnabledNode(FOUR, c, i);
  }

  lemma NextOf(c: Cluster, i: NodeId, a: Action, r: Replica, sent: seq<Msg>)
    requires FOUR.Valid() && i < |c.reps| && c.reps[i].node.Keyed() && Enabled(FOUR, c, i, a)
    requires EffectOf(FOUR, c.reps[i], i, a) == Moved(r, sent)
    ensures Steps(FOUR, c, Cluster(c.reps[i := r], c.log + sent))
  {
    hide Enabled, EffectOf, Node.Keyed, Config.Valid;
    assert Next(FOUR, c, Cluster(c.reps[i := r], c.log + sent), i, a);
  }

  /** Taking one more step of node i. */
  lemma Go(c: Cluster, i: NodeId, a: Action, r: Replica, sent: seq<Msg>) returns (c': Cluster)
    requires Reached(c) && FOUR.Valid() && i < |c.reps| && c.reps[i].node.Keyed() && Enabled(FOUR, c, i, a)
    requires EffectOf(FOUR, c.reps[i], i, a) == Moved(r, sent)
    ensures Reached(c') && c' == Cluster(c.reps[i := r], c.log + sent)
  {
    hide Reached, IsRun, Steps, Enabled, EffectOf, Node.Keyed, Config.Valid;
    c' := Cluster(c.reps[i := r], c.log + sent);
    var run := RunTo(c);
    NextOf(c, i, a, r, sent);
    LongerRun(run, c');
  }

  /** After a handler's outcome at node i. */
  function Handling(c: Cluster, i: NodeId, o: Outcome): Cluster
    requires i < |c.reps| && o.Done?
  {
    Cluster(c.reps[i := c.reps[i].(node := o.node)], c.log + SendsAll(i, o.events))
  }

  lemma GoWeak(c: Cluster, i: NodeId, x: WeakAccuse, o: Outcome) returns (c': Cluster)
    requires Reached(c) && i < 4 == |c.reps| && WeakM(x) in c.log
    requires HandleWeak(FOUR, c.reps[i].node, x, {}) == o && o.Done?
    ensures Reached(c') && c' == Handling(c, i, o)
  {
    hide HandleWeak, Reached, SendsAll, Node.Keyed, Config.Nodes;
    ReachedNode(c, i);
    c' := Go(c, i, OnWeak(x, {}), c.reps[i].(node := o.node), SendsAll(i, o.events));
  }

  lemma GoStrong(c: Cluster, i: NodeId, x: StrongAccuse, o: Outcome) returns (c': Cluster)
    requires Reached(c) && i < 4 == |c.reps| && StrongM(x) in c.log
    requires HandleStrong(c.reps[i].node, x) == o && o.Done?
    ensures Reached(c') && c' == Handling(c, i, o)
  {
    hide HandleStrong, Reached, SendsAll, Node.Keyed, Config.Nodes;
    ReachedNode(c, i);
    c' := Go(c, i, OnStrong(x), c.reps[i].(node := o.node), SendsAll(i, o.events));
  }

  lemma GoInit(c: Cluster, i: NodeId, x: InitMsg, m: Option<Votie>, o: Outcome) returns (c': Cluster)
    requires Reached(c) && i < 4 == |c.reps| && InitM(x) in c.log && MaxAnswer(x.votes, m)
    requires c.reps[i].node.Keyed() && HandleInit(FOUR, c.reps[i].node, x, Verdict.Valid, true, m) == o && o.Done?
    ensures Reached(c') && c' == Handling(c, i, o)
  {
    hide HandleInit, Reached, SendsAll, Node.Keyed, Config.Nodes, MaxAnswer;
    ReachedNode(c, i);
    c' := Go(c, i, OnInit(x, Verdict.Valid, true, m), c.reps[i].(node := o.node), SendsAll(i, o.events));
  }

  lemma GoOwnInit(c: Cluster, i: NodeId, x: InitMsg, m: Option<Votie>, o: Outcome) returns (c': Cluster)
    requires Reached(c) && i < 4 == |c.reps| && c.reps[i].pending == {x} && MaxAnswer(x.votes, m)
    requires c.reps[i].node.Keyed() && HandleInit(FOUR, c.reps[i].node, x, Verdict.Valid, true, m) == o && o.Done?
    ensures Reached(c')
    ensures c' == Cluster(c.reps[i := c.reps[i].(node := o.node, pending := {})], c.log + SendsAll(i, o.events))
  {
    hide HandleInit, Reached, SendsAll, Node.Keyed, Config.Nodes, MaxAnswer;
    ReachedNode(c, i);
    assert c.reps[i].pending - {x} == {};
    c' := Go(c, i, OnOwnInit(x, Verdict.Valid, true, m), c.reps[i].(node := o.node, pending := {}),
             SendsAll(i, o.events));
  }

  lemma GoPrepare(c: Cluster, i: NodeId, x: PrepareMsg, o: Outcome) returns (c': Cluster)
    requires Reached(c) && i < 4 == |c.reps| && PrepareM(x) in c.log
    requires c.reps[i].node.Keyed() && HandlePrepare(FOUR, c.reps[i].node, x) == o && o.Done?
    ensures Reached(c') && c' == Handling(c, i, o)
  {
    hide HandlePrepare, Reached, SendsAll, Node.Keyed, Config.Nodes;
    ReachedNode(c, i);
    c' := Go(c, i, OnPrepare(x), c.reps[i].(node := o.node), SendsAll(i, o.events));
  }

  lemma GoCommit(c: Cluster, i: NodeId, x: CommitMsg, o: Outcome) returns (c': Cluster)
    requires Reached(c) && i < 4 == |c.reps| && CommitM(x) in c.log
    requires c.reps[i].node.Keyed() && HandleCommit(FOUR, c.reps[i].node, x) == o && o.Done?
    ensures Reached(c') && c' == Handling(c, i, o)
  {
    hide HandleCommit, Reached, SendsAll, Node.Keyed, Config.Nodes;
    ReachedNode(c, i);
    c' := Go(c, i, OnCommit(x), c.reps[i].(node := o.node), SendsAll(i, o.events));
  }

  /** Sending a weak accuse, and reading the term of a vote. */
  lemma GoQuietly(c: Cluster, i: NodeId, t: nat) returns (accused: Cluster, read: Cluster)
    requires Reached(c) && i < 4 == |c.reps|
    ensures Reached(accused) && accused == Cluster(c.reps[i := c.reps[i]], c.log + [WeakM(WeakAccuse(t, i))])
    ensures Reached(read) && read == Cluster(c.reps[i := c.reps[i].(voteTerm := Some(c.reps[i].node.term))], c.log)
  {
    hide Reached, Node.Keyed, Config.Nodes;
    ReachedNode(c, i);
    accused := Go(c, i, SendWeak(t), c.reps[i], [WeakM(WeakAccuse(t, i))]);
    read := Go(c, i, ReadVoteTerm, c.reps[i].(voteTerm := Some(c.reps[i].node.term)), []);
    assert c.log + [] == c.log;
  }

  lemma GoVote(c: Cluster, i: NodeId) returns (c': Cluster)
    requires Reached(c) && i < 4 == |c.reps| && c.reps[i].voteTerm.Some?
    ensures Reached(c')
    ensures c' == Cluster(c.reps[i := c.reps[i].(voteTerm := None)],
                          c.log + [VoteM(Vote(c.reps[i].voteTerm.value, c.reps[i].node.votie, i))])
  {
    hide Reached, Node.Keyed, Config.Nodes;
    ReachedNode(c, i);
    c' := Go(c, i, SendVote, c.reps[i].(voteTerm := None),
             [VoteM(Vote(c.reps[i].voteTerm.value, c.reps[i].node.votie, i))]);
  }

  // ------------------------------------------------------ leaving the first term

  /** Node 3 reads term 0 for its vote and stalls; nodes 0 and 1 accuse the term. */
  lemma Stall() returns (c: Cluster)
    ensures Reached(c) && WeakM(WeakAccuse(0, 0)) in c.log && WeakM(WeakAccuse(0, 1)) in c.log
    ensures c.reps == [InitReplica(), InitReplica(), InitReplica(), InitReplica().(voteTerm := Some(0))]
  {
    hide Reached;
    var start := Start();
    var _, c1 := GoQuietly(start, 3, 0);
    var c2, _ := GoQuietly(c1, 0, 0);
    var c3, _ := GoQuietly(c2, 1, 0);
    c := c3;
    assert c.log == [WeakM(WeakAccuse(0, 0)), WeakM(WeakAccuse(0, 1))];
    assert WeakM(WeakAccuse(0, 0)) == c.log[0] && WeakM(WeakAccuse(0, 1)) == c.log[1];
  }

  lemma AccuseSent()
    ensures SendsAll(2, []) == [] && SendsAll(2, [NewStrongAccuse(ACCUSE)]) == [StrongM(ACCUSE)]
  {
    SendsOfOne(2, NewStrongAccuse(ACCUSE));
  }

  lemma CountFirst() returns (c: Cluster)
    ensures Reached(c) && WeakM(WeakAccuse(0, 1)) in c.log
    ensures c.reps == [InitReplica(), InitReplica(), InitReplica().(node := Accusing(ACCUSED_BY_0)),
                       InitReplica().(voteTerm := Some(0))]
  {
    hide HandleWeak, Reached, SendsAll, Accusing, InitNode;
    FirstAccuse();
    AccuseSent();
    var c1 := Stall();
    c := GoWeak(c1, 2, WeakAccuse(0, 0), Done(Accusing(ACCUSED_BY_0), []));
    assert c.log == c1.log;
  }

  /** Node 2 receives both accuses. */
  lemma Accuse() returns (c: Cluster)
    ensures Reached(c) && StrongM(ACCUSE) in c.log
    ensures c.reps == [InitReplica(), InitReplica(), InitReplica().(node := Accusing(ACCUSED_BY_BOTH)),
                       InitReplica().(voteTerm := Some(0))]
  {
    hide HandleWeak, Reached, SendsAll, Accusing, InitReplica;
    SecondAccuse();
    AccuseSent();
    var c1 := CountFirst();
    c := GoWeak(c1, 2, WeakAccuse(0, 1), Done(Accusing(ACCUSED_BY_BOTH), [NewStrongAccuse(ACCUSE)]));
    assert c.log[|c.log| - 1] == StrongM(ACCUSE);
  }

  function Voter(): Replica { InitReplica().(node := Entered(Some(ACCUSE))) }

  /** A node takes the accuse, reads its new term and votes. */
  lemma EnterAndVote(c: Cluster, i: NodeId, weak: map<NodeId, WeakAccuse>) returns (c': Cluster)
    requires Reached(c) && StrongM(ACCUSE) in c.log && i < 4 == |c.reps|
    requires c.reps[i] == InitReplica().(node := Accusing(weak))
    ensures Reached(c') && c' == Cluster(c.reps[i := Voter()], c.log + [VoteM(VoteBy(i))])
  {
    hide HandleStrong, Reached, SendsAll, Accusing;
    TermLeft(weak);
    SendsOfTwo(i, NewTerm(1), StrongAccuseProcessed(ACCUSE));
    var c1 := GoStrong(c, i, ACCUSE, Done(Entered(Some(ACCUSE)), [NewTerm(1), StrongAccuseProcessed(ACCUSE)]));
    assert c1.reps[i] == Voter() && c1.log == c.log;
    var _, c2 := GoQuietly(c1, i, 0);
    c' := GoVote(c2, i);
    assert c'.reps == c.reps[i := Voter()];
  }

  // ------------------------------------------------------- electing a leader

  lemma GoTerm(c: Cluster, ld: Leader) returns (c': Cluster)
    requires Reached(c) && |c.reps| == 4 && c.reps[1].node == Entered(Some(ACCUSE)) && FOUR.Valid()
    requires ld == UpdateTerm(FOUR, 1, c.reps[1].leader, 1, GENESIS_PACK).0
    ensures Reached(c') && c' == Cluster(c.reps[1 := c.reps[1].(leader := ld)], c.log)
  {
    hide UpdateTerm, Reached, Node.Keyed, Config.Nodes, Entered;
    ReachedNode(c, 1);
    EnteredNode(Some(ACCUSE));
    c' := Go(c, 1, LeaderTerm(1), c.reps[1].(leader := ld), []);
    assert c.log + [] == c.log;
  }

  lemma GoCount(c: Cluster, i: NodeId, ld: Leader) returns (c': Cluster)
    requires Reached(c) && |c.reps| == 4 && c.reps[1].node == Entered(Some(ACCUSE)) && FOUR.Valid()
    requires i < 4 && VoteM(VoteBy(i)) in c.log
    requires ld == AddVote(FOUR, 1, c.reps[1].leader, VoteBy(i), GENESIS_PACK).0
    ensures Reached(c') && c' == Cluster(c.reps[1 := c.reps[1].(leader := ld)], c.log)
  {
    hide AddVote, ValidVote, Reached, Node.Keyed, Config.Nodes, Entered;
    ReachedNode(c, 1);
    VoteIsValid(i);
    EnteredNode(Some(ACCUSE));
    c' := Go(c, 1, LeaderVote(VoteBy(i)), c.reps[1].(leader := ld), []);
    assert c.log + [] == c.log;
  }

  /** Node 1 learns of the term and counts the three votes. */
  lemma Elect(c: Cluster) returns (c': Cluster)
    requires Reached(c) && |c.reps| == 4 && c.reps[1] == Voter()
    requires VoteM(VoteBy(0)) in c.log && VoteM(VoteBy(1)) in c.log && VoteM(VoteBy(2)) in c.log
    ensures Reached(c') && c' == Cluster(c.reps[1 := Voter().(leader := Counting(VOTES))], c.log)
  {
    hide UpdateTerm, AddVote, Reached, Counting, SomeVotes, Entered, VoteBy, NewLeader;
    VotesGrow();
    var none: map<NodeId, Vote> := map[];
    var one, two := none[0 := VoteBy(0)], none[0 := VoteBy(0)][1 := VoteBy(1)];
    TermLearnt();
    VoteCounted(none, 0);
    VoteCounted(one, 1);
    VoteCounted(two, 2);
    var c1 := GoTerm(c, Counting(none));
    assert c1.reps[1] == Voter().(leader := Counting(none));
    var c2 := GoCount(c1, 0, Counting(one));
    assert c2.reps[1] == Voter().(leader := Counting(one));
    var c3 := GoCount(c2, 1, Counting(two));
    assert c3.reps[1] == Voter().(leader := Counting(two));
    c' := GoCount(c3, 2, Counting(VOTES));
    assert c'.reps == c.reps[1 := Voter().(leader := Counting(VOTES))];
  }

  // ------------------------------------------------- proposing and preparing

  function Leading(): Replica { Voter().(leader := Counting(VOTES)) }

  function Proposing(): Replica {
    Leading().(leader := Counting(VOTES).(initing := Some(INIT)), pending := {INIT})
  }

  /** What proposing does to a leader that can: the new init waits to be handled. */
  function Proposed(r: Replica, x: InitMsg): Replica {
    r.(leader := r.leader.(initing := Some(x)), pending := {x})
  }

  lemma ProposeEffect(r: Replica, i: NodeId, m: Votie, ts: int, x: InitMsg)
    requires FOUR.Valid() && r.node.Keyed() && r.pending == {}
    requires TryCreateBlock(i, r.node, r.leader, m, ts, Some(TxsBody([]))) == Some(x)
    ensures EffectOf(FOUR, r, i, Propose(m, ts, Some(TxsBody([])))) == Moved(Proposed(r, x), [])
  {
    hide TryCreateBlock, Config.Valid, Node.Keyed;
    assert r.pending + {x} == {x};
  }

  lemma ProposeEnabled(c: Cluster, i: NodeId, m: Votie, ts: int)
    requires i < |c.reps| && FOUR.Valid() && i in FOUR.Nodes() && c.reps[i].node.chain != []
    requires InCharge(FOUR, i, c.reps[i].leader) && c.reps[i].leader.initing.None?
    requires IsMaxVotie(c.reps[i].leader.votes, m)
    ensures Enabled(FOUR, c, i, Propose(m, ts, Some(TxsBody([]))))
  {
    hide IsMaxVotie, InCharge, Config.Nodes, Config.Valid;
  }

  lemma GoPropose(c: Cluster, i: NodeId, m: Votie, ts: int, x: InitMsg) returns (c': Cluster)
    requires Reached(c) && i < 4 == |c.reps| && FOUR.Valid() && c.reps[i].node.chain != []
    requires InCharge(FOUR, i, c.reps[i].leader) && c.reps[i].leader.initing.None?
    requires IsMaxVotie(c.reps[i].leader.votes, m) && c.reps[i].pending == {}
    requires TryCreateBlock(i, c.reps[i].node, c.reps[i].leader, m, ts, Some(TxsBody([]))) == Some(x)
    ensures Reached(c') && c' == Cluster(c.reps[i := Proposed(c.reps[i], x)], c.log)
  {
    hide EffectOf, Enabled, TryCreateBlock, IsMaxVotie, InCharge, Reached, Node.Keyed, Config.Nodes, Config.Valid,
         Proposed;
    ReachedNode(c, i);
    ProposeEnabled(c, i, m, ts);
    ProposeEffect(c.reps[i], i, m, ts, x);
    c' := Go(c, i, Propose(m, ts, Some(TxsBody([]))), Proposed(c.reps[i], x), []);
    assert c.log + [] == c.log;
  }

  /** Node 1 proposes a block of term 1. */
  lemma ProposeBlock(c: Cluster) returns (c': Cluster)
    requires Reached(c) && |c.reps| == 4 && c.reps[1] == Leading()
    ensures Reached(c') && c' == Cluster(c.reps[1 := Proposing()], c.log)
  {
    hide TryCreateBlock, IsMaxVotie, Reached, InCharge, Entered;
    Leads();
    VotesAnswer();
    Created();
    c' := GoPropose(c, 1, GENESIS_VOTIE, 1, INIT);
  }

  lemma InitSends(i: NodeId)
    ensures SendsAll(i, [] + [NewInited(NEW_PACK)])
            == if i == 1 then [InitM(INIT), PrepareM(PrepareBy(1))] else [PrepareM(PrepareBy(i))]
    ensures SendsAll(i, [NewTerm(1)] + [NewInited(NEW_PACK)]) == SendsAll(i, [] + [NewInited(NEW_PACK)])
  {
    SendsOfOne(i, NewTerm(1));
    SendsOfOne(i, NewInited(NEW_PACK));
    SendsAppend(i, [NewTerm(1)], NewInited(NEW_PACK));
    SendsAppend(i, [], NewInited(NEW_PACK));
    assert Sends(i, NewTerm(1)) == [];
    assert [] + Sends(i, NewInited(NEW_PACK)) == Sends(i, NewInited(NEW_PACK));
  }

  /** The leader accepts and broadcasts its init. */
  lemma Broadcast(c: Cluster) returns (c': Cluster)
    requires Reached(c) && |c.reps| == 4 && c.reps[1] == Proposing()
    ensures Reached(c') && |c'.reps| == 4
    ensures c'.reps == c.reps[1 := Proposing().(node := Pending(Some(ACCUSE), map[]), pending := {})]
    ensures c'.log == c.log + [InitM(INIT), PrepareM(PrepareBy(1))]
  {
    hide HandleInit, Reached, SendsAll, Node.Keyed, IsMaxVotie, Pending, Entered;
    VotesAnswer();
    VoterAccepts();
    InitSends(1);
    c' := GoOwnInit(c, 1, INIT, Some(GENESIS_VOTIE), Done(Pending(Some(ACCUSE), map[]), [] + [NewInited(NEW_PACK)]));
  }

  /** Node 0, or node 3 still in term 0, accepts the broadcast init. */
  lemma Accept(c: Cluster, i: NodeId) returns (c': Cluster)
    requires Reached(c) && |c.reps| == 4 && InitM(INIT) in c.log
    requires (i == 0 && c.reps[i].node == Entered(Some(ACCUSE))) || (i == 3 && c.reps[i].node == InitNode())
    ensures Reached(c')
    ensures c'.reps == c.reps[i := c.reps[i].(node := Pending(if i == 0 then Some(ACCUSE) else None, map[]))]
    ensures c'.log == c.log + [PrepareM(PrepareBy(i))]
  {
    hide HandleInit, Reached, SendsAll, Node.Keyed, IsMaxVotie, Pending, Entered, InitNode;
    VotesAnswer();
    VoterAccepts();
    LateAccepts();
    InitSends(i);
    if i == 0 {
      c' := GoInit(c, i, INIT, Some(GENESIS_VOTIE), Done(Pending(Some(ACCUSE), map[]), [] + [NewInited(NEW_PACK)]));
    } else {
      c' := GoInit(c, i, INIT, Some(GENESIS_VOTIE), Done(Pending(None, map[]), [NewTerm(1)] + [NewInited(NEW_PACK)]));
    }
  }

  lemma PrepareSends(i: NodeId)
    ensures SendsAll(i, []) == []
    ensures SendsAll(i, [NewPrepared(Pack(INIT, PREPARES, map[]))]) == [CommitM(CommitBy(i))]
  {
    SendsOfOne(i, NewPrepared(Pack(INIT, PREPARES, map[])));
  }

  /** A node receives the three prepares and sends its commit. */
  lemma TakePrepares(c: Cluster, i: NodeId, accuse: Option<StrongAccuse>) returns (c': Cluster)
    requires Reached(c) && i < 4 == |c.reps| && c.reps[i].node == Pending(accuse, map[])
    requires PrepareM(PrepareBy(0)) in c.log && PrepareM(PrepareBy(1)) in c.log && PrepareM(PrepareBy(3)) in c.log
    ensures Reached(c') && c'.reps == c.reps[i := c.reps[i].(node := Prepared3(accuse))]
    ensures c'.log == c.log + [CommitM(CommitBy(i))]
  {
    hide HandlePrepare, Reached, SendsAll, Node.Keyed, Pending, PrepareBy;
    PreparesGrow();
    var none: map<NodeId, PrepareMsg> := map[];
    var one, two := none[0 := PrepareBy(0)], none[0 := PrepareBy(0)][1 := PrepareBy(1)];
    PrepareHandled(accuse, none, 0);
    PrepareHandled(accuse, one, 1);
    PrepareHandled(accuse, two, 3);
    PrepareSends(i);
    var c1 := GoPrepare(c, i, PrepareBy(0), Done(Pending(accuse, one), []));
    assert c1.reps[i].node == Pending(accuse, one) && c1.log == c.log;
    var c2 := GoPrepare(c1, i, PrepareBy(1), Done(Pending(accuse, two), []));
    assert c2.reps[i].node == Pending(accuse, two) && c2.log == c.log;
    c' := GoPrepare(c2, i, PrepareBy(3), Done(Prepared3(accuse), [NewPrepared(Pack(INIT, PREPARES, map[]))]));
    assert c'.reps == c.reps[i := c.reps[i].(node := Prepared3(accuse))];
  }

  // ------------------------------------------------------------- the whole run

  /** Term 1 has been entered and voted for by nodes 0, 1 and 2, and node 1 leads it. */
  lemma LedCluster() returns (c: Cluster)
    ensures Reached(c) && c.reps == [Voter(), Leading(), Voter(), InitReplica().(voteTerm := Some(0))]
  {
    hide Reached, Accusing, Entered;
    var c0 := Accuse();
    InitiallyAccusing();
    var c1 := EnterAndVote(c0, 0, map[]);
    var c2 := EnterAndVote(c1, 1, map[]);
    var c3 := EnterAndVote(c2, 2, ACCUSED_BY_BOTH);
    assert c3.log == c0.log + [VoteM(VoteBy(0)), VoteM(VoteBy(1)), VoteM(VoteBy(2))];
    assert forall i :: 0 <= i < 3 ==> c3.log[|c0.log| + i] == VoteM(VoteBy(i));
    c := Elect(c3);
  }

  lemma InitiallyAccusing()
    ensures InitReplica() == InitReplica().(node := Accusing(map[]))
  {
  }

  /** Nodes 0, 1 and 3 hold the block with a quorum of prepares and have sent commits. */
  lemma PreparedCluster() returns (c: Cluster)
    ensures Reached(c) && |c.reps| == 4
    ensures c.reps[1] == Proposing().(node := Prepared3(Some(ACCUSE)), pending := {}) && c.reps[2] == Voter()
    ensures c.reps[3] == InitReplica().(node := Prepared3(None), voteTerm := Some(0))
    ensures CommitM(CommitBy(0)) in c.log && CommitM(CommitBy(1)) in c.log && CommitM(CommitBy(3)) in c.log
  {
    hide Reached, Entered, Pending, Prepared3, InitNode, NewLeader;
    var c0 := LedCluster();
    InitialNode();
    var c1 := ProposeBlock(c0);
    var c2 := Broadcast(c1);
    var c3 := Accept(c2, 0);
    var c4 := Accept(c3, 3);
    assert c4.log == c0.log + [InitM(INIT), PrepareM(PrepareBy(1)), PrepareM(PrepareBy(0)), PrepareM(PrepareBy(3))];
    var n := |c0.log|;
    assert c4.log[n + 1] == PrepareM(PrepareBy(1)) && c4.log[n + 2] == PrepareM(PrepareBy(0));
    assert c4.log[n + 3] == PrepareM(PrepareBy(3));
    c := AllPrepare(c4);
  }

  lemma InitialNode()
    ensures InitReplica().node == InitNode() && Voter().node == Entered(Some(ACCUSE))
    ensures InitReplica().(voteTerm := Some(0)).node == InitNode()
  {
  }

  lemma AllPrepare(c: Cluster) returns (c': Cluster)
    requires Reached(c) && |c.reps| == 4
    requires c.reps[0].node == Pending(Some(ACCUSE), map[]) && c.reps[1].node == Pending(Some(ACCUSE), map[])
    requires c.reps[3].node == Pending(None, map[])
    requires PrepareM(PrepareBy(0)) in c.log && PrepareM(PrepareBy(1)) in c.log && PrepareM(PrepareBy(3)) in c.log
    ensures Reached(c') && |c'.reps| == 4 && c'.reps[3] == c.reps[3].(node := Prepared3(None))
    ensures c'.reps[1] == c.reps[1].(node := Prepared3(Some(ACCUSE))) && c'.reps[2] == c.reps[2]
    ensures CommitM(CommitBy(0)) in c'.log && CommitM(CommitBy(1)) in c'.log && CommitM(CommitBy(3)) in c'.log
  {
    hide Reached, Pending, Prepared3;
    var c1 := TakePrepares(c, 0, Some(ACCUSE));
    var c2 := TakePrepares(c1, 1, Some(ACCUSE));
    c' := TakePrepares(c2, 3, None);
    var n := |c.log|;
    assert c'.log[n] == CommitM(CommitBy(0)) && c'.log[n + 1] == CommitM(CommitBy(1));
    assert c'.log[n + 2] == CommitM(CommitBy(3));
  }

  // -------------------------------------------------------------------- endings

  /** The vote node 3 started in term 0 leaves with the votie of term 1: a run of the code
      sends a vote that checkVote refuses. */
  lemma SomeVoteIsRefused()
    ensures exists c, v :: Reached(c) && VoteM(v) in c.log && v.votie.term > v.term && !ValidVote(FOUR, v)
  {
    hide Reached, Prepared3, ValidVote;
    var c := PreparedCluster();
    var v := LATE_VOTE;
    LateVoteRefused();
    var c' := GoVote(c, 3);
    assert c'.log[|c.log|] == VoteM(v);
  }

  lemma CommitSends(i: NodeId)
    ensures SendsAll(i, []) == [] && SendsAll(i, [NewCommitted(TOP)]) == []
  {
    SendsOfOne(i, NewCommitted(TOP));
  }

  /** A node receives the three commits and commits the block. */
  lemma TakeCommits(c: Cluster, i: NodeId, accuse: Option<StrongAccuse>) returns (c': Cluster)
    requires Reached(c) && i < 4 == |c.reps| && c.reps[i].node == Prepared3(accuse)
    requires CommitM(CommitBy(0)) in c.log && CommitM(CommitBy(1)) in c.log && CommitM(CommitBy(3)) in c.log
    ensures Reached(c') && c' == Cluster(c.reps[i := c.reps[i].(node := CommittedNode(accuse))], c.log)
  {
    hide HandleCommit, Reached, SendsAll, Node.Keyed, Committing, CommittedNode, Prepared3, CommitBy;
    CommitsHandled(accuse);
    CommitSends(i);
    var one, two := map[0 := CommitBy(0)], map[0 := CommitBy(0), 1 := CommitBy(1)];
    var c1 := GoCommit(c, i, CommitBy(0), Done(Committing(accuse, one), []));
    assert c1.reps[i].node == Committing(accuse, one) && c1.log == c.log;
    var c2 := GoCommit(c1, i, CommitBy(1), Done(Committing(accuse, two), []));
    assert c2.reps[i].node == Committing(accuse, two) && c2.log == c.log;
    c' := GoCommit(c2, i, CommitBy(3), Done(CommittedNode(accuse), [NewCommitted(TOP)]));
    assert c'.log == c.log && c'.reps == c.reps[i := c.reps[i].(node := CommittedNode(accuse))];
  }

  /** A block is committed in term 1 of a four-node cluster, chosen by three of the nodes. */
  lemma SomeRunCommits()
    ensures exists c :: Reached(c) && |c.reps| == 4 && ChainOf(c, 3) == [GENESIS_PACK, TOP]
                        && Chosen(FOUR, c.log, PackPoint(TOP))
  {
    hide Reached, CommittedNode, Chosen, Prepared3, CommitBy;
    var c := PreparedCluster();
    CommittedChain(None);
    var c1 := TakeCommits(c, 3, None);
    ThreeChose(c1.log);
  }

  lemma CommittedChain(accuse: Option<StrongAccuse>)
    ensures CommittedNode(accuse).chain == [GENESIS_PACK, TOP] && CommittedNode(accuse).term == 1
    ensures TOP == CommittedNode(accuse).Top()
  {
  }

  lemma GoLeaderCommitted(c: Cluster, ld: Leader) returns (c': Cluster)
    requires Reached(c) && |c.reps| == 4 && c.reps[1].node == CommittedNode(Some(ACCUSE)) && FOUR.Valid()
    requires ld == OnCommitted(FOUR, 1, c.reps[1].leader, TOP, TOP).0
    ensures Reached(c') && c' == Cluster(c.reps[1 := c.reps[1].(leader := ld)], c.log)
  {
    hide OnCommitted, Reached, Node.Keyed, Config.Nodes, Config.Valid, CommittedNode;
    ReachedNode(c, 1);
    CommittedChain(Some(ACCUSE));
    c' := Go(c, 1, LeaderCommitted(1), c.reps[1].(leader := ld), []);
    assert c.log + [] == c.log;
  }

  /** The leader commits its block too, hears of it and proposes the next one on top of it. */
  lemma SomeRunGoesOn()
    ensures exists c :: Reached(c) && |c.reps| == 4 && ChainOf(c, 1) == [GENESIS_PACK, TOP]
                        && c.reps[1].pending == {SECOND} && SECOND.block.prev == TOP.init.block
  {
    hide Reached, CommittedNode, Prepared3, CommitBy, OnCommitted, TryCreateBlock, InCharge, IsMaxVotie, Counting,
         Entered;
    var c := PreparedCluster();
    var c1 := TakeCommits(c, 1, Some(ACCUSE));
    CommittedChain(Some(ACCUSE));
    ProposalEnded();
    ProposingLeader();
    var c2 := GoLeaderCommitted(c1, Counting(VOTES));
    Leads();
    VotesAnswer();
    NextCreated();
    LeaderReady();
    var c3 := GoPropose(c2, 1, GENESIS_VOTIE, 2, SECOND);
  }

  lemma ProposingLeader()
    ensures Proposing().leader == Counting(VOTES).(initing := Some(INIT))
  {
  }

  lemma LeaderReady()
    ensures Counting(VOTES).initing.None? && Counting(VOTES).votes == VOTES
  {
  }

  lemma GoSync(c: Cluster, i: NodeId, p: Pack, n: nat, s: Node) returns (c': Cluster)
    requires Reached(c) && i < 4 == |c.reps| && PackM(p) in c.log
    requires c.reps[i].node.Keyed() && s == SyncBlock(FOUR, c.reps[i].node, p, n)
    ensures Reached(c') && c' == Cluster(c.reps[i := c.reps[i].(node := s)], c.log)
  {
    hide SyncBlock, Reached, Node.Keyed, Config.Nodes, Config.Valid;
    ReachedNode(c, i);
    c' := Go(c, i, OnPack(p, n), c.reps[i].(node := s), []);
    assert c.log + [] == c.log;
  }

  lemma GoServe(c: Cluster, i: NodeId, h: nat) returns (c': Cluster)
    requires Reached(c) && i < 4 == |c.reps| && h < |c.reps[i].node.chain|
    ensures Reached(c') && c' == Cluster(c.reps, c.log + [PackM(c.reps[i].node.chain[h])])
  {
    hide Reached, Node.Keyed, Config.Nodes, Config.Valid;
    ReachedNode(c, i);
    c' := Go(c, i, SendPack(h), c.reps[i], [PackM(c.reps[i].node.chain[h])]);
    assert c.reps[i := c.reps[i]] == c.reps;
  }

  lemma GoRestart(c: Cluster, i: NodeId) returns (c': Cluster)
    requires Reached(c) && i < 4 == |c.reps|
    ensures Reached(c') && |c'.reps| == 4 && c'.log == c.log
    ensures c'.reps[i].node.chain == c.reps[i].node.chain && c'.reps[i].node.term == c.reps[i].node.term
    ensures c'.reps[i].leader.votes == map[] && c'.reps[i].pending == {}
  {
    hide Reached, Node.Keyed, Config.Nodes, Config.Valid;
    ReachedNode(c, i);
    c' := Go(c, i, Restart, Replica(Restarted(c.reps[i].node), NewLeader(c.reps[i].node.term), {}, None), []);
  }

  /** Node 2 has neither prepared nor committed the block; it gets it from node 3 and still
      holds it after a restart. */
  lemma SomeRunSyncs()
    ensures exists c :: Reached(c) && |c.reps| == 4 && ChainOf(c, 2) == [GENESIS_PACK, TOP]
                        && c.reps[2].leader.votes == map[] && PackM(TOP) in c.log
  {
    hide Reached, CommittedNode, Prepared3, CommitBy, SyncBlock, Entered, NewLeader;
    var c := PreparedCluster();
    var c1 := TakeCommits(c, 3, None);
    CommittedChain(None);
    var c2 := GoServe(c1, 3, 1);
    assert c2.log[|c1.log|] == PackM(TOP);
    TopTaken();
    InitialNode();
    var c3 := GoSync(c2, 2, TOP, 2, SyncBlock(FOUR, Entered(Some(ACCUSE)), TOP, 2));
    var c4 := GoRestart(c3, 2);
  }

  lemma ThreeChose(log: seq<Msg>)
    requires CommitM(CommitBy(0)) in log && CommitM(CommitBy(1)) in log && CommitM(CommitBy(3)) in log
    ensures Chosen(FOUR, log, PackPoint(TOP))
  {
    FourAreValid();
    assert {0, 1, 3} <= Committers(FOUR, log, PackPoint(TOP));
    SubsetSize({0, 1, 3}, Committers(FOUR, log, PackPoint(TOP)));
  }
}
