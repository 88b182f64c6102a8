/** What a certificate is: the checks a received message must pass before it is handled
    (node/msg_validation.go). Signatures are taken to be genuine and fields present. */
module MsgValidation {
  import opened Protocol

  predicate KnownNode(cfg: Config, i: NodeId) { i < |cfg.normal| }

  // ----------------------------------------------------------- specification

  /** The prepares are each under a known sender and name this term, height and block. */
  predicate PreparesName(cfg: Config, term: nat, height: nat, b: Block, prepares: map<NodeId, PrepareMsg>) {
    forall i :: i in prepares ==> KnownNode(cfg, i) && prepares[i] == PrepareMsg(term, height, b, i)
  }

  predicate CommitsName(cfg: Config, term: nat, height: nat, b: Block, commits: map<NodeId, CommitMsg>) {
    forall i :: i in commits ==> KnownNode(cfg, i) && commits[i] == CommitMsg(term, height, b, i)
  }

  /** A votie names a block that a quorum prepared or committed or, at height 0, any block
      without certificates: which block it is, checkVotie does not ask. */
  predicate ValidVotie(cfg: Config, v: Votie) {
    && PreparesName(cfg, v.term, v.height, v.block, v.prepares)
    && CommitsName(cfg, v.term, v.height, v.block, v.commits)
    && if v.height == 0 then v.term == 0 && v.prepares == map[] && v.commits == map[]
       else |v.prepares| >= cfg.QuorumN() || |v.commits| >= cfg.QuorumN()
  }

  /** A quorum of known nodes prepared or committed the votie's block. */
  predicate CertifiedVotie(cfg: Config, v: Votie) {
    && PreparesName(cfg, v.term, v.height, v.block, v.prepares)
    && CommitsName(cfg, v.term, v.height, v.block, v.commits)
    && (|v.prepares| >= cfg.QuorumN() || |v.commits| >= cfg.QuorumN())
  }

  const GENESIS_VOTIE := GENESIS_PACK.ToVotie()

  /** An accepted votie is genesis or certified exactly when at height 0 it names genesis. */
  lemma AcceptedIsGenesisOrCertified(cfg: Config, v: Votie)
    requires cfg.Valid() && ValidVotie(cfg, v)
    ensures v == GENESIS_VOTIE || CertifiedVotie(cfg, v) <==> (v.height == 0 ==> v.block == Genesis)
  {
    hide Config.QuorumN;
    cfg.Sizes();
  }

  /** At height 0 checkVotie accepts any block, with no certificate for it. */
  lemma AnyBlockAtHeightZero(cfg: Config, b: Block)
    requires cfg.Valid() && b != Genesis
    ensures var v := Votie(0, 0, b, map[], map[]);
            ValidVotie(cfg, v) && v != GENESIS_VOTIE && !CertifiedVotie(cfg, v)
  {
    hide Config.QuorumN;
    cfg.Sizes();
  }

  predicate ValidVote(cfg: Config, v: Vote) {
    KnownNode(cfg, v.nodeId) && v.votie.term <= v.term && ValidVotie(cfg, v.votie)
  }

  /** The proposer is known and its votes are sound votes for its term. */
  predicate ValidInit(cfg: Config, init: InitMsg) {
    && KnownNode(cfg, init.nodeId)
    && forall i :: i in init.votes ==>
         init.votes[i].term == init.term && init.votes[i].nodeId == i && ValidVote(cfg, init.votes[i])
  }

  /** The certificate of a committed block: at least one commit, each naming it. */
  predicate CertifiedPack(cfg: Config, p: Pack) {
    p.commits != map[] && CommitsName(cfg, p.init.term, p.init.height, p.init.block, p.commits)
  }

  /** What the checks ask, in full. A votie: every certificate in it is its sender's, of a
      known node, and for the votie's term, height and block; and there is a quorum of one
      kind above height 0, none and term 0 at it. */
  lemma VotieAskedIff(cfg: Config, v: Votie)
    ensures ValidVotie(cfg, v) <==>
              && (forall i :: i in v.prepares ==>
                    var p := v.prepares[i];
                    p.nodeId == i < |cfg.normal| && p.term == v.term && p.height == v.height && p.block == v.block)
              && (forall i :: i in v.commits ==>
                    var c := v.commits[i];
                    c.nodeId == i < |cfg.normal| && c.term == v.term && c.height == v.height && c.block == v.block)
              && (v.height > 0 ==> |v.prepares| >= cfg.QuorumN() || |v.commits| >= cfg.QuorumN())
              && (v.height == 0 ==> v.term == 0 && v.prepares == map[] && v.commits == map[])
  {
    hide Config.QuorumN;
  }

  /** An init: known proposer, and under each sender a vote of that sender for its term, with
      an acceptable votie of no later term. */
  lemma InitAskedIff(cfg: Config, x: InitMsg)
    ensures ValidInit(cfg, x) <==>
              && x.nodeId < |cfg.normal|
              && forall i :: i in x.votes ==>
                   var v := x.votes[i];
                   && v.nodeId == i < |cfg.normal| && v.term == x.term && v.votie.term <= x.term
                   && ValidVotie(cfg, v.votie)
  {
    hide ValidVotie;
  }

  /** A committed block: one commit at least, each its sender's, of a known node, and for the
      block at its term and height. */
  lemma PackAskedIff(cfg: Config, p: Pack)
    ensures CertifiedPack(cfg, p) <==>
              && |p.commits| > 0
              && forall i :: i in p.commits ==>
                   var c := p.commits[i];
                   && c.nodeId == i < |cfg.normal| && c.term == p.init.term && c.height == p.init.height
                   && c.block == p.init.block
  {
    assert p.commits == map[] <==> |p.commits| == 0;
  }

  // ------------------------------------------------------------------ checks

  method CheckPrepares(cfg: Config, term: nat, height: nat, b: Block, prepares: map<NodeId, PrepareMsg>)
    returns (ok: bool)
    ensures ok == PreparesName(cfg, term, height, b, prepares)
  {
    var rest := prepares.Keys;
    while rest != {}
      invariant rest <= prepares.Keys
      invariant forall i :: i in prepares && i !in rest ==>
                  KnownNode(cfg, i) && prepares[i] == PrepareMsg(term, height, b, i)
      decreases rest
    {
      var i :| i in rest;
      var p := prepares[i];
      if !KnownNode(cfg, p.nodeId) || i != p.nodeId { return false; }
      if p.term != term || p.height != height || p.block != b { return false; }
      rest := rest - {i};
    }
    ok := true;
  }

  /** The loop over commits, which checkVotie and checkCommits share. */
  method NameCommits(cfg: Config, term: nat, height: nat, b: Block, commits: map<NodeId, CommitMsg>)
    returns (ok: bool)
    ensures ok == CommitsName(cfg, term, height, b, commits)
  {
    var rest := commits.Keys;
    while rest != {}
      invariant rest <= commits.Keys
      invariant forall i :: i in commits && i !in rest ==>
                  KnownNode(cfg, i) && commits[i] == CommitMsg(term, height, b, i)
      decreases rest
    {
      var i :| i in rest;
      var c := commits[i];
      if !KnownNode(cfg, c.nodeId) || i != c.nodeId { return false; }
      if c.term != term || c.height != height || c.block != b { return false; }
      rest := rest - {i};
    }
    ok := true;
  }

  /** checkCommits. */
  method CheckCommits(cfg: Config, p: Pack) returns (ok: bool)
    ensures ok == CertifiedPack(cfg, p)
  {
    if |p.commits| == 0 { return false; }
    ok := NameCommits(cfg, p.init.term, p.init.height, p.init.block, p.commits);
  }

  method CheckVotie(cfg: Config, v: Votie) returns (ok: bool)
    ensures ok == ValidVotie(cfg, v)
  {
    var prepares := CheckPrepares(cfg, v.term, v.height, v.block, v.prepares);
    if !prepares { return false; }
    var commits := NameCommits(cfg, v.term, v.height, v.block, v.commits);
    if !commits { return false; }
    if v.height == 0 { return v.term == 0 && |v.prepares| == 0 && |v.commits| == 0; }
    ok := |v.prepares| >= cfg.QuorumN() || |v.commits| >= cfg.QuorumN();
  }

  method CheckVote(cfg: Config, v: Vote) returns (ok: bool)
    ensures ok == ValidVote(cfg, v)
  {
    if !KnownNode(cfg, v.nodeId) || v.votie.term > v.term { return false; }
    ok := CheckVotie(cfg, v.votie);
  }

  /** checkInitMsg. */
  method CheckInitMsg(cfg: Config, init: InitMsg) returns (ok: bool)
    ensures ok == ValidInit(cfg, init)
  {
    if !KnownNode(cfg, init.nodeId) { return false; }
    var rest := init.votes.Keys;
    while rest != {}
      invariant rest <= init.votes.Keys
      invariant forall i :: i in init.votes && i !in rest ==>
                  init.votes[i].term == init.term && init.votes[i].nodeId == i && ValidVote(cfg, init.votes[i])
      decreases rest
    {
      var i :| i in rest;
      var v := init.votes[i];
      if !KnownNode(cfg, i) || v.term != init.term || v.nodeId != i { return false; }
      var good := CheckVote(cfg, v);
      if !good { return false; }
      rest := rest - {i};
    }
    ok := true;
  }

  /** checkInit in full mode: votes too few to matter are cleared, not checked. */
  method CheckInit(cfg: Config, init: InitMsg) returns (ok: bool, kept: InitMsg)
    ensures KnownNode(cfg, init.nodeId) ==>
              kept == if |init.votes| >= cfg.QuorumN() then init else init.(votes := map[])
    ensures ok <==> KnownNode(cfg, init.nodeId) && ValidInit(cfg, kept)
  {
    kept := init;
    if !KnownNode(cfg, init.nodeId) { return false, kept; }
    if |init.votes| < cfg.QuorumN() { return true, init.(votes := map[]); }
    ok := CheckInitMsg(cfg, init);
  }
}
