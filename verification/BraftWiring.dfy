/** What a node sends to the others because of an event (node/node.go). */
module BraftWiring {
  import opened Protocol
  import opened NodeSpec
  import opened NodeInvariant
  import opened NodeEvents
  import opened NodeReplies
  import opened Braft
  import opened BraftSteps

  /** Node i sends m because of e: its own init and a prepare for a block taken up, a commit
      for one prepared, an answer in kind about its top, and a strong accuse it has made. */
  predicate SentFor(i: NodeId, e: Event, m: Msg) {
    match m
    case InitM(x) => e.NewInited? && e.pack.init == x && x.nodeId == i
    case PrepareM(p) =>
      p.nodeId == i
      && ((e.NewInited? && p.term == e.pack.init.term && p.height == e.pack.init.height
           && p.block == e.pack.init.block)
          || (e.CommittedInLowerTerm? && e.msg.PrepareM? && p.term == e.msg.prepare.term
              && p.height == e.msg.prepare.height && p.block == e.msg.prepare.block))
    case CommitM(c) =>
      c.nodeId == i
      && ((e.NewPrepared? && c.term == e.pack.init.term && c.height == e.pack.init.height
           && c.block == e.pack.init.block)
          || (e.CommittedInLowerTerm? && e.msg.CommitM? && c.term == e.msg.commit.term
              && c.height == e.msg.commit.height && c.block == e.msg.commit.block))
    case StrongM(sa) => e == NewStrongAccuse(sa)
    case _ => false
  }

  lemma SentForIff(i: NodeId, e: Event, m: Msg)
    ensures m in Sends(i, e) <==> SentFor(i, e, m)
  {
    match e
    case NewInited(p) =>
      var own := PrepareM(PrepareMsg(p.init.term, p.init.height, p.init.block, i));
      if p.init.nodeId == i {
        assert Sends(i, e) == [InitM(p.init), own] && Sends(i, e)[0] == InitM(p.init) && Sends(i, e)[1] == own;
      } else {
        assert Sends(i, e) == [own] && Sends(i, e)[0] == own;
      }
    case NewPrepared(p) => assert Sends(i, e)[0] in Sends(i, e);
    case NewStrongAccuse(_) => assert Sends(i, e)[0] in Sends(i, e);
    case CommittedInLowerTerm(x) =>
      if x.PrepareM? || x.CommitM? { assert |Sends(i, e)| == 1 && Sends(i, e)[0] in Sends(i, e); }
    case _ =>
  }

  /** After handling, the messages sent are exactly those its events are for. */
  lemma {:induction false} SentIff(i: NodeId, events: seq<Event>, m: Msg)
    ensures m in SendsAll(i, events) <==> exists e :: e in events && SentFor(i, e, m)
  {
    if events != [] {
      hide Sends, SentFor;
      var n := |events| - 1;
      SentIff(i, events[..n], m);
      SentForIff(i, events[n], m);
      assert events == events[..n] + [events[n]] && events[n] in events;
    }
  }

  /** A node that receives a prepare, or a commit, that names its top sends its own. */
  lemma AnswerSent(cfg: Config, i: NodeId, r: Replica, p: PrepareMsg, c: CommitMsg)
    requires cfg.Valid() && NodeInv(r.node) && FreshCommittable(r.node)
    requires p.height == Ht(p.block) && c.height == Ht(c.block)
    ensures r.node.Keyed() && r.node.chain != []
    ensures NamesTop(r.node, p.term, p.height, p.block) ==>
              var e := EffectOf(cfg, r, i, OnPrepare(p));
              e.Moved? && e.rep == r && PrepareM(PrepareMsg(p.term, p.height, p.block, i)) in e.sent
    ensures NamesTop(r.node, c.term, c.height, c.block) ==>
              var e := EffectOf(cfg, r, i, OnCommit(c));
              e.Moved? && e.rep == r && CommitM(CommitMsg(c.term, c.height, c.block, i)) in e.sent
  {
    hide NodeInv, FreshCommittable, HandlePrepare, HandleCommit, NamesTop, SendsAll, Node.Keyed, Config.Valid;
    StoreFacts(r.node);
    AnsweredIff(cfg, r.node, p, c);
    SentIff(i, HandlePrepare(cfg, r.node, p).events, PrepareM(PrepareMsg(p.term, p.height, p.block, i)));
    SentIff(i, HandleCommit(cfg, r.node, c).events, CommitM(CommitMsg(c.term, c.height, c.block, i)));
  }
}
