/** The preimages of votes, inits and weak accuses (proto/pbtypes_ext.go), and the six
    kinds of hashed message together: the bytes tell the kind and the whole message. */
module MessagePreimage {
  import opened Protocol
  import opened KeyCodec
  import opened HexCodec
  import opened Preimage

  // ------------------------------------------------------------- the messages

  lemma {:induction false} SomeListing<T>(m: map<nat, T>) returns (ks: seq<nat>)
    ensures Lists(ks, m)
    decreases |m|
  {
    ks := [];
    if m != map[] {
      var k :| k in m;
      var rest := m - {k};
      assert rest.Keys == m.Keys - {k} && |rest| == |rest.Keys| && |m| == |m.Keys|;
      ks := SomeListing(rest);
      InsertSorts(ks, k);
      ks := Insert(ks, k);
    }
  }

  lemma ListingExists<T>(m: map<nat, T>)
    ensures exists ks :: Lists(ks, m)
  {
    var ks := SomeListing(m);
  }

  /** The keys in increasing order. */
  ghost function KeysOf<T>(m: map<nat, T>): (ks: seq<nat>)
    ensures Lists(ks, m)
  {
    ListingExists(m);
    var ks :| Lists(ks, m);
    ks
  }

  ghost function VotieId(d: Digests, v: Votie): seq<Byte> {
    d.ofText(Encode(VotieTree(d, v, KeysOf(v.prepares), KeysOf(v.commits))))
  }

  ghost function VoteTree(d: Digests, v: Vote): Field {
    Field("Vote", "", More(IntField("Term", v.term),
                           More(BinField("VotieId", VotieId(d, v.votie)), More(IntField("NodeId", v.nodeId), End))))
  }

  ghost function VoteIds(d: Digests, vs: seq<Vote>): (ids: seq<seq<Byte>>)
    ensures |ids| == |vs| && forall k :: 0 <= k < |vs| ==> ids[k] == d.ofText(Encode(VoteTree(d, vs[k])))
  {
    seq(|vs|, k requires 0 <= k < |vs| => d.ofText(Encode(VoteTree(d, vs[k]))))
  }

  /** An init without votes has no field for them. */
  ghost function VoteFields(d: Digests, votes: map<NodeId, Vote>): Fields {
    if |votes| == 0 then End
    else More(Field("Votes", "", IdFields("VoteId", VoteIds(d, Contents(votes, KeysOf(votes))))), End)
  }

  ghost function InitTree(d: Digests, x: InitMsg): Field {
    Field("InitMsg", "",
          InfoFields(d, x.term, x.height, x.block, More(IntField("NodeId", x.nodeId), VoteFields(d, x.votes))))
  }

  function WeakTree(w: WeakAccuse): Field {
    Field("WeakAccuse", "", More(IntField("Term", w.term), More(IntField("NodeId", w.nodeId), End)))
  }

  /** checkInitMsg: votes sit under their sender, certificates under theirs. */
  ghost predicate VotesKeyed(x: InitMsg) {
    forall k :: k in x.votes ==> x.votes[k].nodeId == k && Keyed(x.votes[k].votie)
  }

  // -------------------------------------------------------------- decoding

  lemma VotieIdsDiffer(d: Digests, v: Votie, w: Votie)
    requires d.CollisionFree() && Keyed(v) && Keyed(w) && VotieId(d, v) == VotieId(d, w)
    ensures v == w
  {
    hide Encode, VotieTree, Keyed, Lists;
    VotieDecodes(d, v, w, KeysOf(v.prepares), KeysOf(v.commits), KeysOf(w.prepares), KeysOf(w.commits));
  }

  lemma VoteWf(d: Digests, v: Vote)
    ensures Wf(VoteTree(d, v))
  {
    hide VotieId;
    NodeIdWf(v.nodeId);
    assert Wf(BinField("VotieId", VotieId(d, v.votie)));
    assert WfAll(More(BinField("VotieId", VotieId(d, v.votie)), More(IntField("NodeId", v.nodeId), End)));
    assert Wf(IntField("Term", v.term));
  }

  /** Two votes whose preimages are the same bytes are the same vote, votie included. */
  lemma VoteDecodes(d: Digests, v: Vote, w: Vote)
    requires d.CollisionFree() && Keyed(v.votie) && Keyed(w.votie)
    requires Encode(VoteTree(d, v)) == Encode(VoteTree(d, w))
    ensures v == w
  {
    hide Encode, Wf, VotieId, Hex, Decimal, Keyed;
    VoteWf(d, v);
    VoteWf(d, w);
    EncodeInjective(VoteTree(d, v), VoteTree(d, w));
    DecimalsDiffer(v.term, w.term);
    DecimalsDiffer(v.nodeId, w.nodeId);
    HexesDiffer(VotieId(d, v.votie), VotieId(d, w.votie));
    VotieIdsDiffer(d, v.votie, w.votie);
  }

  lemma VotesFromIds(d: Digests, m: map<NodeId, Vote>, n: map<NodeId, Vote>)
    requires d.CollisionFree()
    requires forall k :: k in m ==> m[k].nodeId == k && Keyed(m[k].votie)
    requires forall k :: k in n ==> n[k].nodeId == k && Keyed(n[k].votie)
    requires VoteIds(d, Contents(m, KeysOf(m))) == VoteIds(d, Contents(n, KeysOf(n)))
    ensures m == n
  {
    hide Encode, VoteTree, Keyed;
    var a, b := Contents(m, KeysOf(m)), Contents(n, KeysOf(n));
    assert |a| == |VoteIds(d, a)| == |b|;
    forall j | 0 <= j < |a| ensures a[j] == b[j] {
      assert VoteIds(d, a)[j] == VoteIds(d, b)[j];
      assert a[j] == m[KeysOf(m)[j]] && KeysOf(m)[j] in m && b[j] == n[KeysOf(n)[j]] && KeysOf(n)[j] in n;
      VoteDecodes(d, a[j], b[j]);
    }
    MapFromContents(m, n, (v: Vote) => v.nodeId, KeysOf(m), KeysOf(n));
  }

  lemma VoteGroupWf(ids: seq<seq<Byte>>)
    ensures WfAll(More(Field("Votes", "", IdFields("VoteId", ids)), End))
  {
    hide IdFields;
    IdFieldsWf("VoteId", ids);
    GroupWf("Votes", IdFields("VoteId", ids));
  }

  lemma VoteFieldsWf(d: Digests, votes: map<NodeId, Vote>)
    ensures WfAll(VoteFields(d, votes))
  {
    hide VoteIds, IdFields, Wf;
    if |votes| != 0 { VoteGroupWf(VoteIds(d, Contents(votes, KeysOf(votes)))); }
  }

  lemma InitWf(d: Digests, x: InitMsg)
    ensures Wf(InitTree(d, x))
  {
    hide VoteFields, InfoFields;
    VoteFieldsWf(d, x.votes);
    assert Wf(IntField("NodeId", x.nodeId));
    var rest := More(IntField("NodeId", x.nodeId), VoteFields(d, x.votes));
    InfoWf(d, x.term, x.height, x.block, rest);
    GroupWf("InitMsg", InfoFields(d, x.term, x.height, x.block, rest));
  }

  lemma VoteFieldsDiffer(d: Digests, m: map<NodeId, Vote>, n: map<NodeId, Vote>)
    requires d.CollisionFree() && VoteFields(d, m) == VoteFields(d, n)
    requires forall k :: k in m ==> m[k].nodeId == k && Keyed(m[k].votie)
    requires forall k :: k in n ==> n[k].nodeId == k && Keyed(n[k].votie)
    ensures m == n
  {
    hide VoteIds, IdFields, Keyed;
    if |m| != 0 {
      IdFieldsDiffer("VoteId", VoteIds(d, Contents(m, KeysOf(m))), VoteIds(d, Contents(n, KeysOf(n))));
      VotesFromIds(d, m, n);
    }
  }

  /** Two inits whose preimages are the same bytes are the same init, votes included. */
  lemma InitDecodes(d: Digests, x: InitMsg, y: InitMsg)
    requires d.CollisionFree() && VotesKeyed(x) && VotesKeyed(y)
    requires Encode(InitTree(d, x)) == Encode(InitTree(d, y))
    ensures x == y
  {
    hide Encode, Wf, VoteFields, Hex, Decimal, Keyed;
    InitWf(d, x);
    InitWf(d, y);
    EncodeInjective(InitTree(d, x), InitTree(d, y));
    DecimalsDiffer(x.term, y.term);
    DecimalsDiffer(x.height, y.height);
    DecimalsDiffer(x.nodeId, y.nodeId);
    HexesDiffer(d.ofBlock(x.block), d.ofBlock(y.block));
    VoteFieldsDiffer(d, x.votes, y.votes);
  }

  lemma WeakWf(w: WeakAccuse)
    ensures Wf(WeakTree(w))
  {
    NodeIdWf(w.nodeId);
    assert Wf(IntField("Term", w.term));
  }

  lemma WeakDecodes(v: WeakAccuse, w: WeakAccuse)
    requires Encode(WeakTree(v)) == Encode(WeakTree(w))
    ensures v == w
  {
    hide Encode, Wf, Decimal;
    WeakWf(v);
    WeakWf(w);
    EncodeInjective(WeakTree(v), WeakTree(w));
    DecimalsDiffer(v.term, w.term);
    DecimalsDiffer(v.nodeId, w.nodeId);
  }

  // -------------------------------------------------------- the six together

  datatype Hashed = OfPrepare(prepare: PrepareMsg)
                  | OfCommit(commit: CommitMsg)
                  | OfVotie(votie: Votie)
                  | OfVote(vote: Vote)
                  | OfInit(init: InitMsg)
                  | OfWeak(weak: WeakAccuse)

  ghost function Tree(d: Digests, m: Hashed): Field {
    match m
    case OfPrepare(p) => PrepareTree(d, p)
    case OfCommit(c) => CommitTree(d, c)
    case OfVotie(v) => VotieTree(d, v, KeysOf(v.prepares), KeysOf(v.commits))
    case OfVote(v) => VoteTree(d, v)
    case OfInit(x) => InitTree(d, x)
    case OfWeak(w) => WeakTree(w)
  }

  ghost predicate WellKeyed(m: Hashed) {
    match m
    case OfVotie(v) => Keyed(v)
    case OfVote(v) => Keyed(v.votie)
    case OfInit(x) => VotesKeyed(x)
    case _ => true
  }

  /** The name that opens the preimage. */
  function Kind(m: Hashed): string {
    match m
    case OfPrepare(_) => "PrepareMsg"
    case OfCommit(_) => "CommitMsg"
    case OfVotie(_) => "Votie"
    case OfVote(_) => "Vote"
    case OfInit(_) => "InitMsg"
    case OfWeak(_) => "WeakAccuse"
  }

  lemma TreeWf(d: Digests, m: Hashed)
    ensures Wf(Tree(d, m)) && Tree(d, m).name == Kind(m)
  {
    hide Wf, InfoFields, IdFields, VoteFields;
    match m
    case OfPrepare(p) => PrepareWf(d, p);
    case OfCommit(c) => CommitWf(d, c);
    case OfVotie(v) => VotieWf(d, v, KeysOf(v.prepares), KeysOf(v.commits));
    case OfVote(v) => VoteWf(d, v);
    case OfInit(x) => InitWf(d, x);
    case OfWeak(w) => WeakWf(w);
  }

  lemma KindTells(m: Hashed, n: Hashed)
    requires Kind(m) == Kind(n)
    ensures m.OfPrepare? == n.OfPrepare? && m.OfCommit? == n.OfCommit? && m.OfVotie? == n.OfVotie?
    ensures m.OfVote? == n.OfVote? && m.OfInit? == n.OfInit? && m.OfWeak? == n.OfWeak?
  {
    var s, t := Kind(m), Kind(n);
    assert |s| == |t| && s[0] == t[0];
  }

  /** Equal preimages come of one message: no two messages, of one kind or of different
      kinds, are signed over the same bytes. */
  lemma MessagesDecode(d: Digests, m: Hashed, n: Hashed)
    requires d.CollisionFree() && WellKeyed(m) && WellKeyed(n)
    requires Encode(Tree(d, m)) == Encode(Tree(d, n))
    ensures m == n
  {
    hide Encode, Wf, PrepareTree, CommitTree, VotieTree, VoteTree, InitTree, WeakTree, Kind, Keyed, VotesKeyed, Lists;
    TreeWf(d, m);
    TreeWf(d, n);
    EncodeInjective(Tree(d, m), Tree(d, n));
    KindTells(m, n);
    match m
    case OfPrepare(p) => PrepareDecodes(d, p, n.prepare);
    case OfCommit(c) => CommitDecodes(d, c, n.commit);
    case OfVotie(v) =>
      var w := n.votie;
      VotieDecodes(d, v, w, KeysOf(v.prepares), KeysOf(v.commits), KeysOf(w.prepares), KeysOf(w.commits));
    case OfVote(v) => VoteDecodes(d, v, n.vote);
    case OfInit(x) => InitDecodes(d, x, n.init);
    case OfWeak(w) => WeakDecodes(w, n.weak);
  }

  // ----------------------------------------------------------- the exact bytes

  function Text(name: string, text: string): string { "<" + name + " " + text + ">" }

  lemma LeafIs(name: string, text: string)
    ensures Encode(Field(name, text, End)) == Text(name, text)
  {
    assert EncodeAll(End) == "";
    assert "<" + name + " " + text + "" + ">" == "<" + name + " " + text + ">";
  }

  /** What is hashed for a prepare and for a commit. */
  lemma PreparePreimage(d: Digests, p: PrepareMsg)
    ensures Encode(PrepareTree(d, p))
            == "<PrepareMsg " + (Text("Term", Decimal(p.term)) + Text("Height", Decimal(p.height))
                                 + Text("BlockId", Hex(d.ofBlock(p.block))) + Text("NodeId", Decimal(p.nodeId))) + ">"
  {
    hide Encode, EncodeAll, InfoFields, Text;
    var last := More(IntField("NodeId", p.nodeId), End);
    LeafIs("Term", Decimal(p.term));
    LeafIs("Height", Decimal(p.height));
    LeafIs("BlockId", Hex(d.ofBlock(p.block)));
    LeafIs("NodeId", Decimal(p.nodeId));
    InfoEncodes(d, p.term, p.height, p.block, last);
    EncodeLast(IntField("NodeId", p.nodeId));
    GroupEncodes("PrepareMsg", InfoFields(d, p.term, p.height, p.block, last));
    assert "<" + "PrepareMsg" + " " == "<PrepareMsg ";
  }

  lemma CommitPreimage(d: Digests, c: CommitMsg)
    ensures Encode(CommitTree(d, c))
            == "<CommitMsg " + (Text("Term", Decimal(c.term)) + Text("Height", Decimal(c.height))
                                + Text("BlockId", Hex(d.ofBlock(c.block))) + Text("NodeId", Decimal(c.nodeId))) + ">"
  {
    hide Encode, EncodeAll, InfoFields, Text;
    var last := More(IntField("NodeId", c.nodeId), End);
    LeafIs("Term", Decimal(c.term));
    LeafIs("Height", Decimal(c.height));
    LeafIs("BlockId", Hex(d.ofBlock(c.block)));
    LeafIs("NodeId", Decimal(c.nodeId));
    InfoEncodes(d, c.term, c.height, c.block, last);
    EncodeLast(IntField("NodeId", c.nodeId));
    GroupEncodes("CommitMsg", InfoFields(d, c.term, c.height, c.block, last));
    assert "<" + "CommitMsg" + " " == "<CommitMsg ";
  }

  /** A weak accuse and a vote, the votie by its id. */
  lemma WeakPreimage(w: WeakAccuse)
    ensures Encode(WeakTree(w))
            == "<WeakAccuse " + (Text("Term", Decimal(w.term)) + Text("NodeId", Decimal(w.nodeId))) + ">"
  {
    hide Encode, EncodeAll, Text;
    LeafIs("Term", Decimal(w.term));
    LeafIs("NodeId", Decimal(w.nodeId));
    var last := More(IntField("NodeId", w.nodeId), End);
    EncodeLast(IntField("NodeId", w.nodeId));
    MoreEncodes(IntField("Term", w.term), last);
    GroupEncodes("WeakAccuse", More(IntField("Term", w.term), last));
    assert "<" + "WeakAccuse" + " " == "<WeakAccuse ";
  }

  lemma VotePreimage(d: Digests, v: Vote)
    ensures Encode(VoteTree(d, v))
            == "<Vote " + (Text("Term", Decimal(v.term)) + Text("VotieId", Hex(VotieId(d, v.votie)))
                           + Text("NodeId", Decimal(v.nodeId))) + ">"
  {
    hide Encode, EncodeAll, Text, VotieId;
    LeafIs("Term", Decimal(v.term));
    LeafIs("VotieId", Hex(VotieId(d, v.votie)));
    LeafIs("NodeId", Decimal(v.nodeId));
    var last := More(IntField("NodeId", v.nodeId), End);
    var rest := More(BinField("VotieId", VotieId(d, v.votie)), last);
    EncodeLast(IntField("NodeId", v.nodeId));
    MoreEncodes(BinField("VotieId", VotieId(d, v.votie)), last);
    MoreEncodes(IntField("Term", v.term), rest);
    GroupEncodes("Vote", More(IntField("Term", v.term), rest));
    assert "<" + "Vote" + " " == "<Vote ";
  }

  /** Ids under one name, one after another. */
  function Texts(name: string, ids: seq<seq<Byte>>): string {
    if ids == [] then "" else Text(name, Hex(ids[0])) + Texts(name, ids[1..])
  }

  lemma {:induction false} IdsAre(name: string, ids: seq<seq<Byte>>)
    ensures EncodeAll(IdFields(name, ids)) == Texts(name, ids)
  {
    if ids != [] {
      LeafIs(name, Hex(ids[0]));
      IdsAre(name, ids[1..]);
      MoreEncodes(BinField(name, ids[0]), IdFields(name, ids[1..]));
      hide Encode, EncodeAll, Text, Hex;
    }
  }

  lemma GroupIs(group: string, name: string, ids: seq<seq<Byte>>)
    ensures Encode(Field(group, "", IdFields(name, ids))) == ("<" + group + " ") + Texts(name, ids) + ">"
  {
    hide Encode, EncodeAll, IdFields, Texts;
    IdsAre(name, ids);
    GroupEncodes(group, IdFields(name, ids));
  }

  /** A votie, its certificates by their ids. */
  lemma VotiePreimage(d: Digests, v: Votie, ps: seq<nat>, cs: seq<nat>)
    requires (forall k :: k in ps ==> k in v.prepares) && forall k :: k in cs ==> k in v.commits
    ensures Encode(VotieTree(d, v, ps, cs))
            == "<Votie " + (Text("Term", Decimal(v.term)) + Text("Height", Decimal(v.height))
                            + Text("BlockId", Hex(d.ofBlock(v.block)))
                            + ("<Prepares " + Texts("PrepareMsgId", PrepareIds(d, Contents(v.prepares, ps))) + ">"
                               + ("<Commits " + Texts("CommitMsgId", CommitIds(d, Contents(v.commits, cs))) + ">")))
               + ">"
  {
    hide Encode, EncodeAll, InfoFields, IdFields, Text, Texts, Contents, PrepareIds, CommitIds;
    var pIds, cIds := PrepareIds(d, Contents(v.prepares, ps)), CommitIds(d, Contents(v.commits, cs));
    var prepares := Field("Prepares", "", IdFields("PrepareMsgId", pIds));
    var commits := Field("Commits", "", IdFields("CommitMsgId", cIds));
    var rest := More(prepares, More(commits, End));
    LeafIs("Term", Decimal(v.term));
    LeafIs("Height", Decimal(v.height));
    LeafIs("BlockId", Hex(d.ofBlock(v.block)));
    GroupIs("Prepares", "PrepareMsgId", pIds);
    GroupIs("Commits", "CommitMsgId", cIds);
    EncodeLast(commits);
    MoreEncodes(prepares, More(commits, End));
    InfoEncodes(d, v.term, v.height, v.block, rest);
    GroupEncodes("Votie", InfoFields(d, v.term, v.height, v.block, rest));
    assert "<" + "Votie" + " " == "<Votie ";
    assert "<" + "Prepares" + " " == "<Prepares " && "<" + "Commits" + " " == "<Commits ";
  }

  /** An init, its votes by their ids, and nothing for them when there are none. */
  lemma InitPreimage(d: Digests, x: InitMsg)
    ensures Encode(InitTree(d, x))
            == "<InitMsg " + (Text("Term", Decimal(x.term)) + Text("Height", Decimal(x.height))
                              + Text("BlockId", Hex(d.ofBlock(x.block)))
                              + (Text("NodeId", Decimal(x.nodeId))
                                 + (if |x.votes| == 0 then ""
                                    else "<Votes " + Texts("VoteId", VoteIds(d, Contents(x.votes, KeysOf(x.votes))))
                                         + ">")))
               + ">"
  {
    hide Encode, EncodeAll, InfoFields, IdFields, Text, Texts, Contents, VoteIds, Increasing;
    var rest := More(IntField("NodeId", x.nodeId), VoteFields(d, x.votes));
    LeafIs("Term", Decimal(x.term));
    LeafIs("Height", Decimal(x.height));
    LeafIs("BlockId", Hex(d.ofBlock(x.block)));
    LeafIs("NodeId", Decimal(x.nodeId));
    VoteTextsAre(d, x.votes);
    MoreEncodes(IntField("NodeId", x.nodeId), VoteFields(d, x.votes));
    InfoEncodes(d, x.term, x.height, x.block, rest);
    GroupEncodes("InitMsg", InfoFields(d, x.term, x.height, x.block, rest));
    assert "<" + "InitMsg" + " " == "<InitMsg ";
  }

  lemma VoteGroupIs(ids: seq<seq<Byte>>)
    ensures EncodeAll(More(Field("Votes", "", IdFields("VoteId", ids)), End)) == "<Votes " + Texts("VoteId", ids) + ">"
  {
    hide Encode, EncodeAll, IdFields, Texts;
    GroupIs("Votes", "VoteId", ids);
    EncodeLast(Field("Votes", "", IdFields("VoteId", ids)));
    assert "<" + "Votes" + " " == "<Votes ";
  }

  lemma VoteTextsAre(d: Digests, votes: map<NodeId, Vote>)
    ensures EncodeAll(VoteFields(d, votes))
            == if |votes| == 0 then ""
               else "<Votes " + Texts("VoteId", VoteIds(d, Contents(votes, KeysOf(votes)))) + ">"
  {
    hide Encode, IdFields, Texts, VoteIds, Contents;
    if |votes| > 0 { VoteGroupIs(VoteIds(d, Contents(votes, KeysOf(votes)))); }
  }

  /** Numbers are fed in decimal with a sign only when negative, bytes as two lower-case hex
      digits each, the higher one first. */
  lemma NumbersFed()
    ensures Decimal(0) == "0" && Decimal(120) == "120" && Decimal(-7) == "-7"
  {
    assert Natural(1) == "1" && Natural(12) == "12" && Natural(120) == "120";
  }

  lemma BytesFed()
    ensures Hex([0]) == "00" && Hex([26]) == "1a" && Hex([255]) == "ff"
    ensures forall a: seq<Byte>, b: Byte :: Hex([b] + a) == Hex([b]) + Hex(a)
  {
    assert Hex([]) == "";
    forall a: seq<Byte>, b: Byte ensures Hex([b] + a) == Hex([b]) + Hex(a) {
      assert ([b] + a)[1..] == a && [b][1..] == [];
    }
  }

  // ---------------------------------------------------------------- feeding

  /** Votie.Id(). */
  method VotieIdOf(d: Digests, v: Votie) returns (id: seq<Byte>)
    ensures id == VotieId(d, v)
  {
    hide Encode, VotieTree, Increasing;
    var hasher := new Hasher256();
    ghost var ps, cs := hasher.FeedVotieFields(d, v);
    VotieOrderFree(d, v, ps, cs, KeysOf(v.prepares), KeysOf(v.commits));
    assert "" + Encode(VotieTree(d, v, ps, cs)) == Encode(VotieTree(d, v, ps, cs));
    id := d.ofText(hasher.fed);
  }

  lemma VoteEncodes(d: Digests, v: Vote)
    ensures Encode(VoteTree(d, v))
            == "<" + "Vote" + " " + Encode(IntField("Term", v.term)) + Encode(BinField("VotieId", VotieId(d, v.votie)))
               + Encode(IntField("NodeId", v.nodeId)) + ">"
  {
    hide Encode, EncodeAll, IntField, BinField, VotieId;
    var last := More(IntField("NodeId", v.nodeId), End);
    var rest := More(BinField("VotieId", VotieId(d, v.votie)), last);
    EncodeLast(IntField("NodeId", v.nodeId));
    MoreEncodes(BinField("VotieId", VotieId(d, v.votie)), last);
    MoreEncodes(IntField("Term", v.term), rest);
    GroupEncodes("Vote", More(IntField("Term", v.term), rest));
  }

  method FeedVoteFields(hasher: Hasher256, d: Digests, v: Vote)
    modifies hasher
    ensures hasher.fed == old(hasher.fed) + Encode(VoteTree(d, v))
  {
    hide Encode, VoteTree, IntField, BinField, VotieId;
    hasher.FeedText("<" + "Vote" + " ");
    hasher.FeedInt64Field("Term", v.term);
    var votieId := VotieIdOf(d, v.votie);
    hasher.FeedBinField("VotieId", votieId);
    hasher.FeedInt64Field("NodeId", v.nodeId);
    hasher.FeedText(">");
    VoteEncodes(d, v);
  }

  /** Vote.Id(). */
  method VoteIdOf(d: Digests, v: Vote) returns (id: seq<Byte>)
    ensures id == d.ofText(Encode(VoteTree(d, v)))
  {
    hide Encode, VoteTree;
    var hasher := new Hasher256();
    FeedVoteFields(hasher, d, v);
    assert "" + Encode(VoteTree(d, v)) == Encode(VoteTree(d, v));
    id := d.ofText(hasher.fed);
  }

  /** The ids of the votes in the order of the keys. */
  method VoteIdsOf(d: Digests, votes: map<NodeId, Vote>, keys: seq<NodeId>) returns (ids: seq<seq<Byte>>)
    requires forall k :: k in keys ==> k in votes
    ensures ids == VoteIds(d, Contents(votes, keys))
  {
    hide Encode, VoteTree;
    ids := [];
    for n := 0 to |keys|
      invariant |ids| == n && forall k :: 0 <= k < n ==> ids[k] == d.ofText(Encode(VoteTree(d, votes[keys[k]])))
    {
      var id := VoteIdOf(d, votes[keys[n]]);
      ids := ids + [id];
    }
  }

  lemma InitEncodes(d: Digests, x: InitMsg)
    ensures Encode(InitTree(d, x))
            == "<" + "InitMsg" + " "
               + EncodeAll(InfoFields(d, x.term, x.height, x.block,
                                      More(IntField("NodeId", x.nodeId), VoteFields(d, x.votes))))
               + ">"
    ensures EncodeAll(More(IntField("NodeId", x.nodeId), VoteFields(d, x.votes)))
            == Encode(IntField("NodeId", x.nodeId)) + EncodeAll(VoteFields(d, x.votes))
  {
    hide Encode, EncodeAll, IntField, InfoFields, VoteFields;
    var rest := More(IntField("NodeId", x.nodeId), VoteFields(d, x.votes));
    GroupEncodes("InitMsg", InfoFields(d, x.term, x.height, x.block, rest));
    MoreEncodes(IntField("NodeId", x.nodeId), VoteFields(d, x.votes));
  }

  /** The Votes field of an init, when there are any. */
  method FeedVotes(hasher: Hasher256, d: Digests, votes: map<NodeId, Vote>)
    modifies hasher
    ensures hasher.fed == old(hasher.fed) + EncodeAll(VoteFields(d, votes))
  {
    hide Encode, IdFields, VoteIds, Increasing;
    if |votes| > 0 {
      var keys := SortedKeys(votes.Keys);
      OneListing(keys, KeysOf(votes));
      var ids := VoteIdsOf(d, votes, keys);
      hasher.FeedIdGroup("Votes", "VoteId", ids);
      EncodeLast(Field("Votes", "", IdFields("VoteId", ids)));
    } else {
      assert hasher.fed + "" == hasher.fed;
    }
  }

  method FeedInitMsgFields(hasher: Hasher256, d: Digests, x: InitMsg)
    modifies hasher
    ensures hasher.fed == old(hasher.fed) + Encode(InitTree(d, x))
  {
    hide Encode, EncodeAll, InitTree, InfoFields, IntField, VoteFields;
    InitEncodes(d, x);
    ghost var rest := More(IntField("NodeId", x.nodeId), VoteFields(d, x.votes));
    hasher.FeedText("<" + "InitMsg" + " ");
    ghost var start := hasher.fed;
    hasher.FeedInfo(d, x.term, x.height, x.block, rest);
    ghost var begun := hasher.fed;
    hasher.FeedInt64Field("NodeId", x.nodeId);
    FeedVotes(hasher, d, x.votes);
    hasher.FeedText(">");
    Regroup(begun, Encode(IntField("NodeId", x.nodeId)), EncodeAll(VoteFields(d, x.votes)), start,
            EncodeAll(InfoFields(d, x.term, x.height, x.block, rest)));
  }

  method FeedWeakAccuseFields(hasher: Hasher256, w: WeakAccuse)
    modifies hasher
    ensures hasher.fed == old(hasher.fed) + Encode(WeakTree(w))
  {
    hide Encode, EncodeAll, IntField;
    hasher.FeedText("<" + "WeakAccuse" + " ");
    hasher.FeedInt64Field("Term", w.term);
    hasher.FeedInt64Field("NodeId", w.nodeId);
    hasher.FeedText(">");
    EncodeLast(IntField("NodeId", w.nodeId));
    MoreEncodes(IntField("Term", w.term), More(IntField("NodeId", w.nodeId), End));
    GroupEncodes("WeakAccuse", More(IntField("Term", w.term), More(IntField("NodeId", w.nodeId), End)));
  }
}
