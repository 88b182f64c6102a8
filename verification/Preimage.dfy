/** The bytes fed to the hasher for the signed consensus messages (util/hash_utils.go and
    the feed functions of proto/pbtypes_ext.go). */
module Preimage {
  import opened Protocol
  import opened KeyCodec
  import opened HexCodec

  // ------------------------------------------------------------- the grammar

  /** A field: its name, then either text or fields, between brackets. */
  datatype Field = Field(name: string, text: string, kids: Fields)

  datatype Fields = End | More(head: Field, tail: Fields)

  function Encode(f: Field): string {
    "<" + f.name + " " + f.text + EncodeAll(f.kids) + ">"
  }

  function EncodeAll(fs: Fields): string {
    match fs
    case End => ""
    case More(f, rest) => Encode(f) + EncodeAll(rest)
  }

  predicate Bracket(c: char) { c == '<' || c == '>' }

  /** Names have no brackets or spaces, texts no brackets, and a field with text has no
      fields inside. */
  predicate Wf(f: Field) {
    && (forall k :: 0 <= k < |f.name| ==> f.name[k] != ' ' && !Bracket(f.name[k]))
    && (forall k :: 0 <= k < |f.text| ==> !Bracket(f.text[k]))
    && (f.text != "" ==> f.kids == End)
    && WfAll(f.kids)
  }

  predicate WfAll(fs: Fields) {
    match fs
    case End => true
    case More(f, rest) => Wf(f) && WfAll(rest)
  }

  /** Two texts that stop at the first stopping character are the same text. */
  lemma SameUpTo(a: string, b: string, r: string, r': string, stop: char -> bool)
    requires forall k :: 0 <= k < |a| ==> !stop(a[k])
    requires forall k :: 0 <= k < |b| ==> !stop(b[k])
    requires r != "" && r' != "" && stop(r[0]) && stop(r'[0])
    requires a + r == b + r'
    ensures a == b && r == r'
  {
    var s := a + r;
    assert s == b + r';
    assert s[|a|] == r[0] && s[|b|] == r'[0];
    assert forall k :: 0 <= k < |a| ==> !stop(s[k]) by {
      assert forall k :: 0 <= k < |a| ==> s[k] == a[k];
    }
    assert forall k :: 0 <= k < |b| ==> !stop(s[k]) by {
      assert forall k :: 0 <= k < |b| ==> s[k] == b[k];
    }
    assert |a| == |b|;
    assert s[..|a|] == a && s[..|b|] == b;
    assert s[|a|..] == r && s[|b|..] == r';
  }

  lemma EncodeStarts(f: Field)
    ensures Encode(f) != "" && Encode(f)[0] == '<'
  {
  }

  /** What follows the name and the text of a field. */
  function Rest(f: Field, r: string): string { EncodeAll(f.kids) + (">" + r) }

  lemma RestStarts(f: Field, r: string)
    ensures Rest(f, r) != "" && Bracket(Rest(f, r)[0])
  {
    if f.kids.More? { EncodeStarts(f.kids.head); }
  }

  lemma Unfolded(f: Field, r: string)
    ensures Encode(f) + r == "<" + (f.name + (" " + (f.text + Rest(f, r))))
  {
  }

  /** A field can be read back from the front of any text that starts with it. */
  lemma {:induction false} FieldDecodes(f: Field, g: Field, r: string, r': string)
    requires Wf(f) && Wf(g) && Encode(f) + r == Encode(g) + r'
    ensures f == g && r == r'
    decreases f
  {
    Unfolded(f, r);
    Unfolded(g, r');
    var a, b := " " + (f.text + Rest(f, r)), " " + (g.text + Rest(g, r'));
    assert ("<" + (f.name + a))[1..] == f.name + a && ("<" + (g.name + b))[1..] == g.name + b;
    SameUpTo(f.name, g.name, a, b, c => c == ' ');
    assert a[1..] == f.text + Rest(f, r) && b[1..] == g.text + Rest(g, r');
    RestStarts(f, r);
    RestStarts(g, r');
    SameUpTo(f.text, g.text, Rest(f, r), Rest(g, r'), c => Bracket(c));
    FieldsDecode(f.kids, g.kids, r, r');
  }

  lemma {:induction false} FieldsDecode(fs: Fields, gs: Fields, r: string, r': string)
    requires WfAll(fs) && WfAll(gs)
    requires EncodeAll(fs) + (">" + r) == EncodeAll(gs) + (">" + r')
    ensures fs == gs && r == r'
    decreases fs
  {
    var s, t := EncodeAll(fs) + (">" + r), EncodeAll(gs) + (">" + r');
    if fs.More? { EncodeStarts(fs.head); assert s[0] == '<'; } else { assert s[0] == '>' && s[1..] == r; }
    if gs.More? { EncodeStarts(gs.head); assert t[0] == '<'; } else { assert t[0] == '>' && t[1..] == r'; }
    if fs.More? && gs.More? {
      assert s == Encode(fs.head) + (EncodeAll(fs.tail) + (">" + r));
      assert t == Encode(gs.head) + (EncodeAll(gs.tail) + (">" + r'));
      FieldDecodes(fs.head, gs.head, EncodeAll(fs.tail) + (">" + r), EncodeAll(gs.tail) + (">" + r'));
      FieldsDecode(fs.tail, gs.tail, r, r');
    }
  }

  lemma EncodeInjective(f: Field, g: Field)
    requires Wf(f) && Wf(g) && Encode(f) == Encode(g)
    ensures f == g
  {
    assert Encode(f) + "" == Encode(f) && Encode(g) + "" == Encode(g);
    FieldDecodes(f, g, "", "");
  }

  // ------------------------------------------------------- numbers and bytes

  /** strconv.FormatInt in base 10. */
  function Natural(n: nat): (s: string)
    ensures s != "" && forall k :: 0 <= k < |s| ==> s[k] != '-' && !Bracket(s[k])
  {
    if n < 10 then [Digit(n)] else Natural(n / 10) + [Digit(n % 10)]
  }

  function Decimal(n: int): (s: string)
    ensures forall k :: 0 <= k < |s| ==> !Bracket(s[k])
  {
    if n < 0 then "-" + Natural(-n) else Natural(n)
  }

  lemma {:induction false} NaturalsDiffer(m: nat, n: nat)
    requires Natural(m) == Natural(n)
    ensures m == n
  {
    var s, t := Natural(m), Natural(n);
    assert s[|s| - 1] == Digit(m % 10) && t[|t| - 1] == Digit(n % 10);
    DigitsDiffer(m % 10, n % 10);
    if m >= 10 && n >= 10 {
      assert s[..|s| - 1] == Natural(m / 10) && t[..|t| - 1] == Natural(n / 10);
      NaturalsDiffer(m / 10, n / 10);
    }
  }

  lemma DecimalsDiffer(m: int, n: int)
    requires Decimal(m) == Decimal(n)
    ensures m == n
  {
    if m < 0 { assert Decimal(m)[0] == '-'; assert Decimal(m)[1..] == Natural(-m); }
    if n < 0 { assert Decimal(n)[0] == '-'; assert Decimal(n)[1..] == Natural(-n); }
    if m < 0 && n < 0 {
      NaturalsDiffer(-m, -n);
    } else if m >= 0 && n >= 0 {
      NaturalsDiffer(m, n);
    }
  }

  // ------------------------------------------------------------ sorted maps

  ghost predicate Increasing(s: seq<nat>) { forall j, k :: 0 <= j < k < |s| ==> s[j] < s[k] }

  /** ks lists the keys of the map in increasing order. */
  ghost predicate Lists<T>(ks: seq<nat>, m: map<nat, T>) {
    Increasing(ks) && forall k :: k in ks <==> k in m
  }

  function Contents<T>(m: map<nat, T>, ks: seq<nat>): (s: seq<T>)
    requires forall k :: k in ks ==> k in m
    ensures |s| == |ks| && forall j :: 0 <= j < |s| ==> s[j] == m[ks[j]]
  {
    seq(|ks|, j requires 0 <= j < |ks| => m[ks[j]])
  }

  /** There is only one increasing listing of a set of keys. */
  lemma {:induction false} OneListing(s: seq<nat>, t: seq<nat>)
    requires Increasing(s) && Increasing(t) && forall k :: k in s <==> k in t
    ensures s == t
  {
    assert |t| > 0 ==> t[0] in s;
    if s != [] {
      assert s[0] in t;
      assert s[0] == t[0];
      forall k ensures k in s[1..] <==> k in t[1..] {
        if k in s[1..] { assert k in t && k > s[0]; }
        if k in t[1..] { assert k in s && k > t[0]; }
      }
      OneListing(s[1..], t[1..]);
    }
  }

  /** Maps whose entries know their own key are equal when their contents, listed in key
      order, are. */
  lemma MapFromContents<T>(m: map<nat, T>, n: map<nat, T>, key: T -> nat, ks: seq<nat>, ls: seq<nat>)
    requires Lists(ks, m) && Lists(ls, n)
    requires forall k :: k in m ==> key(m[k]) == k
    requires forall k :: k in n ==> key(n[k]) == k
    requires Contents(m, ks) == Contents(n, ls)
    ensures m == n
  {
    assert |ks| == |ls|;
    forall j | 0 <= j < |ks| ensures ks[j] == ls[j] && m[ks[j]] == n[ls[j]] {
      assert ks[j] in m && ls[j] in n;
      assert Contents(m, ks)[j] == Contents(n, ls)[j];
    }
    assert ks == ls;
    forall k | k in m ensures k in n && m[k] == n[k] {
      assert k in ks;
    }
    forall k | k in n ensures k in m { assert k in ls; }
  }

  // ------------------------------------------------------------- the messages

  /** Block ids and message ids: two collision-free digests. */
  datatype Digests = Digests(ofBlock: Block -> seq<Byte>, ofText: string -> seq<Byte>) {
    ghost predicate CollisionFree() {
      && (forall a, b :: ofBlock(a) == ofBlock(b) ==> a == b)
      && (forall a, b :: ofText(a) == ofText(b) ==> a == b)
    }
  }

  function IntField(name: string, n: int): Field { Field(name, Decimal(n), End) }

  function BinField(name: string, data: seq<Byte>): Field { Field(name, Hex(data), End) }

  function IdFields(name: string, ids: seq<seq<Byte>>): Fields {
    if ids == [] then End else More(BinField(name, ids[0]), IdFields(name, ids[1..]))
  }

  /** The fields all three kinds start with. */
  function InfoFields(d: Digests, term: nat, height: nat, block: Block, rest: Fields): Fields {
    More(IntField("Term", term), More(IntField("Height", height), More(BinField("BlockId", d.ofBlock(block)), rest)))
  }

  function PrepareTree(d: Digests, p: PrepareMsg): Field {
    Field("PrepareMsg", "", InfoFields(d, p.term, p.height, p.block, More(IntField("NodeId", p.nodeId), End)))
  }

  function CommitTree(d: Digests, c: CommitMsg): Field {
    Field("CommitMsg", "", InfoFields(d, c.term, c.height, c.block, More(IntField("NodeId", c.nodeId), End)))
  }

  function PrepareId(d: Digests, p: PrepareMsg): seq<Byte> { d.ofText(Encode(PrepareTree(d, p))) }

  function CommitId(d: Digests, c: CommitMsg): seq<Byte> { d.ofText(Encode(CommitTree(d, c))) }

  function PrepareIds(d: Digests, ps: seq<PrepareMsg>): (ids: seq<seq<Byte>>)
    ensures |ids| == |ps| && forall k :: 0 <= k < |ps| ==> ids[k] == PrepareId(d, ps[k])
  {
    seq(|ps|, k requires 0 <= k < |ps| => PrepareId(d, ps[k]))
  }

  function CommitIds(d: Digests, cs: seq<CommitMsg>): (ids: seq<seq<Byte>>)
    ensures |ids| == |cs| && forall k :: 0 <= k < |cs| ==> ids[k] == CommitId(d, cs[k])
  {
    seq(|cs|, k requires 0 <= k < |cs| => CommitId(d, cs[k]))
  }

  /** feedVotieFields with the certificates fed in the order of the given keys. */
  function VotieTree(d: Digests, v: Votie, ps: seq<nat>, cs: seq<nat>): Field
    requires forall k :: k in ps ==> k in v.prepares
    requires forall k :: k in cs ==> k in v.commits
  {
    Field("Votie", "", InfoFields(d, v.term, v.height, v.block,
      More(Field("Prepares", "", IdFields("PrepareMsgId", PrepareIds(d, Contents(v.prepares, ps)))),
        More(Field("Commits", "", IdFields("CommitMsgId", CommitIds(d, Contents(v.commits, cs)))), End))))
  }

  /** checkVotie: certificates sit under their sender. */
  ghost predicate Keyed(v: Votie) {
    && (forall k :: k in v.prepares ==> v.prepares[k].nodeId == k)
    && (forall k :: k in v.commits ==> v.commits[k].nodeId == k)
  }

  // ------------------------------------------------------- unique decoding

  lemma {:induction false} IdFieldsWf(name: string, ids: seq<seq<Byte>>)
    requires forall k :: 0 <= k < |name| ==> name[k] != ' ' && !Bracket(name[k])
    ensures WfAll(IdFields(name, ids))
  {
    if ids != [] { IdFieldsWf(name, ids[1..]); }
  }

  lemma {:induction false} IdFieldsDiffer(name: string, a: seq<seq<Byte>>, b: seq<seq<Byte>>)
    requires IdFields(name, a) == IdFields(name, b)
    ensures a == b
  {
    if a != [] && b != [] {
      assert BinField(name, a[0]) == BinField(name, b[0]);
      HexesDiffer(a[0], b[0]);
      IdFieldsDiffer(name, a[1..], b[1..]);
      assert a == [a[0]] + a[1..] && b == [b[0]] + b[1..];
    }
  }

  lemma NodeIdWf(nodeId: nat)
    ensures WfAll(More(IntField("NodeId", nodeId), End))
  {
    assert Wf(IntField("NodeId", nodeId));
  }

  lemma InfoWf(d: Digests, term: nat, height: nat, block: Block, rest: Fields)
    requires WfAll(rest)
    ensures WfAll(InfoFields(d, term, height, block, rest))
  {
    assert Wf(BinField("BlockId", d.ofBlock(block)));
    assert WfAll(More(BinField("BlockId", d.ofBlock(block)), rest));
    assert Wf(IntField("Height", height)) && Wf(IntField("Term", term));
    assert WfAll(More(IntField("Height", height), More(BinField("BlockId", d.ofBlock(block)), rest)));
  }

  lemma PrepareWf(d: Digests, p: PrepareMsg)
    ensures Wf(PrepareTree(d, p))
  {
    NodeIdWf(p.nodeId);
    InfoWf(d, p.term, p.height, p.block, More(IntField("NodeId", p.nodeId), End));
    hide WfAll, InfoFields;
  }

  lemma CommitWf(d: Digests, c: CommitMsg)
    ensures Wf(CommitTree(d, c))
  {
    NodeIdWf(c.nodeId);
    InfoWf(d, c.term, c.height, c.block, More(IntField("NodeId", c.nodeId), End));
    hide WfAll, InfoFields;
  }

  lemma GroupWf(name: string, kids: Fields)
    requires forall k :: 0 <= k < |name| ==> name[k] != ' ' && !Bracket(name[k])
    requires WfAll(kids)
    ensures Wf(Field(name, "", kids))
  {
  }

  lemma VotieWf(d: Digests, v: Votie, ps: seq<nat>, cs: seq<nat>)
    requires forall k :: k in ps ==> k in v.prepares
    requires forall k :: k in cs ==> k in v.commits
    ensures Wf(VotieTree(d, v, ps, cs))
  {
    hide InfoFields, IdFields, Wf, Contents, PrepareIds, CommitIds;
    IdFieldsWf("PrepareMsgId", PrepareIds(d, Contents(v.prepares, ps)));
    IdFieldsWf("CommitMsgId", CommitIds(d, Contents(v.commits, cs)));
    var prepares := Field("Prepares", "", IdFields("PrepareMsgId", PrepareIds(d, Contents(v.prepares, ps))));
    var commits := Field("Commits", "", IdFields("CommitMsgId", CommitIds(d, Contents(v.commits, cs))));
    GroupWf("Prepares", prepares.kids);
    GroupWf("Commits", commits.kids);
    assert WfAll(More(commits, End));
    InfoWf(d, v.term, v.height, v.block, More(prepares, More(commits, End)));
    GroupWf("Votie", InfoFields(d, v.term, v.height, v.block, More(prepares, More(commits, End))));
  }

  /** Two prepares whose preimages are the same bytes are the same prepare. */
  lemma PrepareDecodes(d: Digests, p: PrepareMsg, q: PrepareMsg)
    requires d.CollisionFree() && Encode(PrepareTree(d, p)) == Encode(PrepareTree(d, q))
    ensures p == q
  {
    PrepareWf(d, p);
    PrepareWf(d, q);
    EncodeInjective(PrepareTree(d, p), PrepareTree(d, q));
    hide Encode, Wf;
    DecimalsDiffer(p.term, q.term);
    DecimalsDiffer(p.height, q.height);
    DecimalsDiffer(p.nodeId, q.nodeId);
    HexesDiffer(d.ofBlock(p.block), d.ofBlock(q.block));
  }

  lemma CommitDecodes(d: Digests, p: CommitMsg, q: CommitMsg)
    requires d.CollisionFree() && Encode(CommitTree(d, p)) == Encode(CommitTree(d, q))
    ensures p == q
  {
    CommitWf(d, p);
    CommitWf(d, q);
    EncodeInjective(CommitTree(d, p), CommitTree(d, q));
    hide Encode, Wf;
    DecimalsDiffer(p.term, q.term);
    DecimalsDiffer(p.height, q.height);
    DecimalsDiffer(p.nodeId, q.nodeId);
    HexesDiffer(d.ofBlock(p.block), d.ofBlock(q.block));
  }

  lemma PreparesFromIds(d: Digests, m: map<NodeId, PrepareMsg>, n: map<NodeId, PrepareMsg>, ks: seq<nat>, ls: seq<nat>)
    requires d.CollisionFree() && Lists(ks, m) && Lists(ls, n)
    requires forall k :: k in m ==> m[k].nodeId == k
    requires forall k :: k in n ==> n[k].nodeId == k
    requires PrepareIds(d, Contents(m, ks)) == PrepareIds(d, Contents(n, ls))
    ensures m == n
  {
    var a, b := Contents(m, ks), Contents(n, ls);
    assert |a| == |PrepareIds(d, a)| == |b|;
    forall j | 0 <= j < |a| ensures a[j] == b[j] {
      assert PrepareIds(d, a)[j] == PrepareIds(d, b)[j];
      PrepareDecodes(d, a[j], b[j]);
    }
    MapFromContents(m, n, (p: PrepareMsg) => p.nodeId, ks, ls);
  }

  lemma CommitsFromIds(d: Digests, m: map<NodeId, CommitMsg>, n: map<NodeId, CommitMsg>, ks: seq<nat>, ls: seq<nat>)
    requires d.CollisionFree() && Lists(ks, m) && Lists(ls, n)
    requires forall k :: k in m ==> m[k].nodeId == k
    requires forall k :: k in n ==> n[k].nodeId == k
    requires CommitIds(d, Contents(m, ks)) == CommitIds(d, Contents(n, ls))
    ensures m == n
  {
    var a, b := Contents(m, ks), Contents(n, ls);
    assert |a| == |CommitIds(d, a)| == |b|;
    forall j | 0 <= j < |a| ensures a[j] == b[j] {
      assert CommitIds(d, a)[j] == CommitIds(d, b)[j];
      CommitDecodes(d, a[j], b[j]);
    }
    MapFromContents(m, n, (c: CommitMsg) => c.nodeId, ks, ls);
  }

  /** Two voties whose preimages are the same bytes are the same votie, certificates
      included. */
  lemma VotieDecodes(d: Digests, v: Votie, w: Votie, ps: seq<nat>, cs: seq<nat>, qs: seq<nat>, ds: seq<nat>)
    requires d.CollisionFree() && Keyed(v) && Keyed(w)
    requires Lists(ps, v.prepares) && Lists(cs, v.commits) && Lists(qs, w.prepares) && Lists(ds, w.commits)
    requires Encode(VotieTree(d, v, ps, cs)) == Encode(VotieTree(d, w, qs, ds))
    ensures v == w
  {
    VotieWf(d, v, ps, cs);
    VotieWf(d, w, qs, ds);
    EncodeInjective(VotieTree(d, v, ps, cs), VotieTree(d, w, qs, ds));
    hide Encode, Wf, IdFields, Hex, Decimal;
    DecimalsDiffer(v.term, w.term);
    DecimalsDiffer(v.height, w.height);
    HexesDiffer(d.ofBlock(v.block), d.ofBlock(w.block));
    IdFieldsDiffer("PrepareMsgId", PrepareIds(d, Contents(v.prepares, ps)), PrepareIds(d, Contents(w.prepares, qs)));
    IdFieldsDiffer("CommitMsgId", CommitIds(d, Contents(v.commits, cs)), CommitIds(d, Contents(w.commits, ds)));
    PreparesFromIds(d, v.prepares, w.prepares, ps, qs);
    CommitsFromIds(d, v.commits, w.commits, cs, ds);
  }

  /** No prepare, commit and votie share a preimage. */
  lemma KindsDiffer(d: Digests, p: PrepareMsg, c: CommitMsg, v: Votie, ps: seq<nat>, cs: seq<nat>)
    requires forall k :: k in ps ==> k in v.prepares
    requires forall k :: k in cs ==> k in v.commits
    ensures Encode(PrepareTree(d, p)) != Encode(CommitTree(d, c))
    ensures Encode(PrepareTree(d, p)) != Encode(VotieTree(d, v, ps, cs))
    ensures Encode(CommitTree(d, c)) != Encode(VotieTree(d, v, ps, cs))
  {
    PrepareWf(d, p);
    CommitWf(d, c);
    VotieWf(d, v, ps, cs);
    DifferentNames(PrepareTree(d, p), CommitTree(d, c), 0);
    DifferentNames(PrepareTree(d, p), VotieTree(d, v, ps, cs), 0);
    DifferentNames(CommitTree(d, c), VotieTree(d, v, ps, cs), 0);
  }

  lemma DifferentNames(f: Field, g: Field, k: nat)
    requires Wf(f) && Wf(g) && k < |f.name| && k < |g.name| && f.name[k] != g.name[k]
    ensures Encode(f) != Encode(g)
  {
    if Encode(f) == Encode(g) { EncodeInjective(f, g); }
  }

  // ---------------------------------------------------------------- feeding

  class Hasher256 {
    /** The bytes fed so far. */
    var fed: string

    constructor ()
      ensures fed == ""
    {
      fed := "";
    }

    method FeedText(data: string)
      modifies this
      ensures fed == old(fed) + data
    {
      fed := fed + data;
    }

    method FeedTextField(name: string, data: string)
      modifies this
      ensures fed == old(fed) + Encode(Field(name, data, End))
    {
      FeedText("<" + name + " ");
      FeedText(data);
      FeedText(">");
      assert Encode(Field(name, data, End)) == "<" + name + " " + data + "" + ">";
    }

    method FeedBinField(name: string, data: seq<Byte>)
      modifies this
      ensures fed == old(fed) + Encode(BinField(name, data))
    {
      FeedTextField(name, Hex(data));
    }

    method FeedInt64Field(name: string, n: int)
      modifies this
      ensures fed == old(fed) + Encode(IntField(name, n))
    {
      FeedTextField(name, Decimal(n));
    }

    /** The three fields every kind starts with. */
    method FeedInfo(d: Digests, term: nat, height: nat, block: Block, ghost rest: Fields)
      modifies this
      ensures fed + EncodeAll(rest) == old(fed) + EncodeAll(InfoFields(d, term, height, block, rest))
    {
      hide Encode, EncodeAll, InfoFields, IntField, BinField;
      FeedInt64Field("Term", term);
      FeedInt64Field("Height", height);
      FeedBinField("BlockId", d.ofBlock(block));
      InfoEncodes(d, term, height, block, rest);
    }

    method FeedPrepareMsgFields(d: Digests, p: PrepareMsg)
      modifies this
      ensures fed == old(fed) + Encode(PrepareTree(d, p))
    {
      hide Encode, EncodeAll, InfoFields, IntField;
      ghost var last := More(IntField("NodeId", p.nodeId), End);
      FeedText("<" + "PrepareMsg" + " ");
      FeedInfo(d, p.term, p.height, p.block, last);
      FeedInt64Field("NodeId", p.nodeId);
      FeedText(">");
      EncodeLast(IntField("NodeId", p.nodeId));
      GroupEncodes("PrepareMsg", PrepareTree(d, p).kids);
    }

    method FeedCommitMsgFields(d: Digests, c: CommitMsg)
      modifies this
      ensures fed == old(fed) + Encode(CommitTree(d, c))
    {
      hide Encode, EncodeAll, InfoFields, IntField;
      ghost var last := More(IntField("NodeId", c.nodeId), End);
      FeedText("<" + "CommitMsg" + " ");
      FeedInfo(d, c.term, c.height, c.block, last);
      FeedInt64Field("NodeId", c.nodeId);
      FeedText(">");
      EncodeLast(IntField("NodeId", c.nodeId));
      GroupEncodes("CommitMsg", CommitTree(d, c).kids);
    }

    /** Feeds the ids one after another. */
    method FeedIds(name: string, ids: seq<seq<Byte>>)
      modifies this
      ensures fed == old(fed) + EncodeAll(IdFields(name, ids))
    {
      hide Encode, EncodeAll, IdFields, BinField;
      IdsEncode(name, ids, 0);
      var k := 0;
      while k < |ids|
        invariant 0 <= k <= |ids|
        invariant fed + EncodeAll(IdFields(name, ids[k..])) == old(fed) + EncodeAll(IdFields(name, ids))
      {
        IdsEncode(name, ids, k);
        FeedBinField(name, ids[k]);
        k := k + 1;
      }
      IdsEncode(name, ids, k);
    }

    method FeedIdGroup(group: string, name: string, ids: seq<seq<Byte>>)
      modifies this
      ensures fed == old(fed) + Encode(Field(group, "", IdFields(name, ids)))
    {
      hide Encode, EncodeAll, IdFields;
      FeedText("<" + group + " ");
      FeedIds(name, ids);
      FeedText(">");
      GroupEncodes(group, IdFields(name, ids));
    }

    /** feedVotieFields: it collects the keys of each map, in whatever order the map gives
        them, and sorts them before feeding. */
    method FeedVotieFields(d: Digests, v: Votie) returns (ghost ps: seq<nat>, ghost cs: seq<nat>)
      modifies this
      ensures Lists(ps, v.prepares) && Lists(cs, v.commits)
      ensures fed == old(fed) + Encode(VotieTree(d, v, ps, cs))
    {
      hide Encode, EncodeAll, InfoFields, IdFields, Contents, PrepareIds, CommitIds, Increasing;
      var prepareKeys := SortedKeys(v.prepares.Keys);
      var commitKeys := SortedKeys(v.commits.Keys);
      ps, cs := prepareKeys, commitKeys;
      var prepareIds := PrepareIds(d, Contents(v.prepares, prepareKeys));
      var commitIds := CommitIds(d, Contents(v.commits, commitKeys));
      ghost var prepares := Field("Prepares", "", IdFields("PrepareMsgId", prepareIds));
      ghost var commits := Field("Commits", "", IdFields("CommitMsgId", commitIds));
      ghost var last := More(prepares, More(commits, End));

      FeedText("<" + "Votie" + " ");
      ghost var start := fed;
      FeedInfo(d, v.term, v.height, v.block, last);
      ghost var begun := fed;
      FeedIdGroup("Prepares", "PrepareMsgId", prepareIds);
      FeedIdGroup("Commits", "CommitMsgId", commitIds);
      FeedText(">");

      ghost var kids := InfoFields(d, v.term, v.height, v.block, last);
      EncodeLast(commits);
      MoreEncodes(prepares, More(commits, End));
      Regroup(begun, Encode(prepares), Encode(commits), start, EncodeAll(kids));
      GroupEncodes("Votie", kids);
    }
  }

  lemma Regroup(begun: string, a: string, b: string, start: string, kids: string)
    requires begun + (a + b) == start + kids
    ensures begun + a + b + ">" == start + kids + ">"
  {
    assert begun + a + b == begun + (a + b);
  }

  /** A map's keys in the order its iteration happens to give them, then sorted. */
  method SortedKeys(keys: set<nat>) returns (sorted: seq<nat>)
    ensures Increasing(sorted) && forall k :: k in sorted <==> k in keys
  {
    var mapKeys: seq<nat> := [];
    var rest := keys;
    while rest != {}
      invariant rest <= keys
      invariant forall k :: k in mapKeys <==> k in keys && k !in rest
      invariant forall i, j :: 0 <= i < j < |mapKeys| ==> mapKeys[i] != mapKeys[j]
      decreases rest
    {
      var k :| k in rest;
      mapKeys := mapKeys + [k];
      rest := rest - {k};
    }
    SortSorts(mapKeys);
    sorted := Sort(mapKeys);
  }

  function Insert(s: seq<nat>, x: nat): seq<nat> {
    if s == [] || x < s[0] then [x] + s else [s[0]] + Insert(s[1..], x)
  }

  /** Stands for the library's sort.Sort. */
  function Sort(s: seq<nat>): seq<nat> {
    if s == [] then [] else Insert(Sort(s[..|s| - 1]), s[|s| - 1])
  }

  lemma {:induction false} InsertSorts(s: seq<nat>, x: nat)
    requires Increasing(s) && x !in s
    ensures Increasing(Insert(s, x)) && forall k :: k in Insert(s, x) <==> k == x || k in s
  {
    if s != [] && x >= s[0] {
      InsertSorts(s[1..], x);
      var t := Insert(s[1..], x);
      assert s == [s[0]] + s[1..];
      forall j | 0 <= j < |t| ensures s[0] < t[j] {
        assert t[j] in t;
      }
    }
  }

  lemma {:induction false} SortSorts(s: seq<nat>)
    requires forall i, j :: 0 <= i < j < |s| ==> s[i] != s[j]
    ensures Increasing(Sort(s)) && forall k :: k in Sort(s) <==> k in s
  {
    if s != [] {
      var n := |s| - 1;
      SortSorts(s[..n]);
      InsertSorts(Sort(s[..n]), s[n]);
      assert s == s[..n] + [s[n]];
    }
  }

  /** The bytes fed for a votie do not depend on the order the maps were iterated in. */
  lemma VotieOrderFree(d: Digests, v: Votie, ps: seq<nat>, cs: seq<nat>, qs: seq<nat>, ds: seq<nat>)
    requires Lists(ps, v.prepares) && Lists(cs, v.commits) && Lists(qs, v.prepares) && Lists(ds, v.commits)
    ensures Encode(VotieTree(d, v, ps, cs)) == Encode(VotieTree(d, v, qs, ds))
  {
    OneListing(ps, qs);
    OneListing(cs, ds);
  }

  lemma MoreEncodes(f: Field, rest: Fields)
    ensures EncodeAll(More(f, rest)) == Encode(f) + EncodeAll(rest)
  {
  }

  lemma InfoEncodes(d: Digests, term: nat, height: nat, block: Block, rest: Fields)
    ensures EncodeAll(InfoFields(d, term, height, block, rest))
            == Encode(IntField("Term", term)) + Encode(IntField("Height", height))
               + Encode(BinField("BlockId", d.ofBlock(block))) + EncodeAll(rest)
  {
    hide Encode, EncodeAll, IntField, BinField;
    var c := More(BinField("BlockId", d.ofBlock(block)), rest);
    MoreEncodes(BinField("BlockId", d.ofBlock(block)), rest);
    MoreEncodes(IntField("Height", height), c);
    MoreEncodes(IntField("Term", term), More(IntField("Height", height), c));
  }

  lemma IdsEncode(name: string, ids: seq<seq<Byte>>, k: nat)
    requires k <= |ids|
    ensures ids[0..] == ids
    ensures EncodeAll(IdFields(name, ids[k..]))
            == if k == |ids| then "" else Encode(BinField(name, ids[k])) + EncodeAll(IdFields(name, ids[k + 1..]))
  {
    if k < |ids| {
      assert ids[k..][0] == ids[k] && ids[k..][1..] == ids[k + 1..];
    }
  }

  lemma EncodeLast(f: Field)
    ensures EncodeAll(More(f, End)) == Encode(f)
  {
  }

  lemma GroupEncodes(name: string, kids: Fields)
    ensures Encode(Field(name, "", kids)) == ("<" + name + " ") + EncodeAll(kids) + ">"
  {
  }
}
