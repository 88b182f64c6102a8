/** Sign-once: handling a sign request for a BTC or BCH transaction
    (primitives/blockstore.go), and what quorums of signatures it allows. The handler
    takes no lock between reading the sign record and writing it, so it is two steps
    here, with the requests of other leaders and goroutines in between. */
module SignSafety {
  import opened ClusterParams
  import opened Protocol

  /** A request to sign newlyTx as the payout of the watched transaction txid. */
  datatype SignRequest = SignRequest(term: nat, txid: string, newlyTx: nat)

  datatype Code = Signed | Reject | NeedSync | Silent

  /** What the checks read besides the sign record: the node term, read when the handler
      starts, validateWatchedTx, whether the transaction is in the pool or committed, and
      the outputs. */
  datatype Answers = Answers(nodeTerm: nat, watchedOk: bool, alreadyDone: bool, outputsOk: bool)

  datatype Verdict = Passed | Failed | Ahead

  /** A request whose checks are over and whose record is not written yet. */
  datatype Flight = Flight(msg: SignRequest, verdict: Verdict)

  /** A node's sign records by txid, every signature it has given, and what is in flight. */
  datatype Signer = Signer(records: map<string, SignRequest>, given: set<(string, nat)>, inFlight: seq<Flight>)

  /** What the checks decide; a request of an earlier term is dropped. */
  function Judge(records: map<string, SignRequest>, msg: SignRequest, a: Answers): Option<Flight> {
    if msg.term < a.nodeTerm then None
    else if msg.term > a.nodeTerm then Some(Flight(msg, Ahead))
    else if !a.watchedOk || a.alreadyDone || msg.txid in records || !a.outputsOk
    then Some(Flight(msg, Failed))
    else Some(Flight(msg, Passed))
  }

  function Check(s: Signer, msg: SignRequest, a: Answers): Signer {
    match Judge(s.records, msg, a)
    case None => s
    case Some(f) => s.(inFlight := s.inFlight + [f])
  }

  /** Signing with the wallet and writing the record, which every branch does. */
  function Finish(s: Signer, k: nat, walletOk: bool): Signer {
    if k >= |s.inFlight| then s
    else
      var f := s.inFlight[k];
      Signer(s.records[f.msg.txid := f.msg],
             if f.verdict.Passed? && walletOk then s.given + {(f.msg.txid, f.msg.newlyTx)} else s.given,
             s.inFlight[..k] + s.inFlight[k + 1..])
  }

  /** The answer sent back. */
  function CodeOf(f: Option<Flight>, walletOk: bool): Code {
    match f
    case None => Silent
    case Some(Flight(_, Ahead)) => NeedSync
    case Some(Flight(_, Failed)) => Reject
    case Some(Flight(_, Passed)) => if walletOk then Signed else Reject
  }

  /** The same as the source writes it, on the database and the wallet. */
  class SignStore {
    var term: nat
    var signMsgs: map<string, SignRequest>
    ghost var given: set<(string, nat)>
    ghost var inFlight: seq<Flight>

    ghost function State(): Signer
      reads this
    {
      Signer(signMsgs, given, inFlight)
    }

    constructor (term: nat)
      ensures this.term == term && State() == Signer(map[], {}, [])
    {
      this.term, signMsgs, given, inFlight := term, map[], {}, [];
    }

    method BaseCheck(msg: SignRequest, a: Answers) returns (ok: bool)
      ensures ok <==> a.watchedOk && !a.alreadyDone && msg.txid !in signMsgs
    {
      if !a.watchedOk { return false; }
      if a.alreadyDone { return false; }
      ok := msg.txid !in signMsgs;
    }

    /** handleSignTx up to the wallet. */
    method CheckSignTx(msg: SignRequest, a: Answers) returns (flight: Option<Flight>)
      modifies this`inFlight
      ensures flight == Judge(signMsgs, msg, a)
      ensures State() == Check(old(State()), msg, a)
    {
      flight := None;
      if msg.term > a.nodeTerm {
        flight := Some(Flight(msg, Ahead));
      } else if msg.term == a.nodeTerm {
        var ok := BaseCheck(msg, a);
        flight := Some(Flight(msg, if ok && a.outputsOk then Passed else Failed));
      }
      if flight.Some? { inFlight := inFlight + [flight.value]; }
    }

    /** The rest of it, for the request in flight at position k. */
    method FinishSignTx(flight: Flight, ghost k: nat, walletOk: bool) returns (code: Code)
      requires k < |inFlight| && inFlight[k] == flight
      modifies this
      ensures State() == Finish(old(State()), k, walletOk) && term == old(term)
      ensures code == CodeOf(Some(flight), walletOk)
    {
      var msg := flight.msg;
      signMsgs := signMsgs[msg.txid := msg];
      inFlight := inFlight[..k] + inFlight[k + 1..];
      match flight.verdict {
        case Ahead => code := NeedSync;
        case Failed => code := Reject;
        case Passed =>
          if !walletOk { return Reject; }
          given := given + {(msg.txid, msg.newlyTx)};
          code := Signed;
      }
    }

    /** A request that nothing comes in between of. */
    method HandleSignTx(msg: SignRequest, a: Answers, walletOk: bool) returns (code: Code)
      modifies this
      ensures var read := a.(nodeTerm := term);
              && code == CodeOf(Judge(old(signMsgs), msg, read), walletOk)
              && State() == Finish(Check(old(State()), msg, read), |old(inFlight)|, walletOk)
      ensures term == old(term) && inFlight == old(inFlight)
      ensures msg.term >= term ==> code != Silent && msg.txid in signMsgs
    {
      var flight := CheckSignTx(msg, a.(nodeTerm := term));
      if flight.None? { return Silent; }
      code := FinishSignTx(flight.value, |inFlight| - 1, walletOk);
      assert inFlight == old(inFlight);
    }
  }

  // -------------------------------------------------------------------- runs

  /** What happens at one node: the checks of a request, the end of one in flight,
      clearOnFail and checkSignTimeout deleting the sign record of a transaction, and a
      restart, which what is in flight does not survive. */
  datatype Step = OnCheck(msg: SignRequest, answers: Answers)
                | OnFinish(k: nat, walletOk: bool)
                | OnClear(txid: string)
                | OnRestart

  function Take(s: Signer, x: Step): Signer {
    match x
    case OnCheck(msg, a) => Check(s, msg, a)
    case OnFinish(k, walletOk) => Finish(s, k, walletOk)
    case OnClear(txid) => s.(records := s.records - {txid})
    case OnRestart => s.(inFlight := [])
  }

  function After(xs: seq<Step>): Signer {
    if xs == [] then Signer(map[], {}, []) else Take(After(xs[..|xs| - 1]), xs[|xs| - 1])
  }

  /** A request in flight that a signature for txid can still come of. */
  predicate MaySign(s: Signer, f: Flight, txid: string) {
    f in s.inFlight && f.verdict.Passed? && f.msg.txid == txid
  }

  /** Such a request for the same transaction and another payout. */
  ghost predicate Rivalled(s: Signer, msg: SignRequest) {
    exists f :: MaySign(s, f, msg.txid) && f.msg.newlyTx != msg.newlyTx
  }

  ghost predicate OverlapAt(xs: seq<Step>, txid: string, n: nat) {
    && n < |xs| && xs[n].OnCheck? && xs[n].msg.txid == txid
    && Judge(After(xs[..n]).records, xs[n].msg, xs[n].answers) == Some(Flight(xs[n].msg, Passed))
    && Rivalled(After(xs[..n]), xs[n].msg)
  }

  /** A request passes its checks while one for another payout of the same transaction has
      passed them and has not been recorded. Handling the requests for one transaction one
      at a time excludes it. */
  ghost predicate Overlaps(xs: seq<Step>, txid: string) {
    exists n :: OverlapAt(xs, txid, n)
  }

  /** What is in flight after the first n steps, ended in some order. */
  predicate Ends(rs: seq<Step>) {
    forall r :: r in rs ==> r.OnFinish?
  }

  ghost predicate TwoPayouts(s: Signer, txid: string) {
    exists x, y :: (txid, x) in s.given && (txid, y) in s.given && x != y
  }

  /** At some time the requests in flight can end so that two payouts are signed. */
  ghost predicate CanSignTwo(xs: seq<Step>, txid: string) {
    exists n: nat, rs :: n <= |xs| && Ends(rs) && TwoPayouts(After(xs[..n] + rs), txid)
  }

  // ---------------------------------------------------------------- sign-once

  /** Everything the node has signed for txid, or may still sign, is one payout, and what
      it has signed is on record. */
  ghost predicate SignOnce(s: Signer, txid: string) {
    && (forall x :: (txid, x) in s.given ==> txid in s.records)
    && (forall x, y :: (txid, x) in s.given && (txid, y) in s.given ==> x == y)
    && (forall x, f :: (txid, x) in s.given && MaySign(s, f, txid) ==> f.msg.newlyTx == x)
    && (forall f, g :: MaySign(s, f, txid) && MaySign(s, g, txid) ==> f.msg.newlyTx == g.msg.newlyTx)
  }

  lemma FinishKeeps(s: Signer, k: nat, walletOk: bool, txid: string)
    requires SignOnce(s, txid)
    ensures SignOnce(Finish(s, k, walletOk), txid)
  {
    if k < |s.inFlight| {
      var s' := Finish(s, k, walletOk);
      var f := s.inFlight[k];
      assert f in s.inFlight;
      assert forall g :: g in s'.inFlight ==> g in s.inFlight;
    }
  }

  lemma CheckKeeps(s: Signer, msg: SignRequest, a: Answers, txid: string)
    requires SignOnce(s, txid)
    requires msg.txid == txid && Judge(s.records, msg, a) == Some(Flight(msg, Passed)) ==> !Rivalled(s, msg)
    ensures SignOnce(Check(s, msg, a), txid)
  {
    var s' := Check(s, msg, a);
    assert forall g :: g in s'.inFlight ==> g in s.inFlight || Judge(s.records, msg, a) == Some(g);
  }

  lemma {:induction false} PrefixKeeps(xs: seq<Step>, txid: string, n: nat)
    requires OnClear(txid) !in xs && !Overlaps(xs, txid) && n <= |xs|
    ensures SignOnce(After(xs[..n]), txid)
  {
    if n > 0 {
      PrefixKeeps(xs, txid, n - 1);
      var s, x := After(xs[..n - 1]), xs[n - 1];
      assert xs[..n][..n - 1] == xs[..n - 1] && x in xs;
      assert !OverlapAt(xs, txid, n - 1);
      hide SignOnce, Overlaps, After, Check, Finish;
      match x
      case OnCheck(msg, a) => CheckKeeps(s, msg, a, txid);
      case OnFinish(k, walletOk) => FinishKeeps(s, k, walletOk, txid);
      case OnClear(other) => ClearKeeps(s, other, txid);
      case OnRestart => RestartKeeps(s, txid);
    } else {
      StartsSignOnce(xs, txid);
    }
  }

  lemma ClearKeeps(s: Signer, other: string, txid: string)
    requires SignOnce(s, txid) && other != txid
    ensures SignOnce(s.(records := s.records - {other}), txid)
  {
  }

  lemma RestartKeeps(s: Signer, txid: string)
    requires SignOnce(s, txid)
    ensures SignOnce(s.(inFlight := []), txid)
  {
  }

  lemma StartsSignOnce(xs: seq<Step>, txid: string)
    ensures SignOnce(After(xs[..0]), txid)
  {
  }

  lemma {:induction false} EndsKeep(xs: seq<Step>, rs: seq<Step>, txid: string)
    requires SignOnce(After(xs), txid) && Ends(rs)
    ensures SignOnce(After(xs + rs), txid)
  {
    hide SignOnce, Finish;
    if rs == [] {
      assert xs + rs == xs;
    } else {
      var r := rs[|rs| - 1];
      var ys := xs + rs;
      assert ys[..|ys| - 1] == xs + rs[..|rs| - 1] && ys[|ys| - 1] == r;
      EndsKeep(xs, rs[..|rs| - 1], txid);
      FinishKeeps(After(xs + rs[..|rs| - 1]), r.k, r.walletOk, txid);
    }
  }

  lemma AfterOne(xs: seq<Step>, x: Step)
    ensures After(xs + [x]) == Take(After(xs), x)
  {
    assert (xs + [x])[..|xs|] == xs;
  }

  /** Two passed requests in flight with different payouts are both signed if they end. */
  lemma BothSigned(xs: seq<Step>, txid: string, k: nat, n: nat)
    requires k < n < |After(xs).inFlight|
    requires var f, g := After(xs).inFlight[k], After(xs).inFlight[n];
             f == Flight(f.msg, Passed) && g == Flight(g.msg, Passed) && f.msg.txid == g.msg.txid == txid
             && f.msg.newlyTx != g.msg.newlyTx
    ensures TwoPayouts(After(xs + [OnFinish(n, true), OnFinish(k, true)]), txid)
  {
    var rs := [OnFinish(n, true), OnFinish(k, true)];
    assert xs + rs == xs + [rs[0]] + [rs[1]];
    AfterOne(xs, rs[0]);
    AfterOne(xs + [rs[0]], rs[1]);
    var s := After(xs);
    var s1, s2 := Finish(s, n, true), After(xs + rs);
    assert s1.inFlight[k] == s.inFlight[k];
    assert (txid, s.inFlight[n].msg.newlyTx) in s2.given && (txid, s.inFlight[k].msg.newlyTx) in s2.given;
  }

  lemma OverlapSigns(xs: seq<Step>, txid: string, n: nat)
    requires OverlapAt(xs, txid, n)
    ensures CanSignTwo(xs, txid)
  {
    var s, msg := After(xs[..n]), xs[n].msg;
    var f :| MaySign(s, f, msg.txid) && f.msg.newlyTx != msg.newlyTx;
    var k: nat :| k < |s.inFlight| && s.inFlight[k] == f;
    assert xs[..n + 1] == xs[..n] + [xs[n]];
    AfterOne(xs[..n], xs[n]);
    assert After(xs[..n + 1]).inFlight == s.inFlight + [Flight(msg, Passed)];
    hide Take;
    BothSigned(xs[..n + 1], txid, k, |s.inFlight|);
    assert Ends([OnFinish(|s.inFlight|, true), OnFinish(k, true)]);
  }

  /** A node that never deletes its record of a transaction can come to sign two payouts of
      it exactly when two requests for different ones overlap. */
  lemma SignsTwoIff(xs: seq<Step>, txid: string)
    requires OnClear(txid) !in xs
    ensures CanSignTwo(xs, txid) <==> Overlaps(xs, txid)
  {
    hide After, OverlapAt, Judge;
    if Overlaps(xs, txid) {
      var n :| OverlapAt(xs, txid, n);
      OverlapSigns(xs, txid, n);
    } else if CanSignTwo(xs, txid) {
      var n: nat, rs :| n <= |xs| && Ends(rs) && TwoPayouts(After(xs[..n] + rs), txid);
      PrefixKeeps(xs, txid, n);
      EndsKeep(xs[..n], rs, txid);
      assert false;
    }
  }

  /** Without an overlap it signs one payout at most, whatever requests and terms it sees. */
  lemma SignsOnce(xs: seq<Step>, txid: string, x: nat, y: nat)
    requires OnClear(txid) !in xs && !Overlaps(xs, txid)
    requires (txid, x) in After(xs).given && (txid, y) in After(xs).given
    ensures x == y
  {
    hide After, Overlaps;
    assert xs[..|xs|] == xs;
    PrefixKeeps(xs, txid, |xs|);
  }

  // ------------------------------------------------------ what a signature needs

  /** The request is of the node's term, its transaction is watched, not done and not on
      record, and its outputs pay what was asked. */
  predicate Signable(records: map<string, SignRequest>, msg: SignRequest, a: Answers) {
    msg.term == a.nodeTerm && a.watchedOk && !a.alreadyDone && a.outputsOk && msg.txid !in records
  }

  /** The answer to a request: nothing to an old one, NEEDSYNC to one of a later term, a
      signature exactly when the request is signable and the wallet signs, else REJECT. */
  lemma AnswerIs(records: map<string, SignRequest>, msg: SignRequest, a: Answers, walletOk: bool)
    ensures var code := CodeOf(Judge(records, msg, a), walletOk);
            && (code == Silent <==> msg.term < a.nodeTerm)
            && (code == NeedSync <==> msg.term > a.nodeTerm)
            && (code == Signed <==> Signable(records, msg, a) && walletOk)
            && (code == Reject <==> msg.term == a.nodeTerm && !(Signable(records, msg, a) && walletOk))
  {
  }

  /** A request that nothing comes in between of leaves a record of itself unless it is old,
      and its signature exactly when it was signable and the wallet signs. */
  lemma RequestLeaves(s: Signer, msg: SignRequest, a: Answers, walletOk: bool)
    ensures var s' := Finish(Check(s, msg, a), |s.inFlight|, walletOk);
            && s'.inFlight == s.inFlight
            && s'.records == (if msg.term < a.nodeTerm then s.records else s.records[msg.txid := msg])
            && s'.given == s.given + if Signable(s.records, msg, a) && walletOk
                                     then {(msg.txid, msg.newlyTx)} else {}
  {
    if msg.term >= a.nodeTerm {
      var f := Judge(s.records, msg, a).value;
      assert (s.inFlight + [f])[..|s.inFlight|] + (s.inFlight + [f])[|s.inFlight| + 1..] == s.inFlight;
    }
  }

  /** The n-th step is a check of a signable request for this payout. */
  ghost predicate CheckedAt(xs: seq<Step>, txid: string, x: nat, n: nat) {
    && n < |xs| && xs[n].OnCheck? && xs[n].msg.txid == txid && xs[n].msg.newlyTx == x
    && Signable(After(xs[..n]).records, xs[n].msg, xs[n].answers)
  }

  ghost predicate WasChecked(xs: seq<Step>, txid: string, x: nat) {
    exists n: nat :: CheckedAt(xs, txid, x, n)
  }

  lemma CheckedBefore(xs: seq<Step>, y: Step, txid: string, x: nat)
    requires WasChecked(xs, txid, x)
    ensures WasChecked(xs + [y], txid, x)
  {
    var n: nat :| CheckedAt(xs, txid, x, n);
    assert (xs + [y])[..n] == xs[..n];
    assert CheckedAt(xs + [y], txid, x, n);
  }

  lemma {:induction false} PassedWasChecked(xs: seq<Step>)
    ensures forall txid, x :: (txid, x) in After(xs).given ==> WasChecked(xs, txid, x)
    ensures forall f :: f in After(xs).inFlight && f.verdict.Passed? ==>
              WasChecked(xs, f.msg.txid, f.msg.newlyTx)
  {
    if xs != [] {
      var front, y := xs[..|xs| - 1], xs[|xs| - 1];
      assert xs == front + [y];
      PassedWasChecked(front);
      var s := After(front);
      forall txid, x | WasChecked(front, txid, x) ensures WasChecked(xs, txid, x) {
        CheckedBefore(front, y, txid, x);
      }
      if y.OnFinish? {
        FinishGives(s, y.k, y.walletOk);
      } else if y.OnCheck? && Judge(s.records, y.msg, y.answers) == Some(Flight(y.msg, Passed)) {
        assert CheckedAt(xs, y.msg.txid, y.msg.newlyTx, |front|);
      }
    }
  }

  lemma FinishGives(s: Signer, k: nat, walletOk: bool)
    ensures var s' := Finish(s, k, walletOk);
            && (forall f :: f in s'.inFlight ==> f in s.inFlight)
            && (forall txid, x :: (txid, x) in s'.given && (txid, x) !in s.given ==>
                  exists f :: f in s.inFlight && f.verdict.Passed? && f.msg.txid == txid && f.msg.newlyTx == x)
  {
    if k < |s.inFlight| {
      assert s.inFlight[k] in s.inFlight;
    }
  }

  /** NO SIGNATURE WITHOUT ITS CHECKS. In any history, deletions, restarts and overlaps
      included, a payout the node has signed was, at some time, asked for by a request of
      the node's term for a watched transaction that was not done and not on record, with
      outputs that pay what was asked. */
  lemma SignedWasChecked(xs: seq<Step>, txid: string, x: nat)
    requires (txid, x) in After(xs).given
    ensures WasChecked(xs, txid, x)
  {
    PassedWasChecked(xs);
  }

  // ------------------------------------------------------------------ quorums

  /** The nodes of a cluster whose signature on newlyTx for txid exists: an honest node's
      when its history gave it, a faulty node's always. */
  function Signers(histories: seq<seq<Step>>, faulty: set<nat>, txid: string, newlyTx: nat): set<nat> {
    set i | 0 <= i < |histories| && (i in faulty || (txid, newlyTx) in After(histories[i]).given)
  }

  /** Signing safety: if every honest node keeps its record and handles the requests for the
      transaction without overlap, and at most MaxFaulty nodes are faulty, at most one
      payout of it gathers a quorum of signatures. */
  lemma OnePayout(histories: seq<seq<Step>>, faulty: set<nat>, txid: string, x: nat, y: nat)
    requires |histories| >= 1 && |faulty| <= MaxFaulty(|histories|)
    requires forall i :: 0 <= i < |histories| && i !in faulty ==>
               OnClear(txid) !in histories[i] && !Overlaps(histories[i], txid)
    requires |Signers(histories, faulty, txid, x)| >= Quorum(|histories|)
    requires |Signers(histories, faulty, txid, y)| >= Quorum(|histories|)
    ensures x == y
  {
    hide After, Overlaps;
    var n := |histories|;
    var a, b := Signers(histories, faulty, txid, x), Signers(histories, faulty, txid, y);
    QuorumsIntersect(n, a, b, Quorum(n), Quorum(n));
    if a * b <= faulty { SubsetSize(a * b, faulty); }
    var i :| i in a * b && i !in faulty;
    SignsOnce(histories[i], txid, x, y);
  }

  const FINE := Answers(0, true, false, true)

  /** The histories of a node that signs x, deletes its record and signs y, and of one that
      has the request for y in hand before it records that for x. */
  function SignClearSign(txid: string, x: nat, y: nat): seq<Step> {
    [OnCheck(SignRequest(0, txid, x), FINE), OnFinish(0, true), OnClear(txid),
     OnCheck(SignRequest(0, txid, y), FINE), OnFinish(0, true)]
  }

  function CheckTwiceSignTwice(txid: string, x: nat, y: nat): seq<Step> {
    [OnCheck(SignRequest(0, txid, x), FINE), OnCheck(SignRequest(0, txid, y), FINE),
     OnFinish(0, true), OnFinish(0, true)]
  }

  lemma SignClearSignGives(txid: string, x: nat, y: nat)
    ensures (txid, x) in After(SignClearSign(txid, x, y)).given
    ensures (txid, y) in After(SignClearSign(txid, x, y)).given
  {
    var xs := SignClearSign(txid, x, y);
    assert xs == [] + [xs[0]] + [xs[1]] + [xs[2]] + [xs[3]] + [xs[4]];
    AfterOne([], xs[0]);
    AfterOne([] + [xs[0]], xs[1]);
    AfterOne([] + [xs[0]] + [xs[1]], xs[2]);
    AfterOne([] + [xs[0]] + [xs[1]] + [xs[2]], xs[3]);
    AfterOne([] + [xs[0]] + [xs[1]] + [xs[2]] + [xs[3]], xs[4]);
  }

  lemma CheckTwiceGives(txid: string, x: nat, y: nat)
    ensures (txid, x) in After(CheckTwiceSignTwice(txid, x, y)).given
    ensures (txid, y) in After(CheckTwiceSignTwice(txid, x, y)).given
  {
    var xs := CheckTwiceSignTwice(txid, x, y);
    assert xs == [] + [xs[0]] + [xs[1]] + [xs[2]] + [xs[3]];
    AfterOne([], xs[0]);
    AfterOne([] + [xs[0]], xs[1]);
    AfterOne([] + [xs[0]] + [xs[1]], xs[2]);
    AfterOne([] + [xs[0]] + [xs[1]] + [xs[2]], xs[3]);
  }

  lemma AllSign(n: nat, xs: seq<Step>, txid: string, x: nat)
    requires n >= 1 && (txid, x) in After(xs).given
    ensures |Signers(seq(n, _ => xs), {}, txid, x)| >= Quorum(n)
  {
    hide After;
    var histories := seq(n, _ => xs);
    IdsSize(n);
    assert forall i :: 0 <= i < n ==> histories[i] == xs;
    assert Signers(histories, {}, txid, x) == Ids(n);
  }

  /** Deleting the record is one thing the guarantee cannot stand: in a cluster of any size,
      with no faulty node at all, two payouts of one transaction then gather quorums. */
  lemma TwoPayoutsAfterClear(n: nat, txid: string, x: nat, y: nat)
    requires n >= 1
    ensures var histories := seq(n, _ => SignClearSign(txid, x, y));
            && |Signers(histories, {}, txid, x)| >= Quorum(n)
            && |Signers(histories, {}, txid, y)| >= Quorum(n)
  {
    hide After, SignClearSign;
    SignClearSignGives(txid, x, y);
    AllSign(n, SignClearSign(txid, x, y), txid, x);
    AllSign(n, SignClearSign(txid, x, y), txid, y);
  }

  /** Overlapping requests are the other: with no faulty node and no record deleted, two
      payouts gather quorums if every node has both in flight together. */
  lemma TwoPayoutsInFlight(n: nat, txid: string, x: nat, y: nat)
    requires n >= 1
    ensures OnClear(txid) !in CheckTwiceSignTwice(txid, x, y)
    ensures var histories := seq(n, _ => CheckTwiceSignTwice(txid, x, y));
            && |Signers(histories, {}, txid, x)| >= Quorum(n)
            && |Signers(histories, {}, txid, y)| >= Quorum(n)
  {
    hide After;
    CheckTwiceGives(txid, x, y);
    AllSign(n, CheckTwiceSignTwice(txid, x, y), txid, x);
    AllSign(n, CheckTwiceSignTwice(txid, x, y), txid, y);
  }
}
