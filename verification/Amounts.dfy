/** Amounts: capping what a deposit asks for (proto/pbtypes_ext.go), the burn fee
    (node/leader.go) and the outputs a signer accepts (primitives/blockstore.go). */
module Amounts {
  import opened Protocol

  function Total(list: seq<Recharge>): int {
    if list == [] then 0 else Total(list[..|list| - 1]) + list[|list| - 1].amount
  }

  // ----------------------------------------------------------------- capping

  /** How many entries are looked at before nothing of the amount is left. */
  function Used(left: int, list: seq<Recharge>, k: nat): (n: nat)
    requires k <= |list|
    ensures k <= n <= |list|
    decreases |list| - k
  {
    if k == |list| || left <= 0 then k else Used(left - list[k].amount, list, k + 1)
  }

  /** BtcToPbTx on the amount received and the outputs asked for. */
  method BtcToPbTx(amount: int, list: seq<Recharge>) returns (rst: Option<seq<Recharge>>)
    ensures rst.Some? <==> amount > 0 && list != []
                           && forall k :: 0 <= k < Used(amount, list, 0) ==> list[k].amount > 0
    ensures rst.Some? ==>
              var out := rst.value;
              && |out| == Used(amount, list, 0) >= 1
              && (forall k :: 0 <= k < |out| ==> out[k].address == list[k].address)
              && (forall k :: 0 <= k < |out| ==> 0 < out[k].amount <= list[k].amount)
              && (forall k :: 0 <= k < |out| - 1 ==> out[k] == list[k])
              && Total(out) == Min(amount, Total(list[..|out|]))
              && (|out| < |list| ==> Total(out) == amount)
  {
    if amount <= 0 { return None; }
    if |list| == 0 { return None; }
    var out: seq<Recharge> := [];
    var leftAmount, k := amount, 0;
    while k < |list|
      invariant 0 <= k <= |list| && |out| == k
      invariant leftAmount == amount - Total(list[..k]) && leftAmount > 0
      invariant Used(leftAmount, list, k) == Used(amount, list, 0)
      invariant forall j :: 0 <= j < k ==> list[j].amount > 0
      invariant out == list[..k]
    {
      if list[k].amount <= 0 { return None; }
      var value := if list[k].amount > leftAmount then leftAmount else list[k].amount;
      assert list[..k + 1][..k] == list[..k];
      ghost var before := out;
      out := out + [Recharge(list[k].address, value)];
      assert out[..k] == before;
      leftAmount := leftAmount - list[k].amount;
      k := k + 1;
      if leftAmount <= 0 { break; }
    }
    rst := Some(out);
  }

  /** When every entry is positive, what is paid is the amount received or the total
      asked for, whichever is less. */
  lemma PaysTheLesser(amount: int, list: seq<Recharge>)
    requires amount > 0 && forall k :: 0 <= k < |list| ==> list[k].amount > 0
    ensures Min(amount, Total(list[..Used(amount, list, 0)])) == Min(amount, Total(list))
  {
    UsedEnds(amount, list, 0);
    assert list[..|list|] == list;
    if Used(amount, list, 0) < |list| { PrefixIsLess(list, Used(amount, list, 0)); }
  }

  lemma {:induction false} UsedEnds(left: int, list: seq<Recharge>, k: nat)
    requires k <= |list|
    ensures var n := Used(left, list, k); n < |list| ==> left <= Total(list[..n]) - Total(list[..k])
    decreases |list| - k
  {
    if k < |list| && left > 0 {
      UsedEnds(left - list[k].amount, list, k + 1);
      assert list[..k + 1][..k] == list[..k];
    }
  }

  lemma {:induction false} PrefixIsLess(list: seq<Recharge>, n: nat)
    requires n <= |list| && forall k :: 0 <= k < |list| ==> list[k].amount > 0
    ensures Total(list[..n]) <= Total(list)
  {
    if n < |list| {
      var front := list[..|list| - 1];
      PrefixIsLess(front, n);
      assert front[..n] == list[..n];
    } else {
      assert list[..n] == list;
    }
  }

  // --------------------------------------------------------------------- fees

  /** The burn fee in basis points; amounts and rates are not negative, so Go's division
      rounds down as this one does. */
  function Fee(a: nat, rate: nat): nat { a * rate / 10000 }

  function Net(a: nat, rate: nat): int { a - Fee(a, rate) }

  lemma MulKeepsOrder(a: int, b: int, n: int)
    requires a <= b && n > 0
    ensures a * n <= b * n
  {
  }

  lemma MulReflectsOrder(a: int, b: int, n: int)
    requires a * n < b * n && n > 0
    ensures a < b
  {
    if b <= a { MulKeepsOrder(b, a, n); }
  }

  /** Rounding two amounts down loses at most one unit against rounding their sum. */
  lemma FloorSum(x: nat, y: nat, n: nat)
    requires n > 0
    ensures x / n + y / n <= (x + y) / n <= x / n + y / n + 1
  {
    var p, q, r := x / n, y / n, (x + y) / n;
    assert (p + q) * n == p * n + q * n && (r + 1) * n == r * n + n;
    assert (p + q + 2) * n == p * n + q * n + 2 * n;
    MulReflectsOrder(p + q, r + 1, n);
    MulReflectsOrder(r, p + q + 2, n);
  }

  /** A rate of at most 100 percent leaves between nothing and everything. */
  lemma NetInRange(a: nat, rate: nat)
    requires rate <= 10000
    ensures 0 <= Net(a, rate) <= a
  {
    DifferenceFee(a, 0, rate);
  }

  /** A larger amount never nets less. */
  lemma NetMonotone(a: nat, b: nat, rate: nat)
    requires rate <= 10000 && a <= b
    ensures Net(a, rate) <= Net(b, rate)
  {
    assert b * rate == a * rate + (b - a) * rate;
    DifferenceFee(b - a, a * rate, rate);
  }

  lemma DifferenceFee(c: nat, x: nat, rate: nat)
    requires rate <= 10000
    ensures (x + c * rate) / 10000 <= x / 10000 + c
  {
    assert c * rate <= c * 10000;
    assert (x + c * 10000) / 10000 == x / 10000 + c;
  }

  function Fees(list: seq<nat>, rate: nat): nat {
    if list == [] then 0 else Fees(list[..|list| - 1], rate) + Fee(list[|list| - 1], rate)
  }

  function Sum(list: seq<nat>): nat {
    if list == [] then 0 else Sum(list[..|list| - 1]) + list[|list| - 1]
  }

  /** Charging k outputs one by one takes at most the fee on their total, and falls short
      of it by at most k - 1 units. */
  lemma {:induction false} FeesAddUp(list: seq<nat>, rate: nat)
    requires list != []
    ensures Fees(list, rate) <= Fee(Sum(list), rate) <= Fees(list, rate) + |list| - 1
  {
    var n := |list| - 1;
    var x := list[n];
    if n == 0 {
      assert list[..0] == [];
    } else {
      FeesAddUp(list[..n], rate);
      assert Sum(list) * rate == Sum(list[..n]) * rate + x * rate;
      FloorSum(Sum(list[..n]) * rate, x * rate, 10000);
    }
  }

  // ------------------------------------------------------------------ outputs

  /** What one output is worth: distributions pay in full. */
  function Payout(r: Recharge, rate: nat, distribution: bool): Recharge
    requires r.amount >= 0
  {
    if distribution then r else Recharge(r.address, Net(r.amount, rate))
  }

  /** A distribution pays what was asked. Everything else goes to the address asked for, less
      the whole units of rate ten-thousandths of the amount. */
  lemma PayoutIs(r: Recharge, rate: nat, distribution: bool)
    requires r.amount >= 0
    ensures var p := Payout(r, rate, distribution);
            && p.address == r.address
            && (distribution ==> p.amount == r.amount)
            && (!distribution ==>
                  0 <= r.amount * rate - (r.amount - p.amount) * 10000 < 10000)
  {
  }

  /** The fee on a sum, against the fees on its parts. */
  lemma FeeOfSum(a: nat, b: nat, rate: nat)
    ensures Fee(a, rate) + Fee(b, rate) <= Fee(a + b, rate) <= Fee(a, rate) + Fee(b, rate) + 1
  {
    assert (a + b) * rate == a * rate + b * rate;
    FloorSum(a * rate, b * rate, 10000);
  }

  /** What a list of payouts comes to: everything asked in a distribution; otherwise what is
      asked less the fee on the total, or up to one unit more for each further output. */
  lemma {:induction false} PaidInAll(list: seq<Recharge>, outs: seq<Recharge>, rate: nat, distribution: bool)
    requires |outs| == |list| >= 1 && forall r :: r in list ==> r.amount >= 0
    requires forall k :: 0 <= k < |list| ==> outs[k] == Payout(list[k], rate, distribution)
    ensures Total(list) >= 0
    ensures distribution ==> Total(outs) == Total(list)
    ensures !distribution ==>
              Total(list) - Fee(Total(list), rate) <= Total(outs)
              <= Total(list) - Fee(Total(list), rate) + |list| - 1
  {
    hide Fee;
    var n := |list| - 1;
    assert list[n] in list;
    if n == 0 {
      assert list[..0] == [] && outs[..0] == [];
    } else {
      assert forall r :: r in list[..n] ==> r in list;
      PaidInAll(list[..n], outs[..n], rate, distribution);
      FeeOfSum(Total(list[..n]), list[n].amount, rate);
    }
  }

  /** The outputs the leader asks the wallet for (createBtcTx). */
  method CreateOutputs(list: seq<Recharge>, rate: nat, distribution: bool) returns (outs: seq<Recharge>)
    requires forall r :: r in list ==> r.amount >= 0
    ensures |outs| == |list|
    ensures forall k :: 0 <= k < |list| ==> outs[k] == Payout(list[k], rate, distribution)
  {
    outs := [];
    for k := 0 to |list|
      invariant |outs| == k
      invariant forall j :: 0 <= j < k ==> outs[j] == Payout(list[j], rate, distribution)
    {
      var a := list[k];
      var amount := if distribution then a.amount else a.amount - a.amount * rate / 10000;
      outs := outs + [Recharge(a.address, amount)];
    }
  }

  datatype Check = Pass | WrongInputOutput | IndexPanic

  /** Pays gives every recharge its payout, in order; what follows is change. */
  predicate Pays(outs: seq<Recharge>, list: seq<Recharge>, rate: nat, distribution: bool)
    requires forall r :: r in list ==> r.amount >= 0
  {
    |list| <= |outs| && forall k :: 0 <= k < |list| ==> outs[k] == Payout(list[k], rate, distribution)
  }

  /** The output checks of validateBtcSignTx: they accept exactly the transactions that pay
      what the leader would pay, with at most two outputs of change unless it is a
      distribution. A distribution with too few outputs runs off the end of the list
      unless an earlier output is already wrong. */
  method ValidateOutputs(outs: seq<Recharge>, list: seq<Recharge>, rate: nat, distribution: bool) returns (check: Check)
    requires forall r :: r in list ==> r.amount >= 0
    ensures check == Pass <==> Pays(outs, list, rate, distribution) && (distribution || |outs| <= |list| + 2)
    ensures check == IndexPanic <==>
              distribution && |outs| < |list|
              && forall k :: 0 <= k < |outs| ==> outs[k] == Payout(list[k], rate, distribution)
  {
    if |outs| != |list| && |outs| != |list| + 1 && |outs| != |list| + 2 && !distribution {
      return WrongInputOutput;
    }
    var idx := 0;
    while idx < |list|
      invariant 0 <= idx <= |list| && idx <= |outs|
      invariant forall k :: 0 <= k < idx ==> outs[k] == Payout(list[k], rate, distribution)
    {
      if idx >= |outs| { return IndexPanic; }
      var recharge := list[idx];
      var amount := if distribution then recharge.amount else recharge.amount - recharge.amount * rate / 10000;
      if outs[idx].address != recharge.address || outs[idx].amount != amount { return WrongInputOutput; }
      idx := idx + 1;
    }
    check := Pass;
  }
}
