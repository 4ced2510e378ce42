/** Claiming the Bitcoin: the guards of a redeem and a refund, and what their outcome does to the record (wasm/manager.go). */
module Settle {
  import opened Prelude
  import opened Contract
  import opened Engine
  import opened Spend
  import opened TxBuild
  import opened SwapRecord
  import opened FundingWatch
  import opened Moves

  /** Where a spend pays; None when that is refused. */
  function Payout(sw: Swap, asked: Bytes): Option<Bytes> {
    if sw.destAddr == [] then (if asked == [] then None else Some(asked))
    else if asked != [] && asked != sw.destAddr then None
    else Some(sw.destAddr)
  }

  method PayoutAddress(sw: Swap, asked: Bytes) returns (r: Option<Bytes>)
    ensures r == Payout(sw, asked)
    ensures r.Some? <==> if sw.destAddr == [] then asked != [] else asked == [] || asked == sw.destAddr
    ensures r.Some? ==> r.value == if sw.destAddr == [] then asked else sw.destAddr
  {
    if sw.destAddr == [] {
      if asked == [] { return None; }
      return Some(asked);
    }
    if asked != [] && asked != sw.destAddr { return None; }
    return Some(sw.destAddr);
  }

  /** What a spend asks of the chain: the funding transaction and a fee rate. */
  datatype SpendAnswers = SpendAnswers(now: int, raw: Option<RawTx>, feeRate: Option<real>)

  /** A transaction about to be broadcast: what it spends and how, and where it pays. */
  datatype Outcome = Outcome(redeem: bool, contract: Bytes, outpoint: OutPoint, spend: SpendResult, dest: Bytes)

  /** The record as bound, and the transaction to broadcast. */
  datatype Plan = Plan(swap: Swap, outcome: Outcome)

  /** The redeem of the recorded funding, when one can be built. */
  ghost function RedeemOf(sw: Swap, dest: Bytes, rate: real, c: Crypto, sg: Signatures): Option<SpendResult>
    requires Digests(c) && SoundKey(sw.key, c, sg) && sw.funding.Some?
  {
    if !RedeemFits(sw.contract, sw.key, sw.secret, c) then None
    else
      ParsedIsPlain(sw.contract);
      if !Spendable(sw.contract, sw.funding.value, Some(sw.secret), Some(dest), rate, c) then None
      else Some(SignedSpend(sw.contract, sw.funding.value, sw.key, Some(sw.secret), dest, rate, 0, c, sg))
  }

  /** What is left is the funding less the fee; the fee is the size at this rate, 2 sat/vB when none is known, to the nearest satoshi. */
  predicate RateRight(spend: SpendResult, value: int, feeRate: Option<real>) {
    var exact := (if feeRate.Some? then feeRate.value else 2.0) * spend.vsize as real;
    && spend.value == spend.tx.value == value - spend.fee
    && -0.5 < spend.fee as real - exact <= 0.5
  }

  /** Everything asked before a redeem is built. */
  predicate MayRedeem(sw: Swap, asked: Bytes) {
    sw.leg == Receive && sw.funding.Some? && sw.secret != [] && !RedeemHeldForShortFunding(sw) && Payout(sw, asked).Some?
  }

  ghost function PlannedRedeem(sw: Swap, asked: Bytes, a: SpendAnswers, c: Crypto, sg: Signatures): Option<Plan>
    requires Digests(c) && SoundKey(sw.key, c, sg)
  {
    if !MayRedeem(sw, asked) || BindingOf(sw, a.raw, c) != Bound then None
    else
      var bound, dest := WithBinding(sw, a.raw, c), Payout(sw, asked).value;
      match RedeemOf(bound, dest, RateOr(a.feeRate), c, sg)
      case None => None
      case Some(spend) => Some(Plan(bound, Outcome(true, bound.contract, bound.funding.value.outpoint, spend, dest)))
  }

  method PlanRedeem(swap: Swap, asked: Bytes, a: SpendAnswers, c: Crypto, sg: Signatures) returns (r: Option<Plan>)
    requires Digests(c) && SoundKey(swap.key, c, sg)
    ensures r == PlannedRedeem(swap, asked, a, c, sg)
    ensures r.Some? ==>
              && swap.leg == Receive && swap.funding.Some? && (swap.role == Initiator ==> swap.funding.value.value >= swap.amountSats)
              && BindingOf(swap, a.raw, c) == Bound
    ensures r.Some? ==> var o := r.value.outcome;
              && o.redeem && o.contract == swap.contract && o.outpoint == swap.funding.value.outpoint
              && o.spend.tx.spends == o.outpoint && o.spend.tx.destScript == o.dest
              && o.dest == (if swap.destAddr == [] then asked else swap.destAddr) != []
              && RateRight(o.spend, swap.funding.value.value, a.feeRate)
    ensures r.None? && swap.leg == Receive && swap.funding.Some? && swap.secret != [] && BindingOf(swap, a.raw, c) == Bound
            && !(swap.role == Initiator && swap.funding.value.value < swap.amountSats)
            && (if swap.destAddr == [] then asked != [] else asked == [] || asked == swap.destAddr) ==>
              RedeemOf(WithBinding(swap, a.raw, c), if swap.destAddr == [] then asked else swap.destAddr,
                       if a.feeRate.Some? then a.feeRate.value else DEFAULT_FEE_RATE, c, sg).None?
  {
    hide Parse, SignedSpend, Spendable, ReadBinding, RedeemFits;
    var sw := swap;
    if sw.leg != Receive { return None; }
    if sw.funding.None? { return None; }
    if sw.secret == [] { return None; }
    if RedeemHeldForShortFunding(sw) { return None; }
    var dest := PayoutAddress(sw, asked);
    if dest.None? { return None; }
    var b;
    sw, b := BindFunding(sw, a.raw, c);
    if b != Bound { return None; }
    var rate := if a.feeRate.Some? then a.feeRate.value else DEFAULT_FEE_RATE;
    var spend := BuildRedeem(sw.contract, sw.funding.value, sw.key, sw.secret, dest, rate, c, sg);
    if spend.Err? { return None; }
    return Some(Plan(sw, Outcome(true, sw.contract, sw.funding.value.outpoint, spend.value, dest.value)));
  }

  predicate MayRefund(sw: Swap, asked: Bytes, now: int) {
    sw.leg == Send && sw.funding.Some? && now >= sw.lockTime && Payout(sw, asked).Some?
  }

  ghost function PlannedRefund(sw: Swap, asked: Bytes, a: SpendAnswers, c: Crypto, sg: Signatures): Option<Plan>
    requires Digests(c) && SoundKey(sw.key, c, sg)
  {
    if !MayRefund(sw, asked, a.now) || BindingOf(sw, a.raw, c) != Bound then None
    else
      var bound, dest := WithBinding(sw, a.raw, c), Payout(sw, asked).value;
      match if bound.refundTx.Some? then bound.refundTx else RefundOf(bound, dest, RateOr(a.feeRate), c, sg)
      case None => None
      case Some(spend) => Some(Plan(bound, Outcome(false, bound.contract, bound.funding.value.outpoint, spend, dest)))
  }

  method PlanRefund(swap: Swap, asked: Bytes, a: SpendAnswers, c: Crypto, sg: Signatures) returns (r: Option<Plan>)
    requires Digests(c) && SoundKey(swap.key, c, sg)
    ensures r == PlannedRefund(swap, asked, a, c, sg)
    ensures r.Some? ==> swap.leg == Send && swap.funding.Some? && a.now >= swap.lockTime && BindingOf(swap, a.raw, c) == Bound
    ensures r.Some? ==> var o := r.value.outcome;
              && !o.redeem && o.contract == swap.contract && o.outpoint == swap.funding.value.outpoint
              && o.dest == (if swap.destAddr == [] then asked else swap.destAddr) != []
              && (if swap.refundTx.Some? then o.spend == swap.refundTx.value
                  else o.spend.tx.spends == o.outpoint && o.spend.tx.destScript == o.dest
                       && RateRight(o.spend, swap.funding.value.value, a.feeRate))
    ensures r.None? && swap.leg == Send && swap.funding.Some? && a.now >= swap.lockTime && BindingOf(swap, a.raw, c) == Bound
            && (if swap.destAddr == [] then asked != [] else asked == [] || asked == swap.destAddr) ==>
              && swap.refundTx.None?
              && RefundOf(WithBinding(swap, a.raw, c), if swap.destAddr == [] then asked else swap.destAddr,
                          if a.feeRate.Some? then a.feeRate.value else DEFAULT_FEE_RATE, c, sg).None?
  {
    hide Parse, SignedSpend, Spendable, ReadBinding, RefundFits;
    var sw := swap;
    if sw.leg != Send { return None; }
    if sw.funding.None? { return None; }
    if a.now < sw.lockTime { return None; }
    var dest := PayoutAddress(sw, asked);
    if dest.None? { return None; }
    var b;
    sw, b := BindFunding(sw, a.raw, c);
    if b != Bound { return None; }
    var spend := sw.refundTx;
    if spend.None? {
      var rate := if a.feeRate.Some? then a.feeRate.value else DEFAULT_FEE_RATE;
      var built := BuildRefund(sw.contract, sw.funding.value, sw.key, dest, rate, c, sg);
      if built.Err? { return None; }
      spend := Some(built.value);
    }
    return Some(Plan(sw, Outcome(false, sw.contract, sw.funding.value.outpoint, spend.value, dest.value)));
  }

  // ---------- the outcome ----------

  /** The record names the contract and the funding output the transaction spent. */
  predicate SameSwap(sw: Swap, o: Outcome) {
    sw.funding.Some? && sw.funding.value.outpoint == o.outpoint && sw.contract == o.contract
  }

  /** What happened on the chain, applied to a record. */
  function Settled(sw: Swap, o: Outcome): Swap {
    var dest := if sw.destAddr == [] then o.dest else sw.destAddr;
    if o.redeem then sw.(redeemTx := Some(o.spend), state := Redeemed, destAddr := dest)
    else sw.(refundTx := Some(o.spend), state := Refunded, destAddr := dest)
  }

  /**
   What recording an outcome records: the state and the transaction it is about, the destination only where
   none was recorded, and nothing else. Recording it twice is recording it once.
   */
  lemma SettledKeepsTheRest(sw: Swap, o: Outcome)
    ensures var r := Settled(sw, o);
            && r.state == (if o.redeem then Redeemed else Refunded)
            && r.redeemTx == (if o.redeem then Some(o.spend) else sw.redeemTx)
            && r.refundTx == (if o.redeem then sw.refundTx else Some(o.spend))
            && r.destAddr == (if sw.destAddr == [] then o.dest else sw.destAddr)
            && r.(state := sw.state, redeemTx := sw.redeemTx, refundTx := sw.refundTx, destAddr := sw.destAddr) == sw
    ensures Settled(Settled(sw, o), o) == Settled(sw, o)
  {
  }

  /**
   `y` is the stored record `newest` with this outcome on it: state, transaction and a blank destination are the
   outcome's, the funding's script is written down if this call read it, a verdict without its terms is withdrawn
   as on every load, and every other field is the newest record's.
   */
  ghost predicate AppliedTo(y: Swap, newest: Swap, o: Outcome, c: Crypto)
    requires Digests(c)
  {
    && newest.funding.Some? && newest.funding.value.outpoint == o.outpoint && newest.contract == o.contract
    && y.state == (if o.redeem then Redeemed else Refunded)
    && y.redeemTx == (if o.redeem then Some(o.spend) else newest.redeemTx)
    && y.refundTx == (if o.redeem then newest.refundTx else Some(o.spend))
    && y.destAddr == (if newest.destAddr == [] then o.dest else newest.destAddr)
    && y.funding.Some? && y.funding.value.(pkScript := newest.funding.value.pkScript) == newest.funding.value
    && y.funding.value.pkScript in {newest.funding.value.pkScript, Some(ContractPkScript(newest.contract, c))}
    && y.zenon.(verified := newest.zenon.verified, verifyPending := newest.zenon.verifyPending) == newest.zenon
    && (if newest.zenon.verified && MissingZenonTerms(newest) != [] then !y.zenon.verified && !y.zenon.verifyPending
        else y.zenon == newest.zenon)
    && y.(state := newest.state, redeemTx := newest.redeemTx, refundTx := newest.refundTx, destAddr := newest.destAddr,
          funding := newest.funding, zenon := newest.zenon) == newest
  }

  lemma OutcomeApplies(newest: Swap, tx: Option<RawTx>, o: Outcome, c: Crypto)
    requires Digests(c) && SameSwap(newest, o)
    ensures AppliedTo(Settled(WithBinding(WithdrawStaleVerdict(newest), tx, c), o), newest, o, c)
  {
    hide ReadBinding, ContractPkScript, MissingZenonTerms;
  }

  lemma ReloadedOutcomeApplies(newest: Swap, o: Outcome, c: Crypto)
    requires Digests(c) && SameSwap(newest, o)
    ensures AppliedTo(Settled(WithdrawStaleVerdict(newest), o), newest, o, c)
  {
    hide ContractPkScript, MissingZenonTerms;
  }
}
