/**
 What each operation does to one swap record (wasm/manager.go, wasm/walletblock.go). Every
 operation is a method that changes a loaded record step by step, proved against a function from
 the record and the answers it got to what is saved.
 */
module Moves {
  import opened Prelude
  import opened Contract
  import opened Engine
  import opened Spend
  import opened TxBuild
  import opened SwapRecord
  import opened FundingWatch
  import opened ZenonVerify
  import LedgerSearch

  /** What an operation decides: an error, no change to save, or the record to save. */
  datatype Move = Rejected | Unchanged | Saved(swap: Swap)

  /** The record afterwards. */
  function After(sw: Swap, m: Move): Swap {
    if m.Saved? then m.swap else sw
  }

  const DEFAULT_FEE_RATE := 2.0

  function RateOr(rate: Option<real>): real {
    if rate.Some? then rate.value else DEFAULT_FEE_RATE
  }

  // ---------- the counterparty's pubkey hash ----------

  ghost function SetPkh(sw: Swap, pkh: Bytes, c: Crypto): Move
    requires Digests(c)
  {
    var named := sw.(counterpartyPkh := pkh);
    if sw.leg != Send || |pkh| != 20 then Rejected
    else if pkh == sw.counterpartyPkh && sw.contract != [] then Unchanged
    else if ContractCommitted(sw) || !Buildable(ContractTerms(named)) then Rejected
    else Saved(WithContract(named, ContractScript(ContractTerms(named)), c))
  }

  method SetCounterpartyPkh(swap: Swap, pkh: Bytes, c: Crypto) returns (m: Move)
    requires Digests(c)
    ensures m == SetPkh(swap, pkh, c)
    ensures m.Unchanged? <==> swap.leg == Send && |pkh| == 20 && pkh == swap.counterpartyPkh && swap.contract != []
    ensures m.Saved? <==>
              && swap.leg == Send && |pkh| == 20 && (swap.contract == [] || pkh != swap.counterpartyPkh)
              && (swap.contract != [] ==>
                    && swap.funding.None? && swap.fundingBroadcast.None? && swap.refundTx.None? && swap.zenon.htlcId == ""
                    && (swap.state == Draft || swap.state == Awaiting))
              && |swap.key.pkh| == 20 && |swap.secretHash| == 32 && ValidLockTime(swap.lockTime)
    ensures m.Saved? ==>
              && m.swap.contract == ContractScript(Terms(swap.secretHash, pkh, swap.key.pkh, swap.lockTime))
              && m.swap.contractAddr == ContractPkScript(m.swap.contract, c) && m.swap.counterpartyPkh == pkh
              && m.swap.state == (if swap.state == Draft then Awaiting else swap.state)
              && m.swap.(contract := swap.contract, contractAddr := swap.contractAddr, counterpartyPkh := swap.counterpartyPkh,
                         state := swap.state) == swap
  {
    hide ContractScript;
    var sw := swap;
    if sw.leg != Send { return Rejected; }
    if |pkh| != 20 { return Rejected; }
    if pkh == sw.counterpartyPkh && |sw.contract| > 0 { return Unchanged; }
    if ContractCommitted(sw) { return Rejected; }
    sw := sw.(counterpartyPkh := pkh);
    var built := BuildSwapContract(sw, c);
    if built.Err? { return Rejected; }
    return Saved(built.value);
  }

  // ---------- auditing the counterparty's contract ----------

  /** The initiator's leg expires last, as far as this moment can tell, with room to act. */
  predicate LegsOrdered(sw: Swap, btcLockTime: int, now: int) {
    && btcLockTime - now >= MIN_LEG_REMAINING
    && (if BitcoinLegIsInitiators(sw.role, sw.leg) then btcLockTime - now >= MIN_LEG_GAP + MIN_LEG_REMAINING
        else sw.zenon.expirationTime == 0 || !sw.zenon.verified || sw.zenon.expirationTime >= btcLockTime + MIN_LEG_GAP)
  }

  method AuditLegOrdering(sw: Swap, btcLockTime: int, remaining: int) returns (ok: bool)
    ensures ok <==> LegsOrdered(sw, btcLockTime, btcLockTime - remaining)
    ensures (sw.role == Initiator) == (sw.leg == Send) ==> (ok <==> remaining >= 4 * 3600)
    ensures (sw.role == Initiator) != (sw.leg == Send) ==>
              (ok <==> remaining >= 2 * 3600
                       && (sw.zenon.verified && sw.zenon.expirationTime != 0 ==> btcLockTime + 2 * 3600 <= sw.zenon.expirationTime))
  {
    if remaining < MIN_LEG_REMAINING { return false; }
    if BitcoinLegIsInitiators(sw.role, sw.leg) {
      var need := MIN_LEG_GAP + MIN_LEG_REMAINING;
      if remaining < need { return false; }
      return true;
    }
    if sw.zenon.expirationTime == 0 || !sw.zenon.verified { return true; }
    var earliest := btcLockTime + MIN_LEG_GAP;
    if sw.zenon.expirationTime < earliest { return false; }
    return true;
  }

  /** An expiry for a leg under a contract: two hours to act on it, and the gap before the contract's locktime. */
  predicate FitsUnder(expiry: int, btcLockTime: int, now: int) {
    expiry - now >= MIN_LEG_REMAINING && btcLockTime - expiry >= MIN_LEG_GAP
  }

  /**
   What the audit's margin is for: as the participant, this side accepts an initiator's contract exactly
   when there still is an expiry at which its own leg fits under it.
   */
  lemma AuditLeavesRoom(sw: Swap, btcLockTime: int, now: int)
    requires BitcoinLegIsInitiators(sw.role, sw.leg)
    ensures LegsOrdered(sw, btcLockTime, now) <==> exists expiry :: FitsUnder(expiry, btcLockTime, now)
  {
    if LegsOrdered(sw, btcLockTime, now) {
      assert FitsUnder(btcLockTime - MIN_LEG_GAP, btcLockTime, now);
    }
  }

  /** The contract pays this swap's key against its hash, under a locktime in order. */
  predicate Auditable(sw: Swap, contract: Bytes, now: int) {
    && sw.leg == Receive
    && Parse(contract).Parsed?
    && Parse(contract).terms.pkhRedeem == sw.key.pkh
    && (sw.secretHash != [] ==> Parse(contract).terms.secretHash == sw.secretHash)
    && LegsOrdered(sw, Parse(contract).terms.lockTime, now)
  }

  ghost function Audited(sw: Swap, contract: Bytes, now: int, c: Crypto): Swap
    requires Digests(c) && Parse(contract).Parsed?
  {
    var t := Parse(contract).terms;
    PlanZenonLeg(WithContract(sw.(secretHash := t.secretHash, lockTime := t.lockTime, counterpartyPkh := t.pkhRefund),
                              contract, c), now)
  }

  ghost function Audit(sw: Swap, contract: Bytes, now: int, c: Crypto): Move
    requires Digests(c)
  {
    if sw.leg != Receive || !Parse(contract).Parsed? then Rejected
    else if sw.contract != [] && contract == sw.contract then Unchanged
    else if ContractCommitted(sw) || !Auditable(sw, contract, now) then Rejected
    else Saved(Audited(sw, contract, now, c))
  }

  /** A contract that pays this key against this hash, on a record nothing is staked on yet. */
  predicate Qualifies(sw: Swap, contract: Bytes) {
    && sw.leg == Receive && Parse(contract).Parsed? && (sw.contract == [] || contract != sw.contract)
    && Parse(contract).terms.pkhRedeem == sw.key.pkh && (sw.secretHash == [] || Parse(contract).terms.secretHash == sw.secretHash)
    && (sw.contract == []
        || (sw.funding.None? && sw.fundingBroadcast.None? && sw.refundTx.None? && sw.zenon.htlcId == ""
            && (sw.state == Draft || sw.state == Awaiting)))
  }

  /**
   The order of the legs, as an audit settles it. An initiator's contract that otherwise qualifies is refused exactly
   when less than two hours are left or its own verified entry expires less than the gap after it; a
   participant's exactly when less than the gap and two hours are left. So the initiator's leg expires last.
   */
  lemma AuditKeepsOrder(sw: Swap, contract: Bytes, now: int, c: Crypto)
    requires Digests(c)
    ensures Audit(sw, contract, now, c).Saved? ==> Qualifies(sw, contract)
    ensures Qualifies(sw, contract) ==>
              var left := Parse(contract).terms.lockTime - now;
              (Audit(sw, contract, now, c).Rejected? <==>
                 if sw.role == Participant then left < MIN_LEG_GAP + MIN_LEG_REMAINING
                 else left < MIN_LEG_REMAINING
                      || (sw.zenon.verified && sw.zenon.expirationTime != 0
                          && sw.zenon.expirationTime < Parse(contract).terms.lockTime + MIN_LEG_GAP))
    ensures Audit(sw, contract, now, c).Saved? && sw.role == Initiator && sw.zenon.verified && sw.zenon.expirationTime != 0 ==>
              var y := Audit(sw, contract, now, c).swap;
              y.lockTime + MIN_LEG_GAP <= sw.zenon.expirationTime == y.zenon.expirationTime && y.zenon.verified
    ensures Audit(sw, contract, now, c).Saved? ==>
              var y := Audit(sw, contract, now, c).swap;
              y.lockTime - now >= if sw.role == Participant then MIN_LEG_GAP + MIN_LEG_REMAINING else MIN_LEG_REMAINING
  {
    hide Parse, ContractPkScript;
  }

  /** What an accepted contract puts on the record: its own terms, and an expiry a day apart when there is room for one. */
  lemma AuditRecords(sw: Swap, contract: Bytes, now: int, c: Crypto)
    requires Digests(c)
    ensures Audit(sw, contract, now, c).Saved? ==>
              var y, t := Audit(sw, contract, now, c).swap, Parse(contract).terms;
              && y.contract == contract && y.contractAddr == ContractPkScript(contract, c)
              && y.secretHash == t.secretHash && y.lockTime == t.lockTime && y.counterpartyPkh == t.pkhRefund
              && y.state == (if sw.state == Draft then Awaiting else sw.state)
              && y.(contract := sw.contract, contractAddr := sw.contractAddr, secretHash := sw.secretHash,
                         lockTime := sw.lockTime, counterpartyPkh := sw.counterpartyPkh, state := sw.state,
                         zenon := sw.zenon) == sw
              && y.zenon.(expirationSeconds := sw.zenon.expirationSeconds, expirationHours := sw.zenon.expirationHours)
                 == sw.zenon
    ensures Audit(sw, contract, now, c).Saved? && !(sw.zenon.htlcId != "" && sw.zenon.verified) && Parse(contract).terms.lockTime != 0 ==>
              var y := Audit(sw, contract, now, c).swap;
              var expiry := Parse(contract).terms.lockTime + (if sw.role == Initiator then 24 * 3600 else -24 * 3600);
              expiry - now >= 2 * 3600 ==> now + y.zenon.expirationSeconds == expiry
  {
    hide Parse, ContractPkScript, WholeHours, LegsOrdered;
  }

  method AuditContract(swap: Swap, contract: Bytes, now: int, c: Crypto) returns (m: Move)
    requires Digests(c)
    ensures m == Audit(swap, contract, now, c)
    ensures m.Unchanged? <==> swap.leg == Receive && Parse(contract).Parsed? && swap.contract != [] && contract == swap.contract
    ensures m.Saved? <==>
              && Qualifies(swap, contract)
              && (if swap.role == Participant then Parse(contract).terms.lockTime - now >= 4 * 3600
                  else Parse(contract).terms.lockTime - now >= 2 * 3600
                       && (swap.zenon.verified && swap.zenon.expirationTime != 0 ==>
                             Parse(contract).terms.lockTime + 2 * 3600 <= swap.zenon.expirationTime))
  {
    AuditKeepsOrder(swap, contract, now, c);
    hide Parse, Qualifies;
    var sw := swap;
    if sw.leg != Receive { return Rejected; }
    var parsed := ParseContract(contract);
    if !parsed.Parsed? { return Rejected; }
    var details := parsed.terms;
    if |sw.contract| > 0 {
      if contract == sw.contract { return Unchanged; }
      if ContractCommitted(sw) { return Rejected; }
    }
    if details.pkhRedeem != sw.key.pkh { return Rejected; }
    if |sw.secretHash| > 0 && details.secretHash != sw.secretHash { return Rejected; }
    if |sw.secretHash| == 0 { sw := sw.(secretHash := details.secretHash); }
    var ok := AuditLegOrdering(sw, details.lockTime, details.lockTime - now);
    if !ok { return Rejected; }
    sw := sw.(contract := contract);
    sw := sw.(contractAddr := ContractPkScript(contract, c));
    sw := sw.(lockTime := details.lockTime);
    sw := sw.(counterpartyPkh := details.pkhRefund);
    if sw.state == Draft { sw := sw.(state := Awaiting); }
    sw := PlanZenonLeg(sw, now);
    return Saved(sw);
  }

  // ---------- refreshing from the chains ----------

  /** When in a refresh a transaction is asked for. */
  datatype Moment = Adopting | Polling | Signing | Spending

  /**
   Everything a refresh is told: the browser's clock, the listing of the contract address (None
   when the node does not answer), transactions by id, the status of the funding, the tip, the fee
   rate, the id of the transaction that spent the funding, and what the preimage search finds.
   */
  datatype Answers = Answers(now: int, utxos: Option<seq<Utxo>>, raw: (Moment, Bytes) -> Option<RawTx>,
                             status: Option<TxStatus>, tip: Option<int>, feeRate: Option<real>,
                             spentBy: Option<Bytes>, search: Bytes -> Option<Bytes>)

  /** The search only ever returns preimages; see LedgerSearch.FindPreimage. */
  ghost predicate SoundSearch(search: Bytes -> Option<Bytes>, c: Crypto) {
    forall h: Bytes :: search(h).Some? ==> LedgerSearch.Preimage(search(h).value, h, c.sha256)
  }

  function FundingTx(sw: Swap, a: Answers, moment: Moment): Option<RawTx> {
    if sw.funding.Some? then a.raw(moment, sw.funding.value.outpoint.txid) else None
  }

  /** Looks for a better output while the recorded one falls short. */
  ghost function Looked(sw: Swap, utxos: seq<Utxo>, a: Answers, c: Crypto): Swap
    requires Digests(c)
  {
    var best := Picked(utxos, sw.amountSats);
    Adopted(sw, utxos, if best.Some? then a.raw(Adopting, best.value.outpoint.txid) else None, c)
  }

  ghost function Polled(sw: Swap, a: Answers, c: Crypto): Swap
    requires Digests(c)
  {
    if sw.funding.Some? && sw.funding.value.pkScript.None? then WithBinding(sw, FundingTx(sw, a, Polling), c) else sw
  }

  /** The refund of the recorded funding, when one can be built. */
  ghost function RefundOf(sw: Swap, dest: Bytes, rate: real, c: Crypto, sg: Signatures): Option<SpendResult>
    requires Digests(c) && SoundKey(sw.key, c, sg) && sw.funding.Some?
  {
    if !RefundFits(sw.contract, sw.key) then None
    else
      ParsedIsPlain(sw.contract);
      ParseExactly(sw.contract, Parse(sw.contract).terms);
      if !Spendable(sw.contract, sw.funding.value, None, Some(dest), rate, c) then None
      else Some(SignedSpend(sw.contract, sw.funding.value, sw.key, None, dest, rate, Parse(sw.contract).terms.lockTime, c, sg))
  }

  predicate WantsRefund(sw: Swap) {
    sw.funding.Some? && sw.refundTx.None? && sw.leg == Send && sw.destAddr != []
  }

  /** Signs the refund ahead of time, once the funding is bound to the contract. */
  ghost function Presigned(sw: Swap, a: Answers, c: Crypto, sg: Signatures): Swap
    requires Digests(c) && SoundKey(sw.key, c, sg)
  {
    if !WantsRefund(sw) || BindingOf(sw, FundingTx(sw, a, Signing), c) != Bound then sw
    else
      var bound := WithBinding(sw, FundingTx(sw, a, Signing), c);
      match RefundOf(bound, bound.destAddr, RateOr(a.feeRate), c, sg)
      case None => bound
      case Some(refund) => bound.(refundTx := Some(refund))
  }

  function WatchedSpend(sw: Swap, a: Answers, c: Crypto): Swap {
    if sw.funding.Some? && !sw.state.Redeemed? && !sw.state.Refunded? && a.spentBy.Some?
    then Absorbed(sw, a.raw(Spending, a.spentBy.value), c)
    else sw
  }

  function WatchedUnlock(sw: Swap, a: Answers): Swap {
    if SecretArrivesOnZenon(sw) && sw.secret == [] && a.search(sw.secretHash).Some?
    then sw.(secret := a.search(sw.secretHash).value, zenon := sw.zenon.(unlockSeen := true))
    else sw
  }

  function WatchedClock(sw: Swap, a: Answers): Swap {
    if sw.state == Funded && a.now >= sw.lockTime then sw.(state := Expired) else sw
  }

  /** The second half of a refresh, once the funding is settled. */
  ghost function Watched(sw: Swap, a: Answers, c: Crypto, sg: Signatures): Swap
    requires Digests(c) && SoundKey(sw.key, c, sg)
  {
    WatchedClock(WatchedUnlock(WatchedSpend(Presigned(Polled(WithDepth(sw, a.status, a.tip), a, c), a, c, sg), a, c), a), a)
  }

  ghost function Refresh(sw: Swap, a: Answers, c: Crypto, sg: Signatures): Move
    requires Digests(c) && SoundKey(sw.key, c, sg)
  {
    if sw.contract == [] then Unchanged
    else if !FundingIsOpen(sw) then Saved(Watched(sw, a, c, sg))
    else if a.utxos.None? then Rejected
    else Saved(Watched(Looked(sw, a.utxos.value, a, c), a, c, sg))
  }

  method PresignRefund(swap: Swap, a: Answers, c: Crypto, sg: Signatures) returns (sw: Swap)
    requires Digests(c) && SoundKey(swap.key, c, sg)
    ensures sw == Presigned(swap, a, c, sg)
    ensures sw.refundTx != swap.refundTx ==>
              && swap.refundTx.None? && swap.leg == Send && swap.destAddr != [] && sw.funding.Some? && sw.refundTx.Some?
              && sw.funding.value.pkScript == Some(ContractPkScript(swap.contract, c))
              && sw.refundTx.value.tx.spends == sw.funding.value.outpoint && sw.refundTx.value.tx.destScript == swap.destAddr
  {
    hide Parse, SignedSpend, Spendable, ReadBinding;
    sw := swap;
    if sw.funding.Some? && sw.refundTx.None? && sw.leg == Send && sw.destAddr != [] {
      var tx := a.raw(Signing, sw.funding.value.outpoint.txid);
      var b;
      sw, b := BindFunding(sw, tx, c);
      if b == Bound {
        var rate := if a.feeRate.Some? then a.feeRate.value else DEFAULT_FEE_RATE;
        var refund := BuildRefund(sw.contract, sw.funding.value, sw.key, Some(sw.destAddr), rate, c, sg);
        if refund.Ok? { sw := sw.(refundTx := Some(refund.value)); }
      }
    }
  }

  method LookForFunding(swap: Swap, utxos: seq<Utxo>, a: Answers, c: Crypto) returns (sw: Swap)
    requires Digests(c)
    ensures sw == Looked(swap, utxos, a, c) && sw.key == swap.key
  {
    hide Picked, WithBinding;
    var best := PickFunding(utxos, swap.amountSats);
    var tx := if best.Some? then a.raw(Adopting, best.value.outpoint.txid) else None;
    sw := AdoptFunding(swap, utxos, tx, c);
  }

  method PollBinding(swap: Swap, a: Answers, c: Crypto) returns (sw: Swap)
    requires Digests(c)
    ensures sw == Polled(swap, a, c) && sw.key == swap.key
  {
    hide WithBinding, BindingOf;
    sw := swap;
    if sw.funding.Some? && sw.funding.value.pkScript.None? {
      var b;
      sw, b := BindFunding(sw, a.raw(Polling, sw.funding.value.outpoint.txid), c);
    }
  }

  method WatchForSpend(swap: Swap, a: Answers, c: Crypto) returns (sw: Swap)
    ensures sw == WatchedSpend(swap, a, c)
  {
    hide Absorbed;
    sw := swap;
    if sw.funding.Some? && !sw.state.Redeemed? && !sw.state.Refunded? {
      if a.spentBy.Some? {
        sw := AbsorbSpend(sw, a.raw(Spending, a.spentBy.value), c);
      }
    }
  }

  method WatchForUnlock(swap: Swap, a: Answers) returns (sw: Swap)
    ensures sw == WatchedUnlock(swap, a)
  {
    sw := swap;
    if SecretArrivesOnZenon(sw) && sw.secret == [] {
      var found := a.search(sw.secretHash);
      if found.Some? {
        sw := sw.(secret := found.value);
        sw := sw.(zenon := sw.zenon.(unlockSeen := true));
      }
    }
  }

  method RefreshSwap(swap: Swap, a: Answers, c: Crypto, sg: Signatures) returns (m: Move)
    requires Digests(c) && SoundKey(swap.key, c, sg)
    ensures m == Refresh(swap, a, c, sg)
  {
    hide Looked, WithDepth, Polled, Presigned, WatchedSpend, WatchedUnlock, FundingIsOpen;
    var sw := swap;
    if |sw.contract| == 0 { return Unchanged; }
    if FundingIsOpen(sw) {
      if a.utxos.None? { return Rejected; }
      sw := LookForFunding(sw, a.utxos.value, a, c);
    }
    sw := TrackFundingDepth(sw, a.status, a.tip);
    sw := PollBinding(sw, a, c);
    sw := PresignRefund(sw, a, c, sg);
    sw := WatchForSpend(sw, a, c);
    sw := WatchForUnlock(sw, a);
    if sw.state == Funded && a.now >= sw.lockTime {
      sw := sw.(state := Expired);
    }
    return Saved(sw);
  }
}
