/**
 What holds of a swap record in every run from its creation, and how it may change
 (wasm/swap.go, wasm/manager.go, wasm/walletblock.go).
 */
module RecordLaw {
  import opened Prelude
  import opened Contract
  import opened Engine
  import opened Spend
  import opened SwapRecord
  import opened FundingWatch
  import opened Moves
  import opened ZenonMoves
  import opened Settle
  import opened Creation

  /** What creation fixes for good. */
  datatype Birth = Birth(role: Role, leg: Leg, key: SwapKey, secretHash: Bytes, amountSats: int, destAddr: Bytes, token: string)

  function BirthOf(sw: Swap): Birth {
    Birth(sw.role, sw.leg, sw.key, sw.secretHash, sw.amountSats, sw.destAddr, sw.zenon.token)
  }

  ghost predicate GoodBirth(b: Birth, c: Crypto, sg: Signatures) {
    Digests(c) && SoundKey(b.key, c, sg) && |b.secretHash| == 32 && b.destAddr != []
  }

  // ---------- the invariant, part by part ----------

  /** A stored contract is byte for byte the one for this record's own hash, keys and locktime, in its leg's branches. */
  ghost predicate ContractRight(sw: Swap, c: Crypto)
    requires Digests(c)
  {
    sw.contract != [] ==>
      Parse(sw.contract) == Parsed(ContractTerms(sw)) && sw.contractAddr == ContractPkScript(sw.contract, c)
  }

  /** No contract yet is exactly the draft state; funded or later is exactly having a funding. */
  predicate StageRight(sw: Swap) {
    && (sw.contract == [] <==> sw.state == Draft)
    && (sw.funding.Some? <==> !sw.state.Draft? && !sw.state.Awaiting?)
  }

  /** A stored secret hashes to the swap's hash; the initiator always has one, of the size the contract asks for. */
  predicate SecretRight(sw: Swap, c: Crypto) {
    && (sw.secret != [] ==> c.sha256(sw.secret) == sw.secretHash)
    && (sw.role == Initiator ==> |sw.secret| == SECRET_SIZE)
  }

  /** A recorded funding script is this contract's, and a recorded depth is between zero and six. */
  ghost predicate FundingRight(sw: Swap, c: Crypto)
    requires Digests(c)
  {
    sw.funding.Some? ==>
      && sw.funding.value.value > 0 && DepthInRange(sw)
      && (sw.funding.value.pkScript.Some? ==> sw.funding.value.pkScript.value == ContractPkScript(sw.contract, c))
  }

  /** A transaction that spends this output of this contract to this destination, and that the network accepts. */
  ghost predicate GoodSpend(contract: Bytes, o: OutPoint, dest: Bytes, spend: SpendResult, c: Crypto, sg: Signatures) {
    && spend.tx.spends == o
    && spend.tx.destScript == dest
    && SpendAccepted(spend.tx.sigScript, c.hash160(contract), c, StandardContext(contract, spend.tx, sg))
  }

  /** A stored refund spends the current funding to the fixed destination, and so does a recorded redeem. */
  ghost predicate SpendsRight(sw: Swap, c: Crypto, sg: Signatures) {
    && (sw.refundTx.Some? ==>
          sw.funding.Some? && GoodSpend(sw.contract, sw.funding.value.outpoint, sw.destAddr, sw.refundTx.value, c, sg))
    && (sw.redeemTx.Some? ==>
          sw.funding.Some? && GoodSpend(sw.contract, sw.funding.value.outpoint, sw.destAddr, sw.redeemTx.value, c, sg))
  }

  /** A verdict names an entry and was reached against complete terms. */
  predicate VerdictRight(sw: Swap) {
    sw.zenon.verified ==> sw.zenon.htlcId != "" && MissingZenonTerms(sw) == []
  }

  ghost predicate Rec(b: Birth, sw: Swap, c: Crypto, sg: Signatures) {
    && GoodBirth(b, c, sg) && BirthOf(sw) == b
    && ContractRight(sw, c)
    && StageRight(sw)
    && SecretRight(sw, c)
    && FundingRight(sw, c)
    && SpendsRight(sw, c, sg)
    && VerdictRight(sw)
  }

  // ---------- how a record may change ----------

  function Rank(s: State): nat {
    match s
    case Draft => 0
    case Awaiting => 1
    case Funded => 2
    case Expired => 3
    case Redeemed => 4
    case Refunded => 4
  }

  /** Once something is staked on the contract it stays staked, and the contract never changes again. */
  predicate Frozen(x: Swap, y: Swap) {
    ContractCommitted(x) ==>
      && ContractCommitted(y)
      && y.contract == x.contract && y.contractAddr == x.contractAddr && y.lockTime == x.lockTime
      && y.counterpartyPkh == x.counterpartyPkh
  }

  /** The funding is never lost, only replaced by a larger output, and final once it covers the agreed amount. */
  predicate FundingGrows(x: Swap, y: Swap) {
    x.funding.Some? ==>
      && y.funding.Some?
      && y.funding.value.value >= x.funding.value.value
      && (y.funding.value.outpoint != x.funding.value.outpoint ==> y.funding.value.value > x.funding.value.value)
      && (x.funding.value.value >= x.amountSats ==>
            y.funding.value.outpoint == x.funding.value.outpoint && y.funding.value.value == x.funding.value.value)
  }

  /**
   The agreed amount and the counterparty's address, once recorded, are never edited. This side's own
   address only stays recorded: a create signed by another account moves it to that account.
   */
  predicate TermsKept(x: Swap, y: Swap) {
    && (x.zenon.peerAddress != "" ==> y.zenon.peerAddress == x.zenon.peerAddress)
    && (x.zenon.selfAddress != "" ==> y.zenon.selfAddress != "")
    && (RecordedAmount(x) != "" ==> RecordedAmount(y) == x.zenon.amount)
    && (x.zenon.htlcId != "" ==> y.zenon.htlcId != "")
  }

  predicate Change(x: Swap, y: Swap) {
    && BirthOf(x) == BirthOf(y)
    && Rank(x.state) <= Rank(y.state)
    && Frozen(x, y)
    && FundingGrows(x, y)
    && TermsKept(x, y)
    && (x.leg == Send ==> y.lockTime == x.lockTime)
    && (x.secret != [] ==> y.secret != [])
    && (x.redeemTx.Some? ==> y.redeemTx.Some?)
  }

  lemma ChangeReflexive(x: Swap)
    ensures Change(x, x)
  {
  }

  lemma ChangeTransitive(x: Swap, y: Swap, z: Swap)
    requires Change(x, y) && Change(y, z)
    ensures Change(x, z)
  {
    hide Rank, ContractCommitted, RecordedAmount;
    assert RecordedAmount(y) != "" ==> RecordedAmount(y) == y.zenon.amount by { AmountAsRecorded(y); }
    assert RecordedAmount(x) != "" ==> RecordedAmount(x) == x.zenon.amount by { AmountAsRecorded(x); }
  }

  lemma AmountAsRecorded(x: Swap)
    ensures RecordedAmount(x) != "" ==> RecordedAmount(x) == x.zenon.amount
  {
  }
}
