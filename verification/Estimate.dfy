/** Pricing both ways out of a contract before it is funded (wasm/estimate.go). */
module Estimate {
  import opened Prelude
  import opened Script
  import opened Contract
  import opened Engine
  import opened Fees
  import opened Spend
  import opened TxBuild

  const FEE_SPIKE_MULTIPLE := 3.0
  const MIN_HEADROOM_FEE_RATE := 10.0
  const TEMPLATE_LOCK := 48 * 3600

  datatype BranchCost = BranchCost(vsize: nat, fee: int, net: int, viable: bool)

  datatype Verdict = Fine | Tight | Unspendable

  /** `maxFeeRate` is in hundredths of a sat/vB. */
  datatype SpendCost = SpendCost(amount: int, feeRate: real, destAssumed: bool, contractAssumed: bool,
                                 redeem: BranchCost, refund: BranchCost,
                                 minRelayable: int, minAtFeeRate: int, recommended: int,
                                 headroomRate: real, maxFeeRate: nat, verdict: Verdict)

  /** A destination as the form gives it: none, one that does not decode, or an output script. */
  datatype Destination = NoAddress | BadAddress | Address(script: Bytes)

  /** The widest of the common outputs, a taproot one, stands in for a missing address. */
  function SizingDest(d: Destination): Option<Bytes> {
    match d
    case NoAddress => Some([OP_1, 32] + Zeros(32))
    case BadAddress => None
    case Address(s) => Some(s)
  }

  function TemplateTerms(now: int): Terms {
    Terms(Zeros(32), Zeros(20), Zeros(20), now + TEMPLATE_LOCK)
  }

  /** The contract a quote is sized on: the one given, or the template when none is. */
  function SizingContract(contract: Option<Bytes>, now: int): Option<Bytes> {
    match contract
    case Some(s) => if Parse(s).Parsed? then Some(s) else None
    case None => if Buildable(TemplateTerms(now)) then Some(ContractScript(TemplateTerms(now))) else None
  }

  function Cost(amount: int, vsize: nat, rate: real): BranchCost {
    var fee := FeeFor(rate, vsize);
    BranchCost(vsize, fee, amount - fee, amount - fee >= DUST_LIMIT)
  }

  function VerdictFor(sc: SpendCost): Verdict {
    if sc.amount < sc.minRelayable then Unspendable
    else if !sc.redeem.viable then Tight
    else if sc.amount < sc.recommended then Tight
    else Fine
  }

  function MaxReal(a: real, b: real): real {
    if a >= b then a else b
  }

  /** What an estimate at these inputs must say. */
  ghost predicate Quoted(sc: SpendCost, amount: int, contract: Bytes, destScript: Bytes, rate: real)
    requires |contract| < 0x1_0000
  {
    var redeemSize := SpendVSize(contract, destScript, Some(Zeros(SECRET_SIZE)));
    var refundSize := SpendVSize(contract, destScript, None);
    && sc.amount == amount && sc.feeRate == rate
    && sc.redeem == Cost(amount, redeemSize, rate)
    && sc.refund == Cost(amount, refundSize, rate)
    && sc.headroomRate == MaxReal(rate * FEE_SPIKE_MULTIPLE, MIN_HEADROOM_FEE_RATE)
    && sc.minRelayable == DUST_LIMIT + FeeFor(MIN_RELAY_FEE_RATE as real, redeemSize)
    && sc.minAtFeeRate == DUST_LIMIT + FeeFor(rate, redeemSize)
    && sc.recommended == DUST_LIMIT + FeeFor(sc.headroomRate, redeemSize)
    && IsMaxRate(amount, redeemSize, sc.maxFeeRate)
    && sc.verdict == VerdictFor(sc)
  }

  method EstimateSpendCost(amount: int, dest: Destination, contractHex: Option<Bytes>, rate: real, now: int)
    returns (r: Result<SpendCost, string>)
    ensures r.Ok? <==> amount > 0 && 0.0 < rate <= MAX_FEE_RATE as real
                       && SizingContract(contractHex, now).Some? && SizingDest(dest).Some?
    ensures r.Ok? ==> |SizingContract(contractHex, now).value| < 0x1_0000
                      && Quoted(r.value, amount, SizingContract(contractHex, now).value, SizingDest(dest).value, rate)
                      && r.value.destAssumed == dest.NoAddress? && r.value.contractAssumed == contractHex.None?
  {
    hide SpendVSize, Parse, ContractScript;
    if amount <= 0 { return Err("amountSats must be positive"); }
    if rate <= 0.0 || rate > MAX_FEE_RATE as real { return Err("fee rate out of range"); }
    var contract: Bytes;
    match contractHex {
      case Some(s) =>
        var parsed := ParseContract(s);
        if !parsed.Parsed? { return Err("not an atomic swap contract"); }
        ParsedIsPlain(s);
        contract := s;
      case None =>
        var built := BuildContract(Zeros(20), Zeros(20), now + TEMPLATE_LOCK, Zeros(32));
        if built.Err? { return Err(built.error); }
        ContractIsPlain(TemplateTerms(now));
        contract := built.value;
    }
    var destScript := SizingDest(dest);
    if destScript.None? { return Err("invalid destination address"); }
    var redeemVSize := SpendVSize(contract, destScript.value, Some(Zeros(SECRET_SIZE)));
    var refundVSize := SpendVSize(contract, destScript.value, None);
    var headroom := MaxReal(rate * FEE_SPIKE_MULTIPLE, MIN_HEADROOM_FEE_RATE);
    var maxRate, _ := MaxViableFeeRate(amount, redeemVSize);
    SizeIsPositive(contract, destScript.value, Some(Zeros(SECRET_SIZE)));
    var sc := SpendCost(amount, rate, dest.NoAddress?, contractHex.None?,
                        Cost(amount, redeemVSize, rate), Cost(amount, refundVSize, rate),
                        DUST_LIMIT + FeeFor(MIN_RELAY_FEE_RATE as real, redeemVSize),
                        DUST_LIMIT + FeeFor(rate, redeemVSize),
                        DUST_LIMIT + FeeFor(headroom, redeemVSize),
                        headroom, maxRate, Fine);
    return Ok(sc.(verdict := VerdictFor(sc)));
  }

  lemma SizeIsPositive(contract: Bytes, destScript: Bytes, secret: Option<Bytes>)
    requires |contract| < 0x1_0000 && (secret.Some? ==> |secret.value| < 0x1_0000)
    ensures SpendVSize(contract, destScript, secret) > 0
  {
  }

  /** Only the presence of the secret changes the size, never its content. */
  lemma SecretContentIrrelevant(contract: Bytes, destScript: Bytes, secret: Bytes)
    requires |contract| < 0x1_0000 && |secret| == SECRET_SIZE
    ensures SpendVSize(contract, destScript, Some(secret)) == SpendVSize(contract, destScript, Some(Zeros(SECRET_SIZE)))
  {
    SigScriptLength(contract, Zeros(MAX_SIG), Zeros(PUB_LEN), Some(secret));
    SigScriptLength(contract, Zeros(MAX_SIG), Zeros(PUB_LEN), Some(Zeros(SECRET_SIZE)));
    assert |Emit(PushOf(secret))| == 33 && |Emit(PushOf(Zeros(SECRET_SIZE)))| == 33;
  }

  /** The redeem carries the preimage, so it is 33 bytes of signature script larger than the refund. */
  lemma RedeemIsLarger(contract: Bytes, destScript: Bytes)
    requires |contract| < 0x1_0000
    ensures SpendVSize(contract, destScript, None) + 33
         <= SpendVSize(contract, destScript, Some(Zeros(SECRET_SIZE)))
  {
    SigScriptLength(contract, Zeros(MAX_SIG), Zeros(PUB_LEN), None);
    SigScriptLength(contract, Zeros(MAX_SIG), Zeros(PUB_LEN), Some(Zeros(SECRET_SIZE)));
    assert |Emit(PushOf(Zeros(SECRET_SIZE)))| == 33;
  }

  /**
   Quoted is charged: for an output of the quoted amount that pays this contract, a spend is built
   exactly when its branch was quoted viable, at the quoted fee, and lands the quoted net.
   */
  lemma QuotedIsCharged(sc: SpendCost, contract: Bytes, destScript: Bytes, rate: real,
                        f: Funding, key: SwapKey, secret: Bytes, lockTime: nat, c: Crypto, sg: Signatures)
    requires Signs(key, contract, c, sg) && |secret| == SECRET_SIZE
    requires f.value > 0 && BindsTo(f, contract, c) && 0.0 < rate <= MAX_FEE_RATE as real
    requires Quoted(sc, f.value, contract, destScript, rate)
    ensures Spendable(contract, f, Some(secret), Some(destScript), rate, c) <==> sc.redeem.viable
    ensures Spendable(contract, f, None, Some(destScript), rate, c) <==> sc.refund.viable
    ensures var spend := SignedSpend(contract, f, key, Some(secret), destScript, rate, 0, c, sg);
            spend.fee == sc.redeem.fee && spend.value == sc.redeem.net && spend.vsize == sc.redeem.vsize
            && SerializeSize(|spend.tx.sigScript|, |destScript|) <= sc.redeem.vsize
    ensures var spend := SignedSpend(contract, f, key, None, destScript, rate, lockTime, c, sg);
            spend.fee == sc.refund.fee && spend.value == sc.refund.net && spend.vsize == sc.refund.vsize
            && SerializeSize(|spend.tx.sigScript|, |destScript|) <= sc.refund.vsize
  {
    SecretContentIrrelevant(contract, destScript, secret);
    SizeOfSigned(contract, f, key, Some(secret), destScript, rate, 0, c, sg);
    SizeOfSigned(contract, f, key, None, destScript, rate, lockTime, c, sg);
    hide SpendVSize, FeeFor, SerializeSize, SigScript, VerdictFor, IsMaxRate;
  }

  lemma SizeOfSigned(contract: Bytes, f: Funding, key: SwapKey, secret: Option<Bytes>, destScript: Bytes, rate: real,
                     lockTime: nat, c: Crypto, sg: Signatures)
    requires Signs(key, contract, c, sg) && (secret.Some? ==> |secret.value| < 0x1_0000)
    ensures var spend := SignedSpend(contract, f, key, secret, destScript, rate, lockTime, c, sg);
            SerializeSize(|spend.tx.sigScript|, |destScript|) <= SpendVSize(contract, destScript, secret)
  {
    var sig := SignatureOf(contract, f, key, secret, destScript, rate, lockTime, c, sg);
    NeverLargerThanQuoted(contract, sig, key.pub, secret, destScript);
  }

  /** An amount that clears the redeem clears the refund. */
  lemma RedeemDecides(sc: SpendCost, amount: int, contract: Bytes, destScript: Bytes, rate: real)
    requires |contract| < 0x1_0000 && rate > 0.0 && Quoted(sc, amount, contract, destScript, rate)
    ensures sc.redeem.viable ==> sc.refund.viable
  {
    RedeemIsLarger(contract, destScript);
    FeeMonotone(rate, rate, SpendVSize(contract, destScript, None),
                SpendVSize(contract, destScript, Some(Zeros(SECRET_SIZE))));
  }

  /** "Unspendable" is said exactly when no rate the network relays works. */
  lemma UnspendableExactly(sc: SpendCost, amount: int, contract: Bytes, destScript: Bytes, rate: real)
    requires |contract| < 0x1_0000 && Quoted(sc, amount, contract, destScript, rate)
    ensures sc.verdict == Unspendable <==> sc.maxFeeRate == 0
  {
    var v := SpendVSize(contract, destScript, Some(Zeros(SECRET_SIZE)));
    hide SpendVSize;
    FeeAtRelayMinimum(v);
    FeeOfHundredths(100, v);
    assert Quotable(100);
    if sc.maxFeeRate > 0 {
      FeeOfHundredths(sc.maxFeeRate, v);
      ProductMonotone(100, sc.maxFeeRate, v);
    }
  }

  /** A spend of `amount` over `vsize` bytes works at every rate up to `top`. */
  ghost predicate ViableUpTo(amount: int, vsize: nat, top: real) {
    forall r: real :: 0.0 < r <= top ==> Clears(amount, r, vsize)
  }

  lemma ViableUpToTop(amount: int, vsize: nat, top: real)
    requires top > 0.0
    ensures ViableUpTo(amount, vsize, top) <==> Clears(amount, top, vsize)
  {
    hide FeeFor;
    forall r: real | 0.0 < r <= top ensures FeeFor(r, vsize) <= FeeFor(top, vsize) {
      FeeMonotone(r, top, vsize, vsize);
    }
  }

  /** "Fine" is said exactly when the spend stays viable at every rate up to the headroom rate. */
  lemma FineExactly(sc: SpendCost, amount: int, contract: Bytes, destScript: Bytes, rate: real)
    requires |contract| < 0x1_0000 && 0.0 < rate && Quoted(sc, amount, contract, destScript, rate)
    ensures sc.verdict == Fine <==>
              ViableUpTo(amount, SpendVSize(contract, destScript, Some(Zeros(SECRET_SIZE))), sc.headroomRate)
    ensures sc.headroomRate == if 3.0 * rate >= 10.0 then 3.0 * rate else 10.0
  {
    var v := SpendVSize(contract, destScript, Some(Zeros(SECRET_SIZE)));
    hide SpendVSize, FeeFor, ViableUpTo;
    var top := sc.headroomRate;
    FeeMonotone(1.0, top, v, v);
    FeeMonotone(rate, top, v, v);
    ViableUpToTop(amount, v, top);
  }

  /** A template quote differs from the built contract's only when their locktimes lie on two sides of 2038. */
  lemma TemplateSize(a: Terms, b: Terms, destScript: Bytes, secret: Option<Bytes>)
    requires Buildable(a) && Buildable(b) && (secret.Some? ==> |secret.value| == SECRET_SIZE)
    ensures |ContractScript(a)| < 0x1_0000 && |ContractScript(b)| < 0x1_0000
    ensures (a.lockTime < 0x8000_0000 <==> b.lockTime < 0x8000_0000) ==>
              SpendVSize(ContractScript(a), destScript, secret) == SpendVSize(ContractScript(b), destScript, secret)
    ensures a.lockTime < 0x8000_0000 <= b.lockTime ==>
              SpendVSize(ContractScript(a), destScript, secret) + 1 == SpendVSize(ContractScript(b), destScript, secret)
  {
    ContractLength(a);
    ContractLength(b);
    var ka, kb := ContractScript(a), ContractScript(b);
    hide ContractScript;
    SigScriptLength(ka, Zeros(MAX_SIG), Zeros(PUB_LEN), secret);
    SigScriptLength(kb, Zeros(MAX_SIG), Zeros(PUB_LEN), secret);
    assert |Emit(PushOf(ka))| == 2 + |ka| && |Emit(PushOf(kb))| == 2 + |kb|;
    assert secret.Some? ==> |Emit(PushOf(secret.value))| == 33;
  }
}
