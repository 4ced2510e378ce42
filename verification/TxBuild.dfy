/** Building, signing and locally executing the two spends of a contract (wasm/txbuild.go). */
module TxBuild {
  import opened Prelude
  import opened Contract
  import opened Engine
  import opened Fees
  import opened Spend

  lemma ContractIsPlain(t: Terms)
    requires Buildable(t)
    ensures Plain(ContractScript(t))
  {
    ContractLength(t);
  }

  /** Key, preimage and signature of the redeem branch, pushed in their order, are a spend the engine accepts. */
  lemma RedeemScriptAccepted(t: Terms, sig: Bytes, pub: Bytes, secret: Bytes, c: Crypto, ctx: Context)
    requires Digests(c) && Buildable(t) && 2 <= |sig| <= MAX_SIG && |pub| == PUB_LEN
    requires |secret| == SECRET_SIZE && c.sha256(secret) == t.secretHash && c.hash160(pub) == t.pkhRedeem && ctx.sigOk(sig, pub)
    ensures Plain(ContractScript(t))
    ensures SpendAccepted(SigScript(ContractScript(t), sig, pub, Some(secret)), c.hash160(ContractScript(t)), c, ctx)
  {
    ContractIsPlain(t);
    var contract := ContractScript(t);
    hide Accepts, PushedStack, Plain, RedeemStack, ContractScript, SigScript, SigTokens;
    PlainKeyMaterial(sig, pub, secret);
    SigStack(contract, sig, pub, Some(secret), ctx.policy.minimalPushes);
    var pushed := [sig, pub, secret, [1], contract];
    var s: seq<Bytes> := [sig, pub, secret, [1]];
    assert Drop(pushed, 1) == s;
    RedeemShape(t, sig, pub, secret, c, ctx);
    ExactlyTwoWays(t, s, c, ctx);
  }

  /** ... and so are those of the refund branch, in a transaction that waits for the contract's locktime. */
  lemma RefundScriptAccepted(t: Terms, sig: Bytes, pub: Bytes, c: Crypto, ctx: Context)
    requires Digests(c) && Buildable(t) && 2 <= |sig| <= MAX_SIG && |pub| == PUB_LEN
    requires t.lockTime <= ctx.lockTime && ctx.sequence != SEQUENCE_FINAL && c.hash160(pub) == t.pkhRefund && ctx.sigOk(sig, pub)
    ensures Plain(ContractScript(t))
    ensures SpendAccepted(SigScript(ContractScript(t), sig, pub, None), c.hash160(ContractScript(t)), c, ctx)
  {
    ContractIsPlain(t);
    var contract := ContractScript(t);
    hide Accepts, PushedStack, Plain, RefundStack, ContractScript, SigScript, SigTokens;
    PlainKeyMaterial(sig, pub, Zeros(32));
    SigStack(contract, sig, pub, None, ctx.policy.minimalPushes);
    var pushed := [sig, pub, [], contract];
    var s: seq<Bytes> := [sig, pub, []];
    assert Drop(pushed, 1) == s;
    RefundShape(t, sig, pub, c, ctx);
    ExactlyTwoWays(t, s, c, ctx);
  }

  /** The contract's own hash and a valid signature by the redeem key make a redeem the engine accepts. */
  lemma BuiltRedeemAccepted(t: Terms, f: Funding, key: SwapKey, secret: Bytes, destScript: Bytes, rate: real,
                            c: Crypto, sg: Signatures)
    requires Buildable(t) && Signs(key, ContractScript(t), c, sg)
    requires key.pkh == t.pkhRedeem && |secret| == SECRET_SIZE && c.sha256(secret) == t.secretHash
    ensures var tx := SignedSpend(ContractScript(t), f, key, Some(secret), destScript, rate, 0, c, sg).tx;
            SpendAccepted(tx.sigScript, c.hash160(ContractScript(t)), c, StandardContext(ContractScript(t), tx, sg))
  {
    var sig := SignatureOf(ContractScript(t), f, key, Some(secret), destScript, rate, 0, c, sg);
    var tx := SignedSpend(ContractScript(t), f, key, Some(secret), destScript, rate, 0, c, sg).tx;
    hide SignedSpend, SpendAccepted, Plain, ContractScript, SigScript;
    RedeemScriptAccepted(t, sig, key.pub, secret, c, StandardContext(ContractScript(t), tx, sg));
  }

  /** ... and a refund once the transaction's locktime is the contract's own. */
  lemma BuiltRefundAccepted(t: Terms, f: Funding, key: SwapKey, destScript: Bytes, rate: real,
                            c: Crypto, sg: Signatures)
    requires Buildable(t) && Signs(key, ContractScript(t), c, sg)
    requires key.pkh == t.pkhRefund
    ensures var tx := SignedSpend(ContractScript(t), f, key, None, destScript, rate, t.lockTime, c, sg).tx;
            SpendAccepted(tx.sigScript, c.hash160(ContractScript(t)), c, StandardContext(ContractScript(t), tx, sg))
  {
    var sig := SignatureOf(ContractScript(t), f, key, None, destScript, rate, t.lockTime, c, sg);
    var tx := SignedSpend(ContractScript(t), f, key, None, destScript, rate, t.lockTime, c, sg).tx;
    hide SignedSpend, SpendAccepted, Plain, ContractScript, SigScript;
    RefundScriptAccepted(t, sig, key.pub, c, StandardContext(ContractScript(t), tx, sg));
  }

  lemma PlainKeyMaterial(sig: Bytes, pub: Bytes, secret: Bytes)
    requires 2 <= |sig| <= MAX_SIG && |pub| == PUB_LEN && |secret| == SECRET_SIZE
    ensures Plain(sig) && Plain(pub) && Plain(secret)
  {
  }

  /** What a signed spend carries: a signature the engine's context accepts, over the transaction itself. */
  lemma SignatureOf(contract: Bytes, f: Funding, key: SwapKey, secret: Option<Bytes>, destScript: Bytes, rate: real,
                    lockTime: nat, c: Crypto, sg: Signatures) returns (sig: Bytes)
    requires Signs(key, contract, c, sg) && (secret.Some? ==> |secret.value| < 0x1_0000)
    ensures 2 <= |sig| <= MAX_SIG
    ensures var tx := SignedSpend(contract, f, key, secret, destScript, rate, lockTime, c, sg).tx;
            && tx.sigScript == SigScript(contract, sig, key.pub, secret)
            && StandardContext(contract, tx, sg).sigOk(sig, key.pub)
            && tx.lockTime == lockTime && tx.sequence == SPEND_SEQUENCE
  {
    hide SigScript, SpendVSize, FeeFor;
    var fee := FeeFor(rate, SpendVSize(contract, destScript, secret));
    var unsigned := UnsignedTx(f, lockTime, f.value - fee, destScript);
    sig := sg.sign(key.priv, contract, unsigned);
    var tx := SignedSpend(contract, f, key, secret, destScript, rate, lockTime, c, sg).tx;
    assert tx.(sigScript := []) == unsigned;
    assert sg.verify(sig, key.pub, contract, unsigned);
  }

  lemma RedeemShape(t: Terms, sig: Bytes, pub: Bytes, secret: Bytes, c: Crypto, ctx: Context)
    requires |secret| == SECRET_SIZE && c.sha256(secret) == t.secretHash && c.hash160(pub) == t.pkhRedeem
    requires ctx.sigOk(sig, pub)
    ensures RedeemStack(t, [sig, pub, secret, [1]], c, ctx)
  {
    TruthOfOne();
  }

  lemma RefundShape(t: Terms, sig: Bytes, pub: Bytes, c: Crypto, ctx: Context)
    requires t.lockTime <= ctx.lockTime && ctx.sequence != SEQUENCE_FINAL && c.hash160(pub) == t.pkhRefund
    requires ctx.sigOk(sig, pub)
    ensures RefundStack(t, [sig, pub, []], c, ctx)
  {
    TruthOfOne();
  }

  /**
   Checks, sizes, signs and executes a one-in one-out spend. The only refusals are the ones
   `Spendable` names and the engine's; without a secret it takes the refund branch.
   */
  method BuildSpend(contract: Bytes, f: Funding, key: SwapKey, secret: Option<Bytes>, dest: Option<Bytes>, rate: real,
                    lockTime: nat, c: Crypto, sg: Signatures) returns (r: Result<SpendResult, string>)
    requires Signs(key, contract, c, sg) && (secret.Some? ==> |secret.value| < 0x1_0000)
    ensures !Spendable(contract, f, secret, dest, rate, c) ==> r.Err?
    ensures Spendable(contract, f, secret, dest, rate, c) ==>
              var spend := SignedSpend(contract, f, key, secret, dest.value, rate, lockTime, c, sg);
              if SpendAccepted(spend.tx.sigScript, c.hash160(contract), c, StandardContext(contract, spend.tx, sg))
              then r == Ok(spend) else r.Err?
    ensures Spendable(contract, f, secret, dest, rate, c) <==>
              && f.value > 0 && 0.0 < rate <= 10_000.0 && dest.Some?
              && (f.pkScript.None? || f.pkScript.value == ContractPkScript(contract, c))
              && f.value - FeeFor(rate, SpendVSize(contract, dest.value, secret)) >= 546
    ensures r.Ok? ==>
              && r.value.tx.spends == f.outpoint && r.value.tx.destScript == dest.value && r.value.tx.lockTime == lockTime
              && r.value.tx.sequence != SEQUENCE_FINAL && r.value.tx.value == r.value.value == f.value - r.value.fee
              && -0.5 < r.value.fee as real - rate * r.value.vsize as real <= 0.5
  {
    hide SpendAccepted, StandardContext, SpendVSize, SigScript;
    if f.value <= 0 { return Err("funding output has no value"); }
    if rate <= 0.0 { return Err("fee rate must be a positive number of sat/vB"); }
    if rate > MAX_FEE_RATE as real { return Err("fee rate is above the ceiling"); }
    if dest.None? { return Err("invalid destination address"); }
    var pkScript := ContractPkScript(contract, c);
    if f.pkScript.Some? && f.pkScript.value != pkScript { return Err("the funding output pays another script"); }
    var vsize := SpendVSize(contract, dest.value, secret);
    var fee := FeeFor(rate, vsize);
    var value := f.value - fee;
    if value < DUST_LIMIT { return Err("the output would be dust"); }
    var tx := UnsignedTx(f, lockTime, value, dest.value);
    var sig := sg.sign(key.priv, contract, tx);
    var sigScript;
    match secret {
      case Some(s) => sigScript := RedeemSigScript(contract, sig, key.pub, s);
      case None => sigScript := RefundSigScript(contract, sig, key.pub);
    }
    tx := tx.(sigScript := sigScript);
    if !SpendAccepted(tx.sigScript, c.hash160(contract), c, StandardContext(contract, tx, sg)) {
      return Err("built transaction does not satisfy the contract");
    }
    return Ok(SpendResult(tx, fee, vsize, value));
  }

  /** Whether this key and secret fit the contract's redeem branch. */
  predicate RedeemFits(contract: Bytes, key: SwapKey, secret: Bytes, c: Crypto) {
    && Parse(contract).Parsed?
    && Parse(contract).terms.pkhRedeem == key.pkh
    && |secret| == SECRET_SIZE
    && c.sha256(secret) == Parse(contract).terms.secretHash
  }

  predicate RefundFits(contract: Bytes, key: SwapKey) {
    Parse(contract).Parsed? && Parse(contract).terms.pkhRefund == key.pkh
  }

  lemma ParsedIsPlain(contract: Bytes)
    requires Parse(contract).Parsed?
    ensures Plain(contract)
  {
    ParseExactly(contract, Parse(contract).terms);
    ContractIsPlain(Parse(contract).terms);
  }

  /**
   Builds the redeem. Beyond the terms fitting and the spend being payable nothing is refused:
   the engine never rejects what this builds.
   */
  method BuildRedeem(contract: Bytes, f: Funding, key: SwapKey, secret: Bytes, dest: Option<Bytes>, rate: real,
                     c: Crypto, sg: Signatures) returns (r: Result<SpendResult, string>)
    requires SoundKey(key, c, sg) && Digests(c)
    ensures RedeemFits(contract, key, secret, c) ==> Plain(contract)
    ensures r.Ok? <==> RedeemFits(contract, key, secret, c) && Spendable(contract, f, Some(secret), dest, rate, c)
    ensures r.Ok? ==> |secret| == SECRET_SIZE && r.value == SignedSpend(contract, f, key, Some(secret), dest.value, rate, 0, c, sg)
    ensures r.Ok? ==>
              && r.value.tx.spends == f.outpoint && r.value.tx.destScript == dest.value
              && r.value.tx.value == r.value.value == f.value - r.value.fee
              && -0.5 < r.value.fee as real - rate * r.value.vsize as real <= 0.5
  {
    hide Parse, SignedSpend, SpendAccepted, SpendVSize, Clears, BindsTo;
    var parsed := ParseContract(contract);
    if !parsed.Parsed? { return Err("not an atomic swap contract"); }
    var t := parsed.terms;
    ParsedIsPlain(contract);
    if t.pkhRedeem != key.pkh { return Err("the redeem key does not match"); }
    if |secret| != SECRET_SIZE { return Err("secret must be 32 bytes"); }
    if c.sha256(secret) != t.secretHash { return Err("secret does not hash to the contract's secret hash"); }
    ParseExactly(contract, t);
    BuiltRedeemAccepted(t, f, key, secret, if dest.Some? then dest.value else [], rate, c, sg);
    r := BuildSpend(contract, f, key, Some(secret), dest, rate, 0, c, sg);
  }

  /** Builds the refund, its locktime the contract's; again the engine never rejects it. */
  method BuildRefund(contract: Bytes, f: Funding, key: SwapKey, dest: Option<Bytes>, rate: real,
                     c: Crypto, sg: Signatures) returns (r: Result<SpendResult, string>)
    requires SoundKey(key, c, sg) && Digests(c)
    ensures RefundFits(contract, key) ==> Plain(contract) && Parse(contract).Parsed? && Parse(contract).terms.lockTime >= 0
    ensures r.Ok? <==> RefundFits(contract, key) && Spendable(contract, f, None, dest, rate, c)
    ensures r.Ok? ==> r.value == SignedSpend(contract, f, key, None, dest.value, rate, Parse(contract).terms.lockTime, c, sg)
    ensures r.Ok? ==>
              && r.value.tx.spends == f.outpoint && r.value.tx.destScript == dest.value
              && r.value.tx.value == r.value.value == f.value - r.value.fee
              && -0.5 < r.value.fee as real - rate * r.value.vsize as real <= 0.5
  {
    hide Parse, SignedSpend, SpendAccepted, SpendVSize, Clears, BindsTo;
    var parsed := ParseContract(contract);
    if !parsed.Parsed? { return Err("not an atomic swap contract"); }
    var t := parsed.terms;
    ParsedIsPlain(contract);
    ParseExactly(contract, t);
    if t.pkhRefund != key.pkh { return Err("the refund key does not match"); }
    BuiltRefundAccepted(t, f, key, if dest.Some? then dest.value else [], rate, c, sg);
    r := BuildSpend(contract, f, key, None, dest, rate, t.lockTime, c, sg);
  }
}
