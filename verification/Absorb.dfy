/** Which of the two ways a contract was spent, read off the spending transaction (wasm/manager.go, wasm/htlc.go). */
module Absorb {
  import opened Prelude
  import opened Script
  import opened Contract
  import opened Engine
  import opened Spend
  import opened TxBuild
  import opened SwapRecord
  import opened FundingWatch
  import opened Moves
  import opened RecordLaw
  import Fees

  /** `secret` is the only thing that hashes to `hash`. */
  ghost predicate OnlyPreimage(secret: Bytes, hash: Bytes, c: Crypto) {
    forall p: Bytes :: c.sha256(p) == hash ==> p == secret
  }

  /** The payloads of a refund's signature script are its signature, its key, an empty push and the contract. */
  lemma RefundPayloads(contract: Bytes, sig: Bytes, pub: Bytes)
    requires Plain(contract) && 2 <= |sig| <= MAX_SIG && |pub| == PUB_LEN
    ensures PushedData(SigScript(contract, sig, pub, None)).Some?
    ensures forall p :: p in PushedData(SigScript(contract, sig, pub, None)).value ==> p == sig || p == pub || p == [] || p == contract
  {
    assert Plain(sig) && Plain(pub) && |contract| < 0x1_0000 && |sig| < 0x1_0000 && |pub| < 0x1_0000;
    hide *;
    var ts := RefundTokens(contract, sig, pub);
    PushedIs(SigScript(contract, sig, pub, None), ts);
    RefundTokenData(contract, sig, pub);
    PayloadsAreFrom(ts, {sig, pub, [], contract});
  }

  lemma RefundTokens(contract: Bytes, sig: Bytes, pub: Bytes) returns (ts: seq<Token>)
    requires Plain(contract) && Plain(sig) && Plain(pub)
    ensures |contract| < 0x1_0000 && |sig| < 0x1_0000 && |pub| < 0x1_0000 && ts == SigTokens(contract, sig, pub, None)
    ensures Tokenize(SigScript(contract, sig, pub, None)) == Some(ts)
  {
    hide SigScript, SigTokens, Tokenize, PushedStack;
    SigStack(contract, sig, pub, None, false);
    ts := SigTokens(contract, sig, pub, None);
  }

  lemma PushedIs(script: Bytes, ts: seq<Token>)
    requires Tokenize(script) == Some(ts)
    ensures PushedData(script) == Some(Payloads(ts))
  {
    hide Tokenize, Payloads;
  }

  lemma RefundTokenData(contract: Bytes, sig: Bytes, pub: Bytes)
    requires |contract| < 0x1_0000 && |sig| < 0x1_0000 && |pub| < 0x1_0000
    ensures forall t :: t in SigTokens(contract, sig, pub, None) && t.Push? ==> t.data in {sig, pub, [], contract}
  {
    PushesItself(contract);
    PushesItself(sig);
    PushesItself(pub);
    hide PushOf;
  }

  lemma PushesItself(d: Bytes)
    requires |d| < 0x1_0000
    ensures PushOf(d).Push? ==> PushOf(d).data == d
  {
  }

  lemma {:induction false} PayloadsAreFrom(ts: seq<Token>, allowed: set<Bytes>)
    requires [] in allowed && forall t :: t in ts && t.Push? ==> t.data in allowed
    ensures forall p :: p in Payloads(ts) ==> p in allowed
  {
    if ts != [] {
      PayloadsAreFrom(ts[1..], allowed);
    }
  }

  /**
   A refund this program built is filed as a refund: none of its pushes is the preimage, given that
   only the 32-byte secret is one and the signature is not that secret.
   */
  lemma RefundFiledAsRefund(sw: Swap, tx: RawTx, contract: Bytes, sig: Bytes, pub: Bytes, secret: Bytes, c: Crypto)
    requires sw.funding.Some? && Plain(contract) && |contract| > SECRET_SIZE
    requires 2 <= |sig| <= MAX_SIG && |pub| == PUB_LEN && |secret| == SECRET_SIZE && sig != secret
    requires OnlyPreimage(secret, sw.secretHash, c)
    requires tx.inputs == [TxIn(sw.funding.value.outpoint, SigScript(contract, sig, pub, None))]
    ensures Absorbed(sw, Some(tx), c) == sw.(state := Refunded)
  {
    RefundPayloads(contract, sig, pub);
    hide SigScript, PushedData, Plain;
    var scripts := SigScripts(tx.inputs);
    assert scripts == [SigScript(contract, sig, pub, None)];
    ExtractSecretExactly(scripts, sw.secretHash, c);
    assert tx.inputs[0] in tx.inputs;
  }

  /** ... and every refund `BuildRefund` makes is one of those. */
  lemma BuiltRefundIsFiled(b: Birth, sw: Swap, tx: RawTx, dest: Bytes, rate: real, secret: Bytes, c: Crypto, sg: Signatures)
    requires Rec(b, sw, c, sg) && sw.funding.Some? && RefundOf(sw, dest, rate, c, sg).Some?
    requires var spend := RefundOf(sw, dest, rate, c, sg).value.tx;
             && tx.inputs == [TxIn(spend.spends, spend.sigScript)]
             && |secret| == SECRET_SIZE && OnlyPreimage(secret, sw.secretHash, c)
             && (forall unsigned: Tx :: sg.sign(sw.key.priv, sw.contract, unsigned) != secret)
    ensures Absorbed(sw, Some(tx), c) == sw.(state := Refunded)
  {
    var sig := RefundScriptOf(sw, dest, rate, c, sg);
    ParseExactly(sw.contract, Parse(sw.contract).terms);
    ContractLength(Parse(sw.contract).terms);
    ParsedIsPlain(sw.contract);
    hide Parse, SigScript, Absorbed, RefundOf, Plain, ContractRight, FundingRight, SpendsRight, StageRight;
    RefundFiledAsRefund(sw, tx, sw.contract, sig, sw.key.pub, secret, c);
  }

  lemma RefundScriptOf(sw: Swap, dest: Bytes, rate: real, c: Crypto, sg: Signatures) returns (sig: Bytes)
    requires Digests(c) && SoundKey(sw.key, c, sg) && sw.funding.Some? && RefundOf(sw, dest, rate, c, sg).Some?
    ensures Plain(sw.contract) && 2 <= |sig| <= MAX_SIG && |sw.key.pub| == PUB_LEN
    ensures exists unsigned: Tx :: sig == sg.sign(sw.key.priv, sw.contract, unsigned)
    ensures var tx := RefundOf(sw, dest, rate, c, sg).value.tx;
            tx.spends == sw.funding.value.outpoint && tx.sigScript == SigScript(sw.contract, sig, sw.key.pub, None)
  {
    ParsedIsPlain(sw.contract);
    var f, lock := sw.funding.value, Parse(sw.contract).terms.lockTime;
    hide SigScript, SignedSpend, Plain, RefundFits, Spendable, Parse;
    sig := SignedWith(sw.contract, f, sw.key, dest, rate, lock, c, sg);
  }

  lemma SignedWith(contract: Bytes, f: Funding, key: SwapKey, dest: Bytes, rate: real, lock: nat, c: Crypto, sg: Signatures)
    returns (sig: Bytes)
    requires Signs(key, contract, c, sg)
    ensures 2 <= |sig| <= MAX_SIG && exists unsigned: Tx :: sig == sg.sign(key.priv, contract, unsigned)
    ensures var tx := SignedSpend(contract, f, key, None, dest, rate, lock, c, sg).tx;
            tx.spends == f.outpoint && tx.sigScript == SigScript(contract, sig, key.pub, None)
  {
    hide SigScript, SpendVSize, Fees.FeeFor;
    var unsigned := UnsignedTx(f, lock, f.value - Fees.FeeFor(rate, SpendVSize(contract, dest, None)), dest);
    sig := sg.sign(key.priv, contract, unsigned);
    SignatureFits(key, contract, unsigned, c, sg);
    hide SoundKey, Plain;
  }

  lemma SignatureFits(key: SwapKey, contract: Bytes, unsigned: Tx, c: Crypto, sg: Signatures)
    requires SoundKey(key, c, sg)
    ensures 2 <= |sg.sign(key.priv, contract, unsigned)| <= MAX_SIG
  {
  }

  /**
   A redeem is filed as one and teaches the secret, however the counterparty built it: any
   transaction the network accepts as spending this contract's output otherwise than by a refund.
   */
  lemma RedeemFiledAsRedeem(sw: Swap, tx: RawTx, i: nat, c: Crypto, ctx: Context)
    requires Digests(c) && ContractRight(sw, c) && sw.contract != [] && sw.funding.Some?
    requires i < |tx.inputs| && tx.inputs[i].outpoint == sw.funding.value.outpoint
    requires SpendAccepted(tx.inputs[i].sigScript, c.hash160(sw.contract), c, ctx)
    requires ScriptIsContract(sw.contract, tx.inputs[i].sigScript, c, ctx)
    requires !TakesRefund(sw, tx.inputs[i].sigScript, c, ctx)
    ensures var y := Absorbed(sw, Some(tx), c);
            && y.state == Redeemed
            && (sw.secret == [] ==> c.sha256(y.secret) == sw.secretHash)
            && y.(state := sw.state, secret := sw.secret) == sw
  {
    ParseExactly(sw.contract, ContractTerms(sw));
    var scripts := SigScripts(tx.inputs);
    hide SpendAccepted, Parse, ContractScript, ExtractSecret, RefundStack;
    RedeemAlwaysReveals(ContractTerms(sw), scripts, i, c, ctx);
    assert tx.inputs[i] in tx.inputs;
  }

  /** No other script hashes to the contract's hash. */
  predicate ScriptIsContract(contract: Bytes, sigScript: Bytes, c: Crypto, ctx: Context)
    requires SpendAccepted(sigScript, c.hash160(contract), c, ctx)
  {
    var script := Top(PushedStack(Tokenize(sigScript).value, ctx.policy.minimalPushes).value, 0);
    c.hash160(script) == c.hash160(contract) ==> script == contract
  }

  ghost predicate TakesRefund(sw: Swap, sigScript: Bytes, c: Crypto, ctx: Context)
    requires SpendAccepted(sigScript, c.hash160(sw.contract), c, ctx)
  {
    RefundStack(ContractTerms(sw), Drop(PushedStack(Tokenize(sigScript).value, ctx.policy.minimalPushes).value, 1), c, ctx)
  }
}
