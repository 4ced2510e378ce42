/**
 Spending a contract: signature scripts and secret extraction (wasm/htlc.go), and the
 transactions that redeem or refund one (wasm/txbuild.go).
 */
module Spend {
  import opened Prelude
  import opened Script
  import opened Contract
  import opened Engine
  import opened Fees

  // ---------- signature scripts ----------

  /** What a push-only script leaves on the stack; None when it is not push-only. */
  function PushedStack(ts: seq<Token>, minimal: bool): Option<seq<Bytes>> {
    if ts == [] then Some([])
    else
      match (PushedValue(ts[0], minimal), PushedStack(ts[1..], minimal))
      case (Some(v), Some(vs)) => Some([v] + vs)
      case _ => None
  }

  /** Spending a pay-to-script-hash output: the last push is the script, and the rest is its stack. */
  predicate SpendAccepted(sigScript: Bytes, scriptHash: Bytes, c: Crypto, ctx: Context) {
    && Tokenize(sigScript).Some?
    && var pushed := PushedStack(Tokenize(sigScript).value, ctx.policy.minimalPushes);
       && pushed.Some?
       && |pushed.value| >= 1
       && c.hash160(Top(pushed.value, 0)) == scriptHash
       && Accepts(Top(pushed.value, 0), Drop(pushed.value, 1), c, ctx)
  }

  /** A push that stands for these bytes and no others. */
  predicate Plain(data: Bytes) {
    |data| < 0x1_0000 && data != [0]
  }

  lemma PushOfPlain(data: Bytes, minimal: bool)
    requires Plain(data)
    ensures PushedValue(PushOf(data), minimal) == Some(data)
  {
    if |data| == 1 {
      assert data == [data[0]];
    }
  }

  /** <sig> <pubkey> <secret> 1 <contract>, or <sig> <pubkey> 0 <contract> without a secret. */
  function SigTokens(contract: Bytes, sig: Bytes, pub: Bytes, secret: Option<Bytes>): (ts: seq<Token>)
    requires |contract| < 0x1_0000 && |sig| < 0x1_0000 && |pub| < 0x1_0000
    requires secret.Some? ==> |secret.value| < 0x1_0000
    ensures AllWellFormed(ts)
  {
    match secret
    case Some(s) => [PushOf(sig), PushOf(pub), PushOf(s), Op(OP_1), PushOf(contract)]
    case None => [PushOf(sig), PushOf(pub), Op(OP_0), PushOf(contract)]
  }

  function SigScript(contract: Bytes, sig: Bytes, pub: Bytes, secret: Option<Bytes>): Bytes
    requires |contract| < 0x1_0000 && |sig| < 0x1_0000 && |pub| < 0x1_0000
    requires secret.Some? ==> |secret.value| < 0x1_0000
  {
    EmitAll(SigTokens(contract, sig, pub, secret))
  }

  lemma EmitFour(ts: seq<Token>)
    requires AllWellFormed(ts) && |ts| == 4
    ensures EmitAll(ts) == [] + Emit(ts[0]) + Emit(ts[1]) + Emit(ts[2]) + Emit(ts[3])
  {
    hide Emit;
    NothingWritten(ts);
    Grow(ts, 0);
    Grow(ts, 1);
    Grow(ts, 2);
    Grow(ts, 3);
    AllWritten(ts);
  }

  lemma EmitFive(ts: seq<Token>)
    requires AllWellFormed(ts) && |ts| == 5
    ensures EmitAll(ts) == [] + Emit(ts[0]) + Emit(ts[1]) + Emit(ts[2]) + Emit(ts[3]) + Emit(ts[4])
  {
    hide Emit;
    EmitFour(ts[..4]);
    Grow(ts, 4);
    AllWritten(ts);
  }

  method RedeemSigScript(contract: Bytes, sig: Bytes, pub: Bytes, secret: Bytes) returns (b: Bytes)
    requires |contract| < 0x1_0000 && |sig| < 0x1_0000 && |pub| < 0x1_0000 && |secret| < 0x1_0000
    ensures b == SigScript(contract, sig, pub, Some(secret))
  {
    EmitFive(SigTokens(contract, sig, pub, Some(secret)));
    hide PushOf, Emit;
    b := [];
    b := AddData(b, sig);
    b := AddData(b, pub);
    b := AddData(b, secret);
    b := AddOp(b, OP_1);
    b := AddData(b, contract);
  }

  method RefundSigScript(contract: Bytes, sig: Bytes, pub: Bytes) returns (b: Bytes)
    requires |contract| < 0x1_0000 && |sig| < 0x1_0000 && |pub| < 0x1_0000
    ensures b == SigScript(contract, sig, pub, None)
  {
    EmitFour(SigTokens(contract, sig, pub, None));
    hide PushOf, Emit;
    b := [];
    b := AddData(b, sig);
    b := AddData(b, pub);
    b := AddOp(b, OP_0);
    b := AddData(b, contract);
  }

  /** The stack a signature script leaves is what was put into it. */
  lemma SigStack(contract: Bytes, sig: Bytes, pub: Bytes, secret: Option<Bytes>, minimal: bool)
    requires Plain(contract) && Plain(sig) && Plain(pub)
    requires secret.Some? ==> Plain(secret.value)
    ensures Tokenize(SigScript(contract, sig, pub, secret)) == Some(SigTokens(contract, sig, pub, secret))
    ensures PushedStack(SigTokens(contract, sig, pub, secret), minimal)
         == Some(match secret
                 case Some(s) => [sig, pub, s, [1], contract]
                 case None => [sig, pub, [], contract])
  {
    hide PushOf, PushedValue, Tokenize, EmitAll, PushedStack;
    TokenizeEmitAll(SigTokens(contract, sig, pub, secret));
    hide SigTokens;
    PushOfPlain(contract, minimal);
    PushOfPlain(sig, minimal);
    PushOfPlain(pub, minimal);
    if secret.Some? {
      PushOfPlain(secret.value, minimal);
      RedeemStackOf(contract, sig, pub, secret.value, minimal);
    } else {
      RefundStackOf(contract, sig, pub, minimal);
    }
  }

  lemma RedeemStackOf(contract: Bytes, sig: Bytes, pub: Bytes, s: Bytes, minimal: bool)
    requires Plain(contract) && Plain(sig) && Plain(pub) && Plain(s)
    requires forall d :: d in [contract, sig, pub, s] ==> PushedValue(PushOf(d), minimal) == Some(d)
    ensures PushedStack(SigTokens(contract, sig, pub, Some(s)), minimal) == Some([sig, pub, s, [1], contract])
  {
    hide PushOf;
    assert PushedValue(Op(OP_1), minimal) == Some([1]);
    hide PushedValue;
    StackOf(SigTokens(contract, sig, pub, Some(s)), [sig, pub, s, [1], contract], minimal, 0);
  }

  lemma RefundStackOf(contract: Bytes, sig: Bytes, pub: Bytes, minimal: bool)
    requires Plain(contract) && Plain(sig) && Plain(pub)
    requires forall d :: d in [contract, sig, pub] ==> PushedValue(PushOf(d), minimal) == Some(d)
    ensures PushedStack(SigTokens(contract, sig, pub, None), minimal) == Some([sig, pub, [], contract])
  {
    hide PushOf;
    assert PushedValue(Op(OP_0), minimal) == Some([]);
    hide PushedValue;
    StackOf(SigTokens(contract, sig, pub, None), [sig, pub, [], contract], minimal, 0);
  }

  lemma {:induction false} StackOf(ts: seq<Token>, vs: seq<Bytes>, minimal: bool, k: nat)
    requires |ts| == |vs| && k <= |ts|
    requires forall i :: 0 <= i < |ts| ==> PushedValue(ts[i], minimal) == Some(vs[i])
    ensures PushedStack(ts[k..], minimal) == Some(vs[k..])
    ensures k == 0 ==> PushedStack(ts, minimal) == Some(vs)
    decreases |ts| - k
  {
    hide PushedValue;
    assert ts[0..] == ts && vs[0..] == vs;
    if k == |ts| {
      assert ts[k..] == [] && vs[k..] == [];
    } else {
      StackOf(ts, vs, minimal, k + 1);
      assert ts[k..][0] == ts[k] && ts[k..][1..] == ts[k + 1..];
      assert vs[k..] == [vs[k]] + vs[k + 1..];
    }
  }

  // ---------- secret extraction ----------

  /** The payloads of a script's pushes: OP_0 counts as an empty one, the other number opcodes do not. */
  function Payloads(ts: seq<Token>): seq<Bytes> {
    if ts == [] then []
    else if ts[0].Push? then [ts[0].data] + Payloads(ts[1..])
    else if ts[0].op == OP_0 then [[]] + Payloads(ts[1..])
    else Payloads(ts[1..])
  }

  function PushedData(script: Bytes): Option<seq<Bytes>> {
    match Tokenize(script)
    case None => None
    case Some(ts) => Some(Payloads(ts))
  }

  function FirstPreimage(pushes: seq<Bytes>, hash: Bytes, c: Crypto): Option<Bytes> {
    if pushes == [] then None
    else if c.sha256(pushes[0]) == hash then Some(pushes[0])
    else FirstPreimage(pushes[1..], hash, c)
  }

  /** The first push of any readable script that hashes to `hash`. */
  function ExtractSecret(sigScripts: seq<Bytes>, hash: Bytes, c: Crypto): Option<Bytes> {
    if sigScripts == [] then None
    else
      match PushedData(sigScripts[0])
      case None => ExtractSecret(sigScripts[1..], hash, c)
      case Some(pushes) =>
        match FirstPreimage(pushes, hash, c)
        case Some(p) => Some(p)
        case None => ExtractSecret(sigScripts[1..], hash, c)
  }

  method ScanForSecret(sigScripts: seq<Bytes>, hash: Bytes, c: Crypto) returns (r: Option<Bytes>)
    ensures r == ExtractSecret(sigScripts, hash, c)
  {
    var i := 0;
    assert sigScripts[0..] == sigScripts;
    while i < |sigScripts|
      invariant 0 <= i <= |sigScripts|
      invariant ExtractSecret(sigScripts, hash, c) == ExtractSecret(sigScripts[i..], hash, c)
    {
      assert sigScripts[i..][1..] == sigScripts[i + 1..];
      var pushed := PushedData(sigScripts[i]);
      if pushed.Some? {
        var pushes := pushed.value;
        var j := 0;
        assert pushes[0..] == pushes;
        while j < |pushes|
          invariant 0 <= j <= |pushes|
          invariant FirstPreimage(pushes, hash, c) == FirstPreimage(pushes[j..], hash, c)
        {
          if c.sha256(pushes[j]) == hash { return Some(pushes[j]); }
          assert pushes[j..][1..] == pushes[j + 1..];
          j := j + 1;
        }
        assert pushes[j..] == [];
      }
      i := i + 1;
    }
    assert sigScripts[i..] == [];
    return None;
  }

  /** `p` is pushed by one of the scripts and hashes to `hash`. */
  ghost predicate Revealed(sigScripts: seq<Bytes>, hash: Bytes, c: Crypto, p: Bytes) {
    c.sha256(p) == hash
    && exists i :: 0 <= i < |sigScripts| && PushedData(sigScripts[i]).Some? && p in PushedData(sigScripts[i]).value
  }

  lemma {:induction false} FirstPreimageSound(pushes: seq<Bytes>, hash: Bytes, c: Crypto)
    ensures var r := FirstPreimage(pushes, hash, c);
            if r.Some? then r.value in pushes && c.sha256(r.value) == hash
            else forall p :: p in pushes ==> c.sha256(p) != hash
  {
    if pushes != [] {
      FirstPreimageSound(pushes[1..], hash, c);
    }
  }

  /** Extraction finds a preimage exactly when some script pushes one, and what it finds is one. */
  lemma {:induction false} ExtractSecretExactly(sigScripts: seq<Bytes>, hash: Bytes, c: Crypto)
    ensures var r := ExtractSecret(sigScripts, hash, c);
            if r.Some? then Revealed(sigScripts, hash, c, r.value)
            else forall p :: !Revealed(sigScripts, hash, c, p)
  {
    if sigScripts != [] {
      hide PushedData;
      var r := ExtractSecret(sigScripts, hash, c);
      ExtractSecretExactly(sigScripts[1..], hash, c);
      if PushedData(sigScripts[0]).Some? {
        FirstPreimageSound(PushedData(sigScripts[0]).value, hash, c);
      }
      if r.Some? {
        if Revealed(sigScripts[1..], hash, c, r.value) {
          RevealedLater(sigScripts, hash, c, r.value);
        }
      } else {
        forall p ensures !Revealed(sigScripts, hash, c, p) {
          RevealedSomewhere(sigScripts, hash, c, p);
        }
      }
    }
  }

  lemma RevealedSomewhere(sigScripts: seq<Bytes>, hash: Bytes, c: Crypto, p: Bytes)
    requires sigScripts != []
    ensures Revealed(sigScripts, hash, c, p) ==>
              Revealed(sigScripts[1..], hash, c, p)
              || (c.sha256(p) == hash && PushedData(sigScripts[0]).Some? && p in PushedData(sigScripts[0]).value)
  {
    if Revealed(sigScripts, hash, c, p) {
      var i :| 0 <= i < |sigScripts| && PushedData(sigScripts[i]).Some? && p in PushedData(sigScripts[i]).value;
      if i > 0 {
        assert sigScripts[1..][i - 1] == sigScripts[i];
      }
    }
  }

  lemma RevealedLater(sigScripts: seq<Bytes>, hash: Bytes, c: Crypto, p: Bytes)
    requires sigScripts != [] && Revealed(sigScripts[1..], hash, c, p)
    ensures Revealed(sigScripts, hash, c, p)
  {
    var i :| 0 <= i < |sigScripts[1..]| && PushedData(sigScripts[1..][i]).Some? && p in PushedData(sigScripts[1..][i]).value;
    assert sigScripts[i + 1] == sigScripts[1..][i];
  }

  /** A stack element longer than one byte came from a push that carries it. */
  lemma {:induction false} LongElementsArePayloads(ts: seq<Token>, minimal: bool, k: nat)
    requires PushedStack(ts, minimal).Some? && k < |PushedStack(ts, minimal).value|
    requires |PushedStack(ts, minimal).value[k]| > 1
    ensures PushedStack(ts, minimal).value[k] in Payloads(ts)
  {
    if k > 0 {
      LongElementsArePayloads(ts[1..], minimal, k - 1);
    }
  }

  /**
   However it was built, a spend that the network accepts through the redeem branch reveals the
   secret: extraction over any list of scripts that contains its own finds a preimage.
   */
  lemma RedeemAlwaysReveals(t: Terms, sigScripts: seq<Bytes>, i: nat, c: Crypto, ctx: Context)
    requires Buildable(t) && i < |sigScripts|
    requires SpendAccepted(sigScripts[i], c.hash160(ContractScript(t)), c, ctx)
    requires var script := Top(PushedStack(Tokenize(sigScripts[i]).value, ctx.policy.minimalPushes).value, 0);
             c.hash160(script) == c.hash160(ContractScript(t)) ==> script == ContractScript(t)
    requires !RefundStack(t, Drop(PushedStack(Tokenize(sigScripts[i]).value, ctx.policy.minimalPushes).value, 1), c, ctx)
    ensures var r := ExtractSecret(sigScripts, t.secretHash, c);
            r.Some? && c.sha256(r.value) == t.secretHash
  {
    hide Accepts, RedeemStack, RefundStack, ContractScript;
    var ts := Tokenize(sigScripts[i]).value;
    var pushed := PushedStack(ts, ctx.policy.minimalPushes).value;
    var s := Drop(pushed, 1);
    ExactlyTwoWays(t, s, c, ctx);
    RedeemSecretAt(t, s, c, ctx);
    LongElementsArePayloads(ts, ctx.policy.minimalPushes, |pushed| - 3);
    assert PushedData(sigScripts[i]).value == Payloads(ts);
    assert Revealed(sigScripts, t.secretHash, c, pushed[|pushed| - 3]);
    ExtractSecretExactly(sigScripts, t.secretHash, c);
  }

  lemma RedeemSecretAt(t: Terms, s: seq<Bytes>, c: Crypto, ctx: Context)
    requires RedeemStack(t, s, c, ctx)
    ensures |s| >= 4 && |s[|s| - 2]| == SECRET_SIZE && c.sha256(s[|s| - 2]) == t.secretHash
  {
  }

  // ---------- the spending transaction ----------

  const SPEND_SEQUENCE := 0
  const MAX_SIG := 73
  const PUB_LEN := 33

  datatype SwapKey = SwapKey(priv: Bytes, pub: Bytes, pkh: Bytes)

  datatype OutPoint = OutPoint(txid: Bytes, vout: nat)

  /** The contract output a swap adopted. `pkScript` is what the chain says it pays, once that was read. */
  datatype Funding = Funding(outpoint: OutPoint, value: int, confirmed: bool, confirmations: int, pkScript: Option<Bytes>)

  /** A one-in one-out transaction. */
  datatype Tx = Tx(spends: OutPoint, sequence: nat, lockTime: nat, sigScript: Bytes, value: int, destScript: Bytes)

  datatype SpendResult = SpendResult(tx: Tx, fee: int, vsize: nat, value: int)

  /** Signing and checking a signature over a transaction, its own signature script left out. */
  datatype Signatures = Signatures(sign: (Bytes, Bytes, Tx) -> Bytes, verify: (Bytes, Bytes, Bytes, Tx) -> bool)

  /** The halves of a key agree, and what it signs verifies and has the length of a DER signature. */
  ghost predicate SoundKey(key: SwapKey, c: Crypto, sg: Signatures) {
    && |key.pub| == PUB_LEN
    && c.hash160(key.pub) == key.pkh
    && forall contract: Bytes, tx: Tx ::
         var sig := sg.sign(key.priv, contract, tx);
         2 <= |sig| <= MAX_SIG && sg.verify(sig, key.pub, contract, tx)
  }

  /** The hash functions produce digests of their own lengths. */
  ghost predicate Digests(c: Crypto) {
    (forall b: Bytes :: |c.sha256(b)| == 32) && (forall b: Bytes :: |c.hash160(b)| == 20)
  }

  ghost predicate Signs(key: SwapKey, contract: Bytes, c: Crypto, sg: Signatures) {
    SoundKey(key, c, sg) && Digests(c) && Plain(contract)
  }

  /** OP_HASH160 <hash> OP_EQUAL: the output script that pays a contract. */
  function ContractPkScript(contract: Bytes, c: Crypto): Bytes
    requires |c.hash160(contract)| == 20
  {
    [OP_HASH160, 20] + c.hash160(contract) + [OP_EQUAL]
  }

  /** Two contracts' output scripts are equal exactly when their hashes are. */
  lemma PkScriptHash(a: Bytes, b: Bytes, c: Crypto)
    requires |c.hash160(a)| == 20 && |c.hash160(b)| == 20
    ensures ContractPkScript(a, c) == ContractPkScript(b, c) <==> c.hash160(a) == c.hash160(b)
  {
    assert c.hash160(a) == ContractPkScript(a, c)[2..22];
    assert c.hash160(b) == ContractPkScript(b, c)[2..22];
  }

  /** Unknown is not a mismatch. */
  predicate BindsTo(f: Funding, contract: Bytes, c: Crypto)
    requires |c.hash160(contract)| == 20
  {
    f.pkScript.Some? ==> f.pkScript.value == ContractPkScript(contract, c)
  }

  function VarIntSize(n: nat): nat {
    if n < 0xfd then 1 else if n <= 0xffff then 3 else if n <= 0xffff_ffff then 5 else 9
  }

  /** The bytes a one-in one-out transaction serialises to. */
  function SerializeSize(sigScriptLen: nat, destScriptLen: nat): nat {
    4 + 1 + (36 + VarIntSize(sigScriptLen) + sigScriptLen + 4)
      + 1 + (8 + VarIntSize(destScriptLen) + destScriptLen) + 4
  }

  /** No witness, so the stripped size is the size. */
  function MempoolVSize(size: nat): nat {
    (size * 3 + size + 3) / 4
  }

  /** Sized with the longest signature there is. */
  function SpendVSize(contract: Bytes, destScript: Bytes, secret: Option<Bytes>): nat
    requires |contract| < 0x1_0000 && (secret.Some? ==> |secret.value| < 0x1_0000)
  {
    MempoolVSize(SerializeSize(|SigScript(contract, Zeros(MAX_SIG), Zeros(PUB_LEN), secret)|, |destScript|))
  }

  function UnsignedTx(f: Funding, lockTime: nat, value: int, destScript: Bytes): Tx {
    Tx(f.outpoint, SPEND_SEQUENCE, lockTime, [], value, destScript)
  }

  /** The engine's view of a transaction that spends `contract`, under a node's standard policy. */
  function StandardContext(contract: Bytes, tx: Tx, sg: Signatures): Context {
    Context(tx.lockTime, tx.sequence,
            (sig: Bytes, pub: Bytes) => sg.verify(sig, pub, contract, tx.(sigScript := [])),
            Policy(true, true))
  }

  /** Everything `buildSpend` asks before it signs. */
  predicate Spendable(contract: Bytes, f: Funding, secret: Option<Bytes>, dest: Option<Bytes>, rate: real, c: Crypto)
    requires |contract| < 0x1_0000 && |c.hash160(contract)| == 20 && (secret.Some? ==> |secret.value| < 0x1_0000)
  {
    && f.value > 0
    && 0.0 < rate <= MAX_FEE_RATE as real
    && dest.Some?
    && BindsTo(f, contract, c)
    && Clears(f.value, rate, SpendVSize(contract, dest.value, secret))
  }

  /** The transaction a spend is. */
  ghost function SignedSpend(contract: Bytes, f: Funding, key: SwapKey, secret: Option<Bytes>, destScript: Bytes,
                             rate: real, lockTime: nat, c: Crypto, sg: Signatures): SpendResult
    requires Signs(key, contract, c, sg) && (secret.Some? ==> |secret.value| < 0x1_0000)
  {
    var vsize := SpendVSize(contract, destScript, secret);
    var fee := FeeFor(rate, vsize);
    var tx := UnsignedTx(f, lockTime, f.value - fee, destScript);
    var sig := sg.sign(key.priv, contract, tx);
    SpendResult(tx.(sigScript := SigScript(contract, sig, key.pub, secret)), fee, vsize, f.value - fee)
  }

  /** The signed transaction is no larger than the size its fee was quoted for. */
  lemma NeverLargerThanQuoted(contract: Bytes, sig: Bytes, pub: Bytes, secret: Option<Bytes>, destScript: Bytes)
    requires |contract| < 0x1_0000 && (secret.Some? ==> |secret.value| < 0x1_0000)
    requires 2 <= |sig| <= MAX_SIG && |pub| == PUB_LEN
    ensures SerializeSize(|SigScript(contract, sig, pub, secret)|, |destScript|)
         <= SpendVSize(contract, destScript, secret)
  {
    SigScriptLength(contract, sig, pub, secret);
    SigScriptLength(contract, Zeros(MAX_SIG), Zeros(PUB_LEN), secret);
  }

  lemma SigScriptLength(contract: Bytes, sig: Bytes, pub: Bytes, secret: Option<Bytes>)
    requires |contract| < 0x1_0000 && (secret.Some? ==> |secret.value| < 0x1_0000)
    requires 2 <= |sig| <= MAX_SIG && |pub| == PUB_LEN
    ensures |SigScript(contract, sig, pub, secret)|
         == 1 + |sig| + 34 + 1 + |Emit(PushOf(contract))| + match secret
                                                           case Some(s) => |Emit(PushOf(s))|
                                                           case None => 0
  {
    assert |Emit(PushOf(sig))| == 1 + |sig|;
    assert |Emit(PushOf(pub))| == 34;
    hide PushOf, Emit;
    var ts := SigTokens(contract, sig, pub, secret);
    assert |Emit(Op(OP_0))| == 1 && |Emit(Op(OP_1))| == 1;
    if secret.Some? { EmitFive(ts); } else { EmitFour(ts); }
  }
}
