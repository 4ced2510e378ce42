/**
 The two chains as far as a swap depends on them: who may move what, and when. Bitcoin outputs are
 spent by signature scripts the script engine accepts; a Zenon HTLC entry is unlocked before its
 expiry by anyone with the preimage, and reclaimed at or after it by its creator.
 */
module Ledgers {
  import opened Prelude
  import opened Script
  import opened Contract
  import opened Engine
  import opened Spend
  import opened ZenonVerify

  /** An unspent output; unmined, its sender can still replace it. */
  datatype Coin = Coin(value: int, pkScript: Bytes, mined: bool)

  datatype Actor = Us | Them

  datatype Fate = Live | Unlocked(preimage: Bytes) | Reclaimed

  datatype Entry = Entry(info: HtlcInfo, fate: Fate)

  /** One clock, the unspent outputs, who spent the others, every HTLC entry there has been, and every byte string made public. */
  datatype Chains = Chains(now: int, coins: map<OutPoint, Coin>, spent: map<OutPoint, Actor>, entries: map<string, Entry>,
                           published: set<Bytes>)

  datatype Step =
    | Tick(seconds: nat)
    | Pay(output: OutPoint, coin: Coin)
    | Mine(output: OutPoint)
    | Replace(output: OutPoint)
    | Take(output: OutPoint, sigScript: Bytes, ctx: Context)
    | Lock(id: string, info: HtlcInfo)
    | Unlock(id: string, preimage: Bytes)
    | Reclaim(id: string)
    | Reveal(known: Bytes)

  datatype Act = Act(actor: Actor, step: Step)

  /** What belongs to the honest side alone: its swap key and its Zenon account. */
  datatype Self = Self(pkh: Bytes, address: string)

  /** The hash a pay-to-script-hash output commits to. */
  function ScriptHashOf(pkScript: Bytes): Option<Bytes> {
    if |pkScript| == 23 && pkScript[0] == OP_HASH160 && pkScript[1] == 20 && pkScript[22] == OP_EQUAL
    then Some(pkScript[2..22]) else None
  }

  /** Nobody else can sign with the honest side's key. */
  ghost predicate Unforged(ctx: Context, pkh: Bytes, c: Crypto) {
    forall sig: Bytes, pub: Bytes :: c.hash160(pub) == pkh ==> !ctx.sigOk(sig, pub)
  }

  function PushSet(sigScript: Bytes): set<Bytes> {
    match PushedData(sigScript)
    case None => {}
    case Some(pushes) => set p | p in pushes
  }

  /** What a step puts on a public chain or in a mempool. */
  function Publishes(step: Step): set<Bytes> {
    match step
    case Take(_, sigScript, _) => PushSet(sigScript)
    case Unlock(_, p) => {p}
    case Reveal(p) => {p}
    case _ => {}
  }

  ghost predicate Legal(a: Act, s: Chains, c: Crypto, self: Self) {
    match a.step
    case Tick(_) => true
    case Pay(o, coin) => o !in s.coins && o !in s.spent && !coin.mined && coin.value > 0
    case Mine(o) => o in s.coins
    case Replace(o) => o in s.coins && !s.coins[o].mined
    case Take(o, sigScript, ctx) =>
      && o in s.coins && s.coins[o].mined
      && (ctx.sequence != SEQUENCE_FINAL ==> ctx.lockTime <= s.now)
      && (ScriptHashOf(s.coins[o].pkScript).Some? ==> SpendAccepted(sigScript, ScriptHashOf(s.coins[o].pkScript).value, c, ctx))
      && (a.actor.Them? ==> Unforged(ctx, self.pkh, c))
    case Lock(id, info) =>
      id !in s.entries && info.id == id && info.expirationTime > s.now && (a.actor.Them? ==> info.timeLocked != self.address)
    case Unlock(id, p) =>
      && id in s.entries && s.entries[id].fate.Live? && s.now < s.entries[id].info.expirationTime
      && |p| <= s.entries[id].info.keyMaxSize
      && (s.entries[id].info.hashType == HASH_TYPE_SHA256 ==> c.sha256(p) == s.entries[id].info.hashLock)
    case Reclaim(id) =>
      && id in s.entries && s.entries[id].fate.Live? && s.now >= s.entries[id].info.expirationTime
      && (a.actor.Them? ==> s.entries[id].info.timeLocked != self.address)
    case Reveal(_) => true
  }

  function Happens(a: Act, s: Chains): Chains {
    var t := s.(published := s.published + Publishes(a.step));
    match a.step
    case Tick(d) => t.(now := s.now + d)
    case Pay(o, coin) => t.(coins := s.coins[o := coin])
    case Mine(o) => if o in s.coins then t.(coins := s.coins[o := s.coins[o].(mined := true)]) else t
    case Replace(o) => t.(coins := s.coins - {o})
    case Take(o, _, _) => t.(coins := s.coins - {o}, spent := s.spent[o := a.actor])
    case Lock(id, info) => t.(entries := s.entries[id := Entry(info, Live)])
    case Unlock(id, p) => if id in s.entries then t.(entries := s.entries[id := s.entries[id].(fate := Unlocked(p))]) else t
    case Reclaim(id) => if id in s.entries then t.(entries := s.entries[id := s.entries[id].(fate := Reclaimed)]) else t
    case Reveal(_) => t
  }

  /** The chains after the first `k` acts of a run. */
  function StateAt(s: Chains, run: seq<Act>, k: nat): Chains
    requires k <= |run|
  {
    if k == 0 then s else Happens(run[k - 1], StateAt(s, run, k - 1))
  }

  ghost predicate LegalRun(s: Chains, run: seq<Act>, c: Crypto, self: Self) {
    forall k: nat | k < |run| :: Legal(run[k], StateAt(s, run, k), c, self)
  }

  /** The same acts up to there, the same state there. */
  lemma {:induction false} SamePrefix(s: Chains, run: seq<Act>, longer: seq<Act>, k: nat)
    requires k <= |run| && run <= longer
    ensures StateAt(s, longer, k) == StateAt(s, run, k)
  {
    hide Happens;
    if k > 0 {
      SamePrefix(s, run, longer, k - 1);
    }
  }

  /** A run is extended by what is legal at its end. */
  lemma OneMoreAct(s: Chains, run: seq<Act>, a: Act, c: Crypto, self: Self)
    requires LegalRun(s, run, c, self) && Legal(a, StateAt(s, run, |run|), c, self)
    ensures LegalRun(s, run + [a], c, self)
    ensures StateAt(s, run + [a], |run| + 1) == Happens(a, StateAt(s, run, |run|))
  {
    hide Legal, Happens;
    forall k: nat | k < |run + [a]| ensures Legal((run + [a])[k], StateAt(s, run + [a], k), c, self) {
      SamePrefix(s, run, run + [a], k);
    }
    SamePrefix(s, run, run + [a], |run|);
  }

  lemma {:induction false} ClockAdvances(s: Chains, run: seq<Act>, i: nat, j: nat)
    requires i <= j <= |run|
    ensures StateAt(s, run, i).now <= StateAt(s, run, j).now
    ensures StateAt(s, run, i).published <= StateAt(s, run, j).published
  {
    hide Happens;
    if i < j {
      ClockAdvances(s, run, i, j - 1);
      OnlyForward(run[j - 1], StateAt(s, run, j - 1));
    }
  }

  lemma OnlyForward(a: Act, s: Chains)
    ensures s.now <= Happens(a, s).now && Happens(a, s).published == s.published + Publishes(a.step)
  {
    hide Publishes;
  }

  // ---------- the Bitcoin leg ----------

  /** An output that pays this contract. */
  predicate PaysContract(coin: Coin, t: Terms, c: Crypto)
    requires Buildable(t) && |c.hash160(ContractScript(t))| == 20
  {
    coin.pkScript == ContractPkScript(ContractScript(t), c)
  }

  /** Only the contract itself hashes to the contract's hash. */
  ghost predicate NoOtherScript(t: Terms, c: Crypto)
    requires Buildable(t)
  {
    forall script: Bytes :: c.hash160(script) == c.hash160(ContractScript(t)) ==> script == ContractScript(t)
  }

  lemma HashOfPkScript(contract: Bytes, c: Crypto)
    requires |c.hash160(contract)| == 20
    ensures ScriptHashOf(ContractPkScript(contract, c)) == Some(c.hash160(contract))
  {
    assert ContractPkScript(contract, c)[2..22] == c.hash160(contract);
  }

  /** What a signature script leaves on the stack, the script it was written for on top. */
  function TakeStack(sigScript: Bytes, ctx: Context): Option<seq<Bytes>> {
    match Tokenize(sigScript)
    case None => None
    case Some(ts) => PushedStack(ts, ctx.policy.minimalPushes)
  }

  /** Whoever takes an output of the contract redeems or refunds it as designed. */
  lemma TakeIsRedeemOrRefund(a: Act, s: Chains, o: OutPoint, t: Terms, c: Crypto, self: Self)
    requires Digests(c) && Buildable(t) && NoOtherScript(t, c)
    requires o in s.coins && PaysContract(s.coins[o], t, c)
    requires a.step.Take? && a.step.output == o && Legal(a, s, c, self)
    ensures TakeStack(a.step.sigScript, a.step.ctx).Some? && |TakeStack(a.step.sigScript, a.step.ctx).value| >= 1
    ensures var st := Drop(TakeStack(a.step.sigScript, a.step.ctx).value, 1);
            RedeemStack(t, st, c, a.step.ctx) || RefundStack(t, st, c, a.step.ctx)
  {
    HashOfPkScript(ContractScript(t), c);
    hide ContractScript, Accepts, PushedStack, Tokenize, RedeemStack, RefundStack;
    ExactlyTwoWays(t, Drop(TakeStack(a.step.sigScript, a.step.ctx).value, 1), c, a.step.ctx);
  }

  /** A redeem pushes the 32-byte preimage, in the place below the branch selector. */
  lemma RedeemPushesSecret(t: Terms, sigScript: Bytes, c: Crypto, ctx: Context)
    requires TakeStack(sigScript, ctx).Some? && |TakeStack(sigScript, ctx).value| >= 1
    requires RedeemStack(t, Drop(TakeStack(sigScript, ctx).value, 1), c, ctx)
    ensures var pushed := TakeStack(sigScript, ctx).value;
            && |pushed| >= 3
            && |pushed[|pushed| - 3]| == SECRET_SIZE && c.sha256(pushed[|pushed| - 3]) == t.secretHash
            && pushed[|pushed| - 3] in PushSet(sigScript)
  {
    var pushed := TakeStack(sigScript, ctx).value;
    RedeemSecretAt(t, Drop(pushed, 1), c, ctx);
    hide RedeemStack, PushedStack, Tokenize, Payloads;
    LongElementsArePayloads(Tokenize(sigScript).value, ctx.policy.minimalPushes, |pushed| - 3);
  }

  /** The element the redeem branch hashes, below the branch selector. */
  function SecretUsed(sigScript: Bytes, ctx: Context): Option<Bytes> {
    match TakeStack(sigScript, ctx)
    case None => None
    case Some(pushed) => if |pushed| < 3 then None else Some(pushed[|pushed| - 3])
  }

  /** Before the locktime an output of the contract is taken with its 32-byte preimage, whoever takes it. */
  lemma EarlyTakeUsesSecret(a: Act, s: Chains, o: OutPoint, t: Terms, c: Crypto, self: Self)
    requires Digests(c) && Buildable(t) && NoOtherScript(t, c) && s.now < t.lockTime
    requires o in s.coins && PaysContract(s.coins[o], t, c)
    requires a.step.Take? && a.step.output == o && Legal(a, s, c, self)
    ensures var used := SecretUsed(a.step.sigScript, a.step.ctx);
            used.Some? && |used.value| == SECRET_SIZE && c.sha256(used.value) == t.secretHash
  {
    TakeIsRedeemOrRefund(a, s, o, t, c, self);
    assert !RefundStack(t, Drop(TakeStack(a.step.sigScript, a.step.ctx).value, 1), c, a.step.ctx);
    hide SpendAccepted, TakeStack, PaysContract, NoOtherScript, RedeemStack, RefundStack;
    RedeemPushesSecret(t, a.step.sigScript, c, a.step.ctx);
  }

  /** So without a 32-byte preimage nobody at all takes it before then, the redeemer included. */
  lemma NobodyTakesBeforeLockTime(a: Act, s: Chains, o: OutPoint, t: Terms, c: Crypto, self: Self)
    requires Digests(c) && Buildable(t) && NoOtherScript(t, c) && s.now < t.lockTime
    requires o in s.coins && PaysContract(s.coins[o], t, c) && a.step.Take? && a.step.output == o
    requires forall p: Bytes :: |p| == SECRET_SIZE ==> c.sha256(p) != t.secretHash
    ensures !Legal(a, s, c, self)
  {
    if Legal(a, s, c, self) {
      EarlyTakeUsesSecret(a, s, o, t, c, self);
    }
  }

  /**
   What anyone else can do with an output of the contract, before its locktime: nothing, if the
   redeem key is the honest side's.
   */
  lemma OthersCannotTake(a: Act, s: Chains, o: OutPoint, t: Terms, c: Crypto, self: Self)
    requires Digests(c) && Buildable(t) && NoOtherScript(t, c) && t.pkhRedeem == self.pkh
    requires o in s.coins && PaysContract(s.coins[o], t, c) && s.now < t.lockTime
    requires a.actor.Them? && a.step.Take? && a.step.output == o
    ensures !Legal(a, s, c, self)
  {
    if Legal(a, s, c, self) {
      TakeIsRedeemOrRefund(a, s, o, t, c, self);
      hide SpendAccepted, TakeStack, PaysContract, NoOtherScript;
    }
  }

  /** ... and if the refund key is the honest side's, taking it publishes the 32-byte preimage. */
  lemma TakingRevealsPreimage(a: Act, s: Chains, o: OutPoint, t: Terms, c: Crypto, self: Self)
    requires Digests(c) && Buildable(t) && NoOtherScript(t, c) && t.pkhRefund == self.pkh
    requires o in s.coins && PaysContract(s.coins[o], t, c)
    requires a.actor.Them? && a.step.Take? && a.step.output == o && Legal(a, s, c, self)
    ensures exists p :: p in Happens(a, s).published && |p| == SECRET_SIZE && c.sha256(p) == t.secretHash
  {
    TakeIsRedeemOrRefund(a, s, o, t, c, self);
    assert !RefundStack(t, Drop(TakeStack(a.step.sigScript, a.step.ctx).value, 1), c, a.step.ctx);
    hide SpendAccepted, TakeStack, PaysContract, NoOtherScript, RedeemStack, RefundStack;
    RedeemPushesSecret(t, a.step.sigScript, c, a.step.ctx);
  }
}
