/**
 Two interleavings that both chains allow and no guard of the program prevents, in which the counterparty
 ends with both legs. PreimageSize and Protocol say exactly when the guards are enough.
 */
module LosingRuns {
  import opened Prelude
  import opened Contract
  import opened Engine
  import opened Spend
  import opened TxBuild
  import opened SwapRecord
  import opened Moves
  import opened ZenonVerify
  import opened ZenonMoves
  import opened RecordLaw
  import opened WalletPlan
  import opened HtlcAbi
  import opened Ledgers
  import opened Protocol
  import opened Exchange
  import opened PreimageSize

  // ---------- a preimage shorter than 32 bytes ----------

  /** The counterparty's own key, and what it signs its refund with. */
  datatype TheirKey = TheirKey(pub: Bytes, sig: Bytes)

  ghost predicate KeyOfPeer(their: TheirKey, sw: Swap, c: Crypto) {
    && |their.pub| == PUB_LEN && 2 <= |their.sig| <= MAX_SIG
    && c.hash160(their.pub) == sw.counterpartyPkh && sw.counterpartyPkh != sw.key.pkh
  }

  /** A transaction of theirs with this locktime, which their signature is good for and no one else's. */
  function TheirContext(their: TheirKey, lockTime: nat): Context {
    Context(lockTime, SPEND_SEQUENCE, (sig: Bytes, pub: Bytes) => pub == their.pub, Policy(true, true))
  }

  /** Lock, unlock with the short preimage, wait for the locktime, refund. */
  ghost function LosingRun(sw: Swap, s: Chains, info: HtlcInfo, p: Bytes, their: TheirKey, c: Crypto): (run: seq<Act>)
    requires sw.funding.Some? && KeyOfPeer(their, sw, c) && |sw.contract| < 0x1_0000 && 0 <= s.now <= sw.lockTime
    ensures |run| == 4 && forall i | 0 <= i < 4 :: run[i].step.Lock? ==> run[i].step.info == info
  {
    TwoActs(info, p) + [Act(Them, Tick(sw.lockTime - s.now))]
    + [Act(Them, Take(sw.funding.value.outpoint, SigScript(sw.contract, their.sig, their.pub, None), TheirContext(their, sw.lockTime)))]
  }

  /** The ZNN was claimed with this preimage, and the Bitcoin is the counterparty's again. */
  predicate TookBoth(end: Chains, o: OutPoint, info: HtlcInfo, p: Bytes) {
    && info.id in end.entries && end.entries[info.id] == Entry(info, Unlocked(p))
    && o in end.spent && end.spent[o] == Them
  }

  /**
   The interleaving: from any moment at which the participant's guards let it lock its ZNN, if the hash has
   a preimage shorter than 32 bytes, the counterparty can unlock the ZNN with it, wait, and take its Bitcoin
   back at the locktime. Both legs are the counterparty's.
   */
  lemma ShortPreimageTakesBothLegs(b: Birth, sw: Swap, view: ChainView, clock: int, decimals: Option<int>, rd: Readers, m: MethodId,
                                   s: Chains, info: HtlcInfo, p: Bytes, their: TheirKey, c: Crypto, sg: Signatures, self: Self)
    requires Committing(b, sw, view, clock, decimals, rd, m, s, info, c, sg, self) && sw.funding.Some?
    requires |p| < SECRET_SIZE && c.sha256(p) == sw.secretHash && KeyOfPeer(their, sw, c)
    ensures |sw.contract| < 0x1_0000 && s.now <= sw.lockTime
    ensures var run := LosingRun(sw, s, info, p, their, c);
            && CommitsZnn(b, sw, view, clock, decimals, rd, m, s, run, info.id, c, sg, self)
            && TookBoth(StateAt(s, run, 4), sw.funding.value.outpoint, info, p)
  {
    assert MIN_LEG_GAP > 0;
    hide *;
    CommittingFacts(b, sw, view, clock, decimals, rd, m, s, info, c, sg, self);
    ContractLength(ContractTerms(sw));
    LosingRunIsLegal(sw, s, info, p, their, c, self);
    CommittingCommits(b, sw, view, clock, decimals, rd, m, s, info, LosingRun(sw, s, info, p, their, c), c, sg, self);
  }

  lemma LosingRunIsLegal(sw: Swap, s: Chains, info: HtlcInfo, p: Bytes, their: TheirKey, c: Crypto, self: Self)
    requires Digests(c) && self.pkh == sw.key.pkh && sw.funding.Some? && KeyOfPeer(their, sw, c) && sw.leg == Receive
    requires Buildable(ContractTerms(sw)) && sw.contract == ContractScript(ContractTerms(sw)) && |sw.contract| < 0x1_0000
    requires Open(s, sw.funding.value.outpoint, ContractTerms(sw), sw.amountSats, c)
    requires info.id !in s.entries && 0 <= s.now < info.expirationTime <= sw.lockTime
    requires |p| <= info.keyMaxSize && c.sha256(p) == info.hashLock
    ensures var run := LosingRun(sw, s, info, p, their, c);
            && LegalRun(s, run, c, self)
            && TookBoth(StateAt(s, run, 4), sw.funding.value.outpoint, info, p)
  {
    var run := LosingRun(sw, s, info, p, their, c);
    LockThenUnlock(s, info, p, c, self);
    hide LegalRun, StateAt, Legal, Happens, Open, ContractTerms, ContractScript, SigScript, Buildable, Digests, KeyOfPeer, TookBoth;
    OpenUnlocked(s, StateAt(s, TwoActs(info, p), 2), sw, c);
    WaitedAndRefunded(sw, StateAt(s, TwoActs(info, p), 2), info, p, their, c, self);
    OneMoreAct(s, TwoActs(info, p), run[2], c, self);
    OneMoreAct(s, TwoActs(info, p) + [run[2]], run[3], c, self);
    assert TwoActs(info, p) + [run[2]] + [run[3]] == run;
  }

  lemma OpenUnlocked(s: Chains, t: Chains, sw: Swap, c: Crypto)
    requires Digests(c) && Buildable(ContractTerms(sw)) && sw.funding.Some? && t.coins == s.coins
    requires Open(s, sw.funding.value.outpoint, ContractTerms(sw), sw.amountSats, c)
    ensures Open(t, sw.funding.value.outpoint, ContractTerms(sw), sw.amountSats, c)
  {
    hide PaysContract, ContractTerms, Buildable, Digests;
  }

  lemma WaitedAndRefunded(sw: Swap, s: Chains, info: HtlcInfo, p: Bytes, their: TheirKey, c: Crypto, self: Self)
    requires Digests(c) && self.pkh == sw.key.pkh && sw.funding.Some? && KeyOfPeer(their, sw, c) && sw.leg == Receive
    requires Buildable(ContractTerms(sw)) && sw.contract == ContractScript(ContractTerms(sw)) && |sw.contract| < 0x1_0000
    requires Open(s, sw.funding.value.outpoint, ContractTerms(sw), sw.amountSats, c) && 0 <= s.now <= sw.lockTime
    requires info.id in s.entries && s.entries[info.id] == Entry(info, Unlocked(p))
    ensures var wait, take := LosingRun(sw, s, info, p, their, c)[2], LosingRun(sw, s, info, p, their, c)[3];
            && Legal(wait, s, c, self) && Legal(take, Happens(wait, s), c, self)
            && TookBoth(Happens(take, Happens(wait, s)), sw.funding.value.outpoint, info, p)
  {
    var wait := Act(Them, Tick(sw.lockTime - s.now));
    OpenUnlocked(s, Happens(wait, s), sw, c);
    RefundIsLegal(sw, Happens(wait, s), their, c, self);
    hide Open, ContractTerms, ContractScript, SigScript, Buildable, Digests, KeyOfPeer, SpendAccepted, ScriptHashOf, PushSet;
  }

  /** At the locktime the refund branch is theirs. */
  lemma RefundIsLegal(sw: Swap, s: Chains, their: TheirKey, c: Crypto, self: Self)
    requires Digests(c) && self.pkh == sw.key.pkh && sw.funding.Some? && KeyOfPeer(their, sw, c) && sw.leg == Receive
    requires Buildable(ContractTerms(sw)) && sw.contract == ContractScript(ContractTerms(sw)) && |sw.contract| < 0x1_0000
    requires Open(s, sw.funding.value.outpoint, ContractTerms(sw), sw.amountSats, c) && 0 <= sw.lockTime <= s.now
    ensures Legal(Act(Them, Take(sw.funding.value.outpoint, SigScript(sw.contract, their.sig, their.pub, None),
                                 TheirContext(their, sw.lockTime))), s, c, self)
  {
    HashOfPkScript(sw.contract, c);
    RefundScriptAccepted(ContractTerms(sw), their.sig, their.pub, c, TheirContext(their, sw.lockTime));
    hide SpendAccepted, ContractScript, ContractPkScript, SigScript, Buildable, ScriptHashOf;
  }

  // ---------- a verdict reached before the contract ----------

  /** The record once the entry was verified, and then its contract built for the counterparty's key. */
  ghost function BuiltAfterVerdict(sw: Swap, n: NodeAnswers, id: string, pkh: Bytes, c: Crypto): Swap
    requires Digests(c)
  {
    After(Verified(sw, n, id), SetPkh(Verified(sw, n, id), pkh, c))
  }

  function Verified(sw: Swap, n: NodeAnswers, id: string): Swap {
    After(sw, VerifyZenon(sw, id, n))
  }

  /**
   A participant who sends Bitcoin verified the counterparty's entry before the contract was on the record,
   and the entry expires before the contract's locktime; see Protocol.EarlyVerdictWitness.
   */
  ghost predicate EarlyVerdict(sw: Swap, n: NodeAnswers, early: HtlcInfo, pkh: Bytes, s: Chains, c: Crypto, self: Self) {
    && Digests(c) && sw.role == Participant && sw.leg == Send && sw.contract == [] && self.pkh == sw.key.pkh
    && early.id != "" && n.entry == FoundEntry(early) && Clock(n) == s.now
    && Fits(early, Expected(sw, n, early.id)) && 0 < s.now <= early.expirationTime < sw.lockTime
    && early.id in s.entries && s.entries[early.id] == Entry(early, Live) && early.timeLocked != self.address
    && SetPkh(Verified(sw, n, early.id), pkh, c).Saved?
  }

  lemma EarlyVerdictFacts(sw: Swap, n: NodeAnswers, early: HtlcInfo, pkh: Bytes, s: Chains, c: Crypto, self: Self)
    requires EarlyVerdict(sw, n, early, pkh, s, c, self)
    ensures var built := BuiltAfterVerdict(sw, n, early.id, pkh, c);
            && built.zenon.verified && built.zenon.htlcId == early.id && built.lockTime == sw.lockTime
            && built.contract == ContractScript(ContractTerms(built)) && Buildable(ContractTerms(built))
            && |built.contract| < 0x1_0000 && built.contractAddr == ContractPkScript(built.contract, c)
            && ContractTerms(built).pkhRedeem == pkh && ContractTerms(built).secretHash == sw.secretHash
            && ScriptHashOf(built.contractAddr) == Some(c.hash160(built.contract))
  {
    hide Fits, Expected, ContractScript, ContractPkScript, ScriptHashOf;
    var built := BuiltAfterVerdict(sw, n, early.id, pkh, c);
    ContractLength(ContractTerms(built));
    HashOfPkScript(built.contract, c);
  }

  /** Fund the contract, let the entry expire, take it back, redeem. */
  function FundExpireReclaimRedeem(s: Chains, o: OutPoint, coin: Coin, early: HtlcInfo, sigScript: Bytes, ctx: Context): (run: seq<Act>)
    requires s.now <= early.expirationTime
    ensures |run| == 5
  {
    [Act(Us, Pay(o, coin)), Act(Us, Mine(o)), Act(Them, Tick(early.expirationTime - s.now)), Act(Them, Reclaim(early.id)),
     Act(Them, Take(o, sigScript, ctx))]
  }

  /**
   The interleaving: the verdict on the record says the entry is in order, so the contract is funded; at the
   entry's expiry the counterparty takes its ZNN back, and redeems the Bitcoin before the locktime lets this
   side refund it.
   */
  lemma EarlyVerdictTakesBothLegs(sw: Swap, n: NodeAnswers, early: HtlcInfo, pkh: Bytes, s: Chains, o: OutPoint, value: int,
                                  p: Bytes, their: TheirKey, c: Crypto, self: Self)
    requires EarlyVerdict(sw, n, early, pkh, s, c, self) && o !in s.coins && o !in s.spent && value > 0
    requires |p| == SECRET_SIZE && c.sha256(p) == sw.secretHash
    requires |their.pub| == PUB_LEN && 2 <= |their.sig| <= MAX_SIG && c.hash160(their.pub) == pkh != self.pkh
    ensures var built := BuiltAfterVerdict(sw, n, early.id, pkh, c);
            && built.zenon.verified && built.zenon.htlcId == early.id && |built.contract| < 0x1_0000
            && var run := FundExpireReclaimRedeem(s, o, Coin(value, built.contractAddr, false), early,
                                                  SigScript(built.contract, their.sig, their.pub, Some(p)), TheirContext(their, 0));
               && LegalRun(s, run, c, self)
               && LostBoth(StateAt(s, run, 5), o, early) && StateAt(s, run, 5).now < built.lockTime
  {
    EarlyVerdictFacts(sw, n, early, pkh, s, c, self);
    var built := BuiltAfterVerdict(sw, n, early.id, pkh, c);
    hide BuiltAfterVerdict, Fits, Expected, SetPkh, Verified, ContractTerms, ContractScript, Buildable, ContractPkScript, SpendAccepted,
         ScriptHashOf, SigScript, LegalRun, StateAt, LostBoth;
    RedeemScriptAccepted(ContractTerms(built), their.sig, their.pub, p, c, TheirContext(their, 0));
    FiveLegalActs(s, o, Coin(value, built.contractAddr, false), early, SigScript(built.contract, their.sig, their.pub, Some(p)),
                  TheirContext(their, 0), c, self);
  }

  /** The ZNN went back to its creator, and the Bitcoin to the counterparty. */
  predicate LostBoth(end: Chains, o: OutPoint, early: HtlcInfo) {
    && early.id in end.entries && end.entries[early.id] == Entry(early, Reclaimed)
    && o in end.spent && end.spent[o] == Them
  }

  lemma FiveLegalActs(s: Chains, o: OutPoint, coin: Coin, early: HtlcInfo, sigScript: Bytes, ctx: Context, c: Crypto, self: Self)
    requires o !in s.coins && o !in s.spent && !coin.mined && coin.value > 0
    requires early.id in s.entries && s.entries[early.id] == Entry(early, Live) && early.timeLocked != self.address
    requires 0 <= s.now <= early.expirationTime && ctx.lockTime == 0 && Unforged(ctx, self.pkh, c)
    requires ScriptHashOf(coin.pkScript).Some? && SpendAccepted(sigScript, ScriptHashOf(coin.pkScript).value, c, ctx)
    ensures var run := FundExpireReclaimRedeem(s, o, coin, early, sigScript, ctx);
            && LegalRun(s, run, c, self)
            && LostBoth(StateAt(s, run, 5), o, early) && StateAt(s, run, 5).now == early.expirationTime
  {
    var run := FundExpireReclaimRedeem(s, o, coin, early, sigScript, ctx);
    hide SpendAccepted, ScriptHashOf, Unforged, LegalRun, StateAt, Legal, Happens;
    FundedAndExpired(s, o, coin, early, sigScript, ctx, c, self);
    ReclaimedAndRedeemed(StateAt(s, run[..3], 3), o, early, sigScript, ctx, c, self);
    OneMoreAct(s, run[..3], run[3], c, self);
    assert run[..3] + [run[3]] == run[..4];
    OneMoreAct(s, run[..4], run[4], c, self);
    assert run[..4] + [run[4]] == run;
  }

  lemma ReclaimedAndRedeemed(s: Chains, o: OutPoint, early: HtlcInfo, sigScript: Bytes, ctx: Context, c: Crypto, self: Self)
    requires early.id in s.entries && s.entries[early.id] == Entry(early, Live) && early.timeLocked != self.address
    requires o in s.coins && s.coins[o].mined && 0 <= early.expirationTime == s.now && ctx.lockTime == 0 && Unforged(ctx, self.pkh, c)
    requires ScriptHashOf(s.coins[o].pkScript).Some? && SpendAccepted(sigScript, ScriptHashOf(s.coins[o].pkScript).value, c, ctx)
    ensures var reclaim, take := Act(Them, Reclaim(early.id)), Act(Them, Take(o, sigScript, ctx));
            && Legal(reclaim, s, c, self) && Legal(take, Happens(reclaim, s), c, self)
            && LostBoth(Happens(take, Happens(reclaim, s)), o, early) && Happens(take, Happens(reclaim, s)).now == s.now
  {
    hide SpendAccepted, ScriptHashOf, PushSet, Unforged;
  }

  lemma FundedAndExpired(s: Chains, o: OutPoint, coin: Coin, early: HtlcInfo, sigScript: Bytes, ctx: Context, c: Crypto, self: Self)
    requires o !in s.coins && o !in s.spent && !coin.mined && coin.value > 0 && s.now <= early.expirationTime
    ensures var run := FundExpireReclaimRedeem(s, o, coin, early, sigScript, ctx)[..3];
            && LegalRun(s, run, c, self)
            && var end := StateAt(s, run, 3);
               && end.now == early.expirationTime && end.entries == s.entries && end.spent == s.spent
               && o in end.coins && end.coins[o] == coin.(mined := true)
  {
    var run := FundExpireReclaimRedeem(s, o, coin, early, sigScript, ctx);
    NoActs(s, run[..0], c, self);
    hide SpendAccepted, ScriptHashOf, PushSet, Unforged, LegalRun, StateAt;
    OneMoreAct(s, run[..0], run[0], c, self);
    assert run[..0] + [run[0]] == run[..1];
    OneMoreAct(s, run[..1], run[1], c, self);
    assert run[..1] + [run[1]] == run[..2];
    OneMoreAct(s, run[..2], run[2], c, self);
    assert run[..2] + [run[2]] == run[..3];
  }

  lemma NoActs(s: Chains, run: seq<Act>, c: Crypto, self: Self)
    requires run == []
    ensures LegalRun(s, run, c, self) && StateAt(s, run, |run|) == s
  {
  }
}
