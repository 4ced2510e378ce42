/** An honest exchange runs to its end: what the guards commit to, both chains then carry out. */
module Exchange {
  import opened Prelude
  import opened Contract
  import opened Engine
  import opened Spend
  import opened SwapRecord
  import opened ZenonVerify
  import opened RecordLaw
  import opened WalletPlan
  import opened HtlcAbi
  import opened Ledgers
  import opened Protocol

  /** The participant's commitment on the receiving leg, with the entry it creates. */
  ghost predicate Committing(b: Birth, sw: Swap, view: ChainView, clock: int, decimals: Option<int>, rd: Readers, m: MethodId,
                             s: Chains, info: HtlcInfo, c: Crypto, sg: Signatures, self: Self) {
    && Rec(b, sw, c, sg) && sw.role == Participant && sw.leg == Receive
    && self == Self(sw.key.pkh, self.address)
    && MayCreate(sw, view, clock, s.now, decimals, rd, c) && TrueListing(view, sw, s)
    && Selector(m) && info.id !in s.entries && 0 <= s.now
    && EntryOf(info, CreateOf(sw, self.address, s.now, decimals, rd, m), rd, m)
  }

  /** ... whose hash has this 32-byte preimage. */
  ghost predicate Ready(b: Birth, sw: Swap, view: ChainView, clock: int, decimals: Option<int>, rd: Readers, m: MethodId,
                        s: Chains, info: HtlcInfo, p: Bytes, c: Crypto, sg: Signatures, self: Self) {
    Committing(b, sw, view, clock, decimals, rd, m, s, info, c, sg, self) && |p| == SECRET_SIZE && c.sha256(p) == sw.secretHash
  }

  /** The redeem of the recorded funding with this preimage. */
  ghost function RedeemWith(sw: Swap, p: Bytes, rate: real, c: Crypto, sg: Signatures): Tx
    requires CanRedeemWith(sw, p, c, sg)
  {
    SignedSpend(sw.contract, sw.funding.value, sw.key, Some(p), sw.destAddr, rate, 0, c, sg).tx
  }

  /** The counterparty has the ZNN and this side the Bitcoin. */
  predicate Exchanged(end: Chains, sw: Swap, info: HtlcInfo, p: Bytes) {
    && info.id in end.entries && end.entries[info.id] == Entry(info, Unlocked(p))
    && sw.funding.Some? && sw.funding.value.outpoint in end.spent && end.spent[sw.funding.value.outpoint] == Us
  }

  /** Lock, unlock, redeem. */
  function ThreeActs(o: OutPoint, info: HtlcInfo, p: Bytes, sigScript: Bytes, ctx: Context): (run: seq<Act>)
    ensures |run| == 3 && forall i | 0 <= i < 3 :: run[i].step.Lock? ==> run[i].step.info == info
  {
    [Act(Us, Lock(info.id, info)), Act(Them, Unlock(info.id, p)), Act(Us, Take(o, sigScript, ctx))]
  }

  ghost function ExchangeRun(sw: Swap, info: HtlcInfo, p: Bytes, rate: real, c: Crypto, sg: Signatures): seq<Act>
    requires CanRedeemWith(sw, p, c, sg)
  {
    var tx := RedeemWith(sw, p, rate, c, sg);
    ThreeActs(sw.funding.value.outpoint, info, p, tx.sigScript, StandardContext(sw.contract, tx, sg))
  }

  /**
   From any moment at which the participant's guards let it lock its ZNN, and for a hash with this 32-byte
   preimage, the exchange can run to its end within the rules of both chains: the counterparty unlocks the
   ZNN with it, and with that same preimage the participant takes the Bitcoin. Without such a preimage no
   run completes: see PreimageSize.CompletesExactly.
   */
  lemma HonestExchangeCompletes(b: Birth, sw: Swap, view: ChainView, clock: int, decimals: Option<int>, rd: Readers, m: MethodId,
                                s: Chains, info: HtlcInfo, p: Bytes, rate: real, c: Crypto, sg: Signatures, self: Self)
    requires Ready(b, sw, view, clock, decimals, rd, m, s, info, p, c, sg, self)
    ensures CanRedeemWith(sw, p, c, sg)
    ensures CommitsZnn(b, sw, view, clock, decimals, rd, m, s, ExchangeRun(sw, info, p, rate, c, sg), info.id, c, sg, self)
    ensures Exchanged(StateAt(s, ExchangeRun(sw, info, p, rate, c, sg), 3), sw, info, p)
    ensures StateAt(s, ExchangeRun(sw, info, p, rate, c, sg), 3).now == s.now
  {
    CommittingFacts(b, sw, view, clock, decimals, rd, m, s, info, c, sg, self);
    ReadyFacts(b, sw, view, clock, decimals, rd, m, s, info, p, c, sg, self);
    assert |p| <= info.keyMaxSize && c.sha256(p) == info.hashLock;
    ThreeSteps(sw, s, info, p, rate, c, sg, self);
    var run := ExchangeRun(sw, info, p, rate, c, sg);
    OneLock(sw, info, p, rate, c, sg);
    assert Committing(b, sw, view, clock, decimals, rd, m, s, info, c, sg, self);
    hide Ready, Committing, CommitsZnn, CanRedeemWith, LegalRun, StateAt, ExchangeRun, Exchanged, ContractTerms, ContractScript, Open, Buildable;
    CommittingCommits(b, sw, view, clock, decimals, rd, m, s, info, run, c, sg, self);
  }

  lemma OneLock(sw: Swap, info: HtlcInfo, p: Bytes, rate: real, c: Crypto, sg: Signatures)
    requires CanRedeemWith(sw, p, c, sg)
    ensures var run := ExchangeRun(sw, info, p, rate, c, sg);
            |run| == 3 && forall i | 0 <= i < |run| :: run[i].step.Lock? ==> run[i].step.info == info
  {
    hide CanRedeemWith, ThreeActs, RedeemWith;
  }

  lemma CommittingFacts(b: Birth, sw: Swap, view: ChainView, clock: int, decimals: Option<int>, rd: Readers, m: MethodId,
                        s: Chains, info: HtlcInfo, c: Crypto, sg: Signatures, self: Self)
    requires Committing(b, sw, view, clock, decimals, rd, m, s, info, c, sg, self)
    ensures Digests(c) && self.pkh == sw.key.pkh && sw.funding.Some? && sw.leg == Receive
    ensures sw.contract != [] && Buildable(ContractTerms(sw)) && sw.contract == ContractScript(ContractTerms(sw))
    ensures Open(s, sw.funding.value.outpoint, ContractTerms(sw), sw.amountSats, c)
    ensures info.id !in s.entries && 0 <= s.now < info.expirationTime <= sw.lockTime - MIN_LEG_GAP
    ensures info.keyMaxSize == SECRET_SIZE && info.hashLock == sw.secretHash
  {
    assert CommitsZnn(b, sw, view, clock, decimals, rd, m, s, [], info.id, c, sg, self);
    CommitFacts(b, sw, view, clock, decimals, rd, m, s, [], info.id, c, sg, self);
    MayCreateLocks(sw, view, clock, s.now, decimals, rd, c);
    assert sw.zenon.expirationSeconds > 0 && |sw.secretHash| == 32;
    hide Rec, MayCreate, MayLock, CreateOf, EntryOf, CommitsZnn, Open, ContractTerms, ContractScript, TrueListing;
    PlannedEntry(sw, self.address, s.now, decimals, rd, m, info);
  }

  lemma ReadyFacts(b: Birth, sw: Swap, view: ChainView, clock: int, decimals: Option<int>, rd: Readers, m: MethodId,
                   s: Chains, info: HtlcInfo, p: Bytes, c: Crypto, sg: Signatures, self: Self)
    requires Ready(b, sw, view, clock, decimals, rd, m, s, info, p, c, sg, self)
    ensures CanRedeemWith(sw, p, c, sg)
  {
    CommittingFacts(b, sw, view, clock, decimals, rd, m, s, info, c, sg, self);
    hide Rec, MayCreate, CreateOf, EntryOf, CommitsZnn, Open, ContractTerms, ContractScript, TrueListing;
    RightPreimageRedeems(b, sw, p, c, sg);
  }

  lemma CommittingCommits(b: Birth, sw: Swap, view: ChainView, clock: int, decimals: Option<int>, rd: Readers, m: MethodId,
                          s: Chains, info: HtlcInfo, run: seq<Act>, c: Crypto, sg: Signatures, self: Self)
    requires Committing(b, sw, view, clock, decimals, rd, m, s, info, c, sg, self)
    requires LegalRun(s, run, c, self) && forall i | 0 <= i < |run| :: run[i].step.Lock? ==> run[i].step.info == info
    ensures CommitsZnn(b, sw, view, clock, decimals, rd, m, s, run, info.id, c, sg, self)
  {
    hide Rec, MayCreate, CreateOf, EntryOf, TrueListing, LegalRun;
  }

  lemma ThreeSteps(sw: Swap, s: Chains, info: HtlcInfo, p: Bytes, rate: real, c: Crypto, sg: Signatures, self: Self)
    requires CanRedeemWith(sw, p, c, sg) && Buildable(ContractTerms(sw)) && sw.contract == ContractScript(ContractTerms(sw))
    requires Open(s, sw.funding.value.outpoint, ContractTerms(sw), sw.amountSats, c)
    requires info.id !in s.entries && 0 <= s.now < info.expirationTime && |p| <= info.keyMaxSize && c.sha256(p) == info.hashLock
    ensures LegalRun(s, ExchangeRun(sw, info, p, rate, c, sg), c, self)
    ensures Exchanged(StateAt(s, ExchangeRun(sw, info, p, rate, c, sg), 3), sw, info, p)
    ensures StateAt(s, ExchangeRun(sw, info, p, rate, c, sg), 3).now == s.now
  {
    RedeemIsTakeable(sw, s, p, rate, c, sg);
    var tx := RedeemWith(sw, p, rate, c, sg);
    hide SpendAccepted, PaysContract, CanRedeemWith, ContractTerms, ContractScript, RedeemWith, ScriptHashOf, StateAt, LegalRun;
    LockUnlockTake(s, sw.funding.value.outpoint, info, p, tx.sigScript, StandardContext(sw.contract, tx, sg), c, self);
  }

  lemma LockUnlockTake(s: Chains, o: OutPoint, info: HtlcInfo, p: Bytes, sigScript: Bytes, ctx: Context, c: Crypto, self: Self)
    requires o in s.coins && s.coins[o].mined && ctx.lockTime <= s.now
    requires ScriptHashOf(s.coins[o].pkScript).Some? && SpendAccepted(sigScript, ScriptHashOf(s.coins[o].pkScript).value, c, ctx)
    requires info.id !in s.entries && s.now < info.expirationTime && |p| <= info.keyMaxSize && c.sha256(p) == info.hashLock
    ensures var run := ThreeActs(o, info, p, sigScript, ctx);
            var end := StateAt(s, run, 3);
            && LegalRun(s, run, c, self)
            && info.id in end.entries && end.entries[info.id] == Entry(info, Unlocked(p))
            && o in end.spent && end.spent[o] == Us && end.now == s.now
  {
    hide SpendAccepted, PushSet, ScriptHashOf;
    var lock, unlock, take := Act(Us, Lock(info.id, info)), Act(Them, Unlock(info.id, p)), Act(Us, Take(o, sigScript, ctx));
    OneMoreAct(s, [], lock, c, self);
    assert [] + [lock] == [lock];
    OneMoreAct(s, [lock], unlock, c, self);
    assert [lock] + [unlock] == [lock, unlock];
    OneMoreAct(s, [lock, unlock], take, c, self);
    assert [lock, unlock] + [take] == ThreeActs(o, info, p, sigScript, ctx);
    hide LegalRun, StateAt;
  }

  /** The redeem is accepted against the output as the chain holds it. */
  lemma RedeemIsTakeable(sw: Swap, s: Chains, p: Bytes, rate: real, c: Crypto, sg: Signatures)
    requires CanRedeemWith(sw, p, c, sg) && Buildable(ContractTerms(sw)) && sw.contract == ContractScript(ContractTerms(sw))
    requires Open(s, sw.funding.value.outpoint, ContractTerms(sw), sw.amountSats, c)
    ensures var tx := RedeemWith(sw, p, rate, c, sg);
            var ctx := StandardContext(sw.contract, tx, sg);
            && ctx.lockTime == 0
            && ScriptHashOf(s.coins[sw.funding.value.outpoint].pkScript).Some?
            && SpendAccepted(tx.sigScript, ScriptHashOf(s.coins[sw.funding.value.outpoint].pkScript).value, c, ctx)
  {
    HashOfPkScript(sw.contract, c);
    hide SpendAccepted, ContractScript, ContractPkScript, SigScript, SpendVSize;
  }}
