/**
 What the two legs' different rules for the preimage come to. A Zenon entry takes a preimage of up to 32
 bytes and the Bitcoin script only one of exactly 32, and nothing a participant can see before locking its
 ZNN tells how long the initiator's secret is: no guard of the program checks it.
 */
module PreimageSize {
  import opened Prelude
  import opened Contract
  import opened Engine
  import opened Spend
  import opened TxBuild
  import opened SwapRecord
  import opened ZenonVerify
  import opened RecordLaw
  import opened WalletPlan
  import opened HtlcAbi
  import opened Ledgers
  import opened Protocol
  import opened Exchange

  /** A Bitcoin transaction of this side that takes the output with a preimage everybody can read. */
  ghost predicate RedeemsFromPublic(s: Chains, o: OutPoint, sigScript: Bytes, ctx: Context, c: Crypto, self: Self) {
    && Legal(Act(Us, Take(o, sigScript, ctx)), s, c, self)
    && SecretUsed(sigScript, ctx).Some? && SecretUsed(sigScript, ctx).value in s.published
  }

  ghost predicate AbleToRedeem(s: Chains, o: OutPoint, c: Crypto, self: Self) {
    exists sigScript, ctx :: RedeemsFromPublic(s, o, sigScript, ctx, c, self)
  }

  predicate TakenByUs(s: Chains, o: OutPoint) {
    o !in s.coins && o in s.spent && s.spent[o] == Us
  }

  /** From the act at `k` on, until the gap between the legs has passed, this side can redeem, or has. */
  ghost predicate ClaimKept(s: Chains, run: seq<Act>, k: nat, o: OutPoint, c: Crypto, self: Self)
    requires k < |run|
  {
    forall j | k < j <= |run| && StateAt(s, run, j).now < StateAt(s, run, k).now + MIN_LEG_GAP ::
      TakenByUs(StateAt(s, run, j), o) || AbleToRedeem(StateAt(s, run, j), o, c, self)
  }

  /** Whatever happens after the commitment, whoever claims the ZNN leaves this side its claim. */
  ghost predicate ClaimAlwaysKept(b: Birth, sw: Swap, view: ChainView, clock: int, decimals: Option<int>, rd: Readers, m: MethodId,
                                  s: Chains, id: string, c: Crypto, sg: Signatures, self: Self)
    requires sw.funding.Some?
  {
    forall run: seq<Act>, k: nat ::
      k < |run| && run[k].step.Unlock? && run[k].step.id == id
      && CommitsZnn(b, sw, view, clock, decimals, rd, m, s, run, id, c, sg, self) ==>
        ClaimKept(s, run, k, sw.funding.value.outpoint, c, self)
  }

  /** Every preimage the entry would take has the size the contract asks for. */
  ghost predicate OnlyFullPreimages(hash: Bytes, c: Crypto) {
    forall p: Bytes :: |p| <= SECRET_SIZE && c.sha256(p) == hash ==> |p| == SECRET_SIZE
  }

  ghost predicate FullPreimageIn(known: set<Bytes>, hash: Bytes, c: Crypto) {
    exists p :: p in known && |p| == SECRET_SIZE && c.sha256(p) == hash
  }

  /**
   Participant safety, receiving Bitcoin, exactly. Every run in which the ZNN is claimed leaves this side
   able to redeem until the gap has passed if and only if no preimage of at most 32 bytes is shorter, or a
   32-byte one was public when the ZNN was locked.
   */
  lemma ReceivingSafeExactly(b: Birth, sw: Swap, view: ChainView, clock: int, decimals: Option<int>, rd: Readers, m: MethodId,
                             s: Chains, info: HtlcInfo, c: Crypto, sg: Signatures, self: Self)
    requires Committing(b, sw, view, clock, decimals, rd, m, s, info, c, sg, self) && sw.funding.Some?
    requires Buildable(ContractTerms(sw)) && NoOtherScript(ContractTerms(sw), c)
    ensures ClaimAlwaysKept(b, sw, view, clock, decimals, rd, m, s, info.id, c, sg, self)
            <==> OnlyFullPreimages(sw.secretHash, c) || FullPreimageIn(s.published, sw.secretHash, c)
  {
    hide Committing, CommitsZnn, ClaimKept, NoOtherScript, ContractTerms, Buildable;
    if OnlyFullPreimages(sw.secretHash, c) || FullPreimageIn(s.published, sw.secretHash, c) {
      forall run: seq<Act>, k: nat | k < |run| && run[k].step.Unlock? && run[k].step.id == info.id
                                     && CommitsZnn(b, sw, view, clock, decimals, rd, m, s, run, info.id, c, sg, self)
        ensures ClaimKept(s, run, k, sw.funding.value.outpoint, c, self)
      {
        FullPreimageKeepsClaim(b, sw, view, clock, decimals, rd, m, s, info, run, k, c, sg, self);
      }
    } else {
      var p: Bytes :| |p| <= SECRET_SIZE && c.sha256(p) == sw.secretHash && |p| != SECRET_SIZE;
      ShortPreimageLosesClaim(b, sw, view, clock, decimals, rd, m, s, info, p, c, sg, self);
    }
  }

  // ---------- a 32-byte preimage keeps the claim ----------

  lemma FullPreimageKeepsClaim(b: Birth, sw: Swap, view: ChainView, clock: int, decimals: Option<int>, rd: Readers, m: MethodId,
                               s: Chains, info: HtlcInfo, run: seq<Act>, k: nat, c: Crypto, sg: Signatures, self: Self)
    requires Committing(b, sw, view, clock, decimals, rd, m, s, info, c, sg, self) && sw.funding.Some?
    requires Buildable(ContractTerms(sw)) && NoOtherScript(ContractTerms(sw), c)
    requires CommitsZnn(b, sw, view, clock, decimals, rd, m, s, run, info.id, c, sg, self)
    requires k < |run| && run[k].step.Unlock? && run[k].step.id == info.id
    requires OnlyFullPreimages(sw.secretHash, c) || FullPreimageIn(s.published, sw.secretHash, c)
    ensures ClaimKept(s, run, k, sw.funding.value.outpoint, c, self)
  {
    hide Committing, CommitsZnn, OpenOrOurs, Open, NoOtherScript, ContractTerms, ContractScript, Buildable, Legal, StateAt, LegalRun,
         CanRedeemWith, AbleToRedeem, Digests;
    CommittingFacts(b, sw, view, clock, decimals, rd, m, s, info, c, sg, self);
    ParticipantReceivingHoldsOpen(b, sw, view, clock, decimals, rd, m, s, run, info.id, k, c, sg, self);
    var o := sw.funding.value.outpoint;
    forall j | k < j <= |run| && StateAt(s, run, j).now < StateAt(s, run, k).now + MIN_LEG_GAP
      ensures TakenByUs(StateAt(s, run, j), o) || AbleToRedeem(StateAt(s, run, j), o, c, self)
    {
      ClockAdvances(s, run, 0, j);
      ClockAdvances(s, run, k + 1, j);
      assert StateAt(s, run, 0) == s by { AtStart(s, run); }
      var q := FullPreimageAt(s, StateAt(s, run, j), run[k].step.preimage, sw.secretHash, c);
      ReadyFacts(b, sw, view, clock, decimals, rd, m, s, info, q, c, sg, self);
      KeptWhileOpen(sw, StateAt(s, run, j), q, c, sg, self);
    }
  }

  lemma AtStart(s: Chains, run: seq<Act>)
    ensures StateAt(s, run, 0) == s
  {
  }

  lemma FullPreimageAt(s: Chains, later: Chains, p: Bytes, hash: Bytes, c: Crypto) returns (q: Bytes)
    requires OnlyFullPreimages(hash, c) || FullPreimageIn(s.published, hash, c)
    requires s.published <= later.published && p in later.published && |p| <= SECRET_SIZE && c.sha256(p) == hash
    ensures q in later.published && |q| == SECRET_SIZE && c.sha256(q) == hash
  {
    if OnlyFullPreimages(hash, c) {
      q := p;
    } else {
      q :| q in s.published && |q| == SECRET_SIZE && c.sha256(q) == hash;
    }
  }

  lemma KeptWhileOpen(sw: Swap, s: Chains, q: Bytes, c: Crypto, sg: Signatures, self: Self)
    requires CanRedeemWith(sw, q, c, sg) && Buildable(ContractTerms(sw)) && sw.contract == ContractScript(ContractTerms(sw))
    requires OpenOrOurs(s, sw.funding.value.outpoint, ContractTerms(sw), sw.amountSats, c) && 0 <= s.now && q in s.published
    ensures TakenByUs(s, sw.funding.value.outpoint) || AbleToRedeem(s, sw.funding.value.outpoint, c, self)
  {
    if Open(s, sw.funding.value.outpoint, ContractTerms(sw), sw.amountSats, c) {
      OpenIsRedeemable(sw, s, q, c, sg, self);
    }
  }

  lemma OpenIsRedeemable(sw: Swap, s: Chains, q: Bytes, c: Crypto, sg: Signatures, self: Self)
    requires CanRedeemWith(sw, q, c, sg) && Buildable(ContractTerms(sw)) && sw.contract == ContractScript(ContractTerms(sw))
    requires Open(s, sw.funding.value.outpoint, ContractTerms(sw), sw.amountSats, c) && 0 <= s.now && q in s.published
    ensures AbleToRedeem(s, sw.funding.value.outpoint, c, self)
  {
    RedeemIsTakeable(sw, s, q, 1.0, c, sg);
    RedeemUses(sw, q, 1.0, c, sg);
    var tx := RedeemWith(sw, q, 1.0, c, sg);
    hide CanRedeemWith, RedeemWith, SpendAccepted, SecretUsed, ContractTerms, ContractScript, ScriptHashOf, AbleToRedeem;
    TakeIsLegal(s, sw.funding.value.outpoint, tx.sigScript, StandardContext(sw.contract, tx, sg), q, c, self);
  }

  lemma TakeIsLegal(s: Chains, o: OutPoint, sigScript: Bytes, ctx: Context, q: Bytes, c: Crypto, self: Self)
    requires o in s.coins && s.coins[o].mined && ctx.lockTime <= s.now && ScriptHashOf(s.coins[o].pkScript).Some?
    requires SpendAccepted(sigScript, ScriptHashOf(s.coins[o].pkScript).value, c, ctx)
    requires SecretUsed(sigScript, ctx) == Some(q) && q in s.published
    ensures AbleToRedeem(s, o, c, self)
  {
    hide SpendAccepted, ScriptHashOf, SecretUsed;
    assert RedeemsFromPublic(s, o, sigScript, ctx, c, self);
  }

  /** The secret a redeem uses is the one it was built with. */
  lemma RedeemUses(sw: Swap, q: Bytes, rate: real, c: Crypto, sg: Signatures)
    requires CanRedeemWith(sw, q, c, sg)
    ensures var tx := RedeemWith(sw, q, rate, c, sg);
            SecretUsed(tx.sigScript, StandardContext(sw.contract, tx, sg)) == Some(q)
  {
    var sig := SignatureOf(sw.contract, sw.funding.value, sw.key, Some(q), sw.destAddr, rate, 0, c, sg);
    var tx := RedeemWith(sw, q, rate, c, sg);
    hide SecretUsed, SigScript, SignedSpend;
    ScriptUses(sw.contract, sig, sw.key.pub, q, StandardContext(sw.contract, tx, sg));
  }

  lemma ScriptUses(contract: Bytes, sig: Bytes, pub: Bytes, q: Bytes, ctx: Context)
    requires Plain(contract) && 2 <= |sig| <= MAX_SIG && |pub| == PUB_LEN && |q| == SECRET_SIZE
    ensures SecretUsed(SigScript(contract, sig, pub, Some(q)), ctx) == Some(q)
  {
    PlainKeyMaterial(sig, pub, q);
    SigStack(contract, sig, pub, Some(q), ctx.policy.minimalPushes);
    hide Plain, SigScript, SigTokens, PushedStack;
  }

  // ---------- a shorter one does not ----------

  /** Lock and unlock. */
  function TwoActs(info: HtlcInfo, p: Bytes): seq<Act> {
    [Act(Us, Lock(info.id, info)), Act(Them, Unlock(info.id, p))]
  }

  lemma LockThenUnlock(s: Chains, info: HtlcInfo, p: Bytes, c: Crypto, self: Self)
    requires info.id !in s.entries && s.now < info.expirationTime && |p| <= info.keyMaxSize && c.sha256(p) == info.hashLock
    ensures LegalRun(s, TwoActs(info, p), c, self)
    ensures var end := StateAt(s, TwoActs(info, p), 2);
            && end.now == s.now && end.coins == s.coins && end.spent == s.spent && end.published == s.published + {p}
            && info.id in end.entries && end.entries[info.id] == Entry(info, Unlocked(p))
  {
    var lock, unlock := Act(Us, Lock(info.id, info)), Act(Them, Unlock(info.id, p));
    var s1 := Happens(lock, s);
    OneMoreAct(s, [], lock, c, self);
    assert [] + [lock] == [lock];
    OneMoreAct(s, [lock], unlock, c, self);
    assert [lock] + [unlock] == TwoActs(info, p);
    hide LegalRun, StateAt;
  }

  lemma ShortPreimageLosesClaim(b: Birth, sw: Swap, view: ChainView, clock: int, decimals: Option<int>, rd: Readers, m: MethodId,
                                s: Chains, info: HtlcInfo, p: Bytes, c: Crypto, sg: Signatures, self: Self)
    requires Committing(b, sw, view, clock, decimals, rd, m, s, info, c, sg, self) && sw.funding.Some?
    requires Buildable(ContractTerms(sw)) && NoOtherScript(ContractTerms(sw), c)
    requires |p| < SECRET_SIZE && c.sha256(p) == sw.secretHash && !FullPreimageIn(s.published, sw.secretHash, c)
    ensures CommitsZnn(b, sw, view, clock, decimals, rd, m, s, TwoActs(info, p), info.id, c, sg, self)
    ensures !ClaimKept(s, TwoActs(info, p), 1, sw.funding.value.outpoint, c, self)
  {
    hide Committing, CommitsZnn, LegalRun, StateAt, NoOtherScript, ContractTerms, ContractScript, Buildable, Digests, PaysContract;
    CommittingFacts(b, sw, view, clock, decimals, rd, m, s, info, c, sg, self);
    TermsOfSwap(sw);
    LockThenUnlock(s, info, p, c, self);
    OneTick(s, info, p);
    CommittingCommits(b, sw, view, clock, decimals, rd, m, s, info, TwoActs(info, p), c, sg, self);
    NotAble(StateAt(s, TwoActs(info, p), 2), sw.funding.value.outpoint, ContractTerms(sw), sw.amountSats, c, self);
  }

  lemma OneTick(s: Chains, info: HtlcInfo, p: Bytes)
    ensures StateAt(s, TwoActs(info, p), 1).now == s.now
  {
    AtStart(s, TwoActs(info, p));
  }

  /** With no 32-byte preimage public, nothing this side can send takes an open output before the locktime. */
  lemma NotAble(s: Chains, o: OutPoint, t: Terms, least: int, c: Crypto, self: Self)
    requires Digests(c) && Buildable(t) && NoOtherScript(t, c) && Open(s, o, t, least, c) && s.now < t.lockTime
    requires !FullPreimageIn(s.published, t.secretHash, c)
    ensures !TakenByUs(s, o) && !AbleToRedeem(s, o, c, self)
  {
    if AbleToRedeem(s, o, c, self) {
      var sigScript, ctx :| RedeemsFromPublic(s, o, sigScript, ctx, c, self);
      hide PaysContract, NoOtherScript, SecretUsed, Legal, Digests, Buildable;
      EarlyTakeUsesSecret(Act(Us, Take(o, sigScript, ctx)), s, o, t, c, self);
    }
  }

  // ---------- completing at all ----------

  ghost predicate FullPreimageExists(hash: Bytes, c: Crypto) {
    exists p: Bytes :: |p| == SECRET_SIZE && c.sha256(p) == hash
  }

  /** Some run of both chains ends, before the locktime, with the ZNN claimed and the Bitcoin this side's. */
  ghost predicate CanComplete(b: Birth, sw: Swap, view: ChainView, clock: int, decimals: Option<int>, rd: Readers, m: MethodId,
                              s: Chains, info: HtlcInfo, c: Crypto, sg: Signatures, self: Self) {
    exists run: seq<Act>, p: Bytes :: CompletesWith(b, sw, view, clock, decimals, rd, m, s, info, run, p, c, sg, self)
  }

  ghost predicate CompletesWith(b: Birth, sw: Swap, view: ChainView, clock: int, decimals: Option<int>, rd: Readers, m: MethodId,
                                s: Chains, info: HtlcInfo, run: seq<Act>, p: Bytes, c: Crypto, sg: Signatures, self: Self) {
    && CommitsZnn(b, sw, view, clock, decimals, rd, m, s, run, info.id, c, sg, self)
    && StateAt(s, run, |run|).now < sw.lockTime && Exchanged(StateAt(s, run, |run|), sw, info, p)
  }

  /** A committed exchange can complete before the locktime if and only if its hash has a 32-byte preimage. */
  lemma CompletesExactly(b: Birth, sw: Swap, view: ChainView, clock: int, decimals: Option<int>, rd: Readers, m: MethodId,
                         s: Chains, info: HtlcInfo, c: Crypto, sg: Signatures, self: Self)
    requires Committing(b, sw, view, clock, decimals, rd, m, s, info, c, sg, self)
    requires sw.funding.Some? && sw.funding.value.outpoint !in s.spent
    requires Buildable(ContractTerms(sw)) && NoOtherScript(ContractTerms(sw), c)
    ensures CanComplete(b, sw, view, clock, decimals, rd, m, s, info, c, sg, self) <==> FullPreimageExists(sw.secretHash, c)
  {
    hide Committing, CompletesWith, NoOtherScript, ContractTerms, Buildable;
    if FullPreimageExists(sw.secretHash, c) {
      var p: Bytes :| |p| == SECRET_SIZE && c.sha256(p) == sw.secretHash;
      Completing(b, sw, view, clock, decimals, rd, m, s, info, p, c, sg, self);
    }
    if CanComplete(b, sw, view, clock, decimals, rd, m, s, info, c, sg, self) {
      var run: seq<Act>, p: Bytes :| CompletesWith(b, sw, view, clock, decimals, rd, m, s, info, run, p, c, sg, self);
      CompletedWithSecret(b, sw, view, clock, decimals, rd, m, s, info, run, p, c, sg, self);
    }
  }

  lemma Completing(b: Birth, sw: Swap, view: ChainView, clock: int, decimals: Option<int>, rd: Readers, m: MethodId,
                   s: Chains, info: HtlcInfo, p: Bytes, c: Crypto, sg: Signatures, self: Self)
    requires Committing(b, sw, view, clock, decimals, rd, m, s, info, c, sg, self)
    requires |p| == SECRET_SIZE && c.sha256(p) == sw.secretHash
    ensures CanComplete(b, sw, view, clock, decimals, rd, m, s, info, c, sg, self)
  {
    hide Committing, CanRedeemWith, CommitsZnn, StateAt, Exchanged, ContractTerms;
    HonestExchangeCompletes(b, sw, view, clock, decimals, rd, m, s, info, p, 1.0, c, sg, self);
    CommittingFacts(b, sw, view, clock, decimals, rd, m, s, info, c, sg, self);
    OneLock(sw, info, p, 1.0, c, sg);
    assert CompletesWith(b, sw, view, clock, decimals, rd, m, s, info, ExchangeRun(sw, info, p, 1.0, c, sg), p, c, sg, self);
  }

  lemma CompletedWithSecret(b: Birth, sw: Swap, view: ChainView, clock: int, decimals: Option<int>, rd: Readers, m: MethodId,
                            s: Chains, info: HtlcInfo, run: seq<Act>, p: Bytes, c: Crypto, sg: Signatures, self: Self)
    requires Committing(b, sw, view, clock, decimals, rd, m, s, info, c, sg, self)
    requires CompletesWith(b, sw, view, clock, decimals, rd, m, s, info, run, p, c, sg, self)
    requires sw.funding.Some? && sw.funding.value.outpoint !in s.spent
    requires Buildable(ContractTerms(sw)) && NoOtherScript(ContractTerms(sw), c)
    ensures FullPreimageExists(sw.secretHash, c)
  {
    assert LegalRun(s, run, c, self) && sw.leg == Receive;
    hide Committing, CommitsZnn, LegalRun, StateAt, NoOtherScript, ContractTerms, ContractScript, Buildable, Open;
    CommittingFacts(b, sw, view, clock, decimals, rd, m, s, info, c, sg, self);
    TermsOfSwap(sw);
    SpentWithSecret(s, run, sw.funding.value.outpoint, ContractTerms(sw), sw.amountSats, c, self);
  }

  /** An open output spent before its locktime was spent with the 32-byte preimage. */
  lemma SpentWithSecret(s: Chains, run: seq<Act>, o: OutPoint, t: Terms, least: int, c: Crypto, self: Self)
    requires Digests(c) && Buildable(t) && NoOtherScript(t, c) && t.pkhRedeem == self.pkh
    requires Open(s, o, t, least, c) && o !in s.spent && LegalRun(s, run, c, self)
    requires o in StateAt(s, run, |run|).spent && StateAt(s, run, |run|).now < t.lockTime
    ensures FullPreimageExists(t.secretHash, c)
  {
    var i := TakenSomewhere(s, run, |run|, o, c, self);
    ClockAdvances(s, run, i, |run|);
    StaysOpen(s, run, i, o, t, least, c, self);
    assert Legal(run[i], StateAt(s, run, i), c, self);
    hide Legal, LegalRun, StateAt, NoOtherScript, PaysContract, Buildable, Digests, SecretUsed;
    EarlyTakeUsesSecret(run[i], StateAt(s, run, i), o, t, c, self);
  }

  lemma {:induction false} TakenSomewhere(s: Chains, run: seq<Act>, j: nat, o: OutPoint, c: Crypto, self: Self) returns (i: nat)
    requires LegalRun(s, run, c, self) && j <= |run| && o !in s.spent && o in StateAt(s, run, j).spent
    ensures i < j && run[i].step.Take? && run[i].step.output == o && o !in StateAt(s, run, i).spent
  {
    hide Legal, Happens;
    var before := StateAt(s, run, j - 1);
    if o in before.spent {
      i := TakenSomewhere(s, run, j - 1, o, c, self);
    } else {
      i := j - 1;
      OneStepSpent(run[j - 1], before, o);
    }
  }

  lemma OneStepSpent(a: Act, s: Chains, o: OutPoint)
    requires o !in s.spent && o in Happens(a, s).spent
    ensures a.step.Take? && a.step.output == o
  {
    hide Publishes;
  }
}
