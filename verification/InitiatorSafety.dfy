/**
 Safety of the honest initiator over whole runs: the secret becomes public only in a claim that pays
 this side (wasm/walletblock.go, wasm/manager.go).
 */
module InitiatorSafety {
  import opened Prelude
  import opened Contract
  import opened Engine
  import opened Spend
  import opened TxBuild
  import opened SwapRecord
  import opened FundingWatch
  import opened Moves
  import opened ZenonVerify
  import opened ZenonMoves
  import opened Settle
  import opened RecordLaw
  import opened Runs
  import opened WalletPlan
  import opened Ledgers
  import opened Protocol
  import Decimal

  // ---------- secrecy ----------

  ghost predicate Exposed(s: Chains, hash: Bytes, c: Crypto) {
    exists p :: p in s.published && c.sha256(p) == hash
  }

  /** Others cannot guess a preimage: what they publish that hashes to `hash` is public already. */
  ghost predicate CannotGuess(a: Act, s: Chains, hash: Bytes, c: Crypto) {
    a.actor.Them? ==> forall p :: p in Publishes(a.step) && c.sha256(p) == hash ==> p in s.published
  }

  /** Whoever's doing it is that the secret is out, it is the honest side's own act. */
  lemma {:induction false} OnlyWeExpose(s: Chains, run: seq<Act>, j: nat, hash: Bytes, c: Crypto) returns (i: nat)
    requires j <= |run| && !Exposed(s, hash, c) && Exposed(StateAt(s, run, j), hash, c)
    requires forall k: nat | k < |run| :: CannotGuess(run[k], StateAt(s, run, k), hash, c)
    ensures i < j && run[i].actor.Us? && !Exposed(StateAt(s, run, i), hash, c)
    ensures exists p :: p in Publishes(run[i].step) && c.sha256(p) == hash
  {
    hide Happens, Publishes;
    if Exposed(StateAt(s, run, j - 1), hash, c) {
      i := OnlyWeExpose(s, run, j - 1, hash, c);
    } else {
      i := j - 1;
      OnlyForward(run[i], StateAt(s, run, i));
      assert CannotGuess(run[i], StateAt(s, run, i), hash, c);
      var p :| p in StateAt(s, run, j).published && c.sha256(p) == hash;
      assert p in Publishes(run[i].step);
    }
  }

  // ---------- the initiator who sends Bitcoin: the unlock ----------

  /** The wallet is handed the unlock at this moment, against the entry as the chain holds it. */
  ghost predicate UnlockPlanned(b: Birth, sw: Swap, n: NodeAnswers, rd: Readers, info: HtlcInfo, s: Chains, c: Crypto, sg: Signatures) {
    && Rec(b, sw, c, sg) && sw.role == Initiator && sw.leg == Send
    && MayUnlock(sw, n, rd)
    && n.entry == FoundEntry(info) && Clock(n) == s.now && 0 < s.now <= MAX_SPAN
    && sw.zenon.htlcId in s.entries && s.entries[sw.zenon.htlcId] == Entry(info, Live) && info.expirationTime >= 0
  }

  /**
   Initiator safety, sending Bitcoin. An unlock this program builds is of an entry that pays this side
   the agreed amount, and for any inclusion delay below two hours it goes through - or somebody else
   used the preimage first, which pays this side just the same. Nobody can take the entry back meanwhile.
   */
  lemma UnlockPaysOrHasPaid(b: Birth, sw: Swap, n: NodeAnswers, rd: Readers, info: HtlcInfo, s: Chains, run: seq<Act>, j: nat,
                            c: Crypto, sg: Signatures, self: Self)
    requires UnlockPlanned(b, sw, n, rd, info, s, c, sg) && LegalRun(s, run, c, self)
    requires j <= |run| && StateAt(s, run, j).now < s.now + MIN_LEG_REMAINING
    ensures PaysUs(info, sw, n.decimals)
    ensures Standing(StateAt(s, run, j), sw.zenon.htlcId, info)
    ensures StateAt(s, run, j).entries[sw.zenon.htlcId].fate.Live? ==>
              Legal(Act(Us, Unlock(sw.zenon.htlcId, sw.secret)), StateAt(s, run, j), c, self)
  {
    PlannedUnlockPays(b, sw, n, rd, info, s, c, sg);
    PlannedUnlockStands(b, sw, n, rd, info, s, c, sg);
    hide UnlockPlanned, LegalRun, PaysUs, Legal, Happens;
    assert StateAt(s, run, 0) == s;
    StaysStanding(s, run, 0, j, sw.zenon.htlcId, info, c, self);
    CanUnlock(StateAt(s, run, j), sw.zenon.htlcId, info, sw.secret, c, self);
  }

  lemma CanUnlock(s: Chains, id: string, info: HtlcInfo, p: Bytes, c: Crypto, self: Self)
    requires Standing(s, id, info) && s.now < info.expirationTime && |p| <= info.keyMaxSize && c.sha256(p) == info.hashLock
    ensures s.entries[id].fate.Live? ==> Legal(Act(Us, Unlock(id, p)), s, c, self)
  {
    hide SpendAccepted;
  }

  lemma PlannedUnlockStands(b: Birth, sw: Swap, n: NodeAnswers, rd: Readers, info: HtlcInfo, s: Chains, c: Crypto, sg: Signatures)
    requires UnlockPlanned(b, sw, n, rd, info, s, c, sg)
    ensures Standing(s, sw.zenon.htlcId, info)
  {
  }

  lemma PlannedUnlockPays(b: Birth, sw: Swap, n: NodeAnswers, rd: Readers, info: HtlcInfo, s: Chains, c: Crypto, sg: Signatures)
    requires UnlockPlanned(b, sw, n, rd, info, s, c, sg)
    ensures PaysUs(info, sw, n.decimals) && info.expirationTime >= s.now + MIN_LEG_REMAINING
    ensures |sw.secret| <= info.keyMaxSize && c.sha256(sw.secret) == info.hashLock
  {
    assert |sw.secretHash| == 32 && |sw.secret| == SECRET_SIZE && c.sha256(sw.secret) == sw.secretHash;
    hide Rec, Expected, Decimal.ParseInteger, Fits, AgreedUnits, MissingZenonTerms;
    PassingEntryPays(sw, n, sw.zenon.htlcId, info);
  }

  // ---------- the initiator who receives Bitcoin: the redeem ----------

  /** The redeem is broadcast at this moment, of an output the chain or its mempool holds as recorded. */
  ghost predicate RedeemPlanned(b: Birth, sw: Swap, asked: Bytes, a: SpendAnswers, s: Chains, c: Crypto, sg: Signatures, self: Self) {
    && Rec(b, sw, c, sg) && sw.role == Initiator && self.pkh == sw.key.pkh
    && PlannedRedeem(sw, asked, a, c, sg).Some?
    && sw.funding.Some? && sw.funding.value.outpoint in s.coins
    && s.coins[sw.funding.value.outpoint].value == sw.funding.value.value
    && s.coins[sw.funding.value.outpoint].pkScript == sw.contractAddr
  }

  ghost function RedeemTx(sw: Swap, asked: Bytes, a: SpendAnswers, c: Crypto, sg: Signatures): SpendResult
    requires Digests(c) && SoundKey(sw.key, c, sg) && PlannedRedeem(sw, asked, a, c, sg).Some?
  {
    PlannedRedeem(sw, asked, a, c, sg).value.outcome.spend
  }

  /** Including the redeem now is legal, and it pays everything the contract holds, less its fee, to the fixed destination. */
  ghost predicate Includable(sw: Swap, spend: SpendResult, s: Chains, c: Crypto, sg: Signatures, self: Self) {
    && spend.tx.spends in s.coins && spend.tx.destScript == sw.destAddr
    && Legal(Act(Us, Take(spend.tx.spends, spend.tx.sigScript, StandardContext(sw.contract, spend.tx, sg))), s, c, self)
  }

  lemma PlannedRedeemFacts(b: Birth, sw: Swap, asked: Bytes, a: SpendAnswers, s: Chains, c: Crypto, sg: Signatures, self: Self)
    requires RedeemPlanned(b, sw, asked, a, s, c, sg, self)
    ensures sw.leg == Receive && Buildable(ContractTerms(sw)) && sw.funding.value.value >= sw.amountSats
    ensures sw.contract == ContractScript(ContractTerms(sw))
    ensures var spend := RedeemTx(sw, asked, a, c, sg);
            && GoodSpend(sw.contract, sw.funding.value.outpoint, sw.destAddr, spend, c, sg)
            && spend.tx.lockTime == 0 && spend.tx.sequence == SPEND_SEQUENCE
            && spend.value == sw.funding.value.value - spend.fee
    ensures PaysContract(s.coins[sw.funding.value.outpoint], ContractTerms(sw), c)
  {
    PlannedRedeemIsGood(b, sw, asked, a, c, sg);
    RedeemShapeOf(sw, asked, a, c, sg);
    hide GoodSpend, PlannedRedeem, RedeemOf, BindingOf;
    FundedHasContract(b, sw, c, sg);
  }

  lemma FundedHasContract(b: Birth, sw: Swap, c: Crypto, sg: Signatures)
    requires Rec(b, sw, c, sg) && sw.funding.Some?
    ensures sw.contract != [] && Buildable(ContractTerms(sw)) && sw.contract == ContractScript(ContractTerms(sw))
    ensures sw.contractAddr == ContractPkScript(sw.contract, c)
  {
    LockTimeInRange(b, sw, c, sg);
  }

  lemma RedeemShapeOf(sw: Swap, asked: Bytes, a: SpendAnswers, c: Crypto, sg: Signatures)
    requires Digests(c) && SoundKey(sw.key, c, sg) && PlannedRedeem(sw, asked, a, c, sg).Some?
    ensures MayRedeem(sw, asked)
    ensures var spend := RedeemTx(sw, asked, a, c, sg);
            spend.tx.lockTime == 0 && spend.tx.sequence == SPEND_SEQUENCE && spend.value == sw.funding.value.value - spend.fee
    ensures PlannedRedeem(sw, asked, a, c, sg).value.outcome.contract == sw.contract
  {
    hide BindingOf, RedeemFits, Spendable, SigScript, SpendVSize, ContractPkScript;
  }

  /**
   Initiator safety, receiving Bitcoin. The redeem is only built against an output holding at least the
   agreed amount, and when that output is mined it can be included at every moment before the locktime:
   until then only the honest side can take the coins, so broadcasting the secret is paid for.
   */
  lemma RedeemPaysUntilLockTime(b: Birth, sw: Swap, asked: Bytes, a: SpendAnswers, s: Chains, run: seq<Act>, j: nat,
                                c: Crypto, sg: Signatures, self: Self)
    requires RedeemPlanned(b, sw, asked, a, s, c, sg, self) && s.coins[sw.funding.value.outpoint].mined
    requires Buildable(ContractTerms(sw)) && NoOtherScript(ContractTerms(sw), c)
    requires LegalRun(s, run, c, self) && j <= |run| && 0 <= s.now && StateAt(s, run, j).now < sw.lockTime
    ensures sw.funding.value.value >= sw.amountSats
    ensures RedeemTx(sw, asked, a, c, sg).value == sw.funding.value.value - RedeemTx(sw, asked, a, c, sg).fee
    ensures OpenOrOurs(StateAt(s, run, j), sw.funding.value.outpoint, ContractTerms(sw), sw.amountSats, c)
    ensures sw.funding.value.outpoint in StateAt(s, run, j).coins ==>
              Includable(sw, RedeemTx(sw, asked, a, c, sg), StateAt(s, run, j), c, sg, self)
  {
    PlannedRedeemFacts(b, sw, asked, a, s, c, sg, self);
    var o, t := sw.funding.value.outpoint, ContractTerms(sw);
    assert Open(s, o, t, sw.amountSats, c) && t.pkhRedeem == self.pkh;
    ClockAdvances(s, run, 0, j);
    var spend := RedeemTx(sw, asked, a, c, sg);
    hide RedeemPlanned, RedeemTx, Legal, LegalRun, Happens, NoOtherScript, ContractTerms, ContractScript, PaysContract, GoodSpend;
    TermsOfSwap(sw);
    StaysOpen(s, run, j, o, t, sw.amountSats, c, self);
    if o in StateAt(s, run, j).coins {
      OpenIncludes(sw, spend, StateAt(s, run, j), c, sg, self);
    }
  }

  lemma OpenIncludes(sw: Swap, spend: SpendResult, s: Chains, c: Crypto, sg: Signatures, self: Self)
    requires Digests(c) && Buildable(ContractTerms(sw)) && sw.contract == ContractScript(ContractTerms(sw)) && sw.funding.Some?
    requires Open(s, sw.funding.value.outpoint, ContractTerms(sw), sw.amountSats, c)
    requires GoodSpend(sw.contract, sw.funding.value.outpoint, sw.destAddr, spend, c, sg)
    requires spend.tx.lockTime == 0 && 0 <= s.now
    ensures Includable(sw, spend, s, c, sg, self)
  {
    HashOfPkScript(sw.contract, c);
    hide SpendAccepted, ContractScript, ContractPkScript;
  }

  /**
   The program does not ask for the funding to be mined before it broadcasts a redeem. While it is not,
   its sender can replace it: then the secret is public and there is nothing left to claim.
   */
  lemma ReplacedFundingWitness(b: Birth, sw: Swap, asked: Bytes, a: SpendAnswers, s: Chains, c: Crypto, sg: Signatures, self: Self)
    requires RedeemPlanned(b, sw, asked, a, s, c, sg, self) && !s.coins[sw.funding.value.outpoint].mined
    ensures var o := sw.funding.value.outpoint;
            var run := [Act(Us, Reveal(sw.secret)), Act(Them, Replace(o))];
            && LegalRun(s, run, c, self)
            && Exposed(StateAt(s, run, 2), sw.secretHash, c)
            && o !in StateAt(s, run, 2).coins && StateAt(s, run, 2).spent == s.spent && StateAt(s, run, 2).now == s.now
  {
    SecretIsHeld(b, sw, asked, a, s, c, sg, self);
    hide RedeemPlanned;
    RevealThenReplace(s, sw.funding.value.outpoint, sw.secret, c, self);
  }

  lemma SecretIsHeld(b: Birth, sw: Swap, asked: Bytes, a: SpendAnswers, s: Chains, c: Crypto, sg: Signatures, self: Self)
    requires RedeemPlanned(b, sw, asked, a, s, c, sg, self)
    ensures sw.secret != [] && c.sha256(sw.secret) == sw.secretHash
  {
    hide RedeemOf, BindingOf, WithBinding, ContractRight, SpendsRight, FundingRight;
  }

  lemma RevealThenReplace(s: Chains, o: OutPoint, p: Bytes, c: Crypto, self: Self)
    requires o in s.coins && !s.coins[o].mined
    ensures var run := [Act(Us, Reveal(p)), Act(Them, Replace(o))];
            var end := StateAt(s, run, 2);
            && LegalRun(s, run, c, self)
            && p in end.published && o !in end.coins && end.spent == s.spent && end.now == s.now
  {
    var run := [Act(Us, Reveal(p)), Act(Them, Replace(o))];
    var s1 := Happens(run[0], s);
    assert StateAt(s, run, 0) == s && StateAt(s, run, 1) == s1;
    assert StateAt(s, run, 2) == Happens(run[1], s1);
    forall k: nat | k < |run| ensures Legal(run[k], StateAt(s, run, k), c, self) {
      if k == 0 { assert run[k].step.Reveal?; } else { assert k == 1 && run[k].step.Replace?; }
    }
  }

  /**
   So the redeem is safe to broadcast exactly when its funding is mined: exactly then it stays claimable,
   or is claimed by this side, in every run up to the locktime.
   */
  lemma RedeemSafeExactly(b: Birth, sw: Swap, asked: Bytes, a: SpendAnswers, s: Chains, c: Crypto, sg: Signatures, self: Self)
    requires RedeemPlanned(b, sw, asked, a, s, c, sg, self)
    requires Buildable(ContractTerms(sw)) && NoOtherScript(ContractTerms(sw), c) && 0 <= s.now < sw.lockTime
    requires sw.funding.value.outpoint !in s.spent
    ensures s.coins[sw.funding.value.outpoint].mined <==> NeverLost(sw, s, c, self)
  {
    if s.coins[sw.funding.value.outpoint].mined {
      MinedIsKept(b, sw, asked, a, s, c, sg, self);
    } else {
      UnminedIsLost(b, sw, asked, a, s, c, sg, self);
    }
  }

  lemma MinedIsKept(b: Birth, sw: Swap, asked: Bytes, a: SpendAnswers, s: Chains, c: Crypto, sg: Signatures, self: Self)
    requires RedeemPlanned(b, sw, asked, a, s, c, sg, self) && s.coins[sw.funding.value.outpoint].mined
    requires Buildable(ContractTerms(sw)) && NoOtherScript(ContractTerms(sw), c) && 0 <= s.now
    ensures NeverLost(sw, s, c, self)
  {
    assert Digests(c) && sw.funding.Some?;
    hide RedeemPlanned, RedeemTx, Includable, LegalRun, StateAt, NoOtherScript, ContractTerms, Open, Digests;
    forall run: seq<Act>, j: nat | j <= |run| && LegalRun(s, run, c, self) && StateAt(s, run, j).now < sw.lockTime
      ensures KeptAt(sw, StateAt(s, run, j), c)
    {
      RedeemPaysUntilLockTime(b, sw, asked, a, s, run, j, c, sg, self);
      OpenIsKept(sw, StateAt(s, run, j), c);
    }
  }

  lemma OpenIsKept(sw: Swap, s: Chains, c: Crypto)
    requires Digests(c) && Buildable(ContractTerms(sw)) && sw.funding.Some?
    requires OpenOrOurs(s, sw.funding.value.outpoint, ContractTerms(sw), sw.amountSats, c)
    ensures KeptAt(sw, s, c)
  {
  }

  lemma UnminedIsLost(b: Birth, sw: Swap, asked: Bytes, a: SpendAnswers, s: Chains, c: Crypto, sg: Signatures, self: Self)
    requires RedeemPlanned(b, sw, asked, a, s, c, sg, self) && !s.coins[sw.funding.value.outpoint].mined
    requires s.now < sw.lockTime && sw.funding.value.outpoint !in s.spent
    ensures !NeverLost(sw, s, c, self)
  {
    assert Digests(c) && sw.funding.Some?;
    hide RedeemPlanned, LegalRun, StateAt, Exposed, Digests, Legal, NeverLost;
    ReplacedFundingWitness(b, sw, asked, a, s, c, sg, self);
    LostInTwo(sw, s, [Act(Us, Reveal(sw.secret)), Act(Them, Replace(sw.funding.value.outpoint))], c, self);
  }

  lemma LostInTwo(sw: Swap, s: Chains, run: seq<Act>, c: Crypto, self: Self)
    requires sw.funding.Some? && |run| == 2 && LegalRun(s, run, c, self)
    requires StateAt(s, run, 2).now < sw.lockTime && !KeptAt(sw, StateAt(s, run, 2), c)
    ensures !NeverLost(sw, s, c, self)
  {
    hide LegalRun, StateAt, KeptAt;
  }

  /** The coins are still there, or this side took them. */
  predicate KeptAt(sw: Swap, s: Chains, c: Crypto)
    requires sw.funding.Some?
  {
    sw.funding.value.outpoint in s.coins || (sw.funding.value.outpoint in s.spent && s.spent[sw.funding.value.outpoint] == Us)
  }

  ghost predicate NeverLost(sw: Swap, s: Chains, c: Crypto, self: Self)
    requires sw.funding.Some?
  {
    forall run: seq<Act>, j: nat ::
      j <= |run| && LegalRun(s, run, c, self) && StateAt(s, run, j).now < sw.lockTime ==> KeptAt(sw, StateAt(s, run, j), c)
  }

  // ---------- whole runs ----------

  /** A run can be read from any moment on. */
  lemma {:induction false} FromThere(s: Chains, run: seq<Act>, i: nat, j: nat)
    requires i <= j <= |run|
    ensures StateAt(StateAt(s, run, i), run[i..], j - i) == StateAt(s, run, j)
  {
    hide Happens;
    if i < j {
      FromThere(s, run, i, j - 1);
      assert run[i..][j - i - 1] == run[j - 1];
    }
  }

  lemma LegalFromThere(s: Chains, run: seq<Act>, i: nat, c: Crypto, self: Self)
    requires LegalRun(s, run, c, self) && i <= |run|
    ensures LegalRun(StateAt(s, run, i), run[i..], c, self)
  {
    hide Legal, Happens;
    forall k: nat | k < |run[i..]| ensures Legal(run[i..][k], StateAt(StateAt(s, run, i), run[i..], k), c, self) {
      FromThere(s, run, i, i + k);
      assert run[i..][k] == run[i + k];
      assert Legal(run[i + k], StateAt(s, run, i + k), c, self);
    }
  }

  lemma Suffix(s: Chains, run: seq<Act>, i: nat, k: nat, c: Crypto, self: Self) returns (rest: seq<Act>, j: nat)
    requires LegalRun(s, run, c, self) && i <= k <= |run|
    ensures LegalRun(StateAt(s, run, i), rest, c, self)
    ensures j <= |rest| && StateAt(StateAt(s, run, i), rest, j) == StateAt(s, run, k)
  {
    hide LegalRun, StateAt;
    rest, j := run[i..], k - i;
    LegalFromThere(s, run, i, c, self);
    FromThere(s, run, i, k);
  }

  /** Publishes a preimage of the swap's hash. */
  ghost predicate GivesAway(a: Act, hash: Bytes, c: Crypto) {
    exists p :: p in Publishes(a.step) && c.sha256(p) == hash
  }

  /** A run in which nobody else can guess the secret, and it starts out secret. */
  ghost predicate SecretRun(s: Chains, run: seq<Act>, hash: Bytes, c: Crypto, self: Self) {
    && LegalRun(s, run, c, self) && !Exposed(s, hash, c)
    && forall k: nat | k < |run| :: CannotGuess(run[k], StateAt(s, run, k), hash, c)
  }

  /** The moment of an unlock this program planned. */
  ghost predicate UnlockMoment(b: Birth, s: Chains, sw: Swap, n: NodeAnswers, info: HtlcInfo, c: Crypto, sg: Signatures) {
    exists rd :: UnlockPlanned(b, sw, n, rd, info, s, c, sg)
  }

  /** The honest side gives the secret away only in an unlock this program planned at that moment. */
  ghost predicate OnlyPlannedUnlocks(b: Birth, s: Chains, run: seq<Act>, c: Crypto, sg: Signatures) {
    forall k: nat | k < |run| :: run[k].actor.Us? && GivesAway(run[k], b.secretHash, c) ==>
      exists sw, n, info :: UnlockMoment(b, StateAt(s, run, k), sw, n, info, c, sg)
  }

  /** What the honest initiator holds at a later moment: an entry that pays it, standing for two hours from the unlock. */
  ghost predicate PaidOrPayable(b: Birth, s: Chains, run: seq<Act>, i: nat, k: nat, sw: Swap, n: NodeAnswers, info: HtlcInfo,
                                c: Crypto, sg: Signatures)
    requires i <= k <= |run|
  {
    && UnlockMoment(b, StateAt(s, run, i), sw, n, info, c, sg)
    && PaysUs(info, sw, n.decimals)
    && (StateAt(s, run, k).now < StateAt(s, run, i).now + MIN_LEG_REMAINING ==> Standing(StateAt(s, run, k), sw.zenon.htlcId, info))
  }

  /**
   Whenever the counterparty redeems the honest initiator's Bitcoin, however it came to, the initiator
   had published the secret in a planned unlock before; and that unlock's entry pays the agreed amount.
   */
  lemma InitiatorSendingIsSafe(b: Birth, s: Chains, run: seq<Act>, o: OutPoint, t: Terms, k: nat, c: Crypto, sg: Signatures, self: Self)
    requires SecretRun(s, run, b.secretHash, c, self) && OnlyPlannedUnlocks(b, s, run, c, sg)
    requires Digests(c) && Buildable(t) && NoOtherScript(t, c) && t.pkhRefund == self.pkh && t.secretHash == b.secretHash
    requires k < |run| && run[k].actor.Them? && run[k].step.Take? && run[k].step.output == o
    requires o in StateAt(s, run, k).coins && PaysContract(StateAt(s, run, k).coins[o], t, c)
    ensures exists i, sw, n, info | 0 <= i < k :: PaidOrPayable(b, s, run, i, k, sw, n, info, c, sg)
  {
    assert Legal(run[k], StateAt(s, run, k), c, self);
    assert CannotGuess(run[k], StateAt(s, run, k), b.secretHash, c);
    TakingExposes(run[k], StateAt(s, run, k), o, t, c, self);
    hide UnlockMoment, PaysUs, Legal, CannotGuess, Happens, PaysContract, NoOtherScript, Standing;
    var i := OnlyWeExpose(s, run, k, b.secretHash, c);
    assert GivesAway(run[i], b.secretHash, c);
    var sw, n, info :| UnlockMoment(b, StateAt(s, run, i), sw, n, info, c, sg);
    PlannedUnlockHolds(b, s, run, i, k, sw, n, info, c, sg, self);
  }

  lemma TakingExposes(a: Act, s: Chains, o: OutPoint, t: Terms, c: Crypto, self: Self)
    requires Digests(c) && Buildable(t) && NoOtherScript(t, c) && t.pkhRefund == self.pkh
    requires o in s.coins && PaysContract(s.coins[o], t, c) && a.actor.Them? && a.step.Take? && a.step.output == o
    requires Legal(a, s, c, self) && CannotGuess(a, s, t.secretHash, c)
    ensures Exposed(s, t.secretHash, c)
  {
    TakingRevealsPreimage(a, s, o, t, c, self);
    OnlyForward(a, s);
  }

  lemma PlannedUnlockHolds(b: Birth, s: Chains, run: seq<Act>, i: nat, k: nat, sw: Swap, n: NodeAnswers, info: HtlcInfo,
                           c: Crypto, sg: Signatures, self: Self)
    requires LegalRun(s, run, c, self) && i <= k <= |run|
    requires UnlockMoment(b, StateAt(s, run, i), sw, n, info, c, sg)
    ensures PaidOrPayable(b, s, run, i, k, sw, n, info, c, sg)
  {
    var now := StateAt(s, run, i);
    var rd :| UnlockPlanned(b, sw, n, rd, info, now, c, sg);
    hide UnlockPlanned, LegalRun, StateAt, Legal, PaysUs, Standing;
    var rest, j := Suffix(s, run, i, k, c, self);
    PlannedUnlockPaysUs(b, sw, n, rd, info, now, c, sg);
    if StateAt(s, run, k).now < now.now + MIN_LEG_REMAINING {
      UnlockPaysOrHasPaid(b, sw, n, rd, info, now, rest, j, c, sg, self);
    }
  }

  lemma PlannedUnlockPaysUs(b: Birth, sw: Swap, n: NodeAnswers, rd: Readers, info: HtlcInfo, s: Chains, c: Crypto, sg: Signatures)
    requires UnlockPlanned(b, sw, n, rd, info, s, c, sg)
    ensures PaysUs(info, sw, n.decimals)
  {
    hide UnlockPlanned, PaysUs;
    PlannedUnlockPays(b, sw, n, rd, info, s, c, sg);
  }

  /** The moment of a redeem this program planned. */
  ghost predicate RedeemMoment(b: Birth, s: Chains, sw: Swap, c: Crypto, sg: Signatures, self: Self) {
    exists asked, a :: RedeemPlanned(b, sw, asked, a, s, c, sg, self)
  }

  ghost predicate OnlyPlannedRedeems(b: Birth, s: Chains, run: seq<Act>, c: Crypto, sg: Signatures, self: Self) {
    forall k: nat | k < |run| :: run[k].actor.Us? && GivesAway(run[k], b.secretHash, c) ==>
      exists sw :: RedeemMoment(b, StateAt(s, run, k), sw, c, sg, self)
  }

  /** What the honest initiator gave the secret for: a full output that, once mined, is theirs until the locktime. */
  ghost predicate PaidOrClaimable(b: Birth, s: Chains, run: seq<Act>, i: nat, k: nat, sw: Swap, c: Crypto, sg: Signatures, self: Self)
    requires i <= k <= |run|
  {
    && RedeemMoment(b, StateAt(s, run, i), sw, c, sg, self)
    && sw.funding.Some? && sw.funding.value.outpoint in StateAt(s, run, i).coins
    && StateAt(s, run, i).coins[sw.funding.value.outpoint].value >= b.amountSats
    && Buildable(ContractTerms(sw))
    && (StateAt(s, run, i).coins[sw.funding.value.outpoint].mined && 0 <= StateAt(s, run, i).now && StateAt(s, run, k).now < sw.lockTime
        && NoOtherScript(ContractTerms(sw), c)
        ==> KeptAt(sw, StateAt(s, run, k), c))
  }

  /**
   Whenever the counterparty unlocks the honest initiator's ZNN, the initiator had published the secret in a
   planned redeem before, of an output holding the agreed amount; and if that output was mined by
   then, the Bitcoin is there for the initiator, or taken by them, at every moment before the locktime.
   */
  lemma InitiatorReceivingIsSafe(b: Birth, s: Chains, run: seq<Act>, k: nat, c: Crypto, sg: Signatures, self: Self)
    requires SecretRun(s, run, b.secretHash, c, self) && OnlyPlannedRedeems(b, s, run, c, sg, self)
    requires k < |run| && run[k].actor.Them? && GivesAway(run[k], b.secretHash, c)
    ensures exists i, sw | 0 <= i < k :: PaidOrClaimable(b, s, run, i, k, sw, c, sg, self)
  {
    assert CannotGuess(run[k], StateAt(s, run, k), b.secretHash, c);
    assert Exposed(StateAt(s, run, k), b.secretHash, c);
    hide RedeemMoment, Legal, CannotGuess, Happens, NoOtherScript, KeptAt;
    var i := OnlyWeExpose(s, run, k, b.secretHash, c);
    assert GivesAway(run[i], b.secretHash, c);
    var sw :| RedeemMoment(b, StateAt(s, run, i), sw, c, sg, self);
    PlannedRedeemHolds(b, s, run, i, k, sw, c, sg, self);
  }

  lemma PlannedRedeemHolds(b: Birth, s: Chains, run: seq<Act>, i: nat, k: nat, sw: Swap, c: Crypto, sg: Signatures, self: Self)
    requires LegalRun(s, run, c, self) && i <= k <= |run|
    requires RedeemMoment(b, StateAt(s, run, i), sw, c, sg, self)
    ensures PaidOrClaimable(b, s, run, i, k, sw, c, sg, self)
  {
    var asked, a :| RedeemPlanned(b, sw, asked, a, StateAt(s, run, i), c, sg, self);
    hide RedeemPlanned, LegalRun, StateAt, KeptAt, NoOtherScript, ContractTerms, RedeemMoment;
    RedeemValue(b, sw, asked, a, StateAt(s, run, i), c, sg, self);
    if StateAt(s, run, i).coins[sw.funding.value.outpoint].mined && 0 <= StateAt(s, run, i).now && StateAt(s, run, k).now < sw.lockTime
       && NoOtherScript(ContractTerms(sw), c) {
      MinedKeptLater(b, sw, asked, a, s, run, i, k, c, sg, self);
    }
  }

  lemma MinedKeptLater(b: Birth, sw: Swap, asked: Bytes, a: SpendAnswers, s: Chains, run: seq<Act>, i: nat, k: nat,
                       c: Crypto, sg: Signatures, self: Self)
    requires LegalRun(s, run, c, self) && i <= k <= |run| && sw.funding.Some?
    requires RedeemPlanned(b, sw, asked, a, StateAt(s, run, i), c, sg, self)
    requires StateAt(s, run, i).coins[sw.funding.value.outpoint].mined && 0 <= StateAt(s, run, i).now
    requires Buildable(ContractTerms(sw)) && NoOtherScript(ContractTerms(sw), c) && StateAt(s, run, k).now < sw.lockTime
    ensures KeptAt(sw, StateAt(s, run, k), c)
  {
    assert Digests(c);
    hide RedeemPlanned, LegalRun, StateAt, KeptAt, NoOtherScript, ContractTerms, Buildable, Includable, Digests;
    var rest, j := Suffix(s, run, i, k, c, self);
    RedeemPaysUntilLockTime(b, sw, asked, a, StateAt(s, run, i), rest, j, c, sg, self);
    OpenIsKept(sw, StateAt(s, run, k), c);
  }

  lemma RedeemValue(b: Birth, sw: Swap, asked: Bytes, a: SpendAnswers, s: Chains, c: Crypto, sg: Signatures, self: Self)
    requires RedeemPlanned(b, sw, asked, a, s, c, sg, self)
    ensures sw.funding.Some? && sw.funding.value.outpoint in s.coins && s.coins[sw.funding.value.outpoint].value >= b.amountSats
    ensures Buildable(ContractTerms(sw))
  {
    PlannedRedeemFacts(b, sw, asked, a, s, c, sg, self);
    hide PlannedRedeem, ContractTerms, ContractScript;
  }
}
