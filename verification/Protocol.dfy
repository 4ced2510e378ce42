/**
 Cross-chain safety over whole runs. One side is honest: it commits only on the guards this program
 enforces. The counterparty, and everybody else, may take any step the two chains allow, in any order.
 */
module Protocol {
  import opened Prelude
  import opened Contract
  import opened Engine
  import opened Spend
  import opened TxBuild
  import opened SwapRecord
  import opened Moves
  import opened ZenonVerify
  import opened ZenonMoves
  import opened RecordLaw
  import opened RecordSteps
  import opened WalletPlan
  import opened HtlcAbi
  import opened Ledgers
  import Decimal

  // ---------- what holds still ----------

  /** A mined output of the contract, worth at least this much, that nobody has spent. */
  ghost predicate Open(s: Chains, o: OutPoint, t: Terms, least: int, c: Crypto)
    requires Digests(c) && Buildable(t)
  {
    o in s.coins && s.coins[o].mined && s.coins[o].value >= least && PaysContract(s.coins[o], t, c)
  }

  ghost predicate OpenOrOurs(s: Chains, o: OutPoint, t: Terms, least: int, c: Crypto)
    requires Digests(c) && Buildable(t)
  {
    Open(s, o, t, least, c) || (o !in s.coins && o in s.spent && s.spent[o] == Us)
  }

  lemma OneStepOpen(a: Act, s: Chains, o: OutPoint, t: Terms, least: int, c: Crypto, self: Self)
    requires Digests(c) && Buildable(t) && NoOtherScript(t, c) && t.pkhRedeem == self.pkh
    requires OpenOrOurs(s, o, t, least, c) && Legal(a, s, c, self) && s.now < t.lockTime
    ensures OpenOrOurs(Happens(a, s), o, t, least, c)
  {
    if a.actor.Them? && a.step.Take? && a.step.output == o && o in s.coins {
      OthersCannotTake(a, s, o, t, c, self);
    }
    hide SpendAccepted, PushSet, ContractScript, ContractPkScript;
  }

  /** Until its locktime, an output only the honest side can redeem stays there or is taken by the honest side. */
  lemma {:induction false} StaysOpen(s: Chains, run: seq<Act>, j: nat, o: OutPoint, t: Terms, least: int, c: Crypto, self: Self)
    requires Digests(c) && Buildable(t) && NoOtherScript(t, c) && t.pkhRedeem == self.pkh
    requires Open(s, o, t, least, c) && LegalRun(s, run, c, self)
    requires j <= |run| && StateAt(s, run, j).now < t.lockTime
    ensures OpenOrOurs(StateAt(s, run, j), o, t, least, c)
  {
    hide Legal, Happens, PaysContract, NoOtherScript;
    if j > 0 {
      ClockAdvances(s, run, j - 1, j);
      StaysOpen(s, run, j - 1, o, t, least, c, self);
      OneStepOpen(run[j - 1], StateAt(s, run, j - 1), o, t, least, c, self);
    }
  }

  /** An entry with these contents that has not been taken back: it pays, or has paid, its recipient. */
  predicate Standing(s: Chains, id: string, info: HtlcInfo) {
    id in s.entries && s.entries[id].info == info && !s.entries[id].fate.Reclaimed?
  }

  lemma {:induction false} StaysStanding(s: Chains, run: seq<Act>, i: nat, j: nat, id: string, info: HtlcInfo, c: Crypto, self: Self)
    requires LegalRun(s, run, c, self) && i <= j <= |run|
    requires Standing(StateAt(s, run, i), id, info) && StateAt(s, run, j).now < info.expirationTime
    ensures Standing(StateAt(s, run, j), id, info)
  {
    hide Legal, Happens;
    if i < j {
      ClockAdvances(s, run, j - 1, j);
      StaysStanding(s, run, i, j - 1, id, info, c, self);
      OneStepEntry(run[j - 1], StateAt(s, run, j - 1), id, c, self);
    }
  }

  /** One step keeps an entry's contents, and takes it back only at or after its expiry. */
  lemma OneStepEntry(a: Act, s: Chains, id: string, c: Crypto, self: Self)
    requires Legal(a, s, c, self) && id in s.entries
    ensures var t := Happens(a, s);
            && id in t.entries && t.entries[id].info == s.entries[id].info
            && (t.entries[id].fate.Reclaimed? ==> s.entries[id].fate.Reclaimed? || s.now >= s.entries[id].info.expirationTime)
  {
    hide SpendAccepted, Publishes, Unforged, ScriptHashOf;
  }

  lemma OneStepNewEntry(a: Act, s: Chains, id: string, c: Crypto, self: Self)
    requires Legal(a, s, c, self) && id !in s.entries && id in Happens(a, s).entries
    ensures a.step.Lock? && a.step.id == id && Happens(a, s).entries[id].info == a.step.info
  {
    hide SpendAccepted, Publishes, Unforged, ScriptHashOf;
  }

  /** Where an entry in a run came from. */
  lemma {:induction false} LockedSomewhere(s: Chains, run: seq<Act>, j: nat, id: string, c: Crypto, self: Self) returns (i: nat)
    requires LegalRun(s, run, c, self) && j <= |run| && id !in s.entries && id in StateAt(s, run, j).entries
    ensures i < j && run[i].step.Lock? && run[i].step.id == id && StateAt(s, run, j).entries[id].info == run[i].step.info
  {
    hide Legal, Happens;
    var before := StateAt(s, run, j - 1);
    if id in before.entries {
      i := LockedSomewhere(s, run, j - 1, id, c, self);
      OneStepEntry(run[j - 1], before, id, c, self);
    } else {
      i := j - 1;
      OneStepNewEntry(run[j - 1], before, id, c, self);
    }
  }

  // ---------- the participant who receives Bitcoin ----------

  /** The node's listing of the contract address is what the chain holds there. */
  predicate TrueListing(view: ChainView, sw: Swap, s: Chains) {
    view.utxos.Some? ==>
      forall u :: u in view.utxos.value ==>
        u.outpoint in s.coins && s.coins[u.outpoint] == Coin(u.value, sw.contractAddr, u.confirmed)
  }

  /** The entry is what the contract makes of the planned call. */
  ghost predicate EntryOf(info: HtlcInfo, plan: CreatePlan, rd: Readers, m: MethodId) {
    && ReadCall(m, plan.data).Creates?
    && var call := ReadCall(m, plan.data).create;
       && info.timeLocked == plan.signer
       && rd.address(info.hashLocked) == Some(call.hashLocked)
       && info.token == plan.token
       && Decimal.ParseInteger(info.amount) == Some(plan.amount)
       && info.expirationTime == call.expiration && info.hashType == call.hashType
       && info.keyMaxSize == call.keyMaxSize && info.hashLock == call.hashLock
  }

  /** What a plan's entry says. */
  lemma PlannedEntry(sw: Swap, signer: string, momentum: int, decimals: Option<int>, rd: Readers, m: MethodId, info: HtlcInfo)
    requires Selector(m) && MayLock(sw, momentum, decimals, rd) && |sw.secretHash| == 32
    requires momentum + sw.zenon.expirationSeconds < 0x1_0000_0000_0000_0000
    requires EntryOf(info, CreateOf(sw, signer, momentum, decimals, rd, m), rd, m)
    ensures info.expirationTime == momentum + sw.zenon.expirationSeconds && info.hashLock == sw.secretHash
    ensures info.hashType == HASH_TYPE_SHA256 && info.keyMaxSize == SECRET_SIZE && info.timeLocked == signer
    ensures rd.address(info.hashLocked) == rd.address(sw.zenon.peerAddress) && info.token == AgreedToken(sw.zenon.token)
    ensures Decimal.ParseInteger(info.amount) == Some(Decimal.DecimalToBaseUnits(sw.zenon.amount, decimals.value).value)
  {
    hide CreateData, DecodeCreate, ReadCall, Decimal.DecimalToBaseUnits, Decimal.ParseInteger, InOrderAt;
    DecodePackedCreate(m, rd.address(sw.zenon.peerAddress).value, momentum + sw.zenon.expirationSeconds, HASH_TYPE_SHA256,
                       SECRET_SIZE, sw.secretHash);
  }

  /** Every entry of this id in the run is the planned one. */
  ghost predicate LockedAsPlanned(run: seq<Act>, id: string, plan: CreatePlan, rd: Readers, m: MethodId) {
    forall i | 0 <= i < |run| :: run[i].step.Lock? && run[i].step.id == id ==> EntryOf(run[i].step.info, plan, rd, m)
  }

  /** The commitment of a participant on the receiving leg: ZNN locked under a plan this program made. */
  ghost predicate CommitsZnn(b: Birth, sw: Swap, view: ChainView, clock: int, decimals: Option<int>, rd: Readers, m: MethodId,
                             s: Chains, run: seq<Act>, id: string, c: Crypto, sg: Signatures, self: Self) {
    && Rec(b, sw, c, sg) && sw.role == Participant && sw.leg == Receive
    && self == Self(sw.key.pkh, self.address)
    && MayCreate(sw, view, clock, s.now, decimals, rd, c) && TrueListing(view, sw, s)
    && Selector(m) && id !in s.entries
    && LockedAsPlanned(run, id, CreateOf(sw, self.address, s.now, decimals, rd, m), rd, m)
    && LegalRun(s, run, c, self)
  }

  /** A redeem of this funding with this preimage is a spend the network accepts. */
  ghost predicate CanRedeemWith(sw: Swap, p: Bytes, c: Crypto, sg: Signatures) {
    && Digests(c) && SoundKey(sw.key, c, sg) && sw.funding.Some? && RedeemFits(sw.contract, sw.key, p, c)
    && Plain(sw.contract)
    && forall dest: Bytes, rate: real ::
         var tx := SignedSpend(sw.contract, sw.funding.value, sw.key, Some(p), dest, rate, 0, c, sg).tx;
         SpendAccepted(tx.sigScript, c.hash160(sw.contract), c, StandardContext(sw.contract, tx, sg))
  }

  lemma RightPreimageRedeems(b: Birth, sw: Swap, p: Bytes, c: Crypto, sg: Signatures)
    requires Rec(b, sw, c, sg) && sw.contract != [] && sw.funding.Some? && sw.leg == Receive
    requires |p| == SECRET_SIZE && c.sha256(p) == sw.secretHash
    ensures CanRedeemWith(sw, p, c, sg)
  {
    ParsedIsNotEmpty(sw.contract);
    var t := Parse(sw.contract).terms;
    ContractIsPlain(t);
    hide Parse, SpendAccepted, SignedSpend, ContractScript, Plain;
    forall dest: Bytes, rate: real
      ensures var tx := SignedSpend(sw.contract, sw.funding.value, sw.key, Some(p), dest, rate, 0, c, sg).tx;
              SpendAccepted(tx.sigScript, c.hash160(sw.contract), c, StandardContext(sw.contract, tx, sg))
    {
      BuiltRedeemAccepted(t, sw.funding.value, sw.key, p, dest, rate, c, sg);
    }
  }

  lemma CommitFacts(b: Birth, sw: Swap, view: ChainView, clock: int, decimals: Option<int>, rd: Readers, m: MethodId,
                    s: Chains, run: seq<Act>, id: string, c: Crypto, sg: Signatures, self: Self)
    requires CommitsZnn(b, sw, view, clock, decimals, rd, m, s, run, id, c, sg, self)
    ensures Buildable(ContractTerms(sw)) && sw.contract != [] && sw.funding.Some?
    ensures sw.contract == ContractScript(ContractTerms(sw)) && LOCKTIME_THRESHOLD <= sw.lockTime <= MAX_LOCKTIME
    ensures s.now + sw.zenon.expirationSeconds <= sw.lockTime - MIN_LEG_GAP
    ensures Open(s, sw.funding.value.outpoint, ContractTerms(sw), sw.amountSats, c)
  {
    ParsedIsNotEmpty(sw.contract);
    hide Parse, ContractScript, Decimal.DecimalToBaseUnits, SpendAccepted;
    CreateAnswersRealMoney(sw, view, clock, s.now, decimals, rd, c);
  }

  /**
   Participant, receiving Bitcoin. Whenever anyone claims the honest side's ZNN, the preimage is public,
   and the honest side's own claim is still unspent and stays open for at least the gap between the legs.
   An open claim is not yet a payment: the Zenon entry takes preimages of up to 32 bytes and the Bitcoin
   script only of exactly 32, so the published preimage redeems exactly when it has that size. When that
   makes the side safe over every run, and the run that loses both legs when it does not, is PreimageSize.
   */
  lemma ParticipantReceivingHoldsOpen(b: Birth, sw: Swap, view: ChainView, clock: int, decimals: Option<int>, rd: Readers, m: MethodId,
                                   s: Chains, run: seq<Act>, id: string, k: nat, c: Crypto, sg: Signatures, self: Self)
    requires CommitsZnn(b, sw, view, clock, decimals, rd, m, s, run, id, c, sg, self)
    requires Buildable(ContractTerms(sw)) && NoOtherScript(ContractTerms(sw), c) && sw.funding.Some?
    requires k < |run| && run[k].step.Unlock? && run[k].step.id == id
    ensures var p := run[k].step.preimage;
            && p in StateAt(s, run, k + 1).published && c.sha256(p) == sw.secretHash && |p| <= SECRET_SIZE
            && (CanRedeemWith(sw, p, c, sg) <==> |p| == SECRET_SIZE)
    ensures StateAt(s, run, k).now + MIN_LEG_GAP < sw.lockTime
    ensures forall j | k <= j <= |run| && StateAt(s, run, j).now < StateAt(s, run, k).now + MIN_LEG_GAP ::
              OpenOrOurs(StateAt(s, run, j), sw.funding.value.outpoint, ContractTerms(sw), sw.amountSats, c)
  {
    CommitFacts(b, sw, view, clock, decimals, rd, m, s, run, id, c, sg, self);
    var info := UnlockedEntry(b, sw, view, clock, decimals, rd, m, s, run, id, k, c, sg, self);
    var p := run[k].step.preimage;
    if |p| == SECRET_SIZE {
      RightPreimageRedeems(b, sw, p, c, sg);
    }
    hide CommitsZnn, Rec, CanRedeemWith, Legal, Open, OpenOrOurs, NoOtherScript, ContractTerms;
    forall j | k <= j <= |run| && StateAt(s, run, j).now < StateAt(s, run, k).now + MIN_LEG_GAP
      ensures OpenOrOurs(StateAt(s, run, j), sw.funding.value.outpoint, ContractTerms(sw), sw.amountSats, c)
    {
      TermsOfSwap(sw);
      StaysOpen(s, run, j, sw.funding.value.outpoint, ContractTerms(sw), sw.amountSats, c, self);
    }
  }

  lemma TermsOfSwap(sw: Swap)
    ensures ContractTerms(sw).lockTime == sw.lockTime && ContractTerms(sw).secretHash == sw.secretHash
    ensures sw.leg == Receive ==> ContractTerms(sw).pkhRedeem == sw.key.pkh
    ensures sw.leg == Send ==> ContractTerms(sw).pkhRefund == sw.key.pkh
  {
  }

  lemma UnlockedEntry(b: Birth, sw: Swap, view: ChainView, clock: int, decimals: Option<int>, rd: Readers, m: MethodId,
                      s: Chains, run: seq<Act>, id: string, k: nat, c: Crypto, sg: Signatures, self: Self) returns (info: HtlcInfo)
    requires CommitsZnn(b, sw, view, clock, decimals, rd, m, s, run, id, c, sg, self)
    requires k < |run| && run[k].step.Unlock? && run[k].step.id == id
    ensures var p := run[k].step.preimage;
            p in StateAt(s, run, k + 1).published && c.sha256(p) == sw.secretHash && |p| <= SECRET_SIZE
    ensures StateAt(s, run, k).now < s.now + sw.zenon.expirationSeconds
    ensures LegalRun(s, run, c, self) && sw.leg == Receive && self.pkh == sw.key.pkh
  {
    CommitFacts(b, sw, view, clock, decimals, rd, m, s, run, id, c, sg, self);
    assert |sw.secretHash| == 32;
    hide Rec, MayCreate, CreateOf, Legal, Happens, CreateData, Open, ContractTerms;
    UnlockIs(run[k], StateAt(s, run, k), c, self);
    var i := LockedSomewhere(s, run, k, id, c, self);
    info := run[i].step.info;
    assert MayLock(sw, s.now, decimals, rd) by { MayCreateLocks(sw, view, clock, s.now, decimals, rd, c); }
    hide MayLock;
    PlannedEntry(sw, self.address, s.now, decimals, rd, m, info);
  }

  lemma MayCreateLocks(sw: Swap, view: ChainView, clock: int, momentum: int, decimals: Option<int>, rd: Readers, c: Crypto)
    requires Digests(c) && MayCreate(sw, view, clock, momentum, decimals, rd, c)
    ensures MayLock(sw, momentum, decimals, rd)
  {
    hide MayLock;
  }

  /** What a legal unlock needs and leaves. */
  lemma UnlockIs(a: Act, s: Chains, c: Crypto, self: Self)
    requires Legal(a, s, c, self) && a.step.Unlock?
    ensures a.step.id in s.entries && a.step.preimage in Happens(a, s).published
    ensures var info := s.entries[a.step.id].info;
            && s.now < info.expirationTime && |a.step.preimage| <= info.keyMaxSize
            && (info.hashType == HASH_TYPE_SHA256 ==> c.sha256(a.step.preimage) == info.hashLock)
  {
  }

  // ---------- the participant who sends Bitcoin ----------

  /** VerifyZenon passed on this record, which had its contract, against what the chain held at that moment. */
  ghost predicate VerifiedAt(b: Birth, sw: Swap, n: NodeAnswers, id: string, info: HtlcInfo, s: Chains, c: Crypto, sg: Signatures) {
    && Rec(b, sw, c, sg) && sw.contract != []
    && id != "" && n.entry == FoundEntry(info) && Clock(n) == s.now
    && id in s.entries && s.entries[id] == Entry(info, Live) && info.expirationTime >= 0
    && Fits(info, Expected(sw, n, id))
    && 0 < s.now <= MAX_SPAN
  }

  /** What a passing verification is worth: an entry that pays this side at least the agreed amount of the agreed token. */
  predicate PaysUs(info: HtlcInfo, sw: Swap, decimals: Option<int>) {
    && sw.zenon.selfAddress != "" && info.hashLocked == sw.zenon.selfAddress && info.token == AgreedToken(sw.zenon.token)
    && info.hashLock == sw.secretHash && info.hashType == HASH_TYPE_SHA256 && info.keyMaxSize >= SECRET_SIZE
    && AgreedUnits(sw.zenon.amount, decimals).Some?
    && Decimal.ParseInteger(info.amount).Some?
    && Decimal.ParseInteger(info.amount).value >= AgreedUnits(sw.zenon.amount, decimals).value
  }

  lemma VerifiedPays(b: Birth, sw: Swap, n: NodeAnswers, id: string, info: HtlcInfo, s: Chains, c: Crypto, sg: Signatures)
    requires VerifiedAt(b, sw, n, id, info, s, c, sg) && sw.leg == Send
    ensures PaysUs(info, sw, n.decimals) && info.expirationTime >= s.now + MIN_LEG_REMAINING
    ensures LOCKTIME_THRESHOLD <= sw.lockTime <= MAX_LOCKTIME
    ensures if sw.role == Participant then info.expirationTime >= sw.lockTime + MIN_LEG_GAP
            else info.expirationTime <= sw.lockTime - MIN_LEG_GAP
  {
    LockTimeInRange(b, sw, c, sg);
    assert sw.secretHash != [];
    hide Rec, Expected, Decimal.ParseInteger, Fits, AgreedUnits, MissingZenonTerms;
    PassingEntryPays(sw, n, id, info);
    PassingEntryIsOrdered(sw, n, id, info);
  }

  lemma LockTimeInRange(b: Birth, sw: Swap, c: Crypto, sg: Signatures)
    requires Rec(b, sw, c, sg) && sw.contract != []
    ensures LOCKTIME_THRESHOLD <= sw.lockTime <= MAX_LOCKTIME && Buildable(ContractTerms(sw))
    ensures sw.contract == ContractScript(ContractTerms(sw))
  {
    ParsedIsNotEmpty(sw.contract);
  }

  /**
   Participant safety, sending Bitcoin. The verification passed with the contract on the record, and
   the contract was funded after that (the record having changed in between only as it can). Whenever
   somebody else claims that Bitcoin before its locktime, the 32-byte preimage is public, and the
   honest side's own claim - an entry that pays it the agreed amount - stands, and keeps standing for
   at least the gap between the legs; while it is still locked the honest side can unlock it.
   */
  lemma ParticipantSendingIsSafe(b: Birth, sw: Swap, n: NodeAnswers, id: string, info: HtlcInfo, funded: Swap,
                                 s: Chains, run: seq<Act>, o: OutPoint, k: nat, c: Crypto, sg: Signatures, self: Self)
    requires VerifiedAt(b, sw, n, id, info, s, c, sg) && sw.role == Participant && sw.leg == Send
    requires Rec(b, funded, c, sg) && Change(sw, funded) && funded.contract != []
    requires self.pkh == sw.key.pkh && Buildable(ContractTerms(funded)) && NoOtherScript(ContractTerms(funded), c)
    requires LegalRun(s, run, c, self) && k < |run|
    requires run[k].actor.Them? && run[k].step.Take? && run[k].step.output == o
    requires o in StateAt(s, run, k).coins && PaysContract(StateAt(s, run, k).coins[o], ContractTerms(funded), c)
    requires StateAt(s, run, k).now < funded.lockTime
    ensures exists p | p in StateAt(s, run, k + 1).published ::
              |p| == SECRET_SIZE && c.sha256(p) == sw.secretHash && UnlocksWith(s, run, k, id, info, p, c, self)
    ensures PaysUs(info, sw, n.decimals)
    ensures StateAt(s, run, k).now + MIN_LEG_GAP < info.expirationTime
  {
    VerifiedPays(b, sw, n, id, info, s, c, sg);
    ClockAdvances(s, run, 0, k);
    SameTerms(sw, funded);
    assert Legal(run[k], StateAt(s, run, k), c, self);
    assert Standing(StateAt(s, run, 0), id, info);
    hide Legal, Happens, Rec, Change, ContractTerms, PaysContract, NoOtherScript, ContractScript, Expected, Fits, AgreedUnits,
         Decimal.ParseInteger;
    TakingRevealsPreimage(run[k], StateAt(s, run, k), o, ContractTerms(funded), c, self);
    var p :| p in StateAt(s, run, k + 1).published && |p| == SECRET_SIZE && c.sha256(p) == ContractTerms(funded).secretHash;
    forall j | k <= j <= |run| && StateAt(s, run, j).now < StateAt(s, run, k).now + MIN_LEG_GAP
      ensures Standing(StateAt(s, run, j), id, info)
    {
      StaysStanding(s, run, 0, j, id, info, c, self);
    }
    StandingUnlocks(s, run, k, id, info, p, c, self);
  }

  lemma SameTerms(sw: Swap, funded: Swap)
    requires Change(sw, funded) && sw.leg == Send
    ensures funded.lockTime == sw.lockTime && ContractTerms(funded).secretHash == sw.secretHash
    ensures ContractTerms(funded).pkhRefund == sw.key.pkh
  {
  }

  /** From the claim on, for the gap between the legs, the entry stands and this preimage unlocks it if nobody has. */
  ghost predicate UnlocksWith(s: Chains, run: seq<Act>, k: nat, id: string, info: HtlcInfo, p: Bytes, c: Crypto, self: Self)
    requires k <= |run|
  {
    forall j | k <= j <= |run| && StateAt(s, run, j).now < StateAt(s, run, k).now + MIN_LEG_GAP ::
      && Standing(StateAt(s, run, j), id, info)
      && (StateAt(s, run, j).entries[id].fate.Live? ==> Legal(Act(Us, Unlock(id, p)), StateAt(s, run, j), c, self))
  }

  lemma StandingUnlocks(s: Chains, run: seq<Act>, k: nat, id: string, info: HtlcInfo, p: Bytes, c: Crypto, self: Self)
    requires k <= |run| && |p| <= info.keyMaxSize && c.sha256(p) == info.hashLock
    requires StateAt(s, run, k).now + MIN_LEG_GAP <= info.expirationTime
    requires forall j | k <= j <= |run| && StateAt(s, run, j).now < StateAt(s, run, k).now + MIN_LEG_GAP ::
               Standing(StateAt(s, run, j), id, info)
    ensures UnlocksWith(s, run, k, id, info, p, c, self)
  {
    hide StateAt;
  }

  // ---------- what the verdict leaves open ----------

  /** The initiator's leg expires last, by the gap. */
  predicate LegsApart(sw: Swap, expiry: int) {
    if ZenonLegIsInitiators(sw.role, sw.leg) then expiry >= sw.lockTime + MIN_LEG_GAP else expiry <= sw.lockTime - MIN_LEG_GAP
  }

  /**
   When a verdict covers the order of the legs: exactly when the contract was on the record. Without
   one, an entry that passes goes on passing whatever its expiry, as long as there is time left.
   */
  lemma OrderCheckedExactly(sw: Swap, n: NodeAnswers, id: string, info: HtlcInfo, expiry: int)
    requires sw.lockTime > MIN_LEG_GAP && Fits(info, Expected(sw, n, id))
    requires TimeLeft(info.(expirationTime := expiry), Expected(sw, n, id))
    ensures Fits(info.(expirationTime := expiry), Expected(sw, n, id)) <==> sw.contract == [] || LegsApart(sw, expiry)
  {
    hide Decimal.ParseInteger, Left, AgreedUnits, MissingZenonTerms;
  }

  /** So a participant who sends Bitcoin and verified first can hold a verdict for an entry that expires before their own leg. */
  lemma EarlyVerdictWitness(sw: Swap, n: NodeAnswers, id: string, info: HtlcInfo)
    requires sw.role == Participant && sw.leg == Send && sw.contract == [] && 0 < Clock(n) <= MAX_LOCKTIME
    requires Fits(info, Expected(sw, n, id)) && sw.lockTime > Clock(n) + MIN_LEG_REMAINING
    ensures var early := info.(expirationTime := Clock(n) + MIN_LEG_REMAINING);
            Fits(early, Expected(sw, n, id)) && early.expirationTime < sw.lockTime && !LegsApart(sw, early.expirationTime)
  {
    hide Fits, TimeLeft, AgreedUnits, MissingZenonTerms;
    TimeLeftExactly(info.(expirationTime := Clock(n) + MIN_LEG_REMAINING), Expected(sw, n, id));
    OrderCheckedExactly(sw, n, id, info, Clock(n) + MIN_LEG_REMAINING);
  }

  /** ... and building the contract afterwards leaves the verdict standing. */
  lemma VerdictOutlivesBuild(sw: Swap, pkh: Bytes, c: Crypto)
    requires Digests(c) && SetPkh(sw, pkh, c).Saved?
    ensures SetPkh(sw, pkh, c).swap.zenon == sw.zenon
    ensures SetPkh(sw, pkh, c).swap.contract == ContractScript(ContractTerms(sw.(counterpartyPkh := pkh)))
  {
    hide ContractScript, ContractPkScript;
  }
}
