/**
 Two honest sides of one offer never refuse each other (wasm/offerterms.go, wasm/manager.go,
 wasm/walletblock.go, wasm/znn/client.go).
 */
module Handshake {
  import opened Prelude
  import opened Contract
  import opened Engine
  import opened Spend
  import opened SwapRecord
  import opened Moves
  import opened ZenonVerify
  import opened ZenonMoves
  import opened Creation
  import opened RecordLaw
  import opened RecordSteps
  import opened WalletPlan
  import opened HtlcAbi
  import opened Protocol
  import Decimal

  /** The two records are the two halves of one trade. */
  predicate Halves(x: Swap, y: Swap) {
    && y.leg == OppositeLeg(x.leg) && y.role == OppositeRole(x.role)
    && y.secretHash == x.secretHash && y.amountSats == x.amountSats
    && AgreedToken(y.zenon.token) == AgreedToken(x.zenon.token)
    && Decimal.NormalDecimal(y.zenon.amount) == Decimal.NormalDecimal(x.zenon.amount)
  }

  /**
   A record created from an initiator's offer is the other half of the initiator's: they agree which
   leg is the initiator's, and exactly one of them creates the Zenon HTLC.
   */
  lemma OfferMakesHalves(mine: Swap, network: string, p: CreateParams, key: SwapKey, secret: Bytes, now: int, f: Formats,
                         c: Crypto)
    requires Digests(c) && mine.role == Initiator
    requires p.offer == Some(OfferOf(mine, network)) && Creatable(p, network, now, f)
    ensures var theirs := NewSwap(p, key, secret, now, c);
            && Halves(mine, theirs)
            && ZenonLegIsInitiators(theirs.role, theirs.leg) == ZenonLegIsInitiators(mine.role, mine.leg)
            && ZenonHtlcIsOurs(theirs) != ZenonHtlcIsOurs(mine)
            && (p.counterpartyPkh != [] ==> theirs.counterpartyPkh == mine.key.pkh)
            && (p.peerAddress != "" && mine.zenon.selfAddress != "" ==> theirs.zenon.peerAddress == mine.zenon.selfAddress)
  {
    hide ContractScript, Decimal.NormalDecimal, Decimal.CanonicalZenonAmount, Decimal.ZeroAmount, PlanZenonLeg, ContractPkScript;
    SidesAgree(mine.role, mine.leg);
    assert AgreedToken(AgreedToken(p.token)) == AgreedToken(p.token);
    var drafted := Drafted(p, key, secret, now, c);
    PlanKeepsTerms(drafted, p, now);
    assert |OfferOf(mine, network).pkh| == 20;
  }

  lemma PlanKeepsTerms(drafted: Swap, p: CreateParams, now: int)
    ensures var y := PlanZenonLeg(drafted.(zenon := NewZenonLeg(p)), now);
            && y.zenon.token == AgreedToken(p.token) && y.zenon.amount == p.amount
            && y.zenon.peerAddress == p.peerAddress && y.zenon.selfAddress == p.selfAddress
  {
  }

  /** How much time the receiver's audit wants left on the sender's contract. */
  function AuditMargin(role: Role, leg: Leg): int {
    if BitcoinLegIsInitiators(role, leg) then MIN_LEG_GAP + MIN_LEG_REMAINING else MIN_LEG_REMAINING
  }

  /** The contract the sender built for the receiver's key passes the receiver's audit, given time. */
  lemma AuditAccepts(bs: Birth, sender: Swap, br: Birth, receiver: Swap, now: int, c: Crypto, sg: Signatures)
    requires Rec(bs, sender, c, sg) && Rec(br, receiver, c, sg) && Halves(sender, receiver)
    requires sender.leg == Send && sender.contract != [] && sender.counterpartyPkh == receiver.key.pkh
    requires !ContractCommitted(receiver) && receiver.contract != sender.contract
    requires sender.lockTime - now >= AuditMargin(receiver.role, receiver.leg)
    requires receiver.zenon.verified ==> receiver.zenon.expirationTime >= sender.lockTime + MIN_LEG_GAP
    ensures Audit(receiver, sender.contract, now, c).Saved?
    ensures var y := Audit(receiver, sender.contract, now, c).swap;
            y.contract == sender.contract && y.lockTime == sender.lockTime && y.contractAddr == sender.contractAddr
            && y.counterpartyPkh == sender.key.pkh
  {
    hide Parse, ContractScript, Decimal.NormalDecimal;
    assert Parse(sender.contract) == Parsed(ContractTerms(sender));
    assert receiver.leg == Receive;
  }

  /** The sender can always build that contract: the receiver's pubkey hash is accepted. */
  lemma PkhAccepted(bs: Birth, sender: Swap, pkh: Bytes, c: Crypto, sg: Signatures)
    requires Rec(bs, sender, c, sg) && sender.leg == Send && |pkh| == 20 && !ContractCommitted(sender)
    requires ValidLockTime(sender.lockTime) && sender.contract == []
    ensures SetPkh(sender, pkh, c).Saved?
    ensures SetPkh(sender, pkh, c).swap.counterpartyPkh == pkh && SetPkh(sender, pkh, c).swap.contract != []
  {
    assert |sender.key.pkh| == 20;
    BuiltParses(ContractTerms(sender.(counterpartyPkh := pkh)));
    hide ContractScript, Parse, ContractPkScript;
  }

  /** After the audit the planned expiry stays on the right side of the locktime for a create within 22 hours. */
  lemma PlannedLegStaysInOrder(sw: Swap, planned: int, momentum: int)
    requires Plannable(sw, planned) && sw.lockTime > MIN_LEG_GAP
    requires planned <= momentum <= planned + 22 * HOUR
    ensures var y := PlanZenonLeg(sw, planned);
            y.zenon.expirationSeconds >= MIN_LEG_REMAINING && InOrderAt(y, momentum + y.zenon.expirationSeconds)
  {
    hide MissingZenonTerms;
    var y := PlanZenonLeg(sw, planned);
    assert y.lockTime == sw.lockTime && y.role == sw.role && y.leg == sw.leg;
  }

  /** Two different addresses are never read as the same account. */
  ghost predicate DistinctAddresses(rd: Readers) {
    forall a: string, b: string :: rd.address(a).Some? && rd.address(a) == rd.address(b) ==> a == b
  }

  /** The addresses are crossed: each side records the other's as its counterparty's. */
  predicate Crossed(creator: Swap, peer: Swap) {
    && creator.zenon.peerAddress == peer.zenon.selfAddress != ""
    && (peer.zenon.peerAddress == "" || peer.zenon.peerAddress == creator.zenon.selfAddress)
  }

  predicate UsableAmount(amount: string, decimals: int) {
    && amount != "" && Decimal.CanonicalZenonAmount(amount) && !Decimal.ZeroAmount(amount)
    && Decimal.DecimalToBaseUnits(amount, decimals).Ok?
  }

  /** Amounts with one normal form convert to the same number of base units. */
  lemma SameUnits(a: string, b: string, decimals: int)
    requires UsableAmount(a, decimals) && UsableAmount(b, decimals) && Decimal.NormalDecimal(a) == Decimal.NormalDecimal(b)
    ensures Decimal.DecimalToBaseUnits(a, decimals) == Decimal.DecimalToBaseUnits(b, decimals)
  {
    hide Decimal.DecimalToBaseUnits, Decimal.NormalDecimal, Decimal.CanonicalZenonAmount;
    Decimal.BaseUnitsOfNormal(a, decimals);
    Decimal.BaseUnitsOfNormal(b, decimals);
  }

  /** The HTLC one side's plan creates passes the other side's verification. */
  lemma VerifyAccepts(creator: Swap, peer: Swap, momentum: int, decimals: int, rd: Readers, m: MethodId, info: HtlcInfo,
                      id: string, n: NodeAnswers)
    requires Halves(creator, peer) && creator.leg == Receive && |creator.secretHash| == 32
    requires creator.contract != [] && peer.contract != [] && creator.lockTime == peer.lockTime > MIN_LEG_GAP
    requires Crossed(creator, peer) && DistinctAddresses(rd) && Selector(m)
    requires UsableAmount(creator.zenon.amount, decimals) && UsableAmount(peer.zenon.amount, decimals)
    requires MayLock(creator, momentum, Some(decimals), rd) && momentum + creator.zenon.expirationSeconds <= MAX_SPAN
    requires EntryOf(info, CreateOf(creator, creator.zenon.selfAddress, momentum, Some(decimals), rd, m), rd, m) && info.id == id != ""
    requires n.entry == FoundEntry(info) && n.decimals == Some(decimals)
    requires 0 < Clock(n) && info.expirationTime - Clock(n) >= MIN_LEG_REMAINING
    ensures Fits(info, Expected(peer, n, id))
    ensures VerifyZenon(peer, id, n).Saved? && VerifyZenon(peer, id, n).swap.zenon.verified
  {
    PlannedEntry(creator, creator.zenon.selfAddress, momentum, Some(decimals), rd, m, info);
    SameUnits(creator.zenon.amount, peer.zenon.amount, decimals);
    assert info.hashLocked == peer.zenon.selfAddress;
    assert InOrderAt(creator, info.expirationTime);
    hide EntryOf, CreateOf, MayLock, DistinctAddresses, Decimal.NormalDecimal, Decimal.DecimalToBaseUnits,
         Decimal.ParseInteger, Decimal.CanonicalZenonAmount;
    PeerExpects(creator, peer, n, id, decimals, info);
  }

  lemma PeerExpects(creator: Swap, peer: Swap, n: NodeAnswers, id: string, decimals: int, info: HtlcInfo)
    requires peer.leg == OppositeLeg(creator.leg) && peer.role == OppositeRole(creator.role) && creator.leg == Receive
    requires peer.secretHash == creator.secretHash && AgreedToken(peer.zenon.token) == AgreedToken(creator.zenon.token)
    requires creator.contract != [] && peer.contract != [] && creator.lockTime == peer.lockTime
    requires InOrderAt(creator, info.expirationTime)
    requires UsableAmount(peer.zenon.amount, decimals) && n.decimals == Some(decimals)
    requires info.id == id && info.token == AgreedToken(creator.zenon.token) && info.hashLock == creator.secretHash
    requires info.hashType == HASH_TYPE_SHA256 && info.keyMaxSize == SECRET_SIZE
    requires info.hashLocked == peer.zenon.selfAddress != ""
    requires peer.zenon.peerAddress == "" || peer.zenon.peerAddress == info.timeLocked
    requires Decimal.ParseInteger(info.amount) == Some(Decimal.DecimalToBaseUnits(peer.zenon.amount, decimals).value)
    requires 0 < Clock(n) && MIN_LEG_REMAINING <= info.expirationTime - Clock(n) <= MAX_SPAN
    ensures Fits(info, Expected(peer, n, id))
  {
    hide Decimal.DecimalToBaseUnits, Decimal.ParseInteger, Decimal.CanonicalZenonAmount, Decimal.ZeroAmount;
    var want := Expected(peer, n, id);
    TimeLeftExactly(info, want);
    hide TimeLeft, Left;
    assert MissingZenonTerms(peer) == [];
    assert RightEntry(info, want) && RightLock(info, want) && RightParties(info, want);
    assert InOrder(info, want);
    assert HoldsAmount(info, want) && !want.amountUncheckable;
  }

  // ---------- from the offer to the verdict ----------

  /** The two records stay two halves whatever either side does, once the amount is on both. */
  lemma HalvesKept(x: Swap, y: Swap, x': Swap, y': Swap)
    requires Halves(x, y) && Change(x, x') && Change(y, y')
    requires RecordedAmount(x) != "" && RecordedAmount(y) != ""
    ensures Halves(x', y') && RecordedAmount(x') != "" && RecordedAmount(y') != ""
  {
    hide Decimal.NormalDecimal, Decimal.ZeroAmount, Frozen, FundingGrows, Rank;
  }

  /** A later record of the same swap. */
  ghost predicate Grown(x: Swap, y: Swap, c: Crypto, sg: Signatures) {
    Change(x, y) && Rec(BirthOf(y), y, c, sg)
  }

  function SenderOf(x: Swap, y: Swap): Swap {
    if x.leg == Send then x else y
  }

  function ReceiverOf(x: Swap, y: Swap): Swap {
    if x.leg == Send then y else x
  }

  lemma HalvesBySide(x: Swap, y: Swap)
    requires Halves(x, y)
    ensures Halves(SenderOf(x, y), ReceiverOf(x, y)) && SenderOf(x, y).leg == Send && ReceiverOf(x, y).leg == Receive
  {
    hide Decimal.NormalDecimal;
  }

  /** The sender has yet to build the contract, or built it for the receiver's key; there is time left to audit it. */
  predicate MayMeet(sender: Swap, receiver: Swap, audited: int) {
    && (if sender.contract == [] then ValidLockTime(sender.lockTime) else sender.counterpartyPkh == receiver.key.pkh)
    && receiver.contract == [] && sender.lockTime - audited >= AuditMargin(receiver.role, receiver.leg)
    && (receiver.zenon.verified ==> receiver.zenon.expirationTime >= sender.lockTime + MIN_LEG_GAP)
  }

  /** The sender's record once it was told the receiver's key, and the receiver's once it audited that contract. */
  ghost function Built(sender: Swap, receiver: Swap, c: Crypto): Swap
    requires Digests(c)
  {
    After(sender, SetPkh(sender, receiver.key.pkh, c))
  }

  ghost function AuditedBy(sender: Swap, receiver: Swap, audited: int, c: Crypto): Swap
    requires Digests(c)
  {
    After(receiver, Audit(receiver, Built(sender, receiver, c).contract, audited, c))
  }

  /** The one builds, the other accepts: both records hold the same contract, and are still two halves. */
  lemma MeetOnContract(sender: Swap, receiver: Swap, audited: int, c: Crypto, sg: Signatures)
    requires Rec(BirthOf(sender), sender, c, sg) && Rec(BirthOf(receiver), receiver, c, sg)
    requires Halves(sender, receiver) && sender.leg == Send && MayMeet(sender, receiver, audited)
    requires RecordedAmount(sender) != "" && RecordedAmount(receiver) != ""
    ensures var built, accepted := Built(sender, receiver, c), AuditedBy(sender, receiver, audited, c);
            && !SetPkh(sender, receiver.key.pkh, c).Rejected? && Audit(receiver, built.contract, audited, c).Saved?
            && built.contract != [] && accepted.contract == built.contract && Halves(built, accepted)
            && RecordedAmount(built) != "" && RecordedAmount(accepted) != ""
  {
    assert |receiver.key.pkh| == 20;
    if sender.contract == [] {
      PkhAccepted(BirthOf(sender), sender, receiver.key.pkh, c, sg);
      SetPkhKeeps(BirthOf(sender), sender, receiver.key.pkh, c, sg);
    }
    var built := Built(sender, receiver, c);
    assert Rec(BirthOf(sender), built, c, sg) && Change(sender, built) by { ChangeReflexive(sender); }
    hide Rec, SetPkh, Audit, Halves, Change;
    ChangeReflexive(receiver);
    HalvesKept(sender, receiver, built, receiver);
    AuditAccepts(BirthOf(sender), built, BirthOf(receiver), receiver, audited, c, sg);
    AuditKeeps(BirthOf(receiver), receiver, built.contract, audited, c, sg);
    HalvesKept(sender, receiver, built, AuditedBy(sender, receiver, audited, c));
  }

  /** The entry made by the creator's plan, as the peer's node shows it with time left. */
  ghost predicate Shown(creator: Swap, peer: Swap, momentum: int, decimals: int, rd: Readers, m: MethodId, info: HtlcInfo,
                        n: NodeAnswers) {
    && MayLock(creator, momentum, Some(decimals), rd) && momentum + creator.zenon.expirationSeconds <= MAX_SPAN
    && EntryOf(info, CreateOf(creator, creator.zenon.selfAddress, momentum, Some(decimals), rd, m), rd, m) && info.id != ""
    && n.entry == FoundEntry(info) && n.decimals == Some(decimals)
    && 0 < Clock(n) && info.expirationTime - Clock(n) >= MIN_LEG_REMAINING
  }

  /** On one contract, the entry one half creates passes the other half's verification. */
  lemma MeetOnEntry(creator: Swap, peer: Swap, momentum: int, decimals: int, rd: Readers, m: MethodId, info: HtlcInfo,
                    n: NodeAnswers, c: Crypto, sg: Signatures)
    requires Rec(BirthOf(creator), creator, c, sg) && Rec(BirthOf(peer), peer, c, sg)
    requires Halves(creator, peer) && creator.leg == Receive && creator.contract == peer.contract != []
    requires Crossed(creator, peer) && DistinctAddresses(rd) && Selector(m)
    requires UsableAmount(creator.zenon.amount, decimals) && UsableAmount(peer.zenon.amount, decimals)
    requires Shown(creator, peer, momentum, decimals, rd, m, info, n)
    ensures VerifyZenon(peer, info.id, n).Saved? && VerifyZenon(peer, info.id, n).swap.zenon.verified
  {
    LockTimeInRange(BirthOf(creator), creator, c, sg);
    SameLockTime(creator, peer, c, sg);
    assert |creator.secretHash| == 32;
    hide Rec, Halves, Crossed, DistinctAddresses, UsableAmount, MayLock, EntryOf, CreateOf, VerifyZenon, ContractTerms, ContractScript;
    VerifyAccepts(creator, peer, momentum, decimals, rd, m, info, info.id, n);
  }

  /** Two records that hold one contract have its locktime. */
  lemma SameLockTime(x: Swap, y: Swap, c: Crypto, sg: Signatures)
    requires Rec(BirthOf(x), x, c, sg) && Rec(BirthOf(y), y, c, sg) && x.contract == y.contract != []
    ensures x.lockTime == y.lockTime
  {
    TermsOfSwap(x);
    TermsOfSwap(y);
    hide Parse, ContractTerms;
  }

  /**
   From the offer to the verdict. `mine` made the offer and the answering record is created from it; each
   then changes as records do (`m1`, `t1`) until the contract is built on the one side and audited on the
   other, which always succeeds; and when the records have grown further with that contract on them, the
   entry planned by the side that sends ZNN always passes the other side's verification.
   */
  lemma OfferToVerdict(mine: Swap, network: string, p: CreateParams, key: SwapKey, secret: Bytes, born: int, f: Formats,
                       m1: Swap, t1: Swap, audited: int, creator: Swap, peer: Swap, momentum: int, decimals: int, rd: Readers,
                       m: MethodId, info: HtlcInfo, n: NodeAnswers, c: Crypto, sg: Signatures)
    requires Digests(c) && mine.role == Initiator && p.offer == Some(OfferOf(mine, network)) && Creatable(p, network, born, f)
    requires RecordedAmount(mine) != "" && p.amount != ""
    requires Grown(mine, m1, c, sg) && Grown(NewSwap(p, key, secret, born, c), t1, c, sg)
    requires MayMeet(SenderOf(m1, t1), ReceiverOf(m1, t1), audited)
    requires Grown(Built(SenderOf(m1, t1), ReceiverOf(m1, t1), c), peer, c, sg)
    requires Grown(AuditedBy(SenderOf(m1, t1), ReceiverOf(m1, t1), audited, c), creator, c, sg)
    requires creator.contract == peer.contract == Built(SenderOf(m1, t1), ReceiverOf(m1, t1), c).contract
    requires Crossed(creator, peer) && DistinctAddresses(rd) && Selector(m)
    requires UsableAmount(creator.zenon.amount, decimals) && UsableAmount(peer.zenon.amount, decimals)
    requires Shown(creator, peer, momentum, decimals, rd, m, info, n)
    ensures !SetPkh(SenderOf(m1, t1), ReceiverOf(m1, t1).key.pkh, c).Rejected?
    ensures Audit(ReceiverOf(m1, t1), peer.contract, audited, c).Saved?
    ensures VerifyZenon(peer, info.id, n).Saved? && VerifyZenon(peer, info.id, n).swap.zenon.verified
  {
    OfferMakesHalves(mine, network, p, key, secret, born, f, c);
    AmountOfOffer(p, key, secret, born, network, f, c);
    hide Creatable, NewSwap, Rec, Halves, MayMeet, Built, AuditedBy, SetPkh, Audit, VerifyZenon, Crossed, DistinctAddresses,
         UsableAmount, Shown, SenderOf, ReceiverOf, RecordedAmount, Change;
    HalvesKept(mine, NewSwap(p, key, secret, born, c), m1, t1);
    HalvesBySide(m1, t1);
    var sender, receiver := SenderOf(m1, t1), ReceiverOf(m1, t1);
    BySide(m1, t1, c, sg);
    MeetOnContract(sender, receiver, audited, c, sg);
    HalvesKept(Built(sender, receiver, c), AuditedBy(sender, receiver, audited, c), peer, creator);
    HalvesBothWays(peer, creator, Built(sender, receiver, c), AuditedBy(sender, receiver, audited, c), c, sg);
    MeetOnEntry(creator, peer, momentum, decimals, rd, m, info, n, c, sg);
  }

  lemma AmountOfOffer(p: CreateParams, key: SwapKey, secret: Bytes, born: int, network: string, f: Formats, c: Crypto)
    requires Digests(c) && Creatable(p, network, born, f) && p.amount != ""
    ensures RecordedAmount(NewSwap(p, key, secret, born, c)) != ""
  {
    PlanKeepsTerms(Drafted(p, key, secret, born, c), p, born);
    hide ContractScript, PlanZenonLeg, ContractPkScript, Decimal.ZeroAmount, Decimal.CanonicalZenonAmount;
  }

  lemma BySide(x: Swap, y: Swap, c: Crypto, sg: Signatures)
    requires Rec(BirthOf(x), x, c, sg) && Rec(BirthOf(y), y, c, sg) && RecordedAmount(x) != "" && RecordedAmount(y) != ""
    ensures Rec(BirthOf(SenderOf(x, y)), SenderOf(x, y), c, sg) && RecordedAmount(SenderOf(x, y)) != ""
    ensures Rec(BirthOf(ReceiverOf(x, y)), ReceiverOf(x, y), c, sg) && RecordedAmount(ReceiverOf(x, y)) != ""
  {
    hide Rec, RecordedAmount;
  }

  /** Halves are two halves from either side, and what grew from the receiver's is the receiver's. */
  lemma HalvesBothWays(peer: Swap, creator: Swap, built: Swap, accepted: Swap, c: Crypto, sg: Signatures)
    requires Halves(peer, creator) && Halves(built, accepted) && Grown(built, peer, c, sg) && Grown(accepted, creator, c, sg)
    requires built.leg == Send
    ensures Halves(creator, peer) && creator.leg == Receive
  {
    hide Rec, Decimal.NormalDecimal;
  }
}
