/** The record of one side of one swap, and the rules read off it (wasm/swap.go). */
module SwapRecord {
  import opened Prelude
  import opened Contract
  import opened Engine
  import opened Spend
  import Decimal

  datatype Role = Initiator | Participant

  /** Which way the Bitcoin moves for this user. */
  datatype Leg = Send | Receive

  datatype State = Draft | Awaiting | Funded | Expired | Redeemed | Refunded

  const ZNN_TOKEN := "zts1znnxxxxxxxxxxxxx9z4ulx"

  const HOUR := 3600
  const MIN_LEG_GAP := 2 * HOUR
  const MIN_LEG_REMAINING := 2 * HOUR
  const DEFAULT_LEG_GAP := 24 * HOUR
  const COMMIT_CONFIRMATIONS := 1

  /**
   The Zenon half. `token`, `amount` and the two addresses are what was agreed; the observed fields,
   the expiry and the hash parameters are what the entry said when it was last read.
   */
  datatype ZenonLeg = ZenonLeg(
    htlcId: string, selfAddress: string, peerAddress: string, token: string, amount: string,
    expirationHours: int, expirationSeconds: int,
    expirationTime: int, hashType: int, keyMaxSize: int,
    observedToken: string, observedHashLocked: string, observedAmount: string,
    verified: bool, verifyPending: bool, unlockHash: string, unlockSeen: bool)

  /**
   One side of one swap. An empty secret, pubkey hash, contract or destination is one not known yet;
   an address on the Bitcoin side is the output script it stands for.
   */
  datatype Swap = Swap(
    role: Role, leg: Leg, state: State,
    secret: Bytes, secretHash: Bytes, key: SwapKey, counterpartyPkh: Bytes,
    lockTime: int, contract: Bytes, contractAddr: Bytes, amountSats: int, destAddr: Bytes,
    funding: Option<Funding>, refundTx: Option<SpendResult>, redeemTx: Option<SpendResult>,
    fundingBroadcast: Option<Bytes>, zenon: ZenonLeg, archived: bool)

  function AgreedToken(token: string): string {
    if token == "" then ZNN_TOKEN else token
  }

  // ---------- who does what ----------

  /** Whether the Zenon HTLC is the initiator's leg, the one that must expire last. */
  predicate ZenonLegIsInitiators(role: Role, leg: Leg) {
    if leg.Send? then role != Initiator else role == Initiator
  }

  predicate BitcoinLegIsInitiators(role: Role, leg: Leg) {
    !ZenonLegIsInitiators(role, leg)
  }

  /** Whoever sends ZNN creates the HTLC. */
  predicate ZenonHtlcIsOurs(sw: Swap) {
    sw.leg == Receive
  }

  predicate SecretArrivesOnZenon(sw: Swap) {
    ZenonHtlcIsOurs(sw) && sw.role == Participant
  }

  predicate RedeemRevealsSecret(sw: Swap) {
    sw.leg == Receive && sw.role == Initiator
  }

  predicate FundingShort(sw: Swap) {
    sw.funding.Some? && sw.funding.value.value < sw.amountSats
  }

  predicate RedeemHeldForShortFunding(sw: Swap) {
    FundingShort(sw) && RedeemRevealsSecret(sw)
  }

  predicate ZenonCreateWaitsOnBtc(sw: Swap) {
    ZenonHtlcIsOurs(sw) && BitcoinLegIsInitiators(sw.role, sw.leg)
  }

  function OppositeLeg(leg: Leg): Leg {
    if leg == Send then Receive else Send
  }

  function OppositeRole(role: Role): Role {
    if role == Initiator then Participant else Initiator
  }

  /**
   The two sides of a swap, in opposite roles on opposite legs, agree which leg is the initiator's,
   disagree about who creates the HTLC and who redeems the Bitcoin, and give exactly one of them
   the secret to reveal.
   */
  lemma SidesAgree(role: Role, leg: Leg)
    ensures ZenonLegIsInitiators(OppositeRole(role), OppositeLeg(leg)) == ZenonLegIsInitiators(role, leg)
    ensures OppositeLeg(OppositeLeg(leg)) == leg && OppositeRole(OppositeRole(role)) == role
    ensures ZenonLegIsInitiators(role, leg) <==> (role == Initiator) == (leg == Receive)
  {
  }

  // ---------- locking ZNN against Bitcoin ----------

  /** What keeps this side from locking ZNN against the recorded funding. */
  datatype Blocker = Unblocked | NotSeen | AlreadySpent | TimelockPassed | TooClose | Short | InMempool | TooShallow

  function FundingCommitBlocker(sw: Swap, now: int): Blocker {
    if !ZenonCreateWaitsOnBtc(sw) then Unblocked
    else if sw.funding.None? then NotSeen
    else if sw.state.Redeemed? || sw.state.Refunded? then AlreadySpent
    else if sw.state.Expired? then TimelockPassed
    else if sw.lockTime > 0 && sw.lockTime - now < MIN_LEG_GAP + MIN_LEG_REMAINING then TooClose
    else if sw.funding.value.value < sw.amountSats then Short
    else if !sw.funding.value.confirmed then InMempool
    else if sw.funding.value.confirmations < COMMIT_CONFIRMATIONS then TooShallow
    else Unblocked
  }

  // ---------- terms of the Zenon leg ----------

  function MissingAddress(sw: Swap): seq<string> {
    if ZenonHtlcIsOurs(sw)
    then (if sw.zenon.peerAddress == "" then ["peerAddress"] else [])
    else (if sw.zenon.selfAddress == "" then ["selfAddress"] else [])
  }

  /** The terms this swap never recorded, and so cannot check an HTLC against. */
  function MissingZenonTerms(sw: Swap): seq<string> {
    MissingAddress(sw) + (if sw.zenon.amount == "" || Decimal.ZeroAmount(sw.zenon.amount) then ["amount"] else [])
  }

  /** Takes back a verdict reached against incomplete terms; applied to every record that is loaded. */
  function WithdrawStaleVerdict(sw: Swap): (r: Swap)
    ensures r.zenon.verified ==> MissingZenonTerms(r) == []
    ensures sw.zenon.verified && MissingZenonTerms(sw) == [] ==> r == sw
    ensures r.(zenon := sw.zenon) == sw
  {
    if sw.zenon.verified && MissingZenonTerms(sw) != []
    then sw.(zenon := sw.zenon.(verified := false, verifyPending := false))
    else sw
  }

  // ---------- the contract ----------

  /** Something is staked on this swap's contract as it stands. */
  predicate ContractCommitted(sw: Swap) {
    && sw.contract != []
    && (sw.funding.Some? || sw.fundingBroadcast.Some? || sw.refundTx.Some? || sw.zenon.htlcId != ""
        || (sw.state != Draft && sw.state != Awaiting))
  }

  /** The funding output was read off its transaction and pays the contract on the record. */
  ghost predicate FundingBound(sw: Swap, c: Crypto)
    requires Digests(c)
  {
    && sw.funding.Some? && sw.funding.value.pkScript.Some? && sw.contract != []
    && BindsTo(sw.funding.value, sw.contract, c)
  }

  /** The terms of the contract this swap builds: whoever funds it holds the refund key. */
  function ContractTerms(sw: Swap): Terms {
    match sw.leg
    case Send => Terms(sw.secretHash, sw.counterpartyPkh, sw.key.pkh, sw.lockTime)
    case Receive => Terms(sw.secretHash, sw.key.pkh, sw.counterpartyPkh, sw.lockTime)
  }

  /** The record once its contract is built. */
  ghost function WithContract(sw: Swap, contract: Bytes, c: Crypto): Swap
    requires Digests(c)
  {
    sw.(contract := contract, contractAddr := ContractPkScript(contract, c),
        state := if sw.state == Draft then Awaiting else sw.state)
  }

  /** Fills in the contract once both the secret hash and the counterparty's pubkey hash are known. */
  method BuildSwapContract(swap: Swap, c: Crypto) returns (r: Result<Swap, string>)
    requires Digests(c)
    ensures r.Ok? <==> Buildable(ContractTerms(swap))
    ensures r.Ok? ==> r.value == WithContract(swap, ContractScript(ContractTerms(swap)), c)
  {
    hide ContractScript;
    var sw := swap;
    if sw.secretHash == [] { return Err("secret hash is not set yet"); }
    if |sw.counterpartyPkh| != 20 { return Err("counterparty pubkey hash is not set yet"); }
    if sw.lockTime == 0 { return Err("locktime is not set"); }
    var pkhRefund, pkhRedeem;
    match sw.leg {
      case Send => pkhRefund, pkhRedeem := sw.key.pkh, sw.counterpartyPkh;
      case Receive => pkhRefund, pkhRedeem := sw.counterpartyPkh, sw.key.pkh;
    }
    var built := BuildContract(pkhRefund, pkhRedeem, sw.lockTime, sw.secretHash);
    if built.Err? { return Err(built.error); }
    sw := sw.(contract := built.value);
    sw := sw.(contractAddr := ContractPkScript(built.value, c));
    if sw.state == Draft { sw := sw.(state := Awaiting); }
    return Ok(sw);
  }

  // ---------- the plan for the Zenon leg ----------

  /** Integer division as the source's language does it, truncating toward zero. */
  function Quotient(a: int, b: int): int
    requires b > 0
  {
    if a >= 0 then a / b else -((-a) / b)
  }

  /** The planned expiry in whole hours, zero when no whole hour fits. */
  function WholeHours(secs: int, btcSecs: int, isInitiatorLeg: bool): int {
    var hours := Quotient(secs + 1800, 3600);
    if isInitiatorLeg then
      var earliest := Quotient(btcSecs + MIN_LEG_GAP + 3599, 3600);
      if hours < earliest then earliest else hours
    else
      var latest := Quotient(btcSecs - MIN_LEG_GAP, 3600);
      var capped := if hours > latest then latest else hours;
      if capped < 1 then 0 else capped
  }

  predicate Nearest(hours: int, secs: int) {
    -1800 <= hours * 3600 - secs <= 1800
  }

  /**
   Rounding to whole hours never pushes the leg past the ordering constraint, and gives up the nearest
   hour only for the last one that respects it.
   */
  lemma WholeHoursKeepGap(secs: int, btcSecs: int, isInitiatorLeg: bool)
    requires secs >= MIN_LEG_REMAINING
    ensures var hours := WholeHours(secs, btcSecs, isInitiatorLeg);
            if isInitiatorLeg
            then hours * 3600 >= btcSecs + MIN_LEG_GAP
                 && (Nearest(hours, secs) || (hours - 1) * 3600 < btcSecs + MIN_LEG_GAP)
            else hours > 0 ==> hours * 3600 <= btcSecs - MIN_LEG_GAP
                               && (Nearest(hours, secs) || (hours + 1) * 3600 > btcSecs - MIN_LEG_GAP)
  {
  }

  /** Where the Zenon expiry should fall, given the Bitcoin locktime. */
  function PlannedExpiry(role: Role, leg: Leg, lockTime: int): int {
    if ZenonLegIsInitiators(role, leg) then lockTime + DEFAULT_LEG_GAP else lockTime - DEFAULT_LEG_GAP
  }

  /** There is a locktime to plan from, no verified HTLC yet, and room for a usable leg. */
  predicate Plannable(sw: Swap, now: int) {
    && sw.lockTime != 0
    && !(sw.zenon.htlcId != "" && sw.zenon.verified)
    && PlannedExpiry(sw.role, sw.leg, sw.lockTime) - now >= MIN_LEG_REMAINING
  }

  function PlanZenonLeg(sw: Swap, now: int): (r: Swap)
    ensures r.(zenon := sw.zenon) == sw
    ensures Plannable(sw, now) ==> now + r.zenon.expirationSeconds == PlannedExpiry(sw.role, sw.leg, sw.lockTime)
    ensures !Plannable(sw, now) ==> r == sw
    ensures r.zenon.(expirationSeconds := sw.zenon.expirationSeconds, expirationHours := sw.zenon.expirationHours) == sw.zenon
    ensures Plannable(sw, now) ==>
              r.zenon.expirationHours
              == WholeHours(r.zenon.expirationSeconds, sw.lockTime - now, (sw.role == Initiator) == (sw.leg == Receive))
  {
    if sw.lockTime == 0 then sw
    else if sw.zenon.htlcId != "" && sw.zenon.verified then sw
    else
      var secs := PlannedExpiry(sw.role, sw.leg, sw.lockTime) - now;
      if secs < MIN_LEG_REMAINING then sw
      else
        sw.(zenon := sw.zenon.(
          expirationSeconds := secs,
          expirationHours := WholeHours(secs, sw.lockTime - now, ZenonLegIsInitiators(sw.role, sw.leg))))
  }
}
