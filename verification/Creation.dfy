/** Starting a swap, and what answering an offer pins (wasm/manager.go, wasm/offerterms.go, wasm/swap.go). */
module Creation {
  import opened Prelude
  import opened Contract
  import opened Engine
  import opened Spend
  import opened SwapRecord
  import Decimal

  const INITIATOR_LOCK_HOURS := 48
  const PARTICIPANT_LOCK_HOURS := 24
  const MAX_LOCK_HOURS := 24 * 365

  /** The public terms one side sends the other. */
  datatype Offer = Offer(network: string, fromRole: Role, secretHash: Bytes, pkh: Bytes, btcLeg: Leg, amountSats: int,
                         zenonAddr: string, zenonToken: string, zenonAmt: string)

  /** A creation form. Blank strings and empty bytes are fields left out; `dest` is None when missing or unusable. */
  datatype CreateParams = CreateParams(role: Role, leg: Leg, amountSats: int, dest: Option<Bytes>, lockHours: int,
                                       secretHash: Bytes, counterpartyPkh: Bytes, selfAddress: string, peerAddress: string,
                                       token: string, amount: string, offer: Option<Offer>)

  /** Whether text is a Zenon address, and whether it is a token standard. */
  datatype Formats = Formats(address: string -> bool, token: string -> bool)

  // ---------- offers ----------

  function OfferOf(sw: Swap, network: string): Offer {
    Offer(network, sw.role, sw.secretHash, sw.key.pkh, sw.leg, sw.amountSats, sw.zenon.selfAddress, sw.zenon.token, sw.zenon.amount)
  }

  /** What decoding an offer insists on. */
  predicate Decodes(o: Offer, f: Formats) {
    && |o.secretHash| == 32 && |o.pkh| == 20 && o.amountSats > 0
    && Decimal.CanonicalZenonAmount(o.zenonAmt) && (o.zenonAmt != "" ==> !Decimal.ZeroAmount(o.zenonAmt))
    && (o.zenonAddr != "" ==> f.address(o.zenonAddr))
    && (o.zenonToken != "" ==> f.token(o.zenonToken))
  }

  datatype Term = Network | BitcoinLeg | YourRole | SecretHash | BitcoinAmount | ZenonToken | ZenonAmount | TheirAddress | TheirPkh

  /** The form says what the offer says, wherever it says something both sides must agree on. */
  predicate Answers(o: Offer, network: string, p: CreateParams) {
    && o.network == network
    && p.leg == OppositeLeg(o.btcLeg)
    && p.role == OppositeRole(o.fromRole)
    && (p.role == Participant ==> o.secretHash == p.secretHash)
    && o.amountSats == p.amountSats
    && AgreedToken(o.zenonToken) == AgreedToken(p.token)
    && Decimal.NormalDecimal(o.zenonAmt) == Decimal.NormalDecimal(p.amount)
    && (o.zenonAddr != "" && p.peerAddress != "" ==> o.zenonAddr == p.peerAddress)
    && (o.pkh != [] && p.counterpartyPkh != [] ==> o.pkh == p.counterpartyPkh)
  }

  method CheckCreate(o: Offer, network: string, p: CreateParams) returns (bad: seq<Term>)
    ensures bad == [] <==> Answers(o, network, p)
    ensures bad == [] <==>
              && o.network == network && p.leg != o.btcLeg && p.role != o.fromRole
              && (p.role == Participant ==> o.secretHash == p.secretHash)
              && o.amountSats == p.amountSats
              && (if o.zenonToken == "" then ZNN_TOKEN else o.zenonToken) == (if p.token == "" then ZNN_TOKEN else p.token)
              && Decimal.NormalDecimal(o.zenonAmt) == Decimal.NormalDecimal(p.amount)
              && (o.zenonAddr == "" || p.peerAddress == "" || o.zenonAddr == p.peerAddress)
              && (o.pkh == [] || p.counterpartyPkh == [] || o.pkh == p.counterpartyPkh)
  {
    hide Decimal.NormalDecimal;
    bad := [];
    if o.network != network { bad := bad + [Network]; }
    if p.leg != OppositeLeg(o.btcLeg) { bad := bad + [BitcoinLeg]; }
    if p.role != OppositeRole(o.fromRole) { bad := bad + [YourRole]; }
    if p.role == Participant && o.secretHash != p.secretHash { bad := bad + [SecretHash]; }
    var first := bad;
    bad := CheckAmounts(o, p, bad);
    if o.zenonAddr != "" && p.peerAddress != "" && o.zenonAddr != p.peerAddress { bad := bad + [TheirAddress]; }
    if o.pkh != [] && p.counterpartyPkh != [] && o.pkh != p.counterpartyPkh { bad := bad + [TheirPkh]; }
    assert first == [] <==> o.network == network && p.leg == OppositeLeg(o.btcLeg) && p.role == OppositeRole(o.fromRole)
                            && (p.role == Participant ==> o.secretHash == p.secretHash);
  }

  method CheckAmounts(o: Offer, p: CreateParams, before: seq<Term>) returns (bad: seq<Term>)
    ensures before <= bad
    ensures bad == before <==> o.amountSats == p.amountSats && AgreedToken(o.zenonToken) == AgreedToken(p.token)
                               && Decimal.NormalDecimal(o.zenonAmt) == Decimal.NormalDecimal(p.amount)
  {
    hide Decimal.NormalDecimal, AgreedToken;
    bad := before;
    if o.amountSats != p.amountSats { bad := bad + [BitcoinAmount]; }
    var theirs, ours := AgreedToken(o.zenonToken), AgreedToken(p.token);
    if theirs != ours { bad := bad + [ZenonToken]; }
    if Decimal.NormalDecimal(o.zenonAmt) != Decimal.NormalDecimal(p.amount) { bad := bad + [ZenonAmount]; }
  }

  // ---------- creating ----------

  /** How long this swap's Bitcoin contract runs for: the initiator's leg takes the longer. */
  function BtcLegHours(role: Role, leg: Leg): int {
    if BitcoinLegIsInitiators(role, leg) then INITIATOR_LOCK_HOURS else PARTICIPANT_LOCK_HOURS
  }

  function LockHours(p: CreateParams): int {
    if p.lockHours <= 0 then BtcLegHours(p.role, p.leg) else p.lockHours
  }

  function LockTimeOf(p: CreateParams, now: int): int {
    now + LockHours(p) * HOUR
  }

  predicate ZenonFieldsFit(p: CreateParams, f: Formats) {
    && (p.selfAddress != "" ==> f.address(p.selfAddress))
    && (p.peerAddress != "" ==> f.address(p.peerAddress))
    && (p.token != "" ==> f.token(p.token))
    && Decimal.CanonicalZenonAmount(p.amount)
    && (p.amount != "" ==> !Decimal.ZeroAmount(p.amount))
  }

  /** Everything creation asks of the form. */
  predicate Creatable(p: CreateParams, network: string, now: int, f: Formats) {
    && p.amountSats > 0
    && (p.offer.Some? ==> Decodes(p.offer.value, f) && Answers(p.offer.value, network, p))
    && p.dest.Some?
    && ZenonFieldsFit(p, f)
    && (p.role == Participant ==> |p.secretHash| == 32)
    && 1 <= LockHours(p) <= MAX_LOCK_HOURS
    && ValidLockTime(LockTimeOf(p, now))
    && (p.counterpartyPkh != [] ==> |p.counterpartyPkh| == 20)
  }

  function NewZenonLeg(p: CreateParams): ZenonLeg {
    ZenonLeg("", p.selfAddress, p.peerAddress, AgreedToken(p.token), p.amount, 0, 0, 0, 1, SECRET_SIZE,
             "", "", "", false, false, "", false)
  }

  /** The record before any contract. The initiator's secret is generated; the participant only has the hash. */
  function Drafted(p: CreateParams, key: SwapKey, secret: Bytes, now: int, c: Crypto): Swap
    requires p.dest.Some?
  {
    var hash := if p.role == Initiator then c.sha256(secret) else p.secretHash;
    var sw := Swap(p.role, p.leg, Draft, if p.role == Initiator then secret else [], hash, key, p.counterpartyPkh,
                   LockTimeOf(p, now), [], [], p.amountSats, p.dest.value, None, None, None, None, NewZenonLeg(p), false);
    PlanZenonLeg(sw, now)
  }

  /** The record a creation saves. */
  ghost function NewSwap(p: CreateParams, key: SwapKey, secret: Bytes, now: int, c: Crypto): Swap
    requires p.dest.Some? && Digests(c)
  {
    var sw := Drafted(p, key, secret, now, c);
    if p.leg == Send && |p.counterpartyPkh| == 20 && Buildable(ContractTerms(sw))
    then WithContract(sw, ContractScript(ContractTerms(sw)), c)
    else sw
  }

  /** How long the Bitcoin contract runs: as asked, else two days when Bitcoin is the initiator's leg and one when it is not. */
  function HoursAsked(p: CreateParams): int {
    if p.lockHours > 0 then p.lockHours else if (p.role == Initiator) == (p.leg == Send) then 48 else 24
  }

  /** What creation asks of a form: nothing else refuses one. */
  lemma CreatableExactly(p: CreateParams, network: string, now: int, f: Formats)
    ensures Creatable(p, network, now, f) <==>
              && p.amountSats > 0 && p.dest.Some?
              && (p.offer.Some? ==>
                    var o := p.offer.value;
                    && |o.secretHash| == 32 && |o.pkh| == 20 && o.amountSats > 0
                    && Decimal.CanonicalZenonAmount(o.zenonAmt) && (o.zenonAmt == "" || !Decimal.ZeroAmount(o.zenonAmt))
                    && (o.zenonAddr == "" || f.address(o.zenonAddr)) && (o.zenonToken == "" || f.token(o.zenonToken))
                    && Answers(o, network, p))
              && (p.selfAddress == "" || f.address(p.selfAddress)) && (p.peerAddress == "" || f.address(p.peerAddress))
              && (p.token == "" || f.token(p.token))
              && Decimal.CanonicalZenonAmount(p.amount) && (p.amount == "" || !Decimal.ZeroAmount(p.amount))
              && (p.role == Participant ==> |p.secretHash| == 32) && |p.counterpartyPkh| in {0, 20}
              && p.lockHours <= 24 * 365 && ValidLockTime(now + 3600 * HoursAsked(p))
  {
    hide Decimal.CanonicalZenonAmount, Decimal.ZeroAmount, Answers;
  }

  /** What it records: the form's own terms, a fresh key, the hash, and the contract at once when the other key is known. */
  lemma NewSwapRecords(p: CreateParams, network: string, key: SwapKey, secret: Bytes, now: int, f: Formats, c: Crypto)
    requires Digests(c) && Creatable(p, network, now, f) && |key.pkh| == 20
    ensures var sw := NewSwap(p, key, secret, now, c);
              && sw.role == p.role && sw.leg == p.leg && sw.key == key && sw.amountSats == p.amountSats && sw.destAddr == p.dest.value
              && sw.lockTime == now + 3600 * HoursAsked(p)
              && (if p.role == Initiator then sw.secret == secret && sw.secretHash == c.sha256(secret)
                  else sw.secret == [] && sw.secretHash == p.secretHash)
              && sw.counterpartyPkh == p.counterpartyPkh
              && sw.zenon.selfAddress == p.selfAddress && sw.zenon.peerAddress == p.peerAddress && sw.zenon.amount == p.amount
              && sw.zenon.token == (if p.token == "" then ZNN_TOKEN else p.token)
              && sw.zenon.htlcId == "" && !sw.zenon.verified && !sw.zenon.verifyPending
              && sw.funding.None? && sw.refundTx.None? && sw.redeemTx.None?
              && (if p.leg == Send && p.counterpartyPkh != []
                  then sw.state == Awaiting && sw.contract == ContractScript(Terms(sw.secretHash, p.counterpartyPkh, key.pkh, sw.lockTime))
                  else sw.state == Draft && sw.contract == [])
  {
    hide Decimal.CanonicalZenonAmount, Decimal.ZeroAmount, Decodes, Answers, ContractScript, ContractPkScript, PlanZenonLeg;
  }

  /** The secret and the key are fresh random values, so they are inputs. */
  method Create(p: CreateParams, network: string, key: SwapKey, secret: Bytes, now: int, f: Formats,
                c: Crypto, ghost sg: Signatures) returns (r: Result<Swap, string>)
    requires Digests(c) && SoundKey(key, c, sg)
    ensures r.Ok? <==> Creatable(p, network, now, f)
    ensures r.Ok? ==> r.value == NewSwap(p, key, secret, now, c)
  {
    hide ContractScript, PlanZenonLeg, Decimal.CanonicalZenonAmount, Decimal.ZeroAmount, Decimal.NormalDecimal;
    if p.amountSats <= 0 { return Err("amountSats must be positive"); }
    if p.offer.Some? {
      if !Decodes(p.offer.value, f) { return Err("the offer no longer decodes"); }
      var bad := CheckCreate(p.offer.value, network, p);
      if bad != [] { return Err("this does not match the offer it was filled in from"); }
    }
    if p.dest.None? { return Err("a Bitcoin destination address is required"); }
    if !ZenonFieldsFit(p, f) { return Err("a Zenon field is not what it should be"); }
    r := Finish(p, network, key, secret, now, f, c, sg);
  }

  method Finish(p: CreateParams, network: string, key: SwapKey, secret: Bytes, now: int, f: Formats,
                c: Crypto, ghost sg: Signatures) returns (r: Result<Swap, string>)
    requires Digests(c) && SoundKey(key, c, sg) && p.dest.Some?
    ensures r.Ok? <==> (p.role == Participant ==> |p.secretHash| == 32) && 1 <= LockHours(p) <= MAX_LOCK_HOURS
                       && ValidLockTime(LockTimeOf(p, now)) && (p.counterpartyPkh != [] ==> |p.counterpartyPkh| == 20)
    ensures r.Ok? ==> r.value == NewSwap(p, key, secret, now, c)
  {
    hide ContractScript, PlanZenonLeg;
    var hash := p.secretHash;
    var mine: Bytes := [];
    if p.role == Initiator {
      mine, hash := secret, c.sha256(secret);
    } else {
      if |hash| != 32 { return Err("participant needs the initiator's secret hash"); }
    }
    var hours := p.lockHours;
    if hours <= 0 { hours := BtcLegHours(p.role, p.leg); }
    if hours < 1 || hours > MAX_LOCK_HOURS { return Err("lockHours must be between 1 and 8760"); }
    var lockTime := now + hours * HOUR;
    if !ValidLockTime(lockTime) { return Err("locktime out of range"); }
    var sw := Swap(p.role, p.leg, Draft, mine, hash, key, [], lockTime, [], [], p.amountSats, p.dest.value,
                   None, None, None, None, NewZenonLeg(p), false);
    if p.counterpartyPkh != [] {
      if |p.counterpartyPkh| != 20 { return Err("counterpartyPkhHex must be 20 bytes of hex"); }
      sw := sw.(counterpartyPkh := p.counterpartyPkh);
    }
    sw := PlanZenonLeg(sw, now);
    assert sw == Drafted(p, key, secret, now, c);
    assert |key.pkh| == 20;
    if sw.leg == Send && |sw.counterpartyPkh| == 20 {
      var built := BuildSwapContract(sw, c);
      if built.Err? { return Err("the contract could not be built"); }
      sw := built.value;
    }
    return Ok(sw);
  }
}
