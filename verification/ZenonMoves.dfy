/** The operations on a record's Zenon half, and the small ones (wasm/manager.go, wasm/walletblock.go). */
module ZenonMoves {
  import opened Prelude
  import opened Engine
  import opened Spend
  import opened SwapRecord
  import opened ZenonVerify
  import opened Moves
  import Contract
  import Decimal

  // ---------- what a swap expects of its HTLC ----------

  /** Everything role-dependent: who is paid, who may reclaim, and which side of the Bitcoin locktime the expiry is on. */
  function Expect(sw: Swap): Expectation {
    var ordered := sw.contract != [] && sw.lockTime > 0;
    var initiators := ZenonLegIsInitiators(sw.role, sw.leg);
    Expectation(
      sw.secretHash, "", AgreedToken(sw.zenon.token),
      if ZenonHtlcIsOurs(sw) then sw.zenon.peerAddress else sw.zenon.selfAddress,
      if ZenonHtlcIsOurs(sw) then sw.zenon.selfAddress else sw.zenon.peerAddress,
      None, MissingZenonTerms(sw), false, 0, MIN_LEG_REMAINING,
      if ordered && !initiators then sw.lockTime - MIN_LEG_GAP else 0,
      if ordered && initiators then sw.lockTime + MIN_LEG_GAP else 0)
  }

  /** What a Zenon node answers: its clock, the agreed token's decimals, the entry asked for. */
  datatype Lookup = FoundEntry(info: HtlcInfo) | NoEntry(existed: bool)

  datatype NodeAnswers = NodeAnswers(momentum: Option<int>, localNow: int, decimals: Option<int>,
                                     entry: Lookup, search: Bytes -> Option<Bytes>)

  function Clock(n: NodeAnswers): int {
    if n.momentum.Some? then n.momentum.value else n.localNow
  }

  /** The agreed amount in base units: None when there is nothing to convert or it cannot be converted. */
  function AgreedUnits(amount: string, decimals: Option<int>): Option<int> {
    if amount == "" || Decimal.ZeroAmount(amount) || decimals.None? then None
    else
      match Decimal.DecimalToBaseUnits(amount, decimals.value)
      case Ok(v) => Some(v)
      case Err(_) => None
  }

  function Expected(sw: Swap, n: NodeAnswers, id: string): Expectation {
    var units := AgreedUnits(sw.zenon.amount, n.decimals);
    Expect(sw).(now := Clock(n), id := id, minAmount := units,
                amountUncheckable := sw.zenon.amount != "" && !Decimal.ZeroAmount(sw.zenon.amount) && units.None?)
  }

  method ZenonExpectations(sw: Swap, n: NodeAnswers, id: string) returns (want: Expectation)
    ensures want == Expected(sw, n, id)
  {
    hide MissingZenonTerms, Decimal.DecimalToBaseUnits, Decimal.ZeroAmount;
    want := Expect(sw);
    if n.momentum.Some? {
      want := want.(now := n.momentum.value);
    } else {
      want := want.(now := n.localNow);
    }
    var amount := sw.zenon.amount;
    if amount != "" && !Decimal.ZeroAmount(amount) {
      if n.decimals.None? {
        want := want.(amountUncheckable := true);
      } else {
        var units := Decimal.DecimalToBaseUnits(amount, n.decimals.value);
        match units {
          case Err(_) => want := want.(amountUncheckable := true);
          case Ok(v) => want := want.(minAmount := Some(v));
        }
      }
    }
    want := want.(id := id);
  }

  // ---------- verifying ----------

  /** What the entry says is written down either way; the agreed terms are left as they are. */
  function Observed(leg: ZenonLeg, id: string, info: HtlcInfo): ZenonLeg {
    leg.(htlcId := id, observedToken := info.token, observedHashLocked := info.hashLocked,
         expirationTime := info.expirationTime, hashType := info.hashType, keyMaxSize := info.keyMaxSize,
         observedAmount := info.amount)
  }

  function Judgement(sw: Swap, id: string, info: HtlcInfo, want: Expectation): Swap {
    sw.(zenon := Observed(sw.zenon, id, info).(
          verified := Fits(info, want),
          verifyPending := want.amountUncheckable && FitsApartFromAmount(info, want)))
  }

  /** An entry that is gone may have been unlocked, which is where the preimage is. */
  function RecoveredPreimage(sw: Swap, n: NodeAnswers): Option<Bytes> {
    if n.entry.NoEntry? && n.entry.existed && sw.secret == [] && SecretArrivesOnZenon(sw) && sw.zenon.peerAddress != ""
    then n.search(sw.secretHash) else None
  }

  function VerifyZenon(sw: Swap, id: string, n: NodeAnswers): Move {
    if id == "" then Rejected
    else
      match n.entry
      case FoundEntry(info) => Saved(Judgement(sw, id, info, Expected(sw, n, id)))
      case NoEntry(_) =>
        match RecoveredPreimage(sw, n)
        case None => Rejected
        case Some(p) => Saved(sw.(secret := p, zenon := sw.zenon.(htlcId := id, unlockSeen := true)))
  }

  method VerifyZenonHtlc(swap: Swap, id: string, n: NodeAnswers) returns (m: Move)
    ensures m == VerifyZenon(swap, id, n)
    ensures n.entry.FoundEntry? ==>
              && (m.Rejected? <==> id == "")
              && (m.Saved? ==>
                    var info, z := n.entry.info, m.swap.zenon;
                    && (z.verified <==> Fits(info, Expected(swap, n, id)))
                    && (z.verifyPending <==>
                          Expected(swap, n, id).amountUncheckable && FitsApartFromAmount(info, Expected(swap, n, id)))
                    && z.htlcId == id && z.expirationTime == info.expirationTime && z.hashType == info.hashType
                    && z.keyMaxSize == info.keyMaxSize && z.observedToken == info.token && z.observedHashLocked == info.hashLocked
                    && z.observedAmount == info.amount
                    && z.selfAddress == swap.zenon.selfAddress && z.peerAddress == swap.zenon.peerAddress
                    && z.token == swap.zenon.token && z.amount == swap.zenon.amount && z.unlockHash == swap.zenon.unlockHash
                    && z.unlockSeen == swap.zenon.unlockSeen && z.expirationSeconds == swap.zenon.expirationSeconds
                    && m.swap.(zenon := swap.zenon) == swap)
    ensures n.entry.NoEntry? ==>
              if id != "" && n.entry.existed && swap.role == Participant && swap.leg == Receive && swap.secret == []
                 && swap.zenon.peerAddress != "" && n.search(swap.secretHash).Some?
              then m == Saved(swap.(secret := n.search(swap.secretHash).value, zenon := swap.zenon.(htlcId := id, unlockSeen := true)))
              else m.Rejected?
  {
    hide Expected, Fits, FitsApartFromAmount;
    var sw := swap;
    if id == "" { return Rejected; }
    if n.entry.NoEntry? {
      if n.entry.existed {
        if |sw.secret| == 0 && SecretArrivesOnZenon(sw) && sw.zenon.peerAddress != "" {
          var found := n.search(sw.secretHash);
          if found.Some? {
            sw := sw.(secret := found.value);
            sw := sw.(zenon := sw.zenon.(htlcId := id));
            sw := sw.(zenon := sw.zenon.(unlockSeen := true));
            return Saved(sw);
          }
        }
      }
      return Rejected;
    }
    var info := n.entry.info;
    var want := ZenonExpectations(sw, n, id);
    var verdict := Verify(info, want);
    var leg := sw.zenon.(htlcId := id);
    leg := leg.(observedToken := info.token);
    leg := leg.(observedHashLocked := info.hashLocked);
    leg := leg.(expirationTime := info.expirationTime);
    leg := leg.(hashType := info.hashType);
    leg := leg.(keyMaxSize := info.keyMaxSize);
    leg := leg.(observedAmount := info.amount);
    leg := leg.(verifyPending := verdict.Incomplete?);
    leg := leg.(verified := verdict.Passed?);
    return Saved(sw.(zenon := leg));
  }

  /** With the contract on the record, a passing entry's expiry is on the right side of the Bitcoin locktime. */
  lemma PassingEntryIsOrdered(sw: Swap, n: NodeAnswers, id: string, info: HtlcInfo)
    requires Fits(info, Expected(sw, n, id)) && sw.contract != [] && sw.lockTime > MIN_LEG_GAP
    ensures if ZenonLegIsInitiators(sw.role, sw.leg) then info.expirationTime >= sw.lockTime + MIN_LEG_GAP
            else info.expirationTime <= sw.lockTime - MIN_LEG_GAP
  {
  }

  /** What passing means: this hash, these parties, this token, at least the agreed amount, and time left to act. */
  lemma PassingEntryPays(sw: Swap, n: NodeAnswers, id: string, info: HtlcInfo)
    requires Fits(info, Expected(sw, n, id)) && sw.secretHash != [] && id != ""
    requires 0 < Clock(n) <= MAX_SPAN && info.expirationTime >= 0
    ensures info.id == id && info.hashLock == sw.secretHash && info.hashType == HASH_TYPE_SHA256 && info.keyMaxSize >= 32
    ensures info.token == AgreedToken(sw.zenon.token) == (if sw.zenon.token == "" then ZNN_TOKEN else sw.zenon.token)
    ensures var payee := if ZenonHtlcIsOurs(sw) then sw.zenon.peerAddress else sw.zenon.selfAddress;
            payee != "" && info.hashLocked == payee
    ensures var payer := if sw.leg == Receive then sw.zenon.selfAddress else sw.zenon.peerAddress;
            payer != "" ==> info.timeLocked == payer
    ensures AgreedUnits(sw.zenon.amount, n.decimals).Some?
    ensures Decimal.ParseInteger(info.amount).Some?
            && Decimal.ParseInteger(info.amount).value >= AgreedUnits(sw.zenon.amount, n.decimals).value
    ensures info.expirationTime - Clock(n) >= MIN_LEG_REMAINING
  {
    hide Decimal.ParseInteger, Decimal.DecimalToBaseUnits, Left, TimeLeft;
    var want := Expected(sw, n, id);
    assert MissingZenonTerms(sw) == [];
    TimeLeftIsReal(info, want);
  }

  /**
   What a verdict says, in the entry's and the record's own words: an entry passes if and only if it is the one asked
   for, under this hash, in the agreed token, paying who it must and coming from who it must as far as that is
   recorded, with the agreed amount in it, two hours left, and, once the contract is known, on its own side of
   the locktime by the gap.
   */
  lemma VerdictExactly(sw: Swap, n: NodeAnswers, id: string, info: HtlcInfo)
    requires id != "" && sw.secretHash != [] && 0 < Clock(n) && -MAX_SPAN <= info.expirationTime - Clock(n) <= MAX_SPAN
    ensures Fits(info, Expected(sw, n, id)) <==>
              && info.id == id && info.hashLock == sw.secretHash && info.hashType == 1 && info.keyMaxSize >= 32
              && info.token == (if sw.zenon.token == "" then ZNN_TOKEN else sw.zenon.token)
              && (if sw.leg == Receive
                  then sw.zenon.peerAddress != "" && info.hashLocked == sw.zenon.peerAddress
                       && sw.zenon.selfAddress in {"", info.timeLocked}
                  else sw.zenon.selfAddress != "" && info.hashLocked == sw.zenon.selfAddress
                       && sw.zenon.peerAddress in {"", info.timeLocked})
              && sw.zenon.amount != "" && !Decimal.ZeroAmount(sw.zenon.amount) && n.decimals.Some?
              && Decimal.DecimalToBaseUnits(sw.zenon.amount, n.decimals.value).Ok?
              && Decimal.ParseInteger(info.amount).Some?
              && Decimal.ParseInteger(info.amount).value >= Decimal.DecimalToBaseUnits(sw.zenon.amount, n.decimals.value).value
              && info.expirationTime - Clock(n) >= 2 * 3600
              && (sw.contract != [] && sw.lockTime > 0 ==>
                    if (sw.role == Initiator) == (sw.leg == Receive) then info.expirationTime >= sw.lockTime + 2 * 3600
                    else sw.lockTime <= 2 * 3600 || info.expirationTime <= sw.lockTime - 2 * 3600)
  {
    hide Decimal.ParseInteger, Decimal.DecimalToBaseUnits, Decimal.ZeroAmount;
    TimeLeftExactly(info, Expected(sw, n, id));
    hide TimeLeft, Left;
  }

  // ---------- completing the terms ----------

  /** A blank term may be set; one that is recorded may only be repeated. None is a refusal. */
  function SetOnce(current: string, value: string, acceptable: bool): Option<string> {
    if value == "" || value == current then Some(current)
    else if current != "" || !acceptable then None
    else Some(value)
  }

  predicate AcceptableAmount(v: string, decimals: Option<int>) {
    && Decimal.CanonicalZenonAmount(v) && !Decimal.ZeroAmount(v)
    && decimals.Some? && Decimal.DecimalToBaseUnits(v, decimals.value).Ok?
  }

  /** A recorded zero is no amount. */
  function RecordedAmount(sw: Swap): string {
    if Decimal.ZeroAmount(sw.zenon.amount) then "" else sw.zenon.amount
  }

  function SetZenonTerms(sw: Swap, self: string, peer: string, amount: string, validAddress: string -> bool, decimals: Option<int>): Move {
    match (SetOnce(sw.zenon.selfAddress, self, validAddress(self)),
           SetOnce(sw.zenon.peerAddress, peer, validAddress(peer)),
           SetOnce(RecordedAmount(sw), amount, AcceptableAmount(amount, decimals)))
    case (Some(s), Some(p), Some(v)) => Completed(sw, s, p, v)
    case _ => Rejected
  }

  /** New terms withdraw any verdict reached without them. */
  function Completed(sw: Swap, self: string, peer: string, amount: string): Move {
    if self == sw.zenon.selfAddress && peer == sw.zenon.peerAddress && amount == RecordedAmount(sw) then Unchanged
    else
      var leg := sw.zenon.(selfAddress := self, peerAddress := peer, amount := amount);
      Saved(sw.(zenon := if leg.htlcId != "" then leg.(verified := false, verifyPending := false) else leg))
  }

  method SetTerm(current: string, value: string, acceptable: bool) returns (r: Option<string>, changed: bool)
    ensures r == SetOnce(current, value, acceptable)
    ensures changed <==> r.Some? && r.value != current
  {
    if value == "" || value == current { return Some(current), false; }
    if current != "" { return None, false; }
    if !acceptable { return None, false; }
    return Some(value), true;
  }

  /** A field left out or repeated is fine, and a blank term takes an acceptable value. */
  predicate MaySet(current: string, value: string, acceptable: bool) {
    value == "" || value == current || (current == "" && acceptable)
  }

  /** Completing the terms is refused exactly when one is neither left out, repeated, nor an acceptable value for a blank one. */
  lemma TermsRefused(sw: Swap, self: string, peer: string, amount: string, valid: string -> bool, decimals: Option<int>)
    ensures SetZenonTerms(sw, self, peer, amount, valid, decimals).Rejected? <==>
              || !MaySet(sw.zenon.selfAddress, self, valid(self))
              || !MaySet(sw.zenon.peerAddress, peer, valid(peer))
              || !MaySet(RecordedAmount(sw), amount,
                         Decimal.CanonicalZenonAmount(amount) && !Decimal.ZeroAmount(amount) && decimals.Some?
                         && Decimal.DecimalToBaseUnits(amount, decimals.value).Ok?)
  {
    hide Decimal.ZeroAmount, Decimal.CanonicalZenonAmount, Decimal.DecimalToBaseUnits, RecordedAmount;
  }

  /** Otherwise each term given is recorded, nothing else is, and a verdict reached without it is withdrawn. */
  lemma TermsRecorded(sw: Swap, self: string, peer: string, amount: string, valid: string -> bool, decimals: Option<int>)
    requires !SetZenonTerms(sw, self, peer, amount, valid, decimals).Rejected?
    ensures var m, x := SetZenonTerms(sw, self, peer, amount, valid, decimals), sw.zenon;
            if self in {"", x.selfAddress} && peer in {"", x.peerAddress} && amount in {"", RecordedAmount(sw)} then m == Unchanged
            else
              m == Saved(sw.(zenon := x.(selfAddress := if self == "" then x.selfAddress else self,
                                         peerAddress := if peer == "" then x.peerAddress else peer,
                                         amount := if amount == "" then RecordedAmount(sw) else amount,
                                         verified := x.verified && x.htlcId == "",
                                         verifyPending := x.verifyPending && x.htlcId == "")))
  {
    hide AcceptableAmount, RecordedAmount;
  }

  method CompleteZenonTerms(swap: Swap, self: string, peer: string, amount: string,
                            validAddress: string -> bool, decimals: Option<int>) returns (m: Move)
    ensures m == SetZenonTerms(swap, self, peer, amount, validAddress, decimals)
  {
    hide AcceptableAmount, Decimal.ZeroAmount, SetOnce, Completed;
    var leg := swap.zenon;
    var recorded := if Decimal.ZeroAmount(leg.amount) then "" else leg.amount;
    var s, sChanged := SetTerm(leg.selfAddress, self, validAddress(self));
    if s.None? { return Rejected; }
    var p, pChanged := SetTerm(leg.peerAddress, peer, validAddress(peer));
    if p.None? { return Rejected; }
    var v, vChanged := SetTerm(recorded, amount, AcceptableAmount(amount, decimals));
    if v.None? { return Rejected; }
    m := WithdrawVerdict(swap, s.value, p.value, v.value, sChanged || pChanged || vChanged);
  }

  method WithdrawVerdict(swap: Swap, self: string, peer: string, amount: string, changed: bool) returns (m: Move)
    requires changed <==> self != swap.zenon.selfAddress || peer != swap.zenon.peerAddress || amount != RecordedAmount(swap)
    ensures m == Completed(swap, self, peer, amount)
  {
    if !changed { return Unchanged; }
    var leg := swap.zenon.(selfAddress := self, peerAddress := peer, amount := amount);
    if leg.htlcId != "" {
      leg := leg.(verified := false);
      leg := leg.(verifyPending := false);
    }
    return Saved(swap.(zenon := leg));
  }

  // ---------- what the wallet published ----------

  datatype WalletAction = CreateCall | UnlockCall | ReclaimCall

  /** A published block that is not the one proposed: only the account that signed it is written down. */
  function WalletMismatch(sw: Swap, signer: string): Move {
    Saved(if signer != "" then sw.(zenon := sw.zenon.(selfAddress := signer)) else sw)
  }

  /** The first save after the wallet reports a hash. */
  function WalletSent(sw: Swap, action: WalletAction, hash: string, from: string): Move {
    match action
    case CreateCall =>
      if hash == "" then Rejected
      else
        var self := if from != "" && sw.zenon.selfAddress == "" then from else sw.zenon.selfAddress;
        Saved(sw.(zenon := sw.zenon.(selfAddress := self, htlcId := hash)))
    case UnlockCall => Saved(sw.(zenon := sw.zenon.(unlockHash := hash)))
    case ReclaimCall => Saved(sw)
  }

  /** A create that cannot be read yet is pending, not failed. */
  function WalletPending(sw: Swap): Move {
    Saved(sw.(zenon := sw.zenon.(verifyPending := true)))
  }

  /**
   Writes down what the wallet published. Only the account, the entry's id and the unlock's hash can
   change; an id is never lost; a recorded account gives way only to the one that really signed. In
   particular a verdict is left exactly as it was, whatever it was about: see VerdictSubject.
   */
  method RecordWalletSent(swap: Swap, mismatch: bool, signer: string, action: WalletAction, hash: string, from: string)
    returns (m: Move)
    ensures m == if mismatch then WalletMismatch(swap, signer) else WalletSent(swap, action, hash, from)
    ensures m.Rejected? <==> !mismatch && action == CreateCall && hash == ""
    ensures m.Saved? ==>
              && m.swap.(zenon := swap.zenon) == swap
              && m.swap.zenon.(selfAddress := swap.zenon.selfAddress, htlcId := swap.zenon.htlcId, unlockHash := swap.zenon.unlockHash)
                 == swap.zenon
              && (swap.zenon.htlcId != "" ==> m.swap.zenon.htlcId != "")
              && (swap.zenon.selfAddress != "" ==> m.swap.zenon.selfAddress in {swap.zenon.selfAddress, signer})
              && (!mismatch && swap.zenon.selfAddress != "" ==> m.swap.zenon.selfAddress == swap.zenon.selfAddress)
              && (mismatch || action != CreateCall ==> m.swap.zenon.htlcId == swap.zenon.htlcId)
              && (!mismatch && action == CreateCall ==> m.swap.zenon.htlcId == hash)
              && (mismatch && signer != "" ==> m.swap.zenon.selfAddress == signer)
              && (!mismatch && action == CreateCall && swap.zenon.selfAddress == "" ==> m.swap.zenon.selfAddress == from)
              && m.swap.zenon.unlockHash == (if !mismatch && action == UnlockCall then hash else swap.zenon.unlockHash)
  {
    var sw := swap;
    if mismatch {
      if signer != "" { sw := sw.(zenon := sw.zenon.(selfAddress := signer)); }
      return Saved(sw);
    }
    match action {
      case CreateCall =>
        if hash == "" { return Rejected; }
        if from != "" && sw.zenon.selfAddress == "" { sw := sw.(zenon := sw.zenon.(selfAddress := from)); }
        sw := sw.(zenon := sw.zenon.(htlcId := hash));
      case UnlockCall =>
        sw := sw.(zenon := sw.zenon.(unlockHash := hash));
      case ReclaimCall =>
    }
    return Saved(sw);
  }

  // ---------- the small ones ----------

  function RecordFundingBroadcast(sw: Swap, txid: Bytes, validTxid: bool): Move {
    if !validTxid || sw.leg != Send then Rejected
    else if sw.fundingBroadcast == Some(txid) then Unchanged
    else Saved(sw.(fundingBroadcast := Some(txid)))
  }

  function SetSecret(sw: Swap, secret: Bytes, c: Crypto): Move {
    if |secret| != Contract.SECRET_SIZE || c.sha256(secret) != sw.secretHash then Rejected
    else Saved(sw.(secret := secret))
  }

  function Archive(sw: Swap, archived: bool): Move {
    if sw.archived == archived then Unchanged else Saved(sw.(archived := archived))
  }
}
