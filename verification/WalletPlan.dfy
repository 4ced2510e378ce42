/** The Zenon calls this program builds for the wallet to sign, and what it insists on first (wasm/walletblock.go). */
module WalletPlan {
  import opened Prelude
  import opened Engine
  import opened Spend
  import opened SwapRecord
  import opened FundingWatch
  import opened ZenonVerify
  import opened ZenonMoves
  import opened HtlcAbi
  import Contract
  import Decimal

  // ---------- the counterparty's Bitcoin, read again ----------

  /** The Bitcoin chain as a node describes it now; None is a question it did not answer. */
  datatype ChainView = ChainView(utxos: Option<seq<Utxo>>, tip: Option<int>)

  /** The listed output at this outpoint. */
  function ListedAt(utxos: seq<Utxo>, o: OutPoint): Option<Utxo> {
    if utxos == [] then None
    else if utxos[0].outpoint == o then Some(utxos[0])
    else ListedAt(utxos[1..], o)
  }

  lemma {:induction false} ListedIsListed(utxos: seq<Utxo>, o: OutPoint)
    ensures var u := ListedAt(utxos, o);
            if u.Some? then u.value in utxos && u.value.outpoint == o else forall v :: v in utxos ==> v.outpoint != o
  {
    if utxos != [] {
      ListedIsListed(utxos[1..], o);
    }
  }

  /** Still unspent, covering the agreed amount, and mined at least this deep. */
  predicate FundingOnChain(sw: Swap, view: ChainView, minDepth: int)
    requires sw.funding.Some?
  {
    && view.utxos.Some?
    && ListedAt(view.utxos.value, sw.funding.value.outpoint).Some?
    && var u := ListedAt(view.utxos.value, sw.funding.value.outpoint).value;
       && u.value >= sw.amountSats
       && u.confirmed && u.height > 0
       && view.tip.Some? && view.tip.value - u.height + 1 >= minDepth
  }

  /** The listed output is the funding, covers the agreed amount, and is at least this deep below the tip, itself counted. */
  predicate Settles(u: Utxo, sw: Swap, tip: int, minDepth: int)
    requires sw.funding.Some?
  {
    && u.outpoint == sw.funding.value.outpoint && u.value >= sw.amountSats
    && u.confirmed && u.height > 0 && u.height + minDepth <= tip + 1
  }

  method CheckFundingOnChain(sw: Swap, view: ChainView, minDepth: int) returns (ok: bool)
    requires sw.funding.Some?
    ensures ok <==> FundingOnChain(sw, view, minDepth)
    ensures ok ==> view.utxos.Some? && view.tip.Some? && exists u :: u in view.utxos.value && Settles(u, sw, view.tip.value, minDepth)
    ensures !ok && view.utxos.Some? && view.tip.Some? ==>
              || (forall u :: u in view.utxos.value ==> !Settles(u, sw, view.tip.value, minDepth))
              || (exists u, v :: u in view.utxos.value && v in view.utxos.value && u != v && u.outpoint == v.outpoint)
  {
    if view.utxos.Some? { ListedIsListed(view.utxos.value, sw.funding.value.outpoint); }
    if view.utxos.None? { return false; }
    var utxos := view.utxos.value;
    var found: Option<Utxo> := None;
    var i := 0;
    assert utxos[0..] == utxos;
    while i < |utxos|
      invariant 0 <= i <= |utxos|
      invariant found.None? && ListedAt(utxos, sw.funding.value.outpoint) == ListedAt(utxos[i..], sw.funding.value.outpoint)
    {
      assert utxos[i..][1..] == utxos[i + 1..];
      if utxos[i].outpoint == sw.funding.value.outpoint {
        found := Some(utxos[i]);
        break;
      }
      i := i + 1;
    }
    if found.None? { return false; }
    if found.value.value < sw.amountSats { return false; }
    if !found.value.confirmed || found.value.height <= 0 { return false; }
    if view.tip.None? { return false; }
    var depth := view.tip.value - found.value.height + 1;
    return depth >= minDepth;
  }

  predicate CounterLegFunded(sw: Swap, view: ChainView, now: int) {
    ZenonCreateWaitsOnBtc(sw) ==>
      FundingCommitBlocker(sw, now) == Unblocked && sw.funding.Some? && FundingOnChain(sw, view, COMMIT_CONFIRMATIONS)
  }

  method RequireCounterLegFunding(sw: Swap, view: ChainView, now: int) returns (ok: bool)
    ensures ok <==> CounterLegFunded(sw, view, now)
    ensures sw.leg == Send || sw.role == Initiator ==> ok
    ensures sw.leg == Receive && sw.role == Participant ==>
              (ok <==>
                 && sw.funding.Some? && sw.state != Redeemed && sw.state != Refunded && sw.state != Expired
                 && (sw.lockTime <= 0 || sw.lockTime - now >= 4 * 3600)
                 && sw.funding.value.value >= sw.amountSats && sw.funding.value.confirmed && sw.funding.value.confirmations >= 1
                 && FundingOnChain(sw, view, 1))
  {
    if !ZenonCreateWaitsOnBtc(sw) { return true; }
    if FundingCommitBlocker(sw, now) != Unblocked { return false; }
    ok := CheckFundingOnChain(sw, view, COMMIT_CONFIRMATIONS);
  }

  // ---------- create ----------

  /** Reading an address, and reading an HTLC id. */
  datatype Readers = Readers(address: string -> Option<Bytes>, id: string -> Option<Bytes>)

  /** An htlc.create as the wallet is asked to sign it. */
  datatype CreatePlan = CreatePlan(signer: string, hashLocked: string, expiration: int, token: string, amount: int, data: Bytes)

  /** What the rest of the plan is made of, once the Bitcoin side is settled. */
  predicate MayLock(sw: Swap, momentum: int, decimals: Option<int>, rd: Readers) {
    && sw.zenon.peerAddress != ""
    && rd.address(sw.zenon.peerAddress).Some? && |rd.address(sw.zenon.peerAddress).value| == ADDRESS_SIZE
    && sw.zenon.expirationSeconds > 0
    && InOrderAt(sw, momentum + sw.zenon.expirationSeconds)
    && momentum + sw.zenon.expirationSeconds > 0
    && decimals.Some? && sw.zenon.amount != ""
    && Decimal.DecimalToBaseUnits(sw.zenon.amount, decimals.value).Ok?
    && Decimal.DecimalToBaseUnits(sw.zenon.amount, decimals.value).value > 0
    && sw.secretHash != []
  }

  /** An expiry on the right side of the Bitcoin locktime. */
  predicate InOrderAt(sw: Swap, expiration: int) {
    var want := Expect(sw);
    && (want.maxExpiration > 0 ==> expiration <= want.maxExpiration)
    && (want.minExpiration > 0 ==> expiration >= want.minExpiration)
  }

  ghost predicate MayCreate(sw: Swap, view: ChainView, now: int, momentum: int, decimals: Option<int>, rd: Readers, c: Crypto)
    requires Digests(c)
  {
    && ZenonHtlcIsOurs(sw)
    && sw.zenon.htlcId == ""
    && sw.contract != []
    && (sw.funding.Some? ==> FundingBound(sw, c))
    && CounterLegFunded(sw, view, now)
    && MayLock(sw, momentum, decimals, rd)
  }

  function CreateOf(sw: Swap, signer: string, momentum: int, decimals: Option<int>, rd: Readers, m: MethodId): CreatePlan
    requires MayLock(sw, momentum, decimals, rd)
  {
    var expiration := momentum + sw.zenon.expirationSeconds;
    CreatePlan(signer, sw.zenon.peerAddress, expiration, AgreedToken(sw.zenon.token),
               Decimal.DecimalToBaseUnits(sw.zenon.amount, decimals.value).value,
               CreateData(m, rd.address(sw.zenon.peerAddress).value, expiration, HASH_TYPE_SHA256, Contract.SECRET_SIZE, sw.secretHash))
  }

  method PlanLock(sw: Swap, signer: string, momentum: int, decimals: Option<int>, rd: Readers, m: MethodId)
    returns (r: Option<CreatePlan>)
    ensures r.Some? <==> MayLock(sw, momentum, decimals, rd)
    ensures r.Some? ==> r.value == CreateOf(sw, signer, momentum, decimals, rd, m)
    ensures r.Some? <==>
              && sw.zenon.peerAddress != "" && rd.address(sw.zenon.peerAddress).Some? && |rd.address(sw.zenon.peerAddress).value| == 20
              && sw.zenon.expirationSeconds > 0 && momentum + sw.zenon.expirationSeconds > 0
              && (sw.contract != [] && sw.lockTime > 0 ==>
                    if (sw.role == Initiator) == (sw.leg == Receive)
                    then momentum + sw.zenon.expirationSeconds >= sw.lockTime + 2 * 3600
                    else sw.lockTime <= 2 * 3600 || momentum + sw.zenon.expirationSeconds <= sw.lockTime - 2 * 3600)
              && decimals.Some? && sw.zenon.amount != "" && Decimal.DecimalToBaseUnits(sw.zenon.amount, decimals.value).Ok?
              && Decimal.DecimalToBaseUnits(sw.zenon.amount, decimals.value).value > 0
              && sw.secretHash != []
    ensures r.Some? ==>
              && r.value.signer == signer && r.value.hashLocked == sw.zenon.peerAddress
              && r.value.expiration == momentum + sw.zenon.expirationSeconds
              && r.value.token == (if sw.zenon.token == "" then ZNN_TOKEN else sw.zenon.token)
              && Decimal.DecimalToBaseUnits(sw.zenon.amount, decimals.value) == Ok(r.value.amount)
    ensures r.Some? && Selector(m) && r.value.expiration < 0x1_0000_0000_0000_0000 && |sw.secretHash| < 0x1_0000_0000 ==>
              ReadCall(m, r.value.data)
              == Creates(HtlcAbi.CreateCall.CreateCall(rd.address(sw.zenon.peerAddress).value, r.value.expiration, 1, 32,
                                                       sw.secretHash))
  {
    hide Decimal.DecimalToBaseUnits, CreateData, ReadCall, MissingZenonTerms;
    if sw.zenon.peerAddress == "" { return None; }
    var hashLocked := rd.address(sw.zenon.peerAddress);
    if hashLocked.None? { return None; }
    if sw.zenon.expirationSeconds <= 0 { return None; }
    var expiration := momentum + sw.zenon.expirationSeconds;
    var want := Expect(sw);
    if want.maxExpiration > 0 && expiration > want.maxExpiration { return None; }
    if want.minExpiration > 0 && expiration < want.minExpiration { return None; }
    if decimals.None? { return None; }
    if sw.zenon.amount == "" { return None; }
    var amount := Decimal.DecimalToBaseUnits(sw.zenon.amount, decimals.value);
    if amount.Err? { return None; }
    if amount.value <= 0 { return None; }
    var data := PackCreate(m, hashLocked.value, expiration, HASH_TYPE_SHA256, Contract.SECRET_SIZE, sw.secretHash);
    if data.Err? { return None; }
    return Some(CreatePlan(signer, sw.zenon.peerAddress, expiration, AgreedToken(sw.zenon.token), amount.value, data.value));
  }

  method PlanCreate(sw: Swap, signer: string, view: ChainView, now: int, momentum: int, decimals: Option<int>, rd: Readers,
                    m: MethodId, c: Crypto) returns (r: Option<CreatePlan>)
    requires Digests(c)
    ensures r.Some? <==> MayCreate(sw, view, now, momentum, decimals, rd, c)
    ensures r.Some? ==> r.value == CreateOf(sw, signer, momentum, decimals, rd, m)
    ensures r.Some? <==>
              && sw.leg == Receive && sw.zenon.htlcId == "" && sw.contract != []
              && (sw.funding.Some? ==> sw.funding.value.pkScript == Some(ContractPkScript(sw.contract, c)))
              && CounterLegFunded(sw, view, now) && MayLock(sw, momentum, decimals, rd)
    ensures r.Some? && Selector(m) && r.value.expiration < 0x1_0000_0000_0000_0000 && |sw.secretHash| < 0x1_0000_0000 ==>
              ReadCall(m, r.value.data)
              == Creates(HtlcAbi.CreateCall.CreateCall(rd.address(sw.zenon.peerAddress).value, r.value.expiration, 1, 32,
                                                       sw.secretHash))
  {
    hide MayLock, CreateOf, ReadCall;
    if !ZenonHtlcIsOurs(sw) { return None; }
    if sw.zenon.htlcId != "" { return None; }
    if |sw.contract| == 0 { return None; }
    if sw.funding.Some? {
      var f := sw.funding.value;
      if f.pkScript.None? || f.pkScript.value != ContractPkScript(sw.contract, c) { return None; }
    }
    var funded := RequireCounterLegFunding(sw, view, now);
    if !funded { return None; }
    r := PlanLock(sw, signer, momentum, decimals, rd, m);
  }

  // ---------- unlock and reclaim ----------

  /** Everything asked before the preimage is packed: the entry, read again now, still fits. */
  predicate MayUnlock(sw: Swap, n: NodeAnswers, rd: Readers) {
    && !ZenonHtlcIsOurs(sw)
    && sw.secret != []
    && sw.zenon.htlcId != ""
    && MissingZenonTerms(sw) == []
    && sw.zenon.verified
    && n.entry.FoundEntry?
    && Fits(n.entry.info, Expected(sw, n, sw.zenon.htlcId))
    && rd.id(sw.zenon.htlcId).Some? && |rd.id(sw.zenon.htlcId).value| == HASH_SIZE
  }

  method PlanUnlock(sw: Swap, n: NodeAnswers, rd: Readers, m: MethodId) returns (r: Option<Bytes>)
    ensures r.Some? <==> MayUnlock(sw, n, rd)
    ensures r.Some? ==> r.value == UnlockData(m, rd.id(sw.zenon.htlcId).value, sw.secret)
    ensures r.Some? <==>
              && sw.leg == Send && sw.secret != [] && sw.zenon.htlcId != "" && sw.zenon.verified && MissingZenonTerms(sw) == []
              && n.entry.FoundEntry? && Fits(n.entry.info, Expected(sw, n, sw.zenon.htlcId))
              && rd.id(sw.zenon.htlcId).Some? && |rd.id(sw.zenon.htlcId).value| == 32
    ensures r.Some? && Selector(m) && |sw.secret| < 0x1_0000_0000 ==>
              ReadCall(m, r.value) == Unlocks(HtlcAbi.UnlockCall.UnlockCall(rd.id(sw.zenon.htlcId).value, sw.secret))
  {
    hide Fits, Expected, UnlockData, ReadCall, MissingZenonTerms;
    if ZenonHtlcIsOurs(sw) { return None; }
    if |sw.secret| == 0 { return None; }
    if sw.zenon.htlcId == "" { return None; }
    if MissingZenonTerms(sw) != [] { return None; }
    if !sw.zenon.verified { return None; }
    if !n.entry.FoundEntry? { return None; }
    var want := ZenonExpectations(sw, n, sw.zenon.htlcId);
    var verdict := Verify(n.entry.info, want);
    if !verdict.Passed? { return None; }
    var id := rd.id(sw.zenon.htlcId);
    if id.None? { return None; }
    var data := PackUnlock(m, id.value, sw.secret);
    if data.Err? { return None; }
    return Some(data.value);
  }

  predicate MayReclaim(sw: Swap, momentum: int, rd: Readers) {
    && ZenonHtlcIsOurs(sw)
    && sw.zenon.htlcId != ""
    && !(sw.zenon.expirationTime > 0 && momentum < sw.zenon.expirationTime)
    && rd.id(sw.zenon.htlcId).Some? && |rd.id(sw.zenon.htlcId).value| == HASH_SIZE
  }

  method PlanReclaim(sw: Swap, momentum: int, rd: Readers, m: MethodId) returns (r: Option<Bytes>)
    ensures r.Some? <==> MayReclaim(sw, momentum, rd)
    ensures r.Some? ==> r.value == ReclaimData(m, rd.id(sw.zenon.htlcId).value)
    ensures r.Some? <==>
              && sw.leg == Receive && sw.zenon.htlcId != "" && (sw.zenon.expirationTime <= 0 || momentum >= sw.zenon.expirationTime)
              && rd.id(sw.zenon.htlcId).Some? && |rd.id(sw.zenon.htlcId).value| == 32
    ensures r.Some? && Selector(m) ==> ReadCall(m, r.value) == Reclaims(rd.id(sw.zenon.htlcId).value)
  {
    hide ReadCall;
    if !ZenonHtlcIsOurs(sw) { return None; }
    if sw.zenon.htlcId == "" { return None; }
    if sw.zenon.expirationTime > 0 && momentum < sw.zenon.expirationTime { return None; }
    var id := rd.id(sw.zenon.htlcId);
    if id.None? { return None; }
    var data := PackReclaim(m, id.value);
    if data.Err? { return None; }
    return Some(data.value);
  }

  // ---------- what a plan guarantees ----------

  /**
   Locking ZNN against Bitcoin: the plan's expiry leaves the gap under the contract's locktime, and
   the chain, as just read, holds the agreed amount at the funding outpoint, mined.
   */
  lemma CreateAnswersRealMoney(sw: Swap, view: ChainView, now: int, momentum: int, decimals: Option<int>, rd: Readers, c: Crypto)
    requires Digests(c) && MayCreate(sw, view, now, momentum, decimals, rd, c)
    requires ZenonCreateWaitsOnBtc(sw) && sw.lockTime > MIN_LEG_GAP
    ensures momentum + sw.zenon.expirationSeconds <= sw.lockTime - MIN_LEG_GAP
    ensures sw.funding.Some? && FundingBound(sw, c)
    ensures view.utxos.Some? && exists u :: u in view.utxos.value && u.outpoint == sw.funding.value.outpoint
                                            && u.value >= sw.amountSats && u.confirmed && u.height > 0
                                            && view.tip.Some? && u.height <= view.tip.value
  {
    ListedIsListed(view.utxos.value, sw.funding.value.outpoint);
  }

  /** The initiator's own HTLC outlives the participant's contract by the gap. */
  lemma CreateOutlivesBitcoin(sw: Swap, view: ChainView, now: int, momentum: int, decimals: Option<int>, rd: Readers, c: Crypto)
    requires Digests(c) && MayCreate(sw, view, now, momentum, decimals, rd, c)
    requires ZenonLegIsInitiators(sw.role, sw.leg) && sw.lockTime > 0
    ensures momentum + sw.zenon.expirationSeconds >= sw.lockTime + MIN_LEG_GAP
  {
  }
}
