/**
 What one refresh teaches a record, whatever the nodes answered: the secret, how the funding was spent, the
 better output, the refund to keep, the depth and the expired timelock (wasm/manager.go). Everything is said about the
 record saved and the answers got, not about the stages in between.
 */
module RefreshLearns {
  import opened Prelude
  import opened Contract
  import opened Engine
  import opened Spend
  import opened TxBuild
  import opened SwapRecord
  import opened FundingWatch
  import opened Moves
  import opened RecordLaw
  import opened RecordSteps

  // ---------- what each stage can touch ----------

  /** The funding is the same output, whatever is known of it by now. */
  predicate SameOutput(x: Option<Funding>, y: Option<Funding>) {
    && (x.Some? <==> y.Some?)
    && (x.Some? ==> x.value.outpoint == y.value.outpoint && x.value.value == y.value.value)
  }

  /** The stages up to the signing of a refund leave these alone. */
  predicate OnlyMoney(x: Swap, y: Swap) {
    y.(funding := x.funding, refundTx := x.refundTx) == x && SameOutput(x.funding, y.funding)
  }

  /** The record once its funding is settled, bound and covered by a refund if it can be. */
  ghost function Secured(s0: Swap, a: Answers, c: Crypto, sg: Signatures): Swap
    requires Digests(c) && SoundKey(s0.key, c, sg)
  {
    Presigned(Polled(WithDepth(s0, a.status, a.tip), a, c), a, c, sg)
  }

  /** The record a refresh starts watching from: the better output taken, when it still looks for one. */
  ghost function Settling(sw: Swap, a: Answers, c: Crypto): Swap
    requires Digests(c)
  {
    if FundingIsOpen(sw) && a.utxos.Some? then Looked(sw, a.utxos.value, a, c) else sw
  }

  lemma SecuredFrame(s0: Swap, a: Answers, c: Crypto, sg: Signatures)
    requires Digests(c) && SoundKey(s0.key, c, sg)
    ensures OnlyMoney(s0, Secured(s0, a, c, sg))
  {
    DepthFrame(s0, a);
    var s1 := WithDepth(s0, a.status, a.tip);
    PollFrame(s1, a, c);
    var s2 := Polled(s1, a, c);
    SignFrame(s2, a, c, sg);
    hide WithDepth, Polled, Presigned, SoundKey, Digests;
  }

  lemma DepthFrame(s: Swap, a: Answers)
    ensures OnlyMoney(s, WithDepth(s, a.status, a.tip))
  {
    hide DepthOf;
  }

  lemma PollFrame(s: Swap, a: Answers, c: Crypto)
    requires Digests(c)
    ensures OnlyMoney(s, Polled(s, a, c))
  {
    hide BindingOf, ContractPkScript;
  }

  lemma SignFrame(s: Swap, a: Answers, c: Crypto, sg: Signatures)
    requires Digests(c) && SoundKey(s.key, c, sg)
    ensures OnlyMoney(s, Presigned(s, a, c, sg))
  {
    hide SoundKey, Digests, RefundOf, BindingOf, ContractPkScript, RateOr;
  }

  lemma SettlingFrame(sw: Swap, a: Answers, c: Crypto)
    requires Digests(c)
    ensures var s0 := Settling(sw, a, c);
            && s0.(funding := sw.funding, state := sw.state, refundTx := sw.refundTx) == sw
            && s0.state == if sw.funding.None? && s0.funding.Some? then Funded else sw.state
  {
    hide Picked, BindingOf, ContractPkScript, FundingIsOpen, Digests;
  }

  /** A refresh as its two halves. */
  lemma RefreshIs(sw: Swap, a: Answers, c: Crypto, sg: Signatures)
    requires Digests(c) && SoundKey(sw.key, c, sg) && Refresh(sw, a, c, sg).Saved?
    ensures Settling(sw, a, c).key == sw.key
    ensures Refresh(sw, a, c, sg).swap
         == WatchedClock(WatchedUnlock(WatchedSpend(Secured(Settling(sw, a, c), a, c, sg), a, c), a), a)
  {
    SettlingFrame(sw, a, c);
    hide Looked, FundingIsOpen, WithDepth, Polled, Presigned, WatchedSpend, WatchedUnlock, WatchedClock, SoundKey, Digests;
  }

  // ---------- the secret, and how the funding was spent ----------

  /** The node reported a transaction as the one that spent this output, served it, and it does. */
  ghost predicate ReportedSpend(o: OutPoint, a: Answers) {
    && a.spentBy.Some? && a.raw(Spending, a.spentBy.value).Some?
    && exists input :: input in a.raw(Spending, a.spentBy.value).value.inputs && input.outpoint == o
  }

  /** That transaction pushes a preimage of the hash. */
  ghost predicate SpendReveals(a: Answers, hash: Bytes, p: Bytes, c: Crypto) {
    && a.spentBy.Some? && a.raw(Spending, a.spentBy.value).Some?
    && Revealed(SigScripts(a.raw(Spending, a.spentBy.value).value.inputs), hash, c, p)
  }

  /** The saved record is still open and a spend of its funding was reported. */
  ghost predicate SpendSeen(sw: Swap, y: Swap, a: Answers) {
    sw.state != Redeemed && sw.state != Refunded && y.funding.Some? && ReportedSpend(y.funding.value.outpoint, a)
  }

  /** This side is the one the preimage comes to over Zenon, it has none, and the search finds this one. */
  predicate UnlockFound(sw: Swap, a: Answers, p: Bytes) {
    sw.role == Participant && sw.leg == Receive && sw.secret == [] && a.search(sw.secretHash) == Some(p)
  }

  /** The second half of a refresh: the record as it is after the spend, the unlock and the clock were looked at. */
  ghost function Watching(s: Swap, a: Answers, c: Crypto): Swap {
    WatchedClock(WatchedUnlock(WatchedSpend(s, a, c), a), a)
  }

  lemma WatchingFrame(s: Swap, a: Answers, c: Crypto)
    ensures var y := Watching(s, a, c);
            && y.(state := s.state, secret := s.secret, zenon := s.zenon) == s
            && y.zenon.(unlockSeen := s.zenon.unlockSeen) == s.zenon
  {
    SpendFrame(s, a, c);
    var spent := WatchedSpend(s, a, c);
    UnlockFrame(spent, a);
    var unlocked := WatchedUnlock(spent, a);
    ClockFrame(unlocked, a);
    hide WatchedSpend, WatchedUnlock, WatchedClock;
  }

  lemma SpendFrame(s: Swap, a: Answers, c: Crypto)
    ensures var y := WatchedSpend(s, a, c);
            y.(state := s.state, secret := s.secret) == s
  {
    hide ExtractSecret, SigScripts, SpendsOutput;
  }

  lemma UnlockFrame(s: Swap, a: Answers)
    ensures var y := WatchedUnlock(s, a);
            y.(secret := s.secret, zenon := s.zenon) == s && y.zenon.(unlockSeen := s.zenon.unlockSeen) == s.zenon
  {
  }

  lemma ClockFrame(s: Swap, a: Answers)
    ensures WatchedClock(s, a).(state := s.state) == s
  {
  }

  /** Nothing was spent as far as this refresh can tell: only the search and the clock count. */
  lemma WatchingUnspent(s: Swap, a: Answers, c: Crypto)
    requires !SpendSeen(s, s, a)
    ensures var y := Watching(s, a, c);
            && (forall p :: UnlockFound(s, a, p) ==> y.secret == p && y.zenon.unlockSeen)
            && ((forall p :: !UnlockFound(s, a, p)) ==> y.secret == s.secret && y.zenon == s.zenon)
            && y.state == if s.state == Funded && a.now >= s.lockTime then Expired else s.state
  {
    assert WatchedSpend(s, a, c) == s;
    hide WatchedSpend;
    assert SecretArrivesOnZenon(s) && s.secret == [] && a.search(s.secretHash).Some? ==>
      UnlockFound(s, a, a.search(s.secretHash).value);
  }

  /** A spend was seen: a redeem exactly when it pushes a preimage. */
  lemma WatchingSpent(s: Swap, a: Answers, c: Crypto)
    requires SpendSeen(s, s, a)
    ensures var y := Watching(s, a, c);
            && y.state == (if exists p :: SpendReveals(a, s.secretHash, p, c) then Redeemed else Refunded)
            && (s.secret != [] ==> y.secret == s.secret && y.zenon == s.zenon)
            && (s.secret == [] ==> y.secret == [] || SpendReveals(a, s.secretHash, y.secret, c) || UnlockFound(s, a, y.secret))
            && (s.secret == [] && (exists p :: SpendReveals(a, s.secretHash, p, c)) ==>
                  SpendReveals(a, s.secretHash, y.secret, c) || UnlockFound(s, a, y.secret))
            && (forall p :: UnlockFound(s, a, p) ==> SpendReveals(a, s.secretHash, y.secret, c) || y.secret == p)
            && (y.zenon != s.zenon ==> UnlockFound(s, a, y.secret) && y.zenon.unlockSeen)
  {
    var tx := a.raw(Spending, a.spentBy.value);
    ExtractSecretExactly(SigScripts(tx.value.inputs), s.secretHash, c);
    var spent := WatchedSpend(s, a, c);
    assert spent == Absorbed(s, tx, c);
    assert spent.state == (if exists p :: SpendReveals(a, s.secretHash, p, c) then Redeemed else Refunded) by {
      forall p ensures SpendReveals(a, s.secretHash, p, c) <==> Revealed(SigScripts(tx.value.inputs), s.secretHash, c, p) {}
    }
    hide ExtractSecret, SigScripts, Revealed, WatchedSpend;
  }

  lemma SpentStays(sw: Swap, a: Answers, c: Crypto)
    requires Digests(c) && (sw.state == Redeemed || sw.state == Refunded)
    ensures Settling(sw, a, c) == sw
  {
  }

  /** The record watched is the saved one in everything watching looks at. */
  lemma WatchedRecord(sw: Swap, a: Answers, c: Crypto, sg: Signatures) returns (s: Swap)
    requires Digests(c) && SoundKey(sw.key, c, sg) && Refresh(sw, a, c, sg).Saved?
    ensures var y := Refresh(sw, a, c, sg).swap;
            && y == Watching(s, a, c)
            && s.(funding := sw.funding, state := sw.state, refundTx := sw.refundTx) == sw
            && y.funding == s.funding && y.refundTx == s.refundTx
            && s.state == (if sw.funding.None? && y.funding.Some? then Funded else sw.state)
            && (SpendSeen(s, s, a) <==> SpendSeen(sw, y, a))
            && (forall p :: UnlockFound(s, a, p) <==> UnlockFound(sw, a, p))
  {
    RefreshIs(sw, a, c, sg);
    SettlingFrame(sw, a, c);
    SecuredFrame(Settling(sw, a, c), a, c, sg);
    s := Secured(Settling(sw, a, c), a, c, sg);
    WatchingFrame(s, a, c);
    if sw.state == Redeemed || sw.state == Refunded { SpentStays(sw, a, c); }
    hide Settling, Secured, Refresh, WatchedClock, WatchedUnlock, WatchedSpend, SoundKey, Digests, ReportedSpend;
  }

  /**
   What a refresh learns about the secret. A participant the search finds the preimage for ends with a preimage,
   and with that one, seen on Zenon, unless a spend of the funding was reported; a secret the record has is never
   replaced; and a secret or a sighting that is new came from exactly one of these two places.
   */
  lemma RefreshLearnsSecret(sw: Swap, a: Answers, c: Crypto, sg: Signatures)
    requires Digests(c) && SoundKey(sw.key, c, sg) && SoundSearch(a.search, c) && Refresh(sw, a, c, sg).Saved?
    ensures var y := Refresh(sw, a, c, sg).swap;
            forall p :: sw.role == Participant && sw.leg == Receive && sw.secret == [] && a.search(sw.secretHash) == Some(p) ==>
              && c.sha256(y.secret) == sw.secretHash
              && (!SpendSeen(sw, y, a) ==> y.secret == p && y.zenon.unlockSeen)
    ensures var y := Refresh(sw, a, c, sg).swap;
            sw.secret == [] && SpendSeen(sw, y, a) && (exists p :: SpendReveals(a, sw.secretHash, p, c)) ==>
              c.sha256(y.secret) == sw.secretHash
    ensures var y := Refresh(sw, a, c, sg).swap;
            && (sw.secret != [] ==> y.secret == sw.secret)
            && (y.secret != sw.secret ==>
                  UnlockFound(sw, a, y.secret) || (SpendSeen(sw, y, a) && SpendReveals(a, sw.secretHash, y.secret, c)))
            && (y.zenon != sw.zenon ==> UnlockFound(sw, a, y.secret) && y.zenon == sw.zenon.(unlockSeen := true))
  {
    var y := Refresh(sw, a, c, sg).swap;
    var s := WatchedRecord(sw, a, c, sg);
    WatchingFrame(s, a, c);
    assert forall p :: SpendReveals(a, sw.secretHash, p, c) ==> c.sha256(p) == sw.secretHash;
    assert forall p :: UnlockFound(sw, a, p) ==> c.sha256(p) == sw.secretHash;
    hide Refresh, Watching, SoundKey, Digests, SoundSearch, SpendReveals;
    if SpendSeen(s, s, a) {
      WatchingSpent(s, a, c);
    } else {
      WatchingUnspent(s, a, c);
    }
    assert forall p :: sw.role == Participant && sw.leg == Receive && sw.secret == [] && a.search(sw.secretHash) == Some(p) ==>
      UnlockFound(sw, a, p);
    hide SpendSeen, UnlockFound;
  }

  /**
   The state a refresh saves: redeemed or refunded when a spend of the funding was reported, according to whether it
   pushes a preimage; otherwise funded once an output was adopted, and expired exactly from the locktime on.
   */
  lemma RefreshSaysHowItStands(sw: Swap, a: Answers, c: Crypto, sg: Signatures)
    requires Digests(c) && SoundKey(sw.key, c, sg) && Refresh(sw, a, c, sg).Saved?
    ensures var y := Refresh(sw, a, c, sg).swap;
            var began := if sw.funding.None? && y.funding.Some? then Funded else sw.state;
            y.state == if SpendSeen(sw, y, a) then (if exists p :: SpendReveals(a, sw.secretHash, p, c) then Redeemed else Refunded)
                       else if began == Funded && a.now >= sw.lockTime then Expired else began
  {
    var s := WatchedRecord(sw, a, c, sg);
    hide Refresh, Watching, SoundKey, Digests, SpendReveals;
    if SpendSeen(s, s, a) {
      WatchingSpent(s, a, c);
    } else {
      WatchingUnspent(s, a, c);
    }
    hide SpendSeen, UnlockFound;
  }

  // ---------- the funding ----------

  /** The contract's money is still open to a better output. */
  predicate StillLooking(sw: Swap) {
    && sw.state != Redeemed && sw.state != Refunded && sw.redeemTx.None?
    && (sw.funding.None? || sw.funding.value.value < sw.amountSats)
  }

  lemma SettlingTakes(sw: Swap, a: Answers, c: Crypto)
    requires Digests(c)
    ensures var s := Settling(sw, a, c);
            if StillLooking(sw) && a.utxos.Some? && exists u :: u in a.utxos.value && Improves(sw.funding, u)
            then s.funding.Some? && (exists u :: u in a.utxos.value && Adopts(s.funding.value, u))
                 && (forall u | u in a.utxos.value :: u.value <= s.funding.value.value)
            else s == sw
  {
    if a.utxos.Some? { PicksTheLargest(a.utxos.value, sw.amountSats); }
    hide Picked, ContractPkScript, ReadBinding;
    var s := Settling(sw, a, c);
    if StillLooking(sw) && a.utxos.Some? {
      var best := Picked(a.utxos.value, sw.amountSats);
      if Changes(sw, best) {
        assert Improves(sw.funding, best.value) && Adopts(s.funding.value, best.value);
      }
    }
  }

  /** A listed output worth more than what is recorded. */
  predicate Improves(f: Option<Funding>, u: Utxo) {
    u.value > 0 && (f.None? || u.value > f.value.value)
  }

  /** The saved funding is this listed output. */
  predicate IsOutput(f: Option<Funding>, u: Utxo) {
    f.Some? && f.value.outpoint == u.outpoint && f.value.value == u.value
  }

  /**
   While the contract does not hold the agreed amount, a refresh ends with the largest positive output listed as
   soon as one beats the recorded funding, and cannot be saved without a listing; otherwise the funding stays the
   output it was.
   */
  lemma RefreshTakesFunding(sw: Swap, a: Answers, c: Crypto, sg: Signatures)
    requires Digests(c) && SoundKey(sw.key, c, sg) && sw.contract != []
    ensures Refresh(sw, a, c, sg).Rejected? <==> StillLooking(sw) && a.utxos.None?
    ensures !Refresh(sw, a, c, sg).Rejected? ==>
              && Refresh(sw, a, c, sg).Saved?
              && var y := Refresh(sw, a, c, sg).swap;
                 if StillLooking(sw) && exists u :: u in a.utxos.value && Improves(sw.funding, u)
                 then (exists u :: u in a.utxos.value && IsOutput(y.funding, u))
                      && y.funding.Some? && (forall u | u in a.utxos.value :: u.value <= y.funding.value.value)
                 else SameOutput(sw.funding, y.funding)
  {
    assert FundingIsOpen(sw) <==> StillLooking(sw);
    hide FundingIsOpen, Looked, Watched;
    if Refresh(sw, a, c, sg).Saved? {
      RefreshIs(sw, a, c, sg);
      SettlingTakes(sw, a, c);
      var s0 := Settling(sw, a, c);
      SecuredFrame(s0, a, c, sg);
      WatchingFrame(Secured(s0, a, c, sg), a, c);
      var y := Refresh(sw, a, c, sg).swap;
      hide Settling, Secured, WatchedClock, WatchedUnlock, WatchedSpend, StillLooking, SoundKey, Digests;
      assert SameOutput(s0.funding, y.funding);
      forall u | u in (if a.utxos.Some? then a.utxos.value else []) && s0.funding.Some? && Adopts(s0.funding.value, u)
        ensures IsOutput(y.funding, u) {}
    }
  }

  // ---------- the binding and the refund ----------

  /** The transaction asked for, with an output there that pays this contract this value. */
  ghost predicate PaysContractAt(f: Funding, contract: Bytes, tx: Option<RawTx>, c: Crypto)
    requires Digests(c)
  {
    tx.Some? && tx.value.txid == f.outpoint.txid && f.outpoint.vout < |tx.value.outputs|
    && tx.value.outputs[f.outpoint.vout] == TxOut(f.value, ContractPkScript(contract, c))
  }

  /**
   A funding is bound as soon as one poll is answered with the transaction that pays this contract; and a bound
   funding of this side's own, with a destination recorded, never leaves a refresh without a refund whenever one can be
   built at the fee rate known then.
   */
  lemma RefreshKeepsRefund(b: Birth, sw: Swap, a: Answers, c: Crypto, sg: Signatures)
    requires Rec(b, sw, c, sg) && SoundSearch(a.search, c) && Refresh(sw, a, c, sg).Saved?
    ensures var y := Refresh(sw, a, c, sg).swap;
            && (y.funding.Some? && PaysContractAt(y.funding.value, sw.contract, a.raw(Polling, y.funding.value.outpoint.txid), c) ==>
                  y.funding.value.pkScript == Some(ContractPkScript(sw.contract, c)))
            && (sw.leg == Send && sw.destAddr != [] && y.funding.Some? && y.funding.value.pkScript.Some?
                && |sw.contract| < 0x1_0000
                && Spendable(sw.contract, y.funding.value, None, Some(sw.destAddr), if a.feeRate.Some? then a.feeRate.value else 2.0, c) ==>
                  y.refundTx.Some?)
  {
    RefreshKeeps(b, sw, a, c, sg);
    RefreshIs(sw, a, c, sg);
    SettlingFrame(sw, a, c);
    var s0 := Settling(sw, a, c);
    SecuredFrame(s0, a, c, sg);
    WatchingFrame(Secured(s0, a, c, sg), a, c);
    assert |sw.contract| < 0x1_0000 ==> sw.contract != [];
    SecuredBinds(s0, a, c, sg);
    ContractFitsKey(b, Refresh(sw, a, c, sg).swap, c, sg);
    SecuredSigns(s0, a, c, sg);
    hide Settling, Secured, WatchedClock, WatchedUnlock, WatchedSpend, Refresh, Rec, Spendable, RefundFits,
         ContractPkScript, Digests, SoundKey;
  }

  lemma ContractFitsKey(b: Birth, sw: Swap, c: Crypto, sg: Signatures)
    requires Rec(b, sw, c, sg)
    ensures sw.contract != [] && sw.leg == Send ==> RefundFits(sw.contract, sw.key)
    ensures sw.funding.Some? ==> sw.contract != []
    ensures sw.funding.Some? && sw.funding.value.pkScript.Some? ==> sw.funding.value.pkScript.value == ContractPkScript(sw.contract, c)
  {
    hide Parse, ContractPkScript;
  }

  lemma SecuredBinds(s0: Swap, a: Answers, c: Crypto, sg: Signatures)
    requires Digests(c) && SoundKey(s0.key, c, sg)
    ensures var s := Secured(s0, a, c, sg);
            s0.funding.Some? && PaysContractAt(s0.funding.value, s0.contract, a.raw(Polling, s0.funding.value.outpoint.txid), c) ==>
              s.funding.Some? && s.funding.value.pkScript.Some?
  {
    hide SoundKey, Digests, RefundOf, DepthOf, ContractPkScript, RateOr;
  }

  lemma SecuredSigns(s0: Swap, a: Answers, c: Crypto, sg: Signatures)
    requires Digests(c) && SoundKey(s0.key, c, sg)
    ensures var s := Secured(s0, a, c, sg);
            s0.leg == Send && s0.destAddr != [] && s.funding.Some? && s.funding.value.pkScript == Some(ContractPkScript(s0.contract, c))
            && |s0.contract| < 0x1_0000 && RefundFits(s0.contract, s0.key)
            && Spendable(s0.contract, s.funding.value, None, Some(s0.destAddr), if a.feeRate.Some? then a.feeRate.value else 2.0, c) ==>
              s.refundTx.Some?
  {
    hide SoundKey, Digests, DepthOf, ContractPkScript, SignedSpend, Parse, RefundFits, Spendable, ReadBinding;
  }

  // ---------- the depth ----------

  /**
   The depth of the saved funding, when its status was answered and it was not yet counted to six: mined or not as
   the status says, zero when not, and else the blocks from its own to the tip, cut at six.
   */
  lemma RefreshCountsDepth(sw: Swap, a: Answers, c: Crypto, sg: Signatures)
    requires Digests(c) && SoundKey(sw.key, c, sg) && Refresh(sw, a, c, sg).Saved? && a.status.Some?
    requires sw.funding.Some? ==> sw.funding.value.confirmations < 6
    ensures var y := Refresh(sw, a, c, sg).swap;
            y.funding.Some? ==>
              && y.funding.value.confirmed == a.status.value.confirmed
              && (!a.status.value.confirmed || a.status.value.height <= 0 ==> y.funding.value.confirmations == 0)
              && (a.status.value.confirmed && 0 < a.status.value.height && a.tip.Some? && a.status.value.height <= a.tip.value ==>
                    var blocks := a.tip.value - a.status.value.height + 1;
                    y.funding.value.confirmations == if blocks < 6 then blocks else 6)
  {
    RefreshIs(sw, a, c, sg);
    SettlingFrame(sw, a, c);
    SettlingTakes(sw, a, c);
    var s0 := Settling(sw, a, c);
    SecuredCounts(s0, a, c, sg);
    WatchingFrame(Secured(s0, a, c, sg), a, c);
    hide Settling, Secured, WatchedClock, WatchedUnlock, WatchedSpend, Refresh, Digests, SoundKey, StillLooking;
  }

  lemma SecuredCounts(s0: Swap, a: Answers, c: Crypto, sg: Signatures)
    requires Digests(c) && SoundKey(s0.key, c, sg)
    ensures var s := Secured(s0, a, c, sg);
            s.funding.Some? ==> WithDepth(s0, a.status, a.tip).funding.Some?
                                && s.funding.value.confirmed == WithDepth(s0, a.status, a.tip).funding.value.confirmed
                                && s.funding.value.confirmations == WithDepth(s0, a.status, a.tip).funding.value.confirmations
  {
    hide SoundKey, Digests, RefundOf, BindingOf, ContractPkScript, RateOr, WithDepth;
  }
}
