/** Every operation keeps the record law (wasm/manager.go, wasm/walletblock.go). */
module RecordSteps {
  import opened Prelude
  import opened Contract
  import opened Engine
  import opened Spend
  import opened TxBuild
  import opened SwapRecord
  import opened FundingWatch
  import opened Moves
  import opened ZenonMoves
  import opened Settle
  import opened Creation
  import opened RecordLaw
  import Fees
  import ZenonVerify

  // ---------- creation ----------

  lemma ParsedIsNotEmpty(contract: Bytes)
    requires Parse(contract).Parsed?
    ensures contract != [] && Buildable(Parse(contract).terms) && contract == ContractScript(Parse(contract).terms)
  {
    ParseExactly(contract, Parse(contract).terms);
    ContractLength(Parse(contract).terms);
  }

  lemma BuiltParses(t: Terms)
    requires Buildable(t)
    ensures ContractScript(t) != [] && Parse(ContractScript(t)) == Parsed(t)
  {
    ContractLength(t);
    ParseUndoesBuild(t);
  }

  /** Building the contract for the first time, or again before anything is staked, keeps the law. */
  lemma ContractBuiltKeeps(b: Birth, sw: Swap, c: Crypto, sg: Signatures)
    requires GoodBirth(b, c, sg) && BirthOf(sw) == b && Buildable(ContractTerms(sw))
    requires sw.state.Draft? || sw.state.Awaiting?
    requires sw.funding.None? && sw.refundTx.None? && sw.redeemTx.None? && SecretRight(sw, c) && VerdictRight(sw)
    ensures Rec(b, WithContract(sw, ContractScript(ContractTerms(sw)), c), c, sg)
  {
    BuiltParses(ContractTerms(sw));
    hide Parse, ContractScript;
    var y := WithContract(sw, ContractScript(ContractTerms(sw)), c);
    assert ContractTerms(y) == ContractTerms(sw);
    assert MissingZenonTerms(y) == MissingZenonTerms(sw);
  }

  lemma CreationKeeps(p: CreateParams, network: string, key: SwapKey, secret: Bytes, now: int, f: Formats, c: Crypto, sg: Signatures)
    requires Digests(c) && SoundKey(key, c, sg) && Creatable(p, network, now, f) && p.dest.value != []
    requires |secret| == SECRET_SIZE
    ensures var sw := NewSwap(p, key, secret, now, c);
            Rec(BirthOf(sw), sw, c, sg)
  {
    var sw := Drafted(p, key, secret, now, c);
    assert |key.pkh| == 20;
    hide ContractScript, Parse, PlanZenonLeg;
    if p.leg == Send && |p.counterpartyPkh| == 20 {
      assert Buildable(ContractTerms(sw));
      ContractBuiltKeeps(BirthOf(sw), sw, c, sg);
    }
  }

  // ---------- the contract ----------

  lemma SetPkhKeeps(b: Birth, sw: Swap, pkh: Bytes, c: Crypto, sg: Signatures)
    requires Rec(b, sw, c, sg) && SetPkh(sw, pkh, c).Saved?
    ensures var y := SetPkh(sw, pkh, c).swap;
            Rec(b, y, c, sg) && Change(sw, y)
  {
    SetPkhChanges(sw, pkh, c);
    var named := sw.(counterpartyPkh := pkh);
    assert MissingZenonTerms(named) == MissingZenonTerms(sw);
    assert sw.funding.None? && Buildable(ContractTerms(named));
    assert SetPkh(sw, pkh, c).swap == WithContract(named, ContractScript(ContractTerms(named)), c);
    hide ContractScript, Parse, Change, SetPkh, WithContract, ContractTerms;
    ContractBuiltKeeps(b, named, c, sg);
  }

  lemma SetPkhChanges(sw: Swap, pkh: Bytes, c: Crypto)
    requires Digests(c) && SetPkh(sw, pkh, c).Saved? && StageRight(sw)
    ensures Change(sw, SetPkh(sw, pkh, c).swap)
  {
    hide ContractScript, ContractTerms;
  }

  lemma AuditKeeps(b: Birth, sw: Swap, contract: Bytes, now: int, c: Crypto, sg: Signatures)
    requires Rec(b, sw, c, sg) && Audit(sw, contract, now, c).Saved?
    ensures var y := Audit(sw, contract, now, c).swap;
            Rec(b, y, c, sg) && Change(sw, y)
  {
    ParsedIsNotEmpty(contract);
    hide Parse, ContractScript;
    var t := Parse(contract).terms;
    var agreed := sw.(secretHash := t.secretHash, lockTime := t.lockTime, counterpartyPkh := t.pkhRefund);
    assert ContractTerms(agreed) == t;
    assert MissingZenonTerms(agreed) == MissingZenonTerms(sw);
    ContractBuiltKeeps(b, agreed, c, sg);
    var built := WithContract(agreed, contract, c);
    PlanKeeps(b, built, now, c, sg);
    AuditChanges(sw, contract, now, c);
  }

  lemma AuditChanges(sw: Swap, contract: Bytes, now: int, c: Crypto)
    requires Digests(c) && Audit(sw, contract, now, c).Saved? && StageRight(sw) && |sw.secretHash| == 32
    ensures Change(sw, Audit(sw, contract, now, c).swap)
  {
    hide Parse;
  }

  /** Planning the Zenon leg writes two durations and nothing else. */
  lemma PlanKeeps(b: Birth, sw: Swap, now: int, c: Crypto, sg: Signatures)
    requires Rec(b, sw, c, sg)
    ensures Rec(b, PlanZenonLeg(sw, now), c, sg) && Change(sw, PlanZenonLeg(sw, now))
  {
    var y := PlanZenonLeg(sw, now);
    assert y.zenon.(expirationSeconds := sw.zenon.expirationSeconds, expirationHours := sw.zenon.expirationHours) == sw.zenon;
    ZenonOnlyKeeps(b, sw, y, c, sg);
  }

  /** An operation on the Zenon half keeps the law when it keeps its terms and its verdict is earned. */
  lemma ZenonOnlyKeeps(b: Birth, sw: Swap, y: Swap, c: Crypto, sg: Signatures)
    requires Rec(b, sw, c, sg) && y == sw.(zenon := y.zenon)
    requires y.zenon.token == sw.zenon.token && TermsKept(sw, y) && VerdictRight(y)
    ensures Rec(b, y, c, sg) && Change(sw, y)
  {
    hide Parse, SpendAccepted, ContractPkScript, MissingZenonTerms, RecordedAmount;
  }

  /** An operation on the Bitcoin half keeps the law when each part it touches is right and only moves forward. */
  lemma BitcoinOnlyKeeps(b: Birth, sw: Swap, y: Swap, c: Crypto, sg: Signatures)
    requires Rec(b, sw, c, sg)
    requires y == sw.(state := y.state, secret := y.secret, funding := y.funding, refundTx := y.refundTx, redeemTx := y.redeemTx,
                      fundingBroadcast := y.fundingBroadcast, archived := y.archived)
    requires StageRight(y) && SecretRight(y, c) && FundingRight(y, c) && SpendsRight(y, c, sg)
    requires Rank(sw.state) <= Rank(y.state) && FundingGrows(sw, y)
    requires sw.secret != [] ==> y.secret != []
    requires sw.redeemTx.Some? ==> y.redeemTx.Some?
    requires sw.fundingBroadcast.Some? ==> y.fundingBroadcast.Some?
    ensures Rec(b, y, c, sg) && Change(sw, y)
  {
    hide Parse, GoodSpend, ContractPkScript;
    assert MissingZenonTerms(y) == MissingZenonTerms(sw);
    assert ContractTerms(y) == ContractTerms(sw);
  }

  // ---------- refreshing ----------

  lemma AdoptedKeeps(b: Birth, sw: Swap, utxos: seq<Utxo>, tx: Option<RawTx>, c: Crypto, sg: Signatures)
    requires Rec(b, sw, c, sg) && FundingIsOpen(sw) && sw.contract != []
    ensures var y := Adopted(sw, utxos, tx, c);
            Rec(b, y, c, sg) && Change(sw, y) && y.contract == sw.contract
  {
    PicksTheLargest(utxos, sw.amountSats);
    hide Parse, GoodSpend, ContractPkScript, Picked, ContractRight, VerdictRight, Change, WithBinding;
    var best := Picked(utxos, sw.amountSats);
    if Changes(sw, best) {
      var y := if sw.funding.None? then sw.(state := Funded, funding := Some(AsFunding(best.value)))
               else sw.(refundTx := None, funding := Some(AsFunding(best.value)));
      BitcoinOnlyKeeps(b, sw, y, c, sg);
      BindingKeeps(b, y, tx, c, sg);
      ChangeTransitive(sw, y, WithBinding(y, tx, c));
    } else {
      ChangeReflexive(sw);
    }
  }

  lemma DepthKeeps(b: Birth, sw: Swap, status: Option<TxStatus>, tip: Option<int>, c: Crypto, sg: Signatures)
    requires Rec(b, sw, c, sg)
    ensures var y := WithDepth(sw, status, tip);
            Rec(b, y, c, sg) && Change(sw, y) && y.contract == sw.contract
  {
    hide ContractRight, VerdictRight, GoodSpend, ContractPkScript, Change;
    BitcoinOnlyKeeps(b, sw, WithDepth(sw, status, tip), c, sg);
  }

  lemma BindingKeeps(b: Birth, sw: Swap, tx: Option<RawTx>, c: Crypto, sg: Signatures)
    requires Rec(b, sw, c, sg)
    ensures var y := WithBinding(sw, tx, c);
            Rec(b, y, c, sg) && Change(sw, y) && y.contract == sw.contract
  {
    hide ContractRight, VerdictRight, GoodSpend, ContractPkScript, Change, ReadBinding;
    BitcoinOnlyKeeps(b, sw, WithBinding(sw, tx, c), c, sg);
  }

  /** A refund built from a record is a good spend of its funding. */
  lemma RefundIsGood(b: Birth, sw: Swap, dest: Bytes, rate: real, c: Crypto, sg: Signatures)
    requires Rec(b, sw, c, sg) && sw.funding.Some? && RefundOf(sw, dest, rate, c, sg).Some?
    ensures GoodSpend(sw.contract, sw.funding.value.outpoint, dest, RefundOf(sw, dest, rate, c, sg).value, c, sg)
    ensures RefundOf(sw, dest, rate, c, sg).value.tx.lockTime == sw.lockTime
  {
    ParsedIsNotEmpty(sw.contract);
    var t := Parse(sw.contract).terms;
    ContractIsPlain(t);
    BuiltRefundAccepted(t, sw.funding.value, sw.key, dest, rate, c, sg);
    hide Parse, SpendAccepted, SpendVSize, Fees.FeeFor, SigScript;
  }

  lemma RedeemIsGood(b: Birth, sw: Swap, dest: Bytes, rate: real, c: Crypto, sg: Signatures)
    requires Rec(b, sw, c, sg) && sw.funding.Some? && RedeemOf(sw, dest, rate, c, sg).Some?
    ensures GoodSpend(sw.contract, sw.funding.value.outpoint, dest, RedeemOf(sw, dest, rate, c, sg).value, c, sg)
  {
    ParsedIsNotEmpty(sw.contract);
    var t := Parse(sw.contract).terms;
    ContractIsPlain(t);
    BuiltRedeemAccepted(t, sw.funding.value, sw.key, sw.secret, dest, rate, c, sg);
    hide Parse, SpendAccepted, SpendVSize, Fees.FeeFor, SigScript;
  }

  lemma PresignedKeeps(b: Birth, sw: Swap, a: Answers, c: Crypto, sg: Signatures)
    requires Rec(b, sw, c, sg)
    ensures var y := Presigned(sw, a, c, sg);
            Rec(b, y, c, sg) && Change(sw, y) && y.contract == sw.contract
  {
    var tx := FundingTx(sw, a, Signing);
    BindingKeeps(b, sw, tx, c, sg);
    var bound := WithBinding(sw, tx, c);
    ChangeReflexive(sw);
    if WantsRefund(sw) && BindingOf(sw, tx, c) == Bound {
      var refund := RefundOf(bound, bound.destAddr, RateOr(a.feeRate), c, sg);
      if refund.Some? {
        RefundIsGood(b, bound, bound.destAddr, RateOr(a.feeRate), c, sg);
        StoredRefundKeeps(b, bound, refund.value, c, sg);
        hide RefundOf, Rec, Change, BindingOf, WithBinding;
        ChangeTransitive(sw, bound, bound.(refundTx := refund));
      }
    }
  }

  lemma StoredRefundKeeps(b: Birth, sw: Swap, refund: SpendResult, c: Crypto, sg: Signatures)
    requires Rec(b, sw, c, sg) && sw.funding.Some?
    requires GoodSpend(sw.contract, sw.funding.value.outpoint, sw.destAddr, refund, c, sg)
    ensures var y := sw.(refundTx := Some(refund));
            Rec(b, y, c, sg) && Change(sw, y) && y.contract == sw.contract
  {
    hide ContractRight, VerdictRight, GoodSpend, ContractPkScript, Change;
    BitcoinOnlyKeeps(b, sw, sw.(refundTx := Some(refund)), c, sg);
  }

  lemma AbsorbedKeeps(b: Birth, sw: Swap, tx: Option<RawTx>, c: Crypto, sg: Signatures)
    requires Rec(b, sw, c, sg) && sw.funding.Some? && !sw.state.Redeemed? && !sw.state.Refunded?
    ensures var y := Absorbed(sw, tx, c);
            Rec(b, y, c, sg) && Change(sw, y)
  {
    hide ContractRight, VerdictRight, GoodSpend, ContractPkScript, Change, SpendsOutput;
    if tx.Some? {
      ExtractSecretExactly(SigScripts(tx.value.inputs), sw.secretHash, c);
    }
    hide ExtractSecret, SigScripts;
    BitcoinOnlyKeeps(b, sw, Absorbed(sw, tx, c), c, sg);
  }

  lemma UnlockSeenKeeps(b: Birth, sw: Swap, a: Answers, c: Crypto, sg: Signatures)
    requires Rec(b, sw, c, sg) && SoundSearch(a.search, c)
    ensures Rec(b, WatchedUnlock(sw, a), c, sg) && Change(sw, WatchedUnlock(sw, a))
  {
    hide Parse, SpendAccepted, ContractPkScript;
    var y := WatchedUnlock(sw, a);
    assert MissingZenonTerms(y) == MissingZenonTerms(sw);
    assert ContractTerms(y) == ContractTerms(sw);
  }

  lemma ClockKeeps(b: Birth, sw: Swap, a: Answers, c: Crypto, sg: Signatures)
    requires Rec(b, sw, c, sg)
    ensures Rec(b, WatchedClock(sw, a), c, sg) && Change(sw, WatchedClock(sw, a))
  {
    hide ContractRight, VerdictRight, GoodSpend, ContractPkScript, Change;
    BitcoinOnlyKeeps(b, sw, WatchedClock(sw, a), c, sg);
  }

  lemma WatchedKeeps(b: Birth, s0: Swap, a: Answers, c: Crypto, sg: Signatures)
    requires Rec(b, s0, c, sg) && SoundSearch(a.search, c)
    ensures Rec(b, Watched(s0, a, c, sg), c, sg) && Change(s0, Watched(s0, a, c, sg))
  {
    var s1 := WithDepth(s0, a.status, a.tip);
    DepthKeeps(b, s0, a.status, a.tip, c, sg);
    var s2 := Polled(s1, a, c);
    BindingKeeps(b, s1, FundingTx(s1, a, Polling), c, sg);
    ChangeReflexive(s1);
    assert Rec(b, s2, c, sg) && Change(s1, s2);
    var s3 := Presigned(s2, a, c, sg);
    PresignedKeeps(b, s2, a, c, sg);
    var s4 := WatchedSpend(s3, a, c);
    if s3.funding.Some? && !s3.state.Redeemed? && !s3.state.Refunded? && a.spentBy.Some? {
      AbsorbedKeeps(b, s3, a.raw(Spending, a.spentBy.value), c, sg);
    } else {
      ChangeReflexive(s3);
    }
    var s5 := WatchedUnlock(s4, a);
    UnlockSeenKeeps(b, s4, a, c, sg);
    var s6 := WatchedClock(s5, a);
    ClockKeeps(b, s5, a, c, sg);
    hide Rec, Change, WithDepth, Polled, Presigned, WatchedSpend, WatchedUnlock, WatchedClock;
    ChangeTransitive(s0, s1, s2);
    ChangeTransitive(s0, s2, s3);
    ChangeTransitive(s0, s3, s4);
    ChangeTransitive(s0, s4, s5);
    ChangeTransitive(s0, s5, s6);
  }

  lemma RefreshKeeps(b: Birth, sw: Swap, a: Answers, c: Crypto, sg: Signatures)
    requires Rec(b, sw, c, sg) && SoundSearch(a.search, c) && Refresh(sw, a, c, sg).Saved?
    ensures var y := Refresh(sw, a, c, sg).swap;
            Rec(b, y, c, sg) && Change(sw, y)
  {
    hide Change, Watched, Adopted, FundingIsOpen, ContractRight, StageRight, SecretRight, FundingRight, SpendsRight, VerdictRight;
    if FundingIsOpen(sw) {
      var best := Picked(a.utxos.value, sw.amountSats);
      AdoptedKeeps(b, sw, a.utxos.value, if best.Some? then a.raw(Adopting, best.value.outpoint.txid) else None, c, sg);
      var s0 := Looked(sw, a.utxos.value, a, c);
      WatchedKeeps(b, s0, a, c, sg);
      ChangeTransitive(sw, s0, Watched(s0, a, c, sg));
    } else {
      WatchedKeeps(b, sw, a, c, sg);
    }
  }

  // ---------- the Zenon half and the small operations ----------

  lemma VerifyKeeps(b: Birth, sw: Swap, id: string, n: NodeAnswers, c: Crypto, sg: Signatures)
    requires Rec(b, sw, c, sg) && SoundSearch(n.search, c) && VerifyZenon(sw, id, n).Saved?
    ensures var y := VerifyZenon(sw, id, n).swap;
            Rec(b, y, c, sg) && Change(sw, y)
  {
    var y := VerifyZenon(sw, id, n).swap;
    assert MissingZenonTerms(y) == MissingZenonTerms(sw);
    if n.entry.FoundEntry? {
      assert y.zenon.verified ==> MissingZenonTerms(sw) == [];
      ZenonOnlyKeeps(b, sw, y, c, sg);
    } else {
      hide Parse, SpendAccepted, ContractPkScript, MissingZenonTerms, RecordedAmount, ZenonVerify.Fits;
      var secretOnly := sw.(secret := y.secret);
      SecretKeeps(b, sw, y.secret, c, sg);
      ZenonOnlyKeeps(b, secretOnly, y, c, sg);
      ChangeTransitive(sw, secretOnly, y);
    }
  }

  lemma SecretKeeps(b: Birth, sw: Swap, secret: Bytes, c: Crypto, sg: Signatures)
    requires Rec(b, sw, c, sg) && secret != [] && c.sha256(secret) == sw.secretHash
    requires sw.role == Initiator ==> |secret| == SECRET_SIZE
    ensures Rec(b, sw.(secret := secret), c, sg) && Change(sw, sw.(secret := secret))
    ensures MissingZenonTerms(sw.(secret := secret)) == MissingZenonTerms(sw)
  {
    hide Parse, SpendAccepted, ContractPkScript;
    var y := sw.(secret := secret);
    assert ContractTerms(y) == ContractTerms(sw);
  }

  lemma SetTermsKeeps(b: Birth, sw: Swap, self: string, peer: string, amount: string, valid: string -> bool,
                      decimals: Option<int>, c: Crypto, sg: Signatures)
    requires Rec(b, sw, c, sg) && SetZenonTerms(sw, self, peer, amount, valid, decimals).Saved?
    ensures var y := SetZenonTerms(sw, self, peer, amount, valid, decimals).swap;
            Rec(b, y, c, sg) && Change(sw, y)
  {
    var y := SetZenonTerms(sw, self, peer, amount, valid, decimals).swap;
    SetTermsKeepTerms(sw, self, peer, amount, valid, decimals);
    hide SetZenonTerms;
    ZenonOnlyKeeps(b, sw, y, c, sg);
  }

  lemma SetTermsKeepTerms(sw: Swap, self: string, peer: string, amount: string, valid: string -> bool, decimals: Option<int>)
    requires VerdictRight(sw) && SetZenonTerms(sw, self, peer, amount, valid, decimals).Saved?
    ensures var y := SetZenonTerms(sw, self, peer, amount, valid, decimals).swap;
            y == sw.(zenon := y.zenon) && y.zenon.token == sw.zenon.token && TermsKept(sw, y) && !y.zenon.verified
  {
  }

  lemma MismatchKeeps(b: Birth, sw: Swap, signer: string, c: Crypto, sg: Signatures)
    requires Rec(b, sw, c, sg)
    ensures var y := WalletMismatch(sw, signer).swap;
            Rec(b, y, c, sg) && Change(sw, y)
  {
    ZenonOnlyKeeps(b, sw, WalletMismatch(sw, signer).swap, c, sg);
  }

  lemma WalletSentKeeps(b: Birth, sw: Swap, action: WalletAction, hash: string, from: string, c: Crypto, sg: Signatures)
    requires Rec(b, sw, c, sg) && WalletSent(sw, action, hash, from).Saved?
    ensures var y := WalletSent(sw, action, hash, from).swap;
            Rec(b, y, c, sg) && Change(sw, y)
  {
    WalletSentKeepsTerms(sw, action, hash, from);
    hide WalletSent;
    ZenonOnlyKeeps(b, sw, WalletSent(sw, action, hash, from).swap, c, sg);
  }

  lemma WalletSentKeepsTerms(sw: Swap, action: WalletAction, hash: string, from: string)
    requires VerdictRight(sw) && WalletSent(sw, action, hash, from).Saved?
    ensures var y := WalletSent(sw, action, hash, from).swap;
            y == sw.(zenon := y.zenon) && y.zenon.token == sw.zenon.token && TermsKept(sw, y) && VerdictRight(y)
  {
  }

  lemma PendingKeeps(b: Birth, sw: Swap, c: Crypto, sg: Signatures)
    requires Rec(b, sw, c, sg)
    ensures var y := WalletPending(sw).swap;
            Rec(b, y, c, sg) && Change(sw, y)
  {
    ZenonOnlyKeeps(b, sw, WalletPending(sw).swap, c, sg);
  }

  lemma BroadcastKeeps(b: Birth, sw: Swap, txid: Bytes, c: Crypto, sg: Signatures)
    requires Rec(b, sw, c, sg)
    ensures var y := sw.(fundingBroadcast := Some(txid));
            Rec(b, y, c, sg) && Change(sw, y)
  {
    hide ContractRight, VerdictRight, GoodSpend, ContractPkScript, Change;
    BitcoinOnlyKeeps(b, sw, sw.(fundingBroadcast := Some(txid)), c, sg);
  }

  lemma ArchiveKeeps(b: Birth, sw: Swap, archived: bool, c: Crypto, sg: Signatures)
    requires Rec(b, sw, c, sg)
    ensures var y := sw.(archived := archived);
            Rec(b, y, c, sg) && Change(sw, y)
  {
    hide ContractRight, VerdictRight, GoodSpend, ContractPkScript, Change;
    BitcoinOnlyKeeps(b, sw, sw.(archived := archived), c, sg);
  }

  /** A good spend's outcome, on any record that still names its contract and output. */
  lemma SettledKeeps(b: Birth, sw: Swap, o: Outcome, c: Crypto, sg: Signatures)
    requires Rec(b, sw, c, sg) && SameSwap(sw, o) && GoodSpend(o.contract, o.outpoint, b.destAddr, o.spend, c, sg)
    ensures Rec(b, Settled(sw, o), c, sg) && Change(sw, Settled(sw, o))
  {
    hide ContractRight, VerdictRight, GoodSpend, ContractPkScript, Change;
    BitcoinOnlyKeeps(b, sw, Settled(sw, o), c, sg);
  }
}
