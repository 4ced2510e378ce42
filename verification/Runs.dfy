/**
 Runs of the whole application on its store: any number of calls, interleaved in any way, each
 loading a swap, deciding with whatever the nodes answered, and saving (wasm/manager.go, wasm/store.go).
 */
module Runs {
  import opened Prelude
  import opened Contract
  import opened Engine
  import opened Spend
  import opened TxBuild
  import opened SwapRecord
  import opened FundingWatch
  import opened Moves
  import opened ZenonMoves
  import opened Settle
  import opened RecordLaw
  import opened RecordSteps
  import opened Versioned

  /** One operation with everything it was told. OpOutcome is what a redeem or refund saves after its broadcast. */
  datatype Op =
    | OpSetPkh(pkh: Bytes)
    | OpAudit(contract: Bytes, now: int)
    | OpRefresh(answers: Answers)
    | OpVerify(htlcId: string, node: NodeAnswers)
    | OpSetTerms(self: string, peer: string, amount: string, valid: string -> bool, decimals: Option<int>)
    | OpWalletMismatch(signer: string)
    | OpWalletSent(action: WalletAction, hash: string, from: string)
    | OpWalletPending
    | OpBroadcast(txid: Bytes, validTxid: bool)
    | OpSetSecret(secret: Bytes)
    | OpArchive(archived: bool)
    | OpOutcome(outcome: Outcome, fundingTx: Option<RawTx>)

  ghost function Do(op: Op, sw: Swap, c: Crypto, sg: Signatures): Move
    requires Digests(c) && SoundKey(sw.key, c, sg)
  {
    match op
    case OpSetPkh(pkh) => SetPkh(sw, pkh, c)
    case OpAudit(contract, now) => Audit(sw, contract, now, c)
    case OpRefresh(a) => Refresh(sw, a, c, sg)
    case OpVerify(id, n) => VerifyZenon(sw, id, n)
    case OpSetTerms(self, peer, amount, valid, decimals) => SetZenonTerms(sw, self, peer, amount, valid, decimals)
    case OpWalletMismatch(signer) => WalletMismatch(sw, signer)
    case OpWalletSent(action, hash, from) => WalletSent(sw, action, hash, from)
    case OpWalletPending => WalletPending(sw)
    case OpBroadcast(txid, valid) => RecordFundingBroadcast(sw, txid, valid)
    case OpSetSecret(secret) => SetSecret(sw, secret, c)
    case OpArchive(archived) => Archive(sw, archived)
    case OpOutcome(o, tx) => if SameSwap(sw, o) then Saved(Settled(WithBinding(sw, tx, c), o)) else Rejected
  }

  /**
   What the world can make of an operation: a preimage search only finds preimages, and an outcome
   is of a spend this side built to its own destination; see PlannedRedeemIsGood.
   */
  ghost predicate Real(op: Op, b: Birth, c: Crypto, sg: Signatures) {
    match op
    case OpRefresh(a) => SoundSearch(a.search, c)
    case OpVerify(_, n) => SoundSearch(n.search, c)
    case OpOutcome(o, _) => GoodSpend(o.contract, o.outpoint, b.destAddr, o.spend, c, sg)
    case _ => true
  }

  lemma DoKeeps(b: Birth, sw: Swap, op: Op, c: Crypto, sg: Signatures)
    requires Rec(b, sw, c, sg) && Real(op, b, c, sg)
    ensures WithdrawStaleVerdict(sw) == sw
    ensures Rec(b, After(sw, Do(op, sw, c, sg)), c, sg) && Change(sw, After(sw, Do(op, sw, c, sg)))
  {
    assert WithdrawStaleVerdict(sw) == sw;
    ChangeReflexive(sw);
    hide Rec, Change, Do, WithdrawStaleVerdict;
    if Do(op, sw, c, sg).Saved? {
      if op.OpSetPkh? || op.OpAudit? || op.OpRefresh? || op.OpBroadcast? || op.OpSetSecret? || op.OpArchive? || op.OpOutcome? {
        DoBitcoinKeeps(b, sw, op, c, sg);
      } else {
        DoZenonKeeps(b, sw, op, c, sg);
      }
    }
  }

  lemma DoBitcoinKeeps(b: Birth, sw: Swap, op: Op, c: Crypto, sg: Signatures)
    requires Rec(b, sw, c, sg) && Real(op, b, c, sg) && Do(op, sw, c, sg).Saved?
    requires op.OpSetPkh? || op.OpAudit? || op.OpRefresh? || op.OpBroadcast? || op.OpSetSecret? || op.OpArchive? || op.OpOutcome?
    ensures Rec(b, Do(op, sw, c, sg).swap, c, sg) && Change(sw, Do(op, sw, c, sg).swap)
  {
    hide Rec, Change, SetPkh, Audit, Refresh, WithBinding, Settled, GoodSpend, SameSwap;
    match op
    case OpSetPkh(pkh) => SetPkhKeeps(b, sw, pkh, c, sg);
    case OpAudit(contract, now) => AuditKeeps(b, sw, contract, now, c, sg);
    case OpRefresh(a) => RefreshKeeps(b, sw, a, c, sg);
    case OpBroadcast(txid, _) => BroadcastKeeps(b, sw, txid, c, sg);
    case OpSetSecret(secret) => SecretKeeps(b, sw, secret, c, sg);
    case OpArchive(archived) => ArchiveKeeps(b, sw, archived, c, sg);
    case OpOutcome(o, tx) => OutcomeKeeps(b, sw, o, tx, c, sg);
  }

  lemma DoZenonKeeps(b: Birth, sw: Swap, op: Op, c: Crypto, sg: Signatures)
    requires Rec(b, sw, c, sg) && Real(op, b, c, sg) && Do(op, sw, c, sg).Saved?
    requires op.OpVerify? || op.OpSetTerms? || op.OpWalletMismatch? || op.OpWalletSent? || op.OpWalletPending?
    ensures Rec(b, Do(op, sw, c, sg).swap, c, sg) && Change(sw, Do(op, sw, c, sg).swap)
  {
    hide Rec, Change, VerifyZenon, SetZenonTerms, WalletSent, WalletMismatch, WalletPending;
    match op
    case OpVerify(id, n) => VerifyKeeps(b, sw, id, n, c, sg);
    case OpSetTerms(self, peer, amount, valid, decimals) => SetTermsKeeps(b, sw, self, peer, amount, valid, decimals, c, sg);
    case OpWalletMismatch(signer) => MismatchKeeps(b, sw, signer, c, sg);
    case OpWalletSent(action, hash, from) => WalletSentKeeps(b, sw, action, hash, from, c, sg);
    case OpWalletPending => PendingKeeps(b, sw, c, sg);
  }

  lemma OutcomeKeeps(b: Birth, sw: Swap, o: Outcome, tx: Option<RawTx>, c: Crypto, sg: Signatures)
    requires Rec(b, sw, c, sg) && SameSwap(sw, o) && GoodSpend(o.contract, o.outpoint, b.destAddr, o.spend, c, sg)
    ensures var y := Settled(WithBinding(sw, tx, c), o);
            Rec(b, y, c, sg) && Change(sw, y)
  {
    var bound := WithBinding(sw, tx, c);
    BindingKeeps(b, sw, tx, c, sg);
    assert SameSwap(bound, o);
    hide Change, Rec, GoodSpend, WithBinding, Settled;
    SettledKeeps(b, bound, o, c, sg);
    ChangeTransitive(sw, bound, Settled(bound, o));
  }

  /** A plan spends the record's own funding, of its own contract, to the fixed destination, and the network accepts it. */
  ghost predicate GoodPlan(b: Birth, sw: Swap, fundingTx: Option<RawTx>, plan: Plan, c: Crypto, sg: Signatures)
    requires Digests(c)
  {
    && plan.swap == WithBinding(sw, fundingTx, c)
    && SameSwap(sw, plan.outcome) && plan.outcome.dest == b.destAddr
    && GoodSpend(plan.outcome.contract, plan.outcome.outpoint, b.destAddr, plan.outcome.spend, c, sg)
  }

  /** What a redeem is about to broadcast spends this record's funding to the fixed destination, and is accepted. */
  lemma PlannedRedeemIsGood(b: Birth, sw: Swap, asked: Bytes, a: SpendAnswers, c: Crypto, sg: Signatures)
    requires Rec(b, sw, c, sg) && PlannedRedeem(sw, asked, a, c, sg).Some?
    ensures GoodPlan(b, sw, a.raw, PlannedRedeem(sw, asked, a, c, sg).value, c, sg)
  {
    var bound := WithBinding(sw, a.raw, c);
    BindingKeeps(b, sw, a.raw, c, sg);
    var rate := RateOr(a.feeRate);
    assert BirthOf(sw) == b && b.destAddr != [] && BirthOf(bound) == b;
    hide Rec, RedeemOf, BindingOf, GoodSpend, Change, RateOr, MissingZenonTerms;
    var plan := PlannedRedeem(sw, asked, a, c, sg).value;
    assert plan.swap == bound && plan.outcome.dest == b.destAddr;
    RedeemIsGood(b, bound, b.destAddr, rate, c, sg);
  }

  /** ... and so does the refund, signed ahead or only now. */
  lemma PlannedRefundIsGood(b: Birth, sw: Swap, asked: Bytes, a: SpendAnswers, c: Crypto, sg: Signatures)
    requires Rec(b, sw, c, sg) && PlannedRefund(sw, asked, a, c, sg).Some?
    ensures GoodPlan(b, sw, a.raw, PlannedRefund(sw, asked, a, c, sg).value, c, sg)
  {
    var bound := WithBinding(sw, a.raw, c);
    BindingKeeps(b, sw, a.raw, c, sg);
    hide RefundOf, BindingOf, ContractRight, VerdictRight, GoodSpend, FundingRight, StageRight, SecretRight;
    if bound.refundTx.None? {
      RefundIsGood(b, bound, b.destAddr, RateOr(a.feeRate), c, sg);
    }
  }

  /**
   A preimage handed in by the user: it is taken exactly when it is a 32-byte preimage of the hash, and then, on the leg
   that receives Bitcoin, it is what the contract is redeemed with.
   */
  lemma SuppliedSecretRedeems(b: Birth, sw: Swap, secret: Bytes, c: Crypto, sg: Signatures)
    requires Rec(b, sw, c, sg)
    ensures var m := Do(OpSetSecret(secret), sw, c, sg);
            && (m.Saved? <==> |secret| == 32 && c.sha256(secret) == sw.secretHash)
            && (m.Saved? ==> m.swap == sw.(secret := secret))
            && (sw.leg == Receive && sw.contract != [] ==> (m.Saved? <==> RedeemFits(sw.contract, sw.key, secret, c)))
  {
    hide Parse;
  }

  /** A payment to the contract, once recorded as sent, is on the record and freezes the contract: no other key rebuilds it. */
  lemma BroadcastFreezes(b: Birth, sw: Swap, txid: Bytes, pkh: Bytes, c: Crypto, sg: Signatures)
    requires Rec(b, sw, c, sg) && sw.leg == Send && sw.contract != [] && pkh != sw.counterpartyPkh
    ensures var y := After(sw, Do(OpBroadcast(txid, true), sw, c, sg));
            y == sw.(fundingBroadcast := Some(txid)) && SetPkh(y, pkh, c).Rejected?
    ensures Do(OpBroadcast(txid, false), sw, c, sg).Rejected?
  {
  }

  // ---------- the store ----------

  type Births = map<string, Birth>

  /** A call's decision is one operation on the record it loaded. */
  ghost predicate Performs(decide: Swap -> Swap, op: Op, b: Birth, c: Crypto, sg: Signatures) {
    forall x: Swap :: Rec(b, x, c, sg) ==> decide(x) == After(x, Do(op, WithdrawStaleVerdict(x), c, sg))
  }

  /** Records with a birth here are created here, only ever saved by operations, and never written by an import. */
  ghost predicate ManagedStep(sys: Sys<Swap>, step: Step<Swap>, births: Births, c: Crypto, sg: Signatures) {
    match step
    case Start(_, id, body) => id in births ==> Rec(births[id], body, c, sg)
    case Commit(call, decide) =>
      call in sys.calls && sys.calls[call].id in births ==>
        exists op :: Real(op, births[sys.calls[call].id], c, sg) && Performs(decide, op, births[sys.calls[call].id], c, sg)
    case Restore(id, _) => id in births ==> Present(sys.records, id)
    case _ => true
  }

  ghost predicate Managed(sys: Sys<Swap>, steps: seq<Step<Swap>>, births: Births, c: Crypto, sg: Signatures)
    decreases |steps|
  {
    steps == [] || (ManagedStep(sys, steps[0], births, c, sg) && Managed(Next(sys, steps[0]), steps[1..], births, c, sg))
  }

  ghost function SwapLaw(births: Births, c: Crypto, sg: Signatures): Law<Swap> {
    Law((id: string, x: Swap) => id in births ==> Rec(births[id], x, c, sg),
        (id: string, x: Swap, y: Swap) => id in births ==> Change(x, y))
  }

  lemma SwapLawIsLawful(births: Births, c: Crypto, sg: Signatures)
    ensures Lawful(SwapLaw(births, c, sg))
  {
    hide Change, Rec;
    var law := SwapLaw(births, c, sg);
    forall id: string, x: Swap ensures law.change(id, x, x) {
      ChangeReflexive(x);
    }
    forall id: string, x: Swap, y: Swap, z: Swap | law.change(id, x, y) && law.change(id, y, z) ensures law.change(id, x, z) {
      if id in births { ChangeTransitive(x, y, z); }
    }
  }

  lemma ManagedStepObeys(sys: Sys<Swap>, step: Step<Swap>, births: Births, c: Crypto, sg: Signatures)
    requires ManagedStep(sys, step, births, c, sg)
    ensures Obeys(sys, step, SwapLaw(births, c, sg))
  {
    hide Change, Rec, Do;
    if step.Commit? && step.call in sys.calls && sys.calls[step.call].id in births {
      var id, law := sys.calls[step.call].id, SwapLaw(births, c, sg);
      var op :| Real(op, births[id], c, sg) && Performs(step.decide, op, births[id], c, sg);
      forall x: Swap | law.inv(id, x) ensures law.inv(id, step.decide(x)) && law.change(id, x, step.decide(x)) {
        DoKeeps(births[id], x, op, c, sg);
      }
    }
  }

  lemma {:induction false} ManagedObeys(sys: Sys<Swap>, steps: seq<Step<Swap>>, births: Births, c: Crypto, sg: Signatures)
    requires Managed(sys, steps, births, c, sg)
    ensures AllObey(sys, steps, SwapLaw(births, c, sg))
    decreases |steps|
  {
    hide ManagedStep, Obeys, SwapLaw;
    if steps != [] {
      ManagedStepObeys(sys, steps[0], births, c, sg);
      ManagedObeys(Next(sys, steps[0]), steps[1..], births, c, sg);
    }
  }

  lemma {:induction false} ManagedImportsNone(sys: Sys<Swap>, steps: seq<Step<Swap>>, births: Births, id: string,
                                              c: Crypto, sg: Signatures)
    requires Managed(sys, steps, births, c, sg) && id in births
    ensures NoImportOf(sys, steps, id)
    decreases |steps|
  {
    hide Rec, Performs, Real, Next;
    if steps != [] {
      ManagedImportsNone(Next(sys, steps[0]), steps[1..], births, id, c, sg);
    }
  }

  /** A store with nothing in it. */
  function Empty(): Sys<Swap> {
    Sys(map[], map[], {})
  }

  /** A run from an empty store, cut at a moment of interest. */
  ghost predicate ManagedRun(before: seq<Step<Swap>>, later: seq<Step<Swap>>, births: Births, c: Crypto, sg: Signatures) {
    var mid := Exec(Empty(), before);
    && AllPermitted(Empty(), before) && AllPermitted(mid, later)
    && Managed(Empty(), before, births, c, sg) && Managed(mid, later, births, c, sg)
  }

  /**
   The record law over every run. Start from an empty store and let any calls run in any
   interleaving; whenever a swap created here is stored it obeys the invariant, and between any two
   moments at which it is stored it has only changed as the law allows.
   */
  lemma EveryRun(before: seq<Step<Swap>>, later: seq<Step<Swap>>, births: Births, id: string, c: Crypto, sg: Signatures)
    requires ManagedRun(before, later, births, c, sg) && id in births
    ensures var mid := Exec(Empty(), before);
            var end := Exec(mid, later);
            && (Present(end.records, id) ==> Rec(births[id], end.records[id].entry.body, c, sg))
            && (Present(mid.records, id) && Present(end.records, id) ==>
                  Change(mid.records[id].entry.body, end.records[id].entry.body))
  {
    hide Change, Rec, Managed, AllObey, Obeys;
    var law := SwapLaw(births, c, sg);
    SwapLawIsLawful(births, c, sg);
    ManagedObeys(Empty(), before, births, c, sg);
    History(Empty(), before, law, id);
    var mid := Exec(Empty(), before);
    Serializable(Empty(), before);
    ManagedObeys(mid, later, births, c, sg);
    ManagedImportsNone(mid, later, births, id, c, sg);
    History(mid, later, law, id);
  }

  /** The contract freeze, over every interleaved run. */
  lemma ContractFreeze(before: seq<Step<Swap>>, later: seq<Step<Swap>>, births: Births, id: string, c: Crypto, sg: Signatures)
    requires ManagedRun(before, later, births, c, sg)
    requires id in births && Present(Exec(Empty(), before).records, id) && Present(Exec(Exec(Empty(), before), later).records, id)
    ensures var x := Exec(Empty(), before).records[id].entry.body;
            var y := Exec(Exec(Empty(), before), later).records[id].entry.body;
            ContractCommitted(x) ==>
              ContractCommitted(y) && y.contract == x.contract && y.contractAddr == x.contractAddr && y.lockTime == x.lockTime
  {
    hide Exec, Rec, Managed, AllPermitted, ContractCommitted;
    EveryRun(before, later, births, id, c, sg);
  }

  /** Progress is monotone over every interleaved run, and a funding that covers the agreed amount is final. */
  lemma Progress(before: seq<Step<Swap>>, later: seq<Step<Swap>>, births: Births, id: string, c: Crypto, sg: Signatures)
    requires ManagedRun(before, later, births, c, sg)
    requires id in births && Present(Exec(Empty(), before).records, id) && Present(Exec(Exec(Empty(), before), later).records, id)
    ensures var x := Exec(Empty(), before).records[id].entry.body;
            var y := Exec(Exec(Empty(), before), later).records[id].entry.body;
            && Rank(x.state) <= Rank(y.state)
            && (x.funding.Some? <==> Rank(x.state) >= Rank(Funded)) && (y.funding.Some? <==> Rank(y.state) >= Rank(Funded))
            && (x.funding.Some? ==> y.funding.value.value >= x.funding.value.value)
            && (x.funding.Some? && x.funding.value.value >= x.amountSats ==> y.funding.value.outpoint == x.funding.value.outpoint)
  {
    EveryRun(before, later, births, id, c, sg);
    EveryRun([], before, births, id, c, sg);
    var x, y := Exec(Empty(), before).records[id].entry.body, Exec(Exec(Empty(), before), later).records[id].entry.body;
    hide Exec, ManagedRun, Present;
    LawGivesProgress(births[id], x, y, c, sg);
  }

  lemma LawGivesProgress(b: Birth, x: Swap, y: Swap, c: Crypto, sg: Signatures)
    requires Rec(b, x, c, sg) && Rec(b, y, c, sg) && Change(x, y)
    ensures Rank(x.state) <= Rank(y.state)
    ensures (x.funding.Some? <==> Rank(x.state) >= Rank(Funded)) && (y.funding.Some? <==> Rank(y.state) >= Rank(Funded))
    ensures x.funding.Some? ==> y.funding.Some? && y.funding.value.value >= x.funding.value.value
    ensures x.funding.Some? && x.funding.value.value >= x.amountSats ==> y.funding.value.outpoint == x.funding.value.outpoint
  {
    hide ContractRight, SpendsRight, FundingRight, VerdictRight, SecretRight, Frozen, TermsKept, GoodBirth;
  }
}
