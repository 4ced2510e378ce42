/**
 Which HTLC entry a stored verdict is about. The record does not say, so it is followed beside the
 record here: it is the id that was last verified (wasm/manager.go, wasm/walletblock.go).
 */
module VerdictSubject {
  import Contract
  import opened Engine
  import opened Spend
  import opened SwapRecord
  import opened FundingWatch
  import opened Moves
  import opened ZenonVerify
  import opened ZenonMoves
  import opened RecordLaw
  import opened RecordSteps
  import opened Runs
  import opened Manager

  /** The id the verdict is about after an operation: an entry that was read and judged, or the one before. */
  function SubjectAfter(op: Op, about: string): string {
    if op.OpVerify? && op.htlcId != "" && op.node.entry.FoundEntry? then op.htlcId else about
  }

  /** A standing verdict is about the entry on the record. */
  predicate OwnVerdict(sw: Swap, about: string) {
    sw.zenon.verified ==> about == sw.zenon.htlcId
  }

  /** The operation names another entry without judging it. */
  predicate Renames(op: Op, sw: Swap) {
    || (op.OpWalletSent? && op.action == CreateCall && op.hash != sw.zenon.htlcId)
    || (op.OpVerify? && op.node.entry.NoEntry? && op.htlcId != sw.zenon.htlcId)
  }

  predicate SameVerdict(x: Swap, y: Swap) {
    y.zenon.verified == x.zenon.verified && y.zenon.htlcId == x.zenon.htlcId
  }

  /** A refresh never touches the verdict. */
  lemma RefreshKeepsVerdict(sw: Swap, a: Answers, c: Crypto, sg: Signatures)
    requires Digests(c) && SoundKey(sw.key, c, sg) && Refresh(sw, a, c, sg).Saved?
    ensures SameVerdict(sw, Refresh(sw, a, c, sg).swap)
  {
    hide Watched, Looked, FundingIsOpen, SoundKey, Digests;
    if FundingIsOpen(sw) {
      LookedKeepsVerdict(sw, a.utxos.value, a, c);
      WatchedKeepsVerdict(Looked(sw, a.utxos.value, a, c), a, c, sg);
    } else {
      WatchedKeepsVerdict(sw, a, c, sg);
    }
  }

  lemma LookedKeepsVerdict(sw: Swap, utxos: seq<Utxo>, a: Answers, c: Crypto)
    requires Digests(c)
    ensures SameVerdict(sw, Looked(sw, utxos, a, c)) && Looked(sw, utxos, a, c).key == sw.key
  {
    hide Picked, BindingOf, ContractPkScript;
  }

  lemma WatchedKeepsVerdict(s0: Swap, a: Answers, c: Crypto, sg: Signatures)
    requires Digests(c) && SoundKey(s0.key, c, sg)
    ensures SameVerdict(s0, Watched(s0, a, c, sg))
  {
    hide ReadBinding, BindingOf, RefundOf, DepthOf, ExtractSecret, SigScripts, SpendsOutput, ContractPkScript, SoundKey, Digests;
    var s1 := WithDepth(s0, a.status, a.tip);
    var s2 := Polled(s1, a, c);
    assert SameVerdict(s0, s2);
    var s3 := Presigned(s2, a, c, sg);
    assert SameVerdict(s2, s3);
    assert SameVerdict(s3, WatchedSpend(s3, a, c));
  }

  /**
   Exactly when an operation leaves a verdict about another entry standing: when the record was verified and
   the operation puts another id on it without judging that. Two operations can: recording a published
   create, and recovering the preimage of an entry that is gone. No other does, whatever it was told.
   */
  lemma VerdictOwnedExactly(b: Birth, sw: Swap, op: Op, about: string, c: Crypto, sg: Signatures)
    requires Rec(b, sw, c, sg) && OwnVerdict(sw, about) && Do(op, sw, c, sg).Saved?
    ensures OwnVerdict(Do(op, sw, c, sg).swap, SubjectAfter(op, about)) <==> !(sw.zenon.verified && Renames(op, sw))
  {
    assert VerdictRight(sw);
    hide Rec, VerifyZenon, WalletSent, SetZenonTerms, Refresh, SetPkh, Audit, MissingZenonTerms, GoodSpend;
    if op.OpVerify? {
      VerifyVerdict(sw, op.htlcId, op.node);
    } else if op.OpWalletSent? {
      WalletSentVerdict(sw, op.action, op.hash, op.from);
    } else {
      OthersKeepVerdict(b, sw, op, c, sg);
    }
  }

  /** An entry that was read is judged; a preimage recovered from one that is gone leaves the verdict as it was. */
  lemma VerifyVerdict(sw: Swap, id: string, n: NodeAnswers)
    requires VerifyZenon(sw, id, n).Saved?
    ensures var y := VerifyZenon(sw, id, n).swap;
            id != "" && y.zenon.htlcId == id && (n.entry.NoEntry? ==> y.zenon.verified == sw.zenon.verified)
  {
    hide Fits, FitsApartFromAmount, Expected;
  }

  lemma LoadedAsIs(sw: Swap)
    requires VerdictRight(sw)
    ensures WithdrawStaleVerdict(sw) == sw
  {
  }

  lemma ReadIsSaved(sw: Swap, id: string, n: NodeAnswers)
    ensures id != "" && n.entry.FoundEntry? ==> VerifyZenon(sw, id, n).Saved?
  {
  }

  lemma WalletSentVerdict(sw: Swap, action: WalletAction, hash: string, from: string)
    requires WalletSent(sw, action, hash, from).Saved?
    ensures var y := WalletSent(sw, action, hash, from).swap;
            y.zenon.verified == sw.zenon.verified && y.zenon.htlcId == if action == CreateCall then hash else sw.zenon.htlcId
  {
  }

  lemma OthersKeepVerdict(b: Birth, sw: Swap, op: Op, c: Crypto, sg: Signatures)
    requires Rec(b, sw, c, sg) && Do(op, sw, c, sg).Saved? && !op.OpVerify? && !op.OpWalletSent?
    ensures var y := Do(op, sw, c, sg).swap;
            SameVerdict(sw, y) || !y.zenon.verified
  {
    assert VerdictRight(sw);
    hide Rec, VerifyZenon, WalletSent, SetZenonTerms, Refresh, SetPkh, Audit, MissingZenonTerms, GoodSpend, BindingOf, ContractPkScript;
    if op.OpRefresh? {
      RefreshKeepsVerdict(sw, op.answers, c, sg);
    } else if op.OpSetPkh? || op.OpAudit? {
      BuildKeepsVerdict(sw, op, c, sg);
    } else if op.OpSetTerms? {
      SetTermsKeepTerms(sw, op.self, op.peer, op.amount, op.valid, op.decimals);
    }
  }

  lemma BuildKeepsVerdict(sw: Swap, op: Op, c: Crypto, sg: Signatures)
    requires Digests(c) && SoundKey(sw.key, c, sg) && Do(op, sw, c, sg).Saved? && (op.OpSetPkh? || op.OpAudit?)
    ensures SameVerdict(sw, Do(op, sw, c, sg).swap)
  {
    hide Contract.ContractScript, ContractPkScript, Contract.Parse, ContractTerms;
  }

  /**
   What the comment on recording a create promises is false of it: a record that carries a verdict keeps
   it for the id just published, which nobody has looked at. The result is a record like any other.
   */
  lemma StaleVerdictWitness(b: Birth, sw: Swap, hash: string, c: Crypto, sg: Signatures)
    requires Rec(b, sw, c, sg) && sw.zenon.verified && hash != "" && hash != sw.zenon.htlcId
    ensures WalletSent(sw, CreateCall, hash, "").Saved?
    ensures var y := WalletSent(sw, CreateCall, hash, "").swap;
            && Rec(b, y, c, sg) && Change(sw, y)
            && y.zenon.verified && y.zenon.htlcId == hash && !OwnVerdict(y, sw.zenon.htlcId)
  {
    hide Rec, Change;
    WalletSentKeeps(b, sw, CreateCall, hash, "", c, sg);
  }

  /** The subject of the verdict once a published create has been through all its steps. */
  function CreateSubject(about: string, hash: string, n: NodeAnswers): string {
    if n.entry.FoundEntry? then hash else about
  }

  /**
   ... and how long it keeps it. The check that follows settles it when the entry can be read. When it
   cannot, the record is left pending with the old verdict still standing; so, all steps done, the verdict
   is about the recorded entry exactly when there was none, the id is the one it was about, or the entry was read.
   */
  lemma CreateVerdictExactly(b: Birth, sw: Swap, hash: string, from: string, n: NodeAnswers, about: string, c: Crypto, sg: Signatures)
    requires Rec(b, sw, c, sg) && OwnVerdict(sw, about) && hash != ""
    ensures var y := CreateRecorded(sw, hash, from, n);
            && y.zenon.htlcId == hash
            && (OwnVerdict(y, CreateSubject(about, hash, n)) <==>
                  !sw.zenon.verified || hash == sw.zenon.htlcId || n.entry.FoundEntry?)
            && (n.entry.NoEntry? ==> y.zenon.verified == sw.zenon.verified)
            && (n.entry.NoEntry? && !n.entry.existed ==> y.zenon.verifyPending)
  {
    WalletSentKeepsTerms(sw, CreateCall, hash, from);
    WalletSentVerdict(sw, CreateCall, hash, from);
    hide Rec, VerifyZenon, MissingZenonTerms, TermsKept;
    var named := WalletSent(sw, CreateCall, hash, from).swap;
    LoadedAsIs(named);
    assert CreateRecorded(sw, hash, from, n) == if VerifyZenon(named, hash, n).Saved? then VerifyZenon(named, hash, n).swap
                                                else named.(zenon := named.zenon.(verifyPending := true));
    hide WalletSent, WithdrawStaleVerdict, VerdictRight, CreateRecorded;
    if VerifyZenon(named, hash, n).Saved? {
      VerifyVerdict(named, hash, n);
    } else {
      ReadIsSaved(named, hash, n);
    }
  }
}
