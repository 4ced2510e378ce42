# Ferry, verified

Ferry is the client side of an atomic swap between Bitcoin and Zenon. A Bitcoin contract and a Zenon
HTLC entry are bound by one hash; each browser keeps one record per swap, advances it by calls that
load it, decide on what the nodes answered and save it, and commits money only behind checks. This
project models that program in Dafny and proves what the checks are for.

## How the model is laid out

The contract script: `ScriptNum` (script numbers), `Script` (tokens, builder, tokenizer), `Contract`
(building and parsing), `Engine` (the opcodes a spend exercises, with SHA-256, HASH160 and signature
checking as parameters), `Spend` and `TxBuild` (signature scripts, secret extraction, the two spends).
CHECKLOCKTIMEVERIFY follows BIP-65, section "Summary"; pay-to-script-hash spends follow BIP-16,
section "Specification".

Arithmetic and searches: `Fees`, `Estimate`, `Decimal`, `HtlcAbi`, `LedgerSearch`, and `Board`, whose
tie rule is the one of NIP-01, section "Kinds".

One record: `SwapRecord` (fields and rules), `ZenonVerify` (judging an HTLC), `FundingWatch`, `Moves`,
`ZenonMoves`, `Settle`, `Creation`, `WalletPlan` (what each operation does, as imperative methods proved
against functions from the record and the answers to the record saved), `Absorb` (redeems and refunds
told apart), `RecordLaw` and `RecordSteps` (the record invariant, and what may change), `RefreshLearns` (what a
refresh must learn from the answers it gets).

Many calls: `Versioned` (version compare-and-set under any interleaving), `Store` (the store itself),
`Manager` (the operations as calls on the store, and the retry loop that saves an outcome), `Runs` (the
record law over every interleaved run), `VerdictSubject` (which HTLC entry a stored verdict is about).

Two chains: `Ledgers` (who may move what, when; Bitcoin outputs are spent by byte strings the script
engine accepts), `Protocol` and `InitiatorSafety` (cross-chain safety for the four combinations of role
and leg), `Exchange` (a committed exchange can run to its end), `PreimageSize` (exactly when a participant on
the receiving leg is safe, and exactly when its exchange can complete), `LosingRuns` (two interleavings in
which the counterparty ends with both legs), `Handshake` (two honest sides of one offer never refuse each
other).

`dafny verify dfyconfig.toml` checks everything.

## Assumptions

- Hash functions and signatures are parameters. `Digests` says digests have their lengths. Collision
  freedom is assumed only where a lemma names it (`NoOtherScript`, `OnlyPreimage`); `Unforged` says that
  nobody else signs with this side's key, `CannotGuess` that nobody else comes up with its secret.
- Node answers are inputs. Record-level results hold whatever a node says; the cross-chain results say
  where an answer has to be true of the chain (`TrueListing`, `VerifiedAt`, `UnlockPlanned`,
  `RedeemPlanned`).
- One clock in whole seconds stands for browser time, Bitcoin's median time and Zenon's momentum time.
- A Zenon entry is unlocked before its expiry by anybody with a preimage no longer than its key size, and
  reclaimed at or after it by its creator. A Bitcoin transaction with a locktime waits for it.
- A mined output stays mined; an unmined one may be replaced by its sender.

## Where the code falls short of the property

- Reading a script number indexes the top byte of its push, so parsing fails at run time on a template
  whose size or locktime is an empty push: exactly then (`Contract.CrashesExactly`).
- The time check multiplies seconds by 10^9 in 64 bits. It is exact within 292 years of now and sound for
  every entry the chain can hold; an expiry three centuries in the past, which only a node can invent,
  wraps round and passes (`ZenonVerify.AncientExpiryPasses`).
- A verification made before the Bitcoin contract is on the record does not check the order of the legs,
  and building the contract later leaves the verdict standing (`Protocol.OrderCheckedExactly`,
  `Protocol.EarlyVerdictWitness`, `Protocol.VerdictOutlivesBuild`). With such a verdict the counterparty can take
  its ZNN back at its expiry and redeem the Bitcoin before its locktime
  (`LosingRuns.EarlyVerdictTakesBothLegs`). Safety of a participant who sends Bitcoin therefore needs the
  verification to run with the contract on the record.
- A redeem is broadcast without asking for its funding to be mined. It is safe exactly when it is
  (`InitiatorSafety.RedeemSafeExactly`).
- An HTLC entry takes preimages of up to 32 bytes, the Bitcoin script only of exactly 32. A participant on
  the receiving leg is safe over every run if and only if no preimage of its hash of at most 32 bytes is
  shorter, or a 32-byte one is public already when it locks its ZNN (`PreimageSize.ReceivingSafeExactly`).
  Otherwise the initiator can unlock the ZNN with the short preimage, wait, and refund the Bitcoin
  (`LosingRuns.ShortPreimageTakesBothLegs`): before the locktime nobody at all can take a contract whose hash
  has no 32-byte preimage (`Ledgers.NobodyTakesBeforeLockTime`), and no exchange on one completes
  (`PreimageSize.CompletesExactly`). No guard of the program checks this, and none could: the initiator's
  secret is not known when the ZNN is locked. Nor does a short preimage get any further once it is public: the
  ledger search only ever looks at windows of 32 bytes (wasm/znn/ledger.go:321-333), and `SetSecret` refuses
  any other size (wasm/manager.go:925-935).
- Versions start over when a deleted id is imported again, so a call that loaded the deleted record can save
  over the import (`Versioned.ReimportLosesTheImport`). An import is harmless exactly when no call in flight
  holds an unsaved copy of that id, or one above the version of the document that is not the import itself
  (`Versioned.ImportSafeExactly`). Every interleaving without a harmful import is serializable.
- `handleWalletSent` records a create's id without touching `verified`, although its comment says the flag
  stays false until the chain agrees (wasm/walletblock.go:624-626): a record that already carried a verdict
  keeps it for the new id (`VerdictSubject.StaleVerdictWitness`), through the save that follows too when the
  entry cannot be read and the record is left pending. The verdict that is left is about the recorded entry
  exactly when there was none, the id did not change, or the entry was read
  (`VerdictSubject.CreateVerdictExactly`). Of all operations only this one and the recovery of a preimage from
  an entry that is gone can leave a verdict about another entry, and exactly when they change the id of a
  verified record (`VerdictSubject.VerdictOwnedExactly`).

## Model

| member | source | states |
|---|---|---|
| ScriptNum.DecodeEncode | wasm/htlc.go:327-355 | decoding a script number undoes its minimal encoding, for every integer |
| ScriptNum.EncodeDecode | wasm/htlc.go:361-373 | bytes that pass the minimality check are the one encoding of their number |
| ScriptNum.LockTimeWidth | wasm/htlc.go:327-355 | locktimes take four bytes up to 2038 and five from there |
| Script.TokenizeEmitAll | wasm/htlc.go:145-170 | reading a written script gives its tokens back |
| Script.EmitAllTokenize | wasm/htlc.go:145-170 | writing the tokens read from a script gives its bytes back |
| Contract.BuildContract | wasm/htlc.go:58-103 | succeeds exactly on well-sized hashes and a valid locktime, with the contract's bytes |
| Contract.ReadScriptNum | wasm/htlc.go:327-355 | the accumulating loop computes the decoded number, refuses, or fails on an empty push, as specified |
| Contract.ReadTokens | wasm/htlc.go:145-170 | the token loop reads the whole script, and refuses one longer than the template |
| Contract.ParseContract | wasm/htlc.go:145-230 | the parser computes Parse, the outcome the lemmas below are about |
| Contract.ParseUndoesBuild | wasm/htlc.go:145-230 | parsing any built contract returns its four terms |
| Contract.ParseExactly | wasm/htlc.go:145-230 | a script parses to terms if and only if it is, byte for byte, the contract built from them |
| Contract.ContractInjective | wasm/htlc.go:58-103 | two contracts are equal exactly when their terms are |
| Contract.CrashesExactly | wasm/htlc.go:350-350 | parsing fails at run time exactly on a template with an empty number push |
| Contract.CrashWitness | wasm/htlc.go:350-350 | a script on which it does |
| Contract.LongPushRefused | wasm/htlc.go:145-230 | the same terms under a longer push opcode are refused: only the builder's own bytes parse |
| Engine.ExactlyTwoWays | wasm/htlc.go:40-103 | for every stack and transaction, the contract runs to success if and only if it is redeemed or refunded as designed |
| Spend.RedeemSigScript | wasm/htlc.go:243-251 | the redeem signature script is the five pushes in their order |
| Spend.RefundSigScript | wasm/htlc.go:256-263 | the refund signature script is the four pushes in their order |
| Spend.ScanForSecret | wasm/htlc.go:268-281 | the two loops return the first push that hashes to the hash |
| Spend.ExtractSecretExactly | wasm/htlc.go:268-281 | a preimage is found exactly when some script pushes one, and what is found is one |
| Spend.RedeemAlwaysReveals | wasm/htlc.go:265-281 | however it was built, an accepted spend through the redeem branch makes extraction find a preimage |
| Spend.NeverLargerThanQuoted | wasm/txbuild.go:299-315 | a signed spend is never larger than the size its fee was quoted for |
| Spend.PkScriptHash | wasm/txbuild.go:264-270 | two contracts' output scripts are equal exactly when their hashes are |
| TxBuild.BuildSpend | wasm/txbuild.go:143-252 | succeeds with the signed transaction exactly when the spend is payable and the engine accepts it; it spends the funding to the destination, and its fee is the size at the asked rate to the nearest satoshi |
| TxBuild.BuildRedeem | wasm/txbuild.go:101-122 | succeeds exactly when key, secret and amount fit: the engine never refuses what it builds |
| TxBuild.BuildRefund | wasm/txbuild.go:128-139 | succeeds exactly when key and amount fit, with the contract's own locktime: the engine never refuses it |
| TxBuild.BuiltRedeemAccepted | wasm/txbuild.go:213-239 | every redeem built is a spend the network accepts |
| TxBuild.BuiltRefundAccepted | wasm/txbuild.go:213-239 | every refund built is a spend the network accepts |
| Fees.MaxViableFeeRate | wasm/txbuild.go:337-353 | returns the highest rate in hundredths between the relay minimum and the ceiling that leaves a non-dust output, zero when there is none, after at most one correction |
| Fees.FeeMonotone | wasm/txbuild.go:320-322 | a higher rate or a larger transaction never costs less |
| Estimate.EstimateSpendCost | wasm/estimate.go:152-216 | quotes both branches, the maximum rate and the verdict for these inputs |
| Estimate.QuotedIsCharged | wasm/estimate.go:152-216 | the quoted fee, size and viability are what building the spend computes, for every contract, destination and rate |
| Estimate.RedeemDecides | wasm/estimate.go:152-216 | an amount that clears the redeem clears the refund |
| Estimate.UnspendableExactly | wasm/estimate.go:219-252 | "unspendable" is said exactly when no rate the network relays works |
| Estimate.FineExactly | wasm/estimate.go:219-252 | "ok" is said exactly when the spend is viable at every rate up to the headroom rate |
| Estimate.TemplateSize | wasm/estimate.go:112-128 | a template quote differs from the built contract's only across 2038 |
| Decimal.NormalIdempotent | wasm/offerterms.go:129-150 | the normal form of an accepted amount is its own normal form |
| Decimal.NormalExactly | wasm/offerterms.go:129-150 | two accepted amounts have one normal form if and only if they are one number |
| Decimal.BaseUnitsExactly | wasm/manager.go:1666-1694 | conversion succeeds exactly when the token has the decimals, and yields value times 10^decimals |
| Decimal.BaseUnitsOfNormal | wasm/manager.go:1666-1694 | the normal form converts wherever the amount does, to the same number |
| Decimal.ZeroAmountExactly | wasm/swap.go:514-514 | only the number zero is a zero amount |
| Decimal.CanonicalExactly | wasm/swap.go:800-810 | an accepted amount is nothing, digits, or digits on both sides of one point |
| Decimal.ReadWritten | wasm/znn/client.go:479-486 | reading an integer amount gives back the number that was written, whatever its size and sign |
| HtlcAbi.LeftPad | wasm/znn/htlcabi.go:187-195 | the in-place copy fills the low-order end of a zero word |
| HtlcAbi.PackBytes | wasm/znn/htlcabi.go:206-212 | a dynamic argument is its length and its bytes padded to whole words |
| HtlcAbi.PackCreate | wasm/znn/htlcabi.go:131-154 | succeeds exactly on a 20-byte address, a hash lock and a positive expiry, with a call the contract reads as a create of these terms and as nothing else |
| HtlcAbi.PackUnlock | wasm/znn/htlcabi.go:159-172 | succeeds exactly on a 32-byte id and a preimage, with a call the contract reads as an unlock of this entry with this preimage and as nothing else |
| HtlcAbi.PackReclaim | wasm/znn/htlcabi.go:177-183 | succeeds exactly on a 32-byte id, with a call the contract reads as a reclaim of this entry and as nothing else |
| HtlcAbi.DecodePackedCreate | wasm/znn/htlcabi.go:131-154 | the contract, going by the method id, reads a packed create back as the terms it was packed from |
| HtlcAbi.DecodePackedUnlock | wasm/znn/htlcabi.go:159-172 | the contract, going by the method id, reads a packed unlock back as its id and preimage |
| HtlcAbi.DecodePackedReclaim | wasm/znn/htlcabi.go:177-183 | the contract, going by the method id, reads a packed reclaim back as its id |
| HtlcAbi.UnlockCarriesPreimage | wasm/znn/htlcabi.go:159-172 | the preimage sits in an unlock verbatim |
| LedgerSearch.ScanForPreimage | wasm/znn/ledger.go:321-333 | the sliding window loop returns the first window that hashes to the hash |
| LedgerSearch.ScanExactly | wasm/znn/ledger.go:321-333 | a window is found exactly when there is one, and it is a preimage |
| LedgerSearch.SearchBlockExactly | wasm/znn/ledger.go:299-315 | a block yields a preimage exactly when a call to the contract in it, or batched under it at any depth, carries one |
| LedgerSearch.PreimageFromSends | wasm/znn/ledger.go:197-216 | finds exactly what the searched pages of one address's own chain hold |
| LedgerSearch.PreimageFromContract | wasm/znn/ledger.go:236-273 | finds exactly what the receives the payee filter lets through lead to, unreadable callers skipped |
| LedgerSearch.FindPreimage | wasm/znn/ledger.go:171-194 | sound for any chain contents, and finds something exactly when one of the two searches can |
| LedgerSearch.PackedUnlockIsFound | wasm/znn/ledger.go:219-273 | a call built by PackUnlock, in a block answered within the searched pages or batched under one, paying the payee or with none given, is always there to find |
| LedgerSearch.CollectExactly | wasm/znn/ledger.go:389-404 | the shortlist is what was there before and the creates in the subtree, no more and no less |
| LedgerSearch.PackedCreateIsCollected | wasm/znn/ledger.go:389-404 | a call built by PackCreate for the hash is on the shortlist, at any depth under a searched block |
| LedgerSearch.FindHtlcCreates | wasm/znn/ledger.go:358-382 | exactly the creates committing to the hash on the searched pages, or an error when a page is not answered |
| Board.Reader.Accept | ui/src/core/composables/useBoard.ts:235-241 | taking one version in merges it into the list, the rest unchanged |
| Board.LessMeans | ui/src/core/composables/useBoard.ts:235-241 | event ids are ordered by the first character in which they differ |
| Board.HoldsNewest | ui/src/core/composables/useBoard.ts:235-248 | for every post it was told of, a reader holds the newest version, the lower id on ties |
| Board.Converges | ui/src/core/composables/useBoard.ts:235-248 | readers told of the same versions in any order, with any repeats, hold the same list |
| Board.MyPost.Republish | wasm/board_api.go:359-379 | a republished or withdrawn version is stamped after the one it replaces, whatever the clock says |
| Board.LastVersionWins | wasm/boardpost.go:398-430 | the author's last version is the one every reader told of all of them ends with |
| SwapRecord.SidesAgree | wasm/swap.go:317-327 | opposite roles on opposite legs agree which leg is the initiator's |
| SwapRecord.BuildSwapContract | wasm/swap.go:642-688 | succeeds exactly when the terms are complete, with each key in the branch its leg demands |
| SwapRecord.WholeHoursKeepGap | wasm/manager.go:128-146 | the nearest whole hour, given up only for the last one that keeps the gap between the legs |
| SwapRecord.PlanZenonLeg | wasm/manager.go:95-120 | plans an expiry a day from the locktime on the right side, only when there is room and no verified HTLC |
| SwapRecord.WithdrawStaleVerdict | wasm/swap.go:521-537 | no loaded record is verified with terms missing, and nothing else is touched |
| ZenonVerify.Verify | wasm/znn/client.go:421-519 | passes exactly when every check holds; incomplete exactly when only the amount could not be converted |
| ZenonVerify.TimeLeftIsReal | wasm/znn/client.go:488-496 | passing the time check means the time is left, for every entry the chain can hold |
| ZenonVerify.TimeLeftExactly | wasm/znn/client.go:488-496 | within 292 years the check is exact |
| ZenonVerify.AncientExpiryPasses | wasm/znn/client.go:488-496 | outside it the 64-bit product wraps, and an ancient expiry passes |
| FundingWatch.PickFunding | wasm/manager.go:842-864 | the scanning loop computes Picked |
| FundingWatch.PicksTheLargest | wasm/manager.go:842-864 | the chosen output is positive and largest, for any listing in any order |
| FundingWatch.BindFunding | wasm/manager.go:1066-1123 | a funding of unknown script is bound if and only if the transaction asked for was served and pays this contract the recorded value at the recorded output; a mismatch is told from an unread one; nothing but a binding changes the record |
| FundingWatch.AdoptFunding | wasm/manager.go:590-631 | the largest listed output is taken exactly when it beats the recorded one; that drops the refund signed for the old one and binds the new one if its transaction says so |
| FundingWatch.TrackFundingDepth | wasm/manager.go:769-793 | the depth stays between zero and six, is zero for a payment that is not mined, is otherwise the number of blocks up to the tip with its own counted, cut at six, and nothing else on the record moves |
| FundingWatch.AbsorbSpend | wasm/manager.go:869-913 | a transaction that spends the funding is filed as a redeem exactly when it pushes a preimage, and teaches it; as a refund otherwise; any other transaction changes nothing |
| Absorb.RedeemFiledAsRedeem | wasm/manager.go:869-913 | any accepted spend that is not a refund is filed as a redeem and teaches the secret |
| Absorb.BuiltRefundIsFiled | wasm/manager.go:897-903 | every refund BuildRefund makes is filed as a refund, for a hash with one preimage |
| Moves.SetCounterpartyPkh | wasm/manager.go:368-401 | rebuilds the contract for the key exactly when the terms are complete and nothing is staked on the one there is |
| Moves.AuditLegOrdering | wasm/manager.go:514-556 | a Bitcoin leg of the initiator's needs four hours; one of the participant's two hours and, when the initiator's entry is verified, the gap before its expiry |
| Moves.AuditLeavesRoom | wasm/manager.go:514-533 | as the participant, a contract is accepted exactly when an expiry for one's own leg still fits under it |
| Moves.AuditContract | wasm/manager.go:410-507 | accepts exactly a parsed contract for this key and hash, on a record nothing is staked on, whose locktime leaves the initiator's leg last with room to act |
| Moves.AuditKeepsOrder | wasm/manager.go:514-556 | a contract that otherwise qualifies is refused exactly when the time left is short or the initiator's own verified entry expires less than the gap after it |
| Moves.AuditRecords | wasm/manager.go:459-507 | an accepted contract puts its own four terms on the record, plans an expiry a day apart when there is room, and changes nothing else |
| Moves.PresignRefund | wasm/manager.go:661-683 | signs the refund of a bound funding to the fixed destination, and of no other |
| Moves.RefreshSwap | wasm/manager.go:563-739 | one refresh, from the answers it got to the record it saves; what that record must have learned is stated next |
| RefreshLearns.RefreshLearnsSecret | wasm/manager.go:685-716 | a participant whose unlocked ZNN the search finds ends with a preimage, with that one and the sighting unless a spend was reported; a secret is never replaced, and none comes from anywhere else |
| RefreshLearns.RefreshSaysHowItStands | wasm/manager.go:685-739 | the saved state, exactly: redeemed or refunded on a reported spend by what it pushes, else funded once an output is adopted, and expired from the locktime on |
| RefreshLearns.RefreshTakesFunding | wasm/manager.go:579-631 | while short of the amount it ends with the largest listed output as soon as one beats the recorded one, and fails exactly without a listing; otherwise the output stays |
| RefreshLearns.RefreshKeepsRefund | wasm/manager.go:633-683 | a poll that serves the transaction binds the funding, and a bound funding of this side's own never leaves a refresh without a refund whenever one can be built |
| RefreshLearns.RefreshCountsDepth | wasm/manager.go:633-637 | the saved depth is the one the status and the tip say, up to six |
| ZenonMoves.ZenonExpectations | wasm/manager.go:1301-1374 | expectations by role and leg, with the clock and the amount in base units or a refusal to check it |
| ZenonMoves.VerifyZenonHtlc | wasm/manager.go:1469-1573 | records the verdict and everything observed, never an agreed term; recovers the preimage of an unlocked entry exactly when this side is the one it comes to |
| ZenonMoves.VerdictExactly | wasm/manager.go:1301-1374 | an entry passes if and only if it is the one asked for, under this hash and token, between the recorded parties, with the agreed amount, two hours left, and on its own side of the locktime by the gap |
| ZenonMoves.PassingEntryPays | wasm/manager.go:1301-1336 | a passing entry has this hash, comes from the recorded counterparty, pays this side's payee at least the agreed amount of the agreed token, and has two hours left |
| ZenonMoves.PassingEntryIsOrdered | wasm/manager.go:1321-1334 | with the contract on the record, a passing entry expires on the right side of the locktime by the gap |
| ZenonMoves.CompleteZenonTerms | wasm/manager.go:1386-1462 | completes the terms step by step as the two results below say |
| ZenonMoves.TermsRefused | wasm/manager.go:1386-1462 | refused exactly when a term is neither left out, repeated, nor an acceptable value for a blank one |
| ZenonMoves.TermsRecorded | wasm/manager.go:1386-1462 | otherwise each term given is recorded, nothing else is, and a verdict reached without it is withdrawn |
| ZenonMoves.RecordWalletSent | wasm/walletblock.go:566-694 | only the account, the entry's id and the unlock's hash can change: an id is never lost, a recorded account gives way only to the one that signed, and a verdict is left as it was |
| VerdictSubject.VerdictOwnedExactly | wasm/walletblock.go:566-694 | over every operation and whatever it was told: the verdict left standing is about the recorded entry unless a verified record's id was changed without reading the new entry |
| VerdictSubject.StaleVerdictWitness | wasm/walletblock.go:611-640 | recording a create on a verified record leaves a lawful record that is verified for an id nobody has looked at |
| VerdictSubject.CreateVerdictExactly | wasm/walletblock.go:611-672 | after all the steps of recording a create the verdict is about the new entry if and only if there was none, the id did not change, or the entry could be read |
| Settle.PayoutAddress | wasm/manager.go:995-1010 | a recorded destination is the only one; a record without one takes the one asked for |
| Settle.PlanRedeem | wasm/manager.go:1137-1192 | refuses exactly behind its guards; what it plans spends this contract's bound funding to the recorded destination at the fee rate known |
| Settle.PlanRefund | wasm/manager.go:1225-1268 | refuses exactly behind its guards, the locktime among them; what it plans is the refund signed ahead, or one built now for this funding and destination |
| Settle.SettledKeepsTheRest | wasm/manager.go:1194-1206 | an outcome records its state and its transaction, a destination only where none was, and nothing else; twice is once |
| Creation.CheckCreate | wasm/offerterms.go:41-106 | the list of disagreements is empty exactly when the form answers the offer |
| Creation.Create | wasm/manager.go:180-364 | succeeds exactly on a complete, consistent form, with the record described next |
| Creation.CreatableExactly | wasm/manager.go:180-364 | what creation asks of a form, field by field; nothing else refuses one |
| Creation.NewSwapRecords | wasm/manager.go:180-364 | what it records: the form's terms, a locktime two days or one ahead by leg unless asked otherwise, the hash, and the contract at once when the other key is known |
| WalletPlan.CheckFundingOnChain | wasm/walletblock.go:733-771 | passes exactly when the output is still listed, covers the amount and is mined at least so deep below the tip |
| WalletPlan.RequireCounterLegFunding | wasm/walletblock.go:719-729 | waits for the counterparty's Bitcoin exactly on the leg that answers it |
| WalletPlan.PlanCreate | wasm/walletblock.go:222-353 | a create is built exactly behind its guards, and the contract reads it as a create for the agreed payee, hash and ordered expiry |
| WalletPlan.PlanUnlock | wasm/walletblock.go:357-427 | the preimage is packed exactly when the entry, read again, still fits complete terms, in a call the contract reads as the unlock of that entry |
| WalletPlan.PlanReclaim | wasm/walletblock.go:431-467 | built exactly for one's own entry not known to be unexpired, in a call the contract reads as its reclaim |
| WalletPlan.CreateAnswersRealMoney | wasm/walletblock.go:241-296 | ZNN is locked only against an unspent output of this contract, in a block at or below the tip, that covers the amount, under its locktime by the gap |
| WalletPlan.CreateOutlivesBitcoin | wasm/walletblock.go:286-296 | the initiator's own HTLC outlives the participant's contract by the gap |
| Store.SwapStore.Save | wasm/store.go:98-146 | writes exactly when the record is still at the version loaded, and nothing otherwise |
| Store.SwapStore.SaveIfAbsent | wasm/store.go:152-179 | writes exactly where there is no readable record, and says so |
| Store.SwapStore.Load | wasm/store.go:228-253 | returns the stored record with a stale verdict withdrawn |
| Store.SwapStore.Delete | wasm/store.go:184-200 | removes a record only if it carries no risk at that moment, or on a forced second answer |
| Store.SwapStore.Import | wasm/store.go:306-347 | every document is added, skipped or rejected until storage is full, where it stops; the store is the specified fold of the documents that were reached |
| Store.ImportNeverOverwrites | wasm/store.go:306-347 | a readable record is never overwritten, and whatever is added is one of the documents |
| Versioned.Serializable | wasm/store.go:98-146 | any interleaving of loads, saves, deletions and harmless imports leaves the store as running exactly the successful ones whole, in save order |
| Versioned.History | wasm/store.go:98-146 | no save puts an older copy back and no save revives a deleted record: between any two moments a record not deleted in between changed only as its decisions allow |
| Versioned.GoneForGood | wasm/store.go:119-126 | a deleted record stays deleted under any further calls until its id is imported |
| Versioned.ReimportLosesTheImport | wasm/store.go:152-179 | importing a deleted id under a call that loaded it breaks both, for every pair of records |
| Versioned.ImportSafeExactly | wasm/store.go:152-179 | an import of an id that is not stored leaves every continuation serializable if and only if no call in flight holds an unsaved copy of the id, or one above the version of the document other than the import itself |
| RecordSteps.CreationKeeps | wasm/manager.go:180-364 | every created record satisfies the record invariant |
| RecordSteps.AuditKeeps | wasm/manager.go:459-507 | an accepted contract parses to the record's own locktime, hash and keys, and nothing staked on changes |
| RecordSteps.RefreshKeeps | wasm/manager.go:563-739 | a refresh keeps the invariant, and moves state, funding and secret only forward |
| RecordSteps.RefundIsGood | wasm/manager.go:661-683 | a refund signed ahead spends the current funding to the fixed destination and the network accepts it at the locktime |
| Runs.DoKeeps | wasm/manager.go:368-1573 | every operation keeps the record invariant and changes a record only as allowed |
| Runs.PlannedRedeemIsGood | wasm/manager.go:1137-1192 | what a redeem is about to broadcast spends this record's funding to the fixed destination, accepted |
| Runs.PlannedRefundIsGood | wasm/manager.go:1225-1268 | what a refund is about to broadcast, signed ahead or now, spends this record's funding to the fixed destination, accepted |
| Runs.SuppliedSecretRedeems | wasm/manager.go:925-947 | a preimage handed in is taken exactly when it is a 32-byte preimage of the hash, which on the receiving leg is exactly when the contract can be redeemed with it |
| Runs.BroadcastFreezes | wasm/manager.go:795-822 | a payment recorded as sent is on the record, and from then on no other key rebuilds the contract |
| Runs.EveryRun | wasm/manager.go:563-739 | in every interleaved run from an empty store each created record obeys the invariant at every moment |
| Runs.ContractFreeze | wasm/swap.go:548-564 | once something is staked on the contract it stays so, and contract, address and locktime never change again, in every interleaved run |
| Runs.Progress | wasm/manager.go:827-911 | the state rank never falls, funded or later is having a funding, its value only grows, and one that covers the amount is final |
| Manager.Perform | wasm/manager.go:563-739 | an operation's save goes through exactly when no other call wrote the record meanwhile, and is then its decision on the newest record |
| Manager.PerformedIsLoadAndCommit | wasm/store.go:98-146 | a call performed on the store among others' turns does what its load, their loads, saves and deletions, and its save do as steps of the interleaving model |
| Manager.SaveOutcome | wasm/manager.go:1024-1049 | ends with the outcome's state and transaction on top of the newest record of the same funding and contract, every other field that record's own, or with the transaction id; up to three conflicting saves are survived |
| Manager.Redeem | wasm/manager.go:1137-1221 | a refused redeem leaves the store alone; after a recorded one the stored record is redeemed, with a transaction that spends its funding to its destination |
| Manager.Refund | wasm/manager.go:1225-1290 | a refused refund leaves the store alone; after a recorded one the stored record is refunded, with the refund signed ahead or one that spends its funding to its destination |
| Manager.WalletCreate | wasm/walletblock.go:611-672 | a published create's id is saved first, then its verdict, or pending when there is none yet |
| Ledgers.OthersCannotTake | wasm/htlc.go:40-103 | before the locktime nobody else can spend a contract this side redeems |
| Ledgers.TakingRevealsPreimage | wasm/htlc.go:40-103 | anybody else spending a contract this side refunds publishes the 32-byte preimage |
| Ledgers.NobodyTakesBeforeLockTime | wasm/htlc.go:40-103 | if no 32-byte string has the contract's hash, nobody can spend it before the locktime, its redeemer included |
| Protocol.ParticipantReceivingHoldsOpen | wasm/walletblock.go:241-296 | over every run: when this side's ZNN is claimed the preimage is public, and its Bitcoin is unspent and stays open for the gap; the preimage redeems it when it has 32 bytes |
| PreimageSize.ReceivingSafeExactly | wasm/walletblock.go:241-323 | over every run in which this side's ZNN is claimed it can redeem, or has, until the gap has passed, if and only if no preimage of at most 32 bytes is shorter or a 32-byte one was public at the lock |
| LosingRuns.ShortPreimageTakesBothLegs | wasm/walletblock.go:241-323 | from any lock the guards allow, with a preimage shorter than 32 bytes: a legal run that ends with the ZNN unlocked and the Bitcoin refunded |
| Protocol.ParticipantSendingIsSafe | wasm/manager.go:1301-1336 | over every run: when this side's Bitcoin is claimed before its locktime the preimage is public, and an entry that pays this side stands for the gap |
| Protocol.OrderCheckedExactly | wasm/manager.go:1321-1334 | a verdict covers the order of the legs exactly when the contract was on the record |
| Protocol.EarlyVerdictWitness | wasm/manager.go:1321-1334 | an entry that passes without the contract and expires before this side's own leg |
| Protocol.VerdictOutlivesBuild | wasm/manager.go:368-401 | building the contract leaves an earlier verdict as it was |
| LosingRuns.EarlyVerdictTakesBothLegs | wasm/manager.go:1321-1334 | with a verdict reached before the contract, for an entry that expires before it: a legal run from funding to an entry taken back and the Bitcoin redeemed |
| InitiatorSafety.OnlyWeExpose | wasm/walletblock.go:357-427 | over every run the secret becomes public only by this side's own act |
| InitiatorSafety.UnlockPaysOrHasPaid | wasm/walletblock.go:382-409 | a planned unlock goes through at any delay below two hours, or somebody else's has paid this side already |
| InitiatorSafety.InitiatorSendingIsSafe | wasm/walletblock.go:357-427 | over every run: the counterparty redeems this side's Bitcoin only after a planned unlock of an entry that pays the agreed amount |
| InitiatorSafety.RedeemPaysUntilLockTime | wasm/manager.go:1137-1221 | a planned redeem of a mined funding can be included at every moment before the locktime, and pays the full output less its fee |
| InitiatorSafety.InitiatorReceivingIsSafe | wasm/manager.go:1137-1221 | over every run: the counterparty learns the secret only after a planned redeem of an output that holds the agreed amount |
| InitiatorSafety.RedeemSafeExactly | wasm/manager.go:1137-1221 | the redeem is never lost before the locktime, in any run, if and only if its funding was mined when it was broadcast |
| InitiatorSafety.ReplacedFundingWitness | wasm/manager.go:1137-1221 | with an unmined funding, a run that publishes the secret and takes the coins away |
| Exchange.HonestExchangeCompletes | wasm/walletblock.go:222-353 | from any moment at which the guards let a participant lock its ZNN, and for every 32-byte preimage of its hash, a legal run ends with both claims made |
| PreimageSize.CompletesExactly | wasm/walletblock.go:222-353 | a committed exchange can complete before the locktime if and only if its hash has a 32-byte preimage |
| Handshake.OfferMakesHalves | wasm/offerterms.go:41-106 | a record created from an initiator's offer is the other half of the trade, and exactly one side creates the HTLC |
| Handshake.AuditAccepts | wasm/manager.go:410-507 | the sender's contract passes the receiver's audit, given crossed keys and time |
| Handshake.PkhAccepted | wasm/manager.go:368-401 | the sender can build the contract for the receiver's key |
| Handshake.PlannedLegStaysInOrder | wasm/manager.go:95-120 | the planned expiry stays ordered for a create within 22 hours of the audit |
| Handshake.VerifyAccepts | wasm/walletblock.go:280-326 | the HTLC one side's plan creates passes the other side's verification, given crossed addresses, representable amounts and time |
| Handshake.HalvesKept | wasm/offerterms.go:41-106 | whatever either side's calls do, the two records stay the two halves of one trade once the amount is on both |
| Handshake.OfferToVerdict | wasm/offerterms.go:41-106 | the whole way: the answering record is created from the offer, the sender builds for the receiver's key, the receiver's audit accepts, and the HTLC planned on that contract passes the other side's verification |

## Left out

- Swap records as shared objects: every call decodes a copy of its own from the store, so a loaded record is a
  value that methods update step by step in a local variable; only the store is an object.
- Trimming and letter case of typed text, hex and bech32: addresses, tokens, hashes and ids are compared as
  the values they stand for, and a Bitcoin address as the output script it pays.
- Network parameters and address checksums: one network, and creation is told whether an address is usable.
- The event log, error wording and everything shown on a card; errors are told apart only where callers do.
- JSON details: a stored value is a record or unreadable. A record that decodes but fails validation counts as
  readable.
- Records without a key, and imported or hand-edited records with other missing fields: outside the reachable
  states, which start at creation.
- Floating point: fees are exact rationals, and the maximum rate is an integer number of hundredths.
- Clocks below the second, and the difference between the three clocks.
- The 10,000-byte and 520-byte limits of the script builder, far above any contract built here.
- Comparing the block a wallet signed with the one proposed, field by field: its verdict is an input.
- FindZenonHtlc: its shortlist and its verification are modelled, the loop that joins them is not.
- walletsync.go and chainid.go: their gate is assumed when a plan is made.
- Handshake.AuditAccepts: for a receiver with nothing staked and no earlier verdict that contradicts the contract.
- Network clients, transports, sessions, presence, recovery files and the user interface.
