/** Judging a Zenon HTLC against what was agreed (wasm/znn/client.go). */
module ZenonVerify {
  import opened Prelude
  import Decimal

  const HASH_TYPE_SHA256 := 1
  const MIN_KEY_SIZE := 32
  const NANOS := 1_000_000_000

  /** An HTLC entry as a node describes it; times are Unix seconds. */
  datatype HtlcInfo = HtlcInfo(id: string, timeLocked: string, hashLocked: string, token: string, amount: string,
                               expirationTime: int, hashType: int, keyMaxSize: int, hashLock: Bytes)

  /** What a swap expects of its HTLC. Blank strings, zero bounds and None switch a check off. */
  datatype Expectation = Expectation(secretHash: Bytes, id: string, token: string, recipient: string, sender: string,
                                     minAmount: Option<int>, missingTerms: seq<string>, amountUncheckable: bool,
                                     now: int, minRemaining: int, maxExpiration: int, minExpiration: int)

  datatype Problem =
    | MissingTerm(term: string)
    | WrongEntry
    | WrongToken
    | WrongHashType
    | KeyTooSmall
    | WrongHashLock
    | WrongRecipient
    | WrongSender
    | AmountUnchecked
    | AmountNotANumber
    | AmountShort
    | ExpiresTooSoon
    | ExpiresTooLate
    | ExpiresTooEarly

  /** A verdict. Incomplete refuses too, but asking again could still get a different answer. */
  datatype Verdict = Passed | Incomplete | Mismatch(problems: seq<Problem>)

  /** A 64-bit signed integer after wrap-around. */
  function Wrap64(x: int): (w: int)
    ensures -0x8000_0000_0000_0000 <= w < 0x8000_0000_0000_0000
    ensures -0x8000_0000_0000_0000 <= x < 0x8000_0000_0000_0000 ==> w == x
  {
    (x + 0x8000_0000_0000_0000) % 0x1_0000_0000_0000_0000 - 0x8000_0000_0000_0000
  }

  /** The time left as the program computes it, in nanoseconds. */
  function Left(expirationTime: int, now: int): int {
    Wrap64(Wrap64(expirationTime - now) * NANOS)
  }

  // Each predicate is one check.

  predicate NamesEntry(info: HtlcInfo, want: Expectation) {
    want.id != "" ==> info.id == want.id
  }

  predicate NamesToken(info: HtlcInfo, want: Expectation) {
    want.token != "" ==> info.token == want.token
  }

  predicate SameHashLock(info: HtlcInfo, want: Expectation) {
    want.secretHash != [] ==> info.hashLock == want.secretHash
  }

  predicate PaysRecipient(info: HtlcInfo, want: Expectation) {
    want.recipient != "" ==> info.hashLocked == want.recipient
  }

  predicate FromSender(info: HtlcInfo, want: Expectation) {
    want.sender != "" ==> info.timeLocked == want.sender
  }

  predicate HoldsAmount(info: HtlcInfo, want: Expectation) {
    want.minAmount.Some? ==>
      Decimal.ParseInteger(info.amount).Some? && Decimal.ParseInteger(info.amount).value >= want.minAmount.value
  }

  predicate TimeLeft(info: HtlcInfo, want: Expectation) {
    want.now > 0 && want.minRemaining > 0 ==> Left(info.expirationTime, want.now) >= want.minRemaining * NANOS
  }

  predicate InOrder(info: HtlcInfo, want: Expectation) {
    && (want.maxExpiration > 0 ==> info.expirationTime <= want.maxExpiration)
    && (want.minExpiration > 0 ==> info.expirationTime >= want.minExpiration)
  }

  predicate RightEntry(info: HtlcInfo, want: Expectation) {
    NamesEntry(info, want) && NamesToken(info, want)
  }

  predicate RightLock(info: HtlcInfo, want: Expectation) {
    info.hashType == HASH_TYPE_SHA256 && info.keyMaxSize >= MIN_KEY_SIZE && SameHashLock(info, want)
  }

  predicate RightParties(info: HtlcInfo, want: Expectation) {
    PaysRecipient(info, want) && FromSender(info, want)
  }

  /** Every check but the amount's holds. */
  predicate FitsApartFromAmount(info: HtlcInfo, want: Expectation) {
    && want.missingTerms == []
    && RightEntry(info, want)
    && RightLock(info, want)
    && RightParties(info, want)
    && TimeLeft(info, want)
    && InOrder(info, want)
  }

  predicate Fits(info: HtlcInfo, want: Expectation) {
    FitsApartFromAmount(info, want) && !want.amountUncheckable && HoldsAmount(info, want)
  }

  /** The verdict a refusal list amounts to: incomplete when nothing in it is more than a check that did not run. */
  function Judged(problems: seq<Problem>, incomplete: nat): Verdict {
    if problems == [] then Passed
    else if |problems| == incomplete then Incomplete
    else Mismatch(problems)
  }

  method CheckEntry(problems: seq<Problem>, info: HtlcInfo, want: Expectation) returns (out: seq<Problem>)
    ensures problems <= out && (out == problems <==> RightEntry(info, want))
  {
    out := problems;
    if want.id != "" && info.id != want.id { out := out + [WrongEntry]; }
    if want.token != "" && info.token != want.token { out := out + [WrongToken]; }
  }

  method CheckLock(problems: seq<Problem>, info: HtlcInfo, want: Expectation) returns (out: seq<Problem>)
    ensures problems <= out && (out == problems <==> RightLock(info, want))
  {
    out := problems;
    if info.hashType != HASH_TYPE_SHA256 { out := out + [WrongHashType]; }
    if info.keyMaxSize < MIN_KEY_SIZE { out := out + [KeyTooSmall]; }
    if want.secretHash != [] && info.hashLock != want.secretHash { out := out + [WrongHashLock]; }
  }

  method CheckParties(problems: seq<Problem>, info: HtlcInfo, want: Expectation) returns (out: seq<Problem>)
    ensures problems <= out && (out == problems <==> RightParties(info, want))
  {
    out := problems;
    if want.recipient != "" && info.hashLocked != want.recipient { out := out + [WrongRecipient]; }
    if want.sender != "" && info.timeLocked != want.sender { out := out + [WrongSender]; }
  }

  method CheckTimes(problems: seq<Problem>, info: HtlcInfo, want: Expectation) returns (out: seq<Problem>)
    ensures problems <= out && (out == problems <==> TimeLeft(info, want) && InOrder(info, want))
  {
    hide Left;
    out := problems;
    if want.now > 0 && want.minRemaining > 0 {
      var left := Left(info.expirationTime, want.now);
      if left < want.minRemaining * NANOS { out := out + [ExpiresTooSoon]; }
    }
    if want.maxExpiration > 0 && info.expirationTime > want.maxExpiration { out := out + [ExpiresTooLate]; }
    if want.minExpiration > 0 && info.expirationTime < want.minExpiration { out := out + [ExpiresTooEarly]; }
  }

  /**
   Collects every disagreement. It passes exactly when the entry fits, and it is incomplete exactly
   when the amount could not be converted and nothing else is wrong.
   */
  method Verify(info: HtlcInfo, want: Expectation) returns (v: Verdict)
    ensures v.Passed? <==> Fits(info, want)
    ensures v.Incomplete? <==> want.amountUncheckable && FitsApartFromAmount(info, want)
  {
    hide Decimal.ParseInteger, TimeLeft, InOrder;
    var problems: seq<Problem> := [];
    var incomplete: nat := 0;
    var i := 0;
    while i < |want.missingTerms|
      invariant 0 <= i <= |want.missingTerms| && |problems| == i
    {
      problems := problems + [MissingTerm(want.missingTerms[i])];
      i := i + 1;
    }
    problems := CheckEntry(problems, info, want);
    problems := CheckLock(problems, info, want);
    problems := CheckParties(problems, info, want);
    ghost var before := |problems|;
    if want.amountUncheckable {
      problems := problems + [AmountUnchecked];
      incomplete := incomplete + 1;
    } else if want.minAmount.Some? {
      var amount := Decimal.ParseInteger(info.amount);
      if amount.None? {
        problems := problems + [AmountNotANumber];
      } else if amount.value < want.minAmount.value {
        problems := problems + [AmountShort];
      }
    }
    problems := CheckTimes(problems, info, want);
    assert before == 0 <==> want.missingTerms == [] && RightEntry(info, want) && RightLock(info, want) && RightParties(info, want);
    v := Judged(problems, incomplete);
  }

  /** The longest span of seconds a 64-bit count of nanoseconds can hold. */
  const MAX_SPAN := 9_223_372_036

  /**
   For any entry the chain can hold (its expiry is not negative), passing the time check means
   the time really is left, whatever the 64-bit arithmetic did on the way.
   */
  lemma TimeLeftIsReal(info: HtlcInfo, want: Expectation)
    requires 0 < want.now <= MAX_SPAN && 0 < want.minRemaining <= MAX_SPAN && info.expirationTime >= 0
    requires TimeLeft(info, want)
    ensures info.expirationTime - want.now >= want.minRemaining
  {
  }

  /** Within three centuries of now the check is exact. */
  lemma TimeLeftExactly(info: HtlcInfo, want: Expectation)
    requires want.now > 0 && want.minRemaining > 0 && -MAX_SPAN <= info.expirationTime - want.now <= MAX_SPAN
    ensures TimeLeft(info, want) <==> info.expirationTime - want.now >= want.minRemaining
  {
  }

  /**
   Outside it the product wraps: an answer naming an expiry three centuries in the past passes
   the time check. No entry of the contract has one, so only a node's invention can.
   */
  lemma AncientExpiryPasses(info: HtlcInfo, want: Expectation)
    requires want.now == 1_700_000_000 && 0 < want.minRemaining <= 7200 && info.expirationTime == want.now - MAX_SPAN - 1
    ensures TimeLeft(info, want) && info.expirationTime < want.now
  {
  }
}
