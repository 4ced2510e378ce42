/**
 The operations as calls on the store: load, decide, save, with other calls taking their turns in
 between; and the saving of an outcome that is already on the chain (wasm/manager.go).
 */
module Manager {
  import opened Prelude
  import opened Engine
  import opened Spend
  import opened SwapRecord
  import opened FundingWatch
  import opened Moves
  import opened ZenonMoves
  import opened Settle
  import opened Versioned
  import opened Store
  import opened Runs

  method Decide(sw: Swap, op: Op, c: Crypto, sg: Signatures) returns (m: Move)
    requires Digests(c) && SoundKey(sw.key, c, sg)
    ensures m == Do(op, sw, c, sg)
  {
    hide SetPkh, Audit, Refresh, VerifyZenon, SetZenonTerms, WalletSent, WithBinding, Settled, SameSwap;
    match op
    case OpSetPkh(pkh) => m := SetCounterpartyPkh(sw, pkh, c);
    case OpAudit(contract, now) => m := AuditContract(sw, contract, now, c);
    case OpRefresh(a) => m := RefreshSwap(sw, a, c, sg);
    case OpVerify(id, n) => m := VerifyZenonHtlc(sw, id, n);
    case OpSetTerms(self, peer, amount, valid, decimals) => m := CompleteZenonTerms(sw, self, peer, amount, valid, decimals);
    case OpWalletMismatch(signer) => m := RecordWalletSent(sw, true, signer, ReclaimCall, "", "");
    case OpWalletSent(action, hash, from) => m := RecordWalletSent(sw, false, "", action, hash, from);
    case OpWalletPending => m := WalletPending(sw);
    case OpBroadcast(txid, valid) => m := RecordFundingBroadcast(sw, txid, valid);
    case OpSetSecret(secret) => m := SetSecret(sw, secret, c);
    case OpArchive(archived) => m := Archive(sw, archived);
    case OpOutcome(o, tx) =>
      m := Rejected;
      if SameSwap(sw, o) {
        var bound, b := BindFunding(sw, tx, c);
        m := Saved(Settled(bound, o));
      }
  }

  /**
   What a call does to the store, others' turns included. Its save goes through exactly when nobody
   else wrote the record in between, and then the record is the decision on the newest one.
   */
  ghost predicate Performed(before: Records<Swap>, others: seq<Turn>, id: string, op: Op, stored: bool,
                            after: Records<Swap>, r: Result<Swap, string>, c: Crypto, sg: Signatures)
    requires Digests(c) && (Present(before, id) ==> SoundKey(before[id].entry.body.key, c, sg))
  {
    var now := AfterTurns(before, others);
    if !ValidId(id) || !Present(before, id) then r.Err? && after == now
    else
      var sw := WithdrawStaleVerdict(before[id].entry.body);
      match Do(op, sw, c, sg)
      case Rejected => r.Err? && after == now
      case Unchanged => r == Ok(sw) && after == now
      case Saved(y) =>
        if Present(now, id) && now[id] == before[id] && stored
        then r == Ok(y) && after == now[id := Readable(Entry(now[id].entry.version + 1, y))]
        else r.Err? && after == now
  }

  method Perform(store: SwapStore, id: string, op: Op, others: seq<Turn>, stored: bool, c: Crypto, sg: Signatures)
    returns (r: Result<Swap, string>)
    requires Digests(c) && (Present(store.records, id) ==> SoundKey(store.records[id].entry.body.key, c, sg))
    requires Present(store.records, id) ==> store.records[id].entry.version >= 1
    modifies store
    ensures Performed(old(store.records), others, id, op, stored, store.records, r, c, sg)
  {
    hide Do, AfterTurns, WithdrawStaleVerdict;
    var loaded := store.Load(id);
    if loaded.Err? {
      store.LetOthers(others);
      return Err(loaded.error);
    }
    var sw := loaded.value.body;
    assert sw.key == store.records[id].entry.body.key by { LoadKeepsKey(store.records[id].entry.body); }
    var m := Decide(sw, op, c, sg);
    TurnsOnlyAdvance(store.records, others, id);
    store.LetOthers(others);
    match m
    case Rejected => return Err("refused");
    case Unchanged => return Ok(sw);
    case Saved(y) =>
      var saved := store.Save(id, Entry(loaded.value.version, y), stored);
      if saved.Err? { return Err("not saved"); }
      return Ok(y);
  }

  // ---------- a call on the store is a load and a commit among others' steps ----------

  /** What another call's turn is in steps: a load and a commit, a removal, or nothing when there is no record. */
  function TurnSteps(recs: Records<Swap>, t: Turn, other: nat): seq<Step<Swap>> {
    if !Present(recs, t.id) then []
    else
      match t
      case Wrote(id, body) => [Step.Load(other, id), Commit(other, (x: Swap) => body)]
      case Took(id) => [Remove(id)]
  }

  function AllTurnSteps(recs: Records<Swap>, ts: seq<Turn>, other: nat): seq<Step<Swap>>
    decreases |ts|
  {
    if ts == [] then []
    else
      var init := ts[..|ts| - 1];
      AllTurnSteps(recs, init, other) + TurnSteps(AfterTurns(recs, init), ts[|ts| - 1], other)
  }

  lemma TurnIsSteps(sys: Sys<Swap>, t: Turn, mine: nat, other: nat)
    requires mine != other && mine in sys.calls
    ensures var end := Exec(sys, TurnSteps(sys.records, t, other));
            end.records == AfterTurn(sys.records, t) && mine in end.calls && end.calls[mine] == sys.calls[mine]
  {
    if Present(sys.records, t.id) {
      match t
      case Wrote(id, body) => LoadAndWrite(sys, id, body, mine, other);
      case Took(id) => SingleStep(sys, Remove(id));
    }
  }

  lemma LoadAndWrite(sys: Sys<Swap>, id: string, body: Swap, mine: nat, other: nat)
    requires mine != other && mine in sys.calls && Present(sys.records, id)
    ensures var end := Exec(sys, [Step.Load(other, id), Commit(other, (x: Swap) => body)]);
            && end.records == sys.records[id := Readable(Entry(sys.records[id].entry.version + 1, body))]
            && mine in end.calls && end.calls[mine] == sys.calls[mine]
  {
    var load: Step<Swap>, commit := Step.Load(other, id), Commit(other, (x: Swap) => body);
    var loaded := Next(sys, load);
    assert loaded.calls[other] == Copy(id, sys.records[id].entry) && loaded.records == sys.records;
    SingleStep(sys, load);
    SingleStep(loaded, commit);
    EffectsJoin(sys, [load], [commit]);
    assert [load] + [commit] == [load, commit];
    hide Exec, Effects, ApplyAll;
  }

  lemma {:induction false} TurnsAreSteps(sys: Sys<Swap>, ts: seq<Turn>, mine: nat, other: nat)
    requires mine != other && mine in sys.calls
    ensures var end := Exec(sys, AllTurnSteps(sys.records, ts, other));
            end.records == AfterTurns(sys.records, ts) && mine in end.calls && end.calls[mine] == sys.calls[mine]
    decreases |ts|
  {
    if ts != [] {
      var init := ts[..|ts| - 1];
      TurnsAreSteps(sys, init, mine, other);
      var mid := Exec(sys, AllTurnSteps(sys.records, init, other));
      EffectsJoin(sys, AllTurnSteps(sys.records, init, other), TurnSteps(mid.records, ts[|ts| - 1], other));
      TurnIsSteps(mid, ts[|ts| - 1], mine, other);
    }
  }

  /** The system as a call finds it when it comes to save: its record loaded, then others' turns taken. */
  function Begun(sys: Sys<Swap>, others: seq<Turn>, id: string, mine: nat, other: nat): Sys<Swap> {
    Exec(sys, [Step.Load(mine, id)] + AllTurnSteps(sys.records, others, other))
  }

  /**
   The two accounts of interleaving are one: a call performed on the store, others' turns in between, does to
   the store what its load, their steps and its commit do.
   */
  lemma PerformedIsLoadAndCommit(sys: Sys<Swap>, others: seq<Turn>, id: string, op: Op, after: Records<Swap>, r: Result<Swap, string>,
                                 mine: nat, other: nat, decide: Swap -> Swap, c: Crypto, sg: Signatures)
    requires Digests(c) && ValidId(id) && Present(sys.records, id) && sys.records[id].entry.version >= 1 && mine != other
    requires SoundKey(sys.records[id].entry.body.key, c, sg)
    requires Performed(sys.records, others, id, op, true, after, r, c, sg)
    requires Do(op, LoadedFrom(sys.records, id), c, sg) == Saved(decide(sys.records[id].entry.body))
    ensures Next(Begun(sys, others, id, mine, other), Commit(mine, decide)).records == after
    ensures r.Ok? <==> Succeeds(Begun(sys, others, id, mine, other), mine)
  {
    hide Do, Performed, AfterTurns, AfterTurn, WithdrawStaleVerdict, Begun, Next, Succeeds, SoundKey, Digests, ValidId;
    PerformedSaves(sys.records, others, id, op, decide(sys.records[id].entry.body), after, r, c, sg);
    LoadDecideCommit(sys, others, id, mine, other, decide);
  }

  lemma LoadDecideCommit(sys: Sys<Swap>, others: seq<Turn>, id: string, mine: nat, other: nat, decide: Swap -> Swap)
    requires Present(sys.records, id) && sys.records[id].entry.version >= 1 && mine != other
    ensures var now := AfterTurns(sys.records, others);
            var quiet := Present(now, id) && now[id] == sys.records[id];
            && (Succeeds(Begun(sys, others, id, mine, other), mine) <==> quiet)
            && Next(Begun(sys, others, id, mine, other), Commit(mine, decide)).records
               == if quiet then now[id := Readable(Entry(now[id].entry.version + 1, decide(sys.records[id].entry.body)))] else now
  {
    LoadAndTurns(sys, others, id, mine, other);
    TurnsOnlyAdvance(sys.records, others, id);
    hide AfterTurns, Begun;
  }

  lemma PerformedSaves(before: Records<Swap>, others: seq<Turn>, id: string, op: Op, y: Swap, after: Records<Swap>,
                       r: Result<Swap, string>, c: Crypto, sg: Signatures)
    requires Digests(c) && ValidId(id) && Present(before, id) && SoundKey(before[id].entry.body.key, c, sg)
    requires Performed(before, others, id, op, true, after, r, c, sg) && Do(op, LoadedFrom(before, id), c, sg) == Saved(y)
    ensures var now := AfterTurns(before, others);
            var quiet := Present(now, id) && now[id] == before[id];
            && (r.Ok? <==> quiet)
            && after == if quiet then now[id := Readable(Entry(now[id].entry.version + 1, y))] else now
  {
    hide Do, AfterTurns, WithdrawStaleVerdict;
  }

  lemma LoadAndTurns(sys: Sys<Swap>, others: seq<Turn>, id: string, mine: nat, other: nat)
    requires Present(sys.records, id) && mine != other
    ensures var mid := Begun(sys, others, id, mine, other);
            mid.records == AfterTurns(sys.records, others) && mine in mid.calls && mid.calls[mine] == Copy(id, sys.records[id].entry)
  {
    var load: Step<Swap> := Step.Load(mine, id);
    SingleStep(sys, load);
    TurnsAreSteps(Next(sys, load), others, mine, other);
    EffectsJoin(sys, [load], AllTurnSteps(sys.records, others, other));
  }

  lemma LoadKeepsKey(sw: Swap)
    ensures WithdrawStaleVerdict(sw).key == sw.key
  {
  }

  // ---------- saving an outcome ----------

  /** Why an outcome was not recorded; the transaction id is always in it. */
  datatype Unrecorded = Unrecorded(txid: Bytes, reason: string)

  const LAST_ATTEMPT := 3

  /** Others never delete this record while an outcome of it is being saved, nor move it to another funding or contract. */
  predicate KeepSwap(ts: seq<Turn>, id: string, o: Outcome) {
    forall t :: t in ts && t.id == id ==> t.Wrote? && SameSwap(t.body, o)
  }

  predicate Quiet(ts: seq<Turn>, id: string) {
    forall t :: t in ts ==> t.id != id
  }

  /** All the turns others took up to and including gap `k`. */
  function UpTo(gaps: seq<seq<Turn>>, k: nat): seq<Turn>
    requires k <= |gaps|
  {
    if k == 0 then [] else UpTo(gaps, k - 1) + gaps[k - 1]
  }

  lemma {:induction false} TurnsCompose(recs: Records<Swap>, a: seq<Turn>, b: seq<Turn>)
    ensures AfterTurns(AfterTurns(recs, a), b) == AfterTurns(recs, a + b)
    decreases |b|
  {
    if b == [] {
      assert a + b == a;
    } else {
      TurnsCompose(recs, a, b[..|b| - 1]);
      assert (a + b)[..|a + b| - 1] == a + b[..|b| - 1];
    }
  }

  lemma {:induction false} TurnsKeepSwap(recs: Records<Swap>, ts: seq<Turn>, id: string, o: Outcome)
    requires KeepSwap(ts, id, o) && Present(recs, id) && SameSwap(recs[id].entry.body, o)
    ensures var now := AfterTurns(recs, ts);
            Present(now, id) && SameSwap(now[id].entry.body, o)
    decreases |ts|
  {
    if ts != [] {
      TurnsKeepSwap(recs, ts[..|ts| - 1], id, o);
    }
  }

  /** Written on top of the newest record: the store as others left it after gap `k`, this record alone changed. */
  ghost predicate RecordedAfter(before: Records<Swap>, gaps: seq<seq<Turn>>, k: nat, id: string, o: Outcome, sw: Swap,
                                after: Records<Swap>, c: Crypto)
    requires Digests(c) && k <= |gaps|
  {
    var newest := AfterTurns(before, UpTo(gaps, k));
    && Present(newest, id)
    && AppliedTo(sw, newest[id].entry.body, o, c)
    && after == newest[id := Readable(Entry(newest[id].entry.version + 1, sw))]
  }

  ghost predicate LeftAsIs(before: Records<Swap>, gaps: seq<seq<Turn>>, k: nat, after: Records<Swap>)
    requires k <= |gaps|
  {
    after == AfterTurns(before, UpTo(gaps, k))
  }

  ghost predicate OnTop(before: Records<Swap>, gaps: seq<seq<Turn>>, id: string, o: Outcome, sw: Swap, after: Records<Swap>, c: Crypto)
    requires Digests(c)
  {
    exists k | 0 <= k <= |gaps| :: RecordedAfter(before, gaps, k, id, o, sw, after, c)
  }

  /** This call wrote nothing: the store is as others left it after some gap. */
  ghost predicate Untouched(before: Records<Swap>, gaps: seq<seq<Turn>>, after: Records<Swap>) {
    exists k | 0 <= k <= |gaps| :: LeftAsIs(before, gaps, k, after)
  }

  predicate AllKeepSwap(gaps: seq<seq<Turn>>, id: string, o: Outcome) {
    forall g | g in gaps :: KeepSwap(g, id, o)
  }

  predicate SomeSaveIsQuiet(gaps: seq<seq<Turn>>, id: string)
    requires |gaps| == 8
  {
    Quiet(gaps[0], id) || Quiet(gaps[2], id) || Quiet(gaps[4], id) || Quiet(gaps[6], id)
  }

  /** The copy about to be saved: the outcome on the record as stored now, at its version. */
  ghost predicate Current(recs: Records<Swap>, id: string, e: Entry<Swap>, o: Outcome, c: Crypto)
    requires Digests(c)
  {
    Present(recs, id) && recs[id].entry.version == e.version >= 1 && AppliedTo(e.body, recs[id].entry.body, o, c)
  }

  /** A save that got through left the record with the outcome on it. */
  lemma OnTopIsStored(before: Records<Swap>, gaps: seq<seq<Turn>>, id: string, o: Outcome, sw: Swap, after: Records<Swap>, c: Crypto)
    requires Digests(c) && OnTop(before, gaps, id, o, sw, after, c)
    ensures Present(after, id) && after[id].entry.body == sw
    ensures if o.redeem then sw.state == Redeemed && sw.redeemTx == Some(o.spend) else sw.state == Refunded && sw.refundTx == Some(o.spend)
  {
    hide AfterTurns, UpTo;
  }

  /**
   Records what happened on the chain. `gaps[2k]` is what others do before the k-th save, `gaps[2k + 1]`
   before the reload that follows a refusal. It ends with the outcome on top of the newest record,
   or with an error that names the transaction; it gets through whenever one of its four saves meets no
   other write and the record stays with the same funding and contract.
   */
  method SaveOutcome(store: SwapStore, id: string, copy: Entry<Swap>, o: Outcome, txid: Bytes, gaps: seq<seq<Turn>>,
                     stored: bool, c: Crypto, ghost fundingTx: Option<RawTx>) returns (r: Result<Swap, Unrecorded>)
    requires Digests(c) && ValidId(id) && |gaps| == 8
    requires Present(store.records, id) && store.records[id].entry.version == copy.version >= 1
    requires copy.body == WithBinding(WithdrawStaleVerdict(store.records[id].entry.body), fundingTx, c)
    requires SameSwap(store.records[id].entry.body, o)
    modifies store
    ensures r.Ok? ==> OnTop(old(store.records), gaps, id, o, r.value, store.records, c)
    ensures r.Ok? ==> Present(store.records, id) && store.records[id].entry.body == r.value
    ensures r.Ok? ==> if o.redeem then r.value.state == Redeemed && r.value.redeemTx == Some(o.spend)
                      else r.value.state == Refunded && r.value.refundTx == Some(o.spend)
    ensures r.Err? ==> r.error.txid == txid && Untouched(old(store.records), gaps, store.records)
    ensures stored && AllKeepSwap(gaps, id, o) && SomeSaveIsQuiet(gaps, id) ==> r.Ok?
  {
    ghost var start := store.records;
    var e := Entry(copy.version, Settled(copy.body, o));
    OutcomeApplies(store.records[id].entry.body, fundingTx, o, c);
    assert LeftAsIs(start, gaps, 0, store.records) && Current(store.records, id, e, o, c);
    hide AppliedTo, RecordedAfter, OnTop, Untouched, LeftAsIs, Current, AllKeepSwap, SomeSaveIsQuiet, Quiet, KeepSwap, WithBinding,
         WithdrawStaleVerdict, Settled, SameSwap, AfterTurns, AfterTurn, UpTo, ValidId, Digests;
    var attempt := 0;
    var done := false;
    r := Err(Unrecorded(txid, STALE));
    while !done
      invariant 0 <= attempt <= LAST_ATTEMPT + 1 && (attempt == LAST_ATTEMPT + 1 ==> done)
      invariant !done ==> LeftAsIs(start, gaps, 2 * attempt, store.records) && Current(store.records, id, e, o, c)
      invariant !done ==> NoneQuiet(gaps, id, attempt, stored)
      invariant done ==> Finished(start, gaps, id, o, txid, stored, r, store.records, c)
      decreases LAST_ATTEMPT + 1 - attempt
    {
      done, r, e := Attempt(store, id, e, o, txid, gaps, attempt, stored, start, c);
      attempt := attempt + 1;
    }
    if r.Ok? { OnTopIsStored(start, gaps, id, o, r.value, store.records, c); }
  }

  /** What saving an outcome promises. */
  ghost predicate Finished(start: Records<Swap>, gaps: seq<seq<Turn>>, id: string, o: Outcome, txid: Bytes, stored: bool,
                           r: Result<Swap, Unrecorded>, after: Records<Swap>, c: Crypto)
    requires Digests(c) && |gaps| == 8
  {
    && (r.Ok? ==> OnTop(start, gaps, id, o, r.value, after, c))
    && (r.Err? ==> r.error.txid == txid && Untouched(start, gaps, after))
    && (stored && AllKeepSwap(gaps, id, o) && SomeSaveIsQuiet(gaps, id) ==> r.Ok?)
  }

  /** Every save so far met another write. */
  predicate NoneQuiet(gaps: seq<seq<Turn>>, id: string, attempt: nat, stored: bool)
    requires |gaps| == 8 && attempt <= 4
  {
    stored ==> forall j | 0 <= j < attempt :: !Quiet(gaps[2 * j], id)
  }

  /** One turn of the loop: save, and on a stale refusal that is not the last, reload and apply again. */
  method Attempt(store: SwapStore, id: string, e: Entry<Swap>, o: Outcome, txid: Bytes, gaps: seq<seq<Turn>>, attempt: nat,
                 stored: bool, ghost start: Records<Swap>, c: Crypto)
    returns (done: bool, r: Result<Swap, Unrecorded>, next: Entry<Swap>)
    requires Digests(c) && ValidId(id) && |gaps| == 8 && attempt <= LAST_ATTEMPT
    requires LeftAsIs(start, gaps, 2 * attempt, store.records) && Current(store.records, id, e, o, c)
    requires NoneQuiet(gaps, id, attempt, stored)
    modifies store
    ensures attempt == LAST_ATTEMPT ==> done
    ensures done ==> Finished(start, gaps, id, o, txid, stored, r, store.records, c)
    ensures !done ==> LeftAsIs(start, gaps, 2 * attempt + 2, store.records) && Current(store.records, id, next, o, c)
                      && NoneQuiet(gaps, id, attempt + 1, stored)
  {
    hide AppliedTo, RecordedAfter, OnTop, Untouched, LeftAsIs, Current, AllKeepSwap, Quiet, KeepSwap, WithBinding,
         WithdrawStaleVerdict, Settled, SameSwap, AfterTurns, AfterTurn, UpTo, ValidId, Digests;
    CurrentNames(store.records, id, e, o, c);
    next := e;
    ghost var before := store.records;
    r := TrySave(store, id, e, o, txid, gaps, 2 * attempt, stored, start, c);
    if r.Ok? { return true, r, e; }
    assert NoneQuiet(gaps, id, attempt + 1, stored);
    if r.error.reason != STALE || attempt == LAST_ATTEMPT {
      assert stored && attempt == LAST_ATTEMPT ==> !SomeSaveIsQuiet(gaps, id) by {
        assert stored && attempt == LAST_ATTEMPT ==> !Quiet(gaps[2 * 0], id) && !Quiet(gaps[2 * 1], id) && !Quiet(gaps[2 * 2], id);
      }
      return true, r, e;
    }
    var reloaded := Reload(store, id, o, txid, gaps, 2 * attempt + 1, start, c);
    if reloaded.Err? {
      NeverLeft(before, gaps, 2 * attempt, id, o);
      return true, Err(reloaded.error), e;
    }
    return false, r, reloaded.value;
  }

  lemma CurrentNames(recs: Records<Swap>, id: string, e: Entry<Swap>, o: Outcome, c: Crypto)
    requires Digests(c) && Current(recs, id, e, o, c)
    ensures Present(recs, id) && SameSwap(recs[id].entry.body, o)
  {
  }

  lemma NeverLeft(before: Records<Swap>, gaps: seq<seq<Turn>>, k: nat, id: string, o: Outcome)
    requires k + 1 < |gaps| && Present(before, id) && SameSwap(before[id].entry.body, o)
    ensures AllKeepSwap(gaps, id, o) ==>
              var now := AfterTurns(AfterTurns(before, gaps[k]), gaps[k + 1]);
              Present(now, id) && SameSwap(now[id].entry.body, o)
  {
    if AllKeepSwap(gaps, id, o) {
      TurnsKeepSwap(before, gaps[k], id, o);
      TurnsKeepSwap(AfterTurns(before, gaps[k]), gaps[k + 1], id, o);
    }
  }

  /** Loads the record as others left it and applies the outcome to that; refused when it is gone or is another swap by now. */
  method Reload(store: SwapStore, id: string, o: Outcome, txid: Bytes, gaps: seq<seq<Turn>>, k: nat,
                ghost start: Records<Swap>, c: Crypto) returns (r: Result<Entry<Swap>, Unrecorded>)
    requires Digests(c) && ValidId(id) && k < |gaps|
    requires LeftAsIs(start, gaps, k, store.records)
    requires Present(store.records, id) ==> store.records[id].entry.version >= 1
    modifies store
    ensures store.records == AfterTurns(old(store.records), gaps[k])
    ensures LeftAsIs(start, gaps, k + 1, store.records) && Untouched(start, gaps, store.records)
    ensures r.Ok? ==> Current(store.records, id, r.value, o, c)
    ensures r.Err? ==> r.error.txid == txid && !(Present(store.records, id) && SameSwap(store.records[id].entry.body, o))
  {
    hide WithBinding, WithdrawStaleVerdict, Settled, SameSwap, AfterTurn;
    TurnsOnlyAdvance(store.records, gaps[k], id);
    OneMoreGap(start, gaps, k);
    store.LetOthers(gaps[k]);
    assert LeftAsIs(start, gaps, k + 1, store.records);
    var loaded := store.Load(id);
    if loaded.Err? { return Err(Unrecorded(txid, "the swap is gone from the store")); }
    var reloaded := loaded.value.body;
    WithdrawKeepsSwap(store.records[id].entry.body, o);
    if !SameSwap(reloaded, o) { return Err(Unrecorded(txid, "the swap names a different funding or contract")); }
    ReloadedOutcomeApplies(store.records[id].entry.body, o, c);
    return Ok(Entry(loaded.value.version, Settled(reloaded, o)));
  }

  const STALE := "stale"

  lemma WithdrawKeepsSwap(sw: Swap, o: Outcome)
    ensures SameSwap(WithdrawStaleVerdict(sw), o) <==> SameSwap(sw, o)
  {
  }

  lemma OneMoreGap(before: Records<Swap>, gaps: seq<seq<Turn>>, k: nat)
    requires k < |gaps|
    ensures UpTo(gaps, k + 1) == UpTo(gaps, k) + gaps[k]
    ensures AfterTurns(before, UpTo(gaps, k + 1)) == AfterTurns(AfterTurns(before, UpTo(gaps, k)), gaps[k])
  {
    TurnsCompose(before, UpTo(gaps, k), gaps[k]);
  }

  /** One save, after others had their turn. It is refused as stale exactly when they wrote the record or removed it. */
  method TrySave(store: SwapStore, id: string, e: Entry<Swap>, o: Outcome, txid: Bytes, gaps: seq<seq<Turn>>, k: nat,
                 stored: bool, ghost start: Records<Swap>, c: Crypto) returns (r: Result<Swap, Unrecorded>)
    requires Digests(c) && ValidId(id) && k < |gaps|
    requires LeftAsIs(start, gaps, k, store.records) && Current(store.records, id, e, o, c)
    modifies store
    ensures r.Ok? ==> OnTop(start, gaps, id, o, r.value, store.records, c)
    ensures r.Err? ==> r.error.txid == txid && LeftAsIs(start, gaps, k + 1, store.records) && Untouched(start, gaps, store.records)
    ensures r.Err? ==> store.records == AfterTurns(old(store.records), gaps[k])
    ensures r.Err? && stored ==> r.error.reason == STALE && !Quiet(gaps[k], id)
    ensures r.Err? && Present(store.records, id) ==> store.records[id].entry.version >= 1
  {
    hide WithBinding, WithdrawStaleVerdict, Settled, SameSwap, AfterTurn;
    TurnsOnlyAdvance(store.records, gaps[k], id);
    OneMoreGap(start, gaps, k);
    store.LetOthers(gaps[k]);
    var saved := store.Save(id, e, stored);
    match saved
    case Ok(_) =>
      assert RecordedAfter(start, gaps, k + 1, id, o, e.body, store.records, c);
      return Ok(e.body);
    case Err(why) =>
      assert LeftAsIs(start, gaps, k + 1, store.records); return Err(Unrecorded(txid, if why == Stale then STALE else "not stored"));
  }

  // ---------- claiming ----------

  /** The record a call on this id loads. */
  function LoadedFrom(recs: Records<Swap>, id: string): Swap
    requires Present(recs, id)
  {
    WithdrawStaleVerdict(recs[id].entry.body)
  }

  /**
   A claim that is refused before its broadcast leaves the store alone; from the broadcast on, the
   outcome is on top of the newest record or the error names the transaction.
   */
  ghost predicate Claimed(before: Records<Swap>, id: string, plan: Option<Plan>, broadcast: Option<Bytes>, gaps: seq<seq<Turn>>,
                          stored: bool, r: Result<Swap, Unrecorded>, after: Records<Swap>, c: Crypto)
    requires Digests(c) && |gaps| == 8
  {
    if plan.None? || broadcast.None? then r.Err? && after == before
    else Finished(before, gaps, id, plan.value.outcome, broadcast.value, stored, r, after, c)
  }

  method Publish(store: SwapStore, id: string, version: nat, plan: Option<Plan>, broadcast: Option<Bytes>, gaps: seq<seq<Turn>>,
                 stored: bool, c: Crypto, ghost fundingTx: Option<RawTx>) returns (r: Result<Swap, Unrecorded>)
    requires Digests(c) && ValidId(id) && |gaps| == 8
    requires Present(store.records, id) && store.records[id].entry.version == version >= 1
    requires plan.Some? ==> plan.value.swap == WithBinding(LoadedFrom(store.records, id), fundingTx, c)
                            && SameSwap(store.records[id].entry.body, plan.value.outcome)
    modifies store
    ensures Claimed(old(store.records), id, plan, broadcast, gaps, stored, r, store.records, c)
    ensures r.Ok? ==> plan.Some? && broadcast.Some? && Present(store.records, id) && store.records[id].entry.body == r.value
    ensures r.Ok? ==> if plan.value.outcome.redeem then r.value.state == Redeemed && r.value.redeemTx == Some(plan.value.outcome.spend)
                      else r.value.state == Refunded && r.value.refundTx == Some(plan.value.outcome.spend)
  {
    if plan.None? { return Err(Unrecorded([], "refused")); }
    if broadcast.None? { return Err(Unrecorded([], "not broadcast")); }
    hide OnTop, Untouched, AllKeepSwap, SomeSaveIsQuiet, WithBinding, SameSwap, AfterTurns, Settled;
    r := SaveOutcome(store, id, Entry(version, plan.value.swap), plan.value.outcome, broadcast.value, gaps, stored, c, fundingTx);
  }

  method Redeem(store: SwapStore, id: string, asked: Bytes, a: SpendAnswers, broadcast: Option<Bytes>, gaps: seq<seq<Turn>>,
                stored: bool, c: Crypto, sg: Signatures) returns (r: Result<Swap, Unrecorded>)
    requires Digests(c) && |gaps| == 8
    requires Present(store.records, id) ==> SoundKey(store.records[id].entry.body.key, c, sg) && store.records[id].entry.version >= 1
    modifies store
    ensures !ValidId(id) || !Present(old(store.records), id) ==> r.Err? && store.records == old(store.records)
    ensures ValidId(id) && Present(old(store.records), id) ==>
              Claimed(old(store.records), id, PlannedRedeem(LoadedFrom(old(store.records), id), asked, a, c, sg), broadcast, gaps,
                      stored, r, store.records, c)
    ensures r.Ok? ==>
              && broadcast.Some? && Present(store.records, id) && store.records[id].entry.body == r.value
              && r.value.state == Redeemed && r.value.redeemTx.Some?
              && Present(old(store.records), id)
              && var was := old(store.records)[id].entry.body;
                 && was.leg == Receive && was.funding.Some? && r.value.redeemTx.value.tx.spends == was.funding.value.outpoint
                 && r.value.redeemTx.value.tx.destScript == (if was.destAddr == [] then asked else was.destAddr)
  {
    var loaded := store.Load(id);
    if loaded.Err? { return Err(Unrecorded([], loaded.error)); }
    var sw := loaded.value.body;
    var plan := PlanRedeem(sw, asked, a, c, sg);
    if plan.Some? { PlanNamesSwap(store.records[id].entry.body, asked, a, c, sg); }
    hide PlannedRedeem, WithBinding, WithdrawStaleVerdict, SameSwap, Finished, RateRight;
    r := Publish(store, id, loaded.value.version, plan, broadcast, gaps, stored, c, a.raw);
  }

  method Refund(store: SwapStore, id: string, asked: Bytes, a: SpendAnswers, broadcast: Option<Bytes>, gaps: seq<seq<Turn>>,
                stored: bool, c: Crypto, sg: Signatures) returns (r: Result<Swap, Unrecorded>)
    requires Digests(c) && |gaps| == 8
    requires Present(store.records, id) ==> SoundKey(store.records[id].entry.body.key, c, sg) && store.records[id].entry.version >= 1
    modifies store
    ensures !ValidId(id) || !Present(old(store.records), id) ==> r.Err? && store.records == old(store.records)
    ensures ValidId(id) && Present(old(store.records), id) ==>
              Claimed(old(store.records), id, PlannedRefund(LoadedFrom(old(store.records), id), asked, a, c, sg), broadcast, gaps,
                      stored, r, store.records, c)
    ensures r.Ok? ==>
              && broadcast.Some? && Present(store.records, id) && store.records[id].entry.body == r.value
              && r.value.state == Refunded && r.value.refundTx.Some?
              && Present(old(store.records), id)
              && var was := old(store.records)[id].entry.body;
                 && was.leg == Send && was.funding.Some? && a.now >= was.lockTime
                 && (was.refundTx.Some? ==> r.value.refundTx == was.refundTx)
                 && (was.refundTx.None? ==> r.value.refundTx.value.tx.spends == was.funding.value.outpoint
                                            && r.value.refundTx.value.tx.destScript == (if was.destAddr == [] then asked else was.destAddr))
  {
    var loaded := store.Load(id);
    if loaded.Err? { return Err(Unrecorded([], loaded.error)); }
    var sw := loaded.value.body;
    var plan := PlanRefund(sw, asked, a, c, sg);
    if plan.Some? { PlanNamesSwap(store.records[id].entry.body, asked, a, c, sg); }
    hide PlannedRefund, WithBinding, WithdrawStaleVerdict, SameSwap, Finished, RateRight;
    r := Publish(store, id, loaded.value.version, plan, broadcast, gaps, stored, c, a.raw);
  }

  lemma PlanNamesSwap(stored: Swap, asked: Bytes, a: SpendAnswers, c: Crypto, sg: Signatures)
    requires Digests(c) && SoundKey(stored.key, c, sg)
    ensures var sw := WithdrawStaleVerdict(stored);
            forall plan :: (PlannedRedeem(sw, asked, a, c, sg) == Some(plan) || PlannedRefund(sw, asked, a, c, sg) == Some(plan)) ==>
              plan.swap == WithBinding(sw, a.raw, c) && SameSwap(stored, plan.outcome)
  {
    hide RedeemOf, RefundOf, BindingOf, ContractPkScript;
  }

  // ---------- a published create ----------

  /** What the record becomes when nobody else writes it: the id recorded, then the verdict on it, or pending. */
  function CreateRecorded(sw: Swap, hash: string, from: string, n: NodeAnswers): Swap
    requires hash != ""
  {
    var named := WalletSent(sw, CreateCall, hash, from).swap;
    match VerifyZenon(WithdrawStaleVerdict(named), hash, n)
    case Saved(y) => y
    case _ => WalletPending(named).swap
  }

  /**
   Records a create the wallet published: its id is saved before anything is checked, then verified by
   the ordinary path, and left pending when the node cannot say yet. `gaps` are others' turns before
   each of the three steps.
   */
  method WalletCreate(store: SwapStore, id: string, hash: string, from: string, n: NodeAnswers, gaps: seq<seq<Turn>>,
                      stored: bool, c: Crypto, sg: Signatures) returns (r: Result<Swap, string>)
    requires Digests(c) && |gaps| == 3
    requires Present(store.records, id) ==> SoundKey(store.records[id].entry.body.key, c, sg) && store.records[id].entry.version >= 1
    modifies store
    ensures !ValidId(id) || !Present(old(store.records), id) || hash == "" ==> r.Err? && store.records == old(store.records)
    ensures ValidId(id) && Present(old(store.records), id) && hash != "" && stored
            && Quiet(gaps[0], id) && Quiet(gaps[1], id) && Quiet(gaps[2], id) ==>
              && r.Ok?
              && id in store.records
              && store.records[id] == Readable(Entry(old(store.records)[id].entry.version + 2,
                                                     CreateRecorded(LoadedFrom(old(store.records), id), hash, from, n)))
  {
    hide AfterTurn, VerifyZenon, WithdrawStaleVerdict;
    var loaded := store.Load(id);
    if loaded.Err? { return Err(loaded.error); }
    var sw := loaded.value.body;
    var m := RecordWalletSent(sw, false, "", CreateCall, hash, from);
    if !m.Saved? { return Err("the wallet reported no transaction hash"); }
    TurnsOnlyAdvance(store.records, gaps[0], id);
    store.LetOthers(gaps[0]);
    var saved := store.Save(id, Entry(loaded.value.version, m.swap), stored);
    if saved.Err? { return Err("not saved"); }
    r := VerifyOrWait(store, id, saved.value, hash, n, gaps[1], gaps[2], stored);
  }

  method VerifyOrWait(store: SwapStore, id: string, mine: Entry<Swap>, hash: string, n: NodeAnswers, before: seq<Turn>, after: seq<Turn>,
                      stored: bool) returns (r: Result<Swap, string>)
    requires ValidId(id) && hash != "" && mine.version >= 1
    requires id in store.records && store.records[id] == Readable(mine)
    modifies store
    ensures stored && Quiet(before, id) && Quiet(after, id) ==>
              && r.Ok?
              && id in store.records
              && store.records[id] == Readable(Entry(mine.version + 1, match VerifyZenon(WithdrawStaleVerdict(mine.body), hash, n)
                                                                       case Saved(y) => y
                                                                       case _ => WalletPending(mine.body).swap))
  {
    hide AfterTurns, VerifyZenon, WithdrawStaleVerdict;
    TurnsOnlyAdvance(store.records, before, id);
    store.LetOthers(before);
    var loaded := store.Load(id);
    if loaded.Err? { return Err(loaded.error); }
    var m := VerifyZenonHtlc(loaded.value.body, hash, n);
    TurnsOnlyAdvance(store.records, after, id);
    store.LetOthers(after);
    var next := if m.Saved? then Entry(loaded.value.version, m.swap) else mine.(body := WalletPending(mine.body).swap);
    var saved := store.Save(id, next, stored);
    if saved.Err? { return Err("not saved"); }
    return Ok(saved.value.body);
  }
}
