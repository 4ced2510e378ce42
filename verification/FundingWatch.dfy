/**
 What a refresh learns about a contract's money: which output is the funding, what it pays, how
 deep it is, and how it was spent (wasm/manager.go). A node's answers are inputs; it may say anything.
 */
module FundingWatch {
  import opened Prelude
  import opened Engine
  import opened Spend
  import opened SwapRecord

  const CONFIRMATIONS_TRACKED := 6

  /** One line of a node's listing of an address. */
  datatype Utxo = Utxo(outpoint: OutPoint, value: int, confirmed: bool, height: int)

  datatype TxIn = TxIn(outpoint: OutPoint, sigScript: Bytes)

  datatype TxOut = TxOut(value: int, pkScript: Bytes)

  /** A transaction as served, with the id its own bytes hash to. */
  datatype RawTx = RawTx(txid: Bytes, inputs: seq<TxIn>, outputs: seq<TxOut>)

  datatype TxStatus = TxStatus(confirmed: bool, height: int)

  // ---------- choosing the funding ----------

  predicate FundingIsOpen(sw: Swap) {
    && !sw.state.Redeemed? && !sw.state.Refunded?
    && sw.redeemTx.None?
    && (sw.funding.None? || sw.funding.value.value < sw.amountSats)
  }

  /** The better of what was chosen so far and one more output. */
  function Better(best: Option<Utxo>, u: Utxo, want: int): Option<Utxo> {
    if u.value <= 0 then best
    else if best.None? then Some(u)
    else if (u.value >= want) != (best.value.value >= want) then (if u.value >= want then Some(u) else best)
    else if u.value > best.value.value then Some(u)
    else best
  }

  function Picked(utxos: seq<Utxo>, want: int): Option<Utxo>
    decreases |utxos|
  {
    if utxos == [] then None else Better(Picked(utxos[..|utxos| - 1], want), utxos[|utxos| - 1], want)
  }

  method PickFunding(utxos: seq<Utxo>, want: int) returns (best: Option<Utxo>)
    ensures best == Picked(utxos, want)
  {
    best := None;
    var i := 0;
    while i < |utxos|
      invariant 0 <= i <= |utxos|
      invariant best == Picked(utxos[..i], want)
    {
      var u := utxos[i];
      assert utxos[..i + 1][..i] == utxos[..i];
      i := i + 1;
      if u.value <= 0 { continue; }
      if best.None? {
        best := Some(u);
        continue;
      }
      var covers, bestCovers := u.value >= want, best.value.value >= want;
      if covers != bestCovers {
        if covers { best := Some(u); }
        continue;
      }
      if u.value > best.value.value { best := Some(u); }
    }
    assert utxos[..i] == utxos;
  }

  /** A stray dust payment never stands in for the real one: the largest positive output is chosen, whatever the order. */
  lemma {:induction false} PicksTheLargest(utxos: seq<Utxo>, want: int)
    ensures var best := Picked(utxos, want);
            if best.Some? then best.value in utxos && best.value.value > 0 && forall u :: u in utxos ==> u.value <= best.value.value
            else forall u :: u in utxos ==> u.value <= 0
    decreases |utxos|
  {
    if utxos != [] {
      var before, last := utxos[..|utxos| - 1], utxos[|utxos| - 1];
      PicksTheLargest(before, want);
      assert utxos == before + [last];
    }
  }

  // ---------- what the funding pays ----------

  /** Why a funding could not be bound to the contract. */
  datatype Binding = Bound | Unread | PaysAnother

  /** What the transaction says about the recorded outpoint; Unread covers every answer that does not describe it. */
  ghost function ReadBinding(f: Funding, contract: Bytes, tx: Option<RawTx>, c: Crypto): Binding
    requires Digests(c)
  {
    if tx.None? || tx.value.txid != f.outpoint.txid || f.outpoint.vout >= |tx.value.outputs|
       || tx.value.outputs[f.outpoint.vout].value != f.value
    then Unread
    else if tx.value.outputs[f.outpoint.vout].pkScript != ContractPkScript(contract, c) then PaysAnother
    else Bound
  }

  ghost function BindingOf(sw: Swap, tx: Option<RawTx>, c: Crypto): Binding
    requires Digests(c)
  {
    if sw.funding.None? then Bound
    else if sw.funding.value.pkScript.None? then ReadBinding(sw.funding.value, sw.contract, tx, c)
    else if BindsTo(sw.funding.value, sw.contract, c) then Bound
    else PaysAnother
  }

  /** The record after the attempt: the script is written down only when it is this contract's. */
  ghost function WithBinding(sw: Swap, tx: Option<RawTx>, c: Crypto): Swap
    requires Digests(c)
  {
    if sw.funding.Some? && BindingOf(sw, tx, c) == Bound
    then sw.(funding := Some(sw.funding.value.(pkScript := Some(ContractPkScript(sw.contract, c)))))
    else sw
  }

  /**
   Records what the funding pays, from the funding transaction itself. A funding whose script is not known yet is
   bound exactly when the transaction asked for was served and its output there pays this contract the
   recorded value; one whose script is known is bound exactly when that is this contract's. Only a binding
   changes the record, and only by writing this contract's script down.
   */
  method BindFunding(swap: Swap, tx: Option<RawTx>, c: Crypto) returns (sw: Swap, b: Binding)
    requires Digests(c)
    ensures b == BindingOf(swap, tx, c)
    ensures sw == WithBinding(swap, tx, c) && sw.key == swap.key
    ensures swap.funding.None? ==> b == Bound && sw == swap
    ensures swap.funding.Some? && swap.funding.value.pkScript.None? ==>
              var f, script := swap.funding.value, ContractPkScript(swap.contract, c);
              && (b == Bound <==>
                    tx.Some? && tx.value.txid == f.outpoint.txid && f.outpoint.vout < |tx.value.outputs|
                    && tx.value.outputs[f.outpoint.vout] == TxOut(f.value, script))
              && (b == PaysAnother <==>
                    tx.Some? && tx.value.txid == f.outpoint.txid && f.outpoint.vout < |tx.value.outputs|
                    && tx.value.outputs[f.outpoint.vout].value == f.value && tx.value.outputs[f.outpoint.vout].pkScript != script)
    ensures swap.funding.Some? && swap.funding.value.pkScript.Some? ==>
              && b == (if swap.funding.value.pkScript.value == ContractPkScript(swap.contract, c) then Bound else PaysAnother)
              && sw == swap
    ensures b != Bound ==> sw == swap
    ensures b == Bound && swap.funding.Some? ==>
              sw == swap.(funding := Some(swap.funding.value.(pkScript := Some(ContractPkScript(swap.contract, c)))))
  {
    sw := swap;
    if sw.funding.None? { return sw, Bound; }
    var f := sw.funding.value;
    var want := ContractPkScript(sw.contract, c);
    if f.pkScript.None? {
      if tx.None? { return sw, Unread; }
      if tx.value.txid != f.outpoint.txid { return sw, Unread; }
      if f.outpoint.vout >= |tx.value.outputs| { return sw, Unread; }
      var out := tx.value.outputs[f.outpoint.vout];
      if out.value != f.value { return sw, Unread; }
      if out.pkScript != want { return sw, PaysAnother; }
      f := f.(pkScript := Some(out.pkScript));
      sw := sw.(funding := Some(f));
    }
    if f.pkScript.value != want { return sw, PaysAnother; }
    return sw, Bound;
  }

  // ---------- adopting an output ----------

  function AsFunding(u: Utxo): Funding {
    Funding(u.outpoint, u.value, u.confirmed, 0, None)
  }

  predicate Changes(sw: Swap, best: Option<Utxo>) {
    best.Some? && (sw.funding.None? || best.value.value > sw.funding.value.value)
  }

  /** The record once the best listed output replaces what was there, if it is better. */
  ghost function Adopted(sw: Swap, utxos: seq<Utxo>, tx: Option<RawTx>, c: Crypto): Swap
    requires Digests(c)
  {
    var best := Picked(utxos, sw.amountSats);
    if !Changes(sw, best) then sw
    else if sw.funding.None? then WithBinding(sw.(state := Funded, funding := Some(AsFunding(best.value))), tx, c)
    else WithBinding(sw.(refundTx := None, funding := Some(AsFunding(best.value))), tx, c)
  }

  /** The funding is this listed output, not counted yet. */
  predicate Adopts(f: Funding, u: Utxo) {
    f.outpoint == u.outpoint && f.value == u.value > 0 && f.confirmed == u.confirmed && f.confirmations == 0
  }

  method AdoptFunding(swap: Swap, utxos: seq<Utxo>, tx: Option<RawTx>, c: Crypto) returns (sw: Swap)
    requires Digests(c)
    ensures sw == Adopted(swap, utxos, tx, c) && sw.key == swap.key
    ensures (forall u | u in utxos :: u.value <= 0 || (swap.funding.Some? && u.value <= swap.funding.value.value)) <==> sw == swap
    ensures sw != swap ==>
              && sw.funding.Some? && (exists u | u in utxos :: Adopts(sw.funding.value, u))
              && (forall u | u in utxos :: u.value <= sw.funding.value.value)
              && (swap.funding.None? ==> sw.state == Funded && sw.refundTx == swap.refundTx)
              && (swap.funding.Some? ==> sw.state == swap.state && sw.refundTx == None)
              && sw.(funding := swap.funding, state := swap.state, refundTx := swap.refundTx) == swap
    ensures sw != swap ==>
              var f, script := sw.funding.value, ContractPkScript(sw.contract, c);
              f.pkScript == if tx.Some? && tx.value.txid == f.outpoint.txid && f.outpoint.vout < |tx.value.outputs|
                               && tx.value.outputs[f.outpoint.vout] == TxOut(f.value, script) then Some(script) else None
  {
    hide WithBinding;
    PicksTheLargest(utxos, swap.amountSats);
    sw := swap;
    var best := PickFunding(utxos, sw.amountSats);
    if best.Some? && (sw.funding.None? || best.value.value > sw.funding.value.value) {
      if sw.funding.None? {
        sw := sw.(state := Funded);
      } else {
        sw := sw.(refundTx := None);
      }
      sw := sw.(funding := Some(AsFunding(best.value)));
      var b;
      sw, b := BindFunding(sw, tx, c);
    }
  }

  // ---------- depth ----------

  function DepthOf(status: TxStatus, tip: Option<int>, before: int): int {
    if !status.confirmed || status.height <= 0 then 0
    else if tip.None? || tip.value < status.height then before
    else Min(tip.value - status.height + 1, CONFIRMATIONS_TRACKED)
  }

  function WithDepth(sw: Swap, status: Option<TxStatus>, tip: Option<int>): Swap {
    if sw.funding.None? || sw.funding.value.confirmations >= CONFIRMATIONS_TRACKED || status.None? then sw
    else
      var f := sw.funding.value;
      sw.(funding := Some(f.(confirmed := status.value.confirmed,
                             confirmations := DepthOf(status.value, tip, f.confirmations))))
  }

  /** A recorded depth: a number of blocks the program bothers to count. */
  predicate DepthInRange(sw: Swap) {
    sw.funding.Some? ==> 0 <= sw.funding.value.confirmations <= CONFIRMATIONS_TRACKED
  }

  /**
   Counts how deep the funding is. The depth stays between zero and six; it is zero for a payment that
   is not, or no longer, in a block; and with the tip known it is the number of blocks from the
   payment's own to the tip, cut off at six. A depth of six is never looked at again. Nothing but
   the depth and the mined flag is touched.
   */
  method TrackFundingDepth(swap: Swap, status: Option<TxStatus>, tip: Option<int>) returns (sw: Swap)
    ensures sw == WithDepth(swap, status, tip) && sw.key == swap.key
    ensures DepthInRange(swap) ==> DepthInRange(sw)
    ensures sw.(funding := swap.funding) == swap && (sw.funding.Some? <==> swap.funding.Some?)
    ensures swap.funding.Some? ==>
              sw.funding.value.(confirmed := swap.funding.value.confirmed, confirmations := swap.funding.value.confirmations)
              == swap.funding.value
    ensures swap.funding.Some? && swap.funding.value.confirmations >= CONFIRMATIONS_TRACKED ==> sw == swap
    ensures swap.funding.Some? && swap.funding.value.confirmations < CONFIRMATIONS_TRACKED && status.Some? ==>
              && sw.funding.value.confirmed == status.value.confirmed
              && (!status.value.confirmed || status.value.height <= 0 ==> sw.funding.value.confirmations == 0)
              && (status.value.confirmed && 0 < status.value.height && tip.Some? && status.value.height <= tip.value ==>
                    && 1 <= sw.funding.value.confirmations
                    && status.value.height + sw.funding.value.confirmations <= tip.value + 1
                    && (status.value.height + sw.funding.value.confirmations == tip.value + 1
                        || sw.funding.value.confirmations == CONFIRMATIONS_TRACKED))
  {
    sw := swap;
    if sw.funding.None? || sw.funding.value.confirmations >= CONFIRMATIONS_TRACKED { return; }
    if status.None? { return; }
    var f := sw.funding.value.(confirmed := status.value.confirmed);
    sw := sw.(funding := Some(f));
    if !status.value.confirmed || status.value.height <= 0 {
      sw := sw.(funding := Some(f.(confirmations := 0)));
      return;
    }
    if tip.None? || tip.value < status.value.height { return; }
    sw := sw.(funding := Some(f.(confirmations := Min(tip.value - status.value.height + 1, CONFIRMATIONS_TRACKED))));
  }

  // ---------- how it was spent ----------

  function SigScripts(inputs: seq<TxIn>): seq<Bytes> {
    seq(|inputs|, i requires 0 <= i < |inputs| => inputs[i].sigScript)
  }

  predicate SpendsOutput(tx: RawTx, o: OutPoint) {
    exists input :: input in tx.inputs && input.outpoint == o
  }

  /** The record once a transaction is read as the one that spent its funding. */
  function Absorbed(sw: Swap, tx: Option<RawTx>, c: Crypto): Swap
    requires sw.funding.Some?
  {
    if tx.None? || !SpendsOutput(tx.value, sw.funding.value.outpoint) then sw
    else
      match ExtractSecret(SigScripts(tx.value.inputs), sw.secretHash, c)
      case None => sw.(state := Refunded)
      case Some(secret) => sw.(secret := if sw.secret == [] then secret else sw.secret, state := Redeemed)
  }

  /**
   Files a transaction as the way the funding was spent. One that does not spend it changes nothing; one that pushes
   a preimage of the hash anywhere is a redeem, and teaches it to a record without one; any other is a refund.
   */
  method AbsorbSpend(swap: Swap, tx: Option<RawTx>, c: Crypto) returns (sw: Swap)
    requires swap.funding.Some?
    ensures sw == Absorbed(swap, tx, c)
    ensures tx.None? || (forall input | input in tx.value.inputs :: input.outpoint != swap.funding.value.outpoint) ==> sw == swap
    ensures tx.Some? && (exists input | input in tx.value.inputs :: input.outpoint == swap.funding.value.outpoint) ==>
              var scripts := SigScripts(tx.value.inputs);
              if exists p :: Revealed(scripts, swap.secretHash, c, p)
              then && sw == swap.(state := Redeemed, secret := sw.secret)
                   && (if swap.secret == [] then Revealed(scripts, swap.secretHash, c, sw.secret) else sw.secret == swap.secret)
              else sw == swap.(state := Refunded)
  {
    sw := swap;
    if tx.None? { return; }
    var inputs := tx.value.inputs;
    var spendsOurs := false;
    var sigScripts: seq<Bytes> := [];
    var i := 0;
    while i < |inputs|
      invariant 0 <= i <= |inputs|
      invariant sigScripts == SigScripts(inputs[..i])
      invariant spendsOurs <==> exists input :: input in inputs[..i] && input.outpoint == sw.funding.value.outpoint
    {
      sigScripts := sigScripts + [inputs[i].sigScript];
      assert inputs[..i + 1] == inputs[..i] + [inputs[i]];
      if inputs[i].outpoint == sw.funding.value.outpoint {
        spendsOurs := true;
      }
      i := i + 1;
    }
    assert inputs[..i] == inputs;
    if !spendsOurs { return; }
    var secret := ScanForSecret(sigScripts, sw.secretHash, c);
    ExtractSecretExactly(sigScripts, sw.secretHash, c);
    if secret.None? {
      sw := sw.(state := Refunded);
      return;
    }
    if sw.secret == [] { sw := sw.(secret := secret.value); }
    sw := sw.(state := Redeemed);
  }
}
