/**
 Optimistic saving (wasm/store.go): a record is loaded, decided on and saved, and a save is
 refused unless the record is still at the version that was loaded. This file has the rule
 itself and what it gives every interleaving of calls.
 */
module Versioned {
  import opened Prelude

  /** A record and the number of times it was saved. */
  datatype Entry<T> = Entry(version: nat, body: T)

  /** What is stored under a key; Unreadable is a value that is not a record. */
  datatype Slot<T> = Unreadable | Readable(entry: Entry<T>)

  type Records<T> = map<string, Slot<T>>

  predicate Present<T>(recs: Records<T>, id: string) {
    id in recs && recs[id].Readable?
  }

  /** A save goes through over the version it was loaded at, over an unreadable value, or as the first of a new record. */
  predicate MaySave<T>(recs: Records<T>, id: string, version: nat) {
    if id in recs then recs[id].Unreadable? || recs[id].entry.version == version else version == 0
  }

  function Written<T>(recs: Records<T>, id: string, e: Entry<T>): Records<T> {
    recs[id := Readable(Entry(e.version + 1, e.body))]
  }

  // ---------- interleaved calls ----------

  /** A call's private copy of a record. */
  datatype Copy<T> = Copy(id: string, entry: Entry<T>)

  /** The store, the calls in flight, and every id there has ever been. */
  datatype Sys<T> = Sys(records: Records<T>, calls: map<nat, Copy<T>>, used: set<string>)

  /** What a call does next. Between any two of these, other calls may take their own steps. */
  datatype Step<!T> =
    | Load(call: nat, id: string)
    | Start(call: nat, id: string, body: T)
    | Commit(call: nat, decide: T -> T)
    | Remove(id: string)
    | Restore(id: string, entry: Entry<T>)

  /** The save succeeds. */
  predicate Succeeds<T>(sys: Sys<T>, call: nat) {
    call in sys.calls && MaySave(sys.records, sys.calls[call].id, sys.calls[call].entry.version)
  }

  /** The copy once it has been decided on; its version advances only when the save succeeds. */
  function Decided<T>(sys: Sys<T>, call: nat, decide: T -> T): Copy<T>
    requires call in sys.calls
  {
    var c := sys.calls[call];
    Copy(c.id, Entry(if Succeeds(sys, call) then c.entry.version + 1 else c.entry.version, decide(c.entry.body)))
  }

  function Next<T>(sys: Sys<T>, step: Step<T>): Sys<T> {
    match step
    case Load(call, id) =>
      if Present(sys.records, id) then sys.(calls := sys.calls[call := Copy(id, sys.records[id].entry)]) else sys
    case Start(call, id, body) =>
      Sys(sys.records, sys.calls[call := Copy(id, Entry(0, body))], sys.used + {id})
    case Commit(call, decide) =>
      if call !in sys.calls then sys
      else
        var c := sys.calls[call];
        var calls := sys.calls[call := Decided(sys, call, decide)];
        if Succeeds(sys, call)
        then Sys(Written(sys.records, c.id, Entry(c.entry.version, decide(c.entry.body))), calls, sys.used)
        else Sys(sys.records, calls, sys.used)
    case Remove(id) =>
      if Present(sys.records, id) then sys.(records := sys.records - {id}) else sys
    case Restore(id, entry) =>
      if Present(sys.records, id) then sys
      else Sys(Written(sys.records, id, entry), sys.calls, sys.used + {id})
  }

  function Exec<T>(sys: Sys<T>, steps: seq<Step<T>>): Sys<T>
    decreases |steps|
  {
    if steps == [] then sys else Exec(Next(sys, steps[0]), steps[1..])
  }

  /**
   No call in flight can come to take the imported record for the one it loaded: every copy of that id was
   saved before and is behind the version the import writes, or is the imported record itself.
   */
  predicate HarmlessImport<T(==)>(sys: Sys<T>, id: string, entry: Entry<T>) {
    forall call :: call in sys.calls && sys.calls[call].id == id ==>
      0 < sys.calls[call].entry.version
      && (sys.calls[call].entry.version <= entry.version || sys.calls[call].entry == Entry(entry.version + 1, entry.body))
  }

  /** New records get ids of their own, and an import that writes is harmless; see ImportSafeExactly. */
  predicate Permitted<T(==)>(sys: Sys<T>, step: Step<T>) {
    match step
    case Start(call, id, body) => id !in sys.used
    case Restore(id, entry) => Present(sys.records, id) || HarmlessImport(sys, id, entry)
    case _ => true
  }

  predicate AllPermitted<T(==)>(sys: Sys<T>, steps: seq<Step<T>>)
    decreases |steps|
  {
    steps == [] || (Permitted(sys, steps[0]) && AllPermitted(Next(sys, steps[0]), steps[1..]))
  }

  // ---------- one at a time ----------

  /** A whole call at once: load, decide and save with nothing in between. */
  datatype Whole<!T> =
    | Created(id: string, body: T)
    | Updated(id: string, decide: T -> T)
    | Deleted(id: string)
    | Imported(id: string, entry: Entry<T>)
    | Nothing

  function Apply<T>(recs: Records<T>, w: Whole<T>): Records<T> {
    match w
    case Created(id, body) => recs[id := Readable(Entry(1, body))]
    case Updated(id, decide) =>
      if Present(recs, id)
      then recs[id := Readable(Entry(recs[id].entry.version + 1, decide(recs[id].entry.body)))]
      else recs
    case Deleted(id) => recs - {id}
    case Imported(id, entry) => Written(recs, id, entry)
    case Nothing => recs
  }

  function ApplyAll<T>(recs: Records<T>, ws: seq<Whole<T>>): Records<T>
    decreases |ws|
  {
    if ws == [] then recs else ApplyAll(Apply(recs, ws[0]), ws[1..])
  }

  /** What a step amounts to on its own: a save that fails, like a load, is nothing. */
  function Effect<T>(sys: Sys<T>, step: Step<T>): Whole<T> {
    match step
    case Commit(call, decide) =>
      if !Succeeds(sys, call) then Nothing
      else if sys.calls[call].entry.version == 0 then Created(sys.calls[call].id, decide(sys.calls[call].entry.body))
      else Updated(sys.calls[call].id, decide)
    case Remove(id) => if Present(sys.records, id) then Deleted(id) else Nothing
    case Restore(id, entry) => if Present(sys.records, id) then Nothing else Imported(id, entry)
    case _ => Nothing
  }

  function Effects<T>(sys: Sys<T>, steps: seq<Step<T>>): seq<Whole<T>>
    decreases |steps|
  {
    if steps == [] then [] else [Effect(sys, steps[0])] + Effects(Next(sys, steps[0]), steps[1..])
  }

  // ---------- what every reachable state keeps ----------

  /**
   A copy at the stored version is the stored record, no copy is ahead of the store, and an unsaved
   record's id is not stored.
   */
  predicate CopyFits<T(==)>(sys: Sys<T>, call: nat)
    requires call in sys.calls
  {
    var c := sys.calls[call];
    && c.id in sys.used
    && (c.id in sys.records ==>
          && sys.records[c.id].Readable?
          && 1 <= c.entry.version <= sys.records[c.id].entry.version
          && (c.entry.version == sys.records[c.id].entry.version ==> c.entry == sys.records[c.id].entry))
  }

  predicate SlotFits<T>(sys: Sys<T>, id: string)
    requires id in sys.records
  {
    id in sys.used && (sys.records[id].Readable? ==> sys.records[id].entry.version >= 1)
  }

  /** An id whose record is still unsaved is one call's alone. */
  predicate OneAuthor<T>(sys: Sys<T>, a: nat, b: nat)
    requires a in sys.calls && b in sys.calls
  {
    sys.calls[a].id == sys.calls[b].id && sys.calls[a].entry.version == 0 ==> a == b
  }

  predicate Coherent<T(==)>(sys: Sys<T>) {
    && (forall id :: id in sys.records ==> SlotFits(sys, id))
    && (forall call :: call in sys.calls ==> CopyFits(sys, call))
    && (forall a, b :: a in sys.calls && b in sys.calls ==> OneAuthor(sys, a, b))
  }

  /** One step of one call is a whole call, or nothing, as far as the store can tell. */
  lemma StepIsWhole<T>(sys: Sys<T>, step: Step<T>)
    requires Coherent(sys) && Permitted(sys, step)
    ensures Coherent(Next(sys, step))
    ensures Next(sys, step).records == Apply(sys.records, Effect(sys, step))
  {
    match step
    case Load(call, id) => LoadKeeps(sys, call, id);
    case Start(call, id, body) => StartKeeps(sys, call, id, body);
    case Commit(call, decide) =>
      if Succeeds(sys, call) { CommitKeeps(sys, call, decide); } else { FailureKeeps(sys, call, decide); }
    case Remove(id) => StoreKeeps(sys, step);
    case Restore(id, entry) => StoreKeeps(sys, step);
  }

  lemma LoadKeeps<T>(sys: Sys<T>, call: nat, id: string)
    requires Coherent(sys)
    ensures Coherent(Next(sys, Load(call, id)))
  {
    var next := Next(sys, Load(call, id));
    if Present(sys.records, id) {
      assert SlotFits(sys, id);
      Rekeyed(sys, next, call);
    }
  }

  /** Giving one call a new copy leaves the others' fit alone. */
  lemma Rekeyed<T>(sys: Sys<T>, next: Sys<T>, call: nat)
    requires Coherent(sys) && next.records == sys.records && sys.used <= next.used
    requires call in next.calls && next.calls == sys.calls[call := next.calls[call]]
    requires CopyFits(next, call)
    requires (call in sys.calls && sys.calls[call].id == next.calls[call].id
              && sys.calls[call].entry.version == next.calls[call].entry.version)
             || next.calls[call].id in sys.records || next.calls[call].id !in sys.used
    ensures Coherent(next)
  {
    forall id | id in next.records ensures SlotFits(next, id) {
      assert SlotFits(sys, id);
    }
    forall k | k in next.calls ensures CopyFits(next, k) {
      if k != call { assert CopyFits(sys, k); }
    }
    forall a, b | a in next.calls && b in next.calls ensures OneAuthor(next, a, b) {
      if a != call { assert CopyFits(sys, a); }
      if b != call { assert CopyFits(sys, b); }
      if a in sys.calls && b in sys.calls { assert OneAuthor(sys, a, b); }
    }
  }

  lemma StartKeeps<T>(sys: Sys<T>, call: nat, id: string, body: T)
    requires Coherent(sys) && id !in sys.used
    ensures Coherent(Next(sys, Start(call, id, body)))
  {
    Rekeyed(sys, Next(sys, Start(call, id, body)), call);
  }

  lemma FailureKeeps<T>(sys: Sys<T>, call: nat, decide: T -> T)
    requires Coherent(sys) && !Succeeds(sys, call)
    ensures Coherent(Next(sys, Commit(call, decide)))
  {
    if call in sys.calls {
      assert CopyFits(sys, call);
      Rekeyed(sys, Next(sys, Commit(call, decide)), call);
    }
  }

  lemma StoreKeeps<T>(sys: Sys<T>, step: Step<T>)
    requires Coherent(sys) && Permitted(sys, step) && (step.Remove? || step.Restore?)
    ensures Coherent(Next(sys, step))
    ensures Next(sys, step).records == Apply(sys.records, Effect(sys, step))
  {
    var next := Next(sys, step);
    forall id | id in next.records ensures SlotFits(next, id) {
      if id in sys.records { assert SlotFits(sys, id); }
    }
    forall k | k in next.calls ensures CopyFits(next, k) {
      assert CopyFits(sys, k);
    }
    forall a, b | a in next.calls && b in next.calls ensures OneAuthor(next, a, b) {
      assert OneAuthor(sys, a, b);
    }
  }

  lemma CommitKeeps<T>(sys: Sys<T>, call: nat, decide: T -> T)
    requires Coherent(sys) && Succeeds(sys, call)
    ensures Coherent(Next(sys, Commit(call, decide)))
    ensures Next(sys, Commit(call, decide)).records == Apply(sys.records, Effect(sys, Commit(call, decide)))
  {
    var next := Next(sys, Commit(call, decide));
    assert CopyFits(sys, call);
    forall k | k in next.calls ensures CopyFits(next, k) {
      assert CopyFits(sys, k) && OneAuthor(sys, k, call);
    }
    forall a, b | a in next.calls && b in next.calls ensures OneAuthor(next, a, b) {
      assert OneAuthor(sys, a, b);
    }
  }

  /**
   Serializability. Whatever the interleaving, the store ends as if exactly the calls whose saves
   succeeded had run whole, one after another, in the order of their saves.
   */
  lemma {:induction false} Serializable<T>(sys: Sys<T>, steps: seq<Step<T>>)
    requires Coherent(sys) && AllPermitted(sys, steps)
    ensures Exec(sys, steps).records == ApplyAll(sys.records, Effects(sys, steps))
    ensures Coherent(Exec(sys, steps))
    decreases |steps|
  {
    if steps != [] {
      StepIsWhole(sys, steps[0]);
      Serializable(Next(sys, steps[0]), steps[1..]);
      var ws := Effects(sys, steps);
      assert ws[1..] == Effects(Next(sys, steps[0]), steps[1..]);
    }
  }

  // ---------- properties of one record through a run ----------

  /** A property of records, by id, and how a record may change. */
  datatype Law<!T> = Law(inv: (string, T) -> bool, change: (string, T, T) -> bool)

  ghost predicate Lawful<T(!new)>(law: Law<T>) {
    && (forall id: string, x: T :: law.change(id, x, x))
    && (forall id: string, x: T, y: T, z: T :: law.change(id, x, y) && law.change(id, y, z) ==> law.change(id, x, z))
  }

  /** The decision keeps the property and changes the record as allowed, whatever record it is given. */
  ghost predicate Decides<T(!new)>(id: string, decide: T -> T, law: Law<T>) {
    forall x: T :: law.inv(id, x) ==> law.inv(id, decide(x)) && law.change(id, x, decide(x))
  }

  ghost predicate Obeys<T(!new)>(sys: Sys<T>, step: Step<T>, law: Law<T>) {
    match step
    case Start(call, id, body) => law.inv(id, body)
    case Commit(call, decide) => call in sys.calls ==> Decides(sys.calls[call].id, decide, law)
    case Restore(id, entry) => Present(sys.records, id) || law.inv(id, entry.body)
    case _ => true
  }

  ghost predicate AllObey<T(!new)>(sys: Sys<T>, steps: seq<Step<T>>, law: Law<T>)
    decreases |steps|
  {
    steps == [] || (Obeys(sys, steps[0], law) && AllObey(Next(sys, steps[0]), steps[1..], law))
  }

  ghost predicate Holds<T(!new)>(sys: Sys<T>, law: Law<T>) {
    && (forall id :: Present(sys.records, id) ==> law.inv(id, sys.records[id].entry.body))
    && (forall call :: call in sys.calls ==> law.inv(sys.calls[call].id, sys.calls[call].entry.body))
  }

  /** A stored record was deleted, and no call has an unsaved record of its id. */
  predicate Gone<T>(sys: Sys<T>, id: string) {
    && id in sys.used && id !in sys.records
    && forall call :: call in sys.calls && sys.calls[call].id == id ==> sys.calls[call].entry.version > 0
  }

  /** No step writes an imported record of this id; an import that finds the record there skips it. */
  predicate NoImportOf<T>(sys: Sys<T>, steps: seq<Step<T>>, id: string)
    decreases |steps|
  {
    steps == []
    || ((steps[0].Restore? && steps[0].id == id ==> Present(sys.records, id)) && NoImportOf(Next(sys, steps[0]), steps[1..], id))
  }

  /** Once a stored record is deleted, nothing but an import brings it back. */
  lemma {:induction false} GoneForGood<T>(sys: Sys<T>, steps: seq<Step<T>>, id: string)
    requires Coherent(sys) && AllPermitted(sys, steps) && NoImportOf(sys, steps, id) && Gone(sys, id)
    ensures Gone(Exec(sys, steps), id)
    decreases |steps|
  {
    if steps != [] {
      StepIsWhole(sys, steps[0]);
      StaysGone(sys, steps[0], id);
      GoneForGood(Next(sys, steps[0]), steps[1..], id);
    }
  }

  lemma StaysGone<T>(sys: Sys<T>, step: Step<T>, id: string)
    requires Coherent(sys) && Permitted(sys, step) && Gone(sys, id) && (step.Restore? ==> step.id != id)
    ensures Gone(Next(sys, step), id)
  {
    if step.Load? && Present(sys.records, step.id) {
      assert SlotFits(sys, step.id);
    }
  }

  /** The record is stored at every moment of the run. */
  predicate Unbroken<T>(sys: Sys<T>, steps: seq<Step<T>>, id: string)
    decreases |steps|
  {
    Present(sys.records, id) && (steps == [] || Unbroken(Next(sys, steps[0]), steps[1..], id))
  }

  lemma StepKeeps<T(!new)>(sys: Sys<T>, step: Step<T>, law: Law<T>, id: string)
    requires Coherent(sys) && Permitted(sys, step)
    requires Lawful(law) && Holds(sys, law) && Obeys(sys, step, law)
    ensures Holds(Next(sys, step), law)
    ensures Present(sys.records, id) ==>
              var next := Next(sys, step);
              if Present(next.records, id) then law.change(id, sys.records[id].entry.body, next.records[id].entry.body)
              else Gone(next, id)
  {
    if step.Commit? && step.call in sys.calls {
      assert CopyFits(sys, step.call);
      var c := sys.calls[step.call];
      assert law.inv(c.id, c.entry.body);
      assert law.inv(c.id, step.decide(c.entry.body)) && law.change(c.id, c.entry.body, step.decide(c.entry.body));
    }
    if Present(sys.records, id) {
      assert SlotFits(sys, id);
      if step.Remove? && step.id == id {
        forall call | call in sys.calls && sys.calls[call].id == id ensures sys.calls[call].entry.version > 0 {
          assert CopyFits(sys, call);
        }
      }
    }
  }

  lemma Follows<T(!new)>(law: Law<T>, id: string, x: T, y: T, z: T)
    requires Lawful(law) && law.change(id, x, y) && law.change(id, y, z)
    ensures law.change(id, x, z)
  {
  }

  /**
   No lost updates and no revivals. In every interleaving whose decisions all keep a law, every record obeys
   it; a record stored throughout has changed only as the law allows, so no save ever put an older copy
   back; and a record that is deleted stays so unless it is imported.
   */
  lemma {:induction false} History<T(!new)>(sys: Sys<T>, steps: seq<Step<T>>, law: Law<T>, id: string)
    requires Coherent(sys) && AllPermitted(sys, steps)
    requires Lawful(law) && Holds(sys, law) && AllObey(sys, steps, law)
    ensures var end := Exec(sys, steps);
            && Holds(end, law)
            && (Unbroken(sys, steps, id) ==>
                  Present(end.records, id) && law.change(id, sys.records[id].entry.body, end.records[id].entry.body))
            && (Present(sys.records, id) && NoImportOf(sys, steps, id) ==>
                  if Present(end.records, id) then Unbroken(sys, steps, id) else Gone(end, id))
    decreases |steps|
  {
    if steps != [] {
      var next := Next(sys, steps[0]);
      hide Coherent, Permitted, Holds, Obeys, Gone, Next, Apply, Effect, Lawful;
      StepIsWhole(sys, steps[0]);
      StepKeeps(sys, steps[0], law, id);
      History(next, steps[1..], law, id);
      if Unbroken(sys, steps, id) {
        Follows(law, id, sys.records[id].entry.body, next.records[id].entry.body, Exec(sys, steps).records[id].entry.body);
      }
      if Present(sys.records, id) && !Present(next.records, id) && NoImportOf(sys, steps, id) {
        GoneForGood(next, steps[1..], id);
      }
    }
  }

  /**
   Why a deleted id must not be imported while a copy of it is in flight: versions start over, so a call that loaded the
   deleted record saves over the imported one as if it had loaded that. Whatever the two records
   are, the result is the decision on the deleted one.
   */
  lemma ReimportLosesTheImport<T>(id: string, deleted: T, imported: T, decide: T -> T)
    requires decide(deleted) != decide(imported)
    ensures var sys := Sys(map[id := Readable(Entry(1, deleted))], map[], {id});
            var steps := [Load(0, id), Remove(id), Restore(id, Entry(0, imported)), Commit(0, decide)];
            && Coherent(sys) && !AllPermitted(sys, steps)
            && Exec(sys, steps).records == map[id := Readable(Entry(2, decide(deleted)))]
            && ApplyAll(sys.records, Effects(sys, steps)) == map[id := Readable(Entry(2, decide(imported)))]
  {
    var steps := [Load(0, id), Remove(id), Restore(id, Entry(0, imported)), Commit(0, decide)];
    var copy := Copy(id, Entry(1, deleted));
    var s0 := Sys(map[id := Readable(Entry(1, deleted))], map[], {id});
    var s1 := Sys(s0.records, map[0 := copy], {id});
    var s2 := Sys(map[], map[0 := copy], {id});
    var s3 := Sys(map[id := Readable(Entry(1, imported))], map[0 := copy], {id});
    LoadAndRemove(id, deleted);
    RestoreAndCommit(id, deleted, imported, decide);
    assert Apply(s0.records, Deleted(id)) == map[];
    assert Coherent(s0);
    NothingLeft(Next(s3, steps[3]));
    hide Next, Effect, Permitted, Coherent, Exec, Effects, ApplyAll, AllPermitted;
    assert steps[1..][0] == steps[1] && steps[1..][1..] == steps[2..];
    assert steps[2..][0] == steps[2] && steps[2..][1..] == steps[3..] && steps[3..][0] == steps[3] && steps[3..][1..] == [];
    Unrolled(s0, steps);
    Unrolled(s1, steps[1..]);
    Unrolled(s2, steps[2..]);
    Unrolled(s3, steps[3..]);
  }

  lemma LoadAndRemove<T>(id: string, deleted: T)
    ensures var s0 := Sys(map[id := Readable(Entry(1, deleted))], map[], {id});
            var s1 := Sys(s0.records, map[0 := Copy(id, Entry(1, deleted))], {id});
            && Next(s0, Load(0, id)) == s1 && Effect(s0, Load(0, id)) == Nothing
            && Next(s1, Remove(id)) == Sys(map[], s1.calls, {id}) && Effect(s1, Remove(id)) == Deleted(id)
  {
    var recs: Records<T> := map[id := Readable(Entry(1, deleted))];
    assert recs - {id} == map[];
  }

  lemma RestoreAndCommit<T>(id: string, deleted: T, imported: T, decide: T -> T)
    requires deleted != imported
    ensures var s2 := Sys(map[], map[0 := Copy(id, Entry(1, deleted))], {id});
            var restore, commit := Restore(id, Entry(0, imported)), Commit(0, decide);
            var s3 := Sys(map[id := Readable(Entry(1, imported))], s2.calls, {id});
            && Next(s2, restore) == s3 && Effect(s2, restore) == Imported(id, Entry(0, imported)) && !Permitted(s2, restore)
            && Next(s3, commit).records == map[id := Readable(Entry(2, decide(deleted)))]
            && Effect(s3, commit) == Updated(id, decide)
  {
    assert {id} + {id} == {id};
    var s2 := Sys(map[], map[0 := Copy(id, Entry(1, deleted))], {id});
    assert 0 in s2.calls && s2.calls[0].entry == Entry(1, deleted);
  }

  lemma NothingLeft<T>(sys: Sys<T>)
    ensures Exec(sys, []) == sys && Effects(sys, []) == [] && forall recs: Records<T> :: ApplyAll(recs, Effects(sys, [])) == recs
  {
  }

  lemma Unrolled<T>(sys: Sys<T>, steps: seq<Step<T>>)
    requires steps != []
    ensures var next := Next(sys, steps[0]);
            && Exec(sys, steps) == Exec(next, steps[1..])
            && (AllPermitted(sys, steps) <==> Permitted(sys, steps[0]) && AllPermitted(next, steps[1..]))
            && (forall recs: Records<T> ::
                  ApplyAll(recs, Effects(sys, steps)) == ApplyAll(Apply(recs, Effect(sys, steps[0])), Effects(next, steps[1..])))
  {
    var next := Next(sys, steps[0]);
    assert Effects(sys, steps)[1..] == Effects(next, steps[1..]);
  }

  // ---------- exactly when an import is harmless ----------

  /** The store ends as if the successful calls of this continuation had run whole, in save order. */
  predicate Serial<T(==)>(sys: Sys<T>, steps: seq<Step<T>>) {
    Exec(sys, steps).records == ApplyAll(sys.records, Effects(sys, steps))
  }

  ghost predicate AlwaysSerial<T(!new)>(sys: Sys<T>) {
    forall steps: seq<Step<T>> :: AllPermitted(sys, steps) ==> Serial(sys, steps)
  }

  /** A call holds the record exactly as it is stored. */
  predicate UpToDate<T(==)>(sys: Sys<T>, call: nat, id: string) {
    call in sys.calls && sys.calls[call].id == id && Present(sys.records, id) && sys.records[id].entry == sys.calls[call].entry
    && sys.calls[call].entry.version >= 1
  }

  /** `n` ordinary saves by one call, each leaving the body `d`. */
  function Saves<T>(call: nat, n: nat, d: T): seq<Step<T>> {
    seq(n, i => Commit(call, (x: T) => d))
  }

  lemma {:induction false} RunsJoin<T>(sys: Sys<T>, a: seq<Step<T>>, b: seq<Step<T>>)
    ensures Exec(sys, a + b) == Exec(Exec(sys, a), b)
    ensures Serial(sys, a) ==> (Serial(sys, a + b) <==> Serial(Exec(sys, a), b))
    ensures (forall s :: s in a ==> !s.Start? && !s.Restore?) && (forall s :: s in b ==> !s.Start? && !s.Restore?) ==>
              AllPermitted(sys, a + b)
    decreases |a|
  {
    EffectsJoin(sys, a, b);
    assert forall s :: s in a + b ==> s in a || s in b;
    OrdinaryArePermitted(sys, a + b);
  }

  lemma {:induction false} OrdinaryArePermitted<T>(sys: Sys<T>, steps: seq<Step<T>>)
    ensures (forall s :: s in steps ==> !s.Start? && !s.Restore?) ==> AllPermitted(sys, steps)
    decreases |steps|
  {
    if steps != [] {
      assert forall s :: s in steps[1..] ==> s in steps;
      OrdinaryArePermitted(Next(sys, steps[0]), steps[1..]);
    }
  }

  lemma {:induction false} EffectsJoin<T>(sys: Sys<T>, a: seq<Step<T>>, b: seq<Step<T>>)
    ensures Exec(sys, a + b) == Exec(Exec(sys, a), b)
    ensures forall recs: Records<T> ::
              ApplyAll(recs, Effects(sys, a + b)) == ApplyAll(ApplyAll(recs, Effects(sys, a)), Effects(Exec(sys, a), b))
    decreases |a|
  {
    if a == [] {
      assert a + b == b;
    } else {
      assert (a + b)[0] == a[0] && (a + b)[1..] == a[1..] + b;
      EffectsJoin(Next(sys, a[0]), a[1..], b);
      Unrolled(sys, a + b);
      Unrolled(sys, a);
    }
  }

  /** Saves by a call that is up to date are serial, bring the version up by one each, and leave other calls alone. */
  lemma {:induction false} SavesCount<T>(sys: Sys<T>, call: nat, id: string, n: nat, d: T)
    requires UpToDate(sys, call, id)
    ensures var end := Exec(sys, Saves(call, n, d));
            && Serial(sys, Saves(call, n, d)) && UpToDate(end, call, id)
            && end.records[id].entry.version == sys.records[id].entry.version + n
            && (n > 0 ==> end.records[id].entry.body == d)
            && (forall k :: k != call && k in sys.calls ==> k in end.calls && end.calls[k] == sys.calls[k])
    decreases n
  {
    var steps := Saves(call, n, d);
    if n == 0 {
      assert steps == [];
    } else {
      var step := Commit(call, (x: T) => d);
      var next := Next(sys, step);
      OneSave(sys, call, id, d);
      SavesCount(next, call, id, n - 1, d);
      assert steps == [step] + Saves(call, n - 1, d);
      RunsJoin(sys, [step], Saves(call, n - 1, d));
      SingleStep(sys, step);
    }
  }

  lemma SingleStep<T>(sys: Sys<T>, step: Step<T>)
    ensures Exec(sys, [step]) == Next(sys, step)
    ensures Serial(sys, [step]) <==> Next(sys, step).records == Apply(sys.records, Effect(sys, step))
  {
    Unrolled(sys, [step]);
    assert [step][1..] == [];
  }

  lemma OneSave<T>(sys: Sys<T>, call: nat, id: string, d: T)
    requires UpToDate(sys, call, id)
    ensures var step := Commit(call, (x: T) => d);
            var next := Next(sys, step);
            && UpToDate(next, call, id) && next.records == Apply(sys.records, Effect(sys, step))
            && next.records[id].entry == Entry(sys.records[id].entry.version + 1, d)
            && (forall k :: k != call && k in sys.calls ==> k in next.calls && next.calls[k] == sys.calls[k])
  {
  }

  /** A call whose copy has the stored version but another body saves what no whole call would have. */
  lemma StaleCommit<T>(sys: Sys<T>, call: nat, id: string)
    requires call in sys.calls && sys.calls[call].id == id && Present(sys.records, id)
    requires sys.calls[call].entry.version == sys.records[id].entry.version >= 1
    requires sys.calls[call].entry.body != sys.records[id].entry.body
    ensures !Serial(sys, [Commit(call, (z: T) => z)])
  {
    var step := Commit(call, (z: T) => z);
    SingleStep(sys, step);
    assert Next(sys, step).records[id].entry.body == sys.calls[call].entry.body;
    assert Apply(sys.records, Effect(sys, step))[id].entry.body == sys.records[id].entry.body;
  }

  ghost predicate Ordinary<T>(steps: seq<Step<T>>) {
    forall s :: s in steps ==> !s.Start? && !s.Restore?
  }

  /** After a serial beginning of ordinary steps, a stale commit makes a continuation that is not serial. */
  lemma EndsStale<T>(sys: Sys<T>, steps: seq<Step<T>>, call: nat, id: string) returns (bad: seq<Step<T>>)
    requires Ordinary(steps) && Serial(sys, steps)
    requires var end := Exec(sys, steps);
             && call in end.calls && end.calls[call].id == id && Present(end.records, id)
             && end.calls[call].entry.version == end.records[id].entry.version >= 1
             && end.calls[call].entry.body != end.records[id].entry.body
    ensures AllPermitted(sys, bad) && !Serial(sys, bad)
  {
    var last := [Commit(call, (z: T) => z)];
    StaleCommit(Exec(sys, steps), call, id);
    RunsJoin(sys, steps, last);
    bad := steps + last;
  }

  /** A copy at or above the imported version: ordinary saves bring the store up to it. */
  lemma AheadIsUnsafe<T>(sys: Sys<T>, id: string, call: nat, d: T) returns (bad: seq<Step<T>>)
    requires Present(sys.records, id) && sys.records[id].entry.version >= 1
    requires call in sys.calls && sys.calls[call].id == id && sys.calls[call].entry.version >= sys.records[id].entry.version
    requires sys.calls[call].entry.version == sys.records[id].entry.version ==>
               sys.calls[call].entry.body != sys.records[id].entry.body
    requires d != sys.calls[call].entry.body
    ensures AllPermitted(sys, bad) && !Serial(sys, bad)
  {
    var other := call + 1;
    var n := sys.calls[call].entry.version - sys.records[id].entry.version;
    var load: Step<T> := Load(other, id);
    var loaded := Next(sys, load);
    SingleStep(sys, load);
    assert UpToDate(loaded, other, id);
    SavesCount(loaded, other, id, n, d);
    RunsJoin(sys, [load], Saves(other, n, d));
    bad := EndsStale(sys, [load] + Saves(other, n, d), call, id);
  }

  /** An unsaved record of the imported id: deleting the import lets it be created, and a copy of the import is stale. */
  lemma UnsavedIsUnsafe<T>(sys: Sys<T>, id: string, call: nat, d: T) returns (bad: seq<Step<T>>)
    requires Present(sys.records, id) && sys.records[id].entry.version >= 1
    requires call in sys.calls && sys.calls[call].id == id && sys.calls[call].entry.version == 0
    requires d != sys.records[id].entry.body
    ensures AllPermitted(sys, bad) && !Serial(sys, bad)
  {
    var other := call + 1;
    var n := sys.records[id].entry.version - 1;
    var load: Step<T>, remove: Step<T>, create := Load(other, id), Remove(id), Commit(call, (x: T) => d);
    var s1 := Next(sys, load);
    var s2 := Next(s1, remove);
    var s3 := Next(s2, create);
    SingleStep(sys, load);
    SingleStep(s1, remove);
    SingleStep(s2, create);
    assert UpToDate(s3, call, id) && s3.records[id].entry == Entry(1, d);
    SavesCount(s3, call, id, n, d);
    RunsJoin(sys, [load], [remove]);
    RunsJoin(sys, [load] + [remove], [create]);
    RunsJoin(sys, [load] + [remove] + [create], Saves(call, n, d));
    bad := EndsStale(sys, [load] + [remove] + [create] + Saves(call, n, d), other, id);
  }

  /**
   The exact condition on importing an id that is not stored, deleted ones included: every continuation is
   serializable if and only if no call in flight can come to take the import for what it loaded. That takes a
   type with two values to tell apart; over a type with one value nothing can be lost.
   */
  lemma ImportSafeExactly<T(!new)>(sys: Sys<T>, id: string, entry: Entry<T>, x: T, y: T)
    requires Coherent(sys) && !Present(sys.records, id) && x != y
    ensures HarmlessImport(sys, id, entry) <==> AlwaysSerial(Next(sys, Restore(id, entry)))
  {
    var next := Next(sys, Restore(id, entry));
    if HarmlessImport(sys, id, entry) {
      StepIsWhole(sys, Restore(id, entry));
      forall steps: seq<Step<T>> | AllPermitted(next, steps) ensures Serial(next, steps) {
        Serializable(next, steps);
      }
    } else {
      var bad := HarmfulImport(sys, id, entry, x, y);
      assert AllPermitted(next, bad) && !Serial(next, bad);
    }
  }

  lemma HarmfulImport<T>(sys: Sys<T>, id: string, entry: Entry<T>, x: T, y: T) returns (bad: seq<Step<T>>)
    requires !Present(sys.records, id) && x != y && !HarmlessImport(sys, id, entry)
    ensures var next := Next(sys, Restore(id, entry));
            AllPermitted(next, bad) && !Serial(next, bad)
  {
    var next := Next(sys, Restore(id, entry));
    var call :| call in sys.calls && sys.calls[call].id == id
                && !(0 < sys.calls[call].entry.version
                     && (sys.calls[call].entry.version <= entry.version
                         || sys.calls[call].entry == Entry(entry.version + 1, entry.body)));
    if sys.calls[call].entry.version == 0 {
      bad := UnsavedIsUnsafe(next, id, call, if x != entry.body then x else y);
    } else {
      bad := AheadIsUnsafe(next, id, call, if x != sys.calls[call].entry.body then x else y);
    }
  }
}
