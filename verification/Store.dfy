/** The browser's store of swaps (wasm/store.go), and deleting from it (wasm/api.go). */
module Store {
  import opened Prelude
  import opened SwapRecord
  import opened Versioned

  predicate IsHexDigit(ch: char) {
    '0' <= ch <= '9' || 'a' <= ch <= 'f'
  }

  predicate ValidId(id: string) {
    1 <= |id| <= 64 && forall i :: 0 <= i < |id| ==> IsHexDigit(id[i])
  }

  datatype SaveError = InvalidId | Stale | NotStored

  /** The contract may hold money this browser has not seen spent. */
  predicate DeletionRisk(sw: Swap) {
    !sw.state.Redeemed? && !sw.state.Refunded? && sw.contractAddr != []
  }

  /** What another call does to the store in one of its own atomic steps. */
  datatype Turn = Wrote(id: string, body: Swap) | Took(id: string)

  function AfterTurn(recs: Records<Swap>, t: Turn): Records<Swap> {
    match t
    case Wrote(id, body) =>
      if Present(recs, id) then recs[id := Readable(Entry(recs[id].entry.version + 1, body))] else recs
    case Took(id) => if Present(recs, id) then recs - {id} else recs
  }

  function AfterTurns(recs: Records<Swap>, ts: seq<Turn>): Records<Swap>
    decreases |ts|
  {
    if ts == [] then recs else AfterTurn(AfterTurns(recs, ts[..|ts| - 1]), ts[|ts| - 1])
  }

  /** A record other calls may have changed is gone, newer, or exactly as it was. */
  predicate Later(before: Records<Swap>, now: Records<Swap>, id: string) {
    Present(before, id) ==>
      id !in now
      || (&& Present(now, id)
          && now[id].entry.version >= before[id].entry.version
          && (now[id].entry.version == before[id].entry.version ==> now[id] == before[id]))
  }

  lemma {:induction false} TurnsOnlyAdvance(recs: Records<Swap>, ts: seq<Turn>, id: string)
    ensures Later(recs, AfterTurns(recs, ts), id)
    ensures Present(AfterTurns(recs, ts), id) ==> Present(recs, id)
    ensures (forall t :: t in ts ==> t.id != id) && id in recs ==>
              id in AfterTurns(recs, ts) && AfterTurns(recs, ts)[id] == recs[id]
    decreases |ts|
  {
    if ts != [] {
      TurnsOnlyAdvance(recs, ts[..|ts| - 1], id);
    }
  }

  /** A record in a backup file; `valid` is whether it could have come out of this program. */
  datatype Document = NoRecord | Record(id: string, entry: Entry<Swap>, valid: bool)

  predicate Importable(d: Document) {
    d.Record? && d.valid && ValidId(d.id)
  }

  /** What importing the first documents leaves: each valid one written where nothing readable was. */
  function Imports(recs: Records<Swap>, docs: seq<Document>): Records<Swap>
    decreases |docs|
  {
    if docs == [] then recs
    else
      var before, d := Imports(recs, docs[..|docs| - 1]), docs[|docs| - 1];
      if Importable(d) && !Present(before, d.id) then Written(before, d.id, d.entry) else before
  }

  class SwapStore {
    var records: Records<Swap>

    /** Writes a record if it is still the one that was loaded. `stored` is whether the browser took the write. */
    method Save(id: string, e: Entry<Swap>, stored: bool) returns (r: Result<Entry<Swap>, SaveError>)
      modifies this
      ensures r.Ok? <==> ValidId(id) && MaySave(old(records), id, e.version) && stored
      ensures r.Ok? ==> r.value == Entry(e.version + 1, e.body) && records == Written(old(records), id, e)
      ensures r.Err? ==> records == old(records)
      ensures r == Err(Stale) <==> ValidId(id) && !MaySave(old(records), id, e.version)
    {
      if !ValidId(id) { return Err(InvalidId); }
      if id in records {
        if records[id].Readable? && records[id].entry.version != e.version { return Err(Stale); }
      } else if e.version != 0 {
        return Err(Stale);
      }
      var next := Entry(e.version + 1, e.body);
      if !stored { return Err(NotStored); }
      records := records[id := Readable(next)];
      return Ok(next);
    }

    /** Writes a record only where there is none that can be read; `r` says whether it did. */
    method SaveIfAbsent(id: string, e: Entry<Swap>, stored: bool) returns (r: Result<bool, SaveError>)
      modifies this
      ensures !ValidId(id) ==> r == Err(InvalidId)
      ensures ValidId(id) && Present(old(records), id) ==> r == Ok(false)
      ensures ValidId(id) && !Present(old(records), id) ==> r == if stored then Ok(true) else Err(NotStored)
      ensures records == if r == Ok(true) then Written(old(records), id, e) else old(records)
    {
      if !ValidId(id) { return Err(InvalidId); }
      if id in records && records[id].Readable? { return Ok(false); }
      if !stored { return Err(NotStored); }
      records := records[id := Readable(Entry(e.version + 1, e.body))];
      return Ok(true);
    }

    /** Every record that is loaded loses a verdict it should not have. */
    method Load(id: string) returns (r: Result<Entry<Swap>, string>)
      ensures r.Ok? <==> ValidId(id) && Present(records, id)
      ensures r.Ok? ==> r.value == Entry(records[id].entry.version, WithdrawStaleVerdict(records[id].entry.body))
    {
      if !ValidId(id) { return Err("invalid swap id"); }
      if id !in records { return Err("no swap with this id"); }
      if records[id].Unreadable? { return Err("swap record is corrupt"); }
      var e := records[id].entry;
      return Ok(e.(body := WithdrawStaleVerdict(e.body)));
    }

    /** Removes a record, judging the risk on the record as it is at that moment. */
    method Delete(id: string, force: bool) returns (r: Result<(), string>)
      modifies this
      ensures r.Ok? <==> ValidId(id) && Present(old(records), id) && (force || !DeletionRisk(old(records)[id].entry.body))
      ensures records == if r.Ok? then old(records) - {id} else old(records)
      ensures ValidId(id) && Present(old(records), id) && !force ==>
                var sw := old(records)[id].entry.body;
                (r.Err? <==> sw.contractAddr != [] && sw.state != Redeemed && sw.state != Refunded)
    {
      var loaded := Load(id);
      if loaded.Err? { return Err(loaded.error); }
      if DeletionRisk(loaded.value.body) && !force { return Err("this swap's contract may hold money"); }
      records := records - {id};
      return Ok(());
    }

    /**
     Restores a backup, never over a record that is there. `room` is how many more writes the browser takes; the
     first one it does not take stops the import, with what was written before it left in place.
     */
    method Import(docs: seq<Document>, room: nat) returns (added: nat, skipped: nat, rejected: nat, stored: bool)
      modifies this
      ensures added + skipped + rejected <= |docs| && added <= room
      ensures records == Imports(old(records), docs[..added + skipped + rejected])
      ensures stored <==> added + skipped + rejected == |docs|
      ensures !stored ==> var n := added + skipped + rejected;
                          added == room && Importable(docs[n]) && !Present(records, docs[n].id)
      ensures added == 0 ==> records == old(records)
    {
      added, skipped, rejected, stored := 0, 0, 0, true;
      var i := 0;
      while i < |docs|
        invariant 0 <= i <= |docs| && added + skipped + rejected == i && added <= room && stored
        invariant records == Imports(old(records), docs[..i])
        invariant added == 0 ==> records == old(records)
      {
        var d := docs[i];
        assert docs[..i + 1][..i] == docs[..i];
        if d.NoRecord? || !d.valid || !ValidId(d.id) {
          rejected := rejected + 1;
          i := i + 1;
          continue;
        }
        var wrote := SaveIfAbsent(d.id, d.entry, added < room);
        if wrote.Err? {
          stored := false;
          return;
        }
        if wrote.value { added := added + 1; } else { skipped := skipped + 1; }
        i := i + 1;
      }
      assert docs[..i] == docs;
    }

    /** Other calls take their turns. */
    method LetOthers(ts: seq<Turn>)
      modifies this
      ensures records == AfterTurns(old(records), ts)
    {
      var i := 0;
      while i < |ts|
        invariant 0 <= i <= |ts|
        invariant records == AfterTurns(old(records), ts[..i])
      {
        assert ts[..i + 1][..i] == ts[..i];
        match ts[i] {
          case Wrote(id, body) =>
            if id in records && records[id].Readable? {
              records := records[id := Readable(Entry(records[id].entry.version + 1, body))];
            }
          case Took(id) =>
            if id in records && records[id].Readable? {
              records := records - {id};
            }
        }
        i := i + 1;
      }
      assert ts[..i] == ts;
    }
  }

  /** A document that may be restored under this id. */
  predicate Offers(docs: seq<Document>, id: string) {
    exists d :: d in docs && Restores(d, id)
  }

  predicate Restores(d: Document, id: string) {
    d.Record? && d.valid && d.id == id && 1 <= |id| <= 64 && forall i :: 0 <= i < |id| ==> '0' <= id[i] <= '9' || 'a' <= id[i] <= 'f'
  }

  /** The stored record is what one of the documents restores. */
  predicate ComesFrom(docs: seq<Document>, id: string, e: Entry<Swap>) {
    exists d :: d in docs && Restores(d, id) && e == Entry(d.entry.version + 1, d.entry.body)
  }

  /** An import never touches a record that can be read, and whatever it adds is one of the documents. */
  lemma {:induction false} ImportNeverOverwrites(recs: Records<Swap>, docs: seq<Document>, id: string)
    ensures var after := Imports(recs, docs);
            && (Present(recs, id) ==> id in after && after[id] == recs[id])
            && (!Present(recs, id) && Offers(docs, id) ==> Present(after, id) && ComesFrom(docs, id, after[id].entry))
            && (!Present(recs, id) && !Offers(docs, id) ==> !Present(after, id))
    decreases |docs|
  {
    if docs != [] {
      var before, last := docs[..|docs| - 1], docs[|docs| - 1];
      ImportNeverOverwrites(recs, before, id);
      assert docs == before + [last];
      assert Importable(last) && last.id == id <==> Restores(last, id);
      if !Present(recs, id) && !Offers(before, id) {
        assert !Present(Imports(recs, before), id);
      }
    }
  }
}
