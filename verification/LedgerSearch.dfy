/** Searching the Zenon ledger for a preimage or for a create (wasm/znn/ledger.go). */
module LedgerSearch {
  import opened Prelude
  import opened HtlcAbi

  const HTLC_CONTRACT := "z1qxemdeddedxhtlcxxxxxxxxxxxxxxxxxygecvw"

  /** An account block and the blocks batched under it; Absent is a null entry in a node's answer. */
  datatype Block = Absent | Block(hash: string, toAddress: string, data: Bytes, fromBlockHash: string,
                                  at: int, descendants: seq<Block>)

  datatype Page = Page(list: seq<Block>, more: bool)

  /** Whatever a node answers: a page of an address's chain, newest first, or a block by hash. */
  datatype Node = Node(page: (string, nat) -> Option<Page>, block: string -> Option<Block>)

  type Hash = Bytes -> Bytes

  predicate ToHtlc(b: Block) {
    b.Block? && b.toAddress == HTLC_CONTRACT
  }

  /** The window of 32 bytes at `i` hashes to `hash`. */
  predicate WindowAt(data: Bytes, hash: Bytes, sha: Hash, i: nat) {
    i + HASH_SIZE <= |data| && sha(data[i..i + HASH_SIZE]) == hash
  }

  ghost predicate HasWindow(data: Bytes, hash: Bytes, sha: Hash) {
    exists i: nat :: WindowAt(data, hash, sha, i)
  }

  /** The first window from `i` on that hashes to `hash`. */
  function ScanFrom(data: Bytes, hash: Bytes, sha: Hash, i: nat): Option<Bytes>
    decreases |data| - i
  {
    if i + HASH_SIZE > |data| then None
    else if sha(data[i..i + HASH_SIZE]) == hash then Some(data[i..i + HASH_SIZE])
    else ScanFrom(data, hash, sha, i + 1)
  }

  method ScanForPreimage(data: Bytes, hash: Bytes, sha: Hash) returns (r: Option<Bytes>)
    ensures r == ScanFrom(data, hash, sha, 0)
  {
    if |data| < HASH_SIZE { return None; }
    var i := 0;
    while i + HASH_SIZE <= |data|
      invariant 0 <= i <= |data|
      invariant ScanFrom(data, hash, sha, 0) == ScanFrom(data, hash, sha, i)
    {
      if sha(data[i..i + HASH_SIZE]) == hash { return Some(data[i..i + HASH_SIZE]); }
      i := i + 1;
    }
    return None;
  }

  lemma {:induction false} ScanExactly(data: Bytes, hash: Bytes, sha: Hash, i: nat)
    ensures var r := ScanFrom(data, hash, sha, i);
            && (r.Some? <==> exists k: nat :: k >= i && WindowAt(data, hash, sha, k))
            && (r.Some? ==> |r.value| == HASH_SIZE && sha(r.value) == hash)
    decreases |data| - i
  {
    if i + HASH_SIZE <= |data| {
      if sha(data[i..i + HASH_SIZE]) == hash {
        assert WindowAt(data, hash, sha, i);
      } else {
        ScanExactly(data, hash, sha, i + 1);
        assert !WindowAt(data, hash, sha, i);
      }
    }
  }

  /** One block, then the blocks batched under it. */
  function SearchBlock(b: Block, hash: Bytes, sha: Hash): Option<Bytes>
    decreases b
  {
    if b.Absent? then None
    else if ToHtlc(b) && ScanFrom(b.data, hash, sha, 0).Some? then ScanFrom(b.data, hash, sha, 0)
    else SearchAll(b.descendants, hash, sha)
  }

  function SearchAll(bs: seq<Block>, hash: Bytes, sha: Hash): Option<Bytes>
    decreases bs
  {
    if bs == [] then None
    else if SearchBlock(bs[0], hash, sha).Some? then SearchBlock(bs[0], hash, sha)
    else SearchAll(bs[1..], hash, sha)
  }

  /** Some call to the contract, in this block or under it, carries a preimage. */
  ghost predicate Holds(b: Block, hash: Bytes, sha: Hash)
    decreases b
  {
    b.Block? && ((ToHtlc(b) && HasWindow(b.data, hash, sha)) || exists d :: d in b.descendants && Holds(d, hash, sha))
  }

  predicate Preimage(p: Bytes, hash: Bytes, sha: Hash) {
    |p| == HASH_SIZE && sha(p) == hash
  }

  lemma {:induction false} SearchBlockExactly(b: Block, hash: Bytes, sha: Hash)
    ensures SearchBlock(b, hash, sha).Some? <==> Holds(b, hash, sha)
    ensures SearchBlock(b, hash, sha).Some? ==> Preimage(SearchBlock(b, hash, sha).value, hash, sha)
    decreases b
  {
    if b.Block? {
      ScanExactly(b.data, hash, sha, 0);
      SearchAllExactly(b.descendants, hash, sha);
      if HasWindow(b.data, hash, sha) {
        var i: nat :| WindowAt(b.data, hash, sha, i);
        assert i >= 0;
      }
    }
  }

  lemma {:induction false} SearchAllExactly(bs: seq<Block>, hash: Bytes, sha: Hash)
    ensures SearchAll(bs, hash, sha).Some? <==> exists d :: d in bs && Holds(d, hash, sha)
    ensures SearchAll(bs, hash, sha).Some? ==> Preimage(SearchAll(bs, hash, sha).value, hash, sha)
    decreases bs
  {
    if bs != [] {
      SearchBlockExactly(bs[0], hash, sha);
      SearchAllExactly(bs[1..], hash, sha);
      if exists d :: d in bs && Holds(d, hash, sha) {
        var d :| d in bs && Holds(d, hash, sha);
        assert d == bs[0] || d in bs[1..];
      }
    }
  }

  // ---------- paging ----------

  /** Page `k` is asked for: every page before it was answered, was not empty and was not the last. */
  ghost predicate Reached(node: Node, addr: string, k: nat) {
    forall j: nat :: j < k ==> node.page(addr, j).Some? && node.page(addr, j).value.more && node.page(addr, j).value.list != []
  }

  /** `b` is on one of the first `maxPages` pages the search of this chain gets to see. */
  ghost predicate OnChain(node: Node, addr: string, maxPages: nat, b: Block) {
    exists k: nat :: k < maxPages && OnPage(node, addr, k, b)
  }

  ghost predicate OnPage(node: Node, addr: string, k: nat, b: Block) {
    Reached(node, addr, k) && node.page(addr, k).Some? && b in node.page(addr, k).value.list
  }

  /** The walk of a chain ends at page `k`: there is nothing to see beyond it. */
  lemma NotOnLaterPages(node: Node, addr: string, k: nat)
    requires node.page(addr, k).None? || !node.page(addr, k).value.more || node.page(addr, k).value.list == []
    ensures forall j: nat, b :: j > k ==> !OnPage(node, addr, j, b)
  {
  }

  /** Searches one address's own sends, page by page, newest first. */
  method PreimageFromSends(node: Node, unlocker: string, hash: Bytes, maxPages: nat, sha: Hash) returns (r: Option<Bytes>)
    ensures r.Some? ==> Preimage(r.value, hash, sha)
    ensures r.Some? <==> exists b :: OnChain(node, unlocker, maxPages, b) && Holds(b, hash, sha)
  {
    var page := 0;
    while page < maxPages
      invariant 0 <= page <= maxPages && Reached(node, unlocker, page)
      invariant forall k: nat, b :: k < page && OnPage(node, unlocker, k, b) ==> !Holds(b, hash, sha)
    {
      var answer := node.page(unlocker, page);
      if answer.None? {
        NotOnLaterPages(node, unlocker, page);
        return None;
      }
      var list := answer.value.list;
      var i := 0;
      while i < |list|
        invariant 0 <= i <= |list|
        invariant forall j :: 0 <= j < i ==> !Holds(list[j], hash, sha)
      {
        SearchBlockExactly(list[i], hash, sha);
        var found := SearchBlock(list[i], hash, sha);
        if found.Some? {
          assert OnPage(node, unlocker, page, list[i]);
          return found;
        }
        i := i + 1;
      }
      if !answer.value.more || list == [] {
        NotOnLaterPages(node, unlocker, page);
        return None;
      }
      page := page + 1;
    }
    return None;
  }

  /** The receive settles something to this address, through a block batched under it. */
  predicate PaysTo(b: Block, addr: string) {
    b.Block? && exists d :: d in b.descendants && d.Block? && d.toAddress == addr
  }

  predicate IsZeroHash(h: string) {
    forall i :: 0 <= i < |h| ==> h[i] == '0'
  }

  /** A receive worth following back to the call it answers; no payee means every one is. */
  predicate Candidate(b: Block, payee: string) {
    b.Block? && !IsZeroHash(b.fromBlockHash) && (payee == "" || PaysTo(b, payee))
  }

  /** Following this receive reaches a call that carries a preimage. */
  ghost predicate LeadsTo(node: Node, b: Block, payee: string, hash: Bytes, sha: Hash) {
    Candidate(b, payee) && node.block(b.fromBlockHash).Some? && Holds(node.block(b.fromBlockHash).value, hash, sha)
  }

  /** Walks the contract's own chain, following the receives the payee filter lets through to their callers. */
  method PreimageFromContract(node: Node, payee: string, hash: Bytes, maxPages: nat, sha: Hash) returns (r: Option<Bytes>)
    ensures r.Some? ==> Preimage(r.value, hash, sha)
    ensures r.Some? <==> exists b :: OnChain(node, HTLC_CONTRACT, maxPages, b) && LeadsTo(node, b, payee, hash, sha)
  {
    var page := 0;
    while page < maxPages
      invariant 0 <= page <= maxPages && Reached(node, HTLC_CONTRACT, page)
      invariant forall k: nat, b :: k < page && OnPage(node, HTLC_CONTRACT, k, b) ==> !LeadsTo(node, b, payee, hash, sha)
    {
      var answer := node.page(HTLC_CONTRACT, page);
      if answer.None? {
        NotOnLaterPages(node, HTLC_CONTRACT, page);
        return None;
      }
      var list := answer.value.list;
      var i := 0;
      while i < |list|
        invariant 0 <= i <= |list|
        invariant forall j :: 0 <= j < i ==> !LeadsTo(node, list[j], payee, hash, sha)
      {
        if Candidate(list[i], payee) {
          var caller := node.block(list[i].fromBlockHash);
          if caller.Some? {
            SearchBlockExactly(caller.value, hash, sha);
            var found := SearchBlock(caller.value, hash, sha);
            if found.Some? {
              assert OnPage(node, HTLC_CONTRACT, page, list[i]);
              assert OnChain(node, HTLC_CONTRACT, maxPages, list[i]) && LeadsTo(node, list[i], payee, hash, sha);
              return found;
            }
          }
        }
        i := i + 1;
      }
      if !answer.value.more || list == [] {
        NotOnLaterPages(node, HTLC_CONTRACT, page);
        return None;
      }
      page := page + 1;
    }
    return None;
  }

  /**
   Both searches. What is found always hashes to the hash; and something is found exactly when
   the payee's own sends, or a receive the filter lets through, lead to a preimage.
   */
  method FindPreimage(node: Node, payee: string, hash: Bytes, maxPages: nat, sha: Hash) returns (r: Result<Bytes, string>)
    ensures r.Ok? ==> Preimage(r.value, hash, sha)
    ensures r.Ok? <==> (
      && |hash| == HASH_SIZE
      && ((payee != "" && exists b :: OnChain(node, payee, maxPages, b) && Holds(b, hash, sha))
          || exists b :: OnChain(node, HTLC_CONTRACT, maxPages, b) && LeadsTo(node, b, payee, hash, sha)))
  {
    if |hash| != HASH_SIZE { return Err("secret hash must be 32 bytes"); }
    if payee != "" {
      var own := PreimageFromSends(node, payee, hash, maxPages, sha);
      if own.Some? { return Ok(own.value); }
    }
    var found := PreimageFromContract(node, payee, hash, maxPages, sha);
    match found {
      case Some(p) => return Ok(p);
      case None => return Err("no call to the HTLC contract reveals a matching preimage");
    }
  }

  /**
   An unlock packed by this program is found whoever published it: if the contract's receive of it
   is within the searched pages and pays the payee (or no payee is known), there is a preimage to find, in the
   block it answers or batched under that at any depth.
   */
  lemma PackedUnlockIsFound(node: Node, receive: Block, caller: Block, payee: string, maxPages: nat,
                            m: MethodId, id: Bytes, preimage: Bytes, hash: Bytes, sha: Hash, k: nat, top: Block)
    requires Selector(m) && |id| == HASH_SIZE && |preimage| == HASH_SIZE && sha(preimage) == hash
    requires caller.Block? && caller.toAddress == HTLC_CONTRACT && caller.data == UnlockData(m, id, preimage)
    requires k < maxPages && node.page(HTLC_CONTRACT, k).Some? && receive in node.page(HTLC_CONTRACT, k).value.list
    requires forall j: nat :: j < k ==>
               node.page(HTLC_CONTRACT, j).Some? && node.page(HTLC_CONTRACT, j).value.more && node.page(HTLC_CONTRACT, j).value.list != []
    requires receive.Block? && node.block(receive.fromBlockHash) == Some(top) && Within(caller, top)
    requires exists i :: 0 <= i < |receive.fromBlockHash| && receive.fromBlockHash[i] != '0'
    requires payee == "" || exists d :: d in receive.descendants && d.Block? && d.toAddress == payee
    ensures exists b :: OnChain(node, HTLC_CONTRACT, maxPages, b) && LeadsTo(node, b, payee, hash, sha)
  {
    UnlockCarriesPreimage(m, id, preimage);
    assert WindowAt(caller.data, hash, sha, 100);
    HoldsWithin(caller, top, hash, sha);
    assert OnPage(node, HTLC_CONTRACT, k, receive);
    assert LeadsTo(node, receive, payee, hash, sha);
  }

  /** A call that carries a preimage is found wherever in the subtree it is. */
  lemma {:induction false} HoldsWithin(inner: Block, b: Block, hash: Bytes, sha: Hash)
    requires Within(inner, b) && inner.Block? && inner.toAddress == HTLC_CONTRACT && HasWindow(inner.data, hash, sha)
    ensures Holds(b, hash, sha)
    decreases b
  {
    if inner != b {
      var d :| d in b.descendants && Within(inner, d);
      HoldsWithin(inner, d, hash, sha);
    }
  }

  // ---------- creates ----------

  datatype HtlcCandidate = HtlcCandidate(id: string, at: int)

  predicate At(data: Bytes, part: Bytes, i: nat) {
    i + |part| <= |data| && data[i..i + |part|] == part
  }

  predicate Occurs(data: Bytes, part: Bytes) {
    exists i | 0 <= i <= |data| :: At(data, part, i)
  }

  predicate IsCreate(b: Block, hashLock: Bytes) {
    ToHtlc(b) && b.hash != "" && Occurs(b.data, hashLock)
  }

  /** Every call in this subtree that commits to `hashLock`, outer blocks first, added to what was found before. */
  function CollectCreates(b: Block, hashLock: Bytes, into: seq<HtlcCandidate>): seq<HtlcCandidate>
    decreases b
  {
    if b.Absent? then into
    else CollectAll(b.descendants, hashLock, if IsCreate(b, hashLock) then into + [HtlcCandidate(b.hash, b.at)] else into)
  }

  function CollectAll(bs: seq<Block>, hashLock: Bytes, into: seq<HtlcCandidate>): seq<HtlcCandidate>
    decreases bs
  {
    if bs == [] then into else CollectAll(bs[1..], hashLock, CollectCreates(bs[0], hashLock, into))
  }

  ghost predicate Within(inner: Block, b: Block)
    decreases b
  {
    b.Block? && (inner == b || exists d :: d in b.descendants && Within(inner, d))
  }

  ghost predicate CreatedUnder(h: HtlcCandidate, b: Block, hashLock: Bytes) {
    exists inner :: Within(inner, b) && IsCreate(inner, hashLock) && h == HtlcCandidate(inner.hash, inner.at)
  }

  /** The shortlist is exactly what was found before and the creates in this subtree. */
  lemma {:induction false} CollectExactly(b: Block, hashLock: Bytes, into: seq<HtlcCandidate>, h: HtlcCandidate)
    ensures h in CollectCreates(b, hashLock, into) <==> h in into || CreatedUnder(h, b, hashLock)
    decreases b
  {
    if b.Block? {
      var here := if IsCreate(b, hashLock) then into + [HtlcCandidate(b.hash, b.at)] else into;
      CollectAllExactly(b.descendants, hashLock, here, h);
      if IsCreate(b, hashLock) && h == HtlcCandidate(b.hash, b.at) {
        assert Within(b, b);
      }
      if d :| d in b.descendants && CreatedUnder(h, d, hashLock) {
        var inner :| Within(inner, d) && IsCreate(inner, hashLock) && h == HtlcCandidate(inner.hash, inner.at);
        assert Within(inner, b);
      }
    }
  }

  lemma {:induction false} CollectAllExactly(bs: seq<Block>, hashLock: Bytes, into: seq<HtlcCandidate>, h: HtlcCandidate)
    ensures h in CollectAll(bs, hashLock, into) <==> h in into || exists d :: d in bs && CreatedUnder(h, d, hashLock)
    decreases bs
  {
    if bs != [] {
      CollectExactly(bs[0], hashLock, into, h);
      CollectAllExactly(bs[1..], hashLock, CollectCreates(bs[0], hashLock, into), h);
      if d :| d in bs && CreatedUnder(h, d, hashLock) {
        assert d == bs[0] || d in bs[1..];
      }
    }
  }

  /** A create packed by this program for this hash is on the shortlist, at any depth under a searched block. */
  lemma PackedCreateIsCollected(b: Block, inner: Block, m: MethodId, hashLocked: Bytes, expiration: nat, hashType: byte,
                                keyMaxSize: byte, hashLock: Bytes)
    requires Selector(m) && |hashLock| == HASH_SIZE
    requires Within(inner, b) && inner.Block? && inner.toAddress == HTLC_CONTRACT && inner.hash != ""
    requires inner.data == CreateData(m, hashLocked, expiration, hashType, keyMaxSize, hashLock)
    ensures HtlcCandidate(inner.hash, inner.at) in CollectCreates(b, hashLock, [])
  {
    CreateWords(m, hashLocked, expiration, hashType, keyMaxSize, hashLock);
    TailOf(inner.data, CreateHead(m, hashLocked, expiration, hashType, keyMaxSize), hashLock);
    hide CreateData, CreateHead, PackedInt, LeftPadded, PackedBytes, Word, Selector, CollectCreates, Within;
    assert At(inner.data, hashLock, 4 + 6 * WORD_SIZE);
    assert CreatedUnder(HtlcCandidate(inner.hash, inner.at), b, hashLock);
    CollectExactly(b, hashLock, [], HtlcCandidate(inner.hash, inner.at));
  }

  /** Every create committing to `hashLock` on the searched pages of one address's chain, and nothing else. */
  method FindHtlcCreates(node: Node, creator: string, hashLock: Bytes, maxPages: nat)
    returns (r: Result<seq<HtlcCandidate>, string>)
    ensures r.Ok? <==> |hashLock| == HASH_SIZE && creator != "" && !Unanswered(node, creator, maxPages)
    ensures r.Ok? ==> forall h :: h in r.value <==> Created(node, creator, maxPages, hashLock, h)
  {
    if |hashLock| != HASH_SIZE { return Err("hashlock must be 32 bytes"); }
    if creator == "" { return Err("no Zenon address to search"); }
    var found: seq<HtlcCandidate> := [];
    var page := 0;
    while page < maxPages
      invariant 0 <= page <= maxPages && Reached(node, creator, page)
      invariant forall h :: h in found <==> Created(node, creator, page, hashLock, h)
    {
      var answer := node.page(creator, page);
      if answer.None? {
        assert NoAnswer(node, creator, page);
        return Err("the node did not answer");
      }
      var list := answer.value.list;
      ghost var before := found;
      var i := 0;
      while i < |list|
        invariant 0 <= i <= |list|
        invariant forall h :: h in found <==> h in before || UnderSome(list[..i], hashLock, h)
      {
        forall h ensures h in CollectCreates(list[i], hashLock, found) <==> h in before || UnderSome(list[..i + 1], hashLock, h) {
          CollectExactly(list[i], hashLock, found, h);
          OneMoreBlock(list, i, hashLock, h);
        }
        found := CollectCreates(list[i], hashLock, found);
        i := i + 1;
      }
      assert list[..i] == list;
      forall h ensures h in found <==> Created(node, creator, page + 1, hashLock, h) {
        OnePageMore(node, creator, page, hashLock, h);
      }
      if !answer.value.more || list == [] {
        NothingLater(node, creator, page, maxPages, hashLock);
        return Ok(found);
      }
      page := page + 1;
    }
    return Ok(found);
  }

  ghost predicate NoAnswer(node: Node, addr: string, k: nat) {
    Reached(node, addr, k) && node.page(addr, k).None?
  }

  /** The walk of this chain meets a page the node does not answer. */
  ghost predicate Unanswered(node: Node, addr: string, maxPages: nat) {
    exists k: nat :: k < maxPages && NoAnswer(node, addr, k)
  }

  /** `h` is a create on one of the first `pages` pages of this address's chain. */
  ghost predicate Created(node: Node, addr: string, pages: nat, hashLock: Bytes, h: HtlcCandidate) {
    exists b :: OnChain(node, addr, pages, b) && CreatedUnder(h, b, hashLock)
  }

  ghost predicate UnderSome(bs: seq<Block>, hashLock: Bytes, h: HtlcCandidate) {
    exists b :: b in bs && CreatedUnder(h, b, hashLock)
  }

  lemma OneMoreBlock(bs: seq<Block>, i: nat, hashLock: Bytes, h: HtlcCandidate)
    requires i < |bs|
    ensures UnderSome(bs[..i + 1], hashLock, h) <==> UnderSome(bs[..i], hashLock, h) || CreatedUnder(h, bs[i], hashLock)
  {
    hide CreatedUnder;
    assert bs[..i + 1] == bs[..i] + [bs[i]];
    assert bs[i] in bs[..i + 1];
    assert forall b :: b in bs[..i] ==> b in bs[..i + 1];
  }

  lemma OnePageMore(node: Node, addr: string, k: nat, hashLock: Bytes, h: HtlcCandidate)
    requires Reached(node, addr, k) && node.page(addr, k).Some?
    ensures Created(node, addr, k + 1, hashLock, h)
        <==> Created(node, addr, k, hashLock, h) || UnderSome(node.page(addr, k).value.list, hashLock, h)
  {
    hide CreatedUnder;
    if Created(node, addr, k + 1, hashLock, h) {
      var b :| OnChain(node, addr, k + 1, b) && CreatedUnder(h, b, hashLock);
      var j: nat :| j < k + 1 && OnPage(node, addr, j, b);
      if j < k {
        assert OnChain(node, addr, k, b);
      }
    }
    if Created(node, addr, k, hashLock, h) {
      var b :| OnChain(node, addr, k, b) && CreatedUnder(h, b, hashLock);
      var j: nat :| j < k && OnPage(node, addr, j, b);
      assert OnChain(node, addr, k + 1, b);
    }
    if UnderSome(node.page(addr, k).value.list, hashLock, h) {
      var b :| b in node.page(addr, k).value.list && CreatedUnder(h, b, hashLock);
      assert OnPage(node, addr, k, b);
      assert OnChain(node, addr, k + 1, b);
    }
  }

  lemma NothingLater(node: Node, addr: string, k: nat, pages: nat, hashLock: Bytes)
    requires k < pages && node.page(addr, k).Some?
    requires !node.page(addr, k).value.more || node.page(addr, k).value.list == []
    ensures forall h :: Created(node, addr, k + 1, hashLock, h) <==> Created(node, addr, pages, hashLock, h)
    ensures Reached(node, addr, k) ==> !Unanswered(node, addr, pages)
  {
    hide CreatedUnder;
    NotOnLaterPages(node, addr, k);
    forall b ensures OnChain(node, addr, k + 1, b) <==> OnChain(node, addr, pages, b) {
      if OnChain(node, addr, pages, b) {
        var j: nat :| j < pages && OnPage(node, addr, j, b);
        assert j < k + 1;
      }
    }
    forall h ensures Created(node, addr, k + 1, hashLock, h) <==> Created(node, addr, pages, hashLock, h) {
      if Created(node, addr, k + 1, hashLock, h) {
        var b :| OnChain(node, addr, k + 1, b) && CreatedUnder(h, b, hashLock);
        assert OnChain(node, addr, pages, b);
      }
    }
  }
}
