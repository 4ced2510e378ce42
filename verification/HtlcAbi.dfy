/** The call data of the Zenon HTLC contract (wasm/znn/htlcabi.go). */
module HtlcAbi {
  import opened Prelude

  const WORD_SIZE := 32
  const ADDRESS_SIZE := 20
  const HASH_SIZE := 32

  const SIG_CREATE := "Create(address,int64,uint8,uint8,bytes)"
  const SIG_UNLOCK := "Unlock(hash,bytes)"
  const SIG_RECLAIM := "Reclaim(hash)"

  /** The four-byte method id of a signature: a hash, so a parameter. */
  type MethodId = string -> Bytes

  /** Method ids are four bytes long, and those of the contract's three methods differ. */
  ghost predicate Selector(m: MethodId) {
    && (forall s: string :: |m(s)| == 4)
    && m("Create(address,int64,uint8,uint8,bytes)") != m("Unlock(hash,bytes)")
    && m("Create(address,int64,uint8,uint8,bytes)") != m("Reclaim(hash)")
    && m("Unlock(hash,bytes)") != m("Reclaim(hash)")
  }

  /** The big-endian digits of a number, none for zero. */
  function BigEndian(n: nat): Bytes {
    if n == 0 then [] else BigEndian(n / 256) + [n % 256]
  }

  /** The number big-endian bytes stand for. */
  function FromBigEndian(bs: Bytes): nat {
    if bs == [] then 0 else 256 * FromBigEndian(bs[..|bs| - 1]) + bs[|bs| - 1]
  }

  /** A value in the low-order end of a word; a longer one loses its high-order bytes. */
  function LeftPadded(v: Bytes): (w: Bytes)
    ensures |w| == WORD_SIZE
  {
    if |v| >= WORD_SIZE then v[|v| - WORD_SIZE..] else Zeros(WORD_SIZE - |v|) + v
  }

  method LeftPad(v: Bytes) returns (w: Bytes)
    ensures w == LeftPadded(v)
  {
    var word := new byte[WORD_SIZE](_ => 0);
    var from := if |v| >= WORD_SIZE then |v| - WORD_SIZE else 0;
    var to := if |v| >= WORD_SIZE then 0 else WORD_SIZE - |v|;
    var n := |v| - from;
    var i := 0;
    while i < n
      invariant 0 <= i <= n
      invariant forall k :: 0 <= k < to ==> word[k] == 0
      invariant forall k :: to <= k < to + i ==> word[k] == v[from + k - to]
    {
      word[to + i] := v[from + i];
      i := i + 1;
    }
    w := word[..];
    assert forall k :: to <= k < WORD_SIZE ==> w[k] == v[from + k - to];
  }

  function PackedInt(n: nat): (w: Bytes)
    ensures |w| == WORD_SIZE
  {
    LeftPadded(BigEndian(n))
  }

  /** A length, then the value padded on the right to whole words. */
  function PackedBytes(v: Bytes): Bytes {
    PackedInt(|v|) + v + Zeros((|v| + WORD_SIZE - 1) / WORD_SIZE * WORD_SIZE - |v|)
  }

  function CreateData(m: MethodId, hashLocked: Bytes, expiration: nat, hashType: byte, keyMaxSize: byte, hashLock: Bytes): Bytes {
    m(SIG_CREATE) + LeftPadded(hashLocked) + PackedInt(expiration) + PackedInt(hashType) + PackedInt(keyMaxSize)
      + PackedInt(5 * WORD_SIZE) + PackedBytes(hashLock)
  }

  function UnlockData(m: MethodId, id: Bytes, preimage: Bytes): Bytes {
    m(SIG_UNLOCK) + LeftPadded(id) + PackedInt(2 * WORD_SIZE) + PackedBytes(preimage)
  }

  function ReclaimData(m: MethodId, id: Bytes): Bytes {
    m(SIG_RECLAIM) + LeftPadded(id)
  }

  method PackBytes(v: Bytes) returns (out: Bytes)
    ensures out == PackedBytes(v)
  {
    out := LeftPad(BigEndian(|v|));
    var padded := (|v| + WORD_SIZE - 1) / WORD_SIZE * WORD_SIZE;
    var body := new byte[padded](_ => 0);
    var i := 0;
    while i < |v|
      invariant 0 <= i <= |v| <= padded
      invariant forall k :: 0 <= k < i ==> body[k] == v[k]
      invariant forall k :: i <= k < padded ==> body[k] == 0
    {
      body[i] := v[i];
      i := i + 1;
    }
    assert body[..] == v + Zeros(padded - |v|);
    out := out + body[..];
  }

  method PackCreate(m: MethodId, hashLocked: Bytes, expiration: int, hashType: byte, keyMaxSize: byte, hashLock: Bytes)
    returns (r: Result<Bytes, string>)
    ensures r.Ok? <==> |hashLocked| == ADDRESS_SIZE && hashLock != [] && expiration > 0
    ensures r.Ok? ==> r.value == CreateData(m, hashLocked, expiration, hashType, keyMaxSize, hashLock)
    ensures r.Ok? && Selector(m) && expiration < 0x1_0000_0000_0000_0000 && |hashLock| < 0x1_0000_0000 ==>
              ReadCall(m, r.value) == Creates(CreateCall(hashLocked, expiration, hashType, keyMaxSize, hashLock))
  {
    if |hashLocked| != ADDRESS_SIZE { return Err("hashLocked must be 20 bytes"); }
    if hashLock == [] { return Err("a hashlock is required"); }
    if expiration <= 0 { return Err("expirationTime must be an absolute Unix time"); }
    var out := m(SIG_CREATE);
    var word := LeftPad(hashLocked);
    out := out + word;
    word := LeftPad(BigEndian(expiration));
    out := out + word;
    word := LeftPad(BigEndian(hashType));
    out := out + word;
    word := LeftPad(BigEndian(keyMaxSize));
    out := out + word;
    word := LeftPad(BigEndian(5 * WORD_SIZE));
    out := out + word;
    var tail := PackBytes(hashLock);
    if Selector(m) && expiration < 0x1_0000_0000_0000_0000 && |hashLock| < 0x1_0000_0000 {
      DecodePackedCreate(m, hashLocked, expiration, hashType, keyMaxSize, hashLock);
    }
    return Ok(out + tail);
  }

  method PackUnlock(m: MethodId, id: Bytes, preimage: Bytes) returns (r: Result<Bytes, string>)
    ensures r.Ok? <==> |id| == HASH_SIZE && preimage != []
    ensures r.Ok? ==> r.value == UnlockData(m, id, preimage)
    ensures r.Ok? && Selector(m) && |preimage| < 0x1_0000_0000 ==> ReadCall(m, r.value) == Unlocks(UnlockCall(id, preimage))
  {
    if |id| != HASH_SIZE { return Err("an HTLC id must be 32 bytes"); }
    if preimage == [] { return Err("a preimage is required"); }
    var out := m(SIG_UNLOCK);
    var word := LeftPad(id);
    out := out + word;
    word := LeftPad(BigEndian(2 * WORD_SIZE));
    out := out + word;
    var tail := PackBytes(preimage);
    if Selector(m) && |preimage| < 0x1_0000_0000 { DecodePackedUnlock(m, id, preimage); }
    return Ok(out + tail);
  }

  method PackReclaim(m: MethodId, id: Bytes) returns (r: Result<Bytes, string>)
    ensures r.Ok? <==> |id| == HASH_SIZE
    ensures r.Ok? ==> r.value == ReclaimData(m, id)
    ensures r.Ok? && Selector(m) ==> ReadCall(m, r.value) == Reclaims(id)
  {
    if |id| != HASH_SIZE { return Err("an HTLC id must be 32 bytes"); }
    var word := LeftPad(id);
    if Selector(m) { DecodePackedReclaim(m, id); }
    return Ok(m(SIG_RECLAIM) + word);
  }

  // ---------- what the contract reads back ----------

  /** The `k`-th argument word of a call. */
  function Word(data: Bytes, k: nat): Bytes
    requires 4 + WORD_SIZE * (k + 1) <= |data|
  {
    data[4 + WORD_SIZE * k..4 + WORD_SIZE * (k + 1)]
  }

  /** The dynamic argument whose offset is in word `k`, or None when it points outside the call. */
  function Dynamic(data: Bytes, k: nat): Option<Bytes>
    requires 4 + WORD_SIZE * (k + 1) <= |data|
  {
    var at := 4 + FromBigEndian(Word(data, k));
    if at + WORD_SIZE > |data| then None
    else
      var n := FromBigEndian(data[at..at + WORD_SIZE]);
      if at + WORD_SIZE + n > |data| then None
      else Some(data[at + WORD_SIZE..at + WORD_SIZE + n])
  }

  datatype CreateCall = CreateCall(hashLocked: Bytes, expiration: nat, hashType: nat, keyMaxSize: nat, hashLock: Bytes)

  function DecodeCreate(data: Bytes): Option<CreateCall> {
    if |data| < 4 + 5 * WORD_SIZE then None
    else
      match Dynamic(data, 4)
      case None => None
      case Some(lock) =>
        Some(CreateCall(Word(data, 0)[WORD_SIZE - ADDRESS_SIZE..], FromBigEndian(Word(data, 1)),
                        FromBigEndian(Word(data, 2)), FromBigEndian(Word(data, 3)), lock))
  }

  datatype UnlockCall = UnlockCall(id: Bytes, preimage: Bytes)

  function DecodeUnlock(data: Bytes): Option<UnlockCall> {
    if |data| < 4 + 2 * WORD_SIZE then None
    else
      match Dynamic(data, 1)
      case None => None
      case Some(p) => Some(UnlockCall(Word(data, 0), p))
  }

  function DecodeReclaim(data: Bytes): Option<Bytes> {
    if |data| < 4 + WORD_SIZE then None else Some(Word(data, 0))
  }

  /** A call as the contract takes it. */
  datatype Call = Creates(create: CreateCall) | Unlocks(unlock: UnlockCall) | Reclaims(id: Bytes) | Refused

  /** The contract goes by the first four bytes, and reads the arguments of the method they name. */
  function ReadCall(m: MethodId, data: Bytes): Call {
    if |data| < 4 then Refused
    else if data[..4] == m("Create(address,int64,uint8,uint8,bytes)") then
      match DecodeCreate(data) case Some(create) => Creates(create) case None => Refused
    else if data[..4] == m("Unlock(hash,bytes)") then
      match DecodeUnlock(data) case Some(unlock) => Unlocks(unlock) case None => Refused
    else if data[..4] == m("Reclaim(hash)") then
      match DecodeReclaim(data) case Some(id) => Reclaims(id) case None => Refused
    else Refused
  }

  lemma {:induction false} BigEndianValue(n: nat)
    ensures FromBigEndian(BigEndian(n)) == n
  {
    if n > 0 {
      BigEndianValue(n / 256);
      var bs := BigEndian(n);
      assert bs[..|bs| - 1] == BigEndian(n / 256);
    }
  }

  lemma {:induction false} BigEndianLength(n: nat, k: nat)
    requires n < Pow256(k)
    ensures |BigEndian(n)| <= k
  {
    if n > 0 {
      BigEndianLength(n / 256, k - 1);
    }
  }

  lemma {:induction false} LeadingZeros(z: nat, bs: Bytes)
    ensures FromBigEndian(Zeros(z) + bs) == FromBigEndian(bs)
    decreases z + |bs|
  {
    var all := Zeros(z) + bs;
    if bs != [] {
      assert all[..|all| - 1] == Zeros(z) + bs[..|bs| - 1];
      LeadingZeros(z, bs[..|bs| - 1]);
    } else if z > 0 {
      assert all[..|all| - 1] == Zeros(z - 1) + [];
      LeadingZeros(z - 1, []);
    }
  }

  lemma PackedIntValue(n: nat)
    requires n < Pow256(WORD_SIZE)
    ensures FromBigEndian(PackedInt(n)) == n
  {
    hide BigEndian, Pow256, FromBigEndian;
    BigEndianLength(n, WORD_SIZE);
    BigEndianValue(n);
    if |BigEndian(n)| < WORD_SIZE {
      LeadingZeros(WORD_SIZE - |BigEndian(n)|, BigEndian(n));
    } else {
      assert BigEndian(n)[0..] == BigEndian(n);
    }
  }

  lemma WordIsWide(n: nat)
    requires n < 0x1_0000_0000_0000_0000
    ensures n < Pow256(WORD_SIZE)
  {
    assert Pow256(4) == 0x1_0000_0000;
    Pow256Grows(4, 4);
    Pow256Grows(8, 24);
  }

  lemma {:induction false} Pow256Grows(a: nat, b: nat)
    ensures Pow256(a + b) == Pow256(a) * Pow256(b)
    ensures Pow256(a + b) >= Pow256(a)
  {
    if b > 0 {
      Pow256Grows(a, b - 1);
      assert Pow256(a + b) == 256 * Pow256(a + b - 1);
      assert 256 * (Pow256(a) * Pow256(b - 1)) == Pow256(a) * (256 * Pow256(b - 1));
    }
  }

  lemma TailOf(data: Bytes, head: Bytes, v: Bytes)
    requires data == head + PackedBytes(v)
    ensures |data| >= |head| + WORD_SIZE + |v|
    ensures data[|head|..|head| + WORD_SIZE] == PackedInt(|v|)
    ensures data[|head| + WORD_SIZE..|head| + WORD_SIZE + |v|] == v
  {
    hide PackedInt;
  }

  /** A dynamic argument placed after a head of `k + 1` words reads back. */
  lemma DynamicOf(data: Bytes, head: Bytes, k: nat, v: Bytes)
    requires |head| == 4 + WORD_SIZE * (k + 1) && |v| < 0x1_0000_0000 && k < 100
    requires data == head + PackedBytes(v)
    requires Word(data, k) == PackedInt(WORD_SIZE * (k + 1))
    ensures Dynamic(data, k) == Some(v)
  {
    hide PackedInt, FromBigEndian, Pow256, LeftPadded, BigEndian;
    WordIsWide(WORD_SIZE * (k + 1));
    PackedIntValue(WORD_SIZE * (k + 1));
    WordIsWide(|v|);
    PackedIntValue(|v|);
    TailOf(data, head, v);
  }

  /** The contract reads a packed unlock back as the id and preimage it was packed from. */
  lemma DecodePackedUnlock(m: MethodId, id: Bytes, preimage: Bytes)
    requires Selector(m) && |id| == HASH_SIZE && |preimage| < 0x1_0000_0000
    ensures DecodeUnlock(UnlockData(m, id, preimage)) == Some(UnlockCall(id, preimage))
    ensures ReadCall(m, UnlockData(m, id, preimage)) == Unlocks(UnlockCall(id, preimage))
  {
    hide PackedInt;
    var data := UnlockData(m, id, preimage);
    var head := m(SIG_UNLOCK) + LeftPadded(id) + PackedInt(2 * WORD_SIZE);
    assert data == head + PackedBytes(preimage);
    assert Word(data, 0) == LeftPadded(id) == id;
    assert Word(data, 1) == PackedInt(2 * WORD_SIZE);
    assert data[..4] == m(SIG_UNLOCK);
    hide PackedBytes;
    DynamicOf(data, head, 1, preimage);
    hide Dynamic, Word, FromBigEndian;
  }

  /** ... and a packed reclaim as its id. */
  lemma DecodePackedReclaim(m: MethodId, id: Bytes)
    requires Selector(m) && |id| == HASH_SIZE
    ensures ReadCall(m, ReclaimData(m, id)) == Reclaims(id)
  {
    var data := ReclaimData(m, id);
    assert data[..4] == m(SIG_RECLAIM);
    assert Word(data, 0) == LeftPadded(id) == id;
  }

  /** The preimage sits in the call verbatim, 100 bytes in. */
  lemma UnlockCarriesPreimage(m: MethodId, id: Bytes, preimage: Bytes)
    requires Selector(m) && |id| == HASH_SIZE
    ensures var data := UnlockData(m, id, preimage);
            |data| >= 100 + |preimage| && data[100..100 + |preimage|] == preimage
  {
    hide PackedInt;
  }

  /** The contract reads a packed create back as the five terms it was packed from. */
  lemma DecodePackedCreate(m: MethodId, hashLocked: Bytes, expiration: nat, hashType: byte, keyMaxSize: byte, hashLock: Bytes)
    requires Selector(m) && |hashLocked| == ADDRESS_SIZE && expiration < 0x1_0000_0000_0000_0000 && |hashLock| < 0x1_0000_0000
    ensures DecodeCreate(CreateData(m, hashLocked, expiration, hashType, keyMaxSize, hashLock))
         == Some(CreateCall(hashLocked, expiration, hashType, keyMaxSize, hashLock))
    ensures ReadCall(m, CreateData(m, hashLocked, expiration, hashType, keyMaxSize, hashLock))
         == Creates(CreateCall(hashLocked, expiration, hashType, keyMaxSize, hashLock))
  {
    CreateWords(m, hashLocked, expiration, hashType, keyMaxSize, hashLock);
    WordIsWide(expiration);
    WordIsWide(hashType);
    WordIsWide(keyMaxSize);
    PackedIntValue(expiration);
    PackedIntValue(hashType);
    PackedIntValue(keyMaxSize);
    hide PackedInt, PackedBytes, FromBigEndian, Pow256, Word, CreateData;
    var data := CreateData(m, hashLocked, expiration, hashType, keyMaxSize, hashLock);
    DynamicOf(data, CreateHead(m, hashLocked, expiration, hashType, keyMaxSize), 4, hashLock);
    assert LeftPadded(hashLocked)[WORD_SIZE - ADDRESS_SIZE..] == hashLocked;
  }

  function CreateHead(m: MethodId, hashLocked: Bytes, expiration: nat, hashType: byte, keyMaxSize: byte): Bytes {
    m(SIG_CREATE) + LeftPadded(hashLocked) + PackedInt(expiration) + PackedInt(hashType) + PackedInt(keyMaxSize)
      + PackedInt(5 * WORD_SIZE)
  }

  lemma CreateWords(m: MethodId, hashLocked: Bytes, expiration: nat, hashType: byte, keyMaxSize: byte, hashLock: Bytes)
    requires Selector(m)
    ensures var data := CreateData(m, hashLocked, expiration, hashType, keyMaxSize, hashLock);
            && |CreateHead(m, hashLocked, expiration, hashType, keyMaxSize)| == 4 + 5 * WORD_SIZE
            && data == CreateHead(m, hashLocked, expiration, hashType, keyMaxSize) + PackedBytes(hashLock)
            && |data| >= 4 + 5 * WORD_SIZE && data[..4] == m(SIG_CREATE)
            && Word(data, 0) == LeftPadded(hashLocked) && Word(data, 1) == PackedInt(expiration)
            && Word(data, 2) == PackedInt(hashType) && Word(data, 3) == PackedInt(keyMaxSize)
            && Word(data, 4) == PackedInt(5 * WORD_SIZE)
  {
    hide PackedInt, LeftPadded, PackedBytes, Word;
    FiveWords(m(SIG_CREATE), LeftPadded(hashLocked), PackedInt(expiration), PackedInt(hashType), PackedInt(keyMaxSize),
              PackedInt(5 * WORD_SIZE), PackedBytes(hashLock));
  }

  lemma FiveWords(selector: Bytes, w0: Bytes, w1: Bytes, w2: Bytes, w3: Bytes, w4: Bytes, tail: Bytes)
    requires |selector| == 4 && |w0| == |w1| == |w2| == |w3| == |w4| == WORD_SIZE
    ensures var data := selector + w0 + w1 + w2 + w3 + w4 + tail;
            && |data| >= 4 + 5 * WORD_SIZE && data[..4] == selector
            && Word(data, 0) == w0 && Word(data, 1) == w1 && Word(data, 2) == w2 && Word(data, 3) == w3 && Word(data, 4) == w4
  {
    var data := selector + w0 + w1 + w2 + w3 + w4 + tail;
    WordAfter(data, selector, w0, w1 + w2 + w3 + w4 + tail, 0);
    WordAfter(data, selector + w0, w1, w2 + w3 + w4 + tail, 1);
    WordAfter(data, selector + w0 + w1, w2, w3 + w4 + tail, 2);
    WordAfter(data, selector + w0 + w1 + w2, w3, w4 + tail, 3);
    WordAfter(data, selector + w0 + w1 + w2 + w3, w4, tail, 4);
  }

  lemma WordAfter(data: Bytes, head: Bytes, w: Bytes, rest: Bytes, k: nat)
    requires data == head + w + rest && |head| == 4 + WORD_SIZE * k && |w| == WORD_SIZE
    ensures |data| >= 4 + WORD_SIZE * (k + 1) && Word(data, k) == w
  {
  }
}
