/** The atomic swap contract: building it, parsing it, and what its bytes mean (wasm/htlc.go). */
module Contract {
  import opened Prelude
  import opened Script
  import ScriptNum

  const SECRET_SIZE := 32
  const LOCKTIME_THRESHOLD := 500_000_000
  const MAX_LOCKTIME := 0xFFFF_FFFF
  const MAX_SCRIPT_NUM_LEN := 4
  const MAX_CLTV_NUM_LEN := 5

  const TEMPLATE_LEN := 20

  /** The opcode at each position that is not a parameter. */
  function TemplateOp(k: nat): (r: Option<byte>)
    ensures r.Some? ==> WellFormed(Op(r.value))
  {
    if k == 0 then Some(OP_IF)
    else if k == 1 then Some(OP_SIZE)
    else if k == 3 || k == 6 || k == 18 then Some(OP_EQUALVERIFY)
    else if k == 4 then Some(OP_SHA256)
    else if k == 7 || k == 14 then Some(OP_DUP)
    else if k == 8 || k == 15 then Some(OP_HASH160)
    else if k == 10 then Some(OP_ELSE)
    else if k == 12 then Some(OP_CHECKLOCKTIMEVERIFY)
    else if k == 13 then Some(OP_DROP)
    else if k == 17 then Some(OP_ENDIF)
    else if k == 19 then Some(OP_CHECKSIG)
    else None
  }

  /** What a contract commits to. */
  datatype Terms = Terms(secretHash: Bytes, pkhRedeem: Bytes, pkhRefund: Bytes, lockTime: int)

  /** A locktime Bitcoin reads as a timestamp and nLockTime can carry. */
  predicate ValidLockTime(lockTime: int) {
    LOCKTIME_THRESHOLD <= lockTime <= MAX_LOCKTIME
  }

  predicate Buildable(t: Terms) {
    |t.pkhRefund| == 20 && |t.pkhRedeem| == 20 && |t.secretHash| == 32 && ValidLockTime(t.lockTime)
  }

  /** Element `k` of the contract. */
  function ContractToken(t: Terms, k: nat): (tok: Token)
    requires Buildable(t) && k < TEMPLATE_LEN
    ensures WellFormed(tok)
  {
    ScriptNum.LockTimeWidth(t.lockTime);
    if TemplateOp(k).Some? then Op(TemplateOp(k).value)
    else if k == 2 then Push(1, [SECRET_SIZE])
    else if k == 5 then Push(32, t.secretHash)
    else if k == 9 then Push(20, t.pkhRedeem)
    else if k == 11 then Push(|ScriptNum.Encode(t.lockTime)|, ScriptNum.Encode(t.lockTime))
    else Push(20, t.pkhRefund)
  }

  /** The twenty elements of the contract. */
  function ContractTokens(t: Terms): (ts: seq<Token>)
    requires Buildable(t)
    ensures |ts| == TEMPLATE_LEN && AllWellFormed(ts)
  {
    seq(TEMPLATE_LEN, k requires 0 <= k < TEMPLATE_LEN => ContractToken(t, k))
  }

  /** The one byte string this program accepts as the contract with these terms. */
  function ContractScript(t: Terms): Bytes
    requires Buildable(t)
  {
    EmitAll(ContractTokens(t))
  }

  /** What the first `k` tokens are written as. */
  ghost function Written(ts: seq<Token>, k: nat): Bytes
    requires k <= |ts| && AllWellFormed(ts)
  {
    EmitAll(ts[..k])
  }

  lemma NothingWritten(ts: seq<Token>)
    requires AllWellFormed(ts)
    ensures Written(ts, 0) == []
  {
  }

  lemma AllWritten(ts: seq<Token>)
    requires AllWellFormed(ts)
    ensures Written(ts, |ts|) == EmitAll(ts)
  {
    assert ts[..|ts|] == ts;
  }

  /** Appending to the builder adds one token to the script written so far. */
  lemma Grow(ts: seq<Token>, k: nat)
    requires k < |ts| && AllWellFormed(ts)
    ensures Written(ts, k) + Emit(ts[k]) == Written(ts, k + 1)
  {
    assert ts[..k + 1] == ts[..k] + [ts[k]];
    EmitAllAppend(ts[..k], [ts[k]]);
    EmitAllCons(ts[k], []);
    assert Emit(ts[k]) + EmitAll([]) == Emit(ts[k]);
  }

  /** The builder's own choice of push is the template's, for every parameter. */
  lemma BuilderTokens(t: Terms)
    requires Buildable(t)
    ensures |ScriptNum.Encode(SECRET_SIZE)| < 0x1_0000 && |ScriptNum.Encode(t.lockTime)| < 0x1_0000
    ensures ContractToken(t, 2) == NumberOf(SECRET_SIZE)
    ensures ContractToken(t, 5) == PushOf(t.secretHash)
    ensures ContractToken(t, 9) == PushOf(t.pkhRedeem)
    ensures ContractToken(t, 11) == NumberOf(t.lockTime)
    ensures ContractToken(t, 16) == PushOf(t.pkhRefund)
  {
    ScriptNum.LockTimeWidth(t.lockTime);
    ScriptNum.SmallNumber(SECRET_SIZE);
    var d: Bytes := [SECRET_SIZE];
    assert d[0] != 0 && d[0] != 0x81;
  }

  lemma Element(t: Terms, k: nat)
    requires Buildable(t) && k < TEMPLATE_LEN
    ensures ContractTokens(t)[k] == ContractToken(t, k)
  {
  }

  /** The element at `k`, as the builder is asked for it, takes the script from `k` elements to `k + 1`. */
  lemma Appended(t: Terms, k: nat)
    requires Buildable(t) && k < TEMPLATE_LEN
    ensures Written(ContractTokens(t), k + 1) == Written(ContractTokens(t), k) + Emit(ContractToken(t, k))
    ensures TemplateOp(k).Some? ==> ContractToken(t, k) == Op(TemplateOp(k).value)
  {
    Element(t, k);
    Grow(ContractTokens(t), k);
  }

  method BuildContract(pkhRefund: Bytes, pkhRedeem: Bytes, lockTime: int, secretHash: Bytes)
    returns (r: Result<Bytes, string>)
    ensures var t := Terms(secretHash, pkhRedeem, pkhRefund, lockTime);
            if Buildable(t) then r == Ok(ContractScript(t)) else r.Err?
  {
    if |pkhRefund| != 20 { return Err("refund pubkey hash must be 20 bytes"); }
    if |pkhRedeem| != 20 { return Err("redeem pubkey hash must be 20 bytes"); }
    if |secretHash| != 32 { return Err("secret hash must be 32 bytes"); }
    if !ValidLockTime(lockTime) { return Err("locktime is not a timestamp that fits nLockTime"); }
    ghost var t := Terms(secretHash, pkhRedeem, pkhRefund, lockTime);
    var b := AddSecretCheck(secretHash, t);
    b := AddRedeemKey(b, pkhRedeem, t);
    b := AddLockCheck(b, lockTime, t);
    b := AddRefundKey(b, pkhRefund, t);
    b := AddClosing(b, t);
    AllWritten(ContractTokens(t));
    return Ok(b);
  }

  /** OP_IF, and the secret demanded by its branch. */
  method AddSecretCheck(secretHash: Bytes, ghost t: Terms) returns (b: Bytes)
    requires Buildable(t) && secretHash == t.secretHash
    ensures b == Written(ContractTokens(t), 7)
  {
    BuilderTokens(t);
    hide ScriptNum.Encode, PushOf, NumberOf, Emit, Written, ContractToken, ContractTokens;
    b := [];
    NothingWritten(ContractTokens(t));
    b := AddOp(b, OP_IF);                     Appended(t, 0);
    b := AddOp(b, OP_SIZE);                   Appended(t, 1);
    b := AddInt64(b, SECRET_SIZE);            Appended(t, 2);
    b := AddOp(b, OP_EQUALVERIFY);            Appended(t, 3);
    b := AddOp(b, OP_SHA256);                 Appended(t, 4);
    b := AddData(b, secretHash);              Appended(t, 5);
    b := AddOp(b, OP_EQUALVERIFY);            Appended(t, 6);
  }

  /** ... and the key of the redeemer. */
  method AddRedeemKey(script: Bytes, pkhRedeem: Bytes, ghost t: Terms) returns (b: Bytes)
    requires Buildable(t) && pkhRedeem == t.pkhRedeem && script == Written(ContractTokens(t), 7)
    ensures b == Written(ContractTokens(t), 10)
  {
    BuilderTokens(t);
    hide ScriptNum.Encode, PushOf, NumberOf, Emit, Written, ContractToken, ContractTokens;
    b := script;
    b := AddOp(b, OP_DUP);                    Appended(t, 7);
    b := AddOp(b, OP_HASH160);                Appended(t, 8);
    b := AddData(b, pkhRedeem);               Appended(t, 9);
  }

  lemma LockTokens(t: Terms)
    requires Buildable(t)
    ensures |ScriptNum.Encode(t.lockTime)| < 0x1_0000 && ContractToken(t, 11) == NumberOf(t.lockTime)
    ensures ContractToken(t, 10) == Op(OP_ELSE) && ContractToken(t, 12) == Op(OP_CHECKLOCKTIMEVERIFY)
    ensures ContractToken(t, 13) == Op(OP_DROP)
  {
    BuilderTokens(t);
    hide ScriptNum.Encode, NumberOf;
  }

  /** OP_ELSE, and the locktime its branch demands to have passed. */
  method AddLockCheck(script: Bytes, lockTime: int, ghost t: Terms) returns (b: Bytes)
    requires Buildable(t) && lockTime == t.lockTime && script == Written(ContractTokens(t), 10)
    ensures b == Written(ContractTokens(t), 14)
  {
    LockTokens(t);
    hide ScriptNum.Encode, PushOf, NumberOf, Emit, Written, ContractToken, ContractTokens, TemplateOp;
    b := script;
    b := AddOp(b, OP_ELSE);                   Appended(t, 10);
    b := AddInt64(b, lockTime);               Appended(t, 11);
    b := AddOp(b, OP_CHECKLOCKTIMEVERIFY);    Appended(t, 12);
    b := AddOp(b, OP_DROP);                   Appended(t, 13);
  }

  /** ... and the key of the refunder. */
  method AddRefundKey(script: Bytes, pkhRefund: Bytes, ghost t: Terms) returns (b: Bytes)
    requires Buildable(t) && pkhRefund == t.pkhRefund && script == Written(ContractTokens(t), 14)
    ensures b == Written(ContractTokens(t), 17)
  {
    BuilderTokens(t);
    hide ScriptNum.Encode, PushOf, NumberOf, Emit, Written, ContractToken, ContractTokens;
    b := script;
    b := AddOp(b, OP_DUP);                    Appended(t, 14);
    b := AddOp(b, OP_HASH160);                Appended(t, 15);
    b := AddData(b, pkhRefund);               Appended(t, 16);
  }

  /** OP_ENDIF and the signature check both branches share. */
  method AddClosing(script: Bytes, ghost t: Terms) returns (b: Bytes)
    requires Buildable(t) && script == Written(ContractTokens(t), 17)
    ensures b == Written(ContractTokens(t), 20)
  {
    hide ScriptNum.Encode, PushOf, NumberOf, Emit, Written, ContractToken, ContractTokens;
    b := script;
    b := AddOp(b, OP_ENDIF);                  Appended(t, 17);
    b := AddOp(b, OP_EQUALVERIFY);            Appended(t, 18);
    b := AddOp(b, OP_CHECKSIG);               Appended(t, 19);
  }

  // ---------- numbers in a parsed script ----------

  /** A script number read from a token. NoTopByte is the index out of range of an empty, non-nil push. */
  datatype NumOutcome = Num(v: int) | NotNumber | NoTopByte

  function ScriptNumOf(t: Token, maxLen: nat): NumOutcome {
    if t.op == OP_0 then Num(0)
    else if OP_1 <= t.op <= OP_16 then Num(t.op - (OP_1 - 1))
    else
      match t
      case Op(_) => NotNumber
      case Push(_, data) =>
        if |data| > maxLen then NotNumber
        else if !ScriptNum.MinimallyEncoded(data) then NotNumber
        else if data == [] then NoTopByte
        else Num(ScriptNum.Decode(data))
  }

  /** Reads the bytes from the most significant one down, then clears the sign bit. */
  method ReadScriptNum(t: Token, maxLen: nat) returns (r: NumOutcome)
    ensures r == ScriptNumOf(t, maxLen)
  {
    if t.op == OP_0 { return Num(0); }
    if OP_1 <= t.op <= OP_16 { return Num(t.op - (OP_1 - 1)); }
    if t.Op? { return NotNumber; }
    var data := t.data;
    if |data| > maxLen { return NotNumber; }
    if !ScriptNum.MinimallyEncoded(data) { return NotNumber; }
    var v: int := 0;
    var i := |data|;
    while i > 0
      invariant 0 <= i <= |data|
      invariant v == ScriptNum.LittleEndian(data[i..])
    {
      i := i - 1;
      v := v * 256 + data[i];
      assert data[i..][1..] == data[i + 1..];
    }
    assert data[0..] == data;
    if |data| == 0 { return NoTopByte; }
    if data[|data| - 1] >= 128 {
      v := v - 128 * Pow256(|data| - 1);
      v := -v;
    }
    return Num(v);
  }

  // ---------- parsing ----------

  predicate MatchesTemplate(ts: seq<Token>) {
    |ts| == TEMPLATE_LEN
    && forall k :: 0 <= k < TEMPLATE_LEN && TemplateOp(k).Some? ==> ts[k].op == TemplateOp(k).value
  }

  /** Crashed is the run-time failure of reading the top byte of an empty number push. */
  datatype ParseOutcome = Parsed(terms: Terms) | Refused | Crashed

  function DataOf(t: Token): Bytes {
    match t
    case Op(_) => []
    case Push(_, data) => data
  }

  function ParseTokens(ts: seq<Token>, script: Bytes): ParseOutcome
    requires MatchesTemplate(ts)
  {
    match ScriptNumOf(ts[2], MAX_SCRIPT_NUM_LEN)
    case NotNumber => Refused
    case NoTopByte => Crashed
    case Num(secretSize) =>
      if secretSize != SECRET_SIZE || |DataOf(ts[5])| != 32 || |DataOf(ts[9])| != 20 then Refused
      else
        match ScriptNumOf(ts[11], MAX_CLTV_NUM_LEN)
        case NotNumber => Refused
        case NoTopByte => Crashed
        case Num(lockTime) =>
          var t := Terms(DataOf(ts[5]), DataOf(ts[9]), DataOf(ts[16]), lockTime);
          if !Buildable(t) || script != ContractScript(t) then Refused else Parsed(t)
  }

  function Parse(script: Bytes): ParseOutcome {
    match Tokenize(script)
    case None => Refused
    case Some(ts) => if MatchesTemplate(ts) then ParseTokens(ts, script) else Refused
  }

  /** The tokens read so far, in front of whatever the rest of the script holds. */
  ghost function Prepend(read: seq<Token>, rest: Option<seq<Token>>): Option<seq<Token>> {
    match rest
    case None => None
    case Some(ts) => Some(read + ts)
  }

  lemma PrependNothing(rest: Option<seq<Token>>)
    ensures Prepend([], rest) == rest
  {
    if rest.Some? {
      assert [] + rest.value == rest.value;
    }
  }

  /** One more token read. */
  lemma PrependOne(read: seq<Token>, s: Bytes)
    requires s != [] && NextToken(s).Some?
    ensures var (t, n) := NextToken(s).value;
            Prepend(read, Tokenize(s)) == Prepend(read + [t], Tokenize(s[n..]))
  {
    var (t, n) := NextToken(s).value;
    if Tokenize(s[n..]).Some? {
      assert read + ([t] + Tokenize(s[n..]).value) == read + [t] + Tokenize(s[n..]).value;
    }
  }

  /** Reads at most a template's worth of elements; None when the script is cut short or longer than that. */
  method ReadTokens(script: Bytes) returns (r: Option<seq<Token>>)
    ensures r == if Tokenize(script).Some? && |Tokenize(script).value| <= TEMPLATE_LEN then Tokenize(script) else None
  {
    hide NextToken;
    var tokens: seq<Token> := [];
    var off := 0;
    assert script[0..] == script;
    PrependNothing(Tokenize(script));
    while off < |script|
      invariant 0 <= off <= |script| && |tokens| <= TEMPLATE_LEN
      invariant Tokenize(script) == Prepend(tokens, Tokenize(script[off..]))
      decreases |script| - off
    {
      var next := NextToken(script[off..]);
      if next.None? { return None; }
      var (t, n) := next.value;
      PrependOne(tokens, script[off..]);
      assert script[off..][n..] == script[off + n..];
      if |tokens| == TEMPLATE_LEN { return None; }
      tokens := tokens + [t];
      off := off + n;
    }
    assert script[off..] == [];
    assert tokens + [] == tokens;
    return Some(tokens);
  }

  method ParseContract(script: Bytes) returns (r: ParseOutcome)
    ensures r == Parse(script)
  {
    hide Tokenize, ScriptNumOf, ContractScript;
    var read := ReadTokens(script);
    if read.None? { return Refused; }
    var tokens := read.value;
    if |tokens| != TEMPLATE_LEN { return Refused; }
    var idx := 0;
    while idx < TEMPLATE_LEN
      invariant 0 <= idx <= TEMPLATE_LEN
      invariant forall k :: 0 <= k < idx && TemplateOp(k).Some? ==> tokens[k].op == TemplateOp(k).value
    {
      if TemplateOp(idx).Some? && tokens[idx].op != TemplateOp(idx).value { return Refused; }
      idx := idx + 1;
    }
    assert MatchesTemplate(tokens);
    var size := ReadScriptNum(tokens[2], MAX_SCRIPT_NUM_LEN);
    if size.NoTopByte? { return Crashed; }
    if size.NotNumber? || size.v != SECRET_SIZE { return Refused; }
    var secretHash := DataOf(tokens[5]);
    if |secretHash| != 32 { return Refused; }
    var pkhRedeem := DataOf(tokens[9]);
    if |pkhRedeem| != 20 { return Refused; }
    var lock := ReadScriptNum(tokens[11], MAX_CLTV_NUM_LEN);
    if lock.NoTopByte? { return Crashed; }
    if lock.NotNumber? || !ValidLockTime(lock.v) { return Refused; }
    var pkhRefund := DataOf(tokens[16]);
    if |pkhRefund| != 20 { return Refused; }
    var canonical := BuildContract(pkhRefund, pkhRedeem, lock.v, secretHash);
    if canonical.Err? || script != canonical.value { return Refused; }
    return Parsed(Terms(secretHash, pkhRedeem, pkhRefund, lock.v));
  }

  // ---------- what parsing and building mean to each other ----------

  /** Reading a built contract finds its twenty elements. */
  lemma TokenizeContract(t: Terms)
    requires Buildable(t)
    ensures Tokenize(ContractScript(t)) == Some(ContractTokens(t))
    ensures MatchesTemplate(ContractTokens(t))
  {
    TokenizeEmitAll(ContractTokens(t));
  }

  lemma LockTimeToken(n: int)
    requires ValidLockTime(n)
    ensures |ScriptNum.Encode(n)| < 256
    ensures ScriptNumOf(Push(|ScriptNum.Encode(n)|, ScriptNum.Encode(n)), MAX_CLTV_NUM_LEN) == Num(n)
  {
    hide ScriptNum.Encode, ScriptNum.Decode, ScriptNum.MinimallyEncoded;
    ScriptNum.LockTimeWidth(n);
    ScriptNum.DecodeEncode(n);
  }

  /** Every parameter of a built contract reads back as its term. */
  lemma ContractParameters(t: Terms)
    requires Buildable(t)
    ensures var ts := ContractTokens(t);
            ScriptNumOf(ts[2], MAX_SCRIPT_NUM_LEN) == Num(SECRET_SIZE)
            && ScriptNumOf(ts[11], MAX_CLTV_NUM_LEN) == Num(t.lockTime)
            && DataOf(ts[5]) == t.secretHash && DataOf(ts[9]) == t.pkhRedeem && DataOf(ts[16]) == t.pkhRefund
  {
    hide ScriptNum.Encode, ScriptNum.Decode, ScriptNum.MinimallyEncoded;
    LockTimeToken(t.lockTime);
    ScriptNum.SmallNumber(SECRET_SIZE);
    ScriptNum.DecodeEncode(SECRET_SIZE);
  }

  lemma ParseTokensOf(ts: seq<Token>, script: Bytes, t: Terms)
    requires MatchesTemplate(ts) && Buildable(t)
    requires ScriptNumOf(ts[2], MAX_SCRIPT_NUM_LEN) == Num(SECRET_SIZE)
    requires ScriptNumOf(ts[11], MAX_CLTV_NUM_LEN) == Num(t.lockTime)
    requires DataOf(ts[5]) == t.secretHash && DataOf(ts[9]) == t.pkhRedeem && DataOf(ts[16]) == t.pkhRefund
    ensures ParseTokens(ts, script) == if script == ContractScript(t) then Parsed(t) else Refused
  {
  }

  /** Parsing undoes building on every set of terms. */
  lemma ParseUndoesBuild(t: Terms)
    requires Buildable(t)
    ensures Parse(ContractScript(t)) == Parsed(t)
  {
    TokenizeContract(t);
    ContractParameters(t);
    ParseTokensOf(ContractTokens(t), ContractScript(t), t);
  }

  /** A script parses to terms exactly when it is, byte for byte, the contract built from them. */
  lemma ParseExactly(script: Bytes, t: Terms)
    ensures Parse(script) == Parsed(t) <==> Buildable(t) && script == ContractScript(t)
  {
    if Buildable(t) && script == ContractScript(t) {
      ParseUndoesBuild(t);
    }
  }

  /** Two contracts are equal exactly when their terms are. */
  lemma ContractInjective(a: Terms, b: Terms)
    requires Buildable(a) && Buildable(b)
    ensures ContractScript(a) == ContractScript(b) <==> a == b
  {
    ParseUndoesBuild(a);
    ParseUndoesBuild(b);
  }

  predicate EmptyPush(t: Token) {
    t.Push? && t.data == []
  }

  /** The tokens on which reading a number indexes an empty push. */
  predicate EmptyNumber(ts: seq<Token>) {
    MatchesTemplate(ts)
    && (EmptyPush(ts[2])
        || (EmptyPush(ts[11])
            && ScriptNumOf(ts[2], MAX_SCRIPT_NUM_LEN) == Num(SECRET_SIZE)
            && |DataOf(ts[5])| == 32 && |DataOf(ts[9])| == 20))
  }

  /** An element written as a push of no bytes is not a small-number opcode. */
  lemma EmptyPushOpcode(s: Bytes)
    requires Tokenize(s).Some?
    ensures forall i :: 0 <= i < |Tokenize(s).value| && EmptyPush(Tokenize(s).value[i])
              ==> OP_PUSHDATA1 <= Tokenize(s).value[i].op <= OP_PUSHDATA4
  {
    EmitAllTokenize(s);
  }

  /** Parsing fails at run time exactly on a template whose size or locktime is pushed as no bytes at all. */
  lemma CrashesExactly(script: Bytes)
    ensures Parse(script) == Crashed <==> Tokenize(script).Some? && EmptyNumber(Tokenize(script).value)
  {
    if Tokenize(script).Some? {
      EmptyPushOpcode(script);
    }
  }

  /** A script that does: the secret size written as OP_PUSHDATA1 with length zero. */
  lemma CrashWitness(t: Terms)
    requires Buildable(t)
    ensures var ts := ContractTokens(t)[2 := Push(OP_PUSHDATA1, [])];
            AllWellFormed(ts) && Parse(EmitAll(ts)) == Crashed
  {
    var ts := ContractTokens(t)[2 := Push(OP_PUSHDATA1, [])];
    TokenizeEmitAll(ts);
    CrashesExactly(EmitAll(ts));
  }

  /** The right terms in a longer push than they need are refused: only the last check sees this. */
  lemma LongPushRefused(t: Terms)
    requires Buildable(t)
    ensures var ts := ContractTokens(t)[5 := Push(OP_PUSHDATA1, t.secretHash)];
            AllWellFormed(ts) && MatchesTemplate(ts) && DataOf(ts[5]) == t.secretHash
            && Parse(EmitAll(ts)) == Refused
  {
    var ts := ContractTokens(t)[5 := Push(OP_PUSHDATA1, t.secretHash)];
    TokenizeEmitAll(ts);
    TokenizeContract(t);
    ContractParameters(t);
    assert ContractTokens(t)[5].op == 32;
    ParseTokensOf(ts, EmitAll(ts), t);
  }

  /** The bytes each element takes. */
  function ElementLength(t: Terms, k: nat): nat {
    if k == 2 then 2 else if k == 5 then 33 else if k == 9 || k == 16 then 21
    else if k == 11 then (if t.lockTime < 0x8000_0000 then 5 else 6)
    else 1
  }

  function LengthUpTo(t: Terms, k: nat): nat {
    if k == 0 then 0 else LengthUpTo(t, k - 1) + ElementLength(t, k - 1)
  }

  lemma ElementLengthIs(t: Terms, k: nat)
    requires Buildable(t) && k < TEMPLATE_LEN
    ensures |Emit(ContractToken(t, k))| == ElementLength(t, k)
  {
    hide ScriptNum.Encode;
    ScriptNum.LockTimeWidth(t.lockTime);
  }

  lemma {:induction false} WrittenLength(t: Terms, k: nat)
    requires Buildable(t) && k <= TEMPLATE_LEN
    ensures |Written(ContractTokens(t), k)| == LengthUpTo(t, k)
  {
    hide ContractToken, ElementLength, Emit, ContractTokens, Written;
    NothingWritten(ContractTokens(t));
    if k > 0 {
      WrittenLength(t, k - 1);
      Grow(ContractTokens(t), k - 1);
      ElementLengthIs(t, k - 1);
      Element(t, k - 1);
    }
  }

  /** A contract is 97 bytes, or 98 when its locktime is past 2038. */
  lemma ContractLength(t: Terms)
    requires Buildable(t)
    ensures |ContractScript(t)| == if t.lockTime < 0x8000_0000 then 97 else 98
  {
    WrittenLength(t, TEMPLATE_LEN);
    AllWritten(ContractTokens(t));
    hide ScriptNum.Encode, ContractToken, ContractTokens, Written, ContractScript;
    assert LengthUpTo(t, 1) == 1;
    assert LengthUpTo(t, 2) == 2;
    assert LengthUpTo(t, 3) == 4;
    assert LengthUpTo(t, 4) == 5;
    assert LengthUpTo(t, 5) == 6;
    assert LengthUpTo(t, 6) == 39;
    assert LengthUpTo(t, 7) == 40;
    assert LengthUpTo(t, 8) == 41;
    assert LengthUpTo(t, 9) == 42;
    assert LengthUpTo(t, 10) == 63;
    assert LengthUpTo(t, 11) == 64;
    assert LengthUpTo(t, 12) == 64 + ElementLength(t, 11);
    assert LengthUpTo(t, 13) == 65 + ElementLength(t, 11);
    assert LengthUpTo(t, 14) == 66 + ElementLength(t, 11);
    assert LengthUpTo(t, 15) == 67 + ElementLength(t, 11);
    assert LengthUpTo(t, 16) == 68 + ElementLength(t, 11);
    assert LengthUpTo(t, 17) == 89 + ElementLength(t, 11);
    assert LengthUpTo(t, 18) == 90 + ElementLength(t, 11);
    assert LengthUpTo(t, 19) == 91 + ElementLength(t, 11);
    assert LengthUpTo(t, 20) == 92 + ElementLength(t, 11);
    ContractScriptIs(t);
  }

  lemma ContractScriptIs(t: Terms)
    requires Buildable(t)
    ensures ContractScript(t) == EmitAll(ContractTokens(t))
  {
  }
}
