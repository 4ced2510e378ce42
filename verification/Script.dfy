/**
 Scripts as bytes: opcodes, tokens, the tokenizer that reads them and the builder
 that writes them, as the contract code of wasm/htlc.go uses them.
 */
module Script {
  import opened Prelude
  import ScriptNum

  const OP_0: byte := 0x00
  const OP_PUSHDATA1: byte := 0x4c
  const OP_PUSHDATA2: byte := 0x4d
  const OP_PUSHDATA4: byte := 0x4e
  const OP_1NEGATE: byte := 0x4f
  const OP_1: byte := 0x51
  const OP_16: byte := 0x60
  const OP_IF: byte := 0x63
  const OP_ELSE: byte := 0x67
  const OP_ENDIF: byte := 0x68
  const OP_DROP: byte := 0x75
  const OP_DUP: byte := 0x76
  const OP_SIZE: byte := 0x82
  const OP_EQUAL: byte := 0x87
  const OP_EQUALVERIFY: byte := 0x88
  const OP_SHA256: byte := 0xa8
  const OP_HASH160: byte := 0xa9
  const OP_CHECKSIG: byte := 0xac
  const OP_CHECKLOCKTIMEVERIFY: byte := 0xb1

  /** One element of a script: a bare opcode, or an opcode that carries bytes (possibly none). */
  datatype Token = Op(op: byte) | Push(op: byte, data: Bytes)

  /** The opcode and its payload agree, so that the token has an encoding. */
  predicate WellFormed(t: Token) {
    match t
    case Op(op) => op == 0 || op > OP_PUSHDATA4
    case Push(op, data) =>
      || (1 <= op < OP_PUSHDATA1 && |data| == op)
      || (op == OP_PUSHDATA1 && |data| < 0x100)
      || (op == OP_PUSHDATA2 && |data| < 0x1_0000)
      || (op == OP_PUSHDATA4 && |data| < 0x8000_0000)
  }

  predicate AllWellFormed(ts: seq<Token>) {
    forall i :: 0 <= i < |ts| ==> WellFormed(ts[i])
  }

  function Le16(n: nat): Bytes
    requires n < 0x1_0000
  {
    [n % 256, n / 256]
  }

  function Le32(n: nat): Bytes
    requires n < 0x1_0000_0000
  {
    [n % 256, n / 256 % 256, n / 65536 % 256, n / 16777216]
  }

  function FromLe16(a: nat, b: nat): nat {
    a + 256 * b
  }

  function FromLe32(a: nat, b: nat, c: nat, d: nat): nat {
    a + 256 * b + 65536 * c + 16777216 * d
  }

  /** The opcode of a push and the length it announces. */
  function Header(op: byte, n: nat): (bs: Bytes)
    requires 0 < op <= OP_PUSHDATA4 && n < 0x8000_0000
    requires op == OP_PUSHDATA1 ==> n < 0x100
    requires op == OP_PUSHDATA2 ==> n < 0x1_0000
    ensures |bs| > 0 && bs[0] == op
  {
    if op < OP_PUSHDATA1 then [op]
    else if op == OP_PUSHDATA1 then [op, n]
    else if op == OP_PUSHDATA2 then [op] + Le16(n)
    else [op] + Le32(n)
  }

  /** The bytes a token is written as. */
  function Emit(t: Token): (bs: Bytes)
    requires WellFormed(t)
    ensures |bs| > 0 && bs[0] == t.op
  {
    match t
    case Op(op) => [op]
    case Push(op, data) => Header(op, |data|) + data
  }

  function EmitAll(ts: seq<Token>): Bytes
    requires AllWellFormed(ts)
  {
    if ts == [] then [] else Emit(ts[0]) + EmitAll(ts[1..])
  }

  /** The token whose opcode and length prefix take `head` bytes and whose payload is `n` bytes. */
  function Payload(s: Bytes, head: nat, n: nat): (r: Option<(Token, nat)>)
    requires 0 < head <= |s|
  {
    if n > |s| - head then None else Some((Push(s[0], s[head..head + n]), head + n))
  }

  /** The first token of a script and the number of bytes it takes, or None when it is cut short. */
  function NextToken(s: Bytes): (r: Option<(Token, nat)>)
    requires s != []
    ensures r.Some? ==> 0 < r.value.1 <= |s|
  {
    var op := s[0];
    if 1 <= op < OP_PUSHDATA1 then Payload(s, 1, op)
    else if op == OP_PUSHDATA1 then
      if |s| < 2 then None else Payload(s, 2, s[1])
    else if op == OP_PUSHDATA2 then
      if |s| < 3 then None else Payload(s, 3, FromLe16(s[1], s[2]))
    else if op == OP_PUSHDATA4 then
      if |s| < 5 then None
      else
        var n := FromLe32(s[1], s[2], s[3], s[4]);
        // The length is read into a signed 32-bit integer.
        if n >= 0x8000_0000 then None else Payload(s, 5, n)
    else Some((Op(op), 1))
  }

  /** Every token of a script, or None when it ends inside one. */
  function Tokenize(s: Bytes): Option<seq<Token>>
    decreases |s|
  {
    if s == [] then Some([])
    else
      match NextToken(s)
      case None => None
      case Some((t, n)) =>
        match Tokenize(s[n..])
        case None => None
        case Some(ts) => Some([t] + ts)
  }

  lemma Le16Value(n: nat)
    requires n < 0x1_0000
    ensures FromLe16(Le16(n)[0], Le16(n)[1]) == n
  {
  }

  lemma Le32Value(n: nat)
    requires n < 0x1_0000_0000
    ensures var d := Le32(n); FromLe32(d[0], d[1], d[2], d[3]) == n
  {
    var a, b := n / 256, n / 65536;
    assert n == n % 256 + 256 * a;
    assert b == a / 256 && a == a % 256 + 256 * b;
    assert n / 16777216 == b / 256 && b == b % 256 + 256 * (b / 256);
  }

  lemma PayloadOf(head: Bytes, data: Bytes, rest: Bytes)
    requires head != []
    ensures Payload(head + data + rest, |head|, |data|) == Some((Push(head[0], data), |head| + |data|))
  {
    var s := head + data + rest;
    assert s[|head|..|head| + |data|] == data;
  }

  lemma NextTokenOfEmit(t: Token, rest: Bytes)
    requires WellFormed(t)
    ensures NextToken(Emit(t) + rest) == Some((t, |Emit(t)|))
  {
    if t.Push? {
      var head := Header(t.op, |t.data|);
      PayloadOf(head, t.data, rest);
      var s := head + t.data + rest;
      assert forall i :: 0 <= i < |head| ==> s[i] == head[i];
      if t.op == OP_PUSHDATA2 {
        Le16Value(|t.data|);
      } else if t.op == OP_PUSHDATA4 {
        Le32Value(|t.data|);
      }
    }
  }

  /** Reading what was written gives the tokens back, opcode by opcode. */
  lemma {:induction false} TokenizeEmitAll(ts: seq<Token>)
    requires AllWellFormed(ts)
    ensures Tokenize(EmitAll(ts)) == Some(ts)
  {
    hide NextToken, Emit, WellFormed;
    if ts != [] {
      var rest := EmitAll(ts[1..]);
      NextTokenOfEmit(ts[0], rest);
      TokenizeEmitAll(ts[1..]);
      assert EmitAll(ts) == Emit(ts[0]) + rest;
      assert (Emit(ts[0]) + rest)[|Emit(ts[0])|..] == rest;
      assert [ts[0]] + ts[1..] == ts;
    }
  }

  lemma Le32Digits(a: byte, b: byte, c: byte, d: byte)
    ensures FromLe32(a, b, c, d) < 0x1_0000_0000
    ensures Le32(FromLe32(a, b, c, d)) == [a, b, c, d]
  {
    var n := FromLe32(a, b, c, d);
    assert n / 16777216 == d;
    assert n / 65536 == c + 256 * (d as int);
    assert n / 256 == b + 256 * (c + 256 * (d as int));
    assert (b + 256 * (c + 256 * (d as int))) % 256 == b;
  }

  lemma Le16Digits(a: byte, b: byte)
    ensures FromLe16(a, b) < 0x1_0000
    ensures Le16(FromLe16(a, b)) == [a, b]
  {
  }

  /** The bytes before the payload are the header the payload's length asks for. */
  lemma HeaderRead(s: Bytes)
    requires s != [] && NextToken(s).Some? && NextToken(s).value.0.Push?
    ensures WellFormed(NextToken(s).value.0)
    ensures var (t, n) := NextToken(s).value;
            0 < n - |t.data| <= |s| && s[..n - |t.data|] == Header(t.op, |t.data|)
  {
    var op := s[0];
    hide Le16, FromLe16, Le32, FromLe32;
    if op == OP_PUSHDATA2 {
      Le16Digits(s[1], s[2]);
      assert s[..3] == [op] + [s[1], s[2]];
    } else if op == OP_PUSHDATA4 {
      Le32Digits(s[1], s[2], s[3], s[4]);
      assert s[..5] == [op] + [s[1], s[2], s[3], s[4]];
    }
  }

  lemma EmitOfNextToken(s: Bytes)
    requires s != [] && NextToken(s).Some?
    ensures WellFormed(NextToken(s).value.0)
    ensures Emit(NextToken(s).value.0) == s[..NextToken(s).value.1]
  {
    var (t, n) := NextToken(s).value;
    if t.Push? {
      HeaderRead(s);
      var head := n - |t.data|;
      assert t.data == s[head..n];
      assert s[..head] + s[head..n] == s[..n];
    }
  }

  /** Writing what was read gives the script back: tokens lose nothing. */
  lemma {:induction false} EmitAllTokenize(s: Bytes)
    requires Tokenize(s).Some?
    ensures AllWellFormed(Tokenize(s).value)
    ensures EmitAll(Tokenize(s).value) == s
    decreases |s|
  {
    hide NextToken, Emit, WellFormed;
    if s != [] {
      var n := NextToken(s).value.1;
      EmitOfNextToken(s);
      EmitAllTokenize(s[n..]);
      EmitAllCons(NextToken(s).value.0, Tokenize(s[n..]).value);
      assert s == s[..n] + s[n..];
    }
  }

  lemma EmitAllCons(t: Token, ts: seq<Token>)
    requires WellFormed(t) && AllWellFormed(ts)
    ensures AllWellFormed([t] + ts)
    ensures EmitAll([t] + ts) == Emit(t) + EmitAll(ts)
  {
    hide Emit;
    assert ([t] + ts)[1..] == ts;
  }

  lemma {:induction false} EmitAllAppend(a: seq<Token>, b: seq<Token>)
    requires AllWellFormed(a) && AllWellFormed(b)
    ensures AllWellFormed(a + b)
    ensures EmitAll(a + b) == EmitAll(a) + EmitAll(b)
  {
    hide Emit, WellFormed;
    if a == [] {
      assert a + b == b;
    } else {
      assert (a + b)[1..] == a[1..] + b;
      EmitAllAppend(a[1..], b);
      assert EmitAll(a + b) == Emit(a[0]) + EmitAll(a[1..] + b);
      assert Emit(a[0]) + (EmitAll(a[1..]) + EmitAll(b)) == EmitAll(a) + EmitAll(b);
    }
  }

  // ---------- the builder ----------

  /**
   The shortest push of `data`: a small-number opcode when one stands for it, otherwise
   the shortest length prefix. A lone zero byte becomes OP_0, which pushes no bytes.
   */
  function PushOf(data: Bytes): (t: Token)
    requires |data| < 0x1_0000
    ensures WellFormed(t)
  {
    if data == [] || data == [0] then Op(OP_0)
    else if |data| == 1 && data[0] <= 16 then Op(OP_1 - 1 + data[0])
    else if data == [0x81] then Op(OP_1NEGATE)
    else if |data| < 0x4c then Push(|data|, data)
    else if |data| < 0x100 then Push(OP_PUSHDATA1, data)
    else Push(OP_PUSHDATA2, data)
  }

  /** The push of a non-negative number. */
  function NumberOf(n: nat): (t: Token)
    requires |ScriptNum.Encode(n)| < 0x1_0000
    ensures WellFormed(t)
  {
    if n == 0 then Op(OP_0)
    else if n <= 16 then Op(OP_1 - 1 + n)
    else PushOf(ScriptNum.Encode(n))
  }

  // A script under construction is its bytes so far; each call appends one element.

  function AddOp(script: Bytes, op: byte): Bytes
    requires WellFormed(Op(op))
  {
    script + Emit(Op(op))
  }

  function AddData(script: Bytes, data: Bytes): Bytes
    requires |data| < 0x1_0000
  {
    script + Emit(PushOf(data))
  }

  function AddInt64(script: Bytes, n: nat): Bytes
    requires |ScriptNum.Encode(n)| < 0x1_0000
  {
    script + Emit(NumberOf(n))
  }
}
