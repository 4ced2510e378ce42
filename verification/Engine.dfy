/**
 The part of Bitcoin's script engine that spending a contract exercises: the opcodes of the
 contract, the pushes of a signature script, and the pay-to-script-hash rule that joins them
 (BIP-16, section "Specification"; BIP-65, section "Summary").
 */
module Engine {
  import opened Prelude
  import opened Script
  import opened Contract
  import ScriptNum

  /** The two hash functions, as parameters. */
  datatype Crypto = Crypto(sha256: Bytes -> Bytes, hash160: Bytes -> Bytes)

  /** Policy rules a node may enforce on top of consensus. */
  datatype Policy = Policy(cleanStack: bool, minimalPushes: bool)

  /** What the engine knows of the spending transaction. `sigOk(sig, pub)` covers encoding and signature. */
  datatype Context = Context(lockTime: nat, sequence: nat, sigOk: (Bytes, Bytes) -> bool, policy: Policy)

  const SEQUENCE_FINAL := 0xFFFF_FFFF

  /** Which way a conditional goes; Skipped is one inside a branch that is not run. */
  datatype Branch = Taken | NotTaken | Skipped

  /** The data stack, top last, and the open conditionals, innermost last. */
  datatype VM = VM(stack: seq<Bytes>, cond: seq<Branch>)

  /** A stack element read as a condition: any non-zero byte, except a lone sign bit in the last one. */
  predicate Truth(b: Bytes) {
    exists i :: 0 <= i < |b| && b[i] != 0 && !(i == |b| - 1 && b[i] == 0x80)
  }

  /** The opcode is the shortest that pushes this payload. */
  predicate MinimalPush(op: byte, data: Bytes) {
    && data != []
    && !(|data| == 1 && (1 <= data[0] <= 16 || data[0] == 0x81))
    && (|data| <= 75 ==> op == |data|)
    && (75 < |data| <= 0xff ==> op == OP_PUSHDATA1)
    && (0xff < |data| <= 0xffff ==> op == OP_PUSHDATA2)
  }

  function Top(s: seq<Bytes>, depth: nat): Bytes
    requires depth < |s|
  {
    s[|s| - 1 - depth]
  }

  function Drop(s: seq<Bytes>, n: nat): seq<Bytes>
    requires n <= |s|
  {
    s[..|s| - n]
  }

  predicate Executing(vm: VM) {
    vm.cond == [] || vm.cond[|vm.cond| - 1] == Taken
  }

  /** The value a push opcode leaves on the stack, or None when it is not a push. */
  function PushedValue(t: Token, minimal: bool): Option<Bytes> {
    match t
    case Push(op, data) => if minimal && !MinimalPush(op, data) then None else Some(data)
    case Op(op) =>
      if op == OP_0 then Some([])
      else if op == OP_1NEGATE then Some([0x81])
      else if OP_1 <= op <= OP_16 then Some([op - (OP_1 - 1)])
      else None
  }

  /** The locktime rule: same kind as the transaction's, reached, and the input not final. */
  predicate LockTimeReached(lock: int, ctx: Context) {
    && lock >= 0
    && (lock < LOCKTIME_THRESHOLD <==> ctx.lockTime < LOCKTIME_THRESHOLD)
    && lock <= ctx.lockTime
    && ctx.sequence != SEQUENCE_FINAL
  }

  /** One opcode in a branch that runs; None is a script failure. */
  function Execute(op: byte, s: seq<Bytes>, c: Crypto, ctx: Context): Option<seq<Bytes>> {
    if op == OP_DROP then (if |s| < 1 then None else Some(Drop(s, 1)))
    else if op == OP_DUP then (if |s| < 1 then None else Some(s + [Top(s, 0)]))
    else if op == OP_SIZE then (if |s| < 1 then None else Some(s + [ScriptNum.Encode(|Top(s, 0)|)]))
    else if op == OP_EQUALVERIFY then
      (if |s| < 2 || Top(s, 0) != Top(s, 1) then None else Some(Drop(s, 2)))
    else if op == OP_SHA256 then (if |s| < 1 then None else Some(Drop(s, 1) + [c.sha256(Top(s, 0))]))
    else if op == OP_HASH160 then (if |s| < 1 then None else Some(Drop(s, 1) + [c.hash160(Top(s, 0))]))
    else if op == OP_CHECKLOCKTIMEVERIFY then
      (if |s| < 1 || |Top(s, 0)| > MAX_CLTV_NUM_LEN
          || (ctx.policy.minimalPushes && !ScriptNum.MinimallyEncoded(Top(s, 0)))
          || !LockTimeReached(ScriptNum.Decode(Top(s, 0)), ctx)
       then None else Some(s))
    else if op == OP_CHECKSIG then
      (if |s| < 2 then None
       else Some(Drop(s, 2) + [if ctx.sigOk(Top(s, 1), Top(s, 0)) then [1] else []]))
    else None
  }

  function Step(t: Token, vm: VM, c: Crypto, ctx: Context): Option<VM> {
    if t == Op(OP_IF) then
      if !Executing(vm) then Some(VM(vm.stack, vm.cond + [Skipped]))
      else if |vm.stack| < 1 then None
      else Some(VM(Drop(vm.stack, 1), vm.cond + [if Truth(Top(vm.stack, 0)) then Taken else NotTaken]))
    else if t == Op(OP_ELSE) then
      if vm.cond == [] then None
      else
        var k := |vm.cond| - 1;
        Some(VM(vm.stack, vm.cond[k := match vm.cond[k]
                                       case Taken => NotTaken
                                       case NotTaken => Taken
                                       case Skipped => Skipped]))
    else if t == Op(OP_ENDIF) then
      if vm.cond == [] then None else Some(VM(vm.stack, vm.cond[..|vm.cond| - 1]))
    else if !Executing(vm) then Some(vm)
    else if PushedValue(t, ctx.policy.minimalPushes).Some? then
      Some(VM(vm.stack + [PushedValue(t, ctx.policy.minimalPushes).value], vm.cond))
    else if t.Push? then None
    else
      match Execute(t.op, vm.stack, c, ctx)
      case None => None
      case Some(s) => Some(VM(s, vm.cond))
  }

  /** Runs the tokens from position `k` on. */
  function Run(ts: seq<Token>, k: nat, vm: VM, c: Crypto, ctx: Context): Option<VM>
    requires k <= |ts|
    decreases |ts| - k
  {
    if k == |ts| then Some(vm)
    else
      match Step(ts[k], vm, c, ctx)
      case None => None
      case Some(next) => Run(ts, k + 1, next, c, ctx)
  }

  /** The script leaves one true element (exactly one, under the clean-stack rule) and no open conditional. */
  predicate Accepting(end: Option<VM>, ctx: Context) {
    && end.Some?
    && end.value.cond == []
    && |end.value.stack| >= 1
    && (ctx.policy.cleanStack ==> |end.value.stack| == 1)
    && Truth(Top(end.value.stack, 0))
  }

  predicate Accepts(script: Bytes, stack: seq<Bytes>, c: Crypto, ctx: Context) {
    Tokenize(script).Some? && Accepting(Run(Tokenize(script).value, 0, VM(stack, []), c, ctx), ctx)
  }

  // ---------- the two ways to spend ----------

  /** <sig> <pubkey> <secret> <true>: the secret is 32 bytes and hashes to the contract's hash. */
  predicate RedeemStack(t: Terms, s: seq<Bytes>, c: Crypto, ctx: Context) {
    && |s| >= 4
    && (ctx.policy.cleanStack ==> |s| == 4)
    && Truth(Top(s, 0))
    && |Top(s, 1)| == SECRET_SIZE
    && c.sha256(Top(s, 1)) == t.secretHash
    && c.hash160(Top(s, 2)) == t.pkhRedeem
    && ctx.sigOk(Top(s, 3), Top(s, 2))
  }

  /** <sig> <pubkey> <false>: the transaction's locktime has reached the contract's. */
  predicate RefundStack(t: Terms, s: seq<Bytes>, c: Crypto, ctx: Context) {
    && |s| >= 3
    && (ctx.policy.cleanStack ==> |s| == 3)
    && !Truth(Top(s, 0))
    && t.lockTime <= ctx.lockTime
    && ctx.sequence != SEQUENCE_FINAL
    && c.hash160(Top(s, 1)) == t.pkhRefund
    && ctx.sigOk(Top(s, 2), Top(s, 1))
  }

  /** Unfolds one step of a run over the contract. */
  lemma At(t: Terms, k: nat, vm: VM, c: Crypto, ctx: Context)
    requires Buildable(t) && k < TEMPLATE_LEN
    ensures Run(ContractTokens(t), k, vm, c, ctx)
         == match Step(ContractToken(t, k), vm, c, ctx)
            case None => None
            case Some(next) => Run(ContractTokens(t), k + 1, next, c, ctx)
  {
    Element(t, k);
  }

  lemma TruthOfOne()
    ensures Truth([1]) && !Truth([])
  {
    var one: Bytes := [1];
    assert one[0] != 0;
  }

  /** OP_DUP OP_HASH160 <pkh>, from position `k`, leaves the key's hash above the hash it must equal. */
  function KeyCheck(s: seq<Bytes>, pkh: Bytes, c: Crypto): Option<seq<Bytes>> {
    if |s| < 1 then None else Some(s + [c.hash160(Top(s, 0)), pkh])
  }

  lemma RunKeyCheck(t: Terms, k: nat, s: seq<Bytes>, cond: seq<Branch>, c: Crypto, ctx: Context)
    requires Buildable(t) && (k == 7 || k == 14) && Executing(VM(s, cond))
    ensures Run(ContractTokens(t), k, VM(s, cond), c, ctx)
         == match KeyCheck(s, if k == 7 then t.pkhRedeem else t.pkhRefund, c)
            case None => None
            case Some(s') => Run(ContractTokens(t), k + 3, VM(s', cond), c, ctx)
  {
    hide Run, Truth;
    At(t, k, VM(s, cond), c, ctx);
    if |s| >= 1 {
      var s1 := s + [Top(s, 0)];
      At(t, k + 1, VM(s1, cond), c, ctx);
      var s2 := Drop(s1, 1) + [c.hash160(Top(s1, 0))];
      assert s2 == s + [c.hash160(Top(s, 0))];
      At(t, k + 2, VM(s2, cond), c, ctx);
      assert s2 + [if k == 7 then t.pkhRedeem else t.pkhRefund]
          == s + [c.hash160(Top(s, 0)), if k == 7 then t.pkhRedeem else t.pkhRefund];
    }
  }

  /** OP_EQUALVERIFY OP_CHECKSIG: what both branches end with. */
  predicate Closes(s: seq<Bytes>, ctx: Context) {
    && |s| >= 4
    && (ctx.policy.cleanStack ==> |s| == 4)
    && Top(s, 0) == Top(s, 1)
    && ctx.sigOk(Top(s, 3), Top(s, 2))
  }

  lemma RunClosing(t: Terms, s: seq<Bytes>, c: Crypto, ctx: Context)
    requires Buildable(t)
    ensures Accepting(Run(ContractTokens(t), 18, VM(s, []), c, ctx), ctx) <==> Closes(s, ctx)
  {
    hide Truth;
    TruthOfOne();
    At(t, 18, VM(s, []), c, ctx);
    if |s| >= 2 && Top(s, 0) == Top(s, 1) {
      At(t, 19, VM(Drop(s, 2), []), c, ctx);
    }
  }

  /** OP_SIZE 32 OP_EQUALVERIFY passes exactly when the element is 32 bytes, and leaves it there. */
  lemma RunSizeCheck(t: Terms, s: seq<Bytes>, cond: seq<Branch>, c: Crypto, ctx: Context)
    requires Buildable(t) && Executing(VM(s, cond))
    ensures Run(ContractTokens(t), 1, VM(s, cond), c, ctx)
         == if |s| < 1 || |Top(s, 0)| != SECRET_SIZE then None
            else Run(ContractTokens(t), 4, VM(s, cond), c, ctx)
  {
    hide Run, Truth, ScriptNum.Encode;
    At(t, 1, VM(s, cond), c, ctx);
    if |s| >= 1 {
      var size := ScriptNum.Encode(|Top(s, 0)|);
      var s1 := s + [size];
      At(t, 2, VM(s1, cond), c, ctx);
      var want: Bytes := [SECRET_SIZE];
      var s2 := s1 + [want];
      At(t, 3, VM(s2, cond), c, ctx);
      ScriptNum.SmallNumber(SECRET_SIZE);
      ScriptNum.EncodeInjective(|Top(s, 0)|, SECRET_SIZE);
      assert Drop(s2, 2) == s;
    }
  }

  /** OP_SHA256 <hash> OP_EQUALVERIFY consumes the element and passes exactly when it hashes to the hash. */
  lemma RunHashCheck(t: Terms, s: seq<Bytes>, cond: seq<Branch>, c: Crypto, ctx: Context)
    requires Buildable(t) && Executing(VM(s, cond)) && |s| >= 1
    ensures Run(ContractTokens(t), 4, VM(s, cond), c, ctx)
         == if c.sha256(Top(s, 0)) != t.secretHash then None
            else Run(ContractTokens(t), 7, VM(Drop(s, 1), cond), c, ctx)
  {
    hide Run, Truth;
    At(t, 4, VM(s, cond), c, ctx);
    var s1 := Drop(s, 1) + [c.sha256(Top(s, 0))];
    At(t, 5, VM(s1, cond), c, ctx);
    var s2 := s1 + [t.secretHash];
    At(t, 6, VM(s2, cond), c, ctx);
    assert Drop(s2, 2) == Drop(s, 1);
  }

  lemma LockTimePush(lock: int)
    requires ValidLockTime(lock)
    ensures |ScriptNum.Encode(lock)| < 256
    ensures MinimalPush(|ScriptNum.Encode(lock)|, ScriptNum.Encode(lock))
  {
    hide ScriptNum.Encode;
    ScriptNum.LockTimeWidth(lock);
  }

  lemma ExecuteLockCheck(lock: int, s: seq<Bytes>, c: Crypto, ctx: Context)
    requires ValidLockTime(lock) && |s| >= 1 && Top(s, 0) == ScriptNum.Encode(lock)
    ensures Execute(OP_CHECKLOCKTIMEVERIFY, s, c, ctx)
         == if lock <= ctx.lockTime && ctx.sequence != SEQUENCE_FINAL then Some(s) else None
    ensures Execute(OP_DROP, s, c, ctx) == Some(Drop(s, 1))
  {
    hide ScriptNum.Encode, ScriptNum.Decode, ScriptNum.MinimallyEncoded;
    ScriptNum.LockTimeWidth(lock);
    ScriptNum.DecodeEncode(lock);
  }

  /** <locktime> OP_CHECKLOCKTIMEVERIFY OP_DROP passes exactly when the locktime is reached. */
  lemma RunLockCheck(t: Terms, s: seq<Bytes>, cond: seq<Branch>, c: Crypto, ctx: Context)
    requires Buildable(t) && Executing(VM(s, cond))
    ensures Run(ContractTokens(t), 11, VM(s, cond), c, ctx)
         == if t.lockTime <= ctx.lockTime && ctx.sequence != SEQUENCE_FINAL
            then Run(ContractTokens(t), 14, VM(s, cond), c, ctx)
            else None
  {
    hide Run, Truth, ScriptNum.Encode, ScriptNum.Decode, ScriptNum.MinimallyEncoded, Execute;
    ScriptNum.LockTimeWidth(t.lockTime);
    hide LockTimeReached, MinimalPush;
    At(t, 11, VM(s, cond), c, ctx);
    var lock := ScriptNum.Encode(t.lockTime);
    LockTimePush(t.lockTime);
    var s1 := s + [lock];
    At(t, 12, VM(s1, cond), c, ctx);
    ExecuteLockCheck(t.lockTime, s1, c, ctx);
    At(t, 13, VM(s1, cond), c, ctx);
    assert Drop(s1, 1) == s;
  }

  /** The elements of a branch that is not run change nothing. */
  lemma {:induction false} RunSkipped(t: Terms, k: nat, to: nat, s: seq<Bytes>, b: Branch, c: Crypto, ctx: Context)
    requires Buildable(t) && b != Taken
    requires (1 <= k <= to && to == 10) || (11 <= k <= to && to == 17)
    ensures Run(ContractTokens(t), k, VM(s, [b]), c, ctx) == Run(ContractTokens(t), to, VM(s, [b]), c, ctx)
    decreases TEMPLATE_LEN - k
  {
    hide Run, Truth, ScriptNum.Encode;
    if k < to {
      At(t, k, VM(s, [b]), c, ctx);
      RunSkipped(t, k + 1, to, s, b, c, ctx);
    }
  }

  lemma RunIf(t: Terms, s: seq<Bytes>, c: Crypto, ctx: Context)
    requires Buildable(t) && |s| >= 1
    ensures Run(ContractTokens(t), 0, VM(s, []), c, ctx)
         == Run(ContractTokens(t), 1, VM(Drop(s, 1), [if Truth(Top(s, 0)) then Taken else NotTaken]), c, ctx)
  {
    hide Run, Truth;
    At(t, 0, VM(s, []), c, ctx);
    var b := if Truth(Top(s, 0)) then Taken else NotTaken;
    assert [] + [b] == [b];
  }

  /** OP_ELSE after the redeem branch ran: the refund branch is skipped to OP_ENDIF. */
  lemma RunElseTaken(t: Terms, s: seq<Bytes>, c: Crypto, ctx: Context)
    requires Buildable(t)
    ensures Run(ContractTokens(t), 10, VM(s, [Taken]), c, ctx) == Run(ContractTokens(t), 18, VM(s, []), c, ctx)
  {
    hide Run, Truth;
    At(t, 10, VM(s, [Taken]), c, ctx);
    assert [Taken][0 := NotTaken] == [NotTaken];
    RunSkipped(t, 11, 17, s, NotTaken, c, ctx);
    RunEndIf(t, s, NotTaken, c, ctx);
  }

  /** OP_ELSE after the redeem branch was skipped: the refund branch runs. */
  lemma RunElseNotTaken(t: Terms, s: seq<Bytes>, c: Crypto, ctx: Context)
    requires Buildable(t)
    ensures Run(ContractTokens(t), 1, VM(s, [NotTaken]), c, ctx) == Run(ContractTokens(t), 11, VM(s, [Taken]), c, ctx)
  {
    hide Run, Truth;
    RunSkipped(t, 1, 10, s, NotTaken, c, ctx);
    At(t, 10, VM(s, [NotTaken]), c, ctx);
    assert [NotTaken][0 := Taken] == [Taken];
  }

  lemma RunEndIf(t: Terms, s: seq<Bytes>, b: Branch, c: Crypto, ctx: Context)
    requires Buildable(t)
    ensures Run(ContractTokens(t), 17, VM(s, [b]), c, ctx) == Run(ContractTokens(t), 18, VM(s, []), c, ctx)
  {
    hide Run, Truth;
    At(t, 17, VM(s, [b]), c, ctx);
    assert [b][..0] == [];
  }

  lemma RedeemBranch(t: Terms, s: seq<Bytes>, c: Crypto, ctx: Context)
    requires Buildable(t) && |s| >= 1 && Truth(Top(s, 0))
    ensures Accepting(Run(ContractTokens(t), 0, VM(s, []), c, ctx), ctx) <==> RedeemStack(t, s, c, ctx)
  {
    hide Run, Truth, Accepting, ContractTokens;
    RunIf(t, s, c, ctx);
    RejectsFailure(ctx);
    var s0 := Drop(s, 1);
    RunSizeCheck(t, s0, [Taken], c, ctx);
    if |s0| >= 1 {
      RunHashCheck(t, s0, [Taken], c, ctx);
      var s1 := Drop(s0, 1);
      RunKeyCheck(t, 7, s1, [Taken], c, ctx);
      if |s1| >= 1 {
        var s2 := s1 + [c.hash160(Top(s1, 0)), t.pkhRedeem];
        RunElseTaken(t, s2, c, ctx);
        RunClosing(t, s2, c, ctx);
        assert Top(s2, 1) == c.hash160(Top(s, 2)) && Top(s2, 2) == Top(s, 2);
        assert |s| >= 4 ==> Top(s2, 3) == Top(s, 3);
      }
    }
  }

  lemma RefundBranch(t: Terms, s: seq<Bytes>, c: Crypto, ctx: Context)
    requires Buildable(t) && |s| >= 1 && !Truth(Top(s, 0))
    ensures Accepting(Run(ContractTokens(t), 0, VM(s, []), c, ctx), ctx) <==> RefundStack(t, s, c, ctx)
  {
    hide Run, Truth, Accepting, ContractTokens;
    RunIf(t, s, c, ctx);
    RejectsFailure(ctx);
    var s0 := Drop(s, 1);
    RunElseNotTaken(t, s0, c, ctx);
    RunLockCheck(t, s0, [Taken], c, ctx);
    RunKeyCheck(t, 14, s0, [Taken], c, ctx);
    if |s0| >= 1 {
      var s1 := s0 + [c.hash160(Top(s0, 0)), t.pkhRefund];
      RunEndIf(t, s1, Taken, c, ctx);
      RunClosing(t, s1, c, ctx);
      assert Top(s1, 1) == c.hash160(Top(s, 1)) && Top(s1, 2) == Top(s, 1);
      assert |s| >= 3 ==> Top(s1, 3) == Top(s, 2);
    }
  }

  lemma RejectsFailure(ctx: Context)
    ensures !Accepting(None, ctx)
  {
  }

  /**
   Exactly two ways to spend: whatever is on the stack and whatever the transaction says, the
   contract accepts if and only if the stack is a redeem or a refund.
   */
  lemma ExactlyTwoWays(t: Terms, s: seq<Bytes>, c: Crypto, ctx: Context)
    requires Buildable(t)
    ensures Accepts(ContractScript(t), s, c, ctx) <==> RedeemStack(t, s, c, ctx) || RefundStack(t, s, c, ctx)
    ensures !(RedeemStack(t, s, c, ctx) && RefundStack(t, s, c, ctx))
  {
    TokenizeContract(t);
    hide ContractScript, ContractTokens;
    if |s| == 0 {
      At(t, 0, VM(s, []), c, ctx);
    } else if Truth(Top(s, 0)) {
      RedeemBranch(t, s, c, ctx);
    } else {
      RefundBranch(t, s, c, ctx);
    }
  }
}
