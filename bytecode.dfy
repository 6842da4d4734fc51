// What the AST code generators write to and read from: the byte-code
// block (an append-only instruction list whose jump targets are patched
// later, and its literal pool), the register stack, and the generate
// context with its flags and counters.  Sub-expressions and statements
// the generators delegate to are abstract: each appends one marker
// instruction naming the node.

module ByteCode {

  type Register = nat

  /** An AST node, by identity. */
  type NodeId = nat

  /**
   * The register index that names `this` in generated code.  Its value is
   * defined outside the files modelled here; the model uses it only as a
   * distinguished register number.
   */
  const REGULAR_REGISTER_LIMIT: Register := 0x7FFF

  /** A jump whose target is not yet known, or the code position it jumps to. */
  datatype JumpTarget = Unpatched | At(pos: nat)

  /** The text of a property key; `NumberText(n)` is the text the number-to-string conversion gives for `n`. */
  datatype KeyText = Text(s: string) | NumberText(n: int)

  datatype Literal = UndefinedLiteral | BooleanLiteral(b: bool) | IteratorSymbol | KeyLiteral(key: KeyText)

  /** An entry of the block's literal pool. */
  datatype LiteralEntry =
    | KeyString(key: KeyText)
    | InlineCache
    | SpreadIndexTable(indices: seq<nat>)

  datatype Instr =
    | Move(src: Register, dst: Register)
    | LoadLiteral(dst: Register, literal: Literal)
    | LoadByName(dst: Register, name: string)
    | GetGlobalObject(dst: Register, name: string)
    | GetObject(obj: Register, property: Register, dst: Register)
    | GetObjectPreComputedCase(obj: Register, dst: Register, name: string)
    | SetObjectPreComputedCase(obj: Register, name: string, src: Register, cache: nat)
    | CreateObject(dst: Register)
    | ObjectDefineOwnPropertyWithNameOperation(obj: Register, name: string, src: Register)
    | ObjectDefineGetter(obj: Register, property: Register, value: Register)
    | ObjectDefineSetter(obj: Register, property: Register, value: Register)
    | CallFunction(callee: Register, argumentsStart: Register, argc: nat, dst: Register,
                   hasSpread: bool, spreadTable: Option<nat>)
    | CallFunctionWithReceiver(receiver: Register, callee: Register, argumentsStart: Register, argc: nat,
                               dst: Register, isSuperCall: bool, hasSpread: bool, spreadTable: Option<nat>)
    | CallEvalFunction(evalIndex: Register, argumentsStart: Register, argc: nat, dst: Register, inWithScope: bool)
    | CallFunctionInWithScope(name: string, argumentsStart: Register, argc: nat, dst: Register)
    | BinaryEqual(left: Register, right: Register, dst: Register)
    | JumpIfFalse(cond: Register, target: JumpTarget)
    | JumpIfTrue(cond: Register, target: JumpTarget)
    | Jump(target: JumpTarget)
    | ThrowStaticErrorOperation(kind: ErrorKind, message: string)
    | CreateFunction(dst: Register, childBlock: nat)
    /** The code of an abstract expression, leaving its value in `dst`. */
    | Evaluate(node: NodeId, dst: Register)
    /** The code of an abstract member expression that also leaves its object in `holder`. */
    | EvaluateMember(node: NodeId, holder: Register, dst: Register)
    /** The code of an abstract statement or a declaration evaluated for effect. */
    | Execute(node: NodeId)
    /** The code storing `src` into an abstract assignment target. */
    | Store(node: NodeId, src: Register)

  datatype Option<T> = None | Some(value: T)

  /** The kind of error a ThrowStaticErrorOperation raises. */
  datatype ErrorKind = TypeError

  /** The registers an instruction writes. */
  predicate Writes(i: Instr, r: Register)
  {
    match i
    case Move(_, d) => d == r
    case LoadLiteral(d, _) => d == r
    case LoadByName(d, _) => d == r
    case GetGlobalObject(d, _) => d == r
    case GetObject(_, _, d) => d == r
    case GetObjectPreComputedCase(_, d, _) => d == r
    case CreateObject(d) => d == r
    case CallFunction(_, _, _, d, _, _) => d == r
    case CallFunctionWithReceiver(_, _, _, _, d, _, _, _) => d == r
    case CallEvalFunction(_, _, _, d, _) => d == r
    case CallFunctionInWithScope(_, _, _, d) => d == r
    case BinaryEqual(_, _, d) => d == r
    case CreateFunction(d, _) => d == r
    case Evaluate(_, d) => d == r
    case EvaluateMember(_, h, d) => h == r || d == r
    case _ => false
  }

  /** The last instruction before position `at` that writes `r`, if any. */
  function WriterAt(code: seq<Instr>, at: nat, r: Register): (w: Option<Instr>)
    requires at <= |code|
    ensures w.Some? ==> Writes(w.value, r)
  {
    if at == 0 then None
    else if Writes(code[at - 1], r) then Some(code[at - 1])
    else WriterAt(code, at - 1, r)
  }

  /** The last writer before `at` depends only on the code before `at`. */
  lemma {:induction false} WriterAtPrefix(c1: seq<Instr>, c2: seq<Instr>, at: nat, r: Register)
    requires at <= |c1| && at <= |c2| && c1[..at] == c2[..at]
    ensures WriterAt(c1, at, r) == WriterAt(c2, at, r)
  {
    if at > 0 {
      assert c1[at - 1] == c1[..at][at - 1] == c2[..at][at - 1] == c2[at - 1];
      assert c1[..at - 1] == c1[..at][..at - 1];
      assert c2[..at - 1] == c2[..at][..at - 1];
      WriterAtPrefix(c1, c2, at - 1, r);
    }
  }

  /** In `a + b`, the last writer within `b` if there is one, else the last writer in `a`. */
  lemma {:induction false} WriterAtAppend(a: seq<Instr>, b: seq<Instr>, i: nat, r: Register)
    requires i <= |b|
    ensures WriterAt(a + b, |a| + i, r) == if WriterAt(b, i, r).Some? then WriterAt(b, i, r) else WriterAt(a, |a|, r)
  {
    if i == 0 {
      assert (a + b)[..|a|] == a[..|a|];
      WriterAtPrefix(a + b, a, |a|, r);
    } else {
      assert (a + b)[|a| + i - 1] == b[i - 1];
      WriterAtAppend(a, b, i - 1, r);
    }
  }

  /** The last writer up to the end of a prefix is the prefix's own. */
  lemma {:induction false} WriterAtOfPrefix(code: seq<Instr>, p: seq<Instr>, r: Register)
    requires |p| <= |code| && code[..|p|] == p
    ensures WriterAt(code, |p|, r) == WriterAt(p, |p|, r)
  {
    assert p[..|p|] == p;
    WriterAtPrefix(code, p, |p|, r);
  }

  /** Three silent pieces after `a` leave the last writer of `r` as it was at the end of `a`. */
  lemma {:induction false} WriterAtPastSilentParts(a: seq<Instr>, b: seq<Instr>, c: seq<Instr>, d: seq<Instr>, r: Register)
    requires forall k :: 0 <= k < |b| ==> !Writes(b[k], r)
    requires forall k :: 0 <= k < |c| ==> !Writes(c[k], r)
    requires forall k :: 0 <= k < |d| ==> !Writes(d[k], r)
    ensures WriterAt(a + b + c + d, |a + b + c + d|, r) == WriterAt(a, |a|, r)
  {
    WriterAtPastSilent(a + b + c, d, r);
    WriterAtPastSilent(a + b, c, r);
    WriterAtPastSilent(a, b, r);
  }

  /** Indexing into three sequences laid end to end. */
  lemma {:induction false} ConcatIndex<T>(a: seq<T>, m: seq<T>, b: seq<T>, k: nat)
    requires k < |a| + |m| + |b|
    ensures (a + m + b)[k] == if k < |a| then a[k] else if k < |a| + |m| then m[k - |a|] else b[k - |a| - |m|]
  {}

  /** Where `p + q` begins `s`, `y + s` has `y + p` as a prefix and `q` right after it. */
  lemma {:induction false} SliceAfterPrefix<T>(y: seq<T>, s: seq<T>, p: seq<T>, q: seq<T>)
    requires |p| + |q| <= |s| && s[..|p| + |q|] == p + q
    ensures (y + s)[..|y| + |p|] == y + p
    ensures (y + s)[|y| + |p|..|y| + |p| + |q|] == q
  {
    assert (y + s)[..|y| + |p|] == y + s[..|p|];
    assert s[..|p|] == (p + q)[..|p|] == p;
    assert (y + s)[|y| + |p|..|y| + |p| + |q|] == s[|p|..|p| + |q|] == (p + q)[|p|..] == q;
  }

  /** Code that never writes `r`, appended, leaves its last writer as it was. */
  lemma {:induction false} WriterAtPastSilent(a: seq<Instr>, b: seq<Instr>, r: Register)
    requires forall k :: 0 <= k < |b| ==> !Writes(b[k], r)
    ensures WriterAt(a + b, |a + b|, r) == WriterAt(a, |a|, r)
  {
    WriterAtSkip(b, 0, |b|, r);
    WriterAtAppend(a, b, |b|, r);
  }

  /** Instructions that do not write `r` leave its last writer as it was. */
  lemma {:induction false} WriterAtSkip(code: seq<Instr>, from: nat, at: nat, r: Register)
    requires from <= at <= |code|
    requires forall k :: from <= k < at ==> !Writes(code[k], r)
    ensures WriterAt(code, at, r) == WriterAt(code, from, r)
    decreases at - from
  {
    if from < at {
      WriterAtSkip(code, from, at - 1, r);
    }
  }

  predicate IsJump(i: Instr)
  {
    i.JumpIfFalse? || i.JumpIfTrue? || i.Jump?
  }

  /** The jump `i` with its target set to `pos`. */
  function Retarget(i: Instr, pos: nat): (r: Instr)
    requires IsJump(i)
    ensures IsJump(r) && r.target == At(pos)
    ensures i.JumpIfFalse? ==> r == JumpIfFalse(i.cond, At(pos))
    ensures i.JumpIfTrue? ==> r == JumpIfTrue(i.cond, At(pos))
    ensures i.Jump? ==> r == Jump(At(pos))
  {
    match i
    case JumpIfFalse(c, _) => JumpIfFalse(c, At(pos))
    case JumpIfTrue(c, _) => JumpIfTrue(c, At(pos))
    case Jump(_) => Jump(At(pos))
  }

  /** `code` with the jump at every position in `ps` retargeted to `t`. */
  function PatchAll(code: seq<Instr>, ps: seq<nat>, t: nat): (r: seq<Instr>)
    requires forall k :: 0 <= k < |ps| ==> ps[k] < |code| && IsJump(code[ps[k]])
    ensures |r| == |code|
    ensures forall k :: 0 <= k < |code| ==> r[k] == if k in ps then Retarget(code[k], t) else code[k]
    decreases |ps|
  {
    if ps == [] then code
    else
      var p := ps[|ps| - 1];
      assert ps == ps[..|ps| - 1] + [p];
      PatchAll(code, ps[..|ps| - 1], t)[p := Retarget(code[p], t)]
  }

  /** ByteCodeBlock: the code buffer, its literal pool and the register-file size it needs. */
  class ByteCodeBlock {
    var code: seq<Instr>
    var literalData: seq<LiteralEntry>
    var requiredRegisterFileSize: nat

    constructor (registerFileSize: nat)
      ensures code == [] && literalData == [] && requiredRegisterFileSize == registerFileSize
    {
      code := [];
      literalData := [];
      requiredRegisterFileSize := registerFileSize;
    }

    /** currentCodeSize: the position the next instruction is written at. */
    function CurrentCodeSize(): (r: nat)
      reads this
      ensures r == |code|
    {
      |code|
    }

    method PushCode(i: Instr)
      modifies this
      ensures code == old(code) + [i]
      ensures literalData == old(literalData) && requiredRegisterFileSize == old(requiredRegisterFileSize)
    {
      code := code + [i];
    }

    /** Several pushCode calls in a row. */
    method PushCodes(instrs: seq<Instr>)
      modifies this
      ensures code == old(code) + instrs
      ensures literalData == old(literalData) && requiredRegisterFileSize == old(requiredRegisterFileSize)
    {
      code := code + instrs;
    }

    method PushLiteral(e: LiteralEntry)
      modifies this
      ensures literalData == old(literalData) + [e]
      ensures code == old(code) && requiredRegisterFileSize == old(requiredRegisterFileSize)
    {
      literalData := literalData + [e];
    }

    /** Appends `index` to the spread-index table at literal position `table`. */
    method AppendSpreadIndex(table: nat, index: nat)
      requires table < |literalData| && literalData[table].SpreadIndexTable?
      modifies this
      ensures literalData == old(literalData)[table := SpreadIndexTable(old(literalData)[table].indices + [index])]
      ensures code == old(code) && requiredRegisterFileSize == old(requiredRegisterFileSize)
    {
      literalData := literalData[table := SpreadIndexTable(literalData[table].indices + [index])];
    }

    /** Sets the target of the jump at `pos` (peekCode(pos)->m_jumpPosition = target). */
    method PatchJump(pos: nat, target: nat)
      requires pos < |code| && IsJump(code[pos])
      modifies this
      ensures code == old(code)[pos := Retarget(old(code)[pos], target)]
      ensures literalData == old(literalData) && requiredRegisterFileSize == old(requiredRegisterFileSize)
    {
      code := code[pos := Retarget(code[pos], target)];
    }

    /** Patches the jump at every position in `ps` to `target`, one after the other. */
    method PatchJumps(ps: seq<nat>, target: nat)
      requires forall k :: 0 <= k < |ps| ==> ps[k] < |code| && IsJump(code[ps[k]])
      modifies this
      ensures code == PatchAll(old(code), ps, target)
      ensures literalData == old(literalData) && requiredRegisterFileSize == old(requiredRegisterFileSize)
    {
      var i := 0;
      while i < |ps|
        invariant 0 <= i <= |ps|
        invariant code == PatchAll(old(code), ps[..i], target)
        invariant literalData == old(literalData) && requiredRegisterFileSize == old(requiredRegisterFileSize)
      {
        assert ps[..i + 1][..i] == ps[..i];
        PatchJump(ps[i], target);
        i := i + 1;
      }
      assert ps[..|ps|] == ps;
    }

    method GrowRegisterFile()
      modifies this
      ensures requiredRegisterFileSize == old(requiredRegisterFileSize) + 1
      ensures code == old(code) && literalData == old(literalData)
    {
      requiredRegisterFileSize := requiredRegisterFileSize + 1;
    }
  }

  /**
   * The register stack.  A fresh register is numbered by the stack depth
   * above `base`; a direct register (a variable's own slot) may also be
   * pushed.  A context and its copies share one stack.
   */
  class RegisterStack {
    const base: nat
    var stack: seq<Register>

    constructor (base: nat)
      ensures this.base == base && stack == []
    {
      this.base := base;
      stack := [];
    }

    /** The register getRegister hands out next. */
    function NextFree(): (r: Register)
      reads this
      ensures r == base + |stack|
    {
      base + |stack|
    }
  }

  /** A child code block of the block being generated. */
  class ChildBlock {
    const isFunctionExpression: bool
    var functionName: Option<string>
    var inWithScope: bool

    constructor (isFunctionExpression: bool)
      ensures this.isFunctionExpression == isFunctionExpression && functionName == None && !inWithScope
    {
      this.isFunctionExpression := isFunctionExpression;
      functionName := None;
      inWithScope := false;
    }

    method SetFunctionName(name: string)
      modifies this
      ensures functionName == Some(name) && inWithScope == old(inWithScope)
    {
      functionName := Some(name);
    }

    method SetInWithScope()
      modifies this
      ensures inWithScope && functionName == old(functionName)
    {
      inWithScope := true;
    }
  }

  /** ByteCodeGenerateContext. */
  class GenerateContext {
    const registers: RegisterStack
    /** The child blocks of the code block being generated, in order. */
    const childBlocks: seq<ChildBlock>
    const isWithScope: bool
    const isEvalCode: bool
    var canSkipCopyToRegister: bool
    var inCallingExpressionScope: bool
    var isHeadOfMemberExpression: bool
    var feCounter: nat
    /** Positions of the jumps unlabelled `break`s left to be patched. */
    var breakPositions: seq<nat>
    /** Positions of the jumps unlabelled `continue`s left to be patched. */
    var continuePositions: seq<nat>
    var positionToContinue: nat

    constructor (registers: RegisterStack, childBlocks: seq<ChildBlock>, isWithScope: bool, isEvalCode: bool)
      ensures this.registers == registers && this.childBlocks == childBlocks
      ensures this.isWithScope == isWithScope && this.isEvalCode == isEvalCode
      ensures canSkipCopyToRegister && !inCallingExpressionScope && !isHeadOfMemberExpression
      ensures feCounter == 0 && breakPositions == [] && continuePositions == [] && positionToContinue == 0
    {
      this.registers := registers;
      this.childBlocks := childBlocks;
      this.isWithScope := isWithScope;
      this.isEvalCode := isEvalCode;
      canSkipCopyToRegister := true;
      inCallingExpressionScope := false;
      isHeadOfMemberExpression := false;
      feCounter := 0;
      breakPositions := [];
      continuePositions := [];
      positionToContinue := 0;
    }

    /** The copy constructor: same flags and counters, the same register stack, no pending jumps of its own. */
    constructor Copy(other: GenerateContext)
      ensures registers == other.registers && childBlocks == other.childBlocks
      ensures isWithScope == other.isWithScope && isEvalCode == other.isEvalCode
      ensures canSkipCopyToRegister == other.canSkipCopyToRegister
      ensures inCallingExpressionScope == other.inCallingExpressionScope
      ensures isHeadOfMemberExpression == other.isHeadOfMemberExpression
      ensures feCounter == other.feCounter && positionToContinue == other.positionToContinue
      ensures breakPositions == [] && continuePositions == []
    {
      registers := other.registers;
      childBlocks := other.childBlocks;
      isWithScope := other.isWithScope;
      isEvalCode := other.isEvalCode;
      canSkipCopyToRegister := other.canSkipCopyToRegister;
      inCallingExpressionScope := other.inCallingExpressionScope;
      isHeadOfMemberExpression := other.isHeadOfMemberExpression;
      feCounter := other.feCounter;
      breakPositions := [];
      continuePositions := [];
      positionToContinue := other.positionToContinue;
    }

    /** getRegister: pushes and returns the next free register. */
    method GetRegister() returns (r: Register)
      modifies registers
      ensures r == old(registers.NextFree()) && registers.stack == old(registers.stack) + [r]
    {
      r := registers.base + |registers.stack|;
      registers.stack := registers.stack + [r];
    }

    /** Pushes a register that is not fresh (a variable's own slot). */
    method PushRegister(r: Register)
      modifies registers
      ensures registers.stack == old(registers.stack) + [r]
    {
      registers.stack := registers.stack + [r];
    }

    /** giveUpRegister: pops the top register. */
    method GiveUpRegister()
      requires |registers.stack| > 0
      modifies registers
      ensures registers.stack == old(registers.stack)[..|old(registers.stack)| - 1]
    {
      registers.stack := registers.stack[..|registers.stack| - 1];
    }

    /** getLastRegisterIndex(n): the register `n` places below the top. */
    function LastRegisterIndex(n: nat): (r: Register)
      requires n < |registers.stack|
      reads this, registers
      ensures r == registers.stack[|registers.stack| - 1 - n]
    {
      registers.stack[|registers.stack| - 1 - n]
    }

    /** consumeBreakPositions: every pending break jump is patched to `target`, and none is left pending. */
    method ConsumeBreakPositions(cb: ByteCodeBlock, target: nat)
      requires forall k :: 0 <= k < |breakPositions| ==> breakPositions[k] < |cb.code| && IsJump(cb.code[breakPositions[k]])
      modifies this, cb
      ensures cb.code == PatchAll(old(cb.code), old(breakPositions), target)
      ensures breakPositions == [] && continuePositions == old(continuePositions)
      ensures positionToContinue == old(positionToContinue) && feCounter == old(feCounter)
      ensures canSkipCopyToRegister == old(canSkipCopyToRegister)
      ensures cb.literalData == old(cb.literalData) && cb.requiredRegisterFileSize == old(cb.requiredRegisterFileSize)
    {
      cb.PatchJumps(breakPositions, target);
      breakPositions := [];
    }

    /** consumeContinuePositions: every pending continue jump is patched to `target`, and none is left pending. */
    method ConsumeContinuePositions(cb: ByteCodeBlock, target: nat)
      requires forall k :: 0 <= k < |continuePositions| ==>
        continuePositions[k] < |cb.code| && IsJump(cb.code[continuePositions[k]])
      modifies this, cb
      ensures cb.code == PatchAll(old(cb.code), old(continuePositions), target)
      ensures continuePositions == [] && breakPositions == old(breakPositions)
      ensures positionToContinue == old(positionToContinue) && feCounter == old(feCounter)
      ensures canSkipCopyToRegister == old(canSkipCopyToRegister)
      ensures cb.literalData == old(cb.literalData) && cb.requiredRegisterFileSize == old(cb.requiredRegisterFileSize)
    {
      cb.PatchJumps(continuePositions, target);
      continuePositions := [];
    }

    /** propagateInformationTo, for the state this model keeps: the function-expression counter. */
    method PropagateInformationTo(other: GenerateContext)
      requires other != this
      modifies other
      ensures other.feCounter == feCounter
      ensures other.canSkipCopyToRegister == old(other.canSkipCopyToRegister)
      ensures other.inCallingExpressionScope == old(other.inCallingExpressionScope)
      ensures other.isHeadOfMemberExpression == old(other.isHeadOfMemberExpression)
      ensures other.breakPositions == old(other.breakPositions) && other.continuePositions == old(other.continuePositions)
      ensures other.positionToContinue == old(other.positionToContinue)
    {
      other.feCounter := feCounter;
    }
  }

  // -----------------------------------------------------------------------
  // Abstract sub-expressions and statements
  // -----------------------------------------------------------------------

  datatype ExprKind =
    | Identifier(name: string)
    | MemberExpression
    | Super(isCall: bool)
    | SpreadElement
    | NullLiteral
    | SequenceExpression(expressions: seq<Expr>)
    | OtherExpression

  /**
   * An expression node.  `slot` is the variable slot an identifier lives
   * in when it can be used directly; `identifiers` are the (name,
   * isAssignment) pairs iterateChildrenIdentifier reports, in order.
   */
  datatype Expr = Expr(id: NodeId, kind: ExprKind, slot: Option<Register>, identifiers: seq<(string, bool)>)

  /**
   * The register an expression's getRegister yields: an identifier's own
   * slot when copying may be skipped, else a fresh one.
   */
  function ExprRegister(e: Expr, canSkipCopyToRegister: bool, nextFree: Register): (r: Register)
    ensures r == nextFree || (e.kind.Identifier? && e.slot.Some? && r == e.slot.value)
    ensures !canSkipCopyToRegister ==> r == nextFree
  {
    if canSkipCopyToRegister && e.kind.Identifier? && e.slot.Some? then e.slot.value else nextFree
  }

  /** Node::getRegister for an abstract expression. */
  method GetExprRegister(ctx: GenerateContext, e: Expr) returns (r: Register)
    modifies ctx.registers
    ensures r == ExprRegister(e, ctx.canSkipCopyToRegister, old(ctx.registers.NextFree()))
    ensures ctx.registers.stack == old(ctx.registers.stack) + [r]
  {
    if ctx.canSkipCopyToRegister && e.kind.Identifier? && e.slot.Some? {
      ctx.PushRegister(e.slot.value);
      r := e.slot.value;
    } else {
      r := ctx.GetRegister();
    }
  }

  /** Registers `from`, `from + 1`, ... */
  function Consecutive(from: Register, n: nat): (r: seq<Register>)
    ensures |r| == n
  {
    seq(n, i => from + i)
  }

  lemma {:induction false} AppendAssociative<T>(a: seq<T>, b: seq<T>, c: seq<T>)
    ensures a + b + c == a + (b + c)
  {}

  /** Appending the next element of `s` to a prefix of it extends the prefix. */
  lemma {:induction false} AppendNext<T>(a: seq<T>, s: seq<T>, j: nat)
    requires j < |s|
    ensures a + s[..j] + [s[j]] == a + s[..j + 1]
  {
    assert s[..j + 1] == s[..j] + [s[j]];
  }

  /** One more register at the top of a consecutive run above `below`. */
  lemma {:induction false} ConsecutiveSnoc(below: seq<Register>, from: Register, n: nat)
    ensures below + Consecutive(from, n) + [from + n] == below + Consecutive(from, n + 1)
  {
    var s := below + Consecutive(from, n) + [from + n];
    var t := below + Consecutive(from, n + 1);
    forall i | 0 <= i < |s|
      ensures s[i] == t[i]
    {
      if i < |below| {
      } else if i < |below| + n {
        assert s[i] == Consecutive(from, n)[i - |below|];
      }
    }
  }

  /** Gives up the top `n` registers. */
  method GiveUpRegisters(ctx: GenerateContext, n: nat)
    requires n <= |ctx.registers.stack|
    modifies ctx.registers
    ensures ctx.registers.stack == old(ctx.registers.stack)[..|old(ctx.registers.stack)| - n]
  {
    var i := 0;
    while i < n
      invariant 0 <= i <= n
      invariant ctx.registers.stack == old(ctx.registers.stack)[..|old(ctx.registers.stack)| - i]
    {
      ctx.GiveUpRegister();
      i := i + 1;
    }
  }

  /** generateExpressionByteCode of an abstract expression into `dst`. */
  method GenerateExpression(cb: ByteCodeBlock, e: Expr, dst: Register)
    modifies cb
    ensures cb.code == old(cb.code) + [Evaluate(e.id, dst)]
    ensures cb.literalData == old(cb.literalData) && cb.requiredRegisterFileSize == old(cb.requiredRegisterFileSize)
  {
    cb.PushCode(Evaluate(e.id, dst));
  }

  datatype Exit = Break | Continue

  /** A statement node; `exits` are the unlabelled break and continue jumps its code ends in, in order. */
  datatype Stmt = Stmt(id: NodeId, exits: seq<Exit>)

  /** The positions of the jumps for `exits` of kind `kind` when the first is written at `at`. */
  function ExitPositions(exits: seq<Exit>, kind: Exit, at: nat): (r: seq<nat>)
    ensures forall k :: 0 <= k < |r| ==> at <= r[k] < at + |exits|
    ensures forall k :: 0 <= k < |r| ==> exits[r[k] - at] == kind
    decreases |exits|
  {
    if exits == [] then []
    else
      var rest := ExitPositions(exits[1..], kind, at + 1);
      if exits[0] == kind then [at] + rest else rest
  }

  /** Every exit of kind `kind` is listed: a position is in ExitPositions exactly when its exit has that kind. */
  lemma {:induction false} ExitPositionsExact(exits: seq<Exit>, kind: Exit, at: nat, x: nat)
    ensures x in ExitPositions(exits, kind, at) <==> at <= x < at + |exits| && exits[x - at] == kind
    decreases |exits|
  {
    if exits != [] && at <= x < at + |exits| && exits[x - at] == kind && x != at {
      ExitPositionsExact(exits[1..], kind, at + 1, x);
    }
  }

  /** The code for `exits`: each an unpatched jump. */
  function ExitJumps(n: nat): (r: seq<Instr>)
    ensures |r| == n && forall k :: 0 <= k < n ==> r[k] == Jump(Unpatched)
  {
    seq(n, _ => Jump(Unpatched))
  }

  /** generateStatementByteCode of an abstract statement: its code, then one unpatched jump per exit, recorded in the context. */
  method GenerateStatement(cb: ByteCodeBlock, ctx: GenerateContext, s: Stmt)
    modifies cb, ctx
    ensures cb.code == old(cb.code) + [Execute(s.id)] + ExitJumps(|s.exits|)
    ensures ctx.breakPositions == old(ctx.breakPositions) + ExitPositions(s.exits, Break, |old(cb.code)| + 1)
    ensures ctx.continuePositions == old(ctx.continuePositions) + ExitPositions(s.exits, Continue, |old(cb.code)| + 1)
    ensures cb.literalData == old(cb.literalData) && cb.requiredRegisterFileSize == old(cb.requiredRegisterFileSize)
    ensures ctx.canSkipCopyToRegister == old(ctx.canSkipCopyToRegister) && ctx.feCounter == old(ctx.feCounter)
    ensures ctx.inCallingExpressionScope == old(ctx.inCallingExpressionScope)
    ensures ctx.isHeadOfMemberExpression == old(ctx.isHeadOfMemberExpression)
    ensures ctx.positionToContinue == old(ctx.positionToContinue)
  {
    var at := |cb.code| + 1;
    cb.PushCodes([Execute(s.id)] + ExitJumps(|s.exits|));
    ctx.breakPositions := ctx.breakPositions + ExitPositions(s.exits, Break, at);
    ctx.continuePositions := ctx.continuePositions + ExitPositions(s.exits, Continue, at);
  }
}
