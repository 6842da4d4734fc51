// ClassExpressionNode's code generation: the heritage expression, one
// function per member, the prototype link to the superclass, and one
// property definition per member on the class or on its prototype.

module ClassExpressions {
  import opened ByteCode
  import opened MethodDefinitions

  /**
   * A class expression: its own name, the name of the binding it
   * initialises (used when it has none), its heritage and its members in
   * order.
   */
  datatype ClassExpression = ClassExpression(
    name: Option<string>, targetId: Option<string>, superClass: Option<Expr>, body: seq<MethodDefinition>)

  // -----------------------------------------------------------------------
  // Property keys
  // -----------------------------------------------------------------------

  /**
   * The key string of a member: an identifier's name, a string literal,
   * or the number-to-string conversion of an int32 literal.  Any other key
   * is one the generator aborts on.
   */
  function KeyStringOf(key: PropertyKey): (r: Option<KeyText>)
    ensures r.Some? <==> key.IdentifierKey? || (key.LiteralKey? && !key.literal.OtherLiteral?)
    ensures r.Some? && key.IdentifierKey? ==> r.value == Text(key.name)
    ensures r.Some? && key.LiteralKey? && key.literal.StringLiteral? ==> r.value == Text(key.literal.s)
    ensures r.Some? && key.LiteralKey? && key.literal.Int32Literal? ==> r.value == NumberText(key.literal.n)
  {
    match key
    case IdentifierKey(name) => Some(Text(name))
    case LiteralKey(Int32Literal(n)) => Some(NumberText(n))
    case LiteralKey(StringLiteral(s)) => Some(Text(s))
    case _ => None
  }

  // -----------------------------------------------------------------------
  // definePropertyMethod
  // -----------------------------------------------------------------------

  /** The registers definePropertyMethod takes above the current top. */
  function TemporaryCount(kind: MethodKind): (r: nat)
    ensures r == 1 || r == 6
  {
    if kind == Get || kind == Set then 1 else 6
  }

  /**
   * `Object.defineProperty(target, key, {key, value, enumerable: false,
   * writable: true, configurable: true})`, built in the six registers from
   * `next`: arguments in next .. next + 2, the function in next + 3,
   * `Object` in next + 4 and the boolean in next + 5.
   */
  function DataPropertyCode(key: KeyText, target: Register, value: Register, next: Register): (r: seq<Instr>)
    ensures |r| == 13
  {
    var define := next;
    var keyRegister := next + 1;
    var descriptor := next + 2;
    var func := next + 3;
    var objectRegister := next + 4;
    var boolRegister := next + 5;
    [Move(target, define),
     GetGlobalObject(objectRegister, "Object"),
     GetObjectPreComputedCase(objectRegister, func, "defineProperty"),
     LoadLiteral(keyRegister, KeyLiteral(key)),
     CreateObject(descriptor),
     ObjectDefineOwnPropertyWithNameOperation(descriptor, "key", keyRegister),
     ObjectDefineOwnPropertyWithNameOperation(descriptor, "value", value),
     LoadLiteral(boolRegister, BooleanLiteral(false)),
     ObjectDefineOwnPropertyWithNameOperation(descriptor, "enumerable", boolRegister),
     LoadLiteral(boolRegister, BooleanLiteral(true)),
     ObjectDefineOwnPropertyWithNameOperation(descriptor, "writable", boolRegister),
     ObjectDefineOwnPropertyWithNameOperation(descriptor, "configurable", boolRegister),
     CallFunctionWithReceiver(objectRegister, func, define, 3, descriptor, false, false, None)]
  }

  /** The code definePropertyMethod writes to define `key` on `target` from `value`, a member of `kind`. */
  function DefinePropertyCode(kind: MethodKind, key: KeyText, target: Register, value: Register, next: Register): (r: seq<Instr>)
    ensures |r| == (if kind == Get || kind == Set then 2 else 13)
  {
    if kind == Get then [LoadLiteral(next, KeyLiteral(key)), ObjectDefineGetter(target, next, value)]
    else if kind == Set then [LoadLiteral(next, KeyLiteral(key)), ObjectDefineSetter(target, next, value)]
    else DataPropertyCode(key, target, value, next)
  }

  /** definePropertyMethod: the key string goes to the literal pool and every temporary is given back. */
  method DefinePropertyMethod(cb: ByteCodeBlock, ctx: GenerateContext, kind: MethodKind, key: KeyText,
                              target: Register, value: Register)
    modifies cb, ctx.registers
    ensures cb.code == old(cb.code) + DefinePropertyCode(kind, key, target, value, old(ctx.registers.NextFree()))
    ensures cb.literalData == old(cb.literalData) + [KeyString(key)]
    ensures cb.requiredRegisterFileSize == old(cb.requiredRegisterFileSize)
    ensures ctx.registers.stack == old(ctx.registers.stack)
  {
    cb.PushLiteral(KeyString(key));
    if kind == Get {
      var propertyRegister := ctx.GetRegister();
      cb.PushCode(LoadLiteral(propertyRegister, KeyLiteral(key)));
      cb.PushCode(ObjectDefineGetter(target, propertyRegister, value));
      ctx.GiveUpRegister();
    } else if kind == Set {
      var propertyRegister := ctx.GetRegister();
      cb.PushCode(LoadLiteral(propertyRegister, KeyLiteral(key)));
      cb.PushCode(ObjectDefineSetter(target, propertyRegister, value));
      ctx.GiveUpRegister();
    } else {
      DefineDataProperty(cb, ctx, key, target, value);
    }
  }

  /** The data-property branch of definePropertyMethod: six temporaries, taken and given back. */
  method DefineDataProperty(cb: ByteCodeBlock, ctx: GenerateContext, key: KeyText, target: Register, value: Register)
    modifies cb, ctx.registers
    ensures cb.code == old(cb.code) + DataPropertyCode(key, target, value, old(ctx.registers.NextFree()))
    ensures cb.literalData == old(cb.literalData) && cb.requiredRegisterFileSize == old(cb.requiredRegisterFileSize)
    ensures ctx.registers.stack == old(ctx.registers.stack)
  {
    var define := ctx.GetRegister();
    var keyRegister := ctx.GetRegister();
    var descriptor := ctx.GetRegister();
    var func := ctx.GetRegister();
    var objectRegister := ctx.GetRegister();
    var boolRegister := ctx.GetRegister();
    cb.PushCodes(DataPropertyCode(key, target, value, define));
    GiveUpRegisters(ctx, 6);
    assert ctx.registers.stack == old(ctx.registers.stack);
  }

  /** A property definition writes only its own temporaries: the registers below `next` keep their values. */
  lemma {:induction false} DefinitionWritesOnlyTemporaries(kind: MethodKind, key: KeyText, target: Register, value: Register, next: Register)
    ensures var code := DefinePropertyCode(kind, key, target, value, next);
      forall k, r: Register :: 0 <= k < |code| && Writes(code[k], r) ==> next <= r < next + TemporaryCount(kind)
  {}

  /** Where a descriptor field's value comes from. */
  datatype FieldValue = Incoming(register: Register) | Loaded(literal: Literal) | Computed

  /** The value the `k`-th instruction (a descriptor field definition) stores, by the last write to its source register. */
  function FieldSource(code: seq<Instr>, k: nat): (f: FieldValue)
    requires k < |code| && code[k].ObjectDefineOwnPropertyWithNameOperation?
  {
    match WriterAt(code, k, code[k].src)
    case None => Incoming(code[k].src)
    case Some(w) => if w.LoadLiteral? then Loaded(w.literal) else Computed
  }

  /** The descriptor a class member's data property is defined with. */
  function DescriptorField(name: string, key: KeyText, value: Register): (f: FieldValue)
  {
    if name == "key" then Loaded(KeyLiteral(key))
    else if name == "value" then Incoming(value)
    else if name == "enumerable" then Loaded(BooleanLiteral(false))
    else Loaded(BooleanLiteral(true))
  }

  /**
   * A data property is defined by calling `Object.defineProperty` with
   * receiver `Object` on (the target, the key, a fresh descriptor object).
   */
  lemma {:induction false} DataPropertyCall(key: KeyText, target: Register, value: Register, next: Register)
    ensures var code := DataPropertyCode(key, target, value, next);
      var call := code[12];
      call.CallFunctionWithReceiver? && call.argc == 3 && call.dst == call.argumentsStart + 2 &&
      WriterAt(code, 12, call.receiver) == Some(GetGlobalObject(call.receiver, "Object")) &&
      WriterAt(code, 12, call.callee) == Some(GetObjectPreComputedCase(call.receiver, call.callee, "defineProperty")) &&
      WriterAt(code, 12, call.argumentsStart) == Some(Move(target, call.argumentsStart)) &&
      WriterAt(code, 12, call.argumentsStart + 1) == Some(LoadLiteral(call.argumentsStart + 1, KeyLiteral(key))) &&
      WriterAt(code, 12, call.argumentsStart + 2) == Some(CreateObject(call.argumentsStart + 2))
  {
    var code := DataPropertyCode(key, target, value, next);
    WriterAtSkip(code, 2, 12, next + 4);
    WriterAtSkip(code, 3, 12, next + 3);
    WriterAtSkip(code, 1, 12, next);
    WriterAtSkip(code, 4, 12, next + 1);
    WriterAtSkip(code, 5, 12, next + 2);
  }

  /**
   * The descriptor of a data property holds the key, the incoming value,
   * `enumerable: false` and `writable`, `configurable: true`.
   */
  lemma {:induction false} DataPropertyFields(key: KeyText, target: Register, value: Register, next: Register)
    requires value < next
    ensures var code := DataPropertyCode(key, target, value, next);
      forall k :: 0 <= k < |code| && code[k].ObjectDefineOwnPropertyWithNameOperation? ==>
        code[k].obj == next + 2 && FieldSource(code, k) == DescriptorField(code[k].name, key, value)
  {
    var code := DataPropertyCode(key, target, value, next);
    WriterAtSkip(code, 4, 5, next + 1);
    WriterAtSkip(code, 0, 6, value);
    WriterAtSkip(code, 10, 11, next + 5);
  }

  /** The descriptor defines exactly the five fields. */
  lemma {:induction false} DataPropertyFieldNames(key: KeyText, target: Register, value: Register, next: Register)
    ensures var code := DataPropertyCode(key, target, value, next);
      (set k | 0 <= k < |code| && code[k].ObjectDefineOwnPropertyWithNameOperation? :: code[k].name) ==
        {"key", "value", "enumerable", "writable", "configurable"}
  {
    var code := DataPropertyCode(key, target, value, next);
    var names := set k | 0 <= k < |code| && code[k].ObjectDefineOwnPropertyWithNameOperation? :: code[k].name;
    assert code[5].name in names && code[6].name in names && code[8].name in names;
    assert code[10].name in names && code[11].name in names;
  }

  // -----------------------------------------------------------------------
  // The heritage
  // -----------------------------------------------------------------------

  /** A heritage the generator accepts: a comma expression has at least one operand. */
  predicate ValidHeritage(superClass: Option<Expr>)
  {
    superClass.Some? && superClass.value.kind.SequenceExpression? ==> |superClass.value.kind.expressions| > 0
  }

  /** The expression whose value is the superclass: the last operand of a comma expression. */
  function EffectiveHeritage(e: Expr): (r: Expr)
    requires e.kind.SequenceExpression? ==> |e.kind.expressions| > 0
    ensures !e.kind.SequenceExpression? ==> r == e
    ensures e.kind.SequenceExpression? ==> r == e.kind.expressions[|e.kind.expressions| - 1]
  {
    if e.kind.SequenceExpression? then e.kind.expressions[|e.kind.expressions| - 1] else e
  }

  /** Each leading operand evaluated, for effect, into the register `tmp`. */
  function OperandsCode(operands: seq<Expr>, tmp: Register): (r: seq<Instr>)
    ensures |r| == |operands|
  {
    seq(|operands|, i requires 0 <= i < |operands| => Evaluate(operands[i].id, tmp))
  }

  /** The heritage code: the leading operands of a comma expression, then the superclass into `first`. */
  function HeritageCode(superClass: Option<Expr>, first: Register): (r: seq<Instr>)
    requires ValidHeritage(superClass)
    ensures superClass.None? ==> r == []
    ensures superClass.Some? ==> |r| > 0 && r[|r| - 1] == Evaluate(EffectiveHeritage(superClass.value).id, first)
    ensures forall k, x: Register :: 0 <= k < |r| && Writes(r[k], x) ==> x == first
  {
    match superClass
    case None => []
    case Some(e) =>
      var leading := if e.kind.SequenceExpression? then e.kind.expressions[..|e.kind.expressions| - 1] else [];
      OperandsCode(leading, first) + [Evaluate(EffectiveHeritage(e).id, first)]
  }

  /** The superclass, evaluated into the register it keeps until the end. */
  method GenerateHeritage(cb: ByteCodeBlock, ctx: GenerateContext, superClass: Option<Expr>)
    returns (superRegister: Register)
    requires ValidHeritage(superClass)
    modifies cb, ctx.registers
    ensures superRegister == if superClass.Some? then old(ctx.registers.NextFree()) else 0
    ensures var first := old(ctx.registers.NextFree());
      cb.code == old(cb.code) + HeritageCode(superClass, first) &&
      ctx.registers.stack == old(ctx.registers.stack) + (if superClass.Some? then [first] else [])
    ensures cb.literalData == old(cb.literalData) && cb.requiredRegisterFileSize == old(cb.requiredRegisterFileSize)
  {
    superRegister := 0;
    if superClass.None? {
      return;
    }
    var e := superClass.value;
    var leading: seq<Expr> := [];
    if e.kind.SequenceExpression? {
      leading := e.kind.expressions[..|e.kind.expressions| - 1];
    }
    var i := 0;
    while i < |leading|
      invariant 0 <= i <= |leading|
      invariant cb.code == old(cb.code) + OperandsCode(leading, old(ctx.registers.NextFree()))[..i]
      invariant ctx.registers.stack == old(ctx.registers.stack)
      invariant cb.literalData == old(cb.literalData) && cb.requiredRegisterFileSize == old(cb.requiredRegisterFileSize)
    {
      var tmp := ctx.GetRegister();
      GenerateExpression(cb, leading[i], tmp);
      ctx.GiveUpRegister();
      assert OperandsCode(leading, old(ctx.registers.NextFree()))[..i + 1] ==
        OperandsCode(leading, old(ctx.registers.NextFree()))[..i] + [Evaluate(leading[i].id, tmp)];
      i := i + 1;
    }
    assert OperandsCode(leading, old(ctx.registers.NextFree()))[..i] == OperandsCode(leading, old(ctx.registers.NextFree()));
    superRegister := ctx.GetRegister();
    GenerateExpression(cb, EffectiveHeritage(e), superRegister);
  }

  // -----------------------------------------------------------------------
  // The members' functions
  // -----------------------------------------------------------------------

  /** How many of the first `j` members are not the constructor. */
  function NonConstructorsBefore(body: seq<MethodDefinition>, j: nat): (r: nat)
    requires j <= |body|
    ensures r <= j
  {
    if j == 0 then 0 else NonConstructorsBefore(body, j - 1) + (if body[j - 1].kind == Constructor then 0 else 1)
  }

  /** Later members are preceded by at least as many non-constructors, and by more when a non-constructor lies between. */
  lemma {:induction false} NonConstructorsMonotone(body: seq<MethodDefinition>, i: nat, j: nat)
    requires i <= j <= |body|
    ensures NonConstructorsBefore(body, i) <= NonConstructorsBefore(body, j)
    ensures i < j && body[i].kind != Constructor ==> NonConstructorsBefore(body, i) < NonConstructorsBefore(body, j)
    decreases j - i
  {
    if i < j {
      NonConstructorsMonotone(body, i, j - 1);
    }
  }

  /** The number of registers held for the members' functions. */
  function MemberRegisterCount(body: seq<MethodDefinition>): (r: nat)
    ensures r <= |body|
  {
    NonConstructorsBefore(body, |body|)
  }

  /** The register member `j`'s function is created in: the class register for the constructor, else the next of those held from `base`. */
  function FunctionRegister(body: seq<MethodDefinition>, j: nat, dst: Register, base: Register): (r: Register)
    requires j < |body|
    ensures body[j].kind == Constructor ==> r == dst
    ensures body[j].kind != Constructor ==> base <= r < base + MemberRegisterCount(body)
  {
    NonConstructorsMonotone(body, j, |body|);
    if body[j].kind == Constructor then dst else base + NonConstructorsBefore(body, j)
  }

  /** Each member's function created, in order, from the function-expression children `fe0`, `fe0 + 1`, ... */
  function MembersCode(body: seq<MethodDefinition>, blocks: seq<ChildBlock>, fe0: nat, dst: Register, base: Register): (r: seq<Instr>)
    requires fe0 + |body| <= CountFunctionExpressions(blocks)
    ensures |r| == |body|
  {
    seq(|body|, j requires 0 <= j < |body| =>
      CreateFunction(FunctionRegister(body, j, dst, base), NthFunctionExpression(blocks, fe0 + j)))
  }

  /** The name the constructor's function is given: the class's own, else the binding's. */
  function ClassName(c: ClassExpression): (r: Option<string>)
    ensures c.name.Some? ==> r == c.name
    ensures c.name.None? ==> r == c.targetId
  {
    if c.name.Some? then c.name else c.targetId
  }

  /** The flags and pending jumps of a context, which class generation leaves as they are. */
  datatype ContextFlags = ContextFlags(
    canSkipCopyToRegister: bool, inCallingExpressionScope: bool, isHeadOfMemberExpression: bool,
    breakPositions: seq<nat>, continuePositions: seq<nat>, positionToContinue: nat)

  function FlagsOf(ctx: GenerateContext): (r: ContextFlags)
    reads ctx
    ensures r.canSkipCopyToRegister == ctx.canSkipCopyToRegister && r.inCallingExpressionScope == ctx.inCallingExpressionScope
    ensures r.isHeadOfMemberExpression == ctx.isHeadOfMemberExpression && r.positionToContinue == ctx.positionToContinue
    ensures r.breakPositions == ctx.breakPositions && r.continuePositions == ctx.continuePositions
  {
    ContextFlags(ctx.canSkipCopyToRegister, ctx.inCallingExpressionScope, ctx.isHeadOfMemberExpression,
                 ctx.breakPositions, ctx.continuePositions, ctx.positionToContinue)
  }

  /** The names of the members, in order. */
  function Names(body: seq<MethodDefinition>): (r: seq<Option<string>>)
    reads body
    ensures |r| == |body| && forall i :: 0 <= i < |body| ==> r[i] == body[i].name
  {
    seq(|body|, i reads body requires 0 <= i < |body| => body[i].name)
  }

  /** The position among `blocks` of member `j`'s function, the members' functions being numbered from `fe0`. */
  function MemberBlock(blocks: seq<ChildBlock>, fe0: nat, j: nat): (r: nat)
    requires fe0 + j < CountFunctionExpressions(blocks)
    ensures IsNthFunctionExpression(blocks, fe0 + j, r)
  {
    NthFunctionExpression(blocks, fe0 + j)
  }

  /** Each child block's function name. */
  function FunctionNames(blocks: seq<ChildBlock>): (r: seq<Option<string>>)
    reads blocks
    ensures |r| == |blocks| && forall i :: 0 <= i < |blocks| ==> r[i] == blocks[i].functionName
  {
    seq(|blocks|, i reads blocks requires 0 <= i < |blocks| => blocks[i].functionName)
  }

  /** Each child block's with-scope flag. */
  function WithScopes(blocks: seq<ChildBlock>): (r: seq<bool>)
    reads blocks
    ensures |r| == |blocks| && forall i :: 0 <= i < |blocks| ==> r[i] == blocks[i].inWithScope
  {
    seq(|blocks|, i reads blocks requires 0 <= i < |blocks| => blocks[i].inWithScope)
  }

  /**
   * After `j` steps of the first loop, measured against the names and flags
   * the blocks had before it: the blocks of members `0` to `j - 1` carry their
   * member's name (the constructor the class's) when there is one and the
   * generation's with-scope flag; every other block is as it was.
   */
  predicate BlocksNamedUpTo(blocks: seq<ChildBlock>, fe0: nat, j: nat, body: seq<MethodDefinition>,
                            className: Option<string>, names0: seq<Option<string>>,
                            blockNames0: seq<Option<string>>, withScopes0: seq<bool>, withScope: bool)
    reads blocks
  {
    j <= |body| == |names0| && |blockNames0| == |withScopes0| == |blocks| && fe0 + j <= CountFunctionExpressions(blocks) &&
    (forall jj {:trigger MemberBlock(blocks, fe0, jj)} :: 0 <= jj < j ==>
      var k := MemberBlock(blocks, fe0, jj);
      var n := if body[jj].kind == Constructor then className else names0[jj];
      blocks[k].functionName == (if n.Some? then n else blockNames0[k]) &&
      blocks[k].inWithScope == (withScopes0[k] || withScope)) &&
    (forall i {:trigger blockNames0[i]} :: 0 <= i < |blocks| && !AmongFunctionExpressions(blocks, i, fe0, j) ==>
      blocks[i].functionName == blockNames0[i] && blocks[i].inWithScope == withScopes0[i])
  }

  /** After `j` steps of the first loop: the constructors so far are named, no other member is renamed. */
  predicate NamedUpTo(body: seq<MethodDefinition>, j: nat, className: Option<string>, names0: seq<Option<string>>)
    requires |names0| == |body|
    reads body
  {
    (forall i :: 0 <= i < j && i < |body| && body[i].kind == Constructor ==> body[i].name == className) &&
    (forall i :: 0 <= i < |body| && body[i].kind != Constructor ==> body[i].name == names0[i])
  }

  /**
   * The first loop over the body: the constructor, named after the class,
   * is created in the class register; every other member in a register of
   * its own, held until the end.
   */
  method GenerateMembers(cb: ByteCodeBlock, ctx: GenerateContext, c: ClassExpression, dst: Register)
    requires ctx.feCounter + |c.body| <= CountFunctionExpressions(ctx.childBlocks)
    requires DistinctBlocks(ctx.childBlocks)
    modifies cb, ctx, ctx.registers, ctx.childBlocks, c.body
    ensures var base := old(ctx.registers.NextFree());
      cb.code == old(cb.code) + MembersCode(c.body, ctx.childBlocks, old(ctx.feCounter), dst, base) &&
      ctx.registers.stack == old(ctx.registers.stack) + Consecutive(base, MemberRegisterCount(c.body))
    ensures ctx.feCounter == old(ctx.feCounter) + |c.body|
    ensures cb.literalData == old(cb.literalData) && cb.requiredRegisterFileSize == old(cb.requiredRegisterFileSize)
    ensures FlagsOf(ctx) == old(FlagsOf(ctx))
    ensures forall j :: 0 <= j < |c.body| ==>
      c.body[j].name == (if c.body[j].kind == Constructor then ClassName(c) else old(c.body[j].name))
    ensures BlocksNamedUpTo(ctx.childBlocks, old(ctx.feCounter), |c.body|, c.body, ClassName(c), old(Names(c.body)),
                            old(FunctionNames(ctx.childBlocks)), old(WithScopes(ctx.childBlocks)), ctx.isWithScope && !ctx.isEvalCode)
    ensures forall j {:trigger MemberBlock(ctx.childBlocks, old(ctx.feCounter), j)} :: 0 <= j < |c.body| ==>
      var blk := ctx.childBlocks[MemberBlock(ctx.childBlocks, old(ctx.feCounter), j)];
      var n := if c.body[j].kind == Constructor then ClassName(c) else old(c.body[j].name);
      blk.functionName == (if n.Some? then n else old(blk.functionName)) &&
      blk.inWithScope == (old(blk.inWithScope) || (ctx.isWithScope && !ctx.isEvalCode))
    ensures forall i {:trigger ctx.childBlocks[i].functionName} {:trigger ctx.childBlocks[i].inWithScope} ::
      0 <= i < |ctx.childBlocks| && !AmongFunctionExpressions(ctx.childBlocks, i, old(ctx.feCounter), |c.body|) ==>
      ctx.childBlocks[i].functionName == old(ctx.childBlocks[i].functionName) &&
      ctx.childBlocks[i].inWithScope == old(ctx.childBlocks[i].inWithScope)
  {
    var body := c.body;
    var blocks := ctx.childBlocks;
    ghost var fe0 := ctx.feCounter;
    ghost var base := ctx.registers.NextFree();
    ghost var names0 := Names(body);
    ghost var members := MembersCode(body, blocks, fe0, dst, base);
    ghost var blockNames0 := FunctionNames(blocks);
    ghost var withScopes0 := WithScopes(blocks);
    ghost var stack0 := ctx.registers.stack;
    var j := 0;
    while j < |body|
      invariant 0 <= j <= |body|
      invariant ctx.feCounter == fe0 + j
      invariant cb.code == old(cb.code) + members[..j]
      invariant ctx.registers.stack == stack0 + Consecutive(base, NonConstructorsBefore(body, j))
      invariant cb.literalData == old(cb.literalData) && cb.requiredRegisterFileSize == old(cb.requiredRegisterFileSize)
      invariant FlagsOf(ctx) == old(FlagsOf(ctx))
      invariant NamedUpTo(body, j, ClassName(c), names0)
      invariant BlocksNamedUpTo(blocks, fe0, j, body, ClassName(c), names0, blockNames0, withScopes0,
                                ctx.isWithScope && !ctx.isEvalCode)
    {
      GenerateMember(cb, ctx, body, j, dst, ClassName(c), names0, members, fe0, base, stack0,
                     blockNames0, withScopes0);
      AppendNext(old(cb.code), members, j);
      j := j + 1;
    }
    assert members[..j] == members;
    forall jj | 0 <= jj < |body|
      ensures var blk := blocks[MemberBlock(blocks, fe0, jj)];
        var n := if body[jj].kind == Constructor then ClassName(c) else old(body[jj].name);
        blk.functionName == (if n.Some? then n else old(blk.functionName)) &&
        blk.inWithScope == (old(blk.inWithScope) || (ctx.isWithScope && !ctx.isEvalCode))
    {
      var k := MemberBlock(blocks, fe0, jj);
      assert blockNames0[k] == old(blocks[k].functionName) && withScopes0[k] == old(blocks[k].inWithScope);
    }
    forall i | 0 <= i < |blocks| && !AmongFunctionExpressions(blocks, i, fe0, |body|)
      ensures blocks[i].functionName == old(blocks[i].functionName) && blocks[i].inWithScope == old(blocks[i].inWithScope)
    {
      assert blockNames0[i] == old(blocks[i].functionName) && withScopes0[i] == old(blocks[i].inWithScope);
    }
  }

  /**
   * One step of the first loop: the constructor is named and created in
   * `dst`, any other member in the next register, which stays held.
   */
  method GenerateMember(cb: ByteCodeBlock, ctx: GenerateContext, body: seq<MethodDefinition>, j: nat, dst: Register,
                        className: Option<string>, ghost names0: seq<Option<string>>, ghost members: seq<Instr>,
                        ghost fe0: nat, ghost base: Register, ghost stack0: seq<Register>,
                        ghost blockNames0: seq<Option<string>>, ghost withScopes0: seq<bool>)
    requires j < |body| == |names0| && NamedUpTo(body, j, className, names0)
    requires ctx.feCounter == fe0 + j && fe0 + |body| <= CountFunctionExpressions(ctx.childBlocks)
    requires DistinctBlocks(ctx.childBlocks)
    requires BlocksNamedUpTo(ctx.childBlocks, fe0, j, body, className, names0, blockNames0, withScopes0,
                             ctx.isWithScope && !ctx.isEvalCode)
    requires members == MembersCode(body, ctx.childBlocks, fe0, dst, base)
    requires ctx.registers.stack == stack0 + Consecutive(base, NonConstructorsBefore(body, j))
    requires ctx.registers.NextFree() == base + NonConstructorsBefore(body, j)
    modifies cb, ctx, ctx.registers, ctx.childBlocks[NthFunctionExpression(ctx.childBlocks, ctx.feCounter)], body[j]
    ensures BlocksNamedUpTo(ctx.childBlocks, fe0, j + 1, body, className, names0, blockNames0, withScopes0,
                            ctx.isWithScope && !ctx.isEvalCode)
    ensures cb.code == old(cb.code) + [members[j]]
    ensures ctx.registers.stack == stack0 + Consecutive(base, NonConstructorsBefore(body, j + 1))
    ensures ctx.feCounter == old(ctx.feCounter) + 1
    ensures cb.literalData == old(cb.literalData) && cb.requiredRegisterFileSize == old(cb.requiredRegisterFileSize)
    ensures FlagsOf(ctx) == old(FlagsOf(ctx))
    ensures NamedUpTo(body, j + 1, className, names0)
  {
    var m := body[j];
    NameMember(body, j, className, names0);
    var reg := MemberRegister(ctx, body, j, dst, base, stack0);
    assert members[j] == CreateFunction(reg, NthFunctionExpression(ctx.childBlocks, fe0 + j));
    CreateMemberFunction(cb, ctx, m, reg, body, j, className, names0, fe0, blockNames0, withScopes0);
  }

  /**
   * Member `j`'s function created in `reg`, already named: only its own
   * block changes, which takes the first loop's block invariant from `j`
   * members to `j + 1`.
   */
  method CreateMemberFunction(cb: ByteCodeBlock, ctx: GenerateContext, m: MethodDefinition, reg: Register,
                              ghost body: seq<MethodDefinition>, ghost j: nat, ghost className: Option<string>,
                              ghost names0: seq<Option<string>>, ghost fe0: nat,
                              ghost blockNames0: seq<Option<string>>, ghost withScopes0: seq<bool>)
    requires j < |body| == |names0| && m == body[j] && m.name == (if m.kind == Constructor then className else names0[j])
    requires ctx.feCounter == fe0 + j && fe0 + j < CountFunctionExpressions(ctx.childBlocks)
    requires DistinctBlocks(ctx.childBlocks)
    requires BlocksNamedUpTo(ctx.childBlocks, fe0, j, body, className, names0, blockNames0, withScopes0,
                             ctx.isWithScope && !ctx.isEvalCode)
    modifies cb, ctx, ctx.childBlocks[NthFunctionExpression(ctx.childBlocks, ctx.feCounter)]
    ensures BlocksNamedUpTo(ctx.childBlocks, fe0, j + 1, body, className, names0, blockNames0, withScopes0,
                            ctx.isWithScope && !ctx.isEvalCode)
    ensures cb.code == old(cb.code) + [CreateFunction(reg, NthFunctionExpression(ctx.childBlocks, old(ctx.feCounter)))]
    ensures ctx.feCounter == old(ctx.feCounter) + 1
    ensures cb.literalData == old(cb.literalData) && cb.requiredRegisterFileSize == old(cb.requiredRegisterFileSize)
    ensures FlagsOf(ctx) == old(FlagsOf(ctx))
  {
    ghost var blocks := ctx.childBlocks;
    ghost var withScope := ctx.isWithScope && !ctx.isEvalCode;
    ghost var cur := NthFunctionExpression(blocks, fe0 + j);
    assert !AmongFunctionExpressions(blocks, cur, fe0, j);
    assert blocks[cur].functionName == blockNames0[cur] && blocks[cur].inWithScope == withScopes0[cur];
    GenerateMethodDefinition(cb, ctx, m, reg);
    forall jj | 0 <= jj < j + 1
      ensures var k := MemberBlock(blocks, fe0, jj);
        var n := if body[jj].kind == Constructor then className else names0[jj];
        blocks[k].functionName == (if n.Some? then n else blockNames0[k]) &&
        blocks[k].inWithScope == (withScopes0[k] || withScope)
    {
      var k := MemberBlock(blocks, fe0, jj);
      if jj < j {
        NthBlocksDiffer(blocks, fe0 + jj, fe0 + j);
        assert blocks[k].functionName == old(blocks[k].functionName) && blocks[k].inWithScope == old(blocks[k].inWithScope);
      } else {
        assert k == cur;
      }
    }
    forall i | 0 <= i < |blocks| && !AmongFunctionExpressions(blocks, i, fe0, j + 1)
      ensures blocks[i].functionName == blockNames0[i] && blocks[i].inWithScope == withScopes0[i]
    {
      OutsideBlockDiffers(blocks, i, fe0, j);
      assert blocks[i].functionName == old(blocks[i].functionName) && blocks[i].inWithScope == old(blocks[i].inWithScope);
    }
  }

  /** The constructor is given the class's name; other members keep theirs. */
  method NameMember(body: seq<MethodDefinition>, j: nat, className: Option<string>, ghost names0: seq<Option<string>>)
    requires j < |body| == |names0| && NamedUpTo(body, j, className, names0)
    modifies body[j]
    ensures NamedUpTo(body, j + 1, className, names0)
  {
    if body[j].kind == Constructor {
      body[j].SetName(className);
    }
  }

  /** The register member `j` is created in: `dst` for the constructor, else a fresh one that stays held. */
  method MemberRegister(ctx: GenerateContext, body: seq<MethodDefinition>, j: nat, dst: Register,
                        ghost base: Register, ghost stack0: seq<Register>)
    returns (reg: Register)
    requires j < |body|
    requires ctx.registers.stack == stack0 + Consecutive(base, NonConstructorsBefore(body, j))
    requires ctx.registers.NextFree() == base + NonConstructorsBefore(body, j)
    modifies ctx.registers
    ensures reg == FunctionRegister(body, j, dst, base)
    ensures ctx.registers.stack == stack0 + Consecutive(base, NonConstructorsBefore(body, j + 1))
  {
    reg := dst;
    if body[j].kind != Constructor {
      reg := ctx.GetRegister();
      ConsecutiveSnoc(stack0, base, NonConstructorsBefore(body, j));
    }
  }

  // -----------------------------------------------------------------------
  // The prototype link
  // -----------------------------------------------------------------------

  /**
   * `Class.prototype = Object.create(heritage.prototype)` and, unless the
   * heritage is the literal null, `Class.__proto__ = heritage`, in the
   * four temporaries from `next`: the superclass prototype, `Object`,
   * `Object.create` and the result.  For a null heritage `Object.create`
   * gets the heritage value itself.
   */
  function LinkCode(heritage: Expr, superRegister: Register, dst: Register, next: Register, cache: nat): (r: seq<Instr>)
    ensures |r| == if heritage.kind.NullLiteral? then 4 else 6
  {
    var objectRegister := next + 1;
    var func := next + 2;
    var result := next + 3;
    var isNull := heritage.kind.NullLiteral?;
    var superProto := if isNull then superRegister else next;
    [GetGlobalObject(objectRegister, "Object"), GetObjectPreComputedCase(objectRegister, func, "create")] +
    (if isNull then [] else [GetObjectPreComputedCase(superRegister, next, "prototype")]) +
    [CallFunctionWithReceiver(objectRegister, func, superProto, 1, result, false, false, None),
     SetObjectPreComputedCase(dst, "prototype", result, cache)] +
    (if isNull then [] else [SetObjectPreComputedCase(dst, "__proto__", superRegister, cache + 1)])
  }

  /** The inline caches the link's property stores are given. */
  function LinkLiterals(heritage: Expr): (r: seq<LiteralEntry>)
    ensures forall i :: 0 <= i < |r| ==> r[i] == InlineCache
    ensures |r| == if heritage.kind.NullLiteral? then 1 else 2
  {
    if heritage.kind.NullLiteral? then [InlineCache] else [InlineCache, InlineCache]
  }

  /** Stores the heritage in the class's `__proto__`. */
  predicate IsProtoLink(i: Instr, dst: Register, superRegister: Register)
  {
    i.SetObjectPreComputedCase? && i.obj == dst && i.name == "__proto__" && i.src == superRegister
  }

  /** The position of the store of the class's `prototype` in the link code. */
  function PrototypeStoreAt(heritage: Expr): (r: nat)
  {
    if heritage.kind.NullLiteral? then 3 else 4
  }

  /**
   * The link stores in the class's `prototype` the result of calling
   * `Object.create` on `Object` with the superclass's `prototype` (or the
   * null heritage itself), and sets the class's `__proto__` to the
   * heritage exactly when the heritage is not the null literal.
   */
  lemma {:induction false} LinkSetsPrototype(heritage: Expr, superRegister: Register, dst: Register, next: Register, cache: nat)
    requires superRegister < next
    ensures var code := LinkCode(heritage, superRegister, dst, next, cache);
      var s := PrototypeStoreAt(heritage);
      var store := code[s];
      store.SetObjectPreComputedCase? && store.obj == dst && store.name == "prototype" && store.cache == cache &&
      var w := WriterAt(code, s, store.src);
      w.Some? && w.value.CallFunctionWithReceiver? && w.value.argc == 1 &&
      WriterAt(code, s, w.value.receiver) == Some(GetGlobalObject(w.value.receiver, "Object")) &&
      WriterAt(code, s, w.value.callee) == Some(GetObjectPreComputedCase(w.value.receiver, w.value.callee, "create")) &&
      (if heritage.kind.NullLiteral?
       then w.value.argumentsStart == superRegister && WriterAt(code, s, superRegister) == None
       else WriterAt(code, s, w.value.argumentsStart) ==
              Some(GetObjectPreComputedCase(superRegister, w.value.argumentsStart, "prototype")))
    ensures var code := LinkCode(heritage, superRegister, dst, next, cache);
      (exists k :: 0 <= k < |code| && IsProtoLink(code[k], dst, superRegister)) <==> !heritage.kind.NullLiteral?
  {
    var code := LinkCode(heritage, superRegister, dst, next, cache);
    var s := PrototypeStoreAt(heritage);
    WriterAtSkip(code, 2, s, next + 2);
    WriterAtSkip(code, 1, s, next + 1);
    WriterAtSkip(code, 0, s, superRegister);
    if !heritage.kind.NullLiteral? {
      WriterAtSkip(code, 3, s, next);
      assert IsProtoLink(code[5], dst, superRegister);
    }
  }

  /** The link, with its two inline caches, building in four temporaries it gives back. */
  method LinkPrototype(cb: ByteCodeBlock, ctx: GenerateContext, heritage: Expr, superRegister: Register, dst: Register)
    modifies cb, ctx.registers
    ensures cb.code == old(cb.code) + LinkCode(heritage, superRegister, dst, old(ctx.registers.NextFree()), |old(cb.literalData)|)
    ensures cb.literalData == old(cb.literalData) + LinkLiterals(heritage)
    ensures cb.requiredRegisterFileSize == old(cb.requiredRegisterFileSize)
    ensures ctx.registers.stack == old(ctx.registers.stack)
  {
    var superProto := ctx.GetRegister();
    var objectRegister := ctx.GetRegister();
    var func := ctx.GetRegister();
    var result := ctx.GetRegister();
    cb.PushCode(GetGlobalObject(objectRegister, "Object"));
    cb.PushCode(GetObjectPreComputedCase(objectRegister, func, "create"));
    if !heritage.kind.NullLiteral? {
      cb.PushCode(GetObjectPreComputedCase(superRegister, superProto, "prototype"));
    } else {
      superProto := superRegister;
    }
    cb.PushCode(CallFunctionWithReceiver(objectRegister, func, superProto, 1, result, false, false, None));
    var cache := |cb.literalData|;
    cb.PushLiteral(InlineCache);
    cb.PushCode(SetObjectPreComputedCase(dst, "prototype", result, cache));
    if !heritage.kind.NullLiteral? {
      var protoCache := |cb.literalData|;
      cb.PushLiteral(InlineCache);
      cb.PushCode(SetObjectPreComputedCase(dst, "__proto__", superRegister, protoCache));
    }
    GiveUpRegisters(ctx, 4);
  }

  // -----------------------------------------------------------------------
  // The members' property definitions
  // -----------------------------------------------------------------------

  /** Every member other than the constructor has a key the generator supports. */
  predicate ValidKeys(body: seq<MethodDefinition>)
  {
    forall j :: 0 <= j < |body| && body[j].kind != Constructor ==> KeyStringOf(body[j].key).Some?
  }

  /** The key member `j` is defined under: `constructor` for the constructor. */
  function MemberKey(body: seq<MethodDefinition>, j: nat): (r: KeyText)
    requires ValidKeys(body) && j < |body|
    ensures body[j].kind == Constructor ==> r == Text("constructor")
    ensures body[j].kind != Constructor ==> Some(r) == KeyStringOf(body[j].key)
  {
    if body[j].kind == Constructor then Text("constructor") else KeyStringOf(body[j].key).value
  }

  /** The object member `j` is defined on: the class for a static member, else the prototype. */
  function MemberTarget(body: seq<MethodDefinition>, j: nat, dst: Register, proto: Register): (r: Register)
    requires j < |body|
    ensures r == dst || r == proto
    ensures r == dst <==> (body[j].kind != Constructor && body[j].isStaticMethod) || dst == proto
  {
    if body[j].kind != Constructor && body[j].isStaticMethod then dst else proto
  }

  /** The definition of member `j`, from the register its function was created in. */
  function MemberDefinitionCode(body: seq<MethodDefinition>, j: nat, dst: Register, base: Register, proto: Register): (r: seq<Instr>)
    requires ValidKeys(body) && j < |body|
  {
    DefinePropertyCode(body[j].kind, MemberKey(body, j), MemberTarget(body, j, dst, proto),
                       FunctionRegister(body, j, dst, base), proto + 1)
  }

  /** The definitions of the first `n` members, in order. */
  function DefinitionsCode(body: seq<MethodDefinition>, n: nat, dst: Register, base: Register, proto: Register): (r: seq<Instr>)
    requires ValidKeys(body) && n <= |body|
  {
    if n == 0 then [] else DefinitionsCode(body, n - 1, dst, base, proto) + MemberDefinitionCode(body, n - 1, dst, base, proto)
  }

  /** The key strings the first `n` definitions add to the literal pool. */
  function DefinitionLiterals(body: seq<MethodDefinition>, n: nat): (r: seq<LiteralEntry>)
    requires ValidKeys(body) && n <= |body|
    ensures |r| == n
  {
    if n == 0 then [] else DefinitionLiterals(body, n - 1) + [KeyString(MemberKey(body, n - 1))]
  }

  /** The registers held while the members are defined: each non-constructor's function, then the prototype. */
  predicate HeldForDefinitions(ctx: GenerateContext, body: seq<MethodDefinition>, base: Register)
    reads ctx, ctx.registers
  {
    var s := ctx.registers.stack;
    var k := MemberRegisterCount(body);
    k < |s| && s[|s| - 1 - k..] == Consecutive(base, k + 1) && ctx.registers.NextFree() == base + k + 1
  }

  /**
   * The second loop over the body: each member defined on its target from
   * its function's register, found `regIdx` places below the top.
   */
  method DefineMembers(cb: ByteCodeBlock, ctx: GenerateContext, body: seq<MethodDefinition>, dst: Register, ghost base: Register)
    requires ValidKeys(body) && HeldForDefinitions(ctx, body, base)
    modifies cb, ctx.registers
    ensures var proto := base + MemberRegisterCount(body);
      cb.code == old(cb.code) + DefinitionsCode(body, |body|, dst, base, proto)
    ensures cb.literalData == old(cb.literalData) + DefinitionLiterals(body, |body|)
    ensures cb.requiredRegisterFileSize == old(cb.requiredRegisterFileSize)
    ensures ctx.registers.stack == old(ctx.registers.stack)
  {
    var regIdx: nat := MemberRegisterCount(body) + 1;
    var j := 0;
    while j < |body|
      invariant 0 <= j <= |body|
      invariant regIdx + NonConstructorsBefore(body, j) == MemberRegisterCount(body) + 1
      invariant cb.code == old(cb.code) + DefinitionsCode(body, j, dst, base, base + MemberRegisterCount(body))
      invariant cb.literalData == old(cb.literalData) + DefinitionLiterals(body, j)
      invariant cb.requiredRegisterFileSize == old(cb.requiredRegisterFileSize)
      invariant ctx.registers.stack == old(ctx.registers.stack)
    {
      ghost var code := cb.code;
      ghost var literals := cb.literalData;
      regIdx := DefineMember(cb, ctx, body, j, dst, base, regIdx);
      AppendAssociative(old(cb.code), DefinitionsCode(body, j, dst, base, base + MemberRegisterCount(body)),
                        MemberDefinitionCode(body, j, dst, base, base + MemberRegisterCount(body)));
      AppendAssociative(old(cb.literalData), DefinitionLiterals(body, j), [KeyString(MemberKey(body, j))]);
      j := j + 1;
    }
  }

  /** One step of the second loop. */
  method DefineMember(cb: ByteCodeBlock, ctx: GenerateContext, body: seq<MethodDefinition>, j: nat, dst: Register,
                      ghost base: Register, regIdx: nat)
    returns (nextIdx: nat)
    requires ValidKeys(body) && HeldForDefinitions(ctx, body, base) && j < |body|
    requires regIdx + NonConstructorsBefore(body, j) == MemberRegisterCount(body) + 1
    modifies cb, ctx.registers
    ensures nextIdx + NonConstructorsBefore(body, j + 1) == MemberRegisterCount(body) + 1
    ensures cb.code == old(cb.code) + MemberDefinitionCode(body, j, dst, base, base + MemberRegisterCount(body))
    ensures cb.literalData == old(cb.literalData) + [KeyString(MemberKey(body, j))]
    ensures cb.requiredRegisterFileSize == old(cb.requiredRegisterFileSize)
    ensures ctx.registers.stack == old(ctx.registers.stack)
  {
    var k := MemberRegisterCount(body);
    var proto := ctx.registers.stack[|ctx.registers.stack| - 1];
    assert proto == base + k && ctx.registers.NextFree() == proto + 1;
    nextIdx := regIdx;
    var m := body[j];
    if m.kind == Constructor {
      DefinePropertyMethod(cb, ctx, m.kind, Text("constructor"), proto, dst);
    } else {
      var target := if m.isStaticMethod then dst else proto;
      NonConstructorsMonotone(body, j, |body|);
      nextIdx := regIdx - 1;
      var value := ctx.LastRegisterIndex(nextIdx);
      assert value == base + NonConstructorsBefore(body, j);
      var key := KeyStringOf(m.key).value;
      DefinePropertyMethod(cb, ctx, m.kind, key, target, value);
    }
  }

  // -----------------------------------------------------------------------
  // The class expression
  // -----------------------------------------------------------------------

  /** The register the first function after the heritage is created in. */
  function MembersBase(c: ClassExpression, first: Register): (r: Register)
    ensures r == if c.superClass.Some? then first + 1 else first
  {
    if c.superClass.Some? then first + 1 else first
  }

  /** The register the prototype is loaded into: above the heritage and every non-constructor's function. */
  function PrototypeRegister(c: ClassExpression, first: Register): (r: Register)
    ensures r == MembersBase(c, first) + MemberRegisterCount(c.body)
  {
    MembersBase(c, first) + MemberRegisterCount(c.body)
  }

  /** What the generator accepts: a heritage with an operand, and member keys it supports. */
  predicate Generatable(c: ClassExpression)
  {
    ValidHeritage(c.superClass) && ValidKeys(c.body)
  }

  /** The prototype link, for a class with a heritage. */
  function LinkPart(c: ClassExpression, dst: Register, first: Register, lit0: nat): (r: seq<Instr>)
    requires Generatable(c)
    ensures c.superClass.None? ==> r == []
  {
    if c.superClass.Some? then LinkCode(EffectiveHeritage(c.superClass.value), first, dst, PrototypeRegister(c, first), lit0) else []
  }

  /** `dst.prototype` loaded into `proto`, then the definitions. */
  function PrototypeCode(body: seq<MethodDefinition>, dst: Register, base: Register, proto: Register): (r: seq<Instr>)
    requires ValidKeys(body)
    ensures |r| > 0 && r[0] == GetObjectPreComputedCase(dst, proto, "prototype")
  {
    [GetObjectPreComputedCase(dst, proto, "prototype")] + DefinitionsCode(body, |body|, dst, base, proto)
  }

  /** After the members' functions: the link, `dst.prototype`, and the definitions. */
  function FinishCode(c: ClassExpression, dst: Register, first: Register, lit0: nat): (r: seq<Instr>)
    requires Generatable(c)
  {
    LinkPart(c, dst, first, lit0) + PrototypeCode(c.body, dst, MembersBase(c, first), PrototypeRegister(c, first))
  }

  /**
   * The code for class expression `c` into `dst`, with registers from
   * `first` and literal-pool entries from `lit0` on: the heritage, the
   * members' functions, the prototype link, `dst.prototype`, the
   * definitions.
   */
  function ClassCode(c: ClassExpression, blocks: seq<ChildBlock>, fe0: nat, dst: Register, first: Register, lit0: nat): (r: seq<Instr>)
    requires Generatable(c) && fe0 + |c.body| <= CountFunctionExpressions(blocks)
  {
    FunctionsCode(c, blocks, fe0, dst, first) + FinishCode(c, dst, first, lit0)
  }

  /** The heritage, then the members' functions. */
  function FunctionsCode(c: ClassExpression, blocks: seq<ChildBlock>, fe0: nat, dst: Register, first: Register): (r: seq<Instr>)
    requires Generatable(c) && fe0 + |c.body| <= CountFunctionExpressions(blocks)
  {
    HeritageCode(c.superClass, first) + MembersCode(c.body, blocks, fe0, dst, MembersBase(c, first))
  }

  /** The literal-pool entries the class adds: the link's inline caches, then the members' keys. */
  function ClassLiterals(c: ClassExpression): (r: seq<LiteralEntry>)
    requires Generatable(c)
  {
    (if c.superClass.Some? then LinkLiterals(EffectiveHeritage(c.superClass.value)) else []) +
    DefinitionLiterals(c.body, |c.body|)
  }

  /**
   * ClassExpressionNode::generateExpressionByteCode into `dst`: every
   * register it takes is given back, each function-expression child of a
   * member is used in turn, and the constructor is named.
   */
  method GenerateClass(cb: ByteCodeBlock, ctx: GenerateContext, c: ClassExpression, dst: Register)
    requires Generatable(c)
    requires ctx.feCounter + |c.body| <= CountFunctionExpressions(ctx.childBlocks)
    requires DistinctBlocks(ctx.childBlocks)
    modifies cb, ctx, ctx.registers, ctx.childBlocks, c.body
    ensures cb.code == old(cb.code) +
      ClassCode(c, ctx.childBlocks, old(ctx.feCounter), dst, old(ctx.registers.NextFree()), |old(cb.literalData)|)
    ensures cb.literalData == old(cb.literalData) + ClassLiterals(c)
    ensures cb.requiredRegisterFileSize == old(cb.requiredRegisterFileSize)
    ensures ctx.registers.stack == old(ctx.registers.stack)
    ensures ctx.feCounter == old(ctx.feCounter) + |c.body|
    ensures FlagsOf(ctx) == old(FlagsOf(ctx))
    ensures forall j :: 0 <= j < |c.body| ==>
      c.body[j].name == (if c.body[j].kind == Constructor then ClassName(c) else old(c.body[j].name))
    ensures BlocksNamedUpTo(ctx.childBlocks, old(ctx.feCounter), |c.body|, c.body, ClassName(c), old(Names(c.body)),
                            old(FunctionNames(ctx.childBlocks)), old(WithScopes(ctx.childBlocks)), ctx.isWithScope && !ctx.isEvalCode)
  {
    ghost var first := ctx.registers.NextFree();
    ghost var held := ctx.registers.stack + (if c.superClass.Some? then [first] else []);
    var superRegister := GenerateFunctions(cb, ctx, c, dst);
    FinishClass(cb, ctx, c, dst, superRegister, first, held);
    assert ctx.registers.stack == held[..|held| - (if c.superClass.Some? then 1 else 0)];
    AppendAssociative(old(cb.code), FunctionsCode(c, ctx.childBlocks, old(ctx.feCounter), dst, first),
                      FinishCode(c, dst, first, |old(cb.literalData)|));
  }

  /** The heritage and the members' functions, whose registers stay held. */
  method GenerateFunctions(cb: ByteCodeBlock, ctx: GenerateContext, c: ClassExpression, dst: Register)
    returns (superRegister: Register)
    requires Generatable(c)
    requires ctx.feCounter + |c.body| <= CountFunctionExpressions(ctx.childBlocks)
    requires DistinctBlocks(ctx.childBlocks)
    modifies cb, ctx, ctx.registers, ctx.childBlocks, c.body
    ensures var first := old(ctx.registers.NextFree());
      (c.superClass.Some? ==> superRegister == first) &&
      cb.code == old(cb.code) + FunctionsCode(c, ctx.childBlocks, old(ctx.feCounter), dst, first) &&
      ctx.registers.stack == old(ctx.registers.stack) + (if c.superClass.Some? then [first] else []) +
        Consecutive(MembersBase(c, first), MemberRegisterCount(c.body)) &&
      ctx.registers.NextFree() == PrototypeRegister(c, first)
    ensures cb.literalData == old(cb.literalData) && cb.requiredRegisterFileSize == old(cb.requiredRegisterFileSize)
    ensures ctx.feCounter == old(ctx.feCounter) + |c.body|
    ensures FlagsOf(ctx) == old(FlagsOf(ctx))
    ensures forall j :: 0 <= j < |c.body| ==>
      c.body[j].name == (if c.body[j].kind == Constructor then ClassName(c) else old(c.body[j].name))
    ensures BlocksNamedUpTo(ctx.childBlocks, old(ctx.feCounter), |c.body|, c.body, ClassName(c), old(Names(c.body)),
                            old(FunctionNames(ctx.childBlocks)), old(WithScopes(ctx.childBlocks)), ctx.isWithScope && !ctx.isEvalCode)
  {
    ghost var first := ctx.registers.NextFree();
    superRegister := GenerateHeritage(cb, ctx, c.superClass);
    assert ctx.registers.NextFree() == MembersBase(c, first);
    ghost var held := ctx.registers.stack;
    GenerateMembers(cb, ctx, c, dst);
    assert ctx.registers.stack == held + Consecutive(MembersBase(c, first), MemberRegisterCount(c.body));
    AppendAssociative(old(cb.code), HeritageCode(c.superClass, old(ctx.registers.NextFree())),
                      MembersCode(c.body, ctx.childBlocks, old(ctx.feCounter), dst, MembersBase(c, old(ctx.registers.NextFree()))));
  }

  /**
   * The rest of the class after its functions: the prototype link when
   * there is a heritage, the prototype, the definitions, and every
   * register given back, the heritage's last.
   */
  method FinishClass(cb: ByteCodeBlock, ctx: GenerateContext, c: ClassExpression, dst: Register, superRegister: Register,
                     ghost first: Register, ghost below: seq<Register>)
    requires Generatable(c)
    requires c.superClass.Some? ==> superRegister == first
    requires ctx.registers.NextFree() == PrototypeRegister(c, first)
    requires ctx.registers.stack == below + Consecutive(MembersBase(c, first), MemberRegisterCount(c.body))
    requires |below| >= (if c.superClass.Some? then 1 else 0)
    modifies cb, ctx.registers
    ensures cb.code == old(cb.code) + FinishCode(c, dst, first, |old(cb.literalData)|)
    ensures cb.literalData == old(cb.literalData) + ClassLiterals(c)
    ensures cb.requiredRegisterFileSize == old(cb.requiredRegisterFileSize)
    ensures ctx.registers.stack == below[..|below| - (if c.superClass.Some? then 1 else 0)]
  {
    if c.superClass.Some? {
      LinkPrototype(cb, ctx, EffectiveHeritage(c.superClass.value), superRegister, dst);
    }
    DefineOnPrototype(cb, ctx, c.body, dst, MembersBase(c, first), below);
    if c.superClass.Some? {
      GiveUpRegisters(ctx, 1);
    }
  }

  /** `dst.prototype` in a fresh register, the definitions, and the members' registers given back. */
  method DefineOnPrototype(cb: ByteCodeBlock, ctx: GenerateContext, body: seq<MethodDefinition>, dst: Register,
                           ghost base: Register, ghost below: seq<Register>)
    requires ValidKeys(body)
    requires ctx.registers.NextFree() == base + MemberRegisterCount(body)
    requires ctx.registers.stack == below + Consecutive(base, MemberRegisterCount(body))
    modifies cb, ctx.registers
    ensures cb.code == old(cb.code) + PrototypeCode(body, dst, base, base + MemberRegisterCount(body))
    ensures cb.literalData == old(cb.literalData) + DefinitionLiterals(body, |body|)
    ensures cb.requiredRegisterFileSize == old(cb.requiredRegisterFileSize)
    ensures ctx.registers.stack == below
  {
    var proto := ctx.GetRegister();
    cb.PushCode(GetObjectPreComputedCase(dst, proto, "prototype"));
    TopConsecutive(ctx.registers.stack, below, base, MemberRegisterCount(body));
    DefineMembers(cb, ctx, body, dst, base);
    GiveUpRegisters(ctx, MemberRegisterCount(body) + 1);
    AppendAssociative(old(cb.code), [GetObjectPreComputedCase(dst, proto, "prototype")],
                      DefinitionsCode(body, |body|, dst, base, proto));
  }

  /** With the prototype pushed above the members' functions, the top `k + 1` registers run from `base`. */
  lemma {:induction false} TopConsecutive(s: seq<Register>, below: seq<Register>, base: Register, k: nat)
    requires s == below + Consecutive(base, k) + [base + k]
    ensures s[|s| - 1 - k..] == Consecutive(base, k + 1) && s[..|s| - (k + 1)] == below
  {
    ConsecutiveSnoc(below, base, k);
    assert s == below + Consecutive(base, k + 1);
  }

  // -----------------------------------------------------------------------
  // Each member is defined from its own function
  // -----------------------------------------------------------------------

  /** The parser's guarantee: a class body has at most one constructor. */
  predicate AtMostOneConstructor(body: seq<MethodDefinition>)
  {
    forall i, j :: 0 <= i < j < |body| && body[i].kind == Constructor ==> body[j].kind != Constructor
  }

  /** With the class register below the held ones, no two members' functions share a register. */
  lemma {:induction false} FunctionRegistersDistinct(body: seq<MethodDefinition>, dst: Register, base: Register, i: nat, j: nat)
    requires i < j < |body| && dst < base && AtMostOneConstructor(body)
    ensures FunctionRegister(body, i, dst, base) != FunctionRegister(body, j, dst, base)
  {
    NonConstructorsMonotone(body, i, j);
  }

  /** After all the members' functions, each one's register was last written by its own creation. */
  lemma {:induction false} MemberFunctionLastWritten(body: seq<MethodDefinition>, blocks: seq<ChildBlock>, fe0: nat, dst: Register,
                                  base: Register, j: nat)
    requires fe0 + |body| <= CountFunctionExpressions(blocks) && j < |body|
    requires dst < base && AtMostOneConstructor(body)
    ensures var m := MembersCode(body, blocks, fe0, dst, base);
      WriterAt(m, |m|, FunctionRegister(body, j, dst, base)) ==
        Some(CreateFunction(FunctionRegister(body, j, dst, base), NthFunctionExpression(blocks, fe0 + j)))
  {
    var m := MembersCode(body, blocks, fe0, dst, base);
    var f := FunctionRegister(body, j, dst, base);
    LaterMembersSilent(body, blocks, fe0, dst, base, j);
    WriterAtSkip(m, j + 1, |m|, f);
    MemberCodeAt(body, blocks, fe0, dst, base, j);
  }

  /** The `j`-th member's instruction creates its function in its register. */
  lemma {:induction false} MemberCodeAt(body: seq<MethodDefinition>, blocks: seq<ChildBlock>, fe0: nat, dst: Register,
                     base: Register, j: nat)
    requires fe0 + |body| <= CountFunctionExpressions(blocks) && j < |body|
    ensures MembersCode(body, blocks, fe0, dst, base)[j] ==
      CreateFunction(FunctionRegister(body, j, dst, base), NthFunctionExpression(blocks, fe0 + j))
  {}

  /** The members after the `j`-th do not write its function's register. */
  lemma {:induction false} LaterMembersSilent(body: seq<MethodDefinition>, blocks: seq<ChildBlock>, fe0: nat, dst: Register,
                           base: Register, j: nat)
    requires fe0 + |body| <= CountFunctionExpressions(blocks) && j < |body|
    requires dst < base && AtMostOneConstructor(body)
    ensures forall k :: j + 1 <= k < |body| ==>
      !Writes(MembersCode(body, blocks, fe0, dst, base)[k], FunctionRegister(body, j, dst, base))
  {
    forall k | j + 1 <= k < |body|
      ensures !Writes(MembersCode(body, blocks, fe0, dst, base)[k], FunctionRegister(body, j, dst, base))
    {
      MemberCodeAt(body, blocks, fe0, dst, base, k);
      FunctionRegistersDistinct(body, dst, base, j, k);
    }
  }

  /** The prototype link writes only its four temporaries. */
  lemma {:induction false} LinkWritesOnlyTemporaries(heritage: Expr, superRegister: Register, dst: Register, next: Register, cache: nat)
    ensures var code := LinkCode(heritage, superRegister, dst, next, cache);
      forall k, r: Register :: 0 <= k < |code| && Writes(code[k], r) ==> next <= r < next + 4
  {}

  /** Every definition writes only registers above the prototype's. */
  lemma {:induction false} DefinitionsWriteAbovePrototype(body: seq<MethodDefinition>, n: nat, dst: Register,
                                                          base: Register, proto: Register)
    requires ValidKeys(body) && n <= |body|
    ensures forall k, r: Register ::
      (0 <= k < |DefinitionsCode(body, n, dst, base, proto)| && Writes(DefinitionsCode(body, n, dst, base, proto)[k], r))
      ==> proto < r
  {
    if n > 0 {
      DefinitionsWriteAbovePrototype(body, n - 1, dst, base, proto);
      var d := DefinitionsCode(body, n, dst, base, proto);
      var a := DefinitionsCode(body, n - 1, dst, base, proto);
      var b := MemberDefinitionCode(body, n - 1, dst, base, proto);
      assert d == a + b;
      forall k, r: Register | 0 <= k < |d| && Writes(d[k], r)
        ensures proto < r
      {
        if k < |a| {
          assert d[k] == a[k];
        } else {
          assert d[k] == b[k - |a|];
          DefinitionWritesOnlyTemporaries(body[n - 1].kind, MemberKey(body, n - 1), MemberTarget(body, n - 1, dst, proto),
                                          FunctionRegister(body, n - 1, dst, base), proto + 1);
        }
      }
    }
  }

  /** The definitions of the first `j` members begin the definitions of the first `n`. */
  lemma {:induction false} DefinitionsPrefix(body: seq<MethodDefinition>, j: nat, n: nat, dst: Register,
                                             base: Register, proto: Register)
    requires ValidKeys(body) && j <= n <= |body|
    ensures var d := DefinitionsCode(body, n, dst, base, proto);
      var p := DefinitionsCode(body, j, dst, base, proto);
      |p| <= |d| && d[..|p|] == p
    decreases n
  {
    var d := DefinitionsCode(body, n, dst, base, proto);
    var p := DefinitionsCode(body, j, dst, base, proto);
    if j < n {
      DefinitionsPrefix(body, j, n - 1, dst, base, proto);
      var e := DefinitionsCode(body, n - 1, dst, base, proto);
      assert d[..|e|] == e;
      assert d[..|p|] == e[..|p|];
    } else {
      assert d[..|d|] == d;
    }
  }

  /** Where member `j`'s definition begins in the class code. */
  function DefinitionStart(c: ClassExpression, blocks: seq<ChildBlock>, fe0: nat, dst: Register, first: Register,
                           lit0: nat, j: nat): (r: nat)
    requires Generatable(c) && fe0 + |c.body| <= CountFunctionExpressions(blocks) && j <= |c.body|
    ensures r <= |ClassCode(c, blocks, fe0, dst, first, lit0)|
  {
    DefinitionsPrefix(c.body, j, |c.body|, dst, MembersBase(c, first), PrototypeRegister(c, first));
    |CodeBeforeDefinition(c, blocks, fe0, dst, first, lit0, j)|
  }

  /** What precedes every definition: the functions, the link, and `dst.prototype`. */
  function DefinitionsLead(c: ClassExpression, blocks: seq<ChildBlock>, fe0: nat, dst: Register, first: Register,
                           lit0: nat): (r: seq<Instr>)
    requires Generatable(c) && fe0 + |c.body| <= CountFunctionExpressions(blocks)
  {
    FunctionsCode(c, blocks, fe0, dst, first) + LinkPart(c, dst, first, lit0) +
    [GetObjectPreComputedCase(dst, PrototypeRegister(c, first), "prototype")]
  }

  /** The class code before member `j`'s definition: the lead and the earlier definitions. */
  function CodeBeforeDefinition(c: ClassExpression, blocks: seq<ChildBlock>, fe0: nat, dst: Register, first: Register,
                                lit0: nat, j: nat): (r: seq<Instr>)
    requires Generatable(c) && fe0 + |c.body| <= CountFunctionExpressions(blocks) && j <= |c.body|
  {
    DefinitionsLead(c, blocks, fe0, dst, first, lit0) +
    DefinitionsCode(c.body, j, dst, MembersBase(c, first), PrototypeRegister(c, first))
  }

  /** The class code up to member `j`'s definition, and that definition. */
  lemma {:induction false} ClassCodeAtDefinition(c: ClassExpression, blocks: seq<ChildBlock>, fe0: nat, dst: Register,
                              first: Register, lit0: nat, j: nat)
    requires Generatable(c) && fe0 + |c.body| <= CountFunctionExpressions(blocks) && j < |c.body|
    ensures var code := ClassCode(c, blocks, fe0, dst, first, lit0);
      var d := DefinitionStart(c, blocks, fe0, dst, first, lit0, j);
      var base := MembersBase(c, first);
      var proto := PrototypeRegister(c, first);
      var def := MemberDefinitionCode(c.body, j, dst, base, proto);
      d + |def| <= |code| && code[d..d + |def|] == def &&
      code[..d] == CodeBeforeDefinition(c, blocks, fe0, dst, first, lit0, j)
  {
    var base := MembersBase(c, first);
    var proto := PrototypeRegister(c, first);
    var dj := DefinitionsCode(c.body, j, dst, base, proto);
    var dn := DefinitionsCode(c.body, |c.body|, dst, base, proto);
    var def := MemberDefinitionCode(c.body, j, dst, base, proto);
    var lead := DefinitionsLead(c, blocks, fe0, dst, first, lit0);
    ClassCodeIsLeadAndDefinitions(c, blocks, fe0, dst, first, lit0);
    assert |dj| + |def| <= |dn| && dn[..|dj| + |def|] == dj + def by {
      DefinitionsPrefix(c.body, j + 1, |c.body|, dst, base, proto);
      assert DefinitionsCode(c.body, j + 1, dst, base, proto) == dj + def;
    }
    SliceAfterPrefix(lead, dn, dj, def);
    assert CodeBeforeDefinition(c, blocks, fe0, dst, first, lit0, j) == lead + dj;
    assert DefinitionStart(c, blocks, fe0, dst, first, lit0, j) == |lead| + |dj|;
  }

  /** The class code is the definitions' lead followed by every member's definition. */
  lemma {:induction false} ClassCodeIsLeadAndDefinitions(c: ClassExpression, blocks: seq<ChildBlock>, fe0: nat, dst: Register,
                                                         first: Register, lit0: nat)
    requires Generatable(c) && fe0 + |c.body| <= CountFunctionExpressions(blocks)
    ensures ClassCode(c, blocks, fe0, dst, first, lit0) ==
      DefinitionsLead(c, blocks, fe0, dst, first, lit0) +
      DefinitionsCode(c.body, |c.body|, dst, MembersBase(c, first), PrototypeRegister(c, first))
  {
    var proto := PrototypeRegister(c, first);
    var dn := DefinitionsCode(c.body, |c.body|, dst, MembersBase(c, first), proto);
    var fc := FunctionsCode(c, blocks, fe0, dst, first);
    var l := LinkPart(c, dst, first, lit0);
    var g := [GetObjectPreComputedCase(dst, proto, "prototype")];
    AppendAssociative(fc, l, g + dn);
    AppendAssociative(fc + l, g, dn);
  }

  /** Before member `j`'s definition, the prototype register was last written by the `dst.prototype` load. */
  lemma {:induction false} PrototypeLoadedBeforeDefinition(c: ClassExpression, blocks: seq<ChildBlock>, fe0: nat, dst: Register,
                                        first: Register, lit0: nat, j: nat)
    requires Generatable(c) && fe0 + |c.body| <= CountFunctionExpressions(blocks) && j < |c.body|
    ensures var proto := PrototypeRegister(c, first);
      var p := CodeBeforeDefinition(c, blocks, fe0, dst, first, lit0, j);
      WriterAt(p, |p|, proto) == Some(GetObjectPreComputedCase(dst, proto, "prototype"))
  {
    var base := MembersBase(c, first);
    var proto := PrototypeRegister(c, first);
    var hml := FunctionsCode(c, blocks, fe0, dst, first) + LinkPart(c, dst, first, lit0);
    var g := [GetObjectPreComputedCase(dst, proto, "prototype")];
    var dj := DefinitionsCode(c.body, j, dst, base, proto);
    DefinitionsWriteAbovePrototype(c.body, j, dst, base, proto);
    WriterAtPastSilent(hml + g, dj, proto);
    WriterAtAppend(hml, g, 1, proto);
  }

  /** Between the members' functions and member `j`'s definition, nothing writes below the prototype register. */
  lemma {:induction false} SilentBelowPrototype(c: ClassExpression, dst: Register, first: Register, lit0: nat, j: nat, r: Register)
    requires Generatable(c) && j <= |c.body| && r < PrototypeRegister(c, first)
    ensures forall k :: 0 <= k < |LinkPart(c, dst, first, lit0)| ==> !Writes(LinkPart(c, dst, first, lit0)[k], r)
    ensures forall k ::
      0 <= k < |DefinitionsCode(c.body, j, dst, MembersBase(c, first), PrototypeRegister(c, first))| ==>
      !Writes(DefinitionsCode(c.body, j, dst, MembersBase(c, first), PrototypeRegister(c, first))[k], r)
  {
    if c.superClass.Some? {
      LinkWritesOnlyTemporaries(EffectiveHeritage(c.superClass.value), first, dst, PrototypeRegister(c, first), lit0);
    }
    DefinitionsWriteAbovePrototype(c.body, j, dst, MembersBase(c, first), PrototypeRegister(c, first));
  }

  /** After the heritage and the members' functions, member `j`'s register was last written by its creation. */
  lemma {:induction false} FunctionLastWrittenInFunctions(c: ClassExpression, blocks: seq<ChildBlock>, fe0: nat, dst: Register,
                                       first: Register, j: nat)
    requires Generatable(c) && fe0 + |c.body| <= CountFunctionExpressions(blocks) && j < |c.body|
    requires dst < first && AtMostOneConstructor(c.body)
    ensures var f := FunctionRegister(c.body, j, dst, MembersBase(c, first));
      var fc := FunctionsCode(c, blocks, fe0, dst, first);
      WriterAt(fc, |fc|, f) == Some(CreateFunction(f, NthFunctionExpression(blocks, fe0 + j)))
  {
    var base := MembersBase(c, first);
    var h := HeritageCode(c.superClass, first);
    var m := MembersCode(c.body, blocks, fe0, dst, base);
    var f := FunctionRegister(c.body, j, dst, base);
    MemberFunctionLastWritten(c.body, blocks, fe0, dst, base, j);
    WriterAtAppend(h, m, |m|, f);
    assert FunctionsCode(c, blocks, fe0, dst, first) == h + m;
    assert |h + m| == |h| + |m|;
  }

  /** Before member `j`'s definition, its function register was last written by its own creation. */
  lemma {:induction false} FunctionKeptUntilDefinition(c: ClassExpression, blocks: seq<ChildBlock>, fe0: nat, dst: Register,
                                    first: Register, lit0: nat, j: nat)
    requires Generatable(c) && fe0 + |c.body| <= CountFunctionExpressions(blocks) && j < |c.body|
    requires dst < first && AtMostOneConstructor(c.body)
    ensures var f := FunctionRegister(c.body, j, dst, MembersBase(c, first));
      var p := CodeBeforeDefinition(c, blocks, fe0, dst, first, lit0, j);
      WriterAt(p, |p|, f) == Some(CreateFunction(f, NthFunctionExpression(blocks, fe0 + j)))
  {
    var base := MembersBase(c, first);
    var proto := PrototypeRegister(c, first);
    var f := FunctionRegister(c.body, j, dst, base);
    SilentBelowPrototype(c, dst, first, lit0, j, f);
    WriterAtPastSilentParts(FunctionsCode(c, blocks, fe0, dst, first), LinkPart(c, dst, first, lit0),
                            [GetObjectPreComputedCase(dst, proto, "prototype")], DefinitionsCode(c.body, j, dst, base, proto), f);
    FunctionLastWrittenInFunctions(c, blocks, fe0, dst, first, j);
  }

  /**
   * Register allocation is sound: when member `j` is defined, the register
   * it is defined from still holds the function created for member `j`,
   * and the prototype register still holds `dst.prototype`.  This needs
   * the class register below the ones the class takes, and one
   * constructor at most.
   */
  lemma {:induction false} MemberDefinedFromItsFunction(c: ClassExpression, blocks: seq<ChildBlock>, fe0: nat, dst: Register,
                                     first: Register, lit0: nat, j: nat)
    requires Generatable(c) && fe0 + |c.body| <= CountFunctionExpressions(blocks) && j < |c.body|
    requires dst < first && AtMostOneConstructor(c.body)
    ensures var code := ClassCode(c, blocks, fe0, dst, first, lit0);
      var d := DefinitionStart(c, blocks, fe0, dst, first, lit0, j);
      var base := MembersBase(c, first);
      var proto := PrototypeRegister(c, first);
      var def := MemberDefinitionCode(c.body, j, dst, base, proto);
      var f := FunctionRegister(c.body, j, dst, base);
      d + |def| <= |code| && code[d..d + |def|] == def &&
      WriterAt(code, d, f) == Some(CreateFunction(f, NthFunctionExpression(blocks, fe0 + j))) &&
      WriterAt(code, d, proto) == Some(GetObjectPreComputedCase(dst, proto, "prototype"))
    ensures var code := ClassCode(c, blocks, fe0, dst, first, lit0);
      var d := DefinitionStart(c, blocks, fe0, dst, first, lit0, j);
      forall ci :: 0 <= ci < |c.body| && c.body[ci].kind == Constructor ==>
        WriterAt(code, d, dst) == Some(CreateFunction(dst, NthFunctionExpression(blocks, fe0 + ci)))
  {
    var code := ClassCode(c, blocks, fe0, dst, first, lit0);
    var p := CodeBeforeDefinition(c, blocks, fe0, dst, first, lit0, j);
    ClassCodeAtDefinition(c, blocks, fe0, dst, first, lit0, j);
    FunctionKeptUntilDefinition(c, blocks, fe0, dst, first, lit0, j);
    PrototypeLoadedBeforeDefinition(c, blocks, fe0, dst, first, lit0, j);
    WriterAtOfPrefix(code, p, FunctionRegister(c.body, j, dst, MembersBase(c, first)));
    WriterAtOfPrefix(code, p, PrototypeRegister(c, first));
    WriterAtOfPrefix(code, p, dst);
    forall ci | 0 <= ci < |c.body| && c.body[ci].kind == Constructor
      ensures WriterAt(p, |p|, dst) == Some(CreateFunction(dst, NthFunctionExpression(blocks, fe0 + ci)))
    {
      ClassKeptUntilDefinition(c, blocks, fe0, dst, first, lit0, j, ci);
    }
  }

  /** The class register still holds the constructor's function when member `j` is defined. */
  lemma {:induction false} ClassKeptUntilDefinition(c: ClassExpression, blocks: seq<ChildBlock>, fe0: nat, dst: Register,
                                    first: Register, lit0: nat, j: nat, ci: nat)
    requires Generatable(c) && fe0 + |c.body| <= CountFunctionExpressions(blocks) && j < |c.body|
    requires dst < first && AtMostOneConstructor(c.body) && ci < |c.body| && c.body[ci].kind == Constructor
    ensures var p := CodeBeforeDefinition(c, blocks, fe0, dst, first, lit0, j);
      WriterAt(p, |p|, dst) == Some(CreateFunction(dst, NthFunctionExpression(blocks, fe0 + ci)))
  {
    var base := MembersBase(c, first);
    var proto := PrototypeRegister(c, first);
    assert FunctionRegister(c.body, ci, dst, base) == dst;
    SilentBelowPrototype(c, dst, first, lit0, j, dst);
    WriterAtPastSilentParts(FunctionsCode(c, blocks, fe0, dst, first), LinkPart(c, dst, first, lit0),
                            [GetObjectPreComputedCase(dst, proto, "prototype")], DefinitionsCode(c.body, j, dst, base, proto), dst);
    FunctionLastWrittenInFunctions(c, blocks, fe0, dst, first, ci);
  }
}
