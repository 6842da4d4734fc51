// SuperNode's code generation: the callee of `super(...)` is read off
// `this` through four property reads, into one register the enclosing
// call expression later gives up as the receiver.

module SuperNodes {
  import opened ByteCode

  /** Each instruction reads a named property of the register the previous one wrote, starting from `from`. */
  predicate IsPropertyChain(instrs: seq<Instr>, from: Register, to: Register)
  {
    |instrs| > 0 &&
    (forall k :: 0 <= k < |instrs| ==> instrs[k].GetObjectPreComputedCase?) &&
    instrs[0].obj == from &&
    (forall k :: 0 < k < |instrs| ==> instrs[k].obj == instrs[k - 1].dst) &&
    instrs[|instrs| - 1].dst == to
  }

  /** The super-call chain `this.__proto__.constructor.__proto__.call`, built in `reg` and landing in `dst`. */
  function SuperCallChain(reg: Register, dst: Register): (r: seq<Instr>)
    ensures |r| == 4 && IsPropertyChain(r, REGULAR_REGISTER_LIMIT, dst)
    ensures forall k :: 0 <= k < 3 ==> r[k].dst == reg
    ensures r[0].name == "__proto__" && r[1].name == "constructor" && r[2].name == "__proto__" && r[3].name == "call"
  {
    [GetObjectPreComputedCase(REGULAR_REGISTER_LIMIT, reg, "__proto__"),
     GetObjectPreComputedCase(reg, reg, "constructor"),
     GetObjectPreComputedCase(reg, reg, "__proto__"),
     GetObjectPreComputedCase(reg, dst, "call")]
  }

  /**
   * SuperNode::generateExpressionByteCode.  Only the call form is ever
   * generated (the other form ends in an unconditional abort); it takes
   * one register and leaves it held.
   */
  method GenerateSuper(cb: ByteCodeBlock, ctx: GenerateContext, e: Expr, dst: Register)
    requires e.kind == Super(true)
    modifies cb, ctx.registers
    ensures var reg := old(ctx.registers.NextFree());
      ctx.registers.stack == old(ctx.registers.stack) + [reg] &&
      cb.code == old(cb.code) + SuperCallChain(reg, dst)
    ensures cb.literalData == old(cb.literalData) && cb.requiredRegisterFileSize == old(cb.requiredRegisterFileSize)
  {
    var reg := ctx.GetRegister();
    cb.PushCode(GetObjectPreComputedCase(REGULAR_REGISTER_LIMIT, reg, "__proto__"));
    cb.PushCode(GetObjectPreComputedCase(reg, reg, "constructor"));
    cb.PushCode(GetObjectPreComputedCase(reg, reg, "__proto__"));
    cb.PushCode(GetObjectPreComputedCase(reg, dst, "call"));
  }
}
