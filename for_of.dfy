// ForOfStatementNode's code generation: a for-of loop over the iterator
// protocol.  The right-hand side is evaluated and its Symbol.iterator
// method looked up (a TypeError when it is undefined or null) and called; each
// iteration calls `next()`, leaves when `done` is true, stores `value`
// into the left-hand side and runs the body, then jumps back.

module ForOfStatements {
  import opened ByteCode

  /** The message of the TypeError thrown when the right-hand side has no Symbol.iterator method. */
  const NOT_ITERABLE := "NotIterable"

  /** `for (left of right) body`; `leftIsDeclaration` when `left` is a variable declaration. */
  datatype ForOfStatement = ForOfStatement(left: Expr, leftIsDeclaration: bool, right: Expr, body: Stmt)

  /** A declaration on the left is evaluated once, before the loop. */
  function DeclarationCode(s: ForOfStatement): (c: seq<Instr>)
    ensures |c| == if s.leftIsDeclaration then 1 else 0
  {
    if s.leftIsDeclaration then [Execute(s.left.id)] else []
  }

  /**
   * From the right-hand side to the iterator, with `r` the right-hand
   * side's register: the value of `r[Symbol.iterator]` in `r + 1`,
   * undefined in `r + 2`, their loose-equality comparison in `r + 3`, the jump over the
   * TypeError to `init`, and `r + 1` replaced by the result of calling
   * it on `r`.
   */
  function SetupCode(s: ForOfStatement, r: Register, init: JumpTarget): (c: seq<Instr>)
    ensures |c| == 9
  {
    [Evaluate(s.right.id, r),
     LoadLiteral(r + 1, IteratorSymbol),
     GetObject(r, r + 1, r + 1),
     LoadLiteral(r + 2, UndefinedLiteral),
     BinaryEqual(r + 2, r + 1, r + 3),
     JumpIfFalse(r + 3, init),
     ThrowStaticErrorOperation(TypeError, NOT_ITERABLE),
     GetObjectPreComputedCase(r + 1, r + 2, "call"),
     CallFunctionWithReceiver(r + 1, r + 2, r, 1, r + 1, false, false, None)]
  }

  /**
   * One step of the iterator in `r + 1`: `next()` into `r + 2`, its
   * `done` into `r + 3` with the jump to `exit`, and its `value` into
   * `r + 3`, stored into the left-hand side.
   */
  function StepCode(s: ForOfStatement, r: Register, exit: JumpTarget): (c: seq<Instr>)
    ensures |c| == 6
  {
    [GetObjectPreComputedCase(r + 1, r + 2, "next"),
     CallFunctionWithReceiver(r + 1, r + 2, r, 0, r + 2, false, false, None),
     GetObjectPreComputedCase(r + 2, r + 3, "done"),
     JumpIfTrue(r + 3, exit),
     GetObjectPreComputedCase(r + 2, r + 3, "value"),
     Store(s.left.id, r + 3)]
  }

  /** The body's exit jumps once resolved: a break to `breakTarget`, a continue to `continueTarget`. */
  function BodyExits(exits: seq<Exit>, breakTarget: nat, continueTarget: nat): (c: seq<Instr>)
    ensures |c| == |exits|
    ensures forall k :: 0 <= k < |exits| ==> c[k] == Jump(At(if exits[k] == Break then breakTarget else continueTarget))
  {
    if exits == [] then []
    else [Jump(At(if exits[0] == Break then breakTarget else continueTarget))] + BodyExits(exits[1..], breakTarget, continueTarget)
  }

  /** Where the setup code begins, for a loop whose code begins at `p0`. */
  function SetupStart(s: ForOfStatement, p0: nat): (r: nat)
  {
    p0 + |DeclarationCode(s)|
  }

  /** initPos: the iterator call, right after the TypeError throw. */
  function InitPos(s: ForOfStatement, p0: nat): (r: nat)
  {
    SetupStart(s, p0) + 7
  }

  /** condPos: the `next()` call each iteration begins with. */
  function CondPos(s: ForOfStatement, p0: nat): (r: nat)
  {
    SetupStart(s, p0) + 9
  }

  /** forOfEnd: the position right after the jump back to condPos. */
  function LoopEnd(s: ForOfStatement, p0: nat): (r: nat)
  {
    CondPos(s, p0) + 8 + |s.body.exits|
  }

  /** exitPos: the end of the loop's code. */
  function ExitPos(s: ForOfStatement, p0: nat): (r: nat)
  {
    LoopEnd(s, p0) + 1
  }

  /**
   * The code of `s` once every jump is patched, for a loop whose code
   * begins at `p0` and whose right-hand side is evaluated into `r`.
   */
  function ForOfCode(s: ForOfStatement, r: Register, p0: nat): (c: seq<Instr>)
  {
    DeclarationCode(s) + SetupCode(s, r, At(InitPos(s, p0))) + StepCode(s, r, At(ExitPos(s, p0))) +
    [Execute(s.body.id)] + BodyExits(s.body.exits, LoopEnd(s, p0), CondPos(s, p0)) +
    [Jump(At(CondPos(s, p0))), Jump(At(ExitPos(s, p0)))]
  }

  // -----------------------------------------------------------------------
  // Code generation
  // -----------------------------------------------------------------------

  /**
   * The right-hand side and the iterator, lines 56-84: with the copy flag
   * off the right-hand side gets a fresh register; it and the iterator's
   * stay held.
   */
  method GenerateIteratorSetup(cb: ByteCodeBlock, ctx: GenerateContext, s: ForOfStatement)
    returns (rightIdx: Register, iteratorIdx: Register, jumpInitPos: nat, initPos: nat)
    requires !ctx.canSkipCopyToRegister
    modifies cb, ctx.registers
    ensures rightIdx == old(ctx.registers.NextFree()) && iteratorIdx == rightIdx + 1
    ensures cb.code == old(cb.code) + SetupCode(s, rightIdx, Unpatched)
    ensures jumpInitPos == |old(cb.code)| + 5 && initPos == |old(cb.code)| + 7
    ensures ctx.registers.stack == old(ctx.registers.stack) + [rightIdx, iteratorIdx]
    ensures cb.literalData == old(cb.literalData) && cb.requiredRegisterFileSize == old(cb.requiredRegisterFileSize)
  {
    rightIdx, iteratorIdx := GenerateIteratorLookup(cb, ctx, s);
    jumpInitPos := |cb.code| - 1;
    cb.PushCode(ThrowStaticErrorOperation(TypeError, NOT_ITERABLE));
    initPos := cb.CurrentCodeSize();
    var callIdx := ctx.GetRegister();
    cb.PushCodes([GetObjectPreComputedCase(iteratorIdx, callIdx, "call"),
                  CallFunctionWithReceiver(iteratorIdx, callIdx, rightIdx, 1, iteratorIdx, false, false, None)]);
    ctx.GiveUpRegister();
    SetupCodeSplit(s, rightIdx, Unpatched);
  }

  /** Lines 56-76: the right-hand side, its iterator method, and the test that it is neither undefined nor null. */
  method GenerateIteratorLookup(cb: ByteCodeBlock, ctx: GenerateContext, s: ForOfStatement)
    returns (rightIdx: Register, iteratorIdx: Register)
    requires !ctx.canSkipCopyToRegister
    modifies cb, ctx.registers
    ensures rightIdx == old(ctx.registers.NextFree()) && iteratorIdx == rightIdx + 1
    ensures cb.code == old(cb.code) + SetupCode(s, rightIdx, Unpatched)[..6]
    ensures ctx.registers.stack == old(ctx.registers.stack) + [rightIdx, iteratorIdx]
    ensures cb.literalData == old(cb.literalData) && cb.requiredRegisterFileSize == old(cb.requiredRegisterFileSize)
  {
    rightIdx := GetExprRegister(ctx, s.right);
    GenerateExpression(cb, s.right, rightIdx);
    iteratorIdx := ctx.GetRegister();
    cb.PushCodes([LoadLiteral(iteratorIdx, IteratorSymbol), GetObject(rightIdx, iteratorIdx, iteratorIdx)]);
    var literalIdx := ctx.GetRegister();
    cb.PushCode(LoadLiteral(literalIdx, UndefinedLiteral));
    var equalResultIndex := ctx.GetRegister();
    cb.PushCodes([BinaryEqual(literalIdx, iteratorIdx, equalResultIndex), JumpIfFalse(equalResultIndex, Unpatched)]);
    ctx.GiveUpRegister();
    ctx.GiveUpRegister();
  }

  /** The set-up is its first six instructions, then the rest. */
  lemma {:induction false} SetupCodeSplit(s: ForOfStatement, r: Register, init: JumpTarget)
    ensures SetupCode(s, r, init) == SetupCode(s, r, init)[..6] +
      [ThrowStaticErrorOperation(TypeError, NOT_ITERABLE),
       GetObjectPreComputedCase(r + 1, r + 2, "call"),
       CallFunctionWithReceiver(r + 1, r + 2, r, 1, r + 1, false, false, None)]
  {
  }

  /** One iterator step, lines 89-108; the registers it takes are given back. */
  method GenerateIteratorStep(cb: ByteCodeBlock, ctx: GenerateContext, s: ForOfStatement,
                              rightIdx: Register, iteratorIdx: Register)
    returns (condPos: nat, jumpExitPos: nat)
    requires iteratorIdx == rightIdx + 1 && ctx.registers.NextFree() == rightIdx + 2
    modifies cb, ctx.registers
    ensures cb.code == old(cb.code) + StepCode(s, rightIdx, Unpatched)
    ensures condPos == |old(cb.code)| && jumpExitPos == |old(cb.code)| + 3
    ensures ctx.registers.stack == old(ctx.registers.stack)
    ensures cb.literalData == old(cb.literalData) && cb.requiredRegisterFileSize == old(cb.requiredRegisterFileSize)
  {
    condPos := cb.CurrentCodeSize();
    var nextIdx := ctx.GetRegister();
    cb.PushCodes([GetObjectPreComputedCase(iteratorIdx, nextIdx, "next"),
                  CallFunctionWithReceiver(iteratorIdx, nextIdx, rightIdx, 0, nextIdx, false, false, None)]);
    var doneIdx := ctx.GetRegister();
    cb.PushCodes([GetObjectPreComputedCase(nextIdx, doneIdx, "done"), JumpIfTrue(doneIdx, Unpatched)]);
    jumpExitPos := |cb.code| - 1;
    ctx.GiveUpRegister();
    var valueIdx := ctx.GetRegister();
    cb.PushCodes([GetObjectPreComputedCase(nextIdx, valueIdx, "value"), Store(s.left.id, valueIdx)]);
    ctx.GiveUpRegister();
    ctx.GiveUpRegister();
  }

  // -----------------------------------------------------------------------
  // Patching the jumps
  // -----------------------------------------------------------------------

  /** Every position in `ps` holds a jump of `code`. */
  predicate JumpsAt(code: seq<Instr>, ps: seq<nat>)
  {
    forall k :: 0 <= k < |ps| ==> ps[k] < |code| && IsJump(code[ps[k]])
  }

  /** The body's exit jumps with only the breaks resolved, to `t`. */
  function BreaksResolved(exits: seq<Exit>, t: nat): (c: seq<Instr>)
    ensures |c| == |exits|
    ensures forall k :: 0 <= k < |exits| ==> c[k] == if exits[k] == Break then Jump(At(t)) else Jump(Unpatched)
  {
    if exits == [] then []
    else [if exits[0] == Break then Jump(At(t)) else Jump(Unpatched)] + BreaksResolved(exits[1..], t)
  }

  /** The jumps for a body's exits, placed after `a`: those of kind `kind` are where ExitPositions says. */
  lemma {:induction false} ExitPositionsAreJumps(a: seq<Instr>, mid: seq<Instr>, b: seq<Instr>, exits: seq<Exit>,
                                                 kind: Exit)
    requires |mid| == |exits| && forall j :: 0 <= j < |mid| ==> IsJump(mid[j])
    ensures JumpsAt(a + mid + b, ExitPositions(exits, kind, |a|))
  {
    var ps := ExitPositions(exits, kind, |a|);
    forall j | 0 <= j < |ps|
      ensures ps[j] < |a + mid + b| && IsJump((a + mid + b)[ps[j]])
    {
      ConcatIndex(a, mid, b, ps[j]);
    }
  }

  /** One position of the patch of the exits of kind `kind` to `t`. */
  lemma {:induction false} PatchExitsAt(a: seq<Instr>, mid: seq<Instr>, b: seq<Instr>, exits: seq<Exit>, kind: Exit,
                                        t: nat, after: seq<Instr>, k: nat)
    requires |mid| == |exits| == |after| && forall j :: 0 <= j < |mid| ==> IsJump(mid[j])
    requires forall j :: 0 <= j < |mid| ==> after[j] == if exits[j] == kind then Retarget(mid[j], t) else mid[j]
    requires k < |a| + |mid| + |b|
    ensures JumpsAt(a + mid + b, ExitPositions(exits, kind, |a|)) &&
      PatchAll(a + mid + b, ExitPositions(exits, kind, |a|), t)[k] == (a + after + b)[k]
  {
    var code := a + mid + b;
    var ps := ExitPositions(exits, kind, |a|);
    ExitPositionsAreJumps(a, mid, b, exits, kind);
    assert k in ps <==> |a| <= k < |a| + |exits| && exits[k - |a|] == kind by {
      ExitPositionsExact(exits, kind, |a|, k);
    }
    assert code[k] == (if k < |a| then a[k] else if k < |a| + |mid| then mid[k - |a|] else b[k - |a| - |mid|]) by {
      ConcatIndex(a, mid, b, k);
    }
    assert (a + after + b)[k] ==
      (if k < |a| then a[k] else if k < |a| + |mid| then after[k - |a|] else b[k - |a| - |mid|]) by {
      ConcatIndex(a, after, b, k);
    }
  }

  /** Patching the exits of kind `kind` to `t` turns `mid` into `after`. */
  lemma {:induction false} PatchExits(a: seq<Instr>, mid: seq<Instr>, b: seq<Instr>, exits: seq<Exit>, kind: Exit,
                                      t: nat, after: seq<Instr>)
    requires |mid| == |exits| == |after| && forall j :: 0 <= j < |mid| ==> IsJump(mid[j])
    requires forall j :: 0 <= j < |mid| ==> after[j] == if exits[j] == kind then Retarget(mid[j], t) else mid[j]
    ensures JumpsAt(a + mid + b, ExitPositions(exits, kind, |a|)) &&
      PatchAll(a + mid + b, ExitPositions(exits, kind, |a|), t) == a + after + b
  {
    ExitPositionsAreJumps(a, mid, b, exits, kind);
    var p := PatchAll(a + mid + b, ExitPositions(exits, kind, |a|), t);
    forall k | 0 <= k < |p|
      ensures p[k] == (a + after + b)[k]
    {
      PatchExitsAt(a, mid, b, exits, kind, t, after, k);
    }
  }

  /** Resolving the breaks of a body's unpatched exit jumps. */
  lemma {:induction false} BreaksPatched(a: seq<Instr>, exits: seq<Exit>, b: seq<Instr>, t1: nat)
    ensures JumpsAt(a + ExitJumps(|exits|) + b, ExitPositions(exits, Break, |a|)) &&
      PatchAll(a + ExitJumps(|exits|) + b, ExitPositions(exits, Break, |a|), t1) == a + BreaksResolved(exits, t1) + b
  {
    PatchExits(a, ExitJumps(|exits|), b, exits, Break, t1, BreaksResolved(exits, t1));
  }

  /** Resolving the continues once the breaks are resolved gives BodyExits. */
  lemma {:induction false} ContinuesPatched(a: seq<Instr>, exits: seq<Exit>, b: seq<Instr>, t1: nat, t2: nat)
    ensures JumpsAt(a + BreaksResolved(exits, t1) + b, ExitPositions(exits, Continue, |a|)) &&
      PatchAll(a + BreaksResolved(exits, t1) + b, ExitPositions(exits, Continue, |a|), t2) ==
        a + BodyExits(exits, t1, t2) + b
  {
    var mid := BreaksResolved(exits, t1);
    var after := BodyExits(exits, t1, t2);
    forall j | 0 <= j < |mid|
      ensures IsJump(mid[j]) && after[j] == if exits[j] == Continue then Retarget(mid[j], t2) else mid[j]
    {
    }
    PatchExits(a, mid, b, exits, Continue, t2, after);
  }

  /** The iterator test's jump, the sixth instruction of the set-up, is the one its patch retargets. */
  lemma {:induction false} SetupPatched(w: seq<Instr>, s: ForOfStatement, r: Register, init: JumpTarget, tail: seq<Instr>)
    ensures var c := w + SetupCode(s, r, Unpatched) + tail;
      |w| + 5 < |c| && c[|w| + 5] == JumpIfFalse(r + 3, Unpatched) &&
      c[|w| + 5 := JumpIfFalse(r + 3, init)] == w + SetupCode(s, r, init) + tail
  {
    ConcatIndex(w, SetupCode(s, r, Unpatched), tail, |w| + 5);
    UpdateConcat(w, SetupCode(s, r, Unpatched), tail, 5, JumpIfFalse(r + 3, init));
    assert SetupCode(s, r, Unpatched)[5 := JumpIfFalse(r + 3, init)] == SetupCode(s, r, init);
  }

  /** The `done` test's jump, the fourth instruction of the step, is the one its patch retargets. */
  lemma {:induction false} StepPatched(w: seq<Instr>, s: ForOfStatement, r: Register, exit: JumpTarget, tail: seq<Instr>)
    ensures var c := w + StepCode(s, r, Unpatched) + tail;
      |w| + 3 < |c| && c[|w| + 3] == JumpIfTrue(r + 3, Unpatched) &&
      c[|w| + 3 := JumpIfTrue(r + 3, exit)] == w + StepCode(s, r, exit) + tail
  {
    ConcatIndex(w, StepCode(s, r, Unpatched), tail, |w| + 3);
    UpdateConcat(w, StepCode(s, r, Unpatched), tail, 3, JumpIfTrue(r + 3, exit));
    assert StepCode(s, r, Unpatched)[3 := JumpIfTrue(r + 3, exit)] == StepCode(s, r, exit);
  }

  /** ForOfCode after `prefix`, grouped as the patches leave it. */
  lemma {:induction false} ForOfCodeGrouped(prefix: seq<Instr>, s: ForOfStatement, r: Register)
    ensures var p0 := |prefix|;
      prefix + ForOfCode(s, r, p0) ==
        prefix + DeclarationCode(s) + SetupCode(s, r, At(InitPos(s, p0))) + StepCode(s, r, At(ExitPos(s, p0))) +
        ([Execute(s.body.id)] + BodyExits(s.body.exits, LoopEnd(s, p0), CondPos(s, p0)) + [Jump(At(CondPos(s, p0)))]) +
        [Jump(At(ExitPos(s, p0)))]
  {
    var p0 := |prefix|;
    assert [Jump(At(CondPos(s, p0))), Jump(At(ExitPos(s, p0)))] == [Jump(At(CondPos(s, p0)))] + [Jump(At(ExitPos(s, p0)))];
    Regroup(prefix, DeclarationCode(s), SetupCode(s, r, At(InitPos(s, p0))), StepCode(s, r, At(ExitPos(s, p0))),
      [Execute(s.body.id)], BodyExits(s.body.exits, LoopEnd(s, p0), CondPos(s, p0)),
      [Jump(At(CondPos(s, p0)))], [Jump(At(ExitPos(s, p0)))]);
  }

  /** Concatenation is associative, for the eight pieces of a for-of loop's code. */
  lemma {:induction false} Regroup<T>(p: seq<T>, d: seq<T>, a: seq<T>, b: seq<T>, e: seq<T>, x: seq<T>, j1: seq<T>, j2: seq<T>)
    ensures p + (d + a + b + e + x + (j1 + j2)) == p + d + a + b + (e + x + j1) + j2
  {
  }


  /** Replacing element `j` of the middle piece of three. */
  lemma {:induction false} UpdateConcat<T>(u: seq<T>, m: seq<T>, v: seq<T>, j: nat, x: T)
    requires j < |m|
    ensures (u + m + v)[|u| + j := x] == u + m[j := x] + v
  {
    var l := (u + m + v)[|u| + j := x];
    var rr := u + m[j := x] + v;
    forall k | 0 <= k < |l|
      ensures l[k] == rr[k]
    {
      ConcatIndex(u, m, v, k);
      ConcatIndex(u, m[j := x], v, k);
    }
  }

  /** The code before the body's exit jumps, for a loop whose code begins after `prefix`. */
  function CodeBeforeExits(prefix: seq<Instr>, s: ForOfStatement, r: Register): (c: seq<Instr>)
    ensures |c| == SetupStart(s, |prefix|) + 16
  {
    prefix + DeclarationCode(s) + SetupCode(s, r, Unpatched) + StepCode(s, r, Unpatched) + [Execute(s.body.id)]
  }

  /**
   * After the body, lines 127-133: the jump back to condPos, then the
   * body's breaks resolved to the position after it and its continues to
   * condPos.
   */
  method ResolveExits(cb: ByteCodeBlock, ctx: GenerateContext, s: ForOfStatement, ghost prefix: seq<Instr>,
                      ghost r: Register, condPos: nat)
    requires cb.code == CodeBeforeExits(prefix, s, r) + ExitJumps(|s.body.exits|)
    requires ctx.breakPositions == ExitPositions(s.body.exits, Break, SetupStart(s, |prefix|) + 16)
    requires ctx.continuePositions == ExitPositions(s.body.exits, Continue, SetupStart(s, |prefix|) + 16)
    requires condPos == CondPos(s, |prefix|)
    modifies cb, ctx
    ensures cb.code == CodeBeforeExits(prefix, s, r) + BodyExits(s.body.exits, LoopEnd(s, |prefix|), condPos) +
      [Jump(At(condPos))]
    ensures ctx.positionToContinue == condPos && ctx.breakPositions == [] && ctx.continuePositions == []
    ensures ctx.feCounter == old(ctx.feCounter) && ctx.canSkipCopyToRegister == old(ctx.canSkipCopyToRegister)
    ensures cb.literalData == old(cb.literalData) && cb.requiredRegisterFileSize == old(cb.requiredRegisterFileSize)
  {
    var forOfEnd := ResolveBodyExits(cb, ctx, CodeBeforeExits(prefix, s, r), s.body.exits, condPos);
    assert forOfEnd == LoopEnd(s, |prefix|);
    ctx.positionToContinue := condPos;
  }

  /**
   * Lines 127-132 for a body whose exit jumps follow `a`: the jump back
   * to condPos, then the breaks patched to the position after it and the
   * continues to condPos.
   */
  method ResolveBodyExits(cb: ByteCodeBlock, ctx: GenerateContext, ghost a: seq<Instr>, ghost exits: seq<Exit>,
                          condPos: nat) returns (forOfEnd: nat)
    requires cb.code == a + ExitJumps(|exits|)
    requires ctx.breakPositions == ExitPositions(exits, Break, |a|)
    requires ctx.continuePositions == ExitPositions(exits, Continue, |a|)
    modifies cb, ctx
    ensures forOfEnd == |a| + |exits| + 1
    ensures cb.code == a + BodyExits(exits, forOfEnd, condPos) + [Jump(At(condPos))]
    ensures ctx.breakPositions == [] && ctx.continuePositions == []
    ensures ctx.positionToContinue == old(ctx.positionToContinue)
    ensures ctx.feCounter == old(ctx.feCounter) && ctx.canSkipCopyToRegister == old(ctx.canSkipCopyToRegister)
    ensures cb.literalData == old(cb.literalData) && cb.requiredRegisterFileSize == old(cb.requiredRegisterFileSize)
  {
    cb.PushCode(Jump(At(condPos)));
    forOfEnd := cb.CurrentCodeSize();
    assert cb.code == a + ExitJumps(|exits|) + [Jump(At(condPos))];
    BreaksPatched(a, exits, [Jump(At(condPos))], forOfEnd);
    ctx.ConsumeBreakPositions(cb, forOfEnd);
    ContinuesPatched(a, exits, [Jump(At(condPos))], forOfEnd, condPos);
    ctx.ConsumeContinuePositions(cb, condPos);
  }

  /** Lines 141-147: the jump out, and the iterator test's, the `done` test's and that jump's targets set. */
  method PatchLoopJumps(cb: ByteCodeBlock, s: ForOfStatement, ghost prefix: seq<Instr>, ghost r: Register,
                        condPos: nat, jumpInitPos: nat, initPos: nat, jumpExitPos: nat)
    requires cb.code == CodeBeforeExits(prefix, s, r) + BodyExits(s.body.exits, LoopEnd(s, |prefix|), condPos) +
      [Jump(At(condPos))]
    requires condPos == CondPos(s, |prefix|) && initPos == InitPos(s, |prefix|)
    requires jumpInitPos == SetupStart(s, |prefix|) + 5 && jumpExitPos == condPos + 3
    modifies cb
    ensures cb.code == prefix + ForOfCode(s, r, |prefix|)
    ensures cb.literalData == old(cb.literalData) && cb.requiredRegisterFileSize == old(cb.requiredRegisterFileSize)
  {
    LoopCodeGrouped(prefix, s, r);
    PatchIteratorJumps(cb, s, prefix + DeclarationCode(s), r,
      [Execute(s.body.id)] + BodyExits(s.body.exits, LoopEnd(s, |prefix|), condPos) + [Jump(At(condPos))],
      jumpInitPos, initPos, jumpExitPos);
    ForOfCodeGrouped(prefix, s, r);
  }

  /** The code before the three patches, grouped as PatchIteratorJumps takes it. */
  lemma {:induction false} LoopCodeGrouped(prefix: seq<Instr>, s: ForOfStatement, r: Register)
    ensures var p0 := |prefix|;
      var rest := [Execute(s.body.id)] + BodyExits(s.body.exits, LoopEnd(s, p0), CondPos(s, p0)) + [Jump(At(CondPos(s, p0)))];
      var c := CodeBeforeExits(prefix, s, r) + BodyExits(s.body.exits, LoopEnd(s, p0), CondPos(s, p0)) + [Jump(At(CondPos(s, p0)))];
      c == prefix + DeclarationCode(s) + SetupCode(s, r, Unpatched) + StepCode(s, r, Unpatched) + rest &&
      |c| + 1 == ExitPos(s, p0)
  {
    var p0 := |prefix|;
    var x := prefix + DeclarationCode(s) + SetupCode(s, r, Unpatched) + StepCode(s, r, Unpatched);
    var e := BodyExits(s.body.exits, LoopEnd(s, p0), CondPos(s, p0));
    assert CodeBeforeExits(prefix, s, r) == x + [Execute(s.body.id)];
    AppendAssociative(x + [Execute(s.body.id)], e, [Jump(At(CondPos(s, p0)))]);
    AppendAssociative(x, [Execute(s.body.id)], e + [Jump(At(CondPos(s, p0)))]);
    AppendAssociative([Execute(s.body.id)], e, [Jump(At(CondPos(s, p0)))]);
  }

  /** Lines 141-147 on the code as pieces: the exit jump is pushed, then each of the three jumps is patched. */
  method PatchIteratorJumps(cb: ByteCodeBlock, s: ForOfStatement, ghost w: seq<Instr>, ghost r: Register, ghost rest: seq<Instr>,
                            jumpInitPos: nat, initPos: nat, jumpExitPos: nat)
    requires cb.code == w + SetupCode(s, r, Unpatched) + StepCode(s, r, Unpatched) + rest
    requires jumpInitPos == |w| + 5 && jumpExitPos == |w| + |SetupCode(s, r, Unpatched)| + 3
    modifies cb
    ensures var exitPos := |old(cb.code)| + 1;
      cb.code == w + SetupCode(s, r, At(initPos)) + StepCode(s, r, At(exitPos)) + rest + [Jump(At(exitPos))]
    ensures cb.literalData == old(cb.literalData) && cb.requiredRegisterFileSize == old(cb.requiredRegisterFileSize)
  {
    cb.PushCode(Jump(Unpatched));
    var jPos := |cb.code| - 1;
    var exitPos := cb.CurrentCodeSize();
    SetupPatched(w, s, r, At(initPos), StepCode(s, r, Unpatched) + rest + [Jump(Unpatched)]);
    cb.PatchJump(jumpInitPos, initPos);
    ghost var su := SetupCode(s, r, At(initPos));
    assert cb.code == (w + su) + StepCode(s, r, Unpatched) + (rest + [Jump(Unpatched)]);
    StepPatched(w + su, s, r, At(exitPos), rest + [Jump(Unpatched)]);
    cb.PatchJump(jumpExitPos, exitPos);
    ghost var st := StepCode(s, r, At(exitPos));
    assert cb.code == (w + su + st + rest) + [Jump(Unpatched)];
    cb.PatchJump(jPos, cb.CurrentCodeSize());
  }

  /**
   * Lines 52-108, everything before the body: the reserved register, the
   * declaration, the iterator set up and one step; the reserved register,
   * the right-hand side's and the iterator's stay held.
   */
  method GenerateLoopHead(cb: ByteCodeBlock, ctx: GenerateContext, s: ForOfStatement)
    returns (rightIdx: Register, condPos: nat, jumpInitPos: nat, initPos: nat, jumpExitPos: nat)
    requires !ctx.canSkipCopyToRegister
    modifies cb, ctx.registers
    ensures rightIdx == old(ctx.registers.NextFree()) + 1
    ensures cb.code == old(cb.code) + DeclarationCode(s) + SetupCode(s, rightIdx, Unpatched) + StepCode(s, rightIdx, Unpatched)
    ensures condPos == CondPos(s, |old(cb.code)|) && initPos == InitPos(s, |old(cb.code)|)
    ensures jumpInitPos == SetupStart(s, |old(cb.code)|) + 5 && jumpExitPos == condPos + 3
    ensures ctx.registers.stack == old(ctx.registers.stack) + [rightIdx - 1] + [rightIdx, rightIdx + 1]
    ensures cb.literalData == old(cb.literalData) && cb.requiredRegisterFileSize == old(cb.requiredRegisterFileSize)
  {
    var first := ctx.GetRegister();
    if s.leftIsDeclaration {
      cb.PushCode(Execute(s.left.id));
    }
    assert cb.code == old(cb.code) + DeclarationCode(s);
    var iteratorIdx;
    rightIdx, iteratorIdx, jumpInitPos, initPos := GenerateIteratorSetup(cb, ctx, s);
    condPos, jumpExitPos := GenerateIteratorStep(cb, ctx, s, rightIdx, iteratorIdx);
  }

  /**
   * Lines 113-147, the body and everything after it: the body generated,
   * its three registers given up, the register file grown, its exits
   * resolved and the loop's own jumps set.
   */
  method GenerateLoopRest(cb: ByteCodeBlock, ctx: GenerateContext, s: ForOfStatement, ghost prefix: seq<Instr>,
                          rightIdx: Register, condPos: nat, jumpInitPos: nat, initPos: nat, jumpExitPos: nat)
    requires cb.code == prefix + DeclarationCode(s) + SetupCode(s, rightIdx, Unpatched) + StepCode(s, rightIdx, Unpatched)
    requires ctx.breakPositions == [] && ctx.continuePositions == []
    requires |ctx.registers.stack| >= 3
    requires condPos == CondPos(s, |prefix|) && initPos == InitPos(s, |prefix|)
    requires jumpInitPos == SetupStart(s, |prefix|) + 5 && jumpExitPos == condPos + 3
    modifies cb, ctx, ctx.registers
    ensures cb.code == prefix + ForOfCode(s, rightIdx, |prefix|)
    ensures ctx.registers.stack == old(ctx.registers.stack)[..|old(ctx.registers.stack)| - 3]
    ensures cb.requiredRegisterFileSize == old(cb.requiredRegisterFileSize) + 1
    ensures cb.literalData == old(cb.literalData) && ctx.feCounter == old(ctx.feCounter)
  {
    GenerateStatement(cb, ctx, s.body);
    assert CodeBeforeExits(prefix, s, rightIdx) == prefix + DeclarationCode(s) +
      SetupCode(s, rightIdx, Unpatched) + StepCode(s, rightIdx, Unpatched) + [Execute(s.body.id)];
    assert ctx.breakPositions == ExitPositions(s.body.exits, Break, SetupStart(s, |prefix|) + 16);
    assert ctx.continuePositions == ExitPositions(s.body.exits, Continue, SetupStart(s, |prefix|) + 16);
    GiveUpRegisters(ctx, 3);
    cb.GrowRegisterFile();
    ResolveExits(cb, ctx, s, prefix, rightIdx, condPos);
    PatchLoopJumps(cb, s, prefix, rightIdx, condPos, jumpInitPos, initPos, jumpExitPos);
  }

  /**
   * ForOfStatementNode::generateStatementByteCode.  The loop's code is
   * ForOfCode, with the right-hand side in the register above the one
   * reserved first; the register stack ends as it began, the copy flag
   * is restored, and the register file grows by one.
   */
  method GenerateForOf(cb: ByteCodeBlock, ctx: GenerateContext, s: ForOfStatement)
    modifies cb, ctx, ctx.registers
    ensures cb.code == old(cb.code) + ForOfCode(s, old(ctx.registers.NextFree()) + 1, |old(cb.code)|)
    ensures ctx.registers.stack == old(ctx.registers.stack)
    ensures cb.requiredRegisterFileSize == old(cb.requiredRegisterFileSize) + 1
    ensures cb.literalData == old(cb.literalData)
    ensures ctx.canSkipCopyToRegister == old(ctx.canSkipCopyToRegister) && ctx.feCounter == old(ctx.feCounter)
    ensures ctx.inCallingExpressionScope == old(ctx.inCallingExpressionScope)
    ensures ctx.isHeadOfMemberExpression == old(ctx.isHeadOfMemberExpression)
    ensures ctx.breakPositions == old(ctx.breakPositions) && ctx.continuePositions == old(ctx.continuePositions)
    ensures ctx.positionToContinue == old(ctx.positionToContinue)
  {
    var canSkipCopyToRegisterBefore := ctx.canSkipCopyToRegister;
    ctx.canSkipCopyToRegister := false;
    var newContext := new GenerateContext.Copy(ctx);
    var rightIdx, condPos, jumpInitPos, initPos, jumpExitPos := GenerateLoopHead(cb, newContext, s);
    ctx.canSkipCopyToRegister := canSkipCopyToRegisterBefore;
    GenerateLoopRest(cb, newContext, s, old(cb.code), rightIdx, condPos, jumpInitPos, initPos, jumpExitPos);
    newContext.PropagateInformationTo(ctx);
  }
}
