// MethodDefinitionNode: its name and static flag, and its code
// generation, which picks the code block of the m_feCounter-th function
// expression among the current block's children, names it, marks it as
// in a with scope where needed, and creates the function.

module MethodDefinitions {
  import opened ByteCode

  /** PropertyNode::Kind for class members. */
  datatype MethodKind = Init | Get | Set | Constructor

  datatype KeyLiteral = Int32Literal(n: int) | StringLiteral(s: string) | OtherLiteral

  datatype PropertyKey = IdentifierKey(name: string) | LiteralKey(literal: KeyLiteral) | OtherKey

  class MethodDefinition {
    const id: NodeId
    const key: PropertyKey
    const kind: MethodKind
    const isStaticMethod: bool
    var name: Option<string>

    constructor (id: NodeId, key: PropertyKey, kind: MethodKind, isStatic: bool)
      ensures this.id == id && this.key == key && this.kind == kind && isStaticMethod == isStatic
      ensures name == None
    {
      this.id := id;
      this.key := key;
      this.kind := kind;
      isStaticMethod := isStatic;
      name := None;
    }

    /** isStatic: the flag the constructor was given. */
    function IsStatic(): (r: bool)
      ensures r == isStaticMethod
    {
      isStaticMethod
    }

    function Name(): (r: Option<string>)
      reads this
      ensures r == name
    {
      name
    }

    method SetName(n: Option<string>)
      modifies this
      ensures name == n && Name() == n
    {
      name := n;
    }
  }

  /** How many of `blocks` are function expressions. */
  function CountFunctionExpressions(blocks: seq<ChildBlock>): (r: nat)
    ensures r <= |blocks|
  {
    if blocks == [] then 0
    else CountFunctionExpressions(blocks[..|blocks| - 1]) + (if blocks[|blocks| - 1].isFunctionExpression then 1 else 0)
  }

  /** `blocks[i]` is a function expression with exactly `n` function expressions before it. */
  predicate IsNthFunctionExpression(blocks: seq<ChildBlock>, n: nat, i: nat)
  {
    i < |blocks| && blocks[i].isFunctionExpression && CountFunctionExpressions(blocks[..i]) == n
  }

  /** A longer prefix holds at least as many function expressions. */
  lemma {:induction false} CountMonotone(blocks: seq<ChildBlock>, i: nat, j: nat)
    requires i <= j <= |blocks|
    ensures CountFunctionExpressions(blocks[..i]) <= CountFunctionExpressions(blocks[..j])
    decreases j - i
  {
    if i < j {
      CountMonotone(blocks, i, j - 1);
      assert blocks[..j][..j - 1] == blocks[..j - 1];
    }
  }

  /** Past the `n`-th function expression, a prefix holds more than `n` of them. */
  lemma {:induction false} CountPastNth(blocks: seq<ChildBlock>, n: nat, i: nat, j: nat)
    requires IsNthFunctionExpression(blocks, n, i) && j <= |blocks|
    ensures i < j ==> CountFunctionExpressions(blocks[..j]) > n
  {
    if i < j {
      assert blocks[..i + 1][..i] == blocks[..i];
      CountMonotone(blocks, i + 1, j);
    }
  }

  /** At most one position is the `n`-th function expression. */
  lemma {:induction false} NthFunctionExpressionUnique(blocks: seq<ChildBlock>, n: nat, i: nat, j: nat)
    requires IsNthFunctionExpression(blocks, n, i) && IsNthFunctionExpression(blocks, n, j)
    ensures i == j
  {
    CountPastNth(blocks, n, i, j);
    CountPastNth(blocks, n, j, i);
  }

  /** The position of the `n`-th (0-based) function expression; it exists exactly when there are more than `n`. */
  function NthFunctionExpression(blocks: seq<ChildBlock>, n: nat): (r: nat)
    requires n < CountFunctionExpressions(blocks)
    ensures IsNthFunctionExpression(blocks, n, r)
  {
    var last := |blocks| - 1;
    if n < CountFunctionExpressions(blocks[..last]) then
      var r := NthFunctionExpression(blocks[..last], n);
      assert blocks[..last][..r] == blocks[..r];
      r
    else
      assert blocks[..last] == blocks[..last][..last];
      last
  }

  /** Only a block with more than `n` function-expression children has an `n`-th one. */
  lemma {:induction false} NthFunctionExpressionExists(blocks: seq<ChildBlock>, n: nat, i: nat)
    requires IsNthFunctionExpression(blocks, n, i)
    ensures n < CountFunctionExpressions(blocks)
  {
    CountMonotone(blocks, i + 1, |blocks|);
    assert blocks[..i + 1][..i] == blocks[..i];
    assert blocks[..|blocks|] == blocks;
  }

  /** No child block appears twice. */
  predicate DistinctBlocks(blocks: seq<ChildBlock>)
  {
    forall i, k :: 0 <= i < |blocks| && 0 <= k < |blocks| && i != k ==> blocks[i] != blocks[k]
  }

  /** `blocks[i]` is one of the function expressions numbered `from` to `from + n - 1`. */
  predicate AmongFunctionExpressions(blocks: seq<ChildBlock>, i: nat, from: nat, n: nat)
  {
    i < |blocks| && blocks[i].isFunctionExpression && from <= CountFunctionExpressions(blocks[..i]) < from + n
  }

  /** Function expressions with different numbers are different child blocks. */
  lemma NthBlocksDiffer(blocks: seq<ChildBlock>, a: nat, b: nat)
    requires DistinctBlocks(blocks) && a < CountFunctionExpressions(blocks) && b < CountFunctionExpressions(blocks)
    requires a != b
    ensures blocks[NthFunctionExpression(blocks, a)] != blocks[NthFunctionExpression(blocks, b)]
  {
    assert IsNthFunctionExpression(blocks, a, NthFunctionExpression(blocks, a));
    assert IsNthFunctionExpression(blocks, b, NthFunctionExpression(blocks, b));
  }

  /** A block outside the numbers `from` to `from + n` is not the `(from + n)`-th function expression. */
  lemma OutsideBlockDiffers(blocks: seq<ChildBlock>, i: nat, from: nat, n: nat)
    requires DistinctBlocks(blocks) && from + n < CountFunctionExpressions(blocks)
    requires i < |blocks| && !AmongFunctionExpressions(blocks, i, from, n + 1)
    ensures blocks[i] != blocks[NthFunctionExpression(blocks, from + n)]
  {
    assert IsNthFunctionExpression(blocks, from + n, NthFunctionExpression(blocks, from + n));
  }

  /** The search loop over childBlocks, counting function expressions until the `n`-th. */
  method FindFunctionExpression(blocks: seq<ChildBlock>, n: nat) returns (index: nat)
    requires n < CountFunctionExpressions(blocks)
    ensures IsNthFunctionExpression(blocks, n, index)
    ensures index == NthFunctionExpression(blocks, n)
  {
    assert blocks[..|blocks|] == blocks;
    var cnt := 0;
    var i := 0;
    while i < |blocks|
      invariant 0 <= i <= |blocks|
      invariant cnt == CountFunctionExpressions(blocks[..i]) && cnt <= n
    {
      assert blocks[..i + 1][..i] == blocks[..i];
      if blocks[i].isFunctionExpression {
        if cnt == n {
          index := i;
          NthFunctionExpressionUnique(blocks, n, index, NthFunctionExpression(blocks, n));
          return;
        }
        cnt := cnt + 1;
      }
      i := i + 1;
    }
    assert false;
  }

  /**
   * MethodDefinitionNode::generateExpressionByteCode into `dst`.  The
   * source asserts that the chosen child block exists.
   */
  method GenerateMethodDefinition(cb: ByteCodeBlock, ctx: GenerateContext, m: MethodDefinition, dst: Register)
    requires ctx.feCounter < CountFunctionExpressions(ctx.childBlocks)
    modifies cb, ctx, ctx.childBlocks[NthFunctionExpression(ctx.childBlocks, ctx.feCounter)]
    ensures var i := NthFunctionExpression(ctx.childBlocks, old(ctx.feCounter));
      var blk := ctx.childBlocks[i];
      cb.code == old(cb.code) + [CreateFunction(dst, i)] &&
      blk.functionName == (if m.name.Some? then m.name else old(blk.functionName)) &&
      blk.inWithScope == (old(blk.inWithScope) || (ctx.isWithScope && !ctx.isEvalCode))
    ensures ctx.feCounter == old(ctx.feCounter) + 1
    ensures cb.literalData == old(cb.literalData) && cb.requiredRegisterFileSize == old(cb.requiredRegisterFileSize)
    ensures ctx.canSkipCopyToRegister == old(ctx.canSkipCopyToRegister)
    ensures ctx.inCallingExpressionScope == old(ctx.inCallingExpressionScope)
    ensures ctx.isHeadOfMemberExpression == old(ctx.isHeadOfMemberExpression)
    ensures ctx.breakPositions == old(ctx.breakPositions) && ctx.continuePositions == old(ctx.continuePositions)
    ensures ctx.positionToContinue == old(ctx.positionToContinue)
  {
    var i := FindFunctionExpression(ctx.childBlocks, ctx.feCounter);
    var blk := ctx.childBlocks[i];
    if m.name.Some? {
      blk.SetFunctionName(m.name.value);
    }
    if ctx.isWithScope && !ctx.isEvalCode {
      blk.SetInWithScope();
    }
    cb.PushCode(CreateFunction(dst, i));
    ctx.feCounter := ctx.feCounter + 1;
  }
}
