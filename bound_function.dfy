// The code block of a bound function (Function.prototype.bind) and the
// call it forwards, as CodeBlock.cpp builds them: the bound function's
// parameter count, the copied bound arguments, and functionBindImpl's
// merge of bound and called arguments with the choice of receiver.

module BoundFunctions {
  import opened JsValues

  /** The bound function's `length`: the target's parameter count less the bound arguments, never below zero. */
  function BoundParameterCount(targetLength: nat, boundArgc: nat): (r: nat)
    ensures r <= targetLength
    ensures r + boundArgc >= targetLength
    ensures r == 0 || r + boundArgc == targetLength
  {
    if targetLength > boundArgc then targetLength - boundArgc else 0
  }

  /** Binding `a` arguments and then `b` more leaves the arity binding `a + b` at once leaves. */
  lemma {:induction false} NestedBoundParameterCount(targetLength: nat, a: nat, b: nat)
    ensures BoundParameterCount(BoundParameterCount(targetLength, a), b) == BoundParameterCount(targetLength, a + b)
  {}

  /**
   * The arguments the target receives: argument `i` is bound argument `i`
   * for the first `|bound|` positions and called argument `i - |bound|` after.
   */
  function MergedArguments(bound: seq<Value>, called: seq<Value>): (r: seq<Value>)
    ensures |r| == |bound| + |called|
    ensures forall i :: 0 <= i < |bound| ==> r[i] == bound[i]
    ensures forall i :: |bound| <= i < |r| ==> r[i] == called[i - |bound|]
  {
    bound + called
  }

  /** Calling a function bound twice hands its target the first bound arguments, then the second, then the called ones. */
  lemma {:induction false} NestedMergedArguments(first: seq<Value>, second: seq<Value>, called: seq<Value>)
    ensures MergedArguments(first, MergedArguments(second, called)) == MergedArguments(first + second, called)
  {}

  /** CallBoundFunctionData: the target, the bound receiver and the copied bound arguments. */
  class CallBoundFunctionData {
    const target: ObjectId
    const boundThis: Value
    const boundArguments: array<Value>

    constructor (target: ObjectId, boundThis: Value, boundArguments: array<Value>)
      ensures this.target == target && this.boundThis == boundThis && this.boundArguments == boundArguments
    {
      this.target := target;
      this.boundThis := boundThis;
      this.boundArguments := boundArguments;
    }
  }

  /** Copies `argv` into a new buffer of exactly its length, element by element. */
  method CopyArguments(argv: seq<Value>) returns (a: array<Value>)
    ensures fresh(a) && a[..] == argv
  {
    a := new Value[|argv|](_ => Undefined);
    var i := 0;
    while i < |argv|
      invariant 0 <= i <= |argv|
      invariant a[..i] == argv[..i]
      modifies a
    {
      a[i] := argv[i];
      i := i + 1;
    }
    assert a[..] == a[..|argv|];
  }

  /** The flag defaults the bound-function constructor sets that differ from an interpreted block's. */
  datatype BoundFlags = BoundFlags(
    hasCallNativeFunctionCode: bool,
    isBindedFunction: bool,
    isConstructor: bool,
    isStrict: bool,
    usesArgumentsObject: bool,
    canUseIndexedVariableStorage: bool,
    canAllocateEnvironmentOnStack: bool)

  /** The code block CodeBlock's bound-function constructor makes for `target`. */
  class BoundCodeBlock {
    const flags: BoundFlags
    const parameterCount: nat
    const data: CallBoundFunctionData

    constructor (targetParameterCount: nat, target: ObjectId, boundThis: Value, boundArgv: seq<Value>)
      ensures parameterCount == BoundParameterCount(targetParameterCount, |boundArgv|)
      ensures flags == BoundFlags(true, true, false, false, false, true, true)
      ensures fresh(data) && fresh(data.boundArguments)
      ensures data.target == target && data.boundThis == boundThis && data.boundArguments[..] == boundArgv
    {
      var copied := CopyArguments(boundArgv);
      var d := new CallBoundFunctionData(target, boundThis, copied);
      flags := BoundFlags(true, true, false, false, false, true, true);
      parameterCount := BoundParameterCount(targetParameterCount, |boundArgv|);
      data := d;
    }
  }

  /** The call functionBindImpl makes: callee, receiver and argument buffer. */
  datatype ForwardedCall = ForwardedCall(callee: ObjectId, receiver: Value, arguments: seq<Value>)

  /**
   * functionBindImpl invoked with `thisValue` and `calledArgv`: the bound
   * arguments, then the called ones, go to the target, with the bound
   * receiver for a call and `thisValue` for `new`.
   */
  method ForwardCall(data: CallBoundFunctionData, thisValue: Value, calledArgv: seq<Value>, isNew: bool) returns (c: ForwardedCall)
    ensures c.callee == data.target
    ensures c.receiver == if isNew then thisValue else data.boundThis
    ensures c.arguments == MergedArguments(data.boundArguments[..], calledArgv)
  {
    var bound := data.boundArguments;
    var merged := new Value[bound.Length + |calledArgv|](_ => Undefined);
    var i := 0;
    while i < bound.Length
      invariant 0 <= i <= bound.Length
      invariant merged[..i] == bound[..i]
      modifies merged
    {
      merged[i] := bound[i];
      i := i + 1;
    }
    var j := 0;
    while j < |calledArgv|
      invariant 0 <= j <= |calledArgv|
      invariant merged[..bound.Length] == bound[..]
      invariant merged[bound.Length..bound.Length + j] == calledArgv[..j]
      modifies merged
    {
      merged[bound.Length + j] := calledArgv[j];
      j := j + 1;
    }
    assert merged[..] == merged[..bound.Length] + merged[bound.Length..bound.Length + |calledArgv|];
    var receiver := if isNew then thisValue else data.boundThis;
    c := ForwardedCall(data.target, receiver, merged[..]);
  }
}
