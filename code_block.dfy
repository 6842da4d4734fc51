/**
 * Variable-storage layout of one function or program scope
 * (InterpretedCodeBlock in src/parser/CodeBlock.cpp).
 *
 * A code block owns an ordered list of identifier records and an ordered
 * list of parameter records.  The capture methods edit those lists in
 * place while the parser discovers closures, `this`, `arguments` and
 * `eval`; ComputeVariables then hands out stack and heap slots.
 */
module CodeBlocks {

  type Name = string

  const THIS_NAME: Name := "this"
  const ARGUMENTS_NAME: Name := "arguments"

  /** size_t's largest value, used as "no slot assigned yet". */
  const SIZE_MAX: nat := 0xFFFF_FFFF_FFFF_FFFF
  /** The parameter index a non-indexed scope gives every parameter. */
  const INT32_MAX: int := 0x7FFF_FFFF
  /**
   * Stands for the value obtained by reading `computedNameIndex` past its
   * end (undefined behaviour in C++).  It lies outside the int32 range, so
   * it is never a real slot.
   */
  const OUT_OF_BOUNDS_READ: int := INT32_MAX + 1

  datatype IdentifierInfo = IdentifierInfo(
    name: Name,
    needToAllocateOnStack: bool,
    isMutable: bool,
    isExplicitlyDeclaredOrParameterName: bool,
    indexForIndexedStorage: nat)

  datatype ParameterInfo = ParameterInfo(
    name: Name,
    isDuplicated: bool,
    isHeapAllocated: bool,
    index: int)

  /** One name the scope analyser found in a scope. */
  datatype InnerIdentifier = InnerIdentifier(name: Name, isExplicitlyDeclaredOrParameterName: bool)

  /** The CodeBlockInitFlag bits, one boolean each. */
  datatype InitFlags = InitFlags(
    hasEval: bool, hasWith: bool, hasCatch: bool, hasYield: bool,
    inCatch: bool, inWith: bool,
    isFunctionDeclaration: bool, isFunctionDeclarationWithSpecialBinding: bool,
    isFunctionExpression: bool, isArrowFunctionExpression: bool,
    isSimpleParameterList: bool, isDefaultConstructor: bool)

  // ---------------------------------------------------------------------
  // Searches over the record lists
  // ---------------------------------------------------------------------

  predicate HasName(ids: seq<IdentifierInfo>, n: Name)
  {
    exists i :: 0 <= i < |ids| && ids[i].name == n
  }

  predicate HasParameterNamed(params: seq<ParameterInfo>, n: Name)
  {
    exists i :: 0 <= i < |params| && params[i].name == n
  }

  lemma {:induction false} HasNameExtend(ids: seq<IdentifierInfo>, i: nat, n: Name)
    requires i < |ids|
    ensures HasName(ids[..i + 1], n) <==> HasName(ids[..i], n) || ids[i].name == n
  {
    assert forall m :: 0 <= m < i ==> ids[..i + 1][m] == ids[..i][m];
    assert ids[..i + 1][i] == ids[i];
  }

  /** Position of the first identifier named `n`; `|ids|` when there is none (findName). */
  function FirstIndexOf(ids: seq<IdentifierInfo>, n: Name): (r: nat)
    ensures r <= |ids|
    ensures r < |ids| ==> ids[r].name == n
    ensures forall j :: 0 <= j < r ==> ids[j].name != n
  {
    if ids == [] then 0
    else if ids[0].name == n then 0
    else 1 + FirstIndexOf(ids[1..], n)
  }

  /** Position of the first identifier named `n` that is not explicitly declared; `|ids|` when there is none. */
  function FirstImplicitIndexOf(ids: seq<IdentifierInfo>, n: Name): (r: nat)
    ensures r <= |ids|
    ensures r < |ids| ==> ids[r].name == n && !ids[r].isExplicitlyDeclaredOrParameterName
    ensures forall j :: 0 <= j < r ==> !(ids[j].name == n && !ids[j].isExplicitlyDeclaredOrParameterName)
  {
    if ids == [] then 0
    else if ids[0].name == n && !ids[0].isExplicitlyDeclaredOrParameterName then 0
    else 1 + FirstImplicitIndexOf(ids[1..], n)
  }

  /** Both lists carry the same parameter names in the same order. */
  predicate SameParamNames(a: seq<ParameterInfo>, b: seq<ParameterInfo>)
  {
    |a| == |b| && forall i :: 0 <= i < |a| ==> a[i].name == b[i].name
  }

  /** Position of the first `(name, slot)` pair recorded for `n`; `|computed|` when there is none. */
  function FirstComputed(computed: seq<(Name, int)>, n: Name): (r: nat)
    ensures r <= |computed|
    ensures r < |computed| ==> computed[r].0 == n
    ensures forall j :: 0 <= j < r ==> computed[j].0 != n
  {
    if computed == [] then 0
    else if computed[0].0 == n then 0
    else 1 + FirstComputed(computed[1..], n)
  }

  /** Overwriting the first unprocessed element moves it to the processed part. */
  lemma {:induction false} UpdateAtBoundary<T>(done: seq<T>, rest: seq<T>, x: T)
    requires rest != []
    ensures (done + rest)[|done| := x] == (done + [x]) + rest[1..]
  {
  }

  /** Marks identifier `k`, when there is one, heap-resident. */
  function MoveToHeap(ids: seq<IdentifierInfo>, k: nat): seq<IdentifierInfo>
  {
    if k < |ids| then ids[k := ids[k].(needToAllocateOnStack := false)] else ids
  }

  /** Both lists carry the same names in the same order. */
  predicate SameNames(a: seq<IdentifierInfo>, b: seq<IdentifierInfo>)
  {
    |a| == |b| && forall i :: 0 <= i < |a| ==> a[i].name == b[i].name
  }

  lemma {:induction false} FirstIndexOfSameNames(a: seq<IdentifierInfo>, b: seq<IdentifierInfo>, n: Name)
    requires SameNames(a, b)
    ensures FirstIndexOf(a, n) == FirstIndexOf(b, n)
  {
    if a != [] && a[0].name != n {
      FirstIndexOfSameNames(a[1..], b[1..], n);
    }
  }

  // ---------------------------------------------------------------------
  // Construction
  // ---------------------------------------------------------------------

  /** The record the constructors make for one name the scope analyser found. */
  function InitialIdentifier(inner: InnerIdentifier, onStack: bool): IdentifierInfo
  {
    IdentifierInfo(inner.name, onStack, true, inner.isExplicitlyDeclaredOrParameterName, SIZE_MAX)
  }

  function InitialIdentifiers(inner: seq<InnerIdentifier>, onStack: bool): (r: seq<IdentifierInfo>)
    ensures |r| == |inner|
    ensures forall i :: 0 <= i < |r| ==>
      r[i].name == inner[i].name && r[i].needToAllocateOnStack == onStack && r[i].isMutable &&
      r[i].isExplicitlyDeclaredOrParameterName == inner[i].isExplicitlyDeclaredOrParameterName &&
      r[i].indexForIndexedStorage == SIZE_MAX
  {
    seq(|inner|, i requires 0 <= i < |inner| => InitialIdentifier(inner[i], onStack))
  }

  /**
   * A parameter record as the function constructor leaves it: named, not
   * duplicated.  Its heap flag and index are left uninitialised there and
   * are false and 0 here; ComputeVariables overwrites both.
   */
  function InitialParameters(names: seq<Name>): (r: seq<ParameterInfo>)
    ensures |r| == |names|
    ensures forall i :: 0 <= i < |r| ==> r[i].name == names[i] && !r[i].isDuplicated
  {
    seq(|names|, i requires 0 <= i < |names| => ParameterInfo(names[i], false, false, 0))
  }

  /** A program block keeps eval/with/catch/yield bits and has none of the function-only ones. */
  function ProgramFlags(flags: InitFlags): (r: InitFlags)
    ensures r.hasEval == flags.hasEval && r.hasWith == flags.hasWith && r.hasCatch == flags.hasCatch
    ensures r.hasYield == flags.hasYield && r.inCatch == flags.inCatch && r.inWith == flags.inWith
    ensures !r.isFunctionDeclaration && !r.isFunctionDeclarationWithSpecialBinding && !r.isFunctionExpression
    ensures !r.isArrowFunctionExpression && !r.isSimpleParameterList && !r.isDefaultConstructor
  {
    flags.(isFunctionDeclaration := false, isFunctionDeclarationWithSpecialBinding := false,
           isFunctionExpression := false, isArrowFunctionExpression := false,
           isSimpleParameterList := false, isDefaultConstructor := false)
  }

  /** `canUseIndexedVariableStorage` as the function constructor decides it. */
  function IndexedStorageAllowed(flags: InitFlags): (r: bool)
    ensures r <==> !flags.hasEval && !flags.hasWith && !flags.hasYield && !flags.inCatch && !flags.inWith
  {
    var allowed := !(flags.hasEval || flags.hasWith || flags.hasYield) && !flags.inCatch;
    if flags.inWith then false else allowed
  }

  /** The constructors' loop over the names the scope analyser found. */
  method BuildIdentifierRecords(innerIdentifiers: seq<InnerIdentifier>, onStack: bool) returns (infos: seq<IdentifierInfo>)
    ensures infos == InitialIdentifiers(innerIdentifiers, onStack)
  {
    infos := [];
    var i := 0;
    while i < |innerIdentifiers|
      invariant 0 <= i <= |innerIdentifiers| && |infos| == i
      invariant forall j :: 0 <= j < i ==> infos[j] == InitialIdentifier(innerIdentifiers[j], onStack)
    {
      infos := infos + [IdentifierInfo(innerIdentifiers[i].name, onStack, true,
                                       innerIdentifiers[i].isExplicitlyDeclaredOrParameterName, SIZE_MAX)];
      i := i + 1;
    }
  }

  /** The function constructor's loop over the parameter names. */
  method BuildParameterRecords(parameterNames: seq<Name>) returns (params: seq<ParameterInfo>)
    ensures params == InitialParameters(parameterNames)
  {
    params := [];
    var i := 0;
    while i < |parameterNames|
      invariant 0 <= i <= |parameterNames| && |params| == i
      invariant forall j :: 0 <= j < i ==> params[j] == ParameterInfo(parameterNames[j], false, false, 0)
    {
      params := params + [ParameterInfo(parameterNames[i], false, false, 0)];
      i := i + 1;
    }
  }

  // ---------------------------------------------------------------------
  // captureArguments
  // ---------------------------------------------------------------------

  /** The record captureArguments appends; its explicit flag is uninitialised in C++ and false here. */
  const ARGUMENTS_RECORD: IdentifierInfo := IdentifierInfo(ARGUMENTS_NAME, true, true, false, SIZE_MAX)

  /** For each parameter in turn, the first identifier bearing its name becomes heap-resident. */
  function ReleaseParameterSlots(ids: seq<IdentifierInfo>, params: seq<ParameterInfo>): (r: seq<IdentifierInfo>)
    ensures SameNames(r, ids)
    decreases |params|
  {
    if params == [] then ids
    else
      var prev := ReleaseParameterSlots(ids, params[..|params| - 1]);
      MoveToHeap(prev, FirstIndexOf(prev, params[|params| - 1].name))
  }

  /** Identifier `k` is the first one bearing the name of some parameter. */
  predicate IsFirstForSomeParameter(ids: seq<IdentifierInfo>, params: seq<ParameterInfo>, k: nat)
  {
    exists j :: 0 <= j < |params| && FirstIndexOf(ids, params[j].name) == k
  }

  /**
   * Releasing the parameters' slots changes exactly the identifiers that
   * are the first bearer of some parameter's name, and only their stack flag.
   */
  lemma {:induction false} ReleaseParameterSlotsEffect(ids: seq<IdentifierInfo>, params: seq<ParameterInfo>)
    ensures var r := ReleaseParameterSlots(ids, params);
      |r| == |ids| &&
      forall k :: 0 <= k < |ids| ==>
        r[k] == if IsFirstForSomeParameter(ids, params, k) then ids[k].(needToAllocateOnStack := false) else ids[k]
    decreases |params|
  {
    if params != [] {
      var init := params[..|params| - 1];
      var last := params[|params| - 1];
      ReleaseParameterSlotsEffect(ids, init);
      var prev := ReleaseParameterSlots(ids, init);
      FirstIndexOfSameNames(prev, ids, last.name);
      var r := ReleaseParameterSlots(ids, params);
      forall k | 0 <= k < |ids|
        ensures r[k] == if IsFirstForSomeParameter(ids, params, k) then ids[k].(needToAllocateOnStack := false) else ids[k]
      {
        if IsFirstForSomeParameter(ids, params, k) {
          var j :| 0 <= j < |params| && FirstIndexOf(ids, params[j].name) == k;
          if j < |params| - 1 {
            assert init[j] == params[j];
            assert IsFirstForSomeParameter(ids, init, k);
          }
        } else {
          forall j | 0 <= j < |init|
            ensures FirstIndexOf(ids, init[j].name) != k
          {
            assert init[j] == params[j];
          }
          assert !IsFirstForSomeParameter(ids, init, k);
          assert FirstIndexOf(ids, last.name) != k;
        }
      }
    }
  }

  // ---------------------------------------------------------------------
  // computeVariables: the function-name binding
  // ---------------------------------------------------------------------

  /**
   * The identifier list and complex-copy flag after the function-name
   * step: a function expression's own implicit name binding becomes
   * immutable, and a clash of the function's name with that binding or
   * with a parameter forces a complex parameter copy.
   */
  function FunctionNameBinding(ids: seq<IdentifierInfo>, params: seq<ParameterInfo>, functionName: Name,
                               isFunctionExpression: bool, complex: bool): (r: (seq<IdentifierInfo>, bool))
  {
    if |functionName| == 0 then (ids, complex)
    else
      var k := FirstImplicitIndexOf(ids, functionName);
      var bound := isFunctionExpression && k < |ids|;
      (if bound then ids[k := ids[k].(isMutable := false)] else ids,
       complex || bound || HasParameterNamed(params, functionName))
  }

  /**
   * A named function expression with an implicit binding of its own name
   * makes exactly that binding immutable, leaves every other record alone
   * and forces a complex parameter copy.
   */
  lemma {:induction false} FunctionExpressionNameIsImmutable(ids: seq<IdentifierInfo>, params: seq<ParameterInfo>, functionName: Name, complex: bool, k: nat)
    requires |functionName| > 0
    requires k < |ids| && ids[k].name == functionName && !ids[k].isExplicitlyDeclaredOrParameterName
    requires forall j :: 0 <= j < k ==> !(ids[j].name == functionName && !ids[j].isExplicitlyDeclaredOrParameterName)
    ensures var r := FunctionNameBinding(ids, params, functionName, true, complex);
      |r.0| == |ids| && !r.0[k].isMutable && r.1 &&
      forall j :: 0 <= j < |ids| && j != k ==> r.0[j] == ids[j]
  {
    if FirstImplicitIndexOf(ids, functionName) < k {
    }
  }

  // ---------------------------------------------------------------------
  // computeVariables: indexed identifier slots
  // ---------------------------------------------------------------------

  /** The running counters of the indexed identifier loop. */
  datatype SlotCounters = SlotCounters(
    stack: nat,
    heap: nat,
    nameExplicitlyDeclared: bool,
    nameSavedOnHeap: bool)

  /** The slot one iteration gives `info`. */
  function SlotFor(c: SlotCounters, info: IdentifierInfo, functionName: Name): nat
  {
    if info.name == functionName then (if info.needToAllocateOnStack then 1 else c.heap)
    else if info.needToAllocateOnStack then c.stack
    else c.heap
  }

  /** The counters after one iteration over `info`. */
  function CountersAfter(c: SlotCounters, info: IdentifierInfo, functionName: Name): SlotCounters
  {
    if info.name == functionName then
      var explicit := c.nameExplicitlyDeclared || info.isExplicitlyDeclaredOrParameterName;
      if !info.needToAllocateOnStack then SlotCounters(c.stack, c.heap + 1, explicit, true)
      else SlotCounters(if explicit then c.stack + 1 else c.stack, c.heap, explicit, c.nameSavedOnHeap)
    else if info.needToAllocateOnStack then c.(stack := c.stack + 1)
    else c.(heap := c.heap + 1)
  }

  /** The counters after the loop has run over `ids`. */
  function IndexedCounters(ids: seq<IdentifierInfo>, functionName: Name, start: SlotCounters): SlotCounters
    decreases |ids|
  {
    if ids == [] then start
    else CountersAfter(IndexedCounters(ids[..|ids| - 1], functionName, start), ids[|ids| - 1], functionName)
  }

  /** The stack slot numbering starts at 1 for the global scope and at 2 for a function. */
  function StartCounters(isGlobal: bool, explicit: bool, onHeap: bool): SlotCounters
  {
    SlotCounters(if isGlobal then 1 else 2, 0, explicit, onHeap)
  }

  /** The records after the indexed loop: record k gets the slot the counters before it dictate. */
  function IndexedIdentifiers(ids: seq<IdentifierInfo>, functionName: Name, start: SlotCounters): (r: seq<IdentifierInfo>)
    ensures |r| == |ids|
  {
    seq(|ids|, k requires 0 <= k < |ids| =>
      ids[k].(indexForIndexedStorage := SlotFor(IndexedCounters(ids[..k], functionName, start), ids[k], functionName)))
  }

  function CountHeap(ids: seq<IdentifierInfo>): (r: nat)
    ensures r <= |ids|
  {
    if ids == [] then 0
    else CountHeap(ids[..|ids| - 1]) + (if ids[|ids| - 1].needToAllocateOnStack then 0 else 1)
  }

  function CountStack(ids: seq<IdentifierInfo>): (r: nat)
    ensures r <= |ids|
  {
    if ids == [] then 0
    else CountStack(ids[..|ids| - 1]) + (if ids[|ids| - 1].needToAllocateOnStack then 1 else 0)
  }

  /** The heap counter counts the heap records; the stack counter never decreases. */
  lemma {:induction false} IndexedCountersGrow(ids: seq<IdentifierInfo>, functionName: Name, start: SlotCounters)
    ensures var c := IndexedCounters(ids, functionName, start);
      c.heap == start.heap + CountHeap(ids) && start.stack <= c.stack
    decreases |ids|
  {
    if ids != [] {
      IndexedCountersGrow(ids[..|ids| - 1], functionName, start);
    }
  }

  /** Over a longer prefix the stack counter is at least as large. */
  lemma {:induction false} IndexedCountersMonotone(ids: seq<IdentifierInfo>, functionName: Name, start: SlotCounters, m: nat)
    requires m <= |ids|
    ensures IndexedCounters(ids[..m], functionName, start).stack <= IndexedCounters(ids, functionName, start).stack
    decreases |ids|
  {
    if m < |ids| {
      var init := ids[..|ids| - 1];
      IndexedCountersMonotone(init, functionName, start, m);
      assert init[..m] == ids[..m];
    } else {
      assert ids[..m] == ids;
    }
  }

  /** Heap records are numbered 0, 1, 2, ... in list order; the heap counter ends at their number. */
  lemma {:induction false} IndexedHeapSlotsDense(ids: seq<IdentifierInfo>, functionName: Name, isGlobal: bool, explicit: bool, onHeap: bool)
    ensures var start := StartCounters(isGlobal, explicit, onHeap);
      var r := IndexedIdentifiers(ids, functionName, start);
      IndexedCounters(ids, functionName, start).heap == CountHeap(ids) &&
      forall k :: 0 <= k < |ids| && !ids[k].needToAllocateOnStack ==> r[k].indexForIndexedStorage == CountHeap(ids[..k])
  {
    var start := StartCounters(isGlobal, explicit, onHeap);
    IndexedCountersGrow(ids, functionName, start);
    forall k | 0 <= k < |ids| && !ids[k].needToAllocateOnStack
      ensures IndexedIdentifiers(ids, functionName, start)[k].indexForIndexedStorage == CountHeap(ids[..k])
    {
      IndexedCountersGrow(ids[..k], functionName, start);
    }
  }

  /**
   * The identifier loop changes only indices, and an on-stack record
   * bearing the function's name always sits in slot 1.
   */
  lemma {:induction false} IndexedIdentifiersShape(ids: seq<IdentifierInfo>, functionName: Name, start: SlotCounters)
    ensures var r := IndexedIdentifiers(ids, functionName, start);
      SameNames(r, ids) &&
      (forall k :: 0 <= k < |ids| ==> r[k] == ids[k].(indexForIndexedStorage := r[k].indexForIndexedStorage)) &&
      (forall k :: 0 <= k < |ids| && ids[k].needToAllocateOnStack && ids[k].name == functionName ==>
        r[k].indexForIndexedStorage == 1)
  {
  }

  /** An on-stack record not bearing the function's name gets a slot in [first stack slot, stack counter). */
  lemma {:induction false} IndexedStackSlotInRange(ids: seq<IdentifierInfo>, functionName: Name, start: SlotCounters, k: nat)
    requires k < |ids| && ids[k].needToAllocateOnStack && ids[k].name != functionName
    ensures start.stack <= IndexedIdentifiers(ids, functionName, start)[k].indexForIndexedStorage
                        < IndexedCounters(ids, functionName, start).stack
  {
    IndexedCountersGrow(ids[..k], functionName, start);
    IndexedCountersMonotone(ids, functionName, start, k + 1);
    assert ids[..k + 1][..k] == ids[..k];
    assert ids[..k + 1][k] == ids[k];
  }

  /**
   * The identifier loop keeps every on-stack record that does not bear the
   * function's name inside [first stack slot, final stack counter).
   */
  lemma {:induction false} IndexedStackSlotsInRange(ids: seq<IdentifierInfo>, functionName: Name, isGlobal: bool, explicit: bool, onHeap: bool)
    ensures var start := StartCounters(isGlobal, explicit, onHeap);
      var r := IndexedIdentifiers(ids, functionName, start);
      forall k :: 0 <= k < |ids| && ids[k].needToAllocateOnStack && ids[k].name != functionName ==>
        start.stack <= r[k].indexForIndexedStorage < IndexedCounters(ids, functionName, start).stack
  {
    var start := StartCounters(isGlobal, explicit, onHeap);
    forall k | 0 <= k < |ids| && ids[k].needToAllocateOnStack && ids[k].name != functionName
      ensures start.stack <= IndexedIdentifiers(ids, functionName, start)[k].indexForIndexedStorage
                          < IndexedCounters(ids, functionName, start).stack
    {
      IndexedStackSlotInRange(ids, functionName, start, k);
    }
  }

  /** Two on-stack records, neither bearing the function's name, get slots increasing in list order. */
  lemma {:induction false} IndexedStackSlotPairOrdered(ids: seq<IdentifierInfo>, functionName: Name, start: SlotCounters, k1: nat, k2: nat)
    requires k1 < k2 < |ids| && ids[k1].needToAllocateOnStack && ids[k1].name != functionName
    ensures IndexedIdentifiers(ids, functionName, start)[k1].indexForIndexedStorage
            < IndexedCounters(ids[..k2], functionName, start).stack
  {
    var p := ids[..k2];
    IndexedCountersMonotone(p, functionName, start, k1 + 1);
    assert p[..k1 + 1] == ids[..k1 + 1];
    assert ids[..k1 + 1][..k1] == ids[..k1];
    assert ids[..k1 + 1][k1] == ids[k1];
  }

  /** Distinct on-stack records other than the function's name never share a slot: slots grow in list order. */
  lemma {:induction false} IndexedStackSlotsOrdered(ids: seq<IdentifierInfo>, functionName: Name, isGlobal: bool, explicit: bool, onHeap: bool)
    ensures var start := StartCounters(isGlobal, explicit, onHeap);
      var r := IndexedIdentifiers(ids, functionName, start);
      forall k1, k2 :: (0 <= k1 < k2 < |ids| && ids[k1].needToAllocateOnStack && ids[k1].name != functionName &&
          ids[k2].needToAllocateOnStack && ids[k2].name != functionName) ==>
          r[k1].indexForIndexedStorage < r[k2].indexForIndexedStorage
  {
    var start := StartCounters(isGlobal, explicit, onHeap);
    var r := IndexedIdentifiers(ids, functionName, start);
    forall k1, k2 | 0 <= k1 < k2 < |ids| && ids[k1].needToAllocateOnStack && ids[k1].name != functionName &&
        ids[k2].needToAllocateOnStack && ids[k2].name != functionName
      ensures r[k1].indexForIndexedStorage < r[k2].indexForIndexedStorage
    {
      IndexedStackSlotPairOrdered(ids, functionName, start, k1, k2);
    }
  }

  /**
   * Without a record bearing the function's name the stack slots are
   * consecutive: an on-stack record sits right after the stack records
   * before it, and the stack counter is the next free slot.
   */
  lemma {:induction false} IndexedStackSlotsConsecutive(ids: seq<IdentifierInfo>, functionName: Name, start: SlotCounters)
    requires !HasName(ids, functionName)
    ensures IndexedCounters(ids, functionName, start).stack == start.stack + CountStack(ids)
    decreases |ids|
  {
    if ids != [] {
      var init := ids[..|ids| - 1];
      assert !HasName(init, functionName) by {
        forall i | 0 <= i < |init| ensures init[i].name != functionName {
          assert init[i] == ids[i];
        }
      }
      IndexedStackSlotsConsecutive(init, functionName, start);
    }
  }

  /**
   * Hence, without a record bearing the function's name, the k-th
   * record, when on the stack, sits in slot first + (stack records before it).
   */
  lemma {:induction false} IndexedStackSlotsNumbered(ids: seq<IdentifierInfo>, functionName: Name, isGlobal: bool, explicit: bool, onHeap: bool)
    requires !HasName(ids, functionName)
    ensures var start := StartCounters(isGlobal, explicit, onHeap);
      var r := IndexedIdentifiers(ids, functionName, start);
      IndexedCounters(ids, functionName, start).stack == start.stack + CountStack(ids) &&
      forall k :: 0 <= k < |ids| && ids[k].needToAllocateOnStack ==>
        r[k].indexForIndexedStorage == start.stack + CountStack(ids[..k])
  {
    var start := StartCounters(isGlobal, explicit, onHeap);
    IndexedStackSlotsConsecutive(ids, functionName, start);
    forall k | 0 <= k < |ids| && ids[k].needToAllocateOnStack
      ensures IndexedIdentifiers(ids, functionName, start)[k].indexForIndexedStorage == start.stack + CountStack(ids[..k])
    {
      assert !HasName(ids[..k], functionName) by {
        forall i | 0 <= i < k ensures ids[..k][i].name != functionName {
          assert ids[..k][i] == ids[i];
        }
      }
      IndexedStackSlotsConsecutive(ids[..k], functionName, start);
    }
  }

  /** One iteration of the identifier loop, read off the specification functions. */
  lemma {:induction false} IndexedLoopStep(orig: seq<IdentifierInfo>, i: nat, functionName: Name, start: SlotCounters)
    requires i < |orig|
    ensures var c := IndexedCounters(orig[..i], functionName, start);
      IndexedCounters(orig[..i + 1], functionName, start) == CountersAfter(c, orig[i], functionName) &&
      IndexedIdentifiers(orig, functionName, start)[i] == orig[i].(indexForIndexedStorage := SlotFor(c, orig[i], functionName))
    ensures HasName(orig[..i + 1], functionName) <==> HasName(orig[..i], functionName) || orig[i].name == functionName
  {
    assert orig[..i + 1][..i] == orig[..i];
    assert orig[..i + 1][i] == orig[i];
    HasNameExtend(orig, i, functionName);
  }

  /**
   * The identifier loop of computeVariables' indexed path, over the
   * identifier list and the flags it updates: every on-stack record gets
   * the next stack slot, every other record the next heap slot, and a
   * record bearing the function's name is special-cased.
   */
  method IndexedIdentifierLoop(orig: seq<IdentifierInfo>, functionName: Name, isGlobal: bool, explicit0: bool, onHeap0: bool, complex0: bool)
    returns (infos: seq<IdentifierInfo>, s: nat, h: nat, explicit: bool, onHeap: bool, complex: bool)
      ensures var start := StartCounters(isGlobal, explicit0, onHeap0);
        infos == IndexedIdentifiers(orig, functionName, start) &&
        SlotCounters(s, h, explicit, onHeap) == IndexedCounters(orig, functionName, start)
      ensures complex == (complex0 || HasName(orig, functionName))
    {
      infos := orig;
      complex := complex0;
      explicit := explicit0;
      onHeap := onHeap0;
      ghost var start := StartCounters(isGlobal, explicit, onHeap);
      ghost var final := IndexedIdentifiers(orig, functionName, start);
      s := if isGlobal then 1 else 2;
      h := 0;
      var i := 0;
      assert orig[..0] == [];
      while i < |infos|
        invariant 0 <= i <= |orig| == |infos|
        invariant forall m :: 0 <= m < i ==> infos[m] == final[m]
        invariant forall m :: i <= m < |infos| ==> infos[m] == orig[m]
        invariant SlotCounters(s, h, explicit, onHeap) == IndexedCounters(orig[..i], functionName, start)
        invariant complex == (complex0 || HasName(orig[..i], functionName))
      {
        IndexedLoopStep(orig, i, functionName, start);
        var info := infos[i];
        if info.name == functionName {
          complex := true;
          if info.isExplicitlyDeclaredOrParameterName {
            explicit := true;
          }
          if !info.needToAllocateOnStack {
            onHeap := true;
            infos := infos[i := info.(indexForIndexedStorage := h)];
            h := h + 1;
          } else {
            if explicit {
              s := s + 1;
            }
            infos := infos[i := info.(indexForIndexedStorage := 1)];
          }
        } else {
          if info.needToAllocateOnStack {
            infos := infos[i := info.(indexForIndexedStorage := s)];
            s := s + 1;
          } else {
            infos := infos[i := info.(indexForIndexedStorage := h)];
            h := h + 1;
          }
        }
        i := i + 1;
      }
      assert orig[..i] == orig;
    }

  // ---------------------------------------------------------------------
  // computeVariables: indexed parameter slots
  // ---------------------------------------------------------------------

  /** A parameter's slot: the identifier's index, less the two reserved stack slots when on the stack. */
  function SlotOf(info: IdentifierInfo): int
  {
    if info.needToAllocateOnStack then info.indexForIndexedStorage - 2 else info.indexForIndexedStorage
  }

  /** Every parameter names an identifier of the scope, as the parser guarantees. */
  predicate ParametersAreIdentifiers(ids: seq<IdentifierInfo>, params: seq<ParameterInfo>)
  {
    forall j :: 0 <= j < |params| ==> HasName(ids, params[j].name)
  }

  /** The identifier record a parameter named `n` refers to (findName). */
  function IdentifierFor(ids: seq<IdentifierInfo>, n: Name): (r: IdentifierInfo)
    requires HasName(ids, n)
    ensures r.name == n
  {
    ids[FirstIndexOf(ids, n)]
  }

  /**
   * The name-to-slot table after the loop has run over `params`: one
   * entry per name other than the function's, at that name's first
   * occurrence, holding that name's slot.
   */
  function SlotTable(ids: seq<IdentifierInfo>, params: seq<ParameterInfo>, functionName: Name): (r: seq<(Name, int)>)
    requires ParametersAreIdentifiers(ids, params)
    ensures |r| <= |params|
    decreases |params|
  {
    if params == [] then []
    else
      var init := params[..|params| - 1];
      var p := params[|params| - 1];
      assert forall j :: 0 <= j < |init| ==> init[j] == params[j];
      var t := SlotTable(ids, init, functionName);
      if p.name == functionName || HasParameterNamed(init, p.name) then t
      else t + [(p.name, SlotOf(IdentifierFor(ids, p.name)))]
  }

  /**
   * The index a repeated parameter receives.  As written, the source
   * reads the table at the slot of the earlier occurrence instead of
   * taking that slot; the intended value is the slot itself.
   */
  function RepeatedParameterIndex(computed: seq<(Name, int)>, computedIndex: int, asWritten: bool): int
  {
    if !asWritten then computedIndex
    else if 0 <= computedIndex < |computed| then computed[computedIndex].1
    else OUT_OF_BOUNDS_READ
  }

  /**
   * Parameter `i` once the loop has run over all of `params`.  It takes
   * its identifier's heap flag; it is marked duplicated when a later
   * parameter repeats its name (the function's own name excepted); its
   * index is -1 for the function's name on the stack, and otherwise the
   * slot, read through the table when the name is repeated.
   */
  function ParameterRecord(ids: seq<IdentifierInfo>, params: seq<ParameterInfo>, functionName: Name,
                           i: nat, asWritten: bool): ParameterInfo
    requires ParametersAreIdentifiers(ids, params) && i < |params|
  {
    var p := params[i];
    var info := IdentifierFor(ids, p.name);
    var isHeap := !info.needToAllocateOnStack;
    var slot := SlotOf(info);
    var repeatedLater := p.name != functionName && HasParameterNamed(params[i + 1..], p.name);
    var index :=
      if p.name == functionName then (if isHeap then slot else -1)
      else if HasParameterNamed(params[..i], p.name) then
        assert forall j :: 0 <= j < i ==> params[..i][j] == params[j];
        RepeatedParameterIndex(SlotTable(ids, params[..i], functionName), slot, asWritten)
      else slot;
    p.(isDuplicated := p.isDuplicated || repeatedLater, isHeapAllocated := isHeap, index := index)
  }

  /** The parameter records after the indexed parameter loop. */
  function ParameterRecords(ids: seq<IdentifierInfo>, params: seq<ParameterInfo>, functionName: Name,
                            asWritten: bool): (r: seq<ParameterInfo>)
    requires ParametersAreIdentifiers(ids, params)
    ensures |r| == |params|
    ensures forall i :: 0 <= i < |params| ==>
      r[i].name == params[i].name &&
      r[i].isHeapAllocated == !IdentifierFor(ids, params[i].name).needToAllocateOnStack &&
      r[i].isDuplicated == (params[i].isDuplicated ||
        (params[i].name != functionName && HasParameterNamed(params[i + 1..], params[i].name)))
  {
    seq(|params|, i requires 0 <= i < |params| => ParameterRecord(ids, params, functionName, i, asWritten))
  }

  /** Parameter `i` forces a complex copy: it is not the function's name and lives on the heap or repeats an earlier name. */
  predicate ForcesComplexCopy(ids: seq<IdentifierInfo>, params: seq<ParameterInfo>, functionName: Name, i: nat)
    requires ParametersAreIdentifiers(ids, params) && i < |params|
  {
    params[i].name != functionName &&
    (!IdentifierFor(ids, params[i].name).needToAllocateOnStack || HasParameterNamed(params[..i], params[i].name))
  }

  predicate ParametersForceComplexCopy(ids: seq<IdentifierInfo>, params: seq<ParameterInfo>, functionName: Name)
    requires ParametersAreIdentifiers(ids, params)
  {
    exists i :: 0 <= i < |params| && ForcesComplexCopy(ids, params, functionName, i)
  }

  lemma {:induction false} ParametersArePrefixIdentifiers(ids: seq<IdentifierInfo>, params: seq<ParameterInfo>, i: nat)
    requires ParametersAreIdentifiers(ids, params) && i <= |params|
    ensures ParametersAreIdentifiers(ids, params[..i])
  {
    assert forall j :: 0 <= j < i ==> params[..i][j] == params[j];
  }

  lemma {:induction false} HasParameterNamedExtend(params: seq<ParameterInfo>, i: nat, n: Name)
    requires i < |params|
    ensures HasParameterNamed(params[..i + 1], n) <==> HasParameterNamed(params[..i], n) || params[i].name == n
  {
    assert forall m :: 0 <= m < i ==> params[..i + 1][m] == params[..i][m];
    assert params[..i + 1][i] == params[i];
  }

  /** Appending to the table keeps earlier first entries and finds the new one. */
  lemma {:induction false} FirstComputedExtend(computed: seq<(Name, int)>, entry: (Name, int), n: Name)
    ensures FirstComputed(computed, n) < |computed| ==> FirstComputed(computed + [entry], n) == FirstComputed(computed, n)
    ensures FirstComputed(computed, n) == |computed| && entry.0 == n ==> FirstComputed(computed + [entry], n) == |computed|
    ensures FirstComputed(computed, n) == |computed| && entry.0 != n ==> FirstComputed(computed + [entry], n) == |computed| + 1
  {
    if computed != [] {
      assert (computed + [entry])[1..] == computed[1..] + [entry];
      if computed[0].0 != n {
        FirstComputedExtend(computed[1..], entry, n);
      }
    }
  }

  /** Extending the list by parameter `i` adds an entry iff its name is new and not the function's. */
  lemma {:induction false} SlotTableExtend(ids: seq<IdentifierInfo>, params: seq<ParameterInfo>, functionName: Name, i: nat)
    requires ParametersAreIdentifiers(ids, params) && i < |params|
    ensures ParametersAreIdentifiers(ids, params[..i]) && ParametersAreIdentifiers(ids, params[..i + 1])
    ensures var t := SlotTable(ids, params[..i], functionName);
      var p := params[i];
      SlotTable(ids, params[..i + 1], functionName) ==
        if p.name == functionName || HasParameterNamed(params[..i], p.name) then t
        else t + [(p.name, SlotOf(IdentifierFor(ids, p.name)))]
  {
    ParametersArePrefixIdentifiers(ids, params, i);
    ParametersArePrefixIdentifiers(ids, params, i + 1);
    assert params[..i + 1][..i] == params[..i];
  }

  /**
   * The table has an entry for `n` iff some parameter other than the
   * function's name bears `n`, and that entry holds `n`'s slot.
   */
  lemma {:induction false} SlotTableLookup(ids: seq<IdentifierInfo>, params: seq<ParameterInfo>, functionName: Name, n: Name)
    requires ParametersAreIdentifiers(ids, params)
    ensures var t := SlotTable(ids, params, functionName);
      var j := FirstComputed(t, n);
      (j < |t| <==> n != functionName && HasParameterNamed(params, n)) &&
      (j < |t| ==> HasName(ids, n) && t[j].1 == SlotOf(IdentifierFor(ids, n)))
    decreases |params|
  {
    if params != [] {
      var k := |params| - 1;
      var init := params[..k];
      var p := params[k];
      ParametersArePrefixIdentifiers(ids, params, k);
      SlotTableLookup(ids, init, functionName, n);
      HasParameterNamedExtend(params, k, n);
      assert params[..k + 1] == params;
      var t := SlotTable(ids, init, functionName);
      if !(p.name == functionName || HasParameterNamed(init, p.name)) {
        FirstComputedExtend(t, (p.name, SlotOf(IdentifierFor(ids, p.name))), n);
      } else if p.name != functionName && p.name == n {
        assert HasParameterNamed(init, n);
      }
    }
  }

  /**
   * The table names each parameter name other than the function's
   * exactly once, in order of first occurrence.
   */
  lemma {:induction false} SlotTableDistinct(ids: seq<IdentifierInfo>, params: seq<ParameterInfo>, functionName: Name)
    requires ParametersAreIdentifiers(ids, params)
    ensures var t := SlotTable(ids, params, functionName);
      forall c1, c2 :: 0 <= c1 < c2 < |t| ==> t[c1].0 != t[c2].0
    decreases |params|
  {
    if params != [] {
      var k := |params| - 1;
      var init := params[..k];
      var p := params[k];
      ParametersArePrefixIdentifiers(ids, params, k);
      SlotTableDistinct(ids, init, functionName);
      var t := SlotTable(ids, init, functionName);
      assert params[..k] == init;
      if !(p.name == functionName || HasParameterNamed(init, p.name)) {
        var t' := t + [(p.name, SlotOf(IdentifierFor(ids, p.name)))];
        assert SlotTable(ids, params, functionName) == t';
        forall c | 0 <= c < |t| ensures t[c].0 != p.name {
          SlotTableLookup(ids, init, functionName, t[c].0);
          FirstComputedIsFirst(t, c);
        }
        forall c1, c2 | 0 <= c1 < c2 < |t'| ensures t'[c1].0 != t'[c2].0 {
          if c2 == |t| {
            assert t'[c1] == t[c1];
          } else {
            assert t'[c1] == t[c1] && t'[c2] == t[c2];
          }
        }
      } else {
        assert SlotTable(ids, params, functionName) == t;
        forall c1, c2 | 0 <= c1 < c2 < |t| ensures t[c1].0 != t[c2].0 {
        }
      }
    }
  }

  /** An entry is found by a lookup of its own name no later than its position. */
  lemma {:induction false} FirstComputedIsFirst(computed: seq<(Name, int)>, c: nat)
    requires c < |computed|
    ensures FirstComputed(computed, computed[c].0) <= c
    decreases c
  {
    if c > 0 && computed[0].0 != computed[c].0 {
      assert computed[1..][c - 1] == computed[c];
      FirstComputedIsFirst(computed[1..], c - 1);
    }
  }

  /** Extending the list by parameter `i` marks every earlier bearer of its name duplicated and changes nothing else. */
  lemma {:induction false} ParameterRecordExtend(ids: seq<IdentifierInfo>, params: seq<ParameterInfo>, functionName: Name,
                              i: nat, m: nat, asWritten: bool)
    requires ParametersAreIdentifiers(ids, params) && m < i < |params|
    ensures ParametersAreIdentifiers(ids, params[..i]) && ParametersAreIdentifiers(ids, params[..i + 1])
    ensures var before := ParameterRecord(ids, params[..i], functionName, m, asWritten);
      ParameterRecord(ids, params[..i + 1], functionName, m, asWritten) ==
        if params[m].name == params[i].name && params[i].name != functionName then before.(isDuplicated := true)
        else before
  {
    ParametersArePrefixIdentifiers(ids, params, i);
    ParametersArePrefixIdentifiers(ids, params, i + 1);
    var a := params[..i + 1];
    var b := params[..i];
    assert a[m] == b[m] == params[m];
    assert a[..m] == b[..m];
    assert a[m + 1..] == b[m + 1..] + [params[i]];
    assert HasParameterNamed(a[m + 1..], params[m].name) <==>
      HasParameterNamed(b[m + 1..], params[m].name) || params[i].name == params[m].name
    by {
      var n := params[m].name;
      if HasParameterNamed(a[m + 1..], n) {
        var j :| 0 <= j < |a[m + 1..]| && a[m + 1..][j].name == n;
        if j < |b[m + 1..]| {
          assert b[m + 1..][j] == a[m + 1..][j];
        }
      }
      if HasParameterNamed(b[m + 1..], n) {
        var j :| 0 <= j < |b[m + 1..]| && b[m + 1..][j].name == n;
        assert a[m + 1..][j] == b[m + 1..][j];
      }
      if params[i].name == n {
        assert a[m + 1..][|b[m + 1..]|] == params[i];
      }
    }
  }

  /** Parameter `i` is the last of the prefix `params[..i + 1]`: nothing after it repeats its name. */
  lemma {:induction false} ParameterRecordLast(ids: seq<IdentifierInfo>, params: seq<ParameterInfo>, functionName: Name, i: nat, asWritten: bool)
    requires ParametersAreIdentifiers(ids, params) && i < |params|
    ensures ParametersAreIdentifiers(ids, params[..i + 1]) && ParametersAreIdentifiers(ids, params[..i])
    ensures var p := params[i];
      var info := IdentifierFor(ids, p.name);
      var isHeap := !info.needToAllocateOnStack;
      var r := ParameterRecord(ids, params[..i + 1], functionName, i, asWritten);
      r.name == p.name && r.isDuplicated == p.isDuplicated && r.isHeapAllocated == isHeap &&
      r.index == (if p.name == functionName then (if isHeap then SlotOf(info) else -1)
                  else if HasParameterNamed(params[..i], p.name) then
                    RepeatedParameterIndex(SlotTable(ids, params[..i], functionName), SlotOf(info), asWritten)
                  else SlotOf(info))
  {
    ParametersArePrefixIdentifiers(ids, params, i);
    ParametersArePrefixIdentifiers(ids, params, i + 1);
    var a := params[..i + 1];
    assert a[i] == params[i] && a[..i] == params[..i] && a[i + 1..] == [];
  }

  /** Over a longer prefix the complex-copy condition grows by the new parameter's own. */
  lemma {:induction false} ForcesComplexCopyExtend(ids: seq<IdentifierInfo>, params: seq<ParameterInfo>, functionName: Name, i: nat)
    requires ParametersAreIdentifiers(ids, params) && i < |params|
    ensures ParametersAreIdentifiers(ids, params[..i]) && ParametersAreIdentifiers(ids, params[..i + 1])
    ensures ParametersForceComplexCopy(ids, params[..i + 1], functionName) <==>
      ParametersForceComplexCopy(ids, params[..i], functionName) || ForcesComplexCopy(ids, params, functionName, i)
  {
    ParametersArePrefixIdentifiers(ids, params, i);
    ParametersArePrefixIdentifiers(ids, params, i + 1);
    var a := params[..i + 1];
    var b := params[..i];
    forall m | 0 <= m <= i
      ensures ForcesComplexCopy(ids, a, functionName, m) == ForcesComplexCopy(ids, params, functionName, m)
    {
      assert a[m] == params[m] && a[..m] == params[..m];
    }
    forall m | 0 <= m < i
      ensures ForcesComplexCopy(ids, b, functionName, m) == ForcesComplexCopy(ids, params, functionName, m)
    {
      assert b[m] == params[m] && b[..m] == params[..m];
    }
  }

  /** Some parameter other than the function's name lives on the heap. */
  predicate HeapParameter(ids: seq<IdentifierInfo>, params: seq<ParameterInfo>, functionName: Name)
    requires ParametersAreIdentifiers(ids, params)
  {
    exists i :: 0 <= i < |params| && params[i].name != functionName && !IdentifierFor(ids, params[i].name).needToAllocateOnStack
  }

  /** Some name other than the function's is borne by two parameters. */
  predicate RepeatedParameter(params: seq<ParameterInfo>, functionName: Name)
  {
    exists i, j :: 0 <= i < j < |params| && params[i].name == params[j].name && params[j].name != functionName
  }

  /**
   * A complex parameter copy is forced iff some parameter other than the
   * function's name lives on the heap or some such name is repeated.
   */
  lemma {:induction false} ComplexCopyCauses(ids: seq<IdentifierInfo>, params: seq<ParameterInfo>, functionName: Name)
    requires ParametersAreIdentifiers(ids, params)
    ensures ParametersForceComplexCopy(ids, params, functionName) <==>
      HeapParameter(ids, params, functionName) || RepeatedParameter(params, functionName)
  {
    if RepeatedParameter(params, functionName) {
      var i, j :| 0 <= i < j < |params| && params[i].name == params[j].name && params[j].name != functionName;
      assert params[..j][i] == params[i];
      assert HasParameterNamed(params[..j], params[j].name);
      assert ForcesComplexCopy(ids, params, functionName, j);
    }
    if HeapParameter(ids, params, functionName) {
      var i :| 0 <= i < |params| && params[i].name != functionName &&
               !IdentifierFor(ids, params[i].name).needToAllocateOnStack;
      assert ForcesComplexCopy(ids, params, functionName, i);
    }
    if ParametersForceComplexCopy(ids, params, functionName) {
      var i :| 0 <= i < |params| && ForcesComplexCopy(ids, params, functionName, i);
      if !IdentifierFor(ids, params[i].name).needToAllocateOnStack {
        assert HeapParameter(ids, params, functionName);
      } else {
        var j :| 0 <= j < i && params[..i][j].name == params[i].name;
        assert params[j] == params[..i][j];
        assert RepeatedParameter(params, functionName);
      }
    }
  }

  /**
   * With the intended reading every parameter other than the function's
   * own name, repeated or not, gets the slot of the identifier it names,
   * so all bearers of a name share one slot.
   */
  lemma {:induction false} ParameterLayoutSlots(ids: seq<IdentifierInfo>, params: seq<ParameterInfo>, functionName: Name)
    requires ParametersAreIdentifiers(ids, params)
    ensures var r := ParameterRecords(ids, params, functionName, false);
      forall i :: 0 <= i < |params| && params[i].name != functionName ==>
        r[i].index == SlotOf(IdentifierFor(ids, params[i].name))
  {
  }

  /**
   * As written, the first bearer of a name gets its slot, and a later
   * bearer gets the table entry at position "slot" -- which is the
   * name's own slot only when that entry happens to hold it.
   */
  lemma {:induction false} ParameterAsWrittenSlots(ids: seq<IdentifierInfo>, params: seq<ParameterInfo>, functionName: Name, i: nat)
    requires ParametersAreIdentifiers(ids, params) && i < |params| && params[i].name != functionName
    ensures ParametersAreIdentifiers(ids, params[..i])
    ensures var r := ParameterRecords(ids, params, functionName, true);
      var slot := SlotOf(IdentifierFor(ids, params[i].name));
      var t := SlotTable(ids, params[..i], functionName);
      (!HasParameterNamed(params[..i], params[i].name) ==> r[i].index == slot) &&
      (HasParameterNamed(params[..i], params[i].name) ==>
        (r[i].index == slot <==> (0 <= slot < |t| && t[slot].1 == slot) || (!(0 <= slot < |t|) && slot == OUT_OF_BOUNDS_READ)))
  {
    ParametersArePrefixIdentifiers(ids, params, i);
  }

  /** The scope `function f(a, b, c, c)` whose `a` is captured by a closure. */
  function RepeatedParameterScope(): seq<IdentifierInfo>
  {
    [IdentifierInfo("a", false, true, true, SIZE_MAX),
     IdentifierInfo("b", true, true, true, SIZE_MAX),
     IdentifierInfo("c", true, true, true, SIZE_MAX)]
  }

  function RepeatedParameters(): seq<ParameterInfo>
  {
    [ParameterInfo("a", false, false, 0), ParameterInfo("b", false, false, 0),
     ParameterInfo("c", false, false, 0), ParameterInfo("c", false, false, 0)]
  }

  /** The scope after the identifier loop: `a` in heap slot 0, `b` and `c` in stack slots 2 and 3. */
  function RepeatedParameterSlots(): seq<IdentifierInfo>
  {
    [IdentifierInfo("a", false, true, true, 0), IdentifierInfo("b", true, true, true, 2),
     IdentifierInfo("c", true, true, true, 3)]
  }

  /** The identifier loop gives that scope the slots above. */
  lemma {:induction false} RepeatedParameterScopeSlots()
    ensures IndexedIdentifiers(RepeatedParameterScope(), "f", StartCounters(false, false, false)) ==
      RepeatedParameterSlots()
  {
    var scope := RepeatedParameterScope();
    var start := StartCounters(false, false, false);
    assert scope[..1][..0] == [];
    assert scope[..2][..1] == scope[..1];
    assert IndexedCounters(scope[..0], "f", start) == start;
    assert IndexedCounters(scope[..1], "f", start) == SlotCounters(2, 1, false, false);
    assert IndexedCounters(scope[..2], "f", start) == SlotCounters(3, 1, false, false);
  }

  /** The parameters name identifiers of the scope; the table after the first `c` holds its slot 1 at position 2. */
  lemma {:induction false} RepeatedParameterTable()
    ensures ParametersAreIdentifiers(RepeatedParameterSlots(), RepeatedParameters())
    ensures ParametersAreIdentifiers(RepeatedParameterSlots(), RepeatedParameters()[..3])
    ensures SlotTable(RepeatedParameterSlots(), RepeatedParameters()[..3], "f") == [("a", 0), ("b", 0), ("c", 1)]
    ensures IdentifierFor(RepeatedParameterSlots(), "c") == RepeatedParameterSlots()[2]
  {
    var ids := RepeatedParameterSlots();
    var params := RepeatedParameters();
    assert ids[1..][1..] == [ids[2]];
    assert FirstIndexOf(ids, "a") == 0;
    assert FirstIndexOf(ids[1..], "b") == 0;
    assert FirstIndexOf(ids[1..][1..], "c") == 0;
    assert FirstIndexOf(ids, "c") == 2;
    assert ParametersAreIdentifiers(ids, params) by {
      assert ids[0].name == params[0].name && ids[1].name == params[1].name;
      assert ids[2].name == params[2].name && ids[2].name == params[3].name;
    }
    var p3 := params[..3];
    assert p3[..2] == params[..2] && params[..2][..1] == params[..1] && params[..1][..0] == [];
    assert SlotTable(ids, params[..1], "f") == [("a", 0)];
    assert SlotTable(ids, params[..2], "f") == [("a", 0), ("b", 0)];
  }

  /**
   * As written, the second `c` of `function f(a, b, c, c)` with `a`
   * captured receives slot 0 (the slot of `b`) instead of slot 1, the slot
   * of `c`: the table is read at position 1, the slot of the first `c`.
   * The intended reading gives both `c`s slot 1.
   */
  lemma {:induction false} RepeatedParameterGetsWrongSlot()
    ensures ParametersAreIdentifiers(RepeatedParameterSlots(), RepeatedParameters())
    ensures var written := ParameterRecords(RepeatedParameterSlots(), RepeatedParameters(), "f", true);
      var intended := ParameterRecords(RepeatedParameterSlots(), RepeatedParameters(), "f", false);
      written[2].index == 1 && written[3].index == 0 && intended[3].index == 1
  {
    RepeatedParameterTable();
    var ids := RepeatedParameterSlots();
    var params := RepeatedParameters();
    assert HasParameterNamed(params[..3], "c") by {
      assert params[..3][2].name == "c";
    }
    assert !HasParameterNamed(params[..2], "c");
    assert ParameterRecords(ids, params, "f", true)[3] == ParameterRecord(ids, params, "f", 3, true);
    assert ParameterRecords(ids, params, "f", true)[2] == ParameterRecord(ids, params, "f", 2, true);
    assert ParameterRecords(ids, params, "f", false)[3] == ParameterRecord(ids, params, "f", 3, false);
  }

  /** A parameter that repeats no earlier name, or bears the function's name, leaves the earlier records as they are. */
  lemma {:induction false} EarlierRecordsKept(ids: seq<IdentifierInfo>, orig: seq<ParameterInfo>, functionName: Name, i: nat,
                           ps: seq<ParameterInfo>)
    requires ParametersAreIdentifiers(ids, orig) && i < |orig| && i <= |ps|
    requires ParametersAreIdentifiers(ids, orig[..i])
    requires forall m :: 0 <= m < i ==> ps[m] == ParameterRecord(ids, orig[..i], functionName, m, false)
    requires orig[i].name == functionName || !HasParameterNamed(orig[..i], orig[i].name)
    ensures ParametersAreIdentifiers(ids, orig[..i + 1])
    ensures forall m :: 0 <= m < i ==> ps[m] == ParameterRecord(ids, orig[..i + 1], functionName, m, false)
  {
    forall m | 0 <= m < i
      ensures ps[m] == ParameterRecord(ids, orig[..i + 1], functionName, m, false)
    {
      ParameterRecordExtend(ids, orig, functionName, i, m, false);
      if orig[m].name == orig[i].name {
        assert orig[..i][m] == orig[m];
      }
    }
  }

  /**
   * A parameter that repeats an earlier name: marking the closest earlier
   * bearer `k` duplicated brings every earlier record up to date, since
   * the bearers before `k` are marked already.
   */
  lemma {:induction false} EarlierBearerMarked(ids: seq<IdentifierInfo>, orig: seq<ParameterInfo>, functionName: Name, i: nat,
                            ps: seq<ParameterInfo>, k: nat)
    requires ParametersAreIdentifiers(ids, orig) && i < |orig| && i <= |ps|
    requires ParametersAreIdentifiers(ids, orig[..i])
    requires forall m :: 0 <= m < i ==> ps[m] == ParameterRecord(ids, orig[..i], functionName, m, false)
    requires orig[i].name != functionName
    requires k < i && ps[k].name == orig[i].name && forall m :: k < m < i ==> ps[m].name != orig[i].name
    ensures ParametersAreIdentifiers(ids, orig[..i + 1])
    ensures var marked := ps[k := ps[k].(isDuplicated := true)];
      forall m :: 0 <= m < i ==> marked[m] == ParameterRecord(ids, orig[..i + 1], functionName, m, false)
  {
    var marked := ps[k := ps[k].(isDuplicated := true)];
    forall m | 0 <= m < i
      ensures marked[m] == ParameterRecord(ids, orig[..i + 1], functionName, m, false)
    {
      ParameterRecordExtend(ids, orig, functionName, i, m, false);
      assert orig[..i][m] == orig[m];
      if m < k && orig[m].name == orig[i].name {
        assert orig[..i][k] == orig[k];
        assert orig[..i][m + 1..][k - m - 1] == orig[k];
      }
    }
  }

  /** The search of the name-to-slot table for `name`. */
  method FindComputedName(computedNameIndex: seq<(Name, int)>, name: Name) returns (computed: bool, computedIndex: int)
    ensures var j := FirstComputed(computedNameIndex, name);
      computed == (j < |computedNameIndex|) &&
      computedIndex == (if computed then computedNameIndex[j].1 else SIZE_MAX)
  {
    computed := false;
    computedIndex := SIZE_MAX;
    var j := 0;
    while j < |computedNameIndex|
      invariant 0 <= j <= |computedNameIndex|
      invariant forall m :: 0 <= m < j ==> computedNameIndex[m].0 != name
    {
      if computedNameIndex[j].0 == name {
        computed := true;
        computedIndex := computedNameIndex[j].1;
        return;
      }
      j := j + 1;
    }
  }

  /**
   * The backward search for the closest parameter before `i` bearing
   * `name`; the records before `i` carry the names of `orig`, one of which
   * is `name`.
   */
  method FindPreviousBearer(params: seq<ParameterInfo>, orig: seq<ParameterInfo>, i: nat, name: Name) returns (k: nat)
    requires i <= |params| && i <= |orig| && HasParameterNamed(orig[..i], name)
    requires forall m :: 0 <= m < i ==> params[m].name == orig[m].name
    ensures k < i && params[k].name == name
    ensures forall m :: k < m < i ==> params[m].name != name
  {
    ghost var m0 :| 0 <= m0 < i && orig[..i][m0].name == name;
    assert params[m0].name == name;
    k := i - 1;
    while params[k].name != name
      invariant m0 <= k < i
      invariant forall m :: k < m < i ==> params[m].name != name
      decreases k
    {
      k := k - 1;
    }
  }


  /**
   * The parameter loop of computeVariables' indexed path, over the
   * parameter list and the complex-copy flag it updates, with the
   * name-to-slot table `computedNameIndex` it builds as it goes.
   */
  method IndexedParameterLoop(ids: seq<IdentifierInfo>, orig: seq<ParameterInfo>, functionName: Name, complex0: bool)
    returns (params: seq<ParameterInfo>, complex: bool)
    requires ParametersAreIdentifiers(ids, orig)
    ensures params == ParameterRecords(ids, orig, functionName, false)
    ensures complex == (complex0 || ParametersForceComplexCopy(ids, orig, functionName))
  {
    params := orig;
    complex := complex0;
    var computedNameIndex: seq<(Name, int)> := [];
    var siz := |params|;
    var i := 0;
    assert orig[..0] == [];
    while i < siz
      invariant 0 <= i <= siz == |orig| == |params|
      invariant ParametersAreIdentifiers(ids, orig[..i])
      invariant forall m :: 0 <= m < i ==> params[m] == ParameterRecord(ids, orig[..i], functionName, m, false)
      invariant forall m :: i <= m < siz ==> params[m] == orig[m]
      invariant computedNameIndex == SlotTable(ids, orig[..i], functionName)
      invariant complex == (complex0 || ParametersForceComplexCopy(ids, orig[..i], functionName))
    {
      ForcesComplexCopyExtend(ids, orig, functionName, i);
      params, computedNameIndex, complex := IndexedParameterStep(ids, orig, functionName, i, params, computedNameIndex, complex);
      i := i + 1;
    }
    assert orig[..i] == orig;
  }

  /** One iteration of the indexed parameter loop, on parameter `i`. */
  method IndexedParameterStep(ids: seq<IdentifierInfo>, orig: seq<ParameterInfo>, functionName: Name, i: nat,
                              params0: seq<ParameterInfo>, computedNameIndex0: seq<(Name, int)>, complex0: bool)
    returns (params: seq<ParameterInfo>, computedNameIndex: seq<(Name, int)>, complex: bool)
    requires ParametersAreIdentifiers(ids, orig) && i < |orig| == |params0|
    requires ParametersAreIdentifiers(ids, orig[..i])
    requires forall m :: 0 <= m < i ==> params0[m] == ParameterRecord(ids, orig[..i], functionName, m, false)
    requires forall m :: i <= m < |orig| ==> params0[m] == orig[m]
    requires computedNameIndex0 == SlotTable(ids, orig[..i], functionName)
    ensures ParametersAreIdentifiers(ids, orig[..i + 1]) && |params| == |orig|
    ensures forall m :: 0 <= m < i + 1 ==> params[m] == ParameterRecord(ids, orig[..i + 1], functionName, m, false)
    ensures forall m :: i + 1 <= m < |orig| ==> params[m] == orig[m]
    ensures computedNameIndex == SlotTable(ids, orig[..i + 1], functionName)
    ensures complex == (complex0 || ForcesComplexCopy(ids, orig, functionName, i))
  {
    var name := params0[i].name;
    var idIndex := FirstIndexOf(ids, name);
    var isHeap := !ids[idIndex].needToAllocateOnStack;
    var indexInIdInfo: int := ids[idIndex].indexForIndexedStorage;
    if !isHeap {
      indexInIdInfo := indexInIdInfo - 2;
    }
    params := params0[i := params0[i].(isHeapAllocated := isHeap)];
    if name == functionName {
      ParameterRecordLast(ids, orig, functionName, i, false);
      SlotTableExtend(ids, orig, functionName, i);
      if ids[idIndex].needToAllocateOnStack {
        params := params[i := params[i].(index := -1, isHeapAllocated := false)];
      } else {
        params := params[i := params[i].(index := indexInIdInfo, isHeapAllocated := true)];
      }
      EarlierRecordsKept(ids, orig, functionName, i, params0);
      computedNameIndex := computedNameIndex0;
      complex := complex0;
    } else {
      params, computedNameIndex, complex :=
        NamedParameterStep(ids, orig, functionName, i, params0, params, computedNameIndex0, complex0, isHeap, indexInIdInfo);
    }
  }

  /** The rest of that iteration for a parameter not bearing the function's name: the lookup in the slot table. */
  method NamedParameterStep(ids: seq<IdentifierInfo>, orig: seq<ParameterInfo>, functionName: Name, i: nat,
                            params0: seq<ParameterInfo>, params1: seq<ParameterInfo>,
                            computedNameIndex0: seq<(Name, int)>, complex0: bool, isHeap: bool, indexInIdInfo: int)
    returns (params: seq<ParameterInfo>, computedNameIndex: seq<(Name, int)>, complex: bool)
    requires ParametersAreIdentifiers(ids, orig) && i < |orig| == |params0|
    requires ParametersAreIdentifiers(ids, orig[..i]) && orig[i].name != functionName
    requires forall m :: 0 <= m < i ==> params0[m] == ParameterRecord(ids, orig[..i], functionName, m, false)
    requires forall m :: i <= m < |orig| ==> params0[m] == orig[m]
    requires computedNameIndex0 == SlotTable(ids, orig[..i], functionName)
    requires isHeap == !IdentifierFor(ids, orig[i].name).needToAllocateOnStack
    requires indexInIdInfo == SlotOf(IdentifierFor(ids, orig[i].name))
    requires params1 == params0[i := params0[i].(isHeapAllocated := isHeap)]
    ensures ParametersAreIdentifiers(ids, orig[..i + 1]) && |params| == |orig|
    ensures forall m :: 0 <= m < i + 1 ==> params[m] == ParameterRecord(ids, orig[..i + 1], functionName, m, false)
    ensures forall m :: i + 1 <= m < |orig| ==> params[m] == orig[m]
    ensures computedNameIndex == SlotTable(ids, orig[..i + 1], functionName)
    ensures complex == (complex0 || ForcesComplexCopy(ids, orig, functionName, i))
  {
    params := params1;
    computedNameIndex := computedNameIndex0;
    complex := complex0;
    var name := orig[i].name;
    ParameterRecordLast(ids, orig, functionName, i, false);
    SlotTableLookup(ids, orig[..i], functionName, name);
    SlotTableExtend(ids, orig, functionName, i);
    assert orig[..i + 1][..i] == orig[..i] && orig[..i + 1][i] == orig[i];
    var computed, computedIndex := FindComputedName(computedNameIndex, name);
    if computed {
      complex := true;
      params := RepeatedParameterStep(ids, orig, functionName, i, params0, params1, computedNameIndex, computedIndex);
    } else {
      if isHeap {
        params := params[i := params[i].(index := indexInIdInfo)];
        complex := true;
        computedNameIndex := computedNameIndex + [(name, indexInIdInfo)];
      } else {
        params := params[i := params[i].(index := indexInIdInfo)];
        computedNameIndex := computedNameIndex + [(name, indexInIdInfo)];
      }
      assert params[i] == ParameterRecord(ids, orig[..i + 1], functionName, i, false);
      assert forall m :: 0 <= m < i ==> params[m] == params0[m];
      EarlierRecordsKept(ids, orig, functionName, i, params0);
    }
  }

  /**
   * The branch of that iteration for a repeated name: the closest earlier
   * bearer is marked duplicated and parameter `i` takes `computedIndex`,
   * the slot the table holds for the name.  This is the corrected
   * assignment; the code as written reads the table once more at position
   * `computedIndex` (RepeatedParameterIndex with `asWritten`).
   */
  method RepeatedParameterStep(ids: seq<IdentifierInfo>, orig: seq<ParameterInfo>, functionName: Name, i: nat,
                               params0: seq<ParameterInfo>, params1: seq<ParameterInfo>,
                               computedNameIndex: seq<(Name, int)>, computedIndex: int)
    returns (params: seq<ParameterInfo>)
    requires ParametersAreIdentifiers(ids, orig) && i < |orig| == |params0|
    requires ParametersAreIdentifiers(ids, orig[..i]) && orig[i].name != functionName
    requires HasParameterNamed(orig[..i], orig[i].name)
    requires forall m :: 0 <= m < i ==> params0[m] == ParameterRecord(ids, orig[..i], functionName, m, false)
    requires forall m :: i <= m < |orig| ==> params0[m] == orig[m]
    requires computedNameIndex == SlotTable(ids, orig[..i], functionName)
    requires computedIndex == SlotOf(IdentifierFor(ids, orig[i].name))
    requires params1 == params0[i := params0[i].(isHeapAllocated := !IdentifierFor(ids, orig[i].name).needToAllocateOnStack)]
    ensures ParametersAreIdentifiers(ids, orig[..i + 1]) && |params| == |orig|
    ensures forall m :: 0 <= m < i + 1 ==> params[m] == ParameterRecord(ids, orig[..i + 1], functionName, m, false)
    ensures forall m :: i + 1 <= m < |orig| ==> params[m] == orig[m]
  {
    var name := orig[i].name;
    ParameterRecordLast(ids, orig, functionName, i, false);
    params := params1;
    assert forall m :: 0 <= m < i ==> params[m] == params0[m];
    var k := FindPreviousBearer(params0, orig, i, name);
    EarlierBearerMarked(ids, orig, functionName, i, params0, k);
    params := params[k := params[k].(isDuplicated := true)];
    assert forall m :: 0 <= m < i ==> params[m] == params0[k := params0[k].(isDuplicated := true)][m];
    params := params[i := params[i].(index := computedIndex)];
  }


  // ---------------------------------------------------------------------
  // computeVariables: non-indexed scopes
  // ---------------------------------------------------------------------

  /** Removes the first record named `n`, if any. */
  function RemoveFirstNamed(ids: seq<IdentifierInfo>, n: Name): (r: seq<IdentifierInfo>)
    ensures HasName(ids, n) ==> |r| == |ids| - 1
    ensures !HasName(ids, n) ==> r == ids
  {
    var k := FirstIndexOf(ids, n);
    if k < |ids| then ids[..k] + ids[k + 1..] else ids
  }

  /** Every record becomes heap-resident, numbered by its position. */
  function HeapIdentifiers(ids: seq<IdentifierInfo>): (r: seq<IdentifierInfo>)
    ensures |r| == |ids|
  {
    seq(|ids|, i requires 0 <= i < |ids| => ids[i].(needToAllocateOnStack := false, indexForIndexedStorage := i))
  }

  function HeapParameters(params: seq<ParameterInfo>): (r: seq<ParameterInfo>)
    ensures |r| == |params|
  {
    seq(|params|, i requires 0 <= i < |params| => params[i].(isHeapAllocated := true, index := INT32_MAX))
  }

  /** Some record bearing `n` is explicitly declared. */
  predicate HasExplicitName(ids: seq<IdentifierInfo>, n: Name)
  {
    exists i :: 0 <= i < |ids| && ids[i].name == n && ids[i].isExplicitlyDeclaredOrParameterName
  }

  lemma {:induction false} HasExplicitNameExtend(ids: seq<IdentifierInfo>, i: nat, n: Name)
    requires i < |ids|
    ensures HasExplicitName(ids[..i + 1], n) <==>
      HasExplicitName(ids[..i], n) || (ids[i].name == n && ids[i].isExplicitlyDeclaredOrParameterName)
  {
    assert forall m :: 0 <= m < i ==> ids[..i + 1][m] == ids[..i][m];
    assert ids[..i + 1][i] == ids[i];
  }

  /** Eval code inside a function erases its first `arguments` record. */
  method RemoveArgumentsRecord(ids: seq<IdentifierInfo>) returns (kept: seq<IdentifierInfo>)
    ensures kept == RemoveFirstNamed(ids, ARGUMENTS_NAME)
  {
    kept := ids;
    var i := 0;
    while i < |kept|
      invariant 0 <= i <= |kept| && kept == ids
      invariant forall m :: 0 <= m < i ==> kept[m].name != ARGUMENTS_NAME
    {
      if kept[i].name == ARGUMENTS_NAME {
        kept := kept[..i] + kept[i + 1..];
        return;
      }
      i := i + 1;
    }
  }

  /** The loop of captureArguments that moves every parameter's identifier to the heap. */
  method ReleaseParameterSlotsLoop(ids: seq<IdentifierInfo>, params: seq<ParameterInfo>)
    returns (infos: seq<IdentifierInfo>)
    ensures infos == ReleaseParameterSlots(ids, params)
  {
    infos := ids;
    var j := 0;
    while j < |params|
      invariant 0 <= j <= |params|
      invariant infos == ReleaseParameterSlots(ids, params[..j])
    {
      assert params[..j + 1][..j] == params[..j];
      var k := 0;
      while k < |infos| && infos[k].name != params[j].name
        invariant 0 <= k <= |infos|
        invariant forall m :: 0 <= m < k ==> infos[m].name != params[j].name
      {
        k := k + 1;
      }
      assert k == FirstIndexOf(infos, params[j].name);
      if k < |infos| {
        infos := infos[k := infos[k].(needToAllocateOnStack := false)];
      }
      j := j + 1;
    }
    assert params[..j] == params;
  }

  /** The identifier loop of the non-indexed path. */
  method HeapIdentifierLoop(kept: seq<IdentifierInfo>, functionName: Name, explicit0: bool, onHeap0: bool)
    returns (infos: seq<IdentifierInfo>, h: nat, explicit: bool, onHeap: bool)
    ensures infos == HeapIdentifiers(kept) && h == |kept|
    ensures explicit == (explicit0 || HasExplicitName(kept, functionName))
    ensures onHeap == (onHeap0 || HasName(kept, functionName))
  {
    infos := kept;
    explicit := explicit0;
    onHeap := onHeap0;
    h := 0;
    var i := 0;
    while i < |infos|
      invariant 0 <= i <= |infos| == |kept|
      invariant h == i
      invariant forall m :: 0 <= m < i ==> infos[m] == HeapIdentifiers(kept)[m]
      invariant forall m :: i <= m < |kept| ==> infos[m] == kept[m]
      invariant explicit == (explicit0 || HasExplicitName(kept[..i], functionName))
      invariant onHeap == (onHeap0 || HasName(kept[..i], functionName))
    {
      HasNameExtend(kept, i, functionName);
      HasExplicitNameExtend(kept, i, functionName);
      infos := infos[i := infos[i].(needToAllocateOnStack := false)];
      if infos[i].name == functionName {
        if infos[i].isExplicitlyDeclaredOrParameterName {
          explicit := true;
        }
        onHeap := true;
        infos := infos[i := infos[i].(indexForIndexedStorage := h)];
        h := h + 1;
      } else {
        infos := infos[i := infos[i].(indexForIndexedStorage := h)];
        h := h + 1;
      }
      i := i + 1;
    }
    assert kept[..i] == kept;
  }

  /** The parameter loop of the non-indexed path. */
  method HeapParameterLoop(orig: seq<ParameterInfo>) returns (params: seq<ParameterInfo>)
    ensures params == HeapParameters(orig)
  {
    params := orig;
    var siz := |params|;
    var i := 0;
    while i < siz
      invariant 0 <= i <= siz == |params| == |orig|
      invariant forall m :: 0 <= m < i ==> params[m] == HeapParameters(orig)[m]
      invariant forall m :: i <= m < siz ==> params[m] == orig[m]
    {
      params := params[i := params[i].(isHeapAllocated := true, index := INT32_MAX)];
      i := i + 1;
    }
  }

  // ---------------------------------------------------------------------
  // The whole of computeVariables
  // ---------------------------------------------------------------------

  /** The fields computeVariables rewrites. */
  datatype VariableLayout = VariableLayout(
    ids: seq<IdentifierInfo>,
    params: seq<ParameterInfo>,
    stackCount: nat,
    heapCount: nat,
    needsComplexParameterCopy: bool,
    functionNameExplicitlyDeclared: bool,
    functionNameSavedOnHeap: bool)

  /** The storage layout of a scope given its records and flags on entry. */
  function ComputedLayout(ids: seq<IdentifierInfo>, params: seq<ParameterInfo>, functionName: Name,
                          isFunctionExpression: bool, isGlobal: bool, indexed: bool, isEvalCodeInFunction: bool,
                          complex: bool, explicit: bool, onHeap: bool): VariableLayout
    requires indexed ==> ParametersAreIdentifiers(ids, params)
  {
    var bound := FunctionNameBinding(ids, params, functionName, isFunctionExpression, complex);
    var start := StartCounters(isGlobal, explicit, onHeap);
    if indexed then
      var slotted := IndexedIdentifiers(bound.0, functionName, start);
      var c := IndexedCounters(bound.0, functionName, start);
      assert SameNames(bound.0, ids);
      assert ParametersAreIdentifiers(slotted, params) by {
        forall j | 0 <= j < |params| ensures HasName(slotted, params[j].name) {
          var k :| 0 <= k < |ids| && ids[k].name == params[j].name;
          assert slotted[k].name == params[j].name;
        }
      }
      VariableLayout(slotted, ParameterRecords(slotted, params, functionName, false), c.stack, c.heap,
                     bound.1 || HasName(bound.0, functionName) || ParametersForceComplexCopy(slotted, params, functionName),
                     c.nameExplicitlyDeclared, c.nameSavedOnHeap)
    else
      var kept := if isEvalCodeInFunction then RemoveFirstNamed(bound.0, ARGUMENTS_NAME) else bound.0;
      VariableLayout(HeapIdentifiers(kept), HeapParameters(params), start.stack, |kept|, true,
                     explicit || HasExplicitName(kept, functionName), onHeap || HasName(kept, functionName))
  }

  // ---------------------------------------------------------------------
  // The code block
  // ---------------------------------------------------------------------

  /** `ancestors` lists the blocks reached from `parent` by following parent links, up to the outermost one. */
  ghost predicate ChainFrom(parent: InterpretedCodeBlock?, ancestors: seq<InterpretedCodeBlock>)
  {
    if ancestors == [] then parent == null
    else
      parent == ancestors[0] && ancestors[|ancestors| - 1].parent == null &&
      forall i :: 0 <= i < |ancestors| - 1 ==> ancestors[i].parent == ancestors[i + 1]
  }

  /** A block nested in `p` has `p` followed by `p`'s ancestors as its own. */
  lemma {:induction false} ChainFromNested(p: InterpretedCodeBlock)
    requires p.ChainValid()
    ensures ChainFrom(p, [p] + p.ancestors)
  {
    var a := [p] + p.ancestors;
    forall i | 0 <= i < |a| - 1
      ensures a[i].parent == a[i + 1]
    {
      if i > 0 {
        assert a[i] == p.ancestors[i - 1] && a[i + 1] == p.ancestors[i];
      }
    }
  }

  class InterpretedCodeBlock {
    const parent: InterpretedCodeBlock?
    /** The enclosing code blocks, innermost first. */
    ghost const ancestors: seq<InterpretedCodeBlock>

    const isStrict: bool
    const isStatic: bool
    const isMethodProperty: bool
    const isConstructor: bool
    /** The CodeBlockInitFlag bits the parser passed in. */
    const flags: InitFlags
    const parameterCount: nat

    var functionName: Name
    var identifierInfos: seq<IdentifierInfo>
    var parametersInformation: seq<ParameterInfo>
    var childBlocks: seq<InterpretedCodeBlock>
    var usesArgumentsObject: bool
    var canUseIndexedVariableStorage: bool
    var canAllocateEnvironmentOnStack: bool
    var needsComplexParameterCopy: bool
    var isInWithScope: bool
    var isEvalCodeInFunction: bool
    var isFunctionNameExplicitlyDeclared: bool
    var isFunctionNameSaveOnHeap: bool
    var identifierOnStackCount: nat
    var identifierOnHeapCount: nat

    /** `parent` links run through `ancestors` and end at the outermost scope. */
    ghost predicate ChainValid()
    {
      this !in ancestors && ChainFrom(parent, ancestors)
    }

    predicate IsGlobalScopeCodeBlock()
    {
      parent == null
    }

    predicate HasEvalWithYield()
    {
      flags.hasEval || flags.hasWith || flags.hasYield
    }

    /** Some block from this one outwards has eval, with or yield. */
    ghost predicate ScopeHasEvalWithYield()
    {
      HasEvalWithYield() || exists i :: 0 <= i < |ancestors| && ancestors[i].HasEvalWithYield()
    }

    /** Some block from this one outwards cannot use indexed storage. */
    ghost predicate ScopeNotIndexed()
      reads this, ancestors
    {
      !canUseIndexedVariableStorage || exists i :: 0 <= i < |ancestors| && !ancestors[i].canUseIndexedVariableStorage
    }

    /** The program (global) code block. */
    constructor Program(isStrict: bool, isStatic: bool, isMethodProperty: bool, isConstructor: bool,
                        innerIdentifiers: seq<InnerIdentifier>, flags: InitFlags)
      ensures parent == null && ancestors == [] && ChainValid()
      ensures this.isStrict == isStrict && this.isStatic == isStatic && this.isMethodProperty == isMethodProperty
      ensures this.isConstructor == isConstructor && parameterCount == 0
      ensures this.flags == ProgramFlags(flags)
      ensures !canUseIndexedVariableStorage && !canAllocateEnvironmentOnStack
      ensures identifierInfos == InitialIdentifiers(innerIdentifiers, false)
      ensures parametersInformation == [] && childBlocks == [] && functionName == ""
      ensures !usesArgumentsObject && !needsComplexParameterCopy && !isInWithScope && !isEvalCodeInFunction
      ensures !isFunctionNameExplicitlyDeclared && !isFunctionNameSaveOnHeap
      ensures identifierOnStackCount == 0 && identifierOnHeapCount == 0
    {
      var infos := BuildIdentifierRecords(innerIdentifiers, false);
      parent := null;
      ancestors := [];
      this.isStrict := isStrict;
      this.isStatic := isStatic;
      this.isMethodProperty := isMethodProperty;
      this.isConstructor := isConstructor;
      parameterCount := 0;
      this.flags := ProgramFlags(flags);
      usesArgumentsObject := false;
      canUseIndexedVariableStorage := false;
      canAllocateEnvironmentOnStack := false;
      needsComplexParameterCopy := false;
      isInWithScope := false;
      isEvalCodeInFunction := false;
      functionName := "";
      parametersInformation := [];
      childBlocks := [];
      identifierInfos := infos;
      isFunctionNameExplicitlyDeclared := false;
      isFunctionNameSaveOnHeap := false;
      identifierOnStackCount := 0;
      identifierOnHeapCount := 0;
    }

    /** A function code block nested in `parentBlock`. */
    constructor Function(isStrict: bool, isStatic: bool, isMethodProperty: bool, isConstructor: bool,
                         functionName: Name, parameterNames: seq<Name>, innerIdentifiers: seq<InnerIdentifier>,
                         parentBlock: InterpretedCodeBlock?, flags: InitFlags)
      requires parentBlock != null ==> parentBlock.ChainValid()
      ensures parent == parentBlock && ChainValid()
      ensures ancestors == if parentBlock == null then [] else [parentBlock] + parentBlock.ancestors
      ensures this.functionName == functionName && parametersInformation == InitialParameters(parameterNames)
      ensures parameterCount == |parameterNames|
      ensures this.isStrict == isStrict && this.isStatic == isStatic && this.isMethodProperty == isMethodProperty
      ensures this.isConstructor == (isConstructor && !flags.isArrowFunctionExpression)
      ensures this.flags == flags
      ensures canUseIndexedVariableStorage == IndexedStorageAllowed(flags)
      ensures canAllocateEnvironmentOnStack == canUseIndexedVariableStorage
      ensures identifierInfos == InitialIdentifiers(innerIdentifiers, canUseIndexedVariableStorage)
      ensures childBlocks == [] && !usesArgumentsObject && !needsComplexParameterCopy
      ensures !isInWithScope && !isEvalCodeInFunction
      ensures !isFunctionNameExplicitlyDeclared && !isFunctionNameSaveOnHeap
      ensures identifierOnStackCount == 0 && identifierOnHeapCount == 0
    {
      var indexed := !(flags.hasEval || flags.hasWith || flags.hasYield) && !flags.inCatch;
      if flags.inWith {
        indexed := false;
      }
      var params := BuildParameterRecords(parameterNames);
      var infos := BuildIdentifierRecords(innerIdentifiers, indexed);
      parent := parentBlock;
      ancestors := if parentBlock == null then [] else [parentBlock] + parentBlock.ancestors;
      this.functionName := functionName;
      parametersInformation := params;
      parameterCount := |parameterNames|;
      this.isStrict := isStrict;
      this.flags := flags;
      usesArgumentsObject := false;
      if flags.isArrowFunctionExpression {
        this.isConstructor := false;
      } else {
        this.isConstructor := isConstructor;
      }
      canUseIndexedVariableStorage := indexed;
      canAllocateEnvironmentOnStack := indexed;
      identifierInfos := infos;
      isFunctionNameExplicitlyDeclared := false;
      isFunctionNameSaveOnHeap := false;
      needsComplexParameterCopy := false;
      isInWithScope := false;
      isEvalCodeInFunction := false;
      this.isMethodProperty := isMethodProperty;
      this.isStatic := isStatic;
      childBlocks := [];
      identifierOnStackCount := 0;
      identifierOnHeapCount := 0;
      new;
      if parentBlock != null {
        ChainFromNested(parentBlock);
      }
    }

    method SetFunctionName(name: Name)
      modifies this`functionName
      ensures functionName == name
    {
      functionName := name;
    }

    method SetInWithScope()
      modifies this`isInWithScope
      ensures isInWithScope
    {
      isInWithScope := true;
    }

    method AppendChildBlock(child: InterpretedCodeBlock)
      modifies this`childBlocks
      ensures childBlocks == old(childBlocks) + [child]
    {
      childBlocks := childBlocks + [child];
    }

    /** needToStoreThisValue: the scope has a binding named `this`, which is where the first search for it stops. */
    function NeedToStoreThisValue(): (r: bool)
      reads this
      ensures r <==> FirstIndexOf(identifierInfos, THIS_NAME) < |identifierInfos|
    {
      HasName(identifierInfos, THIS_NAME)
    }

    /** Makes `this` a heap-resident binding of this scope unless it already has one. */
    method CaptureThis()
      requires !IsGlobalScopeCodeBlock()
      modifies this`identifierInfos, this`canAllocateEnvironmentOnStack
      ensures old(HasName(identifierInfos, THIS_NAME)) ==>
        identifierInfos == old(identifierInfos) && canAllocateEnvironmentOnStack == old(canAllocateEnvironmentOnStack)
      ensures !old(HasName(identifierInfos, THIS_NAME)) ==>
        identifierInfos == old(identifierInfos) + [IdentifierInfo(THIS_NAME, false, true, false, SIZE_MAX)] &&
        !canAllocateEnvironmentOnStack
      ensures HasName(identifierInfos, THIS_NAME) && NeedToStoreThisValue()
      ensures !old(canAllocateEnvironmentOnStack) ==> !canAllocateEnvironmentOnStack
    {
      if HasName(identifierInfos, THIS_NAME) {
        return;
      }
      canAllocateEnvironmentOnStack := false;
      identifierInfos := identifierInfos + [IdentifierInfo(THIS_NAME, false, true, false, SIZE_MAX)];
      assert identifierInfos[|identifierInfos| - 1].name == THIS_NAME;
    }

    /**
     * Gives the scope an `arguments` object: adds an on-stack `arguments`
     * binding unless there is one, and when there are parameters moves the
     * first binding of each parameter's name to the heap.
     */
    method CaptureArguments()
      requires !IsGlobalScopeCodeBlock() && !flags.isArrowFunctionExpression
      requires !HasParameterNamed(parametersInformation, ARGUMENTS_NAME)
      modifies this`usesArgumentsObject, this`identifierInfos, this`canAllocateEnvironmentOnStack
      ensures old(usesArgumentsObject) ==>
        usesArgumentsObject && identifierInfos == old(identifierInfos) &&
        canAllocateEnvironmentOnStack == old(canAllocateEnvironmentOnStack)
      ensures !old(usesArgumentsObject) ==>
        var withArguments := if old(HasName(identifierInfos, ARGUMENTS_NAME)) then old(identifierInfos)
                             else old(identifierInfos) + [ARGUMENTS_RECORD];
        usesArgumentsObject &&
        identifierInfos == (if parameterCount == 0 then withArguments
                            else ReleaseParameterSlots(withArguments, parametersInformation)) &&
        canAllocateEnvironmentOnStack == (old(canAllocateEnvironmentOnStack) && parameterCount == 0)
      ensures !old(usesArgumentsObject) ==> HasName(identifierInfos, ARGUMENTS_NAME)
    {
      if usesArgumentsObject {
        return;
      }
      usesArgumentsObject := true;
      if !HasName(identifierInfos, ARGUMENTS_NAME) {
        identifierInfos := identifierInfos + [ARGUMENTS_RECORD];
        assert identifierInfos[|identifierInfos| - 1].name == ARGUMENTS_NAME;
      }
      assert HasName(identifierInfos, ARGUMENTS_NAME);
      if parameterCount != 0 {
        canAllocateEnvironmentOnStack := false;
        var released := ReleaseParameterSlotsLoop(identifierInfos, parametersInformation);
        identifierInfos := released;
      }
    }

    /**
     * A child scope refers to `name`: when this scope binds it, the first
     * such binding moves to the heap and the answer is true.
     */
    method TryCaptureIdentifiersFromChildCodeBlock(name: Name) returns (found: bool)
      modifies this`identifierInfos, this`canAllocateEnvironmentOnStack
      ensures found == old(HasName(identifierInfos, name))
      ensures found ==> identifierInfos == MoveToHeap(old(identifierInfos), FirstIndexOf(old(identifierInfos), name)) &&
                        !canAllocateEnvironmentOnStack
      ensures !found ==> identifierInfos == old(identifierInfos) &&
                         canAllocateEnvironmentOnStack == old(canAllocateEnvironmentOnStack)
    {
      var i := 0;
      while i < |identifierInfos|
        invariant 0 <= i <= |identifierInfos|
        invariant forall m :: 0 <= m < i ==> identifierInfos[m].name != name
      {
        if identifierInfos[i].name == name {
          canAllocateEnvironmentOnStack := false;
          identifierInfos := identifierInfos[i := identifierInfos[i].(needToAllocateOnStack := false)];
          return true;
        }
        i := i + 1;
      }
      return false;
    }

    /** Eval, with or yield in this scope or a child: no indexed storage, every binding unindexed on the heap. */
    method NotifySelfOrChildHasEvalWithYield()
      modifies this`identifierInfos, this`canAllocateEnvironmentOnStack, this`canUseIndexedVariableStorage
      ensures !canAllocateEnvironmentOnStack && !canUseIndexedVariableStorage
      ensures |identifierInfos| == |old(identifierInfos)|
      ensures forall i :: 0 <= i < |identifierInfos| ==>
        identifierInfos[i] == old(identifierInfos)[i].(needToAllocateOnStack := false, indexForIndexedStorage := SIZE_MAX)
    {
      canAllocateEnvironmentOnStack := false;
      canUseIndexedVariableStorage := false;
      var i := 0;
      while i < |identifierInfos|
        modifies this`identifierInfos
        invariant 0 <= i <= |identifierInfos| == |old(identifierInfos)|
        invariant forall m :: 0 <= m < i ==>
          identifierInfos[m] == old(identifierInfos)[m].(needToAllocateOnStack := false, indexForIndexedStorage := SIZE_MAX)
        invariant forall m :: i <= m < |identifierInfos| ==> identifierInfos[m] == old(identifierInfos)[m]
      {
        identifierInfos := identifierInfos[i := identifierInfos[i].(indexForIndexedStorage := SIZE_MAX, needToAllocateOnStack := false)];
        i := i + 1;
      }
    }

    /** Walks this block and its ancestors looking for eval, with or yield. */
    method InEvalWithYieldScope() returns (r: bool)
      requires ChainValid()
      ensures r == ScopeHasEvalWithYield()
    {
      if HasEvalWithYield() {
        return true;
      }
      var cb := parent;
      ghost var i := 0;
      while cb != null
        invariant 0 <= i <= |ancestors|
        invariant cb == if i < |ancestors| then ancestors[i] else null
        invariant forall j :: 0 <= j < i ==> !ancestors[j].HasEvalWithYield()
        decreases |ancestors| - i
      {
        if cb.HasEvalWithYield() {
          return true;
        }
        cb := cb.parent;
        i := i + 1;
      }
      return false;
    }

    /** Walks this block and its ancestors looking for one without indexed storage. */
    method InNotIndexedCodeBlockScope() returns (r: bool)
      requires ChainValid()
      ensures r == ScopeNotIndexed()
    {
      if !canUseIndexedVariableStorage {
        return true;
      }
      var cb := parent;
      ghost var i := 0;
      while cb != null
        invariant 0 <= i <= |ancestors|
        invariant cb == if i < |ancestors| then ancestors[i] else null
        invariant forall j :: 0 <= j < i ==> ancestors[j].canUseIndexedVariableStorage
        decreases |ancestors| - i
      {
        if !cb.canUseIndexedVariableStorage {
          return true;
        }
        cb := cb.parent;
        i := i + 1;
      }
      return false;
    }

    /** Clears the stack-environment flag of every enclosing block. */
    method DisallowStackEnvironmentInAncestors()
      requires ChainValid()
      modifies (set a | a in ancestors)`canAllocateEnvironmentOnStack
      ensures forall a :: a in ancestors ==> !a.canAllocateEnvironmentOnStack
    {
      var cb := parent;
      ghost var i := 0;
      while cb != null
        invariant 0 <= i <= |ancestors|
        invariant cb == if i < |ancestors| then ancestors[i] else null
        invariant forall j :: 0 <= j < i ==> !ancestors[j].canAllocateEnvironmentOnStack
        decreases |ancestors| - i
      {
        cb.canAllocateEnvironmentOnStack := false;
        cb := cb.parent;
        i := i + 1;
      }
    }

    /** The function-name step of computeVariables. */
    method BindFunctionName()
      modifies this`identifierInfos, this`needsComplexParameterCopy
      ensures (identifierInfos, needsComplexParameterCopy) ==
        FunctionNameBinding(old(identifierInfos), parametersInformation, functionName, flags.isFunctionExpression,
                            old(needsComplexParameterCopy))
    {
      if |functionName| == 0 {
        return;
      }
      if flags.isFunctionExpression {
        var i := 0;
        while i < |identifierInfos|
          invariant 0 <= i <= |identifierInfos|
          invariant identifierInfos == old(identifierInfos) && needsComplexParameterCopy == old(needsComplexParameterCopy)
          invariant forall m :: 0 <= m < i ==>
            !(identifierInfos[m].name == functionName && !identifierInfos[m].isExplicitlyDeclaredOrParameterName)
        {
          if identifierInfos[i].name == functionName && !identifierInfos[i].isExplicitlyDeclaredOrParameterName {
            identifierInfos := identifierInfos[i := identifierInfos[i].(isMutable := false)];
            needsComplexParameterCopy := true;
            break;
          }
          i := i + 1;
        }
      }
      var i := 0;
      while i < |parametersInformation|
        invariant 0 <= i <= |parametersInformation|
        invariant forall m :: 0 <= m < i ==> parametersInformation[m].name != functionName
      {
        if parametersInformation[i].name == functionName {
          needsComplexParameterCopy := true;
          break;
        }
        i := i + 1;
      }
    }

    /** The identifier pass of the indexed path. */
    method AssignIndexedIdentifierSlots()
      modifies this`identifierInfos, this`needsComplexParameterCopy, this`isFunctionNameExplicitlyDeclared,
               this`isFunctionNameSaveOnHeap, this`identifierOnStackCount, this`identifierOnHeapCount
      ensures var start := StartCounters(IsGlobalScopeCodeBlock(), old(isFunctionNameExplicitlyDeclared),
                                         old(isFunctionNameSaveOnHeap));
        identifierInfos == IndexedIdentifiers(old(identifierInfos), functionName, start) &&
        SlotCounters(identifierOnStackCount, identifierOnHeapCount, isFunctionNameExplicitlyDeclared,
                     isFunctionNameSaveOnHeap) == IndexedCounters(old(identifierInfos), functionName, start)
      ensures needsComplexParameterCopy == (old(needsComplexParameterCopy) || HasName(old(identifierInfos), functionName))
    {
      var infos, s, h, explicit, onHeap, complex :=
        IndexedIdentifierLoop(identifierInfos, functionName, IsGlobalScopeCodeBlock(),
                              isFunctionNameExplicitlyDeclared, isFunctionNameSaveOnHeap, needsComplexParameterCopy);
      identifierInfos := infos;
      needsComplexParameterCopy := complex;
      isFunctionNameExplicitlyDeclared := explicit;
      isFunctionNameSaveOnHeap := onHeap;
      identifierOnStackCount := s;
      identifierOnHeapCount := h;
    }

    /** The parameter pass of the indexed path. */
    method AssignIndexedParameterSlots()
      requires ParametersAreIdentifiers(identifierInfos, parametersInformation)
      modifies this`parametersInformation, this`needsComplexParameterCopy
      ensures parametersInformation == ParameterRecords(identifierInfos, old(parametersInformation), functionName, false)
      ensures needsComplexParameterCopy == (old(needsComplexParameterCopy) ||
        ParametersForceComplexCopy(identifierInfos, old(parametersInformation), functionName))
    {
      var params, complex := IndexedParameterLoop(identifierInfos, parametersInformation, functionName,
                                                  needsComplexParameterCopy);
      parametersInformation := params;
      needsComplexParameterCopy := complex;
    }

    /** The non-indexed path: every binding on the heap, numbered by position. */
    method AssignHeapSlots()
      modifies this`identifierInfos, this`parametersInformation, this`needsComplexParameterCopy,
               this`isFunctionNameExplicitlyDeclared, this`isFunctionNameSaveOnHeap,
               this`identifierOnStackCount, this`identifierOnHeapCount
      ensures var kept := if isEvalCodeInFunction then RemoveFirstNamed(old(identifierInfos), ARGUMENTS_NAME)
                          else old(identifierInfos);
        needsComplexParameterCopy &&
        identifierInfos == HeapIdentifiers(kept) && parametersInformation == HeapParameters(old(parametersInformation)) &&
        identifierOnStackCount == (if IsGlobalScopeCodeBlock() then 1 else 2) && identifierOnHeapCount == |kept| &&
        isFunctionNameExplicitlyDeclared == (old(isFunctionNameExplicitlyDeclared) || HasExplicitName(kept, functionName)) &&
        isFunctionNameSaveOnHeap == (old(isFunctionNameSaveOnHeap) || HasName(kept, functionName))
    {
      needsComplexParameterCopy := true;
      var kept := identifierInfos;
      if isEvalCodeInFunction {
        kept := RemoveArgumentsRecord(identifierInfos);
      }
      var infos, h, explicit, onHeap := HeapIdentifierLoop(kept, functionName, isFunctionNameExplicitlyDeclared,
                                                           isFunctionNameSaveOnHeap);
      identifierInfos := infos;
      isFunctionNameExplicitlyDeclared := explicit;
      isFunctionNameSaveOnHeap := onHeap;
      var params := HeapParameterLoop(parametersInformation);
      parametersInformation := params;
      identifierOnStackCount := if IsGlobalScopeCodeBlock() then 1 else 2;
      identifierOnHeapCount := h;
    }

    /**
     * The first part of computeVariables: the stack environment is given
     * up, here and in every enclosing block, when the scope uses
     * `arguments`, sits inside eval/with/yield or a non-indexed scope, or
     * has a catch clause.
     */
    method DecideStackEnvironment()
      requires ChainValid()
      modifies this`canAllocateEnvironmentOnStack, (set a | a in ancestors)`canAllocateEnvironmentOnStack
      ensures canAllocateEnvironmentOnStack ==
        (old(canAllocateEnvironmentOnStack) && !usesArgumentsObject && !ScopeHasEvalWithYield() &&
         !old(ScopeNotIndexed()) && !flags.hasCatch)
      ensures !canAllocateEnvironmentOnStack ==> forall a :: a in ancestors ==> !a.canAllocateEnvironmentOnStack
      ensures canAllocateEnvironmentOnStack ==>
        forall a :: a in ancestors ==> a.canAllocateEnvironmentOnStack == old(a.canAllocateEnvironmentOnStack)
    {
      if usesArgumentsObject {
        canAllocateEnvironmentOnStack := false;
      }
      var evalScope := InEvalWithYieldScope();
      var notIndexed := InNotIndexedCodeBlockScope();
      if evalScope || notIndexed || flags.hasCatch {
        canAllocateEnvironmentOnStack := false;
      }
      if !canAllocateEnvironmentOnStack {
        DisallowStackEnvironmentInAncestors();
      }
    }

    /** The rest of computeVariables: the function-name step, then the indexed or the heap layout. */
    method AssignSlots()
      requires canUseIndexedVariableStorage ==> ParametersAreIdentifiers(identifierInfos, parametersInformation)
      modifies this`identifierInfos, this`parametersInformation,
               this`needsComplexParameterCopy, this`isFunctionNameExplicitlyDeclared, this`isFunctionNameSaveOnHeap,
               this`identifierOnStackCount, this`identifierOnHeapCount
      ensures var r := ComputedLayout(old(identifierInfos), old(parametersInformation), functionName,
                                      flags.isFunctionExpression, IsGlobalScopeCodeBlock(), canUseIndexedVariableStorage,
                                      isEvalCodeInFunction, old(needsComplexParameterCopy),
                                      old(isFunctionNameExplicitlyDeclared), old(isFunctionNameSaveOnHeap));
        identifierInfos == r.ids && parametersInformation == r.params &&
        identifierOnStackCount == r.stackCount && identifierOnHeapCount == r.heapCount &&
        needsComplexParameterCopy == r.needsComplexParameterCopy &&
        isFunctionNameExplicitlyDeclared == r.functionNameExplicitlyDeclared &&
        isFunctionNameSaveOnHeap == r.functionNameSavedOnHeap
    {
      ghost var params0 := parametersInformation;
      ghost var ids0 := identifierInfos;
      BindFunctionName();
      if canUseIndexedVariableStorage {
        ghost var bound0 := identifierInfos;
        AssignIndexedIdentifierSlots();
        assert SameNames(bound0, ids0);
        assert SameNames(identifierInfos, ids0);
        assert ParametersAreIdentifiers(identifierInfos, parametersInformation) by {
          assert parametersInformation == params0;
          forall j | 0 <= j < |parametersInformation| ensures HasName(identifierInfos, parametersInformation[j].name) {
            assert HasName(ids0, params0[j].name);
            var k :| 0 <= k < |ids0| && ids0[k].name == parametersInformation[j].name;
            assert identifierInfos[k].name == parametersInformation[j].name;
          }
        }
        AssignIndexedParameterSlots();
      } else {
        AssignHeapSlots();
      }
    }

    /** Decides where each binding of the scope lives. */
    method ComputeVariables()
      requires ChainValid()
      requires canUseIndexedVariableStorage ==> ParametersAreIdentifiers(identifierInfos, parametersInformation)
      modifies this`identifierInfos, this`parametersInformation, this`canAllocateEnvironmentOnStack,
               this`needsComplexParameterCopy, this`isFunctionNameExplicitlyDeclared, this`isFunctionNameSaveOnHeap,
               this`identifierOnStackCount, this`identifierOnHeapCount,
               (set a | a in ancestors)`canAllocateEnvironmentOnStack
      ensures canAllocateEnvironmentOnStack ==
        (old(canAllocateEnvironmentOnStack) && !usesArgumentsObject && !ScopeHasEvalWithYield() &&
         !old(ScopeNotIndexed()) && !flags.hasCatch)
      ensures !canAllocateEnvironmentOnStack ==> forall a :: a in ancestors ==> !a.canAllocateEnvironmentOnStack
      ensures canAllocateEnvironmentOnStack ==>
        forall a :: a in ancestors ==> a.canAllocateEnvironmentOnStack == old(a.canAllocateEnvironmentOnStack)
      ensures var r := ComputedLayout(old(identifierInfos), old(parametersInformation), functionName,
                                      flags.isFunctionExpression, IsGlobalScopeCodeBlock(), canUseIndexedVariableStorage,
                                      isEvalCodeInFunction, old(needsComplexParameterCopy),
                                      old(isFunctionNameExplicitlyDeclared), old(isFunctionNameSaveOnHeap));
        identifierInfos == r.ids && parametersInformation == r.params &&
        identifierOnStackCount == r.stackCount && identifierOnHeapCount == r.heapCount &&
        needsComplexParameterCopy == r.needsComplexParameterCopy &&
        isFunctionNameExplicitlyDeclared == r.functionNameExplicitlyDeclared &&
        isFunctionNameSaveOnHeap == r.functionNameSavedOnHeap
    {
      DecideStackEnvironment();
      AssignSlots();
    }
  }
}
