# escargot: code-block variable layout, Proxy dispatch and statement code generation

This project models three parts of the escargot JavaScript engine in Dafny and proves
properties of them.

- **Code blocks** (`src/parser/CodeBlock.cpp`). An `InterpretedCodeBlock` is the
  compiled form of a program or function scope. Its constructors record the names the
  scope analyser found (identifier records) and the parameter names (parameter
  records). The capture operations (`captureThis`, `captureArguments`,
  `tryCaptureIdentifiersFromChildCodeBlock`, `notifySelfOrChildHasEvalWithYield`) move
  bindings to the heap when a closure, `eval`, `with` or `yield` can reach them.
  `computeVariables` then decides whether the scope's environment may live on the
  stack, and gives every identifier and parameter its slot. Stack slots start at 1 in
  the global scope and at 2 in a function. The bound-function constructor and
  `functionBindImpl` (the arity of `Function.prototype.bind` results and the merge of
  bound and called arguments) are modelled too.
- **Proxy exotic objects** (`src/runtime/ProxyObject.h`, `ProxyObject.cpp`,
  `GlobalObjectBuiltinProxy.cpp`). These cover:
  - the proxy's two internal slots, which revocation overwrites;
  - the trap dispatch of `[[GetPrototypeOf]]`, `[[Get]]` and `[[Set]]`, with the
    invariant checks on the trap's result, plus `getPrototypeObject` and `enumeration`;
  - the `Proxy` constructor, the revocation function and `Proxy.revocable`.

  Next to the code's behaviour, the Proxy internal methods of section 9.5 of ECMA-262
  8th edition (ES2017) are written out as a reference. The code cites that standard
  step by step. Lemmas state where the two agree, and they exhibit each input on which
  they do not.
- **Bytecode generation** (`src/parser/ast/*.h`). The code emitted for a call
  expression covers the direct-eval path, the `with`-scope path and the ordinary path.
  It includes the argument layout with its fast path, the spread-index table, and the
  analysis that decides whether arguments may stay in their variables' own registers.
  The model also covers:
  - a class expression: the heritage, the members' functions, the prototype link, and
    the member definitions through `Object.defineProperty`;
  - a `for…of` loop: the iterator test, the `next()`/`done`/`value` step, and the
    patched jumps;
  - a method definition, which picks the n-th function-expression child block;
  - `super(...)`'s callee chain.

  Instructions are a datatype. The byte-code buffer, the register stack and the
  generation context are classes whose methods update them in place. Each generator is
  a method whose `ensures` ties the appended code to a function of its inputs. Lemmas
  about those functions then state what the code does, for example "the register a
  class member is defined from still holds the function created for that member" or
  "every jump of a for-of loop is resolved to a position inside the loop".

Sub-expressions and statements that these nodes only delegate to are abstract: they
are an opaque evaluation into a register or an opaque statement with its exit jumps.
This applies to the callee, the arguments, the heritage, the left-hand side and the
loop body.

## Model

| member | source | states |
|---|---|---|
| BoundFunctions.BoundParameterCount | src/parser/CodeBlock.cpp:196-197 | The bound function's length is the target's parameter count minus the bound arguments, floored at zero: never above the target's, and exact unless it is zero |
| BoundFunctions.NestedBoundParameterCount | src/parser/CodeBlock.cpp:196-197 | Binding a arguments and then b more gives the same length as binding a + b at once |
| BoundFunctions.MergedArguments | src/parser/CodeBlock.cpp:148-157 | The target receives the bound arguments in order, then the called ones; the length is the sum |
| BoundFunctions.NestedMergedArguments | src/parser/CodeBlock.cpp:148-157 | Calling a twice-bound function passes the first bound arguments, then the second ones, then the called ones |
| BoundFunctions.CopyArguments | src/parser/CodeBlock.cpp:205-213 | The bound arguments are copied into a fresh buffer holding exactly them |
| BoundFunctions.BoundCodeBlock.constructor | src/parser/CodeBlock.cpp:165-214 | The bound code block has the floored parameter count and the bound-function flag defaults, and holds the target, the bound receiver and a fresh copy of the bound arguments |
| BoundFunctions.ForwardCall | src/parser/CodeBlock.cpp:142-163 | The call goes to the target with the merged arguments; the receiver is the new object for `new` and the bound receiver otherwise |
| CodeBlocks.FirstIndexOf | src/parser/CodeBlock.cpp:605 | findName: the first record bearing the name, and no earlier one bears it |
| CodeBlocks.InitialIdentifiers | src/parser/CodeBlock.cpp:292-300 | One record per analysed name, in order: mutable, with the name's explicit flag, unindexed (SIZE_MAX), on the stack as the constructor decides |
| CodeBlocks.InitialParameters | src/parser/CodeBlock.cpp:324-328 | One record per parameter name, in order, none duplicated |
| CodeBlocks.ProgramFlags | src/parser/CodeBlock.cpp:216-303 | A program block keeps the eval, with, catch and yield bits (in-catch and in-with included) of its initialisation flags and clears every function-only bit |
| CodeBlocks.IndexedStorageAllowed | src/parser/CodeBlock.cpp:408-418 | A function may use indexed storage exactly when it has no eval, with or yield and is neither inside a catch clause nor inside `with` |
| CodeBlocks.BuildIdentifierRecords | src/parser/CodeBlock.cpp:292-300 | The constructors' loop yields InitialIdentifiers |
| CodeBlocks.BuildParameterRecords | src/parser/CodeBlock.cpp:324-328 | The function constructor's loop yields InitialParameters |
| CodeBlocks.InterpretedCodeBlock.Program | src/parser/CodeBlock.cpp:216-303 | A program block has no parent, no parameters, no indexed storage and no stack environment, and records the analysed names off the stack |
| CodeBlocks.InterpretedCodeBlock.Function | src/parser/CodeBlock.cpp:305-439 | A function block is linked to its parent chain, records its name and parameters, is a constructor only if not an arrow function, and may use indexed storage and a stack environment exactly as IndexedStorageAllowed says |
| CodeBlocks.InterpretedCodeBlock.NeedToStoreThisValue | src/parser/CodeBlock.cpp:441-444 | `this` must be stored exactly when the first search for a binding named `this` finds one |
| CodeBlocks.InterpretedCodeBlock.CaptureThis | src/parser/CodeBlock.cpp:446-463 | With a `this` binding nothing changes; otherwise a heap-resident, mutable, implicit `this` record is appended and the stack environment is given up; afterwards `this` is always bound and NeedToStoreThisValue holds |
| CodeBlocks.ReleaseParameterSlots | src/parser/CodeBlock.cpp:484-494 | Moving each parameter's binding to the heap keeps every name in place |
| CodeBlocks.ReleaseParameterSlotsEffect | src/parser/CodeBlock.cpp:484-494 | Exactly the first bearer of each parameter's name loses its stack flag; every other record is unchanged |
| CodeBlocks.ReleaseParameterSlotsLoop | src/parser/CodeBlock.cpp:486-493 | The nested loop over parameters and identifiers computes ReleaseParameterSlots |
| CodeBlocks.InterpretedCodeBlock.CaptureArguments | src/parser/CodeBlock.cpp:465-495 | On the first call the scope uses an arguments object, an on-stack `arguments` record is added if missing, and with parameters the stack environment is given up and the parameters' bindings move to the heap; later calls change nothing |
| CodeBlocks.InterpretedCodeBlock.TryCaptureIdentifiersFromChildCodeBlock | src/parser/CodeBlock.cpp:497-507 | The answer is whether the scope binds the name; if it does, only the first binding moves to the heap and the stack environment is given up; if not, nothing changes |
| CodeBlocks.InterpretedCodeBlock.NotifySelfOrChildHasEvalWithYield | src/parser/CodeBlock.cpp:509-518 | No indexed storage and no stack environment remain; every record keeps its name and flags but is unindexed and heap-resident |
| CodeBlocks.InterpretedCodeBlock.InEvalWithYieldScope | src/parser/CodeBlock.cpp:531 | The walk over this block and its ancestors answers whether any of them has eval, with or yield |
| CodeBlocks.InterpretedCodeBlock.InNotIndexedCodeBlockScope | src/parser/CodeBlock.cpp:531 | The walk answers whether this block or an ancestor cannot use indexed storage |
| CodeBlocks.InterpretedCodeBlock.DisallowStackEnvironmentInAncestors | src/parser/CodeBlock.cpp:535-541 | Every enclosing block loses its stack environment |
| CodeBlocks.InterpretedCodeBlock.DecideStackEnvironment | src/parser/CodeBlock.cpp:527-541 | The stack environment survives exactly when it was allowed, the scope uses no arguments object, no scope outwards has eval/with/yield or lacks indexed storage, and there is no catch; when it does not survive, no ancestor keeps one; when it does, the ancestors are untouched |
| CodeBlocks.FunctionExpressionNameIsImmutable | src/parser/CodeBlock.cpp:543-562 | A named function expression's first implicit binding of its own name becomes immutable and forces a complex parameter copy; every other record is unchanged |
| CodeBlocks.InterpretedCodeBlock.BindFunctionName | src/parser/CodeBlock.cpp:543-562 | The function-name step updates the records and the complex-copy flag as that binding rule says |
| CodeBlocks.IndexedIdentifiers | src/parser/CodeBlock.cpp:564-597 | Each record gets the slot the counters before it dictate, in list order |
| CodeBlocks.IndexedHeapSlotsDense | src/parser/CodeBlock.cpp:587-597 | Heap records are numbered 0, 1, 2, … in list order, and the heap count is their number |
| CodeBlocks.IndexedIdentifiersShape | src/parser/CodeBlock.cpp:568-586 | The identifier pass changes only indices, and an on-stack binding of the function's own name sits in slot 1 |
| CodeBlocks.IndexedStackSlotsInRange | src/parser/CodeBlock.cpp:587-596 | Every other on-stack record gets a slot between the first stack slot (1 global, 2 function) and the final stack count |
| CodeBlocks.IndexedStackSlotsOrdered | src/parser/CodeBlock.cpp:587-594 | No two on-stack records share a slot: slots increase in list order |
| CodeBlocks.IndexedStackSlotsConsecutive | src/parser/CodeBlock.cpp:587-594 | Without the function's name among the records, stack slots are consecutive and the count is the next free slot |
| CodeBlocks.IndexedStackSlotsNumbered | src/parser/CodeBlock.cpp:565-596 | Without the function's name, the k-th record on the stack sits in the first slot plus the number of stack records before it |
| CodeBlocks.IndexedIdentifierLoop | src/parser/CodeBlock.cpp:564-597 | The identifier loop computes IndexedIdentifiers and the final counters and flags, and the complex-copy flag is set iff some record bears the function's name |
| CodeBlocks.SlotTableLookup | src/parser/CodeBlock.cpp:601-653 | The name-to-slot table has an entry for a name iff a parameter other than the function's name bears it, and that entry holds the name's slot |
| CodeBlocks.SlotTableDistinct | src/parser/CodeBlock.cpp:601-653 | The table lists each such name exactly once, in order of first occurrence |
| CodeBlocks.FindComputedName | src/parser/CodeBlock.cpp:625-643 | The table search finds the first entry for the name, or reports none with SIZE_MAX |
| CodeBlocks.FindPreviousBearer | src/parser/CodeBlock.cpp:634-639 | The backward search finds the closest earlier parameter bearing the name |
| CodeBlocks.ComplexCopyCauses | src/parser/CodeBlock.cpp:625-653 | The parameter pass forces a complex copy iff some parameter other than the function's name lives on the heap or repeats an earlier name |
| CodeBlocks.ParameterLayoutSlots | src/parser/CodeBlock.cpp:599-657 | Intended reading: every parameter other than the function's name, repeated or not, gets its identifier's slot, so all bearers of one name share a slot |
| CodeBlocks.ParameterAsWrittenSlots | src/parser/CodeBlock.cpp:645-656 | As written: a first bearer gets its slot, and a later bearer gets the table entry at position "slot" |
| CodeBlocks.RepeatedParameterGetsWrongSlot | src/parser/CodeBlock.cpp:655 | As written, `function f(a, b, c, c)` with `a` captured gives the second `c` slot 0 (b's) instead of c's slot 1; the intended reading gives both `c`s slot 1 |
| CodeBlocks.IndexedParameterLoop | src/parser/CodeBlock.cpp:599-657 | The parameter loop yields the intended parameter records and sets the complex-copy flag exactly when ComplexCopyCauses says |
| CodeBlocks.RemoveArgumentsRecord | src/parser/CodeBlock.cpp:661-669 | Eval code in a function drops the first `arguments` record and no other |
| CodeBlocks.HeapIdentifiers | src/parser/CodeBlock.cpp:673-687 | On the non-indexed path every record is heap-resident and numbered by its position |
| CodeBlocks.HeapIdentifierLoop | src/parser/CodeBlock.cpp:671-687 | The loop computes HeapIdentifiers with a heap count equal to the record count, and sets the explicit and on-heap flags iff a record (an explicit one) bears the function's name |
| CodeBlocks.HeapParameterLoop | src/parser/CodeBlock.cpp:689-693 | Every parameter becomes heap-allocated with index INT32_MAX |
| CodeBlocks.InterpretedCodeBlock.AssignIndexedIdentifierSlots | src/parser/CodeBlock.cpp:564-597 | The identifier pass stores the loop's records, counters and flags in the block |
| CodeBlocks.InterpretedCodeBlock.AssignIndexedParameterSlots | src/parser/CodeBlock.cpp:599-657 | The parameter pass stores the loop's records and complex-copy flag in the block, with the intended reading of line 655 (see Findings) |
| CodeBlocks.InterpretedCodeBlock.AssignHeapSlots | src/parser/CodeBlock.cpp:658-697 | The non-indexed path forces a complex copy and stores the heap layout in the block |
| CodeBlocks.InterpretedCodeBlock.AssignSlots | src/parser/CodeBlock.cpp:543-697 | After the function-name step, the block's records, counts and flags are the indexed or heap layout of its records on entry, the indexed one with the intended reading of line 655 |
| CodeBlocks.InterpretedCodeBlock.ComputeVariables | src/parser/CodeBlock.cpp:525-698 | The stack-environment decision and the resulting layout, both as above (the intended reading of line 655) |
| CodeBlocks.ChainFromNested | src/parser/CodeBlock.cpp:536-540 | A block nested in p has p followed by p's ancestors as its own chain of enclosing blocks |
| ProxyObjects.ProxyObject.constructor | src/runtime/ProxyObject.cpp:30-35 | A new proxy has neither target nor handler |
| ProxyObjects.ProxyObject.IsProxyObject | src/runtime/ProxyObject.h:34-37 | A proxy is a proxy object |
| ProxyObjects.ProxyObject.IsOrdinary | src/runtime/ProxyObject.h:39-42 | A proxy is not an ordinary object |
| ProxyObjects.ProxyObject.IsInlineCacheable | src/runtime/ProxyObject.h:65-68 | Property lookups on a proxy are never inline-cached |
| ProxyObjects.ProxyObject.SetTarget | src/runtime/ProxyObject.h:77-80 | The target reads back as set; the handler is unchanged |
| ProxyObjects.ProxyObject.SetHandler | src/runtime/ProxyObject.h:87-90 | The handler reads back as set; the target is unchanged |
| ProxyObjects.RevocableFunctionObject.IsRevocableFunctionObject | src/runtime/ProxyObject.h:120-123 | A revocation function is marked as one |
| ProxyObjects.RevocableFunctionObject.SetRevocable | src/runtime/ProxyObject.h:115-118 | The back-reference reads back as set |
| ProxyDispatch.GetPrototype | src/runtime/ProxyObject.cpp:52-116 | A revoked proxy throws; without a trap (or an undefined one) the target answers; a non-callable trap throws; a callable trap's result must be an object or null, and for a non-extensible target must equal the target's prototype |
| ProxyDispatch.GetPrototypeObject | src/runtime/ProxyObject.cpp:37-49 | No prototype object without a target or when [[GetPrototypeOf]] yields a non-object; otherwise that object; errors propagate |
| ProxyDispatch.GetChecked | src/runtime/ProxyObject.cpp:160-180 | The trap's result is returned exactly when it matches a frozen data property and is undefined for a non-configurable property without a getter; otherwise TypeError |
| ProxyDispatch.OwnValue | src/runtime/ProxyObject.cpp:166 | Reading the own property: a data property's value, undefined for an accessor without getter, and a throw only from an accessor's getter |
| ProxyDispatch.Get | src/runtime/ProxyObject.cpp:119-187 | A revoked proxy throws; an absent or undefined trap reads the target; a non-callable trap throws; a callable trap is called with (target, key, handler); a throw from reading the own property ends the call; otherwise the result passes GetChecked |
| ProxyDispatch.SetChecked | src/runtime/ProxyObject.cpp:232-252 | Success exactly when a frozen data property already holds the value and a non-configurable property has a getter; otherwise TypeError |
| ProxyDispatch.Set | src/runtime/ProxyObject.cpp:190-262 | A revoked proxy throws; an absent or undefined trap sets on the target; a non-callable trap throws; a trap result of exactly `false` gives false; any other result passes SetChecked |
| ProxyDispatch.Enumeration | src/runtime/ProxyObject.cpp:264-272 | Nothing without a target, otherwise the target's own keys |
| ProxySpec.GetMethod | src/runtime/ProxyObject.cpp:139-146 | Reference GetMethod (section 7.3.9): throws exactly for a non-callable trap other than null, and yields a function exactly for a callable one |
| ProxySpec.SpecGetPrototypeOf | src/runtime/ProxyObject.cpp:52-116 | Reference [[GetPrototypeOf]] (section 9.5.1): a successful trapped result on a non-extensible target is the target's prototype |
| ProxySpec.GetReportsFrozenValues | src/runtime/ProxyObject.cpp:160-180 | A successful trapped get reports a frozen data property's own value, and undefined for a non-configurable property without a getter |
| ProxySpec.SetKeepsFrozenValues | src/runtime/ProxyObject.cpp:232-252 | A successful trapped set never changes a frozen data property's value, and a non-configurable property that accepts it has a getter |
| ProxySpec.GetPrototypeAgrees | src/runtime/ProxyObject.cpp:52-116 | The code's [[GetPrototypeOf]] equals the standard's unless the trap slot holds null |
| ProxySpec.GetAgrees | src/runtime/ProxyObject.cpp:119-187 | The code's [[Get]] equals the standard's unless the trap slot holds null, the receiver is not the handler, the property is a non-configurable data property, or the own property's getter throws |
| ProxySpec.SetAgrees | src/runtime/ProxyObject.cpp:190-262 | The code's [[Set]] equals the standard's unless the trap slot holds null, the trap result is ToBoolean-false but not `false`, the property is a non-configurable data property, or a non-configurable accessor has a getter without a setter or a setter without a getter |
| ProxySpec.NullGetTrapThrows | src/runtime/ProxyObject.cpp:149-155 | A get trap slot holding null makes the code throw |
| ProxySpec.NullTrapFallsThrough | src/runtime/ProxyObject.cpp:141-158 | In the standard, a null trap slot means no trap: each operation answers as the target does |
| ProxySpec.FalsySetTrapResultSucceeds | src/runtime/ProxyObject.cpp:222-226 | A set trap returning undefined makes the code report success |
| ProxySpec.FalsySetTrapResultFails | src/runtime/ProxyObject.cpp:218-226 | In the standard, every ToBoolean-false trap result makes [[Set]] return false |
| ProxySpec.SetterlessAccessorAcceptsSet | src/runtime/ProxyObject.cpp:244-251 | The code accepts a trapped set on a non-configurable accessor with a getter and no setter |
| ProxySpec.SpecSetAcceptsSetter | src/runtime/ProxyObject.cpp:244-251 | In the standard, a trapped set on an accessor succeeds exactly when the accessor is configurable or has a setter |
| ProxySpec.WritableDataPropertyRejectsGet | src/runtime/ProxyObject.cpp:173-179 | The code rejects any defined value a get trap reports for a non-configurable writable data property |
| ProxySpec.SpecGetChecksOnlyFrozenData | src/runtime/ProxyObject.cpp:165-179 | In the standard, a configurable or writable data property never constrains the trap's result |
| ProxySpec.FrozenDataGetRejected | src/runtime/ProxyObject.cpp:166-179 | The code rejects a get trap reporting 1 for a non-configurable, non-writable data property holding 1, which the standard accepts |
| ProxySpec.FrozenDataSetRejected | src/runtime/ProxyObject.cpp:236-251 | The code rejects a trapped set of 1 on a non-configurable, non-writable data property holding 1, which the standard accepts |
| ProxySpec.SpecSetChecksOnlyFrozenDataValue | src/runtime/ProxyObject.cpp:236-251 | In the standard, a trapped set on a data property succeeds exactly when it is configurable, writable, or already holds the value |
| ProxySpec.ThrowingOwnGetterEscapesGet | src/runtime/ProxyObject.cpp:160-166 | In the code, a throwing getter of the target's own accessor makes a trapped get throw, where the standard returns the trap's result |
| ProxySpec.SpecGetIgnoresOwnGetter | src/runtime/ProxyObject.cpp:160-166 | In the standard, a trapped get does not depend on what the target's own getter would do |
| ProxySpec.GetTrapSeesHandlerAsReceiver | src/runtime/ProxyObject.cpp:150-152 | The code passes the handler as the get trap's receiver argument |
| ProxySpec.SpecGetPassesReceiver | src/runtime/ProxyObject.cpp:150-152 | In the standard, the trap receives (target, key, receiver) |
| ProxyBuiltins.ConstructorCheck | src/runtime/GlobalObjectBuiltinProxy.cpp:39-75 | The arguments are accepted exactly under `new` with a target and a handler that are objects and not revoked proxies, and the accepted pair is (argument 0, argument 1); without `new` the reason is the missing `new` |
| ProxyBuiltins.TargetCheckedBeforeHandler | src/runtime/GlobalObjectBuiltinProxy.cpp:47-66 | A bad target is reported whatever the handler is |
| ProxyBuiltins.Construct | src/runtime/GlobalObjectBuiltinProxy.cpp:35-88 | Throws TypeError exactly when ConstructorCheck rejects; otherwise a fresh proxy with the given target and handler |
| ProxyBuiltins.Revoke | src/runtime/GlobalObjectBuiltinProxy.cpp:91-120 | `new` throws and changes nothing; a call returns undefined, clears the back-reference and empties the proxy's target and handler |
| ProxyBuiltins.RevokeTwice | src/runtime/GlobalObjectBuiltinProxy.cpp:101-107 | Revoking twice returns undefined both times and leaves the state the first call left |
| ProxyBuiltins.EnumerableKeys | src/runtime/GlobalObjectBuiltinProxy.cpp:136-143 | The listed keys are exactly the enumerable properties' keys |
| ProxyBuiltins.RevocablePropertiesNotEnumerable | src/runtime/GlobalObjectBuiltinProxy.cpp:136-143 | The result's `proxy` and `revoke` attributes differ from CreateDataProperty's, and enumerating the result lists no key |
| ProxyBuiltins.CreateDataPropertyKeysListed | src/runtime/GlobalObjectBuiltinProxy.cpp:136-143 | With CreateDataProperty's attributes, enumerating the result lists both `proxy` and `revoke` |
| ProxyBuiltins.ResultObject.DefineProperty | src/runtime/GlobalObjectBuiltinProxy.cpp:137-143 | Exactly the one property is added with its value and attributes |
| ProxyBuiltins.ResultObject.SetObjectPrototype | src/runtime/GlobalObjectBuiltinProxy.cpp:134-135 | The result object gets the object prototype, properties unchanged |
| ProxyBuiltins.Revocable | src/runtime/GlobalObjectBuiltinProxy.cpp:123-146 | `new` throws; otherwise throws exactly when the constructor's checks reject; on success an object with the object prototype holding the new proxy and a new revocation function whose back-reference is that proxy |
| ByteCode.ByteCodeBlock.PatchJumps | src/parser/ast/ForOfStatementNode.h:131-132 | Every jump at the listed positions is retargeted and nothing else changes |
| ByteCode.GenerateContext.ConsumeBreakPositions | src/parser/ast/ForOfStatementNode.h:131 | Every pending break jump is patched to the target and none stays pending |
| ByteCode.GenerateContext.ConsumeContinuePositions | src/parser/ast/ForOfStatementNode.h:132 | Every pending continue jump is patched to the target and none stays pending |
| ByteCode.GenerateContext.LastRegisterIndex | src/parser/ast/ClassExpressionNode.h:193 | getLastRegisterIndex(n) is the register n places below the top of the stack |
| CallExpressions.CollectIdentifierNames | src/parser/ast/CallExpressionNode.h:139-163 | The collected lists are duplicate-free and hold exactly the names the callee and arguments read and assign |
| CallExpressions.NoNameShared | src/parser/ast/CallExpressionNode.h:165-172 | The double loop answers whether no read name is also assigned |
| CallExpressions.NoNameSharedMeansDisjoint | src/parser/ast/CallExpressionNode.h:165-172 | That answer is the disjointness of the read and assigned name sets |
| CallExpressions.CanUseDirectRegister | src/parser/ast/CallExpressionNode.h:133-173 | Direct registers are allowed exactly when copying may be skipped and no name is both read and assigned |
| CallExpressions.ReserveArgumentRegisters | src/parser/ast/CallExpressionNode.h:64-66 | Each argument's own register is taken, in order |
| CallExpressions.CheckSorted | src/parser/ast/CallExpressionNode.h:68-76 | The loop answers whether the registers follow the start without a gap |
| CallExpressions.ProbeFastPath | src/parser/ast/CallExpressionNode.h:62-80 | The probe answers whether the fast path is taken and leaves the register stack as it was |
| CallExpressions.ArgumentsStartCases | src/parser/ast/CallExpressionNode.h:47-131 | The fast path (1 to 15 arguments, 14 for `super`, whose registers follow without a gap) returns its start; otherwise the first free register is returned |
| CallExpressions.FastPathUsesOwnRegisters | src/parser/ast/CallExpressionNode.h:85-87 | On the fast path each argument is evaluated into the register its own getRegister gives |
| CallExpressions.SpreadPositionsExact | src/parser/ast/CallExpressionNode.h:88-94 | The spread table lists exactly the spread arguments' positions plus the `this` offset, in increasing order |
| CallExpressions.SpreadPositionsSound | src/parser/ast/CallExpressionNode.h:88-94 | Every table entry is a spread argument's position plus the `this` offset |
| CallExpressions.SpreadPositionsComplete | src/parser/ast/CallExpressionNode.h:88-94 | Every spread argument's position plus the offset appears in the table |
| CallExpressions.SpreadPositionsIncreasing | src/parser/ast/CallExpressionNode.h:88-94 | The table's entries are strictly increasing, in argument order |
| CallExpressions.PassArguments | src/parser/ast/CallExpressionNode.h:81-103 | `this` is copied for a super call, the arguments are evaluated into consecutive registers from the start, a spread table is added iff some argument is spread, and the registers are given back |
| CallExpressions.LayOutArguments | src/parser/ast/CallExpressionNode.h:51-130 | generateArguments' body appends ArgumentsCode from the start ArgumentsStartCases describes |
| CallExpressions.GenerateArguments | src/parser/ast/CallExpressionNode.h:47-131 | Same, with the register stack restored and the calling-expression flag set to the negation of the clear request |
| CallExpressions.ArgumentsCodeShape | src/parser/ast/CallExpressionNode.h:81-121 | Argument code holds no call, and argument i ends up in start + (1 for super) + i |
| CallExpressions.GenerateEvalCall | src/parser/ast/CallExpressionNode.h:178-185 | The eval path loads `eval`, lays out the arguments and calls CallEvalFunction, with the stack restored |
| CallExpressions.EvalCallShape | src/parser/ast/CallExpressionNode.h:178-185 | The eval path's only call reads the arguments from their start |
| CallExpressions.GenerateWithScopeCall | src/parser/ast/CallExpressionNode.h:194-203 | A call by name in `with` lays out the arguments, then CallFunctionInWithScope, restoring the calling-expression flag |
| CallExpressions.WithScopeCallShape | src/parser/ast/CallExpressionNode.h:194-203 | The with path's only call reads the arguments from their start |
| CallExpressions.GenerateCalleeOperands | src/parser/ast/CallExpressionNode.h:205-226 | The callee is evaluated into its register; for a member or super callee the receiver is the held object, or `this` with super |
| CallExpressions.EmitCall | src/parser/ast/CallExpressionNode.h:238-246 | The call instruction with or without receiver, then for `super(...)` the copy of the result into `this` |
| CallExpressions.FinishOrdinaryCall | src/parser/ast/CallExpressionNode.h:228-246 | The arguments, the callee and receiver registers given back, then the call |
| CallExpressions.GenerateOrdinaryCall | src/parser/ast/CallExpressionNode.h:205-249 | The ordinary path's code, with the stack restored and the copy flag put back as before the call |
| CallExpressions.OrdinaryCallShape | src/parser/ast/CallExpressionNode.h:205-246 | The ordinary path's only call comes right after the arguments |
| CallExpressions.OrdinaryCallOperands | src/parser/ast/CallExpressionNode.h:216-239 | The call invokes the register the callee's code last wrote; a method call's receiver is the object its member expression left held, and `this` for super |
| CallExpressions.CallTailShape | src/parser/ast/CallExpressionNode.h:238-246 | The call reads the arguments from the start and writes the destination; a super call's copy into `this` follows |
| CallExpressions.GenerateCall | src/parser/ast/CallExpressionNode.h:175-250 | generateExpressionByteCode appends CallCode for whichever path applies, adds the spread table if any, restores the register stack, and leaves the flags as each path does |
| CallExpressions.CallCodeShape | src/parser/ast/CallExpressionNode.h:175-250 | Every path emits exactly one call instruction, last or just before the copy into `this`, reading the registers the arguments were evaluated into |
| ClassExpressions.KeyStringOf | src/parser/ast/ClassExpressionNode.h:195-215 | An identifier key is its name, a string literal itself, an int32 literal its number text; any other key is refused |
| ClassExpressions.DataPropertyCode | src/parser/ast/ClassExpressionNode.h:65-93 | The data-property definition is thirteen instructions over six temporaries above the current top |
| ClassExpressions.DataPropertyCall | src/parser/ast/ClassExpressionNode.h:73-86 | A data property is defined by calling `Object.defineProperty` with receiver `Object` on (target, key, a fresh descriptor) |
| ClassExpressions.DataPropertyFields | src/parser/ast/ClassExpressionNode.h:76-85 | The descriptor holds the key, the incoming value, `enumerable: false`, `writable: true`, `configurable: true` |
| ClassExpressions.DataPropertyFieldNames | src/parser/ast/ClassExpressionNode.h:78-85 | The descriptor defines exactly those five fields |
| ClassExpressions.DefinitionWritesOnlyTemporaries | src/parser/ast/ClassExpressionNode.h:50-95 | A definition writes only its own temporaries; registers below keep their values |
| ClassExpressions.DefinePropertyMethod | src/parser/ast/ClassExpressionNode.h:50-95 | A getter or setter is defined with ObjectDefineGetter/Setter from a loaded key, anything else as a data property; the key goes to the literal pool; every temporary is given back |
| ClassExpressions.EffectiveHeritage | src/parser/ast/ClassExpressionNode.h:102-111 | The superclass is a comma expression's last operand, else the heritage itself |
| ClassExpressions.GenerateHeritage | src/parser/ast/ClassExpressionNode.h:102-117 | Leading comma operands are evaluated for effect in a temporary; the superclass goes into a register that stays held |
| ClassExpressions.GenerateMembers | src/parser/ast/ClassExpressionNode.h:119-138 | The constructor is named after the class and created in the class register; each other member's function is created in a register of its own, held, in order, consuming function-expression children in turn; member j's child block (the `m_feCounter + j`-th function expression) takes the member's name, the class's for the constructor, when there is one and is marked in a with scope where needed, and every other child block keeps its name and flag |
| ClassExpressions.LinkSetsPrototype | src/parser/ast/ClassExpressionNode.h:140-167 | `Class.prototype` is `Object.create(heritage.prototype)`, or `Object.create(null)` for a null heritage; `Class.__proto__` is set to the heritage exactly when the heritage is not the null literal |
| ClassExpressions.LinkWritesOnlyTemporaries | src/parser/ast/ClassExpressionNode.h:140-172 | The link writes only its four temporaries |
| ClassExpressions.LinkPrototype | src/parser/ast/ClassExpressionNode.h:140-172 | The link appends LinkCode, adds one or two inline caches, and gives its temporaries back |
| ClassExpressions.MemberTarget | src/parser/ast/ClassExpressionNode.h:186-191 | A static non-constructor member is defined on the class, every other on the prototype |
| ClassExpressions.DefineMembers | src/parser/ast/ClassExpressionNode.h:178-218 | Each member is defined, in order, on its target from its function's register, found `regIdx` places below the top |
| ClassExpressions.DefineOnPrototype | src/parser/ast/ClassExpressionNode.h:174-222 | `dst.prototype` is loaded into a fresh register, the definitions follow, and the members' registers are given back |
| ClassExpressions.GenerateClass | src/parser/ast/ClassExpressionNode.h:98-226 | The class's code is ClassCode, the literal pool grows by the link's caches and the keys, the register stack is restored, and one function-expression child per member is consumed; the child blocks end as BlocksNamedUpTo states for the whole body: member j's block named after the member (the constructor's after the class) and marked in a with scope where needed, every other block unchanged |
| ClassExpressions.FunctionRegistersDistinct | src/parser/ast/ClassExpressionNode.h:125-136 | No two members' functions share a register |
| ClassExpressions.MemberFunctionLastWritten | src/parser/ast/ClassExpressionNode.h:125-137 | After the first loop, each member's register was last written by the creation of its own function |
| ClassExpressions.PrototypeLoadedBeforeDefinition | src/parser/ast/ClassExpressionNode.h:174-217 | Before each definition, the prototype register still holds `dst.prototype` |
| ClassExpressions.FunctionKeptUntilDefinition | src/parser/ast/ClassExpressionNode.h:125-217 | Before member j's definition, its register was last written by its own function's creation |
| ClassExpressions.MemberDefinedFromItsFunction | src/parser/ast/ClassExpressionNode.h:178-217 | When member j is defined, the value register holds the function created for member j, the prototype register holds `dst.prototype`, and the class register holds the constructor's function |
| ForOfStatements.GenerateIteratorLookup | src/parser/ast/ForOfStatementNode.h:56-76 | The right-hand side, `Symbol.iterator` read from it, the comparison with undefined and the unpatched skip over the TypeError, holding the right-hand side and iterator registers |
| ForOfStatements.GenerateIteratorSetup | src/parser/ast/ForOfStatementNode.h:56-84 | Adds the iterator call, with the jump and initPos positions where the patches need them |
| ForOfStatements.GenerateIteratorStep | src/parser/ast/ForOfStatementNode.h:89-108 | One step: `next()`, the `done` test, `value` stored into the left-hand side; the step's registers are given back |
| ForOfStatements.ResolveBodyExits | src/parser/ast/ForOfStatementNode.h:127-133 | After the jump back, the body's breaks go to forOfEnd and its continues to condPos; nothing stays pending |
| ForOfStatements.PatchIteratorJumps | src/parser/ast/ForOfStatementNode.h:141-147 | The exit jump is pushed and the three jumps get their targets: initPos, exitPos, exitPos |
| ForOfStatements.GenerateForOf | src/parser/ast/ForOfStatementNode.h:44-150 | The loop's code is ForOfCode; the register stack ends as it began, the register file grows by one, the caller's flags and pending jumps are untouched, and the function-expression counter propagates |
| ForOfProperties.ForOfCodeParts | src/parser/ast/ForOfStatementNode.h:44-150 | The loop is its head, the resolved exits, the jump back and the jump out, ending at exitPos |
| ForOfProperties.ForOfJumpsResolved | src/parser/ast/ForOfStatementNode.h:127-147 | Every jump in the loop is resolved to a position within or at the end of the loop; the two conditional ones are the iterator test and the `done` test |
| ForOfProperties.ForOfIteratorCheck | src/parser/ast/ForOfStatementNode.h:61-76 | The test compares the right-hand side's `Symbol.iterator` with undefined, and when they differ the jump skips exactly the TypeError throw |
| ForOfProperties.ForOfLoopKeepsIterator | src/parser/ast/ForOfStatementNode.h:79-149 | From condPos to the loop's end, the iterator register holds the result of calling `Symbol.iterator` on the right-hand side, and the right-hand side's register keeps its value |
| ForOfProperties.ForOfStep | src/parser/ast/ForOfStatementNode.h:87-108 | Each step starts at condPos with `next`, exits past the loop when `done` is true, and otherwise stores `value` into the left-hand side before the body |
| ForOfProperties.ForOfStepReadsNext | src/parser/ast/ForOfStatementNode.h:89-105 | `done` and `value` are read from the result of calling `next()` on the iterator |
| ForOfProperties.ForOfLoopEdges | src/parser/ast/ForOfStatementNode.h:127-147 | Breaks jump to forOfEnd, which holds the jump out; continues and the back jump go to condPos |
| MethodDefinitions.MethodDefinition.constructor | src/parser/ast/MethodDefinitionNode.h:31-36 | A new method definition keeps its key, kind and static flag and has no name |
| MethodDefinitions.MethodDefinition.IsStatic | src/parser/ast/MethodDefinitionNode.h:67-70 | The static flag the definition was made with |
| MethodDefinitions.MethodDefinition.SetName | src/parser/ast/MethodDefinitionNode.h:72-75 | The name reads back as set |
| MethodDefinitions.MethodDefinition.Name | src/parser/ast/MethodDefinitionNode.h:77-80 | The name last set |
| MethodDefinitions.NthFunctionExpression | src/parser/ast/MethodDefinitionNode.h:45-57 | The n-th function-expression child exists when there are more than n, and it has exactly n function expressions before it |
| MethodDefinitions.NthFunctionExpressionUnique | src/parser/ast/MethodDefinitionNode.h:45-57 | At most one child is the n-th function expression |
| MethodDefinitions.NthFunctionExpressionExists | src/parser/ast/MethodDefinitionNode.h:45-57 | Only a block with more than n function-expression children has an n-th one |
| MethodDefinitions.FindFunctionExpression | src/parser/ast/MethodDefinitionNode.h:45-57 | The search loop finds the n-th function-expression child |
| MethodDefinitions.GenerateMethodDefinition | src/parser/ast/MethodDefinitionNode.h:43-65 | The m_feCounter-th function-expression child gets the method's name, if any, and is marked in a with scope where needed; the function is created in the destination and the counter advances by one |
| SuperNodes.SuperCallChain | src/parser/ast/SuperNode.h:40-45 | Four property reads `this.__proto__.constructor.__proto__.call`, each from the register the previous one wrote, the last into the destination |
| SuperNodes.GenerateSuper | src/parser/ast/SuperNode.h:35-51 | `super(...)`'s callee is that chain, built in one new register that stays held |

## Left out

- The native-function and builtin `CodeBlock` constructors (CodeBlock.cpp:74-140) and
  the GC-aware `operator new` overloads (CodeBlock.cpp:30-72) only allocate and fill
  fields. Allocation is not modelled.
- `isGlobalScopeCodeBlock` is not in the modelled files. It is modelled as "has no
  parent block".
- The headers of `inEvalWithYieldScope` and `inNotIndexedCodeBlockScope` are not in
  the modelled files. They are modelled as walks over this block and its ancestors.
- A parameter record's heap flag and index are left uninitialised by the function
  constructor; they are false and 0 here. `computeVariables` overwrites both on every
  path.
- `CodeBlocks.InterpretedCodeBlock.CaptureArguments`: the record it adds for
  `arguments` has its explicit flag uninitialised in the source. It is false here.
- `CodeBlocks.InterpretedCodeBlock.CaptureArguments`: promises a binding named
  `arguments` only on the first call. The model has no class invariant tying
  `usesArgumentsObject` to that record.
- `CodeBlocks.IndexedParameterLoop`: models the corrected reading of CodeBlock.cpp:655
  (see Findings). The as-written reading is `CodeBlocks.ParameterAsWrittenSlots`.
- `CodeBlocks.ComputedLayout`: the indexed layout it describes uses the corrected
  reading of CodeBlock.cpp:655, not the code as written.
- `CodeBlocks.InterpretedCodeBlock.AssignIndexedParameterSlots`: stores the corrected
  reading of CodeBlock.cpp:655 through `IndexedParameterLoop`, not the code as written.
- `CodeBlocks.InterpretedCodeBlock.AssignSlots`: its indexed layout is the corrected
  reading of CodeBlock.cpp:655.
- `CodeBlocks.InterpretedCodeBlock.ComputeVariables`: its indexed layout is the
  corrected reading of CodeBlock.cpp:655.
- The `size_t` wrap of `indexInIdInfo -= 2` (CodeBlock.cpp:609) is integer
  subtraction here. It is only used for stack slots, which are at least 2 in a
  function.
- Proxy internal methods other than [[GetPrototypeOf]], [[Get]] and [[Set]] (for
  example defineOwnProperty, has, deleteOwnProperty, ownKeys) are declared in
  ProxyObject.h, but their bodies are not among the modelled files.
  `installProxy` (GlobalObjectBuiltinProxy.cpp:148-164) only registers the builtins
  and is not modelled.
- The target's own [[GetPrototypeOf]], [[Get]], [[Set]] and [[GetOwnProperty]], and
  the traps themselves, are inputs. A trap is a function of its arguments: its side
  effects and any exception it throws are not modelled.
- `ProxyDispatch.GetChecked`: `ObjectGetResult` is not part of this model, so what
  `jsGetterSetter()` yields for a data descriptor (ProxyObject.cpp:174) cannot be read
  from the modelled files. The model takes a data descriptor to have no getter
  (`GetterMissing`). A trapped get on a non-configurable data property then throws
  unless the trap reports `undefined`, even for a frozen value it matches
  (`ProxySpec.FrozenDataGetRejected`).
- `ProxyDispatch.SetChecked`: makes the same assumption for ProxyObject.cpp:246-247. Every
  trapped set on a non-configurable data property then throws, even one that writes
  the frozen value itself (`ProxySpec.FrozenDataSetRejected`).
- `ProxyDispatch.Get`: `ObjectGetResult::value` is not part of this model. Reading the
  own property at ProxyObject.cpp:166 is modelled by `ProxyDispatch.OwnValue`: a data
  property gives its value, an accessor without a getter gives `undefined`, and an
  accessor with a getter gives what that getter completes with on the target
  (`TargetView.getterResult`, an input).
- Values are abstract. Numbers are mathematical integers, so the SameValue cases of
  NaN and -0 are not distinguished. Property keys are values.
- The `handler.isObject()` else branches (ProxyObject.cpp:181-183, 256-259) cannot be
  reached, because the constructor only accepts object handlers. They are not
  modelled.
- `SuperNodes.GenerateSuper`: only the call form is modelled. The other form ends in
  an unconditional abort (SuperNode.h:46-49).
- Bytecode encoding, source locations, inline-cache contents and the exact width of
  register indices are left out. `REGULAR_REGISTER_LIMIT` is given a fixed value, and
  no proof depends on it.
- `ByteCodeGenerateContext` and `ByteCodeBlock` are not among the modelled files. They
  are modelled with the members these nodes use: getRegister as the next register
  above the stack depth, giveUpRegister, getLastRegisterIndex, pushCode, peekCode
  retargeting, the literal pool, the break/continue lists and propagateInformationTo
  (the function-expression counter only).
- The callee, arguments, heritage, left-hand side and loop body are abstract.
  `MemberExpressionNode`, `IdentifierNode` and the other node kinds are not part of
  this model, nor is what `iterateChildrenIdentifier` reports for them; that report is
  an input of each expression.
- `CallExpressions.SpreadPositionsExact`: exact only while `i + addIndex` fits in 16
  bits. Beyond that the table holds the truncated value (`SpreadIndex`).
- The number-to-string conversion of an int32 key (`dtoa`) is an abstract function.
- The pre-built string that ClassExpressionNode.h:202-203 looks up for an int32 key in
  `[0, ESCARGOT_STRINGS_NUMBERS_MAX)` is not modelled. Line 205 overwrites it on every
  path, so `ClassExpressions.KeyStringOf` gives the converted number for every int32 key.
- `ClassExpressions.GenerateClass` and `ClassExpressions.GenerateMembers` require the
  child blocks to be distinct objects (`MethodDefinitions.DistinctBlocks`). A code
  block's child list never holds one block twice, but the model does not derive
  that from how the parser builds the list.
- ClassDeclarationNode.h and ClassBodyNode.h are not part of this model. The class
  body is a sequence of method definitions with at most one constructor.
- `ForOfProperties.ForOfLoopKeepsIterator`: the loop body and the left-hand store are
  abstract, and `Execute` and `Store` are taken to write no register. In the source the
  iterator registers survive because they stay on the register stack while the body is
  generated; the model does not capture that reason, only its consequence.
- The IteratorClose that for-of should perform on an abrupt exit is a TODO in the
  source (ForOfStatementNode.h:136-137). It is not generated, and not modelled.

## Findings

| source | as written | input that shows it | evidently intended | confidence | as-written member | corrected member |
|---|---|---|---|---|---|---|
| src/parser/CodeBlock.cpp:655 | A repeated parameter's index is `computedNameIndex[computedIndex].second`: the name-to-slot table is indexed by a slot | `function f(a, b, c, c) { return () => a; }`: the second `c` gets slot 0 (b's) instead of 1 (c's) | The repeated parameter takes `computedIndex`, the slot already found for its name | high; not executed | CodeBlocks.RepeatedParameterGetsWrongSlot | CodeBlocks.ParameterLayoutSlots |
| src/runtime/ProxyObject.cpp:151-152 | The get trap is called with arguments (target, key, handler) | a get trap returning its third argument reports the handler | (target, key, Receiver), as step 6 of section 9.5.8 of ECMA-262 says | high; not executed | ProxySpec.GetTrapSeesHandlerAsReceiver | ProxySpec.SpecGetPassesReceiver |
| src/runtime/ProxyObject.cpp:224 | The set trap's result is compared by `isFalse()` (exactly `false`) instead of ToBoolean | a set trap returning `undefined` reports success | ToBoolean of the result, as step 6 of section 9.5.9 says | high; not executed | ProxySpec.FalsySetTrapResultSucceeds | ProxySpec.FalsySetTrapResultFails |
| src/runtime/ProxyObject.cpp:245-247 | A non-configurable property accepts a trapped set when it has a getter; the setter is not consulted | a non-configurable accessor with a getter and no setter accepts the set | throw when `targetDesc.[[Set]]` is undefined, as step 9.b of section 9.5.9 says | high; not executed | ProxySpec.SetterlessAccessorAcceptsSet | ProxySpec.SpecSetAcceptsSetter |
| src/runtime/ProxyObject.cpp:174 | The getter test is applied to every non-configurable property, data properties included | a non-configurable writable data property rejects a get trap reporting 2 | only accessor descriptors are checked, as step 9.b of section 9.5.8 says | medium; not executed; depends on what `jsGetterSetter()` yields for a data descriptor, which is not in the modelled files | ProxySpec.WritableDataPropertyRejectsGet | ProxySpec.SpecGetChecksOnlyFrozenData |
| src/runtime/ProxyObject.cpp:149-155 | A trap slot holding `null` is a TypeError | a handler `{get: null}` makes every property read throw | GetMethod treats `null` like `undefined`, so the target answers (section 7.3.9) | medium; not executed | ProxySpec.NullGetTrapThrows | ProxySpec.NullTrapFallsThrough |
| src/runtime/ProxyObject.cpp:246-247 | The getter test is applied to every non-configurable property, data properties included | a trap returning `true` for a set of 1 on a non-configurable, non-writable data property holding 1 throws | only accessor descriptors are checked, and a frozen data property accepts its own value, as step 9 of section 9.5.9 says | medium; not executed; depends on what `jsGetterSetter()` yields for a data descriptor, which is not in the modelled files | ProxySpec.FrozenDataSetRejected | ProxySpec.SpecSetChecksOnlyFrozenDataValue |
| src/runtime/ProxyObject.cpp:166 | `targetDesc.value(state, target)` is evaluated for every own property and its result is never used | a configurable accessor whose getter throws `e`, with a callable get trap: the call throws `e` | steps 7-9 of section 9.5.8 read only the descriptor, never run the getter | medium; not executed; assumes `ObjectGetResult::value` calls the getter, which is not in the modelled files | ProxySpec.ThrowingOwnGetterEscapesGet | ProxySpec.SpecGetIgnoresOwnGetter |
| src/runtime/GlobalObjectBuiltinProxy.cpp:136-143 | `proxy` and `revoke` are defined writable and configurable only, so not enumerable | enumerating the keys of `Proxy.revocable({}, {})` lists none | CreateDataProperty's writable, enumerable, configurable attributes, as steps 3-4 of section 26.2.2.1 say | high; not executed | ProxyBuiltins.RevocablePropertiesNotEnumerable | ProxyBuiltins.CreateDataPropertyKeysListed |

