// CallExpressionNode's code generation: whether argument values may be
// used in their own registers (canUseDirectRegister), where the arguments
// are laid out (generateArguments, with its fast path for arguments that
// already sit in consecutive registers), and the call instruction chosen
// for a direct eval, a call inside `with`, and an ordinary call with or
// without a receiver.

module CallExpressions {
  import opened ByteCode
  import SuperNodes

  datatype CallExpression = CallExpression(
    id: NodeId,
    callee: Expr,
    arguments: seq<Expr>,
    useSuper: bool,
    useSpreadArgument: bool)

  // -----------------------------------------------------------------------
  // canUseDirectRegister
  // -----------------------------------------------------------------------

  /** The names an identifier walk reports as read. */
  function ReadNames(events: seq<(string, bool)>): (r: set<string>)
  {
    set k | 0 <= k < |events| && !events[k].1 :: events[k].0
  }

  /** The names an identifier walk reports as assigned. */
  function AssignedNames(events: seq<(string, bool)>): (r: set<string>)
  {
    set k | 0 <= k < |events| && events[k].1 :: events[k].0
  }

  /** What iterateChildrenIdentifier reports for the callee and then each argument, in order. */
  function CallIdentifiers(callee: Expr, args: seq<Expr>): (r: seq<(string, bool)>)
    ensures |args| > 0 ==> r == CallIdentifiers(callee, args[..|args| - 1]) + args[|args| - 1].identifiers
    ensures |args| == 0 ==> r == callee.identifiers
  {
    if args == [] then callee.identifiers
    else CallIdentifiers(callee, args[..|args| - 1]) + args[|args| - 1].identifiers
  }

  /** Values may stay in their own registers when copying may be skipped and no name is both read and assigned. */
  predicate DirectRegisterAllowed(canSkipCopyToRegister: bool, events: seq<(string, bool)>)
  {
    canSkipCopyToRegister && ReadNames(events) * AssignedNames(events) == {}
  }

  predicate NoDuplicates(names: seq<string>)
  {
    forall i, j :: 0 <= i < j < |names| ==> names[i] != names[j]
  }

  lemma {:induction false} ReadNamesAppend(events: seq<(string, bool)>, e: (string, bool))
    ensures ReadNames(events + [e]) == ReadNames(events) + (if !e.1 then {e.0} else {})
    ensures AssignedNames(events + [e]) == AssignedNames(events) + (if e.1 then {e.0} else {})
  {
    var ev := events + [e];
    assert forall k :: 0 <= k < |events| ==> ev[k] == events[k];
    assert ev[|events|] == e;
  }

  /** The body of the callback: adds `name` to `names` unless it is already there. */
  method AddName(names: seq<string>, name: string) returns (r: seq<string>)
    requires NoDuplicates(names)
    ensures NoDuplicates(r)
    ensures (set x | x in r) == (set x | x in names) + {name}
    ensures name in names ==> r == names
  {
    var i := 0;
    while i < |names|
      invariant 0 <= i <= |names|
      invariant forall k :: 0 <= k < i ==> names[k] != name
    {
      if names[i] == name {
        return names;
      }
      i := i + 1;
    }
    r := names + [name];
  }

  /** Runs the callback on each (name, isAssignment) pair a node reports. */
  method RecordIdentifiers(names: seq<string>, assignmentNames: seq<string>, events: seq<(string, bool)>,
                           ghost before: seq<(string, bool)>)
    returns (names': seq<string>, assignmentNames': seq<string>)
    requires NoDuplicates(names) && NoDuplicates(assignmentNames)
    requires (set x | x in names) == ReadNames(before) && (set x | x in assignmentNames) == AssignedNames(before)
    ensures NoDuplicates(names') && NoDuplicates(assignmentNames')
    ensures (set x | x in names') == ReadNames(before + events)
    ensures (set x | x in assignmentNames') == AssignedNames(before + events)
  {
    names', assignmentNames' := names, assignmentNames;
    assert before + events[..0] == before;
    var k := 0;
    while k < |events|
      invariant 0 <= k <= |events|
      invariant NoDuplicates(names') && NoDuplicates(assignmentNames')
      invariant (set x | x in names') == ReadNames(before + events[..k])
      invariant (set x | x in assignmentNames') == AssignedNames(before + events[..k])
    {
      assert before + events[..k + 1] == (before + events[..k]) + [events[k]];
      ReadNamesAppend(before + events[..k], events[k]);
      if events[k].1 {
        assignmentNames' := AddName(assignmentNames', events[k].0);
      } else {
        names' := AddName(names', events[k].0);
      }
      k := k + 1;
    }
    assert events[..k] == events;
  }

  /** The collected name lists: each duplicate-free, holding exactly the read and the assigned names. */
  method CollectIdentifierNames(callee: Expr, args: seq<Expr>) returns (names: seq<string>, assignmentNames: seq<string>)
    ensures NoDuplicates(names) && NoDuplicates(assignmentNames)
    ensures (set x | x in names) == ReadNames(CallIdentifiers(callee, args))
    ensures (set x | x in assignmentNames) == AssignedNames(CallIdentifiers(callee, args))
  {
    assert ReadNames([]) == {} && AssignedNames([]) == {};
    names, assignmentNames := RecordIdentifiers([], [], callee.identifiers, []);
    assert [] + callee.identifiers == CallIdentifiers(callee, args[..0]);
    var i := 0;
    while i < |args|
      invariant 0 <= i <= |args|
      invariant NoDuplicates(names) && NoDuplicates(assignmentNames)
      invariant (set x | x in names) == ReadNames(CallIdentifiers(callee, args[..i]))
      invariant (set x | x in assignmentNames) == AssignedNames(CallIdentifiers(callee, args[..i]))
    {
      assert args[..i + 1][..i] == args[..i];
      names, assignmentNames := RecordIdentifiers(names, assignmentNames, args[i].identifiers, CallIdentifiers(callee, args[..i]));
      i := i + 1;
    }
    assert args[..i] == args;
  }

  /** The final double loop of canUseDirectRegister: no collected read name is among the assigned ones. */
  method NoNameShared(names: seq<string>, assignmentNames: seq<string>) returns (r: bool)
    ensures r <==> forall k :: 0 <= k < |names| ==> names[k] !in assignmentNames
  {
    var i := 0;
    while i < |names|
      invariant 0 <= i <= |names|
      invariant forall k :: 0 <= k < i ==> names[k] !in assignmentNames
    {
      var j := 0;
      while j < |assignmentNames|
        invariant 0 <= j <= |assignmentNames|
        invariant forall l :: 0 <= l < j ==> assignmentNames[l] != names[i]
      {
        if names[i] == assignmentNames[j] {
          return false;
        }
        j := j + 1;
      }
      i := i + 1;
    }
    return true;
  }

  lemma {:induction false} NoNameSharedMeansDisjoint(names: seq<string>, assignmentNames: seq<string>)
    ensures (forall k :: 0 <= k < |names| ==> names[k] !in assignmentNames) <==>
            (set x | x in names) * (set x | x in assignmentNames) == {}
  {
    if !(forall k :: 0 <= k < |names| ==> names[k] !in assignmentNames) {
      var k :| 0 <= k < |names| && names[k] in assignmentNames;
      assert names[k] in (set x | x in names) * (set x | x in assignmentNames);
    }
  }

  /** canUseDirectRegister. */
  method CanUseDirectRegister(ctx: GenerateContext, callee: Expr, args: seq<Expr>) returns (r: bool)
    ensures r == DirectRegisterAllowed(ctx.canSkipCopyToRegister, CallIdentifiers(callee, args))
  {
    if !ctx.canSkipCopyToRegister {
      return false;
    }
    var names, assignmentNames := CollectIdentifierNames(callee, args);
    r := NoNameShared(names, assignmentNames);
    NoNameSharedMeansDisjoint(names, assignmentNames);
  }

  // -----------------------------------------------------------------------
  // generateArguments
  // -----------------------------------------------------------------------

  /** The number of argument slots below which the fast path is tried. */
  const SMALL_AMOUNT_OF_ARGUMENTS: nat := 16

  /**
   * The registers one pass over the arguments takes, the first at
   * `first`: each argument's own register when `direct`, else fresh ones.
   */
  function PassRegisters(args: seq<Expr>, direct: bool, canSkipCopyToRegister: bool, first: Register): (r: seq<Register>)
    ensures |r| == |args|
  {
    seq(|args|, i requires 0 <= i < |args| =>
      if direct then ExprRegister(args[i], canSkipCopyToRegister, first + i) else first + i)
  }

  /** `regs[i] == k + i + addIndex` for every argument: the registers follow `k` without a gap. */
  predicate IsSorted(regs: seq<Register>, k: Register, addIndex: nat)
  {
    forall i :: 0 <= i < |regs| ==> regs[i] == k + i + addIndex
  }

  /** The register the fast path returns: `this`'s register for a super call, else the first argument's. */
  function FastStart(args: seq<Expr>, callSuper: bool, canSkipCopyToRegister: bool, first: Register): (r: Register)
  {
    if callSuper then first else if |args| > 0 then ExprRegister(args[0], canSkipCopyToRegister, first) else first
  }

  /** The fast path is taken: few enough arguments, and their own registers follow the start without a gap. */
  predicate FastPathTaken(args: seq<Expr>, callSuper: bool, canSkipCopyToRegister: bool, first: Register)
  {
    var addIndex := if callSuper then 1 else 0;
    0 < |args| < SMALL_AMOUNT_OF_ARGUMENTS - addIndex &&
    IsSorted(PassRegisters(args, true, canSkipCopyToRegister, first + addIndex),
             FastStart(args, callSuper, canSkipCopyToRegister, first), addIndex)
  }

  /** The register generateArguments returns, called when `first` is the next free register. */
  function ArgumentsStart(args: seq<Expr>, callSuper: bool, canSkipCopyToRegister: bool, first: Register): (r: Register)
  {
    if FastPathTaken(args, callSuper, canSkipCopyToRegister, first) then FastStart(args, callSuper, canSkipCopyToRegister, first)
    else first
  }

  /** Which path generateArguments takes, and what it returns on each. */
  lemma {:induction false} ArgumentsStartCases(args: seq<Expr>, callSuper: bool, canSkipCopyToRegister: bool, first: Register)
    ensures var addIndex := if callSuper then 1 else 0;
      var regs := PassRegisters(args, true, canSkipCopyToRegister, first + addIndex);
      var start := ArgumentsStart(args, callSuper, canSkipCopyToRegister, first);
      start == first ||
      (0 < |args| < SMALL_AMOUNT_OF_ARGUMENTS - addIndex && IsSorted(regs, start, addIndex))
  {
    var addIndex := if callSuper then 1 else 0;
    if FastPathTaken(args, callSuper, canSkipCopyToRegister, first) {
      assert IsSorted(PassRegisters(args, true, canSkipCopyToRegister, first + addIndex),
                      FastStart(args, callSuper, canSkipCopyToRegister, first), addIndex);
    }
  }

  /** On the fast path every argument is evaluated into the register its own getRegister gives. */
  lemma {:induction false} FastPathUsesOwnRegisters(args: seq<Expr>, callSuper: bool, canSkipCopyToRegister: bool, first: Register, i: nat)
    requires i < |args|
    requires FastPathTaken(args, callSuper, canSkipCopyToRegister, first)
    ensures var addIndex := if callSuper then 1 else 0;
      ArgumentsStart(args, callSuper, canSkipCopyToRegister, first) + addIndex + i ==
      ExprRegister(args[i], canSkipCopyToRegister, first + addIndex + i)
  {
    var addIndex := if callSuper then 1 else 0;
    var regs := PassRegisters(args, true, canSkipCopyToRegister, first + addIndex);
    assert regs[i] == ExprRegister(args[i], canSkipCopyToRegister, first + addIndex + i);
  }

  /** The argument code of one pass: each argument evaluated into its register. */
  function ArgumentValuesCode(args: seq<Expr>, regs: seq<Register>): (r: seq<Instr>)
    requires |regs| == |args|
    ensures |r| == |args|
  {
    seq(|args|, i requires 0 <= i < |args| => Evaluate(args[i].id, regs[i]))
  }

  /**
   * The code generateArguments emits when it returns `start`: `this`
   * copied into `start` for a super call, then each argument evaluated,
   * all in consecutive registers from `start`.
   */
  function ArgumentsCode(args: seq<Expr>, start: Register, callSuper: bool): (r: seq<Instr>)
  {
    var addIndex := if callSuper then 1 else 0;
    (if callSuper then [Move(REGULAR_REGISTER_LIMIT, start)] else []) +
    ArgumentValuesCode(args, Consecutive(start + addIndex, |args|))
  }

  predicate IsCall(i: Instr)
  {
    i.CallFunction? || i.CallFunctionWithReceiver? || i.CallEvalFunction? || i.CallFunctionInWithScope?
  }

  /** Argument code holds no call of its own, and puts argument `i` in `start + addIndex + i`. */
  lemma {:induction false} ArgumentsCodeShape(args: seq<Expr>, start: Register, callSuper: bool)
    ensures var code := ArgumentsCode(args, start, callSuper);
      var addIndex := if callSuper then 1 else 0;
      |code| == addIndex + |args| &&
      (forall k :: 0 <= k < |code| ==> !IsCall(code[k])) &&
      (forall i :: 0 <= i < |args| ==> code[addIndex + i] == Evaluate(args[i].id, start + addIndex + i)) &&
      (callSuper ==> code[0] == Move(REGULAR_REGISTER_LIMIT, start))
  {
  }

  /** The spread-index table entry for argument `i`: the index as a 16-bit value. */
  function SpreadIndex(i: nat, addIndex: nat): (r: nat)
    ensures r < 0x1_0000
    ensures i + addIndex < 0x1_0000 ==> r == i + addIndex
  {
    (i + addIndex) % 0x1_0000
  }

  function SpreadPositions(args: seq<Expr>, useSpread: bool, addIndex: nat): (r: seq<nat>)
    ensures |r| <= |args|
  {
    if args == [] then []
    else
      SpreadPositions(args[..|args| - 1], useSpread, addIndex) +
      (if useSpread && args[|args| - 1].kind.SpreadElement? then [SpreadIndex(|args| - 1, addIndex)] else [])
  }

  /**
   * Without 16-bit wrap-around the table lists exactly the spread
   * arguments' positions plus `addIndex`, in increasing order.
   */
  lemma {:induction false} SpreadPositionsExact(args: seq<Expr>, useSpread: bool, addIndex: nat)
    requires |args| + addIndex <= 0x1_0000
    ensures ExactSpreadTable(args, useSpread, addIndex, SpreadPositions(args, useSpread, addIndex))
  {
    SpreadPositionsSound(args, useSpread, addIndex);
    SpreadPositionsComplete(args, useSpread, addIndex);
    SpreadPositionsIncreasing(args, useSpread, addIndex);
  }

  /** `table` lists exactly the spread arguments' positions plus `addIndex`, in increasing order. */
  predicate ExactSpreadTable(args: seq<Expr>, useSpread: bool, addIndex: nat, table: seq<nat>)
  {
    SoundSpreadTable(args, useSpread, addIndex, table) &&
    CompleteSpreadTable(args, useSpread, addIndex, table) &&
    IncreasingSpreadTable(table)
  }

  /** Every entry of `table` is a spread argument's position plus `addIndex`. */
  predicate SoundSpreadTable(args: seq<Expr>, useSpread: bool, addIndex: nat, table: seq<nat>)
  {
    forall k :: 0 <= k < |table| ==>
      addIndex <= table[k] < |args| + addIndex && useSpread && args[table[k] - addIndex].kind.SpreadElement?
  }

  /** Every spread argument's position plus `addIndex` is in `table`. */
  predicate CompleteSpreadTable(args: seq<Expr>, useSpread: bool, addIndex: nat, table: seq<nat>)
  {
    forall i :: 0 <= i < |args| && useSpread && args[i].kind.SpreadElement? ==> i + addIndex in table
  }

  predicate IncreasingSpreadTable(table: seq<nat>)
  {
    forall k1, k2 :: 0 <= k1 < k2 < |table| ==> table[k1] < table[k2]
  }

  /** The table after the last argument: the prefix's table, then the last argument's entry if it is a spread. */
  lemma {:induction false} SpreadPositionsSnoc(args: seq<Expr>, useSpread: bool, addIndex: nat)
    requires args != [] && |args| + addIndex <= 0x1_0000
    ensures SpreadPositions(args, useSpread, addIndex) ==
      SpreadPositions(args[..|args| - 1], useSpread, addIndex) +
      (if useSpread && args[|args| - 1].kind.SpreadElement? then [|args| - 1 + addIndex] else [])
  {
    assert SpreadIndex(|args| - 1, addIndex) == |args| - 1 + addIndex;
  }

  /** Every entry of the table is a spread argument's position plus `addIndex`. */
  lemma {:induction false} SpreadPositionsSound(args: seq<Expr>, useSpread: bool, addIndex: nat)
    requires |args| + addIndex <= 0x1_0000
    ensures SoundSpreadTable(args, useSpread, addIndex, SpreadPositions(args, useSpread, addIndex))
  {
    if args != [] {
      var last := |args| - 1;
      var prefix := args[..last];
      var rp := SpreadPositions(prefix, useSpread, addIndex);
      SpreadPositionsSound(prefix, useSpread, addIndex);
      assert SoundSpreadTable(prefix, useSpread, addIndex, rp);
      var r := rp + (if useSpread && args[last].kind.SpreadElement? then [last + addIndex] else []);
      SpreadPositionsSnoc(args, useSpread, addIndex);
      forall k | 0 <= k < |r|
        ensures addIndex <= r[k] < |args| + addIndex && useSpread && args[r[k] - addIndex].kind.SpreadElement?
      {
        if k < |rp| {
          assert r[k] == rp[k];
          assert addIndex <= rp[k] < |prefix| + addIndex && useSpread && prefix[rp[k] - addIndex].kind.SpreadElement?;
          assert prefix[rp[k] - addIndex] == args[rp[k] - addIndex];
        } else {
          assert r[k] == last + addIndex;
        }
      }
      assert SoundSpreadTable(args, useSpread, addIndex, r);
    }
  }

  /** Every spread argument's position plus `addIndex` is in the table. */
  lemma {:induction false} SpreadPositionsComplete(args: seq<Expr>, useSpread: bool, addIndex: nat)
    requires |args| + addIndex <= 0x1_0000
    ensures CompleteSpreadTable(args, useSpread, addIndex, SpreadPositions(args, useSpread, addIndex))
  {
    if args != [] {
      var last := |args| - 1;
      var prefix := args[..last];
      var rp := SpreadPositions(prefix, useSpread, addIndex);
      SpreadPositionsComplete(prefix, useSpread, addIndex);
      assert CompleteSpreadTable(prefix, useSpread, addIndex, rp);
      var r := rp + (if useSpread && args[last].kind.SpreadElement? then [last + addIndex] else []);
      SpreadPositionsSnoc(args, useSpread, addIndex);
      forall i | 0 <= i < |args| && useSpread && args[i].kind.SpreadElement?
        ensures i + addIndex in r
      {
        if i < last {
          assert prefix[i] == args[i];
          assert i + addIndex in rp;
        } else {
          assert r[|r| - 1] == last + addIndex;
        }
      }
      assert CompleteSpreadTable(args, useSpread, addIndex, r);
    }
  }

  /** The table is strictly increasing. */
  lemma {:induction false} SpreadPositionsIncreasing(args: seq<Expr>, useSpread: bool, addIndex: nat)
    requires |args| + addIndex <= 0x1_0000
    ensures IncreasingSpreadTable(SpreadPositions(args, useSpread, addIndex))
  {
    if args != [] {
      var last := |args| - 1;
      var prefix := args[..last];
      var rp := SpreadPositions(prefix, useSpread, addIndex);
      SpreadPositionsIncreasing(prefix, useSpread, addIndex);
      SpreadPositionsSound(prefix, useSpread, addIndex);
      assert IncreasingSpreadTable(rp) && SoundSpreadTable(prefix, useSpread, addIndex, rp);
      var r := rp + (if useSpread && args[last].kind.SpreadElement? then [last + addIndex] else []);
      SpreadPositionsSnoc(args, useSpread, addIndex);
      forall k1, k2 | 0 <= k1 < k2 < |r|
        ensures r[k1] < r[k2]
      {
        assert r[k1] == rp[k1];
        if k2 >= |rp| {
          assert r[k2] == last + addIndex;
          assert rp[k1] < |prefix| + addIndex;
        } else {
          assert r[k2] == rp[k2];
        }
      }
      assert IncreasingSpreadTable(r);
    }
  }

  /** The literal pool after a pass: one spread table added exactly when some argument is spread. */
  predicate SpreadTableAdded(literals: seq<LiteralEntry>, literals0: seq<LiteralEntry>, table: Option<nat>,
                             args: seq<Expr>, useSpread: bool, addIndex: nat)
  {
    if SpreadPositions(args, useSpread, addIndex) == [] then
      table == None && literals == literals0
    else
      table == Some(|literals0|) &&
      literals == literals0 + [SpreadIndexTable(SpreadPositions(args, useSpread, addIndex))]
  }

  /** Records argument `i` in the spread-index table, creating the table on first use. */
  method NoteSpreadArgument(cb: ByteCodeBlock, table: Option<nat>, index: nat, ghost literals0: seq<LiteralEntry>,
                            ghost positions: seq<nat>)
    returns (table': Option<nat>)
    requires table == None ==> positions == [] && cb.literalData == literals0
    requires table != None ==>
      (positions != [] && table == Some(|literals0|) && cb.literalData == literals0 + [SpreadIndexTable(positions)])
    modifies cb
    ensures table' == Some(|literals0|)
    ensures cb.literalData == literals0 + [SpreadIndexTable(positions + [index])]
    ensures cb.code == old(cb.code) && cb.requiredRegisterFileSize == old(cb.requiredRegisterFileSize)
  {
    table' := table;
    if table' == None {
      table' := Some(|cb.literalData|);
      cb.PushLiteral(SpreadIndexTable([]));
    }
    cb.AppendSpreadIndex(table'.value, index);
  }

  /** Takes each argument's own register for it, in order (the fast path's first pass). */
  method ReserveArgumentRegisters(ctx: GenerateContext, args: seq<Expr>) returns (regs: seq<Register>)
    modifies ctx.registers
    ensures regs == PassRegisters(args, true, ctx.canSkipCopyToRegister, old(ctx.registers.NextFree()))
    ensures ctx.registers.stack == old(ctx.registers.stack) + regs
  {
    ghost var first := ctx.registers.NextFree();
    ghost var all := PassRegisters(args, true, ctx.canSkipCopyToRegister, first);
    regs := [];
    var i := 0;
    while i < |args|
      invariant 0 <= i <= |args|
      invariant regs == all[..i]
      invariant ctx.registers.stack == old(ctx.registers.stack) + regs
      invariant ctx.registers.NextFree() == first + i
    {
      var r := GetExprRegister(ctx, args[i]);
      regs := regs + [r];
      i := i + 1;
    }
  }

  /** The sortedness loop of the fast path. */
  method CheckSorted(regs: seq<Register>, k: Register, addIndex: nat) returns (isSorted: bool)
    requires addIndex <= 1 && (addIndex == 0 ==> |regs| > 0 && regs[0] == k)
    ensures isSorted == IsSorted(regs, k, addIndex)
  {
    var i := 1 - addIndex;
    while i < |regs|
      invariant 1 - addIndex <= i
      invariant forall j :: 0 <= j < i && j < |regs| ==> regs[j] == k + j + addIndex
    {
      if k + i + addIndex != regs[i] {
        return false;
      }
      i := i + 1;
    }
    return true;
  }

  /** Without direct registers a pass takes consecutive fresh registers. */
  lemma {:induction false} FreshPassIsConsecutive(args: seq<Expr>, canSkipCopyToRegister: bool, first: Register)
    ensures PassRegisters(args, false, canSkipCopyToRegister, first) == Consecutive(first, |args|)
  {
  }

  /** The sortedness check passing means the direct pass takes consecutive registers from the start. */
  lemma {:induction false} SortedPassIsConsecutive(args: seq<Expr>, canSkipCopyToRegister: bool, first: Register, k: Register, addIndex: nat)
    requires IsSorted(PassRegisters(args, true, canSkipCopyToRegister, first), k, addIndex)
    ensures PassRegisters(args, true, canSkipCopyToRegister, first) == Consecutive(k + addIndex, |args|)
  {
  }

  /** The code of a pass over consecutive registers, after `this` is copied for a super call. */
  lemma {:induction false} PassCode(args: seq<Expr>, start: Register, callSuper: bool, code0: seq<Instr>)
    ensures var addIndex := if callSuper then 1 else 0;
      (code0 + (if callSuper then [Move(REGULAR_REGISTER_LIMIT, start)] else [])) +
      ArgumentValuesCode(args, Consecutive(start + addIndex, |args|)) ==
      code0 + ArgumentsCode(args, start, callSuper)
  {
  }

  /** Appending one evaluated argument extends a pass's code. */
  lemma {:induction false} ArgumentValuesCodeStep(args: seq<Expr>, regs: seq<Register>, i: nat)
    requires i < |args| == |regs|
    ensures ArgumentValuesCode(args[..i], regs[..i]) + [Evaluate(args[i].id, regs[i])] ==
            ArgumentValuesCode(args[..i + 1], regs[..i + 1])
  {
  }

  /** The spread bookkeeping for argument `i` of a pass: the table follows the spread arguments so far. */
  method RecordSpreadArgument(cb: ByteCodeBlock, table: Option<nat>, args: seq<Expr>, i: nat, useSpread: bool,
                              addIndex: nat, ghost literals0: seq<LiteralEntry>)
    returns (table': Option<nat>)
    requires i < |args|
    requires SpreadTableAdded(cb.literalData, literals0, table, args[..i], useSpread, addIndex)
    modifies cb
    ensures SpreadTableAdded(cb.literalData, literals0, table', args[..i + 1], useSpread, addIndex)
    ensures cb.code == old(cb.code) && cb.requiredRegisterFileSize == old(cb.requiredRegisterFileSize)
  {
    assert args[..i + 1][..i] == args[..i];
    assert SpreadPositions(args[..i + 1], useSpread, addIndex) ==
           SpreadPositions(args[..i], useSpread, addIndex) +
           (if useSpread && args[i].kind.SpreadElement? then [SpreadIndex(i, addIndex)] else []);
    table' := table;
    if useSpread && args[i].kind.SpreadElement? {
      table' := NoteSpreadArgument(cb, table, SpreadIndex(i, addIndex), literals0,
                                   SpreadPositions(args[..i], useSpread, addIndex));
      assert SpreadPositions(args[..i + 1], useSpread, addIndex) != [];
      assert cb.literalData == literals0 + [SpreadIndexTable(SpreadPositions(args[..i + 1], useSpread, addIndex))];
    } else {
      assert SpreadPositions(args[..i + 1], useSpread, addIndex) == SpreadPositions(args[..i], useSpread, addIndex);
    }
  }

  /** One pass that evaluates every argument into a register it takes, noting spread arguments. */
  method GenerateArgumentValues(cb: ByteCodeBlock, ctx: GenerateContext, args: seq<Expr>, direct: bool,
                                useSpread: bool, addIndex: nat)
    returns (table: Option<nat>)
    modifies cb, ctx.registers
    ensures var regs := PassRegisters(args, direct, ctx.canSkipCopyToRegister, old(ctx.registers.NextFree()));
      ctx.registers.stack == old(ctx.registers.stack) + regs &&
      cb.code == old(cb.code) + ArgumentValuesCode(args, regs)
    ensures SpreadTableAdded(cb.literalData, old(cb.literalData), table, args, useSpread, addIndex)
    ensures cb.requiredRegisterFileSize == old(cb.requiredRegisterFileSize)
  {
    ghost var first := ctx.registers.NextFree();
    ghost var all := PassRegisters(args, direct, ctx.canSkipCopyToRegister, first);
    ghost var code0 := cb.code;
    ghost var literals0 := cb.literalData;
    table := None;
    var i := 0;
    while i < |args|
      invariant 0 <= i <= |args|
      invariant ctx.registers.stack == old(ctx.registers.stack) + all[..i]
      invariant ctx.registers.NextFree() == first + i
      invariant cb.code == code0 + ArgumentValuesCode(args[..i], all[..i])
      invariant SpreadTableAdded(cb.literalData, literals0, table, args[..i], useSpread, addIndex)
      invariant cb.requiredRegisterFileSize == old(cb.requiredRegisterFileSize)
    {
      assert args[..i + 1][..i] == args[..i];
      var reg;
      if direct {
        reg := GetExprRegister(ctx, args[i]);
      } else {
        reg := ctx.GetRegister();
      }
      assert reg == all[i];
      GenerateExpression(cb, args[i], reg);
      ArgumentValuesCodeStep(args, all, i);
      table := RecordSpreadArgument(cb, table, args, i, useSpread, addIndex, literals0);
      i := i + 1;
    }
    assert args[..i] == args && all[..i] == all;
  }

  /**
   * generateArguments.  The arguments end up in consecutive registers
   * from the returned one (after `this` for a super call); the register
   * stack is as it was, and the calling-expression flag is set to
   * `!clearInCallingExpressionScope`.
   */
  method GenerateArguments(cb: ByteCodeBlock, ctx: GenerateContext, args: seq<Expr>, callSuper: bool,
                           useSpread: bool, clearInCallingExpressionScope: bool)
    returns (start: Register, table: Option<nat>)
    modifies cb, ctx, ctx.registers
    ensures start == ArgumentsStart(args, callSuper, ctx.canSkipCopyToRegister, old(ctx.registers.NextFree()))
    ensures cb.code == old(cb.code) + ArgumentsCode(args, start, callSuper)
    ensures ctx.registers.stack == old(ctx.registers.stack)
    ensures SpreadTableAdded(cb.literalData, old(cb.literalData), table, args, useSpread, if callSuper then 1 else 0)
    ensures cb.requiredRegisterFileSize == old(cb.requiredRegisterFileSize)
    ensures ctx.inCallingExpressionScope == !clearInCallingExpressionScope
    ensures ctx.canSkipCopyToRegister == old(ctx.canSkipCopyToRegister) && ctx.feCounter == old(ctx.feCounter)
    ensures ctx.isHeadOfMemberExpression == old(ctx.isHeadOfMemberExpression)
    ensures ctx.breakPositions == old(ctx.breakPositions) && ctx.continuePositions == old(ctx.continuePositions)
    ensures ctx.positionToContinue == old(ctx.positionToContinue)
  {
    ctx.inCallingExpressionScope := !clearInCallingExpressionScope;
    var ret := ctx.GetRegister();
    ctx.GiveUpRegister();
    start, table := LayOutArguments(cb, ctx, args, callSuper, useSpread, ret);
  }

  /** The body of generateArguments after the flag is set, with `ret` the next free register. */
  method LayOutArguments(cb: ByteCodeBlock, ctx: GenerateContext, args: seq<Expr>, callSuper: bool,
                         useSpread: bool, ret: Register)
    returns (start: Register, table: Option<nat>)
    requires ctx.registers.NextFree() == ret
    modifies cb, ctx.registers
    ensures start == ArgumentsStart(args, callSuper, ctx.canSkipCopyToRegister, ret)
    ensures cb.code == old(cb.code) + ArgumentsCode(args, start, callSuper)
    ensures ctx.registers.stack == old(ctx.registers.stack)
    ensures SpreadTableAdded(cb.literalData, old(cb.literalData), table, args, useSpread, if callSuper then 1 else 0)
    ensures cb.requiredRegisterFileSize == old(cb.requiredRegisterFileSize)
  {
    var addIndex := if callSuper then 1 else 0;
    var implicitThisReg := 0;
    if callSuper {
      implicitThisReg := ctx.GetRegister();
    }
    if 0 < |args| < SMALL_AMOUNT_OF_ARGUMENTS - addIndex {
      var isSorted := ProbeFastPath(ctx, args, callSuper, ret, implicitThisReg);
      if isSorted {
        start := FastStart(args, callSuper, ctx.canSkipCopyToRegister, ret);
        SortedPassIsConsecutive(args, ctx.canSkipCopyToRegister, ret + addIndex, start, addIndex);
        table := PassArguments(cb, ctx, args, callSuper, useSpread, true, ret, start);
        return;
      }
    }
    start := ret;
    FreshPassIsConsecutive(args, ctx.canSkipCopyToRegister, ret + addIndex);
    table := PassArguments(cb, ctx, args, callSuper, useSpread, false, ret, start);
  }

  /**
   * The first half of the fast path: takes each argument's own register,
   * checks that they follow the start without a gap, and gives them back.
   */
  method ProbeFastPath(ctx: GenerateContext, args: seq<Expr>, callSuper: bool, ret: Register, implicitThisReg: Register)
    returns (isSorted: bool)
    requires var addIndex := if callSuper then 1 else 0;
      0 < |args| < SMALL_AMOUNT_OF_ARGUMENTS - addIndex
    requires ctx.registers.NextFree() == ret + (if callSuper then 1 else 0)
    requires callSuper ==> implicitThisReg == ret
    modifies ctx.registers
    ensures isSorted == FastPathTaken(args, callSuper, ctx.canSkipCopyToRegister, ret)
    ensures ctx.registers.stack == old(ctx.registers.stack)
  {
    var addIndex := if callSuper then 1 else 0;
    var regs := ReserveArgumentRegisters(ctx, args);
    var k := if callSuper then implicitThisReg else regs[0];
    assert k == FastStart(args, callSuper, ctx.canSkipCopyToRegister, ret);
    isSorted := CheckSorted(regs, k, addIndex);
    GiveUpRegisters(ctx, |args|);
  }

  /**
   * The pass both paths of generateArguments end in: `this` copied for a
   * super call, then the arguments evaluated into consecutive registers
   * from `start` (their own ones when `direct`), and the registers given up.
   */
  method PassArguments(cb: ByteCodeBlock, ctx: GenerateContext, args: seq<Expr>, callSuper: bool, useSpread: bool,
                       direct: bool, ret: Register, start: Register)
    returns (table: Option<nat>)
    requires ctx.registers.NextFree() == ret + (if callSuper then 1 else 0)
    requires callSuper ==> |ctx.registers.stack| > 0 && start == ret
    requires PassRegisters(args, direct, ctx.canSkipCopyToRegister, ret + (if callSuper then 1 else 0)) ==
             Consecutive(start + (if callSuper then 1 else 0), |args|)
    modifies cb, ctx.registers
    ensures cb.code == old(cb.code) + ArgumentsCode(args, start, callSuper)
    ensures ctx.registers.stack == old(ctx.registers.stack)[..|old(ctx.registers.stack)| - (if callSuper then 1 else 0)]
    ensures SpreadTableAdded(cb.literalData, old(cb.literalData), table, args, useSpread, if callSuper then 1 else 0)
    ensures cb.requiredRegisterFileSize == old(cb.requiredRegisterFileSize)
  {
    var addIndex := if callSuper then 1 else 0;
    ghost var code0 := cb.code;
    if callSuper {
      cb.PushCode(Move(REGULAR_REGISTER_LIMIT, ret));
    }
    ghost var code1 := cb.code;
    assert code1 == code0 + (if callSuper then [Move(REGULAR_REGISTER_LIMIT, start)] else []);
    table := GenerateArgumentValues(cb, ctx, args, direct, useSpread, addIndex);
    assert cb.code == code1 + ArgumentValuesCode(args, Consecutive(start + addIndex, |args|));
    PassCode(args, start, callSuper, code0);
    GiveUpRegisters(ctx, |args|);
    if callSuper {
      ctx.GiveUpRegister();
    }
  }

  // -----------------------------------------------------------------------
  // generateExpressionByteCode
  // -----------------------------------------------------------------------

  /** The spread table a pass creates, when some argument is spread: the next literal-pool entry. */
  function SpreadTable(args: seq<Expr>, useSpread: bool, addIndex: nat, literalCount: nat): (r: Option<nat>)
    ensures r.Some? <==> SpreadPositions(args, useSpread, addIndex) != []
  {
    if SpreadPositions(args, useSpread, addIndex) == [] then None else Some(literalCount)
  }

  /** The literal-pool entries a call adds: its spread table, if any. */
  function SpreadLiterals(args: seq<Expr>, useSpread: bool, addIndex: nat): (r: seq<LiteralEntry>)
    ensures |r| <= 1
    ensures r == [] <==> SpreadPositions(args, useSpread, addIndex) == []
  {
    if SpreadPositions(args, useSpread, addIndex) == [] then []
    else [SpreadIndexTable(SpreadPositions(args, useSpread, addIndex))]
  }

  lemma {:induction false} SpreadTableAddedFacts(literals: seq<LiteralEntry>, literals0: seq<LiteralEntry>, table: Option<nat>,
                              args: seq<Expr>, useSpread: bool, addIndex: nat)
    requires SpreadTableAdded(literals, literals0, table, args, useSpread, addIndex)
    ensures table == SpreadTable(args, useSpread, addIndex, |literals0|)
    ensures literals == literals0 + SpreadLiterals(args, useSpread, addIndex)
  {
  }

  /** A direct call of the global `eval`. */
  predicate IsEvalCall(c: CallExpression)
  {
    c.callee.kind.Identifier? && c.callee.kind.name == "eval"
  }

  /** A call of a plain name inside `with`, whose receiver the with object may be. */
  predicate IsWithScopeCall(c: CallExpression, isWithScope: bool)
  {
    !IsEvalCall(c) && isWithScope && c.callee.kind.Identifier?
  }

  /** The callee is `super` or a member expression, so the call passes a receiver. */
  predicate HasReceiver(callee: Expr)
  {
    callee.kind.MemberExpression? || callee.kind.Super?
  }

  /** The code that evaluates the callee into `calleeIndex`, with the receiver, if any, held in `held`. */
  function CalleeCode(callee: Expr, calleeIndex: Register, held: Register): (r: seq<Instr>)
  {
    match callee.kind
    case Super(_) => SuperNodes.SuperCallChain(held, calleeIndex)
    case MemberExpression => [EvaluateMember(callee.id, held, calleeIndex)]
    case _ => [Evaluate(callee.id, calleeIndex)]
  }

  /** A direct eval: `eval` loaded into the first free register, the arguments, then CallEvalFunction. */
  function EvalCallCode(args: seq<Expr>, dst: Register, canSkipCopyToRegister: bool, isWithScope: bool,
                        first: Register): (r: seq<Instr>)
  {
    var start := ArgumentsStart(args, false, canSkipCopyToRegister, first + 1);
    [LoadByName(first, "eval")] + ArgumentsCode(args, start, false) +
    [CallEvalFunction(first, start, |args|, dst, isWithScope)]
  }

  /** A call inside `with` by name: the arguments, then CallFunctionInWithScope. */
  function WithScopeCallCode(name: string, args: seq<Expr>, dst: Register, canSkipCopyToRegister: bool,
                             first: Register): (r: seq<Instr>)
  {
    var start := ArgumentsStart(args, false, canSkipCopyToRegister, first);
    ArgumentsCode(args, start, false) + [CallFunctionInWithScope(name, start, |args|, dst)]
  }

  /**
   * Any other call: the callee (with its receiver held in the next
   * register), the arguments, the call, and for `super(...)` the result
   * copied into `this`.
   */
  function OrdinaryCallCode(c: CallExpression, dst: Register, canSkipCopyToRegister: bool, first: Register,
                            literalCount: nat): (r: seq<Instr>)
  {
    var callSuper := c.callee.kind.Super?;
    var addIndex := if callSuper then 1 else 0;
    var calleeIndex := ExprRegister(c.callee, canSkipCopyToRegister, first);
    var argumentsFirst := if HasReceiver(c.callee) then first + 2 else first + 1;
    var start := ArgumentsStart(c.arguments, callSuper, canSkipCopyToRegister, argumentsFirst);
    var table := SpreadTable(c.arguments, c.useSpreadArgument, addIndex, literalCount);
    var receiver := if c.useSuper then REGULAR_REGISTER_LIMIT else first + 1;
    CalleeCode(c.callee, calleeIndex, first + 1) + ArgumentsCode(c.arguments, start, callSuper) +
    CallTail(c, receiver, calleeIndex, start, dst, table)
  }

  /** The call instruction, and for `super(...)` the copy of its result into `this`. */
  function CallTail(c: CallExpression, receiver: Register, calleeIndex: Register, start: Register, dst: Register,
                    table: Option<nat>): (r: seq<Instr>)
  {
    var callSuper := c.callee.kind.Super?;
    var addIndex := if callSuper then 1 else 0;
    var call :=
      if HasReceiver(c.callee) then
        CallFunctionWithReceiver(receiver, calleeIndex, start, |c.arguments| + addIndex, dst, callSuper,
                                 c.useSpreadArgument, table)
      else CallFunction(calleeIndex, start, |c.arguments|, dst, c.useSpreadArgument, table);
    [call] + (if callSuper then [Move(dst, REGULAR_REGISTER_LIMIT)] else [])
  }

  /** Whether the call may use argument registers directly, as generateExpressionByteCode decides it. */
  function CallCanSkip(c: CallExpression, canSkipCopyToRegister: bool): (r: bool)
  {
    DirectRegisterAllowed(canSkipCopyToRegister, CallIdentifiers(c.callee, c.arguments))
  }

  /** The code CallExpressionNode::generateExpressionByteCode appends, on each of its three paths. */
  function CallCode(c: CallExpression, dst: Register, canSkipCopyToRegister: bool, isWithScope: bool,
                    first: Register, literalCount: nat): (r: seq<Instr>)
  {
    if IsEvalCall(c) then EvalCallCode(c.arguments, dst, canSkipCopyToRegister, isWithScope, first)
    else if IsWithScopeCall(c, isWithScope) then
      WithScopeCallCode(c.callee.kind.name, c.arguments, dst, CallCanSkip(c, canSkipCopyToRegister), first)
    else OrdinaryCallCode(c, dst, CallCanSkip(c, canSkipCopyToRegister), first, literalCount)
  }

  /** Where the argument code starts in CallCode: after the eval load, or after the callee's code. */
  function ArgumentsOffset(c: CallExpression, isWithScope: bool): (r: nat)
  {
    if IsEvalCall(c) then 1
    else if IsWithScopeCall(c, isWithScope) then 0
    else if c.callee.kind.Super? then 4
    else 1
  }

  /** The number of registers before the arguments: one for `this` in a super call. */
  function AddIndex(c: CallExpression): (r: nat)
    ensures r <= 1
  {
    if c.callee.kind.Super? then 1 else 0
  }

  /** The position of the call instruction in CallCode: last, or before the copy into `this`. */
  function CallIndex(c: CallExpression, codeLength: nat): (r: int)
  {
    codeLength - 1 - AddIndex(c)
  }

  /** The instructions of the argument code and the call, relative to their start. */
  predicate CallsWithArguments(code: seq<Instr>, q: nat, c: CallExpression, dst: Register)
  {
    var addIndex := AddIndex(c);
    var p := q + addIndex + |c.arguments|;
    p < |code| && IsCall(code[p]) && code[p].argc == |c.arguments| + addIndex && code[p].dst == dst &&
    (forall k :: q <= k < p ==> !IsCall(code[k])) &&
    (forall i :: 0 <= i < |c.arguments| ==>
       code[q + addIndex + i] == Evaluate(c.arguments[i].id, code[p].argumentsStart + addIndex + i)) &&
    (addIndex == 1 ==> code[q] == Move(REGULAR_REGISTER_LIMIT, code[p].argumentsStart))
  }

  /** The argument code followed by a call instruction reading `argc` registers from `start`. */
  lemma {:induction false} ArgumentsThenCall(code0: seq<Instr>, c: CallExpression, start: Register, call: Instr, dst: Register,
                          rest: seq<Instr>)
    requires IsCall(call) && call.argumentsStart == start && call.argc == |c.arguments| + AddIndex(c) && call.dst == dst
    ensures CallsWithArguments(code0 + ArgumentsCode(c.arguments, start, c.callee.kind.Super?) + [call] + rest,
                               |code0|, c, dst)
  {
    ArgumentsCodeShape(c.arguments, start, c.callee.kind.Super?);
    CallAfterArguments(code0, ArgumentsCode(c.arguments, start, c.callee.kind.Super?), c, start, call, dst, rest);
  }

  /** ArgumentsThenCall for any argument code of ArgumentsCode's shape. */
  lemma {:induction false} CallAfterArguments(code0: seq<Instr>, a: seq<Instr>, c: CallExpression, start: Register, call: Instr,
                           dst: Register, rest: seq<Instr>)
    requires IsCall(call) && call.argumentsStart == start && call.argc == |c.arguments| + AddIndex(c) && call.dst == dst
    requires |a| == AddIndex(c) + |c.arguments| && forall k :: 0 <= k < |a| ==> !IsCall(a[k])
    requires forall i :: 0 <= i < |c.arguments| ==> a[AddIndex(c) + i] == Evaluate(c.arguments[i].id, start + AddIndex(c) + i)
    requires AddIndex(c) == 1 ==> a[0] == Move(REGULAR_REGISTER_LIMIT, start)
    ensures CallsWithArguments(code0 + a + [call] + rest, |code0|, c, dst)
  {
    var x := a + [call] + rest;
    var code := code0 + a + [call] + rest;
    assert code == code0 + x;
    var q := |code0|;
    var addIndex := AddIndex(c);
    assert code[q + |a|] == x[|a|] == call;
    forall k | q <= k < q + |a|
      ensures code[k] == a[k - q]
    {
      assert code[k] == x[k - q];
    }
  }

  /** The literal-pool entries the call adds. */
  function CallLiterals(c: CallExpression): (r: seq<LiteralEntry>)
  {
    SpreadLiterals(c.arguments, c.useSpreadArgument, if c.callee.kind.Super? then 1 else 0)
  }

  /**
   * The callee's own code.  A member expression (MemberExpressionNode is
   * not part of this model) leaves its object in a register it keeps
   * held, for the call's receiver.
   */
  method GenerateCallee(cb: ByteCodeBlock, ctx: GenerateContext, callee: Expr, calleeIndex: Register)
    requires callee.kind.Super? ==> callee.kind.isCall
    modifies cb, ctx.registers
    ensures cb.code == old(cb.code) + CalleeCode(callee, calleeIndex, old(ctx.registers.NextFree()))
    ensures ctx.registers.stack == old(ctx.registers.stack) +
                                   (if HasReceiver(callee) then [old(ctx.registers.NextFree())] else [])
    ensures cb.literalData == old(cb.literalData) && cb.requiredRegisterFileSize == old(cb.requiredRegisterFileSize)
  {
    if callee.kind.Super? {
      SuperNodes.GenerateSuper(cb, ctx, callee, calleeIndex);
    } else if callee.kind.MemberExpression? {
      var held := ctx.GetRegister();
      cb.PushCode(EvaluateMember(callee.id, held, calleeIndex));
    } else {
      GenerateExpression(cb, callee, calleeIndex);
    }
  }

  /** The eval path. */
  method GenerateEvalCall(cb: ByteCodeBlock, ctx: GenerateContext, c: CallExpression, dst: Register)
    requires IsEvalCall(c)
    modifies cb, ctx, ctx.registers
    ensures cb.code == old(cb.code) +
      EvalCallCode(c.arguments, dst, ctx.canSkipCopyToRegister, ctx.isWithScope, old(ctx.registers.NextFree()))
    ensures cb.literalData == old(cb.literalData) + CallLiterals(c)
    ensures ctx.registers.stack == old(ctx.registers.stack)
    ensures cb.requiredRegisterFileSize == old(cb.requiredRegisterFileSize)
    ensures ctx.inCallingExpressionScope
    ensures ctx.canSkipCopyToRegister == old(ctx.canSkipCopyToRegister) && ctx.feCounter == old(ctx.feCounter)
    ensures ctx.isHeadOfMemberExpression == old(ctx.isHeadOfMemberExpression)
    ensures ctx.breakPositions == old(ctx.breakPositions) && ctx.continuePositions == old(ctx.continuePositions)
    ensures ctx.positionToContinue == old(ctx.positionToContinue)
  {
    var evalIndex := ctx.GetRegister();
    cb.PushCode(LoadByName(evalIndex, "eval"));
    var start, table := GenerateArguments(cb, ctx, c.arguments, false, c.useSpreadArgument, false);
    SpreadTableAddedFacts(cb.literalData, old(cb.literalData), table, c.arguments, c.useSpreadArgument, 0);
    ctx.GiveUpRegister();
    cb.PushCode(CallEvalFunction(evalIndex, start, |c.arguments|, dst, ctx.isWithScope));
  }

  /** The path of a call by name inside `with`, entered with the copy flag already decided. */
  method GenerateWithScopeCall(cb: ByteCodeBlock, ctx: GenerateContext, c: CallExpression, dst: Register,
                               prevInCallingExpressionScope: bool)
    requires c.callee.kind.Identifier?
    modifies cb, ctx, ctx.registers
    ensures cb.code == old(cb.code) +
      WithScopeCallCode(c.callee.kind.name, c.arguments, dst, ctx.canSkipCopyToRegister, old(ctx.registers.NextFree()))
    ensures cb.literalData == old(cb.literalData) + CallLiterals(c)
    ensures ctx.registers.stack == old(ctx.registers.stack)
    ensures cb.requiredRegisterFileSize == old(cb.requiredRegisterFileSize)
    ensures ctx.inCallingExpressionScope == prevInCallingExpressionScope
    ensures ctx.canSkipCopyToRegister == old(ctx.canSkipCopyToRegister) && ctx.feCounter == old(ctx.feCounter)
    ensures ctx.isHeadOfMemberExpression == old(ctx.isHeadOfMemberExpression)
    ensures ctx.breakPositions == old(ctx.breakPositions) && ctx.continuePositions == old(ctx.continuePositions)
    ensures ctx.positionToContinue == old(ctx.positionToContinue)
  {
    var start, table := GenerateArguments(cb, ctx, c.arguments, false, c.useSpreadArgument, true);
    SpreadTableAddedFacts(cb.literalData, old(cb.literalData), table, c.arguments, c.useSpreadArgument, 0);
    ctx.inCallingExpressionScope := prevInCallingExpressionScope;
    cb.PushCode(CallFunctionInWithScope(c.callee.kind.name, start, |c.arguments|, dst));
  }

  /** The callee's register and code, and the receiver register when the call has one. */
  method GenerateCalleeOperands(cb: ByteCodeBlock, ctx: GenerateContext, c: CallExpression)
    returns (calleeIndex: Register, receiverIndex: Register)
    requires c.callee.kind.Super? ==> c.callee.kind.isCall
    modifies cb, ctx.registers
    ensures var first := old(ctx.registers.NextFree());
      calleeIndex == ExprRegister(c.callee, ctx.canSkipCopyToRegister, first) &&
      cb.code == old(cb.code) + CalleeCode(c.callee, calleeIndex, first + 1) &&
      ctx.registers.stack == old(ctx.registers.stack) + [calleeIndex] +
                             (if HasReceiver(c.callee) then [first + 1] else []) &&
      (HasReceiver(c.callee) ==> receiverIndex == if c.useSuper then REGULAR_REGISTER_LIMIT else first + 1)
    ensures cb.literalData == old(cb.literalData) && cb.requiredRegisterFileSize == old(cb.requiredRegisterFileSize)
  {
    calleeIndex := GetExprRegister(ctx, c.callee);
    GenerateCallee(cb, ctx, c.callee, calleeIndex);
    receiverIndex := 0;
    if HasReceiver(c.callee) {
      if c.useSuper {
        receiverIndex := REGULAR_REGISTER_LIMIT;
      } else {
        receiverIndex := ctx.LastRegisterIndex(0);
      }
    }
  }

  /** OrdinaryCallCode in terms of the registers and the table the generator computes for it. */
  lemma {:induction false} OrdinaryCallCodeParts(c: CallExpression, dst: Register, canSkipCopyToRegister: bool, first: Register,
                              literalCount: nat, calleeIndex: Register, start: Register, table: Option<nat>)
    requires calleeIndex == ExprRegister(c.callee, canSkipCopyToRegister, first)
    requires start == ArgumentsStart(c.arguments, c.callee.kind.Super?, canSkipCopyToRegister,
                                     if HasReceiver(c.callee) then first + 2 else first + 1)
    requires table == SpreadTable(c.arguments, c.useSpreadArgument, if c.callee.kind.Super? then 1 else 0, literalCount)
    ensures OrdinaryCallCode(c, dst, canSkipCopyToRegister, first, literalCount) ==
      CalleeCode(c.callee, calleeIndex, first + 1) + ArgumentsCode(c.arguments, start, c.callee.kind.Super?) +
      CallTail(c, if c.useSuper then REGULAR_REGISTER_LIMIT else first + 1, calleeIndex, start, dst, table)
  {
  }

  lemma {:induction false} ConcatenateParts(code0: seq<Instr>, a: seq<Instr>, b: seq<Instr>, c: seq<Instr>)
    ensures code0 + a + b + c == code0 + (a + b + c)
  {
  }

  /** Without a receiver the call's receiver register plays no part. */
  lemma {:induction false} CallTailReceiver(c: CallExpression, r1: Register, r2: Register, calleeIndex: Register, start: Register,
                         dst: Register, table: Option<nat>)
    requires HasReceiver(c.callee) ==> r1 == r2
    ensures CallTail(c, r1, calleeIndex, start, dst, table) == CallTail(c, r2, calleeIndex, start, dst, table)
  {
  }

  /** Appends the call instruction and, for `super(...)`, the copy of the result into `this`. */
  method EmitCall(cb: ByteCodeBlock, c: CallExpression, receiverIndex: Register, calleeIndex: Register,
                  start: Register, dst: Register, table: Option<nat>)
    modifies cb
    ensures cb.code == old(cb.code) + CallTail(c, receiverIndex, calleeIndex, start, dst, table)
    ensures cb.literalData == old(cb.literalData) && cb.requiredRegisterFileSize == old(cb.requiredRegisterFileSize)
  {
    var callSuper := c.callee.kind.Super?;
    var addIndex := if callSuper then 1 else 0;
    if HasReceiver(c.callee) {
      cb.PushCode(CallFunctionWithReceiver(receiverIndex, calleeIndex, start, |c.arguments| + addIndex, dst,
                                           callSuper, c.useSpreadArgument, table));
    } else {
      cb.PushCode(CallFunction(calleeIndex, start, |c.arguments|, dst, c.useSpreadArgument, table));
    }
    if callSuper {
      cb.PushCode(Move(dst, REGULAR_REGISTER_LIMIT));
    }
  }

  /** The path of every other call, entered with the copy flag already decided. */
  method GenerateOrdinaryCall(cb: ByteCodeBlock, ctx: GenerateContext, c: CallExpression, dst: Register,
                              prevInCallingExpressionScope: bool, directBefore: bool)
    requires c.callee.kind.Super? ==> c.callee.kind.isCall
    modifies cb, ctx, ctx.registers
    ensures cb.code == old(cb.code) +
      OrdinaryCallCode(c, dst, old(ctx.canSkipCopyToRegister), old(ctx.registers.NextFree()), |old(cb.literalData)|)
    ensures cb.literalData == old(cb.literalData) + CallLiterals(c)
    ensures ctx.registers.stack == old(ctx.registers.stack)
    ensures cb.requiredRegisterFileSize == old(cb.requiredRegisterFileSize)
    ensures ctx.inCallingExpressionScope == prevInCallingExpressionScope
    ensures ctx.canSkipCopyToRegister == directBefore && ctx.feCounter == old(ctx.feCounter)
    ensures ctx.isHeadOfMemberExpression == (old(ctx.isHeadOfMemberExpression) || HasReceiver(c.callee))
    ensures ctx.breakPositions == old(ctx.breakPositions) && ctx.continuePositions == old(ctx.continuePositions)
    ensures ctx.positionToContinue == old(ctx.positionToContinue)
  {
    var hasReceiver := HasReceiver(c.callee);
    if hasReceiver {
      ctx.inCallingExpressionScope := true;
      ctx.isHeadOfMemberExpression := true;
    }
    ghost var first := ctx.registers.NextFree();
    ghost var skip := ctx.canSkipCopyToRegister;
    var calleeIndex, receiverIndex := GenerateCalleeOperands(cb, ctx, c);
    ghost var code1 := cb.code;
    var start, table := FinishOrdinaryCall(cb, ctx, c, dst, calleeIndex, receiverIndex);
    ghost var receiver := if c.useSuper then REGULAR_REGISTER_LIMIT else first + 1;
    CallTailReceiver(c, receiverIndex, receiver, calleeIndex, start, dst, table);
    OrdinaryCallCodeParts(c, dst, skip, first, |old(cb.literalData)|, calleeIndex, start, table);
    ConcatenateParts(old(cb.code), CalleeCode(c.callee, calleeIndex, first + 1),
                     ArgumentsCode(c.arguments, start, c.callee.kind.Super?),
                     CallTail(c, receiver, calleeIndex, start, dst, table));
    ctx.inCallingExpressionScope := prevInCallingExpressionScope;
    ctx.canSkipCopyToRegister := directBefore;
  }

  /**
   * The rest of an ordinary call once the callee is generated: the
   * arguments, the callee and receiver registers given up, the call.
   */
  method FinishOrdinaryCall(cb: ByteCodeBlock, ctx: GenerateContext, c: CallExpression, dst: Register,
                            calleeIndex: Register, receiverIndex: Register)
    returns (start: Register, table: Option<nat>)
    requires |ctx.registers.stack| >= if HasReceiver(c.callee) then 2 else 1
    modifies cb, ctx, ctx.registers
    ensures var addIndex := if c.callee.kind.Super? then 1 else 0;
      start == ArgumentsStart(c.arguments, c.callee.kind.Super?, ctx.canSkipCopyToRegister, old(ctx.registers.NextFree())) &&
      table == SpreadTable(c.arguments, c.useSpreadArgument, addIndex, |old(cb.literalData)|) &&
      cb.literalData == old(cb.literalData) + SpreadLiterals(c.arguments, c.useSpreadArgument, addIndex)
    ensures cb.code == old(cb.code) + ArgumentsCode(c.arguments, start, c.callee.kind.Super?) +
                       CallTail(c, receiverIndex, calleeIndex, start, dst, table)
    ensures ctx.registers.stack ==
      old(ctx.registers.stack)[..|old(ctx.registers.stack)| - (if HasReceiver(c.callee) then 2 else 1)]
    ensures cb.requiredRegisterFileSize == old(cb.requiredRegisterFileSize)
    ensures ctx.canSkipCopyToRegister == old(ctx.canSkipCopyToRegister) && ctx.feCounter == old(ctx.feCounter)
    ensures ctx.isHeadOfMemberExpression == old(ctx.isHeadOfMemberExpression)
    ensures ctx.breakPositions == old(ctx.breakPositions) && ctx.continuePositions == old(ctx.continuePositions)
    ensures ctx.positionToContinue == old(ctx.positionToContinue)
  {
    var callSuper := c.callee.kind.Super?;
    var addIndex := if callSuper then 1 else 0;
    start, table := GenerateArguments(cb, ctx, c.arguments, callSuper, c.useSpreadArgument, true);
    SpreadTableAddedFacts(cb.literalData, old(cb.literalData), table, c.arguments, c.useSpreadArgument, addIndex);
    if HasReceiver(c.callee) {
      ctx.GiveUpRegister();
      ctx.GiveUpRegister();
    } else {
      ctx.GiveUpRegister();
    }
    EmitCall(cb, c, receiverIndex, calleeIndex, start, dst, table);
  }

  /** CallExpressionNode::generateExpressionByteCode into `dst`. */
  method GenerateCall(cb: ByteCodeBlock, ctx: GenerateContext, c: CallExpression, dst: Register)
    requires c.callee.kind.Super? ==> c.callee.kind.isCall
    modifies cb, ctx, ctx.registers
    ensures cb.code == old(cb.code) +
      CallCode(c, dst, old(ctx.canSkipCopyToRegister), ctx.isWithScope, old(ctx.registers.NextFree()),
               |old(cb.literalData)|)
    ensures cb.literalData == old(cb.literalData) + CallLiterals(c)
    ensures ctx.registers.stack == old(ctx.registers.stack)
    ensures cb.requiredRegisterFileSize == old(cb.requiredRegisterFileSize)
    ensures ctx.canSkipCopyToRegister ==
      if IsWithScopeCall(c, ctx.isWithScope) then CallCanSkip(c, old(ctx.canSkipCopyToRegister))
      else old(ctx.canSkipCopyToRegister)
    ensures ctx.inCallingExpressionScope == (IsEvalCall(c) || old(ctx.inCallingExpressionScope))
    ensures ctx.isHeadOfMemberExpression ==
      (old(ctx.isHeadOfMemberExpression) ||
       (!IsEvalCall(c) && !IsWithScopeCall(c, ctx.isWithScope) && HasReceiver(c.callee)))
    ensures ctx.feCounter == old(ctx.feCounter)
    ensures ctx.breakPositions == old(ctx.breakPositions) && ctx.continuePositions == old(ctx.continuePositions)
    ensures ctx.positionToContinue == old(ctx.positionToContinue)
  {
    if IsEvalCall(c) {
      GenerateEvalCall(cb, ctx, c, dst);
      return;
    }
    var direct := CanUseDirectRegister(ctx, c.callee, c.arguments);
    var isSlow := !direct;
    var directBefore := ctx.canSkipCopyToRegister;
    if isSlow {
      ctx.canSkipCopyToRegister := false;
    }
    var prevInCallingExpressionScope := ctx.inCallingExpressionScope;
    if ctx.isWithScope && c.callee.kind.Identifier? {
      GenerateWithScopeCall(cb, ctx, c, dst, prevInCallingExpressionScope);
      return;
    }
    GenerateOrdinaryCall(cb, ctx, c, dst, prevInCallingExpressionScope, directBefore);
  }

  /** A call with its argument code, no other call before it and none after it, is the code's only call. */
  lemma {:induction false} OnlyCall(code: seq<Instr>, q: nat, c: CallExpression, dst: Register)
    requires CallsWithArguments(code, q, c, dst)
    requires forall k :: 0 <= k < q ==> !IsCall(code[k])
    requires forall k :: q + AddIndex(c) + |c.arguments| < k < |code| ==> !IsCall(code[k])
    ensures forall k :: 0 <= k < |code| ==> (IsCall(code[k]) <==> k == q + AddIndex(c) + |c.arguments|)
  {
  }

  /** The call shape on the eval path. */
  lemma {:induction false} EvalCallShape(c: CallExpression, dst: Register, canSkipCopyToRegister: bool, isWithScope: bool, first: Register)
    requires IsEvalCall(c)
    ensures var code := EvalCallCode(c.arguments, dst, canSkipCopyToRegister, isWithScope, first);
      CallsWithArguments(code, 1, c, dst) && CallIndex(c, |code|) == 1 + |c.arguments| &&
      (forall k :: 0 <= k < |code| ==> (IsCall(code[k]) <==> k == 1 + |c.arguments|))
  {
    var start := ArgumentsStart(c.arguments, false, canSkipCopyToRegister, first + 1);
    var code := EvalCallCode(c.arguments, dst, canSkipCopyToRegister, isWithScope, first);
    ArgumentsThenCall([LoadByName(first, "eval")], c, start,
                      CallEvalFunction(first, start, |c.arguments|, dst, isWithScope), dst, []);
    assert code == [LoadByName(first, "eval")] + ArgumentsCode(c.arguments, start, false) +
                   [CallEvalFunction(first, start, |c.arguments|, dst, isWithScope)] + [];
    OnlyCall(code, 1, c, dst);
  }

  /** The call shape on the with path. */
  lemma {:induction false} WithScopeCallShape(c: CallExpression, dst: Register, canSkipCopyToRegister: bool, first: Register)
    requires c.callee.kind.Identifier?
    ensures var code := WithScopeCallCode(c.callee.kind.name, c.arguments, dst, canSkipCopyToRegister, first);
      CallsWithArguments(code, 0, c, dst) && CallIndex(c, |code|) == |c.arguments| &&
      (forall k :: 0 <= k < |code| ==> (IsCall(code[k]) <==> k == |c.arguments|))
  {
    var start := ArgumentsStart(c.arguments, false, canSkipCopyToRegister, first);
    var code := WithScopeCallCode(c.callee.kind.name, c.arguments, dst, canSkipCopyToRegister, first);
    var call := CallFunctionInWithScope(c.callee.kind.name, start, |c.arguments|, dst);
    ArgumentsThenCall([], c, start, call, dst, []);
    assert code == [] + ArgumentsCode(c.arguments, start, false) + [call] + [];
    OnlyCall(code, 0, c, dst);
  }

  /** The callee's code holds no call: one instruction, or the four reads of a super call's callee. */
  lemma {:induction false} CalleeCodeShape(callee: Expr, calleeIndex: Register, held: Register)
    ensures var code := CalleeCode(callee, calleeIndex, held);
      |code| == (if callee.kind.Super? then 4 else 1) && forall k :: 0 <= k < |code| ==> !IsCall(code[k])
  {
  }

  /** The call instruction reads the arguments from `start` and writes `dst`; a super call's copy into `this` follows. */
  lemma {:induction false} CallTailShape(c: CallExpression, receiver: Register, calleeIndex: Register, start: Register, dst: Register,
                      table: Option<nat>)
    ensures var tail := CallTail(c, receiver, calleeIndex, start, dst, table);
      |tail| == 1 + AddIndex(c) && IsCall(tail[0]) && tail[0].argumentsStart == start &&
      tail[0].argc == |c.arguments| + AddIndex(c) && tail[0].dst == dst &&
      (AddIndex(c) == 1 ==> tail[1] == Move(dst, REGULAR_REGISTER_LIMIT))
  {
  }

  /** The call shape on the ordinary path. */
  lemma {:induction false} OrdinaryCallShape(c: CallExpression, dst: Register, canSkipCopyToRegister: bool, first: Register,
                          literalCount: nat)
    requires c.callee.kind.Super? ==> c.callee.kind.isCall
    ensures var code := OrdinaryCallCode(c, dst, canSkipCopyToRegister, first, literalCount);
      var q := if c.callee.kind.Super? then 4 else 1;
      CallsWithArguments(code, q, c, dst) && CallIndex(c, |code|) == q + AddIndex(c) + |c.arguments| &&
      (forall k :: 0 <= k < |code| ==> (IsCall(code[k]) <==> k == q + AddIndex(c) + |c.arguments|)) &&
      (AddIndex(c) == 1 ==> code[|code| - 1] == Move(dst, REGULAR_REGISTER_LIMIT))
  {
    var callSuper := c.callee.kind.Super?;
    var addIndex := AddIndex(c);
    var calleeIndex := ExprRegister(c.callee, canSkipCopyToRegister, first);
    var argumentsFirst := if HasReceiver(c.callee) then first + 2 else first + 1;
    var start := ArgumentsStart(c.arguments, callSuper, canSkipCopyToRegister, argumentsFirst);
    var table := SpreadTable(c.arguments, c.useSpreadArgument, addIndex, literalCount);
    var receiver := if c.useSuper then REGULAR_REGISTER_LIMIT else first + 1;
    var tail := CallTail(c, receiver, calleeIndex, start, dst, table);
    var calleeCode := CalleeCode(c.callee, calleeIndex, first + 1);
    var argumentsCode := ArgumentsCode(c.arguments, start, callSuper);
    var q := if callSuper then 4 else 1;
    CalleeCodeShape(c.callee, calleeIndex, first + 1);
    CallTailShape(c, receiver, calleeIndex, start, dst, table);
    ArgumentsCodeShape(c.arguments, start, callSuper);
    OrdinaryCallCodeParts(c, dst, canSkipCopyToRegister, first, literalCount, calleeIndex, start, table);
    var code := calleeCode + argumentsCode + tail;
    assert tail == [tail[0]] + tail[1..];
    ArgumentsThenCall(calleeCode, c, start, tail[0], dst, tail[1..]);
    assert code == calleeCode + argumentsCode + [tail[0]] + tail[1..];
    assert forall k :: 0 <= k < q ==> code[k] == calleeCode[k];
    OnlyCall(code, q, c, dst);
  }

  /**
   * An ordinary call invokes the register the callee's code wrote last; a
   * method call's receiver is the object its member expression left held,
   * and with `super` as the object the receiver is `this`.
   */
  lemma {:induction false} OrdinaryCallOperands(c: CallExpression, dst: Register, canSkipCopyToRegister: bool, first: Register,
                             literalCount: nat)
    requires c.callee.kind.Super? ==> c.callee.kind.isCall
    ensures var code := OrdinaryCallCode(c, dst, canSkipCopyToRegister, first, literalCount);
      var q := if c.callee.kind.Super? then 4 else 1;
      var p := q + AddIndex(c) + |c.arguments|;
      p < |code| &&
      code[p].callee == code[q - 1].dst &&
      (HasReceiver(c.callee) <==> code[p].CallFunctionWithReceiver?) &&
      (c.callee.kind.MemberExpression? && !c.useSuper ==> code[p].receiver == code[0].holder) &&
      (HasReceiver(c.callee) && c.useSuper ==> code[p].receiver == REGULAR_REGISTER_LIMIT) &&
      (code[p].CallFunctionWithReceiver? ==> code[p].isSuperCall == c.callee.kind.Super?)
  {
    var callSuper := c.callee.kind.Super?;
    var addIndex := AddIndex(c);
    var calleeIndex := ExprRegister(c.callee, canSkipCopyToRegister, first);
    var argumentsFirst := if HasReceiver(c.callee) then first + 2 else first + 1;
    var start := ArgumentsStart(c.arguments, callSuper, canSkipCopyToRegister, argumentsFirst);
    var table := SpreadTable(c.arguments, c.useSpreadArgument, addIndex, literalCount);
    var receiver := if c.useSuper then REGULAR_REGISTER_LIMIT else first + 1;
    var tail := CallTail(c, receiver, calleeIndex, start, dst, table);
    var calleeCode := CalleeCode(c.callee, calleeIndex, first + 1);
    var argumentsCode := ArgumentsCode(c.arguments, start, callSuper);
    var q := if callSuper then 4 else 1;
    CalleeCodeShape(c.callee, calleeIndex, first + 1);
    CallTailShape(c, receiver, calleeIndex, start, dst, table);
    ArgumentsCodeShape(c.arguments, start, callSuper);
    OrdinaryCallCodeParts(c, dst, canSkipCopyToRegister, first, literalCount, calleeIndex, start, table);
    var code := calleeCode + argumentsCode + tail;
    assert code[q + addIndex + |c.arguments|] == tail[0];
    assert code[q - 1] == calleeCode[q - 1] && code[0] == calleeCode[0];
  }

  /**
   * Every path of the call generator emits exactly one call instruction,
   * just before the copy into `this` for `super(...)` and last otherwise;
   * it reads the registers the arguments were evaluated into, consecutive
   * from its start (after `this`'s copy for a super call), and writes `dst`.
   */
  lemma {:induction false} CallCodeShape(c: CallExpression, dst: Register, canSkipCopyToRegister: bool, isWithScope: bool,
                      first: Register, literalCount: nat)
    requires c.callee.kind.Super? ==> c.callee.kind.isCall
    ensures var code := CallCode(c, dst, canSkipCopyToRegister, isWithScope, first, literalCount);
      var q := ArgumentsOffset(c, isWithScope);
      var p := CallIndex(c, |code|);
      p == q + AddIndex(c) + |c.arguments| &&
      CallsWithArguments(code, q, c, dst) &&
      (forall k :: 0 <= k < |code| ==> (IsCall(code[k]) <==> k == p)) &&
      (AddIndex(c) == 1 ==> code[|code| - 1] == Move(dst, REGULAR_REGISTER_LIMIT))
  {
    if IsEvalCall(c) {
      EvalCallShape(c, dst, canSkipCopyToRegister, isWithScope, first);
    } else if IsWithScopeCall(c, isWithScope) {
      WithScopeCallShape(c, dst, CallCanSkip(c, canSkipCopyToRegister), first);
    } else {
      OrdinaryCallShape(c, dst, CallCanSkip(c, canSkipCopyToRegister), first, literalCount);
    }
  }
}
