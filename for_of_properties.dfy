// What the generated for-of code does, read off ForOfCode: every jump is
// resolved to a position inside the loop or just past it, the iterator
// test guards exactly the TypeError throw, the loop leaves when `done`
// is true, the iterator stays in its register for the whole loop, and the
// body's breaks leave the loop while its continues start the next step.

module ForOfProperties {
  import opened ByteCode
  import opened ForOfStatements

  /** The instructions before the body's exit jumps, with every jump resolved. */
  function LoopHead(s: ForOfStatement, r: Register, p0: nat): (c: seq<Instr>)
    ensures |c| == |DeclarationCode(s)| + 16
  {
    DeclarationCode(s) + SetupCode(s, r, At(InitPos(s, p0))) + StepCode(s, r, At(ExitPos(s, p0))) + [Execute(s.body.id)]
  }

  /** One position of LoopHead: the declaration, then the set-up, the step and the body. */
  lemma {:induction false} LoopHeadAt(s: ForOfStatement, r: Register, p0: nat, k: nat)
    requires k < |LoopHead(s, r, p0)|
    ensures var d := |DeclarationCode(s)|;
      LoopHead(s, r, p0)[k] ==
        if k < d then Execute(s.left.id)
        else if k < d + 9 then SetupCode(s, r, At(InitPos(s, p0)))[k - d]
        else if k < d + 15 then StepCode(s, r, At(ExitPos(s, p0)))[k - d - 9]
        else Execute(s.body.id)
  {
    var d := DeclarationCode(s);
    var su := SetupCode(s, r, At(InitPos(s, p0)));
    var st := StepCode(s, r, At(ExitPos(s, p0)));
    if k < |d| + 15 {
      ConcatIndex(d, su, st, k);
    }
    assert LoopHead(s, r, p0) == (d + su + st) + [Execute(s.body.id)];
  }

  /** ForOfCode is LoopHead, the resolved exits, the jump back and the jump out. */
  lemma {:induction false} ForOfCodeParts(s: ForOfStatement, r: Register, p0: nat)
    ensures ForOfCode(s, r, p0) == LoopHead(s, r, p0) + BodyExits(s.body.exits, LoopEnd(s, p0), CondPos(s, p0)) +
      [Jump(At(CondPos(s, p0))), Jump(At(ExitPos(s, p0)))]
    ensures |ForOfCode(s, r, p0)| == ExitPos(s, p0) - p0
  {}

  /** One position of ForOfCode. */
  lemma {:induction false} ForOfCodeAt(s: ForOfStatement, r: Register, p0: nat, k: nat)
    requires k < |ForOfCode(s, r, p0)|
    ensures var h := LoopHead(s, r, p0);
      var e := s.body.exits;
      ForOfCode(s, r, p0)[k] ==
        if k < |h| then h[k]
        else if k < |h| + |e| then Jump(At(if e[k - |h|] == Break then LoopEnd(s, p0) else CondPos(s, p0)))
        else if k == |h| + |e| then Jump(At(CondPos(s, p0)))
        else Jump(At(ExitPos(s, p0)))
  {
    ForOfCodeParts(s, r, p0);
    ConcatIndex(LoopHead(s, r, p0), BodyExits(s.body.exits, LoopEnd(s, p0), CondPos(s, p0)),
                [Jump(At(CondPos(s, p0))), Jump(At(ExitPos(s, p0)))], k);
  }

  /** The loop's jumps within its head: the two tests. */
  lemma {:induction false} HeadJumps(s: ForOfStatement, r: Register, p0: nat, k: nat)
    requires k < |LoopHead(s, r, p0)| && IsJump(LoopHead(s, r, p0)[k])
    ensures var d := |DeclarationCode(s)|;
      var c := LoopHead(s, r, p0)[k];
      (k == d + 5 && c == JumpIfFalse(r + 3, At(InitPos(s, p0)))) ||
      (k == d + 12 && c == JumpIfTrue(r + 3, At(ExitPos(s, p0))))
  {
    LoopHeadAt(s, r, p0, k);
  }

  /**
   * Every jump of the loop is resolved, to a position within the loop's
   * code or the one right after it, and the only conditional ones are the
   * iterator test and the `done` test.
   */
  lemma {:induction false} ForOfJumpsResolved(s: ForOfStatement, r: Register, p0: nat)
    ensures forall k :: 0 <= k < |ForOfCode(s, r, p0)| && IsJump(ForOfCode(s, r, p0)[k]) ==>
      ForOfCode(s, r, p0)[k].target.At? &&
      p0 <= ForOfCode(s, r, p0)[k].target.pos <= p0 + |ForOfCode(s, r, p0)|
    ensures forall k :: 0 <= k < |ForOfCode(s, r, p0)| && !ForOfCode(s, r, p0)[k].Jump? && IsJump(ForOfCode(s, r, p0)[k]) ==>
      k == |DeclarationCode(s)| + 5 || k == |DeclarationCode(s)| + 12
  {
    ForOfCodeParts(s, r, p0);
    forall k | 0 <= k < |ForOfCode(s, r, p0)| && IsJump(ForOfCode(s, r, p0)[k])
      ensures ForOfCode(s, r, p0)[k].target.At?
      ensures p0 <= ForOfCode(s, r, p0)[k].target.pos <= p0 + |ForOfCode(s, r, p0)|
      ensures !ForOfCode(s, r, p0)[k].Jump? ==> k == |DeclarationCode(s)| + 5 || k == |DeclarationCode(s)| + 12
    {
      ForOfCodeAt(s, r, p0, k);
      if k < |LoopHead(s, r, p0)| {
        HeadJumps(s, r, p0, k);
      }
    }
  }

  /** The `i`-th instruction of the set-up, within ForOfCode. */
  lemma {:induction false} SetupAt(s: ForOfStatement, r: Register, p0: nat, i: nat)
    requires i < 9
    ensures |DeclarationCode(s)| + i < |ForOfCode(s, r, p0)|
    ensures ForOfCode(s, r, p0)[|DeclarationCode(s)| + i] == SetupCode(s, r, At(InitPos(s, p0)))[i]
  {
    ForOfCodeParts(s, r, p0);
    ForOfCodeAt(s, r, p0, |DeclarationCode(s)| + i);
    LoopHeadAt(s, r, p0, |DeclarationCode(s)| + i);
  }

  /**
   * The iterator test: `r + 3` holds whether the right-hand side's
   * Symbol.iterator method, in `r + 1`, equals undefined, in `r + 2`; when
   * it does not, the jump skips exactly the TypeError throw.
   */
  lemma {:induction false} ForOfIteratorCheck(s: ForOfStatement, r: Register, p0: nat)
    ensures var c := ForOfCode(s, r, p0);
      var d := |DeclarationCode(s)|;
      d + 7 < |c| && InitPos(s, p0) == p0 + d + 7 &&
      c[d + 5] == JumpIfFalse(r + 3, At(InitPos(s, p0))) &&
      c[d + 6] == ThrowStaticErrorOperation(TypeError, NOT_ITERABLE)
    ensures var c := ForOfCode(s, r, p0);
      var d := |DeclarationCode(s)|;
      d + 7 < |c| &&
      WriterAt(c, d + 5, r + 3) == Some(BinaryEqual(r + 2, r + 1, r + 3)) &&
      WriterAt(c, d + 4, r + 2) == Some(LoadLiteral(r + 2, UndefinedLiteral)) &&
      WriterAt(c, d + 4, r + 1) == Some(GetObject(r, r + 1, r + 1)) &&
      WriterAt(c, d + 2, r + 1) == Some(LoadLiteral(r + 1, IteratorSymbol)) &&
      WriterAt(c, d + 2, r) == Some(Evaluate(s.right.id, r))
  {
    var c := ForOfCode(s, r, p0);
    var d := |DeclarationCode(s)|;
    var su := SetupCode(s, r, At(InitPos(s, p0)));
    SetupAt(s, r, p0, 0);
    SetupAt(s, r, p0, 1);
    SetupAt(s, r, p0, 2);
    SetupAt(s, r, p0, 3);
    SetupAt(s, r, p0, 4);
    SetupAt(s, r, p0, 5);
    SetupAt(s, r, p0, 6);
    assert c[d + 3] == LoadLiteral(r + 2, UndefinedLiteral) && c[d + 1] == LoadLiteral(r + 1, IteratorSymbol);
    assert WriterAt(c, d + 4, r + 1) == WriterAt(c, d + 3, r + 1);
    assert WriterAt(c, d + 2, r) == WriterAt(c, d + 1, r);
  }

  /** From condPos on, nothing in the loop writes `r` or `r + 1`. */
  lemma {:induction false} LoopSilentOnIterator(s: ForOfStatement, r: Register, p0: nat, k: nat)
    requires |DeclarationCode(s)| + 9 <= k < |ForOfCode(s, r, p0)|
    ensures !Writes(ForOfCode(s, r, p0)[k], r) && !Writes(ForOfCode(s, r, p0)[k], r + 1)
  {
    ForOfCodeAt(s, r, p0, k);
    if k < |LoopHead(s, r, p0)| {
      LoopHeadAt(s, r, p0, k);
    }
  }

  /** Within the set-up, past the right-hand side, nothing writes `r`. */
  lemma {:induction false} SetupSilentOnRight(s: ForOfStatement, r: Register, p0: nat, k: nat)
    requires |DeclarationCode(s)| + 1 <= k < |DeclarationCode(s)| + 9
    ensures k < |ForOfCode(s, r, p0)| && !Writes(ForOfCode(s, r, p0)[k], r)
  {
    ForOfCodeParts(s, r, p0);
    ForOfCodeAt(s, r, p0, k);
    LoopHeadAt(s, r, p0, k);
  }

  /**
   * Throughout the loop, from condPos to its end, the iterator is the
   * result of calling the Symbol.iterator method on the right-hand side,
   * and the right-hand side's register keeps its value.
   */
  lemma {:induction false} ForOfLoopKeepsIterator(s: ForOfStatement, r: Register, p0: nat, k: nat)
    requires CondPos(s, p0) - p0 <= k <= |ForOfCode(s, r, p0)|
    ensures WriterAt(ForOfCode(s, r, p0), k, r + 1) ==
      Some(CallFunctionWithReceiver(r + 1, r + 2, r, 1, r + 1, false, false, None))
    ensures WriterAt(ForOfCode(s, r, p0), k, r) == Some(Evaluate(s.right.id, r))
  {
    var c := ForOfCode(s, r, p0);
    var d := |DeclarationCode(s)|;
    forall j | d + 9 <= j < k
      ensures !Writes(c[j], r) && !Writes(c[j], r + 1)
    {
      LoopSilentOnIterator(s, r, p0, j);
    }
    forall j | d + 1 <= j < d + 9
      ensures !Writes(c[j], r)
    {
      SetupSilentOnRight(s, r, p0, j);
    }
    WriterAtSkip(c, d + 9, k, r + 1);
    WriterAtSkip(c, d + 1, k, r);
    ForOfCodeAt(s, r, p0, d + 8);
    LoopHeadAt(s, r, p0, d + 8);
    ForOfCodeAt(s, r, p0, d);
    LoopHeadAt(s, r, p0, d);
  }

  /** The `i`-th instruction of the step, within ForOfCode. */
  lemma {:induction false} StepAt(s: ForOfStatement, r: Register, p0: nat, i: nat)
    requires i < 6
    ensures |DeclarationCode(s)| + 9 + i < |ForOfCode(s, r, p0)|
    ensures ForOfCode(s, r, p0)[|DeclarationCode(s)| + 9 + i] == StepCode(s, r, At(ExitPos(s, p0)))[i]
  {
    ForOfCodeParts(s, r, p0);
    ForOfCodeAt(s, r, p0, |DeclarationCode(s)| + 9 + i);
    LoopHeadAt(s, r, p0, |DeclarationCode(s)| + 9 + i);
  }

  /**
   * Each step begins at condPos by reading the iterator's `next` method;
   * the loop is left, to the position right after its code, when the
   * result's `done` is true; otherwise its `value` is stored into the
   * left-hand side and the body runs.
   */
  lemma {:induction false} ForOfStep(s: ForOfStatement, r: Register, p0: nat)
    ensures var c := ForOfCode(s, r, p0);
      var d := |DeclarationCode(s)|;
      d + 15 < |c| && CondPos(s, p0) == p0 + d + 9 && ExitPos(s, p0) == p0 + |c| &&
      c[d + 9] == GetObjectPreComputedCase(r + 1, r + 2, "next") &&
      c[d + 12] == JumpIfTrue(r + 3, At(ExitPos(s, p0))) &&
      c[d + 14] == Store(s.left.id, r + 3) && c[d + 15] == Execute(s.body.id)
  {
    var d := |DeclarationCode(s)|;
    ForOfCodeParts(s, r, p0);
    StepAt(s, r, p0, 0);
    StepAt(s, r, p0, 3);
    StepAt(s, r, p0, 5);
    ForOfCodeAt(s, r, p0, d + 15);
    LoopHeadAt(s, r, p0, d + 15);
  }

  /**
   * In each step `r + 2` holds the result of calling `next()` on the
   * iterator, `done` is read from it for the exit test and `value` for
   * the store.
   */
  lemma {:induction false} ForOfStepReadsNext(s: ForOfStatement, r: Register, p0: nat)
    ensures var c := ForOfCode(s, r, p0);
      var d := |DeclarationCode(s)|;
      var next := CallFunctionWithReceiver(r + 1, r + 2, r, 0, r + 2, false, false, None);
      d + 15 < |c| &&
      WriterAt(c, d + 11, r + 2) == Some(next) &&
      WriterAt(c, d + 12, r + 3) == Some(GetObjectPreComputedCase(r + 2, r + 3, "done")) &&
      WriterAt(c, d + 14, r + 2) == Some(next) &&
      WriterAt(c, d + 14, r + 3) == Some(GetObjectPreComputedCase(r + 2, r + 3, "value"))
  {
    var c := ForOfCode(s, r, p0);
    var d := |DeclarationCode(s)|;
    var next := CallFunctionWithReceiver(r + 1, r + 2, r, 0, r + 2, false, false, None);
    StepAt(s, r, p0, 1);
    StepAt(s, r, p0, 2);
    StepAt(s, r, p0, 3);
    StepAt(s, r, p0, 4);
    assert c[d + 10] == next;
    assert c[d + 11] == GetObjectPreComputedCase(r + 2, r + 3, "done");
    assert c[d + 12] == JumpIfTrue(r + 3, At(ExitPos(s, p0)));
    assert c[d + 13] == GetObjectPreComputedCase(r + 2, r + 3, "value");
    WriterAtSkip(c, d + 11, d + 14, r + 2);
  }

  /**
   * After the body: its breaks jump to forOfEnd, which holds the jump out
   * of the loop, its continues to condPos, and the loop's own back jump
   * to condPos.
   */
  lemma {:induction false} ForOfLoopEdges(s: ForOfStatement, r: Register, p0: nat)
    ensures var c := ForOfCode(s, r, p0);
      |c| >= 2 && LoopEnd(s, p0) == p0 + |c| - 1 &&
      c[|c| - 2] == Jump(At(CondPos(s, p0))) && c[|c| - 1] == Jump(At(p0 + |c|))
    ensures var c := ForOfCode(s, r, p0);
      var e := s.body.exits;
      var at := |DeclarationCode(s)| + 16;
      at + |e| <= |c| &&
      forall k :: 0 <= k < |e| ==>
        c[at + k] == Jump(At(if e[k] == Break then p0 + |c| - 1 else CondPos(s, p0)))
  {
    var c := ForOfCode(s, r, p0);
    var h := LoopHead(s, r, p0);
    var b := BodyExits(s.body.exits, LoopEnd(s, p0), CondPos(s, p0));
    var t := [Jump(At(CondPos(s, p0))), Jump(At(ExitPos(s, p0)))];
    ForOfCodeParts(s, r, p0);
    assert c == (h + b) + t;
    assert |c| == |h| + |b| + 2;
    assert c[|c| - 2] == t[0];
    assert c[|c| - 1] == t[1];
    assert LoopEnd(s, p0) == p0 + |c| - 1;
    assert c[..|h| + |b|] == h + b;
    forall k | 0 <= k < |s.body.exits|
      ensures c[|h| + k] == b[k]
    {
      assert c[|h| + k] == (h + b)[|h| + k];
    }
  }
}
