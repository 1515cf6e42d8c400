/** What the front end's stale branch targets do: the smallest programs it gets wrong. */
module LoweringExamples {
  import opened Wrappers
  import opened StreamIt
  import opened BlockGraph
  import opened Lowering
  import opened StrayJumps
  import opened LoweringProof
  import opened LoweringTheorems

  const INNER := While(Const(0), Do(Nop))

  /** while (pop()) { while (0) ; jump } */
  function JumpAfterLoop(jump: Stmt): Stmt {
    While(Pop, Seq(INNER, jump))
  }

  /** Both blocks of the outer loop's jump: a break goes nowhere, a continue to the inner condition. */
  function Emitted(jump: Stmt): Graph {
    [Block([], [Br(Some(1))]),
     Block([PopTo(0)], [CondBr(Reg(0), 2, 3)]),
     Block([], [Br(Some(4))]),
     Block([], []),
     Block([], [CondBr(Imm(0), 5, 6)]),
     Block([], [Br(Some(4))]),
     Block([], [Br(if jump.Break? then None else Some(4))]),
     Block([], [Br(Some(1))])]
  }

  const EMPTYBLOCK := Block([], [])

  lemma {:induction false} MakesBlocks(b: Build, t: Term, next: nat)
    requires b.Valid()
    ensures next == |b.blocks| ==>
              b.Enter(1, t, next).blocks == b.blocks[b.cur := Block(b.blocks[b.cur].code, [t])] + [EMPTYBLOCK]
    ensures |b.blocks| <= next < |b.blocks| + 3 ==>
            b.Enter(3, t, next).blocks == b.blocks[b.cur := Block(b.blocks[b.cur].code, [t])]
                + [EMPTYBLOCK, EMPTYBLOCK, EMPTYBLOCK]
    ensures |b.blocks| <= next < |b.blocks| + 4 ==>
            b.Enter(4, t, next).blocks == b.blocks[b.cur := Block(b.blocks[b.cur].code, [t])]
                + [EMPTYBLOCK, EMPTYBLOCK, EMPTYBLOCK, EMPTYBLOCK]
  {
    assert seq(4, _ => EMPTYBLOCK) == [EMPTYBLOCK, EMPTYBLOCK, EMPTYBLOCK, EMPTYBLOCK];
    assert [] + [t] == [t];
    assert seq(1, _ => EMPTYBLOCK) == [EMPTYBLOCK];
    assert seq(3, _ => EMPTYBLOCK) == [EMPTYBLOCK, EMPTYBLOCK, EMPTYBLOCK];
  }

  lemma {:induction false} EndsBlock(b: Build, t: Term, next: nat)
    requires b.Valid() && next < |b.blocks| && next != b.cur && b.blocks[next].terms == []
    ensures b.GoOn(t, next).blocks == b.blocks[b.cur := Block(b.blocks[b.cur].code, [t])]
  {
    assert [] + [t] == [t];
  }

  lemma {:induction false} OuterHead()
    ensures LoopHead(Pop, START, 3, 3, 1)
            == Build(Emitted(Break)[..2] + [EMPTYBLOCK, EMPTYBLOCK], 2, Some(3), Some(1), 1)
  {
    MakesBlocks(START, Br(Some(1)), 1);
    var b0 := START.Enter(3, Br(Some(1)), 1);
    assert b0.blocks == [Emitted(Break)[0], EMPTYBLOCK, EMPTYBLOCK, EMPTYBLOCK];
    var b1 := LowerExpr(Pop, b0).0;
    assert b1.blocks == [Emitted(Break)[0], Block([PopTo(0)], []), EMPTYBLOCK, EMPTYBLOCK];
    EndsBlock(b1, CondBr(Reg(0), 2, 3), 2);
    assert LoopHead(Pop, START, 3, 3, 1).blocks == Emitted(Break)[..2] + [EMPTYBLOCK, EMPTYBLOCK];
  }

  lemma {:induction false} InnerLoop()
    ensures LowerWhile(INNER, LoopHead(Pop, START, 3, 3, 1), false)
            == Build(Emitted(Break)[..6] + [EMPTYBLOCK], 6, None, Some(4), 1)
  {
    OuterHead();
    var b := LoopHead(Pop, START, 3, 3, 1);
    MakesBlocks(b, Br(Some(4)), 4);
    var b0 := b.Enter(3, Br(Some(4)), 4);
    assert b0.blocks == Emitted(Break)[..4] + [EMPTYBLOCK, EMPTYBLOCK, EMPTYBLOCK];
    EndsBlock(b0, CondBr(Imm(0), 5, 6), 5);
    var b1 := LoopHead(Const(0), b, 3, 6, 4);
    assert b1.blocks == Emitted(Break)[..5] + [EMPTYBLOCK, EMPTYBLOCK];
    var b2 := LowerStmt(Do(Nop), b1, false);
    assert b2 == b1;
    EndsBlock(b2, Br(Some(4)), 6);
    assert b2.GoOn(Br(Some(4)), 6).blocks == Emitted(Break)[..6] + [EMPTYBLOCK];
  }

  lemma {:induction false} EmitsThis(jump: Stmt)
    requires jump.Break? || jump.Continue?
    ensures FrontEnd(JumpAfterLoop(jump)) == Emitted(jump)
  {
    hide LoopHead;
    InnerLoop();
    OuterHead();
    var b := LowerStmt(INNER, LoopHead(Pop, START, 3, 3, 1), false);
    assert b == Build(Emitted(Break)[..6] + [EMPTYBLOCK], 6, None, Some(4), 1);
    MakesBlocks(b, Br(if jump.Break? then None else Some(4)), 7);
    var b1 := LowerStmt(jump, b, false);
    assert b1.blocks == Emitted(jump)[..7] + [EMPTYBLOCK];
    assert b1 == LowerStmt(Seq(INNER, jump), LoopHead(Pop, START, 3, 3, 1), false);
    EndsBlock(b1, Br(Some(1)), 3);
    assert b1.GoOn(Br(Some(1)), 3).blocks == Emitted(jump);
  }

  /** The emitted blocks run into the jump with the first item popped. */
  lemma {:induction false} RunsToJump(jump: Stmt, inp: Tape, env: Env) returns (m: Mem)
    requires inp(env.pos) != 0
    ensures Steps(Emitted(jump), inp, Boot(env), 5) == Running(6, 0, m)
  {
    var g := Emitted(jump);
    m := ExecInstr(PopTo(0), inp, Boot(env).mem);
    assert Steps(g, inp, Boot(env), 5) == Steps(g, inp, Running(1, 0, Boot(env).mem), 4);
    assert Steps(g, inp, Running(1, 0, Boot(env).mem), 4) == Steps(g, inp, Running(1, 1, m), 3);
    assert Steps(g, inp, Running(1, 1, m), 3) == Steps(g, inp, Running(2, 0, m), 2);
    assert Steps(g, inp, Running(2, 0, m), 2) == Steps(g, inp, Running(4, 0, m), 1);
  }

  lemma {:induction false} ProgramsEnd(inp: Tape, env: Env)
    requires inp(env.pos) != 0
    ensures Exec(JumpAfterLoop(Break), inp, env, 1) == Normal(env.(pos := env.pos + 1))
    ensures inp(env.pos + 1) == 0 ==> Exec(JumpAfterLoop(Continue), inp, env, 2) == Normal(env.(pos := env.pos + 2))
  {
  }

  /** A break after a nested loop: the program stops after one item, the emitted blocks branch to null. */
  lemma {:induction false} BreakAfterLoopCrashes(inp: Tape, env: Env)
    requires inp(env.pos) != 0
    ensures Exec(JumpAfterLoop(Break), inp, env, 1) == Normal(env.(pos := env.pos + 1))
    ensures Steps(FrontEnd(JumpAfterLoop(Break)), inp, Boot(env), 6) == Crashed
  {
    hide FrontEnd, LowerStmt, Exec, Emitted, JumpAfterLoop;
    ProgramsEnd(inp, env);
    EmitsThis(Break);
    var m := RunsToJump(Break, inp, env);
    StepsAdd(Emitted(Break), inp, Boot(env), 5, 1);
    JumpsToNull(inp, m);
  }

  lemma {:induction false} JumpsToNull(inp: Tape, m: Mem)
    ensures Steps(Emitted(Break), inp, Running(6, 0, m), 1) == Crashed
  {
    assert Steps(Emitted(Break), inp, Running(6, 0, m), 1) == Steps(Emitted(Break), inp, Crashed, 0);
  }

  /** A continue after a nested loop: the program ends at the first zero, the emitted blocks never halt. */
  lemma {:induction false} ContinueAfterLoopHangs(inp: Tape, env: Env, n: nat)
    requires inp(env.pos) != 0 && inp(env.pos + 1) == 0
    ensures Exec(JumpAfterLoop(Continue), inp, env, 2) == Normal(env.(pos := env.pos + 2))
    ensures Steps(FrontEnd(JumpAfterLoop(Continue)), inp, Boot(env), n).Running?
  {
    hide FrontEnd, Emitted, LowerStmt, Exec, JumpAfterLoop;
    ProgramsEnd(inp, env);
    EmitsThis(Continue);
    var g := Emitted(Continue);
    var m := RunsToJump(Continue, inp, env);
    if n <= 5 {
      StepsAdd(g, inp, Boot(env), n, 5 - n);
      if !Steps(g, inp, Boot(env), n).Running? {
        StoppedStays(g, inp, Steps(g, inp, Boot(env), n), 5 - n);
      }
    } else {
      StepsAdd(g, inp, Boot(env), 5, n - 5);
      Circles(inp, m, n - 5);
    }
  }

  /** Between the inner condition and the continue there is no way out. */
  lemma {:induction false} Circles(inp: Tape, m: Mem, n: nat)
    ensures Steps(Emitted(Continue), inp, Running(6, 0, m), n).Running?
    ensures Steps(Emitted(Continue), inp, Running(4, 0, m), n).Running?
  {
    if n > 0 {
      Circles(inp, m, n - 1);
    }
  }

  // ---- after a for loop ----

  /** A loop whose body has none leaves no break target, and its own continue target: the condition block of a while
      loop, the increment block of a for loop. */
  lemma LoopLeavesTargets(s: Stmt, b: Build)
    requires b.Valid() && (s.While? || s.For?) && !HasLoop(s.body)
    ensures var r := LowerStmt(s, b, false);
            r.brk == None && r.cont == Some(if s.While? then |b.blocks| else |b.blocks| + 2)
  {
    hide LowerExpr, LowerSimple, LoopHead, ForTail, LowerStmt;
    if s.While? {
      WhileLeavesTargets(s, b);
    } else {
      ForLeavesTargets(s, b);
    }
  }

  lemma WhileLeavesTargets(s: Stmt, b: Build)
    requires b.Valid() && s.While? && !HasLoop(s.body)
    ensures LowerStmt(s, b, false).brk == None && LowerStmt(s, b, false).cont == Some(|b.blocks|)
  {
    hide LowerExpr, LowerSimple, LoopHead, ForTail, HasLoop, Build.Frame, Grows;
    TargetsAfter(s.body, LoopHead(s.cond, b, 3, |b.blocks| + 2, |b.blocks|));
    assert LowerStmt(s, b, false) == LowerWhile(s, b, false);
  }

  lemma ForLeavesTargets(s: Stmt, b: Build)
    requires b.Valid() && s.For? && !HasLoop(s.body)
    ensures LowerStmt(s, b, false).brk == None && LowerStmt(s, b, false).cont == Some(|b.blocks| + 2)
  {
    hide LowerExpr, LowerSimple, LoopHead, ForTail, HasLoop, Build.Frame, Grows;
    TargetsAfter(s.body, LoopHead(s.cond, LowerSimple(s.init, b), 4, |b.blocks| + 3, |b.blocks| + 2));
    assert LowerStmt(s, b, false) == LowerFor(s, b, false);
  }

  /** for (; 0; push(7)) ; */
  const PUSHER := For(Nop, Const(0), Simple.Push(Const(7)), Do(Nop))

  /** while (pop()) { for (; 0; push(7)) ; continue } */
  const CONTINUEAFTERFOR := While(Pop, Seq(PUSHER, Continue))

  /** The outer continue leads to the inner increment. */
  const EMITTEDFOR: Graph :=
    [Block([], [Br(Some(1))]),
     Block([PopTo(0)], [CondBr(Reg(0), 2, 3)]),
     Block([], [Br(Some(4))]),
     Block([], []),
     Block([], [CondBr(Imm(0), 5, 7)]),
     Block([], [Br(Some(6))]),
     Block([PushOf(Imm(7))], [Br(Some(4))]),
     Block([], [Br(Some(6))]),
     Block([], [Br(Some(1))])]

  lemma {:induction false} PusherHead()
    ensures LoopHead(Const(0), LoopHead(Pop, START, 3, 3, 1), 4, 7, 6)
            == Build(EMITTEDFOR[..5] + [EMPTYBLOCK, EMPTYBLOCK, EMPTYBLOCK], 5, Some(7), Some(6), 1)
  {
    OuterHead();
    var b := LoopHead(Pop, START, 3, 3, 1);
    assert b.blocks == EMITTEDFOR[..2] + [EMPTYBLOCK, EMPTYBLOCK];
    MakesBlocks(b, Br(Some(4)), 4);
    var b0 := b.Enter(4, Br(Some(4)), 4);
    assert b0.blocks == EMITTEDFOR[..4] + [EMPTYBLOCK, EMPTYBLOCK, EMPTYBLOCK, EMPTYBLOCK];
    EndsBlock(b0, CondBr(Imm(0), 5, 7), 5);
    assert b0.GoOn(CondBr(Imm(0), 5, 7), 5).blocks == EMITTEDFOR[..5] + [EMPTYBLOCK, EMPTYBLOCK, EMPTYBLOCK];
  }

  lemma {:induction false} PusherLoop()
    ensures LowerFor(PUSHER, LoopHead(Pop, START, 3, 3, 1), false)
            == Build(EMITTEDFOR[..7] + [EMPTYBLOCK], 7, None, Some(6), 1)
  {
    PusherHead();
    var b1 := LoopHead(Const(0), LoopHead(Pop, START, 3, 3, 1), 4, 7, 6);
    assert LowerSimple(Nop, LoopHead(Pop, START, 3, 3, 1)) == LoopHead(Pop, START, 3, 3, 1);
    hide LoopHead;
    EndsBlock(b1, Br(Some(6)), 6);
    var b2 := b1.GoOn(Br(Some(6)), 6).Targets(None, Some(6));
    assert b2.blocks == EMITTEDFOR[..6] + [EMPTYBLOCK, EMPTYBLOCK];
    var b3 := LowerSimple(Simple.Push(Const(7)), b2);
    assert b3.blocks == EMITTEDFOR[..6] + [Block([PushOf(Imm(7))], []), EMPTYBLOCK];
    EndsBlock(b3, Br(Some(4)), 7);
    assert b3.GoOn(Br(Some(4)), 7).blocks == EMITTEDFOR[..7] + [EMPTYBLOCK];
  }

  lemma {:induction false} EmitsFor()
    ensures FrontEnd(CONTINUEAFTERFOR) == EMITTEDFOR
  {
    PusherLoop();
    OuterHead();
    hide LoopHead, LowerFor;
    var b0 := LoopHead(Pop, START, 3, 3, 1);
    var b := LowerStmt(PUSHER, b0, false);
    assert b == LowerFor(PUSHER, b0, false);
    MakesBlocks(b, Br(Some(6)), 8);
    var b1 := LowerStmt(Continue, b, false);
    assert b1.blocks == EMITTEDFOR[..8] + [EMPTYBLOCK];
    assert b1 == LowerStmt(Seq(PUSHER, Continue), b0, false);
    EndsBlock(b1, Br(Some(1)), 3);
    assert b1.GoOn(Br(Some(1)), 3).blocks == EMITTEDFOR;
  }

  lemma {:induction false} FourSteps(g: Graph, inp: Tape, c: Config)
    ensures Steps(g, inp, c, 4) == Step(g, inp, Step(g, inp, Step(g, inp, Step(g, inp, c))))
    ensures Steps(g, inp, c, 5) == Step(g, inp, Steps(g, inp, c, 4))
  {
    StepsAdd(g, inp, c, 4, 1);
    var c1 := Step(g, inp, c);
    var c2 := Step(g, inp, c1);
    assert Steps(g, inp, c, 4) == Steps(g, inp, c1, 3) == Steps(g, inp, c2, 2) == Steps(g, inp, Step(g, inp, c2), 1);
    assert Steps(g, inp, Step(g, inp, c2), 1) == Steps(g, inp, Step(g, inp, Step(g, inp, c2)), 0);
    var d := Steps(g, inp, c, 4);
    assert Steps(g, inp, d, 1) == Steps(g, inp, Step(g, inp, d), 0);
  }

  /** Round and round from the continue over the increment and the condition, with a push each time. */
  lemma {:induction false} PushesOn(inp: Tape, m: Mem, n: nat)
    ensures Steps(EMITTEDFOR, inp, Running(7, 0, m), 4 * n)
            == Running(7, 0, m.(env := m.env.(out := m.env.out + seq(n, _ => 7))))
    decreases n
  {
    if n == 0 {
      assert m.env.out + seq(0, _ => 7) == m.env.out;
    } else {
      var m1 := m.(env := m.env.(out := m.env.out + [7]));
      FourSteps(EMITTEDFOR, inp, Running(7, 0, m));
      StepsAdd(EMITTEDFOR, inp, Running(7, 0, m), 4, 4 * (n - 1));
      PushesOn(inp, m1, n - 1);
      assert m.env.out + [7] + seq(n - 1, _ => 7) == m.env.out + seq(n, _ => 7);
    }
  }

  lemma {:induction false} ContinueAfterForEnds(inp: Tape, env: Env)
    requires inp(env.pos) != 0 && inp(env.pos + 1) == 0
    ensures Exec(CONTINUEAFTERFOR, inp, env, 2) == Normal(env.(pos := env.pos + 2))
  {
  }

  /** A continue after a nested for loop: the program ends at the first zero without a push, the emitted blocks go
      on for ever and push each time they go round. */
  lemma {:induction false} ContinueAfterForPushes(inp: Tape, env: Env, n: nat) returns (m: Mem)
    requires inp(env.pos) != 0 && inp(env.pos + 1) == 0
    ensures Exec(CONTINUEAFTERFOR, inp, env, 2) == Normal(env.(pos := env.pos + 2))
    ensures Steps(FrontEnd(CONTINUEAFTERFOR), inp, Boot(env), 5 + 4 * n) == Running(7, 0, m)
    ensures m.env == env.(pos := env.pos + 1, out := env.out + seq(n, _ => 7))
  {
    hide FrontEnd, Exec, CONTINUEAFTERFOR;
    EmitsFor();
    ContinueAfterForEnds(inp, env);
    var m0 := ExecInstr(PopTo(0), inp, Boot(env).mem);
    FourSteps(EMITTEDFOR, inp, Boot(env));
    StepsAdd(EMITTEDFOR, inp, Boot(env), 5, 4 * n);
    PushesOn(inp, m0, n);
    m := m0.(env := m0.env.(out := m0.env.out + seq(n, _ => 7)));
  }
}
