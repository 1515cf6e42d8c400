/** Lowering preserves meaning: the emitted blocks do what the statement does. */
module LoweringProof {
  import opened Wrappers
  import opened StreamIt
  import opened BlockGraph
  import opened Lowering
  import opened StrayJumps

  /** The place the builder has reached: the end of its current block. */
  function Here(b: Build, m: Mem): Config
    requires b.cur < |b.blocks|
  {
    Running(b.cur, |b.blocks[b.cur].code|, m)
  }

  lemma {:induction false} FrameExtends(b: Build, r: Build, g: Graph)
    requires b.Valid() && b.Frame(r) && Extends(r.blocks, g)
    ensures Extends(b.blocks, r.blocks) && Extends(b.blocks, g)
  {
    assert Extends(b.blocks, r.blocks);
    ExtendsTransitive(b.blocks, r.blocks, g);
  }

  lemma {:induction false} EmitStep(b: Build, i: Instr, g: Graph, inp: Tape, m: Mem)
    requires b.Valid() && Extends(b.Emit(i).blocks, g)
    ensures Steps(g, inp, Here(b, m), 1) == Here(b.Emit(i), ExecInstr(i, inp, m))
  {
    var k := |b.blocks[b.cur].code|;
    assert b.Emit(i).blocks[b.cur].code[k] == i;
    assert Prefix(b.Emit(i).blocks[b.cur].code, g[b.cur].code);
    assert g[b.cur].code[..k + 1][k] == i;
    assert Steps(g, inp, Here(b, m), 1) == Steps(g, inp, Step(g, inp, Here(b, m)), 0);
  }

  /** Registers below `limit` keep their values. */
  ghost predicate Keeps(m: Mem, m': Mem, limit: nat) {
    forall r: nat {:trigger Reg(r)} :: r < limit ==> Value(m'.regs, Reg(r)) == Value(m.regs, Reg(r))
  }

  lemma {:induction false} ExprRuns(e: Expr, b: Build, g: Graph, inp: Tape, m: Mem) returns (n: nat, m': Mem)
    requires b.Valid() && Extends(LowerExpr(e, b).0.blocks, g)
    ensures Steps(g, inp, Here(b, m), n) == Here(LowerExpr(e, b).0, m')
    ensures (Value(m'.regs, LowerExpr(e, b).1), m'.env) == EvalExpr(e, inp, m.env)
    ensures Keeps(m, m', b.reg)
    decreases e
  {
    match e
    case Const(_) =>
      n, m' := 0, m;
    case Var(x) =>
      EmitStep(b, Load(b.reg, x), g, inp, m);
      n, m' := 1, ExecInstr(Load(b.reg, x), inp, m);
    case Pop =>
      EmitStep(b, PopTo(b.reg), g, inp, m);
      n, m' := 1, ExecInstr(PopTo(b.reg), inp, m);
    case Bin(op, l, r) =>
      var (b1, vl) := LowerExpr(l, b);
      var (b2, vr) := LowerExpr(r, b1);
      FrameExtends(b2, b2.Emit(Arith(b2.reg, op, vl, vr)), g);
      FrameExtends(b1, b2, g);
      var n1, m1 := ExprRuns(l, b, g, inp, m);
      var n2, m2 := ExprRuns(r, b1, g, inp, m1);
      n, m' := BinRuns(op, l, r, b, g, inp, m, n1, m1, n2, m2);
  }

  /** An operator applied after both operands have run. */
  lemma {:induction false} BinRuns(op: BinOp, l: Expr, r: Expr, b: Build, g: Graph, inp: Tape, m: Mem, n1: nat, m1: Mem,
          n2: nat, m2: Mem)
    returns (n: nat, m': Mem)
    requires b.Valid() && Extends(LowerExpr(Bin(op, l, r), b).0.blocks, g)
    requires var (b1, v1) := LowerExpr(l, b);
             && Steps(g, inp, Here(b, m), n1) == Here(b1, m1)
             && (Value(m1.regs, v1), m1.env) == EvalExpr(l, inp, m.env) && Keeps(m, m1, b.reg)
    requires var b1 := LowerExpr(l, b).0;
             var (b2, v2) := LowerExpr(r, b1);
             && Steps(g, inp, Here(b1, m1), n2) == Here(b2, m2)
             && (Value(m2.regs, v2), m2.env) == EvalExpr(r, inp, m1.env) && Keeps(m1, m2, b1.reg)
    ensures Steps(g, inp, Here(b, m), n) == Here(LowerExpr(Bin(op, l, r), b).0, m')
    ensures (Value(m'.regs, LowerExpr(Bin(op, l, r), b).1), m'.env) == EvalExpr(Bin(op, l, r), inp, m.env)
    ensures Keeps(m, m', b.reg)
  {
    var (b1, vl) := LowerExpr(l, b);
    var (b2, vr) := LowerExpr(r, b1);
    OperandKept(vl, m1, m2, b1.reg);
    StepsAdd(g, inp, Here(b, m), n1, n2);
    n, m' := EmitAfter(b, b2, Arith(b2.reg, op, vl, vr), g, inp, m, n1 + n2, m2);
    KeepsThenWrites(m, m1, m2, b.reg, b1.reg, b2.reg, Value(m'.regs, Reg(b2.reg)));
  }

  lemma {:induction false} KeepsThenWrites(m: Mem, m1: Mem, m2: Mem, l: nat, l1: nat, dst: nat, v: int)
    requires Keeps(m, m1, l) && Keeps(m1, m2, l1) && l <= l1 <= dst
    ensures Keeps(m, m2.(regs := m2.regs[dst := v]), l)
  {
    forall r | 0 <= r < l
      ensures Value(m2.regs[dst := v], Reg(r)) == Value(m.regs, Reg(r))
    {
      assert Value(m1.regs, Reg(r)) == Value(m.regs, Reg(r));
      assert Value(m2.regs, Reg(r)) == Value(m1.regs, Reg(r));
    }
  }

  lemma {:induction false} OperandKept(v: Operand, m: Mem, m': Mem, limit: nat)
    requires Keeps(m, m', limit) && (v.Reg? ==> v.id < limit)
    ensures Value(m'.regs, v) == Value(m.regs, v)
  {
    if v.Reg? {
      assert Value(m'.regs, Reg(v.id)) == Value(m.regs, Reg(v.id));
    }
  }

  lemma {:induction false} EmitAfter(b: Build, b1: Build, i: Instr, g: Graph, inp: Tape, m: Mem, n1: nat, m1: Mem)
    returns (n: nat, m': Mem)
    requires b.Valid() && b1.Valid() && Extends(b1.Emit(i).blocks, g) && Steps(g, inp, Here(b, m), n1) == Here(b1, m1)
    ensures Steps(g, inp, Here(b, m), n) == Here(b1.Emit(i), m') && m' == ExecInstr(i, inp, m1)
  {
    EmitStep(b1, i, g, inp, m1);
    StepsAdd(g, inp, Here(b, m), n1, 1);
    n, m' := n1 + 1, ExecInstr(i, inp, m1);
  }

  lemma {:induction false} SimpleRuns(s: Simple, b: Build, g: Graph, inp: Tape, m: Mem) returns (n: nat, m': Mem)
    requires b.Valid() && Extends(LowerSimple(s, b).blocks, g)
    ensures Steps(g, inp, Here(b, m), n) == Here(LowerSimple(s, b), m')
    ensures m'.env == ExecSimple(s, inp, m.env)
  {
    hide LowerExpr, EvalExpr, Steps, Extends, Here;
    match s
    case Nop =>
      StepsNone(g, inp, Here(b, m));
      n, m' := 0, m;
    case Assign(x, e) =>
      n, m' := ExprThenEmit(e, Store(x, LowerExpr(e, b).1), b, g, inp, m);
    case Update(x, op, e) =>
      UpdateIs(x, op, e, inp, m.env);
      n, m' := ExprThenEmit(Bin(op, Var(x), e), Store(x, LowerExpr(Bin(op, Var(x), e), b).1), b, g, inp, m);
    case Push(e) =>
      n, m' := ExprThenEmit(e, PushOf(LowerExpr(e, b).1), b, g, inp, m);
    case Eval(e) =>
      n, m' := ExprRuns(e, b, g, inp, m);
  }

  lemma {:induction false} UpdateIs(x: string, op: BinOp, e: Expr, inp: Tape, env: Env)
    ensures var (v, env1) := EvalExpr(Bin(op, Var(x), e), inp, env);
            ExecSimple(Update(x, op, e), inp, env) == env1.(vars := env1.vars[x := v])
  {
  }

  lemma {:induction false} StepsNone(g: Graph, inp: Tape, c: Config)
    ensures Steps(g, inp, c, 0) == c
  {
  }

  lemma {:induction false} ExprThenEmit(e: Expr, i: Instr, b: Build, g: Graph, inp: Tape, m: Mem)
    returns (n: nat, m': Mem)
    requires b.Valid() && Extends(LowerExpr(e, b).0.Emit(i).blocks, g)
    ensures Steps(g, inp, Here(b, m), n) == Here(LowerExpr(e, b).0.Emit(i), m')
    ensures exists m1 :: m' == ExecInstr(i, inp, m1)
                         && (Value(m1.regs, LowerExpr(e, b).1), m1.env) == EvalExpr(e, inp, m.env)
  {
    var b1 := LowerExpr(e, b).0;
    FrameExtends(b1, b1.Emit(i), g);
    var n1, m1 := ExprRuns(e, b, g, inp, m);
    n, m' := EmitAfter(b, b1, i, g, inp, m, n1, m1);
  }

  /** In `g` the block the builder is in ends here with `t`. */
  predicate ClosedWith(b: Build, g: Graph, t: Term)
    requires b.cur < |b.blocks|
  {
    b.cur < |g| && g[b.cur] == Block(b.blocks[b.cur].code, [t])
  }

  lemma {:induction false} JumpStep(b: Build, g: Graph, inp: Tape, m: Mem, t: Term)
    requires b.Valid() && ClosedWith(b, g, t) && t != Br(None)
    ensures Steps(g, inp, Here(b, m), 1) ==
            Running(match t case Br(o) => o.value case CondBr(v, yes, no) => if Value(m.regs, v) != 0 then yes
                else no, 0, m)
  {
    assert Steps(g, inp, Here(b, m), 1) == Steps(g, inp, Step(g, inp, Here(b, m)), 0);
  }

  /** A condition and the branch on it. */
  lemma {:induction false} CondRuns(e: Expr, b: Build, yes: nat, no: nat, g: Graph, inp: Tape, m: Mem)
    returns (n: nat, m': Mem)
    requires b.Valid() && Extends(LowerExpr(e, b).0.blocks, g)
    requires ClosedWith(LowerExpr(e, b).0, g, CondBr(LowerExpr(e, b).1, yes, no))
    ensures n > 0 && m'.env == EvalExpr(e, inp, m.env).1
    ensures Steps(g, inp, Here(b, m), n) == Running(if EvalExpr(e, inp, m.env).0 != 0 then yes else no, 0, m')
  {
    var n1;
    n1, m' := ExprRuns(e, b, g, inp, m);
    JumpStep(LowerExpr(e, b).0, g, inp, m', CondBr(LowerExpr(e, b).1, yes, no));
    StepsAdd(g, inp, Here(b, m), n1, 1);
    n := n1 + 1;
  }

  /** Straight-line code and the jump after it. */
  lemma {:induction false} SimpleJump(s: Simple, b: Build, to: nat, g: Graph, inp: Tape, m: Mem)
    returns (n: nat, m': Mem)
    requires b.Valid() && Extends(LowerSimple(s, b).blocks, g) && ClosedWith(LowerSimple(s, b), g, Br(Some(to)))
    ensures Steps(g, inp, Here(b, m), n) == Running(to, 0, m') && m'.env == ExecSimple(s, inp, m.env)
  {
    var n1;
    n1, m' := SimpleRuns(s, b, g, inp, m);
    JumpStep(LowerSimple(s, b), g, inp, m', Br(Some(to)));
    StepsAdd(g, inp, Here(b, m), n1, 1);
    n := n1 + 1;
  }

  /** A branch to the null block. */
  lemma {:induction false} NullStep(b: Build, g: Graph, inp: Tape, m: Mem)
    requires b.Valid() && ClosedWith(b, g, Br(None))
    ensures Steps(g, inp, Here(b, m), 1) == Crashed
  {
    assert Steps(g, inp, Here(b, m), 1) == Steps(g, inp, Step(g, inp, Here(b, m)), 0);
  }

  // ---- statements ----

  /** How a statement is lowered: whether targets are restored after loops, the targets its jumps ought to have, and
      whether the builder still has these. */
  datatype Mode = Mode(restore: bool, ok: bool, brk: Option<nat>, cont: Option<nat>) {
    /** A builder that has lost the targets has no break target at all. */
    predicate Fits(b: Build) {
      if ok then b.brk == brk && b.cont == cont else b.brk == None
    }

    predicate InLoop() {
      brk.Some? && cont.Some?
    }

    function After(s: Option<Stmt>): Mode {
      this.(ok := Later(restore, ok, s))
    }
  }

  /** Without a loop a statement leaves the targets alone; a loop that does not restore them clears the break target. */
  lemma {:induction false} TargetsAfter(s: Stmt, b: Build)
    requires b.Valid()
    ensures !HasLoop(s) ==> LowerStmt(s, b, false).brk == b.brk && LowerStmt(s, b, false).cont == b.cont
    ensures HasLoop(s) || b.brk == None ==> LowerStmt(s, b, false).brk == None
    decreases s, 1
  {
    hide LowerSimple, LowerExpr, LoopHead, ForTail;
    match s
    case Seq(s1, s2) =>
      TargetsAfter(s1, b);
      TargetsAfter(s2, LowerStmt(s1, b, false));
    case If(_, cons, alt) =>
      var b2 := IfHead(s, b);
      BranchTargetsAfter(cons, b2, |b.blocks| + 2, |b.blocks| + 1);
      var b3 := LowerBranch(cons, b2, |b.blocks| + 2, |b.blocks| + 1, false);
      BranchTargetsAfter(alt, b3, |b.blocks| + 2, |b.blocks| + 2);
    case _ =>
  }

  lemma {:induction false} BranchTargetsAfter(o: Option<Stmt>, b: Build, merge: nat, next: nat)
    requires b.Valid() && merge < |b.blocks| && next < |b.blocks| && next != b.cur && b.blocks[next].terms == []
    ensures var r := LowerBranch(o, b, merge, next, false);
            && (!OptHasLoop(o) ==> r.brk == b.brk && r.cont == b.cont)
            && (OptHasLoop(o) || b.brk == None ==> r.brk == None)
    decreases o, 2
  {
    hide LowerStmt;
    if o.Some? {
      TargetsAfter(o.value, b);
    }
  }

  lemma {:induction false} ModeAfter(x: Mode, s: Stmt, b: Build)
    requires b.Valid() && x.Fits(b)
    ensures x.After(Some(s)).Fits(LowerStmt(s, b, x.restore))
  {
    hide LowerStmt;
    TargetsAfter(s, b);
  }

  lemma {:induction false} ModeAfterBranch(x: Mode, o: Option<Stmt>, b: Build, merge: nat, next: nat)
    requires b.Valid() && merge < |b.blocks| && next < |b.blocks| && next != b.cur && b.blocks[next].terms == []
    requires x.Fits(b)
    ensures x.After(o).Fits(LowerBranch(o, b, merge, next, x.restore))
  {
    hide LowerBranch;
    BranchTargetsAfter(o, b, merge, next);
  }

  /** What a run of n steps from `c` shows about an outcome of the statement. */
  predicate Matches(w: Watched, fuel: nat, brk: Option<nat>, cont: Option<nat>, normal: nat, at: nat,
                    g: Graph, inp: Tape, c: Config, n: nat, m': Mem)
  {
    match w
    case Plain(Normal(env)) => Steps(g, inp, c, n) == Running(normal, at, m') && m'.env == env
    case Plain(Broke(env)) => brk.Some? && Steps(g, inp, c, n) == Running(brk.value, 0, m') && m'.env == env
    case Plain(Continued(env)) => cont.Some? && Steps(g, inp, c, n) == Running(cont.value, 0, m') && m'.env == env
    case Plain(OutOfFuel) => n >= fuel && Steps(g, inp, c, n).Running?
    case Stray(jump) => jump.Break? ==> Steps(g, inp, c, n) == Crashed
  }

  /** Lowering went on in the still empty block `k`. */
  predicate EndsAt(r: Build, k: nat) {
    r.cur == k < |r.blocks| && r.blocks[k].code == []
  }

  predicate StmtMatches(s: Stmt, x: Mode, b: Build, g: Graph, inp: Tape, m: Mem, fuel: nat, n: nat, m': Mem)
    requires b.Valid()
  {
    var r := LowerStmt(s, b, x.restore);
    Matches(Watch(s, x.restore, x.ok, inp, m.env, fuel), fuel, x.brk, x.cont, r.cur, |r.blocks[r.cur].code|,
            g, inp, Here(b, m), n, m')
  }

  /** Running the emitted blocks from where a statement starts ends where it ends, or at its break or continue
      target, with the same variables, input position and output; if the statement runs out of fuel, the
      blocks are still running after at least that many steps; and if it executes a break whose target was lost,
      they crash. */
  lemma {:induction false} StmtRuns(s: Stmt, x: Mode, b: Build, g: Graph, inp: Tape, m: Mem, fuel: nat)
    returns (n: nat, m': Mem)
    requires b.Valid() && Extends(LowerStmt(s, b, x.restore).blocks, g)
    requires x.Fits(b) && Nested(s, x.InLoop())
    ensures StmtMatches(s, x, b, g, inp, m, fuel, n, m')
    decreases fuel, s, 1
  {
    hide LowerSimple, LowerExpr, LowerIf, LowerWhile, LowerFor, Steps;
    match s
    case Do(simple) =>
      n, m' := SimpleRuns(simple, b, g, inp, m);
    case Seq(_, _) =>
      n, m' := SeqRuns(s, x, b, g, inp, m, fuel);
    case If(_, _, _) =>
      n, m' := IfRuns(s, x, b, g, inp, m, fuel);
    case While(_, _) =>
      n, m' := WhileRuns(s, x, b, g, inp, m, fuel);
    case For(_, _, _, _) =>
      n, m' := ForRuns(s, x, b, g, inp, m, fuel);
    case Break =>
      BreakRuns(x, b, g, inp, m, fuel);
      n, m' := 1, m;
    case Continue =>
      ContinueRuns(x, b, g, inp, m, fuel);
      n, m' := 1, m;
  }

  lemma {:induction false} BreakRuns(x: Mode, b: Build, g: Graph, inp: Tape, m: Mem, fuel: nat)
    requires b.Valid() && Extends(LowerStmt(Break, b, x.restore).blocks, g) && x.Fits(b) && x.InLoop()
    ensures StmtMatches(Break, x, b, g, inp, m, fuel, 1, m)
  {
    hide Steps;
    EnterCloses(b, 1, Br(b.brk), |b.blocks|, g);
    if x.ok {
      JumpStep(b, g, inp, m, Br(b.brk));
    } else {
      NullStep(b, g, inp, m);
    }
  }

  lemma {:induction false} ContinueRuns(x: Mode, b: Build, g: Graph, inp: Tape, m: Mem, fuel: nat)
    requires b.Valid() && Extends(LowerStmt(Continue, b, x.restore).blocks, g) && x.Fits(b) && x.InLoop()
    ensures StmtMatches(Continue, x, b, g, inp, m, fuel, 1, m)
  {
    hide Steps;
    EnterCloses(b, 1, Br(b.cont), |b.blocks|, g);
    if x.ok {
      JumpStep(b, g, inp, m, Br(b.cont));
    }
  }

  lemma {:induction false} SeqRuns(s: Stmt, x: Mode, b: Build, g: Graph, inp: Tape, m: Mem, fuel: nat)
    returns (n: nat, m': Mem)
    requires s.Seq? && b.Valid() && Extends(LowerStmt(s, b, x.restore).blocks, g)
    requires x.Fits(b) && Nested(s, x.InLoop())
    ensures StmtMatches(s, x, b, g, inp, m, fuel, n, m')
    decreases fuel, s, 0
  {
    hide LowerStmt, Watch, Steps, Nested, Extends;
    var b1 := LowerStmt(s.s1, b, x.restore);
    var w := Watch(s.s1, x.restore, x.ok, inp, m.env, fuel);
    SeqIs(s, x, b, inp, m.env, fuel);
    FrameExtends(b1, LowerStmt(s.s2, b1, x.restore), g);
    n, m' := StmtRuns(s.s1, x, b, g, inp, m, fuel);
    if w.Plain? && w.o.Normal? {
      ModeAfter(x, s.s1, b);
      var n2, m2 := StmtRuns(s.s2, x.After(Some(s.s1)), b1, g, inp, m', fuel);
      StepsAdd(g, inp, Here(b, m), n, n2);
      n, m' := n + n2, m2;
    }
  }

  lemma {:induction false} SeqIs(s: Stmt, x: Mode, b: Build, inp: Tape, env: Env, fuel: nat)
    requires s.Seq? && b.Valid() && Nested(s, x.InLoop())
    ensures Nested(s.s1, x.InLoop()) && Nested(s.s2, x.InLoop())
    ensures LowerStmt(s, b, x.restore) == LowerStmt(s.s2, LowerStmt(s.s1, b, x.restore), x.restore)
    ensures var w := Watch(s.s1, x.restore, x.ok, inp, env, fuel);
            Watch(s, x.restore, x.ok, inp, env, fuel)
            == if w.Plain? && w.o.Normal? then Watch(s.s2, x.restore, x.After(Some(s.s1)).ok, inp, w.o.env, fuel) else w
  {
  }

  lemma {:induction false} BranchRuns(s: Stmt, x: Mode, b: Build, merge: nat, g: Graph, inp: Tape, m: Mem, fuel: nat)
    returns (n: nat, m': Mem)
    requires b.Valid() && Extends(LowerStmt(s, b, x.restore).blocks, g)
    requires ClosedWith(LowerStmt(s, b, x.restore), g, Br(Some(merge)))
    requires x.Fits(b) && Nested(s, x.InLoop())
    ensures Matches(Watch(s, x.restore, x.ok, inp, m.env, fuel), fuel, x.brk, x.cont, merge, 0,
                    g, inp, Here(b, m), n, m')
    decreases fuel, s, 2
  {
    hide LowerStmt, Watch, LowerExpr;
    n, m' := StmtRuns(s, x, b, g, inp, m, fuel);
    var w := Watch(s, x.restore, x.ok, inp, m.env, fuel);
    if w.Plain? && w.o.Normal? {
      JumpStep(LowerStmt(s, b, x.restore), g, inp, m', Br(Some(merge)));
      StepsAdd(g, inp, Here(b, m), n, 1);
      n := n + 1;
    }
  }

  lemma {:induction false} GoOnCloses(b: Build, t: Term, next: nat, g: Graph)
    requires b.Valid() && next < |b.blocks| && next != b.cur && b.blocks[next].terms == []
    requires Extends(b.GoOn(t, next).blocks, g)
    ensures ClosedWith(b, g, t) && Extends(b.blocks, g)
  {
    assert b.GoOn(t, next).blocks[b.cur] == g[b.cur];
    FrameExtends(b, b.GoOn(t, next), g);
  }

  lemma {:induction false} EnterCloses(b: Build, n: nat, t: Term, next: nat, g: Graph)
    requires b.Valid() && |b.blocks| <= next < |b.blocks| + n
    requires Extends(b.Enter(n, t, next).blocks, g)
    ensures ClosedWith(b, g, t) && Extends(b.blocks, g)
  {
    assert b.Enter(n, t, next).blocks[b.cur] == g[b.cur];
    FrameExtends(b, b.Enter(n, t, next), g);
  }

  /** Where the branches of an if start, and how its blocks are closed in `g`. */
  lemma {:induction false} IfShape(s: Stmt, b: Build, restore: bool, g: Graph) returns (b2: Build, b3: Build)
    requires s.If? && b.Valid() && Extends(LowerIf(s, b, restore).blocks, g)
    ensures b2 == IfHead(s, b) && b2.blocks[b2.cur].code == []
    ensures b3 == LowerBranch(s.cons, b2, |b.blocks| + 2, |b.blocks| + 1, restore) && b3.blocks[b3.cur].code == []
    ensures LowerIf(s, b, restore).cur == |b.blocks| + 2 && LowerIf(s, b, restore).blocks[|b.blocks| + 2].code == []
    ensures Extends(LowerExpr(s.cond, b).0.blocks, g)
    ensures var (thenBB, elseBB, mergeBB) := (|b.blocks|, |b.blocks| + 1, |b.blocks| + 2);
            ClosedWith(LowerExpr(s.cond, b).0, g,
                CondBr(LowerExpr(s.cond, b).1, if s.cons.Some? then thenBB else mergeBB,
                                                         if s.alt.Some? then elseBB else mergeBB))
    ensures s.cons.Some? ==>
              && Extends(LowerStmt(s.cons.value, b2, restore).blocks, g)
              && ClosedWith(LowerStmt(s.cons.value, b2, restore), g, Br(Some(|b.blocks| + 2)))
    ensures s.alt.Some? ==>
              && Extends(LowerStmt(s.alt.value, b3, restore).blocks, g)
              && ClosedWith(LowerStmt(s.alt.value, b3, restore), g, Br(Some(|b.blocks| + 2)))
  {
    hide LowerStmt, LowerExpr, ClosedWith, Extends;
    var (thenBB, elseBB, mergeBB) := (|b.blocks|, |b.blocks| + 1, |b.blocks| + 2);
    b2 := IfHead(s, b);
    b3 := LowerBranch(s.cons, b2, mergeBB, elseBB, restore);
    var r := LowerBranch(s.alt, b3, mergeBB, mergeBB, restore);
    FrameExtends(b3, r, g);
    FrameExtends(b2, b3, g);
    EnterCloses(LowerExpr(s.cond, b).0, 3, CondBr(LowerExpr(s.cond, b).1, if s.cons.Some? then thenBB else mergeBB,
                                                  if s.alt.Some? then elseBB else mergeBB), thenBB, g);
    if s.cons.Some? {
      GoOnCloses(LowerStmt(s.cons.value, b2, restore), Br(Some(mergeBB)), elseBB, g);
    }
    if s.alt.Some? {
      GoOnCloses(LowerStmt(s.alt.value, b3, restore), Br(Some(mergeBB)), mergeBB, g);
    }
  }

  lemma {:induction false} IfRuns(s: Stmt, x: Mode, b: Build, g: Graph, inp: Tape, m: Mem, fuel: nat)
    returns (n: nat, m': Mem)
    requires s.If? && b.Valid() && Extends(LowerIf(s, b, x.restore).blocks, g)
    requires x.Fits(b) && Nested(s, x.InLoop())
    ensures EndsAt(LowerIf(s, b, x.restore), |b.blocks| + 2)
    ensures Matches(Watch(s, x.restore, x.ok, inp, m.env, fuel), fuel, x.brk, x.cont, |b.blocks| + 2, 0,
                    g, inp, Here(b, m), n, m')
    decreases fuel, s, 0
  {
    hide LowerStmt, LowerIf, LowerExpr, LowerBranch, IfHead, Watch, EvalExpr, Steps, Nested;
    IfIs(s, x, inp, m.env, fuel);
    var (thenBB, elseBB, mergeBB) := (|b.blocks|, |b.blocks| + 1, |b.blocks| + 2);
    var b2, b3 := IfShape(s, b, x.restore, g);
    n, m' := CondRuns(s.cond, b, if s.cons.Some? then thenBB else mergeBB,
                      if s.alt.Some? then elseBB else mergeBB, g, inp, m);
    if EvalExpr(s.cond, inp, m.env).0 != 0 {
      if s.cons.Some? {
        n, m' := BranchAfter(s.cons.value, x, b2, mergeBB, g, inp, Here(b, m), n, m', fuel);
      }
    } else if s.alt.Some? {
      ModeAfterBranch(x, s.cons, b2, mergeBB, elseBB);
      n, m' := BranchAfter(s.alt.value, x.After(s.cons), b3, mergeBB, g, inp, Here(b, m), n, m', fuel);
    }
  }

  lemma {:induction false} IfIs(s: Stmt, x: Mode, inp: Tape, env: Env, fuel: nat)
    requires s.If? && Nested(s, x.InLoop())
    ensures s.cons.Some? ==> Nested(s.cons.value, x.InLoop())
    ensures s.alt.Some? ==> Nested(s.alt.value, x.InLoop())
    ensures var (v, env1) := EvalExpr(s.cond, inp, env);
            Watch(s, x.restore, x.ok, inp, env, fuel)
            == if v != 0 then
                 if s.cons.None? then Plain(Normal(env1)) else Watch(s.cons.value, x.restore, x.ok, inp, env1, fuel)
               else
                 if s.alt.None? then Plain(Normal(env1))
                 else Watch(s.alt.value, x.restore, x.After(s.cons).ok, inp, env1, fuel)
  {
    hide EvalExpr;
  }

  /** A branch reached after n0 steps, seen from where they began. */
  lemma {:induction false} BranchAfter(s: Stmt, x: Mode, b: Build, merge: nat, g: Graph, inp: Tape, c0: Config,
                                       n0: nat, m: Mem, fuel: nat)
    returns (n: nat, m': Mem)
    requires b.Valid() && b.blocks[b.cur].code == [] && Extends(LowerStmt(s, b, x.restore).blocks, g)
    requires ClosedWith(LowerStmt(s, b, x.restore), g, Br(Some(merge)))
    requires x.Fits(b) && Nested(s, x.InLoop()) && Steps(g, inp, c0, n0) == Running(b.cur, 0, m)
    ensures n >= n0
    ensures Matches(Watch(s, x.restore, x.ok, inp, m.env, fuel), fuel, x.brk, x.cont, merge, 0, g, inp, c0, n, m')
    decreases fuel, s, 3
  {
    hide LowerStmt, Watch, Steps, Nested;
    assert Here(b, m) == Running(b.cur, 0, m);
    n, m' := BranchRuns(s, x, b, merge, g, inp, m, fuel);
    StepsAdd(g, inp, c0, n0, n);
    n := n0 + n;
  }

  /** The blocks of a loop as they stand in `g`: the condition at `bc`, the body from `bb`, the increment, if
      there is one, at `bi`; `next` is where the body goes on to. */
  predicate LoopShape(c: Expr, incr: Simple, body: Stmt, restore: bool, bc: Build, bb: Build,
                      bi: Option<Build>, next: nat, done: nat, g: Graph) {
    && bc.Valid() && bc.blocks[bc.cur].code == []
    && bb.Valid() && bb.blocks[bb.cur].code == [] && bb.brk == Some(done) && bb.cont == Some(next)
    && Extends(LowerExpr(c, bc).0.blocks, g)
    && ClosedWith(LowerExpr(c, bc).0, g, CondBr(LowerExpr(c, bc).1, bb.cur, done))
    && Extends(LowerStmt(body, bb, restore).blocks, g)
    && ClosedWith(LowerStmt(body, bb, restore), g, Br(Some(next)))
    && match bi
       case None => next == bc.cur && incr == Nop
       case Some(bi) =>
         && bi.Valid() && bi.blocks[bi.cur].code == [] && next == bi.cur
         && Extends(LowerSimple(incr, bi).blocks, g)
         && ClosedWith(LowerSimple(incr, bi), g, Br(Some(bc.cur)))
  }

  /** From `next`, the increment runs and the loop is back at its condition. */
  lemma {:induction false} IncrementRuns(c: Expr, incr: Simple, body: Stmt, restore: bool, bc: Build, bb: Build,
        bi: Option<Build>, next: nat, done: nat, g: Graph, inp: Tape, m: Mem) returns (n: nat, m': Mem)
    requires LoopShape(c, incr, body, restore, bc, bb, bi, next, done, g)
    ensures Steps(g, inp, Running(next, 0, m), n) == Running(bc.cur, 0, m') && m'.env == ExecSimple(incr, inp, m.env)
  {
    match bi
    case None =>
      n, m' := 0, m;
    case Some(bi) =>
      assert Here(bi, m) == Running(next, 0, m);
      n, m' := SimpleJump(incr, bi, bc.cur, g, inp, m);
  }

  /** One round up to the end of the body, from the condition. */
  lemma {:induction false} RoundRuns(c: Expr, incr: Simple, body: Stmt, restore: bool, bc: Build, bb: Build,
        bi: Option<Build>, next: nat, done: nat, g: Graph, inp: Tape, m: Mem, fuel: nat) returns (n: nat, m': Mem)
    requires LoopShape(c, incr, body, restore, bc, bb, bi, next, done, g) && Nested(body, true)
    ensures n > 0
    ensures var (v, env1) := EvalExpr(c, inp, m.env);
            if v == 0 then Steps(g, inp, Running(bc.cur, 0, m), n) == Running(done, 0, m') && m'.env == env1
            else Matches(Watch(body, restore, true, inp, env1, fuel), fuel, Some(done), Some(next), next, 0, g, inp,
                         Running(bc.cur, 0, m), n, m')
    decreases fuel, body, 4
  {
    hide LowerStmt, Watch, LowerExpr, LowerSimple;
    assert Here(bc, m) == Running(bc.cur, 0, m);
    n, m' := CondRuns(c, bc, bb.cur, done, g, inp, m);
    if EvalExpr(c, inp, m.env).0 != 0 {
      n, m' := BranchAfter(body, Mode(restore, true, Some(done), Some(next)), bb, next,
                           g, inp, Here(bc, m), n, m', fuel);
    }
  }

  /** One round of a loop, in terms of what its body does. */
  lemma {:induction false} LoopIs(c: Expr, incr: Simple, body: Stmt, restore: bool, inp: Tape, env: Env, fuel: nat,
                                  v: int, env1: Env, w: Watched)
    requires 0 < fuel && (v, env1) == EvalExpr(c, inp, env) && w == Watch(body, restore, true, inp, env1, fuel)
    ensures var all := WatchLoop(c, incr, body, restore, inp, env, fuel);
            && (v == 0 ==> all == Plain(Normal(env1)))
            && (v != 0 ==>
                 match w
                 case Plain(Broke(env2)) => all == Plain(Normal(env2))
                 case Plain(OutOfFuel) => all == w
                 case Plain(_) =>
                   all == WatchLoop(c, incr, body, restore, inp, ExecSimple(incr, inp, w.o.env), fuel - 1)
                 case Stray(_) => all == w)
  {
    hide Watch, EvalExpr, ExecSimple;
  }

  lemma {:induction false} LoopRuns(c: Expr, incr: Simple, body: Stmt, restore: bool, bc: Build, bb: Build,
        bi: Option<Build>, next: nat, done: nat, g: Graph, inp: Tape, m: Mem, fuel: nat) returns (n: nat, m': Mem)
    requires LoopShape(c, incr, body, restore, bc, bb, bi, next, done, g) && Nested(body, true)
    ensures Matches(WatchLoop(c, incr, body, restore, inp, m.env, fuel), fuel, None, None, done, 0,
                    g, inp, Running(bc.cur, 0, m), n, m')
    decreases fuel, body, 5
  {
    hide LoopShape, LowerStmt, LowerSimple, LowerExpr, Watch, WatchLoop, EvalExpr, ExecSimple, Steps, Nested;
    if fuel == 0 {
      NoFuel(c, incr, body, restore, inp, m.env);
      StepsNone(g, inp, Running(bc.cur, 0, m));
      return 0, m;
    }
    n, m' := RoundRuns(c, incr, body, restore, bc, bb, bi, next, done, g, inp, m, fuel);
    var (v, env1) := EvalExpr(c, inp, m.env);
    var w := Watch(body, restore, true, inp, env1, fuel);
    LoopIs(c, incr, body, restore, inp, m.env, fuel, v, env1, w);
    if v != 0 && w.Plain? && (w.o.Normal? || w.o.Continued?) {
      n, m' := LoopGoesOn(c, incr, body, restore, bc, bb, bi, next, done, g, inp, Running(bc.cur, 0, m), n, m', fuel);
    }
  }

  lemma {:induction false} NoFuel(c: Expr, incr: Simple, body: Stmt, restore: bool, inp: Tape, env: Env)
    ensures WatchLoop(c, incr, body, restore, inp, env, 0) == Plain(OutOfFuel)
  {
  }

  /** From the end of a round that goes on: the increment and the rounds after it. */
  lemma {:induction false} LoopGoesOn(c: Expr, incr: Simple, body: Stmt, restore: bool, bc: Build, bb: Build,
        bi: Option<Build>, next: nat, done: nat, g: Graph, inp: Tape, c0: Config, n0: nat, m0: Mem, fuel: nat)
    returns (n: nat, m': Mem)
    requires LoopShape(c, incr, body, restore, bc, bb, bi, next, done, g) && Nested(body, true)
    requires 0 < fuel && 0 < n0 && Steps(g, inp, c0, n0) == Running(next, 0, m0)
    ensures Matches(WatchLoop(c, incr, body, restore, inp, ExecSimple(incr, inp, m0.env), fuel - 1), fuel,
                    None, None, done, 0, g, inp, c0, n, m')
    decreases fuel, body, 4
  {
    hide LoopShape, LowerStmt, LowerSimple, LowerExpr, Watch, WatchLoop, EvalExpr, ExecSimple, Steps, Nested;
    var n3, m3 := IncrementRuns(c, incr, body, restore, bc, bb, bi, next, done, g, inp, m0);
    StepsAdd(g, inp, c0, n0, n3);
    n, m' := LoopAfter(c, incr, body, restore, bc, bb, bi, next, done, g, inp, c0, n0 + n3, m3, fuel - 1, None, None);
  }

  /** A loop reached after a prefix, seen from the start of the prefix. */
  lemma {:induction false} LoopAfter(c: Expr, incr: Simple, body: Stmt, restore: bool, bc: Build, bb: Build,
        bi: Option<Build>, next: nat, done: nat, g: Graph, inp: Tape, c0: Config, n0: nat, m: Mem, fuel: nat,
        brk: Option<nat>, cont: Option<nat>)
    returns (n: nat, m': Mem)
    requires LoopShape(c, incr, body, restore, bc, bb, bi, next, done, g) && Nested(body, true)
    requires Steps(g, inp, c0, n0) == Running(bc.cur, 0, m)
    ensures Matches(WatchLoop(c, incr, body, restore, inp, m.env, fuel), n0 + fuel, brk, cont, done, 0,
                    g, inp, c0, n, m')
    decreases fuel, body, 6
  {
    hide LoopShape, LowerStmt, LowerSimple, LowerExpr, Watch, WatchLoop, EvalExpr, ExecSimple, Steps, Nested;
    var n1;
    n1, m' := LoopRuns(c, incr, body, restore, bc, bb, bi, next, done, g, inp, m, fuel);
    WatchLoopEnds(c, incr, body, restore, inp, m.env, fuel);
    StepsAdd(g, inp, c0, n0, n1);
    n := n0 + n1;
  }

  /** The condition block of a loop head, as it stands in `g`. */
  lemma {:induction false} HeadShape(c: Expr, b: Build, n: nat, done: nat, next: nat, g: Graph) returns (bc: Build)
    requires b.Valid() && 3 <= n && done < |b.blocks| + n && next < |b.blocks| + n
    requires Extends(LoopHead(c, b, n, done, next).blocks, g)
    ensures bc.Valid() && bc.cur == |b.blocks| && bc.blocks[bc.cur].code == []
    ensures Extends(LowerExpr(c, bc).0.blocks, g)
    ensures ClosedWith(LowerExpr(c, bc).0, g, CondBr(LowerExpr(c, bc).1, |b.blocks| + 1, done))
    ensures ClosedWith(b, g, Br(Some(bc.cur))) && Extends(b.blocks, g)
  {
    bc := b.Enter(n, Br(Some(|b.blocks|)), |b.blocks|);
    var (b1, v) := LowerExpr(c, bc);
    GoOnCloses(b1, CondBr(v, |b.blocks| + 1, done), |b.blocks| + 1, g);
    FrameExtends(bc, b1, g);
    EnterCloses(b, n, Br(Some(|b.blocks|)), |b.blocks|, g);
  }

  lemma {:induction false} WhileBlocks(s: Stmt, b: Build, restore: bool)
    requires s.While? && b.Valid()
    ensures var (condBB, doneBB) := (|b.blocks|, |b.blocks| + 2);
            var b1 := LowerStmt(s.body, LoopHead(s.cond, b, 3, doneBB, condBB), restore);
            && doneBB < |b1.blocks| && doneBB != b1.cur && b1.blocks[doneBB] == Block([], [])
            && LowerWhile(s, b, restore).blocks == b1.GoOn(Br(Some(condBB)), doneBB).blocks
            && LowerWhile(s, b, restore).cur == doneBB
  {
    hide LowerStmt, LoopHead;
  }

  lemma {:induction false} WhileShape(s: Stmt, b: Build, restore: bool, g: Graph) returns (bc: Build, bb: Build)
    requires s.While? && b.Valid() && Extends(LowerWhile(s, b, restore).blocks, g)
    ensures bc.cur == |b.blocks| && LowerWhile(s, b, restore).cur == |b.blocks| + 2
    ensures LowerWhile(s, b, restore).blocks[|b.blocks| + 2].code == []
    ensures LoopShape(s.cond, Nop, s.body, restore, bc, bb, None, bc.cur, |b.blocks| + 2, g)
    ensures ClosedWith(b, g, Br(Some(bc.cur)))
  {
    hide LowerWhile, LowerStmt, LoopHead, LowerExpr, Extends, ClosedWith;
    WhileBlocks(s, b, restore);
    bb := LoopHead(s.cond, b, 3, |b.blocks| + 2, |b.blocks|);
    var b1 := LowerStmt(s.body, bb, restore);
    GoOnCloses(b1, Br(Some(|b.blocks|)), |b.blocks| + 2, g);
    FrameExtends(bb, b1, g);
    bc := HeadShape(s.cond, b, 3, |b.blocks| + 2, |b.blocks|, g);
  }

  lemma {:induction false} WhileRuns(s: Stmt, x: Mode, b: Build, g: Graph, inp: Tape, m: Mem, fuel: nat)
    returns (n: nat, m': Mem)
    requires s.While? && b.Valid() && Extends(LowerWhile(s, b, x.restore).blocks, g)
    requires x.Fits(b) && Nested(s, x.InLoop())
    ensures EndsAt(LowerWhile(s, b, x.restore), |b.blocks| + 2)
    ensures Matches(Watch(s, x.restore, x.ok, inp, m.env, fuel), fuel, x.brk, x.cont, |b.blocks| + 2, 0,
                    g, inp, Here(b, m), n, m')
    decreases fuel, s, 0
  {
    hide LowerWhile, LowerStmt, LowerExpr, LoopShape;
    var bc, bb := WhileShape(s, b, x.restore, g);
    JumpStep(b, g, inp, m, Br(Some(bc.cur)));
    n, m' := LoopAfter(s.cond, Nop, s.body, x.restore, bc, bb, None, bc.cur, |b.blocks| + 2,
                       g, inp, Here(b, m), 1, m, fuel, x.brk, x.cont);
  }

  lemma {:induction false} ForBlocks(s: Stmt, b: Build, restore: bool) returns (bi: Build)
    requires s.For? && b.Valid()
    ensures var (condBB, incrBB, doneBB) := (|b.blocks|, |b.blocks| + 2, |b.blocks| + 3);
            var b1 := LowerStmt(s.body, LoopHead(s.cond, LowerSimple(s.init, b), 4, doneBB, incrBB), restore);
            && incrBB < |b1.blocks| && incrBB != b1.cur && b1.blocks[incrBB] == Block([], [])
            && var b2 := b1.GoOn(Br(Some(incrBB)), incrBB);
            && bi == b2.Targets(None, b2.cont) && doneBB < |bi.blocks| && doneBB != bi.cur
            && bi.blocks[doneBB] == Block([], [])
            && LowerFor(s, b, restore).blocks == LowerSimple(s.incr, bi).GoOn(Br(Some(condBB)), doneBB).blocks
            && LowerFor(s, b, restore).cur == doneBB
  {
    hide LowerStmt, LoopHead, LowerSimple;
    var (condBB, incrBB, doneBB) := (|b.blocks|, |b.blocks| + 2, |b.blocks| + 3);
    var b1 := LowerStmt(s.body, LoopHead(s.cond, LowerSimple(s.init, b), 4, doneBB, incrBB), restore);
    var b2 := b1.GoOn(Br(Some(incrBB)), incrBB);
    bi := b2.Targets(None, b2.cont);
  }

  lemma {:induction false} ForShape(s: Stmt, b: Build, restore: bool, g: Graph)
    returns (bc: Build, bb: Build, bi: Build)
    requires s.For? && b.Valid() && Extends(LowerFor(s, b, restore).blocks, g)
    ensures bc.cur == |b.blocks| && LowerFor(s, b, restore).cur == |b.blocks| + 3
    ensures LowerFor(s, b, restore).blocks[|b.blocks| + 3].code == []
    ensures LoopShape(s.cond, s.incr, s.body, restore, bc, bb, Some(bi), |b.blocks| + 2, |b.blocks| + 3, g)
    ensures Extends(LowerSimple(s.init, b).blocks, g) && ClosedWith(LowerSimple(s.init, b), g, Br(Some(bc.cur)))
  {
    hide LowerFor, LowerStmt, LoopHead, LowerExpr, LowerSimple, Extends, ClosedWith;
    bi := ForBlocks(s, b, restore);
    var (condBB, incrBB, doneBB) := (|b.blocks|, |b.blocks| + 2, |b.blocks| + 3);
    bb := LoopHead(s.cond, LowerSimple(s.init, b), 4, doneBB, incrBB);
    var b1 := LowerStmt(s.body, bb, restore);
    GoOnCloses(LowerSimple(s.incr, bi), Br(Some(condBB)), doneBB, g);
    FrameExtends(bi, LowerSimple(s.incr, bi), g);
    GoOnCloses(b1, Br(Some(incrBB)), incrBB, g);
    FrameExtends(bb, b1, g);
    bc := HeadShape(s.cond, LowerSimple(s.init, b), 4, doneBB, incrBB, g);
  }

  lemma {:induction false} ForRuns(s: Stmt, x: Mode, b: Build, g: Graph, inp: Tape, m: Mem, fuel: nat)
    returns (n: nat, m': Mem)
    requires s.For? && b.Valid() && Extends(LowerFor(s, b, x.restore).blocks, g)
    requires x.Fits(b) && Nested(s, x.InLoop())
    ensures EndsAt(LowerFor(s, b, x.restore), |b.blocks| + 3)
    ensures Matches(Watch(s, x.restore, x.ok, inp, m.env, fuel), fuel, x.brk, x.cont, |b.blocks| + 3, 0,
                    g, inp, Here(b, m), n, m')
    decreases fuel, s, 0
  {
    hide LowerFor, LowerStmt, LowerExpr, LowerSimple, LoopShape;
    var bc, bb, bi := ForShape(s, b, x.restore, g);
    var n0, m0 := SimpleJump(s.init, b, bc.cur, g, inp, m);
    n, m' := LoopAfter(s.cond, s.incr, s.body, x.restore, bc, bb, Some(bi), |b.blocks| + 2, |b.blocks| + 3,
                       g, inp, Here(b, m), n0, m0, fuel, x.brk, x.cont);
  }
}
