/** Whole programs: when the front end's own targets are the right ones, and what its output then does. */
module LoweringTheorems {
  import opened Wrappers
  import opened StreamIt
  import opened BlockGraph
  import opened Lowering
  import opened LoweringProof
  import opened StrayJumps

  function Boot(env: Env): Config {
    Running(0, 0, Mem(map[], env))
  }

  /** What the front end emits for a work function body. */
  function FrontEnd(p: Stmt): Graph {
    LowerStmt(p, START, false).blocks
  }

  /** The same with break and continue targets restored after every loop. */
  function Restored(p: Stmt): Graph {
    LowerStmt(p, START, true).blocks
  }

  /** Either of them. */
  function Lowered(p: Stmt, restore: bool): Graph {
    LowerStmt(p, START, restore).blocks
  }

  // ---- what the blocks of either lowering do ----

  lemma {:induction false} SelfExtends(g: Graph)
    ensures Extends(g, g)
  {
  }

  /** A program lowered, run from its beginning. */
  lemma {:induction false} ProgramRuns(p: Stmt, restore: bool, inp: Tape, env: Env, fuel: nat)
    returns (n: nat, m: Mem)
    requires Nested(p, false)
    ensures Matches(Watch(p, restore, true, inp, env, fuel), fuel, None, None, LowerStmt(p, START, restore).cur,
                    |Lowered(p, restore)[LowerStmt(p, START, restore).cur].code|,
                    Lowered(p, restore), inp, Boot(env), n, m)
    ensures var w := Watch(p, restore, true, inp, env, fuel); w.Plain? ==> w.o == Exec(p, inp, env, fuel)
    ensures var w := Watch(p, restore, true, inp, env, fuel); w.Plain? ==> w.o.Normal? || w.o.OutOfFuel?
  {
    hide LowerStmt, Watch, Exec, Steps, Extends, Nested;
    var g := Lowered(p, restore);
    SelfExtends(g);
    var m0 := Mem(map[], env);
    assert Here(START, m0) == Boot(env);
    n, m := StmtRuns(p, Mode(restore, true, None, None), START, g, inp, m0, fuel);
    WatchIsExec(p, restore, true, inp, env, fuel);
    NoEscape(p, inp, env, fuel);
  }

  /** The blocks halt with the program's result if its run meets no jump whose targets were lost. */
  lemma {:induction false} LoweredReachesResult(p: Stmt, restore: bool, inp: Tape, env: Env, fuel: nat)
    returns (n: nat)
    requires Nested(p, false) && Exec(p, inp, env, fuel).Normal?
    requires Watch(p, restore, true, inp, env, fuel).Plain?
    ensures Steps(Lowered(p, restore), inp, Boot(env), n).Halted?
    ensures Steps(Lowered(p, restore), inp, Boot(env), n).mem.env == Exec(p, inp, env, fuel).env
  {
    hide LowerStmt, Watch, Exec, Nested;
    var g := Lowered(p, restore);
    var n1, m1 := ProgramRuns(p, restore, inp, env, fuel);
    StepsAdd(g, inp, Boot(env), n1, 1);
    n := n1 + 1;
    var c := Steps(g, inp, Boot(env), n1);
    assert Steps(g, inp, c, 1) == Steps(g, inp, Step(g, inp, c), 0);
  }

  /** Two numbers of steps after which the blocks have stopped show the same. */
  lemma {:induction false} StopsOnce(g: Graph, inp: Tape, c: Config, k: nat, n: nat)
    requires !Steps(g, inp, c, k).Running? && !Steps(g, inp, c, n).Running?
    ensures Steps(g, inp, c, k) == Steps(g, inp, c, n)
  {
    hide Steps;
    var (a, b) := if k <= n then (k, n) else (n, k);
    StepsAdd(g, inp, c, a, b - a);
    StoppedStays(g, inp, Steps(g, inp, c, a), b - a);
  }

  /** If such a run of the blocks stops after n steps the program itself terminates, with the same result. */
  lemma {:induction false} LoweredHaltMeansResult(p: Stmt, restore: bool, inp: Tape, env: Env, n: nat)
    requires Nested(p, false) && !Steps(Lowered(p, restore), inp, Boot(env), n).Running?
    requires Watch(p, restore, true, inp, env, n + 1).Plain?
    ensures Exec(p, inp, env, n + 1).Normal?
    ensures Steps(Lowered(p, restore), inp, Boot(env), n).Halted?
    ensures Steps(Lowered(p, restore), inp, Boot(env), n).mem.env == Exec(p, inp, env, n + 1).env
  {
    hide LowerStmt, Watch, Exec, Nested, Steps;
    var g := Lowered(p, restore);
    var n1, m1 := ProgramRuns(p, restore, inp, env, n + 1);
    if Exec(p, inp, env, n + 1).OutOfFuel? {
      StepsAdd(g, inp, Boot(env), n, n1 - n);
      StoppedStays(g, inp, Steps(g, inp, Boot(env), n), n1 - n);
      assert false;
    }
    var k := LoweredReachesResult(p, restore, inp, env, n + 1);
    StopsOnce(g, inp, Boot(env), k, n);
  }

  // ---- the restoring lowering is correct for every program ----

  lemma {:induction false} RestoredReachesResult(p: Stmt, inp: Tape, env: Env, fuel: nat) returns (n: nat)
    requires Nested(p, false) && Exec(p, inp, env, fuel).Normal?
    ensures Steps(Restored(p), inp, Boot(env), n).Halted?
    ensures Steps(Restored(p), inp, Boot(env), n).mem.env == Exec(p, inp, env, fuel).env
  {
    hide LowerStmt, Watch, Exec, Nested, Steps;
    WatchIsExec(p, true, true, inp, env, fuel);
    n := LoweredReachesResult(p, true, inp, env, fuel);
  }

  /** If the blocks halt after n steps the program itself terminates, with the same result. */
  lemma {:induction false} RestoredHaltMeansResult(p: Stmt, inp: Tape, env: Env, n: nat)
    requires Nested(p, false) && !Steps(Restored(p), inp, Boot(env), n).Running?
    ensures Exec(p, inp, env, n + 1).Normal?
    ensures Steps(Restored(p), inp, Boot(env), n).Halted?
    ensures Steps(Restored(p), inp, Boot(env), n).mem.env == Exec(p, inp, env, n + 1).env
  {
    hide LowerStmt, Watch, Exec, Nested, Steps;
    WatchIsExec(p, true, true, inp, env, n + 1);
    LoweredHaltMeansResult(p, true, inp, env, n);
  }

  // ---- the front end's lowering is correct for every run without stray jumps ----

  /** On every input whose run executes no break or continue with lost targets, whatever other jumps the program
      has, the emitted blocks halt with the program's result whenever it has one. */
  lemma {:induction false} FrontEndRunsRight(p: Stmt, inp: Tape, env: Env, fuel: nat) returns (n: nat)
    requires Nested(p, false) && Exec(p, inp, env, fuel).Normal? && Watch(p, false, true, inp, env, fuel).Plain?
    ensures Steps(FrontEnd(p), inp, Boot(env), n).Halted?
    ensures Steps(FrontEnd(p), inp, Boot(env), n).mem.env == Exec(p, inp, env, fuel).env
  {
    n := LoweredReachesResult(p, false, inp, env, fuel);
  }

  /** And as long as it executes none they stop only when the program terminates, at its result. */
  lemma {:induction false} FrontEndRunHaltMeansResult(p: Stmt, inp: Tape, env: Env, n: nat)
    requires Nested(p, false) && !Steps(FrontEnd(p), inp, Boot(env), n).Running?
    requires Watch(p, false, true, inp, env, n + 1).Plain?
    ensures Exec(p, inp, env, n + 1).Normal?
    ensures Steps(FrontEnd(p), inp, Boot(env), n).Halted?
    ensures Steps(FrontEnd(p), inp, Boot(env), n).mem.env == Exec(p, inp, env, n + 1).env
  {
    LoweredHaltMeansResult(p, false, inp, env, n);
  }

  /** If the first stray jump is a break the blocks branch to null. */
  lemma {:induction false} StrayBreakCrashes(p: Stmt, inp: Tape, env: Env, fuel: nat) returns (n: nat)
    requires Nested(p, false) && Watch(p, false, true, inp, env, fuel) == Stray(Break)
    ensures Steps(FrontEnd(p), inp, Boot(env), n) == Crashed
  {
    hide LowerStmt, Watch, Exec, Nested, Steps;
    var m;
    n, m := ProgramRuns(p, false, inp, env, fuel);
  }

  /** The emitted blocks halt after n steps with this result. */
  ghost predicate HaltsWith(p: Stmt, inp: Tape, env: Env, n: nat, result: Env) {
    var c := Steps(FrontEnd(p), inp, Boot(env), n);
    c.Halted? && c.mem.env == result
  }

  /** So on every input on which the program terminates and its first stray jump, if there is one, is no continue,
      the emitted blocks halt with the program's result if and only if there is none. */
  lemma {:induction false} FrontEndRunIsRightIff(p: Stmt, inp: Tape, env: Env, fuel: nat)
    requires Nested(p, false) && Exec(p, inp, env, fuel).Normal?
    requires Watch(p, false, true, inp, env, fuel) != Stray(Continue)
    ensures (exists n: nat :: HaltsWith(p, inp, env, n, Exec(p, inp, env, fuel).env))
            <==> Watch(p, false, true, inp, env, fuel).Plain?
  {
    hide LowerStmt, Exec, Nested, Steps;
    if Watch(p, false, true, inp, env, fuel).Plain? {
      var n := FrontEndRunsRight(p, inp, env, fuel);
      assert HaltsWith(p, inp, env, n, Exec(p, inp, env, fuel).env);
    } else {
      StraysAreJumps(p, false, true, inp, env, fuel);
      var k := StrayBreakCrashes(p, inp, env, fuel);
      forall n: nat
        ensures !HaltsWith(p, inp, env, n, Exec(p, inp, env, fuel).env)
      {
        if !Steps(FrontEnd(p), inp, Boot(env), n).Running? {
          StopsOnce(FrontEnd(p), inp, Boot(env), k, n);
        }
      }
    }
  }

  // ---- when the front end's targets are the right ones ----

  /** The blocks without what their terminators say. */
  ghost function Codes(g: Graph): seq<(seq<Instr>, nat)> {
    seq(|g|, k requires 0 <= k < |g| => (g[k].code, |g[k].terms|))
  }

  /** Two builders that differ at most in branch targets, and have the same blocks exactly when `eq`. */
  ghost predicate Alike(f: Build, t: Build, eq: bool) {
    f.cur == t.cur && f.reg == t.reg && Codes(f.blocks) == Codes(t.blocks) && (f.blocks == t.blocks <==> eq)
  }

  /** The targets agree as long as `ok`, and disagree afterwards; outside loops nothing is said. */
  predicate TargetsAgree(f: Build, t: Build, inLoop: bool, ok: bool) {
    inLoop ==> (&& t.brk.Some? && t.cont.Some?
                && (if ok then f.brk == t.brk && f.cont == t.cont else f.brk != t.brk && f.cont != t.cont))
  }

  lemma {:induction false} CodesAt(f: Graph, t: Graph, k: nat)
    requires Codes(f) == Codes(t) && k < |f|
    ensures |f| == |t| && f[k].code == t[k].code && |f[k].terms| == |t[k].terms|
  {
    assert |f| == |Codes(f)| == |Codes(t)| == |t|;
    assert Codes(f)[k] == (f[k].code, |f[k].terms|) && Codes(t)[k] == (t[k].code, |t[k].terms|);
  }

  /** Blocks that differ now differ for good: a terminator is never changed. */
  lemma {:induction false} DifferenceStays(f: Build, t: Build, f': Build, t': Build)
    requires f.Valid() && t.Valid() && Alike(f, t, false) && f.Frame(f') && t.Frame(t')
    ensures f'.blocks != t'.blocks
  {
    CodesAt(f.blocks, t.blocks, f.cur);
    var k :| 0 <= k < |f.blocks| && f.blocks[k] != t.blocks[k];
    CodesAt(f.blocks, t.blocks, k);
    assert k != f.cur;
    assert f'.blocks[k] == f.blocks[k] && t'.blocks[k] == t.blocks[k];
  }

  /** The current block is alike before and after, so only it need be looked at. */
  lemma {:induction false} EmitAlike(i: Instr, f: Build, t: Build, eq: bool)
    requires f.Valid() && t.Valid() && Alike(f, t, eq)
    ensures Alike(f.Emit(i), t.Emit(i), eq) && Alike(f.EmitTo(i), t.EmitTo(i), eq)
  {
    CodesAt(f.blocks, t.blocks, f.cur);
    var (f', t') := (f.Emit(i).blocks, t.Emit(i).blocks);
    assert Codes(f') == Codes(f.blocks)[f.cur := (f.blocks[f.cur].code + [i], 0)];
    assert Codes(t') == Codes(t.blocks)[f.cur := (f.blocks[f.cur].code + [i], 0)];
    if !eq {
      DifferenceStays(f, t, f.Emit(i), t.Emit(i));
    }
  }

  lemma {:induction false} ExprAlike(e: Expr, f: Build, t: Build, eq: bool)
    requires f.Valid() && t.Valid() && Alike(f, t, eq)
    ensures LowerExpr(e, f).1 == LowerExpr(e, t).1 && Alike(LowerExpr(e, f).0, LowerExpr(e, t).0, eq)
  {
    match e
    case Bin(op, l, r) =>
      ExprAlike(l, f, t, eq);
      ExprAlike(r, LowerExpr(l, f).0, LowerExpr(l, t).0, eq);
      var (f2, v2) := LowerExpr(r, LowerExpr(l, f).0);
      EmitAlike(Arith(f2.reg, op, LowerExpr(l, f).1, v2), f2, LowerExpr(r, LowerExpr(l, t).0).0, eq);
    case Const(_) =>
    case Var(x) => EmitAlike(Load(f.reg, x), f, t, eq);
    case Pop => EmitAlike(PopTo(f.reg), f, t, eq);
  }

  lemma {:induction false} ExprEmitAlike(e: Expr, i: Instr, f: Build, t: Build, eq: bool)
    requires f.Valid() && t.Valid() && Alike(f, t, eq)
    ensures LowerExpr(e, f).1 == LowerExpr(e, t).1 && Alike(LowerExpr(e, f).0.Emit(i), LowerExpr(e, t).0.Emit(i), eq)
  {
    ExprAlike(e, f, t, eq);
    EmitAlike(i, LowerExpr(e, f).0, LowerExpr(e, t).0, eq);
  }

  lemma {:induction false} SimpleAlike(s: Simple, f: Build, t: Build, eq: bool)
    requires f.Valid() && t.Valid() && Alike(f, t, eq)
    ensures Alike(LowerSimple(s, f), LowerSimple(s, t), eq)
  {
    match s
    case Nop =>
    case Assign(x, e) => ExprEmitAlike(e, Store(x, LowerExpr(e, f).1), f, t, eq);
    case Update(x, op, e) => ExprEmitAlike(Bin(op, Var(x), e), Store(x, LowerExpr(Bin(op, Var(x), e), f).1), f, t, eq);
    case Push(e) => ExprEmitAlike(e, PushOf(LowerExpr(e, f).1), f, t, eq);
    case Eval(e) => ExprAlike(e, f, t, eq);
  }

  lemma {:induction false} EnterAlike(n: nat, x: Term, y: Term, next: nat, f: Build, t: Build, eq: bool)
    requires f.Valid() && t.Valid() && Alike(f, t, eq) && |f.blocks| <= next < |f.blocks| + n
    ensures |f.blocks| == |t.blocks| && Alike(f.Enter(n, x, next), t.Enter(n, y, next), eq && x == y)
  {
    CodesAt(f.blocks, t.blocks, f.cur);
    var (f', t') := (f.Enter(n, x, next), t.Enter(n, y, next));
    var code := f.blocks[f.cur].code;
    assert f'.blocks[f.cur] == Block(code, [x]) && t'.blocks[f.cur] == Block(code, [y]);
    assert [x][0] == x && [y][0] == y;
    var empties := seq(n, _ => ([], 0));
    assert Codes(f'.blocks) == Codes(f.blocks)[f.cur := (code, 1)] + empties;
    assert Codes(t'.blocks) == Codes(t.blocks)[f.cur := (code, 1)] + empties;
    if !eq {
      DifferenceStays(f, t, f', t');
    }
  }

  lemma {:induction false} GoOnAlike(x: Term, next: nat, f: Build, t: Build, eq: bool)
    requires f.Valid() && t.Valid() && Alike(f, t, eq) && next < |f.blocks| && next != f.cur
    requires f.blocks[next].terms == []
    ensures |f.blocks| == |t.blocks| && t.blocks[next].terms == []
    ensures Alike(f.GoOn(x, next), t.GoOn(x, next), eq)
  {
    CodesAt(f.blocks, t.blocks, next);
    CodesAt(f.blocks, t.blocks, f.cur);
    var (f', t') := (f.GoOn(x, next), t.GoOn(x, next));
    var code := f.blocks[f.cur].code;
    assert Codes(f'.blocks) == Codes(f.blocks)[f.cur := (code, 1)];
    assert Codes(t'.blocks) == Codes(t.blocks)[f.cur := (code, 1)];
    if !eq {
      DifferenceStays(f, t, f', t');
    }
  }

  lemma {:induction false} HeadAlike(c: Expr, n: nat, done: nat, next: nat, f: Build, t: Build, eq: bool)
    requires f.Valid() && t.Valid() && Alike(f, t, eq) && 3 <= n && done < |f.blocks| + n && next < |f.blocks| + n
    ensures |f.blocks| == |t.blocks| && Alike(LoopHead(c, f, n, done, next), LoopHead(c, t, n, done, next), eq)
  {
    hide LowerExpr;
    var (condBB, bodyBB) := (|f.blocks|, |f.blocks| + 1);
    var (f0, t0) := (f.Enter(n, Br(Some(condBB)), condBB), t.Enter(n, Br(Some(condBB)), condBB));
    EnterAlike(n, Br(Some(condBB)), Br(Some(condBB)), condBB, f, t, eq);
    ExprAlike(c, f0, t0, eq);
    var (f1, v) := LowerExpr(c, f0);
    GoOnAlike(CondBr(v, bodyBB, done), bodyBB, f1, LowerExpr(c, t0).0, eq);
  }

  /** Both lowerings of a statement give alike blocks, which are the same exactly when they were the same
      before and everything is placed. */
  lemma {:induction false} PlacedExactly(s: Stmt, f: Build, t: Build, inLoop: bool, ok: bool, eq: bool)
    requires f.Valid() && t.Valid() && Alike(f, t, eq) && Nested(s, inLoop) && TargetsAgree(f, t, inLoop, ok)
    ensures Alike(LowerStmt(s, f, false), LowerStmt(s, t, true), eq && Placed(s, ok))
    ensures TargetsAgree(LowerStmt(s, f, false), LowerStmt(s, t, true), inLoop, ok && !HasLoop(s))
    decreases s, 1
  {
    hide LowerExpr, LowerSimple, LowerIf, LowerWhile, LowerFor, LowerBranch;
    match s
    case Do(simple) => SimpleAlike(simple, f, t, eq);
    case Seq(s1, s2) =>
      PlacedExactly(s1, f, t, inLoop, ok, eq);
      PlacedExactly(s2, LowerStmt(s1, f, false), LowerStmt(s1, t, true), inLoop,
          ok && !HasLoop(s1), eq && Placed(s1, ok));
    case If(_, _, _) => IfPlaced(s, f, t, inLoop, ok, eq);
    case While(_, _) => WhilePlaced(s, f, t, inLoop, ok, eq);
    case For(_, _, _, _) => ForPlaced(s, f, t, inLoop, ok, eq);
    case Break => EnterAlike(1, Br(f.brk), Br(t.brk), |f.blocks|, f, t, eq);
    case Continue => EnterAlike(1, Br(f.cont), Br(t.cont), |f.blocks|, f, t, eq);
  }

  lemma {:induction false} BranchPlaced(o: Option<Stmt>, f: Build, t: Build, merge: nat, next: nat, inLoop: bool,
          ok: bool, eq: bool)
    requires f.Valid() && t.Valid() && Alike(f, t, eq) && (o.Some? ==> Nested(o.value, inLoop))
    requires TargetsAgree(f, t, inLoop, ok)
    requires merge < |f.blocks| && next < |f.blocks| && next != f.cur && f.blocks[next].terms == []
    ensures |f.blocks| == |t.blocks| && t.blocks[next].terms == []
    ensures Alike(LowerBranch(o, f, merge, next, false), LowerBranch(o, t, merge, next, true), eq && OptPlaced(o, ok))
    ensures TargetsAgree(LowerBranch(o, f, merge, next, false), LowerBranch(o, t, merge, next, true), inLoop,
            ok && !OptHasLoop(o))
    decreases o, 2
  {
    hide LowerStmt;
    CodesAt(f.blocks, t.blocks, next);
    if o.Some? {
      PlacedExactly(o.value, f, t, inLoop, ok, eq);
      GoOnAlike(Br(Some(merge)), next, LowerStmt(o.value, f, false), LowerStmt(o.value, t, true),
          eq && Placed(o.value, ok));
    }
  }

  lemma {:induction false} IfHeadAlike(s: Stmt, f: Build, t: Build, eq: bool)
    requires s.If? && f.Valid() && t.Valid() && Alike(f, t, eq)
    ensures |f.blocks| == |t.blocks| && Alike(IfHead(s, f), IfHead(s, t), eq)
  {
    hide LowerExpr;
    var (thenBB, elseBB, mergeBB) := (|f.blocks|, |f.blocks| + 1, |f.blocks| + 2);
    ExprAlike(s.cond, f, t, eq);
    var (f1, v) := LowerExpr(s.cond, f);
    var term := CondBr(v, if s.cons.Some? then thenBB else mergeBB, if s.alt.Some? then elseBB else mergeBB);
    EnterAlike(3, term, term, thenBB, f1, LowerExpr(s.cond, t).0, eq);
  }

  lemma {:induction false} IfPlaced(s: Stmt, f: Build, t: Build, inLoop: bool, ok: bool, eq: bool)
    requires s.If? && f.Valid() && t.Valid() && Alike(f, t, eq) && Nested(s, inLoop) && TargetsAgree(f, t, inLoop, ok)
    ensures Alike(LowerIf(s, f, false), LowerIf(s, t, true), eq && Placed(s, ok))
    ensures TargetsAgree(LowerIf(s, f, false), LowerIf(s, t, true), inLoop, ok && !HasLoop(s))
    decreases s, 0
  {
    hide LowerStmt, LowerBranch, IfHead, LowerExpr, Alike;
    var (elseBB, mergeBB) := (|f.blocks| + 1, |f.blocks| + 2);
    IfHeadAlike(s, f, t, eq);
    var (f2, t2) := (IfHead(s, f), IfHead(s, t));
    BranchPlaced(s.cons, f2, t2, mergeBB, elseBB, inLoop, ok, eq);
    var (f3, t3) := (LowerBranch(s.cons, f2, mergeBB, elseBB, false), LowerBranch(s.cons, t2, mergeBB, elseBB, true));
    BranchPlaced(s.alt, f3, t3, mergeBB, mergeBB, inLoop, ok && !OptHasLoop(s.cons), eq && OptPlaced(s.cons, ok));
  }

  /** Lowering leaves the continue target alone or points it into blocks of its own. */
  predicate ContInside(b: Build, r: Build) {
    r.cont == b.cont || (r.cont.Some? && r.cont.value >= |b.blocks|)
  }

  lemma {:induction false} ContIsInside(s: Stmt, b: Build)
    requires b.Valid()
    ensures ContInside(b, LowerStmt(s, b, false))
    decreases s, 1
  {
    match s
    case Seq(s1, s2) =>
      ContIsInside(s1, b);
      ContIsInside(s2, LowerStmt(s1, b, false));
    case If(_, _, _) => IfContInside(s, b);
    case While(_, _) => WhileContInside(s, b);
    case For(_, _, _, _) => ForContInside(s, b);
    case _ =>
  }

  lemma {:induction false} IfContInside(s: Stmt, b: Build)
    requires b.Valid() && s.If?
    ensures ContInside(b, LowerIf(s, b, false))
    decreases s, 0
  {
    hide LowerStmt, LowerBranch, IfHead, LowerExpr;
    BranchContInside(s.cons, IfHead(s, b), |b.blocks| + 2, |b.blocks| + 1);
    BranchContInside(s.alt, LowerBranch(s.cons, IfHead(s, b), |b.blocks| + 2, |b.blocks| + 1, false), |b.blocks| + 2,
        |b.blocks| + 2);
  }

  lemma {:induction false} WhileContInside(s: Stmt, b: Build)
    requires b.Valid() && s.While?
    ensures ContInside(b, LowerWhile(s, b, false))
    decreases s, 0
  {
    hide LowerStmt, LoopHead, LowerExpr;
    ContIsInside(s.body, LoopHead(s.cond, b, 3, |b.blocks| + 2, |b.blocks|));
  }

  lemma {:induction false} ForContInside(s: Stmt, b: Build)
    requires b.Valid() && s.For?
    ensures ContInside(b, LowerFor(s, b, false))
    decreases s, 0
  {
    hide LowerStmt, LoopHead, ForTail, LowerSimple, LowerExpr;
    ContIsInside(s.body, LoopHead(s.cond, LowerSimple(s.init, b), 4, |b.blocks| + 3, |b.blocks| + 2));
  }

  lemma {:induction false} BranchContInside(o: Option<Stmt>, b: Build, merge: nat, next: nat)
    requires b.Valid() && merge < |b.blocks| && next < |b.blocks| && next != b.cur && b.blocks[next].terms == []
    ensures ContInside(b, LowerBranch(o, b, merge, next, false))
    decreases o, 2
  {
    if o.Some? {
      ContIsInside(o.value, b);
    }
  }

  /** A loop from its head to the jump that ends its body; goes on in block `to`. */
  function LoopBody(c: Expr, s: Stmt, b: Build, n: nat, done: nat, next: nat, to: nat, restore: bool): (r: Build)
    requires b.Valid() && 3 <= n && done < |b.blocks| + n && next < |b.blocks| + n
    requires |b.blocks| + 1 < to < |b.blocks| + n
    ensures r.Valid() && b.Frame(r) && r.cur == to && |b.blocks| + n <= |r.blocks|
    ensures forall k {:trigger r.blocks[k]} :: |b.blocks| + 1 < k < |b.blocks| + n && k != to ==>
            r.blocks[k] == Block([], [])
  {
    LowerStmt(s, LoopHead(c, b, n, done, next), restore).GoOn(Br(Some(next)), to)
  }

  lemma {:induction false} LoopPlaced(c: Expr, s: Stmt, n: nat, done: nat, next: nat, to: nat, f: Build, t: Build,
          eq: bool)
    requires f.Valid() && t.Valid() && Alike(f, t, eq) && Nested(s, true)
    requires 3 <= n && done < |f.blocks| + n && |f.blocks| <= next < |f.blocks| + n
    requires |f.blocks| + 1 < to < |f.blocks| + n
    ensures |f.blocks| == |t.blocks|
    ensures Alike(LoopBody(c, s, f, n, done, next, to, false), LoopBody(c, s, t, n, done, next, to, true),
            eq && Placed(s, true))
    ensures var r := LoopBody(c, s, f, n, done, next, to, false);
            r.cont.Some? && r.cont.value >= |f.blocks|
    decreases s, 3
  {
    hide LowerStmt, LoopHead, LowerExpr;
    HeadAlike(c, n, done, next, f, t, eq);
    var (f1, t1) := (LoopHead(c, f, n, done, next), LoopHead(c, t, n, done, next));
    PlacedExactly(s, f1, t1, true, true, eq);
    ContIsInside(s, f1);
    GoOnAlike(Br(Some(next)), to, LowerStmt(s, f1, false), LowerStmt(s, t1, true), eq && Placed(s, true));
  }

  /** A while loop after its body. */
  function WhileBody(s: Stmt, b: Build, restore: bool): Build
    requires b.Valid() && s.While?
  {
    LoopBody(s.cond, s.body, b, 3, |b.blocks| + 2, |b.blocks|, |b.blocks| + 2, restore)
  }

  lemma {:induction false} WhileIs(s: Stmt, b: Build, restore: bool)
    requires s.While? && b.Valid()
    ensures var b1 := WhileBody(s, b, restore);
            LowerWhile(s, b, restore) == if restore then b1.Targets(b.brk, b.cont) else b1.Targets(None, b1.cont)
  {
    hide LowerStmt, LoopHead, LowerExpr;
  }

  lemma {:induction false} TargetsAlike(f: Build, t: Build, eq: bool, brk: Option<nat>, cont: Option<nat>)
    requires Alike(f, t, eq)
    ensures Alike(f, t.Targets(brk, cont), eq) && Alike(f.Targets(brk, cont), t, eq)
  {
  }

  /** After a loop the front end has no break target and a continue target in the loop's own blocks. */
  lemma {:induction false} AfterLoop(f: Build, t: Build, f': Build, t': Build, inLoop: bool, ok: bool)
    requires f.Valid() && t.Valid() && |f.blocks| == |t.blocks| && TargetsAgree(f, t, inLoop, ok)
    requires f'.brk == None && f'.cont.Some? && f'.cont.value >= |f.blocks| && t'.brk == t.brk && t'.cont == t.cont
    ensures TargetsAgree(f', t', inLoop, false)
  {
  }

  lemma {:induction false} WhilePlaced(s: Stmt, f: Build, t: Build, inLoop: bool, ok: bool, eq: bool)
    requires s.While? && f.Valid() && t.Valid() && Alike(f, t, eq) && Nested(s, inLoop)
    requires TargetsAgree(f, t, inLoop, ok)
    ensures Alike(LowerWhile(s, f, false), LowerWhile(s, t, true), eq && Placed(s, ok))
    ensures TargetsAgree(LowerWhile(s, f, false), LowerWhile(s, t, true), inLoop, false)
    decreases s, 0
  {
    hide LowerStmt, LoopHead, LowerExpr, LowerWhile, LoopBody, Alike, TargetsAgree;
    LoopPlaced(s.cond, s.body, 3, |f.blocks| + 2, |f.blocks|, |f.blocks| + 2, f, t, eq);
    WhileIs(s, f, false);
    WhileIs(s, t, true);
    var (f1, t1) := (WhileBody(s, f, false), WhileBody(s, t, true));
    TargetsAlike(f1, t1, eq && Placed(s, ok), t.brk, t.cont);
    TargetsAlike(f1, t1.Targets(t.brk, t.cont), eq && Placed(s, ok), None, f1.cont);
    AfterLoop(f, t, f1.Targets(None, f1.cont), t1.Targets(t.brk, t.cont), inLoop, ok);
  }

  /** A for loop after its body. */
  function ForBody(s: Stmt, b: Build, restore: bool): Build
    requires b.Valid() && s.For?
  {
    LoopBody(s.cond, s.body, LowerSimple(s.init, b), 4, |b.blocks| + 3, |b.blocks| + 2, |b.blocks| + 2, restore)
  }

  lemma {:induction false} ForIs(s: Stmt, b: Build, restore: bool)
    requires s.For? && b.Valid()
    ensures var b1 := ForBody(s, b, restore);
            && b1.Valid() && |b.blocks| + 3 < |b1.blocks| && b1.blocks[|b.blocks| + 3].terms == []
                && b1.cur == |b.blocks| + 2
            && var b2 := ForTail(s.incr, b1, |b.blocks|, |b.blocks| + 3);
            LowerFor(s, b, restore) == if restore then b2.Targets(b.brk, b.cont) else b2
  {
    hide LowerStmt, LoopHead, ForTail, LowerSimple, LowerExpr;
  }

  lemma {:induction false} ForPlaced(s: Stmt, f: Build, t: Build, inLoop: bool, ok: bool, eq: bool)
    requires s.For? && f.Valid() && t.Valid() && Alike(f, t, eq) && Nested(s, inLoop) && TargetsAgree(f, t, inLoop, ok)
    ensures Alike(LowerFor(s, f, false), LowerFor(s, t, true), eq && Placed(s, ok))
    ensures TargetsAgree(LowerFor(s, f, false), LowerFor(s, t, true), inLoop, false)
    decreases s, 0
  {
    hide LowerStmt, LoopHead, LowerSimple, LowerExpr, LowerFor, ForTail, LoopBody, Alike, TargetsAgree;
    SimpleAlike(s.init, f, t, eq);
    LoopPlaced(s.cond, s.body, 4, |f.blocks| + 3, |f.blocks| + 2, |f.blocks| + 2, LowerSimple(s.init, f),
        LowerSimple(s.init, t), eq);
    var (f1, t1) := (ForBody(s, f, false), ForBody(s, t, true));
    ForIs(s, f, false);
    ForIs(s, t, true);
    TailAlike(s.incr, f1, t1, |f.blocks|, |f.blocks| + 3, eq && Placed(s.body, true));
    var (f2, t2) := (ForTail(s.incr, f1, |f.blocks|, |f.blocks| + 3), ForTail(s.incr, t1, |t.blocks|, |t.blocks| + 3));
    TargetsAlike(f2, t2, eq && Placed(s.body, true), t.brk, t.cont);
    AfterLoop(f, t, f2, t2.Targets(t.brk, t.cont), inLoop, ok);
  }

  lemma {:induction false} TailAlike(s: Simple, f: Build, t: Build, condBB: nat, doneBB: nat, eq: bool)
    requires f.Valid() && t.Valid() && Alike(f, t, eq) && doneBB < |f.blocks| && doneBB != f.cur
    requires f.blocks[doneBB].terms == []
    ensures |f.blocks| == |t.blocks| && t.blocks[doneBB].terms == []
    ensures Alike(ForTail(s, f, condBB, doneBB), ForTail(s, t, condBB, doneBB), eq)
  {
    hide LowerSimple, LowerExpr;
    CodesAt(f.blocks, t.blocks, doneBB);
    var (f', t') := (f.Targets(None, f.cont), t.Targets(None, t.cont));
    SimpleAlike(s, f', t', eq);
    GoOnAlike(Br(Some(condBB)), doneBB, LowerSimple(s, f'), LowerSimple(s, t'), eq);
  }

  // ---- the front end ----

  /** The front end emits the blocks of the restoring lowering exactly when no break or continue follows a
      nested loop of the same body. */
  lemma {:induction false} FrontEndIsRestoredIff(p: Stmt)
    requires Nested(p, false)
    ensures FrontEnd(p) == Restored(p) <==> Placed(p, true)
  {
    PlacedExactly(p, START, START, false, true, true);
  }

  /** For those programs the emitted blocks reach a halt with the program's result whenever it has one. */
  lemma {:induction false} FrontEndReachesResult(p: Stmt, inp: Tape, env: Env, fuel: nat) returns (n: nat)
    requires Nested(p, false) && Placed(p, true) && Exec(p, inp, env, fuel).Normal?
    ensures Steps(FrontEnd(p), inp, Boot(env), n).Halted?
    ensures Steps(FrontEnd(p), inp, Boot(env), n).mem.env == Exec(p, inp, env, fuel).env
  {
    hide LowerStmt, Watch, Exec, Nested, Steps, Placed;
    WatchIsExec(p, false, true, inp, env, fuel);
    n := FrontEndRunsRight(p, inp, env, fuel);
  }

  /** And they stop running only when the program terminates, at its result: they never crash. */
  lemma {:induction false} FrontEndHaltMeansResult(p: Stmt, inp: Tape, env: Env, n: nat)
    requires Nested(p, false) && Placed(p, true) && !Steps(FrontEnd(p), inp, Boot(env), n).Running?
    ensures Exec(p, inp, env, n + 1).Normal?
    ensures Steps(FrontEnd(p), inp, Boot(env), n).Halted?
    ensures Steps(FrontEnd(p), inp, Boot(env), n).mem.env == Exec(p, inp, env, n + 1).env
  {
    hide LowerStmt, Watch, Exec, Nested, Steps, Placed;
    WatchIsExec(p, false, true, inp, env, n + 1);
    FrontEndRunHaltMeansResult(p, inp, env, n);
  }
}
