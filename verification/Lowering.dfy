/** The front end's lowering of statements as a function on its builder state. */
module Lowering {
  import opened Wrappers
  import opened StreamIt
  import opened BlockGraph

  /** The visitor's fields: the blocks made so far, the current block, the branch targets, the next register. */
  datatype Build = Build(blocks: Graph, cur: nat, brk: Option<nat>, cont: Option<nat>, reg: nat) {

    /** The current block can still take code, and the branch targets exist. */
    predicate Valid() {
      && cur < |blocks| && blocks[cur].terms == []
      && (brk.Some? ==> brk.value < |blocks|) && (cont.Some? ==> cont.value < |blocks|)
    }

    /** Only the current block and new blocks may differ in `r`, and the current one only grows. */
    predicate Frame(r: Build)
      requires cur < |blocks|
    {
      && |blocks| <= |r.blocks|
      && (forall k {:trigger r.blocks[k]} :: 0 <= k < |blocks| && k != cur ==> r.blocks[k] == blocks[k])
      && Prefix(blocks[cur].code, r.blocks[cur].code)
    }

    function Emit(i: Instr): (b: Build)
      requires Valid()
      ensures b.Valid() && Frame(b)
    {
      this.(blocks := blocks[cur := blocks[cur].(code := blocks[cur].code + [i])])
    }

    /** Emits the instruction made for the next register. */
    function EmitTo(i: Instr): (b: Build)
      requires Valid()
      ensures b.Valid() && Frame(b)
    {
      Emit(i).(reg := reg + 1)
    }

    /** Makes n empty blocks, ends the current one with `t` and goes on in the new block `next`. */
    function Enter(n: nat, t: Term, next: nat): (b: Build)
      requires Valid() && |blocks| <= next < |blocks| + n
      ensures b.Valid() && Frame(b)
    {
      Build(blocks[cur := Block(blocks[cur].code, blocks[cur].terms + [t])] + seq(n, _ => Block([], [])),
            next, brk, cont, reg)
    }

    /** Ends the current block with `t` and goes on in the open block `next`. */
    function GoOn(t: Term, next: nat): (b: Build)
      requires Valid() && next < |blocks| && next != cur && blocks[next].terms == []
      ensures b.Valid() && Frame(b)
    {
      Build(blocks[cur := Block(blocks[cur].code, blocks[cur].terms + [t])], next, brk, cont, reg)
    }

    function Targets(brk: Option<nat>, cont: Option<nat>): Build {
      this.(brk := brk, cont := cont)
    }
  }

  const START := Build([Block([], [])], 0, None, None, 0)

  /** The same block goes on, with the same targets. */
  predicate Straight(b: Build, r: Build) {
    && b.Valid() && r.Valid() && b.Frame(r)
    && r == b.(blocks := r.blocks, reg := r.reg) && |r.blocks| == |b.blocks| && b.reg <= r.reg
  }

  function LowerExpr(e: Expr, b: Build): (r: (Build, Operand))
    requires b.Valid()
    ensures Straight(b, r.0) && (r.1.Reg? ==> r.1.id < r.0.reg)
  {
    match e
    case Const(n) => (b, Imm(n))
    case Var(x) => (b.EmitTo(Load(b.reg, x)), Reg(b.reg))
    case Pop => (b.EmitTo(PopTo(b.reg)), Reg(b.reg))
    case Bin(op, l, r) =>
      var (b1, vl) := LowerExpr(l, b);
      var (b2, vr) := LowerExpr(r, b1);
      (b2.EmitTo(Arith(b2.reg, op, vl, vr)), Reg(b2.reg))
  }

  function LowerSimple(s: Simple, b: Build): (r: Build)
    requires b.Valid()
    ensures Straight(b, r)
  {
    match s
    case Nop => b
    case Assign(x, e) =>
      var (b1, v) := LowerExpr(e, b);
      b1.Emit(Store(x, v))
    case Update(x, op, e) =>
      var (b1, v) := LowerExpr(Bin(op, Var(x), e), b);
      b1.Emit(Store(x, v))
    case Push(e) =>
      var (b1, v) := LowerExpr(e, b);
      b1.Emit(PushOf(v))
    case Eval(e) => LowerExpr(e, b).0
  }

  /** Everything lowering a statement promises about the blocks that were there before. */
  predicate Grows(b: Build, r: Build) {
    b.Valid() && r.Valid() && b.Frame(r) && (r.cur == b.cur || r.cur >= |b.blocks|) && b.reg <= r.reg
  }

  /** Lowers a statement. The front end clears the break target after a loop and leaves the continue target
      as the loop left it; with `restore` both are set back to what they were before the loop. */
  function LowerStmt(s: Stmt, b: Build, restore: bool): (r: Build)
    requires b.Valid()
    ensures Grows(b, r)
    ensures restore ==> r.brk == b.brk && r.cont == b.cont
    decreases s, 2
  {
    match s
    case Do(simple) => LowerSimple(simple, b)
    case Seq(s1, s2) => LowerStmt(s2, LowerStmt(s1, b, restore), restore)
    case If(_, _, _) => LowerIf(s, b, restore)
    case While(_, _) => LowerWhile(s, b, restore)
    case For(_, _, _, _) => LowerFor(s, b, restore)
    case Break => b.Enter(1, Br(b.brk), |b.blocks|)
    case Continue => b.Enter(1, Br(b.cont), |b.blocks|)
  }

  /** An if up to the start of its first branch: three new blocks, for the branches and for what follows. */
  function IfHead(s: Stmt, b: Build): (r: Build)
    requires b.Valid() && s.If?
    ensures r.Valid() && b.Frame(r) && b.reg <= r.reg && |r.blocks| == |b.blocks| + 3
    ensures r.cur == |b.blocks| && r.brk == b.brk && r.cont == b.cont
    ensures forall k {:trigger r.blocks[k]} :: |b.blocks| <= k < |b.blocks| + 3 ==> r.blocks[k] == Block([], [])
  {
    var (thenBB, elseBB, mergeBB) := (|b.blocks|, |b.blocks| + 1, |b.blocks| + 2);
    var (b1, v) := LowerExpr(s.cond, b);
    b1.Enter(3, CondBr(v, if s.cons.Some? then thenBB else mergeBB, if s.alt.Some? then elseBB else mergeBB), thenBB)
  }

  function LowerIf(s: Stmt, b: Build, restore: bool): (r: Build)
    requires b.Valid() && s.If?
    ensures Grows(b, r)
    ensures restore ==> r.brk == b.brk && r.cont == b.cont
    decreases s, 1
  {
    var (elseBB, mergeBB) := (|b.blocks| + 1, |b.blocks| + 2);
    LowerBranch(s.alt, LowerBranch(s.cons, IfHead(s, b), mergeBB, elseBB, restore), mergeBB, mergeBB, restore)
  }

  /** A loop up to the start of its body: n new blocks, of which the first holds the condition `c` and the
      second the body; breaks go to `done` and continues to `next`. */
  function LoopHead(c: Expr, b: Build, n: nat, done: nat, next: nat): (r: Build)
    requires b.Valid() && 3 <= n && done < |b.blocks| + n && next < |b.blocks| + n
    ensures r.Valid() && b.Frame(r) && b.reg <= r.reg && |r.blocks| == |b.blocks| + n
    ensures r.cur == |b.blocks| + 1 && r.brk == Some(done) && r.cont == Some(next)
    ensures forall k {:trigger r.blocks[k]} :: |b.blocks| < k < |b.blocks| + n ==> r.blocks[k] == Block([], [])
  {
    var condBB, bodyBB := |b.blocks|, |b.blocks| + 1;
    var (b1, v) := LowerExpr(c, b.Enter(n, Br(Some(condBB)), condBB));
    b1.GoOn(CondBr(v, bodyBB, done), bodyBB).Targets(Some(done), Some(next))
  }

  function LowerWhile(s: Stmt, b: Build, restore: bool): (r: Build)
    requires b.Valid() && s.While?
    ensures Grows(b, r)
    ensures restore ==> r.brk == b.brk && r.cont == b.cont
    decreases s, 1
  {
    var (condBB, doneBB) := (|b.blocks|, |b.blocks| + 2);
    var b1 := LowerStmt(s.body, LoopHead(s.cond, b, 3, doneBB, condBB), restore).GoOn(Br(Some(condBB)), doneBB);
    if restore then b1.Targets(b.brk, b.cont) else b1.Targets(None, b1.cont)
  }

  function LowerFor(s: Stmt, b: Build, restore: bool): (r: Build)
    requires b.Valid() && s.For?
    ensures Grows(b, r)
    ensures restore ==> r.brk == b.brk && r.cont == b.cont
    decreases s, 1
  {
    var (condBB, incrBB, doneBB) := (|b.blocks|, |b.blocks| + 2, |b.blocks| + 3);
    var b0 := LoopHead(s.cond, LowerSimple(s.init, b), 4, doneBB, incrBB);
    var b1 := LowerStmt(s.body, b0, restore).GoOn(Br(Some(incrBB)), incrBB);
    var b2 := ForTail(s.incr, b1, condBB, doneBB);
    if restore then b2.Targets(b.brk, b.cont) else b2
  }

  /** The increment block of a for loop, lowered without a break target, and the way out. */
  function ForTail(incr: Simple, b: Build, condBB: nat, doneBB: nat): (r: Build)
    requires b.Valid() && doneBB < |b.blocks| && doneBB != b.cur && b.blocks[doneBB].terms == []
    ensures r.Valid() && b.Frame(r) && b.reg <= r.reg && |r.blocks| == |b.blocks|
    ensures r.cur == doneBB && r.brk == None && r.cont == b.cont
  {
    LowerSimple(incr, b.Targets(None, b.cont)).GoOn(Br(Some(condBB)), doneBB)
  }

  /** One branch of an if, ended by a jump to the merge block; without a statement its block stays empty. */
  function LowerBranch(s: Option<Stmt>, b: Build, merge: nat, next: nat, restore: bool): (r: Build)
    requires b.Valid() && merge < |b.blocks| && next < |b.blocks| && next != b.cur && b.blocks[next].terms == []
    ensures r.Valid() && b.Frame(r) && r.cur == next && b.reg <= r.reg
    ensures restore ==> r.brk == b.brk && r.cont == b.cont
    decreases s, 0
  {
    if s.None? then b.(cur := next)
    else LowerStmt(s.value, b, restore).GoOn(Br(Some(merge)), next)
  }
}
