/** The front end's visitor, which builds the blocks by updating its fields as it goes. */
module FEIRToSKIR {
  import opened Wrappers
  import opened StreamIt
  import opened BlockGraph
  import opened Lowering

  class Visitor {
    var blocks: Graph
    var currentBB: nat
    var breakBB: Option<nat>
    var continueBB: Option<nat>
    var nextReg: nat

    function View(): Build
      reads this
    {
      Build(blocks, currentBB, breakBB, continueBB, nextReg)
    }

    predicate Valid()
      reads this
    {
      View().Valid()
    }

    constructor ()
      ensures View() == START
    {
      blocks, currentBB, breakBB, continueBB, nextReg := [Block([], [])], 0, None, None, 0;
    }

    // ---- the instruction builder ----

    /** A new empty block. */
    method CreateBlock() returns (bb: nat)
      modifies `blocks
      ensures bb == old(|blocks|) && blocks == old(blocks) + [Block([], [])]
    {
      bb := |blocks|;
      blocks := blocks + [Block([], [])];
    }

    /** Ends the current block. */
    method CreateTerm(t: Term)
      requires currentBB < |blocks|
      modifies `blocks
      ensures blocks == old(blocks)[currentBB := Block(old(blocks)[currentBB].code, old(blocks)[currentBB].terms + [t])]
    {
      blocks := blocks[currentBB := blocks[currentBB].(terms := blocks[currentBB].terms + [t])];
    }

    method Insert(i: Instr)
      requires Valid()
      modifies `blocks
      ensures View() == old(View()).Emit(i)
    {
      blocks := blocks[currentBB := blocks[currentBB].(code := blocks[currentBB].code + [i])];
    }

    /** Inserts an instruction whose result is a new register. */
    method InsertTo(i: Instr) returns (v: Operand)
      requires Valid()
      modifies `blocks, `nextReg
      ensures View() == old(View()).EmitTo(i) && v == Reg(old(nextReg))
    {
      Insert(i);
      v, nextReg := Reg(nextReg), nextReg + 1;
    }

    /** Makes three or four blocks and jumps to one of them, as every loop and if does. */
    method EnterNew(n: nat, t: Term, next: nat)
      requires Valid() && 3 <= n <= 4 && |blocks| <= next < |blocks| + n
      modifies `blocks, `currentBB
      ensures View() == old(View()).Enter(n, t, next)
    {
      var bb0 := CreateBlock();
      var bb1 := CreateBlock();
      var bb2 := CreateBlock();
      if n == 4 {
        var bb3 := CreateBlock();
      }
      CreateTerm(t);
      currentBB := next;
      assert blocks == old(View()).Enter(n, t, next).blocks;
    }

    // ---- expressions and simple statements ----

    method VisitExpr(e: Expr) returns (v: Operand)
      requires Valid()
      modifies `blocks, `nextReg
      ensures (View(), v) == LowerExpr(e, old(View()))
      decreases e
    {
      match e
      case Const(n) => v := Imm(n);
      case Var(x) => v := InsertTo(Load(nextReg, x));
      case Pop => v := InsertTo(PopTo(nextReg));
      case Bin(op, l, r) =>
        var a := VisitExpr(l);
        var b := VisitExpr(r);
        v := InsertTo(Arith(nextReg, op, a, b));
    }

    method VisitSimple(s: Simple)
      requires Valid()
      modifies `blocks, `nextReg
      ensures View() == LowerSimple(s, old(View()))
    {
      var v;
      match s
      case Nop =>
      case Assign(x, e) =>
        v := VisitExpr(e);
        Insert(Store(x, v));
      case Update(x, op, e) =>
        v := VisitExpr(Bin(op, Var(x), e));
        Insert(Store(x, v));
      case Push(e) =>
        v := VisitExpr(e);
        Insert(PushOf(v));
      case Eval(e) => v := VisitExpr(e);
    }

    // ---- statements ----

    method VisitStmt(s: Stmt)
      requires Valid()
      modifies this
      ensures View() == LowerStmt(s, old(View()), false)
      decreases s, 1
    {
      hide LowerExpr, LowerSimple, LowerIf, LowerWhile, LowerFor;
      match s
      case Do(simple) => VisitSimple(simple);
      case Seq(s1, s2) =>
        VisitStmt(s1);
        VisitStmt(s2);
      case If(_, _, _) => VisitStmtIfThen(s);
      case While(_, _) => VisitStmtWhile(s);
      case For(_, _, _, _) => VisitStmtFor(s);
      case Break => VisitStmtJump(breakBB);
      case Continue => VisitStmtJump(continueBB);
    }

    /** Jumps and goes on in a dead block. */
    method VisitStmtJump(target: Option<nat>)
      requires Valid()
      modifies `blocks, `currentBB
      ensures View() == old(View()).Enter(1, Br(target), old(|blocks|))
    {
      CreateTerm(Br(target));
      currentBB := CreateBlock();
      assert blocks == old(View()).Enter(1, Br(target), old(|blocks|)).blocks;
    }

    method VisitStmtIfThen(s: Stmt)
      requires Valid() && s.If?
      modifies this
      ensures View() == LowerIf(s, old(View()), false)
      decreases s, 0
    {
      hide LowerExpr;
      var thenBB, elseBB, mergeBB := |blocks|, |blocks| + 1, |blocks| + 2;
      var cond := VisitExpr(s.cond);
      var (yes, no) := (if s.cons.Some? then thenBB else mergeBB, if s.alt.Some? then elseBB else mergeBB);
      EnterNew(3, CondBr(cond, yes, no), thenBB);
      assert View() == IfHead(s, old(View()));
      if s.cons.Some? {
        VisitStmt(s.cons.value);
        CreateTerm(Br(Some(mergeBB)));
      }
      currentBB := elseBB;
      assert View() == LowerBranch(s.cons, IfHead(s, old(View())), mergeBB, elseBB, false);
      if s.alt.Some? {
        VisitStmt(s.alt.value);
        CreateTerm(Br(Some(mergeBB)));
      }
      currentBB := mergeBB;
    }

    /** A loop's condition block and the branch into its body. */
    method EnterLoop(c: Expr, n: nat, doneBB: nat, nextBB: nat)
      requires Valid() && 3 <= n <= 4 && doneBB < |blocks| + n && nextBB < |blocks| + n
      modifies this
      ensures View() == LoopHead(c, old(View()), n, doneBB, nextBB)
    {
      var condBB, bodyBB := |blocks|, |blocks| + 1;
      EnterNew(n, Br(Some(condBB)), condBB);
      var cond := VisitExpr(c);
      CreateTerm(CondBr(cond, bodyBB, doneBB));
      breakBB, continueBB := Some(doneBB), Some(nextBB);
      currentBB := bodyBB;
    }

    method VisitStmtWhile(s: Stmt)
      requires Valid() && s.While?
      modifies this
      ensures View() == LowerWhile(s, old(View()), false)
      decreases s, 0
    {
      hide LowerExpr, LowerSimple, LowerStmt, LoopHead;
      var condBB, doneBB := |blocks|, |blocks| + 2;
      EnterLoop(s.cond, 3, doneBB, condBB);
      VisitStmt(s.body);
      CreateTerm(Br(Some(condBB)));
      breakBB := None;
      currentBB := doneBB;
    }

    method VisitStmtFor(s: Stmt)
      requires Valid() && s.For?
      modifies this
      ensures View() == LowerFor(s, old(View()), false)
      decreases s, 0
    {
      hide LowerExpr, LowerSimple, LowerStmt, LoopHead;
      var condBB, incrBB, doneBB := |blocks|, |blocks| + 2, |blocks| + 3;
      VisitSimple(s.init);
      EnterLoop(s.cond, 4, doneBB, incrBB);
      VisitStmt(s.body);
      CreateTerm(Br(Some(incrBB)));
      breakBB := None;
      currentBB := incrBB;
      VisitSimple(s.incr);
      CreateTerm(Br(Some(condBB)));
      currentBB := doneBB;
    }
  }
}
