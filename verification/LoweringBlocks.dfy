/** The emitted blocks are well formed: whatever control can reach is ended exactly once. */
module LoweringBlocks {
  import opened Wrappers
  import opened StreamIt
  import opened BlockGraph
  import opened Lowering
  import opened LoweringTheorems

  /** A branch may lead to a block that has its terminator, or to one still waiting for it. */
  predicate Known(g: Graph, waiting: set<nat>, x: nat) {
    x < |g| && (x in waiting || |g[x].terms| == 1)
  }

  predicate TargetKnown(g: Graph, waiting: set<nat>, target: Option<nat>) {
    target.Some? ==> Known(g, waiting, target.value)
  }

  predicate TermKnown(g: Graph, waiting: set<nat>, t: Term) {
    match t
    case Br(target) => TargetKnown(g, waiting, target)
    case CondBr(_, yes, no) => Known(g, waiting, yes) && Known(g, waiting, no)
  }

  predicate BlockTidy(g: Graph, waiting: set<nat>, b: Block) {
    |b.terms| <= 1 && (|b.terms| == 1 ==> TermKnown(g, waiting, b.terms[0]))
  }

  ghost predicate Tidy(b: Build, waiting: set<nat>) {
    && (forall k {:trigger b.blocks[k]} :: 0 <= k < |b.blocks| ==> BlockTidy(b.blocks, waiting, b.blocks[k]))
    && (forall x {:trigger x in waiting} :: x in waiting ==> x < |b.blocks| && b.blocks[x].terms == [])
    && TargetKnown(b.blocks, waiting, b.brk) && TargetKnown(b.blocks, waiting, b.cont)
  }

  /** `r` only knows more targets than `b` does. */
  ghost predicate KnowsMore(b: Graph, w: set<nat>, r: Graph, w': set<nat>) {
    forall x: nat {:trigger Known(r, w', x)} {:trigger Known(b, w, x)} :: Known(b, w, x) ==> Known(r, w', x)
  }

  lemma {:induction false} TermKnownMore(b: Graph, w: set<nat>, r: Graph, w': set<nat>, t: Term)
    requires KnowsMore(b, w, r, w') && TermKnown(b, w, t)
    ensures TermKnown(r, w', t)
  {
  }

  /** Emitting code changes no terminator. */
  lemma {:induction false} StraightTidy(b: Build, r: Build, w: set<nat>)
    requires Straight(b, r) && Tidy(b, w)
    ensures Tidy(r, w)
  {
    assert forall k {:trigger r.blocks[k]} :: 0 <= k < |b.blocks| ==> r.blocks[k].terms == b.blocks[k].terms;
    assert KnowsMore(b.blocks, w, r.blocks, w);
    forall k | 0 <= k < |r.blocks|
      ensures BlockTidy(r.blocks, w, r.blocks[k])
    {
      assert BlockTidy(b.blocks, w, b.blocks[k]);
    }
  }

  /** Ending the current block with `t` and going on in a block made or waiting, after adding n blocks. */
  lemma {:induction false} EndTidy(b: Build, r: Build, t: Term, w: set<nat>, made: set<nat>)
    requires b.Valid() && Tidy(b, w) && |b.blocks| <= |r.blocks|
    requires forall k {:trigger r.blocks[k]} :: 0 <= k < |b.blocks| && k != b.cur ==> r.blocks[k] == b.blocks[k]
    requires r.blocks[b.cur].terms == [t] && r.brk == b.brk && r.cont == b.cont
    requires forall k {:trigger r.blocks[k]} :: |b.blocks| <= k < |r.blocks| ==> r.blocks[k].terms == []
    requires forall x {:trigger x in made} :: x in made ==> |b.blocks| <= x < |r.blocks|
    requires TermKnown(r.blocks, w - {b.cur} + made, t)
    ensures Tidy(r, w - {b.cur} + made)
  {
    var w' := w - {b.cur} + made;
    assert KnowsMore(b.blocks, w, r.blocks, w');
    forall k | 0 <= k < |r.blocks|
      ensures BlockTidy(r.blocks, w', r.blocks[k])
    {
      if k < |b.blocks| && k != b.cur {
        assert BlockTidy(b.blocks, w, b.blocks[k]);
      }
    }
  }

  lemma {:induction false} EnterTidy(b: Build, n: nat, t: Term, next: nat, w: set<nat>, made: set<nat>)
    requires b.Valid() && Tidy(b, w) && |b.blocks| <= next < |b.blocks| + n
    requires forall x {:trigger x in made} :: x in made ==> |b.blocks| <= x < |b.blocks| + n
    requires TermKnown(b.Enter(n, t, next).blocks, w - {b.cur} + made, t)
    ensures Tidy(b.Enter(n, t, next), w - {b.cur} + made)
  {
    EndTidy(b, b.Enter(n, t, next), t, w, made);
  }

  lemma {:induction false} GoOnTidy(b: Build, t: Term, next: nat, w: set<nat>)
    requires b.Valid() && Tidy(b, w) && next < |b.blocks| && next != b.cur && b.blocks[next].terms == []
    requires TermKnown(b.blocks, w - {b.cur}, t)
    ensures Tidy(b.GoOn(t, next), w - {b.cur})
  {
    var r := b.GoOn(t, next);
    assert w - {b.cur} + {} == w - {b.cur};
    assert KnowsMore(b.blocks, w - {b.cur}, r.blocks, w - {b.cur});
    TermKnownMore(b.blocks, w - {b.cur}, r.blocks, w - {b.cur}, t);
    EndTidy(b, r, t, w, {});
  }

  lemma {:induction false} BranchTidy(o: Option<Stmt>, b: Build, merge: nat, next: nat, w: set<nat>)
    requires b.Valid() && Tidy(b, w) && merge < |b.blocks| && merge != b.cur && merge in w
    requires next < |b.blocks| && next != b.cur && b.blocks[next].terms == []
    requires o.None? ==> b.cur !in w
    ensures Tidy(LowerBranch(o, b, merge, next, false), w - {b.cur})
    decreases o, 2
  {
    hide LowerStmt;
    if o.Some? {
      var r := LowerStmt(o.value, b, false);
      StmtTidy(o.value, b, w);
      GoOnTidy(r, Br(Some(merge)), next, w - {b.cur} + {r.cur});
      assert w - {b.cur} + {r.cur} - {r.cur} == w - {b.cur};
    } else {
      assert w - {b.cur} == w;
    }
  }

  lemma {:induction false} IfTidy(s: Stmt, b: Build, w: set<nat>)
    requires s.If? && b.Valid() && Tidy(b, w)
    ensures Tidy(LowerIf(s, b, false), w - {b.cur} + {LowerIf(s, b, false).cur})
    decreases s, 0
  {
    hide LowerStmt, LowerBranch, IfHead, LowerExpr;
    var (elseBB, mergeBB) := (|b.blocks| + 1, |b.blocks| + 2);
    var w1 := IfHeadTidy(s, b, w);
    var b1 := IfHead(s, b);
    BranchTidy(s.cons, b1, mergeBB, elseBB, w1);
    var b2 := LowerBranch(s.cons, b1, mergeBB, elseBB, false);
    BranchTidy(s.alt, b2, mergeBB, mergeBB, w1 - {b1.cur});
    assert w1 - {b1.cur} - {elseBB} == w - {b.cur} + {mergeBB};
  }

  lemma {:induction false} IfHeadTidy(s: Stmt, b: Build, w: set<nat>) returns (w1: set<nat>)
    requires s.If? && b.Valid() && Tidy(b, w)
    ensures w1 == w - {b.cur} + {|b.blocks| + 2} + (if s.cons.Some? then {|b.blocks|} else {})
            + (if s.alt.Some? then {|b.blocks| + 1} else {})
    ensures Tidy(IfHead(s, b), w1)
  {
    hide LowerExpr, BlockTidy;
    var (thenBB, elseBB, mergeBB) := (|b.blocks|, |b.blocks| + 1, |b.blocks| + 2);
    var made := {mergeBB} + (if s.cons.Some? then {thenBB} else {}) + (if s.alt.Some? then {elseBB} else {});
    w1 := w - {b.cur} + made;
    var (b1, v) := LowerExpr(s.cond, b);
    StraightTidy(b, b1, w);
    EnterTidy(b1, 3, CondBr(v, if s.cons.Some? then thenBB else mergeBB, if s.alt.Some? then elseBB else mergeBB),
        thenBB, w, made);
  }

  lemma {:induction false} TargetsTidy(b: Build, brk: Option<nat>, cont: Option<nat>, w: set<nat>)
    requires Tidy(b, w) && TargetKnown(b.blocks, w, brk) && TargetKnown(b.blocks, w, cont)
    ensures Tidy(b.Targets(brk, cont), w)
  {
  }

  /** The condition block, ended by the test. */
  lemma {:induction false} TestTidy(c: Expr, b: Build, done: nat, w: set<nat>)
    requires b.Valid() && Tidy(b, w) && b.cur != done && b.cur + 1 in w && done in w
    ensures b.cur + 1 < |b.blocks| && b.blocks[b.cur + 1].terms == []
    ensures var (b1, v) := LowerExpr(c, b);
            var r := b1.GoOn(CondBr(v, b.cur + 1, done), b.cur + 1);
            Tidy(r, w - {b.cur}) && |r.blocks[b.cur].terms| == 1
  {
    hide LowerExpr, BlockTidy;
    var (b1, v) := LowerExpr(c, b);
    StraightTidy(b, b1, w);
    GoOnTidy(b1, CondBr(v, b.cur + 1, done), b.cur + 1, w);
  }

  lemma {:induction false} LoopHeadTidy(c: Expr, b: Build, n: nat, done: nat, next: nat, w: set<nat>, made: set<nat>)
    requires b.Valid() && Tidy(b, w) && 3 <= n && |b.blocks| <= done < |b.blocks| + n
    requires forall x {:trigger x in made} :: x in made ==> |b.blocks| + 1 < x < |b.blocks| + n
    requires done in made && (next == |b.blocks| || next in made)
    ensures |LoopHead(c, b, n, done, next).blocks[|b.blocks|].terms| == 1
    ensures Tidy(LoopHead(c, b, n, done, next), w - {b.cur} + made + {|b.blocks| + 1})
  {
    hide LowerExpr, BlockTidy;
    var condBB, bodyBB := |b.blocks|, |b.blocks| + 1;
    var made1 := made + {condBB, bodyBB};
    var b0 := b.Enter(n, Br(Some(condBB)), condBB);
    EnterTidy(b, n, Br(Some(condBB)), condBB, w, made1);
    var w1 := w - {b.cur} + made1;
    TestTidy(c, b0, done, w1);
    var (b1, v) := LowerExpr(c, b0);
    assert condBB !in w;
    assert w1 - {condBB} == w - {b.cur} + made + {bodyBB};
    TargetsTidy(b1.GoOn(CondBr(v, bodyBB, done), bodyBB), Some(done), Some(next), w1 - {condBB});
  }

  lemma {:induction false} WhileTidy(s: Stmt, b: Build, w: set<nat>)
    requires s.While? && b.Valid() && Tidy(b, w)
    ensures Tidy(LowerWhile(s, b, false), w - {b.cur} + {LowerWhile(s, b, false).cur})
    decreases s, 0
  {
    hide LowerStmt, LowerExpr, LoopHead;
    var (condBB, bodyBB, doneBB) := (|b.blocks|, |b.blocks| + 1, |b.blocks| + 2);
    LoopHeadTidy(s.cond, b, 3, doneBB, condBB, w, {doneBB});
    LoopBodyTidy(s.body, LoopHead(s.cond, b, 3, doneBB, condBB), condBB, doneBB, w - {b.cur} + {doneBB});
  }

  /** The body of a loop, ended by a jump to `to`. */
  lemma {:induction false} LoopBodyTidy(s: Stmt, b: Build, to: nat, next: nat, w: set<nat>)
    requires b.Valid() && b.cur !in w && Tidy(b, w + {b.cur})
    requires next < |b.blocks| && next != b.cur && b.blocks[next].terms == [] && b.cont == Some(to) && to != b.cur
    ensures Tidy(LowerStmt(s, b, false).GoOn(Br(Some(to)), next), w)
    decreases s, 3
  {
    hide LowerStmt;
    var r := LowerStmt(s, b, false);
    StmtTidy(s, b, w + {b.cur});
    assert w + {b.cur} - {b.cur} == w;
    assert w + {r.cur} - {r.cur} == w;
    assert Known(r.blocks, w, to) by {
      assert Known(b.blocks, w + {b.cur}, to);
      assert r.blocks[to] == b.blocks[to] || to == b.cur;
    }
    GoOnTidy(r, Br(Some(to)), next, w + {r.cur});
  }

  lemma {:induction false} ForTidy(s: Stmt, b: Build, w: set<nat>)
    requires s.For? && b.Valid() && Tidy(b, w)
    ensures Tidy(LowerFor(s, b, false), w - {b.cur} + {LowerFor(s, b, false).cur})
    decreases s, 0
  {
    hide LowerStmt, LowerExpr, LowerSimple, LoopHead, ForTail;
    var (condBB, incrBB, doneBB) := (|b.blocks|, |b.blocks| + 2, |b.blocks| + 3);
    var b0 := LowerSimple(s.init, b);
    StraightTidy(b, b0, w);
    LoopHeadTidy(s.cond, b0, 4, doneBB, incrBB, w, {incrBB, doneBB});
    var h := LoopHead(s.cond, b0, 4, doneBB, incrBB);
    var w1 := w - {b.cur} + {incrBB, doneBB};
    LoopBodyTidy(s.body, h, incrBB, incrBB, w1);
    ForTailTidy(s.incr, LowerStmt(s.body, h, false).GoOn(Br(Some(incrBB)), incrBB), condBB, doneBB, w1);
    assert w1 - {incrBB} == w - {b.cur} + {doneBB};
  }

  lemma {:induction false} ForTailTidy(incr: Simple, b: Build, condBB: nat, doneBB: nat, w: set<nat>)
    requires b.Valid() && Tidy(b, w) && doneBB < |b.blocks| && doneBB != b.cur && b.blocks[doneBB].terms == []
    requires Known(b.blocks, w - {b.cur}, condBB)
    ensures Tidy(ForTail(incr, b, condBB, doneBB), w - {b.cur})
  {
    hide LowerSimple;
    var b1 := b.Targets(None, b.cont);
    StraightTidy(b1, LowerSimple(incr, b1), w);
    GoOnTidy(LowerSimple(incr, b1), Br(Some(condBB)), doneBB, w);
  }

  /** Lowering a statement leaves the blocks tidy: the current block stops waiting and the last one waits. */
  lemma {:induction false} StmtTidy(s: Stmt, b: Build, w: set<nat>)
    requires b.Valid() && Tidy(b, w)
    ensures Tidy(LowerStmt(s, b, false), w - {b.cur} + {LowerStmt(s, b, false).cur})
    decreases s, 1
  {
    hide LowerSimple, LowerIf, LowerWhile, LowerFor;
    match s
    case Do(simple) =>
    case Seq(s1, s2) =>
      var b1 := LowerStmt(s1, b, false);
      StmtTidy(s1, b, w);
      StmtTidy(s2, b1, w - {b.cur} + {b1.cur});
    case If(_, _, _) => IfTidy(s, b, w);
    case While(_, _) => WhileTidy(s, b, w);
    case For(_, _, _, _) => ForTidy(s, b, w);
    case Break => EnterTidy(b, 1, Br(b.brk), |b.blocks|, w, {|b.blocks|});
    case Continue => EnterTidy(b, 1, Br(b.cont), |b.blocks|, w, {|b.blocks|});
  }

  lemma {:induction false} IfHeadEnds(s: Stmt, b: Build)
    requires s.If? && b.Valid()
    ensures IfHead(s, b).blocks[b.cur].terms != []
  {
    hide LowerExpr;
  }

  lemma {:induction false} LoopHeadEnds(c: Expr, b: Build, n: nat, done: nat, next: nat)
    requires b.Valid() && 3 <= n && done < |b.blocks| + n && next < |b.blocks| + n
    ensures LoopHead(c, b, n, done, next).blocks[b.cur].terms != []
  {
    hide LowerExpr;
    var b0 := b.Enter(n, Br(Some(|b.blocks|)), |b.blocks|);
    assert b0.blocks[b.cur].terms != [];
    assert LowerExpr(c, b0).0.blocks[b.cur] == b0.blocks[b.cur];
  }

  /** Lowering leaves the current block only by ending it. */
  lemma {:induction false} FirstBlockEnds(s: Stmt, b: Build)
    requires b.Valid()
    ensures LowerStmt(s, b, false).cur == b.cur || LowerStmt(s, b, false).blocks[b.cur].terms != []
  {
    hide LowerSimple, LowerExpr, LowerBranch, IfHead, LoopHead, ForTail;
    match s
    case Seq(s1, s2) =>
      FirstBlockEnds(s1, b);
      FirstBlockEnds(s2, LowerStmt(s1, b, false));
    case If(_, _, _) => IfHeadEnds(s, b);
    case While(c, _) => LoopHeadEnds(c, b, 3, |b.blocks| + 2, |b.blocks|);
    case For(init, c, _, _) => LoopHeadEnds(c, LowerSimple(init, b), 4, |b.blocks| + 3, |b.blocks| + 2);
    case _ =>
  }

  // ---- whole programs ----

  /** The block a work function falls out of. */
  function LastBlock(p: Stmt): nat {
    LowerStmt(p, START, false).cur
  }

  lemma {:induction false} FrontEndTidy(p: Stmt)
    ensures Tidy(LowerStmt(p, START, false), {LastBlock(p)})
  {
    hide LowerStmt;
    StmtTidy(p, START, {0});
    assert {0} - {0} + {LastBlock(p)} == {LastBlock(p)};
  }

  /** No block gets a second terminator, and every block a branch leads to has one unless it is the last. */
  lemma {:induction false} OneTerminator(p: Stmt, k: nat)
    requires k < |FrontEnd(p)|
    ensures |FrontEnd(p)[k].terms| <= 1 && FrontEnd(p)[LastBlock(p)].terms == []
    ensures forall t, x: nat {:trigger t in FrontEnd(p)[k].terms, LeadsTo(t, x)} ::
              t in FrontEnd(p)[k].terms && LeadsTo(t, x) ==>
              x < |FrontEnd(p)| && (x == LastBlock(p) || |FrontEnd(p)[x].terms| == 1)
  {
    hide LowerStmt;
    FrontEndTidy(p);
    var g := FrontEnd(p);
    assert BlockTidy(g, {LastBlock(p)}, g[k]);
  }

  predicate LeadsTo(t: Term, x: nat) {
    match t
    case Br(target) => target == Some(x)
    case CondBr(_, yes, no) => x == yes || x == no
  }

  /** So control is only ever in a block with exactly one terminator, or in the last one. */
  lemma {:induction false} ControlStaysInEndedBlocks(p: Stmt, inp: Tape, env: Env, n: nat)
    ensures var c := Steps(FrontEnd(p), inp, Boot(env), n);
            c.Running? ==> c.block < |FrontEnd(p)| && (c.block == LastBlock(p) || |FrontEnd(p)[c.block].terms| == 1)
  {
    hide LowerStmt;
    var g := FrontEnd(p);
    FrontEndTidy(p);
    if n == 0 {
      FirstBlockEnds(p, START);
      assert BlockTidy(g, {LastBlock(p)}, g[0]);
    } else {
      ControlStaysInEndedBlocks(p, inp, env, n - 1);
      StepsAdd(g, inp, Boot(env), n - 1, 1);
      var c := Steps(g, inp, Boot(env), n - 1);
      assert Steps(g, inp, c, 1) == Steps(g, inp, Step(g, inp, c), 0);
      if c.Running? {
        assert BlockTidy(g, {LastBlock(p)}, g[c.block]);
      }
    }
  }
}
