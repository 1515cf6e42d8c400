/** Which breaks and continues a run executes whose branch targets the front end has lost. */
module StrayJumps {
  import opened Wrappers
  import opened StreamIt

  predicate HasLoop(s: Stmt) {
    match s
    case Seq(s1, s2) => HasLoop(s1) || HasLoop(s2)
    case If(_, cons, alt) => OptHasLoop(cons) || OptHasLoop(alt)
    case While(_, _) => true
    case For(_, _, _, _) => true
    case _ => false
  }

  predicate OptHasLoop(o: Option<Stmt>) {
    o.Some? && HasLoop(o.value)
  }

  predicate OptPlaced(o: Option<Stmt>, ok: bool) {
    o.Some? ==> Placed(o.value, ok)
  }

  /** No break or continue is visited after a nested loop of the same loop body; `ok` says none was so far. */
  predicate Placed(s: Stmt, ok: bool) {
    match s
    case Do(_) => true
    case Seq(s1, s2) => Placed(s1, ok) && Placed(s2, ok && !HasLoop(s1))
    case If(_, cons, alt) => OptPlaced(cons, ok) && OptPlaced(alt, ok && !OptHasLoop(cons))
    case While(_, body) => Placed(body, true)
    case For(_, _, _, body) => Placed(body, true)
    case Break => ok
    case Continue => ok
  }

  // ---- running a statement and watching its jumps ----

  /** What a run shows: an outcome, or the first jump it executes whose targets were lost. */
  datatype Watched = Plain(o: Outcome) | Stray(jump: Stmt)

  /** Whether the targets are still right after `s` has been visited; with `restore` they always are. */
  predicate Later(restore: bool, ok: bool, s: Option<Stmt>) {
    ok && (restore || !OptHasLoop(s))
  }

  function Watch(s: Stmt, restore: bool, ok: bool, inp: Tape, env: Env, fuel: nat): Watched
    decreases fuel, s, 0
  {
    match s
    case Do(simple) => Plain(Normal(ExecSimple(simple, inp, env)))
    case Seq(s1, s2) =>
      (match Watch(s1, restore, ok, inp, env, fuel)
       case Plain(Normal(env1)) => Watch(s2, restore, Later(restore, ok, Some(s1)), inp, env1, fuel)
       case other => other)
    case If(c, cons, alt) =>
      var (v, env1) := EvalExpr(c, inp, env);
      var branch := if v != 0 then cons else alt;
      if branch.None? then Plain(Normal(env1))
      else Watch(branch.value, restore, if v != 0 then ok else Later(restore, ok, cons), inp, env1, fuel)
    case While(c, body) => WatchLoop(c, Nop, body, restore, inp, env, fuel)
    case For(init, c, incr, body) => WatchLoop(c, incr, body, restore, inp, ExecSimple(init, inp, env), fuel)
    case Break => if ok then Plain(Broke(env)) else Stray(s)
    case Continue => if ok then Plain(Continued(env)) else Stray(s)
  }

  function WatchLoop(c: Expr, incr: Simple, body: Stmt, restore: bool, inp: Tape, env: Env, fuel: nat): Watched
    decreases fuel, body, 1
  {
    if fuel == 0 then Plain(OutOfFuel)
    else
      var (v, env1) := EvalExpr(c, inp, env);
      if v == 0 then Plain(Normal(env1))
      else
        match Watch(body, restore, true, inp, env1, fuel)
        case Stray(jump) => Stray(jump)
        case Plain(Broke(env2)) => Plain(Normal(env2))
        case Plain(OutOfFuel) => Plain(OutOfFuel)
        case Plain(Normal(env2)) => WatchLoop(c, incr, body, restore, inp, ExecSimple(incr, inp, env2), fuel - 1)
        case Plain(Continued(env2)) => WatchLoop(c, incr, body, restore, inp, ExecSimple(incr, inp, env2), fuel - 1)
  }

  /** Watching changes nothing: a run without stray jumps is the program's run. It has none if targets are restored,
      or if all jumps of the program are well placed. */
  lemma {:induction false} WatchIsExec(s: Stmt, restore: bool, ok: bool, inp: Tape, env: Env, fuel: nat)
    ensures Watch(s, restore, ok, inp, env, fuel).Plain? ==>
              Watch(s, restore, ok, inp, env, fuel).o == Exec(s, inp, env, fuel)
    ensures (restore && ok) || Placed(s, ok) ==> Watch(s, restore, ok, inp, env, fuel).Plain?
    decreases fuel, s, 0
  {
    match s
    case Seq(s1, s2) =>
      WatchIsExec(s1, restore, ok, inp, env, fuel);
      if Exec(s1, inp, env, fuel).Normal? {
        WatchIsExec(s2, restore, Later(restore, ok, Some(s1)), inp, Exec(s1, inp, env, fuel).env, fuel);
      }
    case If(c, cons, alt) =>
      var (v, env1) := EvalExpr(c, inp, env);
      if v != 0 && cons.Some? {
        assert Placed(s, ok) ==> OptPlaced(cons, ok);
        WatchIsExec(cons.value, restore, ok, inp, env1, fuel);
      }
      if v == 0 && alt.Some? {
        var later := Later(restore, ok, cons);
        if Placed(s, ok) && !(restore && ok) {
          assert later == (ok && !OptHasLoop(cons));
          assert OptPlaced(alt, later);
        }
        WatchIsExec(alt.value, restore, Later(restore, ok, cons), inp, env1, fuel);
      }
    case While(c, body) => WatchLoopIsIterate(c, Nop, body, restore, inp, env, fuel);
    case For(init, c, incr, body) =>
      WatchLoopIsIterate(c, incr, body, restore, inp, ExecSimple(init, inp, env), fuel);
    case _ =>
  }

  lemma {:induction false} WatchLoopIsIterate(c: Expr, incr: Simple, body: Stmt, restore: bool,
                                              inp: Tape, env: Env, fuel: nat)
    ensures WatchLoop(c, incr, body, restore, inp, env, fuel).Plain? ==>
              WatchLoop(c, incr, body, restore, inp, env, fuel).o == Iterate(c, incr, body, inp, env, fuel)
    ensures restore || Placed(body, true) ==> WatchLoop(c, incr, body, restore, inp, env, fuel).Plain?
    decreases fuel, body, 1
  {
    if fuel > 0 {
      var (v, env1) := EvalExpr(c, inp, env);
      if v != 0 {
        WatchIsExec(body, restore, true, inp, env1, fuel);
        var o := Exec(body, inp, env1, fuel);
        if o.Normal? || o.Continued? {
          WatchLoopIsIterate(c, incr, body, restore, inp, ExecSimple(incr, inp, o.env), fuel - 1);
        }
      }
    }
  }

  /** A loop hands out no break and no continue but a stray one. */
  lemma {:induction false} WatchLoopEnds(c: Expr, incr: Simple, body: Stmt, restore: bool,
                                         inp: Tape, env: Env, fuel: nat)
    ensures var w := WatchLoop(c, incr, body, restore, inp, env, fuel); w.Plain? ==> w.o.Normal? || w.o.OutOfFuel?
  {
    WatchLoopIsIterate(c, incr, body, restore, inp, env, fuel);
    LoopEndsNormally(c, incr, body, inp, env, fuel);
  }

  lemma {:induction false} StraysAreJumps(s: Stmt, restore: bool, ok: bool, inp: Tape, env: Env, fuel: nat)
    ensures var w := Watch(s, restore, ok, inp, env, fuel); w.Stray? ==> w.jump.Break? || w.jump.Continue?
    decreases fuel, s, 0
  {
    match s
    case Seq(s1, s2) =>
      StraysAreJumps(s1, restore, ok, inp, env, fuel);
      var w := Watch(s1, restore, ok, inp, env, fuel);
      if w.Plain? && w.o.Normal? {
        StraysAreJumps(s2, restore, Later(restore, ok, Some(s1)), inp, w.o.env, fuel);
      }
    case If(c, cons, alt) =>
      var (v, env1) := EvalExpr(c, inp, env);
      if v != 0 && cons.Some? {
        StraysAreJumps(cons.value, restore, ok, inp, env1, fuel);
      }
      if v == 0 && alt.Some? {
        StraysAreJumps(alt.value, restore, Later(restore, ok, cons), inp, env1, fuel);
      }
    case While(c, body) => LoopStraysAreJumps(c, Nop, body, restore, inp, env, fuel);
    case For(init, c, incr, body) =>
      LoopStraysAreJumps(c, incr, body, restore, inp, ExecSimple(init, inp, env), fuel);
    case _ =>
  }

  lemma {:induction false} LoopStraysAreJumps(c: Expr, incr: Simple, body: Stmt, restore: bool,
                                              inp: Tape, env: Env, fuel: nat)
    ensures var w := WatchLoop(c, incr, body, restore, inp, env, fuel); w.Stray? ==> w.jump.Break? || w.jump.Continue?
    decreases fuel, body, 1
  {
    if fuel > 0 {
      var (v, env1) := EvalExpr(c, inp, env);
      if v != 0 {
        StraysAreJumps(body, restore, true, inp, env1, fuel);
        var w := Watch(body, restore, true, inp, env1, fuel);
        if w.Plain? && (w.o.Normal? || w.o.Continued?) {
          LoopStraysAreJumps(c, incr, body, restore, inp, ExecSimple(incr, inp, w.o.env), fuel - 1);
        }
      }
    }
  }
}
