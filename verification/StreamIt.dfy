/** The fragment of the StreamIt statement language that the front end lowers, and its meaning. */
module StreamIt {
  import opened Wrappers

  datatype BinOp = Add | Sub | Mul | Div | Rem | And | Or | Eq | Neq | Lt | Le | Gt | Ge

  datatype Expr = Const(n: int) | Var(x: string) | Pop | Bin(op: BinOp, l: Expr, r: Expr)

  /** Statements that lower to straight-line code. */
  datatype Simple =
    | Nop
    | Assign(x: string, e: Expr)
    | Update(x: string, op: BinOp, e: Expr)
    | Push(e: Expr)
    | Eval(e: Expr)

  datatype Stmt =
    | Do(simple: Simple)
    | Seq(s1: Stmt, s2: Stmt)
    | If(cond: Expr, cons: Option<Stmt>, alt: Option<Stmt>)
    | While(cond: Expr, body: Stmt)
    | For(init: Simple, cond: Expr, incr: Simple, body: Stmt)
    | Break
    | Continue

  /** Break and continue occur only inside loops. */
  predicate Nested(s: Stmt, inLoop: bool) {
    match s
    case Do(_) => true
    case Seq(s1, s2) => Nested(s1, inLoop) && Nested(s2, inLoop)
    case If(_, cons, alt) => (cons.Some? ==> Nested(cons.value, inLoop)) && (alt.Some? ==> Nested(alt.value, inLoop))
    case While(_, body) => Nested(body, true)
    case For(_, _, _, body) => Nested(body, true)
    case Break => inLoop
    case Continue => inLoop
  }

  // ---- meaning ----

  /** Variables, how far the input has been read, and what has been pushed. */
  datatype Env = Env(vars: map<string, int>, pos: nat, out: seq<int>)

  type Tape = nat -> int

  function Lookup(vars: map<string, int>, x: string): int {
    if x in vars then vars[x] else 0
  }

  function Wrap32(n: int): int {
    var m := n % 0x1_0000_0000;
    if m >= 0x8000_0000 then m - 0x1_0000_0000 else m
  }

  function Truth(b: bool): int {
    if b then 1 else 0
  }

  /** Integer division as the machine does it, towards zero. */
  function Quotient(a: int, b: int): int
    requires b != 0
  {
    var q := (if a < 0 then -a else a) / (if b < 0 then -b else b);
    if (a < 0) == (b < 0) then q else -q
  }

  /** A division by zero, which is undefined, counts as 0. Both operands of a logical operator are evaluated. */
  function EvalOp(op: BinOp, a: int, b: int): int {
    match op
    case Add => Wrap32(a + b)
    case Sub => Wrap32(a - b)
    case Mul => Wrap32(a * b)
    case Div => if b == 0 then 0 else Wrap32(Quotient(a, b))
    case Rem => if b == 0 then 0 else Wrap32(a - Quotient(a, b) * b)
    case And => Truth(a != 0 && b != 0)
    case Or => Truth(a != 0 || b != 0)
    case Eq => Truth(a == b)
    case Neq => Truth(a != b)
    case Lt => Truth(a < b)
    case Le => Truth(a <= b)
    case Gt => Truth(a > b)
    case Ge => Truth(a >= b)
  }

  // ---- laws of the operators ----

  predicate IsInt32(n: int) {
    -0x8000_0000 <= n < 0x8000_0000
  }

  /** The only 32-bit integer that differs from n by a multiple of 2^32. */
  lemma WrapIsCongruent(n: int, m: int)
    requires IsInt32(m) && (n - m) % 0x1_0000_0000 == 0
    ensures Wrap32(n) == m
  {
  }

  lemma WrapsTo(n: int)
    ensures IsInt32(Wrap32(n)) && (n - Wrap32(n)) % 0x1_0000_0000 == 0
  {
  }

  lemma Wraps(n: int) returns (k: int)
    ensures n - Wrap32(n) == k * 0x1_0000_0000
  {
    WrapsTo(n);
    k := (n - Wrap32(n)) / 0x1_0000_0000;
  }

  /** Adding what was subtracted, or subtracting what was added, gives the first operand back. */
  lemma SubUndoesAdd(a: int, b: int)
    requires IsInt32(a)
    ensures EvalOp(Add, EvalOp(Sub, a, b), b) == a
    ensures EvalOp(Sub, EvalOp(Add, a, b), b) == a
    ensures EvalOp(Add, a, b) == EvalOp(Add, b, a)
  {
    hide Wrap32;
    var k := Wraps(a - b);
    var l := Wraps(a + b);
    WrapIsCongruent(a, a);
    MultiplesGoAway(Wrap32(a - b) + b, a, -k);
    MultiplesGoAway(Wrap32(a + b) - b, a, -l);
  }

  lemma MultiplesGoAway(n: int, m: int, k: int)
    requires n - m == k * 0x1_0000_0000
    ensures Wrap32(n) == Wrap32(m)
  {
    assert (n - m) % 0x1_0000_0000 == 0;
    assert n % 0x1_0000_0000 == m % 0x1_0000_0000;
  }

  lemma TimesNext(a: int, b: int, c: int, q: int)
    requires b + 1 - c == q * 0x1_0000_0000
    ensures a * b + a - a * c == (a * q) * 0x1_0000_0000
  {
    assert a * (b + 1 - c) == a * b + a - a * c;
    assert a * (q * 0x1_0000_0000) == (a * q) * 0x1_0000_0000;
  }

  /** Multiplication is commutative, 1 is neutral, and one more is one addition more. */
  lemma MulLaws(a: int, b: int)
    requires IsInt32(a)
    ensures EvalOp(Mul, a, 1) == a && EvalOp(Mul, a, b) == EvalOp(Mul, b, a)
    ensures EvalOp(Mul, a, EvalOp(Add, b, 1)) == EvalOp(Add, EvalOp(Mul, a, b), a)
  {
    WrapIsCongruent(a, a);
    var (c, m) := (Wrap32(b + 1), a * b);
    var q := Wraps(b + 1);
    var r := Wraps(m);
    TimesNext(a, b, c, q);
    var (t, n) := (a * q, a * c);
    hide Wrap32;
    MultiplesGoAway(n, Wrap32(m) + a, r - t);
  }

  function Abs(n: int): nat {
    if n < 0 then -n else n
  }

  lemma NaturalDivision(x: nat, y: nat)
    requires 0 < y
    ensures x == y * (x / y) + x % y && 0 <= x / y <= x && (y > 1 ==> 2 * (x / y) <= x)
  {
    TimesGrows(y, x / y);
  }

  lemma {:induction false} TimesGrows(y: nat, q: nat)
    ensures (y >= 1 ==> q <= y * q) && (y >= 2 ==> 2 * q <= y * q)
  {
    if y > 2 {
      TimesGrows(y - 1, q);
      assert y * q == (y - 1) * q + q;
    }
  }

  lemma QuotientTruncates(a: int, b: int)
    requires b != 0
    ensures var (k, r) := (Quotient(a, b), a - Quotient(a, b) * b);
            && Abs(k) <= Abs(a) && (Abs(b) > 1 ==> 2 * Abs(k) <= Abs(a))
            && Abs(r) < Abs(b) && (r > 0 ==> a > 0) && (r < 0 ==> a < 0)
  {
    var (x, y) := (Abs(a), Abs(b));
    NaturalDivision(x, y);
    Signs(b, y, x / y);
  }

  lemma Signs(b: int, y: int, q: int)
    ensures y == (if b < 0 then -b else b) ==> y * q == (if b < 0 then -(q * b) else q * b)
    ensures (-q) * b == -(q * b)
  {
  }

  /** Division truncates: quotient times divisor plus remainder is the dividend, the remainder is smaller than the
      divisor and has the sign of the dividend. */
  lemma DivTruncates(a: int, b: int)
    requires IsInt32(a) && IsInt32(b) && b != 0
    ensures var (q, r) := (EvalOp(Div, a, b), EvalOp(Rem, a, b));
            && EvalOp(Add, EvalOp(Mul, q, b), r) == a
            && (a != -0x8000_0000 || b != -1 ==> a == q * b + r)
            && Abs(r) < Abs(b) && (r > 0 ==> a > 0) && (r < 0 ==> a < 0)
  {
    QuotientTruncates(a, b);
    var k := Quotient(a, b);
    var m := k * b;
    hide Quotient;
    WrapIsCongruent(a - m, a - m);
    if IsInt32(k) {
      WrapIsCongruent(k, k);
      WrapIsCongruent(m, m);
    } else {
      assert Abs(b) == 1 && k == 0x8000_0000 && Wrap32(k) == -k;
      assert b == -1 ==> m == -k;
      assert (-k) * b == -m;
    }
  }

  /** Exactly one of less, equal and greater holds; the other comparisons are their negations. */
  lemma Comparisons(a: int, b: int)
    ensures EvalOp(Lt, a, b) + EvalOp(Eq, a, b) + EvalOp(Gt, a, b) == 1
    ensures a < b ==> EvalOp(Lt, a, b) == 1
    ensures EvalOp(Gt, a, b) == EvalOp(Lt, b, a)
    ensures EvalOp(Le, a, b) + EvalOp(Gt, a, b) == EvalOp(Ge, a, b) + EvalOp(Lt, a, b) == 1
    ensures EvalOp(Neq, a, b) + EvalOp(Eq, a, b) == 1
    ensures EvalOp(And, a, b) == 1 <==> EvalOp(Neq, a, 0) == 1 && EvalOp(Neq, b, 0) == 1
    ensures EvalOp(Or, a, b) == 0 <==> EvalOp(Eq, a, 0) == 1 && EvalOp(Eq, b, 0) == 1
    ensures EvalOp(And, a, b) in {0, 1} && EvalOp(Or, a, b) in {0, 1}
  {
  }

  /** What is assigned to a variable is what it has then, and no other variable changes. */
  lemma AssignmentIsSeen(x: string, y: string, e: Expr, inp: Tape, env: Env)
    ensures var (v, env1) := EvalExpr(e, inp, env);
            Lookup(ExecSimple(Assign(x, e), inp, env).vars, y) == if x == y then v else Lookup(env1.vars, y)
    ensures EvalExpr(e, inp, env).1.vars == env.vars
  {
    EvaluationAssignsNothing(e, inp, env);
  }

  lemma {:induction false} EvaluationAssignsNothing(e: Expr, inp: Tape, env: Env)
    ensures EvalExpr(e, inp, env).1.vars == env.vars && EvalExpr(e, inp, env).1.out == env.out
  {
    if e.Bin? {
      EvaluationAssignsNothing(e.l, inp, env);
      EvaluationAssignsNothing(e.r, inp, EvalExpr(e.l, inp, env).1);
    }
  }

  function EvalExpr(e: Expr, inp: Tape, env: Env): (int, Env) {
    match e
    case Const(n) => (n, env)
    case Var(x) => (Lookup(env.vars, x), env)
    case Pop => (inp(env.pos), env.(pos := env.pos + 1))
    case Bin(op, l, r) =>
      var (a, env1) := EvalExpr(l, inp, env);
      var (b, env2) := EvalExpr(r, inp, env1);
      (EvalOp(op, a, b), env2)
  }

  function ExecSimple(s: Simple, inp: Tape, env: Env): Env {
    match s
    case Nop => env
    case Assign(x, e) =>
      var (v, env1) := EvalExpr(e, inp, env);
      env1.(vars := env1.vars[x := v])
    case Update(x, op, e) =>
      var a := Lookup(env.vars, x);
      var (b, env1) := EvalExpr(e, inp, env);
      env1.(vars := env1.vars[x := EvalOp(op, a, b)])
    case Push(e) =>
      var (v, env1) := EvalExpr(e, inp, env);
      env1.(out := env1.out + [v])
    case Eval(e) => EvalExpr(e, inp, env).1
  }

  datatype Outcome = Normal(env: Env) | Broke(env: Env) | Continued(env: Env) | OutOfFuel

  /** Runs a statement; `fuel` bounds how often any one loop goes round. */
  function Exec(s: Stmt, inp: Tape, env: Env, fuel: nat): Outcome
    decreases fuel, s, 0
  {
    match s
    case Do(simple) => Normal(ExecSimple(simple, inp, env))
    case Seq(s1, s2) =>
      (match Exec(s1, inp, env, fuel)
       case Normal(env1) => Exec(s2, inp, env1, fuel)
       case other => other)
    case If(c, cons, alt) =>
      var (v, env1) := EvalExpr(c, inp, env);
      var branch := if v != 0 then cons else alt;
      if branch.None? then Normal(env1) else Exec(branch.value, inp, env1, fuel)
    case While(c, body) => Iterate(c, Nop, body, inp, env, fuel)
    case For(init, c, incr, body) => Iterate(c, incr, body, inp, ExecSimple(init, inp, env), fuel)
    case Break => Broke(env)
    case Continue => Continued(env)
  }

  function Iterate(c: Expr, incr: Simple, body: Stmt, inp: Tape, env: Env, fuel: nat): Outcome
    decreases fuel, body, 1
  {
    if fuel == 0 then OutOfFuel
    else
      var (v, env1) := EvalExpr(c, inp, env);
      if v == 0 then Normal(env1)
      else
        match Exec(body, inp, env1, fuel)
        case Broke(env2) => Normal(env2)
        case OutOfFuel => OutOfFuel
        case Normal(env2) => Iterate(c, incr, body, inp, ExecSimple(incr, inp, env2), fuel - 1)
        case Continued(env2) => Iterate(c, incr, body, inp, ExecSimple(incr, inp, env2), fuel - 1)
  }

  /** A well-nested statement hands breaks and continues out only when it is inside a loop. */
  lemma {:induction false} NoEscape(s: Stmt, inp: Tape, env: Env, fuel: nat)
    requires Nested(s, false)
    ensures Exec(s, inp, env, fuel).Normal? || Exec(s, inp, env, fuel).OutOfFuel?
    decreases fuel, s, 0
  {
    match s
    case Do(_) =>
    case Seq(s1, s2) =>
      NoEscape(s1, inp, env, fuel);
      if Exec(s1, inp, env, fuel).Normal? {
        NoEscape(s2, inp, Exec(s1, inp, env, fuel).env, fuel);
      }
    case If(c, cons, alt) =>
      var (v, env1) := EvalExpr(c, inp, env);
      var branch := if v != 0 then cons else alt;
      if branch.Some? {
        NoEscape(branch.value, inp, env1, fuel);
      }
    case While(c, body) => LoopEndsNormally(c, Nop, body, inp, env, fuel);
    case For(init, c, incr, body) => LoopEndsNormally(c, incr, body, inp, ExecSimple(init, inp, env), fuel);
  }

  lemma {:induction false} LoopEndsNormally(c: Expr, incr: Simple, body: Stmt, inp: Tape, env: Env, fuel: nat)
    ensures Iterate(c, incr, body, inp, env, fuel).Normal? || Iterate(c, incr, body, inp, env, fuel).OutOfFuel?
    decreases fuel
  {
    if fuel > 0 {
      var (v, env1) := EvalExpr(c, inp, env);
      if v != 0 {
        match Exec(body, inp, env1, fuel)
        case Broke(_) =>
        case OutOfFuel =>
        case Normal(env2) => LoopEndsNormally(c, incr, body, inp, ExecSimple(incr, inp, env2), fuel - 1);
        case Continued(env2) => LoopEndsNormally(c, incr, body, inp, ExecSimple(incr, inp, env2), fuel - 1);
      }
    }
  }
}
