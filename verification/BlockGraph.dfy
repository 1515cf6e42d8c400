/** Basic-block graphs, the machine that runs them, and how graphs grow. */
module BlockGraph {
  import opened Wrappers
  import opened StreamIt

  datatype Operand = Imm(n: int) | Reg(id: nat)

  datatype Instr =
    | Load(dst: nat, x: string)
    | Arith(dst: nat, op: BinOp, a: Operand, b: Operand)
    | PopTo(dst: nat)
    | Store(x: string, v: Operand)
    | PushOf(v: Operand)

  /** A branch target of None is the null block. */
  datatype Term = Br(target: Option<nat>) | CondBr(v: Operand, yes: nat, no: nat)

  /** Terminators are a list because nothing in the builder keeps a second one from being appended. */
  datatype Block = Block(code: seq<Instr>, terms: seq<Term>)

  type Graph = seq<Block>

  // ---- running a graph ----

  datatype Mem = Mem(regs: map<nat, int>, env: Env)

  datatype Config = Running(block: nat, idx: nat, mem: Mem) | Halted(mem: Mem) | Crashed

  function Value(regs: map<nat, int>, v: Operand): int {
    match v
    case Imm(n) => n
    case Reg(id) => if id in regs then regs[id] else 0
  }

  function ExecInstr(i: Instr, inp: Tape, m: Mem): Mem {
    match i
    case Load(dst, x) => m.(regs := m.regs[dst := Lookup(m.env.vars, x)])
    case Arith(dst, op, a, b) => m.(regs := m.regs[dst := EvalOp(op, Value(m.regs, a), Value(m.regs, b))])
    case PopTo(dst) => Mem(m.regs[dst := inp(m.env.pos)], m.env.(pos := m.env.pos + 1))
    case Store(x, v) => m.(env := m.env.(vars := m.env.vars[x := Value(m.regs, v)]))
    case PushOf(v) => m.(env := m.env.(out := m.env.out + [Value(m.regs, v)]))
  }

  /** One instruction or one branch. A block without terminator is where the function returns. */
  function Step(g: Graph, inp: Tape, c: Config): Config {
    if !c.Running? then c
    else if c.block >= |g| then Crashed
    else
      var blk := g[c.block];
      if c.idx < |blk.code| then Running(c.block, c.idx + 1, ExecInstr(blk.code[c.idx], inp, c.mem))
      else if blk.terms == [] then Halted(c.mem)
      else
        match blk.terms[0]
        case Br(None) => Crashed
        case Br(Some(t)) => Running(t, 0, c.mem)
        case CondBr(v, yes, no) => Running(if Value(c.mem.regs, v) != 0 then yes else no, 0, c.mem)
  }

  function Steps(g: Graph, inp: Tape, c: Config, n: nat): Config
    decreases n
  {
    if n == 0 then c else Steps(g, inp, Step(g, inp, c), n - 1)
  }

  lemma {:induction false} StepsAdd(g: Graph, inp: Tape, c: Config, n: nat, m: nat)
    ensures Steps(g, inp, c, n + m) == Steps(g, inp, Steps(g, inp, c, n), m)
    decreases n
  {
    if n > 0 {
      StepsAdd(g, inp, Step(g, inp, c), n - 1, m);
    }
  }

  lemma {:induction false} StoppedStays(g: Graph, inp: Tape, c: Config, n: nat)
    requires !c.Running?
    ensures Steps(g, inp, c, n) == c
    decreases n
  {
    if n > 0 {
      StoppedStays(g, inp, c, n - 1);
    }
  }

  // ---- growing a graph ----

  predicate Prefix(a: seq<Instr>, b: seq<Instr>) {
    |a| <= |b| && b[..|a|] == a
  }

  lemma {:induction false} PrefixTransitive(a: seq<Instr>, b: seq<Instr>, c: seq<Instr>)
    requires Prefix(a, b) && Prefix(b, c)
    ensures Prefix(a, c)
  {
    assert c[..|a|] == b[..|a|];
  }

  /** `g` keeps every instruction of `h`, and every block of `h` that already has its terminator as it is. */
  predicate Extends(h: Graph, g: Graph) {
    |h| <= |g| && forall i {:trigger h[i]} :: 0 <= i < |h| ==>
        Prefix(h[i].code, g[i].code) && (h[i].terms != [] ==> h[i] == g[i])
  }

  lemma {:induction false} ExtendsTransitive(a: Graph, b: Graph, c: Graph)
    requires Extends(a, b) && Extends(b, c)
    ensures Extends(a, c)
  {
    forall i | 0 <= i < |a|
      ensures Prefix(a[i].code, c[i].code) && (a[i].terms != [] ==> a[i] == c[i])
    {
      assert Prefix(a[i].code, b[i].code) && Prefix(b[i].code, c[i].code);
      PrefixTransitive(a[i].code, b[i].code, c[i].code);
    }
  }
}
