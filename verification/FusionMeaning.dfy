/** Two kernels joined by a first-in-first-out stream, and what any schedule of their firings computes. */
module FusionMeaning {
  import opened RingArith

  const ES: nat := 4

  /** The upstream kernel takes what one firing reads from its other streams and gives what it writes to them,
      and the elements it pushes onto the shared stream; the downstream one gets the elements it pops. */
  datatype Pair<!S0, !S1, !X, Y> = Pair(fire0: (S0, X) -> (S0, Y, seq<Elem>),
                                        fire1: (S1, X, seq<Elem>) -> (S1, Y), push: nat, pop: nat)

  /** Both kernels have fixed rates. */
  ghost predicate FixedRate<S0(!new), S1, X(!new), Y>(p: Pair<S0, S1, X, Y>) {
    && 0 < p.push && 0 < p.pop
    && forall s, x {:trigger p.fire0(s, x)} ::
         && |p.fire0(s, x).2| == p.push
         && forall i {:trigger p.fire0(s, x).2[i]} :: 0 <= i < p.push ==> |p.fire0(s, x).2[i]| == ES
  }

  datatype System<S0, S1, X, Y> = System(s0: S0, in0: seq<X>, out0: seq<Y>, queue: seq<Elem>,
                                          s1: S1, in1: seq<X>, out1: seq<Y>)

  datatype Firing = Up | Down

  predicate Enabled<S0, S1, X, Y>(p: Pair<S0, S1, X, Y>, c: System<S0, S1, X, Y>, f: Firing) {
    match f
    case Up => c.in0 != []
    case Down => c.in1 != [] && p.pop <= |c.queue|
  }

  function Apply<S0, S1, X, Y>(p: Pair<S0, S1, X, Y>, c: System<S0, S1, X, Y>, f: Firing): System<S0, S1, X, Y>
    requires Enabled(p, c, f)
  {
    match f
    case Up =>
      var (s, y, es) := p.fire0(c.s0, c.in0[0]);
      c.(s0 := s, in0 := c.in0[1..], out0 := c.out0 + [y], queue := c.queue + es)
    case Down =>
      var (s, y) := p.fire1(c.s1, c.in1[0], c.queue[..p.pop]);
      c.(s1 := s, in1 := c.in1[1..], out1 := c.out1 + [y], queue := c.queue[p.pop..])
  }

  predicate Legal<S0, S1, X, Y>(p: Pair<S0, S1, X, Y>, c: System<S0, S1, X, Y>, fs: seq<Firing>)
    decreases |fs|
  {
    fs == [] || (Enabled(p, c, fs[0]) && Legal(p, Apply(p, c, fs[0]), fs[1..]))
  }

  function After<S0, S1, X, Y>(p: Pair<S0, S1, X, Y>, c: System<S0, S1, X, Y>, fs: seq<Firing>): System<S0, S1, X, Y>
    requires Legal(p, c, fs)
    decreases |fs|
  {
    if fs == [] then c else After(p, Apply(p, c, fs[0]), fs[1..])
  }

  function Count(fs: seq<Firing>, f: Firing): nat {
    if fs == [] then 0 else (if fs[0] == f then 1 else 0) + Count(fs[1..], f)
  }

  // ---- what the kernels compute, apart from any schedule ----

  /** The upstream kernel after all of xs: its state, its other output, and everything it pushed. */
  function Upstream<S0, S1, X, Y>(p: Pair<S0, S1, X, Y>, s: S0, xs: seq<X>): (S0, seq<Y>, seq<Elem>)
    decreases |xs|
  {
    if xs == [] then (s, [], [])
    else
      var (s1, y, es) := p.fire0(s, xs[0]);
      var (sn, ys, rest) := Upstream(p, s1, xs[1..]);
      (sn, [y] + ys, es + rest)
  }

  /** The downstream kernel after all of xs, popping from the front of `items`. */
  function Downstream<S0, S1, X, Y>(p: Pair<S0, S1, X, Y>, s: S1, xs: seq<X>, items: seq<Elem>): (S1, seq<Y>)
    decreases |xs|
  {
    if xs == [] || |items| < p.pop then (s, [])
    else
      var (s1, y) := p.fire1(s, xs[0], items[..p.pop]);
      var (sn, ys) := Downstream(p, s1, xs[1..], items[p.pop..]);
      (sn, [y] + ys)
  }

  /** Where a system ends after a firings upstream and b downstream. */
  ghost predicate Reached<S0, S1, X, Y>(p: Pair<S0, S1, X, Y>, c: System<S0, S1, X, Y>,
                                         a: nat, b: nat, d: System<S0, S1, X, Y>) {
    a <= |c.in0| && b <= |c.in1| &&
    var (s0, ys, pushed) := Upstream(p, c.s0, c.in0[..a]);
    var items := c.queue + pushed;
    && 0 <= b * p.pop <= |items|
    && d == System(s0, c.in0[a..], c.out0 + ys, items[b * p.pop..],
                   Downstream(p, c.s1, c.in1[..b], items[..b * p.pop]).0, c.in1[b..],
                   c.out1 + Downstream(p, c.s1, c.in1[..b], items[..b * p.pop]).1)
  }

  lemma UpFirst<S0, S1, X, Y>(p: Pair<S0, S1, X, Y>, c: System<S0, S1, X, Y>, a: nat, b: nat, d: System<S0, S1, X, Y>)
    requires Enabled(p, c, Up) && Reached(p, Apply(p, c, Up), a, b, d)
    ensures Reached(p, c, a + 1, b, d)
  {
    var c1 := Apply(p, c, Up);
    assert c.in0[..a + 1][0] == c.in0[0] && c.in0[..a + 1][1..] == c1.in0[..a];
    assert c1.in0[a..] == c.in0[a + 1..];
    var (s1, y, es) := p.fire0(c.s0, c.in0[0]);
    var (sn, ys, rest) := Upstream(p, s1, c1.in0[..a]);
    assert c.queue + (es + rest) == c1.queue + rest;
    assert c1.out0 + ys == c.out0 + ([y] + ys);
  }

  lemma SplitFront<T>(items: seq<T>, k: nat, m: nat)
    requires k + m <= |items|
    ensures items[k + m..] == items[k..][m..]
    ensures items[..k + m][..k] == items[..k] && items[..k + m][k..] == items[k..][..m]
  {
  }

  lemma DownFirst<S0, S1, X, Y>(p: Pair<S0, S1, X, Y>, c: System<S0, S1, X, Y>, a: nat, b: nat, d: System<S0, S1, X, Y>)
    requires Enabled(p, c, Down) && Reached(p, Apply(p, c, Down), a, b, d)
    ensures Reached(p, c, a, b + 1, d)
  {
    var c1 := Apply(p, c, Down);
    var (s0, ys, pushed) := Upstream(p, c.s0, c.in0[..a]);
    var (items, items1) := (c.queue + pushed, c1.queue + pushed);
    Distributes(p.pop, b, 1);
    var n := (b + 1) * p.pop;
    assert items1 == items[p.pop..] && c.queue[..p.pop] == items[..p.pop];
    SplitFront(items, p.pop, b * p.pop);
    assert n == p.pop + b * p.pop;
    assert c.in1[..b + 1][0] == c.in1[0] && c.in1[..b + 1][1..] == c1.in1[..b] && c1.in1[b..] == c.in1[b + 1..];
    var (s1, y) := p.fire1(c.s1, c.in1[0], items[..p.pop]);
    var (sn, zs) := Downstream(p, s1, c1.in1[..b], items1[..b * p.pop]);
    assert c1.out1 + zs == c.out1 + ([y] + zs);
  }

  /** Every legal schedule ends where its two counts say, whatever its order. */
  lemma {:induction false} OrderDoesNotMatter<S0, S1, X, Y>(p: Pair<S0, S1, X, Y>, c: System<S0, S1, X, Y>,
                                                            fs: seq<Firing>)
    requires Legal(p, c, fs)
    ensures Reached(p, c, Count(fs, Up), Count(fs, Down), After(p, c, fs))
    decreases |fs|
  {
    if fs == [] {
      assert c.in0[..0] == [] && c.in1[..0] == [];
      assert c.queue + [] == c.queue && c.queue[0..] == c.queue;
      assert c.in0[0..] == c.in0 && c.in1[0..] == c.in1;
      assert c.out0 + [] == c.out0 && c.out1 + [] == c.out1;
    } else {
      var c1 := Apply(p, c, fs[0]);
      OrderDoesNotMatter(p, c1, fs[1..]);
      var (a, b) := (Count(fs[1..], Up), Count(fs[1..], Down));
      if fs[0] == Up {
        UpFirst(p, c, a, b, After(p, c, fs));
      } else {
        DownFirst(p, c, a, b, After(p, c, fs));
      }
    }
  }

  /** So two schedules with the same counts end in the same system. */
  lemma SchedulesAgree<S0, S1, X, Y>(p: Pair<S0, S1, X, Y>, c: System<S0, S1, X, Y>, fs: seq<Firing>, gs: seq<Firing>)
    requires Legal(p, c, fs) && Legal(p, c, gs)
    requires Count(fs, Up) == Count(gs, Up) && Count(fs, Down) == Count(gs, Down)
    ensures After(p, c, fs) == After(p, c, gs)
  {
    OrderDoesNotMatter(p, c, fs);
    OrderDoesNotMatter(p, c, gs);
  }

  // ---- concatenated schedules ----

  lemma {:induction false} LegalConcat<S0, S1, X, Y>(p: Pair<S0, S1, X, Y>, c: System<S0, S1, X, Y>,
                                                     fs: seq<Firing>, gs: seq<Firing>)
    requires Legal(p, c, fs) && Legal(p, After(p, c, fs), gs)
    ensures Legal(p, c, fs + gs) && After(p, c, fs + gs) == After(p, After(p, c, fs), gs)
    decreases |fs|
  {
    if fs == [] {
      assert fs + gs == gs;
    } else {
      LegalConcat(p, Apply(p, c, fs[0]), fs[1..], gs);
      assert (fs + gs)[1..] == fs[1..] + gs;
    }
  }

  lemma {:induction false} CountConcat(fs: seq<Firing>, gs: seq<Firing>, f: Firing)
    ensures Count(fs + gs, f) == Count(fs, f) + Count(gs, f)
    decreases |fs|
  {
    if fs == [] {
      assert fs + gs == gs;
    } else {
      CountConcat(fs[1..], gs, f);
      assert (fs + gs)[1..] == fs[1..] + gs;
    }
  }
}
