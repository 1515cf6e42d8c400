/** How a pipeline ends: kernels report the end one after the other, and every stream is freed once. */
module Draining {
  import opened RingArith

  /** Kernel i writes stream i, which kernel i + 1 reads; `caps` is how many elements a stream holds. */
  datatype Pipe = Pipe(kernels: nat, push: seq<nat>, pop: seq<nat>, caps: seq<nat>) {
    predicate Valid() {
      && 1 < kernels && |push| == |pop| == |caps| == kernels - 1
      && forall j :: 0 <= j < kernels - 1 ==> 0 < push[j] && 0 < pop[j]
    }
  }

  /** `queued` elements of the `pushed` ones are left in each stream; `freed` counts calls that free it. */
  datatype State = State(queued: seq<nat>, pushed: seq<nat>, srcDead: seq<bool>, dstDead: seq<bool>, freed: seq<nat>,
                         fired: seq<nat>, dead: seq<bool>)

  datatype Event = Produce(n: nat) | SourceEnds | Fire(i: nat, n: nat) | Ends(i: nat)

  predicate Shaped(p: Pipe, s: State) {
    && p.Valid() && |s.queued| == |s.pushed| == |s.srcDead| == |s.dstDead| == |s.freed| == p.kernels - 1
    && |s.fired| == |s.dead| == p.kernels
  }

  /** Firings that fit the kernel's output, and that its input allows; the source has no input and the last
      kernel no output. */
  predicate OutAllows(p: Pipe, s: State, i: nat, n: nat)
    requires Shaped(p, s) && i < p.kernels
  {
    i < p.kernels - 1 ==> s.queued[i] + n * p.push[i] <= p.caps[i]
  }

  predicate InAllows(p: Pipe, s: State, i: nat, n: nat)
    requires Shaped(p, s) && 0 < i < p.kernels
  {
    n * p.pop[i - 1] <= s.queued[i - 1]
  }

  /** A kernel reports the end when the first stream that allows no firing, output before input, has lost its
      other end. */
  predicate Enabled(p: Pipe, s: State, e: Event)
    requires Shaped(p, s)
  {
    match e
    case Produce(n) => !s.dead[0] && 0 < n && OutAllows(p, s, 0, n)
    case SourceEnds => !s.dead[0]
    case Fire(i, n) => 0 < i < p.kernels && !s.dead[i] && 0 < n && OutAllows(p, s, i, n) && InAllows(p, s, i, n)
    case Ends(i) => 0 < i < p.kernels && !s.dead[i]
                    && (if !OutAllows(p, s, i, 1) then s.dstDead[i] else !InAllows(p, s, i, 1) && s.srcDead[i - 1])
  }

  function Add(a: seq<nat>, i: nat, n: nat): (r: seq<nat>)
    ensures |r| == |a|
  {
    if i < |a| then a[i := a[i] + n] else a
  }

  /** Both ends of the kernel's streams: each is marked dead, and freed if the other end is dead too. */
  function Done(p: Pipe, s: State, i: nat): (r: State)
    requires Shaped(p, s) && i < p.kernels
    ensures Shaped(p, r)
  {
    var s1 := if i == 0 then s
              else s.(dstDead := s.dstDead[i - 1 := true],
                      freed := if s.srcDead[i - 1] then Add(s.freed, i - 1, 1) else s.freed);
    var s2 := if i == p.kernels - 1 then s1
              else s1.(srcDead := s1.srcDead[i := true],
                       freed := if s1.dstDead[i] then Add(s1.freed, i, 1) else s1.freed);
    s2.(dead := s2.dead[i := true])
  }

  /** n firings of kernel i move n times its rates. */
  function Moved(p: Pipe, s: State, i: nat, n: nat): (r: State)
    requires Shaped(p, s) && i < p.kernels && (i > 0 ==> InAllows(p, s, i, n))
    ensures Shaped(p, r)
  {
    var s1 := if i == 0 then s else s.(queued := s.queued[i - 1 := s.queued[i - 1] - n * p.pop[i - 1]]);
    var s2 := if i == p.kernels - 1 then s1
              else s1.(queued := Add(s1.queued, i, n * p.push[i]), pushed := Add(s1.pushed, i, n * p.push[i]));
    s2.(fired := Add(s2.fired, i, n))
  }

  function Apply(p: Pipe, s: State, e: Event): (r: State)
    requires Shaped(p, s) && Enabled(p, s, e)
    ensures Shaped(p, r)
  {
    match e
    case Produce(n) => Moved(p, s, 0, n)
    case SourceEnds => Done(p, s, 0)
    case Fire(i, n) => Moved(p, s, i, n)
    case Ends(i) => Done(p, s, i)
  }

  // ---- the invariant ----

  /** A stream's ends are dead with their kernels, its reader after its writer; it is freed when both are; every
      firing of its writer has pushed its rate onto it, what is left is what was not popped, and that fits. */
  predicate StreamInv(p: Pipe, s: State, j: nat)
    requires Shaped(p, s) && j < p.kernels - 1
  {
    && s.srcDead[j] == s.dead[j] && s.dstDead[j] == s.dead[j + 1] && (s.dead[j + 1] ==> s.dead[j])
    && s.freed[j] == (if s.srcDead[j] && s.dstDead[j] then 1 else 0)
    && s.pushed[j] == s.fired[j] * p.push[j] == s.queued[j] + s.fired[j + 1] * p.pop[j]
    && s.queued[j] <= p.caps[j]
    && (s.dead[j + 1] ==> s.queued[j] < p.pop[j])
  }

  predicate Inv(p: Pipe, s: State)
    requires Shaped(p, s)
  {
    forall j {:trigger StreamInv(p, s, j)} :: 0 <= j < p.kernels - 1 ==> StreamInv(p, s, j)
  }

  predicate Init(p: Pipe, s: State) {
    && Shaped(p, s)
    && (forall j :: 0 <= j < p.kernels - 1 ==>
        s.queued[j] == s.pushed[j] == s.freed[j] == 0 && !s.srcDead[j] && !s.dstDead[j])
    && (forall i :: 0 <= i < p.kernels ==> s.fired[i] == 0 && !s.dead[i])
  }

  lemma OutputKept(p: Pipe, s: State, i: nat, n: nat)
    requires Shaped(p, s) && i < p.kernels - 1 && StreamInv(p, s, i) && !s.dead[i]
    requires (i > 0 ==> InAllows(p, s, i, n)) && OutAllows(p, s, i, n)
    ensures StreamInv(p, Moved(p, s, i, n), i)
  {
    Distributes(p.push[i], s.fired[i], n);
  }

  lemma InputKept(p: Pipe, s: State, i: nat, n: nat)
    requires Shaped(p, s) && 0 < i < p.kernels && StreamInv(p, s, i - 1) && !s.dead[i] && InAllows(p, s, i, n)
    ensures StreamInv(p, Moved(p, s, i, n), i - 1)
  {
    Distributes(p.pop[i - 1], s.fired[i], n);
    NotNegative(n, p.pop[i - 1]);
  }

  lemma NotNegative(n: nat, rate: nat)
    ensures 0 <= n * rate
  {
  }

  lemma OtherKept(p: Pipe, s: State, i: nat, n: nat, j: nat)
    requires Shaped(p, s) && i < p.kernels && j < p.kernels - 1 && j != i && j + 1 != i && StreamInv(p, s, j)
    requires i > 0 ==> InAllows(p, s, i, n)
    ensures StreamInv(p, Moved(p, s, i, n), j)
  {
  }

  lemma MovedKeepsInv(p: Pipe, s: State, i: nat, n: nat)
    requires Shaped(p, s) && Inv(p, s) && i < p.kernels && !s.dead[i]
    requires (i > 0 ==> InAllows(p, s, i, n)) && OutAllows(p, s, i, n)
    ensures Inv(p, Moved(p, s, i, n))
  {
    hide StreamInv, Moved, OutAllows, InAllows;
    forall j | 0 <= j < p.kernels - 1
      ensures StreamInv(p, Moved(p, s, i, n), j)
    {
      assert StreamInv(p, s, j);
      if j == i {
        OutputKept(p, s, i, n);
      } else if j + 1 == i {
        InputKept(p, s, i, n);
      } else {
        OtherKept(p, s, i, n, j);
      }
    }
  }

  lemma DoneKeepsInv(p: Pipe, s: State, i: nat)
    requires Shaped(p, s) && Inv(p, s) && i < p.kernels && !s.dead[i]
    requires i > 0 ==> s.dead[i - 1] && s.queued[i - 1] < p.pop[i - 1]
    ensures Inv(p, Done(p, s, i))
  {
    var s' := Done(p, s, i);
    forall j | 0 <= j < p.kernels - 1
      ensures StreamInv(p, s', j)
    {
      assert StreamInv(p, s, j);
    }
  }

  lemma StepKeepsInv(p: Pipe, s: State, e: Event)
    requires Shaped(p, s) && Inv(p, s) && Enabled(p, s, e)
    ensures Inv(p, Apply(p, s, e))
  {
    match e
    case Produce(n) => MovedKeepsInv(p, s, 0, n);
    case SourceEnds => DoneKeepsInv(p, s, 0);
    case Fire(i, n) => MovedKeepsInv(p, s, i, n);
    case Ends(i) =>
      assert StreamInv(p, s, i - 1);
      if i < p.kernels - 1 {
        assert StreamInv(p, s, i);
      }
      DoneKeepsInv(p, s, i);
  }

  predicate Run(p: Pipe, s: State, es: seq<Event>)
    requires Shaped(p, s)
    decreases |es|
  {
    es == [] || (Enabled(p, s, es[0]) && Run(p, Apply(p, s, es[0]), es[1..]))
  }

  function After(p: Pipe, s: State, es: seq<Event>): (r: State)
    requires Shaped(p, s) && Run(p, s, es)
    ensures Shaped(p, r)
    decreases |es|
  {
    if es == [] then s else After(p, Apply(p, s, es[0]), es[1..])
  }

  lemma {:induction false} RunKeepsInv(p: Pipe, s: State, es: seq<Event>)
    requires Shaped(p, s) && Inv(p, s) && Run(p, s, es)
    ensures Inv(p, After(p, s, es))
    decreases |es|
  {
    hide Inv, Apply, Enabled;
    if es != [] {
      StepKeepsInv(p, s, es[0]);
      RunKeepsInv(p, Apply(p, s, es[0]), es[1..]);
    }
  }

  lemma InitInv(p: Pipe, s: State)
    requires Init(p, s)
    ensures Inv(p, s)
  {
    forall j | 0 <= j < p.kernels - 1
      ensures StreamInv(p, s, j)
    {
    }
  }

  // ---- the counts are those of the run ----

  function FiringsIn(e: Event, i: nat): nat {
    match e
    case Produce(n) => if i == 0 then n else 0
    case Fire(k, n) => if i == k then n else 0
    case _ => 0
  }

  /** The firings that a run makes of kernel i. */
  function Firings(es: seq<Event>, i: nat): nat {
    if es == [] then 0 else FiringsIn(es[0], i) + Firings(es[1..], i)
  }

  function EndOf(i: nat): Event {
    if i == 0 then SourceEnds else Ends(i)
  }

  /** A kernel's count is that of the firings the run makes, and it is dead if and only if the run ends it. */
  lemma {:induction false} CountsAreTheRuns(p: Pipe, s: State, es: seq<Event>, i: nat)
    requires Shaped(p, s) && Run(p, s, es) && i < p.kernels
    ensures After(p, s, es).fired[i] == s.fired[i] + Firings(es, i)
    ensures After(p, s, es).dead[i] <==> s.dead[i] || EndOf(i) in es
    decreases |es|
  {
    if es != [] {
      var s' := Apply(p, s, es[0]);
      assert s'.fired[i] == s.fired[i] + FiringsIn(es[0], i) && (s'.dead[i] <==> s.dead[i] || es[0] == EndOf(i));
      CountsAreTheRuns(p, s', es[1..], i);
    }
  }

  /** In every reachable state: the firings of a stream's writer and reader account for what it holds, which fits
      it; a kernel that has reported the end has made exactly as many firings as those of its writer feed, and its
      writer had ended before it; a stream has been freed exactly once if both its ends are dead and not at all
      otherwise. */
  lemma EndsDrained(p: Pipe, s0: State, es: seq<Event>, j: nat)
    requires Init(p, s0) && Run(p, s0, es) && j < p.kernels - 1
    ensures var s := After(p, s0, es);
            && s.fired[j] == Firings(es, j) && s.fired[j + 1] == Firings(es, j + 1)
            && s.queued[j] + s.fired[j + 1] * p.pop[j] == s.fired[j] * p.push[j] && s.queued[j] <= p.caps[j]
            && (s.dead[j + 1] ==> s.dead[j] && s.fired[j + 1] == Fed(p, s.fired[j], j))
            && s.freed[j] == (if s.dead[j] && s.dead[j + 1] then 1 else 0)
  {
    InitInv(p, s0);
    RunKeepsInv(p, s0, es);
    FiredAsFed(p, After(p, s0, es), j);
    CountsAreTheRuns(p, s0, es, j);
    CountsAreTheRuns(p, s0, es, j + 1);
  }

  /** How many firings of the reader of stream j n firings of its writer feed. */
  function Fed(p: Pipe, n: nat, j: nat): nat
    requires p.Valid() && j < p.kernels - 1
  {
    QuotientOf(n * p.push[j], p.pop[j]);
    (n * p.push[j]) / p.pop[j]
  }

  lemma QuotientOf(items: int, pop: nat)
    requires 0 < pop && 0 <= items
    ensures 0 <= items / pop
  {
  }

  lemma FiredAsFed(p: Pipe, s: State, j: nat)
    requires Shaped(p, s) && Inv(p, s) && j < p.kernels - 1
    ensures StreamInv(p, s, j)
    ensures s.dead[j + 1] ==> s.fired[j + 1] == Fed(p, s.fired[j], j)
  {
    assert StreamInv(p, s, j);
    if s.dead[j + 1] {
      ModIs(s.fired[j] * p.push[j], s.fired[j + 1], s.queued[j], p.pop[j]);
    }
  }

  /** How many firings of kernel i n firings of the source feed, through all the kernels between. */
  function FedBySource(p: Pipe, n: nat, i: nat): nat
    requires p.Valid() && i < p.kernels
  {
    if i == 0 then n else Fed(p, FedBySource(p, n, i - 1), i - 1)
  }

  /** Once all kernels up to i have ended, the firings of the source alone decide how often kernel i has fired. */
  lemma {:induction false} FiringsAreDecided(p: Pipe, s: State, i: nat)
    requires Shaped(p, s) && Inv(p, s) && i < p.kernels && forall k :: 0 <= k <= i ==> s.dead[k]
    ensures s.fired[i] == FedBySource(p, s.fired[0], i)
  {
    if i > 0 {
      FiringsAreDecided(p, s, i - 1);
      FiredAsFed(p, s, i - 1);
    }
  }

  // ---- the drain does not get stuck ----

  /** Every stream holds what its writer pushes in a firing on top of less than its reader pops in one. */
  predicate Roomy(p: Pipe)
    requires p.Valid()
  {
    forall j :: 0 <= j < p.kernels - 1 ==> p.pop[j] + p.push[j] <= p.caps[j] + 1
  }

  lemma CanPush(p: Pipe, s: State, i: nat)
    requires Shaped(p, s) && Roomy(p) && i < p.kernels && (i < p.kernels - 1 ==> s.queued[i] < p.pop[i])
    ensures OutAllows(p, s, i, 1)
  {
  }

  /** The last kernel from `from` on that has enough input to fire, if there is one. */
  lemma {:induction false} LastHungry(p: Pipe, s: State, from: nat) returns (i: nat)
    requires Shaped(p, s) && 0 < from < p.kernels
    ensures from <= i <= p.kernels && (i < p.kernels ==> s.queued[i - 1] >= p.pop[i - 1])
    ensures forall j :: (if i < p.kernels then i else from - 1) <= j < p.kernels - 1 ==> s.queued[j] < p.pop[j]
    decreases p.kernels - from
  {
    if from + 1 < p.kernels {
      i := LastHungry(p, s, from + 1);
      if i == p.kernels && s.queued[from - 1] >= p.pop[from - 1] {
        i := from;
      }
    } else {
      i := if s.queued[from - 1] >= p.pop[from - 1] then from else p.kernels;
    }
  }

  /** After the source has ended, as long as a kernel is alive one of them can fire or end. */
  lemma DrainGoesOn(p: Pipe, s: State, m: nat) returns (e: Event)
    requires Shaped(p, s) && Inv(p, s) && Roomy(p) && 0 < m < p.kernels && s.dead[m - 1] && !s.dead[m]
    ensures Enabled(p, s, e) && (e.Fire? || e.Ends?)
  {
    var i := LastHungry(p, s, m);
    if i < p.kernels {
      StaysAlive(p, s, m, i);
      CanPush(p, s, i);
      e := Fire(i, 1);
    } else {
      assert StreamInv(p, s, m - 1);
      CanPush(p, s, m);
      e := Ends(m);
    }
  }

  lemma {:induction false} StaysAlive(p: Pipe, s: State, m: nat, i: nat)
    requires Shaped(p, s) && Inv(p, s) && m <= i < p.kernels && !s.dead[m]
    ensures !s.dead[i]
    decreases i
  {
    if m < i {
      StaysAlive(p, s, m, i - 1);
      assert StreamInv(p, s, i - 1);
    }
  }

  // ---- and comes to an end ----

  /** At most how many firings further on one element of stream j can cause, and one. */
  function Weight(p: Pipe, j: nat): (w: nat)
    requires p.Valid() && j < p.kernels - 1
    ensures 0 < w
    decreases p.kernels - j
  {
    if j == p.kernels - 2 then 1 else p.push[j + 1] * Weight(p, j + 1) + 1
  }

  function Load(p: Pipe, queued: seq<nat>, j: nat): nat
    requires p.Valid() && j <= p.kernels - 1 == |queued|
  {
    if j == 0 then 0 else Load(p, queued, j - 1) + queued[j - 1] * Weight(p, j - 1)
  }

  function Alive(dead: seq<bool>, i: nat): nat
    requires i <= |dead|
  {
    if i == 0 then 0 else Alive(dead, i - 1) + if dead[i - 1] then 0 else 1
  }

  /** What is left to do once the source has ended. */
  function Measure(p: Pipe, s: State): nat
    requires Shaped(p, s)
  {
    Load(p, s.queued, p.kernels - 1) + Alive(s.dead, p.kernels)
  }

  lemma {:induction false} LoadChange(p: Pipe, queued: seq<nat>, k: nat, v: nat, j: nat)
    requires p.Valid() && k < p.kernels - 1 == |queued| && j <= p.kernels - 1
    ensures Load(p, queued[k := v], j) == Load(p, queued, j) + if k < j then (v - queued[k]) * Weight(p, k) else 0
  {
    hide Weight;
    if j > 0 {
      LoadChange(p, queued, k, v, j - 1);
      if k == j - 1 {
        Difference(v, queued[k], Weight(p, k));
      }
    }
  }

  lemma Difference(v: int, q: int, w: int)
    ensures v * w == q * w + (v - q) * w
  {
  }

  lemma {:induction false} OneLessAlive(dead: seq<bool>, k: nat, i: nat)
    requires k < |dead| && !dead[k] && i <= |dead|
    ensures Alive(dead[k := true], i) == Alive(dead, i) - if k < i then 1 else 0
  {
    if i > 0 {
      OneLessAlive(dead, k, i - 1);
    }
  }

  lemma FiringLightens(n: nat, pop: nat, push: nat, w: nat, next: nat)
    requires 0 < n && 0 < pop && w == push * next + 1
    ensures n * push * next < n * pop * w
  {
    assert n * pop * w == n * w + n * (pop - 1) * w;
    assert n * w == n * (push * next) + n;
    assert n * (pop - 1) * w >= 0;
  }

  lemma FireShrinks(p: Pipe, s: State, i: nat, n: nat)
    requires Shaped(p, s) && 0 < i < p.kernels && 0 < n && InAllows(p, s, i, n)
    ensures Load(p, Moved(p, s, i, n).queued, p.kernels - 1) < Load(p, s.queued, p.kernels - 1)
  {
    var q := s.queued;
    var taken := q[i - 1] - n * p.pop[i - 1];
    LoadChange(p, q, i - 1, taken, p.kernels - 1);
    assert (taken - q[i - 1]) * Weight(p, i - 1) == -(n * p.pop[i - 1] * Weight(p, i - 1));
    if i == p.kernels - 1 {
      FiringLightens(n, p.pop[i - 1], 0, 1, 0);
    } else {
      var q1 := q[i - 1 := taken];
      LoadChange(p, q1, i, q1[i] + n * p.push[i], p.kernels - 1);
      FiringLightens(n, p.pop[i - 1], p.push[i], Weight(p, i - 1), Weight(p, i));
    }
  }

  lemma StepShrinks(p: Pipe, s: State, e: Event)
    requires Shaped(p, s) && s.dead[0] && Enabled(p, s, e)
    ensures Apply(p, s, e).dead[0] && Measure(p, Apply(p, s, e)) < Measure(p, s)
  {
    match e
    case Fire(i, n) => FireShrinks(p, s, i, n);
    case Ends(i) => OneLessAlive(s.dead, i, p.kernels);
  }

  /** However its steps are ordered, a drain has no more of them than its measure says at the start. */
  lemma {:induction false} DrainIsBounded(p: Pipe, s: State, es: seq<Event>)
    requires Shaped(p, s) && s.dead[0] && Run(p, s, es)
    ensures After(p, s, es).dead[0] && |es| + Measure(p, After(p, s, es)) <= Measure(p, s)
    decreases |es|
  {
    hide Measure;
    if es != [] {
      StepShrinks(p, s, es[0]);
      DrainIsBounded(p, Apply(p, s, es[0]), es[1..]);
    }
  }

  /** The first kernel alive after a dead one. */
  lemma {:induction false} FirstAlive(dead: seq<bool>, i: nat) returns (m: nat)
    requires i < |dead| && dead[0] && !dead[i]
    ensures 0 < m <= i && dead[m - 1] && !dead[m]
  {
    if dead[i - 1] {
      m := i;
    } else {
      m := FirstAlive(dead, i - 1);
    }
  }

  /** So after the source has ended every run makes boundedly many steps, and one that cannot go on has ended all
      kernels and freed every stream once; every kernel has fired as often as the firings of the source feed it,
      in whatever order. */
  lemma DrainTerminates(p: Pipe, s0: State, es: seq<Event>, more: seq<Event>)
    requires Init(p, s0) && Roomy(p) && Run(p, s0, es) && After(p, s0, es).dead[0] && Run(p, After(p, s0, es), more)
    ensures |more| <= Measure(p, After(p, s0, es))
    ensures var s := After(p, After(p, s0, es), more);
            (forall e :: !Enabled(p, s, e)) ==>
              && (forall i :: 0 <= i < p.kernels ==> s.dead[i] && s.fired[i] == FedBySource(p, s.fired[0], i))
              && (forall j :: 0 <= j < p.kernels - 1 ==> s.freed[j] == 1)
  {
    InitInv(p, s0);
    RunKeepsInv(p, s0, es);
    var s1 := After(p, s0, es);
    DrainIsBounded(p, s1, more);
    RunKeepsInv(p, s1, more);
    AllEnded(p, After(p, s1, more));
  }

  lemma AllEnded(p: Pipe, s: State)
    requires Shaped(p, s) && Inv(p, s) && Roomy(p) && s.dead[0]
    ensures (forall e :: !Enabled(p, s, e)) ==>
              && (forall i :: 0 <= i < p.kernels ==> s.dead[i] && s.fired[i] == FedBySource(p, s.fired[0], i))
              && (forall j :: 0 <= j < p.kernels - 1 ==> s.freed[j] == 1)
  {
    if i :| 0 <= i < p.kernels && !s.dead[i] {
      var m := FirstAlive(s.dead, i);
      var e := DrainGoesOn(p, s, m);
    } else {
      forall i | 0 <= i < p.kernels
        ensures s.fired[i] == FedBySource(p, s.fired[0], i)
      {
        FiringsAreDecided(p, s, i);
      }
      forall j | 0 <= j < p.kernels - 1
        ensures s.freed[j] == 1
      {
        assert StreamInv(p, s, j);
      }
    }
  }

  // ---- ending a kernel, on stream objects ----

  class Stream {
    var srcDead: bool
    var dstDead: bool
    var freed: nat

    constructor ()
      ensures !srcDead && !dstDead && freed == 0
    {
      srcDead, dstDead, freed := false, false, 0;
    }

    /** `free_skir_stream_t`: the second end to die frees the stream. */
    method Free()
      requires srcDead || dstDead
      modifies `freed
      ensures freed == old(freed) + (if srcDead && dstDead then 1 else 0)
    {
      if srcDead && dstDead {
        freed := freed + 1;
      }
    }
  }

  class RuntimeKernel {
    var implIns: seq<Stream>
    var implOuts: seq<Stream>

    constructor (ins: seq<Stream>, outs: seq<Stream>)
      ensures implIns == ins && implOuts == outs
    {
      implIns, implOuts := ins, outs;
    }

    /** Marks the kernel's ends dead and lets go of the streams, so that a second call does nothing. */
    method Done()
      requires forall i, j :: 0 <= i < j < |implIns| ==> implIns[i] != implIns[j]
      requires forall i, j :: 0 <= i < j < |implOuts| ==> implOuts[i] != implOuts[j]
      requires forall i, j :: 0 <= i < |implIns| && 0 <= j < |implOuts| ==> implIns[i] != implOuts[j]
      modifies this, implIns, implOuts
      ensures implIns == implOuts == []
      ensures forall s :: s in old(implIns) ==> s.dstDead && s.srcDead == old(s.srcDead)
                                                && s.freed == old(s.freed) + (if s.srcDead then 1 else 0)
      ensures forall s :: s in old(implOuts) ==> s.srcDead && s.dstDead == old(s.dstDead)
                                                 && s.freed == old(s.freed) + (if s.dstDead then 1 else 0)
    {
      var ins, outs := implIns, implOuts;
      implIns, implOuts := [], [];
      var i := 0;
      while i < |ins|
        invariant 0 <= i <= |ins| && implIns == implOuts == []
        invariant forall k :: 0 <= k < i ==> ins[k].dstDead && ins[k].srcDead == old(ins[k].srcDead)
                                             && ins[k].freed == old(ins[k].freed) + (if ins[k].srcDead then 1 else 0)
        invariant forall k :: i <= k < |ins| ==>
                ins[k].srcDead == old(ins[k].srcDead) && ins[k].freed == old(ins[k].freed)
        invariant forall k :: 0 <= k < |outs| ==>
                outs[k].dstDead == old(outs[k].dstDead) && outs[k].freed == old(outs[k].freed)
      {
        ins[i].dstDead := true;
        ins[i].Free();
        i := i + 1;
      }
      i := 0;
      while i < |outs|
        invariant 0 <= i <= |outs| && implIns == implOuts == []
        invariant forall k :: 0 <= k < |ins| ==> ins[k].dstDead && ins[k].srcDead == old(ins[k].srcDead)
                                                 && ins[k].freed == old(ins[k].freed)
                                                     + (if ins[k].srcDead then 1 else 0)
        invariant forall k :: 0 <= k < i ==> outs[k].srcDead && outs[k].dstDead == old(outs[k].dstDead)
                                             && outs[k].freed == old(outs[k].freed) + (if outs[k].dstDead then 1 else 0)
        invariant forall k :: i <= k < |outs| ==>
                outs[k].dstDead == old(outs[k].dstDead) && outs[k].freed == old(outs[k].freed)
      {
        outs[i].srcDead := true;
        outs[i].Free();
        i := i + 1;
      }
    }
  }
}
