/** The fused kernel: two loops around a linear buffer instead of the shared stream. */
module FusedWork {
  import opened RingArith
  import opened FusionMeaning

  /** n firings of one kernel. */
  function Repeat(f: Firing, n: nat): (fs: seq<Firing>)
    ensures |fs| == n && Count(fs, f) == n
    ensures forall g {:trigger Count(fs, g)} :: g != f ==> Count(fs, g) == 0
    decreases n
  {
    if n == 0 then [] else [f] + Repeat(f, n - 1)
  }

  /** One firing of the fused kernel as a schedule. */
  function Round(niter0: nat, niter1: nat): seq<Firing> {
    Repeat(Up, niter0) + Repeat(Down, niter1)
  }

  function Rounds(niter0: nat, niter1: nat, m: nat): seq<Firing>
    decreases m
  {
    if m == 0 then [] else Round(niter0, niter1) + Rounds(niter0, niter1, m - 1)
  }

  lemma Peel(m: nat, n: nat)
    requires 0 < m
    ensures m * n == n + (m - 1) * n && (m - 1) * n >= 0
  {
  }

  lemma {:induction false} RoundsCount(niter0: nat, niter1: nat, m: nat)
    ensures Count(Rounds(niter0, niter1, m), Up) == m * niter0
    ensures Count(Rounds(niter0, niter1, m), Down) == m * niter1
    decreases m
  {
    if m > 0 {
      RoundsCount(niter0, niter1, m - 1);
      var (round, rest) := (Round(niter0, niter1), Rounds(niter0, niter1, m - 1));
      CountConcat(Repeat(Up, niter0), Repeat(Down, niter1), Up);
      CountConcat(Repeat(Up, niter0), Repeat(Down, niter1), Down);
      CountConcat(round, rest, Up);
      CountConcat(round, rest, Down);
      Peel(m, niter0);
      Peel(m, niter1);
    }
  }

  lemma {:induction false} UpsAreLegal<S0(!new), S1, X(!new), Y>(p: Pair<S0, S1, X, Y>, c: System<S0, S1, X, Y>, n: nat)
    requires FixedRate(p) && n <= |c.in0|
    ensures Legal(p, c, Repeat(Up, n))
    ensures var d := After(p, c, Repeat(Up, n));
            d.in0 == c.in0[n..] && d.in1 == c.in1 && |d.queue| == |c.queue| + n * p.push
    decreases n
  {
    if n > 0 {
      var c1 := Apply(p, c, Up);
      assert |p.fire0(c.s0, c.in0[0]).2| == p.push;
      UpsAreLegal(p, c1, n - 1);
      assert Repeat(Up, n)[1..] == Repeat(Up, n - 1);
      assert c1.in0[n - 1..] == c.in0[n..];
      Peel(n, p.push);
    }
  }

  lemma {:induction false} DownsAreLegal<S0, S1, X, Y>(p: Pair<S0, S1, X, Y>, c: System<S0, S1, X, Y>, n: nat)
    requires n <= |c.in1| && n * p.pop <= |c.queue|
    ensures Legal(p, c, Repeat(Down, n))
    ensures var d := After(p, c, Repeat(Down, n));
            d.in0 == c.in0 && d.in1 == c.in1[n..] && |d.queue| == |c.queue| - n * p.pop
    decreases n
  {
    if n > 0 {
      Peel(n, p.pop);
      var c1 := Apply(p, c, Down);
      DownsAreLegal(p, c1, n - 1);
      assert Repeat(Down, n)[1..] == Repeat(Down, n - 1);
      assert c1.in1[n - 1..] == c.in1[n..];
    }
  }

  /** How many elements n firings move. */
  function Moved(n: nat, rate: nat): nat {
    n * rate
  }

  /** What the upstream firings of a round push is what the downstream firings pop. */
  predicate RatesMatch<S0, S1, X, Y>(p: Pair<S0, S1, X, Y>, niter0: nat, niter1: nat) {
    Moved(niter0, p.push) == Moved(niter1, p.pop)
  }

  /** With matched rates a round is legal on an empty queue and leaves it empty. */
  lemma RoundIsLegal<S0(!new), S1, X(!new), Y>(p: Pair<S0, S1, X, Y>, c: System<S0, S1, X, Y>, niter0: nat, niter1: nat)
    requires FixedRate(p) && c.queue == [] && niter0 <= |c.in0| && niter1 <= |c.in1| && RatesMatch(p, niter0, niter1)
    ensures Legal(p, c, Round(niter0, niter1))
    ensures var d := After(p, c, Round(niter0, niter1));
            d.queue == [] && d.in0 == c.in0[niter0..] && d.in1 == c.in1[niter1..]
  {
    UpsAreLegal(p, c, niter0);
    DownsAreLegal(p, After(p, c, Repeat(Up, niter0)), niter1);
    LegalConcat(p, c, Repeat(Up, niter0), Repeat(Down, niter1));
  }

  lemma FirstRound<S0(!new), S1, X(!new), Y>(p: Pair<S0, S1, X, Y>, c: System<S0, S1, X, Y>, niter0: nat, niter1: nat,
                                             rest0: nat, rest1: nat)
    returns (d: System<S0, S1, X, Y>)
    requires FixedRate(p) && c.queue == [] && RatesMatch(p, niter0, niter1)
    requires niter0 + rest0 <= |c.in0| && niter1 + rest1 <= |c.in1|
    ensures Legal(p, c, Round(niter0, niter1)) && d == After(p, c, Round(niter0, niter1))
    ensures d.queue == [] && rest0 <= |d.in0| && rest1 <= |d.in1|
  {
    RoundIsLegal(p, c, niter0, niter1);
    d := After(p, c, Round(niter0, niter1));
  }

  lemma {:induction false} RoundsAreLegal<S0(!new), S1, X(!new), Y>(p: Pair<S0, S1, X, Y>, c: System<S0, S1, X, Y>,
                                                                            niter0: nat, niter1: nat, m: nat)
    requires FixedRate(p) && c.queue == [] && RatesMatch(p, niter0, niter1)
    requires m * niter0 <= |c.in0| && m * niter1 <= |c.in1|
    ensures Legal(p, c, Rounds(niter0, niter1, m)) && After(p, c, Rounds(niter0, niter1, m)).queue == []
    decreases m
  {
    hide Round, FixedRate, RatesMatch;
    if m > 0 {
      Peel(m, niter0);
      Peel(m, niter1);
      var d := FirstRound(p, c, niter0, niter1, (m - 1) * niter0, (m - 1) * niter1);
      RoundsAreLegal(p, d, niter0, niter1, m - 1);
      LegalConcat(p, c, Round(niter0, niter1), Rounds(niter0, niter1, m - 1));
    }
  }

  /** Fusion preserves meaning: if any legal schedule of the two kernels, started with the shared stream
      empty, makes m times niter0 and m times niter1 firings, then m firings of the fused kernel can run and
      end in the same kernel states, with the same output, the same input left over and an empty stream. */
  lemma FusionPreservesMeaning<S0(!new), S1, X(!new), Y>(p: Pair<S0, S1, X, Y>, c: System<S0, S1, X, Y>,
                                                         niter0: nat, niter1: nat, m: nat, fs: seq<Firing>)
    requires FixedRate(p) && c.queue == [] && RatesMatch(p, niter0, niter1)
    requires Legal(p, c, fs) && Count(fs, Up) == m * niter0 && Count(fs, Down) == m * niter1
    ensures Legal(p, c, Rounds(niter0, niter1, m))
    ensures After(p, c, Rounds(niter0, niter1, m)) == After(p, c, fs) && After(p, c, fs).queue == []
  {
    OrderDoesNotMatter(p, c, fs);
    RoundsAreLegal(p, c, niter0, niter1, m);
    RoundsCount(niter0, niter1, m);
    SchedulesAgree(p, c, fs, Rounds(niter0, niter1, m));
  }

  // ---- the linear buffer ----

  /** The buffer holds these elements from its start. */
  ghost predicate Filled(buf: seq<byte>, items: seq<Elem>) {
    ES * |items| <= |buf| && forall i {:trigger items[i]} :: 0 <= i < |items| ==>
        |items[i]| == ES && ReadAt(buf, ES * i, ES) == items[i]
  }

  lemma FilledMore(buf: seq<byte>, items: seq<Elem>, e: Elem)
    requires Filled(buf, items) && |e| == ES && ES * |items| + ES <= |buf|
    ensures Filled(WriteAt(buf, ES * |items|, e), items + [e])
  {
    var all := items + [e];
    forall i | 0 <= i < |all|
      ensures |all[i]| == ES && ReadAt(WriteAt(buf, ES * |items|, e), ES * i, ES) == all[i]
    {
      if i < |items| {
        assert all[i] == items[i];
        ReadElsewhere(buf, ES * |items|, e, ES * i, ES);
      } else {
        ReadBack(buf, ES * |items|, e);
      }
    }
  }

  method PushFuse(buf: array<byte>, idx: nat, e: Elem) returns (next: nat)
    requires |e| == ES && idx + ES <= buf.Length
    modifies buf
    ensures buf[..] == WriteAt(old(buf[..]), idx, e) && next == idx + ES
  {
    forall k | 0 <= k < |e| {
      buf[idx + k] := e[k];
    }
    next := idx + 4;
  }

  method PopFuse(buf: array<byte>, idx: nat) returns (e: Elem, next: nat)
    requires idx + ES <= buf.Length
    ensures e == ReadAt(buf[..], idx, ES) && next == idx + ES
  {
    e := buf[idx..idx + ES];
    next := idx + 4;
  }

  /** The pushes of one upstream firing. */
  method PushAll(buf: array<byte>, wr: nat, es: seq<Elem>, ghost items: seq<Elem>) returns (next: nat)
    requires Filled(buf[..], items) && wr == ES * |items| && wr + ES * |es| <= buf.Length
    requires forall i {:trigger es[i]} :: 0 <= i < |es| ==> |es[i]| == ES
    modifies buf
    ensures Filled(buf[..], items + es) && next == ES * |items + es|
  {
    next := wr;
    var j := 0;
    assert items + es[..0] == items;
    while j < |es|
      invariant 0 <= j <= |es| && Filled(buf[..], items + es[..j]) && next == wr + ES * j
    {
      FilledMore(buf[..], items + es[..j], es[j]);
      next := PushFuse(buf, next, es[j]);
      assert items + es[..j] + [es[j]] == items + es[..j + 1];
      j := j + 1;
    }
    assert items + es[..|es|] == items + es;
  }

  /** The pops of one downstream firing. */
  method PopAll(buf: array<byte>, rd: nat, n: nat, ghost items: seq<Elem>, ghost read: nat)
    returns (es: seq<Elem>, next: nat)
    requires Filled(buf[..], items) && rd == ES * read && read + n <= |items|
    ensures es == items[read..read + n] && next == ES * (read + n)
  {
    es, next := [], rd;
    var j := 0;
    while j < n
      invariant 0 <= j <= n && es == items[read..read + j] && next == ES * (read + j)
    {
      var e;
      e, next := PopFuse(buf, next);
      assert e == items[read + j];
      es := es + [e];
      j := j + 1;
    }
  }

  // ---- the fused kernel ----

  /** None of the first n firings upstream stops. */
  ghost predicate UpsGoOn<S0, S1, X, Y>(p: Pair<S0, S1, X, Y>, stop0: S0 -> bool, c: System<S0, S1, X, Y>, n: nat) {
    forall i {:trigger Repeat(Up, i)} :: 0 < i <= n ==>
      Legal(p, c, Repeat(Up, i)) && !stop0(After(p, c, Repeat(Up, i)).s0)
  }

  ghost predicate DownsGoOn<S0, S1, X, Y>(p: Pair<S0, S1, X, Y>, stop1: S1 -> bool, c: System<S0, S1, X, Y>, n: nat) {
    forall i {:trigger Repeat(Down, i)} :: 0 < i <= n ==>
      Legal(p, c, Repeat(Down, i)) && !stop1(After(p, c, Repeat(Down, i)).s1)
  }

  lemma OneMoreUp<S0, S1, X, Y>(p: Pair<S0, S1, X, Y>, stop0: S0 -> bool, c: System<S0, S1, X, Y>, n: nat)
    requires Legal(p, c, Repeat(Up, n)) && Enabled(p, After(p, c, Repeat(Up, n)), Up)
    ensures Legal(p, c, Repeat(Up, n + 1))
    ensures After(p, c, Repeat(Up, n + 1)) == Apply(p, After(p, c, Repeat(Up, n)), Up)
    ensures UpsGoOn(p, stop0, c, n) && !stop0(After(p, c, Repeat(Up, n + 1)).s0) ==> UpsGoOn(p, stop0, c, n + 1)
  {
    OneMore(Up, n);
    LegalConcat(p, c, Repeat(Up, n), [Up]);
  }

  lemma OneMoreDown<S0, S1, X, Y>(p: Pair<S0, S1, X, Y>, stop1: S1 -> bool, c: System<S0, S1, X, Y>, n: nat)
    requires Legal(p, c, Repeat(Down, n)) && Enabled(p, After(p, c, Repeat(Down, n)), Down)
    ensures Legal(p, c, Repeat(Down, n + 1))
    ensures After(p, c, Repeat(Down, n + 1)) == Apply(p, After(p, c, Repeat(Down, n)), Down)
    ensures DownsGoOn(p, stop1, c, n) && !stop1(After(p, c, Repeat(Down, n + 1)).s1) ==> DownsGoOn(p, stop1, c, n + 1)
  {
    OneMore(Down, n);
    LegalConcat(p, c, Repeat(Down, n), [Down]);
  }

  lemma NoneYet<S0, S1, X, Y>(p: Pair<S0, S1, X, Y>, stop0: S0 -> bool, stop1: S1 -> bool, c: System<S0, S1, X, Y>)
    ensures Legal(p, c, Repeat(Up, 0)) && After(p, c, Repeat(Up, 0)) == c && UpsGoOn(p, stop0, c, 0)
    ensures Legal(p, c, Repeat(Down, 0)) && After(p, c, Repeat(Down, 0)) == c && DownsGoOn(p, stop1, c, 0)
  {
  }

  lemma MidRound<S0(!new), S1, X(!new), Y>(p: Pair<S0, S1, X, Y>, c: System<S0, S1, X, Y>, niter0: nat, niter1: nat)
    requires FixedRate(p) && niter0 <= |c.in0| && RatesMatch(p, niter0, niter1)
    ensures 0 < p.push && 0 < p.pop && Legal(p, c, Repeat(Up, niter0))
    ensures Moved(niter0, p.push) == Moved(niter1, p.pop) && Moved(0, p.pop) == 0
  {
    UpsAreLegal(p, c, niter0);
  }

  /** No firing of the round that starts in c stops. */
  ghost predicate RoundGoesOn<S0, S1, X, Y>(p: Pair<S0, S1, X, Y>, stop0: S0 -> bool, stop1: S1 -> bool,
                                            c: System<S0, S1, X, Y>, niter0: nat, niter1: nat) {
    && UpsGoOn(p, stop0, c, niter0) && Legal(p, c, Repeat(Up, niter0))
    && DownsGoOn(p, stop1, After(p, c, Repeat(Up, niter0)), niter1)
  }

  /** No upstream firing of the round that starts in c stops, and no downstream one but possibly the last. */
  ghost predicate RoundKeepsAll<S0, S1, X, Y>(p: Pair<S0, S1, X, Y>, stop0: S0 -> bool, stop1: S1 -> bool,
                                              c: System<S0, S1, X, Y>, niter0: nat, niter1: nat) {
    && UpsGoOn(p, stop0, c, niter0) && Legal(p, c, Repeat(Up, niter0))
    && (niter1 > 0 ==> DownsGoOn(p, stop1, After(p, c, Repeat(Up, niter0)), niter1 - 1))
  }

  /** None of the m rounds from c on stops. */
  ghost predicate BatchGoesOn<S0, S1, X, Y>(p: Pair<S0, S1, X, Y>, stop0: S0 -> bool, stop1: S1 -> bool,
                                            c: System<S0, S1, X, Y>, niter0: nat, niter1: nat, m: nat)
    decreases m
  {
    m == 0 || (RoundGoesOn(p, stop0, stop1, c, niter0, niter1) && Legal(p, c, Round(niter0, niter1))
               && BatchGoesOn(p, stop0, stop1, After(p, c, Round(niter0, niter1)), niter0, niter1, m - 1))
  }

  /** Every one of the m rounds from c on that is started keeps all its elements: the next round is not started
      after one that stops. */
  ghost predicate BatchKeepsAll<S0, S1, X, Y>(p: Pair<S0, S1, X, Y>, stop0: S0 -> bool, stop1: S1 -> bool,
                                              c: System<S0, S1, X, Y>, niter0: nat, niter1: nat, m: nat)
    decreases m
  {
    m == 0 || (RoundKeepsAll(p, stop0, stop1, c, niter0, niter1)
               && (RoundGoesOn(p, stop0, stop1, c, niter0, niter1) && Legal(p, c, Round(niter0, niter1)) ==>
                     BatchKeepsAll(p, stop0, stop1, After(p, c, Round(niter0, niter1)), niter0, niter1, m - 1)))
  }

  /** A stop after so many firings upstream. */
  lemma StoppedUpstream<S0, S1, X, Y>(p: Pair<S0, S1, X, Y>, stop0: S0 -> bool, stop1: S1 -> bool,
                                      c: System<S0, S1, X, Y>, niter0: nat, niter1: nat, ups: nat)
    requires 0 < ups <= niter0 && 0 < p.push && Legal(p, c, Repeat(Up, ups)) && stop0(After(p, c, Repeat(Up, ups)).s0)
    ensures !RoundGoesOn(p, stop0, stop1, c, niter0, niter1) && !RoundKeepsAll(p, stop0, stop1, c, niter0, niter1)
    ensures Moved(ups, p.push) > 0
  {
    Fits(0, ups, p.push);
  }

  /** A stop after all firings upstream and so many downstream. */
  lemma StoppedDownstream<S0, S1, X, Y>(p: Pair<S0, S1, X, Y>, stop0: S0 -> bool, stop1: S1 -> bool,
                                        c: System<S0, S1, X, Y>, niter0: nat, niter1: nat, downs: nat)
    requires 0 < downs <= niter1 && 0 < p.pop && UpsGoOn(p, stop0, c, niter0) && Legal(p, c, Repeat(Up, niter0))
    requires var mid := After(p, c, Repeat(Up, niter0));
             && DownsGoOn(p, stop1, mid, downs - 1) && Legal(p, mid, Repeat(Down, downs))
             && stop1(After(p, mid, Repeat(Down, downs)).s1)
    ensures !RoundGoesOn(p, stop0, stop1, c, niter0, niter1)
    ensures RoundKeepsAll(p, stop0, stop1, c, niter0, niter1) <==> Moved(niter1, p.pop) - Moved(downs, p.pop) == 0
  {
    if downs < niter1 {
      Fits(downs, niter1, p.pop);
    }
  }

  lemma NoStop<S0, S1, X, Y>(p: Pair<S0, S1, X, Y>, stop0: S0 -> bool, stop1: S1 -> bool,
                             c: System<S0, S1, X, Y>, niter0: nat, niter1: nat)
    requires UpsGoOn(p, stop0, c, niter0) && Legal(p, c, Repeat(Up, niter0))
    requires DownsGoOn(p, stop1, After(p, c, Repeat(Up, niter0)), niter1)
    ensures RoundGoesOn(p, stop0, stop1, c, niter0, niter1) && RoundKeepsAll(p, stop0, stop1, c, niter0, niter1)
  {
  }

  lemma GoingOnKeepsAll<S0, S1, X, Y>(p: Pair<S0, S1, X, Y>, stop0: S0 -> bool, stop1: S1 -> bool,
                                      c: System<S0, S1, X, Y>, niter0: nat, niter1: nat)
    requires RoundGoesOn(p, stop0, stop1, c, niter0, niter1)
    ensures RoundKeepsAll(p, stop0, stop1, c, niter0, niter1)
  {
  }

  lemma NoRounds<S0, S1, X, Y>(p: Pair<S0, S1, X, Y>, c: System<S0, S1, X, Y>, niter0: nat, niter1: nat)
    ensures Legal(p, c, Rounds(niter0, niter1, 0)) && c == After(p, c, Rounds(niter0, niter1, 0))
    ensures Repeat(Up, 0) + Repeat(Down, 0) == []
  {
  }

  /** `stop0` and `stop1` say in which state a work function has just returned something other than 0. */
  class FusedKernel<S0(!new), S1, X(!new), Y> {
    const p: Pair<S0, S1, X, Y>
    const stop0: S0 -> bool
    const stop1: S1 -> bool
    const niter0: nat
    const niter1: nat
    var iter0: nat
    var iter1: nat
    var s0: S0
    var s1: S1
    var in0: seq<X>
    var in1: seq<X>
    var out0: seq<Y>
    var out1: seq<Y>

    constructor (p: Pair<S0, S1, X, Y>, stop0: S0 -> bool, stop1: S1 -> bool, niter0: nat, niter1: nat,
                 c: System<S0, S1, X, Y>)
      ensures this.p == p && this.stop0 == stop0 && this.stop1 == stop1
      ensures this.niter0 == niter0 && this.niter1 == niter1 && iter0 == iter1 == 0
      ensures View([]) == c.(queue := [])
    {
      this.p, this.stop0, this.stop1 := p, stop0, stop1;
      this.niter0, this.niter1, iter0, iter1 := niter0, niter1, 0, 0;
      s0, s1, in0, in1, out0, out1 := c.s0, c.s1, c.in0, c.in1, c.out0, c.out1;
    }

    /** The two kernels with `queue` between them. */
    ghost function View(queue: seq<Elem>): System<S0, S1, X, Y>
      reads this
    {
      System(s0, in0, out0, queue, s1, in1, out1)
    }

    method FireUp(buf: array<byte>, wr: nat, ghost items: seq<Elem>) returns (next: nat, ghost more: seq<Elem>)
      requires FixedRate(p) && in0 != [] && Filled(buf[..], items) && wr == ES * |items|
      requires wr + ES * p.push <= buf.Length
      modifies `s0, `in0, `out0, buf
      ensures View(more) == Apply(p, old(View(items)), Up) && |more| == |items| + p.push
      ensures Filled(buf[..], more) && next == ES * |more|
    {
      var (s, y, es) := p.fire0(s0, in0[0]);
      assert |p.fire0(s0, in0[0]).2| == p.push;
      next := PushAll(buf, wr, es, items);
      more := items + es;
      s0, in0, out0 := s, in0[1..], out0 + [y];
    }

    method FireDown(buf: array<byte>, rd: nat, ghost items: seq<Elem>, ghost read: nat) returns (next: nat)
      requires in1 != [] && Filled(buf[..], items) && rd == ES * read && read + p.pop <= |items|
      modifies `s1, `in1, `out1
      ensures View(items[read + p.pop..]) == Apply(p, old(View(items[read..])), Down) && next == ES * (read + p.pop)
    {
      var es;
      es, next := PopAll(buf, rd, p.pop, items, read);
      assert items[read..][..p.pop] == es && items[read..][p.pop..] == items[read + p.pop..];
      var (s, y) := p.fire1(s1, in1[0], es);
      s1, in1, out1 := s, in1[1..], out1 + [y];
    }

    /** The first loop: upstream firings into the buffer, niter0 of them unless one stops. */
    method UpLoop(buf: array<byte>) returns (wr: nat, ghost items: seq<Elem>, stopped: bool, ghost ups: nat)
      requires FixedRate(p) && iter0 == 0 && niter0 <= |in0| && buf.Length == ES * Moved(niter0, p.push)
      modifies `iter0, `s0, `in0, `out0, buf
      ensures ups == (if stopped then iter0 + 1 else iter0) <= niter0 && (stopped || iter0 == niter0)
      ensures (stopped ==> stop0(s0)) && UpsGoOn(p, stop0, old(View([])), iter0)
      ensures Legal(p, old(View([])), Repeat(Up, ups)) && View(items) == After(p, old(View([])), Repeat(Up, ups))
      ensures Filled(buf[..], items) && |items| == Moved(ups, p.push)
    {
      hide UpsGoOn, Legal, After, Repeat;
      ghost var c := View([]);
      NoneYet(p, stop0, stop1, c);
      wr, items, stopped := 0, [], false;
      while iter0 < niter0
        invariant 0 <= iter0 <= niter0 && in0 == c.in0[iter0..]
        invariant Filled(buf[..], items) && wr == ES * |items| && |items| == iter0 * p.push
        invariant Legal(p, c, Repeat(Up, iter0)) && View(items) == After(p, c, Repeat(Up, iter0))
        invariant UpsGoOn(p, stop0, c, iter0)
      {
        OneMoreUp(p, stop0, c, iter0);
        assert (iter0 + 1) * p.push == iter0 * p.push + p.push;
        Fits(iter0, niter0, p.push);
        wr, items := FireUp(buf, wr, items);
        if stop0(s0) { return wr, items, true, iter0 + 1; }
        iter0 := iter0 + 1;
      }
      ups := iter0;
    }

    /** The second: downstream firings out of it. */
    method DownLoop(buf: array<byte>, ghost items: seq<Elem>) returns (stopped: bool, ghost downs: nat)
      requires FixedRate(p) && iter1 == 0 && niter1 <= |in1|
      requires Filled(buf[..], items) && |items| == Moved(niter1, p.pop)
      modifies `iter1, `s1, `in1, `out1
      ensures downs == (if stopped then iter1 + 1 else iter1) <= niter1 && (stopped || iter1 == niter1)
      ensures (stopped ==> stop1(s1)) && DownsGoOn(p, stop1, old(View(items)), iter1)
      ensures Moved(downs, p.pop) <= |items| && Legal(p, old(View(items)), Repeat(Down, downs))
      ensures View(items[Moved(downs, p.pop)..]) == After(p, old(View(items)), Repeat(Down, downs))
    {
      hide DownsGoOn, Legal, After, Repeat;
      ghost var c := View(items);
      NoneYet(p, stop0, stop1, c);
      var rd := 0;
      ghost var read := 0;
      stopped := false;
      assert items[0..] == items;
      while iter1 < niter1
        invariant 0 <= iter1 <= niter1 && in1 == c.in1[iter1..] && rd == ES * read && read == iter1 * p.pop <= |items|
        invariant Legal(p, c, Repeat(Down, iter1)) && View(items[read..]) == After(p, c, Repeat(Down, iter1))
        invariant DownsGoOn(p, stop1, c, iter1)
      {
        assert (iter1 + 1) * p.pop == iter1 * p.pop + p.pop;
        Fits(iter1, niter1, p.pop);
        OneMoreDown(p, stop1, c, iter1);
        rd := FireDown(buf, rd, items, read);
        read := read + p.pop;
        if stop1(s1) { return true, iter1 + 1; }
        iter1 := iter1 + 1;
      }
      downs := iter1;
    }

    ghost predicate GoesOn(c: System<S0, S1, X, Y>) {
      RoundGoesOn(p, stop0, stop1, c, niter0, niter1)
    }

    ghost predicate KeepsAll(c: System<S0, S1, X, Y>) {
      RoundKeepsAll(p, stop0, stop1, c, niter0, niter1)
    }

    /** Both loops, on a buffer for one round. */
    method TwoLoops(buf: array<byte>) returns (stopped: bool, ghost ups: nat, ghost downs: nat)
      requires FixedRate(p) && iter0 == iter1 == 0 && niter0 <= |in0| && niter1 <= |in1|
      requires RatesMatch(p, niter0, niter1) && buf.Length == ES * Moved(niter0, p.push)
      modifies this, buf
      ensures Legal(p, old(View([])), Repeat(Up, ups) + Repeat(Down, downs))
      ensures var d := After(p, old(View([])), Repeat(Up, ups) + Repeat(Down, downs));
              && View([]) == d.(queue := []) && |d.queue| == Moved(ups, p.push) - Moved(downs, p.pop)
              && (|d.queue| == 0 <==> KeepsAll(old(View([]))))
      ensures !stopped <==> GoesOn(old(View([])))
      ensures !stopped ==> ups == niter0 && downs == niter1
      ensures stopped ==>
                || (0 < ups <= niter0 && downs == 0 && stop0(s0))
                || (ups == niter0 && 0 < downs <= niter1 && stop1(s1))
      ensures UpsGoOn(p, stop0, old(View([])), if stopped && downs == 0 then ups - 1 else ups)
      ensures downs > 0 ==>
                && Legal(p, old(View([])), Repeat(Up, ups))
                && DownsGoOn(p, stop1, After(p, old(View([])), Repeat(Up, ups)), if stopped then downs - 1 else downs)
    {
      hide UpsGoOn, DownsGoOn, Legal, After, FixedRate, RatesMatch, Repeat, RoundGoesOn, RoundKeepsAll, Filled, Moved;
      ghost var c := View([]);
      ghost var wr, items;
      MidRound(p, c, niter0, niter1);
      wr, items, stopped, ups := UpLoop(buf);
      downs := 0;
      if stopped {
        NoneYet(p, stop0, stop1, View(items));
        LegalConcat(p, c, Repeat(Up, ups), Repeat(Down, 0));
        StoppedUpstream(p, stop0, stop1, c, niter0, niter1, ups);
      } else {
        stopped, downs := DownLoop(buf, items);
        LegalConcat(p, c, Repeat(Up, niter0), Repeat(Down, downs));
        if stopped {
          StoppedDownstream(p, stop0, stop1, c, niter0, niter1, downs);
        } else {
          NoStop(p, stop0, stop1, c, niter0, niter1);
        }
      }
    }

    /** One firing of the fused kernel. It is one round of the two kernels, after which the buffer is empty and the
        counters start again; or the part of a round up to the firing that stops, and then whatever is left in the
        buffer is lost with it. Nothing is if and only if no firing stops but possibly the last one. */
    method Work() returns (stopped: bool, ghost ups: nat, ghost downs: nat)
      requires FixedRate(p) && iter0 == iter1 == 0 && niter0 <= |in0| && niter1 <= |in1|
      requires RatesMatch(p, niter0, niter1)
      modifies this
      ensures Legal(p, old(View([])), Repeat(Up, ups) + Repeat(Down, downs))
      ensures var d := After(p, old(View([])), Repeat(Up, ups) + Repeat(Down, downs));
              && View([]) == d.(queue := []) && |d.queue| == Moved(ups, p.push) - Moved(downs, p.pop)
              && (|d.queue| == 0 <==> KeepsAll(old(View([]))))
      ensures !stopped <==> GoesOn(old(View([])))
      ensures !stopped ==> ups == niter0 && downs == niter1 && iter0 == iter1 == 0
      ensures stopped ==>
                || (0 < ups <= niter0 && downs == 0 && stop0(s0))
                || (ups == niter0 && 0 < downs <= niter1 && stop1(s1))
      ensures UpsGoOn(p, stop0, old(View([])), if stopped && downs == 0 then ups - 1 else ups)
      ensures downs > 0 ==>
                && Legal(p, old(View([])), Repeat(Up, ups))
                && DownsGoOn(p, stop1, After(p, old(View([])), Repeat(Up, ups)), if stopped then downs - 1 else downs)
    {
      hide UpsGoOn, DownsGoOn, Legal, After, FixedRate, RatesMatch, Repeat, RoundGoesOn, RoundKeepsAll, Moved;
      var buf := new byte[4 * Moved(niter0, p.push)](_ => 0);
      stopped, ups, downs := TwoLoops(buf);
      if !stopped {
        iter0 := 0;
        iter1 := 0;
      }
    }

    /** At most m firings of the fused kernel. If none stops they end as any legal schedule of the two kernels does
        that makes m times niter0 and m times niter1 firings; if the one after k whole rounds does, they end as that
        much of a schedule does, but for what is lost. Nothing is if and only if every round that is started keeps
        all its elements. */
    method WorkBatch(m: nat) returns (stopped: bool, ghost k: nat, ghost ups: nat, ghost downs: nat)
      requires FixedRate(p) && iter0 == iter1 == 0 && RatesMatch(p, niter0, niter1)
      requires m * niter0 <= |in0| && m * niter1 <= |in1|
      modifies this
      ensures !stopped <==> BatchGoesOn(p, stop0, stop1, old(View([])), niter0, niter1, m)
      ensures !stopped ==> iter0 == iter1 == 0 && k == m && ups == downs == 0
      ensures !stopped ==>
                forall fs ::
                  Legal(p, old(View([])), fs) && Count(fs, Up) == m * niter0 && Count(fs, Down) == m * niter1 ==>
                    View([]) == After(p, old(View([])), fs)
      ensures Legal(p, old(View([])), Rounds(niter0, niter1, k) + (Repeat(Up, ups) + Repeat(Down, downs)))
      ensures var d := After(p, old(View([])), Rounds(niter0, niter1, k) + (Repeat(Up, ups) + Repeat(Down, downs)));
              && View([]) == d.(queue := []) && |d.queue| == Moved(ups, p.push) - Moved(downs, p.pop)
              && (|d.queue| == 0 <==> BatchKeepsAll(p, stop0, stop1, old(View([])), niter0, niter1, m))
    {
      hide FixedRate, RatesMatch, Round, Rounds, Repeat, Legal, After, Count, RoundGoesOn, RoundKeepsAll, UpsGoOn;
      ghost var c := View([]);
      NoRounds(p, c, niter0, niter1);
      k, ups, downs, stopped := 0, 0, 0, false;
      var i := m;
      while i > 0
        invariant 0 <= i <= m && k == m - i && iter0 == iter1 == 0 && i * niter0 <= |in0| && i * niter1 <= |in1|
        invariant Legal(p, c, Rounds(niter0, niter1, k)) && View([]) == After(p, c, Rounds(niter0, niter1, k))
        invariant ups == downs == 0 && !stopped
        invariant BatchGoesOn(p, stop0, stop1, c, niter0, niter1, m)
                  <==> BatchGoesOn(p, stop0, stop1, View([]), niter0, niter1, i)
        invariant BatchKeepsAll(p, stop0, stop1, c, niter0, niter1, m)
                  <==> BatchKeepsAll(p, stop0, stop1, View([]), niter0, niter1, i)
      {
        Peel(i, niter0);
        Peel(i, niter1);
        ghost var d := View([]);
        ghost var e := FirstRound(p, d, niter0, niter1, (i - 1) * niter0, (i - 1) * niter1);
        stopped, ups, downs := Work();
        LegalConcat(p, c, Rounds(niter0, niter1, k), Repeat(Up, ups) + Repeat(Down, downs));
        if stopped { return; }
        assert Repeat(Up, ups) + Repeat(Down, downs) == Round(niter0, niter1) by { RoundIs(niter0, niter1); }
        GoingOnKeepsAll(p, stop0, stop1, d, niter0, niter1);
        OneMoreRound(niter0, niter1, k);
        ups, downs, k := 0, 0, k + 1;
        i := i - 1;
      }
      assert Rounds(niter0, niter1, k) + [] == Rounds(niter0, niter1, k);
      forall fs | Legal(p, c, fs) && Count(fs, Up) == m * niter0 && Count(fs, Down) == m * niter1
        ensures View([]) == After(p, c, fs)
      {
        FusionPreservesMeaning(p, c, niter0, niter1, m, fs);
      }
    }
  }

  const ITEM: Elem := [0, 0, 0, 0]

  /** A kernel that counts its firings and pushes one element in each, before one that pops two. */
  function OneToTwo(): Pair<int, int, int, int> {
    Pair((s: int, x: int) => (s + 1, x, [ITEM]), (s: int, x: int, es: seq<Elem>) => (s + 1, x), 1, 2)
  }

  /** If the first kernel ends with its first firing, what it has pushed never gets to the second. */
  method EndLosesElement(k: FusedKernel<int, int, int, int>)
    requires k.p == OneToTwo() && k.stop0(1) && k.niter0 == 2 && k.niter1 == 1
    requires k.iter0 == k.iter1 == 0 && k.s0 == 0 && 2 <= |k.in0| && 1 <= |k.in1|
    modifies k
    ensures k.View([ITEM]) == Apply(OneToTwo(), old(k.View([])), Up)
  {
    ghost var c := k.View([]);
    var stopped;
    ghost var ups, downs;
    stopped, ups, downs := k.Work();
    FirstUp(k.stop0, c);
    assert ups == 1 && downs == 0;
    assert Repeat(Up, 1) + Repeat(Down, 0) == [Up];
  }

  lemma FirstUp(stop0: int -> bool, c: System<int, int, int, int>)
    requires c.in0 != [] && c.s0 == 0 && c.queue == [] && stop0(1)
    ensures Legal(OneToTwo(), c, [Up]) && After(OneToTwo(), c, [Up]) == Apply(OneToTwo(), c, Up)
    ensures Apply(OneToTwo(), c, Up).queue == [ITEM]
    ensures forall n: nat :: 0 < n ==> !UpsGoOn(OneToTwo(), stop0, c, n)
  {
    OneMoreUp(OneToTwo(), stop0, c, 0);
    assert Repeat(Up, 1) == [Up];
    assert After(OneToTwo(), c, Repeat(Up, 1)).s0 == 1;
  }

  lemma RoundIs(niter0: nat, niter1: nat)
    ensures Round(niter0, niter1) == Repeat(Up, niter0) + Repeat(Down, niter1)
  {
  }

  lemma {:induction false} OneMoreRound(niter0: nat, niter1: nat, k: nat)
    ensures Rounds(niter0, niter1, k + 1) == Rounds(niter0, niter1, k) + Round(niter0, niter1)
    decreases k
  {
    if k > 0 {
      OneMoreRound(niter0, niter1, k - 1);
    }
  }

  lemma OneMore(f: Firing, n: nat)
    ensures Repeat(f, n + 1) == Repeat(f, n) + [f]
  {
    if n > 0 {
      OneMore(f, n - 1);
    }
  }

  lemma Fits(i: nat, n: nat, rate: nat)
    requires i < n
    ensures i * rate + rate <= n * rate
  {
    Ordered(rate, i, n);
  }
}
