/** The rates declared while a kernel with one input and one output is replaced by a splitter, replicas and a joiner. */
module FissionRates {

  class RateStream {
    var popRate: int
    var peekRate: int
    var pushRate: int

    constructor ()
      ensures popRate == pushRate == -1 && peekRate == 0
    {
      popRate, peekRate, pushRate := -1, 0, -1;
    }
  }

  /** How many elements each replica is given in a round: replica 0 runs on OpenCL, if that is switched on, and
      gets a multiple. */
  function Rates(width: nat, rate: int, factor: int): (r: seq<int>)
    ensures |r| == width && forall i :: 0 <= i < width ==> r[i] == if i == 0 then rate * factor else rate
  {
    seq(width, i => if i == 0 then rate * factor else rate)
  }

  method FillRates(width: nat, rate: int, openCL: bool, multiplier: int) returns (rates: seq<int>)
    requires 0 < width
    ensures rates == Rates(width, rate, if openCL then multiplier else 1)
  {
    rates := [];
    for i := 0 to width
      invariant |rates| == i
      invariant forall k :: 0 <= k < i ==> rates[k] == if k == 0 && openCL then rate * multiplier else rate
    {
      rates := rates + [rate];
      if i == 0 && openCL {
        rates := rates[0 := rates[0] * multiplier];
      }
    }
  }

  method NewStreams(n: nat) returns (ss: seq<RateStream>)
    ensures |ss| == n && fresh(set s | s in ss) && forall i, j :: 0 <= i < j < n ==> ss[i] != ss[j]
    ensures forall s :: s in ss ==> s.popRate == s.pushRate == -1 && s.peekRate == 0
  {
    ss := [];
    while |ss| < n
      invariant |ss| <= n && fresh(set s | s in ss) && forall i, j :: 0 <= i < j < |ss| ==> ss[i] != ss[j]
      invariant forall s :: s in ss ==> s.popRate == s.pushRate == -1 && s.peekRate == 0
    {
      var s := new RateStream();
      ss := ss + [s];
    }
  }

  /** The splitter: takes every replica's share from the input in a round. */
  method MakeSplit(in0: RateStream, width: nat, openCL: bool, multiplier: int)
    returns (rates: seq<int>, outs: seq<RateStream>)
    requires 0 < width
    modifies in0`popRate
    ensures rates == Rates(width, old(in0.popRate), if openCL then multiplier else 1)
    ensures in0.popRate == old(in0.popRate) * width
    ensures |outs| == width && fresh(set s | s in outs) && forall i, j :: 0 <= i < j < width ==> outs[i] != outs[j]
    ensures forall i :: 0 <= i < width ==> outs[i].pushRate == rates[i]
  {
    rates := FillRates(width, in0.popRate, openCL, multiplier);
    in0.popRate := in0.popRate * width;
    outs := NewStreams(width);
    for i := 0 to width
      invariant forall k :: 0 <= k < i ==> outs[k].pushRate == rates[k]
      invariant in0.popRate == old(in0.popRate) * width
    {
      outs[i].pushRate := rates[i];
    }
  }

  /** The joiner: its output is declared with the first rate for each of the inputs. */
  method MakeJoin(out0: RateStream, width: nat, openCL: bool, multiplier: int)
    returns (rates: seq<int>, ins: seq<RateStream>)
    requires 0 < width
    modifies out0`pushRate
    ensures rates == Rates(width, old(out0.pushRate), if openCL then multiplier else 1)
    ensures out0.pushRate == rates[0] * width
    ensures |ins| == width && fresh(set s | s in ins) && forall i, j :: 0 <= i < j < width ==> ins[i] != ins[j]
    ensures forall i :: 0 <= i < width ==> ins[i].popRate == rates[i] && ins[i].peekRate == 0
  {
    rates := FillRates(width, out0.pushRate, openCL, multiplier);
    ins := NewStreams(width);
    for i := 0 to width
      invariant forall k :: 0 <= k < i ==> ins[k].popRate == rates[k] && ins[k].peekRate == 0
      invariant out0.pushRate == old(out0.pushRate)
    {
      ins[i].popRate := rates[i];
      ins[i].peekRate := 0;
    }
    out0.pushRate := rates[0] * width;
  }

  /** The replicas copy the outer streams' rates, which have been multiplied by then. */
  method MakeReplicas(in0: RateStream, out0: RateStream, outs: seq<RateStream>, ins: seq<RateStream>)
    requires |outs| == |ins| && in0 !in outs && out0 !in ins
    modifies (set s | s in outs)`popRate, (set s | s in outs)`peekRate, (set s | s in ins)`pushRate
    ensures forall s :: s in outs ==> s.popRate == in0.popRate && s.peekRate == in0.peekRate
    ensures forall s :: s in ins ==> s.pushRate == out0.pushRate
  {
    for i := 0 to |outs|
      invariant forall k :: 0 <= k < i ==> outs[k].popRate == in0.popRate && outs[k].peekRate == in0.peekRate
      invariant forall k :: 0 <= k < i ==> ins[k].pushRate == out0.pushRate
      invariant in0.popRate == old(in0.popRate) && in0.peekRate == old(in0.peekRate)
              && out0.pushRate == old(out0.pushRate)
    {
      outs[i].popRate := in0.popRate;
      outs[i].peekRate := in0.peekRate;
      ins[i].pushRate := out0.pushRate;
    }
  }

  // ---- when the declared rates are the ones used ----

  function Total(rates: seq<int>): int {
    if rates == [] then 0 else Total(rates[..|rates| - 1]) + rates[|rates| - 1]
  }

  lemma {:induction false} TotalOf(width: nat, rate: int, factor: int)
    requires 0 < width
    ensures Total(Rates(width, rate, factor)) == rate * factor + rate * (width - 1)
    decreases width
  {
    var rates := Rates(width, rate, factor);
    assert rates[..width - 1] == Rates(width - 1, rate, factor);
    if width > 1 {
      TotalOf(width - 1, rate, factor);
    }
  }

  lemma Cancel(a: int, b: int, c: int)
    ensures a * b == a * c <==> a == 0 || b == c
  {
    if a != 0 && b != c {
      assert a * (b - c) != 0;
    }
  }

  /** The splitter's declared rate is what it takes in a round if and only if no replica gets a multiple. */
  lemma SplitterDeclaredRightIff(width: nat, rate: int, factor: int)
    requires 0 < width
    ensures rate * width == Total(Rates(width, rate, factor)) <==> rate == 0 || factor == 1
  {
    TotalOf(width, rate, factor);
    Cancel(rate, factor, 1);
    assert rate * width == rate * (width - 1) + rate;
  }

  lemma JoinerDeclaredRightIff(width: nat, rate: int, factor: int)
    requires 0 < width
    ensures Rates(width, rate, factor)[0] * width == Total(Rates(width, rate, factor))
            <==> rate == 0 || factor == 1 || width == 1
  {
    TotalOf(width, rate, factor);
    var first := rate * factor;
    assert first * width == first * (width - 1) + first;
    Cancel(width - 1, first, rate);
    Cancel(rate, factor, 1);
  }

  lemma Scaled(a: int, b: int, c: int)
    requires 0 < a
    ensures a * b <= a * c <==> b <= c
  {
    if b < c {
      assert 0 < a * (c - b) == a * c - a * b;
    } else if c < b {
      assert 0 < a * (b - c) == a * b - a * c;
    }
  }

  /** What the splitter asks of its input before a round is enough for the round if and only if no replica gets more
      than its share. */
  lemma SplitterAsksEnoughIff(width: nat, rate: int, factor: int)
    requires 0 < width && 0 < rate
    ensures Total(Rates(width, rate, factor)) <= rate * width <==> factor <= 1
  {
    TotalOf(width, rate, factor);
    Scaled(rate, factor, 1);
    assert rate * width == rate * (width - 1) + rate;
  }

  /** What the joiner asks of its output is enough if and only if the first replica gets no less, or is alone. */
  lemma JoinerAsksEnoughIff(width: nat, rate: int, factor: int)
    requires 0 < width && 0 < rate
    ensures Total(Rates(width, rate, factor)) <= Rates(width, rate, factor)[0] * width <==> 1 <= factor || width == 1
  {
    TotalOf(width, rate, factor);
    var first := rate * factor;
    assert first * width == first * (width - 1) + first;
    if width > 1 {
      Scaled(width - 1, rate, first);
      Scaled(rate, 1, factor);
    }
  }

  /** A replica's input is declared with the rate it is filled with if and only if nothing was multiplied. */
  lemma ReplicaInputsDeclaredRightIff(width: nat, rate: int, factor: int)
    requires 0 < width
    ensures (forall i :: 0 <= i < width ==> Rates(width, rate, factor)[i] == rate * width)
            <==> rate == 0 || (width == 1 && factor == 1)
  {
    var rates := Rates(width, rate, factor);
    assert rates[0] == rate * factor;
    Cancel(rate, factor, width);
    Cancel(rate, 1, width);
    assert width > 1 ==> rates[1] == rate;
  }

  lemma ReplicaOutputsDeclaredRightIff(width: nat, rate: int, factor: int)
    requires 0 < width
    ensures (forall i :: 0 <= i < width ==> Rates(width, rate, factor)[i] == Rates(width, rate, factor)[0] * width)
            <==> rate == 0 || width == 1
  {
    var rates := Rates(width, rate, factor);
    Cancel(rates[0], 1, width);
    assert width > 1 ==> rates[1] == rate;
  }

  /** The rates set while a kernel is replaced. The splitter and the joiner are run with the rates declared here;
      those of the replicas' streams are set again when the replicas are analysed. */
  method CallKernel(in0: RateStream, out0: RateStream, width: nat, openCL: bool, multiplier: int)
    returns (split: seq<int>, outs: seq<RateStream>, join: seq<int>, ins: seq<RateStream>)
    requires in0 != out0 && 0 < width
    modifies in0`popRate, out0`pushRate
    ensures var factor := if openCL then multiplier else 1;
            && split == Rates(width, old(in0.popRate), factor) && join == Rates(width, old(out0.pushRate), factor)
            && (in0.popRate == Total(split) <==> old(in0.popRate) == 0 || factor == 1)
            && (out0.pushRate == Total(join) <==> old(out0.pushRate) == 0 || factor == 1 || width == 1)
    ensures in0.popRate == old(in0.popRate) * width && out0.pushRate == join[0] * width
    ensures |outs| == |ins| == width
    ensures forall i :: 0 <= i < width ==>
              outs[i].pushRate == split[i] && outs[i].popRate == in0.popRate && outs[i].peekRate == in0.peekRate
    ensures forall i :: 0 <= i < width ==>
              ins[i].popRate == join[i] && ins[i].peekRate == 0 && ins[i].pushRate == out0.pushRate
  {
    var factor := if openCL then multiplier else 1;
    SplitterDeclaredRightIff(width, in0.popRate, factor);
    JoinerDeclaredRightIff(width, out0.pushRate, factor);
    hide Total, Rates;
    split, outs := MakeSplit(in0, width, openCL, multiplier);
    join, ins := MakeJoin(out0, width, openCL, multiplier);
    MakeReplicas(in0, out0, outs, ins);
  }

  /** Four replicas, the first of which gets twice its share: a round of the splitter takes five elements and is
      declared with four, and one of the joiner makes five and is declared with eight. */
  lemma MultiplierIsNotDeclared()
    ensures Total(Rates(4, 1, 2)) == 5 != 1 * 4 && Rates(4, 1, 2)[0] * 4 == 8
  {
    TotalOf(4, 1, 2);
  }
}
