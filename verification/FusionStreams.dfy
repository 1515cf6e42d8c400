/** The streams and rates of the fused kernel. */
module FusionStreams {
  import opened Common
  import opened FusionRates

  const INTERNAL: nat := 1000

  class RuntimeStream {
    const elemSize: nat
    var pushRate: nat
    var popRate: nat

    constructor (elemSize: nat, pushRate: nat, popRate: nat)
      ensures this.elemSize == elemSize && this.pushRate == pushRate && this.popRate == popRate
    {
      this.elemSize, this.pushRate, this.popRate := elemSize, pushRate, popRate;
    }
  }

  /** A kernel's streams, by identity. */
  datatype Streams = Streams(ins: seq<RuntimeStream>, outs: seq<RuntimeStream>)

  /** No stream twice: each has one reader and one writer. */
  predicate Distinct(ss: seq<RuntimeStream>) {
    forall i, j :: 0 <= i < j < |ss| ==> ss[i] != ss[j]
  }

  // ---- which streams the fused kernel has ----

  method ComputeCommonStreams(k0: Streams, k1: Streams) returns (common: set<RuntimeStream>)
    ensures forall s :: s in common <==> s in k0.outs && s in k1.ins
  {
    var writes: set<RuntimeStream> := {};
    var i := 0;
    while i < |k0.outs|
      invariant 0 <= i <= |k0.outs| && writes == set s | s in k0.outs[..i]
    {
      writes := writes + {k0.outs[i]};
      i := i + 1;
    }
    common := {};
    i := 0;
    while i < |k1.ins|
      invariant 0 <= i <= |k1.ins| && forall s :: s in common <==> s in k0.outs && s in k1.ins[..i]
    {
      if k1.ins[i] in writes {
        common := common + {k1.ins[i]};
      }
      i := i + 1;
    }
  }

  function Without(ss: seq<RuntimeStream>, common: set<RuntimeStream>): (r: seq<RuntimeStream>)
    ensures forall s :: s in r ==> s in ss && s !in common
    ensures forall s :: s in ss && s !in common ==> s in r
  {
    if ss == [] then []
    else if ss[|ss| - 1] in common then Without(ss[..|ss| - 1], common)
    else Without(ss[..|ss| - 1], common) + [ss[|ss| - 1]]
  }

  lemma WithoutNext(ss: seq<RuntimeStream>, i: nat, common: set<RuntimeStream>)
    requires i < |ss|
    ensures Without(ss[..i + 1], common) == Without(ss[..i], common) + if ss[i] in common then [] else [ss[i]]
  {
    assert ss[..i + 1][..i] == ss[..i];
  }

  /** The streams of both kernels, in order, that are not internal to the fused one. */
  method ComputeOuterStreams(a: seq<RuntimeStream>, b: seq<RuntimeStream>, common: set<RuntimeStream>)
    returns (r: seq<RuntimeStream>)
    ensures r == Without(a, common) + Without(b, common)
  {
    assert Without(a[..0], common) == [] && Without(b[..0], common) == [];
    hide Without;
    r := [];
    var i := 0;
    while i < |a|
      invariant 0 <= i <= |a| && r == Without(a[..i], common)
    {
      WithoutNext(a, i, common);
      if a[i] !in common {
        r := r + [a[i]];
      }
      i := i + 1;
    }
    assert a[..|a|] == a;
    i := 0;
    while i < |b|
      invariant 0 <= i <= |b| && r == Without(a, common) + Without(b[..i], common)
    {
      WithoutNext(b, i, common);
      if b[i] !in common {
        r := r + [b[i]];
      }
      i := i + 1;
    }
    assert b[..|b|] == b;
  }

  // ---- renumbering stream operations ----

  datatype Fused = Fused(ins: seq<RuntimeStream>, outs: seq<RuntimeStream>, ints: seq<RuntimeStream>)

  /** Which stream an operation of the fused kernel with this number works on. */
  function Named(f: Fused, push: bool, idx: nat): set<RuntimeStream> {
    if idx >= INTERNAL then (if idx - INTERNAL < |f.ints| then {f.ints[idx - INTERNAL]} else {})
    else if push then (if idx < |f.outs| then {f.outs[idx]} else {})
    else (if idx < |f.ins| then {f.ins[idx]} else {})
  }

  function FirstIndex(ss: seq<RuntimeStream>, s: RuntimeStream): (i: nat)
    requires s in ss
    ensures i < |ss| && ss[i] == s && forall j :: 0 <= j < i ==> ss[j] != s
  {
    if ss[0] == s then 0 else 1 + FirstIndex(ss[1..], s)
  }

  /** Looks through inputs, outputs and internal streams, in this order. */
  function NewIndex(f: Fused, s: RuntimeStream): nat
    requires s in f.ins || s in f.outs || s in f.ints
  {
    if s in f.ins then FirstIndex(f.ins, s)
    else if s in f.outs then FirstIndex(f.outs, s)
    else FirstIndex(f.ints, s) + INTERNAL
  }

  method Renumber(f: Fused, s: RuntimeStream) returns (idx: nat)
    requires s in f.ins || s in f.outs || s in f.ints
    ensures idx == NewIndex(f, s)
  {
    var found: bool;
    found, idx := Search(f.ins, s);
    if !found {
      found, idx := Search(f.outs, s);
    }
    if !found {
      found, idx := Search(f.ints, s);
      idx := idx + INTERNAL;
    }
  }

  method Search(ss: seq<RuntimeStream>, s: RuntimeStream) returns (found: bool, idx: nat)
    ensures found == (s in ss)
    ensures found ==> idx == FirstIndex(ss, s)
  {
    idx := 0;
    while idx < |ss|
      invariant 0 <= idx <= |ss| && s !in ss[..idx]
    {
      if ss[idx] == s {
        FirstIndexIs(ss, s, idx);
        return true, idx;
      }
      idx := idx + 1;
    }
    return false, idx;
  }

  lemma {:induction false} FirstIndexIs(ss: seq<RuntimeStream>, s: RuntimeStream, i: nat)
    requires i < |ss| && ss[i] == s && s !in ss[..i]
    ensures FirstIndex(ss, s) == i
    decreases i
  {
    if i > 0 {
      assert ss[0] == ss[..i][0];
      assert ss[1..][..i - 1] == ss[..i][1..];
      FirstIndexIs(ss[1..], s, i - 1);
    }
  }

  /** The fused kernel made of these two. */
  predicate Fuses(k0: Streams, k1: Streams, f: Fused) {
    && Distinct(k0.ins + k1.ins) && Distinct(k0.outs + k1.outs)
    && (forall x :: x in f.ints ==> x in k0.outs && x in k1.ins)
    && (forall x :: x in k0.outs && x in k1.ins ==> x in f.ints)
    && f.ins == Without(k0.ins, set x | x in f.ints) + Without(k1.ins, set x | x in f.ints)
    && f.outs == Without(k0.outs, set x | x in f.ints) + Without(k1.outs, set x | x in f.ints)
    && |f.ins| <= INTERNAL && |f.outs| <= INTERNAL
  }

  predicate PopsKeepTheirStreams(k0: Streams, k1: Streams, f: Fused)
    requires Fuses(k0, k1, f)
  {
    forall s :: s in k0.ins + k1.ins ==> Named(f, false, NewIndex(f, s)) == {s}
  }

  predicate PushesKeepTheirStreams(k0: Streams, k1: Streams, f: Fused)
    requires Fuses(k0, k1, f)
  {
    forall s :: s in k0.outs + k1.outs ==> Named(f, true, NewIndex(f, s)) == {s}
  }

  /** A stream that the fused kernel both reads and writes has the same number on both sides. */
  predicate SameNumbers(f: Fused) {
    forall i, j :: 0 <= i < |f.ins| && 0 <= j < |f.outs| && f.ins[i] == f.outs[j] ==> i == j
  }

  lemma {:induction false} WithoutKeepsDistinct(ss: seq<RuntimeStream>, common: set<RuntimeStream>)
    requires Distinct(ss)
    ensures Distinct(Without(ss, common))
  {
    if ss != [] {
      WithoutKeepsDistinct(ss[..|ss| - 1], common);
    }
  }

  lemma Whole(a: seq<RuntimeStream>, b: seq<RuntimeStream>)
    requires Distinct(a) && Distinct(b) && forall x :: !(x in a && x in b)
    ensures Distinct(a + b)
  {
    forall i, j | 0 <= i < j < |a + b|
      ensures (a + b)[i] != (a + b)[j]
    {
      assert i < |a| <= j ==> a[i] in a && b[j - |a|] in b;
    }
  }

  lemma OuterStreamsAreDistinct(k0: Streams, k1: Streams, f: Fused)
    requires Fuses(k0, k1, f)
    ensures Distinct(f.ins) && Distinct(f.outs)
  {
    var common := set x | x in f.ints;
    Parts(k0.ins, k1.ins);
    Parts(k0.outs, k1.outs);
    WithoutKeepsDistinct(k0.ins, common);
    WithoutKeepsDistinct(k1.ins, common);
    WithoutKeepsDistinct(k0.outs, common);
    WithoutKeepsDistinct(k1.outs, common);
    Whole(Without(k0.ins, common), Without(k1.ins, common));
    Whole(Without(k0.outs, common), Without(k1.outs, common));
  }

  /** Where the streams of the two kernels end up. */
  lemma OuterOrInternal(k0: Streams, k1: Streams, f: Fused, s: RuntimeStream)
    requires Fuses(k0, k1, f)
    ensures s in k0.ins + k1.ins <==> s in f.ins || (s in f.ints && s in k0.ins + k1.ins)
    ensures s in k0.outs + k1.outs <==> s in f.outs || (s in f.ints && s in k0.outs + k1.outs)
    ensures s in f.ints ==> s !in f.ins && s !in f.outs
  {
  }

  lemma InternalIsNamed(f: Fused, push: bool, s: RuntimeStream)
    requires s in f.ints && s !in f.ins && s !in f.outs
    ensures Named(f, push, NewIndex(f, s)) == {s}
  {
  }

  lemma InputIsNamed(f: Fused, s: RuntimeStream)
    requires s in f.ins && |f.ins| <= INTERNAL
    ensures Named(f, false, NewIndex(f, s)) == {s}
  {
  }

  lemma OutputIsNamedIff(f: Fused, s: RuntimeStream)
    requires s in f.outs && |f.ins| <= INTERNAL && |f.outs| <= INTERNAL && Distinct(f.ins) && Distinct(f.outs)
    ensures Named(f, true, NewIndex(f, s)) == {s} <==>
            forall i, j :: 0 <= i < |f.ins| && 0 <= j < |f.outs| && f.ins[i] == s && f.outs[j] == s ==> i == j
  {
    var j := FirstIndex(f.outs, s);
    assert f.outs[j] == s;
    if s in f.ins {
      assert f.ins[FirstIndex(f.ins, s)] == s;
    }
  }

  /** After renumbering every pop of both kernels works on the stream it worked on before. Every push does if and
      only if no stream of the fused kernel is an input and an output with different numbers. */
  lemma RenumberedOpsKeepTheirStreamsIff(k0: Streams, k1: Streams, f: Fused)
    requires Fuses(k0, k1, f)
    ensures PopsKeepTheirStreams(k0, k1, f)
    ensures PushesKeepTheirStreams(k0, k1, f) <==> SameNumbers(f)
  {
    OuterStreamsAreDistinct(k0, k1, f);
    assert |f.ins| <= INTERNAL && |f.outs| <= INTERNAL;
    hide Fuses, Distinct, Named, NewIndex;
    forall s | s in k0.ins + k1.ins
      ensures s in f.ins || s in f.ints
      ensures Named(f, false, NewIndex(f, s)) == {s}
    {
      OuterOrInternal(k0, k1, f, s);
      if s in f.ins {
        InputIsNamed(f, s);
      } else {
        InternalIsNamed(f, false, s);
      }
    }
    forall s | s in k0.outs + k1.outs && s in f.ints
      ensures Named(f, true, NewIndex(f, s)) == {s}
    {
      OuterOrInternal(k0, k1, f, s);
      InternalIsNamed(f, true, s);
    }
    forall s | s in f.outs
      ensures s in k0.outs + k1.outs
      ensures Named(f, true, NewIndex(f, s)) == {s} <==>
              forall i, j :: 0 <= i < |f.ins| && 0 <= j < |f.outs| && f.ins[i] == s && f.outs[j] == s ==> i == j
    {
      OuterOrInternal(k0, k1, f, s);
      OutputIsNamedIff(f, s);
    }
    forall s | s in k0.outs + k1.outs
      ensures s in f.outs || s in f.ints
    {
      OuterOrInternal(k0, k1, f, s);
    }
    if PushesKeepTheirStreams(k0, k1, f) {
      forall i, j | 0 <= i < |f.ins| && 0 <= j < |f.outs| && f.ins[i] == f.outs[j]
        ensures i == j
      {
        assert f.outs[j] in f.outs;
      }
    }
  }

  /** In particular every operation keeps its stream when the pair reads nothing that it writes, but for the
      streams from the first kernel to the second. */
  lemma NoFeedbackKeepsNames(k0: Streams, k1: Streams, f: Fused)
    requires Fuses(k0, k1, f)
    requires forall x :: x in k0.ins ==> x !in k0.outs && x !in k1.outs
    requires forall x :: x in k1.ins ==> x !in k1.outs
    ensures PushesKeepTheirStreams(k0, k1, f)
  {
    RenumberedOpsKeepTheirStreamsIff(k0, k1, f);
  }

  lemma WithoutOne(s: RuntimeStream, common: set<RuntimeStream>)
    ensures Without([s], common) == if s in common then [] else [s]
  {
  }

  lemma WithoutTwo(s: RuntimeStream, t: RuntimeStream, common: set<RuntimeStream>)
    requires s !in common && t !in common
    ensures Without([s, t], common) == [s, t]
  {
    WithoutOne(s, common);
    assert [s, t][..1] == [s];
  }

  /** A pair whose second kernel writes back to the second input of the first: the push on b gets the number 1,
      and the fused kernel has no output with that number. */
  lemma FeedbackLosesPush(a: RuntimeStream, b: RuntimeStream, x: RuntimeStream)
    requires a != b && b != x && a != x
    ensures var (k0, k1, f) := (Streams([x, b], [a]), Streams([a], [b]), Fused([x, b], [b], [a]));
            && Fuses(k0, k1, f) && b in k1.outs && NewIndex(f, b) == 1 && Named(f, true, 1) == {}
            && !PushesKeepTheirStreams(k0, k1, f)
  {
    var (k0, k1, f) := (Streams([x, b], [a]), Streams([a], [b]), Fused([x, b], [b], [a]));
    FeedbackFuses(a, b, x);
    hide Fuses, Without, Distinct;
    assert f.ins[1..] == [b];
    assert b in k0.outs + k1.outs by {
      assert k1.outs[0] == b;
    }
  }

  lemma ThreeDistinct(x: RuntimeStream, b: RuntimeStream, a: RuntimeStream)
    requires a != b && b != x && a != x
    ensures Distinct([x, b] + [a]) && Distinct([a] + [b])
  {
    assert [x, b] + [a] == [x, b, a] && [a] + [b] == [a, b];
  }

  lemma FeedbackFuses(a: RuntimeStream, b: RuntimeStream, x: RuntimeStream)
    requires a != b && b != x && a != x
    ensures Fuses(Streams([x, b], [a]), Streams([a], [b]), Fused([x, b], [b], [a]))
  {
    var common := {a};
    WithoutTwo(x, b, common);
    WithoutOne(a, common);
    WithoutOne(b, common);
    ThreeDistinct(x, b, a);
    hide Without, Distinct;
    assert (set y | y in [a]) == common;
  }

  // ---- rates ----

  method ScalePush(ss: seq<RuntimeStream>, n: nat)
    requires Distinct(ss)
    modifies (set s | s in ss)`pushRate
    ensures forall s :: s in ss ==> s.pushRate == old(s.pushRate) * n
  {
    var i := 0;
    while i < |ss|
      invariant 0 <= i <= |ss|
      invariant forall k :: 0 <= k < i ==> ss[k].pushRate == old(ss[k].pushRate) * n
      invariant forall k :: i <= k < |ss| ==> ss[k].pushRate == old(ss[k].pushRate)
    {
      ss[i].pushRate := ss[i].pushRate * n;
      i := i + 1;
    }
  }

  method ScalePop(ss: seq<RuntimeStream>, n: nat)
    requires Distinct(ss)
    modifies (set s | s in ss)`popRate
    ensures forall s :: s in ss ==> s.popRate == old(s.popRate) * n
  {
    var i := 0;
    while i < |ss|
      invariant 0 <= i <= |ss|
      invariant forall k :: 0 <= k < i ==> ss[k].popRate == old(ss[k].popRate) * n
      invariant forall k :: i <= k < |ss| ==> ss[k].popRate == old(ss[k].popRate)
    {
      ss[i].popRate := ss[i].popRate * n;
      i := i + 1;
    }
  }

  /** Would n firings move no more through any of these streams than its buffer holds? */
  method PopsFit(ss: seq<RuntimeStream>, n: nat) returns (fit: bool)
    ensures fit == forall s :: s in ss ==> s.popRate * s.elemSize * n <= STREAMBUFFER
  {
    var i := 0;
    while i < |ss|
      invariant 0 <= i <= |ss| && forall k :: 0 <= k < i ==> ss[k].popRate * ss[k].elemSize * n <= STREAMBUFFER
    {
      if ss[i].popRate * ss[i].elemSize * n > STREAMBUFFER { return false; }
      i := i + 1;
    }
    return true;
  }

  method PushesFit(ss: seq<RuntimeStream>, n: nat) returns (fit: bool)
    ensures fit == forall s :: s in ss ==> s.pushRate * s.elemSize * n <= STREAMBUFFER
  {
    var i := 0;
    while i < |ss|
      invariant 0 <= i <= |ss| && forall k :: 0 <= k < i ==> ss[k].pushRate * ss[k].elemSize * n <= STREAMBUFFER
    {
      if ss[i].pushRate * ss[i].elemSize * n > STREAMBUFFER { return false; }
      i := i + 1;
    }
    return true;
  }

  /** Multiplies the rates of both kernels' streams by their numbers of firings. */
  method AdjustRates(k0: Streams, k1: Streams, niter0: nat, niter1: nat)
    requires Distinct(k0.ins + k1.ins) && Distinct(k0.outs + k1.outs)
    modifies (set x | x in k0.ins + k1.ins)`popRate, (set x | x in k0.outs + k1.outs)`pushRate
    ensures forall x :: x in k0.ins ==> x.popRate == old(x.popRate) * niter0
    ensures forall x :: x in k0.outs ==> x.pushRate == old(x.pushRate) * niter0
    ensures forall x :: x in k1.ins ==> x.popRate == old(x.popRate) * niter1
    ensures forall x :: x in k1.outs ==> x.pushRate == old(x.pushRate) * niter1
  {
    Parts(k0.ins, k1.ins);
    Parts(k0.outs, k1.outs);
    hide Distinct;
    ScalePop(k0.ins, niter0);
    ScalePush(k0.outs, niter0);
    ScalePop(k1.ins, niter1);
    ScalePush(k1.outs, niter1);
  }

  /** Matches the rates of two kernels that share the stream s. Nothing is changed if one firing of the fused
      kernel would not fit a buffer; otherwise both rates of s become their least common multiple, and every
      other rate is that of all the firings together. */
  method MatchStreams(k0: Streams, k1: Streams, s: RuntimeStream) returns (ok: bool, niter0: nat, niter1: nat)
    requires s in k0.outs && s in k1.ins && 0 < s.pushRate && 0 < s.popRate
    requires Distinct(k0.ins + k1.ins) && Distinct(k0.outs + k1.outs)
    modifies (set x | x in k0.ins + k1.ins)`popRate, (set x | x in k0.outs + k1.outs)`pushRate
    ensures ok == ((forall x :: x in k0.ins ==> old(x.popRate) * x.elemSize * niter0 <= STREAMBUFFER)
                   && (forall x :: x in k0.outs ==> old(x.pushRate) * x.elemSize * niter0 <= STREAMBUFFER)
                   && (forall x :: x in k1.ins ==> old(x.popRate) * x.elemSize * niter1 <= STREAMBUFFER)
                   && (forall x :: x in k1.outs ==> old(x.pushRate) * x.elemSize * niter1 <= STREAMBUFFER))
    ensures !ok ==> forall x :: x in k0.ins + k1.ins ==> x.popRate == old(x.popRate)
    ensures !ok ==> forall x :: x in k0.outs + k1.outs ==> x.pushRate == old(x.pushRate)
    ensures ok ==> forall x :: x in k0.ins ==> x.popRate == old(x.popRate) * niter0
    ensures ok ==> forall x :: x in k0.outs ==> x.pushRate == old(x.pushRate) * niter0
    ensures ok ==> forall x :: x in k1.ins ==> x.popRate == old(x.popRate) * niter1
    ensures ok ==> forall x :: x in k1.outs ==> x.pushRate == old(x.pushRate) * niter1
    ensures 0 < niter0 && 0 < niter1 && niter0 * old(s.pushRate) == niter1 * old(s.popRate)
    ensures IsLcm(old(s.pushRate), old(s.popRate), niter0 * old(s.pushRate))
    ensures ok ==> s.pushRate == s.popRate == niter0 * old(s.pushRate)
  {
    hide IsLcm, Distinct;
    var lcm;
    niter0, niter1, lcm := MatchRates(s.pushRate, s.popRate);
    var a := PopsFit(k0.ins, niter0);
    var b := PushesFit(k0.outs, niter0);
    var c := PopsFit(k1.ins, niter1);
    var d := PushesFit(k1.outs, niter1);
    ok := a && b && c && d;
    if ok {
      AdjustRates(k0, k1, niter0, niter1);
    }
  }

  lemma Parts(a: seq<RuntimeStream>, b: seq<RuntimeStream>)
    requires Distinct(a + b)
    ensures Distinct(a) && Distinct(b) && forall x :: !(x in a && x in b)
    ensures forall x :: x in a + b <==> x in a || x in b
  {
    forall i, j | 0 <= i < j < |a|
      ensures a[i] != a[j]
    {
      assert (a + b)[i] != (a + b)[j];
    }
    forall i, j | 0 <= i < j < |b|
      ensures b[i] != b[j]
    {
      assert (a + b)[|a| + i] != (a + b)[|a| + j];
    }
    forall i, j | 0 <= i < |a| && 0 <= j < |b|
      ensures a[i] != b[j]
    {
      assert (a + b)[i] != (a + b)[|a| + j];
    }
  }
}
