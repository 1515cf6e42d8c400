/** How many firings may run without checks. */
module Batch {
  import opened Common
  import opened Wrappers
  import opened RingArith

  /** What the batch computation reads of a stream header. */
  datatype Port = Port(head: nat, tail: nat, es: nat, push: nat, pop: nat, peek: nat,
                       src: Option<nat>, dst: Option<nat>) {
    predicate Valid(bytes: nat) {
      head < bytes && tail < bytes && 0 < es && 0 < push && 0 < pop && peek < 0x8000_0000 && pop < 0x8000_0000
    }
  }

  function OwnSize(p: Port): nat {
    p.es
  }

  /** Elements of `unit` bytes that could be pushed, and popped, now. */
  function Room(p: Port, unit: nat, bytes: nat): nat
    requires p.Valid(bytes) && 0 < unit
  {
    var space := PushSpace(p.head, p.tail, unit, bytes);
    assert 0 <= space;
    QuotientBounds(space, unit);
    space / unit
  }

  function Items(p: Port, unit: nat, bytes: nat): nat
    requires p.Valid(bytes) && 0 < unit
  {
    var space := PopSpace(p.head, p.tail, bytes);
    QuotientBounds(space, unit);
    space / unit
  }

  lemma QuotientBounds(space: int, unit: nat)
    requires 0 <= space && 0 < unit
    ensures 0 <= space / unit <= space
  {
    if space < unit {
      ModIs(space, 0, space, unit);
    } else {
      QuotientBounds(space - unit, unit);
      var q, r := (space - unit) / unit, (space - unit) % unit;
      Distributes(unit, q, 1);
      ModIs(space, q + 1, r, unit);
    }
  }

  function PushLimit(p: Port, unit: nat, bytes: nat): int
    requires p.Valid(bytes) && 0 < unit
  {
    Room(p, unit, bytes) / p.push
  }

  /** `(space - peek_rate) / pop_rate` in unsigned 64-bit arithmetic, stored in a signed variable. */
  function PopLimit(p: Port, unit: nat, bytes: nat): int
    requires p.Valid(bytes) && 0 < unit
  {
    var q := ((Items(p, unit, bytes) - p.peek) % WORD64) / p.pop;
    if q < WORD64 / 2 then q else q - WORD64
  }

  /** The least of `n` and the limits, or nothing as soon as one limit is not positive. */
  function Least(limits: seq<int>, n: nat): nat
    decreases |limits|
  {
    if limits == [] then n
    else if limits[0] <= 0 then 0
    else Least(limits[1..], if limits[0] < n then limits[0] else n)
  }

  function Limits(ins: seq<Port>, outs: seq<Port>, unit: Port -> nat, bytes: nat): seq<int>
    requires AllValid(ins, unit, bytes) && AllValid(outs, unit, bytes)
  {
    seq(|outs|, i requires 0 <= i < |outs| => PushLimit(outs[i], unit(outs[i]), bytes))
    + seq(|ins|, i requires 0 <= i < |ins| => PopLimit(ins[i], unit(ins[i]), bytes))
  }

  predicate AllValid(ps: seq<Port>, unit: Port -> nat, bytes: nat) {
    forall i {:trigger ps[i]} :: 0 <= i < |ps| ==> ps[i].Valid(bytes) && 0 < unit(ps[i])
  }

  // ---- the least of the limits ----

  lemma {:induction false} LeastIsBelow(limits: seq<int>, n: nat)
    ensures Least(limits, n) <= n
    ensures Least(limits, n) > 0 ==> forall i :: 0 <= i < |limits| ==> Least(limits, n) <= limits[i]
    ensures Least(limits, n) == 0 <==> n == 0 || exists i :: 0 <= i < |limits| && limits[i] <= 0
    ensures 0 < Least(limits, n) < n ==> Least(limits, n) in limits
    decreases |limits|
  {
    if limits != [] {
      if limits[0] > 0 {
        var m := if limits[0] < n then limits[0] else n;
        LeastIsBelow(limits[1..], m);
        assert forall i :: 0 < i < |limits| ==> limits[i] == limits[1..][i - 1];
        if 0 < Least(limits, n) < n {
          assert Least(limits, n) == m || Least(limits, n) in limits[1..];
        }
      }
    }
  }

  // ---- what a batch of n firings needs ----

  /** Room for all pushes of n firings. */
  predicate OutSafe(p: Port, unit: nat, bytes: nat, n: nat)
    requires p.Valid(bytes) && 0 < unit
  {
    n * p.push <= Room(p, unit, bytes)
  }

  /** Items for all pops of n firings, and for peeking `peek` items past them. */
  predicate InSafe(p: Port, unit: nat, bytes: nat, n: nat)
    requires p.Valid(bytes) && 0 < unit
  {
    n * p.pop + p.peek <= Items(p, unit, bytes)
  }

  lemma DivBelow(a: nat, b: nat, n: nat)
    requires 0 < b
    ensures n <= a / b <==> n * b <= a
  {
    var q, r := a / b, a % b;
    assert a == b * q + r;
    if n <= q {
      Distributes(b, n, q - n);
    } else {
      Ordered(b, q, n);
    }
  }

  lemma PushLimitExact(p: Port, unit: nat, bytes: nat, n: nat)
    requires p.Valid(bytes) && 0 < unit
    ensures n <= PushLimit(p, unit, bytes) <==> OutSafe(p, unit, bytes, n)
  {
    DivBelow(Room(p, unit, bytes), p.push, n);
  }

  /** With too few items even to peek, the subtraction wraps round: a pop rate of 1 makes the quotient look
      negative, any larger one leaves it huge. */
  predicate Wraps(p: Port, unit: nat, bytes: nat)
    requires p.Valid(bytes) && 0 < unit
  {
    p.peek > Items(p, unit, bytes) && p.pop >= 2
  }

  lemma PopLimitExact(p: Port, unit: nat, bytes: nat, n: nat)
    requires p.Valid(bytes) && 0 < unit && bytes <= WORD64 / 4 && 0 < n
    ensures n <= PopLimit(p, unit, bytes) ==> (InSafe(p, unit, bytes, n) <==> !Wraps(p, unit, bytes))
    ensures InSafe(p, unit, bytes, n) ==> n <= PopLimit(p, unit, bytes)
    ensures Wraps(p, unit, bytes) ==> PopLimit(p, unit, bytes) > WORD64 / 0x1_0000_0000
  {
    var items := Items(p, unit, bytes);
    QuotientBounds(PopSpace(p.head, p.tail, bytes), unit);
    assert items < bytes;
    if items >= p.peek {
      ModIs(items - p.peek, 0, items - p.peek, WORD64);
      QuotientBounds(items - p.peek, p.pop);
      DivBelow(items - p.peek, p.pop, n);
    } else {
      var d := items - p.peek + WORD64;
      assert (items - p.peek) % WORD64 == d;
      assert p.pop == 1 ==> d / p.pop == d;
      if p.pop >= 2 {
        DivBelow(d, p.pop, WORD64 / 2);
        Distributes(WORD64 / 2, 2, p.pop - 2);
        DivBelow(d, p.pop, WORD64 / 0x1_0000_0000 + 1);
        Small(p.pop, d);
      }
      assert n * p.pop >= 0;
    }
  }

  lemma Small(pop: nat, d: nat)
    requires pop < 0x8000_0000 && WORD64 - 0x8000_0000 <= d
    ensures (WORD64 / 0x1_0000_0000 + 1) * pop <= d
  {
  }

  // ---- the batch size ----

  function Niters(ins: seq<Port>, outs: seq<Port>, unit: Port -> nat, bytes: nat): nat
    requires AllValid(ins, unit, bytes) && AllValid(outs, unit, bytes)
  {
    Least(Limits(ins, outs, unit, bytes), bytes)
  }

  /** Which limit is the first that is not positive. */
  function FirstShort(limits: seq<int>): nat {
    if limits == [] || limits[0] <= 0 then 0 else 1 + FirstShort(limits[1..])
  }

  /** Going through the limits has come to position i with the least of n so far. */
  predicate SoFar(limits: seq<int>, bytes: nat, i: nat, n: nat) {
    && i <= |limits| && 0 < n && Least(limits, bytes) == Least(limits[i..], n)
    && FirstShort(limits) == i + FirstShort(limits[i..])
  }

  lemma SoFarNone(limits: seq<int>, bytes: nat)
    requires 0 < bytes
    ensures SoFar(limits, bytes, 0, bytes)
  {
    assert limits[0..] == limits;
  }

  lemma SoFarNext(limits: seq<int>, bytes: nat, i: nat, n: nat)
    requires SoFar(limits, bytes, i, n) && i < |limits|
    ensures limits[i] <= 0 ==> Least(limits, bytes) == 0 && FirstShort(limits) == i
    ensures limits[i] > 0 ==> SoFar(limits, bytes, i + 1, if limits[i] < n then limits[i] else n)
  {
    assert limits[i..][1..] == limits[i + 1..];
  }

  lemma SoFarAll(limits: seq<int>, bytes: nat, n: nat)
    requires SoFar(limits, bytes, |limits|, n)
    ensures Least(limits, bytes) == n
  {
    assert limits[|limits|..] == [];
  }

  lemma OutLimit(ins: seq<Port>, outs: seq<Port>, bytes: nat, i: nat)
    requires AllValid(ins, OwnSize, bytes) && AllValid(outs, OwnSize, bytes) && i < |outs|
    ensures outs[i].Valid(bytes) && |Limits(ins, outs, OwnSize, bytes)| == |outs| + |ins|
    ensures Limits(ins, outs, OwnSize, bytes)[i] == PushLimit(outs[i], outs[i].es, bytes)
  {
  }

  lemma InLimit(ins: seq<Port>, outs: seq<Port>, bytes: nat, i: nat)
    requires AllValid(ins, OwnSize, bytes) && AllValid(outs, OwnSize, bytes) && i < |ins|
    ensures ins[i].Valid(bytes) && |Limits(ins, outs, OwnSize, bytes)| == |outs| + |ins|
    ensures Limits(ins, outs, OwnSize, bytes)[|outs| + i] == PopLimit(ins[i], ins[i].es, bytes)
  {
  }

  lemma NitersIs(ins: seq<Port>, outs: seq<Port>, bytes: nat)
    requires AllValid(ins, OwnSize, bytes) && AllValid(outs, OwnSize, bytes)
    ensures Niters(ins, outs, OwnSize, bytes) == Least(Limits(ins, outs, OwnSize, bytes), bytes)
    ensures |Limits(ins, outs, OwnSize, bytes)| == |outs| + |ins|
  {
  }

  method FiringsByOutput(s: Port, bytes: nat) returns (npush: int)
    requires s.Valid(bytes)
    ensures npush == PushLimit(s, s.es, bytes)
  {
    var space := Room(s, s.es, bytes);
    npush := space / s.push;
  }

  method FiringsByInput(s: Port, bytes: nat) returns (npop: int)
    requires s.Valid(bytes)
    ensures npop == PopLimit(s, s.es, bytes)
  {
    var space := Items(s, s.es, bytes);
    var quotient := ((space - s.peek) % WORD64) / s.pop;
    npop := if quotient < WORD64 / 2 then quotient else quotient - WORD64;
  }

  /** Goes through the outputs, then the inputs, and stops at the first stream that allows no firing: its
      other end is what the kernel is blocked on. */
  method ComputeNiters(ins: seq<Port>, outs: seq<Port>, bytes: nat) returns (v: Option<nat>, n: nat)
    requires AllValid(ins, OwnSize, bytes) && AllValid(outs, OwnSize, bytes) && 0 < bytes
    ensures n == Niters(ins, outs, OwnSize, bytes)
    ensures n > 0 ==> v == None
    ensures n == 0 ==> (var i := FirstShort(Limits(ins, outs, OwnSize, bytes));
                        i < |outs| + |ins| && v == if i < |outs| then outs[i].dst else ins[i - |outs|].src)
  {
    hide AllValid, Niters, SoFar, Least, FirstShort, Limits, PushLimit, PopLimit, Port.Valid;
    ghost var limits := Limits(ins, outs, OwnSize, bytes);
    NitersIs(ins, outs, bytes);
    SoFarNone(limits, bytes);
    n := bytes;
    var i := 0;
    while i < |outs|
      invariant 0 <= i <= |outs| && 0 < n && SoFar(limits, bytes, i, n)
    {
      var s := outs[i];
      OutLimit(ins, outs, bytes, i);
      var npush := FiringsByOutput(s, bytes);
      SoFarNext(limits, bytes, i, n);
      if npush <= 0 { return s.dst, 0; }
      n := if npush < n then npush else n;
      i := i + 1;
    }
    i := 0;
    while i < |ins|
      invariant 0 <= i <= |ins| && 0 < n && SoFar(limits, bytes, |outs| + i, n)
    {
      var s := ins[i];
      InLimit(ins, outs, bytes, i);
      var npop := FiringsByInput(s, bytes);
      SoFarNext(limits, bytes, |outs| + i, n);
      if npop <= 0 { return s.src, 0; }
      n := if npop < n then npop else n;
      i := i + 1;
    }
    SoFarAll(limits, bytes, n);
    return None, n;
  }

  ghost predicate BatchSafe(ins: seq<Port>, outs: seq<Port>, unit: Port -> nat, bytes: nat, n: nat)
    requires AllValid(ins, unit, bytes) && AllValid(outs, unit, bytes)
  {
    && (forall i {:trigger outs[i]} :: 0 <= i < |outs| ==> OutSafe(outs[i], unit(outs[i]), bytes, n))
    && (forall i {:trigger ins[i]} :: 0 <= i < |ins| ==> InSafe(ins[i], unit(ins[i]), bytes, n))
  }

  ghost predicate NoneWraps(ins: seq<Port>, unit: Port -> nat, bytes: nat)
    requires AllValid(ins, unit, bytes)
  {
    forall i {:trigger ins[i]} :: 0 <= i < |ins| ==> !Wraps(ins[i], unit(ins[i]), bytes)
  }

  lemma LimitAt(ins: seq<Port>, outs: seq<Port>, unit: Port -> nat, bytes: nat, n: nat, i: nat)
    requires AllValid(ins, unit, bytes) && AllValid(outs, unit, bytes) && bytes <= WORD64 / 4 && 0 < n
    requires i < |outs| + |ins|
    ensures var limits := Limits(ins, outs, unit, bytes);
            && |limits| == |outs| + |ins|
            && (i < |outs| ==> (n <= limits[i] <==> OutSafe(outs[i], unit(outs[i]), bytes, n)))
            && (i >= |outs| ==> var p := ins[i - |outs|];
                                && (InSafe(p, unit(p), bytes, n) ==> n <= limits[i])
                                && (n <= limits[i] ==> (InSafe(p, unit(p), bytes, n) <==> !Wraps(p, unit(p), bytes))))
  {
    if i < |outs| {
      PushLimitExact(outs[i], unit(outs[i]), bytes, n);
    } else {
      PopLimitExact(ins[i - |outs|], unit(ins[i - |outs|]), bytes, n);
    }
  }

  predicate Within(n: nat, limits: seq<int>) {
    forall i :: 0 <= i < |limits| ==> n <= limits[i]
  }

  lemma SafeIsWithin(ins: seq<Port>, outs: seq<Port>, unit: Port -> nat, bytes: nat, n: nat)
    requires AllValid(ins, unit, bytes) && AllValid(outs, unit, bytes) && bytes <= WORD64 / 4 && 0 < n
    requires BatchSafe(ins, outs, unit, bytes, n)
    ensures Within(n, Limits(ins, outs, unit, bytes))
  {
    var limits := Limits(ins, outs, unit, bytes);
    forall i | 0 <= i < |limits|
      ensures n <= limits[i]
    {
      LimitAt(ins, outs, unit, bytes, n, i);
      if i >= |outs| {
        assert InSafe(ins[i - |outs|], unit(ins[i - |outs|]), bytes, n);
      } else {
        assert OutSafe(outs[i], unit(outs[i]), bytes, n);
      }
    }
  }

  lemma WithinIsSafeIff(ins: seq<Port>, outs: seq<Port>, unit: Port -> nat, bytes: nat, n: nat)
    requires AllValid(ins, unit, bytes) && AllValid(outs, unit, bytes) && bytes <= WORD64 / 4 && 0 < n
    requires Within(n, Limits(ins, outs, unit, bytes))
    ensures BatchSafe(ins, outs, unit, bytes, n) <==> NoneWraps(ins, unit, bytes)
  {
    forall i | 0 <= i < |outs|
      ensures OutSafe(outs[i], unit(outs[i]), bytes, n)
    {
      LimitAt(ins, outs, unit, bytes, n, i);
    }
    forall i | 0 <= i < |ins|
      ensures InSafe(ins[i], unit(ins[i]), bytes, n) <==> !Wraps(ins[i], unit(ins[i]), bytes)
    {
      LimitAt(ins, outs, unit, bytes, n, |outs| + i);
    }
  }

  /** A batch is safe exactly when no input has fewer items than its peek rate at a pop rate above one. */
  lemma BatchSafeIff(ins: seq<Port>, outs: seq<Port>, unit: Port -> nat, bytes: nat)
    requires AllValid(ins, unit, bytes) && AllValid(outs, unit, bytes) && bytes <= WORD64 / 4
    requires Niters(ins, outs, unit, bytes) > 0
    ensures BatchSafe(ins, outs, unit, bytes, Niters(ins, outs, unit, bytes)) <==> NoneWraps(ins, unit, bytes)
  {
    LeastIsBelow(Limits(ins, outs, unit, bytes), bytes);
    WithinIsSafeIff(ins, outs, unit, bytes, Niters(ins, outs, unit, bytes));
  }

  /** And it is as large as can be: any n that is safe, up to the buffer size, is no more than it. */
  lemma BatchIsLargest(ins: seq<Port>, outs: seq<Port>, unit: Port -> nat, bytes: nat, n: nat)
    requires AllValid(ins, unit, bytes) && AllValid(outs, unit, bytes) && bytes <= WORD64 / 4
    requires 0 < n <= bytes && BatchSafe(ins, outs, unit, bytes, n)
    ensures n <= Niters(ins, outs, unit, bytes)
  {
    SafeIsWithin(ins, outs, unit, bytes, n);
    LeastIsBelow(Limits(ins, outs, unit, bytes), bytes);
  }

  // ---- the specialised skeleton for one input and one output ----

  /** It counts in elements of 4 bytes whatever the element size is. */
  function Niters11(in0: Port, out0: Port): nat
    requires in0.Valid(STREAMBUFFER) && out0.Valid(STREAMBUFFER)
  {
    Niters([in0], [out0], _ => 4, STREAMBUFFER)
  }

  /** The header of a stream of `es`-byte elements after w pushes and r pops. */
  function PortAt(es: nat, w: nat, r: nat, push: nat, pop: nat, peek: nat): Port
    requires 0 < es && STREAMBUFFER % es == 0
  {
    DividesSome(es);
    var sh := Shape(es, STREAMBUFFER / es);
    Port(sh.Cursor(w), sh.Cursor(r), es, push, pop, peek, None, None)
  }

  lemma DividesSome(es: nat)
    requires 0 < es && STREAMBUFFER % es == 0
    ensures es <= STREAMBUFFER && Shape(es, STREAMBUFFER / es).Valid()
    ensures Shape(es, STREAMBUFFER / es).Bytes() == STREAMBUFFER
  {
    if es > STREAMBUFFER {
      ModIs(STREAMBUFFER, 0, STREAMBUFFER, es);
    }
  }

  predicate Held(es: nat, w: nat, r: nat)
    requires 0 < es
  {
    r <= w < r + STREAMBUFFER / es
  }

  /** Rates the skeleton is compiled for. */
  predicate RatesValid(push: nat, pop: nat, peek: nat) {
    0 < push && 0 < pop < 0x8000_0000 && peek < 0x8000_0000
  }

  /** The skeleton's batch, if it is not empty, needs no more than there is, in elements of the real size. */
  ghost predicate Skeleton11Safe(es: nat, w: nat, r: nat, w2: nat, r2: nat, push: nat, pop: nat, peek: nat)
    requires 0 < es && STREAMBUFFER % es == 0 && RatesValid(push, pop, peek)
  {
    PortsValid(es, w, r, push, pop, peek);
    PortsValid(es, w2, r2, push, pop, 0);
    var n := Niters11(PortAt(es, w, r, push, pop, peek), PortAt(es, w2, r2, push, pop, 0));
    n > 0 ==> n * pop + peek <= w - r && n * push <= STREAMBUFFER / es - 1 - (w2 - r2)
  }

  lemma PortsValid(es: nat, w: nat, r: nat, push: nat, pop: nat, peek: nat)
    requires 0 < es && STREAMBUFFER % es == 0 && RatesValid(push, pop, peek)
    ensures PortAt(es, w, r, push, pop, peek).Valid(STREAMBUFFER)
  {
    DividesSome(es);
  }

  lemma Skeleton11Safe4(w: nat, r: nat, w2: nat, r2: nat, push: nat, pop: nat, peek: nat)
    requires Held(4, w, r) && Held(4, w2, r2) && RatesValid(push, pop, peek) && (peek <= w - r || pop == 1)
    ensures Skeleton11Safe(4, w, r, w2, r2, push, pop, peek)
  {
    var sh := Shape(4, STREAMBUFFER / 4);
    PortsValid(4, w, r, push, pop, peek);
    PortsValid(4, w2, r2, push, pop, 0);
    var (p, q) := (PortAt(4, w, r, push, pop, peek), PortAt(4, w2, r2, push, pop, 0));
    PopSpaceCounts(sh, w, r);
    PushSpaceCounts(sh, w2, r2);
    DivExact(4, w - r);
    DivExact(4, sh.cap - 1 - (w2 - r2));
    assert Items(p, 4, STREAMBUFFER) == w - r && Room(q, 4, STREAMBUFFER) == sh.cap - 1 - (w2 - r2);
    var n := Niters11(p, q);
    if n > 0 {
      BatchSafeIff([p], [q], _ => 4, STREAMBUFFER);
      assert OutSafe([q][0], 4, STREAMBUFFER, n) && InSafe([p][0], 4, STREAMBUFFER, n);
    }
  }

  /** The batch size for unit rates, from what the two cursor pairs say in units of 4 bytes. */
  lemma Niters11At(p: Port, q: Port)
    requires p.Valid(STREAMBUFFER) && q.Valid(STREAMBUFFER) && p.pop == 1 && p.peek == 0 && q.push == 1
    requires Items(p, 4, STREAMBUFFER) > 0 && Room(q, 4, STREAMBUFFER) > 0
    ensures Niters11(p, q) > 0
    ensures Items(p, 4, STREAMBUFFER) > 1 && Room(q, 4, STREAMBUFFER) > 1 ==> Niters11(p, q) > 1
  {
    var limits := Limits([p], [q], _ => 4, STREAMBUFFER);
    QuotientBounds(PopSpace(p.head, p.tail, STREAMBUFFER), 4);
    assert limits == [Room(q, 4, STREAMBUFFER), Items(p, 4, STREAMBUFFER)];
    LeastIsBelow(limits, STREAMBUFFER);
  }

  /** With smaller elements a full output looks empty. */
  lemma SmallUnsafe(es: nat)
    requires es == 1 || es == 2
    ensures !Skeleton11Safe(es, STREAMBUFFER / es - 1, 0, STREAMBUFFER / es - 1, 0, 1, 1, 0)
  {
    var w := STREAMBUFFER / es - 1;
    CursorAt(es, w);
    PortsValid(es, w, 0, 1, 1, 0);
    assert es * w == STREAMBUFFER - es;
    Niters11At(PortAt(es, w, 0, 1, 1, 0), PortAt(es, w, 0, 1, 1, 0));
  }

  /** With larger ones one item counts as several. */
  lemma LargeUnsafe(es: nat)
    requires 8 <= es < STREAMBUFFER && STREAMBUFFER % es == 0 && 1 < STREAMBUFFER / es
    ensures !Skeleton11Safe(es, 1, 0, 0, 0, 1, 1, 0)
  {
    CursorAt(es, 1);
    CursorAt(es, 0);
    PortsValid(es, 1, 0, 1, 1, 0);
    PortsValid(es, 0, 0, 1, 1, 0);
    Niters11At(PortAt(es, 1, 0, 1, 1, 0), PortAt(es, 0, 0, 1, 1, 0));
  }

  lemma PowersOfTwo(es: nat)
    requires 0 < es < STREAMBUFFER && STREAMBUFFER % es == 0
    ensures 1 < STREAMBUFFER / es && (es < 8 ==> es == 1 || es == 2 || es == 4)
  {
    DividesSome(es);
    var cap := STREAMBUFFER / es;
    assert es * cap == STREAMBUFFER;
    assert cap == 1 ==> es * cap == es;
    assert STREAMBUFFER % 3 != 0 && STREAMBUFFER % 5 != 0 && STREAMBUFFER % 6 != 0 && STREAMBUFFER % 7 != 0;
  }

  lemma CursorAt(es: nat, w: nat)
    requires 0 < es && STREAMBUFFER % es == 0 && w < STREAMBUFFER / es
    ensures PortAt(es, w, 0, 1, 1, 0) == Port(es * w, 0, es, 1, 1, 0, None, None)
  {
    DividesSome(es);
    ModIs(w, 0, w, STREAMBUFFER / es);
  }

  /** The skeleton is safe in every state of its two streams in which the batch computation does not wrap exactly
      for elements of 4 bytes. */
  lemma Skeleton11SafeIff(es: nat)
    requires 0 < es < STREAMBUFFER && STREAMBUFFER % es == 0
    ensures es == 4 <==> forall w: nat, r: nat, w2: nat, r2: nat, push: nat, pop: nat, peek: nat ::
                           Held(es, w, r) && Held(es, w2, r2) && RatesValid(push, pop, peek)
                           && (peek <= w - r || pop == 1) ==>
                             Skeleton11Safe(es, w, r, w2, r2, push, pop, peek)
  {
    if es == 4 {
      forall w, r, w2, r2, push, pop, peek |
          Held(4, w, r) && Held(4, w2, r2) && RatesValid(push, pop, peek) && (peek <= w - r || pop == 1)
        ensures Skeleton11Safe(4, w, r, w2, r2, push, pop, peek)
      {
        Skeleton11Safe4(w, r, w2, r2, push, pop, peek);
      }
    } else {
      PowersOfTwo(es);
      var cap := STREAMBUFFER / es;
      if es < 8 {
        SmallUnsafe(es);
        assert Held(es, cap - 1, 0) && RatesValid(1, 1, 0);
      } else {
        LargeUnsafe(es);
        assert Held(es, 1, 0) && Held(es, 0, 0) && RatesValid(1, 1, 0);
      }
    }
  }
}
