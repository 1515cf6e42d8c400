/** A batch of firings on streams whose other ends keep running. */
module BatchRun {
  import opened Common
  import opened Wrappers
  import opened RingArith
  import opened RingMachine
  import opened Batch

  /** The header fields that the batch computation finds in a ring. */
  predicate HeaderOf(p: Port, sh: Shape, s: Ring) {
    p.head == s.head && p.tail == s.tail && p.es == sh.es
  }

  function Flat(firings: seq<seq<Event>>): seq<Event> {
    if firings == [] then [] else firings[0] + Flat(firings[1..])
  }

  lemma {:induction false} CopiesConcat(sh: Shape, a: seq<Event>, b: seq<Event>, m: nat, n: nat)
    requires CopiesWithin(sh, a, m) && CopiesWithin(sh, b, n)
    ensures CopiesWithin(sh, a + b, m + n)
    decreases |a|
  {
    if a == [] {
      assert a + b == b;
      CopiesMore(sh, b, n, m + n);
    } else {
      CopiesConcat(sh, a[1..], b, if a[0].Copy? then m - 1 else m, n);
      assert (a + b)[1..] == a[1..] + b;
    }
  }

  lemma {:induction false} CopiesMore(sh: Shape, a: seq<Event>, m: nat, n: nat)
    requires CopiesWithin(sh, a, m) && m <= n
    ensures CopiesWithin(sh, a, n)
    decreases |a|
  {
    if a != [] {
      CopiesMore(sh, a[1..], if a[0].Copy? then m - 1 else m, if a[0].Copy? then n - 1 else n);
    }
  }

  /** A firing that takes `pop` elements and peeks no further than `peek` past them. */
  predicate FiringTakes(a: seq<Event>, pop: nat, peek: nat) {
    Takes(a) == pop && TakesWithin(a, pop + peek)
  }

  lemma {:induction false} TakesConcat(a: seq<Event>, b: seq<Event>, n: nat)
    requires Takes(a) <= n && TakesWithin(a, n) && TakesWithin(b, n - Takes(a))
    ensures TakesWithin(a + b, n)
    decreases |a|
  {
    if a == [] {
      assert a + b == b;
    } else {
      TakesConcat(a[1..], b, if a[0].Take? then n - 1 else n);
      assert (a + b)[1..] == a[1..] + b;
    }
  }

  lemma {:induction false} TakesMore(a: seq<Event>, m: nat, n: nat)
    requires TakesWithin(a, m) && m <= n
    ensures TakesWithin(a, n)
    decreases |a|
  {
    if a != [] {
      TakesMore(a[1..], if a[0].Take? then m - 1 else m, if a[0].Take? then n - 1 else n);
    }
  }

  lemma {:induction false} FiringsCopy(sh: Shape, firings: seq<seq<Event>>, push: nat)
    requires forall k :: 0 <= k < |firings| ==> CopiesWithin(sh, firings[k], push)
    ensures CopiesWithin(sh, Flat(firings), |firings| * push)
    decreases |firings|
  {
    if firings != [] {
      FiringsCopy(sh, firings[1..], push);
      CopiesConcat(sh, firings[0], Flat(firings[1..]), push, (|firings| - 1) * push);
      assert push + (|firings| - 1) * push == |firings| * push;
    }
  }

  lemma {:induction false} FiringsTake(firings: seq<seq<Event>>, pop: nat, peek: nat)
    requires forall k :: 0 <= k < |firings| ==> FiringTakes(firings[k], pop, peek)
    ensures |firings| * pop >= 0 && TakesWithin(Flat(firings), |firings| * pop + peek)
    decreases |firings|
  {
    if firings != [] {
      FiringsTake(firings[1..], pop, peek);
      var rest := (|firings| - 1) * pop;
      assert pop + rest == |firings| * pop;
      TakesMore(firings[0], pop + peek, |firings| * pop + peek);
      TakesConcat(firings[0], Flat(firings[1..]), |firings| * pop + peek);
    }
  }

  lemma ScaleUp(n: nat, m: nat, rate: nat)
    requires n <= m
    ensures n * rate <= m * rate
  {
    Distributes(rate, n, m - n);
  }

  lemma BatchHasRoom(ins: seq<Port>, outs: seq<Port>, i: nat, bytes: nat, m: nat)
    requires AllValid(ins, OwnSize, bytes) && AllValid(outs, OwnSize, bytes) && bytes <= WORD64 / 4
    requires i < |outs| && 0 < m <= Niters(ins, outs, OwnSize, bytes)
    ensures m * outs[i].push <= Room(outs[i], outs[i].es, bytes)
  {
    var n := Niters(ins, outs, OwnSize, bytes);
    LeastIsBelow(Limits(ins, outs, OwnSize, bytes), bytes);
    LimitAt(ins, outs, OwnSize, bytes, n, i);
    ScaleUp(m, n, outs[i].push);
  }

  lemma BatchHasItems(ins: seq<Port>, outs: seq<Port>, i: nat, bytes: nat, m: nat)
    requires AllValid(ins, OwnSize, bytes) && AllValid(outs, OwnSize, bytes) && bytes <= WORD64 / 4
    requires i < |ins| && 0 < m <= Niters(ins, outs, OwnSize, bytes) && !Wraps(ins[i], ins[i].es, bytes)
    ensures 0 <= m * ins[i].pop + ins[i].peek <= Items(ins[i], ins[i].es, bytes)
  {
    var n := Niters(ins, outs, OwnSize, bytes);
    LeastIsBelow(Limits(ins, outs, OwnSize, bytes), bytes);
    LimitAt(ins, outs, OwnSize, bytes, n, |outs| + i);
    ScaleUp(m, n, ins[i].pop);
  }

  lemma CopiesAfterLook(sh: Shape, s: Ring, es: seq<Event>, need: nat)
    requires Inv(sh, s) && Enabled(sh, s, LookForRoom) && need <= Apply(sh, s, LookForRoom).room
    requires CopiesWithin(sh, es, need) && OthersObey(sh, Apply(sh, s, LookForRoom), es, true)
    ensures Run(sh, s, [LookForRoom] + es)
  {
    hide PushSpace;
    StepKeepsInv(sh, s, LookForRoom);
    CopiesStaySafe(sh, Apply(sh, s, LookForRoom), es, need);
    assert ([LookForRoom] + es)[1..] == es;
  }

  /** No unchecked push of a batch finds its output full: with the batch size computed from the headers of
      all streams, any number of firings up to it, at the declared push rate, runs to the end whatever the
      consumer does in between. */
  lemma PushesOfBatchAreSafe(ins: seq<Port>, outs: seq<Port>, i: nat, sh: Shape, s: Ring, firings: seq<seq<Event>>)
    requires AllValid(ins, OwnSize, sh.Bytes()) && AllValid(outs, OwnSize, sh.Bytes()) && sh.Bytes() <= WORD64 / 4
    requires 0 < |firings| <= Niters(ins, outs, OwnSize, sh.Bytes())
    requires i < |outs| && HeaderOf(outs[i], sh, s) && Inv(sh, s) && Enabled(sh, s, LookForRoom)
    requires forall k :: 0 <= k < |firings| ==> CopiesWithin(sh, firings[k], outs[i].push)
    requires OthersObey(sh, Apply(sh, s, LookForRoom), Flat(firings), true)
    ensures Run(sh, s, [LookForRoom] + Flat(firings))
  {
    hide PushSpace, OthersObey, CopiesWithin, Run;
    BatchHasRoom(ins, outs, i, sh.Bytes(), |firings|);
    FiringsCopy(sh, firings, outs[i].push);
    CopiesAfterLook(sh, s, Flat(firings), |firings| * outs[i].push);
  }

  /** No unchecked pop or peek of a batch finds its input short, unless the batch computation wrapped round. */
  lemma PopsOfBatchAreSafe(ins: seq<Port>, outs: seq<Port>, i: nat, sh: Shape, s: Ring, firings: seq<seq<Event>>)
    requires AllValid(ins, OwnSize, sh.Bytes()) && AllValid(outs, OwnSize, sh.Bytes()) && sh.Bytes() <= WORD64 / 4
    requires 0 < |firings| <= Niters(ins, outs, OwnSize, sh.Bytes())
    requires i < |ins| && HeaderOf(ins[i], sh, s) && Inv(sh, s) && Enabled(sh, s, LookForItems)
    requires !Wraps(ins[i], sh.es, sh.Bytes())
    requires forall k :: 0 <= k < |firings| ==> FiringTakes(firings[k], ins[i].pop, ins[i].peek)
    requires OthersObey(sh, Apply(sh, s, LookForItems), Flat(firings), false)
    ensures Run(sh, s, [LookForItems] + Flat(firings))
  {
    BatchHasItems(ins, outs, i, sh.Bytes(), |firings|);
    FiringsTake(firings, ins[i].pop, ins[i].peek);
    StepKeepsInv(sh, s, LookForItems);
    TakesStaySafe(sh, Apply(sh, s, LookForItems), Flat(firings), |firings| * ins[i].pop + ins[i].peek);
    assert ([LookForItems] + Flat(firings))[1..] == Flat(firings);
  }

  function TakesOnly(n: nat): seq<Event> {
    if n == 0 then [] else [Take] + TakesOnly(n - 1)
  }

  lemma {:induction false} TakesOnlyCount(n: nat, budget: nat)
    requires n <= budget
    ensures Takes(TakesOnly(n)) == n && TakesWithin(TakesOnly(n), budget)
    decreases n
  {
    if n > 0 {
      TakesOnlyCount(n - 1, budget - 1);
      assert TakesOnly(n)[1..] == TakesOnly(n - 1);
    }
  }

  /** And when it did wrap, even one firing at the declared rates may ask for an element that is not there. */
  lemma WrappedBatchIsUnsafe(ins: seq<Port>, outs: seq<Port>, i: nat, sh: Shape, s: Ring) returns (firing: seq<Event>)
    requires AllValid(ins, OwnSize, sh.Bytes()) && AllValid(outs, OwnSize, sh.Bytes())
    requires Niters(ins, outs, OwnSize, sh.Bytes()) > 0
    requires i < |ins| && HeaderOf(ins[i], sh, s) && Inv(sh, s) && Enabled(sh, s, LookForItems)
    requires Wraps(ins[i], sh.es, sh.Bytes())
    ensures FiringTakes(firing, ins[i].pop, ins[i].peek) && !Run(sh, s, [LookForItems] + firing)
  {
    var p := ins[i];
    TakesOnlyCount(p.pop, p.pop + p.peek);
    firing := [Peek(p.peek - 1)] + TakesOnly(p.pop);
    assert firing[1..] == TakesOnly(p.pop);
    StepKeepsInv(sh, s, LookForItems);
    assert ([LookForItems] + firing)[1..] == firing;
  }

  /** The header of an empty stream whose reader pops two elements and peeks at one beyond them. */
  const PEEKING := Port(0, 0, 4, 1, 2, 1, None, None)

  lemma LeastOfOne(limit: int, n: nat)
    requires 0 < limit && 0 < n
    ensures Least([limit], n) > 0
  {
    assert [limit][1..] == [];
  }

  /** A state that every such stream starts in: the batch computation wraps, allows firings, and already the first
      takes what is not there. */
  lemma EmptyInputIsUnsafe(s: Ring) returns (firing: seq<Event>)
    requires Init(Shape(4, 8192), s)
    ensures PEEKING.Valid(STREAMBUFFER) && HeaderOf(PEEKING, Shape(4, 8192), s) && Wraps(PEEKING, 4, STREAMBUFFER)
    ensures AllValid([PEEKING], OwnSize, STREAMBUFFER) && Niters([PEEKING], [], OwnSize, STREAMBUFFER) > 0
    ensures Enabled(Shape(4, 8192), s, LookForItems) && FiringTakes(firing, 2, 1)
    ensures !Run(Shape(4, 8192), s, [LookForItems] + firing)
  {
    var sh := Shape(4, 8192);
    InitInv(sh, s);
    assert Items(PEEKING, 4, STREAMBUFFER) == 0;
    PopLimitExact(PEEKING, 4, STREAMBUFFER, 1);
    assert Limits([PEEKING], [], OwnSize, STREAMBUFFER) == [PopLimit(PEEKING, 4, STREAMBUFFER)];
    LeastOfOne(PopLimit(PEEKING, 4, STREAMBUFFER), STREAMBUFFER);
    assert sh.Bytes() == STREAMBUFFER;
    firing := WrappedBatchIsUnsafe([PEEKING], [], 0, sh, s);
  }
}
