/** What fission promises: the kernel's own output, and no deadlock of its own. */
module FissionTheorems {
  import opened RingArith
  import opened Fission

  predicate Init<T>(p: Plan<T>, s: State<T>) {
    && Shaped(p, s)
    && (forall i :: 0 <= i < p.width ==> |s.mids[i]| == 0 && |s.outs[i]| == 0 && s.fired[i] == 0)
    && |s.out| == |s.fed| == |s.inp| == s.split == s.joined == 0
  }

  predicate Run<T>(p: Plan<T>, s: State<T>, es: seq<Event<T>>)
    decreases |es|
  {
    es == [] || (Shaped(p, s) && Enabled(p, s, es[0]) && Run(p, Apply(p, s, es[0]), es[1..]))
  }

  function After<T>(p: Plan<T>, s: State<T>, es: seq<Event<T>>): State<T>
    requires Run(p, s, es)
    decreases |es|
  {
    if es == [] then s else After(p, Apply(p, s, es[0]), es[1..])
  }

  lemma InitInv<T>(p: Plan<T>, s: State<T>)
    requires Init(p, s)
    ensures Inv(p, s)
  {
    assert 0 % p.width == 0 by { ModIs(0, 0, 0, p.width); }
    forall i | 0 <= i < p.width
      ensures Counts(p, s, i)
    {
      ModIs(0, 0, 0, p.width);
    }
  }

  lemma {:induction false} RunKeepsInv<T>(p: Plan<T>, s: State<T>, es: seq<Event<T>>)
    requires Inv(p, s) && Run(p, s, es)
    ensures Inv(p, After(p, s, es))
    decreases |es|
  {
    if es != [] {
      StepKeepsInv(p, s, es[0]);
      RunKeepsInv(p, Apply(p, s, es[0]), es[1..]);
    }
  }

  // ---- the history is that of the run ----

  /** All that a run feeds. */
  function FedBy<T>(es: seq<Event<T>>): seq<T> {
    if es == [] then [] else (if es[0].Feed? then es[0].items else []) + FedBy(es[1..])
  }

  /** All the room that a run makes in the outer output. */
  function RoomMade<T>(es: seq<Event<T>>): nat {
    if es == [] then 0 else (if es[0].Drain? then es[0].pieces else 0) + RoomMade(es[1..])
  }

  function Times<T(==)>(es: seq<Event<T>>, e: Event<T>): nat {
    if es == [] then 0 else (if es[0] == e then 1 else 0) + Times(es[1..], e)
  }

  /** The input is what the run has fed; every step of the splitter, a replica or the joiner handles one piece; and
      every piece that is joined uses up room in the outer output. */
  lemma {:induction false} HistoryIsTheRuns<T>(p: Plan<T>, s: State<T>, es: seq<Event<T>>, i: nat)
    requires Inv(p, s) && Run(p, s, es) && i < p.width
    ensures var s' := After(p, s, es);
            && Shaped(p, s') && s'.fed == s.fed + FedBy(es)
            && s'.joined + s'.room == s.joined + s.room + RoomMade(es)
            && s'.split == s.split + Times(es, Split) && s'.fired[i] == s.fired[i] + Times(es, Replica(i))
            && s'.joined == s.joined + Times(es, Join)
    decreases |es|
  {
    if es != [] {
      var s' := Apply(p, s, es[0]);
      StepKeepsInv(p, s, es[0]);
      StepIsCounted(p, s, es[0], i);
      HistoryIsTheRuns(p, s', es[1..], i);
      assert s.fed + FedBy(es) == s.fed + (if es[0].Feed? then es[0].items else []) + FedBy(es[1..]);
    }
  }

  lemma StepIsCounted<T>(p: Plan<T>, s: State<T>, e: Event<T>, i: nat)
    requires Inv(p, s) && Enabled(p, s, e) && i < p.width
    ensures var s' := Apply(p, s, e);
            && Shaped(p, s') && s'.fed == s.fed + (if e.Feed? then e.items else [])
            && s'.joined + s'.room == s.joined + s.room + (if e.Drain? then e.pieces else 0)
            && s'.split == s.split + (if e == Split then 1 else 0)
            && s'.fired[i] == s.fired[i] + (if e == Replica(i) then 1 else 0)
            && s'.joined == s.joined + (if e == Join then 1 else 0)
  {
    hide MidHolds, OutHolds, Counts, Mapped;
    if e.Split? {
      RoundHasRoom(p, s);
    } else if e.Join? {
      RoundHasPieces(p, s);
    }
  }

  // ---- meaning ----

  lemma {:induction false} MappedPrefix<T>(p: Plan<T>, fed: seq<T>, m: nat, n: nat)
    requires m <= n
    ensures Mapped(p, fed, m) <= Mapped(p, fed, n)
    decreases n
  {
    if m < n {
      MappedPrefix(p, fed, m, n - 1);
    }
  }

  /** In every reachable state the joined output is the kernel mapped over the first pieces of what was fed, in
      order; so it is a prefix of the kernel mapped over all whole pieces there are. It has as many pieces as the
      joiner has made steps, and never more than the outer output has had room for. */
  lemma OutputIsPrefix<T>(p: Plan<T>, s0: State<T>, es: seq<Event<T>>)
    requires Init(p, s0) && Run(p, s0, es)
    ensures var s := After(p, s0, es);
            && s.out == Mapped(p, s.fed, s.joined) && s.joined <= |s.fed| / p.pop
            && s.out <= Mapped(p, s.fed, |s.fed| / p.pop)
            && s.fed == FedBy(es) && s.joined == Times(es, Join)
            && s.joined + s.room == s0.room + RoomMade(es)
  {
    InitInv(p, s0);
    RunKeepsInv(p, s0, es);
    HistoryIsTheRuns(p, s0, es, 0);
    var s := After(p, s0, es);
    Below(p.pop, s.joined, s.split);
    DivHolds(s.joined, p.pop, |s.fed|);
    MappedPrefix(p, s.fed, s.joined, |s.fed| / p.pop);
  }

  lemma DivHolds(n: nat, pop: nat, len: nat)
    requires 0 < pop && n * pop <= len
    ensures n <= len / pop
  {
    var (q, r) := (len / pop, len % pop);
    if q < n {
      Ordered(pop, q, n);
    }
  }

  // ---- progress ----

  predicate SplitReady<T>(p: Plan<T>, s: State<T>)
    requires p.Valid()
  {
    s.split % p.width != 0 || p.width * p.pop <= |s.inp|
  }

  predicate JoinReady<T>(p: Plan<T>, s: State<T>)
    requires p.Valid()
  {
    s.joined % p.width != 0 || p.width <= s.room
  }

  predicate Internal<T>(e: Event<T>) {
    e.Split? || e.Replica? || e.Join?
  }

  /** Between rounds every replica has had the same share. */
  lemma EvenShare(width: nat, n: nat, i: nat)
    requires i < width && n % width == 0
    ensures Share(width, n, i) == n / width
  {
  }

  lemma NextReplica<T>(p: Plan<T>, s: State<T>, i: nat) returns (e: Event<T>)
    requires Inv(p, s) && i < p.width && s.split % p.width == 0 && s.joined % p.width == 0 && s.mids[i] != []
    requires JoinReady(p, s)
    ensures Internal(e) && Enabled(p, s, e)
  {
    if |s.outs[i]| < p.outCap {
      e := Replica(i);
    } else if j: nat :| j < p.width && s.outs[j] == [] {
      assert Counts(p, s, i) && Counts(p, s, j);
      EvenShare(p.width, s.split, i);
      EvenShare(p.width, s.split, j);
      EvenShare(p.width, s.joined, i);
      EvenShare(p.width, s.joined, j);
      e := Replica(j);
    } else {
      e := Join;
    }
  }

  /** If the splitter is in a round or its input holds one, and the joiner is in a round or its output has
      room for one, then one of splitter, replicas and joiner can go on. */
  lemma NoInternalDeadlock<T>(p: Plan<T>, s: State<T>) returns (e: Event<T>)
    requires Inv(p, s) && SplitReady(p, s) && JoinReady(p, s)
    ensures Internal(e) && Enabled(p, s, e)
  {
    if s.split % p.width != 0 {
      e := Split;
    } else if s.joined % p.width != 0 {
      e := Join;
    } else if i: nat :| i < p.width && |s.mids[i]| >= p.midCap {
      e := NextReplica(p, s, i);
    } else {
      e := Split;
    }
  }

  /** How many elements the splitter takes in a round. */
  function RoundSize<T>(p: Plan<T>): (r: nat)
    requires p.Valid()
    ensures 0 < r
  {
    Ordered(p.pop, 0, p.width);
    p.width * p.pop
  }

  /** How many pieces the complete rounds in `len` elements make. */
  function WholeRounds<T>(p: Plan<T>, len: nat): nat
    requires p.Valid()
  {
    (len / RoundSize(p)) * p.width
  }

  /** Once nothing can go on although the output has room, everything is drained: less than a round of input
      is left, and the output is the kernel mapped over all complete rounds. */
  lemma DrainedIsComplete<T>(p: Plan<T>, s: State<T>)
    requires Inv(p, s) && JoinReady(p, s) && forall e :: Internal(e) ==> !Enabled(p, s, e)
    ensures |s.inp| < RoundSize(p) && s.out == Mapped(p, s.fed, WholeRounds(p, |s.fed|))
  {
    if SplitReady(p, s) {
      var e := NoInternalDeadlock(p, s);
      assert false;
    }
    assert Internal<T>(Join) && Internal<T>(Split);
    assert s.joined % p.width == 0;
    if i: nat :| i < p.width && s.mids[i] != [] {
      var e := NextReplica(p, s, i);
      assert false;
    }
    JoinedAll(p, s);
    RoundsOf(p.width, p.pop, s.split, |s.fed|);
  }

  lemma JoinedAll<T>(p: Plan<T>, s: State<T>)
    requires Inv(p, s) && s.split % p.width == 0 && s.joined % p.width == 0
    requires forall i :: 0 <= i < p.width ==> s.mids[i] == []
    requires !Enabled(p, s, Join) && JoinReady(p, s)
    ensures s.joined == s.split
  {
    var i :| 0 <= i < p.width && s.outs[i] == [];
    assert Counts(p, s, i);
    EvenShare(p.width, s.split, i);
    EvenShare(p.width, s.joined, i);
    assert s.split == (s.split / p.width) * p.width && s.joined == (s.joined / p.width) * p.width;
  }

  lemma RoundsOf(width: nat, pop: nat, n: nat, len: nat)
    requires 0 < width && 0 < pop && n % width == 0 && 0 <= n * pop <= len < n * pop + width * pop
    ensures 0 < width * pop && (len / (width * pop)) * width == n
  {
    var (q, round) := (n / width, width * pop);
    Ordered(pop, 0, width);
    assert n == q * width;
    assert n * pop == round * q;
    ModIs(len, q, len - n * pop, round);
  }

  // ---- and an end ----

  /** How many pieces the first k replicas have handled. */
  function Total(fired: seq<nat>, k: nat): nat
    requires k <= |fired|
  {
    if k == 0 then 0 else Total(fired, k - 1) + fired[k - 1]
  }

  /** Pieces handled by the splitter, the replicas and the joiner. */
  function Handled<T>(p: Plan<T>, s: State<T>): nat
    requires Shaped(p, s)
  {
    s.split + Total(s.fired, p.width) + s.joined
  }

  function Shares(width: nat, n: nat, k: nat): nat
    requires k <= width
  {
    if k == 0 then 0 else Shares(width, n, k - 1) + Share(width, n, k - 1)
  }

  lemma {:induction false} NoShares(width: nat, k: nat)
    requires k <= width
    ensures Shares(width, 0, k) == 0
  {
    if k > 0 {
      ModIs(0, 0, 0, width);
      NoShares(width, k - 1);
    }
  }

  lemma {:induction false} SharesNext(width: nat, n: nat, k: nat)
    requires k <= width && 0 < width
    ensures Shares(width, n + 1, k) == Shares(width, n, k) + if n % width < k then 1 else 0
  {
    if k > 0 {
      SharesNext(width, n, k - 1);
      ShareNext(width, n, k - 1);
    }
  }

  lemma {:induction false} SharesAddUp(width: nat, n: nat)
    requires 0 < width
    ensures Shares(width, n, width) == n
  {
    if n == 0 {
      NoShares(width, width);
    } else {
      SharesAddUp(width, n - 1);
      SharesNext(width, n - 1, width);
    }
  }

  lemma {:induction false} FiredWithinShares<T>(p: Plan<T>, s: State<T>, k: nat)
    requires Inv(p, s) && k <= p.width
    ensures Total(s.fired, k) <= Shares(p.width, s.split, k)
  {
    hide Share, Piece, MidHolds, OutHolds, InRound;
    if k > 0 {
      FiredWithinShares(p, s, k - 1);
      assert Counts(p, s, k - 1);
    }
  }

  lemma {:induction false} OneMoreFired(fired: seq<nat>, i: nat, k: nat)
    requires i < |fired| && k <= |fired|
    ensures Total(fired[i := fired[i] + 1], k) == Total(fired, k) + if i < k then 1 else 0
  {
    if k > 0 {
      OneMoreFired(fired, i, k - 1);
    }
  }

  /** Every internal step handles one piece. */
  lemma StepHandlesOne<T>(p: Plan<T>, s: State<T>, e: Event<T>)
    requires Inv(p, s) && Enabled(p, s, e)
    ensures Handled(p, Apply(p, s, e)) == Handled(p, s) + if Internal(e) then 1 else 0
  {
    match e
    case Split => RoundHasRoom(p, s);
    case Join => RoundHasPieces(p, s);
    case Replica(i) => OneMoreFired(s.fired, i, p.width);
    case _ =>
  }

  /** No piece is handled more than three times. */
  lemma HandledIsBounded<T>(p: Plan<T>, s: State<T>)
    requires Inv(p, s)
    ensures Handled(p, s) <= 3 * (|s.fed| / p.pop)
  {
    FiredWithinShares(p, s, p.width);
    SharesAddUp(p.width, s.split);
    DivHolds(s.split, p.pop, |s.fed|);
  }

  function InternalSteps<T>(es: seq<Event<T>>): nat {
    if es == [] then 0 else (if Internal(es[0]) then 1 else 0) + InternalSteps(es[1..])
  }

  /** Splitter, replicas and joiner together make at most three steps for each piece that is fed; so without more
      input they come to rest, and then DrainedIsComplete says what they have put out. */
  lemma {:induction false} InternalStepsAreBounded<T>(p: Plan<T>, s: State<T>, es: seq<Event<T>>)
    requires Inv(p, s) && Run(p, s, es)
    ensures Inv(p, After(p, s, es)) && Handled(p, After(p, s, es)) == Handled(p, s) + InternalSteps(es)
    ensures Handled(p, s) + InternalSteps(es) <= 3 * (|After(p, s, es).fed| / p.pop)
    decreases |es|
  {
    hide Handled, Inv, Enabled, Apply, Internal;
    if es == [] {
      HandledIsBounded(p, s);
    } else {
      StepKeepsInv(p, s, es[0]);
      StepHandlesOne(p, s, es[0]);
      InternalStepsAreBounded(p, Apply(p, s, es[0]), es[1..]);
    }
  }
}
