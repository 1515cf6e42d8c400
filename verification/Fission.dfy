/** A stateless kernel replaced by a round-robin splitter, replicas and a joiner that run at the same time. */
module Fission {
  import opened RingArith

  type Chunk<T> = seq<T>

  /** `width` replicas of a kernel that maps `pop` elements to a piece of output; the internal streams hold up
      to `midCap` and `outCap` such pieces each. */
  datatype Plan<!T> = Plan(width: nat, pop: nat, f: Chunk<T> -> Chunk<T>, midCap: nat, outCap: nat) {
    predicate Valid() {
      0 < width && 0 < pop && 0 < midCap && 0 < outCap
    }
  }

  /** Both ends of an internal stream move whole pieces, so it is kept as a queue of pieces. `room` is how many
      pieces the outer output can take. The rest is history: all input so far, and how many pieces the
      splitter, each replica and the joiner have handled. */
  datatype State<T> = State(inp: seq<T>, mids: seq<seq<Chunk<T>>>, outs: seq<seq<Chunk<T>>>, out: seq<T>, room: nat,
                            fed: seq<T>, split: nat, fired: seq<nat>, joined: nat)

  datatype Event<T> = Feed(items: seq<T>) | Drain(pieces: nat) | Split | Replica(i: nat) | Join

  predicate Shaped<T>(p: Plan<T>, s: State<T>) {
    p.Valid() && |s.mids| == |s.outs| == |s.fired| == p.width
  }

  /** The splitter checks its streams before a round of one piece for each replica and then goes through it;
      so does the joiner. */
  predicate Enabled<T>(p: Plan<T>, s: State<T>, e: Event<T>)
    requires Shaped(p, s)
  {
    match e
    case Feed(_) => true
    case Drain(_) => true
    case Split =>
      s.split % p.width != 0
      || (p.width * p.pop <= |s.inp| && forall i :: 0 <= i < p.width ==> |s.mids[i]| < p.midCap)
    case Replica(i) => i < p.width && s.mids[i] != [] && |s.outs[i]| < p.outCap
    case Join => s.joined % p.width != 0 || (p.width <= s.room && forall i :: 0 <= i < p.width ==> s.outs[i] != [])
  }

  /** A splitter short of input, or a joiner short of a piece or of room, would do something undefined; this
      stands still instead, and RoundHasRoom and RoundHasPieces show that it does not come to that. */
  function Apply<T>(p: Plan<T>, s: State<T>, e: Event<T>): State<T>
    requires Shaped(p, s) && Enabled(p, s, e)
  {
    match e
    case Feed(items) => s.(inp := s.inp + items, fed := s.fed + items)
    case Drain(pieces) => s.(room := s.room + pieces)
    case Split =>
      var i := s.split % p.width;
      if |s.inp| < p.pop then s
      else s.(inp := s.inp[p.pop..], mids := s.mids[i := s.mids[i] + [s.inp[..p.pop]]], split := s.split + 1)
    case Replica(i) =>
      s.(mids := s.mids[i := s.mids[i][1..]], outs := s.outs[i := s.outs[i] + [p.f(s.mids[i][0])]],
         fired := s.fired[i := s.fired[i] + 1])
    case Join =>
      var i := s.joined % p.width;
      if s.outs[i] == [] || s.room == 0 then s
      else s.(outs := s.outs[i := s.outs[i][1..]], out := s.out + s.outs[i][0],
              room := s.room - 1, joined := s.joined + 1)
  }

  // ---- the invariant ----

  /** How many of the first n pieces go to replica i. */
  function Share(width: nat, n: nat, i: nat): nat
    requires i < width
  {
    n / width + (if i < n % width then 1 else 0)
  }

  predicate HasPiece<T>(p: Plan<T>, fed: seq<T>, k: nat) {
    0 <= k * p.pop && k * p.pop + p.pop <= |fed|
  }

  /** The k-th piece of the input. */
  function Piece<T>(p: Plan<T>, fed: seq<T>, k: nat): Chunk<T> {
    if HasPiece(p, fed, k) then fed[k * p.pop..k * p.pop + p.pop] else []
  }

  lemma PieceThere<T>(p: Plan<T>, fed: seq<T>, k: nat, n: nat)
    requires k < n && n * p.pop <= |fed|
    ensures HasPiece(p, fed, k)
  {
    Ordered(p.pop, k, n);
    Distributes(p.pop, k, 0);
  }

  /** The number of the j-th piece of replica i. */
  function Number(width: nat, i: nat, j: nat): nat {
    i + j * width
  }

  ghost predicate MidHolds<T>(p: Plan<T>, s: State<T>, i: nat, j: nat)
    requires i < |s.mids| == |s.fired| && j < |s.mids[i]|
  {
    var k := Number(p.width, i, s.fired[i] + j);
    k < s.split && s.mids[i][j] == Piece(p, s.fed, k)
  }

  ghost predicate OutHolds<T>(p: Plan<T>, s: State<T>, i: nat, j: nat)
    requires i < p.width == |s.outs| && j < |s.outs[i]|
  {
    var k := Number(p.width, i, Share(p.width, s.joined, i) + j);
    k < s.split && s.outs[i][j] == p.f(Piece(p, s.fed, k))
  }

  predicate Counts<T>(p: Plan<T>, s: State<T>, i: nat)
    requires i < p.width == |s.mids| == |s.outs| == |s.fired|
  {
    && |s.mids[i]| == Share(p.width, s.split, i) - s.fired[i] <= p.midCap
    && |s.outs[i]| == s.fired[i] - Share(p.width, s.joined, i) <= p.outCap
  }

  /** The kernel mapped over the first n pieces. */
  function Mapped<T>(p: Plan<T>, fed: seq<T>, n: nat): seq<T> {
    if n == 0 then [] else Mapped(p, fed, n - 1) + p.f(Piece(p, fed, n - 1))
  }

  ghost predicate Inv<T>(p: Plan<T>, s: State<T>) {
    && Shaped(p, s)
    && s.joined <= s.split && 0 <= s.split * p.pop <= |s.fed|
    && s.inp == s.fed[s.split * p.pop..] && s.out == Mapped(p, s.fed, s.joined)
    && (forall i {:trigger Counts(p, s, i)} :: 0 <= i < p.width ==> Counts(p, s, i))
    && (forall i, j {:trigger MidHolds(p, s, i, j)} :: 0 <= i < p.width && 0 <= j < |s.mids[i]| ==>
        MidHolds(p, s, i, j))
    && (forall i, j {:trigger OutHolds(p, s, i, j)} :: 0 <= i < p.width && 0 <= j < |s.outs[i]| ==>
        OutHolds(p, s, i, j))
    && InRound(p, s)
  }

  /** In the middle of a round the streams still to be served were checked at its start. */
  predicate InRound<T>(p: Plan<T>, s: State<T>)
    requires p.Valid() && |s.mids| == |s.outs| == p.width
  {
    var (a, b) := (s.split % p.width, s.joined % p.width);
    && (a != 0 ==> (p.width - a) * p.pop <= |s.inp| && forall i :: a <= i < p.width ==> |s.mids[i]| < p.midCap)
    && (b != 0 ==> p.width - b <= s.room && forall i :: b <= i < p.width ==> s.outs[i] != [])
  }

  lemma RoundHasRoom<T>(p: Plan<T>, s: State<T>)
    requires Inv(p, s) && Enabled(p, s, Split)
    ensures p.pop <= |s.inp| && |s.mids[s.split % p.width]| < p.midCap
  {
    hide Share, Piece, Number, HasPiece, Mapped, Counts, MidHolds, OutHolds;
    AtLeastOne(p.width - s.split % p.width, p.pop);
    AtLeastOne(p.width, p.pop);
  }

  lemma AtLeastOne(n: nat, pop: nat)
    requires 0 < n
    ensures pop <= n * pop
  {
    Ordered(pop, 0, n);
  }

  lemma RoundHasPieces<T>(p: Plan<T>, s: State<T>)
    requires Inv(p, s) && Enabled(p, s, Join)
    ensures 0 < s.room && s.outs[s.joined % p.width] != []
  {
  }

  // ---- arithmetic of rounds ----

  lemma ShareNext(width: nat, n: nat, i: nat)
    requires i < width
    ensures Share(width, n + 1, i) == Share(width, n, i) + (if n % width == i then 1 else 0)
  {
    ModStep(n, width);
    var (q, r) := (n / width, n % width);
    if r + 1 == width {
      Distributes(width, q, 1);
      ModIs(n + 1, q + 1, 0, width);
    } else {
      ModIs(n + 1, q, r + 1, width);
    }
  }

  lemma NumberOfNext(width: nat, n: nat)
    requires 0 < width
    ensures n == Number(width, n % width, Share(width, n, n % width))
  {
  }

  // ---- every event keeps the invariant ----

  lemma SplitInRound<T>(p: Plan<T>, s: State<T>)
    requires Inv(p, s) && Enabled(p, s, Split)
    ensures InRound(p, Apply(p, s, Split))
  {
    hide Share, Piece, Number, HasPiece, Mapped, Counts, MidHolds, OutHolds;
    RoundHasRoom(p, s);
    ModStep(s.split, p.width);
    var a := s.split % p.width;
    Distributes(p.pop, p.width - a - 1, 1);
  }

  lemma ReplicaInRound<T>(p: Plan<T>, s: State<T>, i0: nat)
    requires Inv(p, s) && Enabled(p, s, Replica(i0))
    ensures InRound(p, Apply(p, s, Replica(i0)))
  {
    hide Share, Piece, Number, HasPiece, Mapped, Counts, MidHolds, OutHolds;
  }

  lemma JoinInRound<T>(p: Plan<T>, s: State<T>)
    requires Inv(p, s) && Enabled(p, s, Join)
    ensures InRound(p, Apply(p, s, Join))
  {
    hide Share, Piece, Number, HasPiece, Mapped, Counts, MidHolds, OutHolds;
    RoundHasPieces(p, s);
    ModStep(s.joined, p.width);
  }

  lemma OuterInRound<T>(p: Plan<T>, s: State<T>, e: Event<T>)
    requires Inv(p, s) && (e.Feed? || e.Drain?)
    ensures InRound(p, Apply(p, s, e))
  {
    hide Share, Piece, Number, HasPiece, Mapped, Counts, MidHolds, OutHolds;
  }

  lemma {:induction false} MappedStable<T>(p: Plan<T>, fed: seq<T>, more: seq<T>, n: nat)
    requires 0 <= n * p.pop <= |fed|
    ensures Mapped(p, fed + more, n) == Mapped(p, fed, n)
    decreases n
  {
    if n > 0 {
      Distributes(p.pop, n - 1, 1);
      MappedStable(p, fed, more, n - 1);
      PieceThere(p, fed, n - 1, n);
      PieceStable(p, fed, more, n - 1);
    }
  }

  lemma PieceStable<T>(p: Plan<T>, fed: seq<T>, more: seq<T>, k: nat)
    requires HasPiece(p, fed, k)
    ensures Piece(p, fed + more, k) == Piece(p, fed, k)
  {
  }

  lemma FeedKeepsInv<T>(p: Plan<T>, s: State<T>, items: seq<T>)
    requires Inv(p, s)
    ensures Inv(p, Apply(p, s, Feed(items)))
  {
    var s' := Apply(p, s, Feed(items));
    OuterInRound(p, s, Feed(items));
    hide InRound, Share, Piece, Number, HasPiece, Mapped;
    Below(p.pop, s.joined, s.split);
    MappedStable(p, s.fed, items, s.joined);
    forall i, j | 0 <= i < p.width && 0 <= j < |s'.mids[i]|
      ensures MidHolds(p, s', i, j)
    {
      assert MidHolds(p, s, i, j);
      PieceThere(p, s.fed, Number(p.width, i, s.fired[i] + j), s.split);
      PieceStable(p, s.fed, items, Number(p.width, i, s.fired[i] + j));
    }
    forall i, j | 0 <= i < p.width && 0 <= j < |s'.outs[i]|
      ensures OutHolds(p, s', i, j)
    {
      assert OutHolds(p, s, i, j);
      PieceThere(p, s.fed, Number(p.width, i, Share(p.width, s.joined, i) + j), s.split);
      PieceStable(p, s.fed, items, Number(p.width, i, Share(p.width, s.joined, i) + j));
    }
    forall i | 0 <= i < p.width
      ensures Counts(p, s', i)
    {
      assert Counts(p, s, i);
    }
  }

  lemma Below(pop: nat, m: nat, n: nat)
    requires m <= n
    ensures 0 <= m * pop <= n * pop
  {
    Distributes(pop, m, n - m);
  }

  lemma SplitKeepsInv<T>(p: Plan<T>, s: State<T>)
    requires Inv(p, s) && Enabled(p, s, Split)
    ensures Inv(p, Apply(p, s, Split))
  {
    var s' := Apply(p, s, Split);
    RoundHasRoom(p, s);
    SplitInRound(p, s);
    SplitTakes(p, s.fed, s.split);
    NumberOfNext(p.width, s.split);
    hide InRound, Share, Piece, Number, HasPiece, Mapped;
    forall i | 0 <= i < p.width
      ensures Counts(p, s', i)
    {
      assert Counts(p, s, i);
      ShareNext(p.width, s.split, i);
    }
    forall i, j | 0 <= i < p.width && 0 <= j < |s'.mids[i]|
      ensures MidHolds(p, s', i, j)
    {
      assert Counts(p, s, i);
      if j < |s.mids[i]| {
        assert MidHolds(p, s, i, j) && s'.mids[i][j] == s.mids[i][j];
      }
    }
    forall i, j | 0 <= i < p.width && 0 <= j < |s'.outs[i]|
      ensures OutHolds(p, s', i, j)
    {
      assert OutHolds(p, s, i, j);
    }
  }

  /** The splitter's next piece is the next piece of the input. */
  lemma SplitTakes<T>(p: Plan<T>, fed: seq<T>, k: nat)
    requires 0 <= k * p.pop && k * p.pop + p.pop <= |fed|
    ensures fed[k * p.pop..][..p.pop] == Piece(p, fed, k)
    ensures k * p.pop + p.pop == (k + 1) * p.pop && fed[k * p.pop..][p.pop..] == fed[(k + 1) * p.pop..]
  {
    Distributes(p.pop, k, 1);
  }

  lemma ReplicaKeepsInv<T>(p: Plan<T>, s: State<T>, i0: nat)
    requires Inv(p, s) && Enabled(p, s, Replica(i0))
    ensures Inv(p, Apply(p, s, Replica(i0)))
  {
    var s' := Apply(p, s, Replica(i0));
    ReplicaInRound(p, s, i0);
    hide InRound, Share, Piece, Number, HasPiece, Mapped;
    forall i | 0 <= i < p.width
      ensures Counts(p, s', i)
    {
      assert Counts(p, s, i);
    }
    forall i, j | 0 <= i < p.width && 0 <= j < |s'.mids[i]|
      ensures MidHolds(p, s', i, j)
    {
      assert MidHolds(p, s, i, if i == i0 then j + 1 else j);
    }
    forall i, j | 0 <= i < p.width && 0 <= j < |s'.outs[i]|
      ensures OutHolds(p, s', i, j)
    {
      if j < |s.outs[i]| {
        assert OutHolds(p, s, i, j) && s'.outs[i][j] == s.outs[i][j];
      } else {
        assert MidHolds(p, s, i0, 0) && Counts(p, s, i0);
      }
    }
  }

  lemma JoinKeepsInv<T>(p: Plan<T>, s: State<T>)
    requires Inv(p, s) && Enabled(p, s, Join)
    ensures Inv(p, Apply(p, s, Join))
  {
    var s' := Apply(p, s, Join);
    var i0 := s.joined % p.width;
    RoundHasPieces(p, s);
    JoinInRound(p, s);
    NumberOfNext(p.width, s.joined);
    assert OutHolds(p, s, i0, 0);
    hide InRound, Share, Piece, Number, HasPiece;
    forall i | 0 <= i < p.width
      ensures Counts(p, s', i)
    {
      assert Counts(p, s, i);
      ShareNext(p.width, s.joined, i);
    }
    forall i, j | 0 <= i < p.width && 0 <= j < |s'.mids[i]|
      ensures MidHolds(p, s', i, j)
    {
      assert MidHolds(p, s, i, j);
    }
    forall i, j | 0 <= i < p.width && 0 <= j < |s'.outs[i]|
      ensures OutHolds(p, s', i, j)
    {
      ShareNext(p.width, s.joined, i);
      assert OutHolds(p, s, i, if i == i0 then j + 1 else j);
    }
  }

  lemma DrainKeepsInv<T>(p: Plan<T>, s: State<T>, pieces: nat)
    requires Inv(p, s)
    ensures Inv(p, Apply(p, s, Drain(pieces)))
  {
    var s' := Apply(p, s, Drain(pieces));
    OuterInRound(p, s, Drain(pieces));
    hide InRound, Share, Piece, Number, HasPiece, Mapped;
    forall i | 0 <= i < p.width
      ensures Counts(p, s', i)
    {
      assert Counts(p, s, i);
    }
    forall i, j | 0 <= i < p.width && 0 <= j < |s'.mids[i]|
      ensures MidHolds(p, s', i, j)
    {
      assert MidHolds(p, s, i, j);
    }
    forall i, j | 0 <= i < p.width && 0 <= j < |s'.outs[i]|
      ensures OutHolds(p, s', i, j)
    {
      assert OutHolds(p, s, i, j);
    }
  }

  lemma StepKeepsInv<T>(p: Plan<T>, s: State<T>, e: Event<T>)
    requires Inv(p, s) && Enabled(p, s, e)
    ensures Inv(p, Apply(p, s, e))
  {
    match e
    case Feed(items) => FeedKeepsInv(p, s, items);
    case Drain(pieces) => DrainKeepsInv(p, s, pieces);
    case Split => SplitKeepsInv(p, s);
    case Replica(i) => ReplicaKeepsInv(p, s, i);
    case Join => JoinKeepsInv(p, s);
  }
}
