/** Byte cursors of a ring buffer and the space computed from them. */
module RingArith {

  newtype byte = x: int | 0 <= x < 256

  /** One stream element as it lies in the buffer. */
  type Elem = seq<byte>

  /** Elements of `es` bytes in a buffer of `cap` times as many. */
  datatype Shape = Shape(es: nat, cap: nat) {

    predicate Valid() {
      0 < es && 0 < cap
    }

    function Bytes(): nat {
      es * cap
    }

    /** Where the element with the given running number lies. */
    function Cursor(count: nat): (c: nat)
      requires Valid()
      ensures c + es <= Bytes()
    {
      InBuffer(count % cap);
      es * (count % cap)
    }

    lemma InBuffer(slot: nat)
      requires slot < cap
      ensures 0 <= es * slot && es * slot + es <= es * cap
    {
      Distributes(es, slot, 0);
      Ordered(es, slot, cap);
    }

    /** The source's cursor step, `(cursor + elem_size) % STREAM_BUFFER_SIZE`. */
    function Advance(cursor: nat): nat
      requires Valid()
    {
      Positive();
      (cursor + es) % Bytes()
    }

    /** The source's offset computation, `(cursor + offset * elem_size) % STREAM_BUFFER_SIZE`. */
    function Skip(cursor: nat, offset: nat): nat
      requires Valid()
    {
      Positive();
      NonNegative(offset, es);
      (cursor + offset * es) % Bytes()
    }

    lemma Positive()
      requires Valid()
      ensures 0 < Bytes()
    {
      InBuffer(0);
    }
  }

  // ---- the source's space computations, in bytes ----

  function PopSpace(head: nat, tail: nat, bytes: nat): int {
    var num := head - tail;
    if num < 0 then num + bytes else num
  }

  function PushSpace(head: nat, tail: nat, es: nat, bytes: nat): int
    requires 0 < bytes
  {
    var next := (head + es) % bytes;
    var num := tail - next;
    if num < 0 then num + bytes else num
  }

  // ---- what they mean ----

  lemma NonNegative(a: nat, b: nat)
    ensures 0 <= a * b
  {
  }

  lemma Ordered(es: nat, a: nat, b: nat)
    requires a < b
    ensures es * a + es <= es * b
  {
    Distributes(es, a + 1, b - a - 1);
    Distributes(es, a, 1);
    assert es * (a + 1 + (b - a - 1)) == es * b;
  }

  lemma Distributes(es: nat, a: nat, b: nat)
    ensures es * (a + b) == es * a + es * b && es * a >= 0 && es * b >= 0
  {
  }

  lemma ModIs(n: nat, q: nat, r: nat, cap: nat)
    requires r < cap && n == cap * q + r
    ensures n % cap == r && n / cap == q
  {
    var q', r' := n / cap, n % cap;
    assert n == cap * q' + r';
    if q' > q {
      Ordered(cap, q, q');
    } else if q' < q {
      Ordered(cap, q', q);
    }
  }

  lemma ModStep(k: nat, cap: nat)
    requires 0 < cap
    ensures (k + 1) % cap == if k % cap + 1 == cap then 0 else k % cap + 1
  {
    var q, r := k / cap, k % cap;
    if r + 1 == cap {
      Distributes(cap, q, 1);
      ModIs(k + 1, q + 1, 0, cap);
    } else {
      ModIs(k + 1, q, r + 1, cap);
    }
  }

  /** Advancing a cursor moves it to the next element. */
  lemma AdvanceIsNext(s: Shape, k: nat)
    requires s.Valid()
    ensures s.Advance(s.Cursor(k)) == s.Cursor(k + 1)
  {
    s.Positive();
    ModStep(k, s.cap);
    var slot := k % s.cap;
    Distributes(s.es, slot, 1);
    if slot + 1 == s.cap {
      ModIs(s.es * s.cap, 1, 0, s.Bytes());
    } else {
      s.InBuffer(slot + 1);
      ModIs(s.es * (slot + 1), 0, s.es * (slot + 1), s.Bytes());
    }
  }

  /** Skipping o elements ahead. */
  lemma {:induction false} SkipIsLater(s: Shape, k: nat, o: nat)
    requires s.Valid()
    ensures s.Skip(s.Cursor(k), o) == s.Cursor(k + o)
    decreases o
  {
    s.Positive();
    if o == 0 {
      ModIs(s.Cursor(k), 0, s.Cursor(k), s.Bytes());
    } else {
      SkipIsLater(s, k, o - 1);
      Distributes(s.es, o - 1, 1);
      ModAdd(s.Cursor(k) + (o - 1) * s.es, s.es, s.Bytes());
      AdvanceIsNext(s, k + o - 1);
    }
  }

  lemma ModAdd(a: nat, b: nat, m: nat)
    requires 0 < m
    ensures (a % m + b) % m == (a + b) % m
  {
    var c := a % m + b;
    Distributes(m, a / m, c / m);
    ModIs(a + b, a / m + c / m, c % m, m);
  }

  lemma CursorWraps(s: Shape, k: nat)
    requires s.Valid()
    ensures s.Cursor(k + s.cap) == s.Cursor(k)
  {
    Distributes(s.cap, k / s.cap, 1);
    ModIs(k + s.cap, k / s.cap + 1, k % s.cap, s.cap);
  }

  /** Two elements of which the second is less than a whole buffer later lie in different slots, and how far
      round it is from the first to the second. */
  lemma SlotOf(i: nat, j: nat, cap: nat)
    requires i <= j < i + cap
    ensures j % cap == if i % cap + (j - i) < cap then i % cap + (j - i) else i % cap + (j - i) - cap
  {
    var (q, a) := (i / cap, i % cap);
    if a + (j - i) < cap {
      ModIs(j, q, a + (j - i), cap);
    } else {
      Distributes(cap, q, 1);
      ModIs(j, q + 1, a + (j - i) - cap, cap);
    }
  }

  lemma SlotsApart(s: Shape, i: nat, j: nat)
    requires s.Valid() && i < j < i + s.cap
    ensures s.Cursor(i) + s.es <= s.Cursor(j) || s.Cursor(j) + s.es <= s.Cursor(i)
  {
    SlotOf(i, j, s.cap);
    if i % s.cap < j % s.cap {
      Ordered(s.es, i % s.cap, j % s.cap);
    } else {
      Ordered(s.es, j % s.cap, i % s.cap);
    }
  }

  /** The distance from one cursor round to another tells how far apart the counts are. */
  lemma PopSpaceCounts(s: Shape, w: nat, r: nat)
    requires s.Valid() && r <= w < r + s.cap
    ensures PopSpace(s.Cursor(w), s.Cursor(r), s.Bytes()) == s.es * (w - r)
  {
    SlotOf(r, w, s.cap);
    var (a, b, d) := (r % s.cap, w % s.cap, w - r);
    Distributes(s.es, a, d);
    if a + d >= s.cap {
      Distributes(s.es, b, s.cap);
      Ordered(s.es, b, a);
    }
  }

  lemma TheOtherWay(x: nat, y: nat, d: int, bytes: nat)
    requires x != y && PopSpace(x, y, bytes) == d
    ensures PopSpace(y, x, bytes) == bytes - d
  {
  }

  lemma PushSpaceCounts(s: Shape, w: nat, r: nat)
    requires s.Valid() && r <= w < r + s.cap
    ensures s.Bytes() > 0 && PushSpace(s.Cursor(w), s.Cursor(r), s.es, s.Bytes()) == s.es * (s.cap - 1 - (w - r))
  {
    s.Positive();
    AdvanceIsNext(s, w);
    var n := s.cap - 1 - (w - r);
    if n == 0 {
      Distributes(s.cap, r / s.cap, 1);
      ModIs(w + 1, r / s.cap + 1, r % s.cap, s.cap);
    } else {
      RoundTrip(s, w + 1, r, n);
    }
  }

  lemma RoundTrip(s: Shape, w: nat, r: nat, n: nat)
    requires s.Valid() && r < w < r + s.cap && n == s.cap - (w - r)
    ensures PopSpace(s.Cursor(r), s.Cursor(w), s.Bytes()) == s.es * n
  {
    PopSpaceCounts(s, w, r);
    SlotsApart(s, r, w);
    Distributes(s.es, w - r, n);
    TheOtherWay(s.Cursor(w), s.Cursor(r), s.es * (w - r), s.Bytes());
  }

  lemma DivExact(es: nat, n: nat)
    requires 0 < es
    ensures es * n / es == n
  {
    ModIs(es * n, n, 0, es);
  }

  // ---- memory ----

  function ReadAt(buf: seq<byte>, at: nat, n: nat): Elem
    requires at + n <= |buf|
  {
    buf[at..at + n]
  }

  function WriteAt(buf: seq<byte>, at: nat, e: Elem): (r: seq<byte>)
    requires at + |e| <= |buf|
    ensures |r| == |buf|
  {
    buf[..at] + e + buf[at + |e|..]
  }

  lemma ReadBack(buf: seq<byte>, at: nat, e: Elem)
    requires at + |e| <= |buf|
    ensures ReadAt(WriteAt(buf, at, e), at, |e|) == e
  {
  }

  lemma ReadElsewhere(buf: seq<byte>, at: nat, e: Elem, i: nat, n: nat)
    requires at + |e| <= |buf| && i + n <= |buf| && (i + n <= at || at + |e| <= i)
    ensures ReadAt(WriteAt(buf, at, e), i, n) == ReadAt(buf, i, n)
  {
    var r := WriteAt(buf, at, e);
    var (x, y) := (ReadAt(r, i, n), ReadAt(buf, i, n));
    assert forall k {:trigger x[k]} :: 0 <= k < n ==> x[k] == y[k];
  }
}
