/** A stream's memory as the stream operations see it, and the sequence of elements it stands for. */
module RingMemory {
  import opened RingArith

  datatype Mem = Mem(buf: seq<byte>, head: nat, tail: nat)

  /** The slot a cursor is at. */
  function Slot(sh: Shape, c: nat): nat
    requires sh.Valid()
  {
    c / sh.es
  }

  /** The cursors are at element boundaries inside the buffer. */
  predicate Valid(sh: Shape, m: Mem) {
    && sh.Valid() && |m.buf| == sh.Bytes()
    && m.head == sh.Cursor(Slot(sh, m.head)) && m.tail == sh.Cursor(Slot(sh, m.tail))
  }

  function Count(sh: Shape, m: Mem): int
    requires sh.Valid()
  {
    PopSpace(m.head, m.tail, sh.Bytes()) / sh.es
  }

  /** A running number for the head if the tail's is its slot number. */
  function HeadNumber(sh: Shape, m: Mem): nat
    requires sh.Valid()
  {
    if Slot(sh, m.tail) <= Slot(sh, m.head) then Slot(sh, m.head) else Slot(sh, m.head) + sh.cap
  }

  lemma CursorDiv(sh: Shape, k: nat)
    requires sh.Valid()
    ensures Slot(sh, sh.Cursor(k)) == k % sh.cap && sh.Cursor(Slot(sh, sh.Cursor(k))) == sh.Cursor(k)
  {
    ModIs(sh.es * (k % sh.cap), k % sh.cap, 0, sh.es);
    ModIs(k % sh.cap, 0, k % sh.cap, sh.cap);
  }

  /** The slot number of a cursor at an element boundary. */
  lemma SlotNumber(sh: Shape, c: nat)
    requires sh.Valid() && c == sh.Cursor(Slot(sh, c))
    ensures Slot(sh, c) < sh.cap && c == sh.es * Slot(sh, c)
  {
    CursorDiv(sh, Slot(sh, c));
  }

  lemma CountIs(sh: Shape, m: Mem)
    requires Valid(sh, m)
    ensures 0 <= Count(sh, m) < sh.cap && HeadNumber(sh, m) == Slot(sh, m.tail) + Count(sh, m)
    ensures m.head == sh.Cursor(HeadNumber(sh, m))
  {
    SlotNumber(sh, m.head);
    SlotNumber(sh, m.tail);
    var (h, r) := (Slot(sh, m.head), Slot(sh, m.tail));
    if h < r {
      ModIs(h + sh.cap, 1, h, sh.cap);
      ModIs(h, 0, h, sh.cap);
    }
    PopSpaceCounts(sh, HeadNumber(sh, m), r);
    DivExact(sh.es, HeadNumber(sh, m) - r);
  }

  /** The count between cursors of known running numbers. */
  lemma CountFrom(sh: Shape, m: Mem, w: nat, r: nat)
    requires sh.Valid() && m.head == sh.Cursor(w) && m.tail == sh.Cursor(r) && r <= w < r + sh.cap
    ensures Count(sh, m) == w - r
  {
    hide Shape.Cursor, Shape.Bytes, PopSpace;
    PopSpaceCounts(sh, w, r);
    DivExact(sh.es, w - r);
  }

  function At(sh: Shape, m: Mem, i: nat): Elem
    requires Valid(sh, m)
  {
    ReadAt(m.buf, sh.Cursor(Slot(sh, m.tail) + i), sh.es)
  }

  function Contents(sh: Shape, m: Mem): (c: seq<Elem>)
    requires Valid(sh, m)
    ensures |c| < sh.cap
  {
    CountIs(sh, m);
    seq(Count(sh, m), i requires 0 <= i => At(sh, m, i))
  }

  // ---- the unchecked operations ----

  function PushTo(sh: Shape, m: Mem, e: Elem): Mem
    requires Valid(sh, m) && |e| == sh.es
  {
    Mem(WriteAt(m.buf, m.head, e), sh.Advance(m.head), m.tail)
  }

  function Front(sh: Shape, m: Mem): Elem
    requires Valid(sh, m)
  {
    ReadAt(m.buf, m.tail, sh.es)
  }

  function PopFrom(sh: Shape, m: Mem): Mem
    requires Valid(sh, m)
  {
    m.(tail := sh.Advance(m.tail))
  }

  /** The element `offset` past the tail, going round. */
  function PeekAt(sh: Shape, m: Mem, offset: nat): Elem
    requires Valid(sh, m)
  {
    SkipIsLater(sh, Slot(sh, m.tail), offset);
    ReadAt(m.buf, sh.Skip(m.tail, offset), sh.es)
  }

  // ---- the guards of the checked operations ----

  function MayPush(sh: Shape, m: Mem): bool
    requires sh.Valid()
  {
    sh.Advance(m.head) != m.tail
  }

  function MayPop(m: Mem): bool {
    m.head != m.tail
  }

  function MayPeek(sh: Shape, m: Mem, offset: nat): bool {
    var at := m.tail + offset * sh.es;
    (m.tail < m.head && at < m.head) || (m.tail > m.head && at < m.head + sh.Bytes())
  }

  /** Each guard asks the right question of the stream's contents. */
  lemma Guards(sh: Shape, m: Mem, offset: nat)
    requires Valid(sh, m)
    ensures MayPush(sh, m) <==> |Contents(sh, m)| < sh.cap - 1
    ensures MayPop(m) <==> Contents(sh, m) != []
    ensures MayPeek(sh, m, offset) <==> offset < |Contents(sh, m)|
  {
    hide MayPush, MayPop, MayPeek, Count;
    CountIs(sh, m);
    PushGuard(sh, m);
    PopGuard(sh, m);
    PeekGuard(sh, m, offset);
  }

  lemma PopGuard(sh: Shape, m: Mem)
    requires Valid(sh, m)
    ensures MayPop(m) <==> Count(sh, m) > 0
  {
    hide Count, HeadNumber, Slot, Shape.Cursor, Shape.Bytes;
    CountIs(sh, m);
    var (r, w) := (Slot(sh, m.tail), HeadNumber(sh, m));
    if r < w {
      SlotsApart(sh, r, w);
    }
  }

  lemma PushGuard(sh: Shape, m: Mem)
    requires Valid(sh, m)
    ensures MayPush(sh, m) <==> Count(sh, m) < sh.cap - 1
  {
    hide Count, HeadNumber, Slot, Shape.Cursor, Shape.Bytes, Shape.Advance;
    CountIs(sh, m);
    var (r, w) := (Slot(sh, m.tail), HeadNumber(sh, m));
    AdvanceIsNext(sh, w);
    if w + 1 < r + sh.cap {
      SlotsApart(sh, r, w + 1);
    } else {
      CursorWraps(sh, r);
    }
  }

  lemma PeekGuard(sh: Shape, m: Mem, offset: nat)
    requires Valid(sh, m)
    ensures MayPeek(sh, m, offset) <==> offset < Count(sh, m)
  {
    CountIs(sh, m);
    SlotNumber(sh, m.head);
    SlotNumber(sh, m.tail);
    var (h, r, w) := (Slot(sh, m.head), Slot(sh, m.tail), HeadNumber(sh, m));
    Distributes(sh.es, r, offset);
    Distributes(sh.es, h, sh.cap);
    if h < r {
      Ordered(sh.es, h, r);
    } else if r < h {
      Ordered(sh.es, r, h);
    }
    if r + offset < w {
      Ordered(sh.es, r + offset, w);
    } else {
      Distributes(sh.es, w, r + offset - w);
    }
  }

  // ---- what the operations do to the contents ----

  lemma PushCounts(sh: Shape, m: Mem, e: Elem)
    requires Valid(sh, m) && |e| == sh.es && Count(sh, m) < sh.cap - 1
    ensures Valid(sh, PushTo(sh, m, e)) && Count(sh, PushTo(sh, m, e)) == Count(sh, m) + 1
  {
    hide Count, HeadNumber, Slot, Shape.Cursor, Shape.Bytes, Shape.Advance;
    CountIs(sh, m);
    var (r, w) := (Slot(sh, m.tail), HeadNumber(sh, m));
    AdvanceIsNext(sh, w);
    CursorDiv(sh, w + 1);
    CountFrom(sh, PushTo(sh, m, e), w + 1, r);
  }

  lemma PopCounts(sh: Shape, m: Mem)
    requires Valid(sh, m) && 0 < Count(sh, m)
    ensures Valid(sh, PopFrom(sh, m)) && Count(sh, PopFrom(sh, m)) == Count(sh, m) - 1
    ensures sh.Cursor(Slot(sh, PopFrom(sh, m).tail)) == sh.Cursor(Slot(sh, m.tail) + 1)
  {
    hide Count, HeadNumber, Slot, Shape.Cursor, Shape.Bytes, Shape.Advance;
    CountIs(sh, m);
    var (r, w) := (Slot(sh, m.tail), HeadNumber(sh, m));
    AdvanceIsNext(sh, r);
    CursorDiv(sh, r + 1);
    CountFrom(sh, PopFrom(sh, m), w, r + 1);
  }

  lemma PushLeaves(sh: Shape, m: Mem, e: Elem, i: nat)
    requires Valid(sh, m) && |e| == sh.es && Valid(sh, PushTo(sh, m, e)) && i < Count(sh, m)
    ensures At(sh, PushTo(sh, m, e), i) == At(sh, m, i)
  {
    hide Count, HeadNumber, Slot, Shape.Cursor, Shape.Bytes, Shape.Advance, ReadAt, WriteAt;
    CountIs(sh, m);
    SlotsApart(sh, Slot(sh, m.tail) + i, HeadNumber(sh, m));
    ReadElsewhere(m.buf, m.head, e, sh.Cursor(Slot(sh, m.tail) + i), sh.es);
  }

  lemma PushLands(sh: Shape, m: Mem, e: Elem)
    requires Valid(sh, m) && |e| == sh.es && Valid(sh, PushTo(sh, m, e))
    ensures 0 <= Count(sh, m) && At(sh, PushTo(sh, m, e), Count(sh, m)) == e
  {
    hide Count, HeadNumber, Slot, Shape.Cursor, Shape.Bytes, Shape.Advance, ReadAt, WriteAt;
    CountIs(sh, m);
    ReadBack(m.buf, m.head, e);
  }

  lemma PushAppends(sh: Shape, m: Mem, e: Elem)
    requires Valid(sh, m) && |e| == sh.es && |Contents(sh, m)| < sh.cap - 1
    ensures Valid(sh, PushTo(sh, m, e)) && Contents(sh, PushTo(sh, m, e)) == Contents(sh, m) + [e]
  {
    hide Count, PushTo, HeadNumber, Slot, Shape.Cursor, Shape.Bytes, At;
    var m' := PushTo(sh, m, e);
    CountIs(sh, m);
    PushCounts(sh, m, e);
    forall i | 0 <= i < |Contents(sh, m')|
      ensures Contents(sh, m')[i] == (Contents(sh, m) + [e])[i]
    {
      if i < |Contents(sh, m)| {
        PushLeaves(sh, m, e, i);
      } else {
        PushLands(sh, m, e);
      }
    }
  }

  lemma PopLeaves(sh: Shape, m: Mem, i: nat)
    requires Valid(sh, m) && Valid(sh, PopFrom(sh, m))
    requires sh.Cursor(Slot(sh, PopFrom(sh, m).tail)) == sh.Cursor(Slot(sh, m.tail) + 1)
    ensures At(sh, PopFrom(sh, m), i) == At(sh, m, i + 1)
  {
    hide Slot, Shape.Cursor, Shape.Bytes, Shape.Advance, ReadAt;
    SameSlot(sh, Slot(sh, PopFrom(sh, m).tail), Slot(sh, m.tail) + 1, i);
    assert Slot(sh, m.tail) + 1 + i == Slot(sh, m.tail) + (i + 1);
  }

  lemma FrontIsFirst(sh: Shape, m: Mem)
    requires Valid(sh, m)
    ensures Front(sh, m) == At(sh, m, 0)
  {
    hide Slot, Shape.Cursor, Shape.Bytes, ReadAt;
  }

  lemma PopRemoves(sh: Shape, m: Mem)
    requires Valid(sh, m) && Contents(sh, m) != []
    ensures Valid(sh, PopFrom(sh, m)) && Contents(sh, m) == [Front(sh, m)] + Contents(sh, PopFrom(sh, m))
  {
    hide Count, PopFrom, HeadNumber, Slot, Shape.Cursor, Shape.Bytes, At, Front;
    var m' := PopFrom(sh, m);
    CountIs(sh, m);
    PopCounts(sh, m);
    FrontIsFirst(sh, m);
    forall i | 0 <= i < |Contents(sh, m)|
      ensures Contents(sh, m)[i] == ([Front(sh, m)] + Contents(sh, m'))[i]
    {
      if i > 0 {
        PopLeaves(sh, m, i - 1);
      }
    }
  }

  /** Cursors that agree go on agreeing. */
  lemma {:induction false} SameSlot(sh: Shape, j: nat, k: nat, i: nat)
    requires sh.Valid() && sh.Cursor(j) == sh.Cursor(k)
    ensures sh.Cursor(j + i) == sh.Cursor(k + i)
    decreases i
  {
    if i > 0 {
      SameSlot(sh, j, k, i - 1);
      AdvanceIsNext(sh, j + i - 1);
      AdvanceIsNext(sh, k + i - 1);
    }
  }

  lemma PeekReads(sh: Shape, m: Mem, offset: nat)
    requires Valid(sh, m) && offset < |Contents(sh, m)|
    ensures PeekAt(sh, m, offset) == Contents(sh, m)[offset]
  {
    hide Count, Slot, HeadNumber, Shape.Cursor, Shape.Bytes, Shape.Skip, ReadAt;
    CountIs(sh, m);
    SkipIsLater(sh, Slot(sh, m.tail), offset);
  }
}
