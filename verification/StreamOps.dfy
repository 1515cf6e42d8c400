/** The inline stream operations on a stream object. */
module StreamOps {
  import opened Wrappers
  import opened RingArith
  import opened RingMemory

  class SkirStream {
    const sh: Shape
    const buf: array<byte>
    var head: nat
    var tail: nat

    function View(): Mem
      reads this, buf
    {
      Mem(buf[..], head, tail)
    }

    ghost predicate Valid()
      reads this, buf
    {
      RingMemory.Valid(sh, View())
    }

    /** The elements pushed and not yet popped. */
    ghost function Items(): seq<Elem>
      requires Valid()
      reads this, buf
    {
      Contents(sh, View())
    }

    constructor (es: nat, cap: nat)
      requires 0 < es && 0 < cap
      ensures Valid() && Items() == [] && sh == Shape(es, cap) && fresh(buf)
    {
      sh := Shape(es, cap);
      buf := new byte[es * cap](_ => 0);
      head, tail := 0, 0;
      new;
      assert sh.Cursor(0) == 0;
      CountIs(sh, View());
      Guards(sh, View(), 0);
    }

    /** Copies an element to the given place of the buffer. */
    method CopyIn(at: nat, e: Elem)
      requires at + |e| <= buf.Length
      modifies buf
      ensures buf[..] == WriteAt(old(buf[..]), at, e)
    {
      forall k | 0 <= k < |e| {
        buf[at + k] := e[k];
      }
    }

    // ---- checked operations, one round of their wait loop ----

    method TryPush(e: Elem) returns (done: bool)
      requires Valid() && |e| == sh.es
      modifies `head, buf
      ensures Valid() && done == (|old(Items())| < sh.cap - 1)
      ensures Items() == if done then old(Items()) + [e] else old(Items())
    {
      Guards(sh, View(), 0);
      var next := sh.Advance(head);
      done := next != tail;
      if done {
        PushAppends(sh, View(), e);
        CopyIn(head, e);
        head := next;
      }
    }

    method TryPop() returns (r: Option<Elem>)
      requires Valid()
      modifies `tail
      ensures Valid() && r.None? == (old(Items()) == [])
      ensures if r.Some? then old(Items()) == [r.value] + Items() else Items() == old(Items())
    {
      Guards(sh, View(), 0);
      if head == tail { return None; }
      PopRemoves(sh, View());
      r := Some(buf[tail..tail + sh.es]);
      tail := sh.Advance(tail);
    }

    method TryPeek(offset: nat) returns (r: Option<Elem>)
      requires Valid()
      ensures r == if offset < |Items()| then Some(Items()[offset]) else None
    {
      hide MayPeek;
      Guards(sh, View(), offset);
      if !MayPeek(sh, View(), offset) { return None; }
      var e := PeekNocheck(offset);
      r := Some(e);
    }

    // ---- unchecked operations ----

    method PushNocheck(e: Elem)
      requires Valid() && |e| == sh.es && |Items()| < sh.cap - 1
      modifies `head, buf
      ensures Valid() && Items() == old(Items()) + [e] && View() == PushTo(sh, old(View()), e)
    {
      PushAppends(sh, View(), e);
      CopyIn(head, e);
      head := sh.Advance(head);
    }

    method PopNocheck() returns (e: Elem)
      requires Valid() && Items() != []
      modifies `tail
      ensures Valid() && old(Items()) == [e] + Items() && |e| == sh.es && View() == PopFrom(sh, old(View()))
    {
      PopRemoves(sh, View());
      e := buf[tail..tail + sh.es];
      tail := sh.Advance(tail);
    }

    method PeekNocheck(offset: nat) returns (e: Elem)
      requires Valid() && offset < |Items()|
      ensures e == Items()[offset]
    {
      PeekReads(sh, View(), offset);
      SkipIsLater(sh, Slot(sh, tail), offset);
      hide Contents, Slot, Shape.Cursor, Shape.Bytes, Shape.Skip;
      var from := sh.Skip(tail, offset);
      e := buf[from..from + sh.es];
    }
  }
}
