/** A bounded stream shared by one producer and one consumer that run at the same time. */
module RingMachine {
  import opened RingArith

  /** `head` and `tail` are the shared cursors; `out` and `inp` are the producer's and the consumer's own,
      ahead of the shared ones until they are published. `room` and `avail` are what is left of the space
      each side last computed. The rest is history: everything pushed and popped, and how much of it had
      been published. */
  datatype Ring = Ring(buf: seq<byte>, head: nat, tail: nat, out: nat, inp: nat, room: nat, avail: nat,
                       pushed: seq<Elem>, popped: seq<Elem>, published: nat, released: nat)

  datatype Event =
    | LookForRoom            // the producer reads both cursors and computes its space
    | Copy(e: Elem)          // it copies an element to its cursor and moves the cursor
    | PublishHead
    | LookForItems           // the consumer reads both cursors and computes what there is
    | Take                   // it copies the element at its cursor out and moves the cursor
    | Peek(offset: nat)
    | PublishTail

  predicate ByProducer(e: Event) {
    e.LookForRoom? || e.Copy? || e.PublishHead?
  }

  /** Each side goes only as far as the space it computed: by a check before every operation, or once for a
      batch. Space is computed when nothing is unpublished. */
  predicate Enabled(sh: Shape, s: Ring, e: Event) {
    match e
    case LookForRoom => s.out == s.head
    case Copy(x) => |x| == sh.es && 0 < s.room
    case LookForItems => s.inp == s.tail
    case Take => 0 < s.avail
    case Peek(offset) => offset < s.avail
    case _ => true
  }

  predicate InBounds(sh: Shape, s: Ring) {
    sh.Valid() && |s.buf| == sh.Bytes() && s.out + sh.es <= sh.Bytes() && s.inp + sh.es <= sh.Bytes()
  }

  function Apply(sh: Shape, s: Ring, e: Event): Ring
    requires InBounds(sh, s) && Enabled(sh, s, e)
  {
    match e
    case LookForRoom => sh.Positive(); s.(room := PushSpace(s.head, s.tail, sh.es, sh.Bytes()) / sh.es)
    case Copy(x) =>
      s.(buf := WriteAt(s.buf, s.out, x), out := sh.Advance(s.out), room := s.room - 1, pushed := s.pushed + [x])
    case PublishHead => s.(head := s.out, published := |s.pushed|)
    case LookForItems => s.(avail := PopSpace(s.head, s.tail, sh.Bytes()) / sh.es)
    case Take => s.(inp := sh.Advance(s.inp), avail := s.avail - 1, popped := s.popped + [ReadAt(s.buf, s.inp, sh.es)])
    case Peek(_) => s
    case PublishTail => s.(tail := s.inp, released := |s.popped|)
  }

  // ---- the invariant ----

  predicate Counts(sh: Shape, s: Ring) {
    && s.released <= |s.popped| <= |s.popped| + s.avail <= s.published <= |s.pushed|
    && |s.pushed| + s.room < s.released + sh.cap
  }

  predicate Cursors(sh: Shape, s: Ring)
    requires sh.Valid()
  {
    && s.head == sh.Cursor(s.published) && s.tail == sh.Cursor(s.released)
    && s.out == sh.Cursor(|s.pushed|) && s.inp == sh.Cursor(|s.popped|)
  }

  /** Every element not yet given back lies in its slot. */
  ghost predicate Holds(sh: Shape, s: Ring)
    requires sh.Valid() && |s.buf| == sh.Bytes()
  {
    forall i {:trigger s.pushed[i]} :: s.released <= i < |s.pushed| ==>
      |s.pushed[i]| == sh.es && ReadAt(s.buf, sh.Cursor(i), sh.es) == s.pushed[i]
  }

  ghost predicate Inv(sh: Shape, s: Ring) {
    && sh.Valid() && |s.buf| == sh.Bytes() && Counts(sh, s) && Cursors(sh, s) && Holds(sh, s)
    && s.popped == s.pushed[..|s.popped|]
  }

  predicate Init(sh: Shape, s: Ring) {
    && sh.Valid() && |s.buf| == sh.Bytes()
    && s == Ring(s.buf, 0, 0, 0, 0, 0, 0, [], [], 0, 0)
  }

  lemma InitInv(sh: Shape, s: Ring)
    requires Init(sh, s)
    ensures Inv(sh, s)
  {
    assert sh.Cursor(0) == 0;
  }

  lemma CopyKeepsInv(sh: Shape, s: Ring, x: Elem)
    requires Inv(sh, s) && Enabled(sh, s, Copy(x))
    ensures Inv(sh, Apply(sh, s, Copy(x)))
  {
    var s' := Apply(sh, s, Copy(x));
    AdvanceIsNext(sh, |s.pushed|);
    forall i | s.released <= i < |s'.pushed|
      ensures |s'.pushed[i]| == sh.es && ReadAt(s'.buf, sh.Cursor(i), sh.es) == s'.pushed[i]
    {
      if i < |s.pushed| {
        SlotsApart(sh, i, |s.pushed|);
        ReadElsewhere(s.buf, s.out, x, sh.Cursor(i), sh.es);
        assert s'.pushed[i] == s.pushed[i];
      } else {
        ReadBack(s.buf, s.out, x);
      }
    }
  }

  lemma StepKeepsInv(sh: Shape, s: Ring, e: Event)
    requires Inv(sh, s) && Enabled(sh, s, e)
    ensures Inv(sh, Apply(sh, s, e))
  {
    match e
    case LookForRoom =>
      PushSpaceCounts(sh, s.published, s.released);
      DivExact(sh.es, sh.cap - 1 - (s.published - s.released));
      SameCursor(sh, s.published, |s.pushed|);
    case LookForItems =>
      PopSpaceCounts(sh, s.published, s.released);
      DivExact(sh.es, s.published - s.released);
      SameCursor(sh, s.released, |s.popped|);
    case Copy(x) => CopyKeepsInv(sh, s, x);
    case Take =>
      AdvanceIsNext(sh, |s.popped|);
      assert s.pushed[|s.popped|] == ReadAt(s.buf, s.inp, sh.es);
    case _ =>
  }

  /** Equal cursors less than a buffer apart mean equal counts. */
  lemma SameCursor(sh: Shape, i: nat, j: nat)
    requires sh.Valid() && i <= j < i + sh.cap && sh.Cursor(i) == sh.Cursor(j)
    ensures i == j
  {
    if i < j {
      SlotsApart(sh, i, j);
    }
  }

  /** The tests of the checked operations, `next != tail` before a push and `head != tail` before a pop, ask
      exactly whether a look would find room for one element, or one element. */
  lemma CheckIsLook(sh: Shape, s: Ring)
    requires Inv(sh, s) && s.out == s.head && s.inp == s.tail
    ensures sh.Advance(s.head) != s.tail <==> 0 < Apply(sh, s, LookForRoom).room
    ensures s.head != s.tail <==> 0 < Apply(sh, s, LookForItems).avail
  {
    hide PushSpace, PopSpace, Shape.Advance, Shape.Cursor, Shape.Bytes;
    var (w, r) := (s.published, s.released);
    PushSpaceCounts(sh, w, r);
    DivExact(sh.es, sh.cap - 1 - (w - r));
    PopSpaceCounts(sh, w, r);
    DivExact(sh.es, w - r);
    AdvanceIsNext(sh, w);
    if w + 1 < r + sh.cap {
      SlotsApart(sh, r, w + 1);
    } else {
      CursorWraps(sh, r);
    }
    if r < w {
      SlotsApart(sh, r, w);
    }
  }

  // ---- runs ----

  predicate Run(sh: Shape, s: Ring, es: seq<Event>)
    decreases |es|
  {
    es == [] || (InBounds(sh, s) && Enabled(sh, s, es[0]) && Run(sh, Apply(sh, s, es[0]), es[1..]))
  }

  function After(sh: Shape, s: Ring, es: seq<Event>): Ring
    requires Run(sh, s, es)
    decreases |es|
  {
    if es == [] then s else After(sh, Apply(sh, s, es[0]), es[1..])
  }

  lemma {:induction false} RunKeepsInv(sh: Shape, s: Ring, es: seq<Event>)
    requires Inv(sh, s) && Run(sh, s, es)
    ensures Inv(sh, After(sh, s, es))
    decreases |es|
  {
    if es != [] {
      StepKeepsInv(sh, s, es[0]);
      RunKeepsInv(sh, Apply(sh, s, es[0]), es[1..]);
    }
  }

  // ---- the history is that of the run ----

  /** The elements a run copies in. */
  function Copied(es: seq<Event>): seq<Elem> {
    if es == [] then [] else (if es[0].Copy? then [es[0].e] else []) + Copied(es[1..])
  }

  function Takes(es: seq<Event>): nat {
    if es == [] then 0 else (if es[0].Take? then 1 else 0) + Takes(es[1..])
  }

  lemma {:induction false} HistoryIsTheRuns(sh: Shape, s: Ring, es: seq<Event>)
    requires Run(sh, s, es)
    ensures After(sh, s, es).pushed == s.pushed + Copied(es) && |After(sh, s, es).popped| == |s.popped| + Takes(es)
    decreases |es|
  {
    if es != [] {
      HistoryIsTheRuns(sh, Apply(sh, s, es[0]), es[1..]);
    }
  }

  /** What the producer has published is found by the consumer's next look, and what the consumer has given back by
      the producer's. */
  lemma PublishedIsFound(sh: Shape, s: Ring)
    requires Inv(sh, s)
    ensures s.inp == s.tail ==>
              Apply(sh, Apply(sh, s, PublishHead), LookForItems).avail == |s.pushed| - |s.popped|
    ensures s.out == s.head ==>
              Apply(sh, Apply(sh, s, PublishTail), LookForRoom).room == sh.cap - 1 - (|s.pushed| - |s.popped|)
  {
    hide PushSpace, PopSpace, Shape.Advance, Shape.Cursor, Shape.Bytes;
    if s.inp == s.tail {
      SameCursor(sh, s.released, |s.popped|);
      PopSpaceCounts(sh, |s.pushed|, s.released);
      DivExact(sh.es, |s.pushed| - s.released);
    }
    if s.out == s.head {
      SameCursor(sh, s.published, |s.pushed|);
      PushSpaceCounts(sh, s.published, |s.popped|);
      DivExact(sh.es, sh.cap - 1 - (s.published - |s.popped|));
    }
  }

  // ---- what a stream promises ----

  /** What lies in the buffer from the consumer's cursor up to the producer's. */
  function InRing(sh: Shape, s: Ring): seq<Elem>
    requires sh.Valid() && |s.buf| == sh.Bytes() && |s.popped| <= |s.pushed|
  {
    seq(|s.pushed| - |s.popped|, i requires 0 <= i => ReadAt(s.buf, sh.Cursor(|s.popped| + i), sh.es))
  }

  /** In every reachable state, whatever the interleaving: what was taken followed by what is in the ring is
      what was copied in, and the ring holds fewer elements than it has slots. */
  lemma FirstInFirstOut(sh: Shape, s0: Ring, es: seq<Event>)
    requires Init(sh, s0) && Run(sh, s0, es)
    ensures var s := After(sh, s0, es);
            && |s.buf| == sh.Bytes() && |s.popped| <= |s.pushed|
            && s.popped + InRing(sh, s) == s.pushed && |InRing(sh, s)| <= sh.Bytes() / sh.es - 1
            && s.pushed == Copied(es) && |s.popped| == Takes(es)
  {
    HistoryIsTheRuns(sh, s0, es);
    InitInv(sh, s0);
    RunKeepsInv(sh, s0, es);
    var s := After(sh, s0, es);
    DivExact(sh.es, sh.cap);
    var all := s.popped + InRing(sh, s);
    forall i | 0 <= i < |s.pushed|
      ensures all[i] == s.pushed[i]
    {
      if i < |s.popped| {
        assert s.popped[i] == s.pushed[i];
      }
    }
  }

  /** The bytes a copy writes lie inside the buffer and hold no element that the consumer has yet to read, and
      the bytes a take or a peek reads hold exactly the element asked for. */
  lemma NothingIsOverwritten(sh: Shape, s0: Ring, es: seq<Event>, e: Event)
    requires Init(sh, s0) && Run(sh, s0, es) && Enabled(sh, After(sh, s0, es), e)
    ensures var s := After(sh, s0, es);
            && |s.buf| == sh.Bytes() && |s.popped| <= |s.pushed| && s.out + sh.es <= |s.buf| && s.inp + sh.es <= |s.buf|
            && (e.Copy? ==> forall i {:trigger sh.Cursor(i)} :: |s.popped| <= i < |s.pushed| ==>
                              s.out + sh.es <= sh.Cursor(i) || sh.Cursor(i) + sh.es <= s.out)
            && (e.Take? ==> |s.popped| < |s.pushed| && ReadAt(s.buf, s.inp, sh.es) == s.pushed[|s.popped|])
            && (e.Peek? ==> |s.popped| + e.offset < |s.pushed|
                            && var at := sh.Skip(s.inp, e.offset);
                            at + sh.es <= |s.buf| && ReadAt(s.buf, at, sh.es) == s.pushed[|s.popped| + e.offset])
  {
    InitInv(sh, s0);
    RunKeepsInv(sh, s0, es);
    var s := After(sh, s0, es);
    if e.Copy? {
      forall i | |s.popped| <= i < |s.pushed|
        ensures s.out + sh.es <= sh.Cursor(i) || sh.Cursor(i) + sh.es <= s.out
      {
        SlotsApart(sh, i, |s.pushed|);
      }
    }
    if e.Peek? {
      SkipIsLater(sh, |s.popped|, e.offset);
    }
  }

  // ---- batches ----

  /** The other side's events are enabled when they come; this side's are whatever they are. */
  predicate OthersObey(sh: Shape, s: Ring, es: seq<Event>, producer: bool)
    decreases |es|
  {
    es == [] ||
    (InBounds(sh, s)
     && (ByProducer(es[0]) == producer || Enabled(sh, s, es[0]))
     && (Enabled(sh, s, es[0]) ==> OthersObey(sh, Apply(sh, s, es[0]), es[1..], producer)))
  }

  /** Copies only, at most `budget` of them, with head publishing in between. */
  predicate CopiesWithin(sh: Shape, es: seq<Event>, budget: nat)
    decreases |es|
  {
    es == [] ||
    match es[0]
    case LookForRoom => false
    case Copy(e) => |e| == sh.es && 0 < budget && CopiesWithin(sh, es[1..], budget - 1)
    case _ => CopiesWithin(sh, es[1..], budget)
  }

  /** Takes and peeks only, never past `budget` elements. */
  predicate TakesWithin(es: seq<Event>, budget: nat)
    decreases |es|
  {
    es == [] ||
    match es[0]
    case LookForItems => false
    case Take => 0 < budget && TakesWithin(es[1..], budget - 1)
    case Peek(offset) => offset < budget && TakesWithin(es[1..], budget)
    case _ => TakesWithin(es[1..], budget)
  }

  /** Space computed once stays enough for that many unchecked copies, whatever the consumer does meanwhile. */
  lemma {:induction false} CopiesStaySafe(sh: Shape, s: Ring, es: seq<Event>, budget: nat)
    requires Inv(sh, s) && budget <= s.room && CopiesWithin(sh, es, budget) && OthersObey(sh, s, es, true)
    ensures Run(sh, s, es)
    decreases |es|
  {
    if es != [] {
      StepKeepsInv(sh, s, es[0]);
      CopiesStaySafe(sh, Apply(sh, s, es[0]), es[1..], if es[0].Copy? then budget - 1 else budget);
    }
  }

  /** And items counted once stay there for that many unchecked takes and peeks. */
  lemma {:induction false} TakesStaySafe(sh: Shape, s: Ring, es: seq<Event>, budget: nat)
    requires Inv(sh, s) && budget <= s.avail && TakesWithin(es, budget) && OthersObey(sh, s, es, false)
    ensures Run(sh, s, es)
    decreases |es|
  {
    if es != [] {
      StepKeepsInv(sh, s, es[0]);
      TakesStaySafe(sh, Apply(sh, s, es[0]), es[1..], if es[0].Take? then budget - 1 else budget);
    }
  }
}
