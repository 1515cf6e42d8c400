/** The batch skeleton with private cursors computes what the checked stream operations compute. */
module Skeleton {
  import opened Common
  import opened Wrappers
  import opened RingArith
  import opened RingMemory
  import opened StreamOps
  import B = Batch

  /** What a fixed-rate work function does in one firing: stream operations on one input and one output,
      between which its own state changes. */
  datatype Op<!K> =
    | Pop(take: (K, Elem) -> K)
    | Peek(offset: nat, look: (K, Elem) -> K)
    | Push(give: K -> Elem)

  type Work<!K> = seq<Op<K>>

  ghost predicate Sized<K(!new)>(sh: Shape, work: Work<K>) {
    forall i, k :: 0 <= i < |work| && work[i].Push? ==> |work[i].give(k)| == sh.es
  }

  /** Kernel state, input stream and output stream. */
  datatype State<K> = State(k: K, ins: Mem, outs: Mem)

  predicate StateValid<K>(sh: Shape, s: State<K>) {
    Valid(sh, s.ins) && Valid(sh, s.outs)
  }

  /** What the items in the input and the room in the output still allow. */
  predicate Fits<K>(work: Work<K>, avail: int, room: int) {
    work == [] ||
    match work[0]
    case Pop(_) => 0 < avail && Fits(work[1..], avail - 1, room)
    case Peek(offset, _) => offset < avail && Fits(work[1..], avail, room)
    case Push(_) => 0 < room && Fits(work[1..], avail, room - 1)
  }

  function Pops<K>(work: Work<K>): nat {
    if work == [] then 0 else (if work[0].Pop? then 1 else 0) + Pops(work[1..])
  }

  function Pushes<K>(work: Work<K>): nat {
    if work == [] then 0 else (if work[0].Push? then 1 else 0) + Pushes(work[1..])
  }

  function Avail<K>(sh: Shape, s: State<K>): nat
    requires StateValid(sh, s)
  {
    |Contents(sh, s.ins)|
  }

  function Room<K>(sh: Shape, s: State<K>): nat
    requires StateValid(sh, s)
  {
    sh.cap - 1 - |Contents(sh, s.outs)|
  }

  // ---- checked operations on the shared cursors ----

  /** One operation with its check; nothing if it would block. */
  ghost function CheckedOp<K(!new)>(sh: Shape, op: Op<K>, s: State<K>): (r: Option<State<K>>)
    requires StateValid(sh, s) && Sized(sh, [op])
    ensures r.Some? ==> StateValid(sh, r.value)
  {
    Guards(sh, s.ins, if op.Peek? then op.offset else 0);
    Guards(sh, s.outs, 0);
    match op
    case Pop(take) =>
      if !MayPop(s.ins) then None
      else PopRemoves(sh, s.ins); Some(s.(k := take(s.k, Front(sh, s.ins)), ins := PopFrom(sh, s.ins)))
    case Peek(offset, look) =>
      if !MayPeek(sh, s.ins, offset) then None else Some(s.(k := look(s.k, PeekAt(sh, s.ins, offset))))
    case Push(give) =>
      assert [op][0].Push?;
      if !MayPush(sh, s.outs) then None
      else PushAppends(sh, s.outs, give(s.k)); Some(s.(outs := PushTo(sh, s.outs, give(s.k))))
  }

  ghost function CheckedFiring<K(!new)>(sh: Shape, work: Work<K>, s: State<K>): (r: Option<State<K>>)
    requires StateValid(sh, s) && Sized(sh, work)
    ensures r.Some? ==> StateValid(sh, r.value)
    decreases |work|
  {
    if work == [] then Some(s)
    else
      assert Sized(sh, [work[0]]) by { assert forall i :: 0 <= i < 1 ==> [work[0]][i] == work[i]; }
      match CheckedOp(sh, work[0], s)
      case None => None
      case Some(s1) => CheckedFiring(sh, work[1..], s1)
  }

  /** At most n firings: `stop` says after which the work function returns something other than 0. */
  ghost function CheckedFirings<K(!new)>(sh: Shape, work: Work<K>, stop: K -> bool, s: State<K>, n: nat)
    : (r: Option<State<K>>)
    requires StateValid(sh, s) && Sized(sh, work)
    ensures r.Some? ==> StateValid(sh, r.value)
    decreases n
  {
    if n == 0 then Some(s)
    else
      match CheckedFiring(sh, work, s)
      case None => None
      case Some(s1) => if stop(s1.k) then Some(s1) else CheckedFirings(sh, work, stop, s1, n - 1)
  }

  /** What a checked operation means for the elements in the streams: a pop or a peek gives the kernel the first
      element or the one asked for, a push appends what the kernel gives, and each blocks exactly when there is no
      such element, or no room. */
  lemma CheckedOpMeans<K(!new)>(sh: Shape, op: Op<K>, s: State<K>)
    requires StateValid(sh, s) && Sized(sh, [op])
    ensures CheckedOp(sh, op, s).None? <==>
              match op
              case Pop(_) => Contents(sh, s.ins) == []
              case Peek(offset, _) => offset >= |Contents(sh, s.ins)|
              case Push(_) => |Contents(sh, s.outs)| >= sh.cap - 1
    ensures CheckedOp(sh, op, s).Some? ==>
              var (s', items) := (CheckedOp(sh, op, s).value, Contents(sh, s.ins));
              match op
              case Pop(take) => s'.k == take(s.k, items[0]) && Contents(sh, s'.ins) == items[1..] && s'.outs == s.outs
              case Peek(offset, look) => s' == s.(k := look(s.k, items[offset]))
              case Push(give) =>
                s'.k == s.k && s'.ins == s.ins && Contents(sh, s'.outs) == Contents(sh, s.outs) + [give(s.k)]
  {
    hide Contents, RingMemory.Valid, PopFrom, PushTo, Front, PeekAt, MayPop, MayPush, MayPeek;
    assert op.Push? ==> [op][0].Push?;
    Guards(sh, s.ins, if op.Peek? then op.offset else 0);
    Guards(sh, s.outs, 0);
    match op
    case Pop(_) =>
      if Contents(sh, s.ins) != [] {
        PopRemoves(sh, s.ins);
      }
    case Peek(offset, _) =>
      if offset < |Contents(sh, s.ins)| {
        PeekReads(sh, s.ins, offset);
      }
    case Push(give) =>
      if |Contents(sh, s.outs)| < sh.cap - 1 {
        PushAppends(sh, s.outs, give(s.k));
      }
  }

  /** n firings, whatever they return. */
  ghost function AllFirings<K(!new)>(sh: Shape, work: Work<K>, s: State<K>, n: nat): (r: Option<State<K>>)
    requires StateValid(sh, s) && Sized(sh, work)
    ensures r.Some? ==> StateValid(sh, r.value)
    decreases n
  {
    if n == 0 then Some(s)
    else
      match AllFirings(sh, work, s, n - 1)
      case None => None
      case Some(s1) => CheckedFiring(sh, work, s1)
  }

  lemma {:induction false} FirstFiring<K(!new)>(sh: Shape, work: Work<K>, s: State<K>, s1: State<K>, n: nat)
    requires StateValid(sh, s) && Sized(sh, work) && CheckedFiring(sh, work, s) == Some(s1)
    ensures AllFirings(sh, work, s, n + 1) == AllFirings(sh, work, s1, n)
    decreases n
  {
    hide CheckedFiring, Sized, RingMemory.Valid;
    if n == 0 {
      assert AllFirings(sh, work, s, 0) == Some(s);
    } else {
      FirstFiring(sh, work, s, s1, n - 1);
    }
  }

  /** The firings go on exactly until one returns something other than 0, or all n are made. */
  lemma {:induction false} StopsAtFirst<K(!new)>(sh: Shape, work: Work<K>, stop: K -> bool, s: State<K>, n: nat)
    returns (j: nat)
    requires StateValid(sh, s) && Sized(sh, work) && CheckedFirings(sh, work, stop, s, n).Some?
    ensures j <= n && CheckedFirings(sh, work, stop, s, n) == AllFirings(sh, work, s, j)
    ensures forall i :: 0 < i < j ==>
              AllFirings(sh, work, s, i).Some? && !stop(AllFirings(sh, work, s, i).value.k)
    ensures j < n ==> 0 < j && stop(AllFirings(sh, work, s, j).value.k)
    decreases n
  {
    hide CheckedFiring, Sized, RingMemory.Valid;
    if n == 0 {
      j := 0;
    } else {
      var s1 := CheckedFiring(sh, work, s).value;
      FirstFiring(sh, work, s, s1, 0);
      if stop(s1.k) {
        j := 1;
      } else {
        var j1 := StopsAtFirst(sh, work, stop, s1, n - 1);
        j := j1 + 1;
        FirstFiring(sh, work, s, s1, j1);
        forall i | 0 < i < j
          ensures AllFirings(sh, work, s, i).Some? && !stop(AllFirings(sh, work, s, i).value.k)
        {
          FirstFiring(sh, work, s, s1, i - 1);
        }
      }
    }
  }

  // ---- unchecked operations on private cursors ----

  /** The skeleton keeps its own copies of the input's tail and the output's head. */
  datatype Private<K> = Private(shared: State<K>, inTail: nat, outHead: nat) {

    /** The streams as they would be with the private cursors published. */
    function View(): State<K> {
      shared.(ins := shared.ins.(tail := inTail), outs := shared.outs.(head := outHead))
    }

    function Publish(): Private<K> {
      this.(shared := View())
    }
  }

  ghost function PrivateOp<K(!new)>(sh: Shape, op: Op<K>, p: Private<K>): Private<K>
    requires StateValid(sh, p.View()) && Sized(sh, [op])
  {
    var s := p.shared;
    match op
    case Pop(take) =>
      p.(shared := s.(k := take(s.k, ReadAt(s.ins.buf, p.inTail, sh.es))), inTail := sh.Advance(p.inTail))
    case Peek(offset, look) =>
      SkipIsLater(sh, Slot(sh, p.inTail), offset);
      var at := sh.Skip(p.inTail, offset);
      p.(shared := s.(k := look(s.k, ReadAt(s.ins.buf, at, sh.es))))
    case Push(give) =>
      assert [op][0].Push?;
      p.(shared := s.(outs := s.outs.(buf := WriteAt(s.outs.buf, p.outHead, give(s.k)))),
          outHead := sh.Advance(p.outHead))
  }

  /** As long as it fits, an unchecked operation on the private cursors is the checked one on the view, and
      leaves the shared cursors alone. */
  lemma OpRefines<K(!new)>(sh: Shape, work: Work<K>, p: Private<K>)
    requires StateValid(sh, p.View()) && Sized(sh, work) && work != [] && Sized(sh, [work[0]])
    requires Fits(work, Avail(sh, p.View()), Room(sh, p.View()))
    ensures var p' := PrivateOp(sh, work[0], p);
            && CheckedOp(sh, work[0], p.View()) == Some(p'.View())
            && p'.shared.ins.tail == p.shared.ins.tail && p'.shared.outs.head == p.shared.outs.head
            && Fits(work[1..], Avail(sh, p'.View()), Room(sh, p'.View()))
            && Avail(sh, p'.View()) == Avail(sh, p.View()) - (if work[0].Pop? then 1 else 0)
            && Room(sh, p'.View()) == Room(sh, p.View()) - (if work[0].Push? then 1 else 0)
  {
    var s := p.View();
    match work[0]
    case Pop(_) =>
      Guards(sh, s.ins, 0);
      PopRemoves(sh, s.ins);
    case Peek(offset, _) =>
      Guards(sh, s.ins, offset);
    case Push(give) =>
      assert [work[0]][0].Push?;
      Guards(sh, s.outs, 0);
      PushAppends(sh, s.outs, give(s.k));
  }

  ghost function PrivateFiring<K(!new)>(sh: Shape, work: Work<K>, p: Private<K>): (r: Private<K>)
    requires StateValid(sh, p.View()) && Sized(sh, work) && Fits(work, Avail(sh, p.View()), Room(sh, p.View()))
    ensures StateValid(sh, r.View())
    ensures CheckedFiring(sh, work, p.View()) == Some(r.View())
    ensures r.shared.ins.tail == p.shared.ins.tail && r.shared.outs.head == p.shared.outs.head
    ensures Avail(sh, r.View()) == Avail(sh, p.View()) - Pops(work)
    ensures Room(sh, r.View()) == Room(sh, p.View()) - Pushes(work)
    decreases |work|
  {
    if work == [] then p
    else
      assert Sized(sh, [work[0]]) by { assert forall i :: 0 <= i < 1 ==> [work[0]][i] == work[i]; }
      OpRefines(sh, work, p);
      PrivateFiring(sh, work[1..], PrivateOp(sh, work[0], p))
  }

  // ---- batches ----

  /** A work function with these declared rates. */
  predicate HasRates<K>(work: Work<K>, pop: nat, peek: nat, push: nat) {
    Pops(work) == pop && Pushes(work) == push && Fits(work, pop + peek, push)
  }

  lemma {:induction false} FitsMore<K>(work: Work<K>, avail: int, room: int, more: int, wider: int)
    requires Fits(work, avail, room) && avail <= more && room <= wider
    ensures Fits(work, more, wider)
    decreases |work|
  {
    if work != [] {
      var (a, r) := (if work[0].Pop? then 1 else 0, if work[0].Push? then 1 else 0);
      FitsMore(work[1..], avail - a, room - r, more - a, wider - r);
    }
  }

  /** Room and items for n firings. */
  predicate Enough<K>(sh: Shape, s: State<K>, n: nat, pop: nat, peek: nat, push: nat)
    requires StateValid(sh, s)
  {
    n * pop + peek <= Avail(sh, s) && n * push <= Room(sh, s)
  }

  lemma OneLess(n: nat, rate: nat)
    requires 0 < n
    ensures n * rate == (n - 1) * rate + rate && 0 <= (n - 1) * rate
  {
  }

  lemma EnoughForOne<K>(sh: Shape, work: Work<K>, s: State<K>, n: nat, pop: nat, peek: nat, push: nat)
    requires StateValid(sh, s) && 0 < n && HasRates(work, pop, peek, push) && Enough(sh, s, n, pop, peek, push)
    ensures Fits(work, Avail(sh, s), Room(sh, s))
    ensures (n - 1) * pop + peek <= Avail(sh, s) - pop && (n - 1) * push <= Room(sh, s) - push
  {
    hide Fits, Pops, Pushes, Contents, RingMemory.Valid;
    OneLess(n, pop);
    OneLess(n, push);
    FitsMore(work, pop + peek, push, Avail(sh, s), Room(sh, s));
  }

  /** The skeleton: firings on the private cursors, which are published after each of them. */
  ghost function PrivateFirings<K(!new)>(sh: Shape, work: Work<K>, stop: K -> bool, p: Private<K>, n: nat,
                                         pop: nat, peek: nat, push: nat): (r: Private<K>)
    requires StateValid(sh, p.View()) && Sized(sh, work) && HasRates(work, pop, peek, push)
    requires Enough(sh, p.View(), n, pop, peek, push)
    ensures StateValid(sh, r.View())
    ensures CheckedFirings(sh, work, stop, p.View(), n) == Some(r.View())
    ensures n > 0 ==> r.shared == r.View()
    decreases n
  {
    if n == 0 then p
    else
      EnoughForOne(sh, work, p.View(), n, pop, peek, push);
      var p1 := PrivateFiring(sh, work, p).Publish();
      if stop(p1.shared.k) then p1 else PrivateFirings(sh, work, stop, p1, n - 1, pop, peek, push)
  }

  /** The two headers as the batch computation reads them. */
  function InPort<K>(sh: Shape, s: State<K>, pop: nat, peek: nat, src: Option<nat>): B.Port {
    B.Port(s.ins.head, s.ins.tail, sh.es, 1, pop, peek, src, None)
  }

  function OutPort<K>(sh: Shape, s: State<K>, push: nat, dst: Option<nat>): B.Port {
    B.Port(s.outs.head, s.outs.tail, sh.es, push, 1, 0, None, dst)
  }

  const FOUR := Shape(4, STREAMBUFFER / 4)

  lemma MeasuredSpace(sh: Shape, m: Mem)
    requires Valid(sh, m)
    ensures m.head < sh.Bytes() && m.tail < sh.Bytes()
    ensures PushSpace(m.head, m.tail, sh.es, sh.Bytes()) / sh.es == sh.cap - 1 - |Contents(sh, m)|
    ensures PopSpace(m.head, m.tail, sh.Bytes()) / sh.es == |Contents(sh, m)|
  {
    sh.Positive();
    CountIs(sh, m);
    PushSpaceCounts(sh, HeadNumber(sh, m), Slot(sh, m.tail));
    DivExact(sh.es, sh.cap - 1 - Count(sh, m));
  }

  /** The batch size the skeleton computes. */
  function Batch11<K>(s: State<K>, pop: nat, peek: nat, push: nat): (n: nat)
    requires StateValid(FOUR, s) && 0 < pop < 0x8000_0000 && 0 < push && peek < 0x8000_0000
  {
    MeasuredSpace(FOUR, s.ins);
    MeasuredSpace(FOUR, s.outs);
    B.Niters11(InPort(FOUR, s, pop, peek, None), OutPort(FOUR, s, push, None))
  }

  /** With elements of 4 bytes the skeleton's own batch size leaves enough for every firing, unless the
      computation wrapped round. */
  lemma BatchIsEnough<K>(s: State<K>, n: nat, pop: nat, peek: nat, push: nat)
    requires StateValid(FOUR, s) && 0 < pop < 0x8000_0000 && 0 < push && peek < 0x8000_0000
    requires 0 < n <= Batch11(s, pop, peek, push)
    requires peek <= Avail(FOUR, s) || pop == 1
    ensures Enough(FOUR, s, n, pop, peek, push)
  {
    hide PushSpace, PopSpace, Contents;
    var (p, q) := (InPort(FOUR, s, pop, peek, None), OutPort(FOUR, s, push, None));
    MeasuredSpace(FOUR, s.ins);
    MeasuredSpace(FOUR, s.outs);
    var limits := B.Limits([p], [q], _ => 4, STREAMBUFFER);
    B.LeastIsBelow(limits, STREAMBUFFER);
    B.LimitAt([p], [q], _ => 4, STREAMBUFFER, n, 0);
    B.LimitAt([p], [q], _ => 4, STREAMBUFFER, n, 1);
    assert B.OutSafe(q, 4, STREAMBUFFER, n) && B.InSafe(p, 4, STREAMBUFFER, n);
  }

  /** And no larger batch would do. */
  lemma BatchIsAllThereIs<K>(s: State<K>, n: nat, pop: nat, peek: nat, push: nat)
    requires StateValid(FOUR, s) && 0 < pop < 0x8000_0000 && 0 < push && peek < 0x8000_0000
    requires 0 < n <= STREAMBUFFER && Enough(FOUR, s, n, pop, peek, push)
    ensures n <= Batch11(s, pop, peek, push)
  {
    hide PushSpace, PopSpace, Contents;
    var (p, q) := (InPort(FOUR, s, pop, peek, None), OutPort(FOUR, s, push, None));
    MeasuredSpace(FOUR, s.ins);
    MeasuredSpace(FOUR, s.outs);
    assert B.OutSafe(q, 4, STREAMBUFFER, n) && B.InSafe(p, 4, STREAMBUFFER, n);
    B.BatchIsLargest([p], [q], _ => 4, STREAMBUFFER, n);
  }

  lemma BatchIsExact<K>(s: State<K>, n: nat, pop: nat, peek: nat, push: nat)
    requires StateValid(FOUR, s) && 0 < pop < 0x8000_0000 && 0 < push && peek < 0x8000_0000
    requires 0 < n <= STREAMBUFFER && (peek <= Avail(FOUR, s) || pop == 1)
    ensures n <= Batch11(s, pop, peek, push) <==> Enough(FOUR, s, n, pop, peek, push)
  {
    hide Enough, Batch11;
    if n <= Batch11(s, pop, peek, push) {
      BatchIsEnough(s, n, pop, peek, push);
    }
    if Enough(FOUR, s, n, pop, peek, push) {
      BatchIsAllThereIs(s, n, pop, peek, push);
    }
  }

  /** A run of the skeleton never blocks, and it leaves kernel state, buffers and shared cursors as the same
      number of firings with checked operations does. */
  lemma SkeletonRefinesChecked<K(!new)>(work: Work<K>, stop: K -> bool, p: Private<K>, n: nat,
                                        pop: nat, peek: nat, push: nat)
    requires StateValid(FOUR, p.shared) && p.View() == p.shared && Sized(FOUR, work) && HasRates(work, pop, peek, push)
    requires 0 < pop < 0x8000_0000 && 0 < push && peek < 0x8000_0000
    requires 0 < n <= Batch11(p.shared, pop, peek, push)
    requires peek <= Avail(FOUR, p.shared) || pop == 1
    ensures Enough(FOUR, p.View(), n, pop, peek, push)
    ensures CheckedFirings(FOUR, work, stop, p.shared, n)
            == Some(PrivateFirings(FOUR, work, stop, p, n, pop, peek, push).shared)
  {
    BatchIsEnough(p.shared, n, pop, peek, push);
  }

  // ---- the skeleton's loops ----

  ghost function Shared<K>(k: K, ins: SkirStream, outs: SkirStream): State<K>
    reads ins, ins.buf, outs, outs.buf
  {
    State(k, ins.View(), outs.View())
  }

  /** One stream operation of a work function called with headers that hold the private cursors. */
  method ExternOp<K(!new)>(op: Op<K>, k0: K, ins: SkirStream, inTail0: nat, outs: SkirStream, outHead0: nat)
    returns (k: K, inTail: nat, outHead: nat)
    requires ins != outs && ins.buf != outs.buf && ins.sh == outs.sh && Sized(ins.sh, [op])
    requires StateValid(ins.sh, Private(Shared(k0, ins, outs), inTail0, outHead0).View())
    modifies outs.buf
    ensures Private(Shared(k, ins, outs), inTail, outHead)
            == PrivateOp(ins.sh, op, old(Private(Shared(k0, ins, outs), inTail0, outHead0)))
  {
    hide Slot, Shape.Cursor, Shape.Bytes, Shape.Advance, Shape.Skip;
    k, inTail, outHead := k0, inTail0, outHead0;
    match op {
      case Pop(take) =>
        k, inTail := take(k, ins.buf[inTail..inTail + ins.sh.es]), ins.sh.Advance(inTail);
      case Peek(offset, look) =>
        SkipIsLater(ins.sh, Slot(ins.sh, inTail), offset);
        var at := ins.sh.Skip(inTail, offset);
        k := look(k, ins.buf[at..at + ins.sh.es]);
      case Push(give) =>
        assert [op][0].Push?;
        outs.CopyIn(outHead, give(k));
        outHead := ins.sh.Advance(outHead);
    }
  }

  /** One firing. */
  method Extern<K(!new)>(work: Work<K>, k0: K, ins: SkirStream, inTail0: nat, outs: SkirStream, outHead0: nat)
    returns (k: K, inTail: nat, outHead: nat)
    requires ins != outs && ins.buf != outs.buf && ins.sh == outs.sh && Sized(ins.sh, work)
    requires var p := Private(Shared(k0, ins, outs), inTail0, outHead0);
             StateValid(ins.sh, p.View()) && Fits(work, Avail(ins.sh, p.View()), Room(ins.sh, p.View()))
    modifies outs.buf
    ensures Private(Shared(k, ins, outs), inTail, outHead)
            == PrivateFiring(ins.sh, work, old(Private(Shared(k0, ins, outs), inTail0, outHead0)))
    decreases |work|
  {
    hide PrivateOp, CheckedOp, RingMemory.Valid, Contents;
    if |work| == 0 { return k0, inTail0, outHead0; }
    ghost var p := Private(Shared(k0, ins, outs), inTail0, outHead0);
    assert Sized(ins.sh, [work[0]]) by { assert [work[0]][0] == work[0]; }
    OpRefines(ins.sh, work, p);
    k, inTail, outHead := ExternOp(work[0], k0, ins, inTail0, outs, outHead0);
    assert Sized(ins.sh, work[1..]);
    k, inTail, outHead := Extern(work[1..], k, ins, inTail, outs, outHead);
  }

  /** With elements of 4 bytes the unit makes no difference, and the other ends never do. */
  lemma SameUnits(p: B.Port, q: B.Port, p1: B.Port, q1: B.Port)
    requires p.Valid(STREAMBUFFER) && q.Valid(STREAMBUFFER) && p.es == 4 && q.es == 4
    requires p1 == p.(src := None) && q1 == q.(dst := None)
    ensures B.Niters([p], [q], B.OwnSize, STREAMBUFFER) == B.Niters11(p1, q1)
  {
    assert B.PushLimit(q, 4, STREAMBUFFER) == B.PushLimit(q1, 4, STREAMBUFFER);
    assert B.PopLimit(p, 4, STREAMBUFFER) == B.PopLimit(p1, 4, STREAMBUFFER);
    hide B.PushLimit, B.PopLimit;
    assert B.Limits([p], [q], B.OwnSize, STREAMBUFFER) == B.Limits([p1], [q1], _ => 4, STREAMBUFFER);
  }

  lemma OutputIsShortIff(p: B.Port, q: B.Port, room: nat)
    requires p.Valid(STREAMBUFFER) && q.Valid(STREAMBUFFER) && q.es == 4
    requires room == B.Room(q, 4, STREAMBUFFER)
    ensures B.FirstShort(B.Limits([p], [q], B.OwnSize, STREAMBUFFER)) == 0 <==> q.push > room
  {
    hide B.Room, B.PopLimit;
    var limits := B.Limits([p], [q], B.OwnSize, STREAMBUFFER);
    assert limits[0] == B.PushLimit(q, 4, STREAMBUFFER) == room / q.push;
    QuotientIsZeroIff(room, q.push);
  }

  lemma QuotientIsZeroIff(room: nat, push: nat)
    requires 0 < push
    ensures room / push <= 0 <==> push > room
  {
  }

  /** The batch size, and when it is 0 the kernel at the other end of the first stream that allows no firing. */
  method ComputeNiters11<K>(ghost k0: K, ins: SkirStream, outs: SkirStream, src: Option<nat>, dst: Option<nat>,
                            pop: nat, peek: nat, push: nat)
    returns (v: Option<nat>, n: nat)
    requires ins.sh == outs.sh == FOUR && ins.Valid() && outs.Valid()
    requires 0 < pop < 0x8000_0000 && 0 < push && peek < 0x8000_0000
    ensures n == Batch11(Shared(k0, ins, outs), pop, peek, push)
    ensures v == if n > 0 then None else if push > FOUR.cap - 1 - |outs.Items()| then dst else src
  {
    ghost var s0 := Shared(k0, ins, outs);
    MeasuredSpace(FOUR, ins.View());
    MeasuredSpace(FOUR, outs.View());
    var inPort := B.Port(ins.head, ins.tail, ins.sh.es, 1, pop, peek, src, None);
    var outPort := B.Port(outs.head, outs.tail, outs.sh.es, push, 1, 0, None, dst);
    ghost var room := B.Room(outPort, 4, STREAMBUFFER);
    assert room == FOUR.cap - 1 - |outs.Items()|;
    hide Contents, RingMemory.Valid, PushSpace, PopSpace, B.Limits, B.FirstShort, B.Niters, B.Niters11, B.Room;
    OutputIsShortIff(inPort, outPort, room);
    SameUnits(inPort, outPort, InPort(FOUR, s0, pop, peek, None), OutPort(FOUR, s0, push, None));
    v, n := B.ComputeNiters([inPort], [outPort], STREAMBUFFER);
  }

  /** What the skeleton returns: the kernel it is blocked on, or whether the last work result was not 0. Without a
      kernel at the other end a blocked skeleton returns 0, like one that has run. */
  datatype Outcome = Blocked(on: nat) | Ran(stopped: bool)

  /** The whole skeleton. It computes a batch size, copies the two cursors, and publishes them after every
      firing; it ends as if the firings had used checked operations. */
  method WorkfnNocheck11<K(!new)>(work: Work<K>, stop: K -> bool, k0: K, ins: SkirStream, outs: SkirStream,
                                  src: Option<nat>, dst: Option<nat>, pop: nat, peek: nat, push: nat)
    returns (k: K, n: nat, outcome: Outcome)
    requires ins != outs && ins.buf != outs.buf && ins.sh == outs.sh == FOUR && ins.Valid() && outs.Valid()
    requires Sized(FOUR, work) && HasRates(work, pop, peek, push)
    requires 0 < pop < 0x8000_0000 && 0 < push && peek < 0x8000_0000 && (peek <= |ins.Items()| || pop == 1)
    modifies ins`tail, outs`head, outs.buf
    ensures ins.Valid() && outs.Valid()
    ensures CheckedFirings(FOUR, work, stop, old(Shared(k0, ins, outs)), n) == Some(Shared(k, ins, outs))
    ensures n == Batch11(old(Shared(k0, ins, outs)), pop, peek, push)
    ensures forall m :: 0 < m <= STREAMBUFFER ==>
              (m <= n <==> old(Enough(FOUR, Shared(k0, ins, outs), m, pop, peek, push)))
    ensures n > 0 ==> outcome == Ran(stop(k))
    ensures n == 0 && push > FOUR.cap - 1 - old(|outs.Items()|) ==>
              if dst.Some? then outcome == Blocked(dst.value) else outcome == Ran(false)
    ensures n == 0 && push <= FOUR.cap - 1 - old(|outs.Items()|) ==>
              if src.Some? then outcome == Blocked(src.value) else outcome == Ran(false)
  {
    ghost var s0 := Shared(k0, ins, outs);
    var v;
    v, n := ComputeNiters11(k0, ins, outs, src, dst, pop, peek, push);
    forall m | 0 < m <= STREAMBUFFER
      ensures m <= n <==> Enough(FOUR, s0, m, pop, peek, push)
    {
      BatchIsExact(s0, m, pop, peek, push);
    }
    k := k0;
    if v.Some? { return k, n, Blocked(v.value); }
    if n == 0 { return k, n, Ran(false); }
    BatchIsEnough(s0, n, pop, peek, push);
    var stopped;
    k, stopped := RunBatch(work, stop, k0, ins, outs, n, pop, peek, push);
    outcome := Ran(stopped);
  }

  method RunBatch<K(!new)>(work: Work<K>, stop: K -> bool, k0: K, ins: SkirStream, outs: SkirStream, n: nat,
                           pop: nat, peek: nat, push: nat)
    returns (k: K, stopped: bool)
    requires ins != outs && ins.buf != outs.buf && ins.sh == outs.sh && ins.Valid() && outs.Valid()
    requires Sized(ins.sh, work) && HasRates(work, pop, peek, push)
    requires Enough(ins.sh, Shared(k0, ins, outs), n, pop, peek, push)
    modifies ins`tail, outs`head, outs.buf
    ensures ins.Valid() && outs.Valid()
    ensures CheckedFirings(ins.sh, work, stop, old(Shared(k0, ins, outs)), n) == Some(Shared(k, ins, outs))
    ensures stopped == (n > 0 && stop(k))
  {
    hide RingMemory.Valid, Contents, CheckedFiring, Fits, Sized, Pops, Pushes;
    ghost var sh := ins.sh;
    ghost var s0 := Shared(k0, ins, outs);
    var inTail, outHead := ins.tail, outs.head;
    k, stopped := k0, false;
    var i := n;
    while i > 0
      invariant 0 <= i <= n && ins.tail == inTail && outs.head == outHead && ins.Valid() && outs.Valid()
      invariant Enough(sh, Shared(k, ins, outs), i, pop, peek, push)
      invariant CheckedFirings(sh, work, stop, Shared(k, ins, outs), i) == CheckedFirings(sh, work, stop, s0, n)
      invariant !stopped && (i < n ==> !stop(k))
    {
      i := i - 1;
      k, inTail, outHead := FireAndPublish(work, k, ins, inTail, outs, outHead, i, pop, peek, push);
      if stop(k) { return k, true; }
    }
  }

  /** One firing after which the private cursors become the shared ones. */
  method FireAndPublish<K(!new)>(work: Work<K>, k0: K, ins: SkirStream, inTail0: nat, outs: SkirStream, outHead0: nat,
                                 ghost i: nat, ghost pop: nat, ghost peek: nat, ghost push: nat)
    returns (k: K, inTail: nat, outHead: nat)
    requires ins != outs && ins.buf != outs.buf && ins.sh == outs.sh && ins.Valid() && outs.Valid()
    requires ins.tail == inTail0 && outs.head == outHead0
    requires Sized(ins.sh, work) && HasRates(work, pop, peek, push)
    requires Enough(ins.sh, Shared(k0, ins, outs), i + 1, pop, peek, push)
    modifies ins`tail, outs`head, outs.buf
    ensures ins.tail == inTail && outs.head == outHead && ins.Valid() && outs.Valid()
    ensures CheckedFiring(ins.sh, work, old(Shared(k0, ins, outs))) == Some(Shared(k, ins, outs))
    ensures Enough(ins.sh, Shared(k, ins, outs), i, pop, peek, push)
  {
    hide RingMemory.Valid, Contents, CheckedFiring, Fits, Sized, Pops, Pushes;
    ghost var p := Private(Shared(k0, ins, outs), inTail0, outHead0);
    assert p.View() == p.shared;
    EnoughForOne(ins.sh, work, p.View(), i + 1, pop, peek, push);
    k, inTail, outHead := Extern(work, k0, ins, inTail0, outs, outHead0);
    ins.tail := inTail;
    outs.head := outHead;
    assert Shared(k, ins, outs) == PrivateFiring(ins.sh, work, p).View();
  }
}
