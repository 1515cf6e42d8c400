/** The skeleton for one input and one output while the kernels at the other ends of its streams go on working. */
module SkeletonRun {
  import opened Wrappers
  import opened RingArith
  import opened RingMemory
  import opened Skeleton

  /** One step: an operation of the work function on the private cursors, publishing them, an element pushed by
      the kernel that writes the input, or one popped by the kernel that reads the output. */
  datatype Act<!K> = Own(op: Op<K>) | Publish | Arrive(e: Elem) | Depart

  predicate ByPeer<K>(a: Act<K>) {
    a.Arrive? || a.Depart?
  }

  ghost predicate AllSized<K(!new)>(sh: Shape, acts: seq<Act<K>>) {
    forall i :: 0 <= i < |acts| ==>
      (acts[i].Own? ==> Sized(sh, [acts[i].op])) && (acts[i].Arrive? ==> |acts[i].e| == sh.es)
  }

  /** The peers look at the shared cursors, as checked operations do. */
  predicate PeerMay<K>(sh: Shape, a: Act<K>, s: State<K>)
    requires StateValid(sh, s)
  {
    (a.Arrive? ==> MayPush(sh, s.ins)) && (a.Depart? ==> MayPop(s.outs))
  }

  /** The skeleton may lag behind in what it shows: it has popped elements and pushed elements that the shared
      cursors do not tell of yet. */
  predicate Behind<K>(sh: Shape, p: Private<K>) {
    && StateValid(sh, p.shared) && StateValid(sh, p.View())
    && Count(sh, p.View().ins) <= Count(sh, p.shared.ins) && Count(sh, p.shared.outs) <= Count(sh, p.View().outs)
  }

  ghost function PrivateAct<K(!new)>(sh: Shape, a: Act<K>, p: Private<K>): Private<K>
    requires Behind(sh, p) && AllSized(sh, [a]) && PeerMay(sh, a, p.shared)
  {
    match a
    case Own(op) => assert [a][0] == a; PrivateOp(sh, op, p)
    case Publish => p.Publish()
    case Arrive(e) => assert [a][0] == a; p.(shared := p.shared.(ins := PushTo(sh, p.shared.ins, e)))
    case Depart => p.(shared := p.shared.(outs := PopFrom(sh, p.shared.outs)))
  }

  /** The same step where every operation checks and shows at once what it did; nothing if it would block. */
  ghost function CheckedAct<K(!new)>(sh: Shape, a: Act<K>, s: State<K>): (r: Option<State<K>>)
    requires StateValid(sh, s) && AllSized(sh, [a])
    ensures r.Some? ==> StateValid(sh, r.value)
  {
    assert [a][0] == a;
    Guards(sh, s.ins, 0);
    Guards(sh, s.outs, 0);
    match a
    case Own(op) => CheckedOp(sh, op, s)
    case Publish => Some(s)
    case Arrive(e) =>
      if !MayPush(sh, s.ins) then None else PushAppends(sh, s.ins, e); Some(s.(ins := PushTo(sh, s.ins, e)))
    case Depart =>
      if !MayPop(s.outs) then None else PopRemoves(sh, s.outs); Some(s.(outs := PopFrom(sh, s.outs)))
  }

  /** What a peer's checked step means for the elements in the streams. */
  lemma CheckedPeerMeans<K(!new)>(sh: Shape, a: Act<K>, s: State<K>)
    requires StateValid(sh, s) && AllSized(sh, [a]) && ByPeer(a)
    ensures CheckedAct(sh, a, s).None? <==>
              if a.Arrive? then |Contents(sh, s.ins)| >= sh.cap - 1 else Contents(sh, s.outs) == []
    ensures CheckedAct(sh, a, s).Some? ==>
              var s' := CheckedAct(sh, a, s).value;
              && s'.k == s.k
              && (a.Arrive? ==> s'.outs == s.outs && Contents(sh, s'.ins) == Contents(sh, s.ins) + [a.e])
              && (a.Depart? ==> s'.ins == s.ins && Contents(sh, s'.outs) == Contents(sh, s.outs)[1..])
  {
    hide Contents, RingMemory.Valid, PopFrom, PushTo, MayPop, MayPush;
    assert [a][0] == a;
    Guards(sh, s.ins, 0);
    Guards(sh, s.outs, 0);
    if a.Arrive? && |Contents(sh, s.ins)| < sh.cap - 1 {
      PushAppends(sh, s.ins, a.e);
    } else if a.Depart? && Contents(sh, s.outs) != [] {
      PopRemoves(sh, s.outs);
    }
  }

  /** What the items in the input and the room in the output allow, if no peer ever moves. */
  predicate ActsFit<K>(acts: seq<Act<K>>, avail: int, room: int) {
    acts == [] ||
    match acts[0]
    case Own(Pop(_)) => 0 < avail && ActsFit(acts[1..], avail - 1, room)
    case Own(Peek(offset, _)) => offset < avail && ActsFit(acts[1..], avail, room)
    case Own(Push(_)) => 0 < room && ActsFit(acts[1..], avail, room - 1)
    case _ => ActsFit(acts[1..], avail, room)
  }

  lemma {:induction false} ActsFitMore<K>(acts: seq<Act<K>>, avail: int, room: int, more: int, wider: int)
    requires ActsFit(acts, avail, room) && avail <= more && room <= wider
    ensures ActsFit(acts, more, wider)
    decreases |acts|
  {
    if acts != [] {
      var a := if acts[0].Own? && acts[0].op.Pop? then 1 else 0;
      var r := if acts[0].Own? && acts[0].op.Push? then 1 else 0;
      ActsFitMore(acts[1..], avail - a, room - r, more - a, wider - r);
    }
  }

  // ---- one step ----

  lemma ContentsCount(sh: Shape, m: Mem)
    requires Valid(sh, m)
    ensures |Contents(sh, m)| == Count(sh, m)
  {
    CountIs(sh, m);
  }

  /** A peer that may move on the shared cursors may on the view, and moves both alike. */
  lemma PeerActRefines<K(!new)>(sh: Shape, a: Act<K>, p: Private<K>)
    requires Behind(sh, p) && AllSized(sh, [a]) && PeerMay(sh, a, p.shared) && ByPeer(a)
    ensures var p' := PrivateAct(sh, a, p);
            && Behind(sh, p') && CheckedAct(sh, a, p.View()) == Some(p'.View())
            && Avail(sh, p.View()) <= Avail(sh, p'.View()) && Room(sh, p.View()) <= Room(sh, p'.View())
  {
    assert [a][0] == a;
    var s, v := p.shared, p.View();
    ContentsCount(sh, s.ins);
    ContentsCount(sh, v.ins);
    ContentsCount(sh, s.outs);
    ContentsCount(sh, v.outs);
    Guards(sh, s.ins, 0);
    Guards(sh, v.ins, 0);
    Guards(sh, s.outs, 0);
    Guards(sh, v.outs, 0);
    if a.Arrive? {
      PushCounts(sh, s.ins, a.e);
      PushCounts(sh, v.ins, a.e);
      ContentsCount(sh, PushTo(sh, v.ins, a.e));
    } else {
      PopCounts(sh, s.outs);
      PopCounts(sh, v.outs);
      ContentsCount(sh, PopFrom(sh, v.outs));
    }
  }

  /** An operation that fits is the checked one on the view. */
  lemma OwnActRefines<K(!new)>(sh: Shape, op: Op<K>, p: Private<K>)
    requires Behind(sh, p) && AllSized(sh, [Own(op)]) && Fits([op], Avail(sh, p.View()), Room(sh, p.View()))
    ensures var p' := PrivateAct(sh, Own(op), p);
            && Behind(sh, p') && CheckedAct(sh, Own(op), p.View()) == Some(p'.View())
            && Avail(sh, p'.View()) == Avail(sh, p.View()) - (if op.Pop? then 1 else 0)
            && Room(sh, p'.View()) == Room(sh, p.View()) - (if op.Push? then 1 else 0)
  {
    assert [Own(op)][0] == Own(op) && [op][0] == op;
    OpRefines(sh, [op], p);
    var p' := PrivateAct(sh, Own(op), p);
    ContentsCount(sh, p.View().ins);
    ContentsCount(sh, p.View().outs);
    ContentsCount(sh, p'.View().ins);
    ContentsCount(sh, p'.View().outs);
  }

  lemma ActRefines<K(!new)>(sh: Shape, acts: seq<Act<K>>, p: Private<K>)
    requires Behind(sh, p) && acts != [] && AllSized(sh, [acts[0]]) && PeerMay(sh, acts[0], p.shared)
    requires ActsFit(acts, Avail(sh, p.View()), Room(sh, p.View()))
    ensures var p' := PrivateAct(sh, acts[0], p);
            && Behind(sh, p') && CheckedAct(sh, acts[0], p.View()) == Some(p'.View())
            && ActsFit(acts[1..], Avail(sh, p'.View()), Room(sh, p'.View()))
  {
    hide Contents, Count, RingMemory.Valid, CheckedOp, PrivateOp, PushTo, PopFrom;
    if acts[0].Own? {
      assert Fits([acts[0].op], Avail(sh, p.View()), Room(sh, p.View()));
      OwnActRefines(sh, acts[0].op, p);
    } else if ByPeer(acts[0]) {
      PeerActRefines(sh, acts[0], p);
      var p' := PrivateAct(sh, acts[0], p);
      ActsFitMore(acts[1..], Avail(sh, p.View()), Room(sh, p.View()), Avail(sh, p'.View()), Room(sh, p'.View()));
    }
  }

  // ---- whole runs ----

  lemma SizedParts<K(!new)>(sh: Shape, acts: seq<Act<K>>)
    requires AllSized(sh, acts) && acts != []
    ensures AllSized(sh, [acts[0]]) && AllSized(sh, acts[1..])
  {
    assert [acts[0]][0] == acts[0];
  }

  /** Every peer moves only when the shared cursors let it. */
  ghost predicate PeersObey<K(!new)>(sh: Shape, acts: seq<Act<K>>, p: Private<K>)
    requires AllSized(sh, acts)
    decreases |acts|
  {
    acts == [] || (SizedParts(sh, acts); Behind(sh, p) ==>
      PeerMay(sh, acts[0], p.shared) && PeersObey(sh, acts[1..], PrivateAct(sh, acts[0], p)))
  }

  ghost function PrivateRun<K(!new)>(sh: Shape, acts: seq<Act<K>>, p: Private<K>): Private<K>
    requires AllSized(sh, acts)
    decreases |acts|
  {
    if acts == [] || !Behind(sh, p) || !PeerMay(sh, acts[0], p.shared) then p
    else SizedParts(sh, acts); PrivateRun(sh, acts[1..], PrivateAct(sh, acts[0], p))
  }

  ghost function CheckedRun<K(!new)>(sh: Shape, acts: seq<Act<K>>, s: State<K>): (r: Option<State<K>>)
    requires StateValid(sh, s) && AllSized(sh, acts)
    decreases |acts|
  {
    if acts == [] then Some(s)
    else
      SizedParts(sh, acts);
      match CheckedAct(sh, acts[0], s)
      case None => None
      case Some(s1) => CheckedRun(sh, acts[1..], s1)
  }

  /** However the peers move in between, a run of unchecked operations that fitted at the start is a run of checked
      ones, none of which blocks, on the streams as they would be with everything published. */
  lemma {:induction false} RunRefines<K(!new)>(sh: Shape, acts: seq<Act<K>>, p: Private<K>)
    requires Behind(sh, p) && AllSized(sh, acts) && PeersObey(sh, acts, p)
    requires ActsFit(acts, Avail(sh, p.View()), Room(sh, p.View()))
    ensures Behind(sh, PrivateRun(sh, acts, p))
    ensures CheckedRun(sh, acts, p.View()) == Some(PrivateRun(sh, acts, p).View())
    decreases |acts|
  {
    hide Behind, PrivateAct, CheckedAct, AllSized, PeerMay, Contents, ActsFit;
    if acts != [] {
      SizedParts(sh, acts);
      ActRefines(sh, acts, p);
      RunRefines(sh, acts[1..], PrivateAct(sh, acts[0], p));
    }
  }

  // ---- the skeleton's own steps ----

  function OwnOps<K>(work: Work<K>): seq<Act<K>> {
    if work == [] then [] else [Own(work[0])] + OwnOps(work[1..])
  }

  /** m firings, each followed by publishing both cursors. */
  function Program<K>(work: Work<K>, m: nat): seq<Act<K>> {
    if m == 0 then [] else OwnOps(work) + [Publish] + Program(work, m - 1)
  }

  function WithoutPeers<K>(acts: seq<Act<K>>): seq<Act<K>> {
    if acts == [] then []
    else if ByPeer(acts[0]) then WithoutPeers(acts[1..])
    else [acts[0]] + WithoutPeers(acts[1..])
  }

  /** Only peers' acts are left out, wherever they are. */
  lemma {:induction false} PeersAnywhere<K>(a: seq<Act<K>>, peer: Act<K>, b: seq<Act<K>>)
    requires ByPeer(peer)
    ensures WithoutPeers(a + [peer] + b) == WithoutPeers(a + b)
    decreases |a|
  {
    if a == [] {
      assert a + [peer] + b == [peer] + b && a + b == b;
    } else {
      PeersAnywhere(a[1..], peer, b);
      assert (a + [peer] + b)[1..] == a[1..] + [peer] + b && (a + b)[1..] == a[1..] + b;
    }
  }

  /** Without peers a program of the skeleton is left as it is. */
  lemma {:induction false} OwnActsStay<K>(acts: seq<Act<K>>)
    requires forall i :: 0 <= i < |acts| ==> !ByPeer(acts[i])
    ensures WithoutPeers(acts) == acts
  {
    if acts != [] {
      OwnActsStay(acts[1..]);
    }
  }

  lemma {:induction false} PeersTakeNothing<K>(acts: seq<Act<K>>, avail: int, room: int)
    requires ActsFit(WithoutPeers(acts), avail, room)
    ensures ActsFit(acts, avail, room)
    decreases |acts|
  {
    if acts != [] {
      assert !ByPeer(acts[0]) ==> WithoutPeers(acts)[1..] == WithoutPeers(acts[1..]);
      var a := if acts[0].Own? && acts[0].op.Pop? then 1 else 0;
      var r := if acts[0].Own? && acts[0].op.Push? then 1 else 0;
      PeersTakeNothing(acts[1..], avail - a, room - r);
    }
  }

  lemma HeadFirst<T>(x: T, a: seq<T>, b: seq<T>)
    ensures var s := [x] + a + b; s[0] == x && s[1..] == a + b
  {
  }

  lemma FirstOp<K>(work: Work<K>, rest: seq<Act<K>>)
    requires work != []
    ensures var acts := OwnOps(work) + rest;
            acts != [] && acts[0] == Own(work[0]) && acts[1..] == OwnOps(work[1..]) + rest
  {
    var ops := OwnOps(work[1..]);
    assert OwnOps(work) == [Own(work[0])] + ops;
    hide OwnOps;
    HeadFirst(Own(work[0]), ops, rest);
  }

  lemma {:induction false} OpsFit<K>(work: Work<K>, rest: seq<Act<K>>, avail: int, room: int)
    requires Fits(work, avail, room) && ActsFit(rest, avail - Pops(work), room - Pushes(work))
    ensures ActsFit(OwnOps(work) + rest, avail, room)
    decreases |work|
  {
    hide OwnOps;
    if work == [] {
      NoOps(rest);
    } else {
      FirstOp(work, rest);
      var (a, r) := (if work[0].Pop? then 1 else 0, if work[0].Push? then 1 else 0);
      OpsFit(work[1..], rest, avail - a, room - r);
    }
  }

  lemma NoOps<K>(rest: seq<Act<K>>)
    ensures OwnOps([]) + rest == rest
  {
  }

  lemma {:induction false} ProgramFits<K>(work: Work<K>, m: nat, pop: nat, peek: nat, push: nat)
    requires HasRates(work, pop, peek, push)
    ensures ActsFit(Program(work, m), m * pop + peek, m * push)
    decreases m
  {
    if m > 0 {
      ProgramFits(work, m - 1, pop, peek, push);
      OneLess(m, pop);
      OneLess(m, push);
      var rest := [Publish] + Program(work, m - 1);
      assert rest[1..] == Program(work, m - 1);
      FitsMore(work, pop + peek, push, m * pop + peek, m * push);
      OpsFit(work, rest, m * pop + peek, m * push);
      assert OwnOps(work) + rest == Program(work, m);
    }
  }

  lemma {:induction false} ProgramEnds<K>(work: Work<K>, m: nat)
    requires 0 < m
    ensures |Program(work, m)| > 0 && Program(work, m)[|Program(work, m)| - 1] == Publish
    decreases m
  {
    if m > 1 {
      ProgramEnds(work, m - 1);
    }
  }

  /** The private cursors are the shared ones again after the last Publish. */
  lemma {:induction false} EndsShown<K(!new)>(sh: Shape, acts: seq<Act<K>>, p: Private<K>)
    requires Behind(sh, p) && AllSized(sh, acts) && PeersObey(sh, acts, p)
    requires ActsFit(acts, Avail(sh, p.View()), Room(sh, p.View()))
    requires var own := WithoutPeers(acts); if own == [] then p.View() == p.shared else own[|own| - 1] == Publish
    ensures PrivateRun(sh, acts, p).shared == PrivateRun(sh, acts, p).View()
    decreases |acts|
  {
    hide Behind, CheckedAct, AllSized, PeerMay, Contents, ActsFit, PrivateOp;
    if acts != [] {
      SizedParts(sh, acts);
      ActRefines(sh, acts, p);
      EndsShown(sh, acts[1..], PrivateAct(sh, acts[0], p));
    }
  }

  /** The skeleton run for any number of firings up to its batch size, with its peers moving at any time in
      between: it is a run of checked operations of all three kernels in the same order, none of the skeleton's
      blocks, and at the end the shared cursors and buffers are those of the checked run. */
  lemma SkeletonRunRefinesChecked<K(!new)>(work: Work<K>, s: State<K>, m: nat, pop: nat, peek: nat, push: nat,
                                           acts: seq<Act<K>>)
    requires StateValid(FOUR, s) && Sized(FOUR, work) && HasRates(work, pop, peek, push)
    requires 0 < pop < 0x8000_0000 && 0 < push && peek < 0x8000_0000
    requires 0 < m <= Batch11(s, pop, peek, push) && (peek <= Avail(FOUR, s) || pop == 1)
    requires AllSized(FOUR, acts) && WithoutPeers(acts) == Program(work, m)
    requires PeersObey(FOUR, acts, Private(s, s.ins.tail, s.outs.head))
    ensures CheckedRun(FOUR, acts, s) == Some(PrivateRun(FOUR, acts, Private(s, s.ins.tail, s.outs.head)).shared)
  {
    var p := Private(s, s.ins.tail, s.outs.head);
    assert p.View() == s;
    BatchIsEnough(s, m, pop, peek, push);
    hide Contents, Batch11;
    ProgramFits(work, m, pop, peek, push);
    ProgramEnds(work, m);
    PeersTakeNothing(acts, m * pop + peek, m * push);
    ActsFitMore(acts, m * pop + peek, m * push, Avail(FOUR, s), Room(FOUR, s));
    RunRefines(FOUR, acts, p);
    EndsShown(FOUR, acts, p);
  }
}
