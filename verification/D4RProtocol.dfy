/** The deadlock detection of SKIRTbbSched.cpp as a state machine over kernels that fire, wait and poll. */
module D4RProtocol {
  import opened Common
  import opened Wrappers
  import opened D4RTag

  /** What a call-back may report; the source aborts with one of two messages. */
  datatype Verdict = Silent | TrueDeadlock | ArtificialDeadlock

  /** The detection fields of one kernel. */
  datatype Tags = Tags(pub: Tag, priv: Tag, lastBlocker: Option<nat>, lastNiter: nat)

  /** What one call-back does: new fields, the two flags of the blocking stream, and whether
      the Block rule also raises the flags of every stream of the kernel. */
  datatype Effect = Effect(tags: Tags, readFlag: bool, writeFlag: bool, raiseAll: bool, verdict: Verdict)

  /** Block rule: a label above both public tags, made private and public at once. */
  function BlockTag(me: Tags, rpub: Tag, qsize: int): Tag
    requires -1 <= qsize
  {
    var count := (if me.pub.lbl.high < rpub.lbl.high then rpub.lbl.high else me.pub.lbl.high) + 1;
    Tag(me.priv.lbl.(high := count), me.priv.priority.(high := QueueWord(qsize)))
  }

  /** Transmit rule on the public tag. */
  function TransmitTag(me: Tags, rpub: Tag): Tag {
    if me.pub.Lt(rpub) then Tag(rpub.lbl, Min(me.priv.priority, rpub.priority)) else me.pub
  }

  predicate Detects(me: Tags, rpub: Tag) {
    me.pub == rpub && me.pub.priority == me.priv.priority
  }

  /** `kernel_task::d4r_cb` for kernel `me` (with `niter` firings so far) blocked on kernel `r`
      over a stream located with size `qsize`, -1 standing for a blocked read. */
  function Callback(me: Tags, niter: nat, r: nat, rpub: Tag, qsize: int,
                    readFlag: bool, writeFlag: bool): Effect
    requires -1 <= qsize
  {
    if me.lastBlocker == Some(r) && me.lastNiter == niter then
      var useWrite := qsize > 0 && writeFlag;
      if !useWrite && !readFlag then Effect(me, readFlag, writeFlag, false, Silent)
      else
        var clearedRead := if useWrite then readFlag else false;
        var clearedWrite := if useWrite then false else writeFlag;
        Effect(me.(pub := TransmitTag(me, rpub)),
               if qsize == -1 then true else clearedRead,
               if qsize == -1 then clearedWrite else true,
               false,
               if !Detects(me, rpub) then Silent
               else if qsize == -1 then TrueDeadlock else ArtificialDeadlock)
    else
      var tag := BlockTag(me, rpub, qsize);
      Effect(Tags(tag, tag, Some(r), niter), readFlag, writeFlag, true, Silent)
  }

  type QSize = n: nat | 0 < n < WORD64 - 1 witness 1

  /** A stream with the kernels at its two ends, if they are kernels of this process. */
  datatype Stream = Stream(id: nat, src: Option<nat>, dst: Option<nat>, qsize: QSize)

  /** The streams each kernel reads and writes. */
  datatype Topology = Topology(ins: map<nat, seq<Stream>>, outs: map<nat, seq<Stream>>)
  {
    predicate Valid() {
      ins.Keys == outs.Keys
    }
  }

  /** First input stream written by `r`. */
  function FirstFrom(streams: seq<Stream>, r: nat): (o: Option<Stream>)
    ensures o.Some? ==> o.value in streams && o.value.src == Some(r)
    ensures o.None? ==> forall q :: q in streams ==> q.src != Some(r)
  {
    if streams == [] then None
    else if streams[0].src == Some(r) then Some(streams[0])
    else FirstFrom(streams[1..], r)
  }

  /** First output stream read by `r`. */
  function FirstTo(streams: seq<Stream>, r: nat): (o: Option<Stream>)
    ensures o.Some? ==> o.value in streams && o.value.dst == Some(r)
    ensures o.None? ==> forall q :: q in streams ==> q.dst != Some(r)
  {
    if streams == [] then None
    else if streams[0].dst == Some(r) then Some(streams[0])
    else FirstTo(streams[1..], r)
  }

  predicate AnyFrom(streams: seq<Stream>, r: nat) {
    exists q :: q in streams && q.src == Some(r)
  }

  predicate AnyTo(streams: seq<Stream>, r: nat) {
    exists q :: q in streams && q.dst == Some(r)
  }

  /** Some stream to `r` has this number and this queue size. */
  predicate SizedOutput(outs: seq<Stream>, r: nat, id: nat, qsize: int) {
    exists q :: q in outs && q.dst == Some(r) && q.id == id && q.qsize == qsize
  }

  predicate SomeInput(ins: seq<Stream>, r: nat, id: nat) {
    exists q :: q in ins && q.src == Some(r) && q.id == id
  }

  /** The stream a kernel with these streams is taken to be blocked on when `r` blocks it, and the size
      recorded for it: an output to `r` wins over an input from `r`, which counts as -1. */
  function Locate(ins: seq<Stream>, outs: seq<Stream>, r: nat): (o: Option<(nat, int)>)
    ensures o.Some? ==> o.value.1 == -1 || 0 < o.value.1 < WORD64 - 1
    ensures o.None? <==> !AnyTo(outs, r) && !AnyFrom(ins, r)
    ensures o.Some? ==> (o.value.1 == -1 <==> !AnyTo(outs, r))
    ensures o.Some? && o.value.1 != -1 ==> SizedOutput(outs, r, o.value.0, o.value.1)
    ensures o.Some? && o.value.1 == -1 ==> SomeInput(ins, r, o.value.0)
  {
    match FirstTo(outs, r)
    case Some(q) => Some((q.id, q.qsize))
    case None =>
      match FirstFrom(ins, r)
      case Some(q) => Some((q.id, -1))
      case None => None
  }

  /** `q` is the first of these streams that leads to `r`. */
  predicate FirstOutput(outs: seq<Stream>, r: nat, q: Stream) {
    q.dst == Some(r) && exists j :: 0 <= j < |outs| && outs[j] == q && forall i :: 0 <= i < j ==> outs[i].dst != Some(r)
  }

  /** `q` is the first of these streams that comes from `r`. */
  predicate FirstInput(ins: seq<Stream>, r: nat, q: Stream) {
    q.src == Some(r) && exists j :: 0 <= j < |ins| && ins[j] == q && forall i :: 0 <= i < j ==> ins[i].src != Some(r)
  }

  /** Which stream is located: the first output to `r` with its own queue size, or else the first input from `r`. */
  lemma {:induction false} LocateFinds(ins: seq<Stream>, outs: seq<Stream>, r: nat, q: Stream)
    ensures FirstOutput(outs, r, q) ==> Locate(ins, outs, r) == Some((q.id, q.qsize as int))
    ensures !AnyTo(outs, r) && FirstInput(ins, r, q) ==> Locate(ins, outs, r) == Some((q.id, -1))
  {
    if FirstOutput(outs, r, q) {
      FirstToFinds(outs, r, q);
    }
    if FirstInput(ins, r, q) {
      FirstFromFinds(ins, r, q);
    }
  }

  lemma {:induction false} FirstToFinds(outs: seq<Stream>, r: nat, q: Stream)
    requires FirstOutput(outs, r, q)
    ensures FirstTo(outs, r) == Some(q)
  {
    var j :| 0 <= j < |outs| && outs[j] == q && forall i :: 0 <= i < j ==> outs[i].dst != Some(r);
    if j > 0 {
      assert outs[1..][j - 1] == q && forall i :: 0 <= i < j - 1 ==> outs[1..][i] == outs[i + 1];
      FirstToFinds(outs[1..], r, q);
    }
  }

  lemma {:induction false} FirstFromFinds(ins: seq<Stream>, r: nat, q: Stream)
    requires FirstInput(ins, r, q)
    ensures FirstFrom(ins, r) == Some(q)
  {
    var j :| 0 <= j < |ins| && ins[j] == q && forall i :: 0 <= i < j ==> ins[i].src != Some(r);
    if j > 0 {
      assert ins[1..][j - 1] == q && forall i :: 0 <= i < j - 1 ==> ins[1..][i] == ins[i + 1];
      FirstFromFinds(ins[1..], r, q);
    }
  }

  lemma {:induction false} SomeFirstOutput(outs: seq<Stream>, r: nat) returns (q: Stream)
    requires AnyTo(outs, r)
    ensures FirstOutput(outs, r, q)
  {
    if outs[0].dst == Some(r) {
      q := outs[0];
    } else {
      assert AnyTo(outs[1..], r);
      q := SomeFirstOutput(outs[1..], r);
      var j :| 0 <= j < |outs| - 1 && outs[1..][j] == q && forall i :: 0 <= i < j ==> outs[1..][i].dst != Some(r);
      assert outs[j + 1] == q && forall i :: 0 < i <= j ==> outs[i] == outs[1..][i - 1];
    }
  }

  function Located(t: Topology, me: nat, r: nat): (o: Option<(nat, int)>)
    requires t.Valid() && me in t.ins
    ensures o.Some? ==> o.value.1 == -1 || 0 < o.value.1 < WORD64 - 1
    ensures o.Some? && o.value.1 == -1 ==> o.value.0 in Ids(t.ins[me])
    ensures o.Some? && o.value.1 != -1 ==> o.value.0 in Ids(t.outs[me])
  {
    Locate(t.ins[me], t.outs[me], r)
  }

  function Ids(streams: seq<Stream>): set<nat> {
    set q | q in streams :: q.id
  }

  /** `waiting` is what `work()` would report, and `forItems` whether the kernel really waits for items of
      an input, rather than for room in an output; `niter` only grows by firing. */
  datatype Kernel = Kernel(tags: Tags, niter: nat, waiting: Option<nat>, done: bool, forItems: bool)

  datatype State = State(kernels: map<nat, Kernel>, readChanged: set<nat>, writeChanged: set<nat>)

  datatype Event =
    | Fire(kernel: nat, firings: nat, released: set<nat>)
    | Finish(kernel: nat, released: set<nat>)
    | StartWait(kernel: nat, blocker: nat, forItems: bool)
    | Poll(kernel: nat)

  /** A firing (or the end) of `b` may release any of the kernels waiting for it, and nobody else's. */
  function Release(ks: map<nat, Kernel>, b: nat, released: set<nat>): map<nat, Kernel> {
    map n | n in ks :: if n in released && ks[n].waiting == Some(b) then ks[n].(waiting := None) else ks[n]
  }

  predicate ReadsFrom(t: Topology, m: nat, r: nat)
    requires t.Valid() && m in t.ins
  {
    AnyFrom(t.ins[m], r)
  }

  predicate WritesTo(t: Topology, m: nat, r: nat)
    requires t.Valid() && m in t.ins
  {
    AnyTo(t.outs[m], r)
  }

  /** A kernel waits for the other end of one of its streams. */
  predicate MayWait(t: Topology, m: nat, r: nat, forItems: bool)
    requires t.Valid() && m in t.ins
  {
    if forItems then ReadsFrom(t, m, r) else WritesTo(t, m, r)
  }

  predicate Enabled(t: Topology, s: State, e: Event)
    requires t.Valid() && s.kernels.Keys == t.ins.Keys
  {
    e.kernel in s.kernels &&
    match e
    case Fire(b, k, _) => s.kernels[b].waiting.None? && !s.kernels[b].done && k > 0
    case Finish(b, _) => s.kernels[b].waiting.None? && !s.kernels[b].done
    case StartWait(m, r, items) =>
      s.kernels[m].waiting.None? && !s.kernels[m].done && r in s.kernels && MayWait(t, m, r, items)
    case Poll(_) => true
  }

  function SetFlag(flags: set<nat>, q: nat, on: bool): set<nat> {
    if on then flags + {q} else flags - {q}
  }

  /** The call-back run by a poll of `me`, or nothing when `me` is not blocked on a neighbour. */
  function PollEffect(t: Topology, s: State, me: nat): Option<(nat, Effect)>
    requires t.Valid() && me in s.kernels && s.kernels.Keys == t.ins.Keys
  {
    var k := s.kernels[me];
    if k.waiting.None? || k.waiting.value !in s.kernels then None
    else
      var r := k.waiting.value;
      match Located(t, me, r)
      case None => None
      case Some((q, qsize)) =>
        Some((q, Callback(k.tags, k.niter, r, s.kernels[r].tags.pub, qsize,
                          q in s.readChanged, q in s.writeChanged)))
  }

  function VerdictOf(t: Topology, s: State, me: nat): Verdict
    requires t.Valid() && me in s.kernels && s.kernels.Keys == t.ins.Keys
  {
    match PollEffect(t, s, me)
    case None => Silent
    case Some((_, e)) => e.verdict
  }

  function Apply(t: Topology, s: State, e: Event): (s': State)
    requires t.Valid() && s.kernels.Keys == t.ins.Keys && Enabled(t, s, e)
    ensures s'.kernels.Keys == s.kernels.Keys
  {
    match e
    case Fire(b, k, released) =>
      var ks := Release(s.kernels, b, released);
      s.(kernels := ks[b := ks[b].(niter := ks[b].niter + k)])
    case Finish(b, released) =>
      var ks := Release(s.kernels, b, released);
      s.(kernels := ks[b := ks[b].(done := true)])
    case StartWait(m, r, items) =>
      s.(kernels := s.kernels[m := s.kernels[m].(waiting := Some(r), forItems := items)])
    case Poll(m) =>
      match PollEffect(t, s, m)
      case None => s
      case Some((q, eff)) =>
        State(s.kernels[m := s.kernels[m].(tags := eff.tags)],
              if eff.raiseAll then s.readChanged + Ids(t.ins[m]) else SetFlag(s.readChanged, q, eff.readFlag),
              if eff.raiseAll then s.writeChanged + Ids(t.outs[m]) else SetFlag(s.writeChanged, q, eff.writeFlag))
  }

  /** Construction: no kernel has blocked yet and the tag flags are down. */
  predicate Init(t: Topology, s: State) {
    && t.Valid() && s.kernels.Keys == t.ins.Keys
    && s.readChanged == {} && s.writeChanged == {}
    && forall n :: n in s.kernels ==>
         s.kernels[n] == Kernel(Tags(FreshTag(n), FreshTag(n), None, 0), 0, None, false, false)
  }

  predicate Run(t: Topology, s: State, es: seq<Event>)
    requires t.Valid() && s.kernels.Keys == t.ins.Keys
    decreases |es|
  {
    es == [] || (Enabled(t, s, es[0]) && Run(t, Apply(t, s, es[0]), es[1..]))
  }

  function After(t: Topology, s: State, es: seq<Event>): (s': State)
    requires t.Valid() && s.kernels.Keys == t.ins.Keys && Run(t, s, es)
    ensures s'.kernels.Keys == s.kernels.Keys
    decreases |es|
  {
    if es == [] then s else After(t, Apply(t, s, es[0]), es[1..])
  }
}
