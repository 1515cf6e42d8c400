/** One round of the splitter and of the joiner on real streams. */
module FissionWork {
  import opened RingArith
  import opened RingMemory
  import opened StreamOps

  /** Moves n elements from one stream to another. */
  method Move(from: SkirStream, to: SkirStream, n: nat)
    requires from != to && from.buf != to.buf && from.sh.es == to.sh.es && from.Valid() && to.Valid()
    requires n <= |from.Items()| && n <= to.sh.cap - 1 - |to.Items()|
    modifies from`tail, to`head, to.buf
    ensures from.Valid() && to.Valid()
    ensures from.Items() == old(from.Items())[n..] && to.Items() == old(to.Items()) + old(from.Items())[..n]
  {
    hide RingMemory.Valid, Contents, PushTo, PopFrom;
    var j := 0;
    ghost var src, dst := from.Items(), to.Items();
    while j < n
      invariant 0 <= j <= n && from.Valid() && to.Valid()
      invariant from.Items() == src[j..] && to.Items() == dst + src[..j]
    {
      var f := from.PopNocheck();
      assert src[j..] == [f] + from.Items();
      assert f == src[j];
      to.PushNocheck(f);
      assert src[..j] + [src[j]] == src[..j + 1];
      j := j + 1;
    }
  }

  /** How many elements the first i streams get in a round. */
  function Offset(rate: seq<nat>, i: nat): nat
    requires i <= |rate|
  {
    if i == 0 then 0 else Offset(rate, i - 1) + rate[i - 1]
  }

  lemma {:induction false} OffsetMono(rate: seq<nat>, i: nat, j: nat)
    requires i <= j <= |rate|
    ensures Offset(rate, i) <= Offset(rate, j)
    decreases j
  {
    if i < j {
      OffsetMono(rate, i, j - 1);
    }
  }

  /** What the k-th stream gets. */
  function Part(src: seq<Elem>, rate: seq<nat>, k: nat): seq<Elem>
    requires k < |rate| && Offset(rate, |rate|) <= |src|
  {
    OffsetMono(rate, k, k + 1);
    OffsetMono(rate, k + 1, |rate|);
    src[Offset(rate, k)..Offset(rate, k + 1)]
  }

  lemma PartNext(src: seq<Elem>, rate: seq<nat>, k: nat)
    requires k < |rate| && Offset(rate, |rate|) <= |src|
    ensures Offset(rate, k) <= Offset(rate, k) + rate[k] == Offset(rate, k + 1) <= |src|
    ensures src[Offset(rate, k)..][..rate[k]] == Part(src, rate, k)
    ensures src[Offset(rate, k)..][rate[k]..] == src[Offset(rate, k + 1)..]
  {
    OffsetMono(rate, k + 1, |rate|);
  }

  /** Streams that do not share memory. */
  predicate Separate(one: SkirStream, many: seq<SkirStream>) {
    && (forall i :: 0 <= i < |many| ==> many[i] != one && many[i].buf != one.buf)
    && (forall i, j :: 0 <= i < j < |many| ==> many[i] != many[j] && many[i].buf != many[j].buf)
  }

  ghost predicate AllValid(one: SkirStream, many: seq<SkirStream>)
    reads one, one.buf, many, set s | s in many :: s.buf
  {
    one.Valid() && forall i :: 0 <= i < |many| ==> many[i].Valid() && many[i].sh.es == one.sh.es
  }

  /** Moves n elements to one of the outputs and leaves the others alone. */
  method SplitTo(ins: SkirStream, to: SkirStream, n: nat, ghost outs: seq<SkirStream>, ghost i: nat)
    requires Separate(ins, outs) && AllValid(ins, outs) && i < |outs| && to == outs[i]
    requires n <= |ins.Items()| && n <= to.sh.cap - 1 - |to.Items()|
    modifies ins`tail, to`head, to.buf
    ensures AllValid(ins, outs) && ins.Items() == old(ins.Items())[n..]
    ensures to.Items() == old(to.Items()) + old(ins.Items())[..n]
    ensures forall k :: 0 <= k < |outs| && k != i ==> outs[k].Items() == old(outs[k].Items())
  {
    hide SkirStream.Valid, SkirStream.Items, SkirStream.View;
    Move(ins, to, n);
    assert forall k :: 0 <= k < |outs| && k != i ==> outs[k] != to && outs[k].buf != to.buf;
  }

  /** One round of the splitter: consecutive pieces of the input go to consecutive outputs. */
  method SplitRound(ins: SkirStream, outs: seq<SkirStream>, rate: seq<nat>)
    requires Separate(ins, outs) && AllValid(ins, outs) && |rate| == |outs|
    requires Offset(rate, |rate|) <= |ins.Items()|
    requires forall i :: 0 <= i < |outs| ==> rate[i] <= outs[i].sh.cap - 1 - |outs[i].Items()|
    modifies ins`tail, (set s | s in outs)`head, set s | s in outs :: s.buf
    ensures AllValid(ins, outs) && ins.Items() == old(ins.Items())[Offset(rate, |rate|)..]
    ensures forall i :: 0 <= i < |outs| ==> outs[i].Items() == old(outs[i].Items()) + Part(old(ins.Items()), rate, i)
  {
    hide SkirStream.Valid, SkirStream.Items, SkirStream.View, Part, Offset, Separate;
    ghost var src := ins.Items();
    NoOffset(rate);
    var i := 0;
    while i < |outs|
      invariant 0 <= i <= |outs| && AllValid(ins, outs)
      invariant Offset(rate, i) <= |src| && ins.Items() == src[Offset(rate, i)..]
      invariant forall k :: 0 <= k < i ==> outs[k].Items() == old(outs[k].Items()) + Part(src, rate, k)
      invariant forall k :: i <= k < |outs| ==> outs[k].Items() == old(outs[k].Items())
    {
      PartNext(src, rate, i);
      SplitTo(ins, outs[i], rate[i], outs, i);
      i := i + 1;
    }
  }

  lemma NoOffset(rate: seq<nat>)
    ensures Offset(rate, 0) == 0
  {
  }

  lemma NoneJoined(all: seq<seq<Elem>>, rate: seq<nat>)
    requires |all| == |rate| && forall k :: 0 <= k < |all| ==> rate[k] <= |all[k]|
    ensures Joined(all, rate, 0) == []
  {
  }

  lemma JoinedNext(all: seq<seq<Elem>>, rate: seq<nat>, i: nat, dst: seq<Elem>)
    requires i < |all| == |rate| && forall k :: 0 <= k < |all| ==> rate[k] <= |all[k]|
    ensures dst + Joined(all, rate, i) + all[i][..rate[i]] == dst + Joined(all, rate, i + 1)
    ensures Offset(rate, i) + rate[i] == Offset(rate, i + 1) <= Offset(rate, |rate|)
  {
    OffsetMono(rate, i + 1, |rate|);
  }

  /** One round of the joiner: a piece from each input in turn. */
  method JoinRound(ins: seq<SkirStream>, out: SkirStream, rate: seq<nat>)
    requires Separate(out, ins) && AllValid(out, ins) && |rate| == |ins|
    requires Offset(rate, |rate|) <= out.sh.cap - 1 - |out.Items()|
    requires forall i :: 0 <= i < |ins| ==> rate[i] <= |ins[i].Items()|
    modifies out`head, out.buf, (set s | s in ins)`tail
    ensures AllValid(out, ins)
    ensures out.Items() == old(out.Items()) + Joined(old(AllItems(ins)), rate, |ins|)
    ensures forall i :: 0 <= i < |ins| ==> ins[i].Items() == old(ins[i].Items())[rate[i]..]
  {
    hide SkirStream.Valid, SkirStream.Items, SkirStream.View, Joined, Offset, AllItems;
    ghost var dst, all := out.Items(), AllItems(ins);
    NoOffset(rate);
    NoneJoined(all, rate);
    var i := 0;
    while i < |ins|
      invariant 0 <= i <= |ins| && AllValid(out, ins)
      invariant out.Items() == dst + Joined(all, rate, i) && |out.Items()| == |dst| + Offset(rate, i)
      invariant forall k :: 0 <= k < i ==> ins[k].Items() == old(ins[k].Items())[rate[k]..]
      invariant forall k :: i <= k < |ins| ==> ins[k].Items() == old(ins[k].Items())
    {
      JoinedNext(all, rate, i, dst);
      Move(ins[i], out, rate[i]);
      i := i + 1;
    }
  }

  ghost function AllItems(ss: seq<SkirStream>): (r: seq<seq<Elem>>)
    requires forall i :: 0 <= i < |ss| ==> ss[i].Valid()
    reads ss, set s | s in ss :: s.buf
    ensures |r| == |ss| && forall i :: 0 <= i < |ss| ==> r[i] == ss[i].Items()
  {
    if ss == [] then [] else AllItems(ss[..|ss| - 1]) + [ss[|ss| - 1].Items()]
  }

  /** The first rate[k] elements of each of the first i streams, in order. */
  function Joined(all: seq<seq<Elem>>, rate: seq<nat>, i: nat): seq<Elem>
    requires i <= |all| == |rate| && forall k :: 0 <= k < |all| ==> rate[k] <= |all[k]|
  {
    if i == 0 then [] else Joined(all, rate, i - 1) + all[i - 1][..rate[i - 1]]
  }

  /** A joiner that takes what a splitter with the same rates has given puts the splitter's input together again. */
  lemma {:induction false} JoinUndoesSplit(src: seq<Elem>, rate: seq<nat>, parts: seq<seq<Elem>>, i: nat)
    requires i <= |rate| == |parts| && Offset(rate, |rate|) <= |src|
    requires forall k :: 0 <= k < |parts| ==> parts[k] == Part(src, rate, k) && |parts[k]| == rate[k]
    ensures Offset(rate, i) <= |src| && Joined(parts, rate, i) == src[..Offset(rate, i)]
    decreases i
  {
    hide Offset, Part, Joined;
    OffsetMono(rate, i, |rate|);
    if i == 0 {
      NoOffset(rate);
      NoneJoined(parts, rate);
    } else {
      JoinUndoesSplit(src, rate, parts, i - 1);
      PartNext(src, rate, i - 1);
      JoinedNext(parts, rate, i - 1, []);
      var (m, n) := (Offset(rate, i - 1), Offset(rate, i));
      assert parts[i - 1][..rate[i - 1]] == parts[i - 1] == src[m..][..rate[i - 1]];
      Together(src, m, rate[i - 1]);
      assert [] + Joined(parts, rate, i - 1) + parts[i - 1][..rate[i - 1]] == src[..m] + parts[i - 1];
      assert [] + Joined(parts, rate, i) == Joined(parts, rate, i);
    }
  }

  lemma Together(src: seq<Elem>, m: nat, n: nat)
    requires m + n <= |src|
    ensures src[..m] + src[m..][..n] == src[..m + n]
  {
  }
}
