/** The call-back on the runtime's own objects: kernels and streams whose fields it overwrites. */
module D4RCallback {
  import opened Wrappers
  import opened D4RTag
  import opened D4RProtocol

  class RtStream {
    const id: nat
    const qsize: QSize
    var src: RtKernel?
    var dst: RtKernel?
    var readtagchanged: bool
    var writetagchanged: bool

    constructor (id: nat, qsize: QSize)
      ensures this.id == id && this.qsize == qsize && src == null && dst == null
      ensures !readtagchanged && !writetagchanged
    {
      this.id, this.qsize := id, qsize;
      src, dst := null, null;
      readtagchanged, writetagchanged := false, false;
    }

    function View(): Stream
      reads this`src, this`dst
    {
      Stream(id, KeyOf(src), KeyOf(dst), qsize)
    }
  }

  function KeyOf(k: RtKernel?): Option<nat> {
    if k == null then None else Some(k.key)
  }

  function Views(qs: seq<RtStream>): (views: seq<Stream>)
    reads qs`src, qs`dst
    ensures |views| == |qs| && forall i :: 0 <= i < |qs| ==> views[i] == qs[i].View()
  {
    if qs == [] then [] else [qs[0].View()] + Views(qs[1..])
  }

  /** What `work()` returned: run again (0), finished (an odd value), or the kernel that blocks. */
  datatype WorkResult = Again | Finished | BlockedOn(kernel: RtKernel)

  class RtKernel {
    const key: nat
    var publicTag: Tag
    var privateTag: Tag
    var last_blocker: RtKernel?
    var last_niter: nat
    var total_niter: nat
    var rt_ins: seq<RtStream>
    var rt_outs: seq<RtStream>

    constructor (key: nat)
      ensures this.key == key && Detection() == Tags(FreshTag(key), FreshTag(key), None, 0)
      ensures publicTag == privateTag == Tag(U128(0, key), U128(0xFFFF_FFFF_FFFF_FFFF, key)) && last_blocker == null
      ensures total_niter == 0 && rt_ins == [] && rt_outs == []
    {
      this.key := key;
      publicTag, privateTag := FreshTag(key), FreshTag(key);
      last_blocker, last_niter, total_niter := null, 0, 0;
      rt_ins, rt_outs := [], [];
    }

    function Detection(): Tags
      reads this
    {
      Tags(publicTag, privateTag, KeyOf(last_blocker), last_niter)
    }

    predicate Mine(q: RtStream)
      reads this`rt_ins, this`rt_outs
    {
      q in rt_ins || q in rt_outs
    }

    /** Keys identify kernels, as far as this kernel can see. */
    ghost predicate Valid(r: RtKernel)
      reads this, rt_ins, rt_outs
    {
      && (last_blocker != null && last_blocker.key == r.key ==> last_blocker == r)
      && (forall q :: q in rt_ins && q.src != null && q.src.key == r.key ==> q.src == r)
      && (forall q :: q in rt_outs && q.dst != null && q.dst.key == r.key ==> q.dst == r)
    }

    /** First input written by `r`. */
    method FindInput(r: RtKernel) returns (s: RtStream?)
      requires Valid(r)
      ensures FirstFrom(Views(rt_ins), r.key) == if s == null then None else Some(s.View())
      ensures s != null ==> s in rt_ins
    {
      s := null;
      var j := 0;
      while j < |rt_ins|
        invariant 0 <= j <= |rt_ins| && s == null
        invariant FirstFrom(Views(rt_ins), r.key) == FirstFrom(Views(rt_ins)[j..], r.key)
      {
        if rt_ins[j].src == r {
          return rt_ins[j];
        }
        assert Views(rt_ins)[j..][1..] == Views(rt_ins)[j + 1..];
        j := j + 1;
      }
    }

    /** First output read by `r`. */
    method FindOutput(r: RtKernel) returns (s: RtStream?)
      requires Valid(r)
      ensures FirstTo(Views(rt_outs), r.key) == if s == null then None else Some(s.View())
      ensures s != null ==> s in rt_outs
    {
      s := null;
      var j := 0;
      while j < |rt_outs|
        invariant 0 <= j <= |rt_outs| && s == null
        invariant FirstTo(Views(rt_outs), r.key) == FirstTo(Views(rt_outs)[j..], r.key)
      {
        if rt_outs[j].dst == r {
          return rt_outs[j];
        }
        assert Views(rt_outs)[j..][1..] == Views(rt_outs)[j + 1..];
        j := j + 1;
      }
    }

    /** Searches the inputs for a stream written by `r`, then the outputs for one read by `r`, which wins. */
    method LocateStream(r: RtKernel) returns (s: RtStream?, qsize: int)
      requires Valid(r)
      ensures Locate(Views(rt_ins), Views(rt_outs), r.key) == if s == null then None else Some((s.id, qsize))
      ensures s != null ==> Mine(s)
      ensures s != null && qsize != -1 ==> s in rt_outs && s.dst == r && qsize == s.qsize
      ensures s != null && qsize == -1 ==> s in rt_ins && s.src == r
    {
      hide FirstFrom, FirstTo, AnyFrom, AnyTo, SizedOutput, SomeInput;
      s, qsize := null, 0;
      var input := FindInput(r);
      if input != null {
        s, qsize := input, -1;
      }
      var output := FindOutput(r);
      if output != null {
        s, qsize := output, output.qsize;
      }
    }

    /** Raises the read flag of every input and the write flag of every output. */
    method RaiseFlags()
      modifies rt_ins`readtagchanged
      modifies rt_outs`writetagchanged
      ensures forall q: RtStream :: q in rt_ins ==> q.readtagchanged
      ensures forall q: RtStream :: q in rt_outs ==> q.writetagchanged
    {
      for j := 0 to |rt_ins|
        invariant forall i :: 0 <= i < j ==> rt_ins[i].readtagchanged
      {
        rt_ins[j].readtagchanged := true;
      }
      for j := 0 to |rt_outs|
        invariant forall i :: 0 <= i < j ==> rt_outs[i].writetagchanged
        invariant forall i :: 0 <= i < |rt_ins| ==> rt_ins[i].readtagchanged
      {
        rt_outs[j].writetagchanged := true;
      }
    }

    /** Records a Block on `r`. */
    method Block(r: RtKernel, qsize: int)
      requires -1 <= qsize && !(KeyOf(last_blocker) == Some(r.key) && last_niter == total_niter)
      modifies this`privateTag, this`publicTag
      modifies rt_ins`readtagchanged
      modifies rt_outs`writetagchanged
      modifies this`last_niter, this`last_blocker
      ensures Detection() == var tag := BlockTag(old(Detection()), old(r.publicTag), qsize);
                             Tags(tag, tag, Some(r.key), total_niter)
      ensures last_blocker == r
      ensures forall q: RtStream :: q in rt_ins ==> q.readtagchanged
      ensures forall q: RtStream :: q in rt_outs ==> q.writetagchanged
    {
      privateTag := privateTag.(priority := privateTag.priority.(high := QueueWord(qsize)));
      var count := (if publicTag.lbl.high < r.publicTag.lbl.high then r.publicTag.lbl.high else publicTag.lbl.high) + 1;
      privateTag := privateTag.(lbl := privateTag.lbl.(high := count));
      publicTag := privateTag;
      RaiseFlags();
      last_niter := total_niter;
      last_blocker := r;
    }

    /** Compares tags with the blocking kernel and takes over its tag when that is larger. */
    method Transmit(r: RtKernel, s: RtStream, qsize: int) returns (v: Verdict)
      requires -1 <= qsize && Valid(r) && KeyOf(last_blocker) == Some(r.key) && last_niter == total_niter
      modifies this`publicTag, s`readtagchanged, s`writetagchanged
      ensures var eff := Callback(old(Detection()), total_niter, r.key, old(r.publicTag), qsize,
                                  old(s.readtagchanged), old(s.writetagchanged));
              && Detection() == eff.tags && v == eff.verdict
              && s.readtagchanged == eff.readFlag && s.writetagchanged == eff.writeFlag && !eff.raiseAll
    {
      v := Silent;
      if qsize > 0 && s.writetagchanged {
        s.writetagchanged := false;
      } else if s.readtagchanged {
        s.readtagchanged := false;
      } else {
        return;
      }
      if publicTag.Lt(r.publicTag) {
        var priority := Min(privateTag.priority, r.publicTag.priority);
        publicTag := r.publicTag;
        publicTag := publicTag.(priority := priority);
      } else if publicTag == r.publicTag {
        if publicTag.priority == privateTag.priority {
          v := if qsize == -1 then TrueDeadlock else ArtificialDeadlock;
        }
      }
      if qsize == -1 {
        s.readtagchanged := true;
      } else {
        s.writetagchanged := true;
      }
    }

    /** Runs the Transmit rule when nothing happened since the Block on `r`, else the Block rule. */
    method ApplyRule(r: RtKernel, s: RtStream, qsize: int) returns (v: Verdict, ghost eff: Effect)
      requires -1 <= qsize && Valid(r) && Mine(s)
      modifies this`publicTag, this`privateTag, this`last_blocker, this`last_niter
      modifies rt_ins`readtagchanged, rt_outs`writetagchanged, s`readtagchanged, s`writetagchanged
      ensures eff == Callback(old(Detection()), total_niter, r.key, old(r.publicTag), qsize,
                              old(s.readtagchanged), old(s.writetagchanged))
      ensures Detection() == eff.tags && v == eff.verdict
      ensures eff.raiseAll ==> forall q: RtStream ::
                && (q in rt_ins ==> q.readtagchanged) && (q in rt_outs ==> q.writetagchanged)
                && (Mine(q) && q !in rt_ins ==> q.readtagchanged == old(q.readtagchanged))
                && (Mine(q) && q !in rt_outs ==> q.writetagchanged == old(q.writetagchanged))
      ensures !eff.raiseAll ==>
                && s.readtagchanged == eff.readFlag && s.writetagchanged == eff.writeFlag
                && forall q: RtStream :: Mine(q) && q != s ==>
                     q.readtagchanged == old(q.readtagchanged) && q.writetagchanged == old(q.writetagchanged)
    {
      eff := Callback(Detection(), total_niter, r.key, r.publicTag, qsize, s.readtagchanged, s.writetagchanged);
      if r == last_blocker && total_niter == last_niter {
        v := Transmit(r, s, qsize);
      } else {
        Block(r, qsize);
        v := Silent;
      }
    }

    /** `kernel_task::d4r_cb`: when `work()` named a blocking kernel that shares a stream with this one, applies
        the rules; otherwise changes nothing. `s` is the stream and `eff` the effect, for the contract only. */
    method D4rCb(result: WorkResult) returns (v: Verdict, ghost s: RtStream?, ghost qsize: int, ghost eff: Effect)
      requires result.BlockedOn? ==> Valid(result.kernel)
      modifies this`publicTag, this`privateTag, this`last_blocker, this`last_niter
      modifies rt_ins`readtagchanged, rt_outs`readtagchanged
      modifies rt_ins`writetagchanged, rt_outs`writetagchanged
      ensures s == null <==> !result.BlockedOn? || old(Locate(Views(rt_ins), Views(rt_outs), result.kernel.key)) == None
      ensures s == null ==> v == Silent && Detection() == old(Detection())
      ensures s == null ==> forall q: RtStream :: Mine(q) ==>
                q.readtagchanged == old(q.readtagchanged) && q.writetagchanged == old(q.writetagchanged)
      ensures s != null ==> if qsize == -1 then s in rt_ins && s.src == result.kernel
                            else s in rt_outs && s.dst == result.kernel && qsize == s.qsize
      ensures s != null ==>
                && Mine(s)
                && old(Locate(Views(rt_ins), Views(rt_outs), result.kernel.key)) == Some((s.id, qsize))
                && -1 <= qsize
                && eff == Callback(old(Detection()), total_niter, result.kernel.key, old(result.kernel.publicTag),
                                   qsize, old(s.readtagchanged), old(s.writetagchanged))
                && Detection() == eff.tags && v == eff.verdict
      ensures s != null && eff.raiseAll ==> forall q: RtStream ::
                && (q in rt_ins ==> q.readtagchanged) && (q in rt_outs ==> q.writetagchanged)
                && (Mine(q) && q !in rt_ins ==> q.readtagchanged == old(q.readtagchanged))
                && (Mine(q) && q !in rt_outs ==> q.writetagchanged == old(q.writetagchanged))
      ensures s != null && !eff.raiseAll ==>
                && s.readtagchanged == eff.readFlag && s.writetagchanged == eff.writeFlag
                && forall q: RtStream :: Mine(q) && q != s ==>
                     q.readtagchanged == old(q.readtagchanged) && q.writetagchanged == old(q.writetagchanged)
    {
      hide Callback, Locate, AnyFrom, AnyTo, SizedOutput, SomeInput;
      v, s, qsize := Silent, null, 0;
      eff := Effect(Detection(), false, false, false, Silent);
      if result.BlockedOn? {
        var stream, size := LocateStream(result.kernel);
        if stream != null {
          s, qsize := stream, size;
          v, eff := ApplyRule(result.kernel, stream, size);
        }
      }
    }
  }
}
