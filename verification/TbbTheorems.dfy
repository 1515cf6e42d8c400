/** What the scheduler promises: exclusive work, exact task counts, and no kernel lost. */
module TbbTheorems {
  import opened TbbSched

  predicate Run(s: State, es: seq<Event>)
    decreases |es|
  {
    es == [] || (Enabled(s, es[0]) && Run(Apply(s, es[0]), es[1..]))
  }

  function After(s: State, es: seq<Event>): State
    requires Run(s, es)
    decreases |es|
  {
    if es == [] then s else After(Apply(s, es[0]), es[1..])
  }

  lemma {:induction false} RunKeepsInv(s: State, es: seq<Event>)
    requires Inv(s) && Run(s, es)
    ensures Inv(After(s, es))
    decreases |es|
  {
    hide Inv, Apply, Enabled;
    if es != [] {
      StepKeepsInv(s, es[0]);
      RunKeepsInv(Apply(s, es[0]), es[1..]);
    }
  }

  /** Whatever the interleaving of dispatcher and workers: `running` is the number of the kernel's live tasks,
      which is 0 or 1, and a task about to decrement it finds it positive. */
  lemma TaskAccounting(es: seq<Event>, k: nat, t: nat)
    requires Run(START, es) && k in After(START, es).kernels
    ensures var s := After(START, es);
            && s.kernels[k].running == |LiveTasks(s, k)| && 0 <= s.kernels[k].running <= 1
            && (t in s.tasks && (s.tasks[t].at == Refused || s.tasks[t].at == Ending) && s.tasks[t].kernel == k ==>
                s.kernels[k].running == 1)
  {
    StartInv();
    RunKeepsInv(START, es);
    var s := After(START, es);
    assert KernelInv(s, k);
    if t in LiveTasks(s, k) {
      AtMostOneLive(s, k, t, t);
    }
  }

  /** No two workers are in the same kernel's work loop at once, and the dispatcher is not at it either. */
  lemma WorkIsExclusive(es: seq<Event>, t: nat, u: nat)
    requires Run(START, es)
    requires var s := After(START, es);
             t in s.tasks && u in s.tasks && AtWork(s.tasks[t].at) && AtWork(s.tasks[u].at)
                 && s.tasks[t].kernel == s.tasks[u].kernel
    ensures t == u && After(START, es).hand != Locked(After(START, es).tasks[t].kernel)
  {
    StartInv();
    RunKeepsInv(START, es);
    var s := After(START, es);
    assert TaskInv(s, t) && TaskInv(s, u);
  }

  // ---- no kernel is lost ----

  predicate ToRun(s: State, k: nat) {
    k in s.kernels && !s.kernels[k].done && !s.kernels[k].removed
  }

  /** A kernel that is neither done nor removed is queued or in the dispatcher's hand, exactly once. */
  lemma NoKernelLost(es: seq<Event>, k: nat)
    requires Run(START, es) && ToRun(After(START, es), k)
    ensures var s := After(START, es);
            multiset(s.runq)[k] + (if InHand(s.hand, k) then 1 else 0) == 1
  {
    StartInv();
    RunKeepsInv(START, es);
    assert QueueInv(After(START, es), k);
  }

  function Pops(es: seq<Event>): nat {
    if es == [] then 0 else (if es[0].Pop? then 1 else 0) + Pops(es[1..])
  }

  /** The queue is first in, first out: after as many pops as there are kernels before it, a kernel is the next. */
  lemma {:induction false} MovesUp(s: State, es: seq<Event>, i: nat)
    requires Run(s, es) && i < |s.runq| && Pops(es) <= i
    ensures i - Pops(es) < |After(s, es).runq| && After(s, es).runq[i - Pops(es)] == s.runq[i]
    decreases |es|
  {
    if es != [] {
      QueueStep(s, es[0], i);
      MovesUp(Apply(s, es[0]), es[1..], if es[0].Pop? then i - 1 else i);
    }
  }

  lemma QueueStep(s: State, e: Event, i: nat)
    requires Enabled(s, e) && i < |s.runq|
    ensures !e.Pop? ==> i < |Apply(s, e).runq| && Apply(s, e).runq[i] == s.runq[i]
    ensures e.Pop? && i > 0 ==> i - 1 < |Apply(s, e).runq| && Apply(s, e).runq[i - 1] == s.runq[i]
    ensures e.Pop? ==> Apply(s, e).hand == Popped(s.runq[0])
  {
  }

  /** So a queued kernel is examined again after at most as many further pops as the queue is long. */
  lemma ExaminedAgain(s: State, es: seq<Event>, i: nat)
    requires Run(s, es) && i < |s.runq| && Pops(es) == i && Enabled(After(s, es), Pop)
    ensures Apply(After(s, es), Pop).hand == Popped(s.runq[i]) && i + 1 <= |s.runq|
  {
    MovesUp(s, es, i);
  }
}
