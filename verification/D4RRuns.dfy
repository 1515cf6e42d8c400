/** What a run does to the kernels' counts and waits, read off its events. */
module D4RRuns {
  import opened Wrappers
  import opened D4RTag
  import opened D4RProtocol

  function FiringsIn(e: Event, n: nat): nat {
    if e.Fire? && e.kernel == n then e.firings else 0
  }

  /** The firings of kernel n in a run. */
  function Firings(es: seq<Event>, n: nat): nat {
    if es == [] then 0 else FiringsIn(es[0], n) + Firings(es[1..], n)
  }

  predicate Finishes(es: seq<Event>, n: nat) {
    exists i :: 0 <= i < |es| && es[i].Finish? && es[i].kernel == n
  }

  /** A firing or the end of r that releases m. */
  predicate Releases(e: Event, r: nat, m: nat) {
    (e.Fire? || e.Finish?) && e.kernel == r && m in e.released
  }

  predicate NoneReleases(es: seq<Event>, r: nat, m: nat) {
    forall i :: 0 <= i < |es| ==> !Releases(es[i], r, m)
  }

  /** Only its own poll changes what a kernel shows to others. */
  lemma StepOfKernel(t: Topology, s: State, e: Event, n: nat)
    requires t.Valid() && s.kernels.Keys == t.ins.Keys && Enabled(t, s, e) && n in s.kernels
    ensures var (k, k') := (s.kernels[n], Apply(t, s, e).kernels[n]);
            && k'.niter == k.niter + FiringsIn(e, n)
            && (k'.done <==> k.done || (e.Finish? && e.kernel == n))
            && (e != Poll(n) ==> k'.tags == k.tags)
    ensures var (k, k') := (s.kernels[n], Apply(t, s, e).kernels[n]);
            && (k.waiting.Some? ==> k'.waiting == if Releases(e, k.waiting.value, n) then None else k.waiting)
            && (k.waiting.None? ==>
                  k'.waiting == if e.StartWait? && e.kernel == n then Some(e.blocker) else None)
            && k'.forItems == if e.StartWait? && e.kernel == n then e.forItems else k.forItems
  {
  }

  /** Counts and ends are those of the run. */
  lemma {:induction false} CountsAreTheRuns(t: Topology, s: State, es: seq<Event>, n: nat)
    requires t.Valid() && s.kernels.Keys == t.ins.Keys && Run(t, s, es) && n in s.kernels
    ensures After(t, s, es).kernels[n].niter == s.kernels[n].niter + Firings(es, n)
    ensures After(t, s, es).kernels[n].done <==> s.kernels[n].done || Finishes(es, n)
    decreases |es|
  {
    if es != [] {
      StepOfKernel(t, s, es[0], n);
      CountsAreTheRuns(t, Apply(t, s, es[0]), es[1..], n);
      assert Finishes(es[1..], n) ==> Finishes(es, n);
    }
  }

  /** A wait lasts until its blocker fires, or ends, and releases the kernel; meanwhile the kernel makes no firing. */
  lemma {:induction false} WaitsUntilReleased(t: Topology, s: State, es: seq<Event>, m: nat, r: nat)
    requires t.Valid() && s.kernels.Keys == t.ins.Keys && Run(t, s, es) && m in s.kernels
    requires s.kernels[m].waiting == Some(r)
    ensures NoneReleases(es, r, m) ==>
              After(t, s, es).kernels[m].waiting == Some(r) && After(t, s, es).kernels[m].niter == s.kernels[m].niter
    ensures es != [] && NoneReleases(es[..|es| - 1], r, m) && Releases(es[|es| - 1], r, m) ==>
              After(t, s, es).kernels[m].waiting == None
    decreases |es|
  {
    if es != [] {
      StepOfKernel(t, s, es[0], m);
      var s' := Apply(t, s, es[0]);
      if Releases(es[0], r, m) {
        if |es| == 1 {
          assert After(t, s', es[1..]) == s';
        } else {
          assert !NoneReleases(es[..|es| - 1], r, m) by {
            assert es[..|es| - 1][0] == es[0];
          }
        }
      } else {
        WaitsUntilReleased(t, s', es[1..], m, r);
        if |es| > 1 {
          assert es[1..][..|es| - 2] == es[..|es| - 1][1..];
          assert es[..|es| - 1] == [es[0]] + es[1..][..|es| - 2];
        }
      }
    }
  }
}
