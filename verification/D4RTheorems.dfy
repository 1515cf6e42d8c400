/** What the detection protocol promises: reports are real, unique and inevitable. */
module D4RTheorems {
  import opened Common
  import opened Wrappers
  import opened D4RTag
  import opened D4RProtocol
  import opened D4RInvariant
  import opened D4RSteps

  /** The kernels met by following wait-for edges from c[0] come back to c[0] after |c| edges, and each of
      them is engaged with the protocol and still blocked on the next. */
  ghost predicate DeadlockCycle(ks: Kernels, c: seq<nat>) {
    && c != []
    && (forall i :: 0 <= i < |c| ==> c[i] in ks && Locked(ks, c[i]))
    && (forall i :: 0 <= i < |c| ==> ks[c[i]].waiting == Some(c[Next(c, i)]))
  }

  function Next(c: seq<nat>, i: nat): (j: nat)
    requires i < |c|
    ensures j < |c|
  {
    if i + 1 < |c| then i + 1 else 0
  }

  // ---- soundness ----

  function NextOr(path: seq<nat>, i: nat, n: nat): nat
    requires i < |path|
  {
    if i + 1 < |path| then path[i + 1] else n
  }

  /** A path to `n` is a list of locked kernels, each waiting for the next and the last for `n`. */
  lemma {:induction false} ChainPath(ks: Kernels, m: nat, n: nat, p: U128, k: nat) returns (path: seq<nat>)
    requires Chain(ks, m, n, p, k)
    ensures path != [] && path[0] == m
    ensures forall i :: 0 <= i < |path| ==> path[i] in ks && Locked(ks, path[i]) && p.Le(ks[path[i]].tags.priv.priority)
    ensures forall i :: 0 <= i < |path| ==> ks[path[i]].waiting == Some(NextOr(path, i, n))
    decreases k
  {
    if ks[m].waiting.value == n {
      path := [m];
    } else {
      var rest := ChainPath(ks, ks[m].waiting.value, n, p, k - 1);
      path := [m] + rest;
      forall i | 0 <= i < |path|
        ensures ks[path[i]].waiting == Some(NextOr(path, i, n))
      {
        if i > 0 {
          assert path[i] == rest[i - 1] && NextOr(path, i, n) == NextOr(rest, i - 1, n);
        }
      }
    }
  }

  /** Kernels of a cycle wait for a stream they read, rather than for room in one they write. */
  predicate BlockedOnRead(t: Topology, ks: Kernels, n: nat)
    requires t.Valid() && t.ins.Keys == ks.Keys && n in ks
  {
    ks[n].waiting.Some? && Located(t, n, ks[n].waiting.value).Some? && Located(t, n, ks[n].waiting.value).value.1 == -1
  }

  /** When that is: only if the kernel has no stream to its blocker, whatever it really waits for. */
  lemma ReadOnlyWithoutOutput(t: Topology, ks: Kernels, n: nat, r: nat)
    requires t.Valid() && t.ins.Keys == ks.Keys && n in ks && ks[n].waiting == Some(r)
    ensures BlockedOnRead(t, ks, n) <==> ReadsFrom(t, n, r) && !WritesTo(t, n, r)
  {
  }

  /** A locked kernel that waits for one that leads back to it closes a cycle. */
  lemma CloseCycle(ks: Kernels, n: nat, r: nat, p: U128) returns (c: seq<nat>)
    requires n in ks && Locked(ks, n) && ks[n].waiting == Some(r) && p.Le(ks[n].tags.priv.priority)
    requires r != n ==> Reaches(ks, r, n, p)
    ensures DeadlockCycle(ks, c) && c[0] == n
    ensures forall i :: 0 <= i < |c| ==> p.Le(ks[c[i]].tags.priv.priority)
  {
    if r == n {
      c := [n];
    } else {
      var k: nat :| Chain(ks, r, n, p, k);
      var path := ChainPath(ks, r, n, p, k);
      c := [n] + path;
      forall i | 0 <= i < |c|
        ensures Locked(ks, c[i]) && ks[c[i]].waiting == Some(c[Next(c, i)])
      {
        if i > 0 {
          assert c[i] == path[i - 1];
          assert c[Next(c, i)] == NextOr(path, i - 1, n);
        }
      }
    }
  }

  /** The first output of the i-th kernel of the cycle to the one it waits for. */
  predicate WritesOn(t: Topology, c: seq<nat>, i: nat, q: Stream)
    requires t.Valid() && i < |c| && forall j :: 0 <= j < |c| ==> c[j] in t.ins
  {
    FirstOutput(t.outs[c[i]], c[Next(c, i)], q)
  }

  /** The first kernel of the cycle waits for the one after it over an output `q`, no smaller than which is that of
      any other kernel of the cycle that writes to the one it waits for; of equal ones it has the least key. */
  ghost predicate HasSmallestQueue(t: Topology, c: seq<nat>, q: Stream)
    requires t.Valid() && c != [] && forall j :: 0 <= j < |c| ==> c[j] in t.ins
  {
    WritesOn(t, c, 0, q)
    && forall i, o :: 0 <= i < |c| && WritesOn(t, c, i, o) ==> q.qsize < o.qsize || (q.qsize == o.qsize && c[0] <= c[i])
  }

  /** The kernel with the least priority has the smallest queue of those that the cycle writes to; if there are none,
      it has the least key. */
  lemma LeastHasSmallestQueue(t: Topology, s: State, c: seq<nat>)
    requires Inv(t, s) && DeadlockCycle(s.kernels, c)
    requires forall i :: 0 <= i < |c| ==>
               s.kernels[c[0]].tags.priv.priority.Le(s.kernels[c[i]].tags.priv.priority)
    ensures BlockedOnRead(t, s.kernels, c[0]) ==> forall i :: 0 <= i < |c| ==> c[0] <= c[i]
    ensures !BlockedOnRead(t, s.kernels, c[0]) ==> exists q :: HasSmallestQueue(t, c, q)
  {
    var ks := s.kernels;
    LeastDecides(t, s, c[0], c);
    assert OwnInv(t, ks, c[0]);
    if BlockedOnRead(t, ks, c[0]) {
      forall i | 0 <= i < |c|
        ensures c[0] <= c[i]
      {
        assert BlockedOnRead(t, ks, c[i]) && OwnInv(t, ks, c[i]);
      }
    } else {
      var q := SomeFirstOutput(t.outs[c[0]], c[Next(c, 0)]);
      LocateFinds(t.ins[c[0]], t.outs[c[0]], c[Next(c, 0)], q);
      forall i, o | 0 <= i < |c| && WritesOn(t, c, i, o)
        ensures q.qsize < o.qsize || (q.qsize == o.qsize && c[0] <= c[i])
      {
        assert OwnInv(t, ks, c[i]);
        LocateFinds(t.ins[c[i]], t.outs[c[i]], c[Next(c, i)], o);
      }
      assert HasSmallestQueue(t, c, q);
    }
  }

  /** A report is never false: the reporting kernel lies on a cycle of kernels that are all still blocked on
      each other, its private priority is the least on the cycle, and it calls the deadlock true exactly
      when every kernel on the cycle is located as blocked on a read. Then it has the least key of them, and
      otherwise the smallest queue, which is the one that has to grow. */
  lemma ReportsAreReal(t: Topology, s: State, n: nat) returns (c: seq<nat>)
    requires Inv(t, s) && n in s.kernels && VerdictOf(t, s, n) != Silent
    ensures DeadlockCycle(s.kernels, c) && c[0] == n
    ensures forall i :: 0 <= i < |c| ==> s.kernels[n].tags.priv.priority.Le(s.kernels[c[i]].tags.priv.priority)
    ensures VerdictOf(t, s, n) == TrueDeadlock <==> forall i :: 0 <= i < |c| ==> BlockedOnRead(t, s.kernels, c[i])
    ensures VerdictOf(t, s, n) == TrueDeadlock ==> forall i :: 0 <= i < |c| ==> n <= c[i]
    ensures VerdictOf(t, s, n) == ArtificialDeadlock ==> exists q :: HasSmallestQueue(t, c, q)
  {
    var ks := s.kernels;
    var (q, eff) := PollEffect(t, s, n).value;
    assert FlagInv(t, s, n) && OwnInv(t, ks, n);
    GateIsOpen(t, s, n);
    var r := ks[n].waiting.value;
    if r != n {
      assert PairInv(ks, r, n) && OwnInv(t, ks, r);
    }
    c := CloseCycle(ks, n, r, ks[n].tags.priv.priority);
    LeastDecides(t, s, n, c);
    LeastHasSmallestQueue(t, s, c);
  }

  lemma LeastDecides(t: Topology, s: State, n: nat, c: seq<nat>)
    requires Inv(t, s) && n in s.kernels && DeadlockCycle(s.kernels, c) && c[0] == n
    requires forall i :: 0 <= i < |c| ==> s.kernels[n].tags.priv.priority.Le(s.kernels[c[i]].tags.priv.priority)
    ensures BlockedOnRead(t, s.kernels, n) <==> forall i :: 0 <= i < |c| ==> BlockedOnRead(t, s.kernels, c[i])
  {
    assert OwnInv(t, s.kernels, n);
    forall i | 0 <= i < |c| && BlockedOnRead(t, s.kernels, n)
      ensures BlockedOnRead(t, s.kernels, c[i])
    {
      assert OwnInv(t, s.kernels, c[i]);
    }
    assert BlockedOnRead(t, s.kernels, c[0]) <==> BlockedOnRead(t, s.kernels, n);
  }

  /** The same in every state a run from construction can reach. */
  lemma Soundness(t: Topology, s0: State, es: seq<Event>, n: nat) returns (c: seq<nat>)
    requires Init(t, s0) && Run(t, s0, es) && n in s0.kernels
    requires VerdictOf(t, After(t, s0, es), n) != Silent
    ensures var ks := After(t, s0, es).kernels;
            && DeadlockCycle(ks, c) && c[0] == n
            && (forall i :: 0 <= i < |c| ==> ks[n].tags.priv.priority.Le(ks[c[i]].tags.priv.priority))
            && (VerdictOf(t, After(t, s0, es), n) == TrueDeadlock <==> forall i :: 0 <= i < |c| ==>
                BlockedOnRead(t, ks, c[i]))
            && (VerdictOf(t, After(t, s0, es), n) == TrueDeadlock ==> forall i :: 0 <= i < |c| ==> n <= c[i])
            && (VerdictOf(t, After(t, s0, es), n) == ArtificialDeadlock ==> exists q :: HasSmallestQueue(t, c, q))
  {
    InitInv(t, s0);
    RunKeepsInv(t, s0, es);
    c := ReportsAreReal(t, After(t, s0, es), n);
  }

  // ---- true and artificial deadlocks ----

  /** Every kernel of the cycle really waits for items: no room in any stream would help. */
  predicate AllWaitForItems(ks: Kernels, c: seq<nat>)
    requires forall i :: 0 <= i < |c| ==> c[i] in ks
  {
    forall i :: 0 <= i < |c| ==> ks[c[i]].forItems
  }

  /** Some kernel of the cycle has a stream to the kernel it waits for. */
  predicate SomeWritesBack(t: Topology, c: seq<nat>)
    requires t.Valid() && forall i :: 0 <= i < |c| ==> c[i] in t.ins
  {
    exists i :: 0 <= i < |c| && WritesTo(t, c[i], c[Next(c, i)])
  }

  /** A reported deadlock is called what it is, true exactly when all its kernels wait for items, unless they
      all do and one of them has a stream to the kernel it waits for: then, and only then, it is called
      artificial although it is true. */
  lemma VerdictIsRightIff(t: Topology, s: State, n: nat) returns (c: seq<nat>)
    requires Inv(t, s) && n in s.kernels && VerdictOf(t, s, n) != Silent
    ensures DeadlockCycle(s.kernels, c) && c[0] == n
    ensures (VerdictOf(t, s, n) == TrueDeadlock <==> AllWaitForItems(s.kernels, c))
            <==> !(AllWaitForItems(s.kernels, c) && SomeWritesBack(t, c))
    ensures VerdictOf(t, s, n) == TrueDeadlock ==> AllWaitForItems(s.kernels, c)
  {
    c := ReportsAreReal(t, s, n);
    var ks := s.kernels;
    forall i | 0 <= i < |c|
      ensures BlockedOnRead(t, ks, c[i]) <==> ks[c[i]].forItems && !WritesTo(t, c[i], c[Next(c, i)])
    {
      assert OwnInv(t, ks, c[i]) && ks[c[i]].waiting == Some(c[Next(c, i)]);
      ReadOnlyWithoutOutput(t, ks, c[i], c[Next(c, i)]);
    }
  }

  /** No two kernels with streams in both directions. */
  predicate OneWay(t: Topology)
    requires t.Valid()
  {
    forall m, r :: m in t.ins && r in t.ins && ReadsFrom(t, m, r) ==> !WritesTo(t, m, r)
  }

  /** So on such a topology every verdict of every run is right. */
  lemma OneWayVerdictsAreRight(t: Topology, s0: State, es: seq<Event>, n: nat) returns (c: seq<nat>)
    requires Init(t, s0) && Run(t, s0, es) && n in s0.kernels && OneWay(t)
    requires VerdictOf(t, After(t, s0, es), n) != Silent
    ensures var s := After(t, s0, es);
            && DeadlockCycle(s.kernels, c) && c[0] == n
            && (VerdictOf(t, s, n) == TrueDeadlock <==> AllWaitForItems(s.kernels, c))
  {
    InitInv(t, s0);
    RunKeepsInv(t, s0, es);
    var s := After(t, s0, es);
    c := VerdictIsRightIff(t, s, n);
    forall i | 0 <= i < |c| && s.kernels[c[i]].forItems
      ensures !WritesTo(t, c[i], c[Next(c, i)])
    {
      assert OwnInv(t, s.kernels, c[i]) && s.kernels[c[i]].waiting == Some(c[Next(c, i)]);
    }
  }

  // ---- a deadlock stays ----

  lemma CycleStays(t: Topology, s: State, e: Event, c: seq<nat>)
    requires Inv(t, s) && Enabled(t, s, e) && DeadlockCycle(s.kernels, c)
    ensures DeadlockCycle(Apply(t, s, e).kernels, c)
    ensures forall i :: 0 <= i < |c| ==> Apply(t, s, e).kernels[c[i]].tags.priv == s.kernels[c[i]].tags.priv
    ensures forall i :: 0 <= i < |c| && e != Poll(c[i]) ==> Apply(t, s, e).kernels[c[i]].tags == s.kernels[c[i]].tags
    ensures forall i :: 0 <= i < |c| && e == Poll(c[i]) ==>
              Apply(t, s, e).kernels[c[i]].tags.pub
                  == TransmitTag(s.kernels[c[i]].tags, s.kernels[c[Next(c, i)]].tags.pub)
  {
    var ks, ks' := s.kernels, Apply(t, s, e).kernels;
    forall i | 0 <= i < |c|
      ensures Locked(ks', c[i]) && ks'[c[i]].waiting == ks[c[i]].waiting && ks'[c[i]].tags.priv == ks[c[i]].tags.priv
      ensures e != Poll(c[i]) ==> ks'[c[i]].tags == ks[c[i]].tags
      ensures e == Poll(c[i]) ==> ks'[c[i]].tags.pub == TransmitTag(ks[c[i]].tags, ks[c[Next(c, i)]].tags.pub)
    {
      KernelStays(t, s, e, c[i], c[Next(c, i)]);
    }
  }

  /** A locked kernel whose blocker is itself blocked changes at most its public tag, by transmitting. */
  lemma KernelStays(t: Topology, s: State, e: Event, m: nat, r: nat)
    requires Inv(t, s) && Enabled(t, s, e) && m in s.kernels && r in s.kernels
    requires Locked(s.kernels, m) && s.kernels[m].waiting == Some(r) && s.kernels[r].waiting.Some?
    ensures var (k, k') := (s.kernels[m], Apply(t, s, e).kernels[m]);
            && k'.waiting == k.waiting && k'.niter == k.niter && k'.done == k.done
            && k'.tags == if e == Poll(m) then k.tags.(pub := TransmitTag(k.tags, s.kernels[r].tags.pub)) else k.tags
  {
    assert OwnInv(t, s.kernels, m) && FlagInv(t, s, m);
    if e.Fire? || e.Finish? {
      MovingOn(t, s, e);
    } else if e == Poll(m) {
      PollMoves(t, s, m);
    }
  }

  /** Nothing that happens later ever unblocks the kernels of a reported cycle. */
  lemma {:induction false} DeadlockIsForever(t: Topology, s: State, es: seq<Event>, c: seq<nat>)
    requires Inv(t, s) && Run(t, s, es) && DeadlockCycle(s.kernels, c)
    ensures DeadlockCycle(After(t, s, es).kernels, c)
    decreases |es|
  {
    if es != [] {
      StepKeepsInv(t, s, es[0]);
      CycleStays(t, s, es[0], c);
      DeadlockIsForever(t, Apply(t, s, es[0]), es[1..], c);
    }
  }

  // ---- completeness: when nothing on the cycle rises any more, one kernel reports ----

  ghost predicate Quiescent(ks: Kernels, c: seq<nat>)
    requires DeadlockCycle(ks, c)
  {
    forall i :: 0 <= i < |c| ==> !ks[c[i]].tags.pub.Lt(ks[c[Next(c, i)]].tags.pub)
  }

  /** The public tags round the cycle, the first once more at the end: none is below the next. */
  lemma CycleTags(ks: Kernels, c: seq<nat>) returns (tags: seq<Tag>)
    requires DeadlockCycle(ks, c) && Quiescent(ks, c)
    ensures |tags| == |c| + 1 && tags[|c|] == tags[0]
    ensures forall i :: 0 <= i < |c| ==> tags[i] == ks[c[i]].tags.pub
    ensures forall k :: 0 <= k < |tags| - 1 ==> !tags[k].Lt(tags[k + 1])
  {
    hide Locked, Tag.Lt;
    var pubs := seq(|c|, j requires 0 <= j < |c| => ks[c[j]].tags.pub);
    tags := pubs + [pubs[0]];
    forall k | 0 <= k < |tags| - 1
      ensures !tags[k].Lt(tags[k + 1])
    {
      assert !ks[c[k]].tags.pub.Lt(ks[c[Next(c, k)]].tags.pub);
    }
  }

  lemma QuietTagsAgree(ks: Kernels, c: seq<nat>, i: nat)
    requires DeadlockCycle(ks, c) && Quiescent(ks, c) && i < |c|
    ensures ks[c[i]].tags.pub == ks[c[0]].tags.pub
  {
    hide Locked, Tag.Lt, Quiescent;
    var tags := CycleTags(ks, c);
    NoRiseMeansEqual(tags, 0, i);
    NoRiseMeansEqual(tags, i, |c|);
    TagOrder(tags[0], tags[i], tags[0]);
  }

  lemma {:induction false} ChainStaysOnCycle(ks: Kernels, c: seq<nat>, i: nat, n: nat, p: U128, k: nat)
    requires DeadlockCycle(ks, c) && i < |c| && Chain(ks, c[i], n, p, k)
    ensures n in c
    decreases k
  {
    if ks[c[i]].waiting.value != n {
      ChainStaysOnCycle(ks, c, Next(c, i), n, p, k - 1);
    }
  }

  /** The label a cycle kernel carries is owned, at that height or above, by a kernel of the cycle. */
  lemma {:induction false} AnchorOnCycle(ks: Kernels, c: seq<nat>, i: nat, l: U128, k: nat) returns (o: nat)
    requires DeadlockCycle(ks, c) && i < |c| && Anchored(ks, c[i], l, k)
    ensures o < |c| && l.Le(ks[c[o]].tags.priv.lbl)
    decreases k
  {
    if l.Le(ks[c[i]].tags.priv.lbl) {
      o := i;
    } else {
      o := AnchorOnCycle(ks, c, Next(c, i), l, k - 1);
    }
  }

  /** The kernel whose priority the agreed tag carries lies on the cycle. */
  lemma CarrierOnCycle(t: Topology, s: State, c: seq<nat>) returns (z: nat)
    requires Inv(t, s) && DeadlockCycle(s.kernels, c) && Quiescent(s.kernels, c)
    ensures z < |c| && s.kernels[c[z]].tags.pub.priority == s.kernels[c[z]].tags.priv.priority
  {
    var ks := s.kernels;
    var tag := ks[c[0]].tags.pub;
    forall i | 0 <= i < |c| ensures ks[c[i]].tags.pub == tag && OwnInv(t, ks, c[i]) { QuietTagsAgree(ks, c, i); }
    var k: nat :| Anchored(ks, c[0], tag.lbl, k);
    var o := AnchorOnCycle(ks, c, 0, tag.lbl, k);
    assert CarriesLabel(ks, c[0], c[o]);
    var w := tag.priority.low;
    assert PairInv(ks, c[0], c[o]) && PairInv(ks, c[0], w) && OwnInv(t, ks, w);
    if w == c[o] {
      z := o;
    } else if w == c[0] {
      z := 0;
    } else {
      assert StuckBehind(ks, w, tag.lbl, c[o]);
      var kw: nat :| Chain(ks, w, c[o], ZERO, kw);
      assert Engaged(ks, w) && CarriesPriority(ks, c[0], w);
      var kz: nat :| Chain(ks, c[0], w, tag.priority, kz);
      ChainStaysOnCycle(ks, c, 0, w, tag.priority, kz);
      z :| 0 <= z < |c| && c[z] == w;
    }
  }

  /** When no Transmit on a cycle changes a tag, all its public tags agree, the kernel with the least private
      priority reports at its next poll, and no other kernel of the cycle does. */
  lemma QuietCycleReports(t: Topology, s: State, c: seq<nat>) returns (z: nat)
    requires Inv(t, s) && DeadlockCycle(s.kernels, c) && Quiescent(s.kernels, c)
    ensures z < |c| && VerdictOf(t, s, c[z]) != Silent
    ensures forall i :: 0 <= i < |c| ==> s.kernels[c[i]].tags.pub == s.kernels[c[z]].tags.pub
    ensures forall i :: 0 <= i < |c| ==> s.kernels[c[z]].tags.priv.priority.Le(s.kernels[c[i]].tags.priv.priority)
    ensures forall i :: 0 <= i < |c| && VerdictOf(t, s, c[i]) != Silent ==> c[i] == c[z]
  {
    z := CarrierOnCycle(t, s, c);
    forall i | 0 <= i < |c|
      ensures s.kernels[c[i]].tags.pub == s.kernels[c[z]].tags.pub
      ensures s.kernels[c[z]].tags.priv.priority.Le(s.kernels[c[i]].tags.priv.priority)
      ensures VerdictOf(t, s, c[i]) != Silent <==>
              s.kernels[c[i]].tags.priv.priority == s.kernels[c[z]].tags.priv.priority
      ensures s.kernels[c[i]].tags.priv.priority.low == c[i]
    {
      QuietTagsAgree(s.kernels, c, i);
      QuietTagsAgree(s.kernels, c, z);
      assert OwnInv(t, s.kernels, c[i]);
      QuietTagsAgree(s.kernels, c, Next(c, i));
      PollOnCycle(t, s, c, i);
    }
  }

  /** Polling a kernel of a cycle runs the call-back against the next kernel's public tag. */
  lemma PollOnCycle(t: Topology, s: State, c: seq<nat>, i: nat)
    requires Inv(t, s) && DeadlockCycle(s.kernels, c) && i < |c|
    ensures VerdictOf(t, s, c[i]) != Silent <==> Detects(s.kernels[c[i]].tags, s.kernels[c[Next(c, i)]].tags.pub)
  {
    assert OwnInv(t, s.kernels, c[i]) && FlagInv(t, s, c[i]);
    GateIsOpen(t, s, c[i]);
  }

  // ---- liveness: only finitely many rises, so polling the cycle long enough yields a report ----

  /** Labels and priorities that can still appear on a cycle. */
  datatype Bounds = Bounds(labels: set<U128>, priorities: set<U128>)

  ghost predicate Covers(ks: Kernels, c: seq<nat>, u: Bounds)
    requires forall i :: 0 <= i < |c| ==> c[i] in ks
  {
    forall i :: 0 <= i < |c| ==>
      && ks[c[i]].tags.pub.lbl in u.labels
      && ks[c[i]].tags.pub.priority in u.priorities && ks[c[i]].tags.priv.priority in u.priorities
  }

  /** The tags within the bounds that are still above `tag`. */
  ghost function Above(u: Bounds, tag: Tag): (above: set<Tag>)
    ensures forall x :: x in above <==> x.lbl in u.labels && x.priority in u.priorities && tag.Lt(x)
  {
    var above := set l, p | l in u.labels && p in u.priorities && tag.Lt(Tag(l, p)) :: Tag(l, p);
    assert forall x :: x in above <==> Tag(x.lbl, x.priority) in above;
    above
  }

  ghost function Sum(a: seq<nat>): nat {
    if a == [] then 0 else a[0] + Sum(a[1..])
  }

  lemma {:induction false} SumFalls(a: seq<nat>, b: seq<nat>)
    requires |a| == |b| && forall i :: 0 <= i < |a| ==> b[i] <= a[i]
    ensures Sum(b) <= Sum(a)
    ensures (exists i :: 0 <= i < |a| && b[i] < a[i]) ==> Sum(b) < Sum(a)
  {
    if a != [] {
      SumFalls(a[1..], b[1..]);
      if i :| 0 <= i < |a| && b[i] < a[i] {
        assert i > 0 ==> b[1..][i - 1] < a[1..][i - 1];
      }
    }
  }

  ghost function AboveCounts(ks: Kernels, c: seq<nat>, u: Bounds): (counts: seq<nat>)
    requires forall i :: 0 <= i < |c| ==> c[i] in ks
    ensures |counts| == |c| && forall i :: 0 <= i < |c| ==> counts[i] == |Above(u, ks[c[i]].tags.pub)|
  {
    seq(|c|, i requires 0 <= i < |c| => |Above(u, ks[c[i]].tags.pub)|)
  }

  /** How many rises are left on the cycle. */
  ghost function Rises(ks: Kernels, c: seq<nat>, u: Bounds): nat
    requires forall i :: 0 <= i < |c| ==> c[i] in ks
  {
    Sum(AboveCounts(ks, c, u))
  }

  lemma AboveShrinks(u: Bounds, a: Tag, b: Tag)
    requires a.Lt(b) && b.lbl in u.labels && b.priority in u.priorities
    ensures |Above(u, b)| < |Above(u, a)|
  {
    forall x | x in Above(u, b)
      ensures x in Above(u, a)
    {
      TagOrder(a, b, x);
    }
    TagOrder(b, b, b);
    assert b in Above(u, a) && b !in Above(u, b);
    SubsetSize(Above(u, b), Above(u, a));
  }

  /** What one step does to the tags of the cycle. */
  ghost predicate CycleStep(ks: Kernels, ks': Kernels, c: seq<nat>, e: Event)
    requires DeadlockCycle(ks, c) && DeadlockCycle(ks', c)
  {
    forall i :: 0 <= i < |c| ==>
      && ks'[c[i]].tags.priv == ks[c[i]].tags.priv
      && ks'[c[i]].tags.pub == if e == Poll(c[i]) then TransmitTag(ks[c[i]].tags, ks[c[Next(c, i)]].tags.pub)
                               else ks[c[i]].tags.pub
  }

  lemma CoversKept(ks: Kernels, ks': Kernels, c: seq<nat>, e: Event, u: Bounds)
    requires DeadlockCycle(ks, c) && DeadlockCycle(ks', c) && CycleStep(ks, ks', c, e) && Covers(ks, c, u)
    ensures Covers(ks', c, u)
  {
  }

  /** Whether the poll of the kernel at position i raises its tag. */
  predicate RaisesAt(ks: Kernels, c: seq<nat>, e: Event, i: nat)
    requires i < |c| && forall j :: 0 <= j < |c| ==> c[j] in ks
  {
    e == Poll(c[i]) && ks[c[i]].tags.pub.Lt(ks[c[Next(c, i)]].tags.pub)
  }

  predicate Changes(ks: Kernels, c: seq<nat>, e: Event)
    requires forall i :: 0 <= i < |c| ==> c[i] in ks
  {
    exists i :: 0 <= i < |c| && RaisesAt(ks, c, e, i)
  }

  lemma RiseAt(ks: Kernels, ks': Kernels, c: seq<nat>, e: Event, u: Bounds, i: nat)
    requires DeadlockCycle(ks, c) && DeadlockCycle(ks', c) && CycleStep(ks, ks', c, e)
    requires Covers(ks', c, u) && i < |c|
    ensures !RaisesAt(ks, c, e, i) ==> ks'[c[i]].tags.pub == ks[c[i]].tags.pub
    ensures RaisesAt(ks, c, e, i) ==> |Above(u, ks'[c[i]].tags.pub)| < |Above(u, ks[c[i]].tags.pub)|
  {
    TransmitRaises(ks[c[i]].tags, ks[c[Next(c, i)]].tags.pub);
    if RaisesAt(ks, c, e, i) {
      AboveShrinks(u, ks[c[i]].tags.pub, ks'[c[i]].tags.pub);
    }
  }

  /** A step never adds rises, and takes one away when it changes a tag of the cycle. */
  lemma RisesFall(ks: Kernels, ks': Kernels, c: seq<nat>, e: Event, u: Bounds)
    requires DeadlockCycle(ks, c) && DeadlockCycle(ks', c) && CycleStep(ks, ks', c, e) && Covers(ks', c, u)
    ensures Rises(ks', c, u) <= Rises(ks, c, u)
    ensures Changes(ks, c, e) ==> Rises(ks', c, u) < Rises(ks, c, u)
  {
    var a, b := AboveCounts(ks, c, u), AboveCounts(ks', c, u);
    forall i | 0 <= i < |c|
      ensures b[i] <= a[i]
      ensures RaisesAt(ks, c, e, i) ==> b[i] < a[i]
    {
      RiseAt(ks, ks', c, e, u, i);
    }
    SumFalls(a, b);
  }

  /** Number of polls in the run that change a public tag of the cycle. */
  function ChangeCount(t: Topology, s: State, es: seq<Event>, c: seq<nat>): nat
    requires t.Valid() && s.kernels.Keys == t.ins.Keys && Run(t, s, es)
    requires forall i :: 0 <= i < |c| ==> c[i] in s.kernels
    decreases |es|
  {
    if es == [] then 0
    else (if Changes(s.kernels, c, es[0]) then 1 else 0) + ChangeCount(t, Apply(t, s, es[0]), es[1..], c)
  }

  /** However long a run is and whatever it interleaves, the tags of a cycle change only boundedly often. */
  lemma {:induction false} FinitelyManyRises(t: Topology, s: State, es: seq<Event>, c: seq<nat>, u: Bounds)
    requires Inv(t, s) && Run(t, s, es) && DeadlockCycle(s.kernels, c) && Covers(s.kernels, c, u)
    ensures Inv(t, After(t, s, es)) && DeadlockCycle(After(t, s, es).kernels, c)
    ensures Covers(After(t, s, es).kernels, c, u)
    ensures ChangeCount(t, s, es, c) + Rises(After(t, s, es).kernels, c, u) <= Rises(s.kernels, c, u)
    decreases |es|
  {
    if es != [] {
      var s' := Apply(t, s, es[0]);
      StepKeepsInv(t, s, es[0]);
      CycleStays(t, s, es[0], c);
      CoversKept(s.kernels, s'.kernels, c, es[0], u);
      RisesFall(s.kernels, s'.kernels, c, es[0], u);
      FinitelyManyRises(t, s', es[1..], c, u);
    }
  }

  predicate ReportsNow(t: Topology, s: State, e: Event, c: seq<nat>)
    requires t.Valid() && s.kernels.Keys == t.ins.Keys && Enabled(t, s, e)
  {
    e.Poll? && e.kernel in c && VerdictOf(t, s, e.kernel) != Silent
  }

  /** Some poll of the run reports a deadlock, at a kernel of the cycle. */
  predicate Reports(t: Topology, s: State, es: seq<Event>, c: seq<nat>)
    requires t.Valid() && s.kernels.Keys == t.ins.Keys && Run(t, s, es)
    decreases |es|
  {
    es != [] && (ReportsNow(t, s, es[0], c) || Reports(t, Apply(t, s, es[0]), es[1..], c))
  }

  predicate PollsAll(es: seq<Event>, c: seq<nat>) {
    forall i :: 0 <= i < |c| ==> Poll(c[i]) in es
  }

  /** A step that changes no tag of the cycle leaves every comparison and verdict on it as it was. */
  lemma QuietStep(t: Topology, s: State, e: Event, c: seq<nat>, i: nat)
    requires Inv(t, s) && Enabled(t, s, e) && DeadlockCycle(s.kernels, c) && !Changes(s.kernels, c, e) && i < |c|
    ensures var s' := Apply(t, s, e);
            && Inv(t, s') && DeadlockCycle(s'.kernels, c)
            && s'.kernels[c[i]].tags.pub == s.kernels[c[i]].tags.pub
            && (VerdictOf(t, s', c[i]) != Silent <==> VerdictOf(t, s, c[i]) != Silent)
    ensures e == Poll(c[i]) ==> !s.kernels[c[i]].tags.pub.Lt(s.kernels[c[Next(c, i)]].tags.pub)
  {
    StepKeepsInv(t, s, e);
    CycleStays(t, s, e, c);
    var j := Next(c, i);
    TransmitRaises(s.kernels[c[i]].tags, s.kernels[c[j]].tags.pub);
    TransmitRaises(s.kernels[c[j]].tags, s.kernels[c[Next(c, j)]].tags.pub);
    assert !RaisesAt(s.kernels, c, e, i) && !RaisesAt(s.kernels, c, e, j);
    PollOnCycle(t, s, c, i);
    PollOnCycle(t, Apply(t, s, e), c, i);
  }

  ghost predicate Silenced(t: Topology, s: State, c: seq<nat>, polled: set<nat>)
    requires t.Valid() && s.kernels.Keys == t.ins.Keys && DeadlockCycle(s.kernels, c)
  {
    forall i :: 0 <= i < |c| && c[i] in polled ==>
      !s.kernels[c[i]].tags.pub.Lt(s.kernels[c[Next(c, i)]].tags.pub) && VerdictOf(t, s, c[i]) == Silent
  }

  lemma SilencedGrows(t: Topology, s: State, e: Event, c: seq<nat>, polled: set<nat>)
    requires Inv(t, s) && Enabled(t, s, e) && DeadlockCycle(s.kernels, c) && !Changes(s.kernels, c, e)
    requires Silenced(t, s, c, polled) && !ReportsNow(t, s, e, c)
    ensures Inv(t, Apply(t, s, e)) && DeadlockCycle(Apply(t, s, e).kernels, c)
    ensures Silenced(t, Apply(t, s, e), c, if e.Poll? then polled + {e.kernel} else polled)
  {
    StepKeepsInv(t, s, e);
    CycleStays(t, s, e, c);
    forall i | 0 <= i < |c| && (c[i] in polled || e == Poll(c[i]))
      ensures !Apply(t, s, e).kernels[c[i]].tags.pub.Lt(Apply(t, s, e).kernels[c[Next(c, i)]].tags.pub)
      ensures VerdictOf(t, Apply(t, s, e), c[i]) == Silent
    {
      QuietStep(t, s, e, c, i);
      QuietStep(t, s, e, c, Next(c, i));
    }
  }

  /** A stretch of the run that polls the whole cycle without changing it contains the report. */
  lemma {:induction false} QuietSweepReports(t: Topology, s: State, es: seq<Event>, c: seq<nat>, polled: set<nat>)
    requires Inv(t, s) && Run(t, s, es) && DeadlockCycle(s.kernels, c) && ChangeCount(t, s, es, c) == 0
    requires forall i :: 0 <= i < |c| ==> Poll(c[i]) in es || c[i] in polled
    requires Silenced(t, s, c, polled)
    ensures Reports(t, s, es, c)
    decreases |es|
  {
    if es == [] {
      var z := QuietCycleReports(t, s, c);
      assert false;
    } else if !ReportsNow(t, s, es[0], c) {
      SilencedGrows(t, s, es[0], c, polled);
      var polled' := if es[0].Poll? then polled + {es[0].kernel} else polled;
      QuietSweepReports(t, Apply(t, s, es[0]), es[1..], c, polled');
    }
  }

  /** A run cut into stretches, each of which polls every kernel of the cycle at least once. */
  predicate FairSweeps(sweeps: seq<seq<Event>>, c: seq<nat>) {
    forall i :: 0 <= i < |sweeps| ==> PollsAll(sweeps[i], c)
  }

  function Flatten(sweeps: seq<seq<Event>>): seq<Event> {
    if sweeps == [] then [] else sweeps[0] + Flatten(sweeps[1..])
  }

  lemma {:induction false} RunSplit(t: Topology, s: State, a: seq<Event>, b: seq<Event>, c: seq<nat>)
    requires t.Valid() && s.kernels.Keys == t.ins.Keys && Run(t, s, a + b)
    ensures Run(t, s, a) && Run(t, After(t, s, a), b)
    ensures Reports(t, s, a, c) || Reports(t, After(t, s, a), b, c) ==> Reports(t, s, a + b, c)
    decreases |a|
  {
    if a == [] {
      assert a + b == b;
    } else {
      assert (a + b)[0] == a[0] && (a + b)[1..] == a[1..] + b;
      RunSplit(t, Apply(t, s, a[0]), a[1..], b, c);
    }
  }

  /** Detection is inevitable: with more fair sweeps than the cycle has rises left, some poll reports. */
  lemma {:induction false} DetectionIsInevitable(t: Topology, s: State, sweeps: seq<seq<Event>>, c: seq<nat>, u: Bounds)
    requires Inv(t, s) && DeadlockCycle(s.kernels, c) && Covers(s.kernels, c, u)
    requires Run(t, s, Flatten(sweeps)) && FairSweeps(sweeps, c)
    requires |sweeps| > Rises(s.kernels, c, u)
    ensures Reports(t, s, Flatten(sweeps), c)
    decreases |sweeps|
  {
    var first, rest := sweeps[0], sweeps[1..];
    RunSplit(t, s, first, Flatten(rest), c);
    if ChangeCount(t, s, first, c) == 0 {
      assert PollsAll(first, c);
      QuietSweepReports(t, s, first, c, {});
    } else {
      FinitelyManyRises(t, s, first, c, u);
      DetectionIsInevitable(t, After(t, s, first), rest, c, u);
    }
  }

  /** Bounds that hold when a cycle is first seen: its labels, and its public and private priorities. */
  lemma CycleHasBounds(ks: Kernels, c: seq<nat>) returns (u: Bounds)
    requires forall i :: 0 <= i < |c| ==> c[i] in ks
    ensures Covers(ks, c, u)
  {
    u := Bounds(set i | 0 <= i < |c| :: ks[c[i]].tags.pub.lbl,
                (set i | 0 <= i < |c| :: ks[c[i]].tags.pub.priority)
                    + (set i | 0 <= i < |c| :: ks[c[i]].tags.priv.priority));
  }

  // ---- every cycle of waits is reported ----

  /** Kernels that wait for each other in a ring, whether or not they have been polled since. */
  ghost predicate WaitCycle(ks: Kernels, c: seq<nat>) {
    && c != [] && (forall i :: 0 <= i < |c| ==> c[i] in ks)
    && (forall i :: 0 <= i < |c| ==> ks[c[i]].waiting == Some(c[Next(c, i)]))
  }

  ghost predicate LockedOnce(ks: Kernels, c: seq<nat>, polled: set<nat>)
    requires WaitCycle(ks, c)
  {
    forall i :: 0 <= i < |c| && c[i] in polled ==> Locked(ks, c[i])
  }

  /** Waits that form a ring last, and a poll locks the kernel it polls. */
  lemma WaitsLast(t: Topology, s: State, e: Event, c: seq<nat>, polled: set<nat>)
    requires Inv(t, s) && Enabled(t, s, e) && WaitCycle(s.kernels, c) && LockedOnce(s.kernels, c, polled)
    ensures WaitCycle(Apply(t, s, e).kernels, c)
    ensures LockedOnce(Apply(t, s, e).kernels, c, if e.Poll? then polled + {e.kernel} else polled)
  {
    forall i | 0 <= i < |c|
      ensures Apply(t, s, e).kernels[c[i]].waiting == s.kernels[c[i]].waiting
      ensures c[i] in polled || e == Poll(c[i]) ==> Locked(Apply(t, s, e).kernels, c[i])
    {
      WaitLasts(t, s, e, c[i], c[Next(c, i)]);
    }
  }

  lemma WaitLasts(t: Topology, s: State, e: Event, m: nat, r: nat)
    requires Inv(t, s) && Enabled(t, s, e) && m in s.kernels && r in s.kernels
    requires s.kernels[m].waiting == Some(r) && s.kernels[r].waiting.Some?
    ensures Apply(t, s, e).kernels[m].waiting == Some(r)
    ensures Locked(s.kernels, m) || e == Poll(m) ==> Locked(Apply(t, s, e).kernels, m)
  {
    assert OwnInv(t, s.kernels, m);
    if Locked(s.kernels, m) {
      KernelStays(t, s, e, m, r);
    }
  }

  /** Once each of its kernels has been polled, a ring of waits is a deadlock cycle. */
  lemma {:induction false} PollsLock(t: Topology, s: State, es: seq<Event>, c: seq<nat>, polled: set<nat>)
    requires Inv(t, s) && Run(t, s, es) && WaitCycle(s.kernels, c) && LockedOnce(s.kernels, c, polled)
    requires forall i :: 0 <= i < |c| ==> Poll(c[i]) in es || c[i] in polled
    ensures Inv(t, After(t, s, es)) && DeadlockCycle(After(t, s, es).kernels, c)
    decreases |es|
  {
    if es != [] {
      StepKeepsInv(t, s, es[0]);
      WaitsLast(t, s, es[0], c, polled);
      PollsLock(t, Apply(t, s, es[0]), es[1..], c, if es[0].Poll? then polled + {es[0].kernel} else polled);
    }
  }

  /** Every ring of waits is reported: after one round of polls there is a number of further rounds that no
      run can make without a report at a kernel of the ring. */
  lemma EveryWaitCycleIsReported(t: Topology, s: State, first: seq<Event>, c: seq<nat>) returns (n: nat)
    requires Inv(t, s) && WaitCycle(s.kernels, c) && Run(t, s, first) && PollsAll(first, c)
    ensures forall sweeps {:trigger FairSweeps(sweeps, c)} ::
              |sweeps| > n && FairSweeps(sweeps, c) && Run(t, After(t, s, first), Flatten(sweeps)) ==>
                Reports(t, After(t, s, first), Flatten(sweeps), c)
  {
    PollsLock(t, s, first, c, {});
    var s1 := After(t, s, first);
    var u := CycleHasBounds(s1.kernels, c);
    n := Rises(s1.kernels, c, u);
    forall sweeps | |sweeps| > n && FairSweeps(sweeps, c) && Run(t, s1, Flatten(sweeps))
      ensures Reports(t, s1, Flatten(sweeps), c)
    {
      DetectionIsInevitable(t, s1, sweeps, c, u);
    }
  }
}
