/** What every step of the detection protocol keeps. */
module D4RInvariant {
  import opened Wrappers
  import opened D4RTag
  import opened D4RProtocol

  type Kernels = map<nat, Kernel>

  /** `n` has run a Block and has neither fired nor finished since. */
  predicate Engaged(ks: Kernels, n: nat)
    requires n in ks
  {
    ks[n].tags.lastBlocker.Some? && ks[n].tags.lastNiter == ks[n].niter && !ks[n].done
  }

  /** `n` is engaged and is still blocked on the kernel it ran the Block for. */
  predicate Locked(ks: Kernels, n: nat)
    requires n in ks
  {
    Engaged(ks, n) && ks[n].waiting == ks[n].tags.lastBlocker
  }

  /** A wait-for path of k + 1 edges from `m` to `n`: every kernel on it before `n` is locked and has a
      private priority no smaller than `p`. */
  predicate Chain(ks: Kernels, m: nat, n: nat, p: U128, k: nat)
    decreases k
  {
    && m in ks && Locked(ks, m) && p.Le(ks[m].tags.priv.priority)
    && (ks[m].waiting.value == n || (k > 0 && Chain(ks, ks[m].waiting.value, n, p, k - 1)))
  }

  ghost predicate Reaches(ks: Kernels, m: nat, n: nat, p: U128) {
    exists k: nat :: Chain(ks, m, n, p, k)
  }

  /** Following blockers from `m` through engaged kernels whose labels stay at or above `l`, one meets a
      kernel whose own label is at least `l`, or one that has moved on since its Block. */
  predicate Anchored(ks: Kernels, m: nat, l: U128, k: nat)
    decreases k
  {
    && m in ks && l.Le(ks[m].tags.pub.lbl)
    && (|| !Engaged(ks, m) || l.Le(ks[m].tags.priv.lbl)
        || (k > 0 && Anchored(ks, ks[m].tags.lastBlocker.value, l, k - 1)))
  }

  const ZERO := U128(0, 0)

  /** Facts about one kernel's own fields. */
  ghost predicate OwnInv(t: Topology, ks: Kernels, m: nat)
    requires t.Valid() && t.ins.Keys == ks.Keys && m in ks
  {
    var tags := ks[m].tags;
    && tags.priv.lbl.low == m && tags.priv.priority.low == m
    && tags.pub.lbl.low in ks && tags.pub.priority.low in ks
    && tags.lastNiter <= ks[m].niter
    && tags.priv.lbl.Le(tags.pub.lbl)
    && tags.pub.priority.Le(tags.priv.priority)
    && (ks[m].waiting.Some? ==>
         && ks[m].waiting.value in ks && !ks[m].done
         && MayWait(t, m, ks[m].waiting.value, ks[m].forItems))
    && (tags.lastBlocker.Some? ==>
         && tags.lastBlocker.value in ks
         && Located(t, m, tags.lastBlocker.value).Some?
         && tags.priv.priority.high == QueueWord(Located(t, m, tags.lastBlocker.value).value.1))
    && (exists k: nat :: Anchored(ks, m, tags.pub.lbl, k))
  }

  /** The flag that gates Transmit is up for every kernel that has run a Block. */
  predicate FlagInv(t: Topology, s: State, m: nat)
    requires t.Valid() && t.ins.Keys == s.kernels.Keys && m in s.kernels
  {
    var b := s.kernels[m].tags.lastBlocker;
    b.Some? && Located(t, m, b.value).Some? ==>
      var (q, qsize) := Located(t, m, b.value).value;
      if qsize == -1 then q in s.readChanged else q in s.writeChanged
  }

  /** What the public tag of `m` says about kernel `z`. */
  ghost predicate PairInv(ks: Kernels, m: nat, z: nat)
    requires m in ks && z in ks
  {
    var tag := ks[m].tags.pub;
    && (tag.lbl.low == z ==> tag.lbl.Le(ks[z].tags.priv.lbl))
    && (tag.priority.low == z ==> tag.lbl.Le(ks[z].tags.pub.lbl))
    && (CarriesPriority(ks, m, z) ==> tag.priority == ks[z].tags.priv.priority)
    && (m != z && CarriesLabel(ks, m, z) ==> Reaches(ks, m, z, ZERO))
    && (m != z && Engaged(ks, z) && CarriesPriority(ks, m, z) ==> Reaches(ks, m, z, tag.priority))
    && (CarriesLabel(ks, m, z) && tag.priority.low != z ==> StuckBehind(ks, tag.priority.low, tag.lbl, z))
  }

  /** The public label of `m` is the one `z` made at its latest Block, and `z` has not moved since. */
  predicate CarriesLabel(ks: Kernels, m: nat, z: nat)
    requires m in ks && z in ks
  {
    Engaged(ks, z) && ks[m].tags.pub.lbl == ks[z].tags.priv.lbl
  }

  /** The public priority of `m` is a priority of `z`, spread no earlier than the latest Block of `z`. */
  predicate CarriesPriority(ks: Kernels, m: nat, z: nat)
    requires m in ks && z in ks
  {
    ks[m].tags.pub.priority.low == z && ks[z].tags.priv.lbl.Le(ks[m].tags.pub.lbl)
  }

  ghost predicate StuckBehind(ks: Kernels, w: nat, l: U128, z: nat) {
    w in ks && Reaches(ks, w, z, ZERO) && ks[w].tags.priv.lbl.Le(l)
  }

  ghost predicate AllOwn(t: Topology, ks: Kernels)
    requires t.Valid() && t.ins.Keys == ks.Keys
  {
    forall m {:trigger OwnInv(t, ks, m)} :: m in ks ==> OwnInv(t, ks, m)
  }

  ghost predicate AllPairs(ks: Kernels) {
    forall m, z {:trigger PairInv(ks, m, z)} :: m in ks && z in ks ==> PairInv(ks, m, z)
  }

  ghost predicate Inv(t: Topology, s: State) {
    && t.Valid() && t.ins.Keys == s.kernels.Keys
    && AllOwn(t, s.kernels)
    && AllPairs(s.kernels)
    && (forall m {:trigger FlagInv(t, s, m)} :: m in s.kernels ==> FlagInv(t, s, m))
  }

  lemma InitInv(t: Topology, s: State)
    requires Init(t, s)
    ensures Inv(t, s)
  {
    forall m | m in s.kernels
      ensures OwnInv(t, s.kernels, m)
    {
      assert Anchored(s.kernels, m, s.kernels[m].tags.pub.lbl, 0);
    }
  }

  // ---- paths survive every step that leaves their kernels locked ----

  /** No locked kernel other than those waiting for `x` is touched between the two states. */
  ghost predicate SameLocks(ks: Kernels, ks': Kernels) {
    forall m :: m in ks && Locked(ks, m) ==>
      m in ks' && Locked(ks', m) && ks'[m].waiting == ks[m].waiting && ks'[m].tags.priv == ks[m].tags.priv
  }

  lemma {:induction false} ChainKept(ks: Kernels, ks': Kernels, m: nat, n: nat, p: U128, k: nat)
    requires SameLocks(ks, ks') && Chain(ks, m, n, p, k)
    ensures Chain(ks', m, n, p, k)
    decreases k
  {
    if ks[m].waiting.value != n {
      ChainKept(ks, ks', ks[m].waiting.value, n, p, k - 1);
    }
  }

  /** A firing of `b` keeps every path that does not end in `b`. */
  lemma {:induction false} ChainKeptByFiring(ks: Kernels, ks': Kernels, b: nat, m: nat, n: nat, p: U128, k: nat)
    requires b in ks && ks[b].waiting.None? && n != b
    requires forall x :: x in ks && x != b && ks[x].waiting != Some(b) ==> x in ks' && ks'[x] == ks[x]
    requires Chain(ks, m, n, p, k)
    ensures Chain(ks', m, n, p, k)
    decreases k
  {
    var next := ks[m].waiting.value;
    if next != n {
      assert Chain(ks, next, n, p, k - 1);
      ChainKeptByFiring(ks, ks', b, next, n, p, k - 1);
    }
  }

  lemma ReachesStep(ks: Kernels, m: nat, n: nat, p: U128)
    requires m in ks && Locked(ks, m) && p.Le(ks[m].tags.priv.priority)
    requires ks[m].waiting.value == n || Reaches(ks, ks[m].waiting.value, n, p)
    ensures Reaches(ks, m, n, p)
  {
    if ks[m].waiting.value == n {
      assert Chain(ks, m, n, p, 0);
    } else {
      var k: nat :| Chain(ks, ks[m].waiting.value, n, p, k);
      assert Chain(ks, m, n, p, k + 1);
    }
  }

  /** Labels only rise, and a kernel that is engaged afterwards either was engaged on the same blocker
      or owns a label above its old public one. */
  ghost predicate Advances(ks: Kernels, ks': Kernels) {
    && ks.Keys == ks'.Keys
    && forall m :: m in ks ==>
         && ks[m].tags.pub.lbl.Le(ks'[m].tags.pub.lbl)
         && (Engaged(ks', m) ==>
              || ks[m].tags.pub.lbl.Le(ks'[m].tags.priv.lbl)
              || (Engaged(ks, m) && ks'[m].tags.lastBlocker == ks[m].tags.lastBlocker
                  && ks'[m].tags.priv == ks[m].tags.priv))
  }

  lemma {:induction false} AnchoredKept(ks: Kernels, ks': Kernels, m: nat, l: U128, k: nat)
    requires Advances(ks, ks') && Anchored(ks, m, l, k)
    ensures Anchored(ks', m, l, k)
    decreases k
  {
    if Engaged(ks, m) && !l.Le(ks[m].tags.priv.lbl) {
      AnchoredKept(ks, ks', ks[m].tags.lastBlocker.value, l, k - 1);
    }
  }
}
