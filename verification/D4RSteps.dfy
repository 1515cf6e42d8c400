/** Each step of the protocol keeps the invariant. */
module D4RSteps {
  import opened Wrappers
  import opened D4RTag
  import opened D4RProtocol
  import opened D4RInvariant

  // ---- firing, finishing, starting to wait: tags do not change ----

  ghost predicate SameTags(ks: Kernels, ks': Kernels) {
    ks.Keys == ks'.Keys && forall m :: m in ks ==> ks'[m].tags == ks[m].tags
  }

  lemma QuietOwn(t: Topology, ks: Kernels, ks': Kernels, m: nat)
    requires t.Valid() && t.ins.Keys == ks.Keys && m in ks && OwnInv(t, ks, m)
    requires SameTags(ks, ks') && (forall x :: x in ks && Engaged(ks', x) ==> Engaged(ks, x))
    requires ks'[m].waiting.Some? ==>
               && ks'[m].waiting.value in ks && !ks'[m].done
               && MayWait(t, m, ks'[m].waiting.value, ks'[m].forItems)
    requires ks[m].niter <= ks'[m].niter
    ensures OwnInv(t, ks', m)
  {
    var k: nat :| Anchored(ks, m, ks[m].tags.pub.lbl, k);
    assert Advances(ks, ks');
    AnchoredKept(ks, ks', m, ks[m].tags.pub.lbl, k);
  }

  lemma QuietPair(ks: Kernels, ks': Kernels, m: nat, z: nat)
    requires m in ks && z in ks && PairInv(ks, m, z) && SameTags(ks, ks')
    requires Engaged(ks', z) ==> Engaged(ks, z)
    requires Engaged(ks', z) ==> forall x, p :: Reaches(ks, x, z, p) ==> Reaches(ks', x, z, p)
    ensures PairInv(ks', m, z)
  {
  }

  /** `b`, which is not blocked, moves on and may release kernels waiting for it. */
  ghost predicate MovesOn(ks: Kernels, ks': Kernels, b: nat) {
    && b in ks && ks[b].waiting.None? && SameTags(ks, ks')
    && ks'[b].waiting.None? && ks[b].niter <= ks'[b].niter
    && (ks'[b].niter > ks[b].niter || ks'[b].done)
    && (forall x :: x in ks && x != b ==>
        ks'[x] == ks[x] || (ks[x].waiting == Some(b) && ks'[x] == ks[x].(waiting := None)))
  }

  lemma MovesOnKeepsPair(t: Topology, ks: Kernels, ks': Kernels, b: nat, m: nat, z: nat)
    requires t.Valid() && t.ins.Keys == ks.Keys && MovesOn(ks, ks', b) && OwnInv(t, ks, b)
    requires m in ks && z in ks && PairInv(ks, m, z)
    ensures PairInv(ks', m, z)
  {
    if Engaged(ks', z) {
      forall x, p | Reaches(ks, x, z, p)
        ensures Reaches(ks', x, z, p)
      {
        var k: nat :| Chain(ks, x, z, p, k);
        ChainKeptByFiring(ks, ks', b, x, z, p, k);
      }
    }
    QuietPair(ks, ks', m, z);
  }

  lemma MovesOnKeepsOwn(t: Topology, ks: Kernels, ks': Kernels, b: nat, m: nat)
    requires t.Valid() && t.ins.Keys == ks.Keys && MovesOn(ks, ks', b) && OwnInv(t, ks, b)
    requires m in ks && OwnInv(t, ks, m)
    ensures OwnInv(t, ks', m)
  {
    QuietOwn(t, ks, ks', m);
  }

  lemma MovingOn(t: Topology, s: State, e: Event)
    requires t.Valid() && t.ins.Keys == s.kernels.Keys && Enabled(t, s, e) && (e.Fire? || e.Finish?)
    ensures MovesOn(s.kernels, Apply(t, s, e).kernels, e.kernel)
  {
  }

  lemma SameFlags(t: Topology, s: State, s': State)
    requires Inv(t, s) && SameTags(s.kernels, s'.kernels)
    requires s'.readChanged == s.readChanged && s'.writeChanged == s.writeChanged
    ensures forall m {:trigger FlagInv(t, s', m)} :: m in s'.kernels ==> FlagInv(t, s', m)
  {
    forall m | m in s'.kernels
      ensures FlagInv(t, s', m)
    {
      assert FlagInv(t, s, m);
    }
  }

  lemma FiringKeepsInv(t: Topology, s: State, s': State, b: nat)
    requires Inv(t, s) && MovesOn(s.kernels, s'.kernels, b)
    requires s'.readChanged == s.readChanged && s'.writeChanged == s.writeChanged
    ensures Inv(t, s')
  {
    assert OwnInv(t, s.kernels, b);
    forall m | m in s.kernels
      ensures OwnInv(t, s'.kernels, m)
    {
      assert OwnInv(t, s.kernels, m);
      MovesOnKeepsOwn(t, s.kernels, s'.kernels, b, m);
    }
    forall m, z | m in s.kernels && z in s.kernels
      ensures PairInv(s'.kernels, m, z)
    {
      assert PairInv(s.kernels, m, z);
      MovesOnKeepsPair(t, s.kernels, s'.kernels, b, m, z);
    }
    SameFlags(t, s, s');
  }

  /** `m`, which was not blocked, becomes blocked on `r`. */
  ghost predicate StopsFor(ks: Kernels, ks': Kernels, m: nat, r: nat, items: bool) {
    && m in ks && r in ks && ks[m].waiting.None? && !ks[m].done
    && ks' == ks[m := ks[m].(waiting := Some(r), forItems := items)]
  }

  lemma StopsForKeepsPair(ks: Kernels, ks': Kernels, b: nat, r: nat, items: bool, m: nat, z: nat)
    requires StopsFor(ks, ks', b, r, items) && m in ks && z in ks && PairInv(ks, m, z)
    ensures PairInv(ks', m, z)
  {
    assert SameLocks(ks, ks');
    ReachesKept(ks, ks', z);
    QuietPair(ks, ks', m, z);
  }

  lemma StopsForKeepsOwn(t: Topology, ks: Kernels, ks': Kernels, b: nat, r: nat, items: bool, m: nat)
    requires t.Valid() && t.ins.Keys == ks.Keys && m in ks && OwnInv(t, ks, m)
    requires StopsFor(ks, ks', b, r, items) && MayWait(t, b, r, items)
    ensures OwnInv(t, ks', m)
  {
    QuietOwn(t, ks, ks', m);
  }

  lemma StartWaitKeepsInv(t: Topology, s: State, s': State, b: nat, r: nat, items: bool)
    requires Inv(t, s) && StopsFor(s.kernels, s'.kernels, b, r, items) && MayWait(t, b, r, items)
    requires s'.readChanged == s.readChanged && s'.writeChanged == s.writeChanged
    ensures Inv(t, s')
  {
    hide PairInv, OwnInv, FlagInv;
    forall m | m in s.kernels
      ensures OwnInv(t, s'.kernels, m)
    {
      StopsForKeepsOwn(t, s.kernels, s'.kernels, b, r, items, m);
    }
    forall m, z | m in s.kernels && z in s.kernels
      ensures PairInv(s'.kernels, m, z)
    {
      assert PairInv(s.kernels, m, z);
      StopsForKeepsPair(s.kernels, s'.kernels, b, r, items, m, z);
    }
    SameFlags(t, s, s');
  }

  lemma ReachesKept(ks: Kernels, ks': Kernels, z: nat)
    requires SameLocks(ks, ks')
    ensures forall x, p :: Reaches(ks, x, z, p) ==> Reaches(ks', x, z, p)
  {
    forall x, p | Reaches(ks, x, z, p)
      ensures Reaches(ks', x, z, p)
    {
      var k: nat :| Chain(ks, x, z, p, k);
      ChainKept(ks, ks', x, z, p, k);
    }
  }

  // ---- polls ----

  /** The gate of the Transmit rule is never closed, and passing it leaves both flags as they were. */
  lemma GateIsOpen(t: Topology, s: State, me: nat)
    requires t.Valid() && t.ins.Keys == s.kernels.Keys && me in s.kernels && PollEffect(t, s, me).Some?
    requires FlagInv(t, s, me) && OwnInv(t, s.kernels, me) && !PollEffect(t, s, me).value.1.raiseAll
    ensures Locked(s.kernels, me) && s.kernels[me].waiting.value in s.kernels
    ensures var (q, eff) := PollEffect(t, s, me).value;
            var rpub := s.kernels[s.kernels[me].waiting.value].tags.pub;
            && eff.readFlag == (q in s.readChanged) && eff.writeFlag == (q in s.writeChanged)
            && eff.tags == s.kernels[me].tags.(pub := TransmitTag(s.kernels[me].tags, rpub))
            && (eff.verdict != Silent <==> Detects(s.kernels[me].tags, rpub))
  {
  }

  /** The state after a Transmit by `me`: one public tag changes. */
  ghost predicate Transmits(ks: Kernels, ks': Kernels, me: nat) {
    && me in ks && Locked(ks, me) && ks[me].waiting.value in ks
    && ks' == ks[me := ks[me].(tags := ks[me].tags.(pub := TransmitTag(ks[me].tags,
        ks[ks[me].waiting.value].tags.pub)))]
  }

  /** A Block makes a tag above both public tags it looked at, with the kernel's own key in it. */
  lemma BlockRises(me: Tags, rpub: Tag, qsize: int)
    requires -1 <= qsize
    ensures me.pub.Lt(BlockTag(me, rpub, qsize)) && rpub.Lt(BlockTag(me, rpub, qsize))
    ensures me.pub.lbl.Lt(BlockTag(me, rpub, qsize).lbl) && rpub.lbl.Lt(BlockTag(me, rpub, qsize).lbl)
    ensures BlockTag(me, rpub, qsize).lbl.low == me.priv.lbl.low
  {
  }

  lemma TransmitRaises(me: Tags, rpub: Tag)
    ensures TransmitTag(me, rpub) == me.pub || me.pub.Lt(TransmitTag(me, rpub))
    ensures TransmitTag(me, rpub) != me.pub <==> me.pub.Lt(rpub)
    ensures me.pub.lbl.Le(TransmitTag(me, rpub).lbl)
  {
  }

  /** A kernel that takes over a tag is anchored through its blocker. */
  lemma TransmitOwnAtMe(t: Topology, ks: Kernels, ks': Kernels, me: nat)
    requires t.Valid() && t.ins.Keys == ks.Keys && AllOwn(t, ks) && Transmits(ks, ks', me)
    requires ks[me].tags.pub.Lt(ks[ks[me].waiting.value].tags.pub)
    ensures OwnInv(t, ks', me)
  {
    var r := ks[me].waiting.value;
    TransmitRaises(ks[me].tags, ks[r].tags.pub);
    assert Advances(ks, ks');
    assert OwnInv(t, ks, r) && OwnInv(t, ks, me);
    var k: nat :| Anchored(ks, r, ks[r].tags.pub.lbl, k);
    AnchoredKept(ks, ks', r, ks[r].tags.pub.lbl, k);
    assert Anchored(ks', me, ks'[me].tags.pub.lbl, k + 1);
  }

  lemma TransmitOwnElsewhere(t: Topology, ks: Kernels, ks': Kernels, me: nat, m: nat)
    requires t.Valid() && t.ins.Keys == ks.Keys && m in ks && OwnInv(t, ks, m) && Transmits(ks, ks', me)
    requires m == me ==> !ks[me].tags.pub.Lt(ks[ks[me].waiting.value].tags.pub)
    ensures OwnInv(t, ks', m)
  {
    TransmitRaises(ks[me].tags, ks[ks[me].waiting.value].tags.pub);
    assert Advances(ks, ks');
    assert ks'[m] == ks[m];
    var k: nat :| Anchored(ks, m, ks[m].tags.pub.lbl, k);
    AnchoredKept(ks, ks', m, ks[m].tags.pub.lbl, k);
  }

  lemma TransmitKeepsOwn(t: Topology, ks: Kernels, ks': Kernels, me: nat, m: nat)
    requires t.Valid() && t.ins.Keys == ks.Keys && m in ks
    requires AllOwn(t, ks)
    requires Transmits(ks, ks', me)
    ensures OwnInv(t, ks', m)
  {
    hide OwnInv, Anchored, Tag.Lt;
    if m == me && ks[me].tags.pub.Lt(ks[ks[me].waiting.value].tags.pub) {
      TransmitOwnAtMe(t, ks, ks', me);
    } else {
      TransmitOwnElsewhere(t, ks, ks', me, m);
    }
  }

  /** The new public tag of `me` inherits what is known about the tag of its blocker. */
  lemma TransmitPairAtMe(t: Topology, ks: Kernels, me: nat, z: nat)
    requires t.Valid() && t.ins.Keys == ks.Keys && me in ks && z in ks && Locked(ks, me)
    requires AllOwn(t, ks)
    requires AllPairs(ks)
    requires ks[me].waiting.value in ks && ks[me].tags.pub.Lt(ks[ks[me].waiting.value].tags.pub)
    ensures var r := ks[me].waiting.value;
            var tag := TransmitTag(ks[me].tags, ks[r].tags.pub);
            && (tag.lbl.low == z ==> tag.lbl.Le(ks[z].tags.priv.lbl))
            && (tag.priority.low == z && z != me ==> tag.lbl.Le(ks[z].tags.pub.lbl))
            && (tag.priority.low == z && ks[z].tags.priv.lbl.Le(tag.lbl) ==> tag.priority == ks[z].tags.priv.priority)
            && (me != z && Engaged(ks, z) && tag.lbl == ks[z].tags.priv.lbl ==> Reaches(ks, me, z, ZERO))
            && (me != z && Engaged(ks, z) && tag.priority.low == z && ks[z].tags.priv.lbl.Le(tag.lbl) ==>
                Reaches(ks, me, z, tag.priority))
            && (Engaged(ks, z) && tag.lbl == ks[z].tags.priv.lbl && tag.priority.low != z ==>
                StuckBehind(ks, tag.priority.low, tag.lbl, z))
  {
    var r := ks[me].waiting.value;
    var tag := TransmitTag(ks[me].tags, ks[r].tags.pub);
    assert OwnInv(t, ks, me) && OwnInv(t, ks, r);
    assert PairInv(ks, r, z) && PairInv(ks, r, me);
    if me != z && Engaged(ks, z) && tag.lbl == ks[z].tags.priv.lbl {
      ReachesStep(ks, me, z, ZERO);
    }
    if me != z && Engaged(ks, z) && tag.priority.low == z && ks[z].tags.priv.lbl.Le(tag.lbl) {
      ReachesStep(ks, me, z, tag.priority);
    }
  }

  lemma TransmitPairElsewhere(t: Topology, ks: Kernels, ks': Kernels, me: nat, m: nat, z: nat)
    requires t.Valid() && t.ins.Keys == ks.Keys && m in ks && z in ks && PairInv(ks, m, z) && Transmits(ks, ks', me)
    requires m == me ==> !ks[me].tags.pub.Lt(ks[ks[me].waiting.value].tags.pub)
    ensures PairInv(ks', m, z)
  {
    TransmitRaises(ks[me].tags, ks[ks[me].waiting.value].tags.pub);
    ReachesKept(ks, ks', z);
    assert ks'[m] == ks[m];
  }

  lemma TransmitKeepsPair(t: Topology, ks: Kernels, ks': Kernels, me: nat, m: nat, z: nat)
    requires t.Valid() && t.ins.Keys == ks.Keys && m in ks && z in ks
    requires AllOwn(t, ks)
    requires AllPairs(ks)
    requires Transmits(ks, ks', me)
    ensures PairInv(ks', m, z)
  {
    var r := ks[me].waiting.value;
    if m == me && ks[me].tags.pub.Lt(ks[r].tags.pub) {
      TransmitRaises(ks[me].tags, ks[r].tags.pub);
      ReachesKept(ks, ks', z);
      TransmitPairAtMe(t, ks, me, z);
    } else {
      assert PairInv(ks, m, z);
      TransmitPairElsewhere(t, ks, ks', me, m, z);
    }
  }

  /** The state after a Block by `me`, which was not locked: a label nobody has carries its name. */
  ghost predicate Blocks(t: Topology, ks: Kernels, ks': Kernels, me: nat)
    requires t.Valid() && t.ins.Keys == ks.Keys
  {
    && me in ks && !Locked(ks, me) && ks[me].waiting.Some? && ks[me].waiting.value in ks
    && Located(t, me, ks[me].waiting.value).Some?
    && var tag := BlockTag(ks[me].tags, ks[ks[me].waiting.value].tags.pub,
        Located(t, me, ks[me].waiting.value).value.1);
    ks' == ks[me := ks[me].(tags := Tags(tag, tag, ks[me].waiting, ks[me].niter))]
  }

  lemma BlockKeepsOwn(t: Topology, ks: Kernels, ks': Kernels, me: nat, m: nat)
    requires t.Valid() && t.ins.Keys == ks.Keys && m in ks
    requires AllOwn(t, ks)
    requires Blocks(t, ks, ks', me)
    ensures OwnInv(t, ks', m)
  {
    assert Advances(ks, ks');
    assert OwnInv(t, ks, m);
    if m == me {
      assert Anchored(ks', me, ks'[me].tags.pub.lbl, 0);
    } else {
      var k: nat :| Anchored(ks, m, ks[m].tags.pub.lbl, k);
      AnchoredKept(ks, ks', m, ks[m].tags.pub.lbl, k);
    }
  }

  lemma BlockKeepsPair(t: Topology, ks: Kernels, ks': Kernels, me: nat, m: nat, z: nat)
    requires t.Valid() && t.ins.Keys == ks.Keys && m in ks && z in ks
    requires AllOwn(t, ks)
    requires AllPairs(ks)
    requires Blocks(t, ks, ks', me)
    ensures PairInv(ks', m, z)
  {
    assert OwnInv(t, ks, me) && OwnInv(t, ks, z);
    assert PairInv(ks, m, z);
    ReachesKept(ks, ks', z);
  }

  lemma TransmitKeepsInv(t: Topology, s: State, s': State, me: nat)
    requires Inv(t, s) && Transmits(s.kernels, s'.kernels, me)
    requires s'.readChanged == s.readChanged && s'.writeChanged == s.writeChanged
    ensures Inv(t, s')
  {
    forall m | m in s.kernels ensures OwnInv(t, s'.kernels, m) {
      TransmitKeepsOwn(t, s.kernels, s'.kernels, me, m);
    }
    forall m, z | m in s.kernels && z in s.kernels ensures PairInv(s'.kernels, m, z) {
      TransmitKeepsPair(t, s.kernels, s'.kernels, me, m, z);
    }
    forall m | m in s.kernels ensures FlagInv(t, s', m) {
      assert FlagInv(t, s, m);
    }
  }

  lemma BlockKeepsInv(t: Topology, s: State, s': State, me: nat)
    requires Inv(t, s) && Blocks(t, s.kernels, s'.kernels, me)
    requires s'.readChanged == s.readChanged + Ids(t.ins[me])
    requires s'.writeChanged == s.writeChanged + Ids(t.outs[me])
    ensures Inv(t, s')
  {
    forall m | m in s.kernels ensures OwnInv(t, s'.kernels, m) {
      BlockKeepsOwn(t, s.kernels, s'.kernels, me, m);
    }
    forall m, z | m in s.kernels && z in s.kernels ensures PairInv(s'.kernels, m, z) {
      BlockKeepsPair(t, s.kernels, s'.kernels, me, m, z);
    }
    forall m | m in s.kernels ensures FlagInv(t, s', m) {
      assert FlagInv(t, s, m);
    }
  }

  lemma PollMoves(t: Topology, s: State, me: nat)
    requires t.Valid() && t.ins.Keys == s.kernels.Keys && me in s.kernels
    requires FlagInv(t, s, me) && OwnInv(t, s.kernels, me)
    ensures var s' := Apply(t, s, Poll(me));
            match PollEffect(t, s, me)
            case None => s' == s
            case Some((_, eff)) =>
              if eff.raiseAll then
                && Blocks(t, s.kernels, s'.kernels, me)
                && s'.readChanged == s.readChanged + Ids(t.ins[me])
                && s'.writeChanged == s.writeChanged + Ids(t.outs[me])
              else
                && Transmits(s.kernels, s'.kernels, me)
                && s'.readChanged == s.readChanged && s'.writeChanged == s.writeChanged
  {
    if PollEffect(t, s, me).Some? && !PollEffect(t, s, me).value.1.raiseAll {
      GateIsOpen(t, s, me);
    }
  }

  lemma PollKeepsInv(t: Topology, s: State, me: nat)
    requires Inv(t, s) && me in s.kernels
    ensures Inv(t, Apply(t, s, Poll(me)))
  {
    assert FlagInv(t, s, me) && OwnInv(t, s.kernels, me);
    var s' := Apply(t, s, Poll(me));
    PollMoves(t, s, me);
    match PollEffect(t, s, me)
    case None =>
    case Some((_, eff)) =>
      if eff.raiseAll {
        BlockKeepsInv(t, s, s', me);
      } else {
        TransmitKeepsInv(t, s, s', me);
      }
  }

  /** Every step keeps the invariant. */
  lemma StepKeepsInv(t: Topology, s: State, e: Event)
    requires Inv(t, s) && Enabled(t, s, e)
    ensures Inv(t, Apply(t, s, e))
  {
    match e {
      case Poll(m) => PollKeepsInv(t, s, m);
      case StartWait(m, r, items) => StartWaitKeepsInv(t, s, Apply(t, s, e), m, r, items);
      case _ =>
        MovingOn(t, s, e);
        FiringKeepsInv(t, s, Apply(t, s, e), e.kernel);
    }
  }

  lemma {:induction false} RunKeepsInv(t: Topology, s: State, es: seq<Event>)
    requires Inv(t, s) && Run(t, s, es)
    ensures Inv(t, After(t, s, es))
    decreases |es|
  {
    if es != [] {
      StepKeepsInv(t, s, es[0]);
      RunKeepsInv(t, Apply(t, s, es[0]), es[1..]);
    }
  }
}
