/** On which stream graphs a deadlock is always called what it is. */
module D4RVerdicts {
  import opened Wrappers
  import opened D4RTag
  import opened D4RProtocol
  import opened D4RInvariant
  import opened D4RSteps
  import opened D4RTheorems

  /** Both ends of a stream know it. */
  predicate Consistent(t: Topology)
    requires t.Valid()
  {
    forall m, r {:trigger WritesTo(t, m, r)} :: m in t.ins && r in t.ins ==> (WritesTo(t, m, r) <==> ReadsFrom(t, r, m))
  }

  function Begin(t: Topology): State {
    State(map n | n in t.ins :: Kernel(Tags(FreshTag(n), FreshTag(n), None, 0), 0, None, false, false), {}, {})
  }

  lemma BeginIsInit(t: Topology)
    requires t.Valid()
    ensures Init(t, Begin(t))
  {
  }

  /** Kernel n calls a deadlock artificial in which every kernel waits for items. */
  ghost predicate Misjudged(t: Topology, s: State, n: nat)
    requires t.Valid() && s.kernels.Keys == t.ins.Keys && n in s.kernels
  {
    VerdictOf(t, s, n) == ArtificialDeadlock
    && exists c {:trigger DeadlockCycle(s.kernels, c)} ::
         DeadlockCycle(s.kernels, c) && c[0] == n && AllWaitForItems(s.kernels, c)
  }

  /** This run ends in a deadlock that kernel n misjudges. */
  ghost predicate MisjudgedAfter(t: Topology, es: seq<Event>, n: nat)
    requires t.Valid()
  {
    Run(t, Begin(t), es) && n in t.ins && Misjudged(t, After(t, Begin(t), es), n)
  }

  // ---- graphs without streams in both directions ----

  /** Two cycles through the same kernel have the same kernels. */
  lemma {:induction false} SameCycle(ks: Kernels, c: seq<nat>, d: seq<nat>, i: nat) returns (j: nat)
    requires DeadlockCycle(ks, c) && DeadlockCycle(ks, d) && c[0] == d[0] && i < |d|
    ensures j < |c| && c[j] == d[i]
    decreases i
  {
    if i == 0 {
      j := 0;
    } else {
      var k := SameCycle(ks, c, d, i - 1);
      assert d[Next(d, i - 1)] == d[i];
      j := Next(c, k);
    }
  }

  lemma OneWayIsJudgedRight(t: Topology, es: seq<Event>, n: nat)
    requires t.Valid() && OneWay(t)
    ensures !MisjudgedAfter(t, es, n)
  {
    if MisjudgedAfter(t, es, n) {
      BeginIsInit(t);
      var s := After(t, Begin(t), es);
      var c :| DeadlockCycle(s.kernels, c) && c[0] == n && AllWaitForItems(s.kernels, c);
      var d := OneWayVerdictsAreRight(t, Begin(t), es, n);
      forall i | 0 <= i < |d|
        ensures s.kernels[d[i]].forItems
      {
        var j := SameCycle(s.kernels, c, d, i);
      }
      assert false;
    }
  }

  // ---- graphs with them ----

  function Ring(m: nat, r: nat): seq<nat> {
    if m == r then [m] else [m, r]
  }

  function Waits(m: nat, r: nat): seq<Event> {
    if m == r then [StartWait(m, m, true)] else [StartWait(m, r, true), StartWait(r, m, true)]
  }

  function Sweep(m: nat, r: nat): seq<Event> {
    [Poll(m), Poll(r)]
  }

  function SweepsOf(m: nat, r: nat, n: nat): seq<seq<Event>> {
    seq(n, _ => Sweep(m, r))
  }

  predicate OnlyPolls(es: seq<Event>, keys: set<nat>) {
    forall i :: 0 <= i < |es| ==> es[i].Poll? && es[i].kernel in keys
  }

  lemma {:induction false} PollsRun(t: Topology, s: State, es: seq<Event>)
    requires t.Valid() && s.kernels.Keys == t.ins.Keys && OnlyPolls(es, t.ins.Keys)
    ensures Run(t, s, es)
    decreases |es|
  {
    if es != [] {
      PollsRun(t, Apply(t, s, es[0]), es[1..]);
    }
  }

  lemma {:induction false} SweepsArePolls(m: nat, r: nat, n: nat, keys: set<nat>)
    requires m in keys && r in keys
    ensures OnlyPolls(Flatten(SweepsOf(m, r, n)), keys)
    decreases n
  {
    if n > 0 {
      SweepsArePolls(m, r, n - 1, keys);
      assert SweepsOf(m, r, n)[1..] == SweepsOf(m, r, n - 1);
    }
  }

  /** The state in which a report is made. */
  lemma {:induction false} ReportIsMade(t: Topology, s: State, es: seq<Event>, c: seq<nat>)
    returns (before: seq<Event>, n: nat)
    requires t.Valid() && s.kernels.Keys == t.ins.Keys && Run(t, s, es) && Reports(t, s, es, c)
    ensures before <= es && Run(t, s, before) && n in c && n in s.kernels
    ensures VerdictOf(t, After(t, s, before), n) != Silent
    decreases |es|
  {
    if ReportsNow(t, s, es[0], c) {
      before, n := [], es[0].kernel;
    } else {
      var rest;
      rest, n := ReportIsMade(t, Apply(t, s, es[0]), es[1..], c);
      before := [es[0]] + rest;
      assert before[1..] == rest;
    }
  }

  lemma {:induction false} RunConcat(t: Topology, s: State, a: seq<Event>, b: seq<Event>)
    requires t.Valid() && s.kernels.Keys == t.ins.Keys && Run(t, s, a) && Run(t, After(t, s, a), b)
    ensures Run(t, s, a + b) && After(t, s, a + b) == After(t, After(t, s, a), b)
    decreases |a|
  {
    hide Apply, Enabled;
    if a == [] {
      assert a + b == b;
    } else {
      RunConcat(t, Apply(t, s, a[0]), a[1..], b);
      assert (a + b)[1..] == a[1..] + b;
    }
  }

  /** Polls leave every wait as it is. */
  lemma {:induction false} PollsKeepWaits(t: Topology, s: State, es: seq<Event>, m: nat)
    requires t.Valid() && s.kernels.Keys == t.ins.Keys && OnlyPolls(es, t.ins.Keys) && Run(t, s, es) && m in s.kernels
    ensures After(t, s, es).kernels[m].waiting == s.kernels[m].waiting
    ensures After(t, s, es).kernels[m].forItems == s.kernels[m].forItems
    decreases |es|
  {
    if es != [] {
      PollsKeepWaits(t, Apply(t, s, es[0]), es[1..], m);
    }
  }

  /** Two kernels with streams both ways start to wait for each other's items. */
  lemma BothWait(t: Topology, m: nat, r: nat)
    requires t.Valid() && m in t.ins && r in t.ins && ReadsFrom(t, m, r) && ReadsFrom(t, r, m)
    ensures Run(t, Begin(t), Waits(m, r))
    ensures var s := After(t, Begin(t), Waits(m, r));
            && s.kernels[m].waiting == Some(r) && s.kernels[r].waiting == Some(m)
            && s.kernels[m].forItems && s.kernels[r].forItems
  {
    var s := Begin(t);
    var e := StartWait(m, r, true);
    if m == r {
      assert Waits(m, r)[1..] == [];
    } else {
      var s1 := Apply(t, s, e);
      var rest := [StartWait(r, m, true)];
      assert rest[1..] == [];
      assert After(t, s1, rest) == Apply(t, s1, rest[0]);
      assert Waits(m, r)[1..] == rest;
    }
  }

  /** Two waits on each other followed by enough polls end in a report by one of the two. */
  lemma PollsReport(t: Topology, s: State, m: nat, r: nat) returns (es: seq<Event>, n: nat)
    requires t.Valid() && s.kernels.Keys == t.ins.Keys && Inv(t, s) && m in s.kernels && r in s.kernels
    requires s.kernels[m].waiting == Some(r) && s.kernels[r].waiting == Some(m)
    ensures OnlyPolls(es, t.ins.Keys) && Run(t, s, es) && n in Ring(m, r) && VerdictOf(t, After(t, s, es), n) != Silent
  {
    hide Inv, Apply, Enabled, Run, After, Reports, VerdictOf, Flatten;
    var (c, first) := (Ring(m, r), Sweep(m, r));
    assert WaitCycle(s.kernels, c);
    assert first[0] == Poll(m) && first[1] == Poll(r);
    PollsRun(t, s, first);
    var k := EveryWaitCycleIsReported(t, s, first, c);
    var s1 := After(t, s, first);
    var sweeps := SweepsOf(m, r, k + 1);
    SweepsArePolls(m, r, k + 1, t.ins.Keys);
    PollsRun(t, s1, Flatten(sweeps));
    assert FairSweeps(sweeps, c);
    var before;
    before, n := ReportIsMade(t, s1, Flatten(sweeps), c);
    RunConcat(t, s, first, before);
    es := first + before;
  }

  /** The smallest true deadlock that is called artificial: two kernels with streams both ways wait for each
      other's items; enough polls later one of them reports. */
  lemma TwoWayIsMisjudged(t: Topology, m: nat, r: nat) returns (es: seq<Event>, n: nat)
    requires t.Valid() && Consistent(t) && m in t.ins && r in t.ins && ReadsFrom(t, m, r) && WritesTo(t, m, r)
    ensures MisjudgedAfter(t, es, n)
  {
    assert WritesTo(t, r, m) && ReadsFrom(t, r, m);
    BeginIsInit(t);
    InitInv(t, Begin(t));
    BothWait(t, m, r);
    RunKeepsInv(t, Begin(t), Waits(m, r));
    var s := After(t, Begin(t), Waits(m, r));
    var polls;
    polls, n := PollsReport(t, s, m, r);
    PollsKeepWaits(t, s, polls, m);
    PollsKeepWaits(t, s, polls, r);
    RunConcat(t, Begin(t), Waits(m, r), polls);
    es := Waits(m, r) + polls;
    RunKeepsInv(t, s, polls);
    ReportIsWrong(t, After(t, Begin(t), es), m, r, n);
  }

  lemma ReportIsWrong(t: Topology, s: State, m: nat, r: nat, n: nat)
    requires Inv(t, s) && m in s.kernels && r in s.kernels && n in Ring(m, r) && VerdictOf(t, s, n) != Silent
    requires s.kernels[m].waiting == Some(r) && s.kernels[r].waiting == Some(m) && s.kernels[m].forItems
    requires s.kernels[r].forItems
    requires WritesTo(t, m, r) && WritesTo(t, r, m)
    ensures Misjudged(t, s, n)
  {
    var c := VerdictIsRightIff(t, s, n);
    assert WritesTo(t, c[0], c[Next(c, 0)]);
    forall i | 0 <= i < |c|
      ensures c[i] == m || c[i] == r
    {
      OnRing(s.kernels, c, m, r, i);
    }
  }

  lemma {:induction false} OnRing(ks: Kernels, c: seq<nat>, m: nat, r: nat, i: nat)
    requires DeadlockCycle(ks, c) && m in ks && r in ks && ks[m].waiting == Some(r) && ks[r].waiting == Some(m)
    requires i < |c| && (c[0] == m || c[0] == r)
    ensures c[i] == m || c[i] == r
    decreases i
  {
    if i > 0 {
      OnRing(ks, c, m, r, i - 1);
      assert c[Next(c, i - 1)] == c[i];
    }
  }

  // ---- both together ----

  /** Every deadlock of every run is called what it is if and only if no kernel has a stream to a kernel that it
      also reads from. */
  lemma VerdictsAreRightIffOneWay(t: Topology)
    requires t.Valid() && Consistent(t)
    ensures OneWay(t) <==> forall es: seq<Event>, n: nat :: !MisjudgedAfter(t, es, n)
  {
    if OneWay(t) {
      forall es: seq<Event>, n: nat
        ensures !MisjudgedAfter(t, es, n)
      {
        OneWayIsJudgedRight(t, es, n);
      }
    } else {
      var m, r :| m in t.ins && r in t.ins && ReadsFrom(t, m, r) && WritesTo(t, m, r);
      var es, n := TwoWayIsMisjudged(t, m, r);
      assert MisjudgedAfter(t, es, n);
    }
  }

  /** Two kernels, each of which reads what the other writes. */
  const THERE := Stream(0, Some(0), Some(1), 16)
  const BACK := Stream(1, Some(1), Some(0), 16)
  const LOOP := Topology(map[0 := [BACK], 1 := [THERE]], map[0 := [THERE], 1 := [BACK]])

  lemma FeedbackLoopIsMisjudged() returns (es: seq<Event>, n: nat)
    ensures MisjudgedAfter(LOOP, es, n)
  {
    assert BACK in LOOP.ins[0] && THERE in LOOP.outs[0] && THERE in LOOP.ins[1] && BACK in LOOP.outs[1];
    assert ReadsFrom(LOOP, 0, 1) && WritesTo(LOOP, 0, 1) && ReadsFrom(LOOP, 1, 0) && WritesTo(LOOP, 1, 0);
    es, n := TwoWayIsMisjudged(LOOP, 0, 1);
  }
}
