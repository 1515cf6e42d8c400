/** What the scheduler gets done: idle kernels get tasks, and tasks work, help their blockers and leave nothing. */
module TbbProgress {
  import opened Common
  import opened Wrappers
  import opened TbbSched
  import opened TbbTheorems

  // ---- the dispatcher ----

  /** No task of the kernel is alive and nobody holds its lock. */
  predicate Idle(s: State, k: nat)
    requires k in s.kernels
  {
    s.kernels[k].running == 0 && s.kernels[k].lock == None
  }

  /** Only `t` is at work for the kernel, and it owns it. */
  predicate Serves(s: State, k: nat, t: nat) {
    && k in s.kernels && t in s.tasks
    && s.kernels[k].running == 1 && s.kernels[k].owner == Some(t) && LiveTasks(s, k) == {t}
  }

  lemma NoneLive(s: State, k: nat)
    requires Inv(s) && k in s.kernels && s.kernels[k].running == 0
    ensures LiveTasks(s, k) == {}
  {
    assert KernelInv(s, k);
  }

  lemma Runs2(s: State, e1: Event, e2: Event)
    requires Enabled(s, e1) && Enabled(Apply(s, e1), e2)
    ensures Run(s, [e1, e2]) && After(s, [e1, e2]) == Apply(Apply(s, e1), e2)
  {
    var s1 := Apply(s, e1);
    assert [e1, e2][1..] == [e2] && [e2][1..] == [];
    assert Run(s1, [e2]) && After(s1, [e2]) == Apply(s1, e2) by {
      assert Run(Apply(s1, e2), []);
      assert After(Apply(s1, e2), []) == Apply(s1, e2);
    }
  }

  lemma Runs3(s: State, e1: Event, e2: Event, e3: Event)
    requires Enabled(s, e1) && Enabled(Apply(s, e1), e2) && Enabled(Apply(Apply(s, e1), e2), e3)
    ensures Run(s, [e1, e2, e3]) && After(s, [e1, e2, e3]) == Apply(Apply(Apply(s, e1), e2), e3)
  {
    Runs2(Apply(s, e1), e2, e3);
    assert [e1, e2, e3][1..] == [e2, e3];
  }

  /** A kernel that is examined while it is to run and idle gets a task, which owns it. */
  lemma ExaminedGetsTask(es: seq<Event>, k: nat, t: nat)
    requires Run(START, es) && After(START, es).hand == Popped(k) && ToRun(After(START, es), k)
    requires Idle(After(START, es), k) && t !in After(START, es).tasks
    ensures var s := After(START, es);
            && Run(s, [Look, Lock, Spawn(t)])
            && var s' := After(s, [Look, Lock, Spawn(t)]);
               && s'.tasks == s.tasks[t := Task(k, Queued)] && Serves(s', k, t)
               && s'.kernels[k].lock == None && s'.hand == Returning(k)
  {
    StartInv();
    RunKeepsInv(START, es);
    var s := After(START, es);
    NoneLive(s, k);
    var s2 := Apply(Apply(s, Look), Lock);
    Runs3(s, Look, Lock, Spawn(t));
    var s' := Apply(s2, Spawn(t));
    assert LiveTasks(s', k) == LiveTasks(s, k) + {t};
  }

  /** A kernel that is examined and has ended is not put back into the queue, and nothing else happens. */
  lemma EndedIsDropped(es: seq<Event>, k: nat)
    requires Run(START, es) && After(START, es).hand == Popped(k) && !ToRun(After(START, es), k)
    ensures var s := After(START, es);
            && Run(s, [Look, PutBack]) && After(s, [Look, PutBack]) == s.(hand := Empty) && k !in s.runq
  {
    StartInv();
    RunKeepsInv(START, es);
    var s := After(START, es);
    assert QueueInv(s, k);
    hide Inv, KernelInv, TaskInv, LiveTasks;
    Runs2(s, Look, PutBack);
  }

  /** One that is examined while it has a task goes to the end of the queue. */
  lemma BusyIsPutBack(es: seq<Event>, k: nat)
    requires Run(START, es) && After(START, es).hand == Popped(k) && ToRun(After(START, es), k)
    requires After(START, es).kernels[k].running > 0
    ensures var s := After(START, es);
            Run(s, [Look, PutBack]) && After(s, [Look, PutBack]) == s.(hand := Empty, runq := s.runq + [k])
  {
    Runs2(After(START, es), Look, PutBack);
  }

  /** So does one whose lock is taken. */
  lemma LockedIsPutBack(es: seq<Event>, k: nat)
    requires Run(START, es) && After(START, es).hand == Popped(k) && ToRun(After(START, es), k)
    requires After(START, es).kernels[k].running == 0 && After(START, es).kernels[k].lock.Some?
    ensures var s := After(START, es);
            Run(s, [Look, Lock, PutBack]) && After(s, [Look, Lock, PutBack]) == s.(hand := Empty, runq := s.runq + [k])
  {
    Runs3(After(START, es), Look, Lock, PutBack);
  }

  /** The kernel is no longer to run, has a live task, or a worker holds its lock. */
  predicate Busy(s: State, k: nat) {
    !ToRun(s, k) || s.kernels[k].running > 0 || (s.kernels[k].lock.Some? && s.kernels[k].lock.value.Worker?)
  }

  /** It is so at some moment of a run. */
  predicate BusyDuring(s: State, es: seq<Event>, k: nat)
    requires Run(s, es)
    decreases |es|
  {
    Busy(s, k) || (es != [] && BusyDuring(Apply(s, es[0]), es[1..], k))
  }

  predicate Examining(h: Hand, k: nat) {
    h == Popped(k) || h == Trying(k) || h == Locked(k)
  }

  lemma ExaminedStep(s: State, e: Event, k: nat)
    requires Inv(s) && Enabled(s, e) && Examining(s.hand, k) && !Busy(s, k)
    ensures Examining(Apply(s, e).hand, k) || (Apply(s, e).hand == Returning(k) && Busy(Apply(s, e), k))
  {
    assert KernelInv(s, k);
    hide Inv, KernelInv, LiveTasks;
  }

  /** Whatever workers do meanwhile, the dispatcher puts a kernel back only if at some moment since it was popped
      the kernel had a task, was locked by a worker, or was no longer to run. */
  lemma {:induction false} PutBackMeansBusy(s: State, es: seq<Event>, k: nat)
    requires Inv(s) && Run(s, es) && Examining(s.hand, k) && After(s, es).hand == Returning(k)
    ensures BusyDuring(s, es, k)
    decreases |es|
  {
    hide Inv, Busy, Enabled, Apply;
    if !Busy(s, k) && es != [] {
      StepKeepsInv(s, es[0]);
      ExaminedStep(s, es[0], k);
      if Examining(Apply(s, es[0]).hand, k) {
        PutBackMeansBusy(Apply(s, es[0]), es[1..], k);
      } else {
        assert BusyDuring(Apply(s, es[0]), es[1..], k);
      }
    }
  }

  /** So whatever is queued comes to be busy within as many pops as the queue is long: `es` brings the kernel to
      the front of the queue, and `more` is what happens until the dispatcher has done with it. */
  lemma QueuedComesToBeBusy(es0: seq<Event>, es: seq<Event>, i: nat, more: seq<Event>)
    requires Run(START, es0) && i < |After(START, es0).runq|
    requires var s := After(START, es0); Run(s, es) && Pops(es) == i && Enabled(After(s, es), Pop)
    requires var s1 := After(After(START, es0), es); Run(Apply(s1, Pop), more)
    requires var (s, s1) := (After(START, es0), After(After(START, es0), es));
             After(Apply(s1, Pop), more).hand == Returning(s.runq[i])
    ensures var (s, s1) := (After(START, es0), After(After(START, es0), es));
            BusyDuring(Apply(s1, Pop), more, s.runq[i])
  {
    StartInv();
    RunKeepsInv(START, es0);
    var s := After(START, es0);
    RunKeepsInv(s, es);
    var s1 := After(s, es);
    StepKeepsInv(s1, Pop);
    ExaminedAgain(s, es, i);
    PutBackMeansBusy(Apply(s1, Pop), more, s.runq[i]);
  }

  // ---- tasks ----

  /** A queued task of an idle kernel that is to run enters the work function when it gets its turn. */
  lemma TaskWorks(s: State, t: nat)
    requires Inv(s) && TaskAt(s, t, Queued) && ToRun(s, s.tasks[t].kernel) && s.kernels[s.tasks[t].kernel].lock == None
    ensures Run(s, [TryLock(t), Check(t), Find(t)])
    ensures var s' := After(s, [TryLock(t), Check(t), Find(t)]);
            && s'.tasks == s.tasks[t := s.tasks[t].(at := Working)]
            && s'.kernels == s.kernels[s.tasks[t].kernel := s.kernels[s.tasks[t].kernel].(lock := Some(Worker(t)))]
  {
    assert TaskInv(s, t);
    Runs3(s, TryLock(t), Check(t), Find(t));
  }

  /** A queued task of a kernel that is removed before its turn comes ends without going into the work loop. */
  lemma RemovedEndsAtOnce(s: State, t: nat)
    requires Inv(s) && TaskAt(s, t, Queued) && s.kernels[s.tasks[t].kernel].lock == None
    ensures var k := s.tasks[t].kernel;
            && Run(s, [Remove(k), TryLock(t), Check(t)])
            && After(s, [Remove(k), TryLock(t), Check(t)]).tasks == s.tasks[t := Task(k, Ending)]
  {
    Runs3(s, Remove(s.tasks[t].kernel), TryLock(t), Check(t));
  }

  /** The work function is entered for kernels that are to run, and for no others. */
  lemma WorksOnlyIfToRun(s: State, t: nat)
    requires Inv(s) && Enabled(s, Find(t))
    ensures Apply(s, Find(t)).tasks[t].at == Working <==> ToRun(s, s.tasks[t].kernel)
    ensures Apply(s, Find(t)).tasks[t].at == Ending <==> !ToRun(s, s.tasks[t].kernel)
  {
    assert TaskInv(s, t);
  }

  /** A task whose work function reports an idle blocker starts a task for it and is queued again itself; both
      kernels are then free to be locked. */
  lemma BlockedHelps(s: State, t: nat, b: nat, again: bool, u: nat)
    requires Inv(s) && TaskAt(s, t, Working) && ToRun(s, s.tasks[t].kernel)
    requires ToRun(s, b) && Idle(s, b) && u !in s.tasks
    ensures Run(s, [WorkReturns(t, b), TryBlocker(t, again), RunBlocker(t, u)])
    ensures var (k, s') := (s.tasks[t].kernel, After(s, [WorkReturns(t, b), TryBlocker(t, again), RunBlocker(t, u)]));
            && s'.tasks == s.tasks[t := Task(k, Queued)][u := Task(b, Queued)]
            && Serves(s', b, u) && Serves(s', k, t)
            && s'.kernels[b].lock == None && s'.kernels[k].lock == None
  {
    hide Inv, KernelInv, TaskInv, LiveTasks, QueueInv, Run, After;
    var k := s.tasks[t].kernel;
    WorkerServes(s, t);
    NoneLive(s, b);
    LocksBlocker(s, t, b, again);
    var s2 := Apply(Apply(s, WorkReturns(t, b)), TryBlocker(t, again));
    SameLive(s, s2, t);
    assert LiveTasks(s2, b) == LiveTasks(s, b) && LiveTasks(s2, k) == LiveTasks(s, k);
    Runs3(s, WorkReturns(t, b), TryBlocker(t, again), RunBlocker(t, u));
    RunBlockerLive(s2, t, u, b);
    RunBlockerLive(s2, t, u, k);
  }

  lemma WorkerServes(s: State, t: nat)
    requires Inv(s) && TaskAt(s, t, Working)
    ensures var k := s.tasks[t].kernel;
            && k in s.kernels && s.kernels[k].lock == Some(Worker(t))
            && (ToRun(s, k) ==> Serves(s, k, t))
  {
    var k := s.tasks[t].kernel;
    assert TaskInv(s, t);
    AtMostOneLive(s, k, t, t);
    OnlyLive(s, k, t);
  }

  /** A task that is told of a blocker whose lock is free takes it. */
  lemma LocksBlocker(s: State, t: nat, b: nat, again: bool)
    requires TaskAt(s, t, Working) && b in s.kernels && !s.kernels[b].removed && s.kernels[b].lock == None
    ensures Enabled(s, WorkReturns(t, b)) && Enabled(Apply(s, WorkReturns(t, b)), TryBlocker(t, again))
    ensures Apply(Apply(s, WorkReturns(t, b)), TryBlocker(t, again))
            == SetLock(Move(s, t, Holding(b)), b, Some(Worker(t)))
  {
  }

  lemma OnlyLive(s: State, k: nat, t: nat)
    requires Inv(s) && k in s.kernels && t in LiveTasks(s, k)
    ensures LiveTasks(s, k) == {t}
  {
    forall u | u in LiveTasks(s, k)
      ensures u == t
    {
      AtMostOneLive(s, k, t, u);
    }
  }

  lemma QueuedRuns(s: State, u: nat)
    requires Inv(s) && TaskAt(s, u, Queued)
    ensures s.kernels[s.tasks[u].kernel].running == 1
  {
    AtMostOneLive(s, s.tasks[u].kernel, u, u);
  }

  /** If the blocker has a task that is still queued, that task is taken over and nothing else is started. */
  lemma BlockedSteals(s: State, t: nat, b: nat, again: bool, u: nat)
    requires Inv(s) && TaskAt(s, t, Working) && ToRun(s, b) && s.kernels[b].lock == None
    requires u in s.tasks && s.tasks[u] == Task(b, Queued)
    ensures Run(s, [WorkReturns(t, b), TryBlocker(t, again), StealBlocker(t)])
    ensures var (k, s') := (s.tasks[t].kernel, After(s, [WorkReturns(t, b), TryBlocker(t, again), StealBlocker(t)]));
            && s'.tasks == s.tasks[t := Task(k, Queued)]
            && s'.kernels == s.kernels[k := s.kernels[k].(lock := None)]
  {
    hide Inv, KernelInv, TaskInv, LiveTasks, QueueInv, Run, After;
    WorkerServes(s, t);
    QueuedRuns(s, u);
    LocksBlocker(s, t, b, again);
    var s2 := Apply(Apply(s, WorkReturns(t, b)), TryBlocker(t, again));
    assert s2.tasks[u] == Task(b, Queued);
    Runs3(s, WorkReturns(t, b), TryBlocker(t, again), StealBlocker(t));
  }

  /** If the blocker is locked, the task tries again or ends, and touches nothing else. */
  lemma BlockedRetries(s: State, t: nat, b: nat, again: bool)
    requires Inv(s) && TaskAt(s, t, Working) && b in s.kernels && !s.kernels[b].removed && s.kernels[b].lock.Some?
    ensures Run(s, [WorkReturns(t, b), TryBlocker(t, again)])
    ensures After(s, [WorkReturns(t, b), TryBlocker(t, again)]) == Move(s, t, if again then Looping else Ending)
  {
    Runs2(s, WorkReturns(t, b), TryBlocker(t, again));
  }

  /** So it does if the blocker runs already and no task of it is taken over; the blocker's lock is free again. */
  lemma BlockedLeaves(s: State, t: nat, b: nat, now: bool, again: bool)
    requires Inv(s) && TaskAt(s, t, Working) && b in s.kernels && !s.kernels[b].removed && s.kernels[b].lock == None
    requires s.kernels[b].running != 0
    ensures Run(s, [WorkReturns(t, b), TryBlocker(t, now), LeaveBlocker(t, again)])
    ensures var s' := After(s, [WorkReturns(t, b), TryBlocker(t, now), LeaveBlocker(t, again)]);
            && s'.tasks == s.tasks[t := s.tasks[t].(at := if again then Looping else Ending)]
            && s'.kernels == s.kernels && s'.runq == s.runq && s'.hand == s.hand
  {
    assert TaskInv(s, t);
    Runs3(s, WorkReturns(t, b), TryBlocker(t, now), LeaveBlocker(t, again));
  }

  /** If the blocker has been removed, the task ends. */
  lemma BlockedOnRemovedEnds(s: State, t: nat, b: nat)
    requires Inv(s) && TaskAt(s, t, Working) && b in s.kernels && s.kernels[b].removed
    ensures Run(s, [WorkReturns(t, b)]) && After(s, [WorkReturns(t, b)]) == Move(s, t, Ending)
  {
    var s' := Apply(s, WorkReturns(t, b));
    assert Run(s', []) && After(s', []) == s';
    assert [WorkReturns(t, b)][1..] == [];
  }

  /** A task that ends leaves its kernel idle, and everything else as it was. */
  lemma EndLeavesIdle(s: State, t: nat)
    requires Inv(s) && TaskAt(s, t, Ending)
    ensures Run(s, [Finish(t), Unlock(t)])
    ensures var (k, s') := (s.tasks[t].kernel, After(s, [Finish(t), Unlock(t)]));
            && s'.tasks == s.tasks - {t} && s'.hand == s.hand && s'.runq == s.runq
            && s'.kernels == s.kernels[k := s.kernels[k].(running := 0, lock := None)]
  {
    var k := s.tasks[t].kernel;
    assert TaskInv(s, t);
    AtMostOneLive(s, k, t, t);
    Runs2(s, Finish(t), Unlock(t));
  }

  /** So does one that fails to lock its kernel, but for the lock itself, which another holds. */
  lemma RefusedGivesUp(s: State, t: nat)
    requires Inv(s) && TaskAt(s, t, Queued) && s.kernels[s.tasks[t].kernel].lock.Some?
    ensures Run(s, [TryLock(t), Refuse(t)])
    ensures var (k, s') := (s.tasks[t].kernel, After(s, [TryLock(t), Refuse(t)]));
            s'.tasks == s.tasks - {t} && s'.kernels == s.kernels[k := s.kernels[k].(running := 0)]
  {
    var k := s.tasks[t].kernel;
    assert TaskInv(s, t) && t in LiveTasks(s, k);
    AtMostOneLive(s, k, t, t);
    Runs2(s, TryLock(t), Refuse(t));
  }

  // ---- nothing is stuck, and nothing is left behind ----

  /** A number that no task has. */
  lemma {:induction false} FreshTask(tasks: set<nat>) returns (t: nat)
    ensures forall u :: u in tasks ==> u < t
  {
    if tasks == {} {
      t := 0;
    } else {
      var u :| u in tasks;
      t := FreshTask(tasks - {u});
      assert forall v :: v in tasks ==> v == u || v in tasks - {u};
      t := if t > u then t else u + 1;
    }
  }

  /** Every task can take a step of its own, whatever locks others hold. */
  lemma TaskGoesOn(s: State, t: nat) returns (e: Event)
    requires Inv(s) && t in s.tasks
    ensures Enabled(s, e) && TaskOf(e) == t
    ensures !(e.Call? || e.Remove? || e.Pop? || e.Look? || e.Lock? || e.Spawn? || e.PutBack?)
  {
    assert TaskInv(s, t);
    match s.tasks[t].at
    case Queued => e := TryLock(t);
    case Refused => e := Refuse(t);
    case Entered => e := Check(t);
    case Looping => e := Find(t);
    case Working => e := WorkIsDone(t);
    case Blocked(_) => e := TryBlocker(t, true);
    case Holding(b) =>
      if s.kernels[b].running == 0 {
        var u := FreshTask(s.tasks.Keys);
        e := RunBlocker(t, u);
      } else {
        e := LeaveBlocker(t, true);
      }
    case Ending => e := Finish(t);
    case Leaving => e := Unlock(t);
  }

  /** So can the dispatcher, as long as it has a kernel in hand or in the queue. */
  lemma DispatcherGoesOn(s: State) returns (e: Event)
    requires Inv(s) && (s.runq != [] || !s.hand.Empty?)
    ensures Enabled(s, e) && (e.Pop? || e.Look? || e.Lock? || e.Spawn? || e.PutBack?)
  {
    match s.hand
    case Empty => e := Pop;
    case Popped(_) => e := Look;
    case Trying(_) => e := Lock;
    case Locked(_) =>
      var u := FreshTask(s.tasks.Keys);
      e := Spawn(u);
    case Returning(_) => e := PutBack;
  }

  /** When all tasks are gone and the dispatcher is between two kernels, every kernel is idle. */
  lemma AtRestAllIdle(es: seq<Event>, k: nat)
    requires Run(START, es) && After(START, es).tasks == map[] && After(START, es).hand.Empty?
    requires k in After(START, es).kernels
    ensures Idle(After(START, es), k)
  {
    StartInv();
    RunKeepsInv(START, es);
    var s := After(START, es);
    assert KernelInv(s, k);
    assert LiveTasks(s, k) == {};
  }

  // ---- the kernels are those of the run ----

  /** Some work function of kernel k reports in the run that it is done. */
  predicate ReportsDone(s: State, es: seq<Event>, k: nat)
    requires Run(s, es)
    decreases |es|
  {
    es != [] && ((es[0].WorkIsDone? && s.tasks[es[0].t].kernel == k) || ReportsDone(Apply(s, es[0]), es[1..], k))
  }

  lemma StepOfKernel(s: State, e: Event, k: nat)
    requires Enabled(s, e)
    ensures var s' := Apply(s, e);
            && (k in s'.kernels <==> k in s.kernels || e == Call(k))
            && (k in s'.kernels ==>
                 && (s'.kernels[k].removed <==> (k in s.kernels && s.kernels[k].removed) || e == Remove(k))
                 && (s'.kernels[k].done <==> (k in s.kernels && s.kernels[k].done)
                                             || (e.WorkIsDone? && s.tasks[e.t].kernel == k)))
  {
  }

  lemma {:induction false} KernelsAreTheRuns(s: State, es: seq<Event>, k: nat)
    requires Run(s, es)
    ensures k in After(s, es).kernels <==> k in s.kernels || Call(k) in es
    ensures k in After(s, es).kernels ==>
              && (After(s, es).kernels[k].removed <==> (k in s.kernels && s.kernels[k].removed) || Remove(k) in es)
              && (After(s, es).kernels[k].done <==> (k in s.kernels && s.kernels[k].done) || ReportsDone(s, es, k))
    decreases |es|
  {
    if es != [] {
      StepOfKernel(s, es[0], k);
      hide Apply, Enabled;
      KernelsAreTheRuns(Apply(s, es[0]), es[1..], k);
    }
  }

  /** A kernel is to run exactly from its call until its work function reports that it is done or it is removed. */
  lemma ToRunIff(es: seq<Event>, k: nat)
    requires Run(START, es)
    ensures ToRun(After(START, es), k) <==> Call(k) in es && !ReportsDone(START, es, k) && Remove(k) !in es
  {
    KernelsAreTheRuns(START, es, k);
  }
}
