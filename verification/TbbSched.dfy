/** The task scheduler: one dispatcher and any number of workers, step by step. */
module TbbSched {
  import opened Common
  import opened Wrappers

  datatype Holder = Dispatcher | Worker(task: nat)

  /** A kernel as the scheduler sees it. `removed` means that it is no longer in the kernel map. */
  datatype Kernel = Kernel(running: int, owner: Option<nat>, lock: Option<Holder>, done: bool, removed: bool) {
    predicate Active() {
      !done
    }
  }

  /** Where a task is in execute(): queued, after a failed or successful try for its kernel's lock, at the start of
      the work loop, in the work function, returned from it with a blocking kernel, holding the blocking kernel's lock
      too, at the final decrement, or past it and still to release the lock. */
  datatype Place =
    | Queued
    | Refused
    | Entered
    | Looping
    | Working
    | Blocked(on: nat)
    | Holding(on: nat)
    | Ending
    | Leaving

  datatype Task = Task(kernel: nat, at: Place)

  /** Where the dispatcher is in run(), with a kernel in hand. */
  datatype Hand = Empty | Popped(k: nat) | Trying(k: nat) | Locked(k: nat) | Returning(k: nat)

  datatype State = State(kernels: map<nat, Kernel>, tasks: map<nat, Task>, runq: seq<nat>, hand: Hand)

  datatype Event =
    | Call(k: nat)
    | Remove(k: nat)
    | Pop
    | Look
    | Lock
    | Spawn(task: nat)
    | PutBack
    | TryLock(t: nat)
    | Refuse(t: nat)
    | Check(t: nat)
    | Find(t: nat)
    | WorkReturns(t: nat, on: nat)
    | WorkIsDone(t: nat)
    | TryBlocker(t: nat, again: bool)
    | RunBlocker(t: nat, task: nat)
    | StealBlocker(t: nat)
    | LeaveBlocker(t: nat, again: bool)
    | Finish(t: nat)
    | Unlock(t: nat)

  predicate InHand(h: Hand, k: nat) {
    !h.Empty? && h.k == k
  }

  function TaskOf(e: Event): nat {
    match e
    case Call(_) => 0
    case Remove(_) => 0
    case Pop => 0
    case Look => 0
    case Lock => 0
    case Spawn(_) => 0
    case PutBack => 0
    case TryLock(t) => t
    case Refuse(t) => t
    case Check(t) => t
    case Find(t) => t
    case WorkReturns(t, _) => t
    case WorkIsDone(t) => t
    case TryBlocker(t, _) => t
    case RunBlocker(t, _) => t
    case StealBlocker(t) => t
    case LeaveBlocker(t, _) => t
    case Finish(t) => t
    case Unlock(t) => t
  }

  predicate TaskAt(s: State, t: nat, p: Place) {
    t in s.tasks && s.tasks[t].at == p && s.tasks[t].kernel in s.kernels
  }

  predicate Enabled(s: State, e: Event) {
    match e
    case Call(k) => k !in s.kernels
    case Remove(k) => k in s.kernels
    case Pop => s.hand.Empty? && s.runq != [] && s.runq[0] in s.kernels
    case Look => s.hand.Popped? && s.hand.k in s.kernels
    case Lock => s.hand.Trying? && s.hand.k in s.kernels
    case Spawn(task) => s.hand.Locked? && s.hand.k in s.kernels && task !in s.tasks
    case PutBack => s.hand.Returning? && s.hand.k in s.kernels
    case TryLock(t) => TaskAt(s, t, Queued)
    case Refuse(t) => TaskAt(s, t, Refused)
    case Check(t) => TaskAt(s, t, Entered)
    case Find(t) => TaskAt(s, t, Looping)
    case WorkReturns(t, on) => TaskAt(s, t, Working) && on in s.kernels
    case WorkIsDone(t) => TaskAt(s, t, Working)
    case TryBlocker(t, _) =>
      && t in s.tasks && s.tasks[t].at.Blocked? && TaskAt(s, t, s.tasks[t].at) && s.tasks[t].at.on in s.kernels
    case RunBlocker(t, task) =>
      && t in s.tasks && s.tasks[t].at.Holding? && TaskAt(s, t, s.tasks[t].at) && s.tasks[t].at.on in s.kernels
      && s.kernels[s.tasks[t].at.on].running == 0 && task !in s.tasks
    case StealBlocker(t) =>
      && t in s.tasks && s.tasks[t].at.Holding? && TaskAt(s, t, s.tasks[t].at) && s.tasks[t].at.on in s.kernels
      && s.kernels[s.tasks[t].at.on].running != 0
      && exists u :: u in s.tasks && s.tasks[u] == Task(s.tasks[t].at.on, Queued)
    case LeaveBlocker(t, _) =>
      && t in s.tasks && s.tasks[t].at.Holding? && TaskAt(s, t, s.tasks[t].at) && s.tasks[t].at.on in s.kernels
      && s.kernels[s.tasks[t].at.on].running != 0
    case Finish(t) => TaskAt(s, t, Ending)
    case Unlock(t) => TaskAt(s, t, Leaving)
  }

  // ---- steps ----

  function Move(s: State, t: nat, p: Place): State
    requires t in s.tasks
  {
    s.(tasks := s.tasks[t := s.tasks[t].(at := p)])
  }

  function SetLock(s: State, k: nat, h: Option<Holder>): State
    requires k in s.kernels
  {
    s.(kernels := s.kernels[k := s.kernels[k].(lock := h)])
  }

  /** `running++` and a new task that owns the kernel. */
  function NewTask(s: State, k: nat, task: nat): State
    requires k in s.kernels
  {
    s.(kernels := s.kernels[k := s.kernels[k].(running := s.kernels[k].running + 1, owner := Some(task))],
       tasks := s.tasks[task := Task(k, Queued)])
  }

  function Decrement(s: State, k: nat): State
    requires k in s.kernels
  {
    s.(kernels := s.kernels[k := s.kernels[k].(running := s.kernels[k].running - 1)])
  }

  function Apply(s: State, e: Event): State
    requires Enabled(s, e)
  {
    match e
    case Call(k) => s.(kernels := s.kernels[k := Kernel(0, None, None, false, false)], runq := s.runq + [k])
    case Remove(k) => s.(kernels := s.kernels[k := s.kernels[k].(owner := None, removed := true)])
    case Pop => s.(runq := s.runq[1..], hand := Popped(s.runq[0]))
    case Look =>
      var k := s.hand.k;
      var c := s.kernels[k];
      s.(hand := if !c.removed && c.Active() && c.running == 0 then Trying(k) else Returning(k))
    case Lock =>
      var k := s.hand.k;
      if s.kernels[k].lock == None then SetLock(s.(hand := Locked(k)), k, Some(Dispatcher))
      else s.(hand := Returning(k))
    case Spawn(task) =>
      var k := s.hand.k;
      var s1 := if s.kernels[k].running == 0 then NewTask(s, k, task) else s;
      SetLock(s1.(hand := Returning(k)), k, None)
    case PutBack =>
      var k := s.hand.k;
      if !s.kernels[k].done && !s.kernels[k].removed then s.(hand := Empty, runq := s.runq + [k]) else s.(hand := Empty)
    case TryLock(t) =>
      var k := s.tasks[t].kernel;
      if s.kernels[k].lock == None then SetLock(Move(s, t, Entered), k, Some(Worker(t))) else Move(s, t, Refused)
    case Refuse(t) =>
      var s1 := Decrement(s, s.tasks[t].kernel);
      s1.(tasks := s1.tasks - {t})
    case Check(t) =>
      var c := s.kernels[s.tasks[t].kernel];
      Move(s, t, if c.owner == Some(t) && c.Active() then Looping else Ending)
    case Find(t) => Move(s, t, if s.kernels[s.tasks[t].kernel].removed then Ending else Working)
    case WorkReturns(t, on) =>
      Move(s, t, if s.kernels[on].removed then Ending else Blocked(on))
    case WorkIsDone(t) =>
      var k := s.tasks[t].kernel;
      Move(s.(kernels := s.kernels[k := s.kernels[k].(done := true)]), t, Ending)
    case TryBlocker(t, again) =>
      var b := s.tasks[t].at.on;
      if s.kernels[b].lock == None then SetLock(Move(s, t, Holding(b)), b, Some(Worker(t)))
      else Move(s, t, if again then Looping else Ending)
    case RunBlocker(t, task) =>
      var b := s.tasks[t].at.on;
      SetLock(SetLock(Move(NewTask(s, b, task), t, Queued), b, None), s.tasks[t].kernel, None)
    case StealBlocker(t) =>
      SetLock(SetLock(Move(s, t, Queued), s.tasks[t].at.on, None), s.tasks[t].kernel, None)
    case LeaveBlocker(t, again) =>
      SetLock(Move(s, t, if again then Looping else Ending), s.tasks[t].at.on, None)
    case Finish(t) => Move(Decrement(s, s.tasks[t].kernel), t, Leaving)
    case Unlock(t) =>
      var s1 := SetLock(s, s.tasks[t].kernel, None);
      s1.(tasks := s1.tasks - {t})
  }

  // ---- the invariant ----

  /** Tasks that have not made their decrement. */
  function LiveTasks(s: State, k: nat): set<nat> {
    set t | t in s.tasks && s.tasks[t].kernel == k && s.tasks[t].at != Leaving
  }

  /** Places from which a task works under its kernel's lock. */
  predicate Inside(p: Place) {
    p.Entered? || p.Looping? || p.Working? || p.Blocked? || p.Holding? || p.Ending? || p.Leaving?
  }

  /** The places in the work loop. */
  predicate AtWork(p: Place) {
    p.Looping? || p.Working? || p.Blocked? || p.Holding?
  }

  predicate TaskInv(s: State, t: nat)
    requires t in s.tasks
  {
    var k := s.tasks[t].kernel;
    && k in s.kernels
    && (Inside(s.tasks[t].at) ==> s.kernels[k].lock == Some(Worker(t)))
    && (AtWork(s.tasks[t].at) ==> !s.kernels[k].done)
    && (s.tasks[t].at.Blocked? ==> s.tasks[t].at.on in s.kernels)
    && (s.tasks[t].at.Holding? ==> s.tasks[t].at.on != k && s.tasks[t].at.on in s.kernels
                                   && s.kernels[s.tasks[t].at.on].lock == Some(Worker(t)))
    && (s.tasks[t].at != Leaving && !s.kernels[k].removed ==> s.kernels[k].owner == Some(t))
  }

  /** `running` counts the kernel's live tasks, of which there is at most one, and the lock is held only by
      whoever is at a place that holds it. */
  predicate KernelInv(s: State, k: nat)
    requires k in s.kernels
  {
    && |LiveTasks(s, k)| == s.kernels[k].running <= 1
    && (s.kernels[k].lock == Some(Dispatcher) ==> s.hand == Locked(k))
    && (match s.kernels[k].lock
        case Some(Worker(t)) => t in s.tasks
            && ((s.tasks[t].kernel == k && Inside(s.tasks[t].at)) || s.tasks[t].at == Holding(k))
        case _ => true)
  }

  /** A kernel that is still to run is queued or in the dispatcher's hand, once. */
  predicate QueueInv(s: State, k: nat)
    requires k in s.kernels
  {
    && multiset(s.runq)[k] + (if InHand(s.hand, k) then 1 else 0) <= 1
    && (!s.kernels[k].done && !s.kernels[k].removed ==> multiset(s.runq)[k] + (if InHand(s.hand, k) then 1 else 0) == 1)
  }

  ghost predicate Inv(s: State) {
    && (forall t {:trigger TaskInv(s, t)} :: t in s.tasks ==> TaskInv(s, t))
    && (forall k {:trigger KernelInv(s, k)} :: k in s.kernels ==> KernelInv(s, k))
    && (forall k {:trigger QueueInv(s, k)} :: k in s.kernels ==> QueueInv(s, k))
    && (forall k :: k in s.runq ==> k in s.kernels)
    && (!s.hand.Empty? ==> s.hand.k in s.kernels)
    && (s.hand.Locked? ==> s.kernels[s.hand.k].lock == Some(Dispatcher))
  }

  const START := State(map[], map[], [], Empty)

  lemma StartInv()
    ensures Inv(START)
  {
  }

  // ---- every step keeps it ----

  lemma SetGrows(s: State, s': State, k: nat, t: nat)
    requires t !in LiveTasks(s, k) && LiveTasks(s', k) == LiveTasks(s, k) + {t}
    ensures |LiveTasks(s', k)| == |LiveTasks(s, k)| + 1
  {
  }

  lemma SetShrinks(s: State, s': State, k: nat, t: nat)
    requires t in LiveTasks(s, k) && LiveTasks(s', k) == LiveTasks(s, k) - {t}
    ensures |LiveTasks(s', k)| == |LiveTasks(s, k)| - 1
  {
  }

  /** A step that moves one task, sets locks and leaves everything else alone keeps all counts. */
  lemma SameLive(s: State, s': State, t: nat)
    requires t in s.tasks && s'.tasks.Keys == s.tasks.Keys
    requires forall u :: u in s.tasks && u != t ==> s'.tasks[u] == s.tasks[u]
    requires s'.tasks[t].kernel == s.tasks[t].kernel && (s'.tasks[t].at == Leaving <==> s.tasks[t].at == Leaving)
    ensures forall k {:trigger LiveTasks(s', k)} :: LiveTasks(s', k) == LiveTasks(s, k)
  {
    forall k
      ensures LiveTasks(s', k) == LiveTasks(s, k)
    {
    }
  }

  lemma QueueKept(s: State, s': State, k: nat)
    requires k in s.kernels && k in s'.kernels && QueueInv(s, k) && s'.runq == s.runq && s'.hand == s.hand
    requires (s.kernels[k].done ==> s'.kernels[k].done) && (s.kernels[k].removed ==> s'.kernels[k].removed)
    ensures QueueInv(s', k)
  {
  }

  lemma NoLive(s: State, k: nat, t: nat)
    requires Inv(s) && k in s.kernels && s.kernels[k].running == 0 && t in s.tasks && s.tasks[t].kernel == k
    ensures s.tasks[t].at == Leaving
  {
    assert KernelInv(s, k);
    assert LiveTasks(s, k) == {};
    assert t !in LiveTasks(s, k);
  }

  lemma AtMostOneLive(s: State, k: nat, t: nat, u: nat)
    requires Inv(s) && k in s.kernels && t in LiveTasks(s, k) && u in LiveTasks(s, k)
    ensures t == u && s.kernels[k].running == 1
  {
    assert KernelInv(s, k);
    assert {t, u} <= LiveTasks(s, k);
    SubsetSize({t, u}, LiveTasks(s, k));
  }

  /** Steps that move one live task, and at most take or give back locks and mark a kernel done. */
  predicate Moves(e: Event) {
    e.TryLock? || e.Check? || e.Find? || e.WorkReturns? || e.WorkIsDone? || e.TryBlocker? || e.StealBlocker?
    || e.LeaveBlocker?
  }

  /** The task that moves holds the locks its new place asks for. */
  lemma MoveKeepsMover(s: State, e: Event)
    requires Inv(s) && Enabled(s, e) && Moves(e)
    ensures TaskOf(e) in Apply(s, e).tasks && TaskInv(Apply(s, e), TaskOf(e))
  {
    assert TaskInv(s, TaskOf(e));
    hide Inv, LiveTasks, QueueInv, KernelInv;
  }

  /** No other task loses one: the locks that change hands are free or the mover's. */
  lemma MoveKeepsOther(s: State, e: Event, u: nat)
    requires Inv(s) && Enabled(s, e) && Moves(e) && u in s.tasks && u != TaskOf(e)
    ensures u in Apply(s, e).tasks && TaskInv(Apply(s, e), u)
  {
    hide Inv, LiveTasks, QueueInv, KernelInv;
    assert TaskInv(s, TaskOf(e)) && TaskInv(s, u) by { BothInv(s, TaskOf(e), u); }
  }

  lemma BothInv(s: State, t: nat, u: nat)
    requires Inv(s) && t in s.tasks && u in s.tasks
    ensures TaskInv(s, t) && TaskInv(s, u)
  {
  }

  lemma MoveKeepsTask(s: State, e: Event, u: nat)
    requires Inv(s) && Enabled(s, e) && Moves(e) && u in s.tasks
    ensures u in Apply(s, e).tasks && TaskInv(Apply(s, e), u)
  {
    hide Inv, Enabled, Apply, TaskInv, Moves;
    if u == TaskOf(e) {
      MoveKeepsMover(s, e);
    } else {
      MoveKeepsOther(s, e, u);
    }
  }

  lemma MoveKeepsCount(s: State, e: Event, k: nat)
    requires Inv(s) && Enabled(s, e) && Moves(e) && k in s.kernels
    ensures k in Apply(s, e).kernels && Apply(s, e).kernels[k].running == s.kernels[k].running
    ensures |LiveTasks(Apply(s, e), k)| == Apply(s, e).kernels[k].running <= 1
  {
    assert KernelInv(s, k) && TaskInv(s, TaskOf(e));
    hide Inv, TaskInv, QueueInv;
    SameLive(s, Apply(s, e), TaskOf(e));
    assert LiveTasks(Apply(s, e), k) == LiveTasks(s, k);
  }

  lemma MoveKeepsQueue(s: State, e: Event, k: nat)
    requires Inv(s) && Enabled(s, e) && Moves(e) && k in s.kernels
    ensures k in Apply(s, e).kernels && QueueInv(Apply(s, e), k)
  {
    assert QueueInv(s, k) && TaskInv(s, TaskOf(e));
    hide Inv, TaskInv, QueueInv, KernelInv, LiveTasks;
    QueueKept(s, Apply(s, e), k);
  }

  lemma MoveKeepsKernel(s: State, e: Event, k: nat)
    requires Inv(s) && Enabled(s, e) && Moves(e) && k in s.kernels
    ensures k in Apply(s, e).kernels && KernelInv(Apply(s, e), k)
  {
    MoveKeepsCount(s, e, k);
    assert TaskInv(s, TaskOf(e)) && KernelInv(s, k);
    hide LiveTasks, QueueInv, Inv;
  }

  lemma MoveKeepsInv(s: State, e: Event)
    requires Inv(s) && Enabled(s, e) && Moves(e)
    ensures Inv(Apply(s, e))
  {
    hide LiveTasks, QueueInv, KernelInv;
    var s' := Apply(s, e);
    assert TaskInv(s, TaskOf(e));
    forall u | u in s'.tasks
      ensures TaskInv(s', u)
    {
      MoveKeepsTask(s, e, u);
    }
    forall k | k in s'.kernels
      ensures KernelInv(s', k) && QueueInv(s', k)
    {
      MoveKeepsKernel(s, e, k);
      MoveKeepsQueue(s, e, k);
    }
  }

  lemma FinishKeepsInv(s: State, t: nat)
    requires Inv(s) && Enabled(s, Finish(t))
    ensures Inv(Apply(s, Finish(t)))
  {
    var s' := Apply(s, Finish(t));
    assert TaskInv(s, t);
    forall u | u in s'.tasks
      ensures TaskInv(s', u)
    {
      assert TaskInv(s, u);
    }
    forall k | k in s'.kernels
      ensures KernelInv(s', k) && QueueInv(s', k)
    {
      assert KernelInv(s, k) && QueueInv(s, k);
      if k == s.tasks[t].kernel {
        assert LiveTasks(s', k) == LiveTasks(s, k) - {t};
        SetShrinks(s, s', k, t);
      } else {
        assert LiveTasks(s', k) == LiveTasks(s, k);
      }
    }
  }

  lemma RefuseKeepsInv(s: State, t: nat)
    requires Inv(s) && Enabled(s, Refuse(t))
    ensures Inv(Apply(s, Refuse(t)))
  {
    var s' := Apply(s, Refuse(t));
    assert TaskInv(s, t);
    forall u | u in s'.tasks
      ensures TaskInv(s', u)
    {
      assert TaskInv(s, u);
    }
    forall k | k in s'.kernels
      ensures KernelInv(s', k) && QueueInv(s', k)
    {
      assert KernelInv(s, k) && QueueInv(s, k);
      if k == s.tasks[t].kernel {
        assert LiveTasks(s', k) == LiveTasks(s, k) - {t};
        SetShrinks(s, s', k, t);
      } else {
        assert LiveTasks(s', k) == LiveTasks(s, k);
      }
    }
  }

  lemma UnlockKeepsInv(s: State, t: nat)
    requires Inv(s) && Enabled(s, Unlock(t))
    ensures Inv(Apply(s, Unlock(t)))
  {
    var s' := Apply(s, Unlock(t));
    assert TaskInv(s, t);
    forall u | u in s'.tasks
      ensures TaskInv(s', u)
    {
      assert TaskInv(s, u);
    }
    forall k | k in s'.kernels
      ensures KernelInv(s', k) && QueueInv(s', k)
    {
      assert KernelInv(s, k) && QueueInv(s, k);
      assert LiveTasks(s', k) == LiveTasks(s, k);
    }
  }

  lemma RunBlockerKeepsTasks(s: State, t: nat, task: nat, u: nat)
    requires Inv(s) && Enabled(s, RunBlocker(t, task)) && u in Apply(s, RunBlocker(t, task)).tasks
    ensures TaskInv(Apply(s, RunBlocker(t, task)), u)
  {
    hide LiveTasks;
    var b := s.tasks[t].at.on;
    assert TaskInv(s, t);
    if u in s.tasks {
      assert TaskInv(s, u);
      if s.tasks[u].kernel == b {
        NoLive(s, b, u);
      }
    }
  }

  lemma RunBlockerLive(s: State, t: nat, task: nat, k: nat)
    requires Enabled(s, RunBlocker(t, task)) && k in s.kernels
    ensures var s' := Apply(s, RunBlocker(t, task));
            && task !in LiveTasks(s, k)
            && LiveTasks(s', k) == LiveTasks(s, k) + if k == s.tasks[t].at.on then {task} else {}
  {
  }

  lemma RunBlockerKeepsCount(s: State, t: nat, task: nat, k: nat)
    requires Inv(s) && Enabled(s, RunBlocker(t, task)) && k in s.kernels
    ensures var s' := Apply(s, RunBlocker(t, task));
            |LiveTasks(s', k)| == s'.kernels[k].running <= 1
  {
    assert KernelInv(s, k) && TaskInv(s, t);
    RunBlockerLive(s, t, task, k);
    hide LiveTasks, Inv;
    if k == s.tasks[t].at.on {
      SetGrows(s, Apply(s, RunBlocker(t, task)), k, task);
    }
  }

  lemma RunBlockerKeepsKernels(s: State, t: nat, task: nat, k: nat)
    requires Inv(s) && Enabled(s, RunBlocker(t, task)) && k in s.kernels
    ensures KernelInv(Apply(s, RunBlocker(t, task)), k)
  {
    RunBlockerKeepsCount(s, t, task, k);
    assert KernelInv(s, k) && TaskInv(s, t);
    hide LiveTasks, Inv;
  }

  lemma RunBlockerKeepsQueue(s: State, t: nat, task: nat, k: nat)
    requires Inv(s) && Enabled(s, RunBlocker(t, task)) && k in s.kernels
    ensures QueueInv(Apply(s, RunBlocker(t, task)), k)
  {
    hide KernelInv, LiveTasks;
    assert TaskInv(s, t) && QueueInv(s, k);
  }

  lemma RunBlockerKeepsInv(s: State, t: nat, task: nat)
    requires Inv(s) && Enabled(s, RunBlocker(t, task))
    ensures Inv(Apply(s, RunBlocker(t, task)))
  {
    hide LiveTasks, KernelInv, QueueInv;
    var s' := Apply(s, RunBlocker(t, task));
    assert TaskInv(s, t);
    forall u | u in s'.tasks
      ensures TaskInv(s', u)
    {
      RunBlockerKeepsTasks(s, t, task, u);
    }
    forall k | k in s'.kernels
      ensures KernelInv(s', k) && QueueInv(s', k)
    {
      RunBlockerKeepsKernels(s, t, task, k);
      RunBlockerKeepsQueue(s, t, task, k);
    }
  }

  lemma SpawnKeepsTask(s: State, task: nat, u: nat)
    requires Inv(s) && Enabled(s, Spawn(task)) && u in Apply(s, Spawn(task)).tasks
    ensures TaskInv(Apply(s, Spawn(task)), u)
  {
    hide LiveTasks, QueueInv, KernelInv;
    if u in s.tasks {
      assert TaskInv(s, u);
      if s.tasks[u].kernel == s.hand.k && s.kernels[s.hand.k].running == 0 {
        NoLive(s, s.hand.k, u);
      }
    }
  }

  lemma SpawnLive(s: State, task: nat, k: nat)
    requires Enabled(s, Spawn(task)) && k in s.kernels
    ensures var s' := Apply(s, Spawn(task));
            && task !in LiveTasks(s, k)
            && LiveTasks(s', k) == LiveTasks(s, k) + if k == s.hand.k && s.kernels[k].running == 0 then {task} else {}
  {
  }

  lemma SpawnKeepsKernel(s: State, task: nat, k: nat)
    requires Inv(s) && Enabled(s, Spawn(task)) && k in s.kernels
    ensures k in Apply(s, Spawn(task)).kernels && KernelInv(Apply(s, Spawn(task)), k)
  {
    assert KernelInv(s, k);
    SpawnLive(s, task, k);
    hide LiveTasks, QueueInv, TaskInv;
    if k == s.hand.k && s.kernels[k].running == 0 {
      SetGrows(s, Apply(s, Spawn(task)), k, task);
    }
  }

  lemma SpawnKeepsInv(s: State, task: nat)
    requires Inv(s) && Enabled(s, Spawn(task))
    ensures Inv(Apply(s, Spawn(task)))
  {
    hide LiveTasks, KernelInv, TaskInv;
    var s' := Apply(s, Spawn(task));
    forall u | u in s'.tasks
      ensures TaskInv(s', u)
    {
      SpawnKeepsTask(s, task, u);
    }
    forall k | k in s'.kernels
      ensures KernelInv(s', k) && QueueInv(s', k)
    {
      SpawnKeepsKernel(s, task, k);
      assert QueueInv(s, k);
    }
  }

  lemma CallKeepsInv(s: State, k0: nat)
    requires Inv(s) && Enabled(s, Call(k0))
    ensures Inv(Apply(s, Call(k0)))
  {
    var s' := Apply(s, Call(k0));
    forall u | u in s'.tasks
      ensures TaskInv(s', u)
    {
      assert TaskInv(s, u);
    }
    forall k | k in s'.kernels
      ensures KernelInv(s', k) && QueueInv(s', k)
    {
      if k in s.kernels {
        assert KernelInv(s, k) && QueueInv(s, k);
      } else {
        forall t | t in s.tasks
          ensures s.tasks[t].kernel != k
        {
          assert TaskInv(s, t);
        }
      }
      assert LiveTasks(s', k) == LiveTasks(s, k);
    }
  }

  lemma QueueKeepsInv(s: State, e: Event)
    requires Inv(s) && Enabled(s, e) && (e.Pop? || e.PutBack?)
    ensures Inv(Apply(s, e))
  {
    var s' := Apply(s, e);
    assert e.Pop? ==> s.runq == [s.runq[0]] + s'.runq;
    forall u | u in s'.tasks
      ensures TaskInv(s', u)
    {
      assert TaskInv(s, u);
    }
    forall k | k in s'.kernels
      ensures KernelInv(s', k) && QueueInv(s', k)
    {
      assert KernelInv(s, k) && QueueInv(s, k);
      assert LiveTasks(s', k) == LiveTasks(s, k);
    }
  }

  lemma LookKeepsInv(s: State, e: Event)
    requires Inv(s) && Enabled(s, e) && (e.Remove? || e.Look? || e.Lock?)
    ensures Inv(Apply(s, e))
  {
    var s' := Apply(s, e);
    forall u | u in s'.tasks
      ensures TaskInv(s', u)
    {
      assert TaskInv(s, u);
    }
    forall k | k in s'.kernels
      ensures KernelInv(s', k) && QueueInv(s', k)
    {
      assert KernelInv(s, k) && QueueInv(s, k);
      assert LiveTasks(s', k) == LiveTasks(s, k);
    }
  }

  lemma StepKeepsInv(s: State, e: Event)
    requires Inv(s) && Enabled(s, e)
    ensures Inv(Apply(s, e))
  {
    hide Inv, Apply, Enabled;
    match e
    case Spawn(task) => SpawnKeepsInv(s, task);
    case Refuse(t) => RefuseKeepsInv(s, t);
    case RunBlocker(t, task) => RunBlockerKeepsInv(s, t, task);
    case Finish(t) => FinishKeepsInv(s, t);
    case Unlock(t) => UnlockKeepsInv(s, t);
    case Call(k) => CallKeepsInv(s, k);
    case Remove(_) => LookKeepsInv(s, e);
    case Look => LookKeepsInv(s, e);
    case Lock => LookKeepsInv(s, e);
    case Pop => QueueKeepsInv(s, e);
    case PutBack => QueueKeepsInv(s, e);
    case _ => MoveKeepsInv(s, e);
  }
}
