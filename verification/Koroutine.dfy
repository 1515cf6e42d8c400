/** Switching between the scheduler and a coroutine, instruction by instruction. */
module Koroutine {

  type Word = int

  datatype Machine = Machine(
    rbx: Word, rbp: Word, r12: Word, r13: Word, r14: Word, r15: Word,
    rsp: Word, rax: Word, rcx: Word, rdx: Word, rdi: Word, rsi: Word, r8: Word, r10: Word, r11: Word,
    pc: Word, mem: map<Word, Word>)

  /** The registers a called function must leave as it found them. */
  datatype Six = Six(rbx: Word, rbp: Word, r12: Word, r13: Word, r14: Word, r15: Word)

  function CalleeSaved(m: Machine): Six {
    Six(m.rbx, m.rbp, m.r12, m.r13, m.r14, m.r15)
  }

  function At(mem: map<Word, Word>, a: Word): Word {
    if a in mem then mem[a] else 0
  }

  // The fields of a coroutine record.
  const SAVEDSP := 0
  const SAVEDPC := 8
  const YIELDSP := 24
  const FN := 32
  const STACKBASE := 40
  const STACKSIZE := 48

  // ---- instructions ----

  function Push(m: Machine, v: Word): Machine {
    m.(rsp := m.rsp - 8, mem := m.mem[m.rsp - 8 := v])
  }

  function Store(m: Machine, a: Word, v: Word): Machine {
    m.(mem := m.mem[a := v])
  }

  function PushSix(m: Machine): Machine {
    Push(Push(Push(Push(Push(Push(m, m.rbx), m.rbp), m.r12), m.r13), m.r14), m.r15)
  }

  function PopSix(m: Machine): Machine {
    var m1 := m.(r15 := At(m.mem, m.rsp), rsp := m.rsp + 8);
    var m2 := m1.(r14 := At(m.mem, m1.rsp), rsp := m1.rsp + 8);
    var m3 := m2.(r13 := At(m.mem, m2.rsp), rsp := m2.rsp + 8);
    var m4 := m3.(r12 := At(m.mem, m3.rsp), rsp := m3.rsp + 8);
    var m5 := m4.(rbp := At(m.mem, m4.rsp), rsp := m4.rsp + 8);
    m5.(rbx := At(m.mem, m5.rsp), rsp := m5.rsp + 8)
  }

  /** The pushes store the six registers downwards from the stack pointer and touch nothing else. */
  lemma PushSixSaves(m: Machine)
    ensures var r := PushSix(m);
            && r == m.(rsp := m.rsp - 48, mem := r.mem)
            && SavedAt(r.mem, m.rsp - 48, CalleeSaved(m), At(m.mem, m.rsp))
            && forall a {:trigger At(r.mem, a)} :: a < m.rsp - 48 || m.rsp <= a ==> At(r.mem, a) == At(m.mem, a)
  {
  }

  /** The pops load them back. */
  lemma PopSixLoads(m: Machine, six: Six, back: Word)
    requires SavedAt(m.mem, m.rsp, six, back)
    ensures var r := PopSix(m);
            && CalleeSaved(r) == six && r.rsp == m.rsp + 48 && r.mem == m.mem && r.pc == m.pc
            && (r.rdi, r.rsi, r.rdx, r.rcx, r.r10, r.r11) == (m.rdi, m.rsi, m.rdx, m.rcx, m.r10, m.r11)
  {
  }

  lemma StoreChanges(m: Machine, a: Word, v: Word)
    ensures var r := Store(m, a, v);
            && r == m.(mem := r.mem) && At(r.mem, a) == v
            && forall b {:trigger At(r.mem, b)} :: b != a ==> At(r.mem, b) == At(m.mem, b)
  {
  }

  /** `koro_workfn_64`, called by the scheduler with the kernel's run-time state in rdi. */
  function Resume(m: Machine): Machine {
    var m1 := m.(r10 := At(m.mem, m.rdi));
    var m2 := m1.(r8 := At(m1.mem, m1.r10 + SAVEDSP));
    var m3 := m2.(r11 := At(m2.mem, m2.r10 + SAVEDPC));
    var m4 := PushSix(m3);
    var m5 := Store(m4, m4.r10 + YIELDSP, m4.rsp);
    var m6 := PopSix(m5.(rsp := m5.r8));
    m6.(pc := m6.r11)
  }

  /** `__SKIRRT_yield64`, called by the coroutine with its kernel in rdi and the blocking one in rsi. */
  function Yield(m: Machine): Machine {
    var m1 := m.(rcx := At(m.mem, m.rsp), rsp := m.rsp + 8);
    var m2 := m1.(rdi := At(m1.mem, m1.rdi + 8));
    var m3 := m2.(rdi := At(m2.mem, m2.rdi));
    var m4 := m3.(r11 := At(m3.mem, m3.rdi + YIELDSP));
    var m5 := m4.(r10 := At(m4.mem, m4.r11 + 48));
    var m6 := PushSix(m5);
    var m7 := Store(m6, m6.rdi + SAVEDSP, m6.rsp);
    var m8 := Store(m7, m7.rdi + SAVEDPC, m7.rcx);
    var m9 := PopSix(m8.(rsp := m8.r11));
    m9.(rax := m9.rsi, rsp := m9.rsp + 8, pc := m9.r10)
  }

  /** `__SKIRRT_return64`, called by the coroutine with its run-time state in rdi and the result in rsi. */
  function Return(m: Machine): Machine {
    var m1 := m.(rdi := At(m.mem, m.rdi));
    var m2 := m1.(r11 := At(m1.mem, m1.rdi + YIELDSP));
    var m3 := m2.(rdx := At(m2.mem, m2.rdi + FN));
    var m4 := m3.(rcx := At(m3.mem, m3.rdi + STACKBASE));
    var m5 := m4.(rcx := m4.rcx + At(m4.mem, m4.rdi + STACKSIZE));
    var m6 := m5.(r10 := At(m5.mem, m5.r11 + 48), rcx := m5.rcx - 56);
    var m7 := Store(m6, m6.rdi + SAVEDSP, m6.rcx);
    var m8 := Store(m7, m7.rdi + SAVEDPC, m7.rdx);
    var m9 := PopSix(m8.(rsp := m8.r11));
    m9.(rax := m9.rsi, rsp := m9.rsp + 8, pc := m9.r10)
  }

  // ---- what a switch saves and restores ----

  /** Six registers and a return address as they lie from `sp` up. */
  predicate SavedAt(mem: map<Word, Word>, sp: Word, six: Six, back: Word) {
    && At(mem, sp) == six.r15 && At(mem, sp + 8) == six.r14 && At(mem, sp + 16) == six.r13
    && At(mem, sp + 24) == six.r12 && At(mem, sp + 32) == six.rbp && At(mem, sp + 40) == six.rbx
    && At(mem, sp + 48) == back
  }

  /** n bytes from a and n' bytes from b have nothing in common. */
  predicate Apart(a: Word, n: Word, b: Word, n': Word) {
    a + n <= b || b + n' <= a
  }

  const RECORD := 56

  /** A call of Resume on coroutine c: its record, the part of its stack that holds its saved registers, and
      the stack the scheduler is about to push on are different memory. */
  predicate MayResume(m: Machine, c: Word) {
    var sp := At(m.mem, c + SAVEDSP);
    At(m.mem, m.rdi) == c && Apart(m.rsp - 48, 56, c, RECORD) && Apart(m.rsp - 48, 56, sp, 48)
        && Apart(sp, 48, c, RECORD)
  }

  /** A coroutine gets its registers, its stack pointer and its arguments, and control where it left off; the
      scheduler's registers and return address lie where the record says. */
  lemma ResumeSwitches(m: Machine, c: Word, six: Six)
    requires MayResume(m, c)
    requires var sp := At(m.mem, c + SAVEDSP);
             SavedAt(m.mem, sp, six, At(m.mem, sp + 48))
    ensures var r := Resume(m);
            && CalleeSaved(r) == six && r.rsp == At(m.mem, c + SAVEDSP) + 48 && r.pc == At(m.mem, c + SAVEDPC)
            && r.rdi == m.rdi && r.rsi == m.rsi && r.rdx == m.rdx && r.rcx == m.rcx
            && At(r.mem, c + YIELDSP) == m.rsp - 48 && SavedAt(r.mem, m.rsp - 48, CalleeSaved(m), At(m.mem, m.rsp))
            && At(r.mem, c + FN) == At(m.mem, c + FN) && At(r.mem, c + STACKBASE) == At(m.mem, c + STACKBASE)
            && At(r.mem, c + STACKSIZE) == At(m.mem, c + STACKSIZE)
  {
    hide PushSix, PopSix, Store, At;
    var m3 := m.(r10 := c, r8 := At(m.mem, c + SAVEDSP), r11 := At(m.mem, c + SAVEDPC));
    var m4 := PushSix(m3);
    var m5 := Store(m4, c + YIELDSP, m4.rsp);
    PushSixSaves(m3);
    StoreChanges(m4, c + YIELDSP, m4.rsp);
    PopSixLoads(m5.(rsp := m5.r8), six, At(m5.mem, m5.r8 + 48));
  }

  /** A call of Yield by coroutine c: the frame it pushes, its record and the scheduler's frame are different
      memory. */
  predicate MayYield(m: Machine, c: Word) {
    var back := At(m.mem, c + YIELDSP);
    At(m.mem, At(m.mem, m.rdi + 8)) == c && Apart(m.rsp - 40, 48, c, RECORD) && Apart(m.rsp - 40, 48, back, 56)
        && Apart(back, 56, c, RECORD)
  }

  lemma YieldSwitches(m: Machine, c: Word, six: Six, back: Word)
    requires MayYield(m, c) && SavedAt(m.mem, At(m.mem, c + YIELDSP), six, back)
    ensures var r := Yield(m);
            && CalleeSaved(r) == six && r.rsp == At(m.mem, c + YIELDSP) + 56 && r.pc == back && r.rax == m.rsi
            && At(r.mem, c + SAVEDSP) == m.rsp - 40 && At(r.mem, c + SAVEDPC) == At(m.mem, m.rsp)
            && SavedAt(r.mem, m.rsp - 40, CalleeSaved(m), At(r.mem, m.rsp + 8))
            && At(r.mem, c + FN) == At(m.mem, c + FN) && At(r.mem, c + STACKBASE) == At(m.mem, c + STACKBASE)
            && At(r.mem, c + STACKSIZE) == At(m.mem, c + STACKSIZE)
  {
    hide PushSix, PopSix, Store, At;
    var to := At(m.mem, c + YIELDSP);
    var m5 := m.(rcx := At(m.mem, m.rsp), rsp := m.rsp + 8, rdi := c, r11 := to, r10 := At(m.mem, to + 48));
    var m6 := PushSix(m5);
    var m7 := Store(m6, c + SAVEDSP, m6.rsp);
    var m8 := Store(m7, c + SAVEDPC, m7.rcx);
    PushSixSaves(m5);
    StoreChanges(m6, c + SAVEDSP, m6.rsp);
    StoreChanges(m7, c + SAVEDPC, m7.rcx);
    PopSixLoads(m8.(rsp := to), six, back);
  }

  predicate MayReturn(m: Machine, c: Word) {
    At(m.mem, m.rdi) == c && Apart(At(m.mem, c + YIELDSP), 56, c, RECORD)
  }

  lemma ReturnSwitches(m: Machine, c: Word, six: Six, back: Word)
    requires MayReturn(m, c) && SavedAt(m.mem, At(m.mem, c + YIELDSP), six, back)
    ensures var r := Return(m);
            && CalleeSaved(r) == six && r.rsp == At(m.mem, c + YIELDSP) + 56 && r.pc == back && r.rax == m.rsi
            && At(r.mem, c + SAVEDSP) == At(m.mem, c + STACKBASE) + At(m.mem, c + STACKSIZE) - 56
            && At(r.mem, c + SAVEDPC) == At(m.mem, c + FN)
            && At(r.mem, c + FN) == At(m.mem, c + FN) && At(r.mem, c + STACKBASE) == At(m.mem, c + STACKBASE)
            && At(r.mem, c + STACKSIZE) == At(m.mem, c + STACKSIZE)
  {
    hide PopSix, Store, At;
    var to := At(m.mem, c + YIELDSP);
    var top := At(m.mem, c + STACKBASE) + At(m.mem, c + STACKSIZE) - 56;
    var m6 := m.(rdi := c, r11 := to, rdx := At(m.mem, c + FN), rcx := top, r10 := At(m.mem, to + 48));
    var m7 := Store(m6, c + SAVEDSP, top);
    var m8 := Store(m7, c + SAVEDPC, m6.rdx);
    StoreChanges(m6, c + SAVEDSP, top);
    StoreChanges(m7, c + SAVEDPC, m6.rdx);
    PopSixLoads(m8.(rsp := to), six, back);
  }

  // ---- any number of turns ----

  /** One turn of a coroutine: the machine as the scheduler resumes it, and as it yields or returns. */
  datatype Turn = Turn(entry: Machine, leave: Machine, yielded: bool) {
    function Back(): Machine {
      if yielded then Yield(leave) else Return(leave)
    }
  }

  function SixAt(mem: map<Word, Word>, sp: Word): Six {
    Six(At(mem, sp + 40), At(mem, sp + 32), At(mem, sp + 24), At(mem, sp + 16), At(mem, sp + 8), At(mem, sp))
  }

  predicate SameAt(a: map<Word, Word>, b: map<Word, Word>, x: Word) {
    At(a, x) == At(b, x)
  }

  predicate SameFixed(a: map<Word, Word>, b: map<Word, Word>, c: Word) {
    SameAt(a, b, c + FN) && SameAt(a, b, c + STACKBASE) && SameAt(a, b, c + STACKSIZE)
  }

  /** In its turn the coroutine does what it likes except to its record and to the scheduler's frame. */
  ghost predicate CoroutineRan(t: Turn, c: Word) {
    var m := Resume(t.entry).mem;
    && MayResume(t.entry, c) && (if t.yielded then MayYield(t.leave, c) else MayReturn(t.leave, c))
    && SameFixed(t.leave.mem, m, c) && SameAt(t.leave.mem, m, c + YIELDSP)
    && (forall x {:trigger At(t.leave.mem, x)} :: At(m, c + YIELDSP) <= x <= At(m, c + YIELDSP) + 48 ==>
        SameAt(t.leave.mem, m, x))
  }

  /** Between turns the scheduler, and whatever else it runs, does what it likes except to the coroutine's
      record and saved registers. */
  ghost predicate SchedulerRan(m: map<Word, Word>, n: map<Word, Word>, c: Word) {
    && SameFixed(n, m, c) && SameAt(n, m, c + SAVEDSP) && SameAt(n, m, c + SAVEDPC)
    && (forall x {:trigger At(n, x)} :: At(m, c + SAVEDSP) <= x <= At(m, c + SAVEDSP) + 40 ==> SameAt(n, m, x))
  }

  ghost predicate Turns(ts: seq<Turn>, c: Word) {
    && (forall i {:trigger ts[i]} :: 0 <= i < |ts| ==> CoroutineRan(ts[i], c))
    && (forall i {:trigger ts[i].Back()} :: 0 <= i < |ts| - 1 ==>
        SchedulerRan(ts[i].Back().mem, ts[i + 1].entry.mem, c))
  }

  /** A coroutine as it is set up, or after it has returned: it will enter its function on an empty stack. */
  predicate AtStart(m: Machine, c: Word) {
    At(m.mem, c + SAVEDSP) == At(m.mem, c + STACKBASE) + At(m.mem, c + STACKSIZE) - 56
        && At(m.mem, c + SAVEDPC) == At(m.mem, c + FN)
  }

  /** `KORO_PUSH`. */
  function KoroPush(m: Machine, c: Word, v: Word): Machine {
    var m1 := Store(m, c + SAVEDSP, At(m.mem, c + SAVEDSP) - 8);
    Store(m1, At(m1.mem, c + SAVEDSP), v)
  }

  lemma KoroPushMoves(m: Machine, c: Word, v: Word)
    requires var sp := At(m.mem, c + SAVEDSP) - 8; sp < c || c + RECORD <= sp
    ensures var r := KoroPush(m, c, v);
            && At(r.mem, c + SAVEDSP) == At(m.mem, c + SAVEDSP) - 8 && At(r.mem, At(r.mem, c + SAVEDSP)) == v
            && SameAt(r.mem, m.mem, c + SAVEDPC) && SameFixed(r.mem, m.mem, c)
            && forall a {:trigger At(r.mem, a)} :: a != c + SAVEDSP && a != At(r.mem, c + SAVEDSP) ==>
                 SameAt(r.mem, m.mem, a)
  {
    hide Store, At;
    var m1 := Store(m, c + SAVEDSP, At(m.mem, c + SAVEDSP) - 8);
    StoreChanges(m, c + SAVEDSP, At(m.mem, c + SAVEDSP) - 8);
    StoreChanges(m1, At(m1.mem, c + SAVEDSP), v);
    var r := KoroPush(m, c, v);
    assert At(r.mem, c + SAVEDSP) == At(m1.mem, c + SAVEDSP);
    forall a | a != c + SAVEDSP && a != At(r.mem, c + SAVEDSP)
      ensures SameAt(r.mem, m.mem, a)
    {
      assert At(r.mem, a) == At(m1.mem, a);
    }
  }

  function KoroPushes(m: Machine, c: Word, vs: seq<Word>): Machine
    decreases |vs|
  {
    if vs == [] then m else KoroPushes(KoroPush(m, c, vs[0]), c, vs[1..])
  }

  lemma {:induction false} KoroPushesMove(m: Machine, c: Word, vs: seq<Word>, base: Word)
    requires base <= At(m.mem, c + SAVEDSP) - 8 * |vs| && Apart(base, At(m.mem, c + SAVEDSP) - base, c, RECORD)
    ensures var r := KoroPushes(m, c, vs);
            && At(r.mem, c + SAVEDSP) == At(m.mem, c + SAVEDSP) - 8 * |vs|
            && SameAt(r.mem, m.mem, c + SAVEDPC) && SameFixed(r.mem, m.mem, c)
            && forall a {:trigger Above(m, c, a)} :: Above(m, c, a) ==> SameAt(r.mem, m.mem, a)
    decreases |vs|
  {
    hide KoroPush, At;
    if vs != [] {
      var m1 := KoroPush(m, c, vs[0]);
      KoroPushMoves(m, c, vs[0]);
      KoroPushesMove(m1, c, vs[1..], base);
      var r := KoroPushes(m1, c, vs[1..]);
      assert r == KoroPushes(m, c, vs);
      forall a | Above(m, c, a)
        ensures SameAt(r.mem, m.mem, a)
      {
        assert Above(m1, c, a);
        assert At(m1.mem, a) == At(m.mem, a);
        assert At(r.mem, a) == At(m1.mem, a);
      }
    }
  }

  /** On the coroutine's stack already. */
  predicate Above(m: Machine, c: Word, a: Word) {
    At(m.mem, c + SAVEDSP) <= a && (a < c || c + RECORD <= a)
  }

  /** The k-th of the words that are pushed lies where it was pushed. */
  lemma {:induction false} KoroPushesStore(m: Machine, c: Word, vs: seq<Word>, base: Word, k: nat)
    requires base <= At(m.mem, c + SAVEDSP) - 8 * |vs| && Apart(base, At(m.mem, c + SAVEDSP) - base, c, RECORD)
    requires k < |vs|
    ensures At(KoroPushes(m, c, vs).mem, At(m.mem, c + SAVEDSP) - 8 * (k + 1)) == vs[k]
    decreases |vs|
  {
    hide KoroPush, At;
    var m1 := KoroPush(m, c, vs[0]);
    KoroPushMoves(m, c, vs[0]);
    if k == 0 {
      KoroPushesMove(m1, c, vs[1..], base);
      assert Above(m1, c, At(m1.mem, c + SAVEDSP));
      assert At(KoroPushes(m1, c, vs[1..]).mem, At(m1.mem, c + SAVEDSP)) == vs[0];
    } else {
      KoroPushesStore(m1, c, vs[1..], base, k - 1);
    }
  }

  /** The fields of a new coroutine record. */
  function Record(m: Machine, c: Word, base: Word, size: Word, fn: Word): Machine {
    m.(mem := m.mem[c + STACKSIZE := size][c + STACKBASE := base][c + SAVEDSP := base + size]
                   [c + FN := fn][c + SAVEDPC := fn][c + YIELDSP := 0])
  }

  /** Setting up a coroutine: a dummy return address and six dummy registers go on its stack. */
  function SetUp(m: Machine, c: Word, base: Word, size: Word, fn: Word): Machine {
    KoroPushes(Record(m, c, base, size, fn), c, [-1, 0, 0, 0, 0, 0, 0])
  }

  lemma SetUpStarts(m: Machine, c: Word, base: Word, size: Word, fn: Word)
    requires 56 <= size && Apart(base, size, c, RECORD)
    ensures var r := SetUp(m, c, base, size, fn);
            && AtStart(r, c) && At(r.mem, c + FN) == fn && At(r.mem, c + STACKBASE) == base
                && At(r.mem, c + STACKSIZE) == size
            && SavedAt(r.mem, base + size - 56, Six(0, 0, 0, 0, 0, 0), -1)
  {
    hide KoroPushes;
    var m0, vs := Record(m, c, base, size, fn), [-1, 0, 0, 0, 0, 0, 0];
    KoroPushesMove(m0, c, vs, base);
    assert At(m0.mem, c + SAVEDSP) == base + size;
    hide At, Record;
    KoroPushesStore(m0, c, vs, base, 0);
    KoroPushesStore(m0, c, vs, base, 1);
    KoroPushesStore(m0, c, vs, base, 2);
    KoroPushesStore(m0, c, vs, base, 3);
    KoroPushesStore(m0, c, vs, base, 4);
    KoroPushesStore(m0, c, vs, base, 5);
    KoroPushesStore(m0, c, vs, base, 6);
  }

  /** Every turn returns to the scheduler as a call would: the six registers as they were, the return address
      popped, and the coroutine's word as the result. */
  lemma SchedulerIsRestored(ts: seq<Turn>, c: Word, i: nat)
    requires Turns(ts, c) && i < |ts|
    ensures var (m, r) := (ts[i].entry, ts[i].Back());
            && CalleeSaved(r) == CalleeSaved(m) && r.rsp == m.rsp + 8 && r.pc == At(m.mem, m.rsp)
                && r.rax == ts[i].leave.rsi
            && SameFixed(r.mem, m.mem, c)
  {
    hide Resume, Yield, Return, At;
    var t := ts[i];
    var sp := At(t.entry.mem, c + SAVEDSP);
    ResumeSwitches(t.entry, c, SixAt(t.entry.mem, sp));
    assert SavedAt(t.leave.mem, t.entry.rsp - 48, CalleeSaved(t.entry), At(t.entry.mem, t.entry.rsp));
    if t.yielded {
      YieldSwitches(t.leave, c, CalleeSaved(t.entry), At(t.entry.mem, t.entry.rsp));
    } else {
      ReturnSwitches(t.leave, c, CalleeSaved(t.entry), At(t.entry.mem, t.entry.rsp));
    }
  }

  /** The function and the stack of a coroutine never change. */
  lemma {:induction false} RecordStays(ts: seq<Turn>, c: Word, i: nat)
    requires Turns(ts, c) && i < |ts|
    ensures SameFixed(ts[i].entry.mem, ts[0].entry.mem, c)
    decreases i
  {
    hide Resume, Yield, Return, At, MayResume, MayYield, MayReturn;
    if i > 0 {
      RecordStays(ts, c, i - 1);
      SchedulerIsRestored(ts, c, i - 1);
      var _ := ts[i - 1].Back();
      assert SchedulerRan(ts[i - 1].Back().mem, ts[i].entry.mem, c);
    }
  }

  /** Every turn after a yield goes on where the yield was called, as if that call had returned. */
  lemma CoroutineIsRestored(ts: seq<Turn>, c: Word, i: nat)
    requires Turns(ts, c) && 0 < i < |ts| && ts[i - 1].yielded
    ensures var (m, r) := (ts[i - 1].leave, Resume(ts[i].entry));
            CalleeSaved(r) == CalleeSaved(m) && r.rsp == m.rsp + 8 && r.pc == At(m.mem, m.rsp)
  {
    hide Resume, Yield, Return, At;
    var t := ts[i - 1];
    SchedulerIsRestored(ts, c, i - 1);
    var back := t.Back();
    ResumeSwitches(t.entry, c, SixAt(t.entry.mem, At(t.entry.mem, c + SAVEDSP)));
    YieldSwitches(t.leave, c, CalleeSaved(t.entry), At(t.entry.mem, t.entry.rsp));
    var sp := t.leave.rsp - 40;
    assert SchedulerRan(back.mem, ts[i].entry.mem, c);
    assert SavedAt(ts[i].entry.mem, sp, CalleeSaved(t.leave), At(ts[i].entry.mem, sp + 48));
    ResumeSwitches(ts[i].entry, c, CalleeSaved(t.leave));
  }

  /** The first turn, and every turn after a return, enters the function on an empty stack. */
  lemma EntersFunction(ts: seq<Turn>, c: Word, i: nat)
    requires Turns(ts, c) && i < |ts| && AtStart(ts[0].entry, c) && (i == 0 || !ts[i - 1].yielded)
    ensures var (m, r) := (ts[0].entry, Resume(ts[i].entry));
            r.pc == At(m.mem, c + FN) && r.rsp == At(m.mem, c + STACKBASE) + At(m.mem, c + STACKSIZE) - 8
  {
    hide Resume, Yield, Return, At;
    RecordStays(ts, c, i);
    var m := ts[i].entry;
    if i > 0 {
      var t := ts[i - 1];
      SchedulerIsRestored(ts, c, i - 1);
      ResumeSwitches(t.entry, c, SixAt(t.entry.mem, At(t.entry.mem, c + SAVEDSP)));
      ReturnSwitches(t.leave, c, CalleeSaved(t.entry), At(t.entry.mem, t.entry.rsp));
      var back := t.Back();
      assert SchedulerRan(back.mem, m.mem, c);
    }
    ResumeSwitches(m, c, SixAt(m.mem, At(m.mem, c + SAVEDSP)));
  }
}
