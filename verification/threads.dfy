/** The data and the statement macros of thread_tool.h, and the routines of routine.c, over values.

    A pointer to a thread control block is modelled by the thread's id, which is also its index in `tcbs`;
    index 0 is the idle thread.  The functions below do to a `Sys` value what the macros do to the globals. */
module Threads {
  const THREAD_MAX := 100

  datatype Option<T> = None | Some(value: T)

  /** What a thread runs, with the arguments it was created with. */
  datatype Program =
    | Idle
    | Fibonacci(n: int)
    | Pm(n: int)
    | Enroll(dp: int, ds: int, s: int, b: int)

  /** Where a thread goes on when it is resumed: the place of the last setjmp on its `env`.
      `Repeat` is the yield at the end of the loop of fibonacci and pm.  `WokenRead` and `WokenWrite` are inside
      read_lock and write_lock; `Reading`, `Choosing` and `Writing` are the three yields of enroll. */
  datatype Point = Start | Repeat | WokenRead | Reading | Choosing | WokenWrite | Writing | Exited

  /** A thread control block.  `waitedRead` and `waitedWrite` are history that no step reads: they record that the
      thread was put in the waiting queue by read_lock and by write_lock, so that it was never counted there. */
  datatype Tcb = Tcb(
    prog: Program, point: Point,
    waitingFor: int, sleepingTime: int, keepgo: bool,
    i: int, fCur: int, fPrev: int,
    waitedRead: bool, waitedWrite: bool)

  /** The lines the threads print. */
  datatype Event =
    | IdleLine
    | FibLine(t: nat, i: int, value: int)
    | PmLine(t: nat, i: int, value: int)
    | SleepLine(t: nat, seconds: int)
    | AcquireReadLine(t: nat)
    | ReleaseReadLine(t: nat, pp: int, ps: int)
    | AcquireWriteLine(t: nat)
    | ReleaseWriteLine(t: nat)
    | ExitLine(t: nat)

  /** The waiting queue exactly as it is stored: `tail` is the field that the source calls `size`. */
  datatype WaitRing = WaitRing(arr: seq<nat>, head: nat, tail: nat)

  /** The globals.  The ready queue is the FIFO sequence that its ring holds (see `Kernel`). */
  datatype Sys = Sys(
    timeSlice: int, qp: int, qs: int,
    tcbs: seq<Tcb>,
    ready: seq<nat>,
    waiting: WaitRing,
    sleeping: seq<Option<nat>>,
    readCount: int, writeCount: int,
    current: nat,
    out: seq<Event>)

  ghost predicate Shape(s: Sys) {
    && 1 <= |s.tcbs| <= THREAD_MAX
    && s.current < |s.tcbs|
    && |s.waiting.arr| == THREAD_MAX
    && s.waiting.head < THREAD_MAX && s.waiting.tail < THREAD_MAX
    && |s.sleeping| == THREAD_MAX + 1
    && (forall k :: 0 <= k < |s.ready| ==> s.ready[k] < |s.tcbs|)
    && (forall k :: 0 <= k < THREAD_MAX ==> s.waiting.arr[k] < |s.tcbs|)
    && (forall k :: 0 <= k <= THREAD_MAX && s.sleeping[k].Some? ==> s.sleeping[k].value < |s.tcbs|)
    && (forall t :: 0 <= t < |s.tcbs| && s.tcbs[t].prog.Enroll? ==> 0 <= s.tcbs[t].prog.b <= THREAD_MAX)
  }

  /** No step changes the threads there are, what they run, or the length of the time slice, nor clears keepgo. */
  ghost predicate SamePrograms(s: Sys, r: Sys) {
    && |s.tcbs| == |r.tcbs| && s.timeSlice == r.timeSlice
    && forall t :: 0 <= t < |s.tcbs| ==> s.tcbs[t].prog == r.tcbs[t].prog && (s.tcbs[t].keepgo ==> r.tcbs[t].keepgo)
  }

  const INT_MAX := 0x7fff_ffff
  const INT_RANGE := 0x1_0000_0000

  predicate IsInt(x: int) { -INT_MAX - 1 <= x <= INT_MAX }

  /** Two's-complement wrap-around of a C int. */
  function Wrap32(x: int): int {
    (x + 0x8000_0000) % 0x1_0000_0000 - 0x8000_0000
  }

  function Say(s: Sys, e: Event): (r: Sys)
    requires Shape(s)
    ensures Shape(r) && SamePrograms(s, r)
  {
    s.(out := s.out + [e])
  }

  function SetTcb(s: Sys, t: nat, c: Tcb): (r: Sys)
    requires Shape(s) && t < |s.tcbs| && c.prog == s.tcbs[t].prog && (s.tcbs[t].keepgo ==> c.keepgo)
    ensures Shape(r) && SamePrograms(s, r)
  {
    s.(tcbs := s.tcbs[t := c])
  }

  function PushWaiting(w: WaitRing, t: nat): WaitRing
    requires |w.arr| == THREAD_MAX && w.tail < THREAD_MAX
  {
    WaitRing(w.arr[w.tail := t], w.head, (w.tail + 1) % THREAD_MAX)
  }

  /** How a stretch of a thread's code ends: at a thread_yield, or in the scheduler with the status of the longjmp. */
  datatype Ending = AtYield | Enter(status: int)

  /** read_lock: a thread that has to wait is queued and jumps to the scheduler; only one that has not is counted. */
  function ReadLock(s: Sys): (r: (Sys, bool))
    requires Shape(s)
    ensures Shape(r.0) && SamePrograms(s, r.0)
  {
    if s.writeCount != 0 then
      var c := s.tcbs[s.current].(point := WokenRead, waitingFor := 4, waitedRead := true);
      (SetTcb(s, s.current, c).(waiting := PushWaiting(s.waiting, s.current)), true)
    else
      (s.(readCount := s.readCount + 1), false)
  }

  function WriteLock(s: Sys): (r: (Sys, bool))
    requires Shape(s)
    ensures Shape(r.0) && SamePrograms(s, r.0)
  {
    if s.writeCount != 0 || s.readCount != 0 then
      var c := s.tcbs[s.current].(point := WokenWrite, waitingFor := 5, waitedWrite := true);
      (SetTcb(s, s.current, c).(waiting := PushWaiting(s.waiting, s.current)), true)
    else
      (s.(writeCount := 1), false)
  }

  function ReadUnlock(s: Sys): (r: Sys)
    requires Shape(s)
    ensures Shape(r) && SamePrograms(s, r)
  {
    if s.readCount > 0 then s.(readCount := s.readCount - 1) else s
  }

  function WriteUnlock(s: Sys): (r: Sys)
    requires Shape(s)
    ensures Shape(r) && SamePrograms(s, r)
  {
    if s.writeCount == 1 then s.(writeCount := 0) else s
  }

  /** thread_sleep: the resume point stays where it was, at thread_setup. */
  function Sleep(s: Sys, seconds: int): (r: Sys)
    requires Shape(s)
    ensures Shape(r) && SamePrograms(s, r)
  {
    var c := s.tcbs[s.current].(sleepingTime := seconds);
    SetTcb(s, s.current, c).(sleeping := s.sleeping[s.current := Some(s.current)])
  }

  function Awake(s: Sys, b: nat): (r: Sys)
    requires Shape(s) && b <= THREAD_MAX
    ensures Shape(r) && SamePrograms(s, r)
  {
    match s.sleeping[b]
    case None => s
    case Some(t) =>
      SetTcb(s, t, s.tcbs[t].(keepgo := true)).(ready := s.ready + [t], sleeping := s.sleeping[b := None])
  }

  function MoveTo(s: Sys, p: Point): (r: Sys)
    requires Shape(s)
    ensures Shape(r) && SamePrograms(s, r)
  {
    SetTcb(s, s.current, s.tcbs[s.current].(point := p))
  }

  /** thread_exit. */
  function Exit(s: Sys): (r: Sys)
    requires Shape(s)
    ensures Shape(r) && SamePrograms(s, r)
  {
    MoveTo(Say(s, ExitLine(s.current)), Exited)
  }

  /** One round of the loop of fibonacci: the increment of i (or its initialisation) and the body. */
  function FibRound(c: Tcb): Tcb {
    var i := if c.point.Start? then 1 else Wrap32(c.i + 1);
    if i <= 2 then c.(i := i, fCur := 1, fPrev := 1)
    else c.(i := i, fCur := Wrap32(c.fCur + c.fPrev), fPrev := c.fCur)
  }

  function PmRound(c: Tcb): Tcb {
    var i := if c.point.Start? then 1 else Wrap32(c.i + 1);
    if i == 1 then c.(i := i, fCur := 1, fPrev := 1)
    else c.(i := i, fCur := Wrap32((if i % 2 == 1 then 1 else -1) * i + c.fCur), fPrev := c.fCur)
  }

  function FibSegment(s: Sys): (r: (Sys, Ending))
    requires Shape(s)
    ensures Shape(r.0) && SamePrograms(s, r.0)
  {
    var t := s.current;
    var c := FibRound(s.tcbs[t]);
    var s1 := Say(SetTcb(s, t, c), FibLine(t, c.i, c.fCur));
    if c.prog.Fibonacci? && c.i == c.prog.n then (Exit(s1), Enter(3)) else (MoveTo(s1, Repeat), AtYield)
  }

  function PmSegment(s: Sys): (r: (Sys, Ending))
    requires Shape(s)
    ensures Shape(r.0) && SamePrograms(s, r.0)
  {
    var t := s.current;
    var c := PmRound(s.tcbs[t]);
    var s1 := Say(SetTcb(s, t, c), PmLine(t, c.i, c.fCur));
    if c.prog.Pm? && c.i == c.prog.n then (Exit(s1), Enter(3)) else (MoveTo(s1, Repeat), AtYield)
  }

  /** The part of enroll that follows read_lock, up to the yield. */
  function AfterReadLock(s: Sys): (r: (Sys, Ending))
    requires Shape(s)
    ensures Shape(r.0) && SamePrograms(s, r.0)
  {
    (MoveTo(Say(s, AcquireReadLine(s.current)), Reading), AtYield)
  }

  function AfterWriteLock(s: Sys): (r: (Sys, Ending))
    requires Shape(s)
    ensures Shape(r.0) && SamePrograms(s, r.0)
  {
    (MoveTo(Say(s, AcquireWriteLine(s.current)), Writing), AtYield)
  }

  /** enroll from thread_setup: a first visit sleeps; a visit with keepgo set goes on to the read lock. */
  function EnrollStart(s: Sys): (r: (Sys, Ending))
    requires Shape(s) && s.tcbs[s.current].prog.Enroll?
    ensures Shape(r.0) && SamePrograms(s, r.0)
  {
    var c := s.tcbs[s.current];
    if !c.keepgo then
      (Sleep(Say(s, SleepLine(s.current, c.prog.s)), c.prog.s + s.timeSlice), Enter(2))
    else
      var (s1, blocked) := ReadLock(Awake(s, c.prog.b));
      if blocked then (s1, Enter(4)) else AfterReadLock(s1)
  }

  function EnrollReading(s: Sys): (r: (Sys, Ending))
    requires Shape(s) && s.tcbs[s.current].prog.Enroll?
    ensures Shape(r.0) && SamePrograms(s, r.0)
  {
    var c := s.tcbs[s.current];
    var s1 := Say(ReadUnlock(s), ReleaseReadLine(s.current, c.prog.dp * s.qp, c.prog.ds * s.qs));
    (MoveTo(s1, Choosing), AtYield)
  }

  function EnrollChoosing(s: Sys): (r: (Sys, Ending))
    requires Shape(s)
    ensures Shape(r.0) && SamePrograms(s, r.0)
  {
    var (s1, blocked) := WriteLock(s);
    if blocked then (s1, Enter(5)) else AfterWriteLock(s1)
  }

  function EnrollWriting(s: Sys): (r: (Sys, Ending))
    requires Shape(s)
    ensures Shape(r.0) && SamePrograms(s, r.0)
  {
    (Exit(Say(WriteUnlock(s), ReleaseWriteLine(s.current))), Enter(3))
  }

  /** The current thread runs from its resume point to its next yield or jump to the scheduler.
      A point that the thread's routine does not have is never reached (see `SchedulerInvariant`). */
  function Segment(s: Sys): (r: (Sys, Ending))
    requires Shape(s)
    ensures Shape(r.0) && SamePrograms(s, r.0)
  {
    var c := s.tcbs[s.current];
    match c.prog
    case Idle => (Say(s, IdleLine), AtYield)
    case Fibonacci(_) => FibSegment(s)
    case Pm(_) => PmSegment(s)
    case Enroll(_, _, _, _) =>
      match c.point
      case Start => EnrollStart(s)
      case WokenRead => AfterReadLock(s)
      case Reading => EnrollReading(s)
      case Choosing => EnrollChoosing(s)
      case WokenWrite => AfterWriteLock(s)
      case Writing => EnrollWriting(s)
      case _ => (s, AtYield)
  }
}
