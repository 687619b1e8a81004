/** scheduler.c over values, and whole runs.  A run is fixed by the thread arguments and by one boolean for each
    stretch of code that ends at a thread_yield: whether a signal enters the scheduler there. */
module Scheduler {
  import opened Threads

  /** One slot of the loop over the sleeping set. */
  function SleepSlot(s: Sys, i: nat): (r: Sys)
    requires Shape(s) && i <= THREAD_MAX
    ensures Shape(r) && SamePrograms(s, r)
  {
    match s.sleeping[i]
    case None => s
    case Some(t) =>
      var left := s.tcbs[t].sleepingTime - s.timeSlice;
      if left <= 0 then
        SetTcb(s, t, s.tcbs[t].(sleepingTime := left, keepgo := true))
        .(ready := s.ready + [t], sleeping := s.sleeping[i := None])
      else
        SetTcb(s, t, s.tcbs[t].(sleepingTime := left))
  }

  function SleepScan(s: Sys, i: nat): (r: Sys)
    requires Shape(s) && i <= THREAD_MAX
    ensures Shape(r) && SamePrograms(s, r)
    decreases |s.sleeping| - i
  {
    if i == THREAD_MAX then s else SleepScan(SleepSlot(s, i), i + 1)
  }

  predicate CanWake(s: Sys, t: nat)
    requires t < |s.tcbs|
  {
    || (s.tcbs[t].waitingFor == 4 && s.writeCount == 0)
    || (s.tcbs[t].waitingFor == 5 && s.writeCount == 0 && s.readCount == 0)
  }

  /** One slot of the loop over the waiting queue: whichever slot is woken, it is the head that moves. */
  function WaitSlot(s: Sys, i: nat): (r: Sys)
    requires Shape(s) && i < THREAD_MAX
    ensures Shape(r) && SamePrograms(s, r) && r.waiting.tail == s.waiting.tail
  {
    var t := s.waiting.arr[i];
    if CanWake(s, t) then
      s.(ready := s.ready + [t], waiting := s.waiting.(head := (s.waiting.head + 1) % THREAD_MAX))
    else s
  }

  function WaitScan(s: Sys, i: nat): (r: Sys)
    requires Shape(s)
    ensures Shape(r) && SamePrograms(s, r)
    decreases s.waiting.tail - i
  {
    if i >= s.waiting.tail then s else WaitScan(WaitSlot(s, i), i + 1)
  }

  /** A thread that yielded goes to the back of the ready queue; the idle thread does not. */
  function Requeue(s: Sys, status: int): (r: Sys)
    requires Shape(s)
    ensures Shape(r) && SamePrograms(s, r)
  {
    if status == 1 && s.current != 0 then s.(ready := s.ready + [s.current]) else s
  }

  /** The inner loop of dispatching: is this thread in one of the first THREAD_MAX slots of the sleeping set? */
  predicate AsleepSomewhere(sleeping: seq<Option<nat>>, t: nat)
    requires |sleeping| == THREAD_MAX + 1
  {
    exists i :: 0 <= i < THREAD_MAX && sleeping[i] == Some(t)
  }

  function SkipSleepers(ready: seq<nat>, sleeping: seq<Option<nat>>): (r: seq<nat>)
    requires |sleeping| == THREAD_MAX + 1
    ensures forall k :: 0 <= k < |r| ==> r[k] in ready
  {
    if ready != [] && AsleepSomewhere(sleeping, ready[0]) then SkipSleepers(ready[1..], sleeping) else ready
  }

  /** Running: some thread was resumed.  Finished: scheduler() returned. */
  datatype Outcome = Running(sys: Sys) | Finished(sys: Sys)

  predicate AnySleeper(s: Sys)
    requires |s.sleeping| == THREAD_MAX + 1
  {
    exists i :: 0 <= i < THREAD_MAX && s.sleeping[i].Some?
  }

  function Dispatch(s: Sys): (r: Outcome)
    requires Shape(s)
    ensures Shape(r.sys) && SamePrograms(s, r.sys)
  {
    if s.ready == [] then
      if AnySleeper(s) then Running(s.(current := 0)) else Finished(s.(current := 0))
    else
      var ready := SkipSleepers(s.ready, s.sleeping);
      if ready == [] then Running(s.(ready := [], current := 0))
      else
        assert ready[0] in s.ready;
        Running(s.(ready := ready[1..], current := ready[0]))
  }

  /** One pass of scheduler() from the setjmp. */
  function Pass(s: Sys, status: int): (r: Outcome)
    requires Shape(s)
    ensures Shape(r.sys) && SamePrograms(s, r.sys)
  {
    var s1 := SleepScan(s, 0);
    Dispatch(Requeue(WaitScan(s1, s1.waiting.head), status))
  }

  /** The current thread runs one stretch of code; a yield enters the scheduler only when signalled. */
  function Step(s: Sys, signalled: bool): (r: Outcome)
    requires Shape(s)
    ensures Shape(r.sys) && SamePrograms(s, r.sys)
  {
    var (s1, ending) := Segment(s);
    match ending
    case AtYield => if signalled then Pass(s1, 1) else Running(s1)
    case Enter(status) => Pass(s1, status)
  }

  /** The command line: the time slice, the places in the two classes, and the threads in order of creation. */
  datatype Config = Config(timeSlice: int, qp: int, qs: int, programs: seq<Program>)

  predicate ValidConfig(cfg: Config) {
    && cfg.timeSlice >= 1
    && 1 <= |cfg.programs| < THREAD_MAX
    && forall k :: 0 <= k < |cfg.programs| ==>
         && !cfg.programs[k].Idle?
         && (cfg.programs[k].Fibonacci? || cfg.programs[k].Pm? ==> IsInt(cfg.programs[k].n))
         && (cfg.programs[k].Enroll? ==> 0 <= cfg.programs[k].b <= THREAD_MAX)
  }

  function NewTcb(p: Program): Tcb {
    Tcb(p, Start, 0, 0, false, 0, 0, 0, false, false)
  }

  /** The globals after spawn_thread, and with the idle thread that the first pass creates. */
  function Boot(cfg: Config): (r: Sys)
    requires ValidConfig(cfg)
    ensures Shape(r)
  {
    var n := |cfg.programs|;
    Sys(cfg.timeSlice, cfg.qp, cfg.qs,
        [NewTcb(Idle)] + seq(n, k requires 0 <= k < n => NewTcb(cfg.programs[k])),
        seq(n, k => k + 1),
        WaitRing(seq(THREAD_MAX, _ => 0), 0, 0),
        seq(THREAD_MAX + 1, _ => None),
        0, 0, 0, [])
  }

  function Run(o: Outcome, signals: seq<bool>): (r: Outcome)
    requires Shape(o.sys)
    ensures Shape(r.sys) && SamePrograms(o.sys, r.sys)
    decreases |signals|
  {
    hide Step;
    if o.Finished? || signals == [] then o else Run(Step(o.sys, signals[0]), signals[1..])
  }

  /** Where the run of `cfg` under these signals has got to. */
  function Execution(cfg: Config, signals: seq<bool>): (r: Outcome)
    requires ValidConfig(cfg)
    ensures Shape(r.sys) && SamePrograms(Boot(cfg), r.sys)
  {
    Run(Pass(Boot(cfg), 0), signals)
  }
}
