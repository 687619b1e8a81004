/** The order in which a pass makes threads ready: behind those that are ready the sleepers whose time is over, by id,
    then the waiting threads if the scan wakes them, then the thread that yielded. */
module SchedulerOrder {
  import opened Threads
  import opened Scheduler
  import opened SchedulerInvariant
  import opened SchedulerSafety

  /** The sleeper in slot i has no time left after one more time slice. */
  predicate IsDue(s: Sys, i: nat) {
    IsAsleep(s, i) && i < |s.tcbs| && s.tcbs[i].sleepingTime <= s.timeSlice
  }

  /** The sleepers from slot i on that a pass wakes. */
  function Due(s: Sys, i: nat): seq<nat>
    requires i <= THREAD_MAX
    decreases THREAD_MAX - i
  {
    if i == THREAD_MAX then [] else (if IsDue(s, i) then [i] else []) + Due(s, i + 1)
  }

  /** They are listed by id, each once. */
  lemma {:induction false} DueIs(s: Sys, i: nat)
    requires i <= THREAD_MAX
    ensures forall t :: t in Due(s, i) <==> i <= t < THREAD_MAX && IsDue(s, t)
    ensures forall j, k :: 0 <= j < k < |Due(s, i)| ==> Due(s, i)[j] < Due(s, i)[k]
    decreases THREAD_MAX - i
  {
    hide IsDue;
    if i == THREAD_MAX {
    } else {
      DueIs(s, i + 1);
      var rest := Due(s, i + 1);
      assert forall k :: 0 <= k < |rest| ==> rest[k] in rest;
    }
  }

  lemma {:induction false} DueSame(s: Sys, r: Sys, i: nat)
    requires i <= THREAD_MAX && forall k: nat :: i <= k < THREAD_MAX ==> IsDue(s, k) == IsDue(r, k)
    ensures Due(s, i) == Due(r, i)
    decreases THREAD_MAX - i
  {
    if i == THREAD_MAX {
    } else {
      DueSame(s, r, i + 1);
    }
  }

  lemma SlotOrder(s: Sys, i: nat)
    requires Layout(s) && i < THREAD_MAX
    ensures SleepSlot(s, i).ready == s.ready + (if IsDue(s, i) then [i] else [])
    ensures Layout(SleepSlot(s, i)) && Due(SleepSlot(s, i), i + 1) == Due(s, i + 1)
  {
    hide PointFits, WaiterFits, SamePrograms, Due;
    SleepSlotLayout(s, i);
    DueSame(s, SleepSlot(s, i), i + 1);
  }

  lemma {:induction false} SleepScanOrder(s: Sys, i: nat)
    requires Layout(s) && i <= THREAD_MAX
    ensures Shape(s) && SleepScan(s, i).ready == s.ready + Due(s, i)
    decreases THREAD_MAX - i
  {
    hide Layout, SleepSlot, SamePrograms, IsDue;
    InvHasShape(s);
    if i == THREAD_MAX {
    } else {
      SlotOrder(s, i);
      SleepScanOrder(SleepSlot(s, i), i + 1);
    }
  }

  /** The ready queue as a pass fills it. */
  function Queue(s: Sys, status: int): seq<nat> {
    s.ready + Due(s, 0) + (if WakesAll(s) then Waiting(s.waiting) else [])
    + (if status == 1 && s.current != 0 then [s.current] else [])
  }

  /** A pass takes the first of that queue and leaves the rest ready in order; if there is none it resumes the idle
      thread, or returns when nobody sleeps. */
  lemma PassOrder(s: Sys, status: int)
    requires EntryInv(s, status == 1)
    ensures Shape(s)
    ensures match Pass(s, status)
      case Running(r) => Queue(s, status) == if r.current == 0 then [] else [r.current] + r.ready
      case Finished(r) => Queue(s, status) == [] && !AnySleeper(r)
    ensures var r := Pass(s, status).sys; Queue(s, status) == [] ==> r.ready == [] && r.current == 0
  {
    hide SleepScan, WaitScan, Where, Conserved, Locks, History, Layout, Due, Waiting;
    EntryHasShape(s, status == 1);
    SleepScanOrder(s, 0);
    SleepScanKeeps(s, status == 1, 0);
    var s1 := SleepScan(s, 0);
    WaitScanAllOrNone(s1, status == 1);
    WaitScanKeeps(s1, status == 1);
    var s2 := Requeue(WaitScan(s1, s1.waiting.head), status);
    assert s2.ready == Queue(s, status);
    RequeueKeeps(WaitScan(s1, s1.waiting.head), status);
    DispatchOrder(s2);
  }

  lemma DispatchOrder(s: Sys)
    requires ScannedInv(s, false)
    ensures Shape(s)
    ensures match Dispatch(s)
      case Running(r) => s.ready == if r.current == 0 then [] else [r.current] + r.ready
      case Finished(r) => s.ready == [] && !AnySleeper(r)
    ensures s.ready == [] ==> Dispatch(s).sys.ready == [] && Dispatch(s).sys.current == 0
  {
    hide Where, Conserved, Locks, History, WaiterFits, PointFits, Waiting;
    DispatchKeeps(s);
  }

  /** The first pass resumes the thread created first, with the others ready in the order of their creation. */
  lemma FirstPass(cfg: Config)
    requires ValidConfig(cfg)
    ensures var o := Pass(Boot(cfg), 0); var n := |cfg.programs|;
      && o.Running? && o.sys.current == 1 && |o.sys.tcbs| == n + 1
      && o.sys.ready == seq(n - 1, k => k + 2)
      && forall t :: 1 <= t <= n ==> o.sys.tcbs[t].prog == cfg.programs[t - 1]
  {
    hide Pass, EntryInv, Due;
    BootKeeps(cfg);
    PassOrder(Boot(cfg), 0);
    NobodyDue(Boot(cfg), 0);
    var (s, n) := (Boot(cfg), |cfg.programs|);
    assert Waiting(s.waiting) == [];
    var q: seq<nat> := seq(n, k => k + 1);
    assert Queue(s, 0) == q;
    var o := Pass(s, 0);
    assert q[0] == 1 && o.Running?;
    assert q[1..] == o.sys.ready;
    assert forall t :: 1 <= t <= n ==> s.tcbs[t].prog == cfg.programs[t - 1];
  }

  lemma {:induction false} NobodyDue(s: Sys, i: nat)
    requires i <= THREAD_MAX && forall k: nat :: k < THREAD_MAX ==> !IsAsleep(s, k)
    ensures Due(s, i) == []
    decreases THREAD_MAX - i
  {
    if i == THREAD_MAX {
    } else {
      NobodyDue(s, i + 1);
    }
  }
}
