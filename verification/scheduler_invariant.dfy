/** What every reachable scheduler state satisfies, and what a pass over the queues does in such a state. */
module SchedulerInvariant {
  import opened Threads
  import opened Scheduler

  // ---- sets of threads picked out by their control blocks ----

  function Where(q: seq<Tcb>, p: Tcb -> bool): set<nat> {
    set t: nat | t < |q| && p(q[t])
  }

  predicate IsEnroll(c: Tcb) { c.prog.Enroll? }

  predicate IsLive(c: Tcb) { !c.prog.Idle? && c.point != Exited }

  predicate InReadSection(c: Tcb) { c.prog.Enroll? && c.point == Reading && !c.waitedRead }

  predicate InWriteSection(c: Tcb) { c.prog.Enroll? && c.point == Writing && !c.waitedWrite }

  /** The thread has been through read_lock and was counted there. */
  predicate ReadCounted(c: Tcb) {
    c.prog.Enroll? && !c.waitedRead && c.point in {Reading, Choosing, WokenWrite, Writing, Exited}
  }

  /** The thread has been through write_lock and was counted there. */
  predicate WriteCounted(c: Tcb) {
    c.prog.Enroll? && !c.waitedWrite && c.point in {Writing, Exited}
  }

  predicate HasExited(c: Tcb) { c.point == Exited }

  predicate WaitedRead(c: Tcb) { c.waitedRead }

  predicate WaitedWrite(c: Tcb) { c.waitedWrite }

  /** The threads sorted by what they have done about the locks. */
  datatype Roll = Roll(
    inRead: set<nat>, inWrite: set<nat>,
    readCounted: set<nat>, writeCounted: set<nat>,
    waitedRead: set<nat>, waitedWrite: set<nat>,
    exited: set<nat>)

  function RollOf(q: seq<Tcb>): Roll {
    Roll(Where(q, InReadSection), Where(q, InWriteSection), Where(q, ReadCounted), Where(q, WriteCounted),
         Where(q, WaitedRead), Where(q, WaitedWrite), Where(q, HasExited))
  }

  /** The fields of a control block that the sets above look at. */
  predicate SameRole(c: Tcb, d: Tcb) {
    && c.prog == d.prog && c.point == d.point && c.waitingFor == d.waitingFor
    && c.waitedRead == d.waitedRead && c.waitedWrite == d.waitedWrite
  }

  predicate SameRoles(q: seq<Tcb>, r: seq<Tcb>) {
    |q| == |r| && forall t :: 0 <= t < |q| ==> SameRole(q[t], r[t])
  }

  lemma WhereUpdate(q: seq<Tcb>, t: nat, c: Tcb, p: Tcb -> bool)
    requires t < |q|
    ensures Where(q[t := c], p) == if p(c) then Where(q, p) + {t} else Where(q, p) - {t}
  {
  }

  lemma SameRolesSameSets(q: seq<Tcb>, r: seq<Tcb>)
    requires SameRoles(q, r)
    ensures Where(q, IsEnroll) == Where(r, IsEnroll) && Where(q, IsLive) == Where(r, IsLive)
    ensures RollOf(q) == RollOf(r)
  {
  }

  // ---- the parts of the invariant ----

  /** The tail of the waiting queue has not wrapped. */
  predicate Flat(w: WaitRing) { w.head <= w.tail }

  /** The threads in the waiting queue, in order, the ring read round its end. */
  function Waiting(w: WaitRing): seq<nat> {
    if w.head <= w.tail <= |w.arr| then w.arr[w.head..w.tail]
    else if w.tail < w.head <= |w.arr| then w.arr[w.head..] + w.arr[..w.tail]
    else []
  }

  predicate PointFits(c: Tcb) {
    match c.prog
    case Idle => true
    case Fibonacci(_) => c.point in {Start, Repeat, Exited} && !c.waitedRead && !c.waitedWrite
    case Pm(_) => c.point in {Start, Repeat, Exited} && !c.waitedRead && !c.waitedWrite
    case Enroll(_, _, _, _) =>
      && c.point != Repeat
      && (c.waitedRead ==> c.point != Start)
      && (c.point == WokenRead ==> c.waitedRead)
      && (c.waitedWrite ==> c.point in {WokenWrite, Writing, Exited})
      && (c.point == WokenWrite ==> c.waitedWrite)
  }

  predicate WaiterFits(c: Tcb) {
    && c.prog.Enroll?
    && ((c.waitingFor == 4 && c.point == WokenRead) || (c.waitingFor == 5 && c.point == WokenWrite))
  }

  predicate SleeperFits(c: Tcb) {
    c.prog.Enroll? && c.point == Start && !c.keepgo
  }

  ghost predicate Layout(s: Sys) {
    && Shape(s)
    && s.timeSlice >= 1
    && s.tcbs[0].prog.Idle? && PointFits(s.tcbs[0]) && !s.tcbs[0].waitedRead && !s.tcbs[0].waitedWrite
    && (forall t :: 0 < t < |s.tcbs| ==> !s.tcbs[t].prog.Idle? && PointFits(s.tcbs[t]))
    && (forall t :: t in Waiting(s.waiting) && t < |s.tcbs| ==> WaiterFits(s.tcbs[t]))
    && (forall i :: 0 <= i <= THREAD_MAX && s.sleeping[i].Some? ==>
          s.sleeping[i].value == i && 0 < i < |s.tcbs| && SleeperFits(s.tcbs[i]))
  }

  predicate IsAsleep(s: Sys, t: nat) {
    t < |s.sleeping| && s.sleeping[t].Some?
  }

  /** How many times thread t occurs in the ready queue, the waiting queue and the sleeping set, and, when `held`,
      as the current thread. */
  ghost function Places(s: Sys, held: bool, t: nat): nat {
    multiset(s.ready)[t] + multiset(Waiting(s.waiting))[t]
    + (if IsAsleep(s, t) then 1 else 0) + (if held && t != 0 && s.current == t then 1 else 0)
  }

  /** Thread conservation: a thread that has not exited is in exactly one place, once; nothing else is anywhere. */
  ghost predicate Conserved(s: Sys, held: bool) {
    forall t: nat :: Places(s, held, t) == if t in Where(s.tcbs, IsLive) then 1 else 0
  }

  ghost predicate LocksFit(roll: Roll, readCount: int, writeCount: int) {
    && 0 <= writeCount <= 1
    && 0 <= readCount <= |roll.inRead|
    && (writeCount == 1 ==> readCount == 0 && roll.inWrite != {})
  }

  ghost predicate Locks(s: Sys) {
    LocksFit(RollOf(s.tcbs), s.readCount, s.writeCount)
  }

  /** A write lock that was counted has been given up, or is not the only one, or somebody has waited to write. */
  ghost predicate WritersPast(roll: Roll) {
    || |roll.writeCounted| >= 2
    || roll.waitedWrite != {}
    || roll.writeCounted <= roll.exited
  }

  /** Which threads can have waited so far, and so how far the tail of the waiting queue can have moved. */
  ghost predicate HistoryFits(roll: Roll, writeCount: int, waiting: seq<nat>, tail: nat) {
    && tail == |roll.waitedRead| + |roll.waitedWrite|
    && (roll.writeCounted != {} || roll.waitedRead != {} ==> roll.writeCounted * roll.readCounted != {})
    && (writeCount == 0 ==> WritersPast(roll))
    && (forall t :: t in roll.waitedRead && t !in waiting ==> WritersPast(roll))
    && (roll.waitedRead * roll.waitedWrite != {} ==> |roll.readCounted| + |roll.writeCounted| >= 3)
  }

  ghost predicate History(s: Sys) {
    Flat(s.waiting) ==> HistoryFits(RollOf(s.tcbs), s.writeCount, Waiting(s.waiting), s.waiting.tail)
  }

  const SAFE_ENROLLS := 51

  /** What holds whenever the scheduler is entered; `held` says that the current thread is still to be queued. */
  ghost predicate EntryInv(s: Sys, held: bool) {
    && Layout(s) && Conserved(s, held) && Locks(s) && History(s)
    && (|Where(s.tcbs, IsEnroll)| <= SAFE_ENROLLS ==> Flat(s.waiting))
    && (Flat(s.waiting) ==> ReadersWait(s, s.readCount, 0))
  }

  /** If a thread waits to read, this count is that. */
  ghost predicate ReadersWait(s: Sys, count: int, expected: int) {
    forall t :: t in Waiting(s.waiting) && t < |s.tcbs| && s.tcbs[t].waitingFor == 4 ==> count == expected
  }

  ghost predicate SleepersHaveTime(s: Sys)
    requires Shape(s)
  {
    forall i :: 0 < i < |s.tcbs| && s.sleeping[i].Some? ==> s.tcbs[i].sleepingTime > 0
  }

  /** What holds whenever a thread has been resumed. */
  ghost predicate Inv(s: Sys) {
    && EntryInv(s, true)
    && SleepersHaveTime(s)
    && (Flat(s.waiting) ==> ReadersWait(s, s.writeCount, 1))
    && (s.current != 0 ==> IsLive(s.tcbs[s.current]))
  }

  // ---- the scan of the sleeping set ----

  /** A step that leaves the roles, the waiting queue and the counts alone keeps what depends only on them. */
  lemma SameRolesKeep(s: Sys, r: Sys)
    requires Locks(s) && History(s) && SameRoles(s.tcbs, r.tcbs)
    requires r.waiting == s.waiting && r.readCount == s.readCount && r.writeCount == s.writeCount
    ensures Locks(r) && History(r)
    ensures |Where(r.tcbs, IsEnroll)| == |Where(s.tcbs, IsEnroll)|
    ensures Where(r.tcbs, IsLive) == Where(s.tcbs, IsLive)
  {
    SameRolesSameSets(s.tcbs, r.tcbs);
  }

  lemma SleepSlotLayout(s: Sys, i: nat)
    requires Layout(s) && i < THREAD_MAX
    ensures var r := SleepSlot(s, i);
      && Layout(r) && SameRoles(s.tcbs, r.tcbs)
      && r == s.(tcbs := r.tcbs, ready := r.ready, sleeping := r.sleeping)
      && (IsAsleep(r, i) ==> i < |r.tcbs| && r.tcbs[i].sleepingTime > 0)
      && (forall j :: 0 <= j <= THREAD_MAX && j != i ==> r.sleeping[j] == s.sleeping[j])
      && (forall j :: 0 <= j < |s.tcbs| && j != i ==> r.tcbs[j] == s.tcbs[j])
      && (|| (r.ready == s.ready && r.sleeping == s.sleeping)
          || (IsAsleep(s, i) && r.ready == s.ready + [i] && r.sleeping == s.sleeping[i := None]))
  {
    hide PointFits, WaiterFits, SleeperFits, SamePrograms;
    var r := SleepSlot(s, i);
    SleepSlotIs(s, i);
    if i < |s.tcbs| { SameRestFits(s.tcbs[i], r.tcbs[i]); }
    forall t | 0 <= t < |s.tcbs| ensures PointFits(r.tcbs[t]) == PointFits(s.tcbs[t]) {
      if t == i { SameRestFits(s.tcbs[t], r.tcbs[t]); }
    }
    forall t | t in Waiting(s.waiting) && t < |s.tcbs| ensures WaiterFits(r.tcbs[t]) {
      if t == i { SameRestFits(s.tcbs[t], r.tcbs[t]); }
    }
  }

  /** One slot changes only the thread in it: its time, and once it is over its place and keepgo. */
  lemma SleepSlotIs(s: Sys, i: nat)
    requires Shape(s) && i < THREAD_MAX && (IsAsleep(s, i) ==> s.sleeping[i].value == i && i < |s.tcbs|)
    ensures var r := SleepSlot(s, i);
      && r == s.(tcbs := r.tcbs, ready := r.ready, sleeping := r.sleeping)
      && |r.tcbs| == |s.tcbs|
      && (forall j :: 0 <= j < |s.tcbs| && j != i ==> r.tcbs[j] == s.tcbs[j])
      && (i < |s.tcbs| ==> r.tcbs[i] == s.tcbs[i].(sleepingTime := r.tcbs[i].sleepingTime, keepgo := r.tcbs[i].keepgo))
      && (|| (r.ready == s.ready && r.sleeping == s.sleeping
              && (IsAsleep(s, i) ==> r.tcbs[i].sleepingTime > 0 && r.tcbs[i].keepgo == s.tcbs[i].keepgo))
          || (IsAsleep(s, i) && r.ready == s.ready + [i] && r.sleeping == s.sleeping[i := None]))
      && (!IsAsleep(s, i) ==> r == s)
  {
    hide SamePrograms;
  }

  lemma SameRestFits(c: Tcb, d: Tcb)
    requires d == c.(sleepingTime := d.sleepingTime, keepgo := d.keepgo)
    ensures PointFits(d) == PointFits(c) && WaiterFits(d) == WaiterFits(c)
    ensures d.keepgo == c.keepgo ==> SleeperFits(d) == SleeperFits(c)
  {
  }

  lemma SleepSlotPlaces(s: Sys, held: bool, i: nat)
    requires Layout(s) && i < THREAD_MAX
    ensures forall t: nat :: Places(SleepSlot(s, i), held, t) == Places(s, held, t)
  {
    SleepSlotLayout(s, i);
    var r := SleepSlot(s, i);
    hide SleepSlot;
    hide Layout;
  }

  lemma SamePlacesConserved(s: Sys, heldBefore: bool, r: Sys, held: bool)
    requires Conserved(s, heldBefore) && Where(r.tcbs, IsLive) == Where(s.tcbs, IsLive)
    requires forall t: nat :: Places(r, held, t) == Places(s, heldBefore, t)
    ensures Conserved(r, held)
  {
  }

  lemma SleepSlotKeeps(s: Sys, held: bool, i: nat)
    requires EntryInv(s, held) && i < THREAD_MAX
    ensures EntryInv(SleepSlot(s, i), held)
  {
    hide SleepSlot, Locks, History, Conserved, Where, Places;
    var r := SleepSlot(s, i);
    SleepSlotLayout(s, i);
    SleepSlotPlaces(s, held, i);
    SameRolesKeep(s, r);
    SamePlacesConserved(s, held, r, held);
  }

  lemma EntryHasShape(s: Sys, held: bool)
    requires EntryInv(s, held)
    ensures Shape(s) && Layout(s) && |s.tcbs| <= THREAD_MAX
  {
  }

  lemma {:induction false} SleepScanKeeps(s: Sys, held: bool, i: nat)
    requires EntryInv(s, held) && i <= THREAD_MAX
    requires forall j :: 0 < j < |s.tcbs| && j < i && s.sleeping[j].Some? ==> s.tcbs[j].sleepingTime > 0
    ensures var r := SleepScan(s, i);
      && EntryInv(r, held) && SameRoles(s.tcbs, r.tcbs) && SleepersHaveTime(r)
      && r == s.(tcbs := r.tcbs, ready := r.ready, sleeping := r.sleeping)
    decreases THREAD_MAX - i
  {
    hide EntryInv, Layout, SleepSlot, SamePrograms;
    EntryHasShape(s, held);
    if i == THREAD_MAX {
    } else {
      SleepSlotLayout(s, i);
      SleepSlotKeeps(s, held, i);
      SleepScanKeeps(SleepSlot(s, i), held, i + 1);
    }
  }

  // ---- the scan of the waiting queue ----

  lemma {:induction false} WaitScanNone(s: Sys, i: nat)
    requires Shape(s)
    requires forall k :: i <= k < s.waiting.tail ==> !CanWake(s, s.waiting.arr[k])
    ensures WaitScan(s, i) == s
    decreases s.waiting.tail - i
  {
    if i >= s.waiting.tail {
    } else {
      WaitScanNone(s, i + 1);
    }
  }

  lemma SliceHead(q: seq<nat>, front: seq<nat>, i: nat, j: nat)
    requires i < j <= |q|
    ensures front + q[i..j] == (front + [q[i]]) + q[i + 1..j]
  {
    assert q[i..j] == [q[i]] + q[i + 1..j];
  }

  predicate WakesAll(s: Sys) {
    s.writeCount == 0 && s.readCount == 0 && Flat(s.waiting)
  }

  /** When every slot can be woken, moving the head by one for each keeps it on the slot under inspection. */
  lemma {:induction false} WaitScanAll(s: Sys, i: nat)
    requires Shape(s) && i == s.waiting.head <= s.waiting.tail
    requires forall k :: i <= k < s.waiting.tail ==> CanWake(s, s.waiting.arr[k])
    ensures WaitScan(s, i) ==
      s.(ready := s.ready + s.waiting.arr[i..s.waiting.tail], waiting := s.waiting.(head := s.waiting.tail))
    decreases s.waiting.tail - i
  {
    hide SamePrograms, WaitSlot;
    if i < s.waiting.tail {
      var r := WaitSlot(s, i);
      WaitSlotWakes(s, i);
      WaitScanAll(r, i + 1);
      SliceHead(s.waiting.arr, s.ready, i, s.waiting.tail);
    } else {
      assert s.ready + s.waiting.arr[i..s.waiting.tail] == s.ready;
    }
  }

  lemma WaitSlotWakes(s: Sys, i: nat)
    requires Shape(s) && i == s.waiting.head < s.waiting.tail && CanWake(s, s.waiting.arr[i])
    ensures WaitSlot(s, i) == s.(ready := s.ready + [s.waiting.arr[i]], waiting := s.waiting.(head := i + 1))
  {
  }

  /** The scan wakes every waiting thread or none: all exactly when neither lock is held and the queue has not
      wrapped. */
  lemma WaitScanAllOrNone(s: Sys, held: bool)
    requires EntryInv(s, held)
    ensures WaitScan(s, s.waiting.head) ==
      if WakesAll(s) then
        s.(ready := s.ready + Waiting(s.waiting), waiting := s.waiting.(head := s.waiting.tail))
      else s
  {
    hide History, Conserved, Where;
    var w := s.waiting;
    if Flat(w) {
      forall k | w.head <= k < w.tail ensures w.arr[k] in Waiting(w) && WaiterFits(s.tcbs[w.arr[k]]) {
        assert Waiting(w)[k - w.head] == w.arr[k];
      }
    }
    if WakesAll(s) {
      WaitScanAll(s, w.head);
    } else {
      WaitScanNone(s, w.head);
    }
  }

  /** What holds between the scans and the dispatch. */
  ghost predicate ScannedInv(s: Sys, held: bool) {
    && EntryInv(s, held)
    && SleepersHaveTime(s)
    && (Flat(s.waiting) ==> ReadersWait(s, s.writeCount, 1))
    && (Flat(s.waiting) && Waiting(s.waiting) != [] ==> s.writeCount == 1 || s.readCount > 0)
  }

  lemma WokenPlaces(s: Sys, r: Sys, held: bool)
    requires r == s.(ready := s.ready + Waiting(s.waiting), waiting := s.waiting.(head := s.waiting.tail))
    ensures forall t: nat :: Places(r, held, t) == Places(s, held, t)
  {
    assert Waiting(r.waiting) == [];
    assert multiset(r.ready) == multiset(s.ready) + multiset(Waiting(s.waiting));
  }

  lemma WaitingInvolvesWaiters(s: Sys)
    requires Layout(s)
    ensures forall t :: t in Waiting(s.waiting) ==> t < |s.tcbs| && WaiterFits(s.tcbs[t])
  {
    forall t | t in Waiting(s.waiting) ensures t < |s.tcbs| {
      assert t in s.waiting.arr;
    }
  }

  lemma EmptiedKeeps(s: Sys, r: Sys)
    requires Layout(s) && Locks(s) && History(s) && s.writeCount == 0 && Flat(s.waiting)
    requires r == s.(ready := s.ready + Waiting(s.waiting), waiting := s.waiting.(head := s.waiting.tail))
    ensures Locks(r) && History(r)
  {
    hide Where;
  }

  lemma EmptiedLayout(s: Sys, r: Sys)
    requires Layout(s)
    requires r == s.(ready := s.ready + Waiting(s.waiting), waiting := s.waiting.(head := s.waiting.tail))
    ensures Layout(r)
  {
    hide PointFits;
    WaitingInvolvesWaiters(s);
  }

  lemma EmptiedScanned(s: Sys, r: Sys, held: bool)
    requires EntryInv(s, held) && SleepersHaveTime(s) && s.writeCount == 0 && Flat(s.waiting)
    requires r == s.(ready := s.ready + Waiting(s.waiting), waiting := s.waiting.(head := s.waiting.tail))
    ensures ScannedInv(r, held)
  {
    assert Waiting(r.waiting) == [];
    hide Where, Places, Conserved, History, Locks, Layout;
    EmptiedKeeps(s, r);
    EmptiedLayout(s, r);
    WokenPlaces(s, r, held);
    SamePlacesConserved(s, held, r, held);
  }

  lemma WaitScanKeeps(s: Sys, held: bool)
    requires EntryInv(s, held) && SleepersHaveTime(s)
    ensures var r := WaitScan(s, s.waiting.head);
      && ScannedInv(r, held)
      && r == s.(ready := r.ready, waiting := r.waiting)
      && s.ready <= r.ready
  {
    WaitScanAllOrNone(s, held);
    if WakesAll(s) {
      EmptiedScanned(s, WaitScan(s, s.waiting.head), held);
    } else {
      hide WaitScan, Where, Places, Conserved, History, WaiterFits, PointFits;
    }
    hide WaitScan, EntryInv, ScannedInv;
  }

  // ---- queueing the current thread and dispatching ----

  lemma RequeueKeeps(s: Sys, status: int)
    requires ScannedInv(s, status == 1)
    ensures var r := Requeue(s, status);
      ScannedInv(r, false) && r == s.(ready := r.ready) && s.ready <= r.ready
  {
    hide Where, WaiterFits, PointFits, Locks, History;
    var r := Requeue(s, status);
    assert Layout(r);
    forall t: nat ensures Places(r, false, t) == Places(s, status == 1, t) {
      if r.ready != s.ready { assert multiset(r.ready) == multiset(s.ready) + multiset{s.current}; }
    }
    SamePlacesConserved(s, status == 1, r, false);
    SameRolesKeep(s, r);
    hide Layout, Conserved, Places;
  }

  lemma ReadyIsAwake(s: Sys)
    requires Layout(s) && Conserved(s, false)
    ensures forall t :: t in s.ready ==> !IsAsleep(s, t) && t in Where(s.tcbs, IsLive)
    ensures SkipSleepers(s.ready, s.sleeping) == s.ready
  {
    forall t | t in s.ready ensures !IsAsleep(s, t) && t in Where(s.tcbs, IsLive) {
      assert Places(s, false, t) >= 1;
    }
    if s.ready != [] {
      var t := s.ready[0];
      assert t in s.ready;
      assert !AsleepSomewhere(s.sleeping, t);
    }
  }

  /** The threads that a return leaves behind: those in the waiting queue, if it has wrapped. */
  ghost function LeftBehind(s: Sys): set<nat> {
    if Flat(s.waiting) then {} else set t | t in Waiting(s.waiting)
  }

  lemma NobodyWaits(s: Sys)
    requires ScannedInv(s, false) && s.ready == [] && !AnySleeper(s) && Flat(s.waiting)
    ensures Waiting(s.waiting) == []
  {
    WaitingInvolvesWaiters(s);
    hide Conserved, History;
    forall t: nat ensures !IsAsleep(s, t) {}
    if Waiting(s.waiting) != [] {
      var holders := if s.writeCount == 1 then Where(s.tcbs, InWriteSection) else Where(s.tcbs, InReadSection);
      assert holders != {};
      var t :| t in holders;
      assert t in Where(s.tcbs, IsLive);
      PlacedSomewhere(s, t);
      assert false;
    }
  }

  lemma WhoIsLeft(s: Sys)
    requires ScannedInv(s, false) && s.ready == [] && !AnySleeper(s)
    ensures Where(s.tcbs, IsLive) == LeftBehind(s)
    ensures forall t :: t in LeftBehind(s) ==> t < |s.tcbs| && WaiterFits(s.tcbs[t])
  {
    WaitingInvolvesWaiters(s);
    if Flat(s.waiting) { NobodyWaits(s); }
    hide History, Locks, Where;
    forall t: nat ensures !IsAsleep(s, t) {}
    forall t | t in Where(s.tcbs, IsLive) ensures t in LeftBehind(s) {
      PlacedSomewhere(s, t);
    }
    forall t | t in Waiting(s.waiting) ensures t in Where(s.tcbs, IsLive) {
      assert Places(s, false, t) >= 1;
    }
  }

  lemma WrappedIsNotEmpty(w: WaitRing)
    requires |w.arr| == THREAD_MAX && w.head < THREAD_MAX && !Flat(w)
    ensures Waiting(w) != []
  {
  }

  lemma PlacedSomewhere(s: Sys, t: nat)
    requires Conserved(s, false) && t in Where(s.tcbs, IsLive)
    ensures t in s.ready || t in Waiting(s.waiting) || IsAsleep(s, t)
  {
    assert Places(s, false, t) == 1;
  }

  lemma DispatchedPlaces(s: Sys, r: Sys)
    requires Layout(s) && Conserved(s, false)
    requires r == s.(ready := r.ready, current := r.current)
    requires if s.ready == [] then r.ready == [] && r.current == 0 else s.ready == [r.current] + r.ready
    ensures Conserved(r, true)
    ensures s.ready != [] ==> r.current in Where(r.tcbs, IsLive)
  {
    ReadyIsAwake(s);
    forall t: nat ensures Places(r, true, t) == Places(s, false, t) {
      if s.ready != [] {
        assert multiset(s.ready) == multiset{r.current} + multiset(r.ready);
      }
    }
    SamePlacesConserved(s, false, r, true);
  }

  lemma DispatchTakesTheFirst(s: Sys)
    requires Layout(s) && Conserved(s, false)
    ensures Dispatch(s) ==
      if s.ready != [] then Running(s.(ready := s.ready[1..], current := s.ready[0]))
      else if AnySleeper(s) then Running(s.(current := 0)) else Finished(s.(current := 0))
  {
    ReadyIsAwake(s);
    hide Conserved;
  }

  lemma DispatchedLayout(s: Sys, r: Sys)
    requires Layout(s)
    requires r == s.(ready := r.ready, current := r.current)
    requires if s.ready == [] then r.ready == [] && r.current == 0 else s.ready == [r.current] + r.ready
    ensures Layout(r)
  {
    if s.ready != [] { assert r.current == s.ready[0]; }
    assert forall k :: 0 <= k < |r.ready| ==> r.ready[k] == s.ready[k + 1];
    hide WaiterFits, PointFits;
  }

  lemma DispatchedInv(s: Sys, r: Sys)
    requires ScannedInv(s, false)
    requires r == s.(ready := r.ready, current := r.current)
    requires if s.ready == [] then r.ready == [] && r.current == 0 else s.ready == [r.current] + r.ready
    ensures Inv(r) && (s.ready != [] ==> r.current != 0)
  {
    DispatchedPlaces(s, r);
    SameRolesKeep(s, r);
    DispatchedLayout(s, r);
    assert s.ready != [] ==> IsLive(r.tcbs[r.current]) by { hide Locks, History, WaiterFits, PointFits; }
    assert SleepersHaveTime(r);
    hide Locks, History, Places, Conserved, Layout, Where;
  }

  /** When the scheduler returns, the threads that have not exited are those left behind, and they wait for a lock. */
  ghost predicate Ended(s: Sys) {
    && Shape(s) && Where(s.tcbs, IsLive) == LeftBehind(s)
    && (forall t :: t in LeftBehind(s) ==> t < |s.tcbs| && WaiterFits(s.tcbs[t]))
    && (|Where(s.tcbs, IsEnroll)| <= SAFE_ENROLLS ==> Flat(s.waiting))
  }

  lemma DispatchKeeps(s: Sys)
    requires ScannedInv(s, false)
    ensures match Dispatch(s)
      case Running(r) =>
        && Inv(r) && r == s.(ready := r.ready, current := r.current)
        && (if s.ready == [] then r.ready == [] && r.current == 0 && AnySleeper(r)
            else s.ready == [r.current] + r.ready && r.current != 0)
      case Finished(r) => s.ready == [] && r == s.(current := 0) && Ended(r)
  {
    DispatchTakesTheFirst(s);
    hide Dispatch, Inv, Conserved, Locks, History;
    match Dispatch(s) {
      case Finished(r) => WhoIsLeft(s);
      case Running(r) => DispatchedInv(s, r);
    }
  }

  // ---- a whole pass ----

  /** A pass entered in a good state resumes a thread in a good state, or returns with nobody but those left behind.
      It changes no thread's role and no lock count, and it serves the ready queue in order. */
  lemma PassKeeps(s: Sys, status: int)
    requires EntryInv(s, status == 1)
    ensures match Pass(s, status)
      case Running(r) =>
        && Inv(r) && SameRoles(s.tcbs, r.tcbs)
        && r.timeSlice == s.timeSlice && r.qp == s.qp && r.qs == s.qs && r.out == s.out
        && r.readCount == s.readCount && r.writeCount == s.writeCount
        && (s.ready != [] ==> r.current == s.ready[0] && s.ready[1..] <= r.ready)
        && (r.current == 0 ==> AnySleeper(r))
      case Finished(r) =>
        && s.ready == [] && Ended(r) && SameRoles(s.tcbs, r.tcbs) && r.out == s.out
        && r.readCount == s.readCount && r.writeCount == s.writeCount
  {
    hide SleepScan, WaitScan, Requeue, Dispatch, Where, Conserved, Locks, History, WaiterFits, PointFits;
    SleepScanReady(s, 0);
    SleepScanKeeps(s, status == 1, 0);
    var s1 := SleepScan(s, 0);
    WaitScanKeeps(s1, status == 1);
    var s2 := WaitScan(s1, s1.waiting.head);
    RequeueKeeps(s2, status);
    DispatchKeeps(Requeue(s2, status));
  }

  lemma {:induction false} SleepScanReady(s: Sys, i: nat)
    requires Shape(s) && i <= THREAD_MAX
    ensures s.ready <= SleepScan(s, i).ready
    decreases THREAD_MAX - i
  {
    if i == THREAD_MAX {
    } else {
      SleepScanReady(SleepSlot(s, i), i + 1);
    }
  }
}
