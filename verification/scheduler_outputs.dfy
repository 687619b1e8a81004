/** Scheduling is invisible to the routines: what a fibonacci or pm thread prints depends on its argument alone. */
module SchedulerOutputs {
  import opened Threads
  import opened Scheduler
  import opened SchedulerInvariant
  import opened SchedulerSafety
  import opened SchedulerProgress

  // ---- the sequences the routines are named after ----

  function Fib(i: nat): nat {
    if i == 0 then 0 else if i == 1 then 1 else Fib(i - 1) + Fib(i - 2)
  }

  /** pm(i) is the sum of the first i terms of 1, -2, 3, -4, ... */
  function PmSum(i: nat): int {
    if i % 2 == 1 then (i + 1) / 2 else -(i / 2)
  }

  lemma WrapAdd(a: int, b: int)
    ensures Wrap32(Wrap32(a) + Wrap32(b)) == Wrap32(a + b)
    ensures Wrap32(a + Wrap32(b)) == Wrap32(a + b)
  {
    WrapCongruent(a);
    WrapCongruent(b);
    var p := (Wrap32(a) - a) / INT_RANGE;
    var q := (Wrap32(b) - b) / INT_RANGE;
    assert Wrap32(a) == a + p * INT_RANGE && Wrap32(b) == b + q * INT_RANGE;
    WrapShift(a + b, p + q);
    WrapShift(a + b, q);
  }

  lemma WrapCongruent(a: int)
    ensures (Wrap32(a) - a) % INT_RANGE == 0
  {
  }

  lemma WrapShift(a: int, k: int)
    ensures Wrap32(a + k * INT_RANGE) == Wrap32(a)
  {
    assert (a + 0x8000_0000 + k * INT_RANGE) % INT_RANGE == (a + 0x8000_0000) % INT_RANGE;
  }

  lemma {:induction false} FibGrows(i: nat)
    requires i >= 47
    ensures Fib(i) > INT_MAX && Fib(i - 1) > 0
    decreases i
  {
    if i <= 48 {
      FibTable();
      assert i == 48 ==> Fib(48) == Fib(47) + Fib(46);
    } else {
      FibGrows(i - 1);
      FibGrows(i - 2);
    }
  }

  lemma FibTable()
    ensures Fib(46) == 1836311903 && Fib(47) == 2971215073
  {
    assert Fib(10) == 55 && Fib(11) == 89;
    assert Fib(12) == 144 && Fib(13) == 233;
    assert Fib(14) == 377 && Fib(15) == 610;
    assert Fib(16) == 987 && Fib(17) == 1597;
    assert Fib(18) == 2584 && Fib(19) == 4181;
    assert Fib(20) == 6765 && Fib(21) == 10946;
    assert Fib(22) == 17711 && Fib(23) == 28657;
    assert Fib(24) == 46368 && Fib(25) == 75025;
    assert Fib(26) == 121393 && Fib(27) == 196418;
    assert Fib(28) == 317811 && Fib(29) == 514229;
    assert Fib(30) == 832040 && Fib(31) == 1346269;
    assert Fib(32) == 2178309 && Fib(33) == 3524578;
    assert Fib(34) == 5702887 && Fib(35) == 9227465;
    assert Fib(36) == 14930352 && Fib(37) == 24157817;
    assert Fib(38) == 39088169 && Fib(39) == 63245986;
    assert Fib(40) == 102334155 && Fib(41) == 165580141;
    assert Fib(42) == 267914296 && Fib(43) == 433494437;
    assert Fib(44) == 701408733 && Fib(45) == 1134903170;
  }

  lemma {:induction false} FibMonotone(i: nat, j: nat)
    requires i <= j
    ensures Fib(i) <= Fib(j)
    decreases j
  {
    if i >= j {
    } else {
      FibMonotone(i, j - 1);
      assert j >= 2 ==> Fib(j) == Fib(j - 1) + Fib(j - 2);
    }
  }

  /** The int that fibonacci prints in round k: once the counter has wrapped to a negative one, the loop starts anew. */
  function FibValue(k: nat): int {
    if k <= INT_MAX then Wrap32(Fib(k)) else 1
  }

  /** The int that fibonacci prints is the Fibonacci number exactly for the first 46. */
  lemma FibExactUpTo46(i: nat)
    ensures FibValue(i) == Fib(i) <==> i <= 46
  {
    if i <= 46 {
      FibTable();
      FibMonotone(i, 46);
    } else {
      FibGrows(i);
    }
  }

  /** The closed form is the sum, and an int holds it for every i that an int argument allows. */
  lemma PmNext(i: nat)
    requires i >= 1
    ensures PmSum(0) == 0 && PmSum(i) == if i % 2 == 1 then PmSum(i - 1) + i else PmSum(i - 1) - i
    ensures i <= INT_MAX ==> Wrap32(PmSum(i)) == PmSum(i)
  {
    var k := i / 2;
    if i % 2 == 1 {
      PmAtOdd(k);
      PmAtEven(k);
    } else {
      PmAtEven(k);
      PmAtOdd(k - 1);
    }
  }

  lemma PmAtOdd(k: nat)
    ensures PmSum(2 * k + 1) == k + 1
  {
    assert (2 * k + 1) % 2 == 1;
  }

  lemma PmAtEven(k: nat)
    ensures PmSum(2 * k) == -(k as int)
  {
    assert (2 * k) % 2 == 0;
  }

  // ---- the trace of one thread ----

  function Speaker(e: Event): nat {
    match e
    case IdleLine => 0
    case FibLine(t, _, _) => t
    case PmLine(t, _, _) => t
    case SleepLine(t, _) => t
    case AcquireReadLine(t) => t
    case ReleaseReadLine(t, _, _) => t
    case AcquireWriteLine(t) => t
    case ReleaseWriteLine(t) => t
    case ExitLine(t) => t
  }

  /** The lines of thread t in a trace. */
  function Lines(out: seq<Event>, t: nat): seq<Event> {
    if out == [] then []
    else
      var e := out[|out| - 1];
      Lines(out[..|out| - 1], t) + if Speaker(e) == t then [e] else []
  }

  lemma LinesOne(out: seq<Event>, e: Event, t: nat)
    ensures Lines(out + [e], t) == Lines(out, t) + if Speaker(e) == t then [e] else []
  {
    assert (out + [e])[..|out|] == out;
  }

  /** The first k lines of thread t running p by itself. */
  function Solo(p: Program, t: nat, k: nat): seq<Event> {
    if k == 0 then []
    else Solo(p, t, k - 1) + [
      if p.Fibonacci? then FibLine(t, Wrap32(k), FibValue(k)) else PmLine(t, Wrap32(k), Wrap32(PmSum(k)))]
  }

  predicate IsLoop(p: Program) { p.Fibonacci? || p.Pm? }

  /** How many rounds the thread has run. */
  function Rounds(c: Tcb): nat {
    if c.point == Start then 0 else Round(c.i)
  }

  /** What a fibonacci or pm thread keeps between switches, and what it has printed. */
  ghost predicate SpokenFits(c: Tcb, t: nat, out: seq<Event>) {
    && (c.prog.Fibonacci? && c.point == Repeat ==>
          && c.fCur == FibValue(Rounds(c))
          && (2 <= Rounds(c) <= INT_MAX ==> c.fPrev == FibValue(Rounds(c) - 1)))
    && (c.prog.Pm? && c.point == Repeat ==> c.fCur == Wrap32(PmSum(Rounds(c))))
    && Lines(out, t) == Solo(c.prog, t, Rounds(c)) + if c.point == Exited then [ExitLine(t)] else []
  }

  lemma SmallFibs()
    ensures Wrap32(Fib(1)) == 1 && Wrap32(Fib(2)) == 1 && Wrap32(PmSum(1)) == 1 && Wrap32(1) == 1 && Round(1) == 1
  {
  }

  /** The counter of the next round. */
  lemma CounterIs(i: int)
    requires IsInt(i) && Round(i) < INT_RANGE
    ensures var k := Round(i) + 1; var d := Wrap32(i + 1);
      d == Wrap32(k) && Round(d) == k && i == Wrap32(k - 1) && (d <= 2 <==> k <= 2 || k > INT_MAX)
  {
  }

  lemma FibRoundSpeaks(c: Tcb)
    requires c.prog.Fibonacci? && c.point in {Start, Repeat}
    requires c.point == Repeat ==>
      && IsInt(c.i) && Rounds(c) < INT_RANGE && c.fCur == FibValue(Rounds(c))
      && (2 <= Rounds(c) <= INT_MAX ==> c.fPrev == FibValue(Rounds(c) - 1))
    ensures var d := FibRound(c); var k := Rounds(c) + 1;
      && d.i == Wrap32(k) && Round(d.i) == k && d.fCur == FibValue(k)
      && (2 <= k <= INT_MAX ==> d.fPrev == FibValue(k - 1))
      && d == c.(i := d.i, fCur := d.fCur, fPrev := d.fPrev)
  {
    hide Wrap32, Round;
    SmallFibs();
    if c.point == Repeat {
      CounterIs(c.i);
      var k := Rounds(c) + 1;
      if 2 < k <= INT_MAX {
        WrapAdd(Fib(k - 1), Fib(k - 2));
        assert Fib(k) == Fib(k - 1) + Fib(k - 2);
      }
    }
  }

  lemma PmRoundSpeaks(c: Tcb)
    requires c.prog.Pm? && c.point in {Start, Repeat}
    requires c.point == Repeat ==> IsInt(c.i) && Rounds(c) < INT_RANGE && c.fCur == Wrap32(PmSum(Rounds(c)))
    ensures var d := PmRound(c); var k := Rounds(c) + 1;
      && d.i == Wrap32(k) && Round(d.i) == k && d.fCur == Wrap32(PmSum(k))
      && d == c.(i := d.i, fCur := d.fCur, fPrev := d.fPrev)
  {
    hide Wrap32, PmSum, Round;
    SmallFibs();
    if c.point == Repeat {
      CounterIs(c.i);
      var k := Rounds(c) + 1;
      PmNext(k);
      SignedTerm(k, PmSum(k - 1));
    }
  }

  /** Adding or subtracting the wrapped counter is adding or subtracting the round, up to wrapping. */
  lemma SignedTerm(k: int, sum: int)
    ensures var d := Wrap32(k);
      && d % 2 == k % 2
      && Wrap32(d + Wrap32(sum)) == Wrap32(sum + k)
      && Wrap32(-d + Wrap32(sum)) == Wrap32(sum - k)
  {
    WrapCongruent(k);
    var q := (Wrap32(k) - k) / INT_RANGE;
    assert Wrap32(k) == k + q * INT_RANGE;
    Parity(k, q);
    hide Wrap32;
    WrapShift(k + Wrap32(sum), q);
    WrapShift(-k + Wrap32(sum), -q);
    WrapAdd(k, sum);
    WrapAdd(-k, sum);
  }

  lemma Parity(k: int, q: int)
    ensures (k + q * INT_RANGE) % 2 == k % 2
  {
    assert k + q * INT_RANGE == k + 2 * (q * 0x8000_0000);
  }

  lemma FibSegmentValue(s: Sys)
    requires Shape(s) && s.tcbs[s.current].prog.Fibonacci?
    ensures var r := FibSegment(s).0; var d := FibRound(s.tcbs[s.current]); var ends := d.i == d.prog.n;
      && |r.tcbs| == |s.tcbs| && s.current < |s.tcbs|
      && r.tcbs[s.current] == d.(point := if ends then Exited else Repeat)
      && r.out == s.out + [FibLine(s.current, d.i, d.fCur)] + if ends then [ExitLine(s.current)] else []
  {
    hide SamePrograms, Wrap32;
    var r := FibSegment(s).0;
    assert s.out + [FibLine(s.current, FibRound(s.tcbs[s.current]).i, FibRound(s.tcbs[s.current]).fCur)] + [] <= r.out;
  }

  lemma FibSegmentSpeaks(s: Sys)
    requires Shape(s) && s.tcbs[s.current].prog.Fibonacci? && s.tcbs[s.current].point in {Start, Repeat}
    requires SpokenFits(s.tcbs[s.current], s.current, s.out) && LoopFits(s.tcbs[s.current])
    ensures var r := FibSegment(s).0; |r.tcbs| == |s.tcbs| && SpokenFits(r.tcbs[s.current], s.current, r.out)
    ensures Others(s, FibSegment(s).0)
  {
    hide SamePrograms, FibRound, FibSegment, FibValue, Round, Wrap32, Shape, Lines;
    FibSegmentValue(s);
    var t, c := s.current, s.tcbs[s.current];
    FibRoundSpeaks(c);
    var d := FibRound(c);
    var line := FibLine(t, d.i, d.fCur);
    LinesOne(s.out, line, t);
    LinesOne(s.out + [line], ExitLine(t), t);
    assert s.out + [line] + [] == s.out + [line];
    assert Solo(c.prog, t, Rounds(c) + 1) == Solo(c.prog, t, Rounds(c)) + [line];
    OthersHearNothing(s.out, line);
    OthersHearNothing(s.out + [line], ExitLine(t));
  }

  lemma PmSegmentValue(s: Sys)
    requires Shape(s) && s.tcbs[s.current].prog.Pm?
    ensures var r := PmSegment(s).0; var d := PmRound(s.tcbs[s.current]); var ends := d.i == d.prog.n;
      && |r.tcbs| == |s.tcbs| && s.current < |s.tcbs|
      && r.tcbs[s.current] == d.(point := if ends then Exited else Repeat)
      && r.out == s.out + [PmLine(s.current, d.i, d.fCur)] + if ends then [ExitLine(s.current)] else []
  {
    hide SamePrograms, Wrap32;
    var r := PmSegment(s).0;
    assert s.out + [PmLine(s.current, PmRound(s.tcbs[s.current]).i, PmRound(s.tcbs[s.current]).fCur)] + [] <= r.out;
  }

  lemma PmSegmentSpeaks(s: Sys)
    requires Shape(s) && s.tcbs[s.current].prog.Pm? && s.tcbs[s.current].point in {Start, Repeat}
    requires SpokenFits(s.tcbs[s.current], s.current, s.out) && LoopFits(s.tcbs[s.current])
    ensures var r := PmSegment(s).0; |r.tcbs| == |s.tcbs| && SpokenFits(r.tcbs[s.current], s.current, r.out)
    ensures Others(s, PmSegment(s).0)
  {
    hide SamePrograms, PmRound, PmSegment, PmSum, Round, Wrap32, Shape, Lines;
    PmSegmentValue(s);
    var t, c := s.current, s.tcbs[s.current];
    PmRoundSpeaks(c);
    var d := PmRound(c);
    var line := PmLine(t, d.i, d.fCur);
    LinesOne(s.out, line, t);
    LinesOne(s.out + [line], ExitLine(t), t);
    assert s.out + [line] + [] == s.out + [line];
    assert Solo(c.prog, t, Rounds(c) + 1) == Solo(c.prog, t, Rounds(c)) + [line];
    OthersHearNothing(s.out, line);
    OthersHearNothing(s.out + [line], ExitLine(t));
  }

  /** The step adds no line of a thread other than the current one. */
  ghost predicate Others(s: Sys, r: Sys) {
    forall t: nat :: t != s.current ==> Lines(r.out, t) == Lines(s.out, t)
  }

  lemma OthersHearNothing(out: seq<Event>, e: Event)
    ensures forall t: nat :: t != Speaker(e) ==> Lines(out + [e], t) == Lines(out, t)
  {
    forall t: nat | t != Speaker(e) ensures Lines(out + [e], t) == Lines(out, t) {
      LinesOne(out, e, t);
    }
  }

  /** A stretch of enroll, or of the idle thread, prints at most two lines, its own. */
  lemma OtherSegmentsSpeak(s: Sys)
    requires Shape(s) && (s.tcbs[s.current].prog.Idle? ==> s.current == 0) && !IsLoop(s.tcbs[s.current].prog)
    ensures Others(s, Segment(s).0)
  {
    var c, t := s.tcbs[s.current], s.current;
    OthersHearNothing(s.out, IdleLine);
    OthersHearNothing(s.out, AcquireReadLine(t));
    OthersHearNothing(s.out, AcquireWriteLine(t));
    OthersHearNothing(s.out, ReleaseWriteLine(t));
    OthersHearNothing(s.out + [ReleaseWriteLine(t)], ExitLine(t));
    if c.prog.Enroll? {
      OthersHearNothing(s.out, SleepLine(t, c.prog.s));
      OthersHearNothing(s.out, ReleaseReadLine(t, c.prog.dp * s.qp, c.prog.ds * s.qs));
    }
    SegmentAdds(s);
    hide Shape, Segment, Lines;
  }

  /** One of the lines, or pairs of lines, that a stretch of enroll or idle prints. */
  ghost predicate Adds(c: Tcb, s: Sys, out: seq<Event>) {
    var t := s.current;
    || out == s.out
    || (c.prog.Idle? && out == s.out + [IdleLine])
    || out == s.out + [AcquireReadLine(t)]
    || out == s.out + [AcquireWriteLine(t)]
    || out == s.out + [ReleaseWriteLine(t)] + [ExitLine(t)]
    || (c.prog.Enroll? && out == s.out + [SleepLine(t, c.prog.s)])
    || (c.prog.Enroll? && out == s.out + [ReleaseReadLine(t, c.prog.dp * s.qp, c.prog.ds * s.qs)])
  }

  lemma EnrollStartAdds(s: Sys)
    requires Shape(s) && s.tcbs[s.current].prog.Enroll?
    ensures Adds(s.tcbs[s.current], s, EnrollStart(s).0.out)
  {
    hide SamePrograms, PushWaiting;
    assert s.tcbs[s.current].prog.b <= THREAD_MAX;
    var m := Awake(s, s.tcbs[s.current].prog.b);
    assert m.out == s.out && m.current == s.current;
  }

  lemma EnrollLocksAdd(s: Sys)
    requires Shape(s) && s.tcbs[s.current].prog.Enroll?
    ensures Adds(s.tcbs[s.current], s, EnrollReading(s).0.out)
    ensures Adds(s.tcbs[s.current], s, EnrollChoosing(s).0.out)
  {
    hide SamePrograms, PushWaiting;
  }

  lemma EnrollRestAdds(s: Sys)
    requires Shape(s) && s.tcbs[s.current].prog.Enroll?
    ensures Adds(s.tcbs[s.current], s, EnrollWriting(s).0.out)
    ensures Adds(s.tcbs[s.current], s, AfterReadLock(s).0.out)
    ensures Adds(s.tcbs[s.current], s, AfterWriteLock(s).0.out)
  {
    hide SamePrograms, PushWaiting;
  }

  lemma SegmentAdds(s: Sys)
    requires Shape(s) && !IsLoop(s.tcbs[s.current].prog)
    ensures Adds(s.tcbs[s.current], s, Segment(s).0.out)
  {
    hide SamePrograms, EnrollStart, EnrollReading, EnrollChoosing, EnrollWriting, AfterReadLock, AfterWriteLock, Adds;
    IdleAdds(s);
    if s.tcbs[s.current].prog.Enroll? {
      EnrollStartAdds(s);
      EnrollLocksAdd(s);
      EnrollRestAdds(s);
    }
  }

  lemma IdleAdds(s: Sys)
    requires Shape(s)
    ensures Adds(s.tcbs[s.current], s, s.out)
    ensures s.tcbs[s.current].prog.Idle? ==> Adds(s.tcbs[s.current], s, Say(s, IdleLine).out)
  {
  }

  // ---- every run ----

  ghost predicate AllSpokenFits(s: Sys) {
    forall t :: 0 < t < |s.tcbs| && IsLoop(s.tcbs[t].prog) ==> SpokenFits(s.tcbs[t], t, s.out)
  }

  lemma SegmentSpeaks(s: Sys)
    requires Shape(s) && Inv(s) && LoopsFit(s) && AllSpokenFits(s)
    ensures AllSpokenFits(Segment(s).0)
  {
    hide Inv, SpokenFits, Lines, FibSegment, PmSegment, Work, LoopFits;
    CurrentFacts(s);
    SegmentWorks(s);
    var c := s.tcbs[s.current];
    var r := Segment(s).0;
    OtherTcbs(s);
    if s.current != 0 && IsLoop(c.prog) {
      assert SpokenFits(c, s.current, s.out);
      if c.prog.Fibonacci? { FibSegmentSpeaks(s); } else { PmSegmentSpeaks(s); }
    } else {
      OtherSegmentsSpeak(s);
    }
    forall t | 0 < t < |r.tcbs| && IsLoop(r.tcbs[t].prog) ensures SpokenFits(r.tcbs[t], t, r.out) {
      if t != s.current { SameLinesFit(s.tcbs[t], t, s.out, r.out); }
    }
  }

  lemma OtherTcbs(s: Sys)
    requires Shape(s) && Inv(s) && LoopsFit(s)
    ensures var r := Segment(s).0;
      forall t :: 0 <= t < |s.tcbs| && t != s.current && !s.tcbs[t].prog.Enroll? ==> r.tcbs[t] == s.tcbs[t]
  {
    CurrentFacts(s);
    if s.current != 0 {
      hide Inv, Segment, LoopsFit;
      SegmentCurrent(s);
    }
  }

  lemma SameLinesFit(c: Tcb, t: nat, out: seq<Event>, longer: seq<Event>)
    requires SpokenFits(c, t, out) && Lines(longer, t) == Lines(out, t)
    ensures SpokenFits(c, t, longer)
  {
  }

  lemma PassSpeaks(s: Sys, status: int)
    requires EntryInv(s, status == 1) && AllSpokenFits(s)
    ensures AllSpokenFits(Pass(s, status).sys)
  {
    hide Pass, EntryInv, SpokenFits, WorkAt;
    PassWorks(s, status);
    PassKeeps(s, status);
  }

  lemma StepSpeaks(s: Sys, signalled: bool)
    requires Shape(s) && Inv(s) && LoopsFit(s) && AllSpokenFits(s)
    ensures AllSpokenFits(Step(s, signalled).sys)
  {
    hide Segment, Pass, EntryInv, Inv, LoopsFit, AllSpokenFits, Where, Shape;
    SegmentKeeps(s);
    SegmentSpeaks(s);
    EndsWellOpens(Segment(s));
    var (s1, ending) := Segment(s);
    match ending {
      case AtYield => if signalled { PassSpeaks(s1, 1); }
      case Enter(status) => PassSpeaks(s1, status);
    }
  }

  lemma {:induction false} RunSpeaks(o: Outcome, signals: seq<bool>)
    requires Shape(o.sys) && Endable(o) && IdleHasReason(o) && AllSpokenFits(o.sys)
    ensures var r := Run(o, signals); AllSpokenFits(r.sys) && LoopsFit(r.sys) && Good(r)
    decreases |signals|
  {
    hide Step, Inv, IdleHasReason, LoopsFit, AllSpokenFits, Where;
    if o.Finished? || signals == [] {
    } else {
      StepOutcome(o.sys, signals[0]);
      StepSpeaks(o.sys, signals[0]);
      RunSpeaks(Step(o.sys, signals[0]), signals[1..]);
    }
  }

  lemma BootSpeaks(cfg: Config)
    requires ValidConfig(cfg)
    ensures AllSpokenFits(Boot(cfg))
  {
  }

  /** In every run the lines of a fibonacci or pm thread are a prefix of what it prints alone, one line a round, and
      it has exited exactly when they are those of the round in which the counter is n, followed by the exit line;
      whatever the other threads and the signals do. */
  lemma OutputsAsIfAlone(cfg: Config, signals: seq<bool>, t: nat)
    requires ValidConfig(cfg)
    requires 1 <= t <= |cfg.programs| && IsLoop(cfg.programs[t - 1])
    ensures var s := Execution(cfg, signals).sys; var p := cfg.programs[t - 1];
      && t < |s.tcbs| && Rounds(s.tcbs[t]) <= Round(p.n)
      && Lines(s.out, t) ==
           Solo(p, t, Rounds(s.tcbs[t])) + (if s.tcbs[t].point == Exited then [ExitLine(t)] else [])
      && (s.tcbs[t].point == Exited <==> Rounds(s.tcbs[t]) == Round(p.n))
      && (p.n >= 1 ==> Round(p.n) == p.n)
  {
    hide Boot, Pass, Run, Inv, EntryInv, Left, ValidConfig, IdleHasReason, SamePrograms, Where, Lines, Solo, Shape;
    hide Round;
    BootKeeps(cfg);
    BootEndable(cfg);
    PassOutcome(Boot(cfg), 0);
    BootSpeaks(cfg);
    PassSpeaks(Boot(cfg), 0);
    RunSpeaks(Pass(Boot(cfg), 0), signals);
    var s := Execution(cfg, signals).sys;
    BootPrograms(cfg, s);
    assert SpokenFits(s.tcbs[t], t, s.out) && LoopFits(s.tcbs[t]);
    LoopPoint(cfg, signals, t);
    RoundTells(1, cfg.programs[t - 1].n);
  }

  lemma LoopPoint(cfg: Config, signals: seq<bool>, t: nat)
    requires ValidConfig(cfg) && Shape(Execution(cfg, signals).sys)
    requires 1 <= t < |Execution(cfg, signals).sys.tcbs| && IsLoop(Execution(cfg, signals).sys.tcbs[t].prog)
    ensures Execution(cfg, signals).sys.tcbs[t].point in {Start, Repeat, Exited}
  {
    hide Execution, Locks, History, Conserved;
    EveryReachableStateIsGood(cfg, signals);
    var s := Execution(cfg, signals).sys;
    if Execution(cfg, signals).Finished? {
      assert t !in LeftBehind(s);
      assert t !in Where(s.tcbs, IsLive);
    } else {
      assert PointFits(s.tcbs[t]);
    }
  }

  // ---- how long a loop takes ----

  lemma SegmentRounds(s: Sys, t: nat)
    requires Shape(s) && Inv(s) && LoopsFit(s) && 0 < t < |s.tcbs| && IsLoop(s.tcbs[t].prog)
    ensures var r := Segment(s).0;
      |r.tcbs| == |s.tcbs| && Rounds(r.tcbs[t]) <= Rounds(s.tcbs[t]) + 1
  {
    hide Inv, Segment, Round, Wrap32, LoopFits;
    CurrentFacts(s);
    var c := s.tcbs[t];
    if t == s.current {
      assert LoopFits(c);
      LoopRuns(s);
      OneRoundMore(c);
      assert c.point in {Start, Repeat};
    } else {
      OtherTcbs(s);
    }
  }

  lemma OneRoundMore(c: Tcb)
    requires LoopFits(c) && IsLoop(c.prog)
    ensures Round(1) == 1 && (c.point == Repeat ==> Round(Wrap32(c.i + 1)) == Round(c.i) + 1)
  {
    hide Wrap32, Round;
    SmallFibs();
    if c.point == Repeat { NextRound(c.i); }
  }

  lemma StepRounds(s: Sys, signalled: bool, t: nat)
    requires Shape(s) && Inv(s) && LoopsFit(s) && 0 < t < |s.tcbs| && IsLoop(s.tcbs[t].prog)
    ensures var r := Step(s, signalled).sys;
      |r.tcbs| == |s.tcbs| && r.tcbs[t].prog == s.tcbs[t].prog && Rounds(r.tcbs[t]) <= Rounds(s.tcbs[t]) + 1
  {
    hide Segment, Pass, EntryInv, Inv, LoopsFit, Where, Shape, Rounds, WorkAt;
    SegmentKeeps(s);
    SegmentRounds(s, t);
    EndsWellOpens(Segment(s));
    var (s1, ending) := Segment(s);
    match ending {
      case AtYield => if signalled { PassWorks(s1, 1); }
      case Enter(status) => PassWorks(s1, status);
    }
  }

  lemma {:induction false} RunRounds(o: Outcome, signals: seq<bool>, t: nat)
    requires Shape(o.sys) && Endable(o) && IdleHasReason(o) && 0 < t < |o.sys.tcbs| && IsLoop(o.sys.tcbs[t].prog)
    ensures var r := Run(o, signals).sys;
      |r.tcbs| == |o.sys.tcbs| && Rounds(r.tcbs[t]) <= Rounds(o.sys.tcbs[t]) + |signals|
    decreases |signals|
  {
    hide Step, Inv, IdleHasReason, LoopsFit, Where, Rounds;
    if o.Finished? || signals == [] {
    } else {
      StepOutcome(o.sys, signals[0]);
      StepRounds(o.sys, signals[0], t);
      RunRounds(Step(o.sys, signals[0]), signals[1..], t);
    }
  }

  /** A fibonacci or pm thread exits in no run shorter than the rounds that bring its counter to n: n of them, and for
      n < 1, where the counter has to wrap, n + 2^32, which are more than 2^31. */
  lemma LoopTakesItsRounds(cfg: Config, signals: seq<bool>, t: nat)
    requires ValidConfig(cfg)
    requires 1 <= t <= |cfg.programs| && IsLoop(cfg.programs[t - 1])
    ensures var s := Execution(cfg, signals).sys; var n := cfg.programs[t - 1].n;
      && t < |s.tcbs|
      && (s.tcbs[t].point == Exited ==> |signals| >= if n >= 1 then n else n + INT_RANGE)
  {
    hide Boot, Pass, Run, Inv, EntryInv, Left, ValidConfig, IdleHasReason, SamePrograms, Where, Lines, Solo, Shape;
    hide Round;
    BootKeeps(cfg);
    BootEndable(cfg);
    PassOutcome(Boot(cfg), 0);
    BootLoops(cfg, t);
    PassWorks(Boot(cfg), 0);
    RunRounds(Pass(Boot(cfg), 0), signals, t);
    OutputsAsIfAlone(cfg, signals, t);
    IntArgument(cfg, t);
    RoundTells(1, cfg.programs[t - 1].n);
  }

  lemma BootLoops(cfg: Config, t: nat)
    requires ValidConfig(cfg) && 1 <= t <= |cfg.programs|
    ensures var s := Boot(cfg);
      t < |s.tcbs| && s.tcbs[t].prog == cfg.programs[t - 1] && Rounds(s.tcbs[t]) == 0
  {
  }

  lemma IntArgument(cfg: Config, t: nat)
    requires ValidConfig(cfg) && 1 <= t <= |cfg.programs| && IsLoop(cfg.programs[t - 1])
    ensures IsInt(cfg.programs[t - 1].n)
  {
  }
}
