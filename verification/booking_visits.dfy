/** What a client's visit comes to over runs: a seat entered twice is as it was, and nobody gets on board a full
    train. */
module BookingVisits {
  import opened Booking
  import opened BookingInvariant
  import opened BookingHistory
  import opened BookingRequests
  import opened BookingSets

  // ---- a seat entered twice ----

  /** Client i enters a seat that is free, others do what they like, and it enters the seat again: then the client is as
      it was and the seat is free again; and if nobody did anything in between the whole server is as it was. */
  lemma EnteredTwice(s: Server, i: nat, text: string, train: nat, es: seq<Event>)
    requires BookInv(s) && i < |s.clients| && s.clients[i].connected && s.clients[i].status == Seat
    requires 1 <= Atoi(text) <= SEAT_NUM && train < TRAIN_NUM
    requires var t := s.clients[i].rec.train;
      0 <= t < TRAIN_NUM && |s.files| == TRAIN_NUM && FileOk(s.files[t]) && Cell(s.files[t], Atoi(text) - 1) == '0'
    requires forall n :: 0 <= n < |es| ==> Actor(es[n]) != i
    ensures var e := Input(i, text, train); Shaped(s) && Possible(s, e)
    ensures var e := Input(i, text, train); var s1 := Next(s, e).0;
      CanRun(s1, es) ==>
        var s2 := After(s1, es);
        && Shaped(s2) && Possible(s2, e)
        && var s3 := Next(s2, e).0; var t := s.clients[i].rec.train;
           && |s3.clients| == |s.clients| && s3.clients[i] == s.clients[i]
           && |s3.files| == TRAIN_NUM && |s3.files[t].bytes| == FILE_SIZE
           && Cell(s3.files[t], Atoi(text) - 1) == '0'
           && (es == [] ==> s3 == s)
  {
    hide BookInv, Atoi, Handle, SeatList, Shaped, After, CanRun, Next, Has;
    var (e, k, t) := (Input(i, text, train), Atoi(text) - 1, s.clients[i].rec.train);
    EnterSeat(s, i, text, train);
    var s1 := Next(s, e).0;
    if CanRun(s1, es) {
      NextKeeps(s, e);
      OnlyTheHolderMoves(s1, es, i);
      var s2 := After(s1, es);
      BookSizes(s1);
      BookSizes(s2);
      EnterSeat(s2, i, text, train);
      FreeNotHeld(s, i, k);
      assert s2.clients[i].rec.seats[k := Unknown] == s.clients[i].rec.seats;
      if es == [] { RunOfNothing(s1); PutBack(s, i, t, k, text, train); }
    }
  }

  lemma RunOfNothing(s: Server)
    ensures CanRun(s, []) && After(s, []) == s
  {
  }

  lemma FreeNotHeld(s: Server, i: nat, k: nat)
    requires BookInv(s) && i < |s.clients| && s.clients[i].status == Seat && k < SEAT_NUM
    requires var t := s.clients[i].rec.train;
      0 <= t < TRAIN_NUM && |s.files| == TRAIN_NUM && FileOk(s.files[t]) && Cell(s.files[t], k) == '0'
    ensures |s.clients[i].rec.seats| == SEAT_NUM && s.clients[i].rec.seats[k] == Unknown
  {
    HoldersOnBoard(s, i);
  }

  /** One seat number as an event. */
  lemma EnterSeat(s: Server, i: nat, text: string, train: nat)
    requires BookInv(s) && i < |s.clients| && s.clients[i].connected && s.clients[i].status == Seat
    requires 1 <= Atoi(text) <= SEAT_NUM && train < TRAIN_NUM
    ensures var e := Input(i, text, train); Shaped(s) && Possible(s, e)
    ensures var (c, k) := (s.clients[i], Atoi(text) - 1); var r := Next(s, Input(i, text, train)).0;
      && |c.rec.seats| == SEAT_NUM && 0 <= c.rec.train < TRAIN_NUM == |s.files|
      && |s.files[c.rec.train].bytes| == FILE_SIZE
      && var (was, cell) := (c.rec.seats[k], Cell(s.files[c.rec.train], k));
         var (now, nowCell) := Entered(was, cell);
         var count := c.rec.chosenCount + if was == Chosen then -1 else if cell == '0' then 1 else 0;
         && r.clients == s.clients[i := c.(rec := c.rec.(seats := c.rec.seats[k := now], chosenCount := count))]
         && r.files == s.files[c.rec.train := s.files[c.rec.train].(
                                  bytes := s.files[c.rec.train].bytes[2 * k := nowCell])]
  {
    hide BookInv, Atoi, Handle, SeatList, GoodClient, Entered;
    InvShaped(s);
    SeatEvent(s, i, text, train);
    var t := s.clients[i].rec.train;
    AtWorkIs(s, i, t);
    SeatNumberIs(s.clients[i], text, train, s.files[t]);
  }

  lemma SeatEvent(s: Server, i: nat, text: string, train: nat)
    requires BookInv(s) && i < |s.clients| && s.clients[i].connected && s.clients[i].status == Seat
    requires 1 <= Atoi(text) <= SEAT_NUM && train < TRAIN_NUM
    ensures Possible(s, Input(i, text, train)) && 0 <= s.clients[i].rec.train < TRAIN_NUM
    ensures AtWork(s, i, s.clients[i].rec.train)
  {
    hide Atoi, Exclusive;
  }

  lemma PutBack(s: Server, i: nat, t: nat, k: nat, text: string, train: nat)
    requires BookInv(s) && i < |s.clients| && s.clients[i].connected && s.clients[i].status == Seat
    requires 1 <= Atoi(text) <= SEAT_NUM && train < TRAIN_NUM && k == Atoi(text) - 1 && t == s.clients[i].rec.train
    requires t < TRAIN_NUM == |s.files| && FileOk(s.files[t]) && Cell(s.files[t], k) == '0'
    ensures var e := Input(i, text, train);
      && Shaped(s) && Possible(s, e) && Shaped(Next(s, e).0) && Possible(Next(s, e).0, e)
      && Next(Next(s, e).0, e).0 == s
  {
    hide BookInv, Atoi, Next, Shaped;
    EnterSeat(s, i, text, train);
    NextKeeps(s, Input(i, text, train));
    var s1 := Next(s, Input(i, text, train)).0;
    EnterSeat(s1, i, text, train);
    FreeNotHeld(s, i, k);
    var s2 := Next(s1, Input(i, text, train)).0;
    var (f, seats) := (s.files[t], s.clients[i].rec.seats);
    assert f.bytes[2 * k := '2'][2 * k := '0'] == f.bytes;
    assert seats[k := Chosen][k := Unknown] == seats;
    assert s2.clients == s.clients && s2.files == s.files;
  }

  // ---- how a client gets on board ----

  /** The event is client i's choice of one of the five shifts, for a train t that has a free seat. */
  ghost predicate Boards(s: Server, e: Event, i: nat, t: nat)
    requires Shaped(s) && Possible(s, e)
  {
    && e.Input? && e.i == i && e.train == t && s.clients[i].status == Shift && HasFree(s.files[t])
    && exists n :: 0 <= n < TRAIN_NUM && e.text == ShiftOf(n)
  }

  ghost predicate EverBoards(s: Server, es: seq<Event>, i: nat, t: nat)
    requires CanRun(s, es)
    decreases |es|
  {
    es != [] && (Boards(s, es[0], i, t) || EverBoards(Next(s, es[0]).0, es[1..], i, t))
  }

  predicate IsOn(s: Server, i: nat, t: nat) {
    i < |s.clients| && OnBoard(s.clients[i]) && s.clients[i].rec.train == t
  }

  lemma BoardingStep(s: Server, e: Event, i: nat, t: nat)
    requires BookInv(s) && Possible(s, e) && t < TRAIN_NUM
    ensures Shaped(s) && (IsOn(Next(s, e).0, i, t) ==> IsOn(s, i, t) || Boards(s, e, i, t))
  {
    hide BookInv, Handle, HasFree, ShiftOf, GoodClient, EffectOk, Atoi;
    InvShaped(s);
    FreshIsOk();
    if e.Input? && e.i == i {
      InputWork(s, i, e.text, e.train);
      var (c, u) := (s.clients[i], FileOf(s.clients[i], e.train));
      AtWorkIs(s, i, u);
      GoodSizes(c, s.files[u]);
      InputEffect(s, i, e.text, e.train);
      FileOfGood(s, u);
      StaysOnTrain(c, s.files[u], Handle(c, e.text, e.train, s.files[u]), u);
      if c.status == Shift && e.text == "exit" {
        ExitIs(c, e.train, s.files[u]);
      } else if c.status == Shift {
        if n: nat :| n < TRAIN_NUM && e.text == ShiftOf(n) { ShiftIs(c, n, e.train, s.files[u]); }
        else { NoShiftIs(c, e.text, e.train, s.files[u]); }
      }
    }
  }

  lemma StaysOnTrain(c: Client, f: TrainFile, e: Effect, train: int)
    requires |c.rec.seats| == SEAT_NUM && FileOk(f) && EffectOk(c, f, e, train)
    ensures OnBoard(e.client) ==> e.client.rec.train == train
  {
  }

  lemma {:induction false} BoardingOverRuns(s: Server, es: seq<Event>, i: nat, t: nat)
    requires BookInv(s) && CanRun(s, es) && t < TRAIN_NUM && IsOn(After(s, es), i, t)
    ensures IsOn(s, i, t) || EverBoards(s, es, i, t)
    decreases |es|
  {
    hide BookInv, Boards, IsOn, Next;
    if es == [] {
    } else {
      NextKeeps(s, es[0]);
      BoardingStep(s, es[0], i, t);
      BoardingOverRuns(Next(s, es[0]).0, es[1..], i, t);
    }
  }

  /** A client that is on board after a run from the start got its train by its own choice of one of the five shifts, at
      a moment at which the train had a free seat. */
  lemma BoardedWithAFreeSeat(s: Server, es: seq<Event>, i: nat)
    requires Start(s) && CanRun(s, es)
    ensures var r := After(s, es);
      i < |r.clients| && OnBoard(r.clients[i]) ==>
        0 <= r.clients[i].rec.train < TRAIN_NUM && EverBoards(s, es, i, r.clients[i].rec.train)
  {
    hide CanRun, After, EverBoards, Exclusive, FileOk;
    StartIsGood(s);
    RunKeeps(s, es);
    var r := After(s, es);
    if i < |r.clients| && OnBoard(r.clients[i]) {
      assert ClientOk(r.clients[i]);
      BoardingOverRuns(s, es, i, r.clients[i].rec.train);
      assert !IsOn(s, i, r.clients[i].rec.train);
    }
  }
}
