/** What each line of input does to a client and to the file of its train, told by the seats of the record and the cells
    of the file alone. */
module BookingRequests {
  import opened Booking
  import opened BookingInvariant
  import opened BookingInfo

  /** A connected client, and the file of its train or of the train it may get. */
  ghost predicate GoodClient(c: Client, f: TrainFile) {
    ClientOk(c) && c.connected && FileOk(f) && (OnBoard(c) ==> HoldsIn(c, f))
  }

  /** The shift that stands for train t. */
  function ShiftOf(t: nat): string
    requires t < TRAIN_NUM
  {
    ["902001", "902002", "902003", "902004", "902005"][t]
  }

  ghost predicate HasChosen(seats: seq<SeatStat>) {
    exists k :: 0 <= k < |seats| && seats[k] == Chosen
  }

  ghost predicate HasFree(f: TrainFile)
    requires |f.bytes| >= FILE_SIZE
  {
    exists k :: 0 <= k < SEAT_NUM && Cell(f, k) == '0'
  }

  lemma GoodSizes(c: Client, f: TrainFile)
    requires GoodClient(c, f)
    ensures |c.rec.seats| == SEAT_NUM && |f.bytes| == FILE_SIZE && f.pos == 0
  {
  }

  // ---- any state ----

  /** "exit" ends the session and leaves the file alone. */
  lemma ExitIs(c: Client, train: nat, f: TrainFile)
    requires GoodClient(c, f)
    ensures |c.rec.seats| == SEAT_NUM && |f.bytes| == FILE_SIZE
    ensures Handle(c, "exit", train, f) == Effect(ClosedClient(), f, [ClientExit]) && !ClosedClient().connected
  {
  }

  // ---- the choice of a shift ----

  lemma ShiftNumber(n: nat)
    requires n < TRAIN_NUM
    ensures Atoi(ShiftOf(n)) == 902001 + n && ShiftOf(n) != "exit" && IsShiftId(ShiftOf(n))
  {
    var t := ShiftOf(n);
    assert t == "90200" + ['1' + n as char];
    DigitsAppend("90200", '1' + n as char, 0);
    assert DigitsValue("90200", 0) == 90200 by {
      DigitsAppend("9020", '0', 0);
      DigitsAppend("902", '0', 0);
      DigitsAppend("90", '2', 0);
      DigitsAppend("9", '0', 0);
      assert "9"[1..] == "" && "90" == "9" + ['0'] && "902" == "90" + ['2'];
      assert "9020" == "902" + ['0'] && "90200" == "9020" + ['0'];
    }
  }

  /** One of the five shifts gives the client the train exactly when the train has a free seat; otherwise the client
      stays as it is and is told that the shift is fully booked. */
  lemma ShiftIs(c: Client, n: nat, train: nat, f: TrainFile)
    requires GoodClient(c, f) && c.status == Shift && n < TRAIN_NUM && train < TRAIN_NUM
    ensures |c.rec.seats| == SEAT_NUM && |f.bytes| == FILE_SIZE
    ensures var e := Handle(c, ShiftOf(n), train, f); var rec := c.rec.(shiftId := 902001 + n, train := train);
      && (HasFree(f) ==> e == Effect(c.(status := Seat, rec := rec), f, [TrainInfo(rec), SeatPrompt]))
      && (!HasFree(f) ==> e == Effect(c, f, [FullyBooked, ShiftPrompt]))
  {
    hide SeatList, Occupied, Atoi, FileOk, ShiftOf;
    GoodSizes(c, f);
    ShiftNumber(n);
    OccupiedIs(f);
  }

  /** Any other text ends the session. */
  lemma NoShiftIs(c: Client, text: string, train: nat, f: TrainFile)
    requires GoodClient(c, f) && c.status == Shift && text != "exit"
    requires forall n :: 0 <= n < TRAIN_NUM ==> text != ShiftOf(n)
    ensures |c.rec.seats| == SEAT_NUM && |f.bytes| == FILE_SIZE
    ensures Handle(c, text, train, f) == Effect(ClosedClient(), f, [InvalidOp])
  {
    hide SeatList, Occupied, Atoi;
    assert text != ShiftOf(0) && text != ShiftOf(1) && text != ShiftOf(2) && text != ShiftOf(3) && text != ShiftOf(4);
  }

  // ---- seats ----

  /** What becomes of seat k of the client and of its cell when the client enters k. */
  function Entered(was: SeatStat, cell: char): (SeatStat, char) {
    if was == Chosen then (Unknown, '0') else if cell == '0' then (Chosen, '2') else (was, cell)
  }

  /** A seat number gives a chosen seat back, and chooses a free one; for a seat that is paid or that another has chosen
      it changes nothing.  No other seat or cell changes, and the client stays. */
  lemma SeatNumberIs(c: Client, text: string, train: nat, f: TrainFile)
    requires GoodClient(c, f) && c.status == Seat && 1 <= Atoi(text) <= SEAT_NUM
    ensures |c.rec.seats| == SEAT_NUM && |f.bytes| == FILE_SIZE && text != "exit" && text != "pay"
    ensures var (k, e) := (Atoi(text) - 1, Handle(c, text, train, f));
      var (was, cell) := (c.rec.seats[k], Cell(f, k));
      var (now, nowCell) := Entered(was, cell);
      && e.client == c.(rec := c.rec.(seats := c.rec.seats[k := now], chosenCount := e.client.rec.chosenCount))
      && e.file == f.(bytes := f.bytes[2 * k := nowCell])
      && e.client.rec.chosenCount == c.rec.chosenCount +
           (if was == Chosen then -1 else if cell == '0' then 1 else 0)
      && e.msgs == (if was == Chosen then [Cancelled, TrainInfo(e.client.rec), SeatPrompt]
                    else if cell == '0' then [TrainInfo(e.client.rec), SeatPrompt]
                    else if cell == '1' then [SeatTaken, SeatPrompt]
                    else [Locked, SeatPrompt])
  {
    hide SeatList, Atoi, FileOk, WriteSeat, CountStat;
    GoodSizes(c, f);
    NotNumbers();
    FileSize(f);
    var k := Atoi(text) - 1;
    OffsetIs(k + 1);
    WriteSeatIs(f, k + 1, '0');
    WriteSeatIs(f, k + 1, '2');
    FileSize(WriteSeat(f, k + 1, '0'));
    FileSize(WriteSeat(f, k + 1, '2'));
    assert Lseek(f, 0) == f;
    assert c.rec.seats[k := c.rec.seats[k]] == c.rec.seats;
    assert f.bytes[2 * k := Cell(f, k)] == f.bytes;
  }

  lemma NotNumbers()
    ensures Atoi("exit") == 0 && Atoi("pay") == 0 && Atoi("seat") == 0
  {
  }

  /** A text without a number, or 0, ends the session. */
  lemma NoSeatIs(c: Client, text: string, train: nat, f: TrainFile)
    requires GoodClient(c, f) && c.status == Seat && text != "exit" && text != "pay"
    requires Atoi(text) == 0 && SeatInput(c.rec, text)
    ensures |c.rec.seats| == SEAT_NUM && |f.bytes| == FILE_SIZE
    ensures Handle(c, text, train, f) == Effect(ClosedClient(), f, [InvalidOp])
  {
    hide SeatList, Atoi;
  }

  // ---- paying ----

  /** The client is in the booked state after "pay" exactly when it had a chosen seat; then exactly the chosen seats
      become paid, in the record and in the file.  If it had none nothing changes, and it is told so. */
  lemma PaymentIs(c: Client, train: nat, f: TrainFile)
    requires GoodClient(c, f) && c.status == Seat
    ensures |c.rec.seats| == SEAT_NUM && |f.bytes| == FILE_SIZE
    ensures var e := Handle(c, "pay", train, f);
      && |e.client.rec.seats| == SEAT_NUM && FileOk(e.file)
      && e.client.connected && e.client.status == (if HasChosen(c.rec.seats) then Booked else Seat)
      && e.client == c.(status := e.client.status, rec := c.rec.(seats := e.client.rec.seats, chosenCount := 0))
      && (forall k :: 0 <= k < SEAT_NUM ==>
            if c.rec.seats[k] == Chosen then e.client.rec.seats[k] == Paid && Cell(e.file, k) == '1'
            else e.client.rec.seats[k] == c.rec.seats[k] && Cell(e.file, k) == Cell(f, k))
      && (if HasChosen(c.rec.seats) then e.msgs == [BookingDone, TrainInfo(e.client.rec), SeatOrExitPrompt]
          else e == Effect(c, f, [NoSeatToPay, TrainInfo(c.rec), SeatPrompt]))
  {
    hide SeatList, FileOk, PayFrom, CountStat, OnSeat, OnShift;
    GoodSizes(c, f);
    CountStatZero(c.rec.seats, Chosen, SEAT_NUM);
    assert Lseek(f, 0) == f;
    assert Handle(c, "pay", train, f) == OnPay(c, f);
    if c.rec.chosenCount != 0 {
      PayLoop(c, f, 0);
      var d := PayFrom(c, f, 0).0;
      CountStatZero(d.rec.seats, Chosen, SEAT_NUM);
    }
  }

  /** After paying, "seat" leads back to the seats with everything as it was; anything else ends the session. */
  lemma AfterPayingIs(c: Client, text: string, train: nat, f: TrainFile)
    requires GoodClient(c, f) && c.status == Booked && text != "exit"
    ensures |c.rec.seats| == SEAT_NUM && |f.bytes| == FILE_SIZE
    ensures Handle(c, text, train, f) ==
      if text == "seat" then Effect(c.(status := Seat), f, [TrainInfo(c.rec), SeatPrompt])
      else Effect(ClosedClient(), f, [InvalidOp])
  {
    hide SeatList;
  }
}
