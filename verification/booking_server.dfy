/** server.c as it is written: the tables of requests and records, and the train files with their positions, changed in
    place.  `Model` is the value they stand for; every method does to it what the function of `Booking` does. */
module BookingServer {
  import opened Booking
  import opened BookingInvariant
  import opened BookingHistory
  import opened BookingRequests
  import opened BookingSets

  class SeatServer {
    const clients: array<Client>
    const files: array<TrainFile>

    ghost function Model(): Server
      reads this, clients, files
    {
      Server(clients[..], files[..])
    }

    /** No client yet, and the train files as they are found. */
    constructor (maxfd: nat, found: seq<TrainFile>)
      requires |found| == TRAIN_NUM && forall t :: 0 <= t < TRAIN_NUM ==> FileOk(found[t])
      ensures fresh(clients) && fresh(files)
      ensures Start(Model()) && Model().files == found && clients.Length == maxfd
    {
      clients := new Client[maxfd](_ => ClosedClient());
      files := new TrainFile[TRAIN_NUM](t requires 0 <= t < |found| => found[t]);
    }

    // ---- the files ----

    /** checkCurr. */
    method CheckSeat(train: nat, seat: nat) returns (curr: int)
      requires train < files.Length && 1 <= seat && Offset(seat) < |files[train].bytes|
      modifies files
      ensures files[..] == old(files[..])[train := CheckCurr(old(files[train]), seat).0]
      ensures curr == CheckCurr(old(files[train]), seat).1
    {
      var row, col := (seat - 1) / 4, (seat - 1) % 4;
      files[train] := Lseek(files[train], row * 8 + col * 2);
      var c := files[train].bytes[files[train].pos];
      files[train] := Lseek(files[train], 0);
      if c == '0' { curr := 0; }
      else if c == '1' { curr := 1; }
      else if c == '2' { curr := 2; }
      else { curr := -1; }
    }

    /** occupied. */
    method IsOccupied(train: nat) returns (full: int)
      requires train < files.Length
      modifies files
      ensures files[..] == old(files[..])[train := Occupied(old(files[train])).0]
      ensures full == Occupied(old(files[train])).1
    {
      var f := files[train];
      var from := Min(f.pos, |f.bytes|);
      var tbuf := f.bytes[from..Min(from + 1023, |f.bytes|)];
      files[train] := Lseek(f, 0);
      var i := 0;
      while i < |tbuf| && tbuf[i] != '\0'
        invariant i <= |tbuf|
        invariant '0' in CString(tbuf) <==> '0' in CString(tbuf[i..])
      {
        if tbuf[i] == '0' { return 0; }
        assert tbuf[i..][1..] == tbuf[i + 1..];
        i := i + 1;
      }
      full := 1;
    }

    /** Seek to the seat, write one byte, seek back. */
    method PutSeat(train: nat, seat: nat, c: char)
      requires train < files.Length && 1 <= seat
      modifies files
      ensures files[..] == old(files[..])[train := WriteSeat(old(files[train]), seat, c)]
    {
      var row, col := (seat - 1) / 4, (seat - 1) % 4;
      files[train] := Lseek(files[train], row * 8 + col * 2);
      files[train] := WriteByte(files[train], c);
      files[train] := Lseek(files[train], 0);
    }

    // ---- requests ----

    /** print_train_info: the two loops that build the lists. */
    method PrintTrainInfo(i: nat) returns (m: Msg)
      requires i < clients.Length && |clients[i].rec.seats| == SEAT_NUM
      ensures m == TrainInfo(clients[i].rec)
    {
      var chosen := ListOf(clients[i].rec.seats, Chosen);
      var paid := ListOf(clients[i].rec.seats, Paid);
      m := Info(clients[i].rec.shiftId, chosen, paid);
    }

    static method ListOf(seats: seq<SeatStat>, which: SeatStat) returns (text: string)
      requires |seats| == SEAT_NUM
      ensures text == SeatList(seats, which, SEAT_NUM)
    {
      text := "";
      var first := true;
      var i := 0;
      while i < SEAT_NUM
        invariant i <= SEAT_NUM && text == SeatList(seats, which, i) && (first <==> text == "")
      {
        var tmp := "";
        if seats[i] == which {
          DecimalNonEmpty(i + 1);
          if first {
            first := false;
            tmp := Decimal(i + 1);
          } else {
            tmp := "," + Decimal(i + 1);
          }
        }
        assert text + tmp == SeatList(seats, which, i + 1);
        text := text + tmp;
        i := i + 1;
      }
    }

    /** close, free_record and free_request. */
    method Close(i: nat)
      requires i < clients.Length
      modifies clients
      ensures clients[..] == old(clients[..])[i := ClosedClient()]
    {
      clients[i] := ClosedClient();
    }

    /** accept_conn, and the greeting. */
    method Accept(i: nat) returns (msgs: seq<Msg>)
      requires Shaped(Model()) && Possible(Model(), Connect(i))
      modifies clients
      ensures (Model(), msgs) == Next(old(Model()), Connect(i))
    {
      clients[i] := clients[i].(connected := true);
      clients[i] := clients[i].(status := Shift);
      msgs := [Welcome, ShiftPrompt];
      assert clients[..] == old(clients[..])[i := clients[i]];
    }

    method ShiftRequest(i: nat, text: string, train: nat) returns (msgs: seq<Msg>)
      requires Shaped(Model()) && i < clients.Length && train < TRAIN_NUM
      modifies clients, files
      ensures var e := OnShift(old(clients[i]), text, train, old(files[train]));
        Model() == Put(old(Model()), i, train, e) && msgs == e.msgs
      ensures GoodClient(old(clients[i]), old(files[train])) && IsShiftId(text) ==>
        if HasFree(old(files[train])) then
          clients[i].status == Seat && clients[i].rec.train == train && clients[i].rec.shiftId == Atoi(text)
        else clients[i] == old(clients[i]) && msgs == [FullyBooked, ShiftPrompt]
    {
      if GoodClient(clients[i], files[train]) { OccupiedIs(files[train]); }
      if !IsShiftId(text) {
        Close(i);
        return [InvalidOp];
      }
      var full := IsOccupied(train);
      if full != 0 {
        return [FullyBooked, ShiftPrompt];
      }
      full := IsOccupied(train);
      clients[i] := clients[i].(rec := clients[i].rec.(shiftId := Atoi(text)));
      clients[i] := clients[i].(rec := clients[i].rec.(train := train));
      clients[i] := clients[i].(status := Seat);
      var info := PrintTrainInfo(i);
      msgs := [info, SeatPrompt];
    }

    /** One turn of the paying loop. */
    method PayTurn(i: nat, t: nat, j: nat)
      requires i < clients.Length && t < files.Length && j < SEAT_NUM == |clients[i].rec.seats|
      modifies clients, files
      ensures |clients[i].rec.seats| == SEAT_NUM
      ensures (clients[i], files[t]) == PaySeat(old(clients[i]), old(files[t]), j)
      ensures clients[..] == old(clients[..])[i := clients[i]] && files[..] == old(files[..])[t := files[t]]
    {
      if clients[i].rec.seats[j] == Chosen {
        clients[i] := clients[i].(rec := clients[i].rec.(seats := clients[i].rec.seats[j := Paid]));
        clients[i] := clients[i].(status := Booked);
        clients[i] := clients[i].(rec := clients[i].rec.(chosenCount := clients[i].rec.chosenCount - 1));
        PutSeat(t, j + 1, '1');
      }
    }

    /** The paying branch. */
    method PayRequest(i: nat) returns (msgs: seq<Msg>)
      requires Shaped(Model()) && i < clients.Length && 0 <= clients[i].rec.train < TRAIN_NUM
      modifies clients, files
      ensures var t := old(clients[i].rec.train);
        var e := OnPay(old(clients[i]), old(files[t]));
        Model() == Put(old(Model()), i, t, e) && msgs == e.msgs
      ensures GoodClient(old(clients[i]), old(files[clients[i].rec.train])) && old(clients[i]).status == Seat ==>
        if HasChosen(old(clients[i].rec.seats)) then clients[i].status == Booked && msgs[0] == BookingDone
        else clients[i] == old(clients[i]) && msgs[0] == NoSeatToPay
    {
      hide PaySeat, OnSeat, OnShift, GoodClient, SeatList;
      if GoodClient(clients[i], files[clients[i].rec.train]) && clients[i].status == Seat {
        PaymentIs(clients[i], 0, files[clients[i].rec.train]);
      }
      if clients[i].rec.chosenCount == 0 {
        var info := PrintTrainInfo(i);
        return [NoSeatToPay, info, SeatPrompt];
      }
      var t := clients[i].rec.train;
      files[t] := Lseek(files[t], 0);
      ghost var goal := PayFrom(clients[i], files[t], 0);
      var j := 0;
      while j < SEAT_NUM
        invariant j <= SEAT_NUM && |clients[i].rec.seats| == SEAT_NUM
        invariant PayFrom(clients[i], files[t], j) == goal
        invariant clients[..] == old(clients[..])[i := clients[i]] && files[..] == old(files[..])[t := files[t]]
      {
        PayTurn(i, t, j);
        j := j + 1;
      }
      var info := PrintTrainInfo(i);
      msgs := [BookingDone, info, SeatOrExitPrompt];
    }

    /** The branch that adds or cancels a seat. */
    method SeatRequest(i: nat, text: string) returns (msgs: seq<Msg>)
      requires Shaped(Model()) && i < clients.Length && 0 <= clients[i].rec.train < TRAIN_NUM
      requires SeatInput(clients[i].rec, text)
      modifies clients, files
      ensures var t := old(clients[i].rec.train);
        var e := OnSeat(old(clients[i]), text, old(files[t]));
        Model() == Put(old(Model()), i, t, e) && msgs == e.msgs
    {
      hide SeatList, Atoi, WriteSeat;
      var seat := Atoi(text);
      var t := clients[i].rec.train;
      if AddOrCancel(clients[i].rec, seat) != 0 {
        if seat == 0 {
          Close(i);
          return [InvalidOp];
        }
        OffsetIs(seat);
        var curr := CheckSeat(t, seat);
        if curr == 0 {
          clients[i] := clients[i].(rec := clients[i].rec.(seats := clients[i].rec.seats[seat - 1 := Chosen]));
          clients[i] := clients[i].(rec := clients[i].rec.(chosenCount := clients[i].rec.chosenCount + 1));
          PutSeat(t, seat, '2');
          var info := PrintTrainInfo(i);
          msgs := [info];
        } else if curr == 1 {
          msgs := [SeatTaken];
        } else if curr == 2 {
          msgs := [Locked];
        } else {
          Close(i);
          return [];
        }
      } else {
        clients[i] := clients[i].(rec := clients[i].rec.(seats := clients[i].rec.seats[seat - 1 := Unknown]));
        clients[i] := clients[i].(rec := clients[i].rec.(chosenCount := clients[i].rec.chosenCount - 1));
        PutSeat(t, seat, '0');
        var info := PrintTrainInfo(i);
        msgs := [Cancelled, info];
      }
      msgs := msgs + [SeatPrompt];
    }

    method BookedRequest(i: nat, text: string) returns (msgs: seq<Msg>)
      requires Shaped(Model()) && i < clients.Length && 0 <= clients[i].rec.train < TRAIN_NUM
      modifies clients
      ensures var t := old(clients[i].rec.train);
        var e := OnBooked(old(clients[i]), text, old(files[t]));
        Model() == Put(old(Model()), i, t, e) && msgs == e.msgs
    {
      if text == "seat" {
        clients[i] := clients[i].(status := Seat);
        var info := PrintTrainInfo(i);
        return [info, SeatPrompt];
      }
      Close(i);
      msgs := [InvalidOp];
    }

    /** One line of input of one client. */
    method Request(i: nat, text: string, train: nat) returns (msgs: seq<Msg>)
      requires Shaped(Model()) && Possible(Model(), Input(i, text, train))
      modifies clients, files
      ensures (Model(), msgs) == OnInput(old(Model()), i, text, train)
      ensures old(BookInv(Model())) ==>
        BookInv(Model()) && (BoardOf(Model()), RepliesOf(msgs)) == BoardInput(BoardOf(old(Model())), i, text, train)
    {
      hide OnShift, OnPay, OnSeat, OnBooked, BookInv, BoardInput, BoardOf, RepliesOf, GoodClient, HasFree, HasChosen;
      if BookInv(Model()) { InputRefines(Model(), i, text, train); }
      if text == "exit" {
        Close(i);
        msgs := [ClientExit];
        assert files[..] == old(files[..])[FileOf(old(clients[i]), train) := old(files[FileOf(clients[i], train)])];
      } else if clients[i].status == Shift {
        msgs := ShiftRequest(i, text, train);
      } else if clients[i].status == Booked {
        msgs := BookedRequest(i, text);
      } else if text == "pay" {
        msgs := PayRequest(i);
      } else {
        msgs := SeatRequest(i, text);
      }
    }

    /** Whatever happens next. */
    method Handle(e: Event) returns (msgs: seq<Msg>)
      requires Shaped(Model()) && Possible(Model(), e)
      modifies clients, files
      ensures (Model(), msgs) == Next(old(Model()), e)
    {
      hide OnInput, Shaped;
      match e {
        case Connect(i) => msgs := Accept(i);
        case Disconnect(i) =>
          Close(i);
          msgs := [];
        case Input(i, text, train) => msgs := Request(i, text, train);
      }
    }

    /** The loop of the server over everything that happens: it does what the run of the events says, so whatever is
        proved of all runs is so of the tables and files. */
    method Serve(es: seq<Event>) returns (log: seq<seq<Msg>>)
      requires BookInv(Model()) && CanRun(Model(), es)
      modifies clients, files
      ensures Model() == After(old(Model()), es) && BookInv(Model())
      ensures log == Answers(old(Model()), es)
      ensures forall n :: 0 <= n < |es| ==> Concerns(clients.Length, es[n])
      ensures BoardOf(Model()) == BoardAfter(BoardOf(old(Model())), es)
      ensures LogOf(log) == BoardReplies(BoardOf(old(Model())), es)
    {
      RunRefines(Model(), es);
      hide BookInv, Next, Shaped, Possible;
      log := [];
      var n := 0;
      while n < |es|
        invariant n <= |es|
        invariant BookInv(Model()) && CanRun(Model(), es[n..])
        invariant After(Model(), es[n..]) == After(old(Model()), es)
        invariant log + Answers(Model(), es[n..]) == Answers(old(Model()), es)
      {
        NextKeeps(Model(), es[n]);
        assert es[n..][0] == es[n] && es[n..][1..] == es[n + 1..];
        var msgs := Handle(es[n]);
        log := log + [msgs];
        n := n + 1;
      }
    }
  }

  lemma DecimalNonEmpty(n: nat)
    ensures Decimal(n) != ""
  {
  }
}
