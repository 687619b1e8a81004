/** Which seats can be lost: a client can leave a chosen seat behind, and it is then locked for ever. */
module BookingOrphans {
  import opened Booking
  import opened BookingInvariant
  import opened BookingHistory
  import opened BookingInfo
  import opened BookingRequests

  /** Some run leaves seat index k of train t chosen by a client that has closed. */
  ghost predicate CanBeLeft(s: Server, t: nat, k: nat) {
    exists es: seq<Event> :: CanRun(s, es) && EverLeft(s, es, t, k)
  }

  // ---- a run that loses a seat ----

  lemma ConnectFirst(s: Server)
    requires Start(s) && |s.clients| > 0
    ensures Shaped(s) && Possible(s, Connect(0))
    ensures var r := Next(s, Connect(0)).0;
      && BookInv(r) && |r.clients| == |s.clients| && r.files == s.files
      && r.clients[0] == ClosedClient().(connected := true, status := Shift)
  {
    hide BookInv;
    StartIsGood(s);
    NextKeeps(s, Connect(0));
  }

  /** The client takes a train that has a free seat: with a single connection its own line selects the train. */
  lemma TakeShift(s: Server, t: nat, k: nat)
    requires BookInv(s) && |s.clients| > 0 && t < TRAIN_NUM && k < SEAT_NUM && Cell(s.files[t], k) == '0'
    requires s.clients[0].connected && s.clients[0].status == Shift
    ensures var e := Input(0, ShiftOf(t), t); Shaped(s) && Possible(s, e) && BookInv(Next(s, e).0)
    ensures var r := Next(s, Input(0, ShiftOf(t), t)).0;
      && |r.clients| == |s.clients| && r.files == s.files
      && r.clients[0].connected && r.clients[0].status == Seat && r.clients[0].rec.train == t
      && r.clients[0].rec.seats == FreshRecord().seats && r.clients[0].rec.chosenCount == 0
  {
    hide Exclusive, Atoi, Occupied, SeatList, FileOk;
    InvShaped(s);
    NextKeeps(s, Input(0, ShiftOf(t), t));
    OccupiedIs(s.files[t]);
    assert s.files[t := s.files[t]] == s.files;
  }

  /** The client chooses the free seat. */
  lemma TakeSeat(s: Server, t: nat, k: nat)
    requires BookInv(s) && |s.clients| > 0 && t < TRAIN_NUM && k < SEAT_NUM && Cell(s.files[t], k) == '0'
    requires var c := s.clients[0];
      c.connected && c.status == Seat && c.rec.train == t && c.rec.chosenCount == 0
    ensures var e := Input(0, Decimal(k + 1), 0); Shaped(s) && Possible(s, e) && BookInv(Next(s, e).0)
    ensures var r := Next(s, Input(0, Decimal(k + 1), 0)).0;
      |r.clients| == |s.clients| && Has(r, 0, t, k, Chosen) && r.clients[0].connected
  {
    hide Exclusive, Atoi, SeatList, Decimal, WriteSeat;
    InvShaped(s);
    SeatText(k + 1);
    NextKeeps(s, Input(0, Decimal(k + 1), 0));
    OffsetIs(k + 1);
    HoldersOnBoard(s, 0);
  }

  lemma SeatText(n: nat)
    ensures Atoi(Decimal(n)) == n && Decimal(n) != "exit" && Decimal(n) != "pay"
  {
    AtoiDecimal(n);
    DecimalDigits(n);
    assert IsDigit(Decimal(n)[0]);
  }

  /** A client chooses a free seat and disconnects. */
  lemma SeatIsLost(s: Server, t: nat, k: nat)
    requires Start(s) && |s.clients| > 0 && t < TRAIN_NUM && k < SEAT_NUM && Cell(s.files[t], k) == '0'
    ensures var es := [Connect(0), Input(0, ShiftOf(t), t), Input(0, Decimal(k + 1), 0), Disconnect(0)];
      CanRun(s, es) && EverLeft(s, es, t, k)
  {
    hide Start, BookInv, Next, Decimal, Possible, Shaped;
    var (e1, e2, e3) := (Connect(0), Input(0, ShiftOf(t), t), Input(0, Decimal(k + 1), 0));
    ConnectFirst(s);
    var s1 := Next(s, e1).0;
    TakeShift(s1, t, k);
    var s2 := Next(s1, e2).0;
    TakeSeat(s2, t, k);
    var s3 := Next(s2, e3).0;
    LeaveChosen(s3, t, k);
    RunFour(s, s1, s2, s3, e1, e2, e3, Disconnect(0), t, k);
  }

  lemma LeaveChosen(s: Server, t: nat, k: nat)
    requires BookInv(s) && |s.clients| > 0 && s.clients[0].connected && Has(s, 0, t, k, Chosen)
    ensures Shaped(s) && Possible(s, Disconnect(0)) && Leaves(s, Disconnect(0), t, k)
  {
    InvShaped(s);
  }

  lemma RunFour(s: Server, s1: Server, s2: Server, s3: Server,
                e1: Event, e2: Event, e3: Event, e4: Event, t: nat, k: nat)
    requires Shaped(s) && Possible(s, e1) && s1 == Next(s, e1).0
    requires Shaped(s1) && Possible(s1, e2) && s2 == Next(s1, e2).0
    requires Shaped(s2) && Possible(s2, e3) && s3 == Next(s2, e3).0
    requires Shaped(s3) && Possible(s3, e4) && Leaves(s3, e4, t, k)
    ensures CanRun(s, [e1, e2, e3, e4]) && EverLeft(s, [e1, e2, e3, e4], t, k)
  {
    hide Shaped, Possible, Next, Leaves;
    assert [e1, e2, e3, e4][1..] == [e2, e3, e4] && [e2, e3, e4][1..] == [e3, e4] && [e3, e4][1..] == [e4];
    assert [e4][1..] == [];
    assert CanRun(s3, [e4]) && EverLeft(s3, [e4], t, k);
    assert CanRun(s2, [e3, e4]) && EverLeft(s2, [e3, e4], t, k);
    assert CanRun(s1, [e2, e3, e4]) && EverLeft(s1, [e2, e3, e4], t, k);
  }

  // ---- the others cannot ----

  /** Nobody can choose an orphan, so nobody can leave it behind again. */
  lemma {:induction false} OrphanNeverLeft(s: Server, es: seq<Event>, t: nat, k: nat)
    requires BookInv(s) && CanRun(s, es) && t < TRAIN_NUM && k < SEAT_NUM && Orphan(s, t, k)
    ensures !EverLeft(s, es, t, k)
    decreases |es|
  {
    hide BookInv, Orphan, Leaves, Next;
    BookSizes(s);
    if es == [] {
    } else {
      OrphanStep(s, es[0], t, k);
      NotHeld(s, es[0], t, k);
      BookSizes(Next(s, es[0]).0);
      OrphanNeverLeft(Next(s, es[0]).0, es[1..], t, k);
    }
  }

  lemma NotHeld(s: Server, e: Event, t: nat, k: nat)
    requires BookInv(s) && Shaped(s) && Possible(s, e) && t < TRAIN_NUM && k < SEAT_NUM && Orphan(s, t, k)
    ensures !Leaves(s, e, t, k)
  {
    hide Next;
    assert Actor(e) < |s.clients|;
  }

  lemma OnlyFreeSeats(s: Server, es: seq<Event>, t: nat, k: nat)
    requires Start(s) && CanRun(s, es) && t < TRAIN_NUM && k < SEAT_NUM && EverLeft(s, es, t, k)
    ensures |s.clients| > 0 && Cell(s.files[t], k) == '0'
  {
    hide CanRun, After, EverLeft, Exclusive;
    StartIsGood(s);
    OrphansOverRuns(s, es, t, k);
    if Cell(s.files[t], k) == '1' { PaidForever(s, es, t, k); }
    if Cell(s.files[t], k) == '2' { OrphanNeverLeft(s, es, t, k); }
    assert IsCell(Cell(s.files[t], k)) by { FileSize(s.files[t]); }
    SomebodyLeft(s, es, t, k);
  }

  lemma SomebodyLeft(s: Server, es: seq<Event>, t: nat, k: nat)
    requires CanRun(s, es) && EverLeft(s, es, t, k)
    ensures |s.clients| > 0
  {
    assert Possible(s, es[0]);
  }

  /** From the start of the server a seat can be lost exactly when it is free and some client can connect. */
  lemma SeatCanBeLostExactly(s: Server, t: nat, k: nat)
    requires Start(s) && t < TRAIN_NUM && k < SEAT_NUM
    ensures CanBeLeft(s, t, k) <==> |s.clients| > 0 && Cell(s.files[t], k) == '0'
  {
    hide CanRun, EverLeft;
    if es: seq<Event> :| CanRun(s, es) && EverLeft(s, es, t, k) { OnlyFreeSeats(s, es, t, k); }
    if |s.clients| > 0 && Cell(s.files[t], k) == '0' { SeatIsLost(s, t, k); }
  }
}
