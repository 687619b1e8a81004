/** The booking info that a client is sent can be read back: its two lists are exactly the chosen and the paid seats. */
module BookingInfo {
  import opened Booking

  const MAX_MSG_LEN := 512

  // ---- reading a list back ----

  /** The fields of a text between separators; a text without one is a single field. */
  function Split(s: string, sep: char): seq<string> {
    if s == [] then [[]]
    else
      var rest := Split(s[1..], sep);
      if s[0] == sep then [[]] + rest else [[s[0]] + rest[0]] + rest[1..]
  }

  function Numbers(fields: seq<string>): seq<int> {
    if fields == [] then [] else [Atoi(fields[0])] + Numbers(fields[1..])
  }

  function ParseList(s: string): seq<int> {
    if s == "" then [] else Numbers(Split(s, ','))
  }

  lemma {:induction false} SplitAppend(a: string, sep: char, b: string)
    requires sep !in b
    ensures Split(a + [sep] + b, sep) == Split(a, sep) + [b]
  {
    var s := a + [sep] + b;
    if a == [] {
      assert s[1..] == b;
      SplitNone(b, sep);
    } else {
      assert s[1..] == a[1..] + [sep] + b;
      SplitAppend(a[1..], sep, b);
    }
  }

  lemma {:induction false} SplitNone(b: string, sep: char)
    requires sep !in b
    ensures Split(b, sep) == [b]
  {
    if b == [] {
    } else {
      assert sep !in b[1..];
      SplitNone(b[1..], sep);
      assert [b[0]] + b[1..] == b;
    }
  }

  lemma {:induction false} NumbersAppend(fields: seq<string>, f: string)
    ensures Numbers(fields + [f]) == Numbers(fields) + [Atoi(f)]
  {
    if fields == [] {
      assert fields + [f] == [f];
    } else {
      assert (fields + [f])[1..] == fields[1..] + [f];
      NumbersAppend(fields[1..], f);
    }
  }

  // ---- numbers ----

  lemma {:induction false} DecimalDigits(n: nat)
    ensures Decimal(n) != "" && forall i :: 0 <= i < |Decimal(n)| ==> IsDigit(Decimal(n)[i])
  {
    if n < 10 {
    } else {
      DecimalDigits(n / 10);
    }
  }

  lemma {:induction false} DigitsAppend(s: string, c: char, acc: nat)
    requires forall i :: 0 <= i < |s| ==> IsDigit(s[i])
    requires IsDigit(c)
    ensures DigitsValue(s + [c], acc) == DigitsValue(s, acc) * 10 + (c as int - '0' as int)
  {
    var t := s + [c];
    if s == [] {
      assert t[1..] == [];
    } else {
      assert t[1..] == s[1..] + [c];
      DigitsAppend(s[1..], c, acc * 10 + (s[0] as int - '0' as int));
    }
  }

  lemma {:induction false} DecimalValue(n: nat)
    ensures DigitsValue(Decimal(n), 0) == n
  {
    if n < 10 {
      assert Decimal(n)[1..] == [];
    } else {
      DecimalValue(n / 10);
      DecimalDigits(n / 10);
      DigitsAppend(Decimal(n / 10), ('0' as int + n % 10) as char, 0);
    }
  }

  /** atoi undoes printing. */
  lemma AtoiDecimal(n: nat)
    ensures Atoi(Decimal(n)) == n
  {
    DecimalValue(n);
    DecimalDigits(n);
    assert IsDigit(Decimal(n)[0]);
  }

  // ---- the lists ----

  /** A number beyond all of a strictly increasing list, put at its end. */
  lemma SnocList(p: seq<int>, k: int)
    requires forall x :: x in p ==> x < k
    requires forall i, j :: 0 <= i < j < |p| ==> p[i] < p[j]
    ensures forall i, j :: 0 <= i < j < |p + [k]| ==> (p + [k])[i] < (p + [k])[j]
    ensures forall x :: x in p + [k] <==> x in p || x == k
  {
    var q := p + [k];
    forall i, j | 0 <= i < j < |q| ensures q[i] < q[j] {
      assert q[i] == p[i] && p[i] in p;
    }
    forall x | x in p || x == k ensures x in p + [k] {
      if x == k { assert (p + [k])[|p|] == k; }
    }
  }

  /** A text made longer by one number parses to a list made longer by that number. */
  lemma ListGrows(before: string, k: nat)
    ensures var text := before + (if before == "" then "" else ",") + Decimal(k);
      text != "" && ParseList(text) == ParseList(before) + [k]
  {
    DecimalDigits(k);
    AtoiDecimal(k);
    assert ',' !in Decimal(k);
    var text := before + (if before == "" then "" else ",") + Decimal(k);
    if before == "" {
      assert text == Decimal(k);
      SplitNone(Decimal(k), ',');
      assert Numbers([Decimal(k)]) == [k];
    } else {
      SplitAppend(before, ',', Decimal(k));
      NumbersAppend(Split(before, ','), Decimal(k));
      assert text == before + [','] + Decimal(k);
    }
  }

  lemma {:induction false} ListParses(seats: seq<SeatStat>, which: SeatStat, k: nat)
    requires k <= |seats| && k <= SEAT_NUM
    ensures var text := SeatList(seats, which, k); var p := ParseList(text);
      && |text| <= 3 * k
      && (forall x :: x in p <==> 1 <= x <= k && seats[x - 1] == which)
      && (forall i, j :: 0 <= i < j < |p| ==> p[i] < p[j])
  {
    hide ParseList;
    if k == 0 {
      assert ParseList("") == [] by { NothingParses(); }
    } else {
      ListParses(seats, which, k - 1);
      if seats[k - 1] == which {
        var before := SeatList(seats, which, k - 1);
        ListGrows(before, k);
        SnocList(ParseList(before), k);
        TwoDigits(k);
      }
    }
  }

  lemma NothingParses()
    ensures ParseList("") == []
  {
  }

  lemma TwoDigits(k: nat)
    requires k < 100
    ensures |Decimal(k)| <= 2
  {
  }

  /** Round trip of the booking info: the chosen and the paid list parse back, in increasing order, to exactly the seats
      chosen and the seats paid, and both stay within the buffers they are built in. */
  lemma BookingInfoRoundTrip(rec: Record)
    requires |rec.seats| == SEAT_NUM
    ensures var m := TrainInfo(rec); var chosen := ParseList(m.chosen); var paid := ParseList(m.paid);
      && m.shiftId == rec.shiftId
      && (forall x :: x in chosen <==> 1 <= x <= SEAT_NUM && rec.seats[x - 1] == Chosen)
      && (forall x :: x in paid <==> 1 <= x <= SEAT_NUM && rec.seats[x - 1] == Paid)
      && (forall i, j :: 0 <= i < j < |chosen| ==> chosen[i] < chosen[j])
      && (forall i, j :: 0 <= i < j < |paid| ==> paid[i] < paid[j])
      && |m.chosen| < MAX_MSG_LEN && |m.paid| < MAX_MSG_LEN
  {
    hide SeatList, ParseList;
    ListParses(rec.seats, Chosen, SEAT_NUM);
    ListParses(rec.seats, Paid, SEAT_NUM);
  }
}
