/**
 The day agenda the admin page shows: a fixed grid of half-hour slots from 09:00 to
 17:30, each slot either free or showing the appointment that starts in it. Start
 times come from the store as "HH:MM:SS" and are cut to "HH:MM" before lookup; when
 several appointments share a start, the one latest in the list is shown.
 */
module AgendaVisual {
  import opened Wrappers
  import opened Text

  datatype Status = Pendente | Confirmado | Cancelado

  /** An appointment as the admin page receives it. */
  datatype Agendamento = Agendamento(
    id: int,
    cliente: string,
    telefone: string,
    servico: string,
    data: string,
    inicio: string,
    fim: string,
    status: Status)

  /** `hhmm`: the first five characters of a time (all of it when shorter). */
  function Hhmm(t: string): (r: string)
    ensures |r| == if |t| < 5 then |t| else 5
    ensures r == t[..|r|]
  {
    if |t| < 5 then t else t[..5]
  }

  /** Cutting a time twice is cutting it once. */
  lemma HhmmIdempotent(t: string)
    ensures Hhmm(Hhmm(t)) == Hhmm(t)
  {
  }

  /** A start time with seconds loses them. */
  lemma HhmmDropsSeconds(hm: string, secs: string)
    requires |hm| == 5
    ensures Hhmm(hm + secs) == hm
  {
    assert (hm + secs)[..5] == hm;
  }

  /** The slot an appointment belongs to. */
  function Key(a: Agendamento): string {
    Hhmm(a.inicio)
  }

  // ---------------------------------------------------------------------------
  // The slot grid

  /** Reads a well-formed "HH:MM" (hours below 24, minutes below 60) as minutes after
      midnight. */
  function ParseHhmm(s: string): Option<nat> {
    if |s| == 5 && IsDigit(s[0]) && IsDigit(s[1]) && s[2] == ':' && IsDigit(s[3]) && IsDigit(s[4]) then
      var h := 10 * DigitValue(s[0]) + DigitValue(s[1]);
      var m := 10 * DigitValue(s[3]) + DigitValue(s[4]);
      if h < 24 && m < 60 then Some(60 * h + m) else None
    else
      None
  }

  lemma ParseLabel(h: nat, mm: string, m: nat)
    requires h < 24
    requires (mm == ":00" && m == 0) || (mm == ":30" && m == 30)
    ensures ParseHhmm(Pad2(h) + mm) == Some(60 * h + m)
  {
    Pad2Digits(h);
    var s := Pad2(h) + mm;
    assert s[0] == DigitChar(h / 10) && s[1] == DigitChar(h % 10);
    assert s[2] == ':' && s[4] == '0';
  }

  /** The i-th label pushed when the loop starts at hour `h`: labels come in pairs,
      on the hour then half past, one pair per hour. */
  function SlotLabel(h: nat, i: nat): string
    decreases i
  {
    if i == 0 then Pad2(h) + ":00"
    else if i == 1 then Pad2(h) + ":30"
    else SlotLabel(h + 1, i - 2)
  }

  /** `gerarSlots` from hour `h` on: two labels per hour while the hour is below 18. */
  function SlotsFrom(h: nat): (slots: seq<string>)
    requires 9 <= h <= 18
    ensures |slots| == 2 * (18 - h)
    ensures forall i :: 0 <= i < |slots| ==> slots[i] == SlotLabel(h, i)
    decreases 18 - h
  {
    if h == 18 then []
    else
      var rest := SlotsFrom(h + 1);
      var slots := [SlotLabel(h, 0), SlotLabel(h, 1)] + rest;
      assert forall i :: 0 <= i < |slots| ==> slots[i] == SlotLabel(h, i) by {
        forall i | 0 <= i < |slots|
          ensures slots[i] == SlotLabel(h, i)
        {
          if i >= 2 {
            assert slots[i] == rest[i - 2] == SlotLabel(h + 1, i - 2);
            assert SlotLabel(h, i) == SlotLabel(h + 1, i - 2);
          }
        }
      }
      slots
  }

  /** The i-th label from hour `h` reads as `h` hours plus i half hours. */
  lemma {:induction false} SlotLabelTime(h: nat, i: nat)
    requires 2 * h + i < 48
    ensures ParseHhmm(SlotLabel(h, i)) == Some(60 * h + 30 * i)
    decreases i
  {
    if i == 0 {
      ParseLabel(h, ":00", 0);
    } else if i == 1 {
      ParseLabel(h, ":30", 30);
    } else {
      SlotLabelTime(h + 1, i - 2);
    }
  }

  /** The i-th label from hour `h` is on hour h + i/2, half past when i is odd. */
  lemma {:induction false} SlotLabelForm(h: nat, i: nat)
    ensures SlotLabel(h, i) == Pad2(h + i / 2) + (if i % 2 == 0 then ":00" else ":30")
    decreases i
  {
    if i >= 2 {
      SlotLabelForm(h + 1, i - 2);
      assert (i - 2) / 2 == i / 2 - 1 && (i - 2) % 2 == i % 2;
    }
  }

  /** The hour the grid starts at. */
  const FirstHour: nat := 9

  /** `gerarSlots`: the labels from 09:00, two per hour while the hour is below 18. */
  function GerarSlots(): (slots: seq<string>)
    ensures |slots| == 18
  {
    SlotsFrom(FirstHour)
  }

  /** The i-th slot reads as 09:00 plus i half hours. */
  lemma SlotTime(i: int)
    requires 0 <= i < 18
    ensures ParseHhmm(GerarSlots()[i]) == Some(540 + 30 * i)
  {
    SlotLabelTime(FirstHour, i);
  }

  /** Two strings that read as the same time are the same string. */
  lemma ParseInjective(a: string, b: string)
    requires ParseHhmm(a).Some? && ParseHhmm(a) == ParseHhmm(b)
    ensures a == b
  {
    var v := ParseHhmm(a).value;
    assert DigitValue(a[0]) == DigitValue(b[0]) && DigitValue(a[1]) == DigitValue(b[1]);
    assert DigitValue(a[3]) == DigitValue(b[3]) && DigitValue(a[4]) == DigitValue(b[4]);
  }

  /** For well-formed times, string order (the order `<` and `>` use) is time order. */
  lemma {:induction false} ClockOrder(a: string, b: string)
    requires ParseHhmm(a).Some? && ParseHhmm(b).Some?
    ensures StrLt(a, b) <==> ParseHhmm(a).value < ParseHhmm(b).value
  {
    var a0, a1, a3, a4 := DigitValue(a[0]), DigitValue(a[1]), DigitValue(a[3]), DigitValue(a[4]);
    var b0, b1, b3, b4 := DigitValue(b[0]), DigitValue(b[1]), DigitValue(b[3]), DigitValue(b[4]);
    assert a[1..][0] == a[1] && a[1..][1..][0] == a[2] && a[1..][1..][1..][0] == a[3];
    assert a[1..][1..][1..][1..][0] == a[4] && |a[1..][1..][1..][1..][1..]| == 0;
    assert b[1..][0] == b[1] && b[1..][1..][0] == b[2] && b[1..][1..][1..][0] == b[3];
    assert b[1..][1..][1..][1..][0] == b[4] && |b[1..][1..][1..][1..][1..]| == 0;
    var tailA, tailB := a[1..][1..][1..][1..], b[1..][1..][1..][1..];
    assert StrLt(tailA, tailB) <==> a4 < b4;
    assert StrLt(a[1..][1..][1..], b[1..][1..][1..]) <==> a3 < b3 || (a3 == b3 && a4 < b4);
    assert StrLt(a[1..][1..], b[1..][1..]) <==> a3 < b3 || (a3 == b3 && a4 < b4);
    assert StrLt(a[1..], b[1..]) <==> a1 < b1 || (a1 == b1 && (a3 < b3 || (a3 == b3 && a4 < b4)));
  }

  /** The slots run from 09:00 to 17:30. */
  lemma SlotsFirstAndLast()
    ensures GerarSlots()[0] == "09:00" && GerarSlots()[17] == "17:30"
  {
    FirstSlot();
    LastSlot();
  }

  lemma FirstSlot()
    ensures GerarSlots()[0] == "09:00"
  {
    SlotSpelled(0, "09:00");
  }

  lemma LastSlot()
    ensures GerarSlots()[17] == "17:30"
  {
    SlotSpelled(17, "17:30");
  }

  /** The i-th slot written out digit by digit. */
  lemma SlotSpelled(i: int, spelled: string)
    requires 0 <= i < 18
    requires spelled == [DigitChar((9 + i / 2) / 10), DigitChar((9 + i / 2) % 10)]
                        + (if i % 2 == 0 then ":00" else ":30")
    ensures GerarSlots()[i] == spelled
  {
    SlotLabelForm(FirstHour, i);
    Pad2Digits(9 + i / 2);
  }

  /** Every slot is "HH:00" or "HH:30" with HH between 09 and 17. */
  lemma SlotShape(i: int)
    requires 0 <= i < 18
    ensures var h := 9 + i / 2;
            9 <= h <= 17 && GerarSlots()[i] == Pad2(h) + (if i % 2 == 0 then ":00" else ":30")
  {
    SlotLabelForm(FirstHour, i);
  }

  /** The slots are strictly increasing in string order, hence pairwise distinct. */
  lemma SlotsAscending(i: int, j: int)
    requires 0 <= i < j < 18
    ensures StrLt(GerarSlots()[i], GerarSlots()[j])
    ensures GerarSlots()[i] != GerarSlots()[j]
  {
    SlotTime(i);
    SlotTime(j);
    ClockOrder(GerarSlots()[i], GerarSlots()[j]);
  }

  // ---------------------------------------------------------------------------
  // Slot lookup and rendering

  /** `mapa`: every appointment is written under its slot, in list order, so a later
      appointment overwrites an earlier one with the same slot. */
  function Mapa(ags: seq<Agendamento>): map<string, Agendamento> {
    if ags == [] then map[]
    else Mapa(ags[..|ags| - 1])[Key(ags[|ags| - 1]) := ags[|ags| - 1]]
  }

  /** A slot is in the lookup iff some appointment starts in it. */
  lemma {:induction false} MapaDomain(ags: seq<Agendamento>, k: string)
    ensures k in Mapa(ags) <==> exists i :: 0 <= i < |ags| && Key(ags[i]) == k
  {
    if ags != [] {
      var n := |ags| - 1;
      var init := ags[..n];
      MapaDomain(init, k);
      assert forall i :: 0 <= i < n ==> ags[i] == init[i];
      if Key(ags[n]) != k && exists i :: 0 <= i < |ags| && Key(ags[i]) == k {
        var i :| 0 <= i < |ags| && Key(ags[i]) == k;
        assert Key(init[i]) == k;
      }
    }
  }

  /** A slot in the lookup holds the last appointment of the list that starts in it. */
  lemma {:induction false} MapaLastWins(ags: seq<Agendamento>, k: string)
    requires k in Mapa(ags)
    ensures exists i :: 0 <= i < |ags| && Key(ags[i]) == k && Mapa(ags)[k] == ags[i]
                        && forall j :: i < j < |ags| ==> Key(ags[j]) != k
  {
    var n := |ags| - 1;
    var init := ags[..n];
    if Key(ags[n]) == k {
      assert Key(ags[n]) == k && Mapa(ags)[k] == ags[n];
    } else {
      MapaLastWins(init, k);
      var i :| 0 <= i < |init| && Key(init[i]) == k && Mapa(init)[k] == init[i]
               && forall j :: i < j < |init| ==> Key(init[j]) != k;
      assert Key(ags[i]) == k && Mapa(ags)[k] == ags[i];
      assert forall j :: i < j < |ags| ==> Key(ags[j]) != k by {
        assert forall j :: i < j < n ==> ags[j] == init[j];
      }
    }
  }

  /** One row of the agenda: a free slot, or the appointment shown in it. */
  datatype Row = Free(hora: string) | Busy(hora: string, ag: Agendamento)

  /** The rows of the agenda for the given appointments, one per slot. */
  function Render(ags: seq<Agendamento>): (rows: seq<Row>)
    ensures |rows| == 18
    ensures forall i :: 0 <= i < 18 ==> rows[i].hora == GerarSlots()[i]
  {
    var slots := GerarSlots();
    var mapa := Mapa(ags);
    seq(|slots|, i requires 0 <= i < |slots| =>
      if slots[i] in mapa then Busy(slots[i], mapa[slots[i]]) else Free(slots[i]))
  }

  /** A slot is shown free iff no appointment starts in it. */
  lemma SlotFreeIff(ags: seq<Agendamento>, i: int)
    requires 0 <= i < 18
    ensures Render(ags)[i].Free? <==> forall j :: 0 <= j < |ags| ==> Key(ags[j]) != GerarSlots()[i]
  {
    MapaDomain(ags, GerarSlots()[i]);
  }

  /** A busy slot shows the last appointment of the list that starts in it. */
  lemma SlotShowsLastAppointment(ags: seq<Agendamento>, i: int)
    requires 0 <= i < 18 && Render(ags)[i].Busy?
    ensures exists j :: 0 <= j < |ags| && Render(ags)[i].ag == ags[j]
                        && Key(ags[j]) == GerarSlots()[i]
                        && forall k :: j < k < |ags| ==> Key(ags[k]) != GerarSlots()[i]
  {
    MapaLastWins(ags, GerarSlots()[i]);
  }

  /** An appointment whose start is not on the half-hour grid is shown in no row. */
  lemma OffGridNeverShown(ags: seq<Agendamento>, a: Agendamento)
    requires forall i :: 0 <= i < 18 ==> Key(a) != GerarSlots()[i]
    ensures forall i :: 0 <= i < 18 ==> Render(ags)[i] != Busy(GerarSlots()[i], a)
  {
    forall i | 0 <= i < 18
      ensures Render(ags)[i] != Busy(GerarSlots()[i], a)
    {
      if Render(ags)[i].Busy? {
        SlotShowsLastAppointment(ags, i);
      }
    }
  }
}
