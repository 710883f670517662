/** Booking rules of the appointments screen: "HH:MM" arithmetic, the totals of the
    selected services, the per-professional overlap check with its message, the hourly
    schedule grid, and the service picker of the booking form. */
module Scheduling {
  import opened Values
  import opened Text

  /** A catalogue service as the booking form holds it. */
  datatype Service = Service(id: int, name: string, price: real, duration: Option<int>)

  /** A stored booking as the screen reads it back. */
  datatype Appointment = Appointment(
    id: int,
    collaboratorId: int,
    date: string,
    time: string,
    duration: Option<int>,
    status: Option<string>)

  /** A customer offered by the form's client picker. */
  datatype Client = Client(id: string, name: string)

  /** The fields of the booking form. */
  datatype BookingForm = BookingForm(
    clienteId: string,
    service: string,
    date: string,
    time: string,
    collaboratorId: string,
    duration: int)

  const BlankForm := BookingForm("", "", "", "", "", 60)

  /** A missing or zero duration counts as one hour (`duration || 60`). */
  function EffectiveDuration(d: Option<int>): int
  {
    IntOr(d, 60)
  }

  // ---------------------------------------------------------------------------
  // "HH:MM" to minutes since midnight

  /** The first field of `t.split(':')`. */
  function HourField(t: string): string
  {
    match IndexOf(t, ":")
    case None => t
    case Some(i) => t[..i]
  }

  /** The second field of `t.split(':')`; absent when `t` has no colon. */
  function MinuteField(t: string): Option<string>
  {
    match IndexOf(t, ":")
    case None => None
    case Some(i) =>
      var rest := t[i + 1..];
      Some(match IndexOf(rest, ":") case None => rest case Some(j) => rest[..j])
  }

  /** `const [h, m] = t.split(':').map(Number); h * 60 + m`, with `NaN` as `None`. */
  function ParseTime(t: string): Option<int>
  {
    ClockValue(HourField(t), MinuteField(t))
  }

  /** `h * 60 + m` for the two fields, each through `Number`. */
  function ClockValue(hf: string, mf: Option<string>): Option<int>
  {
    if mf.Some? && AllDigits(hf) && AllDigits(mf.value)
    then Some(DecimalValue(hf) * 60 + DecimalValue(mf.value))
    else None
  }

  /** In digits followed by a colon, the first colon is the one after the digits. */
  lemma ColonAfterDigits(hs: string, rest: string)
    requires AllDigits(hs)
    ensures IndexOf(hs + ":" + rest, ":") == Some(|hs|)
  {
    var t := hs + ":" + rest;
    assert OccursAt(t, ":", |hs|);
    forall j | 0 <= j < |hs| ensures !OccursAt(t, ":", j) {
      assert t[j] == hs[j] && IsDigit(hs[j]);
    }
    IndexOfIs(t, ":", |hs|);
  }

  /** A run of digits has no colon. */
  lemma NoColonInDigits(ms: string)
    requires AllDigits(ms)
    ensures IndexOf(ms, ":") == None
  {
    forall j | 0 <= j ensures !OccursAt(ms, ":", j) {
      if j < |ms| { assert ms[j..j + 1][0] == ms[j] && IsDigit(ms[j]); }
    }
    IndexOfNone(ms, ":");
  }

  lemma FieldsOfDigits(hs: string, ms: string, tail: string)
    requires AllDigits(hs) && AllDigits(ms)
    requires tail == [] || tail[0] == ':'
    ensures HourField(hs + ":" + ms + tail) == hs
    ensures MinuteField(hs + ":" + ms + tail) == Some(ms)
  {
    var t := hs + ":" + ms + tail;
    assert t == hs + ":" + (ms + tail);
    ColonAfterDigits(hs, ms + tail);
    var rest := t[|hs| + 1..];
    assert rest == ms + tail;
    if tail == [] {
      NoColonInDigits(ms);
      assert rest == ms;
    } else {
      assert rest == ms + ":" + tail[1..];
      ColonAfterDigits(ms, tail[1..]);
      assert rest[..|ms|] == ms;
    }
  }

  /** A time written as digits, a colon and digits, optionally followed by a further
      `:`-field (a stored `HH:MM:SS`), is `h * 60 + m` minutes. */
  lemma ParseTimeOfDigits(hs: string, ms: string, tail: string)
    requires AllDigits(hs) && AllDigits(ms)
    requires tail == [] || tail[0] == ':'
    ensures ParseTime(hs + ":" + ms + tail) == Some(DecimalValue(hs) * 60 + DecimalValue(ms))
  {
    FieldsOfDigits(hs, ms, tail);
    ParseTimeOfFields(hs + ":" + ms + tail, hs, ms);
  }

  lemma ParseTimeOfFields(t: string, hs: string, ms: string)
    requires AllDigits(hs) && AllDigits(ms)
    requires HourField(t) == hs && MinuteField(t) == Some(ms)
    ensures ParseTime(t) == Some(DecimalValue(hs) * 60 + DecimalValue(ms))
  {
  }

  // ---------------------------------------------------------------------------
  // Totals of the selected services

  /** `services.reduce((acc, s) => acc + (s.duration || 60), 0)`. */
  function TotalDuration(services: seq<Service>): int
  {
    if services == [] then 0
    else TotalDuration(services[..|services| - 1]) + EffectiveDuration(services[|services| - 1].duration)
  }

  /** `services.reduce((acc, s) => acc + Number(s.price), 0)`. */
  function TotalPrice(services: seq<Service>): real
  {
    if services == [] then 0.0
    else TotalPrice(services[..|services| - 1]) + services[|services| - 1].price
  }

  /** The totals add up over a selection split in two, so each service contributes its
      own (defaulted) duration and its price exactly once. */
  lemma {:induction false} TotalsAppend(a: seq<Service>, b: seq<Service>)
    ensures TotalDuration(a + b) == TotalDuration(a) + TotalDuration(b)
    ensures TotalPrice(a + b) == TotalPrice(a) + TotalPrice(b)
  {
    if b == [] {
      assert a + b == a;
    } else {
      var b' := b[..|b| - 1];
      assert (a + b)[..|a + b| - 1] == a + b';
      TotalsAppend(a, b');
    }
  }

  /** A selection in which no service states a duration books one hour per service. */
  lemma {:induction false} TotalDurationAllDefault(services: seq<Service>)
    requires forall i :: 0 <= i < |services| ==> services[i].duration.None?
    ensures TotalDuration(services) == 60 * |services|
  {
    if services != [] {
      TotalDurationAllDefault(services[..|services| - 1]);
    }
  }

  // ---------------------------------------------------------------------------
  // The overlap check

  /** Minute `t` lies in the half-open interval [s, e). */
  predicate InSpan(t: int, s: int, e: int)
  {
    s <= t < e
  }

  /** `s1 < e2 && e1 > s2`: the test of [s1, e1) against [s2, e2). */
  predicate Overlaps(s1: int, e1: int, s2: int, e2: int)
  {
    s1 < e2 && e1 > s2
  }

  /** For non-empty intervals the test holds exactly when some minute lies in both, so
      back-to-back bookings (one ends at the minute the other starts) never overlap. */
  lemma OverlapsIffSharedMinute(s1: int, e1: int, s2: int, e2: int)
    requires s1 < e1 && s2 < e2
    ensures Overlaps(s1, e1, s2, e2) <==> exists t :: InSpan(t, s1, e1) && InSpan(t, s2, e2)
    ensures e1 == s2 || e2 == s1 ==> !Overlaps(s1, e1, s2, e2)
  {
    if Overlaps(s1, e1, s2, e2) {
      var t := if s1 < s2 then s2 else s1;
      assert InSpan(t, s1, e1) && InSpan(t, s2, e2);
    }
  }

  /** The start minute of a stored booking. */
  function StartOf(a: Appointment): Option<int>
  {
    ParseTime(a.time)
  }

  /** The test inside `appointments.find`: the same professional, the same date, not
      rejected, and [start, start + duration) overlaps the booking's own interval. */
  predicate Blocks(a: Appointment, collaborator: Option<int>, date: string, start: Option<int>, duration: int)
  {
    && collaborator == Some(a.collaboratorId)
    && a.date == date
    && a.status != Some("rejected")
    && start.Some?
    && StartOf(a).Some?
    && Overlaps(start.value, start.value + duration,
                StartOf(a).value, StartOf(a).value + EffectiveDuration(a.duration))
  }

  /** Index `k` holds the first booking in list order that blocks the candidate. */
  predicate FirstBlocker(apps: seq<Appointment>, k: int, collaborator: Option<int>, date: string, start: Option<int>, duration: int)
  {
    && 0 <= k < |apps|
    && Blocks(apps[k], collaborator, date, start, duration)
    && forall j :: 0 <= j < k ==> !Blocks(apps[j], collaborator, date, start, duration)
  }

  /** `appointments.find(...)`, as the position of the booking it returns. */
  function FirstConflict(apps: seq<Appointment>, collaborator: Option<int>, date: string, start: Option<int>, duration: int): (r: Option<nat>)
    ensures r.Some? ==> FirstBlocker(apps, r.value, collaborator, date, start, duration)
    ensures r.None? ==> forall j :: 0 <= j < |apps| ==> !Blocks(apps[j], collaborator, date, start, duration)
  {
    if apps == [] then None
    else if Blocks(apps[0], collaborator, date, start, duration) then Some(0)
    else
      match FirstConflict(apps[1..], collaborator, date, start, duration)
      case None => None
      case Some(k) => Some(k + 1)
  }

  /** The `HH:MM` of an end minute: `Math.floor(end / 60)` and `end % 60`, each padded
      to two digits. */
  function ClockText(end: int): string
  {
    PadTwo(IntToString(end / 60)) + ":" + PadTwo(IntToString(JsRem(end, 60)))
  }

  lemma PadTwoOfSmall(n: nat)
    requires n < 100
    ensures AllDigits(PadTwo(NatToString(n)))
    ensures DecimalValue(PadTwo(NatToString(n))) == n
  {
    var s := NatToString(n);
    DecimalValueOfNatToString(n);
    if n < 10 {
      var p := PadTwo(s);
      assert p == ['0'] + s;
      assert p[..1] == ['0'];
      assert DecimalValue(['0']) == 0 by {
        assert ['0'][..0] == [];
      }
    } else {
      assert |NatToString(n / 10)| == 1;
    }
  }

  /** Within the first 100 hours both fields of the clock text are two digits. */
  lemma ClockTextFields(end: int)
    requires 0 <= end < 6000
    ensures ClockText(end) == PadTwo(NatToString(end / 60)) + ":" + PadTwo(NatToString(end % 60)) + []
  {
    assert JsRem(end, 60) == end % 60;
  }

  /** The message's clock text reads back, through the same parser, as the end minute
      it was built from, for every end within the first 100 hours. */
  lemma ClockTextRoundTrip(end: int)
    requires 0 <= end < 6000
    ensures ParseTime(ClockText(end)) == Some(end)
  {
    var h, m := end / 60, end % 60;
    PadTwoOfSmall(h);
    PadTwoOfSmall(m);
    ClockTextFields(end);
    ParseTimeOfDigits(PadTwo(NatToString(h)), PadTwo(NatToString(m)), []);
  }

  /** The end minute the conflict message names: the hour field times 60, plus
      `parseInt` of the minute field, plus `duration || 60`. `parseInt('')` is `NaN`. */
  function ConflictEnd(a: Appointment): Option<int>
  {
    match (StartOf(a), MinuteField(a.time))
    case (Some(s), Some(ms)) => if ms != "" then Some(s + EffectiveDuration(a.duration)) else None
    case _ => None
  }

  /** The notification text shown when a booking is refused. */
  function ConflictMessage(a: Appointment): string
  {
    "Este profissional j\U{00E1} tem um compromisso que termina \U{00E0}s "
    + (match ConflictEnd(a) case Some(e) => ClockText(e) case None => "NaN:NaN")
    + "."
  }

  // ---------------------------------------------------------------------------
  // The schedule invariant, and the candidate's duration

  /** Two stored bookings the screens treat as overlapping. */
  predicate Clash(a: Appointment, b: Appointment)
  {
    b.status != Some("rejected")
    && Blocks(a, Some(b.collaboratorId), b.date, StartOf(b), EffectiveDuration(b.duration))
  }

  /** No two non-rejected bookings of one professional on one date overlap. */
  predicate NoDoubleBooking(apps: seq<Appointment>)
  {
    forall i, j :: 0 <= i < j < |apps| ==> !Clash(apps[i], apps[j])
  }

  /** The duration `handleSubmit` checks: the raw total, 0 when nothing is selected. */
  function CheckedDurationAsWritten(services: seq<Service>): int
  {
    TotalDuration(services)
  }

  /** The duration the stored booking is read back with (`duration || 60`), which is
      the one the check has to use. */
  function CheckedDuration(services: seq<Service>): int
  {
    EffectiveDuration(Some(TotalDuration(services)))
  }

  /** The booking as it is inserted (`status: 'confirmed'`, `duration: totalDuration`). */
  function StoredBooking(id: int, collaborator: int, form: BookingForm, services: seq<Service>): Appointment
  {
    Appointment(id, collaborator, form.date, form.time, Some(TotalDuration(services)), Some("confirmed"))
  }

  /** The conflict search of `handleSubmit` as written: the candidate interval is
      [start, start + totalDuration). */
  function FindBookingConflictAsWritten(apps: seq<Appointment>, form: BookingForm, services: seq<Service>): Option<nat>
  {
    FirstConflict(apps, NumberValue(form.collaboratorId), form.date, ParseTime(form.time), CheckedDurationAsWritten(services))
  }

  /** The conflict search of `handleSubmit`, with the corrected candidate duration. */
  function FindBookingConflict(apps: seq<Appointment>, form: BookingForm, services: seq<Service>): Option<nat>
  {
    FirstConflict(apps, NumberValue(form.collaboratorId), form.date, ParseTime(form.time), CheckedDuration(services))
  }

  lemma TenOClock()
    ensures ParseTime("10:00") == Some(600)
  {
    ParseTimeOfDigits("10", "00", []);
    assert "10" + ":" + "00" + [] == "10:00";
    assert DecimalValue("10") == 10 by { assert "10"[..1] == "1"; assert "1"[..0] == []; }
    assert DecimalValue("00") == 0 by { assert "00"[..1] == "0"; assert "0"[..0] == []; }
  }

  function DigitValue(c: char): int
  {
    c as int - '0' as int
  }

  /** `"HH:MM"` written with two digits for each field. */
  lemma TwoDigitTime(t: string, h1: char, h2: char, m1: char, m2: char)
    requires IsDigit(h1) && IsDigit(h2) && IsDigit(m1) && IsDigit(m2)
    requires t == [h1, h2, ':', m1, m2]
    ensures ParseTime(t) == Some((DigitValue(h1) * 10 + DigitValue(h2)) * 60 + DigitValue(m1) * 10 + DigitValue(m2))
    ensures MinuteField(t) == Some([m1, m2])
  {
    var hs, ms := [h1, h2], [m1, m2];
    assert t == hs + ":" + ms + [];
    FieldsOfDigits(hs, ms, []);
    ParseTimeOfFields(t, hs, ms);
    assert hs[..1] == [h1] && [h1][..0] == [];
    assert ms[..1] == [m1] && [m1][..0] == [];
    assert DecimalValue([h1]) == DigitValue(h1);
    assert DecimalValue(hs) == DigitValue(h1) * 10 + DigitValue(h2);
    assert DecimalValue([m1]) == DigitValue(m1);
    assert DecimalValue(ms) == DigitValue(m1) * 10 + DigitValue(m2);
  }

  /** A professional booked 10:00-11:00 cannot take 10:30-11:00. */
  lemma HalfPastTenRefused(existing: Appointment)
    requires existing == Appointment(1, 7, "2025-01-10", "10:00", Some(60), Some("confirmed"))
    ensures FirstConflict([existing], Some(7), "2025-01-10", ParseTime("10:30"), 30) == Some(0)
  {
    TwoDigitTime("10:00", '1', '0', '0', '0');
    TwoDigitTime("10:30", '1', '0', '3', '0');
  }

  /** The refusal names the end of the booking in the way: 11:00, minute 660, for a
      one-hour booking at 10:00. */
  lemma TenOClockHourEndsAtEleven(existing: Appointment)
    requires existing == Appointment(1, 7, "2025-01-10", "10:00", Some(60), Some("confirmed"))
    ensures ConflictEnd(existing) == Some(660)
  {
    TwoDigitTime(existing.time, '1', '0', '0', '0');
  }

  /** One shared minute is enough: 09:59-10:29 clashes with 09:00-10:00. */
  lemma OneMinuteOverlapRefused(existing: Appointment)
    requires existing == Appointment(1, 7, "2025-01-10", "09:00", Some(60), Some("confirmed"))
    ensures FirstConflict([existing], Some(7), "2025-01-10", ParseTime("09:59"), 30) == Some(0)
  {
    TwoDigitTime("09:00", '0', '9', '0', '0');
    TwoDigitTime("09:59", '0', '9', '5', '9');
  }

  /** Back to back is allowed: 11:00-11:30 does not clash with 10:00-11:00. */
  lemma BackToBackAccepted(existing: Appointment)
    requires existing == Appointment(1, 7, "2025-01-10", "10:00", Some(60), Some("confirmed"))
    ensures FirstConflict([existing], Some(7), "2025-01-10", ParseTime("11:00"), 30) == None
  {
    TwoDigitTime("10:00", '1', '0', '0', '0');
    TwoDigitTime("11:00", '1', '1', '0', '0');
    assert [existing][1..] == [];
  }

  /** As written, a booking with no service selected is checked as the empty interval
      [10:00, 10:00) and accepted beside a 10:00-11:00 booking, though it is stored with
      duration 0 and read back as 10:00-11:00. */
  lemma EmptySelectionDoubleBooks(existing: Appointment, form: BookingForm)
    requires existing == Appointment(1, 7, "2025-01-10", "10:00", Some(60), Some("confirmed"))
    requires form == BookingForm("3", "", "2025-01-10", "10:00", "7", 60)
    ensures FindBookingConflictAsWritten([existing], form, []) == None
    ensures Clash(existing, StoredBooking(2, 7, form, []))
  {
    TenOClock();
    assert NumberValue(form.collaboratorId) == Some(7) by { assert "7"[..0] == []; }
    assert CheckedDurationAsWritten([]) == 0;
    assert !Blocks(existing, Some(7), form.date, Some(600), 0);
    assert [existing][1..] == [];
  }

  /** With the corrected duration, a booking the check accepts keeps the schedule free
      of double bookings. */
  lemma BookingKeepsScheduleFree(apps: seq<Appointment>, form: BookingForm, services: seq<Service>, id: int, collaborator: int)
    requires NoDoubleBooking(apps)
    requires NumberValue(form.collaboratorId) == Some(collaborator)
    requires FindBookingConflict(apps, form, services) == None
    ensures NoDoubleBooking(apps + [StoredBooking(id, collaborator, form, services)])
  {
    var b := StoredBooking(id, collaborator, form, services);
    var all := apps + [b];
    forall i, j | 0 <= i < j < |all| ensures !Clash(all[i], all[j]) {
      if j == |apps| {
        assert all[i] == apps[i] && all[j] == b;
        assert !Blocks(apps[i], NumberValue(form.collaboratorId), form.date, ParseTime(form.time), CheckedDuration(services));
      } else {
        assert all[i] == apps[i] && all[j] == apps[j];
      }
    }
  }

  // ---------------------------------------------------------------------------
  // The hourly schedule grid

  datatype SlotState = Available | Finalized | Awaiting | Occupied

  /** `isSlotOccupied`: the first booking overlapping the grid cell [t, t + 60). */
  function SlotOccupant(apps: seq<Appointment>, collaborator: int, time: string, date: string): Option<nat>
  {
    FirstConflict(apps, Some(collaborator), date, ParseTime(time), 60)
  }

  lemma FirstBlockerUnique(apps: seq<Appointment>, k1: int, k2: int, collaborator: Option<int>, date: string, start: Option<int>, duration: int)
    requires FirstBlocker(apps, k1, collaborator, date, start, duration)
    requires FirstBlocker(apps, k2, collaborator, date, start, duration)
    ensures k1 == k2
  {
  }

  /** The colour and label of a grid cell: free when nothing overlaps the hour, otherwise
      decided by the status of the first overlapping booking; a missing status reads as
      occupied. */
  function ClassifySlot(apps: seq<Appointment>, collaborator: int, time: string, date: string): (r: SlotState)
    ensures r == Available <==>
      forall j :: 0 <= j < |apps| ==> !Blocks(apps[j], Some(collaborator), date, ParseTime(time), 60)
    ensures r == Finalized <==>
      exists k :: FirstBlocker(apps, k, Some(collaborator), date, ParseTime(time), 60) && apps[k].status == Some("finalized")
    ensures r == Awaiting <==>
      exists k :: FirstBlocker(apps, k, Some(collaborator), date, ParseTime(time), 60) && apps[k].status == Some("pending")
    ensures r == Occupied <==>
      exists k :: FirstBlocker(apps, k, Some(collaborator), date, ParseTime(time), 60)
        && apps[k].status != Some("finalized") && apps[k].status != Some("pending")
  {
    var occ := SlotOccupant(apps, collaborator, time, date);
    var start := ParseTime(time);
    forall k | FirstBlocker(apps, k, Some(collaborator), date, start, 60)
      ensures occ == Some(k)
    {
      if occ.Some? {
        FirstBlockerUnique(apps, k, occ.value, Some(collaborator), date, start, 60);
      }
    }
    match occ
    case None => Available
    case Some(k) =>
      if apps[k].status == Some("finalized") then Finalized
      else if apps[k].status == Some("pending") then Awaiting
      else Occupied
  }

  /** The text of a grid cell. */
  function SlotLabel(s: SlotState): string
  {
    match s
    case Available => "Hor\U{00E1}rio Dispon\U{00ED}vel"
    case Finalized => "Atendimento Finalizado"
    case Awaiting => "Aguardando Confirma\U{00E7}\U{00E3}o"
    case Occupied => "Hor\U{00E1}rio Ocupado"
  }

  // ---------------------------------------------------------------------------
  // The service picker

  predicate HasService(s: seq<Service>, id: int)
  {
    exists i :: 0 <= i < |s| && s[i].id == id
  }

  /** No service id is selected twice. */
  predicate DistinctIds(s: seq<Service>)
  {
    forall i, j :: 0 <= i < j < |s| ==> s[i].id != s[j].id
  }

  /** `services.find(sv => sv.id.toString() === value)`: the first catalogue entry with
      the chosen id. */
  function LookupService(catalog: seq<Service>, id: int): (r: Option<Service>)
    ensures r.Some? ==> r.value.id == id && r.value in catalog
    ensures r.None? ==> !HasService(catalog, id)
    ensures r.Some? ==>
      exists k :: 0 <= k < |catalog| && catalog[k] == r.value && (forall j :: 0 <= j < k ==> catalog[j].id != id)
  {
    if catalog == [] then None
    else if catalog[0].id == id then Some(catalog[0])
    else
      var r := LookupService(catalog[1..], id);
      if r.Some? then
        assert exists k :: (0 <= k < |catalog| && catalog[k] == r.value
          && (forall j :: 0 <= j < k ==> catalog[j].id != id)) by {
          var k :| 0 <= k < |catalog[1..]| && catalog[1..][k] == r.value
            && (forall j :: 0 <= j < k ==> catalog[1..][j].id != id);
          assert catalog[k + 1] == r.value;
          assert forall j :: 0 <= j < k + 1 ==> catalog[j].id != id by {
            forall j | 0 <= j < k + 1 ensures catalog[j].id != id {
              if j > 0 { assert catalog[j] == catalog[1..][j - 1]; }
            }
          }
        }
        r
      else
        assert !HasService(catalog, id) by {
          forall i | 0 <= i < |catalog| ensures catalog[i].id != id {
            if i > 0 { assert catalog[i] == catalog[1..][i - 1]; }
          }
        }
        r
  }

  /** `prev.filter(item => item.id !== id)`: drops exactly the entries with that id and
      keeps the others in order. */
  function WithoutService(s: seq<Service>, id: int): (r: seq<Service>)
    ensures forall x :: x in r <==> x in s && x.id != id
    ensures !HasService(r, id)
    ensures !HasService(s, id) ==> r == s
  {
    if s == [] then []
    else
      var rest := WithoutService(s[1..], id);
      if s[0].id == id then rest
      else
        [s[0]] + rest
  }

  /** The filter works entry by entry: removing from a concatenation removes from each
      part and keeps the parts in their order, so the survivors keep their order. */
  lemma {:induction false} WithoutServiceAppend(a: seq<Service>, b: seq<Service>, id: int)
    ensures WithoutService(a + b, id) == WithoutService(a, id) + WithoutService(b, id)
  {
    if a == [] {
      assert a + b == b;
    } else {
      assert (a + b)[0] == a[0];
      assert (a + b)[1..] == a[1..] + b;
      WithoutServiceAppend(a[1..], b, id);
    }
  }

  /** A single entry survives exactly when its id differs. */
  lemma WithoutServiceSingle(x: Service, id: int)
    ensures WithoutService([x], id) == (if x.id == id then [] else [x])
  {
    assert [x][1..] == [];
  }

  /** Removing a service keeps the selected ids distinct. */
  lemma {:induction false} WithoutServiceDistinct(s: seq<Service>, id: int)
    requires DistinctIds(s)
    ensures DistinctIds(WithoutService(s, id))
  {
    if s != [] {
      var rest := WithoutService(s[1..], id);
      assert DistinctIds(s[1..]) by {
        forall a, b | 0 <= a < b < |s[1..]| ensures s[1..][a].id != s[1..][b].id {
          assert s[1..][a] == s[a + 1] && s[1..][b] == s[b + 1];
        }
      }
      WithoutServiceDistinct(s[1..], id);
      if s[0].id != id {
        var r := [s[0]] + rest;
        forall j | 0 <= j < |rest| ensures rest[j].id != s[0].id {
          assert rest[j] in s[1..];
          var m :| 0 <= m < |s[1..]| && s[1..][m] == rest[j];
          assert s[m + 1] == rest[j];
        }
        forall a, b | 0 <= a < b < |r| ensures r[a].id != r[b].id {
          if a > 0 {
            assert r[a] == rest[a - 1] && r[b] == rest[b - 1];
          } else {
            assert r[b] == rest[b - 1];
          }
        }
      }
    }
  }

  // ---------------------------------------------------------------------------
  // The booking form

  /** `selectedServices.map(s => s.name).join(', ')`. */
  function JoinNames(s: seq<Service>): string
  {
    if s == [] then ""
    else if |s| == 1 then s[0].name
    else JoinNames(s[..|s| - 1]) + ", " + s[|s| - 1].name
  }

  /** `clients.find(c => c.id.toString() === id)?.name || ''`. */
  function ClientName(clients: seq<Client>, id: string): string
  {
    if clients == [] then ""
    else if clients[0].id == id then clients[0].name
    else ClientName(clients[1..], id)
  }

  /** The record `handleSubmit` inserts. */
  datatype Submission = Submission(
    clienteId: string,
    service: string,
    date: string,
    time: string,
    collaboratorId: string,
    servicesList: seq<Service>,
    duration: int,
    serviceValue: real,
    clientName: string,
    status: string)

  function SubmissionOf(form: BookingForm, services: seq<Service>, clients: seq<Client>): Submission
  {
    Submission(form.clienteId, JoinNames(services), form.date, form.time, form.collaboratorId,
               services, TotalDuration(services), TotalPrice(services),
               ClientName(clients, form.clienteId), "confirmed")
  }

  datatype SubmitOutcome =
    | Refused(message: string)
    | Inserted(record: Submission)
    | InsertFailed(record: Submission)

  /** The booking modal: its form fields and the list of selected services. */
  class BookingScreen {
    var form: BookingForm
    var selected: seq<Service>
    var showModal: bool

    ghost predicate Valid()
      reads this
    {
      DistinctIds(selected)
    }

    constructor ()
      ensures Valid() && form == BlankForm && selected == [] && !showModal
    {
      form := BlankForm;
      selected := [];
      showModal := false;
    }

    /** The picker's `onChange`: a service already selected is not added again. */
    method AddService(catalog: seq<Service>, chosen: int)
      requires Valid()
      modifies this`selected
      ensures Valid()
      ensures LookupService(catalog, chosen).None? ==> selected == old(selected)
      ensures LookupService(catalog, chosen).Some? && HasService(old(selected), chosen) ==> selected == old(selected)
      ensures LookupService(catalog, chosen).Some? && !HasService(old(selected), chosen) ==>
        selected == old(selected) + [LookupService(catalog, chosen).value]
    {
      var s := LookupService(catalog, chosen);
      if s.Some? && !HasService(selected, s.value.id) {
        selected := selected + [s.value];
        forall i, j | 0 <= i < j < |selected| ensures selected[i].id != selected[j].id {
          if j == |selected| - 1 {
            assert selected[i] == old(selected)[i];
          } else {
            assert selected[i] == old(selected)[i] && selected[j] == old(selected)[j];
          }
        }
      }
    }

    /** The chip's remove button. */
    method RemoveService(id: int)
      requires Valid()
      modifies this`selected
      ensures Valid()
      ensures selected == WithoutService(old(selected), id)
      ensures !HasService(selected, id)
    {
      WithoutServiceDistinct(selected, id);
      selected := WithoutService(selected, id);
    }

    /** `handleSubmit` as written: a conflict found with the raw total duration stops
        the submission before anything is written; otherwise the record is inserted
        and, when the store accepts it, the form is cleared. `insertOk` is the
        store's answer. */
    method Submit(appointments: seq<Appointment>, clients: seq<Client>, insertOk: bool) returns (outcome: SubmitOutcome)
      requires Valid()
      modifies this
      ensures Valid()
      ensures match FindBookingConflictAsWritten(appointments, old(form), old(selected))
        case Some(k) =>
          && outcome == Refused(ConflictMessage(appointments[k]))
          && form == old(form) && selected == old(selected) && showModal == old(showModal)
        case None =>
          && outcome == (if insertOk then Inserted(SubmissionOf(old(form), old(selected), clients))
                         else InsertFailed(SubmissionOf(old(form), old(selected), clients)))
          && (insertOk ==> form == BlankForm && selected == [] && !showModal)
          && (!insertOk ==> form == old(form) && selected == old(selected) && showModal == old(showModal))
    {
      outcome := Settle(FindBookingConflictAsWritten(appointments, form, selected), appointments, clients, insertOk);
    }

    /** `handleSubmit` with the candidate checked for as long as it will be read back
        (`duration || 60`); by `BookingKeepsScheduleFree`, what it inserts keeps the
        schedule free of double bookings. */
    method SubmitCorrected(appointments: seq<Appointment>, clients: seq<Client>, insertOk: bool) returns (outcome: SubmitOutcome)
      requires Valid()
      modifies this
      ensures Valid()
      ensures match FindBookingConflict(appointments, old(form), old(selected))
        case Some(k) =>
          && outcome == Refused(ConflictMessage(appointments[k]))
          && form == old(form) && selected == old(selected) && showModal == old(showModal)
        case None =>
          && outcome == (if insertOk then Inserted(SubmissionOf(old(form), old(selected), clients))
                         else InsertFailed(SubmissionOf(old(form), old(selected), clients)))
          && (insertOk ==> form == BlankForm && selected == [] && !showModal)
          && (!insertOk ==> form == old(form) && selected == old(selected) && showModal == old(showModal))
    {
      outcome := Settle(FindBookingConflict(appointments, form, selected), appointments, clients, insertOk);
    }

    /** What follows the conflict search in `handleSubmit`. */
    method Settle(conflict: Option<nat>, appointments: seq<Appointment>, clients: seq<Client>, insertOk: bool) returns (outcome: SubmitOutcome)
      requires Valid()
      requires conflict.Some? ==> conflict.value < |appointments|
      modifies this
      ensures Valid()
      ensures match conflict
        case Some(k) =>
          && outcome == Refused(ConflictMessage(appointments[k]))
          && form == old(form) && selected == old(selected) && showModal == old(showModal)
        case None =>
          && outcome == (if insertOk then Inserted(SubmissionOf(old(form), old(selected), clients))
                         else InsertFailed(SubmissionOf(old(form), old(selected), clients)))
          && (insertOk ==> form == BlankForm && selected == [] && !showModal)
          && (!insertOk ==> form == old(form) && selected == old(selected) && showModal == old(showModal))
    {
      if conflict.Some? {
        outcome := Refused(ConflictMessage(appointments[conflict.value]));
        return;
      }
      var record := SubmissionOf(form, selected, clients);
      if insertOk {
        outcome := Inserted(record);
        showModal := false;
        form := BlankForm;
        selected := [];
      } else {
        outcome := InsertFailed(record);
      }
    }
  }
}
