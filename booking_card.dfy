/** The booking card a client uses to book a service: the time-slot list it
    offers (`generateTimeSlots`), the weekday filter (`isDateAvailable`) and
    the checks `handleBooking` makes before it sends the booking request.
    Times of day are minutes since midnight. */
module BookingCard {
  import opened Common
  import opened Model

  // ---------------------------------------------------------------------
  // "HH:MM" clock labels
  // ---------------------------------------------------------------------

  const MinutesPerDay := 1440

  predicate IsDigit(c: char) { '0' <= c <= '9' }

  function DigitValue(c: char): nat
    requires IsDigit(c)
  {
    (c as int - '0' as int) as nat
  }

  /** The time of day a "HH:MM" string denotes when it is placed in an ISO
      date-time ("2000-01-01THH:MM:00"): hours 00 to 24, minutes 00 to 59,
      and 24:00 for the end of the day. Any other text gives an invalid
      date, here None. */
  function ParseClock(s: string): (r: Option<int>)
    ensures r.Some? ==> 0 <= r.value <= MinutesPerDay
  {
    if |s| == 5 && IsDigit(s[0]) && IsDigit(s[1]) && s[2] == ':' && IsDigit(s[3]) && IsDigit(s[4]) then
      var h := 10 * DigitValue(s[0]) + DigitValue(s[1]);
      var m := 10 * DigitValue(s[3]) + DigitValue(s[4]);
      if m <= 59 && (h <= 23 || (h == 24 && m == 0)) then Some(60 * h + m) else None
    else None
  }

  /** The zero-padded "HH:MM" label of a time of day
      (`toTimeString().slice(0, 5)`). */
  function FormatClock(t: int): (s: string)
    requires 0 <= t < MinutesPerDay
    ensures |s| == 5 && s[2] == ':'
  {
    var h := t / 60;
    var m := t % 60;
    [DigitChar(h / 10), DigitChar(h % 10), ':', DigitChar(m / 10), DigitChar(m % 10)]
  }

  lemma DigitCharValue(d: nat)
    requires d < 10
    ensures IsDigit(DigitChar(d)) && DigitValue(DigitChar(d)) == d
  {
  }

  /** Formatting a time of day and reading the label back gives the same
      time. */
  lemma ParseFormatClock(t: int)
    requires 0 <= t < MinutesPerDay
    ensures ParseClock(FormatClock(t)) == Some(t)
  {
    var h, m := t / 60, t % 60;
    DigitCharValue(h / 10);
    DigitCharValue(h % 10);
    DigitCharValue(m / 10);
    DigitCharValue(m % 10);
  }

  /** Every label that reads as a time before midnight is the canonical
      label of that time. */
  lemma FormatParseClock(s: string)
    requires ParseClock(s).Some? && ParseClock(s).value < MinutesPerDay
    ensures FormatClock(ParseClock(s).value) == s
  {
    var t := ParseClock(s).value;
    var h := 10 * DigitValue(s[0]) + DigitValue(s[1]);
    var m := 10 * DigitValue(s[3]) + DigitValue(s[4]);
    assert t / 60 == h && t % 60 == m;
    assert h / 10 == DigitValue(s[0]) && h % 10 == DigitValue(s[1]);
    assert m / 10 == DigitValue(s[3]) && m % 10 == DigitValue(s[4]);
  }

  // ---------------------------------------------------------------------
  // Slot generation
  // ---------------------------------------------------------------------

  /** The slot start times the loop visits: from `start`, in steps of
      `step`, while the current time is before `end`. */
  function SlotStarts(start: int, end: int, step: int): seq<int>
    requires step > 0
    decreases end - start
  {
    if start < end then [start] + SlotStarts(start + step, end, step) else []
  }

  /** Slot i starts i steps after `start`. */
  lemma {:induction false} SlotStartsAt(start: int, end: int, step: int, i: nat)
    requires step > 0 && i < |SlotStarts(start, end, step)|
    ensures SlotStarts(start, end, step)[i] == start + i * step
    decreases i
  {
    if i > 0 {
      SlotStartsAt(start + step, end, step, i - 1);
      assert start + step + (i - 1) * step == start + i * step;
    }
  }

  /** Every slot starts before `end`, and the time after the last slot is
      not before it. */
  lemma {:induction false} SlotStartsBelowEnd(start: int, end: int, step: int)
    requires step > 0
    ensures var r := SlotStarts(start, end, step);
      && (forall i :: 0 <= i < |r| ==> r[i] < end)
      && (start >= end ==> r == [])
      && (start < end ==> end <= start + |r| * step)
    decreases end - start
  {
    if start < end {
      SlotStartsBelowEnd(start + step, end, step);
      var rest := SlotStarts(start + step, end, step);
      assert SlotStarts(start, end, step) == [start] + rest;
      assert start + step + |rest| * step == start + (|rest| + 1) * step;
    }
  }

  /** Slot i starts i steps after `start` and before `end`; there are
      ceil((end - start) / step) slots, none when start >= end. */
  lemma SlotStartsShape(start: int, end: int, step: int)
    requires step > 0
    ensures var r := SlotStarts(start, end, step);
      && (forall i :: 0 <= i < |r| ==> r[i] == start + i * step && start <= r[i] < end)
      && (start >= end ==> r == [])
      && (start < end ==> start + (|r| - 1) * step < end <= start + |r| * step)
  {
    var r := SlotStarts(start, end, step);
    SlotStartsBelowEnd(start, end, step);
    forall i | 0 <= i < |r| ensures r[i] == start + i * step && start <= r[i] {
      SlotStartsAt(start, end, step, i);
      assert i * step >= 0;
    }
    if start < end {
      assert r[|r| - 1] < end;
    }
  }

  /** Consecutive slots are exactly one duration apart. */
  lemma SlotsEvenlySpaced(start: int, end: int, step: int, i: nat)
    requires step > 0 && i + 1 < |SlotStarts(start, end, step)|
    ensures SlotStarts(start, end, step)[i + 1] - SlotStarts(start, end, step)[i] == step
  {
    SlotStartsShape(start, end, step);
  }

  /** Only a slot's start is compared with the end time, so the last slot
      may run past it: 09:00 to 10:00 in 45-minute steps gives 09:00 and
      09:45, and the second ends at 10:30. */
  lemma LastSlotMayOverrun()
    ensures SlotStarts(540, 600, 45) == [540, 585] && 585 + 45 > 600
  {
  }

  /** Whether the service's stored days parsed as JSON, and to what. The
      parse itself is the JSON library's and is taken as given. */
  datatype JsonItem = JNumber(n: real) | JText(s: string) | JOtherItem
  datatype DaysJson =
    | Malformed                      // JSON.parse throws
    | JArray(items: seq<JsonItem>)   // Array.prototype.includes
    | JString(text: string)          // String.prototype.includes
    | JScalar                        // number, boolean, null or object: no `includes`, so it throws

  /** `available_days`: absent, null or empty, or present as JSON text. */
  datatype DaysField = NoDays | DaysText(parsed: DaysJson)

  /** A service as the booking card receives it. */
  datatype ServiceOption = ServiceOption(
    id: Id, name: string, basePrice: real, durationMin: int,
    availableDays: DaysField, startTime: Option<string>, endTime: Option<string>)

  /** `salon.services.find(s => s.id === selectedService)`. */
  function FindService(services: seq<ServiceOption>, selected: Option<Id>): (r: Option<nat>)
    ensures r.Some? ==> selected.Some? && r.value < |services| && services[r.value].id == selected.value
    ensures r.None? ==> selected.None? || forall j :: 0 <= j < |services| ==> services[j].id != selected.value
  {
    if selected.None? then None
    else FirstIndex(services, (s: ServiceOption) => s.id == selected.value)
  }

  /** The window and step the loop runs with, after the fall-backs
      "09:00", "18:00" and 60 minutes (an empty time or a duration of 0
      also falls back). None when a time does not read as a time of day:
      the dates are then invalid, `start < end` is false and no slot is
      produced. */
  function SlotWindow(s: ServiceOption): (r: Option<(int, int, int)>)
    ensures r.Some? ==> 0 <= r.value.0 && r.value.1 <= MinutesPerDay && r.value.2 != 0
  {
    var startText := if Filled(s.startTime) then s.startTime.value else "09:00";
    var endText := if Filled(s.endTime) then s.endTime.value else "18:00";
    var step := if s.durationMin != 0 then s.durationMin else 60;
    var start := ParseClock(startText);
    var end := ParseClock(endText);
    if start.Some? && end.Some? then Some((start.value, end.value, step)) else None
  }

  /** The labels the card shows for the selected service. A negative
      duration with start < end makes the source's loop run forever (see
      NegativeDurationNeverStops); here it gives no slots. */
  function TimeSlots(services: seq<ServiceOption>, selected: Option<Id>): (r: seq<string>)
    ensures FindService(services, selected).None? ==> r == []
    ensures forall i :: 0 <= i < |r| ==> |r[i]| == 5 && r[i][2] == ':'
  {
    var k := FindService(services, selected);
    if k.None? then []
    else
      var w := SlotWindow(services[k.value]);
      if w.None? || w.value.2 < 0 then []
      else
        var (start, end, step) := w.value;
        SlotStartsShape(start, end, step);
        Labels(SlotStarts(start, end, step))
  }

  /** The labels of a list of times of day. */
  function Labels(ts: seq<int>): (r: seq<string>)
    requires forall i :: 0 <= i < |ts| ==> 0 <= ts[i] < MinutesPerDay
    ensures |r| == |ts| && forall i :: 0 <= i < |ts| ==> r[i] == FormatClock(ts[i])
  {
    seq(|ts|, i requires 0 <= i < |ts| => FormatClock(ts[i]))
  }

  /** `generateTimeSlots`: walk the clock from the start time in steps of
      the duration and collect the label of every time before the end. */
  method GenerateTimeSlots(services: seq<ServiceOption>, selected: Option<Id>) returns (slots: seq<string>)
    ensures slots == TimeSlots(services, selected)
  {
    var k := FindService(services, selected);
    if k.None? {
      return [];
    }
    var w := SlotWindow(services[k.value]);
    if w.None? || w.value.2 < 0 {
      return [];
    }
    var (start, end, step) := w.value;
    SlotStartsShape(start, end, step);
    ghost var all := SlotStarts(start, end, step);
    slots := [];
    var t := start;
    while t < end
      invariant |slots| <= |all|
      invariant all[|slots|..] == SlotStarts(t, end, step)
      invariant forall i :: 0 <= i < |slots| ==> slots[i] == FormatClock(all[i])
      decreases end - t
    {
      assert all[|slots|] == t && all[|slots| + 1..] == SlotStarts(t + step, end, step);
      slots := slots + [FormatClock(t)];
      t := t + step;
    }
  }

  /** With every field missing (or empty, or a zero duration) the card
      offers the nine hourly slots 09:00 to 17:00. */
  lemma DefaultSlots(id: Id, name: string, price: real, days: DaysField)
    ensures var s := ServiceOption(id, name, price, 0, days, None, None);
      TimeSlots([s], Some(id)) == ["09:00", "10:00", "11:00", "12:00", "13:00", "14:00", "15:00", "16:00", "17:00"]
  {
    var s := ServiceOption(id, name, price, 0, days, None, None);
    assert ParseClock("09:00") == Some(540);
    assert ParseClock("18:00") == Some(1080);
    assert SlotWindow(s) == Some((540, 1080, 60));
    DefaultLabels();
  }

  lemma DefaultLabels()
    ensures Labels(SlotStarts(540, 1080, 60))
      == ["09:00", "10:00", "11:00", "12:00", "13:00", "14:00", "15:00", "16:00", "17:00"]
  {
    SlotStartsShape(540, 1080, 60);
    var r := SlotStarts(540, 1080, 60);
    assert |r| == 9;
    assert r == [540, 600, 660, 720, 780, 840, 900, 960, 1020];
    assert FormatClock(540) == "09:00";
    assert FormatClock(600) == "10:00";
    assert FormatClock(660) == "11:00";
    assert FormatClock(720) == "12:00";
    assert FormatClock(780) == "13:00";
    assert FormatClock(840) == "14:00";
    assert FormatClock(900) == "15:00";
    assert FormatClock(960) == "16:00";
    assert FormatClock(1020) == "17:00";
  }

  /** Every offered slot starts within the window and is the label of a
      time before the end; consecutive offered slots are one duration
      apart. */
  lemma SlotsWithinWindow(services: seq<ServiceOption>, selected: Option<Id>, i: nat)
    requires i < |TimeSlots(services, selected)|
    ensures var k := FindService(services, selected);
      k.Some? && SlotWindow(services[k.value]).Some? &&
      var (start, end, step) := SlotWindow(services[k.value]).value;
      step > 0 && start <= start + i * step < end &&
      ParseClock(TimeSlots(services, selected)[i]) == Some(start + i * step)
  {
    var k := FindService(services, selected);
    var (start, end, step) := SlotWindow(services[k.value]).value;
    SlotStartsShape(start, end, step);
    var starts := SlotStarts(start, end, step);
    assert TimeSlots(services, selected) == Labels(starts);
    assert starts[i] == start + i * step;
    ParseFormatClock(starts[i]);
  }

  /** The source loop as written, for any duration: the clock and the
      labels pushed after the guard `start < end` has been tested k times,
      each pass of the body pushing the clock's label and then moving it by
      the duration. A Date's time of day wraps around midnight, hence the
      remainder. */
  function LoopAsWritten(start: int, end: int, step: int, k: nat): (r: (int, seq<string>))
    decreases k
  {
    if k == 0 then (start, [])
    else
      var (t, pushed) := LoopAsWritten(start, end, step, k - 1);
      if t < end then (t + step, pushed + [FormatClock(t % MinutesPerDay)]) else (t, pushed)
  }

  /** As written, a negative duration (which the service-creation route
      accepts, being merely truthy) never lets the loop stop once
      start < end: after any number of passes the guard still holds, and
      every pass has pushed one more label. The clock here is an unbounded
      integer; a Date leaves its valid range (about 1.44e11 minutes from
      2000) only after that many minutes in total, so the claim concerns
      durations of ordinary size. */
  lemma {:induction false} NegativeDurationNeverStops(start: int, end: int, step: int, k: nat)
    requires start < end && step < 0
    ensures var r := LoopAsWritten(start, end, step, k);
      r.0 < end && r.0 == start + k * step && |r.1| == k
    decreases k
  {
    if k > 0 {
      NegativeDurationNeverStops(start, end, step, k - 1);
      assert start + (k - 1) * step + step == start + k * step;
    }
  }

  /** For a positive duration within one day the loop as written stops:
      after one test per slot it has pushed exactly the labels of
      SlotStarts, and the guard then fails. */
  lemma LoopAsWrittenStops(start: int, end: int, step: int)
    requires step > 0 && 0 <= start && end <= MinutesPerDay
    ensures var all := SlotStarts(start, end, step);
      var r := LoopAsWritten(start, end, step, |all|);
      && (forall i :: 0 <= i < |all| ==> 0 <= all[i] < MinutesPerDay)
      && r.0 >= end && r.1 == Labels(all)
  {
    var all := SlotStarts(start, end, step);
    LoopAsWrittenPrefix(start, end, step, |all|);
    assert all[..|all|] == all;
  }

  /** After k <= |SlotStarts| tests the labels of the first k slots have
      been pushed, and the clock stands at the next slot, or at or past
      the end once every slot is pushed. */
  lemma {:induction false} LoopAsWrittenPrefix(start: int, end: int, step: int, k: nat)
    requires step > 0 && 0 <= start && end <= MinutesPerDay
    requires k <= |SlotStarts(start, end, step)|
    ensures var all := SlotStarts(start, end, step);
      var r := LoopAsWritten(start, end, step, k);
      && (forall i :: 0 <= i < |all| ==> 0 <= all[i] < MinutesPerDay)
      && r.1 == Labels(all[..k])
      && (k < |all| ==> r.0 == all[k])
      && (k == |all| ==> r.0 >= end)
    decreases k
  {
    var all := SlotStarts(start, end, step);
    SlotStartsInDay(start, end, step);
    if k == 0 {
      assert all[..0] == [];
    } else {
      LoopAsWrittenPrefix(start, end, step, k - 1);
      var t := all[k - 1];
      var pushed := Labels(all[..k - 1]);
      LoopPass(start, end, step, k, t, pushed);
      LabelsPrefix(all, k);
      if k < |all| {
        SlotsEvenlySpaced(start, end, step, k - 1);
      } else {
        LastSlotThenEnd(start, end, step);
      }
    }
  }

  /** One pass of the loop body while the guard holds on a time of day. */
  lemma LoopPass(start: int, end: int, step: int, k: nat, t: int, pushed: seq<string>)
    requires k > 0 && LoopAsWritten(start, end, step, k - 1) == (t, pushed)
    requires t < end && 0 <= t < MinutesPerDay
    ensures LoopAsWritten(start, end, step, k) == (t + step, pushed + [FormatClock(t)])
  {
    assert t % MinutesPerDay == t;
  }

  /** One duration after the last slot the clock is at or past the end. */
  lemma {:induction false} LastSlotThenEnd(start: int, end: int, step: int)
    requires step > 0
    ensures var all := SlotStarts(start, end, step);
      all != [] ==> all[|all| - 1] + step >= end
    decreases end - start
  {
    if start < end {
      LastSlotThenEnd(start + step, end, step);
      var rest := SlotStarts(start + step, end, step);
      assert SlotStarts(start, end, step) == [start] + rest;
    }
  }

  /** Within one day, every slot start is a time of day before the end. */
  lemma SlotStartsInDay(start: int, end: int, step: int)
    requires step > 0 && 0 <= start && end <= MinutesPerDay
    ensures forall i :: 0 <= i < |SlotStarts(start, end, step)| ==>
      0 <= start <= SlotStarts(start, end, step)[i] < end <= MinutesPerDay
  {
    SlotStartsShape(start, end, step);
  }

  /** The labels of the first k times are those of the first k - 1 times
      followed by the label of time k - 1. */
  lemma LabelsPrefix(ts: seq<int>, k: nat)
    requires forall i :: 0 <= i < |ts| ==> 0 <= ts[i] < MinutesPerDay
    requires 0 < k <= |ts|
    ensures Labels(ts[..k]) == Labels(ts[..k - 1]) + [FormatClock(ts[k - 1])]
  {
    assert ts[..k] == ts[..k - 1] + [ts[k - 1]];
    var r := Labels(ts[..k]);
    assert r[k - 1] == FormatClock(ts[k - 1]);
    assert forall i :: 0 <= i < k - 1 ==> r[i] == FormatClock(ts[i]);
  }

  /** The corrected slot list offers nothing for a negative duration. */
  lemma NegativeDurationNoSlots(s: ServiceOption)
    requires s.durationMin < 0
    ensures TimeSlots([s], Some(s.id)) == []
  {
  }

  // ---------------------------------------------------------------------
  // Day availability
  // ---------------------------------------------------------------------

  /** The number `new Date(date).getDay()` gives for the date input's
      "YYYY-MM-DD" (0 = Sunday). That string is parsed as UTC midnight and
      `getDay` reads local time, so west of UTC the number is the previous
      calendar day's weekday. The number is taken as given. */
  type Weekday = d: int | 0 <= d <= 6

  /** `isDateAvailable`: a date is bookable unless the selected service has
      stored days that parse to a list (or a string) not containing the
      date's weekday number. */
  function IsDateAvailable(services: seq<ServiceOption>, selected: Option<Id>, day: Weekday): (ok: bool)
    ensures !ok <==> var k := FindService(services, selected);
      k.Some? && services[k.value].availableDays.DaysText? &&
      match services[k.value].availableDays.parsed
      case JArray(items) => JNumber(day as real) !in items
      case JString(text) => DigitChar(day) !in text
      case _ => false
  {
    var k := FindService(services, selected);
    if k.None? then true
    else
      match services[k.value].availableDays
      case NoDays => true
      case DaysText(parsed) =>
        match parsed
        case Malformed => true
        case JArray(items) => JNumber(day as real) in items
        case JString(text) => DigitChar(day) in text
        case JScalar => true
  }

  /** A service configured with weekday numbers [1, 3, 5] refuses a date
      whose getDay number is 2 and accepts one whose getDay number is 3. */
  lemma WeekdayFilterExample(id: Id, name: string, price: real, dur: int)
    ensures var s := ServiceOption(id, name, price, dur,
        DaysText(JArray([JNumber(1.0), JNumber(3.0), JNumber(5.0)])), None, None);
      !IsDateAvailable([s], Some(id), 2) && IsDateAvailable([s], Some(id), 3)
  {
    var items := [JNumber(1.0), JNumber(3.0), JNumber(5.0)];
    assert JNumber(2.0) !in items by {
      forall i | 0 <= i < |items| ensures items[i] != JNumber(2.0) { }
    }
    assert items[1] == JNumber(3.0);
  }

  /** The items `JSON.parse` gives for a stored list of weekday numbers. */
  function DayItems(ds: seq<Weekday>): (r: seq<JsonItem>)
    ensures |r| == |ds| && forall i :: 0 <= i < |ds| ==> r[i] == JNumber(ds[i] as real)
  {
    seq(|ds|, i requires 0 <= i < |ds| => JNumber(ds[i] as real))
  }

  /** A stored JSON string of weekday digits, such as "135". */
  function DayDigits(ds: seq<Weekday>): (r: string)
    ensures |r| == |ds| && forall i :: 0 <= i < |ds| ==> r[i] == DigitChar(ds[i])
  {
    seq(|ds|, i requires 0 <= i < |ds| => DigitChar(ds[i]))
  }

  /** For any services, selection and day: when the selected service's days
      are stored as a list of weekday numbers, or as a string of weekday
      digits, a date is bookable exactly when its getDay number is one of
      them. */
  lemma AvailableOnListedDays(services: seq<ServiceOption>, selected: Option<Id>, ds: seq<Weekday>, day: Weekday)
    requires FindService(services, selected).Some?
    ensures var days := services[FindService(services, selected).value].availableDays;
      && (days == DaysText(JArray(DayItems(ds))) ==> (IsDateAvailable(services, selected, day) <==> day in ds))
      && (days == DaysText(JString(DayDigits(ds))) ==> (IsDateAvailable(services, selected, day) <==> day in ds))
  {
    var items := DayItems(ds);
    var text := DayDigits(ds);
    if day in ds {
      var i :| 0 <= i < |ds| && ds[i] == day;
      assert items[i] == JNumber(day as real);
      assert text[i] == DigitChar(day);
    }
    if JNumber(day as real) in items {
      var i :| 0 <= i < |items| && items[i] == JNumber(day as real);
      assert ds[i] == day;
    }
    if DigitChar(day) in text {
      var i :| 0 <= i < |text| && text[i] == DigitChar(day);
      DigitCharValue(ds[i]);
      DigitCharValue(day);
      assert ds[i] == day;
    }
  }

  // ---------------------------------------------------------------------
  // handleBooking's guards
  // ---------------------------------------------------------------------

  datatype BookingAction =
    | GoToSignIn          // "Login necessário", then a redirect to /sign-in
    | Incomplete          // "Dados incompletos"
    | DateUnavailable     // "Data não disponível"
    | Send(request: BookingRequest)

  /** The checks `handleBooking` makes, in order, before posting the
      booking. `scheduledAt` is the instant of `${date}T${time}:00`, whose
      date-library conversion is taken as given. */
  function HandleBooking(signedIn: bool, services: seq<ServiceOption>, salonId: Id,
                         selected: Option<Id>, date: string, time: string,
                         day: Weekday, scheduledAt: int): (a: BookingAction)
    ensures a == GoToSignIn <==> !signedIn
    ensures a == Incomplete <==> signedIn && (selected.None? || date == "" || time == "")
    ensures a == DateUnavailable <==>
      signedIn && selected.Some? && date != "" && time != "" && !IsDateAvailable(services, selected, day)
    ensures a.Send? ==> (IsDateAvailable(services, selected, day)
      && a.request.serviceId == selected.value && a.request.salonId == salonId
      && a.request.scheduledAt == scheduledAt)
  {
    if !signedIn then GoToSignIn
    else if selected.None? || date == "" || time == "" then Incomplete
    else if !IsDateAvailable(services, selected, day) then DateUnavailable
    else
      var k := FindService(services, selected);
      var price := if k.Some? then services[k.value].basePrice else 0.0;
      Send(BookingRequest(selected.value, salonId, scheduledAt, price))
  }

  /** The price sent is the selected service's base price, or 0 when the
      selected id matches no service. */
  lemma BookingPrice(signedIn: bool, services: seq<ServiceOption>, salonId: Id,
                     selected: Option<Id>, date: string, time: string, day: Weekday, at: int)
    requires HandleBooking(signedIn, services, salonId, selected, date, time, day, at).Send?
    ensures var k := FindService(services, selected);
      HandleBooking(signedIn, services, salonId, selected, date, time, day, at).request.priceCharged
        == if k.Some? then services[k.value].basePrice else 0.0
  {
  }
}
