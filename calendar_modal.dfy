/** The calendar window: appointments grouped by their date key, the month
    grid (blank cells up to the first weekday, then one cell per day with at most
    two appointments previewed), month navigation, and the day view with its
    appointments in time order and the half-hour booking slots.  The day view is
    given the date key of the chosen day. */
module CalendarModal {
  import opened Common
  import opened Types
  import opened Dates
  import opened Sorting

  /** The appointments on `key`, in input order. */
  function OnDate(apps: seq<Appointment>, key: string): (r: seq<Appointment>)
    ensures |r| <= |apps|
    ensures forall i :: 0 <= i < |r| ==> r[i].date == key
    ensures multiset(r) <= multiset(apps)
  {
    if apps == [] then []
    else
      assert apps == apps[..|apps| - 1] + [apps[|apps| - 1]];
      OnDate(apps[..|apps| - 1], key) + (if apps[|apps| - 1].date == key then [apps[|apps| - 1]] else [])
  }

  /** Every appointment on `key` is kept. */
  lemma {:induction false} OnDateComplete(apps: seq<Appointment>, key: string, i: nat)
    requires i < |apps| && apps[i].date == key
    ensures apps[i] in OnDate(apps, key)
  {
    var init := apps[..|apps| - 1];
    if i < |apps| - 1 {
      assert init[i] == apps[i];
      OnDateComplete(init, key, i);
    }
  }

  lemma OnDateNone(apps: seq<Appointment>, key: string)
    requires forall i :: 0 <= i < |apps| ==> apps[i].date != key
    ensures OnDate(apps, key) == []
  {
    if apps != [] {
      OnDateNone(apps[..|apps| - 1], key);
    }
  }

  lemma OnDateSnoc(apps: seq<Appointment>, a: Appointment, key: string)
    ensures OnDate(apps + [a], key) == OnDate(apps, key) + (if a.date == key then [a] else [])
  {
    assert (apps + [a])[..|apps + [a]| - 1] == apps;
  }

  /** The grouping of `prefix` is complete and exact. */
  ghost predicate GroupedAs(groups: map<string, seq<Appointment>>, prefix: seq<Appointment>) {
    (forall k :: k in groups <==> exists j :: 0 <= j < |prefix| && prefix[j].date == k) &&
    (forall k :: k in groups ==> groups[k] == OnDate(prefix, k))
  }

  /** Pushing one more appointment onto its date's list keeps the grouping exact. */
  lemma GroupStep(groups: map<string, seq<Appointment>>, prefix: seq<Appointment>, app: Appointment)
    requires GroupedAs(groups, prefix)
    ensures GroupedAs(groups[app.date := (if app.date in groups then groups[app.date] else []) + [app]], prefix + [app])
  {
    var g := groups[app.date := (if app.date in groups then groups[app.date] else []) + [app]];
    GroupStepKeys(groups, prefix, app, g);
    GroupStepValues(groups, prefix, app, g);
  }

  lemma GroupStepValues(groups: map<string, seq<Appointment>>, prefix: seq<Appointment>, app: Appointment,
                        g: map<string, seq<Appointment>>)
    requires forall k :: k in groups ==> groups[k] == OnDate(prefix, k)
    requires app.date !in groups ==> forall j :: 0 <= j < |prefix| ==> prefix[j].date != app.date
    requires g == groups[app.date := (if app.date in groups then groups[app.date] else []) + [app]]
    ensures forall k :: k in g ==> g[k] == OnDate(prefix + [app], k)
  {
    forall k | k in g ensures g[k] == OnDate(prefix + [app], k) {
      OnDateSnoc(prefix, app, k);
      if k != app.date {
        assert g[k] == groups[k];
      } else if app.date in groups {
        assert g[k] == groups[k] + [app];
      } else {
        OnDateNone(prefix, k);
        assert g[k] == [app];
      }
    }
  }

  lemma GroupStepKeys(groups: map<string, seq<Appointment>>, prefix: seq<Appointment>, app: Appointment,
                      g: map<string, seq<Appointment>>)
    requires forall k :: k in groups <==> exists j :: 0 <= j < |prefix| && prefix[j].date == k
    requires g.Keys == groups.Keys + {app.date}
    ensures forall k :: k in g <==> exists j :: 0 <= j < |prefix + [app]| && (prefix + [app])[j].date == k
    ensures app.date !in groups ==> forall j :: 0 <= j < |prefix| ==> prefix[j].date != app.date
  {
    var next := prefix + [app];
    forall k ensures k in g <==> exists j :: 0 <= j < |next| && next[j].date == k {
      if k in groups {
        var j :| 0 <= j < |prefix| && prefix[j].date == k;
        assert next[j] == prefix[j];
      }
      if k == app.date {
        assert next[|prefix|] == app;
      }
      if exists j :: 0 <= j < |next| && next[j].date == k {
        var j :| 0 <= j < |next| && next[j].date == k;
        if j < |prefix| {
          assert prefix[j] == next[j];
        }
      }
    }
  }

  /** `appointmentsByDate`: each appointment is pushed onto the list for its date. */
  method GroupByDate(apps: seq<Appointment>) returns (groups: map<string, seq<Appointment>>)
    ensures forall k :: k in groups <==> exists i :: 0 <= i < |apps| && apps[i].date == k
    ensures forall k :: k in groups ==> groups[k] == OnDate(apps, k)
    ensures forall k :: k !in groups ==> OnDate(apps, k) == []
  {
    groups := map[];
    var i := 0;
    while i < |apps|
      invariant 0 <= i <= |apps|
      invariant GroupedAs(groups, apps[..i])
    {
      var app := apps[i];
      var dateKey := app.date;
      var bucket := if dateKey in groups then groups[dateKey] else [];
      GroupStep(groups, apps[..i], app);
      assert apps[..i + 1] == apps[..i] + [app];
      groups := groups[dateKey := bucket + [app]];
      i := i + 1;
    }
    assert apps[..i] == apps;
    GroupedComplete(groups, apps);
  }

  lemma GroupedComplete(groups: map<string, seq<Appointment>>, apps: seq<Appointment>)
    requires GroupedAs(groups, apps)
    ensures forall k :: k !in groups ==> OnDate(apps, k) == []
  {
    forall k | k !in groups ensures OnDate(apps, k) == [] {
      OnDateNone(apps, k);
    }
  }

  /** `appointmentsByDate[key] || []`. */
  function Bucket(groups: map<string, seq<Appointment>>, key: string): seq<Appointment> {
    if key in groups then groups[key] else []
  }

  ghost predicate Distinct(keys: seq<string>) {
    forall i, j :: 0 <= i < j < |keys| ==> keys[i] != keys[j]
  }

  function SumSizes(apps: seq<Appointment>, keys: seq<string>): nat {
    if keys == [] then 0 else |OnDate(apps, keys[0])| + SumSizes(apps, keys[1..])
  }

  function Occurrences(keys: seq<string>, k: string): nat {
    if keys == [] then 0 else (if keys[0] == k then 1 else 0) + Occurrences(keys[1..], k)
  }

  lemma {:induction false} OccursOnce(keys: seq<string>, k: string)
    requires Distinct(keys) && k in keys
    ensures Occurrences(keys, k) == 1
  {
    if keys[0] == k {
      OccursNot(keys[1..], k);
    } else {
      OccursOnce(keys[1..], k);
    }
  }

  lemma {:induction false} OccursNot(keys: seq<string>, k: string)
    requires k !in keys
    ensures Occurrences(keys, k) == 0
  {
    if keys != [] {
      OccursNot(keys[1..], k);
    }
  }

  lemma {:induction false} SumSizesSnoc(apps: seq<Appointment>, a: Appointment, keys: seq<string>)
    ensures SumSizes(apps + [a], keys) == SumSizes(apps, keys) + Occurrences(keys, a.date)
  {
    if keys != [] {
      OnDateSnoc(apps, a, keys[0]);
      SumSizesSnoc(apps, a, keys[1..]);
    }
  }

  /** The buckets partition the appointments: over any list of distinct date keys
      that includes every appointment's date, the bucket sizes add up to the number
      of appointments. */
  lemma {:induction false} BucketsPartition(apps: seq<Appointment>, keys: seq<string>)
    requires Distinct(keys)
    requires forall i :: 0 <= i < |apps| ==> apps[i].date in keys
    ensures SumSizes(apps, keys) == |apps|
  {
    if apps == [] {
      SumSizesEmpty(keys);
    } else {
      var init, last := apps[..|apps| - 1], apps[|apps| - 1];
      assert apps == init + [last];
      BucketsPartition(init, keys);
      SumSizesSnoc(init, last, keys);
      OccursOnce(keys, last.date);
    }
  }

  lemma {:induction false} SumSizesEmpty(keys: seq<string>)
    ensures SumSizes([], keys) == 0
  {
    if keys != [] {
      SumSizesEmpty(keys[1..]);
    }
  }

  /** A day cell shows the first two appointments of its bucket, and "n more" for the rest. */
  function Preview(bucket: seq<Appointment>): (r: (seq<Appointment>, Option<nat>))
    ensures |r.0| == MinInt(2, |bucket|) && r.0 == bucket[..|r.0|]
    ensures r.1.Some? <==> |bucket| > 2
    ensures |r.0| + (if r.1.Some? then r.1.value else 0) == |bucket|
  {
    (bucket[..MinInt(2, |bucket|)], if |bucket| > 2 then Some(|bucket| - 2) else None)
  }

  datatype Cell = Blank | Day(day: nat, key: string, isToday: bool, preview: seq<Appointment>, more: Option<nat>)

  /** The cell for `day` of month `m` of year `y`. */
  function DayCell(y: int, m: nat, day: nat, groups: map<string, seq<Appointment>>, today: (int, int, int)): (c: Cell)
    ensures c.Day? && c.day == day && c.key == DateKey(y, m, day)
    ensures c.isToday <==> today == (y, m, day)
    ensures (c.preview, c.more) == Preview(Bucket(groups, DateKey(y, m, day)))
  {
    var key := DateKey(y, m, day);
    var p := Preview(Bucket(groups, key));
    Day(day, key, day == today.2 && m == today.1 && y == today.0, p.0, p.1)
  }

  /** `renderMonthView`: blanks up to the weekday of the first, then the days 1 .. month length. */
  method BuildMonthGrid(y: int, m: nat, groups: map<string, seq<Appointment>>, today: (int, int, int))
    returns (cells: seq<Cell>)
    requires m < 12
    ensures |cells| == Weekday(y, m, 1) + DaysInMonth(y, m)
    ensures forall i :: 0 <= i < Weekday(y, m, 1) ==> cells[i] == Blank
    ensures forall d :: 1 <= d <= DaysInMonth(y, m) ==> cells[Weekday(y, m, 1) + d - 1] == DayCell(y, m, d, groups, today)
  {
    var firstDayOfMonth := Weekday(y, m, 1);
    var daysInMonth := DaysInMonth(y, m);
    cells := [];
    for i := 0 to firstDayOfMonth
      invariant |cells| == i
      invariant forall j :: 0 <= j < i ==> cells[j] == Blank
    {
      cells := cells + [Blank];
    }
    for day := 1 to daysInMonth + 1
      invariant |cells| == firstDayOfMonth + day - 1
      invariant forall j :: 0 <= j < firstDayOfMonth ==> cells[j] == Blank
      invariant forall j :: firstDayOfMonth <= j < |cells| ==> cells[j] == DayCell(y, m, j - firstDayOfMonth + 1, groups, today)
    {
      cells := cells + [DayCell(y, m, day, groups, today)];
    }
    forall d | 1 <= d <= daysInMonth
      ensures cells[firstDayOfMonth + d - 1] == DayCell(y, m, d, groups, today)
    {
      var j := firstDayOfMonth + d - 1;
      assert cells[j] == DayCell(y, m, j - firstDayOfMonth + 1, groups, today);
    }
  }

  /** Every day cell's key reads back as its own date, so each cell shows exactly
      the appointments stored under that date. */
  lemma DayCellKey(y: nat, m: nat, day: nat, groups: map<string, seq<Appointment>>, today: (int, int, int))
    requires m < 12 && 1 <= day <= DaysInMonth(y, m)
    ensures ParseDateKey(DayCell(y, m, day, groups, today).key) == Some((y, m, day))
  {
    DateKeyRoundTrip(y, m, day);
  }

  /** `new Date(year, month - 1, 1)`. */
  function PrevMonth(y: int, m: int): (r: (int, int))
    requires 0 <= m < 12
    ensures 0 <= r.1 < 12
    ensures 12 * r.0 + r.1 == 12 * y + m - 1
  {
    if m == 0 then (y - 1, 11) else (y, m - 1)
  }

  /** `new Date(year, month + 1, 1)`. */
  function NextMonth(y: int, m: int): (r: (int, int))
    requires 0 <= m < 12
    ensures 0 <= r.1 < 12
    ensures 12 * r.0 + r.1 == 12 * y + m + 1
  {
    if m == 11 then (y + 1, 0) else (y, m + 1)
  }

  /** Back one month then forward one, or the other way, returns to the same month. */
  lemma NavigationInverse(y: int, m: int)
    requires 0 <= m < 12
    ensures var p := PrevMonth(y, m); NextMonth(p.0, p.1) == (y, m)
    ensures var n := NextMonth(y, m); PrevMonth(n.0, n.1) == (y, m)
  {
  }

  /** The next month's grid starts the day after this month's last day. */
  lemma NextMonthContinues(y: int, m: int)
    requires 0 <= m < 12
    ensures var n := NextMonth(y, m); DayNumber(n.0, n.1, 1) == DayNumber(y, m, 1) + DaysInMonth(y, m)
  {
    NextMonthStart(y, m);
  }

  function ByTime(a: Appointment): int {
    TimeKey(a.time)
  }

  /** The day view's list: that day's appointments, ordered by time. */
  function DayAppointments(apps: seq<Appointment>, key: string): (r: seq<Appointment>)
    ensures multiset(r) == multiset(OnDate(apps, key))
    ensures forall i :: 0 <= i < |r| ==> r[i].date == key
    ensures SortedBy(r, ByTime)
  {
    var r := SortBy(OnDate(apps, key), ByTime);
    SameDates(OnDate(apps, key), r, key);
    r
  }

  lemma SameDates(s: seq<Appointment>, r: seq<Appointment>, key: string)
    requires multiset(r) == multiset(s)
    requires forall i :: 0 <= i < |s| ==> s[i].date == key
    ensures forall i :: 0 <= i < |r| ==> r[i].date == key
  {
    forall i | 0 <= i < |r| ensures r[i].date == key {
      assert r[i] in multiset(s);
      var j :| 0 <= j < |s| && s[j] == r[i];
    }
  }

  /** The day view lists exactly the appointments of that day. */
  lemma DayViewExact(apps: seq<Appointment>, key: string, a: Appointment)
    ensures a in DayAppointments(apps, key) <==> a in apps && a.date == key
  {
    var r := DayAppointments(apps, key);
    if a in r {
      assert a in multiset(OnDate(apps, key));
      assert a in multiset(apps);
    }
    if a in apps && a.date == key {
      var i :| 0 <= i < |apps| && apps[i] == a;
      OnDateComplete(apps, key, i);
      assert a in multiset(r);
    }
  }

  /** Adjacent well-formed times in the day view are in text order as well. */
  lemma DayViewTextOrder(apps: seq<Appointment>, key: string, i: nat)
    requires i + 1 < |DayAppointments(apps, key)|
    requires ParseTime(DayAppointments(apps, key)[i].time).Some?
    requires ParseTime(DayAppointments(apps, key)[i + 1].time).Some?
    ensures TextLe(DayAppointments(apps, key)[i].time, DayAppointments(apps, key)[i + 1].time)
  {
    var r := DayAppointments(apps, key);
    assert ByTime(r[i]) <= ByTime(r[i + 1]);
    TimeKeyMatchesText(r[i].time, r[i + 1].time);
  }

  const TimeSlots: seq<string> := [
    "09:00", "09:30", "10:00", "10:30", "11:00", "11:30",
    "12:00", "12:30", "13:00", "13:30", "14:00", "14:30",
    "15:00", "15:30", "16:00", "16:30", "17:00", "17:30",
    "18:00", "18:30", "19:00", "19:30", "20:00"]

  /** 23 slots, half an hour apart, from 09:00 to 20:00. */
  lemma SlotsEveryHalfHour()
    ensures |TimeSlots| == 23
    ensures forall i :: 0 <= i < |TimeSlots| ==> ParseTime(TimeSlots[i]) == Some(540 + 30 * i)
  {
    forall i | 0 <= i < |TimeSlots| ensures ParseTime(TimeSlots[i]) == Some(540 + 30 * i) {
      SlotTime(i);
    }
  }

  lemma SlotTime(i: nat)
    requires i < 23
    ensures ParseTime(TimeSlots[i]) == Some(540 + 30 * i)
  {
    var t := TimeSlots[i];
    TwoDigits(t[..2]);
    TwoDigits(t[3..]);
  }

  /** `dayAppointments.some(app => app.time === time)`. */
  predicate IsBooked(dayApps: seq<Appointment>, time: string) {
    exists i :: 0 <= i < |dayApps| && dayApps[i].time == time
  }

  /** A slot is booked exactly when some appointment of that day is at that time. */
  lemma BookedIff(apps: seq<Appointment>, key: string, time: string)
    ensures IsBooked(DayAppointments(apps, key), time) <==>
            exists i :: 0 <= i < |apps| && apps[i].date == key && apps[i].time == time
  {
    var r := DayAppointments(apps, key);
    if IsBooked(r, time) {
      var i :| 0 <= i < |r| && r[i].time == time;
      DayViewExact(apps, key, r[i]);
      var j :| 0 <= j < |apps| && apps[j] == r[i];
      assert apps[j].date == key && apps[j].time == time;
    }
    if exists i :: 0 <= i < |apps| && apps[i].date == key && apps[i].time == time {
      var i :| 0 <= i < |apps| && apps[i].date == key && apps[i].time == time;
      DayViewExact(apps, key, apps[i]);
      var j :| 0 <= j < |r| && r[j] == apps[i];
      assert r[j].time == time;
    }
  }

  /** The day view's own state: the chosen slot and whether the slot panel is open. */
  class DayView {
    var selectedTime: string
    var showTimeSetup: bool

    constructor ()
      ensures selectedTime == "" && !showTimeSetup
    {
      selectedTime := "";
      showTimeSetup := false;
    }

    method ToggleTimeSetup()
      modifies this
      ensures showTimeSetup == !old(showTimeSetup) && selectedTime == old(selectedTime)
    {
      showTimeSetup := !showTimeSetup;
    }

    /** The panel's Cancel button closes it; "Schedule Something" on an empty day opens it. */
    method SetTimeSetup(show: bool)
      modifies this
      ensures showTimeSetup == show && selectedTime == old(selectedTime)
    {
      showTimeSetup := show;
    }

    /** Clicking a slot: a booked slot does nothing; a free one is chosen and the panel closes. */
    method ClickSlot(dayApps: seq<Appointment>, time: string)
      modifies this
      ensures IsBooked(dayApps, time) ==> selectedTime == old(selectedTime) && showTimeSetup == old(showTimeSetup)
      ensures !IsBooked(dayApps, time) ==> selectedTime == time && !showTimeSetup
    {
      var isBooked := exists i :: 0 <= i < |dayApps| && dayApps[i].time == time;
      if !isBooked {
        selectedTime := time;
        showTimeSetup := false;
      }
    }
  }

  /** The month shown (`currentDate`) and the day chosen for the day view. */
  class Calendar {
    var year: int
    var month: int
    var day: int
    var selected: Option<(int, int, int)>

    ghost predicate Valid()
      reads this
    {
      0 <= month < 12
    }

    constructor (today: (int, int, int))
      requires 0 <= today.1 < 12
      ensures Valid()
      ensures (year, month, day) == today && selected == None
    {
      year, month, day := today.0, today.1, today.2;
      selected := None;
    }

    method PrevMonthClick()
      requires Valid()
      modifies this
      ensures Valid()
      ensures (year, month) == PrevMonth(old(year), old(month)) && day == 1 && selected == old(selected)
    {
      var r := PrevMonth(year, month);
      year, month, day := r.0, r.1, 1;
    }

    method NextMonthClick()
      requires Valid()
      modifies this
      ensures Valid()
      ensures (year, month) == NextMonth(old(year), old(month)) && day == 1 && selected == old(selected)
    {
      var r := NextMonth(year, month);
      year, month, day := r.0, r.1, 1;
    }

    method SelectDay(d: int)
      requires Valid()
      modifies this
      ensures Valid()
      ensures selected == Some((year, month, d))
      ensures year == old(year) && month == old(month) && day == old(day)
    {
      selected := Some((year, month, d));
    }

    method BackToMonth()
      requires Valid()
      modifies this
      ensures Valid()
      ensures selected == None && year == old(year) && month == old(month) && day == old(day)
    {
      selected := None;
    }

    /** Closing the window drops the chosen day; the month shown is kept. */
    method Closed()
      requires Valid()
      modifies this
      ensures Valid()
      ensures selected == None && year == old(year) && month == old(month) && day == old(day)
    {
      selected := None;
    }
  }
}
