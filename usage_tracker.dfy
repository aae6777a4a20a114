/** The monthly usage quota.  Every user has one record, stored under the digits
    of the phone number; a record whose last reset is 30 or more days old is
    cleared when it is next read, and an activity may start only while both the
    activity count and the session minutes are under the plan's limits.
    Days are whole day numbers; "today" is a parameter. */
module UsageTracker {
  import opened Common
  import opened Types

  datatype Usage = Usage(activitiesUsed: int, sessionTimeUsed: int, lastResetDay: int, plan: Plan)

  datatype Limits = Limits(activities: nat, sessionMinutes: nat)

  datatype Decision = Allowed | Denied(reason: string)

  /** Basic: 8 activities and 90 minutes a month; Premium: 25 and 240. */
  function LimitsFor(plan: Plan): (l: Limits)
    ensures plan == Basic ==> l == Limits(8, 90)
    ensures plan == Premium ==> l == Limits(25, 240)
    ensures l.activities > 0 && l.sessionMinutes > 0
  {
    match plan
    case Basic => Limits(8, 90)
    case Premium => Limits(25, 240)
  }

  /** Records are keyed by the digits of the phone number only. */
  function UserKey(phone: string): string {
    Digits(phone)
  }

  /** The record a user with nothing stored starts from. */
  function DefaultUsage(today: int): Usage {
    Usage(0, 0, today, Basic)
  }

  /** `allUsage[userKey] || defaultUsage`. */
  function Stored(records: map<string, Usage>, phone: string, today: int): Usage {
    if UserKey(phone) in records then records[UserKey(phone)] else DefaultUsage(today)
  }

  predicate ResetDue(u: Usage, today: int) {
    today - u.lastResetDay >= 30
  }

  /** The record as `getUsage` returns it: cleared and re-dated when due, else as stored. */
  function Refreshed(u: Usage, today: int): (r: Usage)
    ensures r.plan == u.plan
    ensures ResetDue(u, today) ==> r.activitiesUsed == 0 && r.sessionTimeUsed == 0 && r.lastResetDay == today
    ensures !ResetDue(u, today) ==> r == u
    ensures !ResetDue(r, today)
  {
    if ResetDue(u, today) then u.(activitiesUsed := 0, sessionTimeUsed := 0, lastResetDay := today) else u
  }

  /** Reading a record twice on the same day resets it at most once. */
  lemma RefreshIdempotent(u: Usage, today: int)
    ensures Refreshed(Refreshed(u, today), today) == Refreshed(u, today)
  {
  }

  /** A user with no stored record has used nothing, whatever the day. */
  lemma NewUserStartsEmpty(records: map<string, Usage>, phone: string, today: int)
    requires UserKey(phone) !in records
    ensures var u := Refreshed(Stored(records, phone, today), today);
            u.activitiesUsed == 0 && u.sessionTimeUsed == 0 && u.lastResetDay == today && u.plan == Basic
  {
  }

  /** Two phone numbers that differ only in punctuation share one record. */
  lemma PunctuationShareRecord(records: map<string, Usage>, p1: string, p2: string, today: int)
    requires Digits(p1) == Digits(p2)
    ensures Stored(records, p1, today) == Stored(records, p2, today)
  {
  }

  /** `canStartActivity`'s verdict on a record that has already been refreshed. */
  function Decide(u: Usage, plan: Plan): (d: Decision)
    ensures d == Allowed <==>
            u.activitiesUsed < LimitsFor(plan).activities && u.sessionTimeUsed < LimitsFor(plan).sessionMinutes
    ensures u.activitiesUsed >= LimitsFor(plan).activities ==>
            d == Denied("You've used all " + NatToString(LimitsFor(plan).activities) +
                        " activities this month. Upgrade to Premium for more!")
    ensures u.activitiesUsed < LimitsFor(plan).activities && u.sessionTimeUsed >= LimitsFor(plan).sessionMinutes ==>
            d == Denied("You've used all " + NatToString(LimitsFor(plan).sessionMinutes) +
                        " minutes this month. Upgrade to Premium for more!")
  {
    var l := LimitsFor(plan);
    if u.activitiesUsed >= l.activities then
      Denied("You've used all " + NatToString(l.activities) + " activities this month. Upgrade to Premium for more!")
    else if u.sessionTimeUsed >= l.sessionMinutes then
      Denied("You've used all " + NatToString(l.sessionMinutes) + " minutes this month. Upgrade to Premium for more!")
    else Allowed
  }

  /** `Math.floor(m / 60)` hours and `m % 60` minutes, JavaScript operators. */
  function HoursMinutes(m: int): (hm: (int, int))
    ensures m >= 0 ==> hm.0 >= 0 && 0 <= hm.1 < 60 && hm.0 * 60 + hm.1 == m
    ensures m < 0 ==> hm.0 < 0 && -60 < hm.1 <= 0
    ensures hm.0 * 60 <= m < hm.0 * 60 + 60
    ensures m == JsQuot(m, 60) * 60 + hm.1
  {
    (m / 60, JsRem(m, 60))
  }

  /** Below zero the two JavaScript operators disagree: ten minutes over the
      limit is shown as "-1h -10m", which adds up to seventy minutes over. */
  lemma HoursMinutesOverLimit()
    ensures HoursMinutes(-10) == (-1, -10)
  {
  }

  /** `getUsageDisplay`'s figures: activities left, then hours and minutes left. */
  function DisplayFigures(u: Usage, plan: Plan): (f: (int, int, int))
    ensures f.0 == LimitsFor(plan).activities - u.activitiesUsed
    ensures var m := LimitsFor(plan).sessionMinutes - u.sessionTimeUsed;
            m >= 0 ==> 0 <= f.2 < 60 && f.1 * 60 + f.2 == m
  {
    var l := LimitsFor(plan);
    var hm := HoursMinutes(l.sessionMinutes - u.sessionTimeUsed);
    (l.activities - u.activitiesUsed, hm.0, hm.1)
  }

  function DisplayText(u: Usage, plan: Plan): string {
    var f := DisplayFigures(u, plan);
    IntToString(f.0) + " activities left | " + IntToString(f.1) + "h " + IntToString(f.2) + "m left"
  }

  /** The `daymaker_usage` storage dictionary and the static methods over it. */
  class UsageStore {
    var records: map<string, Usage>

    constructor (initial: map<string, Usage>)
      ensures records == initial
    {
      records := initial;
    }

    /** Reads the caller's record, resetting and saving it when 30 days have passed. */
    method GetUsage(phone: string, today: int) returns (u: Usage)
      modifies this
      ensures u == Refreshed(Stored(old(records), phone, today), today)
      ensures records == if ResetDue(Stored(old(records), phone, today), today)
                         then old(records)[UserKey(phone) := u] else old(records)
    {
      var key := Digits(phone);
      var usage := if key in records then records[key] else DefaultUsage(today);
      var daysSinceReset := today - usage.lastResetDay;
      if daysSinceReset >= 30 {
        usage := usage.(activitiesUsed := 0, sessionTimeUsed := 0, lastResetDay := today);
        SaveUsage(phone, usage);
      }
      u := usage;
    }

    /** Writes one entry; every other user's entry is unchanged. */
    method SaveUsage(phone: string, usage: Usage)
      modifies this
      ensures UserKey(phone) in records && records[UserKey(phone)] == usage
      ensures records.Keys == old(records).Keys + {UserKey(phone)}
      ensures forall k :: k in old(records) && k != UserKey(phone) ==> k in records && records[k] == old(records)[k]
    {
      var key := Digits(phone);
      records := records[key := usage];
    }

    /** The plan update on the returned record is not saved: storage changes
        only through the reset in `GetUsage`. */
    method CanStartActivity(phone: string, plan: Plan, today: int) returns (d: Decision)
      modifies this
      ensures d == Decide(Refreshed(Stored(old(records), phone, today), today), plan)
      ensures records == if ResetDue(Stored(old(records), phone, today), today)
                         then old(records)[UserKey(phone) := Refreshed(Stored(old(records), phone, today), today)]
                         else old(records)
    {
      var usage := GetUsage(phone, today);
      usage := usage.(plan := plan);
      var limits := LimitsFor(plan);
      if usage.activitiesUsed >= limits.activities {
        d := Denied("You've used all " + NatToString(limits.activities) + " activities this month. Upgrade to Premium for more!");
        return;
      }
      if usage.sessionTimeUsed >= limits.sessionMinutes {
        d := Denied("You've used all " + NatToString(limits.sessionMinutes) + " minutes this month. Upgrade to Premium for more!");
        return;
      }
      d := Allowed;
    }

    /** One more activity under the given plan; minutes untouched; other users untouched. */
    method RecordActivityStart(phone: string, plan: Plan, today: int)
      modifies this
      ensures var before := Refreshed(Stored(old(records), phone, today), today);
              records == old(records)[UserKey(phone) :=
                 Usage(before.activitiesUsed + 1, before.sessionTimeUsed, before.lastResetDay, plan)]
    {
      var usage := GetUsage(phone, today);
      usage := usage.(plan := plan);
      usage := usage.(activitiesUsed := usage.activitiesUsed + 1);
      SaveUsage(phone, usage);
    }

    /** Adds exactly `minutes` of session time; the plan and the count are untouched. */
    method RecordSessionTime(phone: string, minutes: int, today: int)
      modifies this
      ensures var before := Refreshed(Stored(old(records), phone, today), today);
              records == old(records)[UserKey(phone) :=
                 Usage(before.activitiesUsed, before.sessionTimeUsed + minutes, before.lastResetDay, before.plan)]
    {
      var usage := GetUsage(phone, today);
      usage := usage.(sessionTimeUsed := usage.sessionTimeUsed + minutes);
      SaveUsage(phone, usage);
    }

    method GetUsageDisplay(phone: string, plan: Plan, today: int) returns (text: string)
      modifies this
      ensures text == DisplayText(Refreshed(Stored(old(records), phone, today), today), plan)
      ensures records == if ResetDue(Stored(old(records), phone, today), today)
                         then old(records)[UserKey(phone) := Refreshed(Stored(old(records), phone, today), today)]
                         else old(records)
    {
      var usage := GetUsage(phone, today);
      var limits := LimitsFor(plan);
      var activitiesLeft := limits.activities - usage.activitiesUsed;
      var minutesLeft := limits.sessionMinutes - usage.sessionTimeUsed;
      var f := DisplayFigures(usage, plan);
      assert (activitiesLeft, minutesLeft / 60, JsRem(minutesLeft, 60)) == f;
      text := IntToString(activitiesLeft) + " activities left | " + IntToString(minutesLeft / 60) + "h " +
              IntToString(JsRem(minutesLeft, 60)) + "m left";
    }
  }
}
