/** The usage panel: a progress bar for activities and one for minutes, each
    coloured by how full it is, the hours-and-minutes label, and the upgrade
    hint shown to Basic users who are close to a limit.  Percentages are exact
    reals rather than floating-point numbers. */
module UsageDisplay {
  import opened Common
  import opened Types
  import opened UsageTracker

  datatype Colour = Green | Yellow | Red

  /** `used / limit * 100`. */
  function Percent(used: int, limit: nat): real
    requires limit > 0
  {
    (used as real) / (limit as real) * 100.0
  }

  /** The bar is full exactly when the quota is used up; below that it is proportional. */
  lemma PercentFull(used: int, limit: nat)
    requires limit > 0
    ensures Percent(used, limit) >= 100.0 <==> used >= limit
    ensures Percent(used, limit) > 100.0 <==> used > limit
    ensures used >= 0 ==> Percent(used, limit) >= 0.0
  {
    var q := (used as real) / (limit as real);
    assert q * (limit as real) == used as real;
    assert q > 1.0 ==> q * (limit as real) > limit as real;
    assert q <= 1.0 ==> q * (limit as real) <= limit as real;
  }

  /** `Math.min(percent, 100)`. */
  function BarWidth(p: real): (w: real)
    ensures w <= 100.0
    ensures w == p <==> p <= 100.0
    ensures p >= 100.0 ==> w == 100.0
  {
    MinReal(p, 100.0)
  }

  /** Red above 80, yellow above 60, green otherwise. */
  function BarColour(p: real): (c: Colour)
    ensures c == Red <==> p > 80.0
    ensures c == Yellow <==> 60.0 < p <= 80.0
    ensures c == Green <==> p <= 60.0
  {
    if p > 80.0 then Red else if p > 60.0 then Yellow else Green
  }

  function Severity(c: Colour): nat {
    match c
    case Green => 0
    case Yellow => 1
    case Red => 2
  }

  /** A fuller bar is never shown in a milder colour. */
  lemma ColourMonotone(p: real, q: real)
    requires p <= q
    ensures Severity(BarColour(p)) <= Severity(BarColour(q))
  {
  }

  /** The upgrade hint: Basic plan and either bar above 70 percent. */
  function ShowHint(plan: Plan, activitiesPercent: real, timePercent: real): bool {
    plan == Basic && (activitiesPercent > 70.0 || timePercent > 70.0)
  }

  /** `${floor(used/60)}h ${used % 60}m / ${floor(limit/60)}h`. */
  function TimeLabel(used: int, limit: nat): string {
    var hm := HoursMinutes(used);
    IntToString(hm.0) + "h " + IntToString(hm.1) + "m / " + NatToString(limit / 60) + "h"
  }

  datatype Panel = Panel(
    planLabel: Plan,
    activitiesUsed: int, activitiesLimit: nat, activitiesWidth: real, activitiesColour: Colour,
    timeLabel: string, timeWidth: real, timeColour: Colour,
    hint: bool)

  /** The whole panel for a signed-in user and the record `getUsage` returned for them;
      nothing is rendered when nobody is signed in. */
  function Render(user: Option<UserInfo>, usage: Usage): (r: Option<Panel>)
    ensures r.None? <==> user.None?
    ensures r.Some? ==>
      var l := LimitsFor(user.value.plan);
      var ap, tp := Percent(usage.activitiesUsed, l.activities), Percent(usage.sessionTimeUsed, l.sessionMinutes);
      r.value.planLabel == user.value.plan && r.value.activitiesUsed == usage.activitiesUsed &&
      r.value.activitiesLimit == l.activities &&
      r.value.activitiesWidth == BarWidth(ap) && r.value.timeWidth == BarWidth(tp) &&
      r.value.activitiesColour == BarColour(ap) && r.value.timeColour == BarColour(tp) &&
      r.value.timeLabel == TimeLabel(usage.sessionTimeUsed, l.sessionMinutes) &&
      (r.value.hint <==> user.value.plan == Basic &&
                         (usage.activitiesUsed * 100 > 70 * l.activities ||
                          usage.sessionTimeUsed * 100 > 70 * l.sessionMinutes))
  {
    match user
    case None => None
    case Some(u) =>
      var l := LimitsFor(u.plan);
      var ap := Percent(usage.activitiesUsed, l.activities);
      var tp := Percent(usage.sessionTimeUsed, l.sessionMinutes);
      PercentAbove(usage.activitiesUsed, l.activities, 70.0);
      PercentAbove(usage.sessionTimeUsed, l.sessionMinutes, 70.0);
      Some(Panel(u.plan, usage.activitiesUsed, l.activities, BarWidth(ap), BarColour(ap),
                 TimeLabel(usage.sessionTimeUsed, l.sessionMinutes), BarWidth(tp), BarColour(tp),
                 ShowHint(u.plan, ap, tp)))
  }

  /** On the Basic plan (8 activities, 90 minutes) the hint appears from the sixth
      activity or the sixty-fourth minute on, and never on Premium. */
  lemma BasicHintThresholds(user: UserInfo, usage: Usage)
    ensures var r := Render(Some(user), usage);
            r.Some? &&
            (r.value.hint <==> user.plan == Basic && (usage.activitiesUsed >= 6 || usage.sessionTimeUsed >= 64))
  {
    var a, t := usage.activitiesUsed, usage.sessionTimeUsed;
    PercentAbove(a, 8, 70.0);
    PercentAbove(t, 90, 70.0);
    if user.plan == Basic {
      assert Percent(a, 8) > 70.0 <==> (a as real) * 10.0 > 56.0;
      assert Percent(t, 90) > 70.0 <==> (t as real) * 10.0 > 630.0;
    }
  }

  /** `used / limit * 100 > threshold` compared without division. */
  lemma PercentAbove(used: int, limit: nat, threshold: real)
    requires limit > 0
    ensures Percent(used, limit) > threshold <==> (used as real) * 100.0 > threshold * (limit as real)
  {
    var q := (used as real) / (limit as real);
    assert q * (limit as real) == used as real;
  }

  /** On the Basic plan the activity bar turns red at the seventh activity and yellow at the fifth. */
  lemma BasicActivityColours(usage: Usage)
    ensures BarColour(Percent(usage.activitiesUsed, 8)) ==
            if usage.activitiesUsed >= 7 then Red else if usage.activitiesUsed >= 5 then Yellow else Green
  {
    PercentAbove(usage.activitiesUsed, 8, 80.0);
    PercentAbove(usage.activitiesUsed, 8, 60.0);
  }

  /** The time label's hours and minutes add back up to the minutes used. */
  lemma TimeLabelFigures(used: nat, limit: nat)
    ensures var hm := HoursMinutes(used);
            TimeLabel(used, limit) ==
              NatToString(hm.0) + "h " + NatToString(hm.1) + "m / " + NatToString(limit / 60) + "h" &&
            hm.0 * 60 + hm.1 == used && hm.1 < 60
  {
  }
}
