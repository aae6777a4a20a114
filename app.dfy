/** The application shell: the signed-in user and the saved session that
    restores it for 30 days, opening an activity (gated by the usage quota),
    the appointment list kept in date-time order, the reminder timers five
    minutes before each appointment, and the video layout of the people in the
    call.  Clock readings are parameters in milliseconds (or days for the quota);
    a timer is represented by the delay it was set with. */
module App {
  import opened Common
  import opened Types
  import opened Dates
  import opened Sorting
  import opened UsageTracker
  import opened UserMenu

  const ReminderLeadMs: int := 5 * 60 * 1000
  const MsPerDay: int := 1000 * 60 * 60 * 24

  /** `new Date(date + 'T' + time).getTime()`, None for a malformed date or time. */
  function AppointmentMs(a: Appointment): Option<int> {
    match StartMinute(a.date, a.time)
    case Some(m) => Some(m * 60000)
    case None => None
  }

  /** The sort key of the appointment list; malformed entries compare as 0. */
  function ByDateTime(a: Appointment): int {
    match AppointmentMs(a)
    case Some(ms) => ms
    case None => 0
  }

  /** `[...prev, newAppointment].sort(by date-time)`. */
  function AddSorted(appointments: seq<Appointment>, a: Appointment): (r: seq<Appointment>)
    ensures multiset(r) == multiset(appointments) + multiset{a}
    ensures SortedBy(r, ByDateTime)
  {
    SortBy(appointments + [a], ByDateTime)
  }

  /** Inserting into a sorted list places the new appointment after every earlier-or-equal
      one and keeps the order of those already there. */
  lemma AddSortedInserts(appointments: seq<Appointment>, a: Appointment)
    requires SortedBy(appointments, ByDateTime)
    ensures AddSorted(appointments, a) == InsertBy(appointments, a, ByDateTime)
  {
    SortAfterAppend(appointments, a, ByDateTime);
  }

  /** The delay of an appointment's reminder: five minutes before it starts, from now. */
  function ReminderDelay(a: Appointment, nowMs: int): Option<int> {
    match AppointmentMs(a)
    case Some(ms) => Some(ms - ReminderLeadMs - nowMs)
    case None => None
  }

  /** A reminder is due exactly when the appointment starts more than five minutes from now. */
  lemma ReminderDueIff(a: Appointment, nowMs: int)
    requires AppointmentMs(a).Some?
    ensures ReminderDelay(a, nowMs).value > 0 <==> AppointmentMs(a).value > nowMs + 300000
  {
  }

  /** The delay a browser timer really waits: `setTimeout` converts its delay to a
      signed 32-bit integer, wrapping modulo 2^32, and waits 0 for a negative one. */
  function TimerDelay(d: int): (r: nat)
    ensures r < 0x8000_0000
    ensures 0 <= d < 0x8000_0000 ==> r == d
    ensures 0x8000_0000 <= d < 0x1_0000_0000 ==> r == 0
    ensures r == d % 0x1_0000_0000 || r == 0
  {
    var m := d % 0x1_0000_0000;
    if m >= 0x8000_0000 then 0 else m
  }

  /** The reminder fires five minutes before the appointment when that is at most
      2^31 - 1 ms (about 24.8 days) away; from there up to 2^32 - 1 ms away it fires
      at once, and further out the delay wraps around again. */
  lemma ReminderTiming(a: Appointment, nowMs: int)
    requires ReminderDelay(a, nowMs).Some?
    ensures var d := ReminderDelay(a, nowMs).value;
            (0 < d < 0x8000_0000 ==> nowMs + TimerDelay(d) == AppointmentMs(a).value - ReminderLeadMs) &&
            (0x8000_0000 <= d < 0x1_0000_0000 ==> TimerDelay(d) == 0) &&
            (d >= 0x1_0000_0000 ==> TimerDelay(d) < d)
  {
  }

  /** The stored `daymaker_user` record. */
  datatype StoredSession = StoredSession(phone: string, email: string, plan: Plan, name: string, loginMs: int)

  /** `Math.floor(elapsed / one day)`. */
  function DaysSince(loginMs: int, nowMs: int): int {
    (nowMs - loginMs) / MsPerDay
  }

  /** The user a saved session restores, with the phone falling back to the email. */
  function SessionUser(s: StoredSession): UserInfo {
    UserInfo(if s.phone != "" then s.phone else s.email, s.plan, s.name, s.email)
  }

  /** On load: a session younger than 30 whole days restores its user; an older one is removed. */
  function RestoreSession(saved: Option<StoredSession>, nowMs: int): (r: (Option<UserInfo>, Option<StoredSession>))
    ensures saved.None? ==> r == (None, None)
    ensures saved.Some? && nowMs - saved.value.loginMs < 30 * MsPerDay ==> r == (Some(SessionUser(saved.value)), saved)
    ensures saved.Some? && nowMs - saved.value.loginMs >= 30 * MsPerDay ==> r == (None, None)
  {
    match saved
    case None => (None, None)
    case Some(s) =>
      DaysBelow30(s.loginMs, nowMs);
      if DaysSince(s.loginMs, nowMs) < 30 then (Some(SessionUser(s)), saved) else (None, None)
  }

  /** Fewer than 30 whole days have passed exactly when less than 30 days of milliseconds have. */
  lemma DaysBelow30(loginMs: int, nowMs: int)
    ensures DaysSince(loginMs, nowMs) < 30 <==> nowMs - loginMs < 30 * MsPerDay
  {
    var e := nowMs - loginMs;
    var q := e / MsPerDay;
    assert e == MsPerDay * q + e % MsPerDay;
  }

  /** The session saved on sign-in. */
  function SaveSession(user: UserInfo, nowMs: int): StoredSession {
    StoredSession(user.phone, user.email, user.plan, user.name, nowMs)
  }

  /** Signing in and reloading within 30 days brings back the same user. */
  lemma SessionRoundTrip(user: UserInfo, loginMs: int, nowMs: int)
    requires user.phone != ""
    requires loginMs <= nowMs < loginMs + 30 * MsPerDay
    ensures RestoreSession(Some(SaveSession(user, loginMs)), nowMs).0 == Some(user)
  {
  }

  /** `userLayout.map(u => u.id === id ? { ...u, position: 'center' } : u)`. */
  function CenterUser(layout: seq<UserRole>, id: RoleId): (r: seq<UserRole>)
    ensures |r| == |layout|
    ensures forall i :: 0 <= i < |r| ==> r[i] == if layout[i].id == id then layout[i].(position := Center) else layout[i]
  {
    if layout == [] then []
    else [if layout[0].id == id then layout[0].(position := Center) else layout[0]] + CenterUser(layout[1..], id)
  }

  /** Centring a user twice is centring once, and nobody else moves. */
  lemma CenterUserIdempotent(layout: seq<UserRole>, id: RoleId)
    ensures CenterUser(CenterUser(layout, id), id) == CenterUser(layout, id)
    ensures forall i :: 0 <= i < |layout| && layout[i].id != id ==> CenterUser(layout, id)[i] == layout[i]
  {
  }

  /** Where an allowed activity opens. */
  datatype Opened = ContentCreation | CallWindow

  function OpensIn(activity: Activity): (o: Opened)
    ensures o == ContentCreation <==> activity.title == ContentCreationTitle
  {
    if activity.title == ContentCreationTitle then ContentCreation else CallWindow
  }

  /** In the catalogue only its last activity opens the card studio. */
  lemma OnlyContentCreationOpensStudio()
    ensures forall i :: 0 <= i < |Catalogue| ==> (OpensIn(Catalogue[i]) == ContentCreation <==> i == 31)
  {
    CataloguePremium();
    forall i | 0 <= i < |Catalogue| ensures OpensIn(Catalogue[i]) == ContentCreation <==> i == 31 {
      if i != 31 {
        assert Catalogue[i].title != ContentCreationTitle by { CatalogueTitle(i); }
      }
    }
  }

  lemma CatalogueTitle(i: nat)
    requires i < 31
    ensures Catalogue[i].title != ContentCreationTitle
  {
    assert |Catalogue[i].title| != |ContentCreationTitle| || Catalogue[i].title[0] != 'C' ||
           Catalogue[i].title[1] != 'o' || Catalogue[i].title[8] != ' ';
  }

  /** The quota step of opening an activity, from the usage storage `before` to `after`.
      Without a signed-in user nothing is checked or recorded.  Otherwise the refreshed
      record decides: a refusal carries the reason and stores only a due monthly reset;
      an allowed start stores the refreshed record with one more activity. */
  ghost predicate QuotaStep(before: map<string, Usage>, after: map<string, Usage>, user: Option<UserInfo>,
                            today: int, refusal: Option<string>)
  {
    match user
    case None => refusal == None && after == before
    case Some(u) =>
      var record := Refreshed(Stored(before, u.phone, today), today);
      (refusal.Some? <==> Decide(record, u.plan) != Allowed) &&
      (refusal.Some? ==>
         refusal.value == Decide(record, u.plan).reason &&
         after == (if ResetDue(Stored(before, u.phone, today), today)
                   then before[UserKey(u.phone) := record] else before)) &&
      (refusal.None? ==>
         after == before[UserKey(u.phone) :=
           Usage(record.activitiesUsed + 1, record.sessionTimeUsed, record.lastResetDay, u.plan)])
  }

  /** A refusal by `canStartActivity` is the quota step's refusal. */
  lemma QuotaRefused(before: map<string, Usage>, after: map<string, Usage>, u: UserInfo, today: int, d: Decision)
    requires d == Decide(Refreshed(Stored(before, u.phone, today), today), u.plan) && d.Denied?
    requires after == if ResetDue(Stored(before, u.phone, today), today)
                      then before[UserKey(u.phone) := Refreshed(Stored(before, u.phone, today), today)]
                      else before
    ensures QuotaStep(before, after, Some(u), today, Some(d.reason))
  {
  }

  /** An allowed `canStartActivity` followed by `recordActivityStart` is the quota step's
      recorded start: the second read of the record sees the reset the first one stored. */
  lemma QuotaAllowed(before: map<string, Usage>, checked: map<string, Usage>, after: map<string, Usage>,
                     u: UserInfo, today: int)
    requires Decide(Refreshed(Stored(before, u.phone, today), today), u.plan) == Allowed
    requires checked == if ResetDue(Stored(before, u.phone, today), today)
                        then before[UserKey(u.phone) := Refreshed(Stored(before, u.phone, today), today)]
                        else before
    requires var record := Refreshed(Stored(checked, u.phone, today), today);
             after == checked[UserKey(u.phone) :=
               Usage(record.activitiesUsed + 1, record.sessionTimeUsed, record.lastResetDay, u.plan)]
    ensures QuotaStep(before, after, Some(u), today, None)
  {
    var record := Refreshed(Stored(before, u.phone, today), today);
    RefreshIdempotent(Stored(before, u.phone, today), today);
    assert Refreshed(Stored(checked, u.phone, today), today) == record;
  }

  /** Every field of the application shell at one moment; the handlers below state
      their whole effect as an update of this snapshot. */
  datatype Shell = Shell(
    userInfo: Option<UserInfo>, isF2FOpen: bool, isCalendarOpen: bool, isScheduleOpen: bool,
    isContentCreationOpen: bool, isSettingsOpen: bool, selectedActivity: Option<Activity>,
    appointments: seq<Appointment>, activeReminder: Option<Appointment>, currentUser: UserRole,
    userLayout: seq<UserRole>, cameraEnabled: bool, videosVisible: bool, reminders: map<string, int>,
    savedSession: Option<StoredSession>, usage: UsageStore)

  const DayMakerRole: UserRole := UserRole(DayMaker, "DayMaker", Center, "bg-gradient-to-r from-cyan-500 to-purple-500")

  class Application {
    var userInfo: Option<UserInfo>
    var isF2FOpen: bool
    var isCalendarOpen: bool
    var isScheduleOpen: bool
    var isContentCreationOpen: bool
    var isSettingsOpen: bool
    var selectedActivity: Option<Activity>
    var appointments: seq<Appointment>
    var activeReminder: Option<Appointment>
    var currentUser: UserRole
    var userLayout: seq<UserRole>
    var cameraEnabled: bool
    var videosVisible: bool
    /** `reminderTimeoutIds`: appointment id to the delay its timer waits. */
    var reminders: map<string, int>
    /** The `daymaker_user` storage entry. */
    var savedSession: Option<StoredSession>
    /** The usage quota storage. */
    var usage: UsageStore

    ghost function State(): Shell
      reads this
    {
      Shell(userInfo, isF2FOpen, isCalendarOpen, isScheduleOpen, isContentCreationOpen, isSettingsOpen,
            selectedActivity, appointments, activeReminder, currentUser, userLayout, cameraEnabled,
            videosVisible, reminders, savedSession, usage)
    }

    constructor (store: UsageStore, saved: Option<StoredSession>)
      ensures userInfo == None && !isF2FOpen && !isCalendarOpen && !isScheduleOpen
      ensures !isContentCreationOpen && !isSettingsOpen && selectedActivity == None
      ensures appointments == [] && activeReminder == None && currentUser == DayMakerRole
      ensures userLayout == [DayMakerRole] && cameraEnabled && videosVisible && reminders == map[]
      ensures savedSession == saved && usage == store
    {
      userInfo := None;
      isF2FOpen, isCalendarOpen, isScheduleOpen := false, false, false;
      isContentCreationOpen, isSettingsOpen := false, false;
      selectedActivity := None;
      appointments := [];
      activeReminder := None;
      currentUser := DayMakerRole;
      userLayout := [DayMakerRole];
      cameraEnabled, videosVisible := true, true;
      reminders := map[];
      savedSession := saved;
      usage := store;
    }

    /** The load-time check of the saved session. */
    method RestoreOnLoad(nowMs: int)
      modifies this
      ensures var r := RestoreSession(old(savedSession), nowMs);
              State() == old(State()).(userInfo := if r.0.Some? then r.0 else old(userInfo), savedSession := r.1)
    {
      if savedSession.Some? {
        var userData := savedSession.value;
        var daysDiff := (nowMs - userData.loginMs) / MsPerDay;
        DaysBelow30(userData.loginMs, nowMs);
        if daysDiff < 30 {
          userInfo := Some(UserInfo(if userData.phone != "" then userData.phone else userData.email,
                                    userData.plan, userData.name, userData.email));
        } else {
          savedSession := None;
        }
      }
    }

    method AuthComplete(user: UserInfo, nowMs: int)
      modifies this
      ensures State() == old(State()).(savedSession := Some(SaveSession(user, nowMs)), userInfo := Some(user))
    {
      savedSession := Some(StoredSession(user.phone, user.email, user.plan, user.name, nowMs));
      userInfo := Some(user);
    }

    method SignOutClick()
      modifies this
      ensures State() == old(State()).(savedSession := None, userInfo := None)
    {
      savedSession := None;
      userInfo := None;
    }

    /** Opening an activity.  For a signed-in user the quota decides first: a refusal
        opens nothing and records nothing (the alert text is returned); an allowed start
        is recorded once.  The card studio opens for "Content Creation", the call window
        for everything else. */
    method OpenActivity(activity: Activity, today: int) returns (refusal: Option<string>)
      modifies this, usage
      ensures QuotaStep(old(usage.records), usage.records, old(userInfo), today, refusal)
      ensures refusal.Some? ==> State() == old(State())
      ensures refusal.None? ==>
                State() == old(State()).(selectedActivity := Some(activity),
                  isContentCreationOpen := old(isContentCreationOpen) || OpensIn(activity) == ContentCreation,
                  isF2FOpen := old(isF2FOpen) || OpensIn(activity) == CallWindow)
    {
      if userInfo.Some? {
        var u := userInfo.value;
        ghost var records0 := usage.records;
        var usageCheck := usage.CanStartActivity(u.phone, u.plan, today);
        if usageCheck.Denied? {
          QuotaRefused(records0, usage.records, u, today, usageCheck);
          return Some(usageCheck.reason);
        }
        ghost var records1 := usage.records;
        usage.RecordActivityStart(u.phone, u.plan, today);
        QuotaAllowed(records0, records1, usage.records, u, today);
      }
      refusal := None;
      selectedActivity := Some(activity);
      if activity.title == ContentCreationTitle {
        isContentCreationOpen := true;
      } else {
        isF2FOpen := true;
      }
    }

    method OpenSchedule(activity: Activity)
      modifies this
      ensures State() == old(State()).(selectedActivity := Some(activity), isScheduleOpen := true)
    {
      selectedActivity := Some(activity);
      isScheduleOpen := true;
    }

    method CloseSchedule()
      modifies this
      ensures State() == old(State()).(isScheduleOpen := false, selectedActivity := None)
    {
      isScheduleOpen := false;
      selectedActivity := None;
    }

    method CloseF2F()
      modifies this
      ensures State() == old(State()).(isF2FOpen := false, selectedActivity := None)
    {
      isF2FOpen := false;
      selectedActivity := None;
    }

    method CloseContentCreation()
      modifies this
      ensures State() == old(State()).(isContentCreationOpen := false, selectedActivity := None)
    {
      isContentCreationOpen := false;
      selectedActivity := None;
    }

    /** Sets the reminder timer when the reminder time is still ahead, under the
        appointment's id (replacing any timer recorded under it).  The timer waits the
        delay as `setTimeout` converts it (TimerDelay). */
    method ScheduleReminder(a: Appointment, nowMs: int)
      modifies this
      ensures var d := ReminderDelay(a, nowMs);
              State() == old(State()).(reminders := if d.Some? && d.value > 0
                                                    then old(reminders)[a.id := TimerDelay(d.value)]
                                                    else old(reminders))
    {
      var appointmentTime := AppointmentMs(a);
      if appointmentTime.Some? {
        var reminderTime := appointmentTime.value - ReminderLeadMs;
        var timeoutDuration := reminderTime - nowMs;
        if timeoutDuration > 0 {
          reminders := reminders[a.id := TimerDelay(timeoutDuration)];
        }
      }
    }

    /** Adding an appointment: the list stays in date-time order, the reminder is set
        and the scheduling window closes. */
    method AddAppointment(a: Appointment, nowMs: int)
      modifies this
      ensures multiset(appointments) == multiset(old(appointments)) + multiset{a}
      ensures SortedBy(appointments, ByDateTime)
      ensures var d := ReminderDelay(a, nowMs);
              State() == old(State()).(appointments := AddSorted(old(appointments), a),
                                       reminders := if d.Some? && d.value > 0
                                                    then old(reminders)[a.id := TimerDelay(d.value)]
                                                    else old(reminders),
                                       isScheduleOpen := false, selectedActivity := None)
    {
      appointments := SortBy(appointments + [a], ByDateTime);
      ScheduleReminder(a, nowMs);
      CloseSchedule();
    }

    /** A reminder timer firing shows the reminder; the timer's entry is kept. */
    method ReminderFires(a: Appointment)
      modifies this
      ensures State() == old(State()).(activeReminder := Some(a))
    {
      activeReminder := Some(a);
    }

    method DismissReminder()
      modifies this
      ensures State() == old(State()).(activeReminder := None)
    {
      activeReminder := None;
    }

    /** "Join" on the reminder: the reminder closes and the activity opens exactly as
        from its card, quota check included. */
    method JoinFromReminder(activity: Activity, today: int) returns (refusal: Option<string>)
      modifies this, usage
      ensures QuotaStep(old(usage.records), usage.records, old(userInfo), today, refusal)
      ensures refusal.Some? ==> State() == old(State()).(activeReminder := None)
      ensures refusal.None? ==>
                State() == old(State()).(activeReminder := None, selectedActivity := Some(activity),
                  isContentCreationOpen := old(isContentCreationOpen) || OpensIn(activity) == ContentCreation,
                  isF2FOpen := old(isF2FOpen) || OpensIn(activity) == CallWindow)
    {
      activeReminder := None;
      refusal := OpenActivity(activity, today);
    }

    method OpenCalendar()
      modifies this
      ensures State() == old(State()).(isCalendarOpen := true)
    {
      isCalendarOpen := true;
    }

    method CloseCalendar()
      modifies this
      ensures State() == old(State()).(isCalendarOpen := false)
    {
      isCalendarOpen := false;
    }

    method OpenSettings()
      modifies this
      ensures State() == old(State()).(isSettingsOpen := true)
    {
      isSettingsOpen := true;
    }

    method CloseSettings()
      modifies this
      ensures State() == old(State()).(isSettingsOpen := false)
    {
      isSettingsOpen := false;
    }

    /** The chosen user becomes current, and takes the centre of the existing layout. */
    method UserChange(user: UserRole)
      modifies this
      ensures State() == old(State()).(currentUser := user, userLayout := CenterUser(old(userLayout), user.id))
    {
      currentUser := user;
      userLayout := CenterUser(userLayout, user.id);
    }

    method LayoutChange(layout: seq<UserRole>)
      modifies this
      ensures State() == old(State()).(userLayout := layout)
    {
      userLayout := layout;
    }

    method ToggleVideos(show: bool)
      modifies this
      ensures State() == old(State()).(videosVisible := show)
    {
      videosVisible := show;
    }

    method ToggleCamera(enabled: bool)
      modifies this
      ensures State() == old(State()).(cameraEnabled := enabled)
    {
      cameraEnabled := enabled;
    }
  }
}
