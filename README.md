# DayMaker2Day in Dafny

DayMaker2Day is a browser app where a "DayMaker" runs face-to-face (F2F) video activities
with seniors and their families. The parts modelled here are:

- the monthly usage quota: limits per plan (Basic or Premium), a reset once 30 days
  have passed, and the usage panel built from it;
- the sign-in page: phone formatting, log-in, sign-up with payment and a generated
  four-digit access code, and quick access by code;
- the activity cards with their premium lock;
- the application shell: the saved session, handing out activities against the quota,
  the sorted list of appointments, and reminders five minutes before an appointment;
- the appointment form and the calendar (month grid, day view, half-hour slots);
- the F2F call window: joining, mute, camera, speaker volume, and dragging the picture-in-picture;
- the password-locked settings panel with its bot-message templates;
- the greeting-card studio with its word wrap;
- the user menu, the multi-device manager and the on-site service request form;
- two Python tools: the e-mail campaign sender and the outreach bot.

React component state becomes a `class` in each case. Its fields are the component's state
variables and its methods are the event handlers, each stating the complete new state.
Pure computations become functions, with lemmas that state what the source relies on.
Local storage is modelled as a field holding a `map` or a `seq`. The clock, random numbers,
the camera, the mail server and the canvas's text measurement are all parameters.

Modules, one file each: `Common` (digits, numbers as text, splitting), `Sorting`, `Dates`,
`Types`, `UsageTracker`, `UsageDisplay`, `ActivityCard`, `AuthPage`, `App`, `ScheduleModal`,
`CalendarModal`, `F2FModal`, `SettingsModal`, `ContentCreation`, `UserMenu`, `MultiDevice`,
`SpecialService`, `EmailCampaign`, `AdvertisingBot`.

## Model

| member | source | states |
|---|---|---|
| Common.Digits | utils/usageTracker.ts:8 | `replace(/\D/g, '')` keeps only the digits, and never lengthens the text |
| Common.DigitsOfDigits | utils/usageTracker.ts:8 | a text that is all digits is left as it is |
| Common.DigitsAppend | utils/usageTracker.ts:8 | removing non-digits commutes with concatenation |
| Common.DigitsIdempotent | utils/usageTracker.ts:8 | cleaning a phone number twice is the same as cleaning it once |
| Common.NatToString | components/AuthPage.tsx:119 | decimal text of a number: all digits, no leading zero unless the number is 0, one digit below 10, two below 100 |
| Common.ParseNatToString | components/AuthPage.tsx:119 | reading the decimal text of a number back gives the number |
| Common.NatToStringFourDigits | components/AuthPage.tsx:119 | every code from 1000 to 9999 is written with exactly four digits |
| Common.Pad2 | components/CalendarModal.tsx:176 | `padStart(2, '0')`: a text of two or more characters is unchanged, a shorter one is left-padded to length 2 |
| Common.TwoDigitField | components/CalendarModal.tsx:176 | a padded month or day is two digits and reads back as the same number |
| Common.JsRem | utils/usageTracker.ts:93-97 | JavaScript's `%`: the remainder lies strictly between -b and b, has the dividend's sign, and is what is left of the dividend after the quotient truncated toward zero times b |
| Common.SplitOn | email_campaign.py:110-112 | `split(sep)`: at least one piece, no piece contains the separator, and more than one piece exactly when the separator occurs |
| Common.SplitJoin | email_campaign.py:110-112 | joining the pieces with the separator gives back the original text |
| Common.SplitOnAbsent | email_campaign.py:110-112 | a text without the separator splits into itself alone |
| Common.SplitOnFirst | email_campaign.py:110-112 | splitting at a first occurrence gives the part before it, followed by the pieces of the rest |
| Sorting.InsertBy | App.tsx:179 | inserting into a list adds exactly that element (multiset), one longer |
| Sorting.InsertByPosition | App.tsx:179 | the element goes in at one position, with every later element's key above its own and the one just before it at most its own |
| Sorting.InsertByWithKey | App.tsx:179 | inserting leaves the elements of every other key in their order and puts the new element after all elements of its own key |
| Sorting.InsertBySorted | App.tsx:179 | inserting into a sorted list keeps it sorted |
| Sorting.SortBy | App.tsx:179 | sorting by key: same length, a permutation (multiset), and sorted |
| Sorting.SortByStable | App.tsx:179 | the sort is stable: for every key the elements with that key come out in the order they went in |
| Sorting.SortBySorted | App.tsx:179 | sorting an already sorted list leaves it unchanged |
| Sorting.SortAfterAppend | App.tsx:179 | sorting a sorted list with one element appended amounts to inserting that element |
| Dates.DaysInMonth | components/CalendarModal.tsx:165 | `new Date(y, m + 1, 0).getDate()`: 28 to 31 days, 29 exactly in February of a leap year, 31 exactly in the seven long months |
| Dates.Weekday | components/CalendarModal.tsx:164 | `getDay()` is a weekday number below 7 |
| Dates.YearLength | components/CalendarModal.tsx:164-165 | consecutive year starts are 366 days apart in a leap year, 365 otherwise |
| Dates.NextMonthStart | components/CalendarModal.tsx:164-165 | the next month starts the number of days in this month after this month's first day |
| Dates.NextMonthWeekday | components/CalendarModal.tsx:164 | the next month's first weekday is this month's first weekday shifted by its length, modulo 7 |
| Dates.EpochAnchors | components/CalendarModal.tsx:164 | the day numbering agrees with the calendar: 1 January 1970 is day 0 and a Thursday, 1 January 2000 a Saturday, 1 January 2024 a Monday |
| Dates.DateKeyRoundTrip | components/CalendarModal.tsx:176 | the `YYYY-MM-DD` key of a grid day has dashes in the right places and parses back to the same year, month and day |
| Dates.ParseTime | App.tsx:166 | a well-formed `HH:MM` time is a minute of the day, below 1440 |
| Dates.TimeKeyMatchesText | components/CalendarModal.tsx:16 | for well-formed `HH:MM` times, the numeric key orders times exactly as text comparison does, and equal keys mean equal texts |
| Types.CataloguePremium | constants.ts:1-168 | the catalogue has 32 activities; exactly Virtual Vacation, Nostalgia Night, Tech/Device Help and Content Creation are premium |
| UsageTracker.LimitsFor | utils/usageTracker.ts:44-70 | Basic allows 8 activities and 90 minutes, Premium 25 and 240; both limits are positive |
| UsageTracker.Refreshed | utils/usageTracker.ts:20-32 | once 30 days have passed since the last reset, the counts go to zero and the reset date becomes today, plan kept; otherwise the usage is unchanged; afterwards no reset is due |
| UsageTracker.RefreshIdempotent | utils/usageTracker.ts:20-32 | reading the usage twice on the same day resets at most once |
| UsageTracker.NewUserStartsEmpty | utils/usageTracker.ts:10-15 | a phone without a record starts with no activities, no minutes and the basic plan |
| UsageTracker.PunctuationShareRecord | utils/usageTracker.ts:8 | two spellings of a phone number with the same digits share one usage record |
| UsageTracker.Decide | utils/usageTracker.ts:44-70 | an activity is allowed exactly when both limits have room; the activity limit is reported before the time limit, each with its own message |
| UsageTracker.HoursMinutes | utils/usageTracker.ts:85-99 | for non-negative minutes, whole hours and 0 to 59 minutes that add up to them; for negative ones, negative hours and minutes of the dividend's sign; always the hours are the floor of minutes over 60 and the minutes are JavaScript's `%`, the remainder after the truncated quotient |
| UsageTracker.HoursMinutesOverLimit | utils/usageTracker.ts:93-97 | ten minutes over the limit display as -1 h -10 m |
| UsageTracker.DisplayFigures | utils/usageTracker.ts:85-99 | the usage line shows remaining activities and remaining minutes as limit minus used |
| UsageTracker.UsageStore.constructor | utils/usageTracker.ts:4 | the store starts with the given records |
| UsageTracker.UsageStore.GetUsage | utils/usageTracker.ts:6-35 | returns the refreshed record, or a fresh one for an unknown phone, and writes the record back exactly when a reset was due |
| UsageTracker.UsageStore.SaveUsage | utils/usageTracker.ts:37-42 | writes the usage under the cleaned phone number; every other record is kept |
| UsageTracker.UsageStore.CanStartActivity | utils/usageTracker.ts:44-70 | the decision is the one on the refreshed record, and only the reset is stored |
| UsageTracker.UsageStore.RecordActivityStart | utils/usageTracker.ts:72-77 | the refreshed record is stored with one more activity |
| UsageTracker.UsageStore.RecordSessionTime | utils/usageTracker.ts:79-83 | the refreshed record is stored with the minutes added |
| UsageTracker.UsageStore.GetUsageDisplay | utils/usageTracker.ts:85-99 | the text is built from the refreshed record's remaining figures |
| UsageDisplay.PercentFull | components/UsageDisplay.tsx:24-25 | the usage percentage reaches 100 exactly at the limit, passes it exactly beyond the limit, and is never negative |
| UsageDisplay.BarWidth | components/UsageDisplay.tsx:45 | the bar is capped at 100 percent and is the percentage itself up to that cap |
| UsageDisplay.BarColour | components/UsageDisplay.tsx:42-43 | red above 80 percent, yellow above 60 percent up to 80, green otherwise; the three cases do not overlap |
| UsageDisplay.ColourMonotone | components/UsageDisplay.tsx:42-43 | more usage never gives a milder colour |
| UsageDisplay.Render | components/UsageDisplay.tsx:13-72 | nothing is rendered without a user; otherwise the panel names the user's plan and the activities used, and the bars, colours and time label come from the plan's limits, and the upgrade hint shows exactly for Basic when either count is above 70 percent of its limit |
| UsageDisplay.BasicHintThresholds | components/UsageDisplay.tsx:68-72 | a Basic user sees the hint from the 6th activity or the 64th minute on, and not before |
| UsageDisplay.PercentAbove | components/UsageDisplay.tsx:24-25 | a percentage threshold is crossed exactly when used times 100 exceeds threshold times limit |
| UsageDisplay.BasicActivityColours | components/UsageDisplay.tsx:42-43 | Basic activity bar: green up to 4 activities, yellow at 5 and 6, red from 7 |
| UsageDisplay.TimeLabelFigures | components/UsageDisplay.tsx:54 | the time label shows whole hours and leftover minutes of the minutes used, over the limit in hours |
| ActivityCard.PlanOrDefault | components/ActivityCard.tsx:15 | without a plan the card assumes Basic |
| ActivityCard.CanUse | components/ActivityCard.tsx:17-19 | an activity is usable exactly when it is not premium or the user has Premium |
| ActivityCard.HandleStartF2F | components/ActivityCard.tsx:21-27 | the start handler starts the call exactly when the activity is usable, and otherwise yields the premium alert |
| ActivityCard.HandleSchedule | components/ActivityCard.tsx:29-35 | the schedule handler opens the form exactly when the activity is usable, and otherwise yields the premium alert |
| ActivityCard.ClickNeverAlerts | components/ActivityCard.tsx:21-73 | both buttons are disabled when the activity is not usable, so a click calls back exactly on a usable card and otherwise does nothing; the alert branch is not reached from the card |
| ActivityCard.StartLabel | components/ActivityCard.tsx:62 | the start button shows the locked label exactly when the activity is not usable |
| ActivityCard.ScheduleLabel | components/ActivityCard.tsx:73 | the schedule button shows the locked label exactly when the activity is not usable |
| ActivityCard.DefaultPlanLocksPremium | components/ActivityCard.tsx:15-19 | no plan behaves like Basic and locks exactly the premium activities; Premium unlocks everything |
| ActivityCard.CatalogueLockedForBasic | components/ActivityCard.tsx:17-19 | a Basic user is locked out of exactly the four premium catalogue entries |
| ActivityCard.ButtonsAgree | components/ActivityCard.tsx:21-73 | both buttons are locked together, and the label says so exactly when they are |
| AuthPage.FormatPhoneShape | components/AuthPage.tsx:51-59 | character by character: with six or more digits `(`, three digits, `) `, three digits, `-`, then digits 7 to 10 (length digits + 4, at most 14); with three to five `(`, three digits, `) `, the rest; with fewer than three the bare digits |
| AuthPage.FormatPhoneDigits | components/AuthPage.tsx:51-59 | formatting keeps the first ten digits, in order, and nothing else |
| AuthPage.FormatPhoneIdempotent | components/AuthPage.tsx:61-64 | formatting an already formatted number changes nothing |
| AuthPage.FormatPhoneLength | components/AuthPage.tsx:51-59 | the formatted text reaches the complete length 14 exactly when ten digits were typed, and is never longer |
| AuthPage.CodeFilter | components/AuthPage.tsx:319 | the access-code field keeps at most the first four digits typed |
| AuthPage.CodeFilterStable | components/AuthPage.tsx:319 | filtering twice is filtering once; a four-digit code is kept as typed |
| AuthPage.Lookup | components/AuthPage.tsx:96-108 | the saved user under a phone key, None exactly when no saved entry has that key |
| AuthPage.Put | components/AuthPage.tsx:125-136 | saving adds an entry exactly when the key is new and otherwise replaces one |
| AuthPage.PutLookup | components/AuthPage.tsx:125-136 | after saving, the key finds the new user and every other key finds what it found before |
| AuthPage.PutUnique | components/AuthPage.tsx:125-136 | saving keeps the keys of the saved-user record distinct |
| AuthPage.FirstWithCode | components/AuthPage.tsx:167-200 | the first saved user whose access code matches, or None when no user has it |
| AuthPage.AuthDecision | components/AuthPage.tsx:66-113 | incomplete phone is alerted first; sign-up needs a name and then goes to payment; log-in lets the test number in, then looks up the digits, else alerts "not found" |
| AuthPage.QuickAccessDecision | components/AuthPage.tsx:167-200 | a code of other than four characters is refused; the code 1234 is the test user; otherwise the first user with that code, else an alert; never the payment step |
| AuthPage.TestCodeShadowsSignup | components/AuthPage.tsx:119-200 | a user who signed up with the generated code 1234 can never quick-access their own account: the code opens the test user |
| AuthPage.AuthPageState.constructor | components/AuthPage.tsx:10-17 | the page opens in log-in mode with empty fields |
| AuthPage.AuthPageState.PhoneChange | components/AuthPage.tsx:61-64 | the phone field holds the formatted input; nothing else changes |
| AuthPage.AuthPageState.NameChange | components/AuthPage.tsx:358 | the name field holds the input; nothing else changes |
| AuthPage.AuthPageState.EmailChange | components/AuthPage.tsx:374 | the e-mail field holds the input; nothing else changes |
| AuthPage.AuthPageState.ToggleMode | components/AuthPage.tsx:390 | switches between log-in and sign-up; nothing else changes |
| AuthPage.AuthPageState.CodeChange | components/AuthPage.tsx:319 | the code field holds the filtered input; nothing else changes |
| AuthPage.AuthPageState.HandleAuth | components/AuthPage.tsx:66-113 | the outcome is the decision on the current fields, and the page moves to payment exactly when the decision does |
| AuthPage.AuthPageState.HandlePayment | components/AuthPage.tsx:115-165 | a four-digit code is generated, the new user is saved under the phone's digits, and sign-in completes with the chosen plan |
| AuthPage.AuthPageState.BackToForm | components/AuthPage.tsx:266-272 | the "Back to Sign In" link returns from the plan cards to the phone form; every field keeps what was typed |
| AuthPage.AuthPageState.HandleQuickAccess | components/AuthPage.tsx:167-200 | the outcome is the quick-access decision on the code field |
| App.AddSorted | App.tsx:179 | the new list contains the old appointments plus the new one (multiset), sorted by date and time |
| App.AddSortedInserts | App.tsx:179 | adding to a sorted list inserts the new appointment in place |
| App.ReminderDueIff | App.tsx:165-176 | a reminder is set exactly when the appointment starts more than five minutes from now |
| App.TimerDelay | App.tsx:168-173 | the delay a timer really waits: the requested delay when below 2^31 ms, 0 from 2^31 to 2^32 - 1 ms, never 2^31 or more |
| App.ReminderTiming | App.tsx:165-176 | a reminder up to 2^31 - 1 ms ahead fires exactly five minutes before the appointment; one 2^31 to 2^32 - 1 ms ahead fires at once; further out the wait wraps to less than requested |
| App.QuotaRefused | App.tsx:108-113 | a refusal from `canStartActivity` stores only a due monthly reset and carries the tracker's reason |
| App.QuotaAllowed | App.tsx:108-117 | an allowed check followed by `recordActivityStart` stores the refreshed record with exactly one more activity: the second read sees the reset the first one stored |
| App.RestoreSession | App.tsx:59-80 | no saved session, no user; a session under 30 days old restores its user; an older one is removed |
| App.DaysBelow30 | App.tsx:66-68 | fewer than 30 whole days have passed exactly when less than 30 days of milliseconds have |
| App.SessionRoundTrip | App.tsx:59-98 | a user who signs in and reloads within 30 days is restored as the same user |
| App.CenterUser | App.tsx:193-200 | the user with that id moves to the centre; every other entry stays as it was |
| App.CenterUserIdempotent | App.tsx:193-200 | centring twice is centring once, and nobody else moves |
| App.OpensIn | App.tsx:119-126 | an allowed activity opens the card studio exactly when it is Content Creation, and otherwise the call window |
| App.OnlyContentCreationOpensStudio | App.tsx:119-126 | in the catalogue only the last activity opens the card studio |
| App.Application.constructor | App.tsx:28-56 | the shell starts signed out, with no window open, the DayMaker role centred, camera on and videos shown |
| App.Application.RestoreOnLoad | App.tsx:59-80 | The signed-in user and the saved session become what the restore rule gives. Nothing else in the shell changes. |
| App.Application.AuthComplete | App.tsx:89-98 | The session is saved with the sign-in time and the user is signed in. Nothing else in the shell changes. |
| App.Application.SignOutClick | App.tsx:100-103 | The saved session is removed and the user signed out. Nothing else in the shell changes. |
| App.Application.OpenActivity | App.tsx:106-127 | a signed-in user over quota is refused with the tracker's reason, only a due monthly reset is stored, and the shell is unchanged; otherwise one activity start is recorded, the activity is selected and the card studio (Content Creation) or the call window opens, and nothing else changes |
| App.Application.OpenSchedule | App.tsx:155-158 | The form opens for the activity. Nothing else in the shell changes. |
| App.Application.CloseSchedule | App.tsx:160-163 | The form closes and the activity is cleared. Nothing else in the shell changes. |
| App.Application.CloseF2F | App.tsx:129-132 | The call window closes and the activity is cleared. Nothing else in the shell changes. |
| App.Application.CloseContentCreation | App.tsx:134-137 | The card studio closes and the activity is cleared. Nothing else in the shell changes. |
| App.Application.ScheduleReminder | App.tsx:165-176 | a timer is registered under the appointment id exactly when the reminder time is still ahead, waiting the delay as `setTimeout` converts it (TimerDelay). Nothing else changes |
| App.Application.AddAppointment | App.tsx:178-182 | the list becomes the old one plus the appointment (multiset) in date-time order, its reminder is scheduled as in ScheduleReminder, and the form closes. Nothing else changes |
| App.Application.ReminderFires | App.tsx:171-173 | The appointment becomes the active reminder. Nothing else in the shell changes. |
| App.Application.DismissReminder | App.tsx:184-186 | The reminder disappears. Nothing else in the shell changes. |
| App.Application.JoinFromReminder | App.tsx:188-191 | the reminder disappears and the activity opens exactly as from its card: the same quota step, the same window, and nothing else changes |
| App.Application.OpenCalendar | App.tsx:147-149 | The calendar opens. Nothing else in the shell changes. |
| App.Application.CloseCalendar | App.tsx:151-153 | The calendar closes. Nothing else in the shell changes. |
| App.Application.OpenSettings | App.tsx:139-141 | The settings open. Nothing else in the shell changes. |
| App.Application.CloseSettings | App.tsx:143-145 | The settings close. Nothing else in the shell changes. |
| App.Application.UserChange | App.tsx:193-200 | The chosen role becomes current and is centred in the layout. Nothing else in the shell changes. |
| App.Application.LayoutChange | App.tsx:202-204 | The layout becomes the given one. Nothing else in the shell changes. |
| App.Application.ToggleVideos | App.tsx:206-208 | Video visibility becomes the given value. Nothing else in the shell changes. |
| App.Application.ToggleCamera | App.tsx:210-212 | The camera setting becomes the given value. Nothing else in the shell changes. |
| ScheduleModal.SubmitOutcome | components/ScheduleModal.tsx:22-37 | no appointment exactly when the client name, date or time is empty; otherwise the appointment carries exactly what was entered |
| ScheduleModal.EmptyNotesAllowed | components/ScheduleModal.tsx:22-37 | notes are optional: a form without notes is accepted and keeps them empty |
| ScheduleModal.ScheduleForm.constructor | components/ScheduleModal.tsx:12-16 | the form starts empty with no error |
| ScheduleModal.ScheduleForm.ClientNameChange | components/ScheduleModal.tsx:12 | the client name holds the input; nothing else changes |
| ScheduleModal.ScheduleForm.DateChange | components/ScheduleModal.tsx:13 | the date holds the input; nothing else changes |
| ScheduleModal.ScheduleForm.TimeChange | components/ScheduleModal.tsx:14 | the time holds the input; nothing else changes |
| ScheduleModal.ScheduleForm.NotesChange | components/ScheduleModal.tsx:15 | the notes hold the input; nothing else changes |
| ScheduleModal.ScheduleForm.Submit | components/ScheduleModal.tsx:22-37 | the appointment emitted is the submit outcome; the error shows exactly when nothing was emitted; the fields are kept |
| CalendarModal.OnDate | components/CalendarModal.tsx:151-158 | the appointments of a day: all on that date, a sub-multiset of the list |
| CalendarModal.OnDateComplete | components/CalendarModal.tsx:151-158 | every appointment on that date is among them |
| CalendarModal.OnDateNone | components/CalendarModal.tsx:178 | a date nobody booked has no appointments |
| CalendarModal.GroupByDate | components/CalendarModal.tsx:151-158 | the grouping has a bucket exactly for the booked dates, each holding that day's appointments in list order |
| CalendarModal.BucketsPartition | components/CalendarModal.tsx:151-158 | over distinct dates covering them, the buckets' sizes add up to the number of appointments |
| CalendarModal.Preview | components/CalendarModal.tsx:188-198 | a day cell shows the first two appointments and a "more" count exactly when there are more than two, and the two parts account for all |
| CalendarModal.DayCell | components/CalendarModal.tsx:175-200 | a grid day carries its number, its date key, whether it is today, and the preview of its bucket |
| CalendarModal.BuildMonthGrid | components/CalendarModal.tsx:164-204 | the grid has one blank per weekday before the 1st, then one cell per day of the month in order |
| CalendarModal.DayCellKey | components/CalendarModal.tsx:176 | a grid day's key parses back to its own date |
| CalendarModal.PrevMonth | components/CalendarModal.tsx:143-145 | the month before, across year boundaries |
| CalendarModal.NextMonth | components/CalendarModal.tsx:147-149 | the month after, across year boundaries |
| CalendarModal.NavigationInverse | components/CalendarModal.tsx:143-149 | going back and forward a month returns to the same month, and so does the reverse |
| CalendarModal.NextMonthContinues | components/CalendarModal.tsx:147-149 | the next month's grid begins the day after this month's last day |
| CalendarModal.DayAppointments | components/CalendarModal.tsx:14-16 | the day view holds exactly the day's appointments (multiset), sorted by time |
| CalendarModal.DayViewExact | components/CalendarModal.tsx:14-16 | an appointment is in the day view exactly when it is in the list and on that date |
| CalendarModal.DayViewTextOrder | components/CalendarModal.tsx:16 | neighbouring well-formed times in the day view are in text order |
| CalendarModal.SlotsEveryHalfHour | components/CalendarModal.tsx:18-23 | 23 slots, every half hour from 09:00 to 20:00 |
| CalendarModal.BookedIff | components/CalendarModal.tsx:62 | a slot is booked exactly when an appointment of that day has that time |
| CalendarModal.DayView.constructor | components/CalendarModal.tsx:11-12 | no time selected and the slot panel closed |
| CalendarModal.DayView.ToggleTimeSetup | components/CalendarModal.tsx:42 | the "Add Time" button opens or closes the slot panel |
| CalendarModal.DayView.SetTimeSetup | components/CalendarModal.tsx:82-115 | Cancel closes the slot panel and "Schedule Something" opens it |
| CalendarModal.DayView.ClickSlot | components/CalendarModal.tsx:25-29 | a booked slot does nothing; a free slot is selected and the panel closes |
| CalendarModal.Calendar.constructor | components/CalendarModal.tsx:129-130 | the calendar opens on today with no day selected |
| CalendarModal.Calendar.PrevMonthClick | components/CalendarModal.tsx:143-145 | moves to the first of the previous month |
| CalendarModal.Calendar.NextMonthClick | components/CalendarModal.tsx:147-149 | moves to the first of the next month |
| CalendarModal.Calendar.SelectDay | components/CalendarModal.tsx:183 | selects that day of the shown month |
| CalendarModal.Calendar.BackToMonth | components/CalendarModal.tsx:230 | back to the month view |
| CalendarModal.Calendar.Closed | components/CalendarModal.tsx:132-137 | closing clears the selected day |
| F2FModal.JoinTrace | components/F2FModal.tsx:109-155 | joining without a stream fails at once; otherwise it goes through connecting and ends connected exactly when the connection succeeds |
| F2FModal.PipStart | components/F2FModal.tsx:62-66 | the self view starts 20 pixels from the top and from the right edge |
| F2FModal.Clamp | components/F2FModal.tsx:207-226 | a dragged coordinate is kept inside 0 and the limit: unchanged when already inside, 0 when below, the limit when above (0 when the limit itself is negative) |
| F2FModal.ClampIdempotent | components/F2FModal.tsx:207-226 | clamping twice is clamping once |
| F2FModal.DropPosition | components/F2FModal.tsx:207-226 | a dragged element of positive size stays wholly inside the container: on each axis it lands at the cursor less the container edge and the grab offset when that fits, otherwise at the nearer edge; an element of no size lands at the unclamped position |
| F2FModal.SpeakerToggle | components/F2FModal.tsx:186-193 | muting remembers the volume; unmuting restores the remembered one, or 1 |
| F2FModal.SpeakerToggleTwice | components/F2FModal.tsx:186-193 | muting then unmuting the speaker restores the original volume |
| F2FModal.CallWindow.constructor | components/F2FModal.tsx:31-47 | the window's initial state |
| F2FModal.CallWindow.Open | components/F2FModal.tsx:50-83 | Opening resets the call state and places the self view at its start. Every other field of the window stays as it was. |
| F2FModal.CallWindow.PreviewGranted | components/F2FModal.tsx:70-75 | The camera stream and its tracks are kept. Every other field of the window stays as it was. |
| F2FModal.CallWindow.PreviewDenied | components/F2FModal.tsx:76-80 | A refused camera puts the call in error with the permissions message. Every other field of the window stays as it was. |
| F2FModal.CallWindow.Close | components/F2FModal.tsx:86-99 | Closing stops and drops the stream. Every other field of the window stays as it was. |
| F2FModal.CallWindow.JoinCall | components/F2FModal.tsx:109-155 | The status runs through the join trace and the error message matches its failure. Every other field of the window stays as it was. |
| F2FModal.CallWindow.ToggleMute | components/F2FModal.tsx:158-166 | With a stream, mute flips and every audio track follows; without one nothing changes. Every other field of the window stays as it was. |
| F2FModal.CallWindow.ToggleVideo | components/F2FModal.tsx:168-176 | With a stream, the camera flips and every video track follows; without one nothing changes. Every other field of the window stays as it was. |
| F2FModal.CallWindow.VolumeChange | components/F2FModal.tsx:178-184 | Sets the volume and remembers it when it is above zero. Every other field of the window stays as it was. |
| F2FModal.CallWindow.ToggleSpeakerMute | components/F2FModal.tsx:186-193 | The speaker toggle rule, with the remembered volume kept positive. Every other field of the window stays as it was. |
| F2FModal.CallWindow.DragStart | components/F2FModal.tsx:197-205 | A press on a button does not drag; otherwise the element is grabbed at its offset. Every other field of the window stays as it was. |
| F2FModal.CallWindow.DragMove | components/F2FModal.tsx:207-226 | Only the grabbed element moves, to its clamped drop position. Every other field of the window stays as it was. |
| F2FModal.CallWindow.DragEnd | components/F2FModal.tsx:228 | Releasing ends the drag. Every other field of the window stays as it was. |
| F2FModal.CallWindow.SwapViews | components/F2FModal.tsx:232 | The main and the small view swap. Every other field of the window stays as it was. |
| F2FModal.CallWindow.SetSelfViewVisible | components/F2FModal.tsx:308-388 | Shows or hides the self view. Every other field of the window stays as it was. |
| F2FModal.CallWindow.SetActivityDetailsVisible | components/F2FModal.tsx:327-393 | Shows or hides the activity details. Every other field of the window stays as it was. |
| SettingsModal.LowerChar | components/SettingsModal.tsx:17 | capital ASCII letters are lowered by 32; every other character is kept |
| SettingsModal.Lower | components/SettingsModal.tsx:17 | `toLowerCase()` character by character, same length |
| SettingsModal.AcceptsIff | components/SettingsModal.tsx:15-24 | a password is accepted exactly when it has eight characters, each the letter of "settings" in either case |
| SettingsModal.UpperCaseAccepted | components/SettingsModal.tsx:15-24 | "SETTINGS" and "Settings" unlock; "setting" does not |
| SettingsModal.Templates | components/SettingsModal.tsx:27-79 | three bot messages for every audience and tone |
| SettingsModal.SettingsPanel.constructor | components/SettingsModal.tsx:9-13 | locked, empty, seniors audience and friendly tone |
| SettingsModal.SettingsPanel.PasswordChange | components/SettingsModal.tsx:9 | the password field holds the input; nothing else changes |
| SettingsModal.SettingsPanel.PasswordSubmit | components/SettingsModal.tsx:15-24 | the right password unlocks, a wrong one alerts and keeps the lock; the field is cleared either way |
| SettingsModal.SettingsPanel.TargetChange | components/SettingsModal.tsx:12 | the audience becomes the selection |
| SettingsModal.SettingsPanel.ToneChange | components/SettingsModal.tsx:13 | the tone becomes the selection |
| SettingsModal.SettingsPanel.GenerateBotMessage | components/SettingsModal.tsx:81-83 | the message is one of the three templates for the chosen audience and tone |
| SettingsModal.SettingsPanel.Lock | components/SettingsModal.tsx:216-219 | locking clears the message and requires the password again |
| ContentCreation.Template | components/ContentCreationModal.tsx:20-41 | each card style has a title, a default message and three colours |
| ContentCreation.CardMessage | components/ContentCreationModal.tsx:79 | the typed text, or the style's message when none was typed; never empty |
| ContentCreation.SpacedSplit | components/ContentCreationModal.tsx:79-96 | splitting at spaces and writing each word followed by a space gives the text plus one space |
| ContentCreation.WrapLines | components/ContentCreationModal.tsx:80-96 | the lines hold all words in order; every line fits 350 pixels unless it is a single word; every break happens because the next word would overflow; the last line's height follows the 30-pixel spacing |
| ContentCreation.FileNameInjective | components/ContentCreationModal.tsx:100 | every card style downloads under its own file name |
| ContentCreation.Download | components/ContentCreationModal.tsx:53-104 | the card has its style's title and gradient, its file name, and the wrapped lines of its message, nothing lost |
| UserMenu.FindRole | components/UserMenu.tsx:34-48 | the menu's role with that id, or none exactly when the menu has no such role |
| UserMenu.OnlyMeMissing | components/UserMenu.tsx:34-38 | every role can be chosen except "me", which the menu does not list |
| UserMenu.Menu.constructor | components/UserMenu.tsx:31-32 | the menu starts closed with no submenu |
| UserMenu.Menu.ToggleMenu | components/UserMenu.tsx:61 | the "M" button opens or closes the menu |
| UserMenu.Menu.BackdropClick | components/UserMenu.tsx:72-75 | a click on the backdrop closes the menu; the open submenu is kept |
| UserMenu.Menu.RoleClick | components/UserMenu.tsx:93-99 | clicking a role opens its position submenu, or closes it when already open |
| UserMenu.Menu.SelectRoleWithPosition | components/UserMenu.tsx:46-55 | a listed role is announced as current user and as the whole new layout at the chosen position, and the menu closes; an unlisted one does nothing |
| UserMenu.Menu.VideoToggleClick | components/UserMenu.tsx:136-139 | asks to flip video visibility and closes the menu |
| UserMenu.Menu.CameraToggleClick | components/UserMenu.tsx:148-151 | asks to flip the camera and closes the menu |
| UserMenu.Menu.SignOutClick | components/UserMenu.tsx:161-164 | asks to sign out and closes the menu |
| MultiDevice.DeviceIcon | components/MultiDeviceManager.tsx:32-40 | phones and tablets, laptops and desktops have their icons; anything else gets the camera |
| MultiDevice.ConnectIn | components/MultiDeviceManager.tsx:42-51 | the device with that id becomes connected at the position; every other device is unchanged |
| MultiDevice.DisconnectIn | components/MultiDeviceManager.tsx:53-62 | the device with that id is disconnected and loses its position; every other device is unchanged |
| MultiDevice.ConnectDisconnect | components/MultiDeviceManager.tsx:42-62 | connecting then disconnecting a disconnected device restores the list |
| MultiDevice.InitialRoundTrip | components/MultiDeviceManager.tsx:23-62 | any connect then disconnect on the initial devices restores them |
| MultiDevice.PositionTaken | components/MultiDeviceManager.tsx:107 | a position is disabled exactly when some device in the connected list holds it |
| MultiDevice.DeviceManager.constructor | components/MultiDeviceManager.tsx:20-28 | the panel is closed with the four initial devices |
| MultiDevice.DeviceManager.Toggle | components/MultiDeviceManager.tsx:67 | opens or closes the panel |
| MultiDevice.DeviceManager.ClosePanel | components/MultiDeviceManager.tsx:67 | closes the panel |
| MultiDevice.DeviceManager.Connect | components/MultiDeviceManager.tsx:42-51 | the list records the connection and the parent is told the connected device and its position |
| MultiDevice.DeviceManager.Disconnect | components/MultiDeviceManager.tsx:53-62 | the list records the disconnection and the parent is told the id |
| SpecialService.Infos | components/SpecialServiceModal.tsx:46 | a stored request keeps each photo's name, size and type, in order |
| SpecialService.RemovePhotoExact | components/SpecialServiceModal.tsx:32-34 | removing drops exactly that photo and keeps the rest in order; an index outside the list changes nothing |
| SpecialService.ServiceForm.constructor | components/SpecialServiceModal.tsx:18-20 | the form starts empty |
| SpecialService.ServiceForm.SelectCategory | components/SpecialServiceModal.tsx:9-18 | the category becomes the chosen one |
| SpecialService.ServiceForm.DescriptionChange | components/SpecialServiceModal.tsx:19 | the description holds the input |
| SpecialService.ServiceForm.PhotoUpload | components/SpecialServiceModal.tsx:23-30 | more than three photos in total are refused with an alert; otherwise the files are added; never more than three |
| SpecialService.ServiceForm.RemovePhoto | components/SpecialServiceModal.tsx:32-34 | the photo at that index is removed |
| SpecialService.ServiceForm.Submit | components/SpecialServiceModal.tsx:36-58 | without a category or description only an alert; otherwise the request is appended to the stored list and the form reset and closed |
| EmailCampaign.Strip | email_campaign.py:111-112 | `strip()` leaves no white space at either end and adds no characters |
| EmailCampaign.StripTrimmed | email_campaign.py:111-112 | a text without white space at its ends is stripped to itself |
| EmailCampaign.RemoveAll | email_campaign.py:112 | `replace(">", "")` removes every `>` and keeps every other character, as many times as it occurred |
| EmailCampaign.RemoveAllAppend | email_campaign.py:112 | removal works piece by piece, so the kept characters stay in their order |
| EmailCampaign.ParseRecipient | email_campaign.py:110-115 | an entry with `<` gives a name and address free of the brackets; one without gives "Friend" and the entry itself |
| EmailCampaign.ParseRecipientExact | email_campaign.py:110-112 | for any entry with `<`, the name is the stripped text before the first `<` and the address the stripped text up to the next `<` with every `>` removed |
| EmailCampaign.FormatParseRoundTrip | email_campaign.py:110-142 | reading back an entry written by `add_recipient` gives its name and address (or "Friend" when no name was given) |
| EmailCampaign.Delivered | email_campaign.py:105-125 | the accepted messages, at most one per recipient |
| EmailCampaign.AllDelivered | email_campaign.py:105-125 | when every send succeeds every recipient gets a message |
| EmailCampaign.SendCampaign | email_campaign.py:85-133 | nothing is sent when disabled or the session fails; otherwise one delivery per accepted send, in order; true exactly when enabled, connected, closed cleanly and at least one was sent |
| EmailCampaign.EmailConfig.constructor | email_campaign.py:137 | the mailing list as configured |
| EmailCampaign.EmailConfig.AddRecipient | email_campaign.py:135-150 | the formatted entry is appended, and true returned, exactly when it is new; afterwards it is on the list |
| EmailCampaign.AddTwice | email_campaign.py:135-150 | adding the same recipient a second time is refused and leaves one entry |
| AdvertisingBot.WindowsContain | senior_advertising_bot.py:71-74 | an hour is found exactly when some window contains it, ends included |
| AdvertisingBot.FriendlyWindows | senior_advertising_bot.py:18-22 | the windows contain exactly the hours 9-11, 13-15 and 18-20 |
| AdvertisingBot.GuardRedundant | senior_advertising_bot.py:67-68 | the early-and-late guard never changes the answer |
| AdvertisingBot.IsSeniorFriendlyTime | senior_advertising_bot.py:62-74 | the loop over the configured windows answers exactly as WindowsContain does on that list, which is true exactly for the hours 9-11, 13-15 and 18-20 |
| AdvertisingBot.Templates | senior_advertising_bot.py:76-99 | three templates |
| AdvertisingBot.TemplatesMention | senior_advertising_bot.py:76-99 | every template names the business and gives the contact details |
| AdvertisingBot.CreateMessage | senior_advertising_bot.py:76-99 | a given non-empty template is used as it is; otherwise one of the three templates |
| AdvertisingBot.GeneratedMentions | senior_advertising_bot.py:76-99 | a generated post always names the business and gives the contact |
| AdvertisingBot.EnabledPlatforms | senior_advertising_bot.py:101-130 | a platform is posted to exactly when it is enabled |
| AdvertisingBot.RunAdvertisingCycle | senior_advertising_bot.py:132-148 | outside the windows nothing is posted; inside, a generated message goes to every enabled platform |
| AdvertisingBot.NextWait | senior_advertising_bot.py:150-172 | after a cycle the bot waits the configured hours plus exactly the drawn number of minutes (at most 30); after an error, or when negative hours make `time.sleep` raise, five minutes |
| AdvertisingBot.DefaultWait | senior_advertising_bot.py:159-162 | with `frequency_hours` at its default of 24 (line 43) a wait lasts one day plus at most half an hour |

## Left out

- The clock, random numbers, timers, the camera and microphone, the mail server, local storage
  serialisation, `alert`, the clipboard and the canvas are not modelled as such. The time,
  the random picks, the server outcomes and the text widths are parameters of the members.
- Logging, file I/O, the `while True` loop with its sleep, and stopping the bot by keyboard
  interrupt are not modelled. A configuration that lacks a key raises an exception in the
  scripts; the model assumes the key is present.
- Rendering: JSX layout, CSS classes, animations, the header, footer, the phone-support widget,
  the reminder toast's layout and the live preview component.
- CalendarModal.DayAppointments: the date key is taken as given. The source derives it with
  `toISOString()`, which is in UTC, so in time zones ahead of UTC the day view shows
  the previous calendar day.
- App.AddSorted: sorts by an integer key, with malformed dates or times at key 0. JavaScript
  compares them as `NaN`, and that behaviour is not modelled.
- CalendarModal.DayAppointments: `localeCompare` is modelled by a numeric key. That key agrees
  with text order only on well-formed `HH:MM` times (Dates.TimeKeyMatchesText).
- AuthPage.Put: the saved users keep insertion order. JavaScript lists keys that are canonical
  array indices (decimal integers without leading zeros below 2^32 - 1, such as the phone key
  `2125551234`) first, in numeric order; other keys, such as `5551234567` (above 2^32 - 1) or a
  key with a leading zero, keep insertion order. That reordering is not modelled.
  FirstWithCode is therefore the first match in insertion order.
- F2FModal.CallWindow.ToggleSpeakerMute: the fallback to volume 1 cannot happen, because the
  window keeps the remembered volume positive. F2FModal.SpeakerToggle still states that case.
- UserMenu: the optional camera and sign-out callbacks are treated as present.
- SettingsModal.Lower: lowers ASCII letters only. For the comparison with "settings" this
  gives the same verdict as JavaScript's full `toLowerCase`. The only non-ASCII character that
  lowers to a single ASCII letter is the Kelvin sign, and "k" does not occur in the password.
- SettingsModal.Templates: an audience or tone outside the selects cannot be chosen. The
  source would crash on one.
- AuthPage.AuthPageState.HandlePayment: the welcome alert shown before sign-up completes
  (components/AuthPage.tsx:139-156) is not modelled. It repeats the name, the phone number,
  the generated access code, the plan's name and its monthly price, the free-trial and billing
  notes and the contact address; the model keeps only the code's four digits and the saved user.
- App.AppointmentMs: `new Date('YYYY-MM-DDTHH:MM')` reads the text in the browser's local time
  zone; the model counts minutes from 1 January 1970 as if that zone were UTC with no daylight
  saving. The current time passed in as `nowMs` stands for `Date.now()`, which is UTC, so in
  any other zone the modelled reminder delay differs from the source's by the zone's offset.
- UsageTracker: a plan other than "basic" or "premium" cannot occur, because the Plan datatype
  has only those two.
- EmailCampaign.ParseRecipient: the address is the text between the first `<` and the next one,
  as `split("<")[1]` gives; a second `<` drops the rest.
- EmailCampaign.SendCampaign: the content of each message is not modelled. Only who receives
  it and under what greeting name is tracked.
- ContentCreation.WrapLines: `measureText` is the parameter `width`.
- UsageTracker: dates are whole day numbers. Writing `lastResetDate` as ISO text and parsing it
  back is not modelled, and neither is the UTC day boundary of `toISOString`.
