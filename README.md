# CCC calendar: a verified model of its decision rules

The CCC ("Cc") calendar app has a Python backend and a React frontend. The backend keeps users and
tasks, checks the three-day free trial, and builds a day plan. The frontend has a session store, a
month/week/day calendar, a task editor with a countdown timer, a task list, a three-step sign-up
form, a persona speech bubble and the explore and recommendation panels.

This project models the logic of that code in Dafny and proves what the code promises:

- **Trial.** A subscription overrides the trial. A started trial runs for three whole days. Every
  paid handler refuses a user with neither a subscription nor a trial, with HTTP 402. Delete has no
  such check.
- **Day plan.** The timeline holds exactly the input tasks. The morning bucket comes first, then
  work, then evening. Within a bucket the order is a stable sort by time.
- **Task queries.** A `date` query selects exactly the instants of that calendar day. The calendar's
  day view asks for the same instants.
- **Calendar ranges.** Each view's range holds its date. A week is seven days on the locale's first
  weekday. A month range covers the whole month in four to six whole weeks.
- **Tasks as events.** In time-zone-free local instants (see Left out), a time saved by the editor
  reloads as the same start with an end one hour later.
- **Session store.** Every handler keeps the Authorization header in step with the stored token.
  The handlers touch no storage key but the token's, and logging out is idempotent.
- **Components.**
  - The screen router's four cases partition the session states.
  - The sign-up step counter stays within 1..3.
  - The persona bubble keeps the five latest messages.
  - The countdown timer's display reads back as the same number of seconds.
  - Explore never updates or deletes a built-in default event.

The time and network are modelled as follows:

- Instants are integer milliseconds of local time. The current instant is a parameter, and so is the
  locale's first day of the week (0 = Sunday).
- Server answers are parameters: `None`/`Failed` for a failed request, or the body for a successful
  one.
- Each source file with state is a `class`. The methods of `AuthContext.Session`,
  `TaskModal.Countdown`, `PersonaChat.Chat` and `MainApp.MainScreen` are proved equal to a pure
  transition function, and the lemmas are stated about those functions. The methods of
  `CalendarView.CalendarState`, `TaskManager.TaskList`, `Explore.ExploreScreen` and
  `Onboarding.OnboardingForm` state their new fields directly.

Modules, one per source file:

| Module | Source file |
|---|---|
| `Server` | `backend/server.py` |
| `Timeline` | `generate_day_timeline` in `backend/server.py` |
| `CalendarView` | `frontend/src/components/CalendarView.js` |
| `TaskModal` | `frontend/src/components/TaskModal.js` |
| `TaskManager` | `frontend/src/components/TaskManager.js` |
| `AuthContext` | `frontend/src/context/AuthContext.js` |
| `AppRoutes` | `frontend/src/App.js` |
| `Onboarding` | `frontend/src/components/OnboardingScreen.js` |
| `PersonaChat` | `frontend/src/components/PersonaChat.js` |
| `MainApp` | `frontend/src/components/MainApp.js` |
| `Explore` | `frontend/src/components/ExploreSection.js` |
| `Recommendations` | `frontend/src/components/EventRecommendations.js` |

Four helper modules:

- `Wrappers` holds options, results and replies.
- `Text` holds JavaScript's `parseInt`, `trim` and `split`, and Python's string order.
- `Clock` holds days, hours, weekdays and civil months.
- `Api` holds the task and event records the components exchange.

An event starts at `task.date` itself (CalendarView.js line 63). Only its end uses the task's time
(lines 64-69).

## Model

| member | source | states |
|---|---|---|
| Server.CheckTrialStatus | backend/server.py:136-154 | An active subscription gives (false, true, 0). Without a subscription or a trial start it gives (false, false, 0). Otherwise the days left are `max(0, 3 - days passed)` and the trial is active iff days are left. The days left never exceed 3, and trial and subscription are never both active. |
| Server.DaysLeftNeverGrow | backend/server.py:143-146 | As time passes, the days left never increase. |
| Server.FreshTrialIsActive | backend/server.py:143-152 | A trial started now is active with 3 days left. |
| Server.Gate | backend/server.py:243-245 | Gives 402 exactly when the handler is create, update or plan-day and the status has neither trial nor subscription. Delete always passes. |
| Server.GateFollowsTrial | backend/server.py:136-154 | Passes a subscribed user, and a user within three days of the trial start. Refuses a user with neither, except for delete. |
| Server.PersonaMessage | backend/server.py:156-159 | Gives the template when both the type and the persona are keys, else the fixed fallback. |
| Server.PersonaOf | backend/server.py:277 | Gives the stored persona, or `casualBuddy` when there is none. |
| Server.UpdatePersona | backend/server.py:225-239 | Gives 400 iff the persona is not one of the five. On success only the persona field changes, and the reply is the morning-plan message. |
| Server.UpdatePersonaReadsBack | backend/server.py:226-234 | After a successful update the persona read back is the one chosen, and it is valid. |
| Server.CreateTaskHandler | backend/server.py:242-283 | Gives 402 iff the gate refuses. The stored task is the user's and not completed, and it carries the request's title, date, type and time (`None` when no time is sent). The reply is the reminder message. |
| Server.UserStatus | backend/server.py:136-153 | A subscriber has status (false, true, 0). Otherwise access lasts while less than three days have passed since the trial start, and a user with no trial start has none. |
| Server.UpdateTaskHandler | backend/server.py:313-355 | Gives 402 iff the gate refuses; otherwise the persona's reminder message. |
| Server.FirstOwned | backend/server.py:359 | Gives the position of the first document with the id and the user: it matches, and no earlier one does. |
| Server.DeleteFirst | backend/server.py:359 | When the user owns a task with that id, removes exactly the first such document and keeps all others in order. Otherwise the store is unchanged. |
| Server.DeleteKeepsOthers | backend/server.py:359 | Any document of another user, or with another id, is kept as often as before. |
| Server.DeleteTaskHandler | backend/server.py:358-364 | Gives 404 iff the user has no task with that id. Otherwise the store loses exactly the first such document. |
| Server.DeleteIgnoresTrial | backend/server.py:358-364 | Delete never answers 402, whatever the trial status. |
| Server.TaskWindow | backend/server.py:292-302 | `date` takes precedence and gives a half-open day. A start and an end give a closed range. Anything else gives no condition. |
| Server.DayWindowIsSameDay | backend/server.py:294-298 | A `date` query selects an instant iff it falls on the same calendar day as the date. |
| Server.WindowEnds | backend/server.py:294-302 | A range query includes both ends. The midnight after a day query's day is excluded. |
| Server.Matching | backend/server.py:292-304 | Every selected document comes from the store, belongs to the user and lies inside the window. |
| Server.MatchingComplete | backend/server.py:292-304 | Every stored task of the user inside the window is selected. |
| Server.ListTasks | backend/server.py:304 | Gives the first min(n, 200) of the n matches, in stored order: all of them when there are at most 200. |
| Server.HolidaysFor | backend/server.py:367-394 | Gives two entries for January, February and December and none for other months, each dated in the month and typed holiday or celebration. |
| Server.HolidayDatesAreValid | backend/server.py:376-389 | Every date in the table is a real day of its month. |
| Server.Subscribe | backend/server.py:576-603 | The user is subscribed. The plan defaults to "monthly", which expires in 30 days; any other plan expires in 365. |
| Server.SubscriptionGrantsAccess | backend/server.py:140-141 | A subscribed user's status is (false, true, 0) at every later time, because the expiry is never consulted. |
| Server.OnlyOpen | backend/server.py:410 | Keeps only the tasks that are not completed. |
| Server.OnlyOpenComplete | backend/server.py:410 | Every open task of the input is kept. |
| Server.PlanMyDay | backend/server.py:397-433 | Gives 402 iff the gate refuses. Otherwise the timeline is `DayTimeline` of the open tasks read for the day (with the corrected sort key and without `_id`; see Findings). It holds at most 100 stored tasks, each the user's, open and on that day. `total_tasks` is its length and the message is the morning plan. |
| Server.OpenTasksOfDay | backend/server.py:406-410 | Gives the first min(n, 100) of the user's n open tasks of that day, in stored order. |
| Server.BindPlanDate | backend/server.py:396 | The `date: str` parameter is read from the query string: 422 iff the query has no `date`, otherwise its value. |
| Server.OpenTasksFacts | backend/server.py:407-411 | The tasks read for the plan are at most 100, each the user's, open and on the day. |
| Server.OpenTasksComplete | backend/server.py:406-411 | When fewer than 100 tasks are read, every stored open task of the user on that day is among them. |
| Server.PlanMyDayComplete | backend/server.py:406-413 | A granted plan holds every stored open task of the user on that day, once there are fewer than 100. |
| Server.PlanMyDayAsWritten | backend/server.py:406-433 | As written: 402 iff the gate refuses. A granted request fails with 500 iff the day has an open task; success only ever returns an empty timeline. |
| Server.PlanMyDayAsWrittenFails | backend/server.py:406-433 | With any open task on a granted day, the code as written answers 500 where the corrected handler plans the tasks. |
| Server.SameElementsPlanned | backend/server.py:414 | Reordering the tasks (the timeline) keeps them the user's open tasks of the day. |
| Timeline.TimeText | backend/server.py:169-171 | `task.get('time', '')` is truthy iff a non-empty time is stored. |
| Timeline.OfBucket | backend/server.py:167-176 | Keeps only tasks of the given bucket, never more than the input. |
| Timeline.BucketsPartition | backend/server.py:167-176 | The three buckets together hold each task exactly once. |
| Timeline.SortByTime | backend/server.py:179-180 | The sort gives a permutation of its bucket. |
| Timeline.SortByTimeSorted | backend/server.py:180 | After sorting, the keys never decrease. |
| Timeline.SortByTimeStable | backend/server.py:180 | Tasks with equal keys keep their input order (Python's sort is stable). |
| Timeline.GenerateDayTimeline | backend/server.py:161-187 | The loop that appends to three lists, sorts each and extends the timeline computes `DayTimeline`. |
| Timeline.BucketOf | backend/server.py:167-176 | Exercise and meal tasks go to the morning, and work and meetings never to the evening. The evening holds only other types whose time is missing or after "17:00". |
| Timeline.EveningIsAfterFive | backend/server.py:170-176 | A time neither before "12:00" nor from "09:00" to "17:00" is after "17:00". |
| Timeline.DayTimeline | backend/server.py:161-187 | The timeline holds exactly the input tasks, with multiplicity. |
| Timeline.TimelineBuckets | backend/server.py:179-185 | Splitting the timeline by bucket gives back each sorted bucket. |
| Timeline.TimelineBucketOrder | backend/server.py:183-185 | Every morning task precedes every work task, which precedes every evening task. |
| Timeline.TimelineSortedWithinBucket | backend/server.py:180 | Within one bucket the times never decrease along the timeline. |
| Timeline.TimelineStable | backend/server.py:180 | Tasks of one bucket with equal times keep their input order. |
| Timeline.MorningRule | backend/server.py:171-172 | Exercise and meal tasks, and any time before "12:00", go to the morning. |
| Timeline.WorkByTimeAlone | backend/server.py:171-174 | A task that is not work or a meeting reaches the work bucket only with a time from "12:00" to "17:00". The "09:00" lower bound never decides. |
| Timeline.SortBucketAsWritten | backend/server.py:180 | As written, the sort raises TypeError iff the bucket has two or more tasks and one of them has time `None`. |
| Timeline.DayTimelineAsWritten | backend/server.py:161-187 | As written, a timeline that is returned holds exactly the input tasks, with multiplicity. |
| Timeline.AsWrittenAgreesWhenItSucceeds | backend/server.py:161-187 | Where the code as written returns, it returns the modelled timeline. It fails exactly when some bucket of two or more tasks holds a `None` time. |
| Timeline.TwoAllDayTasksRaise | backend/server.py:180 | Two all-day general tasks on one day make the code as written raise, while the corrected model plans both. |
| CalendarView.DayOfInstant | frontend/src/components/CalendarView.js:36 | A local date and time of day is an instant on that date's day. |
| CalendarView.WeekRange | frontend/src/components/CalendarView.js:40-41 | `startOf('week')`..`endOf('week')` holds the day, spans one week and runs from midnight to the last millisecond. |
| CalendarView.RangeHoldsDate | frontend/src/components/CalendarView.js:38-50 | The range of every view holds the date and runs from a midnight to the last millisecond of a day. |
| CalendarView.WeekRangeIsAWeek | frontend/src/components/CalendarView.js:40-41 | The week range is 7 days long and starts on the locale's first weekday. |
| CalendarView.MonthRangeCoversMonth | frontend/src/components/CalendarView.js:47-49 | The month range covers every day of the month and starts on the first weekday. Its length is a whole number of weeks, between 4 and 6. |
| CalendarView.DayRangeMatchesDayQuery | frontend/src/components/CalendarView.js:43-45 | The day view's closed range selects exactly the instants of the backend's day query (server.py 296-298). |
| CalendarView.TaskToEvent | frontend/src/components/CalendarView.js:60-79 | The event carries the task's id, title and date, and ends at `EventEnd` of the date and time. It is all-day iff the time is falsy, and the resource flags are set iff the deadline, reminder and timer are set. |
| CalendarView.TasksToEvents | frontend/src/components/CalendarView.js:60 | Gives one event per task, in order. |
| CalendarView.EndOfParsedTime | frontend/src/components/CalendarView.js:64-68 | For "H:M" the end is that hour and minute of the task's day (seconds kept) plus one hour. |
| CalendarView.EndOfHourOnly | frontend/src/components/CalendarView.js:65-68 | A time without a colon sets only the hour (the minute is NaN and moment ignores it). |
| CalendarView.EndOfUnparsable | frontend/src/components/CalendarView.js:65-68 | A non-numeric time leaves the date, so the end is one hour after it. |
| CalendarView.EndOfPieces | frontend/src/components/CalendarView.js:65-68 | Two parsed pieces set the hour and then the minute. |
| CalendarView.FormattedTimeEndsAnHourLater | frontend/src/components/CalendarView.js:64-68 | The "HH:mm" the editor writes for an instant gives an end exactly one hour after that instant. |
| CalendarView.TimedSaveReloads | frontend/src/components/CalendarView.js:60-70 | In time-zone-free local instants (see Left out), a timed task saved by the editor reloads at the editor's start, one hour long, not all-day. |
| CalendarView.TimedTaskEvent | frontend/src/components/CalendarView.js:60-70 | A task whose time is the "HH:mm" of its own date becomes an event that starts at that date, ends one hour later and is not all-day. |
| CalendarView.AllDaySaveReloads | frontend/src/components/CalendarView.js:60-70 | An all-day save reloads as an all-day event. |
| CalendarView.SlotDraft | frontend/src/components/CalendarView.js:125-132 | Gives a draft without an id, for the selected start and end. |
| CalendarView.DiffHours | frontend/src/components/CalendarView.js:129 | moment's `diff(..., 'hours')` rounds toward zero: the whole hours of the difference, with its sign. |
| CalendarView.SlotAllDayIffDayLong | frontend/src/components/CalendarView.js:129 | With moment's truncating hour diff, the draft is all-day iff the slot lasts at least 24 hours. |
| CalendarView.QuickTaskDraft | frontend/src/components/CalendarView.js:304-310 | Gives a draft from now to one hour later, without an id. |
| CalendarView.AllDayDraft | frontend/src/components/CalendarView.js:318-324 | Gives an all-day draft from tomorrow's midnight to tomorrow's last millisecond. |
| CalendarView.AllDayDraftIsTomorrow | frontend/src/components/CalendarView.js:320-321 | The all-day draft is exactly the day after today. As a slot it would be 23h59m, so not all-day. |
| CalendarView.SaveCall | frontend/src/components/CalendarView.js:139-149 | Gives an update of `selectedEvent.id` iff the selection has a truthy id, else a create, with the editor's body. |
| CalendarView.CalendarState.constructor | frontend/src/components/CalendarView.js:16-20 | Starts in month view on today, with no events, no selection and the editor closed. |
| CalendarView.CalendarState.Navigate | frontend/src/components/CalendarView.js:282-283 | Changes only the view and the date. |
| CalendarView.CalendarState.LoadEvents | frontend/src/components/CalendarView.js:30-88 | Asks for the view's range. On success the events are those built from the tasks; on failure they are unchanged. |
| CalendarView.CalendarState.SelectSlot | frontend/src/components/CalendarView.js:125-132 | Opens the editor on the slot draft. |
| CalendarView.CalendarState.SelectEvent | frontend/src/components/CalendarView.js:134-137 | Opens the editor on the event. |
| CalendarView.CalendarState.CloseModal | frontend/src/components/CalendarView.js:388-391 | Closes the editor and clears the selection. |
| CalendarView.CalendarState.SaveEvent | frontend/src/components/CalendarView.js:139-158 | Sends the SaveCall of the selection. A successful save closes the editor and returns the reload flag; a failed one changes nothing. |
| CalendarView.CalendarState.DeleteEvent | frontend/src/components/CalendarView.js:160-171 | Sends a delete of the id. The reload flag is set iff the delete succeeded, and success closes the editor. |
| CalendarView.DeleteOfferedIffSaveUpdates | frontend/src/components/CalendarView.js:387 | The editor gets a delete handler exactly when its save would be an update. |
| CalendarView.TaskEventsUpdate | frontend/src/components/CalendarView.js:141-149 | An event built from a task updates that task. The three drafts always create. |
| CalendarView.VisibleRange | frontend/src/components/CalendarView.js:38-50 | Week view asks for the week of the date and day view for its day. Month view runs from the start of the first day's week to the end of the last day's week. |
| CalendarView.EventEnd | frontend/src/components/CalendarView.js:63-67 | Without a time the event ends one hour after its date. With a time it ends one hour after the date set to that hour and minute. |
| CalendarView.EventStyle | frontend/src/components/CalendarView.js:174-207 | A completed event is grey at opacity 0.6. An open one has its type's colour at opacity 1. |
| CalendarView.CompletedLooksTheSame | frontend/src/components/CalendarView.js:174-207 | A completed event is grey at opacity 0.6 whatever its type. An open event is opaque and never grey. |
| CalendarView.TypeColor | frontend/src/components/CalendarView.js:176-194 | Each of the five coloured types has its colour from the switch; any other type, or none, is pink. |
| CalendarView.UnknownTypeIsPink | frontend/src/components/CalendarView.js:176-194 | A type outside the five coloured ones is pink. |
| CalendarView.StartOf | frontend/src/components/CalendarView.js:340 | `moment(e.start)`: the event's start, or now when it has none. |
| CalendarView.OnToday | frontend/src/components/CalendarView.js:340 | `isSame(moment(), 'day')`: the start lies within today's midnight-to-midnight. An event without a start counts as today's. |
| CalendarView.TodayEvents | frontend/src/components/CalendarView.js:340 | Every event returned starts today. |
| CalendarView.TodayEventsExact | frontend/src/components/CalendarView.js:340 | An event is counted in the total iff it is one of the events and starts today. |
| CalendarView.UpcomingTodayExact | frontend/src/components/CalendarView.js:352 | An event is counted as upcoming iff it is one of the events, starts today and starts after now. |
| CalendarView.CompletedToday | frontend/src/components/CalendarView.js:346 | Gives the events of today that are completed; there are never more than today's total. |
| CalendarView.UpcomingToday | frontend/src/components/CalendarView.js:352 | Gives the events of today that start after now; there are never more than today's total. |
| CalendarView.TodaySummary | frontend/src/components/CalendarView.js:333-355 | The completed and upcoming counts never exceed the total. |
| CalendarView.CompletedCountsTodaysCompleted | frontend/src/components/CalendarView.js:340-346 | An event is counted as completed iff it is in today's total and completed. |
| CalendarView.Recommendations | frontend/src/components/CalendarView.js:107-110 | Gives at most three nearby places, then all the holidays (none when the list is missing). |
| TaskModal.FormFromEvent | frontend/src/components/TaskModal.js:27-46 | Fills the form from the event: title, description, start (defaulting to now) and end (defaulting to one hour later). The type defaults to general. Priority, deadline, reminder, timer, repeat, tags, location and notes are reset. |
| TaskModal.FormOnOpen | frontend/src/components/TaskModal.js:27-46 | A null event leaves the form as it was. |
| TaskModal.FormatHHmm | frontend/src/components/TaskModal.js:82 | "HH:mm" splits at its colon into exactly two pieces, and `parseInt` reads them back as the instant's hour and minute. |
| TaskModal.FormatHHmmParses | frontend/src/components/TaskModal.js:81 | "HH:mm" splits into two padded pieces that parse back to the instant's hour and minute. |
| TaskModal.TimedPayload | frontend/src/components/TaskModal.js:81-82 | A timed payload carries the form's start as its date and that start's "HH:mm" as its time. |
| TaskModal.HandleSave | frontend/src/components/TaskModal.js:73-96 | Gives nothing iff the trimmed title is empty or the start picker was cleared (then `toISOString` throws). Otherwise the payload has the form's title and start, no time iff all-day, "HH:mm" of the start for a timed task, and the description, deadline, reminder, type, priority, timer, repeat, tags, location and notes. |
| TaskModal.EditResetsHiddenFields | frontend/src/components/TaskModal.js:27-96 | Re-saving a calendar task with a non-blank title always sends a payload, with priority medium and no deadline, reminder or timer. |
| TaskModal.Step | frontend/src/components/TaskModal.js:112-127 | Does nothing unless the timer is running. At ≤1 second it stops at zero; otherwise it takes one second off. |
| TaskModal.StepKeepsNonNegative | frontend/src/components/TaskModal.js:116-123 | The remaining time never goes negative. |
| TaskModal.CountdownReachesZero | frontend/src/components/TaskModal.js:112-127 | After k ≤ n ticks from n seconds, n-k remain, and the timer stops exactly at zero. |
| TaskModal.Start | frontend/src/components/TaskModal.js:98-104 | An empty duration does nothing. Otherwise the timer runs from `parseInt(duration) * 60`, or NaN. |
| TaskModal.StartedTimerFinishes | frontend/src/components/TaskModal.js:98-127 | A timer started from m > 0 minutes has stopped at zero after exactly 60·m ticks. |
| TaskModal.StoppedIsStill | frontend/src/components/TaskModal.js:112-115 | A stopped timer stays stopped. |
| TaskModal.Countdown.constructor | frontend/src/components/TaskModal.js:24-25 | Starts stopped at zero. |
| TaskModal.Countdown.StartTimer | frontend/src/components/TaskModal.js:98-104 | The state becomes `Start(old, duration)`. |
| TaskModal.Countdown.StopTimer | frontend/src/components/TaskModal.js:106-109 | Stopped at zero. |
| TaskModal.Countdown.Tick | frontend/src/components/TaskModal.js:116-123 | The state becomes `Step(old)`. |
| TaskModal.ParseClockOfPair | frontend/src/components/TaskModal.js:132 | Two padded fields read back as minutes·60 + seconds. |
| TaskModal.FormatTimerFields | frontend/src/components/TaskModal.js:129-133 | The display shows `floor(s/60)` and `s % 60`, with the seconds below 60. |
| TaskModal.FormatTimer | frontend/src/components/TaskModal.js:129-133 | The display of a non-negative count reads back as the same number of seconds. |
| TaskManager.DisplayHour | frontend/src/components/TaskManager.js:113 | `hour % 12 \|\| 12`: NaN shows 12, a non-negative hour shows 1..12, and a non-zero remainder shows itself. |
| TaskManager.Suffix | frontend/src/components/TaskManager.js:112 | Gives PM iff the hour is a number ≥ 12. |
| TaskManager.FormatTime | frontend/src/components/TaskManager.js:108-115 | Shows "" iff the time is missing or empty. Otherwise the display ends in PM iff the hour piece parses to a number ≥ 12. |
| TaskManager.FormatTimeOfPieces | frontend/src/components/TaskManager.js:108-115 | "H:M" shows as the 12-hour hour, the minutes text unchanged and AM/PM. |
| TaskManager.FormatTimeOfClock | frontend/src/components/TaskManager.js:108-115 | A padded 24-hour time shows its minutes unchanged. |
| TaskManager.TwelveHourRoundTrip | frontend/src/components/TaskManager.js:111-113 | The 12-hour hour and the suffix give back the 24-hour hour. |
| TaskManager.EmptyTimeShowsNothing | frontend/src/components/TaskManager.js:109 | A missing or empty time shows as "". |
| TaskManager.FindType | frontend/src/components/TaskManager.js:105 | Finds an entry iff one has the id; the entry found has that id. |
| TaskManager.GetTaskTypeInfo | frontend/src/components/TaskManager.js:104-106 | Gives a table entry with the type's id, or General for an unknown type. |
| TaskManager.Toggled | frontend/src/components/TaskManager.js:93-102 | Only the tasks with the id flip `completed`. |
| TaskManager.ToggleTwice | frontend/src/components/TaskManager.js:93-102 | Toggling twice restores the list. |
| TaskManager.ToggleAbsent | frontend/src/components/TaskManager.js:93-102 | Toggling an absent id changes nothing. |
| TaskManager.Pending | frontend/src/components/TaskManager.js:118 | Every pending task is in the list and not completed. |
| TaskManager.PendingComplete | frontend/src/components/TaskManager.js:118 | Every task that is not completed is pending. |
| TaskManager.PlanButtonIffOpenTask | frontend/src/components/TaskManager.js:118-148 | The plan button shows iff some task is open. |
| TaskManager.AddBody | frontend/src/components/TaskManager.js:56-60 | The draft's fields, dated at midnight UTC of the selected day. |
| TaskManager.TaskList.constructor | frontend/src/components/TaskManager.js:10-21 | Starts on today with empty lists, an empty draft and the form closed. |
| TaskManager.TaskList.FetchTasks | frontend/src/components/TaskManager.js:36-47 | Queries the selected day. A reply sets the tasks (a missing list reads as empty); a failure keeps them. |
| TaskManager.TaskList.AddTask | frontend/src/components/TaskManager.js:49-73 | A blank title sends nothing. Otherwise it posts the body, and on success appends the created task, closes the form and clears the draft. |
| TaskManager.TaskList.PlanMyDay | frontend/src/components/TaskManager.js:75-91 | Posts `PlanRequestOf` the selected day. A reply sets the timeline; a failure keeps it. |
| TaskManager.PlanRequestOf | frontend/src/components/TaskManager.js:78-80 | The request has no query string; its JSON body carries `date`, the selected day at midnight UTC. |
| TaskManager.PlanRequestRefused | frontend/src/components/TaskManager.js:78-80 | The backend's binding refuses the plan request with 422, whatever day is selected. |
| TaskManager.TaskList.ToggleTaskCompletion | frontend/src/components/TaskManager.js:93-102 | Applies the same flip to the tasks and the timeline. |
| AuthContext.Initial | frontend/src/context/AuthContext.js:18-20 | Starts with no user, no status and no header, while loading. |
| AuthContext.Mounted | frontend/src/context/AuthContext.js:23-31 | A stored token sets the header and fetches the profile. Without one, loading ends and nothing is fetched. |
| AuthContext.ProfileChecked | frontend/src/context/AuthContext.js:33-45 | Success sets the user and status. Failure removes the token and the header. Loading is false in every outcome. |
| AuthContext.Onboarded | frontend/src/context/AuthContext.js:47-75 | Success stores and sends the token, sets the user and assumes a fresh 3-day trial. Failure changes nothing but ends loading. |
| AuthContext.WithPersona | frontend/src/context/AuthContext.js:81 | `{...prev, selected_persona}` sets the persona and keeps every other field; a null user gives the single field. |
| AuthContext.PersonaUpdated | frontend/src/context/AuthContext.js:77-90 | Success changes only the user's persona; failure changes nothing. |
| AuthContext.SubscribeDone | frontend/src/context/AuthContext.js:92-111 | Success sets the status to subscribed; failure changes nothing. |
| AuthContext.LoggedOut | frontend/src/context/AuthContext.js:113-118 | Clears the token, header, user and status, and leaves loading as it was. |
| AuthContext.LogoutIdempotent | frontend/src/context/AuthContext.js:113-118 | Logging out twice is logging out once. |
| AuthContext.AssumedStatusesMatchBackend | frontend/src/context/AuthContext.js:59-102 | The statuses the client assumes after onboarding and after paying are what the backend computes. |
| AuthContext.OnlyTokenKeyWritten | frontend/src/context/AuthContext.js:23-118 | No handler adds, removes or changes a storage key other than `cc_token`. |
| AuthContext.HeaderFollowsToken | frontend/src/context/AuthContext.js:23-118 | Mount establishes, and every handler keeps: a stored token is also the Bearer header. |
| AuthContext.Session.constructor | frontend/src/context/AuthContext.js:17-20 | The state is `Initial(storage)`. |
| AuthContext.Session.Mount | frontend/src/context/AuthContext.js:23-31 | The state and the fetch flag are `Mounted(old)`. |
| AuthContext.Session.CheckUserProfile | frontend/src/context/AuthContext.js:33-45 | The state is `ProfileChecked(old, reply)`. |
| AuthContext.Session.OnboardUser | frontend/src/context/AuthContext.js:47-75 | The state and the success flag are `Onboarded(old, reply)`. |
| AuthContext.Session.UpdatePersona | frontend/src/context/AuthContext.js:77-90 | The state and the success flag are `PersonaUpdated(old, …)`. |
| AuthContext.Session.Subscribe | frontend/src/context/AuthContext.js:92-111 | The state and the success flag are `SubscribeDone(old, …)`. |
| AuthContext.Session.Logout | frontend/src/context/AuthContext.js:113-118 | The state is `LoggedOut(old)`. |
| AppRoutes.RouteOf | frontend/src/App.js:25-53 | Loading iff loading. Onboarding iff not loading and no user. Paywall iff there is a user but neither trial nor subscription. Main app otherwise. |
| AppRoutes.OnboardingOpensApp | frontend/src/App.js:47-52 | A successful onboarding routes to the main app. |
| AppRoutes.FailedOnboardingStays | frontend/src/App.js:42-44 | A failed onboarding stays on the onboarding screen. |
| AppRoutes.SubscribingOpensApp | frontend/src/App.js:47-52 | Paying from the paywall opens the app; a failed payment stays on the paywall. |
| AppRoutes.LogoutShowsOnboarding | frontend/src/App.js:42-44 | After logout the onboarding screen shows. |
| AppRoutes.FirstVisit | frontend/src/App.js:28-44 | Without a token, the first visit goes to onboarding with no fetch. With a token it shows loading, then onboarding if the check fails. |
| AppRoutes.ProfileRouteFollowsGate | frontend/src/App.js:47-52 | With the backend's status, the app opens iff the backend would accept task changes. |
| Onboarding.NextStep | frontend/src/components/OnboardingScreen.js:72-76 | Adds one below step 3, else stays. |
| Onboarding.BackStep | frontend/src/components/OnboardingScreen.js:78-82 | Takes one off above step 1, else stays. |
| Onboarding.StepsStayInRange | frontend/src/components/OnboardingScreen.js:72-82 | Both moves keep the step in 1..3. |
| Onboarding.NextBackUndo | frontend/src/components/OnboardingScreen.js:72-82 | Back undoes Next below 3, and Next undoes Back above 1. |
| Onboarding.NextReachesLast | frontend/src/components/OnboardingScreen.js:72-76 | k presses from step 1 reach min(1+k, 3). |
| Onboarding.IsStepValid | frontend/src/components/OnboardingScreen.js:92-103 | Only a step in 1..3 is ever valid; step 1 needs a name and a time zone. |
| Onboarding.ButtonEnabled | frontend/src/components/OnboardingScreen.js:243-251 | An enabled Next or submit button means a step in 1..3 and no request in flight. |
| Onboarding.SubmitAllowed | frontend/src/components/OnboardingScreen.js:84-90 | The submit guard implies steps 2 and 3 are valid, and three valid steps pass the guard. |
| Onboarding.StepValidity | frontend/src/components/OnboardingScreen.js:92-103 | Step 1 is valid iff the name has a character other than white space and a time zone is set. Steps 2 and 3 are valid iff their field is set, and no other step is valid. An enabled Next or submit button means a step in 1..3 and no request in flight. |
| Onboarding.SubmitGuardSkipsTrim | frontend/src/components/OnboardingScreen.js:85-95 | A name of spaces passes the submit guard but fails step 1. |
| Onboarding.ValidStepsAllowSubmit | frontend/src/components/OnboardingScreen.js:85-103 | A form valid at all three steps passes the submit guard. |
| Onboarding.OnboardingForm.constructor | frontend/src/components/OnboardingScreen.js:64-70 | Starts at step 1 with the initial form and time zone "UTC-5 (EST)". |
| Onboarding.OnboardingForm.HandleNext | frontend/src/components/OnboardingScreen.js:72-76 | The step becomes NextStep, stays within 1..3, and the form is unchanged. |
| Onboarding.OnboardingForm.HandleBack | frontend/src/components/OnboardingScreen.js:78-82 | The step becomes BackStep, stays within 1..3, and the form is unchanged. |
| Onboarding.OnboardingForm.Edit | frontend/src/components/OnboardingScreen.js:65-70 | The form takes the new values; the step stays. |
| Onboarding.OnboardingForm.HandleSubmit | frontend/src/components/OnboardingScreen.js:84-90 | Submits the form iff name, personality type and persona are all non-empty. |
| PersonaChat.LastN | frontend/src/components/PersonaChat.js:17 | `slice(-n)` gives the last min(n, length) elements. |
| PersonaChat.Pushed | frontend/src/components/PersonaChat.js:17-21 | The new history has at most 5 entries, with the new one last. |
| PersonaChat.HistoryKeepsLastFive | frontend/src/components/PersonaChat.js:17-21 | After any run of messages the history is exactly the last ≤5 of them, oldest first. |
| PersonaChat.Received | frontend/src/components/PersonaChat.js:11-30 | An empty message changes nothing. A non-empty one becomes the current, visible message and is pushed onto the history. |
| PersonaChat.Hidden | frontend/src/components/PersonaChat.js:23-25 | The timeout hides the bubble and keeps the message and the history. |
| PersonaChat.RendersNothing | frontend/src/components/PersonaChat.js:65-67 | The component renders nothing only with an empty history, and never with a message to show. |
| PersonaChat.ReceivedKeepsRendering | frontend/src/components/PersonaChat.js:11-66 | A non-empty message makes the component render. Once it renders, neither a new message nor the timeout empties it, and the history stays at most five. |
| PersonaChat.Fetched | frontend/src/components/PersonaChat.js:43-56 | A failed fetch changes nothing. A reply shows its message, or "" when the field is absent, and makes the bubble visible. The history is untouched. |
| PersonaChat.FetchedRenders | frontend/src/components/PersonaChat.js:43-66 | A reply with a message, or an existing history, leaves something rendered. A fetch never changes the history's length. |
| PersonaChat.Chat.TriggerMessage | frontend/src/components/PersonaChat.js:58-60 | The state becomes `Fetched(old, reply)`. |
| PersonaChat.GetPersonaInfo | frontend/src/components/PersonaChat.js:32-42 | Gives the persona's entry, or the 🤖 Assistant fallback for a missing or unknown persona. |
| PersonaChat.FallbackOnlyForUnknown | frontend/src/components/PersonaChat.js:32-42 | The fallback is returned iff the persona is missing or unknown. |
| PersonaChat.Chat.constructor | frontend/src/components/PersonaChat.js:6-9 | Starts with `message \|\| ''`, hidden, with no history. |
| PersonaChat.Chat.OnMessage | frontend/src/components/PersonaChat.js:11-30 | The state becomes `Received(old, message, persona, now)`. |
| PersonaChat.Chat.OnTimeout | frontend/src/components/PersonaChat.js:23-25 | The state becomes `Hidden(old)`. |
| MainApp.TimeOfDayOf | frontend/src/components/MainApp.js:21 | Morning iff hour < 12, afternoon iff 12 ≤ hour < 17, evening iff hour ≥ 17. |
| MainApp.Capitalized | frontend/src/components/MainApp.js:28 | Upper-cases the first letter and keeps the rest. |
| MainApp.Greetings | frontend/src/components/MainApp.js:23-29 | Gives a greeting for exactly the five personas. |
| MainApp.WelcomeMessage | frontend/src/components/MainApp.js:19-32 | Gives the persona's greeting for the hour's time of day, or the generic greeting for a missing or unknown persona. |
| MainApp.CapitalizedTimesOfDay | frontend/src/components/MainApp.js:28 | The wild card greeting opens with "Morning", "Afternoon" or "Evening". |
| MainApp.Welcomed | frontend/src/components/MainApp.js:12-17 | Sets the welcome message only when the persona is truthy; otherwise nothing changes. |
| MainApp.TabChanged | frontend/src/components/MainApp.js:34-47 | Always sets the tab. The message changes only for calendar, explore and settings. |
| MainApp.TabChangeIdempotent | frontend/src/components/MainApp.js:34-47 | Switching to a tab twice is switching once. |
| MainApp.MainScreen.constructor | frontend/src/components/MainApp.js:9-10 | Starts on the calendar tab with no message. |
| MainApp.MainScreen.OnUser | frontend/src/components/MainApp.js:12-17 | The state becomes `Welcomed(old, persona, hour)`. |
| MainApp.MainScreen.HandleTabChange | frontend/src/components/MainApp.js:34-47 | The state becomes `TabChanged(old, tab)`. |
| Explore.CityOf | frontend/src/components/ExploreSection.js:56 | Gives `user?.city`, or "" when it is missing. |
| Explore.BlankForm | frontend/src/components/ExploreSection.js:49-61 | The empty form has type cultural, the user's city and no rating. |
| Explore.RatingOrNull | frontend/src/components/ExploreSection.js:72 | `rating \|\| null`: a zero rating reads as unset. |
| Explore.FormOf | frontend/src/components/ExploreSection.js:63-75 | Copies the event's fields. A missing description or date becomes "", and a zero rating becomes null. |
| Explore.SaveCall | frontend/src/components/ExploreSection.js:77-106 | Sends nothing without a title or a location. It updates iff editing an event that is not a default one; otherwise it creates. |
| Explore.DeleteCall | frontend/src/components/ExploreSection.js:108-129 | Deletes iff the event is not a default one and the user confirms. |
| Explore.DefaultEventsProtected | frontend/src/components/ExploreSection.js:86-112 | A default event is never updated or deleted: an edit creates a copy and a delete sends nothing. |
| Explore.EditSaveUpdatesSameEvent | frontend/src/components/ExploreSection.js:63-98 | Saving an unchanged edit of the user's own event updates that event with its own fields. |
| Explore.ExploreHeader | frontend/src/components/ExploreSection.js:31-33 | `Bearer ${getItem('token')}`, with a missing item shown as "null". |
| Explore.SessionLeavesExploreHeader | frontend/src/components/ExploreSection.js:31 | No sequence of session-store handlers changes the header this tab sends. |
| Explore.SignedInUserSendsNullToken | frontend/src/components/ExploreSection.js:31-33 | Starting without a `token` key, the tab sends "Bearer null" however the session went. |
| Explore.GetEventIcon | frontend/src/components/ExploreSection.js:131-144 | Gives the type's icon, or 📍 for an unknown type. |
| Explore.ExploreScreen.constructor | frontend/src/components/ExploreSection.js:10-22 | Starts with no events, the modal closed, no edit and the blank form. |
| Explore.ExploreScreen.LoadEvents | frontend/src/components/ExploreSection.js:28-47 | A reply sets the events (a missing list reads as empty); a failure keeps them. Loading ends. |
| Explore.ExploreScreen.HandleAddEvent | frontend/src/components/ExploreSection.js:49-61 | Clears the edit, resets the form and opens the modal. |
| Explore.ExploreScreen.HandleEditEvent | frontend/src/components/ExploreSection.js:63-75 | Edits the event, fills the form from it and opens the modal. |
| Explore.ExploreScreen.EditForm | frontend/src/components/ExploreSection.js:259-348 | Only the form changes. |
| Explore.ExploreScreen.HandleSaveEvent | frontend/src/components/ExploreSection.js:77-106 | Sends the SaveCall. A successful request closes the modal and reloads. |
| Explore.ExploreScreen.HandleDeleteEvent | frontend/src/components/ExploreSection.js:108-129 | Sends the DeleteCall and reloads iff the delete succeeded. |
| Recommendations.MidnightOf | frontend/src/components/EventRecommendations.js:29 | `new Date(year, month - 1, day)` is a local midnight, `day - 1` days after the month's first; a day past the month's end runs into the next. |
| Recommendations.MockHolidays | frontend/src/components/EventRecommendations.js:27-49 | Three holidays, typed holiday or celebration, without a location, dated at local midnight of days 25, 31 and 14 of the current month. |
| Recommendations.MockCulturalEvents | frontend/src/components/EventRecommendations.js:51-73 | Three cultural events, typed art, food or music, each with a location, dated at local midnight of days 20, 28 and 22 of the current month. |
| Recommendations.NewYearsEveRunsOver | frontend/src/components/EventRecommendations.js:36 | In a 30-day month, "New Year's Eve" falls on the first day of the next month. |
| Recommendations.Upcoming | frontend/src/components/EventRecommendations.js:116-117 | Gives exactly the entries dated at or after now. |
| Recommendations.UpcomingKeepsOrder | frontend/src/components/EventRecommendations.js:116-117 | The filter distributes over concatenation, so the original order is kept. |
| Recommendations.UpcomingHolidays | frontend/src/components/EventRecommendations.js:116 | Gives the first ≤3 upcoming holidays: three when there are at least three. |
| Recommendations.UpcomingCultural | frontend/src/components/EventRecommendations.js:117 | Gives the first ≤2 upcoming cultural events: two when there are at least two. |
| Recommendations.ShownAreUpcoming | frontend/src/components/EventRecommendations.js:116-117 | Everything listed is from the list and not past. |
| Recommendations.TaskDataOf | frontend/src/components/EventRecommendations.js:87-93 | The posted task is all-day with title = name. The description defaults to "" and the type to general. |
| Recommendations.AfterPost | frontend/src/components/EventRecommendations.js:95-99 | A success notice appears iff the post succeeded and `toast` is bound. |
| Recommendations.AddToCalendar | frontend/src/components/EventRecommendations.js:85-100 | Posts TaskDataOf the event; the outcome is AfterPost with `toast` unbound. |
| Recommendations.NoSuccessNotice | frontend/src/components/EventRecommendations.js:96 | As written, no post ever shows its success notice. |
| Recommendations.VisitEvent | frontend/src/components/EventRecommendations.js:234-239 | "Visit " + name, type personal, dated now. |
| Recommendations.VisitPostsPersonalTask | frontend/src/components/EventRecommendations.js:234-240 | A planned visit is posted as an all-day personal task named after the place. |
| Recommendations.NearbyShown | frontend/src/components/EventRecommendations.js:211 | Gives the first ≤3 places. |
| Recommendations.PlaceIcon | frontend/src/components/EventRecommendations.js:215-219 | Each of the five listed kinds shows its own icon; any other kind, or none, shows 📍. |
| Recommendations.GetEventIcon | frontend/src/components/EventRecommendations.js:102-114 | Gives the kind's icon, or 📅 for a missing or unknown kind. |
| Recommendations.BuiltInEntriesHaveIcons | frontend/src/components/EventRecommendations.js:27-114 | Every built-in entry has its own icon, not the fallback. |

## Inconsistencies kept as written

Three places in the frontend do not fit the rest of the code. The model keeps both as written and
proves their effect:

- **The explore tab reads the wrong token key.** ExploreSection reads its token from the key
  `token` (ExploreSection.js line 31). The session store keeps it under `cc_token`
  (AuthContext.js line 24). See `Explore.SessionLeavesExploreHeader` and
  `Explore.SignedInUserSendsNullToken`.
- **The plan request never reaches the handler.** TaskManager posts `date` in a JSON body
  (TaskManager.js lines 78-80). `plan_my_day(date: str, ...)` (server.py line 396) declares a
  plain `str` parameter, which FastAPI reads from the query string. So the request is refused with
  422 before the trial gate, and the timeline never changes. The model keeps the reply as an
  input, so `TaskManager.TaskList.PlanMyDay` holds either way. See `TaskManager.PlanRequestRefused`
  and `Server.BindPlanDate`.
- **The calendar button never confirms.** EventRecommendations calls `toast` without importing it.
  After a successful post that call throws, and the catch logs it. See
  `Recommendations.NoSuccessNotice`.

## Left out

- HTTP, MongoDB and JWT: requests, queries, token creation and `get_current_user` are not modelled. Server answers are inputs.
- Server.UpdateTaskHandler: the 404 for `modified_count == 0` is Mongo update semantics and is not modelled.
- `onboard_user`: it builds a `UserProfile`, which server.py does not define.
- `get_nearby_places`: it calls an external places service and uses float distances.
- Time zones and ISO-8601 strings: instants are local milliseconds, and `toISOString`/`fromisoformat` are identities on them. In the real round trip the editor sends UTC (`toISOString`), the Motor client (server.py line 26, `tz_aware` left off) reads back naive UTC, FastAPI writes it without an offset, and `new Date(task.date)` reads that as local time, so outside UTC a reloaded start moves by the UTC offset. `CalendarView.TimedSaveReloads` and `CalendarView.AllDaySaveReloads` hold only in the time-zone-free model.
- Toasts, `window.confirm`, `setTimeout`/`setInterval` scheduling and rendering: the confirmation is a boolean input, and a timer firing is a method call.
- The persona-message request itself is not modelled. `PersonaChat.Fetched` takes its reply as an input.
- The CalendarView geolocation callback is not modelled. The model keeps only the list it builds, `CalendarView.Recommendations`.
- PaywallScreen.js, useCapacitor.js, tailwind.config.js and the service-worker registration are not modelled.
- TaskManager.FindType: it does not state that the entry found is the first one with the id; the table has no duplicate ids.
- TaskManager.DisplayHour: the 1..12 bound is stated only for non-negative hours. A negative hour gives JavaScript's negative remainder, which the third clause states.
- Text.JsParseInt: it models decimal `parseInt` only. A "0x" prefix is read as 0.
- MainApp.WelcomeMessage and PersonaChat.GetPersonaInfo: JavaScript object lookups also find inherited keys such as `constructor`. The model treats the tables as plain maps.
- Explore.ExploreScreen.HandleSaveEvent: the reload after a save or delete is returned as a flag, not performed.
- CalendarView.CalendarState.SaveEvent: the `loadEvents()` after a successful save is returned as the reload flag and not performed. The caller runs `LoadEvents` with the server's answer.
- CalendarView.CalendarState.DeleteEvent: the `loadEvents()` after a successful delete is returned as the reload flag and not performed, as for a save.
- Server.PlanMyDay: it models the handler as intended, with a task without a time sorted as "00:00" and the documents read without `_id`. The code as written is `Server.PlanMyDayAsWritten` (see Findings).
- The `day_plans.insert_one` of `plan_my_day` is not modelled; its stored record is never read back by the core.

## Findings

| source | as written | input that shows it | evidently intended | confidence | as-written member | corrected member |
|---|---|---|---|---|---|---|
| backend/server.py:180 | `task_list.sort(key=lambda x: x.get('time', '00:00'))`: a stored task whose time is `None` (an all-day task) has the key `None`, and comparing it with a string raises TypeError | two all-day tasks of type "general" on the same day | a task without a time sorts as "00:00" | high (not executed) | Timeline.TwoAllDayTasksRaise | Timeline.GenerateDayTimeline |
| backend/server.py:406-410 | `db.tasks.find({...})` has no `{"_id": 0}` projection, unlike the reads at lines 128 and 304. Each task read keeps its Mongo `ObjectId`, and the response returns these documents in `timeline`. FastAPI's JSON encoder has no rule for `ObjectId`, so the handler answers 500 | a granted day with one open task | the tasks are read with `{"_id": 0}`, and the plan of that day is returned | medium (not executed) | Server.PlanMyDayAsWrittenFails | Server.PlanMyDay |
