/** The calendar screen (frontend/src/components/CalendarView.js): the date range each view asks
    the backend for, the events built from the returned tasks, the slot and quick-action drafts,
    the save and delete dispatch, the event colours and the "Today's Summary" counts. */
module CalendarView {
  import opened Wrappers
  import opened Text
  import opened Clock
  import opened Api
  import TaskModal
  import Server

  const WeekMs: int := 604_800_000

  // ---------------------------------------------------------------------------
  // The visible range

  /** The three views the toolbar offers; `month` is also the `default` branch of the switch. */
  datatype View = Month | Week | Day

  /** The calendar's `date` as the browser sees it: a local calendar date and a time of day. */
  datatype LocalTime = LocalTime(date: Date, msOfDay: int)

  predicate ValidLocal(lt: LocalTime)
  {
    ValidDate(lt.date) && 0 <= lt.msOfDay < DayMs
  }

  function InstantOf(lt: LocalTime): int
    requires ValidLocal(lt)
  {
    DayNumber(lt.date) * DayMs + lt.msOfDay
  }

  lemma DayOfInstant(lt: LocalTime)
    requires ValidLocal(lt)
    ensures DayOf(InstantOf(lt)) == DayNumber(lt.date)
  {
  }

  /** The `start_date` and `end_date` sent with the task query: both ends included. */
  datatype Range = Range(lo: int, hi: int)

  /** `startOf('week')` to `endOf('week')` of the week holding `day`. */
  function WeekRange(day: int, weekStart: nat): (r: Range)
    requires weekStart < 7
    ensures r.lo <= day * DayMs && (day + 1) * DayMs - 1 <= r.hi
    ensures r.hi + 1 - r.lo == WeekMs
    ensures r.lo % DayMs == 0 && (r.hi + 1) % DayMs == 0
  {
    var first := WeekStartDay(day, weekStart);
    Range(first * DayMs, (first + 7) * DayMs - 1)
  }

  /** The range switch of `loadEvents`: the week or the day of the date, or for the month view the
      weeks from the one holding the first of the month to the one holding its last day. */
  function VisibleRange(view: View, lt: LocalTime, weekStart: nat): (r: Range)
    requires ValidLocal(lt) && weekStart < 7
    ensures view == Week ==> r == WeekRange(DayOf(InstantOf(lt)), weekStart)
    ensures view == Day ==> r == Range(StartOfDay(InstantOf(lt)), EndOfDay(InstantOf(lt)))
    ensures view == Month ==>
              var first := MonthStartDay(lt.date.year, lt.date.month);
              r.lo == WeekRange(first, weekStart).lo
              && r.hi == WeekRange(first + DaysInMonth(lt.date.year, lt.date.month) - 1, weekStart).hi
  {
    var t := InstantOf(lt);
    match view
    case Week => WeekRange(DayOf(t), weekStart)
    case Day => Range(StartOfDay(t), EndOfDay(t))
    case Month =>
      var first := MonthStartDay(lt.date.year, lt.date.month);
      var last := first + DaysInMonth(lt.date.year, lt.date.month) - 1;
      Range(WeekRange(first, weekStart).lo, WeekRange(last, weekStart).hi)
  }

  /** Every view's range holds the date it was computed from, and runs from a midnight to the
      last millisecond of a day. */
  lemma RangeHoldsDate(view: View, lt: LocalTime, weekStart: nat)
    requires ValidLocal(lt) && weekStart < 7
    ensures VisibleRange(view, lt, weekStart).lo <= InstantOf(lt) <= VisibleRange(view, lt, weekStart).hi
    ensures VisibleRange(view, lt, weekStart).lo % DayMs == 0
    ensures (VisibleRange(view, lt, weekStart).hi + 1) % DayMs == 0
  {
    match view
    case Week => WeekRangeHolds(lt, weekStart);
    case Day => DayRangeHolds(lt, weekStart);
    case Month => MonthRangeHolds(lt, weekStart);
  }

  lemma WeekRangeHolds(lt: LocalTime, weekStart: nat)
    requires ValidLocal(lt) && weekStart < 7
    ensures var r := VisibleRange(Week, lt, weekStart);
            r.lo <= InstantOf(lt) <= r.hi && r.lo % DayMs == 0 && (r.hi + 1) % DayMs == 0
  {
    var t := InstantOf(lt);
    assert VisibleRange(Week, lt, weekStart) == WeekRange(DayOf(t), weekStart);
  }

  lemma DayRangeHolds(lt: LocalTime, weekStart: nat)
    requires ValidLocal(lt) && weekStart < 7
    ensures var r := VisibleRange(Day, lt, weekStart);
            r.lo <= InstantOf(lt) <= r.hi && r.lo % DayMs == 0 && (r.hi + 1) % DayMs == 0
  {
    var t := InstantOf(lt);
    assert VisibleRange(Day, lt, weekStart) == Range(StartOfDay(t), EndOfDay(t));
    DayOfInstantBounds(t);
  }

  lemma DayOfInstantBounds(t: int)
    ensures StartOfDay(t) % DayMs == 0 && (EndOfDay(t) + 1) % DayMs == 0
  {
    assert EndOfDay(t) + 1 == (DayOf(t) + 1) * DayMs;
  }

  lemma MonthRangeHolds(lt: LocalTime, weekStart: nat)
    requires ValidLocal(lt) && weekStart < 7
    ensures var r := VisibleRange(Month, lt, weekStart);
            r.lo <= InstantOf(lt) <= r.hi && r.lo % DayMs == 0 && (r.hi + 1) % DayMs == 0
  {
    var t := InstantOf(lt);
    DayOfInstant(lt);
    var first := MonthStartDay(lt.date.year, lt.date.month);
    var last := first + DaysInMonth(lt.date.year, lt.date.month) - 1;
    assert VisibleRange(Month, lt, weekStart) == Range(WeekRange(first, weekStart).lo, WeekRange(last, weekStart).hi);
    MonthHoldsDay(t, first, last, weekStart);
  }

  lemma MonthHoldsDay(t: int, first: int, last: int, weekStart: nat)
    requires weekStart < 7 && first <= DayOf(t) <= last
    ensures WeekRange(first, weekStart).lo <= t <= WeekRange(last, weekStart).hi
  {
    assert first * DayMs <= DayOf(t) * DayMs;
    assert (DayOf(t) + 1) * DayMs <= (last + 1) * DayMs;
  }

  /** A week range is seven whole days starting on the locale's first day of the week. */
  lemma WeekRangeIsAWeek(lt: LocalTime, weekStart: nat)
    requires ValidLocal(lt) && weekStart < 7
    ensures VisibleRange(Week, lt, weekStart).hi + 1 - VisibleRange(Week, lt, weekStart).lo == WeekMs
    ensures Weekday(VisibleRange(Week, lt, weekStart).lo / DayMs) == weekStart
  {
    var first := WeekStartDay(DayOf(InstantOf(lt)), weekStart);
    assert VisibleRange(Week, lt, weekStart).lo / DayMs == first;
  }

  /** The month range covers every day of the month, starts on the locale's first day of the
      week, and spans four to six whole weeks. */
  lemma MonthRangeCoversMonth(lt: LocalTime, weekStart: nat)
    requires ValidLocal(lt) && weekStart < 7
    ensures var r := VisibleRange(Month, lt, weekStart);
            var first := MonthStartDay(lt.date.year, lt.date.month);
            var days := DaysInMonth(lt.date.year, lt.date.month);
            r.lo <= first * DayMs && (first + days) * DayMs - 1 <= r.hi
    ensures Weekday(VisibleRange(Month, lt, weekStart).lo / DayMs) == weekStart
    ensures var r := VisibleRange(Month, lt, weekStart);
            (r.hi + 1 - r.lo) % WeekMs == 0 && 4 * WeekMs <= r.hi + 1 - r.lo <= 6 * WeekMs
  {
    var first := MonthStartDay(lt.date.year, lt.date.month);
    var last := first + DaysInMonth(lt.date.year, lt.date.month) - 1;
    var a, b := WeekStartDay(first, weekStart), WeekStartDay(last, weekStart);
    var r := VisibleRange(Month, lt, weekStart);
    assert r.lo == a * DayMs && r.hi + 1 == (b + 7) * DayMs;
    assert r.lo / DayMs == a;
    SameWeekdayApart(a, b, weekStart);
    var k := (b - a) / 7;
    assert b - a == 7 * k;
    assert 0 <= b - a <= 36;
    assert 0 <= k <= 5;
    assert r.hi + 1 - r.lo == (k + 1) * WeekMs;
    assert k >= 3 by {
      assert b - a >= 27 - 6;
    }
  }

  /** Two days on the same weekday lie a whole number of weeks apart. */
  lemma SameWeekdayApart(a: int, b: int, w: nat)
    requires w < 7 && Weekday(a) == w && Weekday(b) == w
    ensures (b - a) % 7 == 0
  {
    var qa, qb := (a + 4) / 7, (b + 4) / 7;
    assert a + 4 == 7 * qa + w;
    assert b + 4 == 7 * qb + w;
    assert b - a == 7 * (qb - qa);
  }

  /** The day view's closed range selects exactly what the backend's `date` query selects: the
      tasks of the same calendar day. */
  lemma DayRangeMatchesDayQuery(lt: LocalTime, weekStart: nat, x: int)
    requires ValidLocal(lt) && weekStart < 7
    ensures var r := VisibleRange(Day, lt, weekStart);
            Server.InWindow(Server.TaskWindow(None, Some(r.lo), Some(r.hi)), x)
            <==> Server.InWindow(Server.TaskWindow(Some(InstantOf(lt)), None, None), x)
  {
    Server.DayWindowIsSameDay(InstantOf(lt), None, None, x);
  }

  // ---------------------------------------------------------------------------
  // Tasks as events

  /** `parseInt(parts[i])`, where a missing piece is `undefined` and parses as NaN. */
  function PieceValue(parts: seq<string>, i: nat): Option<int>
  {
    if i < |parts| then JsParseInt(parts[i]) else None
  }

  /** moment's `set({hour, minute})`: the hour first, then the minute; a NaN value is ignored. */
  function SetClock(date: int, hour: Option<int>, minute: Option<int>): int
  {
    var t := if hour.Some? then SetHour(date, hour.value) else date;
    if minute.Some? then SetMinute(t, minute.value) else t
  }

  /** The `end` of a task's event: with a time, the task's date at that hour and minute plus an
      hour; without one, the date plus an hour. */
  function EventEnd(date: int, time: Option<string>): (r: int)
    ensures !Truthy(time) ==> r == date + HourMs
    ensures Truthy(time) ==> r == SetClock(date, PieceValue(SplitOn(time.value, ':'), 0),
                                           PieceValue(SplitOn(time.value, ':'), 1)) + HourMs
  {
    if Truthy(time) then
      var parts := SplitOn(time.value, ':');
      SetClock(date, PieceValue(parts, 0), PieceValue(parts, 1)) + HourMs
    else date + HourMs
  }

  /** The event `tasks.map` builds from one task. */
  function TaskToEvent(task: ClientTask): (e: CalEvent)
    ensures e.id == Some(task.id) && e.title == Some(task.title)
    ensures e.start == Some(task.date)
    ensures e.end == Some(EventEnd(task.date, task.time))
    ensures e.allDay <==> !Truthy(task.time)
    ensures e.resource.Some? && e.resource.value.taskType == task.taskType
    ensures e.resource.value.completed == task.completed && e.resource.value.description == task.description
    ensures e.resource.value.hasDeadline <==> task.deadline.Some?
    ensures e.resource.value.hasReminder <==> task.reminder.Some?
    ensures e.resource.value.hasTimer <==> Truthy(task.timerDuration)
  {
    CalEvent(Some(task.id), Some(task.title), Some(task.date), Some(EventEnd(task.date, task.time)),
             !Truthy(task.time),
             Some(Resource(task.taskType, task.completed, task.description,
                           task.deadline.Some?, task.reminder.Some?, Truthy(task.timerDuration))))
  }

  /** `response.data.tasks.map(...)`: one event per task, in the same order. */
  function TasksToEvents(tasks: seq<ClientTask>): (r: seq<CalEvent>)
    ensures |r| == |tasks|
    ensures forall i :: 0 <= i < |tasks| ==> r[i] == TaskToEvent(tasks[i])
  {
    if tasks == [] then [] else [TaskToEvent(tasks[0])] + TasksToEvents(tasks[1..])
  }

  /** A time whose two pieces parse puts the end at that hour and minute of the task's own day,
      an hour later, with the date's seconds kept; a time without a colon keeps the minute. */
  lemma EndOfParsedTime(date: int, time: string, p: string, q: string, h: int, m: int)
    requires time != "" && SplitOn(time, ':') == [p, q]
    requires JsParseInt(p) == Some(h) && JsParseInt(q) == Some(m)
    ensures EventEnd(date, Some(time)) == DayOf(date) * DayMs + h * HourMs + m * MinuteMs + SubMinuteMs(date) + HourMs
  {
    SetHourThenMinute(date, h, m);
  }

  /** A time without a colon sets only the hour. */
  lemma EndOfHourOnly(date: int, time: string, h: int)
    requires time != "" && SplitOn(time, ':') == [time] && JsParseInt(time) == Some(h)
    ensures EventEnd(date, Some(time)) == SetHour(date, h) + HourMs
  {
  }

  /** A time that is not a number leaves the date as it is: the end is an hour after the start. */
  lemma EndOfUnparsable(date: int, time: string)
    requires time != "" && forall i :: 0 <= i < |SplitOn(time, ':')| ==> JsParseInt(SplitOn(time, ':')[i]).None?
    ensures EventEnd(date, Some(time)) == date + HourMs
  {
  }

  /** The "HH:mm" the editor sends for an instant brings the reloaded event's end back to exactly
      one hour after the instant. */
  lemma FormattedTimeEndsAnHourLater(t: int)
    ensures EventEnd(t, Some(TaskModal.FormatHHmm(t))) == t + HourMs
  {
    var h, m := HourOf(t), MinuteOf(t);
    TaskModal.FormatHHmmParses(t);
    EndOfPieces(t, TaskModal.FormatHHmm(t), Padded(h), Padded(m), h, m);
    SetOwnHourAndMinute(t);
  }

  lemma EndOfPieces(date: int, time: string, p: string, q: string, h: int, m: int)
    requires SplitOn(time, ':') == [p, q] && JsParseInt(p) == Some(h) && JsParseInt(q) == Some(m)
    ensures EventEnd(date, Some(time)) == SetMinute(SetHour(date, h), m) + HourMs
  {
  }

  /** A timed task saved from the editor and loaded back shows at the start the editor had and
      ends one hour later, whatever end the editor showed. */
  lemma TimedSaveReloads(f: TaskModal.Form, task: ClientTask)
    requires TaskModal.HandleSave(f).Some? && !f.allDay
    requires task.date == TaskModal.HandleSave(f).value.date && task.time == TaskModal.HandleSave(f).value.time
    ensures TaskToEvent(task).start == f.start
    ensures TaskToEvent(task).end.Some? && TaskToEvent(task).end.value == f.start.value + HourMs
    ensures !TaskToEvent(task).allDay
  {
    TaskModal.TimedPayload(f);
    TimedTaskEvent(task, f.start.value);
  }

  /** A task stored with the "HH:mm" of its own date shows at that date, one hour long. */
  lemma TimedTaskEvent(task: ClientTask, t: int)
    requires task.date == t && task.time == Some(TaskModal.FormatHHmm(t))
    ensures TaskToEvent(task).start == Some(t)
    ensures TaskToEvent(task).end == Some(t + HourMs)
    ensures !TaskToEvent(task).allDay
  {
    assert |SplitOn(TaskModal.FormatHHmm(t), ':')| == 2;
    FormattedTimeEndsAnHourLater(t);
  }

  /** An all-day task saved from the editor loads back as an all-day event an hour long. */
  lemma AllDaySaveReloads(f: TaskModal.Form, task: ClientTask)
    requires TaskModal.HandleSave(f).Some? && f.allDay
    requires task.date == TaskModal.HandleSave(f).value.date && task.time == TaskModal.HandleSave(f).value.time
    ensures TaskToEvent(task).start == f.start && TaskToEvent(task).end == Some(f.start.value + HourMs)
    ensures TaskToEvent(task).allDay
  {
  }

  // ---------------------------------------------------------------------------
  // Drafts

  /** moment's `diff(..., 'hours')`: the difference in whole hours, truncated toward zero. */
  function DiffHours(end: int, start: int): (r: int)
    ensures end >= start ==> r >= 0 && r * HourMs <= end - start < (r + 1) * HourMs
    ensures end < start ==> r <= 0 && (r - 1) * HourMs < end - start <= r * HourMs
  {
    var d := end - start;
    if d >= 0 then d / HourMs else -((-d) / HourMs)
  }

  /** `handleSelectSlot`: a draft of the selected slot, all day when it lasts 24 hours or more. */
  function SlotDraft(start: int, end: int): (e: CalEvent)
    ensures e.id.None? && e.resource.None? && e.start == Some(start) && e.end == Some(end)
  {
    Draft(start, end, DiffHours(end, start) >= 24)
  }

  /** A slot is all day exactly when it lasts at least a whole day. */
  lemma SlotAllDayIffDayLong(start: int, end: int)
    ensures SlotDraft(start, end).allDay <==> end - start >= DayMs
  {
    var d := end - start;
    if d >= 0 {
      assert d / HourMs >= 24 <==> d >= 24 * HourMs;
    }
  }

  /** "+ Add New Task": from now to an hour from now. */
  function QuickTaskDraft(now: int): (e: CalEvent)
    ensures e.id.None? && !e.allDay && e.start == Some(now) && e.end == Some(now + HourMs)
  {
    Draft(now, now + HourMs, false)
  }

  /** "+ Add All-day Event": the whole of tomorrow. */
  function AllDayDraft(now: int): (e: CalEvent)
    ensures e.id.None? && e.allDay
    ensures e.start == Some(StartOfDay(now + DayMs)) && e.end == Some(EndOfDay(now + DayMs))
  {
    Draft(StartOfDay(now + DayMs), EndOfDay(now + DayMs), true)
  }

  /** The all-day draft covers exactly the day after today, from midnight to its last
      millisecond, so it is one millisecond short of what the slot rule calls all day. */
  lemma AllDayDraftIsTomorrow(now: int)
    ensures var e := AllDayDraft(now);
            DayOf(e.start.value) == DayOf(now) + 1 && DayOf(e.end.value) == DayOf(now) + 1
            && e.start.value % DayMs == 0 && e.end.value - e.start.value == DayMs - 1
    ensures !SlotDraft(AllDayDraft(now).start.value, AllDayDraft(now).end.value).allDay
  {
    var e := AllDayDraft(now);
    assert DayOf(now + DayMs) == DayOf(now) + 1;
    SlotAllDayIffDayLong(e.start.value, e.end.value);
  }

  // ---------------------------------------------------------------------------
  // Saving and deleting

  /** A request the calendar sends to the task endpoints. */
  datatype TaskCall =
    | CreateCall(body: TaskModal.TaskPayload)
    | UpdateCall(id: string, body: TaskModal.TaskPayload)
    | DeleteCall(id: string)

  /** `handleEventSave`'s dispatch on the selected event. */
  function SaveCall(selected: CalEvent, body: TaskModal.TaskPayload): (c: TaskCall)
    ensures c.UpdateCall? <==> HasId(selected)
    ensures c.CreateCall? <==> !HasId(selected)
    ensures c.UpdateCall? ==> c.id == selected.id.value
    ensures c.body == body
  {
    if HasId(selected) then UpdateCall(selected.id.value, body) else CreateCall(body)
  }

  /** The calendar screen's state: its events, the event open in the editor and whether the
      editor shows, with the view and the date the range is taken from. */
  class CalendarState {
    var view: View
    var date: LocalTime
    var events: seq<CalEvent>
    var selected: Option<CalEvent>
    var showModal: bool

    /** The editor shows exactly when an event is selected. */
    predicate Valid()
      reads this
    {
      showModal <==> selected.Some?
    }

    constructor(today: LocalTime)
      ensures Valid()
      ensures view == Month && date == today && events == [] && selected.None? && !showModal
    {
      view := Month;
      date := today;
      events := [];
      selected := None;
      showModal := false;
    }

    /** Whether the editor is offered a delete handler. */
    predicate DeleteOffered()
      reads this
    {
      selected.Some? && HasId(selected.value)
    }

    /** `onView` and `onNavigate`. */
    method Navigate(v: View, d: LocalTime)
      modifies this
      ensures view == v && date == d
      ensures events == old(events) && selected == old(selected) && showModal == old(showModal)
    {
      view := v;
      date := d;
    }

    /** `loadEvents`: the range asked for, and the events built from the tasks returned; on a
        failed request the events stay as they were. */
    method LoadEvents(weekStart: nat, response: Option<seq<ClientTask>>) returns (range: Range)
      requires ValidLocal(date) && weekStart < 7
      modifies this
      ensures view == old(view) && date == old(date) && selected == old(selected) && showModal == old(showModal)
      ensures range == VisibleRange(view, date, weekStart)
      ensures response.Some? ==> events == TasksToEvents(response.value)
      ensures response.None? ==> events == old(events)
    {
      range := VisibleRange(view, date, weekStart);
      if response.Some? {
        events := TasksToEvents(response.value);
      }
    }

    /** `handleSelectSlot`. */
    method SelectSlot(start: int, end: int)
      modifies this
      ensures Valid()
      ensures selected == Some(SlotDraft(start, end)) && showModal
      ensures events == old(events) && view == old(view) && date == old(date)
    {
      selected := Some(SlotDraft(start, end));
      showModal := true;
    }

    /** `handleSelectEvent`, and the two quick actions with their drafts. */
    method SelectEvent(e: CalEvent)
      modifies this
      ensures Valid()
      ensures selected == Some(e) && showModal
      ensures events == old(events) && view == old(view) && date == old(date)
    {
      selected := Some(e);
      showModal := true;
    }

    /** The editor's `onClose`. */
    method CloseModal()
      modifies this
      ensures Valid()
      ensures selected.None? && !showModal
      ensures events == old(events) && view == old(view) && date == old(date)
    {
      showModal := false;
      selected := None;
    }

    /** `handleEventSave` with the editor's payload and the server's answer: one request, an
        update exactly when the selected event has an id; on success the editor closes and the
        events are to be reloaded, on failure nothing changes. With no selection reading its id
        throws, and the handler's catch sends nothing. */
    method SaveEvent(body: TaskModal.TaskPayload, succeeded: bool) returns (call: Option<TaskCall>, reload: bool)
      modifies this
      ensures old(selected).None? ==> call.None?
      ensures old(selected).Some? ==> call == Some(SaveCall(old(selected).value, body))
      ensures reload <==> call.Some? && succeeded
      ensures reload ==> selected.None? && !showModal
      ensures !reload ==> selected == old(selected) && showModal == old(showModal)
      ensures old(Valid()) ==> Valid()
      ensures events == old(events) && view == old(view) && date == old(date)
    {
      if selected.None? {
        call, reload := None, false;
      } else {
        call := Some(SaveCall(selected.value, body));
        reload := succeeded;
        if succeeded {
          showModal := false;
          selected := None;
        }
      }
    }

    /** `handleEventDelete`: a delete request for the id; success closes the editor and reloads. */
    method DeleteEvent(eventId: string, succeeded: bool) returns (call: TaskCall, reload: bool)
      modifies this
      ensures call == DeleteCall(eventId) && reload == succeeded
      ensures succeeded ==> selected.None? && !showModal
      ensures !succeeded ==> selected == old(selected) && showModal == old(showModal)
      ensures old(Valid()) ==> Valid()
      ensures events == old(events) && view == old(view) && date == old(date)
    {
      call := DeleteCall(eventId);
      reload := succeeded;
      if succeeded {
        showModal := false;
        selected := None;
      }
    }
  }

  /** The editor offers delete exactly when a save from it would be an update. */
  lemma DeleteOfferedIffSaveUpdates(c: CalendarState, body: TaskModal.TaskPayload)
    ensures c.DeleteOffered() <==> c.selected.Some? && SaveCall(c.selected.value, body).UpdateCall?
  {
  }

  /** Every event built from a task has an id, so saving it updates that task and the editor
      offers to delete it; a draft never has one. */
  lemma TaskEventsUpdate(task: ClientTask, body: TaskModal.TaskPayload, start: int, end: int, now: int)
    requires task.id != ""
    ensures SaveCall(TaskToEvent(task), body) == UpdateCall(task.id, body)
    ensures SaveCall(SlotDraft(start, end), body) == CreateCall(body)
    ensures SaveCall(QuickTaskDraft(now), body) == CreateCall(body)
    ensures SaveCall(AllDayDraft(now), body) == CreateCall(body)
  {
  }

  // ---------------------------------------------------------------------------
  // Colours

  const DefaultColor: string := "#ec4899"
  const CompletedColor: string := "#6b7280"

  /** The background of an open event, by its type; pink for any other type or none. */
  /** The colours of the five coloured types. */
  const TypeColors: map<string, string> := map[
    "work" := "#3b82f6", "personal" := "#10b981", "exercise" := "#ef4444",
    "meal" := "#f59e0b", "meeting" := "#8b5cf6"]

  function TypeColor(taskType: Option<string>): (c: string)
    ensures taskType.Some? && taskType.value in TypeColors ==> c == TypeColors[taskType.value]
    ensures (taskType.None? || taskType.value !in TypeColors) ==> c == DefaultColor
  {
    match taskType
    case Some("work") => "#3b82f6"
    case Some("personal") => "#10b981"
    case Some("exercise") => "#ef4444"
    case Some("meal") => "#f59e0b"
    case Some("meeting") => "#8b5cf6"
    case _ => DefaultColor
  }

  datatype Style = Style(backgroundColor: string, opacity: real)

  /** `resource.completed` of `event.resource || {}`. */
  predicate IsCompleted(e: CalEvent)
  {
    e.resource.Some? && e.resource.value.completed
  }

  function TypeOf(e: CalEvent): Option<string>
  {
    if e.resource.Some? then Some(e.resource.value.taskType) else None
  }

  /** `eventStyleGetter`'s colour and opacity. */
  function EventStyle(e: CalEvent): (s: Style)
    ensures IsCompleted(e) ==> s == Style(CompletedColor, 0.6)
    ensures !IsCompleted(e) ==> s == Style(TypeColor(TypeOf(e)), 1.0)
  {
    Style(if IsCompleted(e) then CompletedColor else TypeColor(TypeOf(e)),
          if IsCompleted(e) then 0.6 else 1.0)
  }

  /** A completed event is grey and faded whatever its type; an open one is opaque in its type's
      colour, and never in the completed grey. */
  lemma CompletedLooksTheSame(e: CalEvent)
    ensures IsCompleted(e) ==> EventStyle(e) == Style(CompletedColor, 0.6)
    ensures !IsCompleted(e) ==> EventStyle(e).opacity == 1.0 && EventStyle(e).backgroundColor != CompletedColor
    ensures EventStyle(e).opacity < 1.0 <==> IsCompleted(e)
  {
  }

  /** Types outside the five with their own colour are pink. */
  lemma UnknownTypeIsPink(t: string)
    requires t !in {"work", "personal", "exercise", "meal", "meeting"}
    ensures TypeColor(Some(t)) == DefaultColor
  {
  }

  // ---------------------------------------------------------------------------
  // Today's summary

  /** `moment(e.start)`, where a missing start reads as the current moment. */
  function StartOf(e: CalEvent, now: int): (t: int)
    ensures e.start.Some? ==> t == e.start.value
    ensures e.start.None? ==> t == now
  {
    if e.start.Some? then e.start.value else now
  }

  /** `isSame(moment(), 'day')`: the start falls between today's midnight and the next one; an
      event without a start counts as today's. */
  predicate OnToday(e: CalEvent, now: int)
    ensures OnToday(e, now) <==> StartOfDay(now) <= StartOf(e, now) < StartOfDay(now) + DayMs
    ensures e.start.None? ==> OnToday(e, now)
  {
    DayOf(StartOf(e, now)) == DayOf(now)
  }

  /** "Total Tasks": the events starting today, in order. */
  function TodayEvents(events: seq<CalEvent>, now: int): (r: seq<CalEvent>)
    ensures |r| <= |events|
    ensures forall i :: 0 <= i < |r| ==> OnToday(r[i], now)
  {
    if events == [] then []
    else if OnToday(events[0], now) then [events[0]] + TodayEvents(events[1..], now)
    else TodayEvents(events[1..], now)
  }

  /** "Completed": the events starting today that are completed. */
  function CompletedToday(events: seq<CalEvent>, now: int): (r: seq<CalEvent>)
    ensures |r| <= |TodayEvents(events, now)|
    ensures forall i :: 0 <= i < |r| ==> OnToday(r[i], now) && IsCompleted(r[i])
  {
    if events == [] then []
    else if OnToday(events[0], now) && IsCompleted(events[0]) then [events[0]] + CompletedToday(events[1..], now)
    else CompletedToday(events[1..], now)
  }

  /** "Upcoming": the events starting later today. */
  function UpcomingToday(events: seq<CalEvent>, now: int): (r: seq<CalEvent>)
    ensures |r| <= |TodayEvents(events, now)|
    ensures forall i :: 0 <= i < |r| ==> OnToday(r[i], now) && StartOf(r[i], now) > now
  {
    if events == [] then []
    else if StartOf(events[0], now) > now && OnToday(events[0], now) then [events[0]] + UpcomingToday(events[1..], now)
    else UpcomingToday(events[1..], now)
  }

  datatype Summary = Summary(total: nat, completed: nat, upcoming: nat)

  /** The three counts of "Today's Summary". */
  function TodaySummary(events: seq<CalEvent>, now: int): (s: Summary)
    ensures s.completed <= s.total && s.upcoming <= s.total && s.total <= |events|
  {
    Summary(|TodayEvents(events, now)|, |CompletedToday(events, now)|, |UpcomingToday(events, now)|)
  }

  /** An event of today's total is counted as completed exactly when it is completed. */
  lemma {:induction false} CompletedCountsTodaysCompleted(events: seq<CalEvent>, now: int, e: CalEvent)
    ensures e in CompletedToday(events, now) <==> e in TodayEvents(events, now) && IsCompleted(e)
  {
    if events != [] {
      CompletedCountsTodaysCompleted(events[1..], now, e);
    }
  }

  /** "Total Tasks" counts every event that starts today, and nothing else. */
  lemma {:induction false} TodayEventsExact(events: seq<CalEvent>, now: int, e: CalEvent)
    ensures e in TodayEvents(events, now) <==> e in events && OnToday(e, now)
  {
    if events != [] {
      TodayEventsExact(events[1..], now, e);
      assert events == [events[0]] + events[1..];
    }
  }

  /** "Upcoming" counts every event that starts later today, and nothing else. */
  lemma {:induction false} UpcomingTodayExact(events: seq<CalEvent>, now: int, e: CalEvent)
    ensures e in UpcomingToday(events, now) <==> e in events && OnToday(e, now) && StartOf(e, now) > now
  {
    if events != [] {
      UpcomingTodayExact(events[1..], now, e);
      assert events == [events[0]] + events[1..];
    }
  }

  // ---------------------------------------------------------------------------
  // Recommendations

  /** The sidebar's list: at most three nearby places, then every holiday (none when the answer
      has no holiday list). */
  function Recommendations<T>(places: seq<T>, holidays: Option<seq<T>>): (r: seq<T>)
    ensures var k := if |places| <= 3 then |places| else 3;
            |r| == k + (if holidays.Some? then |holidays.value| else 0)
            && r[..k] == places[..k]
            && r[k..] == (if holidays.Some? then holidays.value else [])
  {
    Take(places, 3) + (if holidays.Some? then holidays.value else [])
  }
}
