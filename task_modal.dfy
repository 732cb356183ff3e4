/** The task editor (frontend/src/components/TaskModal.js): the form filled from an event, the
    payload a save hands on, and the countdown timer with its "MM:SS" display. */
module TaskModal {
  import opened Wrappers
  import opened Text
  import opened Clock
  import opened Api

  // ---------------------------------------------------------------------------
  // The form

  /** The editor's fields. The two time pickers offer a clear button, so a start or an end
      may be null. */
  datatype Form = Form(
    title: string,
    description: string,
    start: Option<int>,
    end: Option<int>,
    allDay: bool,
    taskType: string,
    priority: string,
    deadline: Option<int>,
    reminder: Option<int>,
    timerDuration: string,
    repeat: string,
    tags: string,
    location: string,
    notes: string)

  /** The form before any event arrives; both times are the moment the editor opened. */
  function InitialForm(now: int): Form
  {
    Form("", "", Some(now), Some(now), false, "general", "medium", None, None, "", "none", "", "", "")
  }

  /** The form the effect fills from an event: each missing field takes its default, and an
      event without an end ends an hour after its start. The calendar's `resource` carries no
      priority, deadline, reminder, timer, repeat, tags, location or notes, so those always take
      their defaults. */
  function FormFromEvent(e: CalEvent, now: int): (f: Form)
    ensures f.title == (if e.title.Some? then e.title.value else "")
    ensures f.description == (if e.resource.Some? && Truthy(e.resource.value.description)
                              then e.resource.value.description.value else "")
    ensures f.start == Some(if e.start.Some? then e.start.value else now)
    ensures e.end.Some? ==> f.end == e.end
    ensures e.end.None? ==> f.end == Some(f.start.value + HourMs)
    ensures f.allDay == e.allDay
    ensures f.taskType == (if e.resource.Some? && e.resource.value.taskType != "" then e.resource.value.taskType else "general")
    ensures f.priority == "medium" && f.deadline.None? && f.reminder.None? && f.timerDuration == ""
    ensures f.repeat == "none" && f.tags == "" && f.location == "" && f.notes == ""
  {
    var start := if e.start.Some? then e.start.value else now;
    var description := if e.resource.Some? && Truthy(e.resource.value.description) then e.resource.value.description.value else "";
    var taskType := if e.resource.Some? && e.resource.value.taskType != "" then e.resource.value.taskType else "general";
    Form(if e.title.Some? then e.title.value else "", description, Some(start),
         if e.end.Some? then e.end else Some(start + HourMs),
         e.allDay, taskType, "medium", None, None, "", "none", "", "", "")
  }

  /** The effect on `[event]`: a null event leaves the form as it was. */
  function FormOnOpen(e: Option<CalEvent>, previous: Form, now: int): (f: Form)
    ensures e.None? ==> f == previous
    ensures e.Some? ==> f == FormFromEvent(e.value, now)
  {
    if e.Some? then FormFromEvent(e.value, now) else previous
  }

  // ---------------------------------------------------------------------------
  // Saving

  /** The body `handleSave` passes to `onSave`. */
  datatype TaskPayload = TaskPayload(
    title: string,
    description: string,
    date: int,
    time: Option<string>,
    taskType: string,
    priority: string,
    deadline: Option<int>,
    reminder: Option<int>,
    timerDuration: string,
    repeat: string,
    tags: string,
    location: string,
    notes: string,
    allDay: bool)

  /** moment's `format('HH:mm')`: two pieces around one colon, reading back with `parseInt` as
      the instant's hour and minute. */
  function FormatHHmm(t: int): (r: string)
    ensures |SplitOn(r, ':')| == 2
    ensures JsParseInt(SplitOn(r, ':')[0]) == Some(HourOf(t))
    ensures JsParseInt(SplitOn(r, ':')[1]) == Some(MinuteOf(t))
  {
    ColonPairParses(HourOf(t), MinuteOf(t));
    ColonPair(HourOf(t), MinuteOf(t))
  }

  /** "HH:mm" read back with `split(':')` and `parseInt` gives the instant's hour and minute. */
  lemma FormatHHmmParses(t: int)
    ensures SplitOn(FormatHHmm(t), ':') == [Padded(HourOf(t)), Padded(MinuteOf(t))]
    ensures JsParseInt(Padded(HourOf(t))) == Some(HourOf(t))
    ensures JsParseInt(Padded(MinuteOf(t))) == Some(MinuteOf(t))
  {
    var h, m := HourOf(t), MinuteOf(t);
    ColonPairParses(h, m);
  }

  /** `handleSave`: nothing for a title that is blank once trimmed, otherwise the payload; the
      title itself is sent untrimmed. A cleared start makes `formData.start.toISOString()` throw
      inside the click handler, so `onSave` is never reached and nothing is sent either. */
  function HandleSave(f: Form): (r: Option<TaskPayload>)
    ensures r.None? <==> IsBlank(f.title) || f.start.None?
    ensures r.Some? ==> r.value.title == f.title && Some(r.value.date) == f.start
    ensures r.Some? ==> (r.value.time.None? <==> f.allDay) && r.value.allDay == f.allDay
    ensures r.Some? && !f.allDay ==> r.value.time == Some(FormatHHmm(f.start.value))
    ensures r.Some? ==> r.value.deadline == f.deadline && r.value.reminder == f.reminder
    ensures r.Some? ==> r.value.taskType == f.taskType && r.value.priority == f.priority
    ensures r.Some? ==> r.value.timerDuration == f.timerDuration
    ensures r.Some? ==> r.value.description == f.description && r.value.repeat == f.repeat
    ensures r.Some? ==> r.value.tags == f.tags && r.value.location == f.location && r.value.notes == f.notes
  {
    if IsBlank(f.title) then None
    else if f.start.None? then None
    else
      var start := f.start.value;
      Some(TaskPayload(f.title, f.description, start, if f.allDay then None else Some(FormatHHmm(start)),
                       f.taskType, f.priority, f.deadline, f.reminder, f.timerDuration, f.repeat,
                       f.tags, f.location, f.notes, f.allDay))
  }

  /** A timed payload carries the form's start and its "HH:mm". */
  lemma TimedPayload(f: Form)
    requires HandleSave(f).Some? && !f.allDay
    ensures f.start.Some? && HandleSave(f).value.date == f.start.value
    ensures HandleSave(f).value.time == Some(FormatHHmm(f.start.value))
  {
  }

  /** Editing an existing calendar task and saving it sends priority "medium", no deadline, no
      reminder and no timer, whatever the task had: those fields never reach the form. */
  lemma EditResetsHiddenFields(e: CalEvent, now: int)
    requires e.title.Some? && !IsBlank(e.title.value)
    ensures HandleSave(FormFromEvent(e, now)).Some?
    ensures HandleSave(FormFromEvent(e, now)).value.priority == "medium"
    ensures HandleSave(FormFromEvent(e, now)).value.deadline.None?
    ensures HandleSave(FormFromEvent(e, now)).value.reminder.None?
    ensures HandleSave(FormFromEvent(e, now)).value.timerDuration == ""
  {
  }

  // ---------------------------------------------------------------------------
  // The countdown timer

  /** `timerRemaining`: a number of seconds, or NaN when the duration did not parse. */
  datatype Seconds = Finite(n: int) | NaN

  datatype TimerState = TimerState(active: bool, remaining: Seconds)

  /** Whether the interval is running: active with a positive remaining time. */
  predicate Running(s: TimerState)
  {
    s.active && s.remaining.Finite? && s.remaining.n > 0
  }

  /** One second of the interval: at one second or less the timer stops at zero. */
  function Step(s: TimerState): (r: TimerState)
    ensures !Running(s) ==> r == s
    ensures Running(s) && s.remaining.n <= 1 ==> r == TimerState(false, Finite(0))
    ensures Running(s) && s.remaining.n > 1 ==> r == TimerState(true, Finite(s.remaining.n - 1))
  {
    if !Running(s) then s
    else if s.remaining.n <= 1 then TimerState(false, Finite(0))
    else TimerState(true, Finite(s.remaining.n - 1))
  }

  /** `k` seconds of the interval. */
  function Steps(s: TimerState, k: nat): TimerState
    decreases k
  {
    if k == 0 then s else Steps(Step(s), k - 1)
  }

  /** The remaining time never becomes negative. */
  lemma StepKeepsNonNegative(s: TimerState)
    requires s.remaining.Finite? && s.remaining.n >= 0
    ensures Step(s).remaining.Finite? && Step(s).remaining.n >= 0
  {
  }

  /** A running timer with `n` seconds counts down one per tick and has stopped at zero after
      exactly `n` ticks. */
  lemma {:induction false} CountdownReachesZero(n: int, k: nat)
    requires n > 0 && k <= n
    ensures Steps(TimerState(true, Finite(n)), k)
            == if k < n then TimerState(true, Finite(n - k)) else TimerState(false, Finite(0))
  {
    if k > 0 {
      if n == 1 {
        assert Steps(TimerState(true, Finite(n)), k) == Steps(TimerState(false, Finite(0)), 0);
      } else {
        CountdownReachesZero(n - 1, k - 1);
      }
    }
  }

  /** `startTimer`: with a non-empty duration the timer runs from `parseInt(duration) * 60`
      seconds (NaN when the duration is not a number); an empty duration changes nothing. */
  function Start(s: TimerState, timerDuration: string): (r: TimerState)
    ensures timerDuration == "" ==> r == s
    ensures timerDuration != "" ==> r.active
    ensures timerDuration != "" && JsParseInt(timerDuration).Some? ==> r.remaining == Finite(JsParseInt(timerDuration).value * 60)
    ensures timerDuration != "" && JsParseInt(timerDuration).None? ==> r.remaining == NaN
  {
    if timerDuration == "" then s
    else
      match JsParseInt(timerDuration)
      case Some(d) => TimerState(true, Finite(d * 60))
      case None => TimerState(true, NaN)
  }

  /** `stopTimer`. */
  const Stopped: TimerState := TimerState(false, Finite(0))

  /** A timer started from a positive number of minutes stops at zero after exactly that many
      minutes of ticks. */
  lemma StartedTimerFinishes(s: TimerState, minutes: nat)
    requires minutes > 0
    ensures Start(s, NatToString(minutes)) == TimerState(true, Finite(minutes * 60))
    ensures Steps(Start(s, NatToString(minutes)), minutes * 60) == Stopped
  {
    ParseIntOfDigits(NatToString(minutes));
    CountdownReachesZero(minutes * 60, minutes * 60);
  }

  /** A stopped timer stays stopped: the interval does not run. */
  lemma {:induction false} StoppedIsStill(k: nat)
    ensures Steps(Stopped, k) == Stopped
  {
    if k > 0 {
      StoppedIsStill(k - 1);
    }
  }

  /** The timer state of the editor, changed by its three handlers. */
  class Countdown {
    var active: bool
    var remaining: Seconds

    function State(): TimerState
      reads this
    {
      TimerState(active, remaining)
    }

    constructor()
      ensures State() == Stopped
    {
      active := false;
      remaining := Finite(0);
    }

    /** `startTimer` with the form's duration. */
    method StartTimer(timerDuration: string)
      modifies this
      ensures State() == Start(old(State()), timerDuration)
    {
      if timerDuration != "" {
        var duration := JsParseInt(timerDuration);
        remaining := if duration.Some? then Finite(duration.value * 60) else NaN;
        active := true;
      }
    }

    /** `stopTimer`. */
    method StopTimer()
      modifies this
      ensures State() == Stopped
    {
      active := false;
      remaining := Finite(0);
    }

    /** One firing of the one-second interval, which exists only while the timer runs. */
    method Tick()
      modifies this
      ensures State() == Step(old(State()))
    {
      if active && remaining.Finite? && remaining.n > 0 {
        var prev := remaining.n;
        if prev <= 1 {
          active := false;
          remaining := Finite(0);
        } else {
          remaining := Finite(prev - 1);
        }
      }
    }
  }

  /** `formatTimer`: minutes `Math.floor(s / 60)` and seconds `s % 60`, each padded to two digits. */
  function FormatTimer(seconds: int): (r: string)
    ensures seconds >= 0 ==> ParseClock(r) == Some(seconds)
  {
    var r := ColonPair(seconds / 60, JsRem(seconds, 60));
    assert seconds >= 0 ==> ParseClock(r) == Some(seconds) by {
      if seconds >= 0 {
        ParseClockOfPair(seconds / 60, seconds % 60, seconds);
      }
    }
    r
  }

  /** Reading a displayed "MM:SS" back: minutes times sixty plus seconds. */
  function ParseClock(s: string): Option<int>
  {
    ClockOfParts(SplitOn(s, ':'))
  }

  function ClockOfParts(parts: seq<string>): Option<int>
  {
    if |parts| != 2 then None
    else
      var m, sec := JsParseInt(parts[0]), JsParseInt(parts[1]);
      if m.Some? && sec.Some? then Some(m.value * 60 + sec.value) else None
  }

  lemma ClockOfPieces(p: string, q: string, a: int, b: int, n: int)
    requires JsParseInt(p) == Some(a) && JsParseInt(q) == Some(b) && a * 60 + b == n
    ensures ClockOfParts([p, q]) == Some(n)
  {
  }

  /** A clock shown as two padded fields reads back as minutes times sixty plus seconds. */
  lemma ParseClockOfPair(a: nat, b: nat, n: int)
    requires a * 60 + b == n
    ensures ParseClock(ColonPair(a, b)) == Some(n)
  {
    ColonPairParses(a, b);
    ClockOfPieces(Padded(a), Padded(b), a, b, n);
  }

  /** For a non-negative count the display shows the minutes and the seconds below 60. */
  lemma FormatTimerFields(seconds: nat)
    ensures FormatTimer(seconds) == ColonPair(seconds / 60, seconds % 60)
    ensures seconds % 60 < 60 && (seconds / 60) * 60 + seconds % 60 == seconds
  {
    assert JsRem(seconds, 60) == seconds % 60;
  }
}
