/** The recommendation panel (frontend/src/components/EventRecommendations.js): the upcoming
    holidays and cultural events drawn from this month's built-in lists, the nearby places passed
    in, and the task each "add to calendar" button posts. Dates are instants in milliseconds; the
    current instant is a parameter. */
module Recommendations {
  import opened Wrappers
  import opened Api
  import Clock

  /** A holiday, a cultural event or a planned visit; `kind` is the object's `type`. */
  datatype Suggestion = Suggestion(
    name: string,
    date: int,
    kind: Option<string>,
    description: Option<string>,
    location: Option<string>)

  /** `new Date(year, month - 1, day)` at local midnight; a day past the month's end runs into
      the next month. */
  function MidnightOf(year: int, month: int, day: int): (t: int)
    requires 1 <= month <= 12
    ensures t == Clock.StartOfDay(t)
    ensures Clock.DayOf(t) == Clock.MonthStartDay(year, month) + day - 1
  {
    Clock.DayNumber(Clock.Date(year, month, day)) * Clock.DayMs
  }

  /** The three built-in holidays, all dated in the current month. */
  function MockHolidays(year: int, month: int): (r: seq<Suggestion>)
    requires 1 <= month <= 12
    ensures |r| == 3
    ensures forall i :: 0 <= i < |r| ==> r[i].location.None?
    ensures r[0].date == MidnightOf(year, month, 25) && r[1].date == MidnightOf(year, month, 31)
    ensures r[2].date == MidnightOf(year, month, 14)
    ensures forall i :: 0 <= i < |r| ==> r[i].kind == Some("holiday") || r[i].kind == Some("celebration")
  {
    [ Suggestion("Christmas Day", MidnightOf(year, month, 25), Some("holiday"),
        Some("Christian holiday celebrating the birth of Jesus"), None),
      Suggestion("New Year's Eve", MidnightOf(year, month, 31), Some("celebration"),
        Some("Last day of the year celebration"), None),
      Suggestion("Valentine's Day", MidnightOf(year, month, 14), Some("celebration"),
        Some("Day of romance and love"), None) ]
  }

  /** The three built-in cultural events, all dated in the current month. */
  function MockCulturalEvents(year: int, month: int): (r: seq<Suggestion>)
    requires 1 <= month <= 12
    ensures |r| == 3
    ensures forall i :: 0 <= i < |r| ==> r[i].location.Some?
    ensures r[0].date == MidnightOf(year, month, 20) && r[1].date == MidnightOf(year, month, 28)
    ensures r[2].date == MidnightOf(year, month, 22)
    ensures forall i :: 0 <= i < |r| ==> r[i].kind.Some? && r[i].kind.value in {"art", "food", "music"}
  {
    [ Suggestion("Local Art Exhibition", MidnightOf(year, month, 20), Some("art"),
        Some("Contemporary local artists showcase"), Some("Downtown Gallery")),
      Suggestion("Food Festival", MidnightOf(year, month, 28), Some("food"),
        Some("International cuisine festival"), Some("City Park")),
      Suggestion("Music Concert", MidnightOf(year, month, 22), Some("music"),
        Some("Classical music evening"), Some("Concert Hall")) ]
  }

  /** In a month shorter than 31 days the "New Year's Eve" entry is dated in the next month. */
  lemma NewYearsEveRunsOver(year: int, month: int)
    requires 1 <= month < 12 && Clock.DaysInMonth(year, month) == 30
    ensures MockHolidays(year, month)[1].date == MidnightOf(year, month + 1, 1)
  {
    Clock.MonthsAreContiguous(year, month);
  }

  /** `filter(e => e.date >= now)`. */
  function Upcoming(items: seq<Suggestion>, now: int): (r: seq<Suggestion>)
    ensures |r| <= |items|
    ensures forall i :: 0 <= i < |r| ==> r[i] in items && r[i].date >= now
    ensures forall e :: e in items && e.date >= now ==> e in r
  {
    if items == [] then []
    else (if items[0].date >= now then [items[0]] else []) + Upcoming(items[1..], now)
  }

  /** The filter distributes over concatenation, so it keeps the entries in their listed order. */
  lemma {:induction false} UpcomingKeepsOrder(a: seq<Suggestion>, b: seq<Suggestion>, now: int)
    ensures Upcoming(a + b, now) == Upcoming(a, now) + Upcoming(b, now)
  {
    if a != [] {
      assert (a + b)[1..] == a[1..] + b;
      UpcomingKeepsOrder(a[1..], b, now);
    } else {
      assert a + b == b;
    }
  }

  /** The first three upcoming holidays. */
  function UpcomingHolidays(holidays: seq<Suggestion>, now: int): (r: seq<Suggestion>)
    ensures |r| <= 3 && |r| <= |Upcoming(holidays, now)|
    ensures r == Upcoming(holidays, now)[..|r|]
    ensures |Upcoming(holidays, now)| >= 3 ==> |r| == 3
  {
    Take(Upcoming(holidays, now), 3)
  }

  /** The first two upcoming cultural events. */
  function UpcomingCultural(events: seq<Suggestion>, now: int): (r: seq<Suggestion>)
    ensures |r| <= 2 && |r| <= |Upcoming(events, now)|
    ensures r == Upcoming(events, now)[..|r|]
    ensures |Upcoming(events, now)| >= 2 ==> |r| == 2
  {
    Take(Upcoming(events, now), 2)
  }

  /** Nothing listed is already past. */
  lemma ShownAreUpcoming(holidays: seq<Suggestion>, events: seq<Suggestion>, now: int)
    ensures forall i :: 0 <= i < |UpcomingHolidays(holidays, now)| ==>
              UpcomingHolidays(holidays, now)[i] in holidays && UpcomingHolidays(holidays, now)[i].date >= now
    ensures forall i :: 0 <= i < |UpcomingCultural(events, now)| ==>
              UpcomingCultural(events, now)[i] in events && UpcomingCultural(events, now)[i].date >= now
  {
    var u := Upcoming(holidays, now);
    var h := UpcomingHolidays(holidays, now);
    assert forall i :: 0 <= i < |h| ==> h[i] == u[i];
    var v := Upcoming(events, now);
    var c := UpcomingCultural(events, now);
    assert forall i :: 0 <= i < |c| ==> c[i] == v[i];
  }

  /** The body `addToCalendar` posts; `date` is the instant its ISO string denotes. */
  datatype TaskData = TaskData(title: string, description: string, date: int, taskType: string, allDay: bool)

  function TaskDataOf(e: Suggestion): (t: TaskData)
    ensures t.allDay && t.title == e.name && t.date == e.date
    ensures t.description == (if e.description.Some? then e.description.value else "")
    ensures t.taskType == (if Truthy(e.kind) then e.kind.value else "general")
  {
    TaskData(
      e.name,
      if e.description.Some? then e.description.value else "",
      e.date,
      if Truthy(e.kind) then e.kind.value else "general",
      true)
  }

  /** What the user sees after `addToCalendar`. */
  datatype Outcome = SuccessNotice(text: string) | ErrorLogged

  /** Whether the file binds the name `toast`; it does not import it. */
  const ToastBound: bool := false

  /** After the post: a notice when the post succeeded and `toast` is bound, otherwise the error
      (the failed post, or the reference to an unbound name) goes to the console. */
  function AfterPost(name: string, posted: bool, toastBound: bool): (o: Outcome)
    ensures o.SuccessNotice? <==> posted && toastBound
    ensures o.SuccessNotice? ==> o.text == "Added \"" + name + "\" to your calendar!"
  {
    if posted && toastBound then SuccessNotice("Added \"" + name + "\" to your calendar!") else ErrorLogged
  }

  function AddToCalendar(e: Suggestion, posted: bool): (r: (TaskData, Outcome))
    ensures r.0 == TaskDataOf(e)
    ensures r.1 == AfterPost(e.name, posted, ToastBound)
  {
    (TaskDataOf(e), AfterPost(e.name, posted, ToastBound))
  }

  /** As written, a successful post never shows its success notice. */
  lemma NoSuccessNotice(e: Suggestion, posted: bool)
    ensures AddToCalendar(e, posted).1 == ErrorLogged
  {
  }

  /** A nearby place passed in by the parent. */
  datatype NearbyPlace = NearbyPlace(name: string, kind: Option<string>)

  /** A template literal shows a missing value as `undefined`. */
  function Shown(s: Option<string>): string
  {
    if s.Some? then s.value else "undefined"
  }

  /** The event the "plan a visit" button adds: dated now, of type personal. */
  function VisitEvent(p: NearbyPlace, now: int): (e: Suggestion)
    ensures e.name == "Visit " + p.name && e.kind == Some("personal") && e.date == now
    ensures e.description == Some("Check out this " + Shown(p.kind))
  {
    Suggestion("Visit " + p.name, now, Some("personal"), Some("Check out this " + Shown(p.kind)), None)
  }

  /** A planned visit is posted as an all-day personal task named after the place. */
  lemma VisitPostsPersonalTask(p: NearbyPlace, now: int)
    ensures TaskDataOf(VisitEvent(p, now)) ==
            TaskData("Visit " + p.name, "Check out this " + Shown(p.kind), now, "personal", true)
  {
  }

  /** `recommendations.slice(0, 3)`. */
  function NearbyShown(places: seq<NearbyPlace>): (r: seq<NearbyPlace>)
    ensures |r| <= 3 && |r| <= |places| && r == places[..|r|]
    ensures |places| >= 3 ==> |r| == 3
  {
    Take(places, 3)
  }

  /** The icons of the five place kinds the list knows. */
  const PlaceIcons: map<string, string> := map[
    "cafe" := "☕", "restaurant" := "🍽️", "park" := "🌳", "gym" := "💪", "library" := "📚"]

  /** The nearby place icon: café, restaurant, park, gym or library, else a pin. */
  function PlaceIcon(kind: Option<string>): (icon: string)
    ensures kind.Some? && kind.value in PlaceIcons ==> icon == PlaceIcons[kind.value]
    ensures (kind.None? || kind.value !in PlaceIcons) ==> icon == "📍"
  {
    if kind == Some("cafe") then "☕"
    else if kind == Some("restaurant") then "🍽️"
    else if kind == Some("park") then "🌳"
    else if kind == Some("gym") then "💪"
    else if kind == Some("library") then "📚"
    else "📍"
  }

  /** `getEventIcon`. */
  const Icons: map<string, string> := map[
    "holiday" := "🎄", "celebration" := "🎉", "art" := "🎨", "food" := "🍽️", "music" := "🎵",
    "cultural" := "🏛️", "festival" := "🎪", "default" := "📅"]

  function GetEventIcon(kind: Option<string>): (icon: string)
    ensures kind.Some? && kind.value in Icons ==> icon == Icons[kind.value]
    ensures (kind.None? || kind.value !in Icons) ==> icon == "📅"
  {
    if kind.Some? && kind.value in Icons then Icons[kind.value] else Icons["default"]
  }

  /** Every built-in entry has an icon of its own, not the fallback. */
  lemma BuiltInEntriesHaveIcons(year: int, month: int)
    requires 1 <= month <= 12
    ensures forall i :: 0 <= i < 3 ==> GetEventIcon(MockHolidays(year, month)[i].kind) != "📅"
    ensures forall i :: 0 <= i < 3 ==> GetEventIcon(MockCulturalEvents(year, month)[i].kind) != "📅"
  {
  }
}
