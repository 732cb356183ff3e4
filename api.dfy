/** The shapes the frontend components pass around: a task as the API returns it, and the event
    objects the calendar shows and hands to the task editor. */
module Api {
  import opened Wrappers

  /** A task as `GET /api/tasks` returns it to the browser (the fields the components read). */
  datatype ClientTask = ClientTask(
    id: string,
    title: string,
    description: Option<string>,
    date: int,
    time: Option<string>,
    taskType: string,
    completed: bool,
    deadline: Option<int>,
    reminder: Option<int>,
    timerDuration: Option<string>)

  /** A JavaScript truth test of a string field that may be `null`: present and non-empty. */
  predicate Truthy(s: Option<string>)
  {
    s.Some? && s.value != ""
  }

  /** The `resource` object the calendar attaches to an event built from a task. */
  datatype Resource = Resource(
    taskType: string,
    completed: bool,
    description: Option<string>,
    hasDeadline: bool,
    hasReminder: bool,
    hasTimer: bool)

  /** An event object: one built from a task carries every field; a slot or quick-action draft
      has only `start`, `end` and `allDay`. */
  datatype CalEvent = CalEvent(
    id: Option<string>,
    title: Option<string>,
    start: Option<int>,
    end: Option<int>,
    allDay: bool,
    resource: Option<Resource>)

  /** A draft with no id, title or resource. */
  function Draft(start: int, end: int, allDay: bool): (e: CalEvent)
    ensures e.id.None? && e.title.None? && e.resource.None?
    ensures e.start == Some(start) && e.end == Some(end) && e.allDay == allDay
  {
    CalEvent(None, None, Some(start), Some(end), allDay, None)
  }

  /** `selectedEvent?.id` taken as a truth value. */
  predicate HasId(e: CalEvent)
  {
    Truthy(e.id)
  }
}
