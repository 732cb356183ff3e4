/** The day's task list (frontend/src/components/TaskManager.js): the 12-hour time display, the
    task-type lookup, completion toggling, adding a task and asking for a day plan. */
module TaskManager {
  import opened Wrappers
  import opened Text
  import opened Api
  import Server

  // ---------------------------------------------------------------------------
  // The 12-hour clock

  /** `hour % 12 || 12`: JavaScript's remainder, with 0 (and NaN) shown as 12. */
  function DisplayHour(hour: Option<int>): (d: int)
    ensures hour.None? ==> d == 12
    ensures hour.Some? && hour.value >= 0 ==> 1 <= d <= 12
    ensures hour.Some? && JsRem(hour.value, 12) != 0 ==> d == JsRem(hour.value, 12)
  {
    if hour.None? || JsRem(hour.value, 12) == 0 then 12 else JsRem(hour.value, 12)
  }

  /** `hour >= 12 ? 'PM' : 'AM'`; NaN compares false. */
  function Suffix(hour: Option<int>): (s: string)
    ensures s == "PM" <==> hour.Some? && hour.value >= 12
    ensures s == "AM" || s == "PM"
  {
    if hour.Some? && hour.value >= 12 then "PM" else "AM"
  }

  /** `formatTime`: "" for a missing or empty time; otherwise the 12-hour hour, the minutes piece
      as written (the text "undefined" when there is no colon), and the suffix. */
  function FormatTime(time: Option<string>): (r: string)
    ensures r == "" <==> !Truthy(time)
    ensures Truthy(time) ==>
              var hour := JsParseInt(SplitOn(time.value, ':')[0]);
              |r| >= 2 && (r[|r| - 2..] == "PM" <==> hour.Some? && hour.value >= 12)
  {
    if !Truthy(time) then ""
    else
      var parts := SplitOn(time.value, ':');
      var hour := JsParseInt(parts[0]);
      var minutes := if |parts| >= 2 then parts[1] else "undefined";
      IntToString(DisplayHour(hour)) + ":" + minutes + " " + Suffix(hour)
  }

  /** For a stored "HH:MM" the display is the 12-hour hour, the same minutes text and AM or PM. */
  lemma FormatTimeOfPieces(s: string, p: string, q: string, h: int)
    requires SplitOn(s, ':') == [p, q] && JsParseInt(p) == Some(h)
    ensures FormatTime(Some(s)) == IntToString(DisplayHour(Some(h))) + ":" + q + " " + Suffix(Some(h))
  {
  }

  /** A padded 24-hour "HH:MM" shows its minutes unchanged after the 12-hour hour. */
  lemma FormatTimeOfClock(h: nat, m: nat)
    ensures FormatTime(Some(ColonPair(h, m))) == IntToString(DisplayHour(Some(h))) + ":" + Padded(m) + " " + Suffix(Some(h))
  {
    ColonPairParses(h, m);
    FormatTimeOfPieces(ColonPair(h, m), Padded(h), Padded(m), h);
  }

  /** The 12-hour hour and the suffix together give back the 24-hour hour. */
  lemma TwelveHourRoundTrip(h: int)
    requires 0 <= h < 24
    ensures (DisplayHour(Some(h)) % 12) + (if Suffix(Some(h)) == "PM" then 12 else 0) == h
  {
  }

  lemma EmptyTimeShowsNothing()
    ensures FormatTime(None) == "" && FormatTime(Some("")) == ""
  {
  }

  // ---------------------------------------------------------------------------
  // Task types

  datatype TaskTypeInfo = TaskTypeInfo(id: string, name: string)

  const TaskTypes: seq<TaskTypeInfo> := [
    TaskTypeInfo("general", "General"), TaskTypeInfo("work", "Work"),
    TaskTypeInfo("personal", "Personal"), TaskTypeInfo("exercise", "Exercise"),
    TaskTypeInfo("meal", "Meal"), TaskTypeInfo("meeting", "Meeting")]

  /** `Array.find`: the first entry with the id. */
  function FindType(types: seq<TaskTypeInfo>, id: string): (r: Option<TaskTypeInfo>)
    ensures r.Some? <==> exists i :: 0 <= i < |types| && types[i].id == id
    ensures r.Some? ==> r.value.id == id && r.value in types
  {
    if types == [] then None
    else if types[0].id == id then Some(types[0])
    else
      var r := FindType(types[1..], id);
      assert forall i :: 1 <= i < |types| ==> types[i] == types[1..][i - 1];
      r
  }

  /** `getTaskTypeInfo`: the entry for the type, or "General" for a type not in the table. */
  function GetTaskTypeInfo(taskType: string): (r: TaskTypeInfo)
    ensures r in TaskTypes
    ensures (exists i :: 0 <= i < |TaskTypes| && TaskTypes[i].id == taskType) ==> r.id == taskType
    ensures (forall i :: 0 <= i < |TaskTypes| ==> TaskTypes[i].id != taskType) ==> r == TaskTypeInfo("general", "General")
  {
    var found := FindType(TaskTypes, taskType);
    if found.Some? then found.value else TaskTypes[0]
  }

  // ---------------------------------------------------------------------------
  // Completion

  /** `prev.map(task => task.id === taskId ? {...task, completed: !task.completed} : task)`. */
  function Toggled(tasks: seq<ClientTask>, taskId: string): (r: seq<ClientTask>)
    ensures |r| == |tasks|
    ensures forall i :: 0 <= i < |tasks| && tasks[i].id != taskId ==> r[i] == tasks[i]
    ensures forall i :: 0 <= i < |tasks| && tasks[i].id == taskId ==>
              r[i].completed == !tasks[i].completed && r[i].(completed := tasks[i].completed) == tasks[i]
  {
    if tasks == [] then []
    else
      var t := tasks[0];
      [if t.id == taskId then t.(completed := !t.completed) else t] + Toggled(tasks[1..], taskId)
  }

  /** Toggling twice restores the list. */
  lemma ToggleTwice(tasks: seq<ClientTask>, taskId: string)
    ensures Toggled(Toggled(tasks, taskId), taskId) == tasks
  {
    var r := Toggled(Toggled(tasks, taskId), taskId);
    assert forall i :: 0 <= i < |tasks| ==> r[i] == tasks[i];
  }

  /** Toggling an id no task has changes nothing. */
  lemma ToggleAbsent(tasks: seq<ClientTask>, taskId: string)
    requires forall i :: 0 <= i < |tasks| ==> tasks[i].id != taskId
    ensures Toggled(tasks, taskId) == tasks
  {
  }

  /** `tasks.filter(task => !task.completed)`. */
  function Pending(tasks: seq<ClientTask>): (r: seq<ClientTask>)
    ensures |r| <= |tasks|
    ensures forall i :: 0 <= i < |r| ==> !r[i].completed && r[i] in tasks
  {
    if tasks == [] then []
    else if !tasks[0].completed then [tasks[0]] + Pending(tasks[1..])
    else Pending(tasks[1..])
  }

  /** Every task not completed is pending. */
  lemma {:induction false} PendingComplete(tasks: seq<ClientTask>, t: ClientTask)
    requires t in tasks && !t.completed
    ensures t in Pending(tasks)
  {
    if tasks[0] != t {
      PendingComplete(tasks[1..], t);
    }
  }

  /** The plan button shows exactly when some task is not completed. */
  lemma {:induction false} PlanButtonIffOpenTask(tasks: seq<ClientTask>)
    ensures |Pending(tasks)| > 0 <==> exists i :: 0 <= i < |tasks| && !tasks[i].completed
  {
    if |Pending(tasks)| > 0 {
      var p := Pending(tasks)[0];
      assert p in tasks && !p.completed;
      var i :| 0 <= i < |tasks| && tasks[i] == p;
    }
    if exists i :: 0 <= i < |tasks| && !tasks[i].completed {
      var i :| 0 <= i < |tasks| && !tasks[i].completed;
      PendingComplete(tasks, tasks[i]);
    }
  }

  // ---------------------------------------------------------------------------
  // The plan request

  /** An HTTP request as far as the backend's parameter binding sees it. */
  datatype PlanRequest = PlanRequest(query: map<string, string>, body: map<string, string>)

  /** The request `planMyDay` posts: no query string, and the day at UTC midnight as `date` in
      the JSON body. */
  function PlanRequestOf(selectedDate: string): (r: PlanRequest)
    ensures "date" !in r.query
    ensures r.body == map["date" := selectedDate + "T00:00:00Z"]
  {
    PlanRequest(map[], map["date" := selectedDate + "T00:00:00Z"])
  }

  /** The backend reads `date` from the query string, so the plan request is refused with 422
      before the trial gate or the timeline are reached, whatever day is selected. */
  lemma PlanRequestRefused(selectedDate: string)
    ensures Server.BindPlanDate(PlanRequestOf(selectedDate).query) == Err(422)
  {
  }

  // ---------------------------------------------------------------------------
  // The component's state

  /** The add-task draft. */
  datatype NewTask = NewTask(title: string, description: string, time: string, taskType: string)

  const EmptyDraft: NewTask := NewTask("", "", "", "general")

  /** The body `addTask` posts: the draft with the date at UTC midnight of the selected day. */
  datatype NewTaskBody = NewTaskBody(title: string, description: string, time: string, taskType: string, date: string)

  function AddBody(draft: NewTask, selectedDate: string): (b: NewTaskBody)
    ensures b.title == draft.title && b.description == draft.description && b.time == draft.time
    ensures b.taskType == draft.taskType && b.date == selectedDate + "T00:00:00Z"
  {
    NewTaskBody(draft.title, draft.description, draft.time, draft.taskType, selectedDate + "T00:00:00Z")
  }

  class TaskList {
    var selectedDate: string
    var tasks: seq<ClientTask>
    var timeline: seq<ClientTask>
    var draft: NewTask
    var showAddTask: bool

    constructor(today: string)
      ensures selectedDate == today && tasks == [] && timeline == [] && draft == EmptyDraft && !showAddTask
    {
      selectedDate := today;
      tasks := [];
      timeline := [];
      draft := EmptyDraft;
      showAddTask := false;
    }

    /** The tasks still to do. */
    function PendingTasks(): seq<ClientTask>
      reads this
    {
      Pending(tasks)
    }

    predicate PlanButtonShown()
      reads this
    {
      |PendingTasks()| > 0
    }

    /** `fetchTasks`: the day's tasks on success (none when the list is missing); a failure keeps
        the list. */
    method FetchTasks(reply: Reply<seq<ClientTask>>) returns (query: string)
      modifies this
      ensures query == selectedDate && selectedDate == old(selectedDate)
      ensures reply.Replied? ==> tasks == OrEmpty(reply.value)
      ensures reply.Failed? ==> tasks == old(tasks)
      ensures timeline == old(timeline) && draft == old(draft) && showAddTask == old(showAddTask)
    {
      query := selectedDate;
      if reply.Replied? {
        tasks := OrEmpty(reply.value);
      }
    }

    /** `addTask`: a blank title sends nothing; otherwise the draft is posted, and on success the
        returned task is appended, the draft reset and the form closed. */
    method AddTask(created: Option<ClientTask>) returns (request: Option<NewTaskBody>)
      modifies this
      ensures IsBlank(old(draft.title)) ==> request.None?
      ensures !IsBlank(old(draft.title)) ==> request == Some(AddBody(old(draft), selectedDate))
      ensures request.Some? && created.Some? ==>
                tasks == old(tasks) + [created.value] && draft == EmptyDraft && !showAddTask
      ensures request.None? || created.None? ==>
                tasks == old(tasks) && draft == old(draft) && showAddTask == old(showAddTask)
      ensures timeline == old(timeline) && selectedDate == old(selectedDate)
    {
      if IsBlank(draft.title) {
        request := None;
      } else {
        request := Some(AddBody(draft, selectedDate));
        if created.Some? {
          tasks := tasks + [created.value];
          draft := EmptyDraft;
          showAddTask := false;
        }
      }
    }

    /** `planMyDay`: the request it posts for the selected day; the timeline becomes the
        answer's (none when missing), and a failure keeps it. */
    method PlanMyDay(reply: Reply<seq<ClientTask>>) returns (request: PlanRequest)
      modifies this
      ensures request == PlanRequestOf(selectedDate) && selectedDate == old(selectedDate)
      ensures reply.Replied? ==> timeline == OrEmpty(reply.value)
      ensures reply.Failed? ==> timeline == old(timeline)
      ensures tasks == old(tasks) && draft == old(draft) && showAddTask == old(showAddTask)
    {
      request := PlanRequestOf(selectedDate);
      if reply.Replied? {
        timeline := OrEmpty(reply.value);
      }
    }

    /** `toggleTaskCompletion`: the same flip in both lists, nothing sent to the server. */
    method ToggleTaskCompletion(taskId: string)
      modifies this
      ensures tasks == Toggled(old(tasks), taskId) && timeline == Toggled(old(timeline), taskId)
      ensures draft == old(draft) && showAddTask == old(showAddTask) && selectedDate == old(selectedDate)
    {
      tasks := Toggled(tasks, taskId);
      timeline := Toggled(timeline, taskId);
    }
  }
}
