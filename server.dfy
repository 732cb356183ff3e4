/** The decision rules of the backend (backend/server.py): trial status, the 402 gate, persona
    messages and validation, the task-query window, the holiday table, subscription expiry, and
    the plan-my-day handler built on the day timeline. Instants are milliseconds; "now" is a
    parameter; the MongoDB collections are sequences of documents. */
module Server {
  import opened Wrappers
  import opened Text
  import opened Clock
  import opened Timeline

  // ---------------------------------------------------------------------------
  // Users and trial status

  /** The fields of a stored user document that the handlers read. */
  datatype UserDoc = UserDoc(
    id: string,
    selectedPersona: Option<string>,
    subscriptionActive: bool,
    trialStarted: Option<int>)

  /** The `trial_status` object the profile endpoint returns. */
  datatype TrialStatus = TrialStatus(trialActive: bool, subscriptionActive: bool, daysLeft: int)

  const TrialDays: int := 3

  /** `(now - trial_started).days`: whole days elapsed, rounded down. */
  function DaysPassed(start: int, now: int): int
  {
    (now - start) / DayMs
  }

  /** `check_trial_status`: an active subscription overrides everything; otherwise a started trial
      runs for three whole days; a user with neither has no access. */
  function CheckTrialStatus(subscriptionActive: bool, trialStarted: Option<int>, now: int): (r: TrialStatus)
    ensures subscriptionActive ==> r == TrialStatus(false, true, 0)
    ensures !subscriptionActive ==> !r.subscriptionActive
    ensures !subscriptionActive && trialStarted.None? ==> r == TrialStatus(false, false, 0)
    ensures !(r.trialActive && r.subscriptionActive)
    ensures r.trialActive <==> r.daysLeft > 0
    ensures r.daysLeft >= 0
    ensures trialStarted.Some? && now >= trialStarted.value ==> r.daysLeft <= TrialDays
    ensures !subscriptionActive && trialStarted.Some? ==>
              (r.trialActive <==> now - trialStarted.value < TrialDays * DayMs)
    ensures r.daysLeft > 0 ==> trialStarted.Some? && r.daysLeft == TrialDays - DaysPassed(trialStarted.value, now)
  {
    if subscriptionActive then TrialStatus(false, true, 0)
    else if trialStarted.Some? then
      var daysPassed := DaysPassed(trialStarted.value, now);
      var daysLeft := if TrialDays - daysPassed > 0 then TrialDays - daysPassed else 0;
      TrialStatus(daysLeft > 0, false, daysLeft)
    else TrialStatus(false, false, 0)
  }

  /** The status of a stored user at `now`: a subscriber always has access; otherwise access
      lasts three days from the trial start, and a user with no trial start has none. */
  function UserStatus(user: UserDoc, now: int): (r: TrialStatus)
    ensures user.subscriptionActive ==> r == TrialStatus(false, true, 0)
    ensures !user.subscriptionActive && user.trialStarted.None? ==> !HasAccess(r)
    ensures !user.subscriptionActive && user.trialStarted.Some? ==>
              (HasAccess(r) <==> now - user.trialStarted.value < TrialDays * DayMs)
  {
    CheckTrialStatus(user.subscriptionActive, user.trialStarted, now)
  }

  /** The days left never grow as time passes. */
  lemma DaysLeftNeverGrow(subscriptionActive: bool, trialStarted: Option<int>, now: int, later: int)
    requires now <= later
    ensures CheckTrialStatus(subscriptionActive, trialStarted, later).daysLeft
            <= CheckTrialStatus(subscriptionActive, trialStarted, now).daysLeft
  {
    if !subscriptionActive && trialStarted.Some? {
      var s := trialStarted.value;
      DivMonotone(now - s, later - s);
    }
  }

  lemma DivMonotone(a: int, b: int)
    requires a <= b
    ensures a / DayMs <= b / DayMs
  {
    var qa, qb := a / DayMs, b / DayMs;
    assert a == qa * DayMs + a % DayMs;
    assert b == qb * DayMs + b % DayMs;
  }

  /** A fresh trial (started at `now`) has three days left and is active. */
  lemma FreshTrialIsActive(now: int)
    ensures CheckTrialStatus(false, Some(now), now) == TrialStatus(true, false, TrialDays)
  {
  }

  // ---------------------------------------------------------------------------
  // The 402 gate

  /** The handlers that act on tasks. */
  datatype Handler = CreateTask | UpdateTask | DeleteTask | PlanDay

  /** Whether a status grants use of the paid features. */
  predicate HasAccess(status: TrialStatus)
  {
    status.trialActive || status.subscriptionActive
  }

  /** The check at the top of create, update and plan-day; delete has none. */
  function Gate(h: Handler, status: TrialStatus): (r: Option<int>)
    ensures r.Some? ==> r.value == 402
    ensures r.Some? <==> h != DeleteTask && !HasAccess(status)
    ensures h == DeleteTask ==> r.None?
  {
    if h != DeleteTask && !status.trialActive && !status.subscriptionActive then Some(402) else None
  }

  /** A subscribed user, and a user within three days of the trial start, pass the gate; a user
      without subscription and trial is refused everything but delete. */
  lemma GateFollowsTrial(h: Handler, user: UserDoc, now: int)
    ensures user.subscriptionActive ==> Gate(h, UserStatus(user, now)).None?
    ensures user.trialStarted.Some? && user.trialStarted.value <= now < user.trialStarted.value + TrialDays * DayMs
            ==> Gate(h, UserStatus(user, now)).None?
    ensures !user.subscriptionActive && user.trialStarted.None?
            ==> (Gate(h, UserStatus(user, now)) == Some(402) <==> h != DeleteTask)
  {
  }

  // ---------------------------------------------------------------------------
  // Personas

  /** The persona messages loaded from the templates file: message type, then persona. */
  type Templates = map<string, map<string, string>>

  const FallbackMessage: string := "Hello! Time for your scheduled activity."

  /** `get_persona_message`: the template for the message type and persona, or the fallback. */
  function PersonaMessage(templates: Templates, messageType: string, persona: string): (r: string)
    ensures messageType in templates && persona in templates[messageType] ==> r == templates[messageType][persona]
    ensures messageType !in templates || persona !in templates[messageType] ==> r == FallbackMessage
  {
    if messageType in templates && persona in templates[messageType] then templates[messageType][persona]
    else FallbackMessage
  }

  const DefaultPersona: string := "casualBuddy"

  /** `current_user.get("selected_persona", "casualBuddy")`. */
  function PersonaOf(user: UserDoc): (r: string)
    ensures user.selectedPersona.Some? ==> r == user.selectedPersona.value
    ensures user.selectedPersona.None? ==> r == DefaultPersona
  {
    match user.selectedPersona
    case Some(p) => p
    case None => DefaultPersona
  }

  const ValidPersonas: seq<string> := ["casualBuddy", "caringSibling", "goodParent", "strictProfessional", "wildCard"]

  /** `update_persona`: 400 for a persona outside the five, otherwise the user document with the
      new persona and the persona's morning-plan message. */
  function UpdatePersona(templates: Templates, user: UserDoc, persona: string): (r: Result<(UserDoc, string), int>)
    ensures r.Err? <==> persona !in ValidPersonas
    ensures r.Err? ==> r.error == 400
    ensures r.Ok? ==> r.value.0 == user.(selectedPersona := Some(persona))
    ensures r.Ok? ==> r.value.1 == PersonaMessage(templates, "morning_plan", persona)
  {
    if persona !in ValidPersonas then Err(400)
    else Ok((user.(selectedPersona := Some(persona)), PersonaMessage(templates, "morning_plan", persona)))
  }

  /** After a successful update the persona read back is the one chosen, and it is one of the five. */
  lemma UpdatePersonaReadsBack(templates: Templates, user: UserDoc, persona: string)
    requires UpdatePersona(templates, user, persona).Ok?
    ensures PersonaOf(UpdatePersona(templates, user, persona).value.0) == persona
    ensures persona in ValidPersonas
  {
  }

  // ---------------------------------------------------------------------------
  // Creating, updating and deleting tasks

  /** The body of a create or update request, after the ISO date strings were read. */
  datatype TaskRequest = TaskRequest(
    title: string,
    date: int,
    time: Option<string>,
    taskType: string)

  /** `create_task`: the gate, then the stored document (a new task is not completed; a request
      without a time stores `None`) and the persona's task-reminder message. */
  function CreateTaskHandler(templates: Templates, user: UserDoc, now: int, req: TaskRequest, newId: string)
    : (r: Result<(StoredTask, string), int>)
    ensures r.Err? <==> !HasAccess(UserStatus(user, now))
    ensures r.Err? ==> r.error == 402
    ensures r.Ok? ==> r.value.0.userId == user.id && r.value.0.id == newId && !r.value.0.completed
    ensures r.Ok? ==> r.value.0.title == req.title && r.value.0.date == req.date && r.value.0.taskType == req.taskType
    ensures r.Ok? ==> (r.value.0.time == Null <==> req.time.None?)
    ensures r.Ok? && req.time.Some? ==> r.value.0.time == Given(req.time.value)
    ensures r.Ok? ==> r.value.1 == PersonaMessage(templates, "reminder_task", PersonaOf(user))
  {
    match Gate(CreateTask, UserStatus(user, now))
    case Some(code) => Err(code)
    case None =>
      var time := if req.time.Some? then Given(req.time.value) else Null;
      var task := StoredTask(newId, user.id, req.title, req.date, time, req.taskType, false);
      Ok((task, PersonaMessage(templates, "reminder_task", PersonaOf(user))))
  }

  /** The gate of `update_task`, then its persona message. */
  function UpdateTaskHandler(templates: Templates, user: UserDoc, now: int): (r: Result<string, int>)
    ensures r.Err? <==> !HasAccess(UserStatus(user, now))
    ensures r.Err? ==> r.error == 402
    ensures r.Ok? ==> r.value == PersonaMessage(templates, "reminder_task", PersonaOf(user))
  {
    match Gate(UpdateTask, UserStatus(user, now))
    case Some(code) => Err(code)
    case None => Ok(PersonaMessage(templates, "reminder_task", PersonaOf(user)))
  }

  /** Whether some stored task has this id and belongs to this user. */
  predicate Owns(db: seq<StoredTask>, userId: string, taskId: string)
  {
    exists i :: 0 <= i < |db| && db[i].id == taskId && db[i].userId == userId
  }

  /** Owning a task of the store's tail is owning one of the store. */
  lemma OwnsTail(db: seq<StoredTask>, userId: string, taskId: string)
    requires db != []
    ensures Owns(db, userId, taskId) <==>
              (db[0].id == taskId && db[0].userId == userId) || Owns(db[1..], userId, taskId)
  {
    if Owns(db, userId, taskId) && !(db[0].id == taskId && db[0].userId == userId) {
      var i :| 0 <= i < |db| && db[i].id == taskId && db[i].userId == userId;
      assert i > 0 && db[1..][i - 1] == db[i];
    }
    if Owns(db[1..], userId, taskId) {
      var i :| 0 <= i < |db[1..]| && db[1..][i].id == taskId && db[1..][i].userId == userId;
      assert db[i + 1] == db[1..][i];
    }
  }

  /** The position of the first document with this id and this user: the one `delete_one`
      removes. */
  function FirstOwned(db: seq<StoredTask>, userId: string, taskId: string): (i: nat)
    requires Owns(db, userId, taskId)
    ensures i < |db| && db[i].id == taskId && db[i].userId == userId
    ensures forall j :: 0 <= j < i ==> !(db[j].id == taskId && db[j].userId == userId)
  {
    OwnsTail(db, userId, taskId);
    if db[0].id == taskId && db[0].userId == userId then 0
    else 1 + FirstOwned(db[1..], userId, taskId)
  }

  /** `delete_one({"id": task_id, "user_id": ...})`: removes the first matching document and
      keeps every other one in place. */
  function DeleteFirst(db: seq<StoredTask>, userId: string, taskId: string): (r: seq<StoredTask>)
    ensures Owns(db, userId, taskId) ==> |r| == |db| - 1
    ensures Owns(db, userId, taskId) ==>
              r == db[..FirstOwned(db, userId, taskId)] + db[FirstOwned(db, userId, taskId) + 1..]
    ensures !Owns(db, userId, taskId) ==> r == db
    ensures multiset(r) <= multiset(db)
  {
    if db == [] then []
    else
      assert db == [db[0]] + db[1..];
      OwnsTail(db, userId, taskId);
      if db[0].id == taskId && db[0].userId == userId then db[1..]
      else
        var rest := DeleteFirst(db[1..], userId, taskId);
        if Owns(db, userId, taskId) then
          SpliceCons(db, FirstOwned(db[1..], userId, taskId));
          [db[0]] + rest
        else [db[0]] + rest
  }

  /** Removing the element after position `i` of the tail, then putting the head back. */
  lemma SpliceCons(db: seq<StoredTask>, i: nat)
    requires i + 1 < |db|
    ensures [db[0]] + (db[1..][..i] + db[1..][i + 1..]) == db[..i + 1] + db[i + 2..]
  {
    assert db[..i + 1] == [db[0]] + db[1..][..i];
    assert db[i + 2..] == db[1..][i + 1..];
  }

  /** Deleting leaves the count of every other document unchanged: another user's task, or one
      with another id, is never removed. */
  lemma DeleteKeepsOthers(db: seq<StoredTask>, userId: string, taskId: string, x: StoredTask)
    requires x.userId != userId || x.id != taskId
    ensures multiset(DeleteFirst(db, userId, taskId))[x] == multiset(db)[x]
  {
    if Owns(db, userId, taskId) {
      var i := FirstOwned(db, userId, taskId);
      assert db == db[..i] + [db[i]] + db[i + 1..];
      assert db[i] != x;
    }
  }

  /** `delete_task`: no trial gate; 404 when the user has no task with that id, otherwise the
      store without the first such document. */
  function DeleteTaskHandler(db: seq<StoredTask>, user: UserDoc, taskId: string): (r: Result<seq<StoredTask>, int>)
    ensures r.Err? <==> !Owns(db, user.id, taskId)
    ensures r.Err? ==> r.error == 404
    ensures r.Ok? ==> |r.value| == |db| - 1 && multiset(r.value) <= multiset(db)
    ensures r.Ok? ==>
              r.value == db[..FirstOwned(db, user.id, taskId)] + db[FirstOwned(db, user.id, taskId) + 1..]
  {
    if Owns(db, user.id, taskId) then Ok(DeleteFirst(db, user.id, taskId)) else Err(404)
  }

  /** Whatever the trial status, delete is never refused with 402. */
  lemma DeleteIgnoresTrial(db: seq<StoredTask>, user: UserDoc, taskId: string, now: int)
    ensures DeleteTaskHandler(db, user, taskId).Err? ==> DeleteTaskHandler(db, user, taskId).error == 404
    ensures Gate(DeleteTask, UserStatus(user, now)).None?
  {
  }

  // ---------------------------------------------------------------------------
  // The task query window

  /** The date bounds of `get_tasks`: a day query is half open, a range query closed. */
  datatype Window = DayWindow(lo: int, hi: int) | RangeWindow(lo: int, hi: int) | NoWindow

  /** The query parameters `date`, `start_date`, `end_date`; an absent or empty parameter is None. */
  function TaskWindow(date: Option<int>, startDate: Option<int>, endDate: Option<int>): (w: Window)
    ensures date.Some? ==> w == DayWindow(StartOfDay(date.value), StartOfDay(date.value) + DayMs)
    ensures date.None? && startDate.Some? && endDate.Some? ==> w == RangeWindow(startDate.value, endDate.value)
    ensures date.None? && (startDate.None? || endDate.None?) ==> w == NoWindow
  {
    if date.Some? then
      var start := StartOfDay(date.value);
      DayWindow(start, start + DayMs)
    else if startDate.Some? && endDate.Some? then RangeWindow(startDate.value, endDate.value)
    else NoWindow
  }

  /** `{"$gte": lo, "$lt": hi}` or `{"$gte": lo, "$lte": hi}` or no condition. */
  predicate InWindow(w: Window, t: int)
  {
    match w
    case DayWindow(lo, hi) => lo <= t < hi
    case RangeWindow(lo, hi) => lo <= t <= hi
    case NoWindow => true
  }

  /** A day query selects exactly the instants of the same calendar day, whatever the time of
      day of the date given. */
  lemma DayWindowIsSameDay(date: int, start: Option<int>, end: Option<int>, t: int)
    ensures InWindow(TaskWindow(Some(date), start, end), t) <==> DayOf(t) == DayOf(date)
  {
    var lo := StartOfDay(date);
    if DayOf(t) == DayOf(date) {
      assert StartOfDay(t) == lo;
    }
    if lo <= t < lo + DayMs {
      assert t / DayMs == DayOf(date) by {
        assert t == DayOf(date) * DayMs + (t - lo);
      }
    }
  }

  /** A range query includes both of its ends; midnight after a day query's day is excluded. */
  lemma WindowEnds(date: int, start: int, end: int)
    requires start <= end
    ensures InWindow(TaskWindow(None, Some(start), Some(end)), start)
    ensures InWindow(TaskWindow(None, Some(start), Some(end)), end)
    ensures !InWindow(TaskWindow(Some(date), None, None), StartOfDay(date) + DayMs)
  {
  }

  const ListLimit: nat := 200

  /** The documents a query selects, in stored order. */
  function Matching(db: seq<StoredTask>, userId: string, w: Window): (r: seq<StoredTask>)
    ensures |r| <= |db|
    ensures forall i :: 0 <= i < |r| ==> r[i].userId == userId && InWindow(w, r[i].date)
    ensures multiset(r) <= multiset(db)
  {
    if db == [] then []
    else
      assert db == [db[0]] + db[1..];
      if db[0].userId == userId && InWindow(w, db[0].date) then [db[0]] + Matching(db[1..], userId, w)
      else Matching(db[1..], userId, w)
  }

  /** Every stored task of the user inside the window is selected. */
  lemma {:induction false} MatchingComplete(db: seq<StoredTask>, userId: string, w: Window, t: StoredTask)
    requires t in db && t.userId == userId && InWindow(w, t.date)
    ensures t in Matching(db, userId, w)
  {
    if db[0] != t {
      MatchingComplete(db[1..], userId, w, t);
    }
  }

  /** `get_tasks`: the user's tasks in the window, at most 200 of them. */
  function ListTasks(db: seq<StoredTask>, userId: string, w: Window): (r: seq<StoredTask>)
    ensures |r| <= ListLimit
    ensures |r| == if |Matching(db, userId, w)| <= ListLimit then |Matching(db, userId, w)| else ListLimit
    ensures forall i :: 0 <= i < |r| ==> r[i].userId == userId && InWindow(w, r[i].date)
    ensures |Matching(db, userId, w)| <= ListLimit ==> r == Matching(db, userId, w)
    ensures r == Matching(db, userId, w)[..|r|]
  {
    Take(Matching(db, userId, w), ListLimit)
  }

  // ---------------------------------------------------------------------------
  // Holidays

  datatype Holiday = Holiday(name: string, date: string, kind: string)

  /** "YYYY-MM-DD" as the f-strings of the holiday table write it (the year is not padded). */
  function IsoDay(year: int, month: nat, day: nat): string
  {
    IntToString(year) + "-" + PadStart2(NatToString(month)) + "-" + PadStart2(NatToString(day))
  }

  /** The "YYYY-MM-" part shared by every date of one month. */
  function MonthPrefix(year: int, month: nat): string
  {
    IntToString(year) + "-" + PadStart2(NatToString(month)) + "-"
  }

  /** `get_holidays`: two entries for January, February and December, none for another month. */
  function HolidaysFor(year: int, month: int): (r: seq<Holiday>)
    ensures r == [] <==> month != 1 && month != 2 && month != 12
    ensures r != [] ==> |r| == 2
    ensures forall i :: 0 <= i < |r| ==> MonthPrefix(year, month) <= r[i].date
    ensures forall i :: 0 <= i < |r| ==> r[i].kind == "holiday" || r[i].kind == "celebration"
  {
    if month == 1 then
      [Holiday("New Year's Day", IsoDay(year, 1, 1), "holiday"),
       Holiday("Martin Luther King Jr. Day", IsoDay(year, 1, 15), "holiday")]
    else if month == 2 then
      [Holiday("Valentine's Day", IsoDay(year, 2, 14), "celebration"),
       Holiday("Presidents Day", IsoDay(year, 2, 19), "holiday")]
    else if month == 12 then
      [Holiday("Christmas Day", IsoDay(year, 12, 25), "holiday"),
       Holiday("New Year's Eve", IsoDay(year, 12, 31), "celebration")]
    else []
  }

  /** The table's dates are real days of their month. */
  lemma HolidayDatesAreValid(year: int)
    ensures ValidDate(Date(year, 1, 1)) && ValidDate(Date(year, 1, 15))
    ensures ValidDate(Date(year, 2, 14)) && ValidDate(Date(year, 2, 19))
    ensures ValidDate(Date(year, 12, 25)) && ValidDate(Date(year, 12, 31))
  {
  }

  // ---------------------------------------------------------------------------
  // Subscription

  datatype Subscription = Subscription(active: bool, expires: int, plan: string)

  /** `process_subscription`: "monthly" (the default when no plan is sent) runs 30 days, any
      other plan 365; the user is marked subscribed. */
  function Subscribe(plan: Option<string>, now: int): (r: Subscription)
    ensures r.active
    ensures r.plan == if plan.Some? then plan.value else "monthly"
    ensures r.expires - now == 30 * DayMs <==> r.plan == "monthly"
    ensures r.plan != "monthly" ==> r.expires - now == 365 * DayMs
    ensures DayOf(r.expires) - DayOf(now) == if r.plan == "monthly" then 30 else 365
  {
    var p := if plan.Some? then plan.value else "monthly";
    var days := if p == "monthly" then 30 else 365;
    assert (now + days * DayMs) / DayMs == now / DayMs + days;
    Subscription(true, now + days * DayMs, p)
  }

  /** A subscribed user keeps access: the expiry the subscription records is never consulted by
      the status check. */
  lemma SubscriptionGrantsAccess(user: UserDoc, plan: Option<string>, now: int, later: int)
    ensures UserStatus(user.(subscriptionActive := Subscribe(plan, now).active), later) == TrialStatus(false, true, 0)
  {
  }

  // ---------------------------------------------------------------------------
  // Plan my day

  datatype DayPlan = DayPlan(timeline: seq<StoredTask>, message: string, totalTasks: nat)

  const PlanLimit: nat := 100

  /** The user's open tasks of the day: `completed == False`, at most 100. */
  function OpenTasksOfDay(db: seq<StoredTask>, userId: string, date: int): (r: seq<StoredTask>)
    ensures var open := OnlyOpen(Matching(db, userId, TaskWindow(Some(date), None, None)));
            |r| == (if |open| <= PlanLimit then |open| else PlanLimit) && r == open[..|r|]
  {
    var w := TaskWindow(Some(date), None, None);
    var open := Matching(db, userId, w);
    Take(OnlyOpen(open), PlanLimit)
  }

  function OnlyOpen(s: seq<StoredTask>): (r: seq<StoredTask>)
    ensures |r| <= |s| && multiset(r) <= multiset(s)
    ensures forall i :: 0 <= i < |r| ==> !r[i].completed
  {
    if s == [] then []
    else
      assert s == [s[0]] + s[1..];
      if !s[0].completed then [s[0]] + OnlyOpen(s[1..]) else OnlyOpen(s[1..])
  }

  /** Every open task of the input is kept. */
  lemma {:induction false} OnlyOpenComplete(s: seq<StoredTask>, t: StoredTask)
    requires t in s && !t.completed
    ensures t in OnlyOpen(s)
  {
    if s[0] != t {
      OnlyOpenComplete(s[1..], t);
    }
  }

  /** A task the day plan may hold: the user's, not completed, on the requested day. */
  predicate PlannedFor(t: StoredTask, userId: string, date: int)
  {
    t.userId == userId && !t.completed && DayOf(t.date) == DayOf(date)
  }

  predicate AllPlannedFor(s: seq<StoredTask>, userId: string, date: int)
  {
    forall i :: 0 <= i < |s| ==> PlannedFor(s[i], userId, date)
  }

  /** How FastAPI binds `plan_my_day(date: str, ...)`: a plain `str` parameter is read from the
      query string, and a request without it is refused with 422 before the handler runs. */
  function BindPlanDate(query: map<string, string>): (r: Result<string, int>)
    ensures r.Err? <==> "date" !in query
    ensures r.Err? ==> r.error == 422
    ensures r.Ok? ==> r.value == query["date"]
  {
    if "date" in query then Ok(query["date"]) else Err(422)
  }

  /** `plan_my_day`: the gate, then the day timeline of the user's open tasks of that day, with
      a task without a time sorted as "00:00" and the documents read without their Mongo `_id`. */
  function PlanMyDay(templates: Templates, db: seq<StoredTask>, user: UserDoc, now: int, date: int)
    : (r: Result<DayPlan, int>)
    ensures r.Err? <==> !HasAccess(UserStatus(user, now))
    ensures r.Err? ==> r.error == 402
    ensures r.Ok? ==> r.value.timeline == DayTimeline(OpenTasksOfDay(db, user.id, date))
    ensures r.Ok? ==> r.value.totalTasks == |OpenTasksOfDay(db, user.id, date)|
    ensures r.Ok? ==> r.value.totalTasks == |r.value.timeline| <= PlanLimit
    ensures r.Ok? ==> AllPlannedFor(r.value.timeline, user.id, date)
    ensures r.Ok? ==> multiset(r.value.timeline) <= multiset(db)
    ensures r.Ok? ==> r.value.message == PersonaMessage(templates, "morning_plan", PersonaOf(user))
  {
    match Gate(PlanDay, UserStatus(user, now))
    case Some(code) => Err(code)
    case None =>
      var tasks := OpenTasksOfDay(db, user.id, date);
      var timeline := DayTimeline(tasks);
      OpenTasksFacts(db, user.id, date);
      SameElementsPlanned(timeline, tasks, user.id, date);
      Ok(DayPlan(timeline, PersonaMessage(templates, "morning_plan", PersonaOf(user)), |tasks|))
  }

  /** The tasks the plan reads are at most 100 stored tasks, each the user's, open and of that day. */
  lemma OpenTasksFacts(db: seq<StoredTask>, userId: string, date: int)
    ensures |OpenTasksOfDay(db, userId, date)| <= PlanLimit
    ensures multiset(OpenTasksOfDay(db, userId, date)) <= multiset(db)
    ensures AllPlannedFor(OpenTasksOfDay(db, userId, date), userId, date)
  {
    var w := TaskWindow(Some(date), None, None);
    var m := Matching(db, userId, w);
    var open := OnlyOpen(m);
    var tasks := OpenTasksOfDay(db, userId, date);
    assert open == tasks + open[|tasks|..];
    assert multiset(tasks) <= multiset(open);
    forall i | 0 <= i < |tasks|
      ensures PlannedFor(tasks[i], userId, date)
    {
      assert tasks[i] == open[i];
      assert tasks[i] in multiset(m);
      var k :| 0 <= k < |m| && m[k] == tasks[i];
      DayWindowIsSameDay(date, None, None, tasks[i].date);
    }
  }

  lemma SameElementsPlanned(a: seq<StoredTask>, b: seq<StoredTask>, userId: string, date: int)
    requires multiset(a) == multiset(b) && AllPlannedFor(b, userId, date)
    ensures AllPlannedFor(a, userId, date)
  {
    forall i | 0 <= i < |a|
      ensures PlannedFor(a[i], userId, date)
    {
      assert a[i] in multiset(b);
      var j :| 0 <= j < |b| && b[j] == a[i];
    }
  }

  /** With fewer than 100 open tasks read, every stored open task of the user on that day is
      among them: the query misses none. */
  lemma OpenTasksComplete(db: seq<StoredTask>, userId: string, date: int, t: StoredTask)
    requires t in db && PlannedFor(t, userId, date)
    ensures |OpenTasksOfDay(db, userId, date)| < PlanLimit ==> t in OpenTasksOfDay(db, userId, date)
  {
    var w := TaskWindow(Some(date), None, None);
    DayWindowIsSameDay(date, None, None, t.date);
    MatchingComplete(db, userId, w, t);
    OnlyOpenComplete(Matching(db, userId, w), t);
  }

  /** A granted plan holds every stored open task of the user on that day, once the day has
      fewer than 100 of them. */
  lemma PlanMyDayComplete(templates: Templates, db: seq<StoredTask>, user: UserDoc, now: int, date: int, t: StoredTask)
    requires HasAccess(UserStatus(user, now))
    requires t in db && PlannedFor(t, user.id, date)
    ensures PlanMyDay(templates, db, user, now, date).Ok?
    ensures |PlanMyDay(templates, db, user, now, date).value.timeline| < PlanLimit ==>
              t in PlanMyDay(templates, db, user, now, date).value.timeline
  {
    var tasks := OpenTasksOfDay(db, user.id, date);
    OpenTasksComplete(db, user.id, date, t);
    if |DayTimeline(tasks)| < PlanLimit {
      assert |tasks| == |multiset(tasks)| == |multiset(DayTimeline(tasks))| == |DayTimeline(tasks)|;
      assert t in multiset(DayTimeline(tasks));
    }
  }

  // ---------------------------------------------------------------------------
  // Plan my day as written

  /** `plan_my_day` as written. The sort of a bucket of two or more tasks holding a `None` time
      raises, and the handler answers 500. Otherwise the documents of the timeline are the ones
      `find` returned without a `{"_id": 0}` projection, so each carries its Mongo ObjectId,
      which the JSON encoding of the response refuses: any non-empty timeline also ends in 500. */
  function PlanMyDayAsWritten(templates: Templates, db: seq<StoredTask>, user: UserDoc, now: int, date: int)
    : (r: Result<DayPlan, int>)
    ensures r.Err? && r.error == 402 <==> !HasAccess(UserStatus(user, now))
    ensures HasAccess(UserStatus(user, now)) ==> (r.Err? <==> OpenTasksOfDay(db, user.id, date) != [])
    ensures r.Err? ==> r.error == 402 || r.error == 500
    ensures r.Ok? ==> r.value.timeline == [] && r.value.totalTasks == 0
  {
    match Gate(PlanDay, UserStatus(user, now))
    case Some(code) => Err(code)
    case None =>
      var tasks := OpenTasksOfDay(db, user.id, date);
      AsWrittenAgreesWhenItSucceeds(tasks);
      assert tasks == [] ==> OfBucket(tasks, Morning) == [] && OfBucket(tasks, Work) == []
                             && OfBucket(tasks, Evening) == [];
      match DayTimelineAsWritten(tasks)
      case Err(_) => Err(500)
      case Ok(timeline) =>
        if timeline != [] then Err(500)
        else Ok(DayPlan(timeline, PersonaMessage(templates, "morning_plan", PersonaOf(user)), |tasks|))
  }

  /** As written, a granted day with any open task gives 500, where the corrected handler
      returns the plan of those tasks. */
  lemma PlanMyDayAsWrittenFails(templates: Templates, db: seq<StoredTask>, user: UserDoc, now: int, date: int)
    requires HasAccess(UserStatus(user, now))
    requires OpenTasksOfDay(db, user.id, date) != []
    ensures PlanMyDayAsWritten(templates, db, user, now, date) == Err(500)
    ensures PlanMyDay(templates, db, user, now, date).Ok?
    ensures PlanMyDay(templates, db, user, now, date).value.timeline != []
  {
  }
}
