/** The explore tab (frontend/src/components/ExploreSection.js): the list of places and events,
    the add/edit form, and the save and delete decisions, where the built-in default events are
    protected. The server's answers are parameters. */
module Explore {
  import opened Wrappers
  import opened Api
  import AuthContext

  /** An event or place as the server lists it. */
  datatype Place = Place(
    id: string,
    title: string,
    description: Option<string>,
    eventType: string,
    location: string,
    city: string,
    date: Option<string>,
    rating: Option<real>,
    isDefault: bool)

  /** The form's fields; `rating` is `null` when unset. */
  datatype EventForm = EventForm(
    title: string,
    description: string,
    eventType: string,
    location: string,
    city: string,
    date: string,
    rating: Option<real>)

  /** `user?.city || ''`. */
  function CityOf(user: Option<AuthContext.UserRecord>): (c: string)
    ensures user.Some? && "city" in user.value ==> c == user.value["city"]
    ensures (user.None? || "city" !in user.value) ==> c == ""
  {
    if user.Some? && "city" in user.value then user.value["city"] else ""
  }

  /** The empty form of `handleAddEvent` (and of the first render). */
  function BlankForm(user: Option<AuthContext.UserRecord>): (f: EventForm)
    ensures f.title == "" && f.description == "" && f.location == "" && f.date == "" && f.rating.None?
    ensures f.eventType == "cultural" && f.city == CityOf(user)
  {
    EventForm("", "", "cultural", "", CityOf(user), "", None)
  }

  /** `rating || null`: a zero rating reads as unset. */
  function RatingOrNull(r: Option<real>): (o: Option<real>)
    ensures o.Some? <==> r.Some? && r.value != 0.0
    ensures o.Some? ==> o == r
  {
    if r.Some? && r.value != 0.0 then r else None
  }

  /** The form `handleEditEvent` fills from an event. */
  function FormOf(e: Place): (f: EventForm)
    ensures f.title == e.title && f.eventType == e.eventType && f.location == e.location && f.city == e.city
    ensures f.description == (if e.description.Some? then e.description.value else "")
    ensures f.date == (if e.date.Some? then e.date.value else "")
    ensures f.rating == RatingOrNull(e.rating)
  {
    EventForm(
      e.title,
      if e.description.Some? then e.description.value else "",
      e.eventType, e.location, e.city,
      if e.date.Some? then e.date.value else "",
      RatingOrNull(e.rating))
  }

  /** The request a handler sends, if any. */
  datatype Call = NoRequest | CreateEvent(body: EventForm) | UpdateEvent(id: string, body: EventForm) | DeleteEvent(id: string)

  /** `handleSaveEvent`: nothing without a title and a location; an update only for an edited
      event that is not a default one; a create otherwise. */
  function SaveCall(editing: Option<Place>, f: EventForm): (c: Call)
    ensures c.NoRequest? <==> f.title == "" || f.location == ""
    ensures c.UpdateEvent? <==> f.title != "" && f.location != "" && editing.Some? && !editing.value.isDefault
    ensures c.UpdateEvent? ==> c.id == editing.value.id && c.body == f
    ensures c.CreateEvent? ==> c.body == f
    ensures !c.DeleteEvent?
  {
    if f.title == "" || f.location == "" then NoRequest
    else if editing.Some? && !editing.value.isDefault then UpdateEvent(editing.value.id, f)
    else CreateEvent(f)
  }

  /** `handleDeleteEvent`: a default event is refused before the confirmation; otherwise the
      request goes only once the user confirms. */
  function DeleteCall(eventId: string, isDefault: bool, confirmed: bool): (c: Call)
    ensures c.DeleteEvent? <==> !isDefault && confirmed
    ensures c.DeleteEvent? ==> c.id == eventId
    ensures !c.DeleteEvent? ==> c.NoRequest?
  {
    if isDefault || !confirmed then NoRequest else DeleteEvent(eventId)
  }

  /** A default event is never changed or removed on the server: saving an edit of it creates a
      new event, and deleting it sends nothing, whatever the user confirms. */
  lemma DefaultEventsProtected(e: Place, f: EventForm, confirmed: bool)
    requires e.isDefault
    ensures SaveCall(Some(e), f).NoRequest? || SaveCall(Some(e), f) == CreateEvent(f)
    ensures DeleteCall(e.id, e.isDefault, confirmed) == NoRequest
  {
  }

  /** Saving an unchanged edit of the user's own event sends that event's fields back to it. */
  lemma EditSaveUpdatesSameEvent(e: Place)
    requires !e.isDefault && e.title != "" && e.location != ""
    ensures SaveCall(Some(e), FormOf(e)) == UpdateEvent(e.id, FormOf(e))
    ensures FormOf(e).title == e.title && FormOf(e).location == e.location
  {
  }

  /** The storage key this tab reads its token from. */
  const ExploreTokenKey: string := "token"

  /** `Bearer ${localStorage.getItem('token')}`, where a missing item prints as `null`. */
  function ExploreHeader(storage: map<string, string>): (h: string)
    ensures ExploreTokenKey !in storage ==> h == "Bearer null"
    ensures ExploreTokenKey in storage ==> h == AuthContext.Bearer(storage[ExploreTokenKey])
  {
    "Bearer " + (if ExploreTokenKey in storage then storage[ExploreTokenKey] else "null")
  }

  /** The session store's handlers, applied in order. */
  function ApplyAll(s: AuthContext.SessionState, actions: seq<AuthContext.Action>): AuthContext.SessionState
    decreases |actions|
  {
    if actions == [] then s else ApplyAll(AuthContext.Apply(s, actions[0]), actions[1..])
  }

  /** Whatever the session store does, the header this tab sends never changes: the store keeps
      its token under another key. */
  lemma {:induction false} SessionLeavesExploreHeader(s: AuthContext.SessionState, actions: seq<AuthContext.Action>)
    ensures ExploreHeader(ApplyAll(s, actions).storage) == ExploreHeader(s.storage)
    decreases |actions|
  {
    if actions != [] {
      var s' := AuthContext.Apply(s, actions[0]);
      AuthContext.OnlyTokenKeyWritten(s, actions[0], ExploreTokenKey);
      SessionLeavesExploreHeader(s', actions[1..]);
    }
  }

  /** So a user who signed in through the session store, starting from a storage without the
      other key, sends `Bearer null` from this tab however the session went. */
  lemma SignedInUserSendsNullToken(storage: map<string, string>, actions: seq<AuthContext.Action>)
    requires ExploreTokenKey !in storage
    ensures ExploreHeader(ApplyAll(AuthContext.Initial(storage), actions).storage) == "Bearer null"
  {
    SessionLeavesExploreHeader(AuthContext.Initial(storage), actions);
  }

  /** `getEventIcon`. */
  const Icons: map<string, string> := map[
    "cafe" := "☕", "restaurant" := "🍽️", "cultural" := "🎭", "festival" := "🎪", "museum" := "🏛️",
    "park" := "🌳", "library" := "📚", "event" := "🎉", "other" := "📍"]

  function GetEventIcon(eventType: string): (icon: string)
    ensures eventType in Icons ==> icon == Icons[eventType]
    ensures eventType !in Icons ==> icon == "📍"
  {
    if eventType in Icons then Icons[eventType] else Icons["other"]
  }

  /** The tab's state. */
  class ExploreScreen {
    var events: seq<Place>
    var loading: bool
    var showAddModal: bool
    var editingEvent: Option<Place>
    var eventForm: EventForm

    constructor(user: Option<AuthContext.UserRecord>)
      ensures events == [] && !loading && !showAddModal && editingEvent.None? && eventForm == BlankForm(user)
    {
      events := [];
      loading := false;
      showAddModal := false;
      editingEvent := None;
      eventForm := BlankForm(user);
    }

    /** `loadEvents`: the listed events (none when the list is missing); a failure keeps the old
        list; loading ends either way. */
    method LoadEvents(reply: Reply<seq<Place>>)
      modifies this
      ensures !loading
      ensures reply.Replied? ==> events == OrEmpty(reply.value)
      ensures reply.Failed? ==> events == old(events)
      ensures showAddModal == old(showAddModal) && editingEvent == old(editingEvent) && eventForm == old(eventForm)
    {
      loading := true;
      if reply.Replied? {
        events := OrEmpty(reply.value);
      }
      loading := false;
    }

    method HandleAddEvent(user: Option<AuthContext.UserRecord>)
      modifies this
      ensures editingEvent.None? && eventForm == BlankForm(user) && showAddModal
      ensures events == old(events) && loading == old(loading)
    {
      editingEvent := None;
      eventForm := BlankForm(user);
      showAddModal := true;
    }

    method HandleEditEvent(e: Place)
      modifies this
      ensures editingEvent == Some(e) && eventForm == FormOf(e) && showAddModal
      ensures events == old(events) && loading == old(loading)
    {
      editingEvent := Some(e);
      eventForm := FormOf(e);
      showAddModal := true;
    }

    /** An input's `onChange`. */
    method EditForm(f: EventForm)
      modifies this
      ensures eventForm == f
      ensures events == old(events) && loading == old(loading) && showAddModal == old(showAddModal)
      ensures editingEvent == old(editingEvent)
    {
      eventForm := f;
    }

    /** `handleSaveEvent`; `succeeded` is the server's answer to the request. After a request
        that succeeded the form closes and the list is to be reloaded. */
    method HandleSaveEvent(succeeded: bool) returns (call: Call, reload: bool)
      modifies this
      ensures call == SaveCall(old(editingEvent), old(eventForm))
      ensures reload <==> !call.NoRequest? && succeeded
      ensures showAddModal == (if reload then false else old(showAddModal))
      ensures events == old(events) && loading == old(loading)
      ensures editingEvent == old(editingEvent) && eventForm == old(eventForm)
    {
      if eventForm.title == "" || eventForm.location == "" {
        return NoRequest, false;
      }
      if editingEvent.Some? && !editingEvent.value.isDefault {
        call := UpdateEvent(editingEvent.value.id, eventForm);
      } else {
        call := CreateEvent(eventForm);
      }
      reload := succeeded;
      if succeeded {
        showAddModal := false;
      }
    }

    /** `handleDeleteEvent`; `confirmed` is the user's answer to the confirmation and
        `succeeded` the server's. Nothing on the screen changes until the reload. */
    method HandleDeleteEvent(eventId: string, isDefault: bool, confirmed: bool, succeeded: bool)
      returns (call: Call, reload: bool)
      ensures call == DeleteCall(eventId, isDefault, confirmed)
      ensures reload <==> call.DeleteEvent? && succeeded
    {
      if isDefault {
        return NoRequest, false;
      }
      if !confirmed {
        return NoRequest, false;
      }
      call := DeleteEvent(eventId);
      reload := succeeded;
    }
  }
}
