/** The session store (frontend/src/context/AuthContext.js): the signed-in user, the trial
    status, the loading flag, the token kept in local storage and the Authorization header sent
    with every request. Each handler is a transition on the session's state; the server's answer
    is a parameter (a failed request is `None`). */
module AuthContext {
  import opened Wrappers
  import Server

  /** The local-storage key of the session token. */
  const TokenKey: string := "cc_token"

  /** The user object as the components see it: field name to field value. */
  type UserRecord = map<string, string>

  const PersonaField: string := "selected_persona"

  datatype SessionState = SessionState(
    user: Option<UserRecord>,
    trialStatus: Option<Server.TrialStatus>,
    loading: bool,
    storage: map<string, string>,
    authorization: Option<string>)

  /** The provider's first render: no user, no status, loading, with whatever storage holds. */
  function Initial(storage: map<string, string>): (s: SessionState)
    ensures s.user.None? && s.trialStatus.None? && s.loading && s.authorization.None? && s.storage == storage
  {
    SessionState(None, None, true, storage, None)
  }

  /** A stored token that is a non-empty string. */
  predicate HasToken(s: SessionState)
  {
    TokenKey in s.storage && s.storage[TokenKey] != ""
  }

  function Bearer(token: string): string
  {
    "Bearer " + token
  }

  /** The mount effect: with a token the header is set and the profile is fetched (still
      loading); without one loading ends at once. */
  function Mounted(s: SessionState): (r: (SessionState, bool))
    ensures r.1 <==> HasToken(s)
    ensures HasToken(s) ==> r.0 == s.(authorization := Some(Bearer(s.storage[TokenKey])))
    ensures !HasToken(s) ==> r.0 == s.(loading := false)
  {
    if HasToken(s) then (s.(authorization := Some(Bearer(s.storage[TokenKey]))), true)
    else (s.(loading := false), false)
  }

  /** The profile the server sends back: the user and its trial status. */
  datatype Profile = Profile(user: UserRecord, trialStatus: Option<Server.TrialStatus>)

  /** `checkUserProfile`: the profile on success; on failure the token and header go; loading
      ends either way. */
  function ProfileChecked(s: SessionState, reply: Option<Profile>): (r: SessionState)
    ensures !r.loading
    ensures reply.Some? ==> r == s.(user := Some(reply.value.user), trialStatus := reply.value.trialStatus, loading := false)
    ensures reply.None? ==> r == s.(storage := s.storage - {TokenKey}, authorization := None, loading := false)
  {
    match reply
    case Some(p) => s.(user := Some(p.user), trialStatus := p.trialStatus, loading := false)
    case None => s.(storage := s.storage - {TokenKey}, authorization := None, loading := false)
  }

  /** A successful onboarding answer: the new token and the created user. */
  datatype Onboarding = Onboarding(token: string, user: UserRecord)

  /** Status the client assumes right after onboarding: a fresh three-day trial. */
  const FreshTrial: Server.TrialStatus := Server.TrialStatus(true, false, 3)

  /** `onboardUser`: on success the token is stored and sent, the user set and the trial assumed
      fresh; a failure changes nothing but the loading flag, which ends false either way. */
  function Onboarded(s: SessionState, reply: Option<Onboarding>): (r: (SessionState, bool))
    ensures r.1 <==> reply.Some?
    ensures !r.0.loading
    ensures reply.Some? ==> r.0.storage == s.storage[TokenKey := reply.value.token]
                            && r.0.authorization == Some(Bearer(reply.value.token))
                            && r.0.user == Some(reply.value.user) && r.0.trialStatus == Some(FreshTrial)
    ensures reply.None? ==> r.0 == s.(loading := false)
  {
    match reply
    case Some(o) =>
      (SessionState(Some(o.user), Some(FreshTrial), false, s.storage[TokenKey := o.token], Some(Bearer(o.token))), true)
    case None => (s.(loading := false), false)
  }

  /** `setUser(prev => ({...prev, selected_persona: persona}))`; spreading `null` gives an object
      with that one field. */
  function WithPersona(user: Option<UserRecord>, persona: string): (u: UserRecord)
    ensures PersonaField in u && u[PersonaField] == persona
    ensures user.Some? ==> u.Keys == user.value.Keys + {PersonaField}
    ensures user.None? ==> u.Keys == {PersonaField}
    ensures user.Some? ==> forall k :: k in user.value && k != PersonaField ==> u[k] == user.value[k]
  {
    (if user.Some? then user.value else map[])[PersonaField := persona]
  }

  /** `updatePersona`: on success only the user's persona changes. */
  function PersonaUpdated(s: SessionState, persona: string, succeeded: bool): (r: (SessionState, bool))
    ensures r.1 == succeeded
    ensures succeeded ==> r.0 == s.(user := Some(WithPersona(s.user, persona)))
    ensures !succeeded ==> r.0 == s
  {
    if succeeded then (s.(user := Some(WithPersona(s.user, persona))), true) else (s, false)
  }

  /** Status the client assumes after paying. */
  const Subscribed: Server.TrialStatus := Server.TrialStatus(false, true, 0)

  /** `subscribe`: on success the status becomes subscribed; a failure leaves it. */
  function SubscribeDone(s: SessionState, succeeded: bool): (r: (SessionState, bool))
    ensures r.1 == succeeded
    ensures succeeded ==> r.0 == s.(trialStatus := Some(Subscribed))
    ensures !succeeded ==> r.0 == s
  {
    if succeeded then (s.(trialStatus := Some(Subscribed)), true) else (s, false)
  }

  /** `logout`: token, header, user and status all go. */
  function LoggedOut(s: SessionState): (r: SessionState)
    ensures r.storage == s.storage - {TokenKey} && r.authorization.None? && r.user.None? && r.trialStatus.None?
    ensures r.loading == s.loading
  {
    s.(storage := s.storage - {TokenKey}, authorization := None, user := None, trialStatus := None)
  }

  /** Logging out twice is logging out once. */
  lemma LogoutIdempotent(s: SessionState)
    ensures LoggedOut(LoggedOut(s)) == LoggedOut(s)
  {
    assert LoggedOut(s).storage - {TokenKey} == LoggedOut(s).storage;
  }

  /** The assumed statuses after onboarding and paying agree with what the backend computes for
      a user who just started a trial or who has an active subscription. */
  lemma AssumedStatusesMatchBackend(u: Server.UserDoc, now: int)
    ensures Server.CheckTrialStatus(false, Some(now), now) == FreshTrial
    ensures Server.CheckTrialStatus(true, u.trialStarted, now) == Subscribed
  {
    Server.FreshTrialIsActive(now);
  }

  /** The handlers of the session store, for statements about all of them. */
  datatype Action =
    | Mount
    | CheckProfile(profile: Option<Profile>)
    | Onboard(answer: Option<Onboarding>)
    | UpdatePersona(persona: string, succeeded: bool)
    | Subscribe(paid: bool)
    | Logout

  function Apply(s: SessionState, a: Action): SessionState
  {
    match a
    case Mount => Mounted(s).0
    case CheckProfile(reply) => ProfileChecked(s, reply)
    case Onboard(reply) => Onboarded(s, reply).0
    case UpdatePersona(persona, ok) => PersonaUpdated(s, persona, ok).0
    case Subscribe(ok) => SubscribeDone(s, ok).0
    case Logout => LoggedOut(s)
  }

  /** No handler reads or writes any storage key but the token's. */
  lemma OnlyTokenKeyWritten(s: SessionState, a: Action, k: string)
    requires k != TokenKey
    ensures k in Apply(s, a).storage <==> k in s.storage
    ensures k in s.storage ==> Apply(s, a).storage[k] == s.storage[k]
  {
  }

  /** Whenever the session stores a token it also sends it, from the same handler on. */
  predicate HeaderMatchesToken(s: SessionState)
  {
    HasToken(s) ==> s.authorization == Some(Bearer(s.storage[TokenKey]))
  }

  lemma HeaderFollowsToken(s: SessionState, a: Action)
    requires HeaderMatchesToken(s) || a.Mount?
    ensures HeaderMatchesToken(Apply(s, a))
  {
  }

  /** The provider's state, changed by its handlers. */
  class Session {
    var user: Option<UserRecord>
    var trialStatus: Option<Server.TrialStatus>
    var loading: bool
    var storage: map<string, string>
    var authorization: Option<string>

    function State(): SessionState
      reads this
    {
      SessionState(user, trialStatus, loading, storage, authorization)
    }

    constructor(stored: map<string, string>)
      ensures State() == Initial(stored)
    {
      user, trialStatus, loading, storage, authorization := None, None, true, stored, None;
    }

    /** The mount effect; the answer says whether the profile is to be fetched. */
    method Mount() returns (fetchProfile: bool)
      modifies this
      ensures (State(), fetchProfile) == Mounted(old(State()))
    {
      if TokenKey in storage && storage[TokenKey] != "" {
        authorization := Some(Bearer(storage[TokenKey]));
        fetchProfile := true;
      } else {
        loading := false;
        fetchProfile := false;
      }
    }

    method CheckUserProfile(reply: Option<Profile>)
      modifies this
      ensures State() == ProfileChecked(old(State()), reply)
    {
      if reply.Some? {
        user := Some(reply.value.user);
        trialStatus := reply.value.trialStatus;
      } else {
        storage := storage - {TokenKey};
        authorization := None;
      }
      loading := false;
    }

    method OnboardUser(reply: Option<Onboarding>) returns (success: bool)
      modifies this
      ensures (State(), success) == Onboarded(old(State()), reply)
    {
      loading := true;
      if reply.Some? {
        storage := storage[TokenKey := reply.value.token];
        authorization := Some(Bearer(reply.value.token));
        user := Some(reply.value.user);
        trialStatus := Some(FreshTrial);
        success := true;
      } else {
        success := false;
      }
      loading := false;
    }

    method UpdatePersona(persona: string, succeeded: bool) returns (success: bool)
      modifies this
      ensures (State(), success) == PersonaUpdated(old(State()), persona, succeeded)
    {
      if succeeded {
        user := Some(WithPersona(user, persona));
      }
      success := succeeded;
    }

    method Subscribe(succeeded: bool) returns (success: bool)
      modifies this
      ensures (State(), success) == SubscribeDone(old(State()), succeeded)
    {
      if succeeded {
        trialStatus := Some(Subscribed);
      }
      success := succeeded;
    }

    method Logout()
      modifies this
      ensures State() == LoggedOut(old(State()))
    {
      storage := storage - {TokenKey};
      authorization := None;
      user := None;
      trialStatus := None;
    }
  }
}
