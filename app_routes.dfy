/** The screen the app shows (`AppRoutes` in frontend/src/App.js), chosen from the session store's
    loading flag, user and trial status. */
module AppRoutes {
  import opened Wrappers
  import Server
  import opened AuthContext

  datatype Screen = LoadingScreen | OnboardingScreen | PaywallScreen | MainApp

  /** `trialStatus?.trial_active || trialStatus?.subscription_active`, with a missing status
      reading as neither. */
  predicate MayUseApp(ts: Option<Server.TrialStatus>)
  {
    ts.Some? && (ts.value.trialActive || ts.value.subscriptionActive)
  }

  /** The ordered checks of `AppRoutes`. */
  function RouteOf(s: SessionState): (r: Screen)
    ensures r == LoadingScreen <==> s.loading
    ensures r == OnboardingScreen <==> !s.loading && s.user.None?
    ensures r == PaywallScreen <==> !s.loading && s.user.Some? && !MayUseApp(s.trialStatus)
    ensures r == MainApp <==> !s.loading && s.user.Some? && MayUseApp(s.trialStatus)
  {
    if s.loading then LoadingScreen
    else if s.user.None? then OnboardingScreen
    else if !MayUseApp(s.trialStatus) then PaywallScreen
    else MainApp
  }

  /** A successful onboarding lands in the app. */
  lemma OnboardingOpensApp(s: SessionState, o: Onboarding)
    ensures RouteOf(Onboarded(s, Some(o)).0) == MainApp
  {
  }

  /** A failed onboarding from the onboarding screen stays there. */
  lemma FailedOnboardingStays(s: SessionState)
    requires RouteOf(s) == OnboardingScreen || (s.loading && s.user.None?)
    ensures RouteOf(Onboarded(s, None).0) == OnboardingScreen
  {
  }

  /** Paying from the paywall opens the app; a failed payment stays on the paywall. */
  lemma SubscribingOpensApp(s: SessionState)
    requires RouteOf(s) == PaywallScreen
    ensures RouteOf(SubscribeDone(s, true).0) == MainApp
    ensures RouteOf(SubscribeDone(s, false).0) == PaywallScreen
  {
  }

  /** After logging out (once loading is over) the onboarding screen shows. */
  lemma LogoutShowsOnboarding(s: SessionState)
    requires !s.loading
    ensures RouteOf(LoggedOut(s)) == OnboardingScreen
  {
  }

  /** A first visit with no token goes straight to onboarding without a profile fetch; with a
      token the loading screen shows until the profile answer, and a failed check falls back to
      onboarding. */
  lemma FirstVisit(storage: map<string, string>)
    ensures !HasToken(Initial(storage)) ==>
              !Mounted(Initial(storage)).1 && RouteOf(Mounted(Initial(storage)).0) == OnboardingScreen
    ensures HasToken(Initial(storage)) ==>
              Mounted(Initial(storage)).1 && RouteOf(Mounted(Initial(storage)).0) == LoadingScreen
              && RouteOf(ProfileChecked(Mounted(Initial(storage)).0, None)) == OnboardingScreen
  {
  }

  /** A profile whose status the backend computed routes to the app exactly when the backend
      would let the user change tasks. */
  lemma ProfileRouteFollowsGate(s: SessionState, p: Profile, user: Server.UserDoc, now: int)
    requires p.trialStatus == Some(Server.UserStatus(user, now))
    ensures RouteOf(ProfileChecked(s, Some(p))) == MainApp
            <==> Server.Gate(Server.CreateTask, Server.UserStatus(user, now)).None?
  {
  }
}
