/** The signed-in shell (frontend/src/components/MainApp.js): the persona's welcome message by
    time of day, and the tab switch with its per-tab message. */
module MainApp {
  import opened Wrappers
  import opened Api

  datatype TimeOfDay = Morning | Afternoon | Evening

  /** Before noon, noon to five, and later. */
  function TimeOfDayOf(hour: int): (t: TimeOfDay)
    ensures t == Morning <==> hour < 12
    ensures t == Afternoon <==> 12 <= hour < 17
    ensures t == Evening <==> hour >= 17
  {
    if hour < 12 then Morning else if hour < 17 then Afternoon else Evening
  }

  function Word(t: TimeOfDay): string
  {
    match t
    case Morning => "morning"
    case Afternoon => "afternoon"
    case Evening => "evening"
  }

  /** `charAt(0).toUpperCase() + slice(1)` for lower-case ASCII words. */
  function Capitalized(s: string): (r: string)
    ensures |r| == |s|
    ensures s != [] ==> r[1..] == s[1..]
    ensures s != [] && 'a' <= s[0] <= 'z' ==> 'A' <= r[0] <= 'Z' && r[0] as int == s[0] as int - 32
  {
    if s == [] then []
    else if 'a' <= s[0] <= 'z' then [(s[0] as int - 32) as char] + s[1..]
    else s
  }

  /** The greeting for an unknown or missing persona. */
  function GenericGreeting(tod: string): string
  {
    "Good " + tod + "! Let's make today productive!"
  }

  /** Each persona's greeting for a time of day. */
  function Greetings(tod: string): (m: map<string, string>)
    ensures m.Keys == {"casualBuddy", "caringSibling", "goodParent", "strictProfessional", "wildCard"}
  {
    map[
      "casualBuddy" := "Good " + tod + "! Ready to crush today's schedule?",
      "caringSibling" := "Hey there! Hope your " + tod + " is going well. Let's plan something awesome!",
      "goodParent" := "Good " + tod + ", sweetheart! Time to organize your day with love and care.",
      "strictProfessional" := "Good " + tod + ". Time to review your calendar and execute your plans efficiently.",
      "wildCard" := Capitalized(tod) + " vibes! Let's make today unpredictably awesome!"]
  }

  /** `getWelcomeMessage`: the persona's greeting with the time of day in it, or the generic
      one for a missing or unknown persona. */
  function WelcomeMessage(persona: Option<string>, hour: int): (r: string)
    ensures var tod := Word(TimeOfDayOf(hour));
            persona.Some? && persona.value in Greetings(tod) ==> r == Greetings(tod)[persona.value]
    ensures var tod := Word(TimeOfDayOf(hour));
            (persona.None? || persona.value !in Greetings(tod)) ==> r == GenericGreeting(tod)
  {
    var tod := Word(TimeOfDayOf(hour));
    var messages := Greetings(tod);
    if persona.Some? && persona.value in messages then messages[persona.value] else GenericGreeting(tod)
  }

  /** The wild card's greeting opens with the time of day capitalised. */
  lemma CapitalizedTimesOfDay()
    ensures Capitalized("morning") == "Morning"
    ensures Capitalized("afternoon") == "Afternoon"
    ensures Capitalized("evening") == "Evening"
  {
    assert Capitalized("morning")[0] == 'M';
    assert Capitalized("afternoon")[0] == 'A';
    assert Capitalized("evening")[0] == 'E';
  }

  /** The section messages of `handleTabChange`. */
  const TabMessages: map<string, string> := map[
    "calendar" := "Let's see what's on your schedule!",
    "explore" := "Time to discover what's around you!",
    "settings" := "Let's fine-tune your preferences."]

  datatype Shell = Shell(activeTab: string, currentMessage: string)

  const InitialShell: Shell := Shell("calendar", "")

  /** The user effect: a truthy persona sets the welcome message; otherwise nothing changes. */
  function Welcomed(s: Shell, persona: Option<string>, hour: int): (r: Shell)
    ensures !Truthy(persona) ==> r == s
    ensures Truthy(persona) ==> r == s.(currentMessage := WelcomeMessage(persona, hour))
  {
    if Truthy(persona) then s.(currentMessage := WelcomeMessage(persona, hour)) else s
  }

  /** `handleTabChange`: the tab always changes, the message only for the three known tabs. */
  function TabChanged(s: Shell, tab: string): (r: Shell)
    ensures r.activeTab == tab
    ensures tab in TabMessages ==> r.currentMessage == TabMessages[tab]
    ensures tab !in TabMessages ==> r.currentMessage == s.currentMessage
  {
    Shell(tab, if tab in TabMessages then TabMessages[tab] else s.currentMessage)
  }

  /** Switching to a tab twice is switching once. */
  lemma TabChangeIdempotent(s: Shell, tab: string)
    ensures TabChanged(TabChanged(s, tab), tab) == TabChanged(s, tab)
  {
  }

  class MainScreen {
    var activeTab: string
    var currentMessage: string

    function State(): Shell
      reads this
    {
      Shell(activeTab, currentMessage)
    }

    constructor()
      ensures State() == InitialShell
    {
      activeTab := "calendar";
      currentMessage := "";
    }

    method OnUser(persona: Option<string>, hour: int)
      modifies this
      ensures State() == Welcomed(old(State()), persona, hour)
    {
      if persona.Some? && persona.value != "" {
        currentMessage := WelcomeMessage(persona, hour);
      }
    }

    method HandleTabChange(tab: string)
      modifies this
      ensures State() == TabChanged(old(State()), tab)
    {
      activeTab := tab;
      if tab in TabMessages {
        currentMessage := TabMessages[tab];
      }
    }
  }
}
