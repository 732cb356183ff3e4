/** The persona's speech bubble (frontend/src/components/PersonaChat.js): the current message,
    its visibility, and a history that keeps the five most recent messages. */
module PersonaChat {
  import opened Wrappers
  import opened Api

  /** One history entry; the timestamp is the moment the message arrived. */
  datatype Entry = Entry(text: string, timestamp: int, persona: Option<string>)

  /** `prev.slice(-n)`: the last `n` elements, or all of them when there are fewer. */
  function LastN<T>(s: seq<T>, n: nat): (r: seq<T>)
    ensures |r| == if |s| <= n then |s| else n
    ensures r == s[|s| - |r|..]
  {
    if |s| <= n then s else s[|s| - n..]
  }

  const HistoryLimit: nat := 5

  /** `[...prev.slice(-4), entry]`. */
  function Pushed<T>(history: seq<T>, entry: T): (r: seq<T>)
    ensures |r| <= |history| + 1 && |r| <= HistoryLimit
    ensures |r| > 0 && r[|r| - 1] == entry
  {
    LastN(history, HistoryLimit - 1) + [entry]
  }

  /** The history after a run of messages arriving one by one, from an empty start. */
  function HistoryOf<T>(messages: seq<T>): seq<T>
  {
    if messages == [] then [] else Pushed(HistoryOf(messages[..|messages| - 1]), messages[|messages| - 1])
  }

  /** The history always holds exactly the five (or fewer) most recent messages, oldest first. */
  lemma {:induction false} HistoryKeepsLastFive<T>(messages: seq<T>)
    ensures HistoryOf(messages) == LastN(messages, HistoryLimit)
  {
    if messages != [] {
      var init, x := messages[..|messages| - 1], messages[|messages| - 1];
      HistoryKeepsLastFive(init);
      assert messages == init + [x];
      LastOfLast(init, x);
    }
  }

  lemma LastOfLast<T>(s: seq<T>, x: T)
    ensures LastN(LastN(s, HistoryLimit), HistoryLimit - 1) + [x] == LastN(s + [x], HistoryLimit)
  {
    var t := s + [x];
    if |s| >= HistoryLimit - 1 {
      assert LastN(LastN(s, HistoryLimit), HistoryLimit - 1) == s[|s| - 4..];
      assert t[|t| - 5..] == s[|s| - 4..] + [x];
    } else {
      assert LastN(LastN(s, HistoryLimit), HistoryLimit - 1) == s;
    }
  }

  datatype Bubble = Bubble(currentMessage: string, isVisible: bool, history: seq<Entry>)

  /** The first render: the message given at mount (or empty), hidden, no history. */
  function Mounted(message: Option<string>): Bubble
  {
    Bubble(if message.Some? then message.value else "", false, [])
  }

  /** The effect on `[message, persona]`: a non-empty message shows and joins the history; an
      empty one changes nothing. */
  function Received(b: Bubble, message: Option<string>, persona: Option<string>, now: int): (r: Bubble)
    ensures !Truthy(message) ==> r == b
    ensures Truthy(message) ==> r.currentMessage == message.value && r.isVisible
    ensures Truthy(message) ==> r.history == Pushed(b.history, Entry(message.value, now, persona))
  {
    if Truthy(message) then Bubble(message.value, true, Pushed(b.history, Entry(message.value, now, persona)))
    else b
  }

  /** The five-second timeout: the bubble hides, the history stays. */
  function Hidden(b: Bubble): (r: Bubble)
    ensures r == b.(isVisible := false)
  {
    b.(isVisible := false)
  }

  /** `fetchPersonaMessage` (from the nudge and celebration buttons): a reply's message is shown,
      with an absent `message` field reading as empty; a failed request changes nothing. The
      fetched message never joins the history, which only the parent's `message` prop feeds. */
  function Fetched(b: Bubble, reply: Reply<string>): (r: Bubble)
    ensures reply.Failed? ==> r == b
    ensures reply.Replied? ==> r.isVisible && r.history == b.history
    ensures reply.Replied? && reply.value.Some? ==> r.currentMessage == reply.value.value
    ensures reply.Replied? && reply.value.None? ==> r.currentMessage == ""
  {
    match reply
    case Failed => b
    case Replied(m) => Bubble(if m.Some? then m.value else "", true, b.history)
  }

  /** The component renders nothing when it has neither a message nor a history. */
  predicate RendersNothing(b: Bubble)
    ensures RendersNothing(b) ==> b.history == []
    ensures b.currentMessage != "" ==> !RendersNothing(b)
  {
    b.currentMessage == "" && |b.history| == 0
  }

  /** Once a message has arrived the component renders something from then on: no step empties
      the history, and the history never grows past five entries. */
  lemma ReceivedKeepsRendering(b: Bubble, message: Option<string>, persona: Option<string>, now: int)
    requires |b.history| <= HistoryLimit
    ensures Truthy(message) ==> !RendersNothing(Received(b, message, persona, now))
    ensures !RendersNothing(b) ==> !RendersNothing(Received(b, message, persona, now)) && !RendersNothing(Hidden(b))
    ensures |Received(b, message, persona, now).history| <= HistoryLimit
  {
  }

  /** A fetched message shows the bubble with something in it when the reply carries a message
      or a history already exists; a fetch never shortens the history. */
  lemma FetchedRenders(b: Bubble, reply: Reply<string>)
    ensures reply.Replied? && Truthy(reply.value) ==> !RendersNothing(Fetched(b, reply)) && Fetched(b, reply).isVisible
    ensures |b.history| > 0 ==> !RendersNothing(Fetched(b, reply))
    ensures |Fetched(b, reply).history| == |b.history|
  {
  }

  /** `getPersonaInfo`: the persona's emoji and short name, or the assistant robot. */
  datatype PersonaInfo = PersonaInfo(emoji: string, name: string)

  const Fallback: PersonaInfo := PersonaInfo("🤖", "Assistant")

  const Personas: map<string, PersonaInfo> := map[
    "casualBuddy" := PersonaInfo("😎", "Buddy"),
    "caringSibling" := PersonaInfo("🤗", "Sibling"),
    "goodParent" := PersonaInfo("🥰", "Parent"),
    "strictProfessional" := PersonaInfo("💼", "Pro"),
    "wildCard" := PersonaInfo("🎭", "Wild")]

  function GetPersonaInfo(persona: Option<string>): (r: PersonaInfo)
    ensures persona.Some? && persona.value in Personas ==> r == Personas[persona.value]
    ensures (persona.None? || persona.value !in Personas) ==> r == Fallback
  {
    if persona.Some? && persona.value in Personas then Personas[persona.value] else Fallback
  }

  /** Only an unknown persona gets the robot: no persona's own entry is the fallback. */
  lemma FallbackOnlyForUnknown(persona: Option<string>)
    ensures GetPersonaInfo(persona) == Fallback <==> persona.None? || persona.value !in Personas
  {
    assert forall p :: p in Personas ==> Personas[p].name != "Assistant";
  }

  /** The component's state. */
  class Chat {
    var currentMessage: string
    var isVisible: bool
    var messageHistory: seq<Entry>

    function State(): Bubble
      reads this
    {
      Bubble(currentMessage, isVisible, messageHistory)
    }

    constructor(message: Option<string>)
      ensures State() == Mounted(message)
    {
      currentMessage := if message.Some? then message.value else "";
      isVisible := false;
      messageHistory := [];
    }

    method OnMessage(message: Option<string>, persona: Option<string>, now: int)
      modifies this
      ensures State() == Received(old(State()), message, persona, now)
    {
      if message.Some? && message.value != "" {
        currentMessage := message.value;
        isVisible := true;
        messageHistory := LastN(messageHistory, 4) + [Entry(message.value, now, persona)];
      }
    }

    method TriggerMessage(reply: Reply<string>)
      modifies this
      ensures State() == Fetched(old(State()), reply)
    {
      if reply.Replied? {
        currentMessage := if reply.value.Some? then reply.value.value else "";
        isVisible := true;
      }
    }

    method OnTimeout()
      modifies this
      ensures State() == Hidden(old(State()))
    {
      isVisible := false;
    }
  }
}
