/**
  The conversation panel's generation cycle: when a cycle may start, what it sends to
  the server, and what it does with the reply: append exactly one message, or show an
  error. Also the colour and icon tables used to render a message's author.
 */
module ConversationPanel {
  import opened JsValues
  import opened Types

  /** The panel's own state. */
  datatype PanelState = PanelState(isGenerating: bool, error: Option<string>)

  /** The state on first render. */
  const InitialPanel: PanelState := PanelState(false, None)

  /** The guard of the generation effect: a cycle starts only while a conversation plays,
      unpaused, with no log viewed and no cycle already running. */
  predicate MayGenerate(isPlaying: bool, isPaused: bool, isViewingLog: bool, isGenerating: bool) {
    isPlaying && !isPaused && !isViewingLog && !isGenerating
  }

  /** The director's input sent with the request: the last message's content when the
      director wrote it, else null. */
  function ForwardedUserInput(messages: seq<Message>): (r: Option<string>)
    ensures r.Some? <==> |messages| > 0 && messages[|messages| - 1].agentId == UserAgentId
    ensures r.Some? ==> r.value == messages[|messages| - 1].content
  {
    if |messages| > 0 && messages[|messages| - 1].agentId == UserAgentId then Some(messages[|messages| - 1].content)
    else None
  }

  /** The custom topic text is sent only for the `custom` topic. */
  function ForwardedCustomTopic(selectedTopic: string, customTopic: string): (r: Option<string>)
    ensures r.Some? <==> selectedTopic == "custom"
    ensures r.Some? ==> r.value == customTopic
  {
    if selectedTopic == "custom" then Some(customTopic) else None
  }

  /** The arguments of one `generateMessage` call. */
  datatype ClientRequest = ClientRequest(
    messages: seq<Message>,
    lastSpeaker: Option<string>,
    userInput: Option<string>,
    topic: string,
    customTopic: Option<string>)

  /** The request a cycle sends, from the panel's props. */
  function BuildRequest(messages: seq<Message>, lastSpeaker: Option<string>, selectedTopic: string, customTopic: string): (q: ClientRequest)
    ensures q.messages == messages && q.lastSpeaker == lastSpeaker && q.topic == selectedTopic
    ensures q.userInput == ForwardedUserInput(messages)
    ensures q.customTopic == ForwardedCustomTopic(selectedTopic, customTopic)
  {
    ClientRequest(messages, lastSpeaker, ForwardedUserInput(messages), selectedTopic, ForwardedCustomTopic(selectedTopic, customTopic))
  }

  /** A reply the panel turns into a message: a success naming a speaker, a display name
      and a non-empty text. */
  predicate Acceptable(response: ApiResponse) {
    response.success && Truthy(response.agent) && Truthy(response.agentName) && Truthy(response.message)
  }

  /** The message built from an acceptable reply; the reply's timestamp when it has one,
      else the current time. */
  function NewMessage(response: ApiResponse, nowMillis: string, nowIso: string): (m: Message)
    requires Acceptable(response)
    ensures m.agentId == response.agent.value && m.agentName == response.agentName.value
    ensures m.content == response.message.value && m.id == nowMillis
    ensures Truthy(response.timestamp) ==> m.timestamp == response.timestamp.value
    ensures !Truthy(response.timestamp) ==> m.timestamp == nowIso
  {
    Message(nowMillis, response.agent.value, response.agentName.value, response.message.value,
            OrElse(response.timestamp, nowIso))
  }

  /** How the `generateMessage` call ended: with a reply, or by throwing. */
  datatype CallOutcome = Responded(response: ApiResponse) | Threw

  const RejectedError: string := "Failed to generate message"
  const ThrownError: string := "Error generating message. Please try again."

  /** The start of a cycle: generating, with the previous error cleared. */
  function BeginCycle(p: PanelState): (r: PanelState)
    ensures r.isGenerating && r.error.None?
  {
    PanelState(true, None)
  }

  /** What one cycle leaves behind: the panel state and the message handed to the app, if any. */
  datatype CycleResult = CycleResult(panel: PanelState, appended: Option<Message>)

  /** The end of a cycle: an acceptable reply becomes one message; a rejected reply or a
      thrown call becomes an error instead. `finally` always stops generating. */
  function EndCycle(p: PanelState, outcome: CallOutcome, nowMillis: string, nowIso: string): (r: CycleResult)
    ensures !r.panel.isGenerating
    ensures r.appended.Some? <==> outcome.Responded? && Acceptable(outcome.response)
    ensures r.appended.Some? ==> r.appended.value == NewMessage(outcome.response, nowMillis, nowIso) && r.panel.error == p.error
    ensures outcome.Responded? && !Acceptable(outcome.response) ==> r.panel.error == Some(RejectedError)
    ensures outcome.Threw? ==> r.panel.error == Some(ThrownError)
  {
    match outcome
    case Threw => CycleResult(PanelState(false, Some(ThrownError)), None)
    case Responded(response) =>
      if Acceptable(response) then CycleResult(p.(isGenerating := false), Some(NewMessage(response, nowMillis, nowIso)))
      else CycleResult(PanelState(false, Some(RejectedError)), None)
  }

  /** A whole cycle: an error is shown exactly when no message is appended, and the panel
      is ready for the next cycle either way. */
  lemma CycleOutcome(p: PanelState, outcome: CallOutcome, nowMillis: string, nowIso: string)
    ensures var r := EndCycle(BeginCycle(p), outcome, nowMillis, nowIso);
      && !r.panel.isGenerating
      && (r.appended.Some? <==> r.panel.error.None?)
      && (r.panel.error.Some? ==> r.panel.error.value in {RejectedError, ThrownError})
  {
  }

  /** The colour of each author the panel knows. */
  const ColorTable: seq<(string, string)> := [
    ("realist", "#e74c3c"),
    ("creative", "#9b59b6"),
    ("entrepreneur", "#3498db"),
    ("finance", "#f39c12"),
    ("tech", "#2ecc71"),
    ("user", "#34495e")
  ]

  const DefaultColor: string := "#95a5a6"

  /** The icon of each author the panel knows. */
  const IconTable: seq<(string, string)> := [
    ("realist", "🤔"),
    ("creative", "💡"),
    ("entrepreneur", "🚀"),
    ("finance", "💰"),
    ("tech", "⚙️"),
    ("user", "👤")
  ]

  const DefaultIcon: string := "🤖"

  /** The keys both tables share, in declaration order. */
  const RenderedIds: seq<string> := ["realist", "creative", "entrepreneur", "finance", "tech", "user"]

  lemma RenderTablesFacts()
    ensures Keys(ColorTable) == RenderedIds && Keys(IconTable) == RenderedIds
    ensures Distinct(RenderedIds)
    ensures forall i :: 0 <= i < |ColorTable| ==> ColorTable[i].1 != "" && ColorTable[i].1 != DefaultColor
    ensures forall i :: 0 <= i < |IconTable| ==> IconTable[i].1 != "" && IconTable[i].1 != DefaultIcon
  {
  }

  /** `getAgentColor`: the table's colour for a known id, the default for any other. */
  function AgentColor(agentId: string): (c: string)
    ensures forall i :: 0 <= i < |ColorTable| && ColorTable[i].0 == agentId ==> c == ColorTable[i].1
    ensures agentId !in RenderedIds ==> c == DefaultColor
    ensures c == DefaultColor <==> agentId !in RenderedIds
  {
    RenderTablesFacts();
    LookupDistinct(ColorTable, agentId);
    OrElse(Lookup(ColorTable, agentId), DefaultColor)
  }

  /** `getAgentIcon`: the table's icon for a known id, the default for any other. */
  function AgentIcon(agentId: string): (c: string)
    ensures forall i :: 0 <= i < |IconTable| && IconTable[i].0 == agentId ==> c == IconTable[i].1
    ensures agentId !in RenderedIds ==> c == DefaultIcon
    ensures c == DefaultIcon <==> agentId !in RenderedIds
  {
    RenderTablesFacts();
    LookupDistinct(IconTable, agentId);
    OrElse(Lookup(IconTable, agentId), DefaultIcon)
  }
}
