/**
  The backend of the boardroom: the persona and topic tables, the round-robin turn
  selector, topic-prompt selection, the assembly of the message list sent to the
  language model, and the `generate-message` handler that ties them together.
  The language model itself is a parameter `complete` that maps a message list to
  generated text, or to None when the call fails.
 */
module Server {
  import opened JsValues
  import opened Types
  import opened Topics

  /** The personas of the server's table, which has no `finance` entry although the
      client knows a colour and an icon for one. */
  datatype Persona = Realist | Creative | Entrepreneur | Tech | Lisa

  /** The personas in declaration order. */
  const Personas: seq<Persona> := [Realist, Creative, Entrepreneur, Tech, Lisa]

  /** The table key of a persona. */
  function Key(p: Persona): string {
    match p
    case Realist => "realist"
    case Creative => "creative"
    case Entrepreneur => "entrepreneur"
    case Tech => "tech"
    case Lisa => "lisa"
  }

  /** The display name of a persona. */
  function Name(p: Persona): string {
    match p
    case Realist => "Marcus Sterling"
    case Creative => "Maya Patel"
    case Entrepreneur => "Daniel Rodriguez"
    case Tech => "Alex Thompson"
    case Lisa => "Lisa Moreau"
  }

  /** `Object.keys(AGENT_PERSONAS)`. */
  const AgentKeys: seq<string> := ["realist", "creative", "entrepreneur", "tech", "lisa"]

  /** The persona that opens every conversation. */
  const Opener: Persona := Entrepreneur

  /** The position of a persona in declaration order. */
  function Position(p: Persona): (i: nat)
    ensures i < |Personas| && Personas[i] == p
  {
    match p
    case Realist => 0
    case Creative => 1
    case Entrepreneur => 2
    case Tech => 3
    case Lisa => 4
  }

  /** Keys and names are truthy strings. */
  lemma KeyIsTruthy(p: Persona)
    ensures Key(p) != ""
  {
  }

  lemma NameIsTruthy(p: Persona)
    ensures Name(p) != ""
  {
  }

  /** The key list is the personas' keys in declaration order. */
  lemma AgentKeysInOrder()
    ensures |AgentKeys| == |Personas|
    ensures forall i :: 0 <= i < |Personas| ==> AgentKeys[i] == Key(Personas[i])
  {
  }

  /** No two personas share a key. */
  lemma KeyInjective(p: Persona, q: Persona)
    requires Key(p) == Key(q)
    ensures p == q
  {
  }

  /** A string is a table key exactly when it is some persona's key. */
  lemma AgentKeysAreKeys(s: string)
    ensures s in AgentKeys <==> exists p :: Key(p) == s
  {
    AgentKeysInOrder();
    if exists p :: Key(p) == s {
      var p :| Key(p) == s;
      assert AgentKeys[Position(p)] == s;
    }
  }

  /** Neither the director's id nor the client-only `finance` id is a table key. */
  lemma UserAndFinanceAreNotKeys()
    ensures "user" !in AgentKeys && "finance" !in AgentKeys
  {
    AgentKeysAreKeys("user");
    AgentKeysAreKeys("finance");
  }

  /** The declared rotation: each persona hands over to the next, the last to the first. */
  function Successor(p: Persona): Persona {
    match p
    case Realist => Creative
    case Creative => Entrepreneur
    case Entrepreneur => Tech
    case Tech => Lisa
    case Lisa => Realist
  }

  /** The rotation moves one position forward, modulo the number of personas. */
  lemma SuccessorIsNextPosition(i: nat)
    requires i < |Personas|
    ensures Successor(Personas[i]) == Personas[(i + 1) % |Personas|]
  {
  }

  // ---------------------------------------------------------------------------
  // Conversation history as the server receives it
  // ---------------------------------------------------------------------------

  /** One entry of `conversationHistory`. The server labels each entry with its
      `speaker` field, which the client's messages do not carry. */
  datatype HistoryEntry = HistoryEntry(speaker: Option<string>, content: string)

  /** What the server reads from a client message: its content, and no speaker. */
  function FromClientMessage(m: Message): (e: HistoryEntry)
    ensures e.speaker.None? && e.content == m.content
  {
    HistoryEntry(None, m.content)
  }

  /** The history the client sends: one entry per message, in order. */
  function FromClientMessages(ms: seq<Message>): (h: seq<HistoryEntry>)
    ensures |h| == |ms|
    ensures forall i :: 0 <= i < |ms| ==> h[i] == FromClientMessage(ms[i])
  {
    seq(|ms|, i requires 0 <= i < |ms| => FromClientMessage(ms[i]))
  }

  /** A template literal renders a missing field as `undefined`. */
  function SpeakerLabel(speaker: Option<string>): string {
    if speaker.Some? then speaker.value else "undefined"
  }

  /** `${msg.speaker}: ${msg.content}` */
  function HistoryLine(e: HistoryEntry): string {
    SpeakerLabel(e.speaker) + ": " + e.content
  }

  /** The label/content line of every history entry, in history order. */
  function HistoryLines(h: seq<HistoryEntry>): (lines: seq<string>)
    ensures |lines| == |h|
    ensures forall i :: 0 <= i < |h| ==> lines[i] == HistoryLine(h[i])
  {
    if |h| == 0 then [] else [HistoryLine(h[0])] + HistoryLines(h[1..])
  }

  /** `parts.join(sep)` */
  function Join(parts: seq<string>, sep: string): string {
    if |parts| == 0 then ""
    else if |parts| == 1 then parts[0]
    else parts[0] + sep + Join(parts[1..], sep)
  }

  /** Joining a concatenation puts exactly one separator between the two halves. */
  lemma {:induction false} JoinAppend(a: seq<string>, b: seq<string>, sep: string)
    requires |a| > 0 && |b| > 0
    ensures Join(a + b, sep) == Join(a, sep) + sep + Join(b, sep)
    decreases |a|
  {
    if |a| == 1 {
      assert (a + b)[1..] == b;
    } else {
      assert (a + b)[1..] == a[1..] + b;
      JoinAppend(a[1..], b, sep);
    }
  }

  const HistoryHeader: string := "Here's the conversation so far:\n\n"
  const LineSeparator: string := "\n\n"

  /** The text of the history message: a header, then one line per entry,
      separated by blank lines. */
  function RenderHistory(h: seq<HistoryEntry>): string {
    HistoryHeader + Join(HistoryLines(h), LineSeparator)
  }

  /** A one-entry history renders as the header followed by that entry's line. */
  lemma RenderHistorySingle(e: HistoryEntry)
    ensures RenderHistory([e]) == HistoryHeader + HistoryLine(e)
  {
  }

  /** Lines keep history order: one more entry adds one more line at the end. */
  lemma RenderHistorySnoc(h: seq<HistoryEntry>, e: HistoryEntry)
    requires |h| > 0
    ensures RenderHistory(h + [e]) == RenderHistory(h) + LineSeparator + HistoryLine(e)
  {
    assert HistoryLines(h + [e]) == HistoryLines(h) + [HistoryLine(e)];
    JoinAppend(HistoryLines(h), [HistoryLine(e)], LineSeparator);
  }

  /** Client messages carry no speaker, so every line they produce is labelled
      `undefined`. */
  lemma ClientHistoryIsUnlabelled(ms: seq<Message>)
    ensures forall i :: 0 <= i < |ms| ==> HistoryLines(FromClientMessages(ms))[i] == "undefined: " + ms[i].content
  {
  }

  // ---------------------------------------------------------------------------
  // Turn taking
  // ---------------------------------------------------------------------------

  /** `getNextAgent`: the persona after the one keyed `lastSpeaker`, in declaration order
      and wrapping after the last. An id that is not a key (`"user"`, `"finance"`) has
      index -1, so the first persona follows it. The history plays no part. */
  function GetNextAgent(history: seq<HistoryEntry>, lastSpeaker: string): (r: Persona)
    ensures forall p :: Key(p) == lastSpeaker ==> r == Successor(p)
    ensures lastSpeaker !in AgentKeys ==> r == Realist
  {
    var current := IndexOf(AgentKeys, lastSpeaker);
    NextAgentFollowsKey(lastSpeaker, current);
    Personas[(current + 1) % |Personas|]
  }

  lemma NextAgentFollowsKey(lastSpeaker: string, current: int)
    requires current == IndexOf(AgentKeys, lastSpeaker)
    ensures forall p :: Key(p) == lastSpeaker ==> Personas[(current + 1) % |Personas|] == Successor(p)
    ensures lastSpeaker !in AgentKeys ==> Personas[(current + 1) % |Personas|] == Realist
  {
    forall p | Key(p) == lastSpeaker
      ensures Personas[(current + 1) % |Personas|] == Successor(p)
    {
      AgentKeysAreKeys(lastSpeaker);
      AgentKeysInOrder();
      var q := Personas[current];
      assert Key(q) == lastSpeaker;
      KeyInjective(p, q);
      SuccessorIsNextPosition(current);
    }
  }

  /** The selector reads only the last speaker, never the history. */
  lemma NextAgentIgnoresHistory(h1: seq<HistoryEntry>, h2: seq<HistoryEntry>, lastSpeaker: string)
    ensures GetNextAgent(h1, lastSpeaker) == GetNextAgent(h2, lastSpeaker)
  {
  }

  /** After a persona's own key, the selector picks that persona's successor. */
  lemma NextAfterKey(history: seq<HistoryEntry>, speaker: Persona)
    ensures GetNextAgent(history, Key(speaker)) == Successor(speaker)
  {
  }

  /** The declared rotation applied `n` times. */
  function Rotate(p: Persona, n: nat): Persona
    decreases n
  {
    if n == 0 then p else Rotate(Successor(p), n - 1)
  }

  /** `n` turns of a turn-taking rule, starting from `speaker`. */
  function Turns(next: Persona -> Persona, speaker: Persona, n: nat): Persona
    decreases n
  {
    if n == 0 then speaker else Turns(next, next(speaker), n - 1)
  }

  /** A rule that agrees with the declared rotation at every persona follows it turn after turn. */
  lemma {:induction false} TurnsFollowRotation(next: Persona -> Persona, speaker: Persona, n: nat)
    requires forall p :: next(p) == Successor(p)
    ensures Turns(next, speaker, n) == Rotate(speaker, n)
    decreases n
  {
    if n > 0 {
      TurnsFollowRotation(next, next(speaker), n - 1);
    }
  }

  /** The handler's rule once a conversation is under way: the persona that follows one who
      just spoke. */
  function Handover(history: seq<HistoryEntry>): Persona -> Persona {
    p => GetNextAgent(history, Key(p))
  }

  /** The `indexOf`-based selector agrees with the declared rotation at every persona. */
  lemma HandoverIsRotation(history: seq<HistoryEntry>)
    ensures forall p :: Handover(history)(p) == Successor(p)
  {
    forall p
      ensures Handover(history)(p) == Successor(p)
    {
      NextAfterKey(history, p);
    }
  }

  /** The rotation has period five: every persona speaks again after five turns. */
  lemma FiveTurnsReturn(history: seq<HistoryEntry>, speaker: Persona)
    ensures Turns(Handover(history), speaker, 5) == speaker
  {
    HandoverIsRotation(history);
    TurnsFollowRotation(Handover(history), speaker, 5);
  }

  /** The speaker the handler picks: the opener when there is no (truthy) last speaker
      or no history, otherwise the successor of the last speaker, which is the first
      persona when the last speaker is not a persona. */
  function SelectSpeaker(history: seq<HistoryEntry>, lastSpeaker: Option<string>): (r: Persona)
    ensures !Truthy(lastSpeaker) || |history| == 0 ==> r == Opener
    ensures forall p :: Truthy(lastSpeaker) && |history| > 0 && Key(p) == lastSpeaker.value ==> r == Successor(p)
    ensures Truthy(lastSpeaker) && |history| > 0 && lastSpeaker.value !in AgentKeys ==> r == Realist
  {
    if !Truthy(lastSpeaker) || |history| == 0 then Opener else GetNextAgent(history, lastSpeaker.value)
  }

  // ---------------------------------------------------------------------------
  // Prompt assembly
  // ---------------------------------------------------------------------------

  datatype Role = SystemRole | UserRole

  /** The content of one prompt message, tagged by its kind. */
  datatype Prompt =
    | PersonaPrompt(agent: Persona)      // the persona's behaviour prompt and the shared guidelines
    | HistoryPrompt(transcript: string)  // the rendered conversation so far
    | DirectorInput(input: string)       // the startup director's latest input
    | TopicPrompt(seed: Seed)            // the seed prompt that opens a conversation
    | ContinuePrompt(agentName: string)  // "continue the conversation as <name>"

  datatype ChatMessage = ChatMessage(role: Role, content: Prompt)

  predicate HasHistoryPrompt(ms: seq<ChatMessage>) {
    exists k :: 0 <= k < |ms| && ms[k].content.HistoryPrompt?
  }

  predicate HasDirectorInput(ms: seq<ChatMessage>) {
    exists k :: 0 <= k < |ms| && ms[k].content.DirectorInput?
  }

  /** `contextMessages` in `generateAgentResponse`: the persona's system prompt, the
      rendered history when there is one, the director's input when it is truthy, and
      last the topic prompt for a fresh conversation or a request to continue. */
  function ContextMessages(agent: Persona, history: seq<HistoryEntry>, userInput: Option<string>,
                           topic: string, customTopic: Option<string>): (ms: seq<ChatMessage>)
    ensures |ms| == 2 + (if |history| > 0 then 1 else 0) + (if Truthy(userInput) then 1 else 0)
    ensures ms[0] == ChatMessage(SystemRole, PersonaPrompt(agent))
    ensures forall k :: 1 <= k < |ms| ==> ms[k].role == UserRole
    ensures HasHistoryPrompt(ms) <==> |history| > 0
    ensures |history| > 0 ==> ms[1].content == HistoryPrompt(RenderHistory(history))
    ensures HasDirectorInput(ms) <==> Truthy(userInput)
    ensures Truthy(userInput) ==> ms[|ms| - 2].content == DirectorInput(userInput.value)
    ensures |history| == 0 ==> ms[|ms| - 1].content == TopicPrompt(GenerateTopicPrompt(topic, customTopic))
    ensures |history| > 0 ==> ms[|ms| - 1].content == ContinuePrompt(Name(agent))
  {
    var system := ChatMessage(SystemRole, PersonaPrompt(agent));
    var past := ChatMessage(UserRole, HistoryPrompt(RenderHistory(history)));
    var input := ChatMessage(UserRole, DirectorInput(OrElse(userInput, "")));
    var last := if |history| == 0 then ChatMessage(UserRole, TopicPrompt(GenerateTopicPrompt(topic, customTopic)))
                else ChatMessage(UserRole, ContinuePrompt(Name(agent)));
    var ms := [system] + (if |history| > 0 then [past] else []) + (if Truthy(userInput) then [input] else []) + [last];
    assert |history| > 0 ==> ms[1] == past;
    assert Truthy(userInput) ==> ms[|ms| - 2] == input;
    ms
  }

  // ---------------------------------------------------------------------------
  // The generate-message route
  // ---------------------------------------------------------------------------

  /** The body of a `generate-message` request after defaults are applied. */
  datatype GenerateRequest = GenerateRequest(
    conversationHistory: seq<HistoryEntry>,
    lastSpeaker: Option<string>,
    userInput: Option<string>,
    topic: string,
    customTopic: Option<string>)

  const GenerateFailure: string := "Failed to generate message"

  /** The persona the handler makes speak. */
  function SpeakerFor(req: GenerateRequest): Persona {
    SelectSpeaker(req.conversationHistory, req.lastSpeaker)
  }

  /** The message list the handler sends to the language model. */
  function PromptFor(req: GenerateRequest): seq<ChatMessage> {
    ContextMessages(SpeakerFor(req), req.conversationHistory, req.userInput, req.topic, req.customTopic)
  }

  /** The route handler. `complete` is the language model: the generated text for a
      message list, or None when the call fails; `now` is the reply's timestamp. The reply
      names the selected speaker by key and display name and carries the trimmed text. */
  function HandleGenerate(req: GenerateRequest, complete: seq<ChatMessage> -> Option<string>, now: string): (r: ApiResponse)
    ensures r.success <==> complete(PromptFor(req)).Some?
    ensures r.success ==> r == ApiResponse(true, Some(Key(SpeakerFor(req))), Some(Name(SpeakerFor(req))),
                                           Some(Trim(complete(PromptFor(req)).value)), Some(now), None)
    ensures !r.success ==> r == ApiResponse(false, None, None, None, None, Some(GenerateFailure))
  {
    var speaker := SpeakerFor(req);
    var text := complete(PromptFor(req));
    if text.None? then ApiResponse(false, None, None, None, None, Some(GenerateFailure))
    else ApiResponse(true, Some(Key(speaker)), Some(Name(speaker)), Some(Trim(text.value)), Some(now), None)
  }

  /** A successful reply names a persona of the table, never `finance` or `user`: the opener
      for a fresh conversation, `realist` after a speaker that is not a persona. */
  lemma HandlerSpeaker(req: GenerateRequest, complete: seq<ChatMessage> -> Option<string>, now: string)
    requires HandleGenerate(req, complete, now).success
    ensures var r := HandleGenerate(req, complete, now);
      && r.agent.Some? && r.agent.value in AgentKeys
      && r.agent.value != "finance" && r.agent.value != "user"
      && (!Truthy(req.lastSpeaker) || |req.conversationHistory| == 0 ==> r.agent == Some("entrepreneur"))
      && (Truthy(req.lastSpeaker) && |req.conversationHistory| > 0 && req.lastSpeaker.value !in AgentKeys ==> r.agent == Some("realist"))
  {
    var p := SpeakerFor(req);
    assert HandleGenerate(req, complete, now).agent == Some(Key(p));
    SpeakerKey(req);
  }

  /** The key of the handler's speaker, independent of the model call. */
  lemma SpeakerKey(req: GenerateRequest)
    ensures var k := Key(SpeakerFor(req));
      && k in AgentKeys && k != "finance" && k != "user"
      && (!Truthy(req.lastSpeaker) || |req.conversationHistory| == 0 ==> k == "entrepreneur")
      && (Truthy(req.lastSpeaker) && |req.conversationHistory| > 0 && req.lastSpeaker.value !in AgentKeys ==> k == "realist")
  {
    AgentKeysAreKeys(Key(SpeakerFor(req)));
    UserAndFinanceAreNotKeys();
  }

  /** Opening a `saas` conversation: the opener speaks, and the model is asked with the
      SaaS seed prompt as the last message. */
  lemma SaasOpening(lastSpeaker: Option<string>, userInput: Option<string>)
    ensures SelectSpeaker([], lastSpeaker) == Opener
    ensures var prompt := ContextMessages(Opener, [], userInput, "saas", None);
      prompt[|prompt| - 1].content == TopicPrompt(Entry(Saas))
  {
    assert TopicKey(Saas) == "saas";
  }
}
