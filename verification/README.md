# BoardRoom decision layer in Dafny

BoardRoom is an "AI boardroom". Five AI personas take turns discussing how a startup can make money. A human "startup director" can pause the discussion, add input and resume it, and finished conversations are archived as logs.

This project models the pure decision layer of that system. The server side covers:

- which persona speaks next;
- which seed prompt opens a conversation;
- the ordered message list sent to the language model;
- what the `generate-message` route answers.

The client side covers:

- the conversation state machine;
- when a generation cycle may run and what it sends;
- when a reply becomes a message;
- which controls are visible;
- how archived logs are listed.

## Modules

| file | module | models |
|---|---|---|
| `js_values.dfy` | `JsValues` | JavaScript conventions the code relies on: null/undefined as `Option`, truthiness of strings, `a \|\| b`, `trim`, object-literal lookup, `indexOf` |
| `types.dfy` | `Types` | the message, log and API-reply records |
| `server.dfy` | `Server` | the persona table, `getNextAgent`, the opener rule, history rendering, `contextMessages`, the `generate-message` handler |
| `topics.dfy` | `Topics` | the topic table and `generateTopicPrompt` |
| `app.dfy` | `App` | the top-level client state and its transitions |
| `conversation_panel.dfy` | `ConversationPanel` | the generation guard, the request a cycle sends, reply acceptance, colour and icon lookup |
| `control_panel.dfy` | `ControlPanel` | control visibility, and the submit, pause and resume handlers |
| `logs_panel.dfy` | `LogsPanel` | log preview, read time, selection marking, placeholder and close button |
| `session.dfy` | `Session` | the client and the server together: actions dispatched only when their control is available, one generation cycle through the route, and the invariant that every live message is by the director or a persona of the server |

### Modelling choices

- **Personas and topics are datatypes.** `Key` and `TopicKey` map them to the table keys, in declaration order. Strings from the wire are mapped back to them, by `indexOf` over the key list for personas and by `FindTopic` for topics.
- **Prompt messages are tagged values.** They are not the literal prompt text:
  - the persona's system prompt is `PersonaPrompt(persona)`;
  - the history is `HistoryPrompt` of the exact rendered transcript;
  - the director's input is `DirectorInput(text)`;
  - the seed prompt is `TopicPrompt(seed)`, with `Topics.SeedText` giving its exact text;
  - the "continue" instruction is `ContinuePrompt(name)`.
- **External inputs are parameters.**
  - The language model is `complete: seq<ChatMessage> -> Option<string>`; `None` stands for any failure of the call.
  - Clock readings are parameters: `App.Clock` and the route's `now`.
  - Whether the HTTP request goes through at all is `delivered`.
- **Control handlers return their callbacks.** A handler of the control panel returns the callbacks it makes, in call order. `Session` runs those callbacks against the app.

### Behaviour reproduced as written

- **The server's persona table has no `finance` entry.** The client's colour and icon tables have `finance` but no `lisa`, so `lisa` is drawn with the default colour and icon (`Session.PersonaRendering`).
- **History lines are labelled `undefined`.** The server labels each history entry with its `speaker` field, which client messages do not have. Every history line the route renders for a client request therefore starts with `undefined: ` (`Session.ServerSeesUnlabelledHistory`).
- **An unknown last speaker is followed by `realist`.** `getNextAgent` finds `"user"` and `"finance"` at index -1, so `realist` speaks next.
- **Viewing a log drops the live conversation without archiving it.** It also leaves `lastSpeaker` as it was.
- **An empty log id reads as no selection.** `selectedLog?.id || null` turns an empty id into `null`.

## Model

| member | source | states |
|---|---|---|
| JsValues.Trim | client/src/components/ControlPanel.tsx:52-53 | the trimmed string has no whitespace at either end, and it is empty exactly when the input is all whitespace |
| JsValues.TrimIsInfix | client/src/components/ControlPanel.tsx:52-53 | trimming only removes whitespace from the two ends; the result is an infix of the input |
| JsValues.TrimOfPadded | server/index.js:72-73 | a trimmed text padded with whitespace on both sides trims back to the text |
| JsValues.TrimIdempotent | server/index.js:72-73 | trimming twice is trimming once |
| JsValues.IndexOf | server/index.js:48 | `indexOf` is -1 exactly for an absent key; otherwise it is the first position holding the key |
| JsValues.Lookup | client/src/components/ConversationPanel.tsx:89 | object lookup is undefined exactly for an absent key |
| JsValues.LookupFirst | client/src/components/ConversationPanel.tsx:89 | a present key finds the value of its first entry |
| JsValues.LookupDistinct | client/src/components/ConversationPanel.tsx:80-89 | in a table without repeated keys, every entry is found by its own key |
| Server.AgentKeysAreKeys | server/index.js:19-41 | a string is in the key list exactly when it is some persona's key |
| Server.UserAndFinanceAreNotKeys | server/index.js:19-41 | neither `user` nor `finance` is a persona key of the server |
| Server.KeyInjective | server/index.js:19-41 | no two personas share a key |
| Server.GetNextAgent | server/index.js:44-53 | after a persona's key comes its successor in declaration order (`lisa` wraps to `realist`); after any other id comes `realist` |
| Server.NextAgentIgnoresHistory | server/index.js:44-53 | the choice does not depend on the history |
| Server.NextAfterKey | server/index.js:45-52 | after each persona speaks, its successor follows |
| Server.TurnsFollowRotation | server/index.js:45-52 | any rule that agrees with the rotation at every persona agrees with it for any number of turns |
| Server.HandoverIsRotation | server/index.js:45-52 | the `indexOf`-based selector is exactly the declared rotation on personas |
| Server.FiveTurnsReturn | server/index.js:45-52 | five turns bring the floor back to the same persona |
| Server.SelectSpeaker | server/index.js:152-157 | the opener speaks when the last speaker is falsy or the history is empty; otherwise the selector's choice, which is `realist` after a non-persona id |
| Server.FromClientMessages | server/index.js:110 | the server reads one entry per client message, in order, with the content and no speaker |
| Server.Join | server/index.js:110 | definition of `join`: the parts in order with the separator between neighbours and none at either end; `Server.JoinAppend` states how it splits |
| Server.RenderHistory | server/index.js:110 | definition of the history message text: the fixed header, then the `join` of the history lines; `Server.RenderHistorySingle` and `Server.RenderHistorySnoc` state what it produces |
| Server.HistoryLine | server/index.js:110 | definition of one rendered history line, the speaker label, a colon and a space, then the content; `Server.HistoryLines`, `Server.RenderHistorySnoc` and `Server.ClientHistoryIsUnlabelled` state what follows |
| Server.HistoryLines | server/index.js:110 | one `speaker: content` line per history entry, in history order |
| Server.JoinAppend | server/index.js:110 | joining two non-empty runs of lines puts exactly one separator between them |
| Server.RenderHistorySingle | server/index.js:110 | a one-entry history renders as the header and that entry's line |
| Server.RenderHistorySnoc | server/index.js:110 | one more history entry adds a separator and its line at the end of the rendered history |
| Server.ClientHistoryIsUnlabelled | server/index.js:110 | every line rendered from client messages reads `undefined: ` followed by the content |
| Server.ContextMessages | server/index.js:85-128 | the system prompt comes first and every later message has the user role; a history message is present exactly when the history is non-empty; a director message is present exactly when the input is truthy; the last message is the seed for an empty history and the continue instruction otherwise; the count is 2 + [history] + [input] |
| Server.HandleGenerate | server/index.js:147-176 | the reply succeeds exactly when the model call does; it then names the selected persona by key and name, with the trimmed text and the timestamp; a failure carries only the failure text |
| Server.HandlerSpeaker | server/index.js:152-165 | a successful reply names a persona of the table, never `finance` or `user`: `entrepreneur` for a fresh conversation, `realist` after a non-persona id |
| Server.SpeakerKey | server/index.js:152-157 | the speaker the route picks is a persona of the table whatever the model does: the opener when the last speaker is falsy or the history empty, `realist` after a non-persona id |
| Server.SaasOpening | server/index.js:121-127 | a fresh `saas` conversation is opened by the opener, and the last message is the SaaS seed |
| Topics.SeedPromptsAreTruthy | server/index.js:56-76 | every table entry is a non-empty string, so the `general` fallback only applies to keys without an entry |
| Topics.FindTopic | server/index.js:76 | the lookup finds a topic whose key is the given key, and finds none when no topic has that key |
| Topics.TopicKeyInjective | server/index.js:56-68 | no two topics share a key |
| Topics.FindTopicByKey | server/index.js:56-76 | the lookup finds a topic exactly by that topic's key |
| Topics.CustomSeedQuotesText | server/index.js:73 | the custom template contains the topic text in full, right after its fixed opening |
| Topics.UsesCustomText | server/index.js:72 | definition of the override condition: topic `custom` with a custom text that is present and not blank after trimming; `Topics.GenerateTopicPrompt`, `Topics.CustomTextOnlyForCustomTopic` and `Topics.BlankCustomTopicKeepsCustomEntry` state what follows |
| Topics.GenerateTopicPrompt | server/index.js:71-77 | `custom` with a non-blank text gives the template around the trimmed text; otherwise the seed is the entry of the topic with that key, or `general` for an unknown key; a custom text in the template is never blank or padded |
| Topics.CustomTextOnlyForCustomTopic | server/index.js:72 | the custom text is ignored for every topic other than `custom` |
| Topics.CustomTextPaddingIgnored | server/index.js:72-73 | whitespace around the custom text does not change the seed |
| Topics.BlankCustomTopicKeepsCustomEntry | server/index.js:72-76 | `custom` with a missing or blank text gives the `custom` entry, not `general` |
| App.Initial | client/src/App.tsx:10-19 | the first state is idle and consistent and holds the stored logs |
| App.Start | client/src/App.tsx:38-44 | starting empties the transcript, forgets the last speaker, plays unpaused and closes any viewed log; logs and topic choice are kept |
| App.Pause | client/src/App.tsx:46-48 | pausing sets the pause flag and changes nothing else |
| App.Resume | client/src/App.tsx:50-52 | resuming clears the pause flag and changes nothing else |
| App.PauseResumeRoundTrip | client/src/App.tsx:46-52 | pausing and resuming undo each other |
| App.ArchiveLog | client/src/App.tsx:57-62 | the archived log holds a copy of the transcript and the clock's id and timestamp |
| App.Stop | client/src/App.tsx:54-70 | a non-empty transcript becomes one new log in front of the older ones, and an empty one adds nothing; the conversation is reset either way |
| App.AddMessage | client/src/App.tsx:72-75 | the message is appended after the untouched earlier ones and its author becomes the last speaker; nothing else changes |
| App.UserMessage | client/src/App.tsx:78-84 | the director's message has id `user`, name `Startup Director` and the input as content |
| App.AddUserInput | client/src/App.tsx:77-86 | adding input appends exactly the director's message (author `user`, the typed text), so the director is the last speaker, and nothing else changes |
| App.ViewLog | client/src/App.tsx:88-93 | viewing selects the log and stops and clears the live conversation, without archiving it; logs and last speaker are kept |
| App.ClearViewLog | client/src/App.tsx:95-97 | closing the view only clears the selection |
| App.SelectTopic | client/src/App.tsx:158 | choosing a topic changes only the topic |
| App.EditCustomTopic | client/src/App.tsx:160 | typing a custom topic changes only the custom text |
| App.Displayed | client/src/App.tsx:135 | the panel shows the viewed log's messages when a log is viewed, else the live transcript |
| App.ControlsDisabled | client/src/App.tsx:156 | definition: the control panel is disabled exactly while a log is viewed (`!!selectedLog`); `Session.ViewingLogLocksControls` states what that locks |
| App.SelectedLogId | client/src/App.tsx:170 | the logs panel gets the viewed log's id, or null when nothing is viewed or the id is empty |
| App.ViewThenClearIsIdle | client/src/App.tsx:88-97 | viewing a log and closing it leaves an idle, enabled board with the archive untouched |
| App.AddMessagesAppends | client/src/App.tsx:72-75 | appending a run of messages extends the transcript by exactly that run, and the last of them is the last speaker |
| App.SessionArchivesTranscript | client/src/App.tsx:38-75 | start, then messages, then stop archives exactly those messages in front of the older logs |
| App.TransitionsKeepConsistent | client/src/App.tsx:38-97 | every transition keeps the invariant (paused implies playing; a viewed log implies not playing and an empty transcript; the last speaker is the last message's author), pausing only while playing and appending only while no log is viewed |
| ConversationPanel.Acceptable | client/src/components/ConversationPanel.tsx:54 | definition of the acceptance test: a reply is accepted when it succeeded and its agent, agent name and text are all non-empty; `ConversationPanel.EndCycle` and `Session.FetchedAcceptable` state what follows |
| ConversationPanel.MayGenerate | client/src/components/ConversationPanel.tsx:41 | definition of the effect's guard: a cycle may start only while playing, not paused, not viewing a log and not already generating; `Session.GenerationCycle` states that nothing happens without it |
| ConversationPanel.ForwardedUserInput | client/src/components/ConversationPanel.tsx:49-50 | the input sent is the last message's content exactly when the director wrote the last message, else null |
| ConversationPanel.ForwardedCustomTopic | client/src/components/ConversationPanel.tsx:52 | the custom text is sent exactly when the topic is `custom` |
| ConversationPanel.BuildRequest | client/src/components/ConversationPanel.tsx:49-52 | the request carries the messages, the last speaker, the topic, the forwarded input and the forwarded custom text |
| ConversationPanel.NewMessage | client/src/components/ConversationPanel.tsx:55-61 | the new message copies the reply's speaker, name and text, and uses the reply's timestamp when present, else the current time |
| ConversationPanel.BeginCycle | client/src/components/ConversationPanel.tsx:44-45 | a cycle starts by marking itself as generating and clearing the error |
| ConversationPanel.EndCycle | client/src/components/ConversationPanel.tsx:54-72 | exactly one message is appended exactly when the reply succeeded with a speaker, a name and a non-empty text; otherwise the matching error is set; generation always ends |
| ConversationPanel.CycleOutcome | client/src/components/ConversationPanel.tsx:44-72 | after a whole cycle an error shows exactly when nothing was appended, and it is one of the two error texts |
| ConversationPanel.RenderTablesFacts | client/src/components/ConversationPanel.tsx:80-102 | both tables have the same six keys, none repeated, and no entry is empty or equal to the default |
| ConversationPanel.AgentColor | client/src/components/ConversationPanel.tsx:80-90 | a known id gets its table colour; the default colour is given exactly to ids outside the table |
| ConversationPanel.AgentIcon | client/src/components/ConversationPanel.tsx:92-102 | a known id gets its table icon; the default icon is given exactly to ids outside the table |
| ControlPanel.Submit | client/src/components/ControlPanel.tsx:50-58 | a blank text changes nothing; otherwise the trimmed text goes to the app before the resume call, and the field is cleared and closed |
| ControlPanel.HandlePause | client/src/components/ControlPanel.tsx:60-63 | pausing calls the app's pause and opens the input section, keeping the typed text |
| ControlPanel.HandleResume | client/src/components/ControlPanel.tsx:65-68 | resuming, including Skip & Resume, closes the input section and calls the app's resume, keeping the typed text |
| ControlPanel.EditInput | client/src/components/ControlPanel.tsx:154 | typing changes only the text |
| ControlPanel.ShowsTopicSelection | client/src/components/ControlPanel.tsx:72 | definition: the topic selector shows only while no conversation plays |
| ControlPanel.ShowsCustomTopicField | client/src/components/ControlPanel.tsx:72-89 | definition: the custom-topic field shows inside the topic selection, and only for topic `custom` |
| ControlPanel.ShowsStart | client/src/components/ControlPanel.tsx:106 | definition: Start shows while nothing plays |
| ControlPanel.ShowsPause | client/src/components/ControlPanel.tsx:116 | definition: Pause shows while playing and not paused |
| ControlPanel.ShowsResume | client/src/components/ControlPanel.tsx:126 | definition: Resume shows while playing and paused |
| ControlPanel.ShowsStop | client/src/components/ControlPanel.tsx:136 | definition: Stop shows while playing |
| ControlPanel.ShowsInputSection | client/src/components/ControlPanel.tsx:147 | definition: the input section shows when the panel has opened it and the app is paused |
| ControlPanel.SubmitDisabled | client/src/components/ControlPanel.tsx:163 | definition: the submit button is disabled while the typed text trims to nothing; `ControlPanel.SubmitButtonMatchesHandler` relates it to the handler |
| ControlPanel.ShowsDisabledNotice | client/src/components/ControlPanel.tsx:179 | definition: the notice shows while the panel is disabled; `Session.ViewingLogLocksControls` states when that is |
| ControlPanel.ExactlyOnePlayControl | client/src/components/ControlPanel.tsx:106-144 | for every pair of flags exactly one of Start, Pause and Resume is shown, and Stop is shown exactly when Start is not |
| ControlPanel.SubmitButtonMatchesHandler | client/src/components/ControlPanel.tsx:160-166 | the submit button is disabled exactly when submitting would do nothing |
| ControlPanel.SubmitIgnoresPadding | client/src/components/ControlPanel.tsx:52-53 | whitespace around the typed text does not change what is submitted |
| ControlPanel.SubmittedTextIsTrimmed | client/src/components/ControlPanel.tsx:52-53 | the text handed to the app is non-empty and trimmed |
| LogsPanel.LogPreview | client/src/components/LogsPanel.tsx:26-35 | an empty log previews as `Empty conversation`; a first message of at most 80 characters is shown whole; a longer one is cut to its first 80 characters followed by `...`, 83 in all |
| LogsPanel.PreviewBounded | client/src/components/LogsPanel.tsx:26-35 | no preview is longer than 83 characters, and a non-empty log's preview begins with its first message up to the cut |
| LogsPanel.ReadTime | client/src/components/LogsPanel.tsx:75 | read time is the least number of minutes whose five-message slots cover the messages |
| LogsPanel.ReadTimeIsCeiling | client/src/components/LogsPanel.tsx:75 | no smaller covering number exists; 0 messages take 0 minutes and 1 to 5 take one |
| LogsPanel.ReadTimeMonotone | client/src/components/LogsPanel.tsx:75 | more messages never take less time |
| LogsPanel.IsSelected | client/src/components/LogsPanel.tsx:57 | definition: a log is marked when its id equals the selected id, and never when the selected id is null |
| LogsPanel.ShowsCloseButton | client/src/components/LogsPanel.tsx:41 | definition: the close button shows while the selected id is truthy, so not for an empty id |
| LogsPanel.ShowsPlaceholder | client/src/components/LogsPanel.tsx:48 | definition: the placeholder shows when there are no logs |
| LogsPanel.PlaceholderExactlyWithoutItems | client/src/components/LogsPanel.tsx:48-92 | the placeholder and the list exclude each other: the placeholder shows exactly when the list has no entries |
| LogsPanel.LogItems | client/src/components/LogsPanel.tsx:55-90 | one entry per log in list order, with its count, read time and preview, marked exactly when its id is the selected id |
| LogsPanel.SelectionMarksAtMostOne | client/src/components/LogsPanel.tsx:57 | nothing is marked without a selected id, and with distinct ids at most one entry is marked |
| Session.InitialUi | client/src/App.tsx:10-19 | the client starts consistent, not generating, with the input section closed, and with an empty live transcript, so every author is known |
| Session.ApplyTwoCallbacks | client/src/components/ControlPanel.tsx:53-56 | two callbacks run in the order they were made |
| Session.SubmitAddsInputThenResumes | client/src/components/ControlPanel.tsx:50-58 | submitting appends the trimmed input to the transcript and then resumes, so the director is the last speaker |
| Session.Available | client/src/components/ControlPanel.tsx:105-172 | definition of which actions the director can take: a control-panel action only while its control is on screen and, except in the input section, not disabled; opening any archived log; closing while the close button shows |
| Session.Dispatch | client/src/components/ControlPanel.tsx:105-172 | definition of each action's effect: Start, Stop, the topic controls and the logs panel call the app directly; Pause, Resume, Skip & Resume and submit go through the panel's handlers, whose callbacks run in call order |
| Session.ViewingLogLocksControls | client/src/components/ControlPanel.tsx:179 | the disabled notice shows exactly while a log is viewed, and then no control-panel action is available: only opening or closing a log remains |
| Session.DispatchKeepsConsistent | client/src/components/ControlPanel.tsx:105-183 | every action whose control is shown and enabled keeps the app's invariant |
| Session.Fetched | client/src/services/api.ts:12-39 | the client sees a success exactly when the request went through and the route succeeded, and then sees the route's reply |
| Session.GenerationCycle | client/src/components/ConversationPanel.tsx:40-76 | without the guard nothing changes; with it the cycle ends not generating and leaves the controls alone |
| Session.CycleAppendsReply | client/src/components/ConversationPanel.tsx:40-76 | a cycle appends exactly one message, with the selected persona, the trimmed model text and the route's timestamp, exactly when the request goes through and the text is not blank; otherwise the transcript is unchanged and the failure text shows |
| Session.FetchedAcceptable | client/src/components/ConversationPanel.tsx:52-54 | the fetched reply passes the client's acceptance test exactly when the request goes through and the model text is not blank, and an accepted reply is the route's success record for the selected persona |
| Session.CycleKeepsConsistent | client/src/components/ConversationPanel.tsx:54-63 | a cycle keeps the app's invariant |
| Session.AddMessageKeepsKnownAuthors | client/src/App.tsx:73 | appending a message by the director or a persona keeps every author of the live transcript known |
| Session.CallbacksKeepKnownAuthors | client/src/App.tsx:73-86 | any run of control-panel callbacks keeps every author known: the only message a callback adds is the director's |
| Session.DispatchKeepsKnownAuthors | client/src/App.tsx:38-97 | every action, available or not, keeps every message of the live transcript authored by `user` or by a persona key of the server |
| Session.DirectActionsKeepKnownAuthors | client/src/App.tsx:38-97 | an action wired straight to the app either empties the live transcript or leaves it as it was |
| Session.CycleKeepsKnownAuthors | server/index.js:162-170 | a generation cycle keeps every author known: the reply it appends names a persona key of the server's table |
| Session.ConversationOpensWithOpener | server/index.js:152-157 | after Start the first cycle may run, forwards no input, makes the entrepreneur speak and ends its prompt with the selected topic's seed |
| Session.DirectorInputThenRealist | server/index.js:44-53 | after the director submits input, the next cycle may run, forwards the trimmed input, and the realist answers |
| Session.RepliesFollowRotation | server/index.js:44-53 | while no one interrupts, each reply comes from the successor of the previous speaker |
| Session.BlankReplyIsRejected | server/index.js:137 | a whitespace-only model text is trimmed to nothing by the route and rejected by the client, so nothing is appended |
| Session.ServerSeesUnlabelledHistory | server/index.js:110 | the route labels every message of a live client transcript `undefined` |
| Session.PersonaRendering | client/src/components/ConversationPanel.tsx:80-102 | `lisa` is the only server persona drawn with the default colour and the default icon |

## Left out

- **The language-model call** (server/index.js:130-137). The model, `max_tokens` and the temperature are outside the model. The call is the parameter `complete`; a missing `content`, which makes `.trim()` throw, is one of its `None` results.
- **The persona system prompts and the content guidelines** (server/index.js:19-41, 87-104). They appear only as the tag `PersonaPrompt(persona)`. The director-input and "continue" sentences appear only as the tags `DirectorInput` and `ContinuePrompt`.
- **Express plumbing and the side routes.** This covers CORS, `app.listen`, the health route and the `agents` and `topics` routes (server/index.js:1-16, 179-207).
- **Request-body defaults** (server/index.js:149). `GenerateRequest` holds the values after the defaults are applied. A body field of a non-string type is not modelled.
- **The HTTP client** (client/src/services/api.ts). Only its outcome is modelled, by `Session.Fetched`. The client always sees a failure record when the route fails, because a status-500 answer is thrown and caught there. `ConversationPanel.EndCycle` still covers the `catch` branch of the panel.
- **localStorage and JSON** (client/src/App.tsx:22-36). The stored logs are a parameter of `App.Initial`.
- **The landing page and the logs overlay toggle** (client/src/App.tsx:99-125, 165-180). Logs can be opened from the current archive at any time; the overlay's visibility is not modelled.
- **React scheduling.** One generation cycle is one atomic transition, and it runs only while the panel is not generating. A reply that resolves after the conversation was stopped, or after a log was opened, is not modelled. Neither is a reply that resolves after Pause or after the director's submit: such a reply can land after the director's message, so the next request forwards no input and `realist` need not speak next. `Session.DirectorInputThenRealist` assumes no cycle is in flight.
- **Clocks and locale formatting.** `Date.now()`, ISO timestamps, `toLocaleDateString`/`toLocaleTimeString` and `formatDate` in the logs panel are not modelled; their values are parameters (`App.Clock`, `serverNow`).
- **Unicode whitespace and UTF-16 lengths.** `trim` removes a fixed set of whitespace characters: space, tab, line feed, carriage return, vertical tab, form feed, no-break space and the byte-order mark. Lengths count `char`s, not UTF-16 code units.
- **Prototype keys in object lookups.** A topic such as `toString` would find an inherited property in JavaScript; the model treats the tables as plain maps.
- **Purely presentational markup.** The headings, status lines, live indicator and typing indicator of the panels are not modelled, nor are AvatarDisplay, ConversationStage and the persona data file.
- **Server.ContextMessages takes a `Persona`**, not an arbitrary key. The handler only ever passes a key of the table, so the lookup of an unknown key in `generateAgentResponse` is not modelled.
