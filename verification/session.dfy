/**
  The client and the server together. A user action is dispatched only when its control
  is on screen and enabled; a generation cycle sends the live transcript to the
  `generate-message` handler and hands an acceptable reply to the app. The language
  model is the parameter `complete`, as in the server module; whether the HTTP request
  goes through at all is the parameter `delivered`.
 */
module Session {
  import opened JsValues
  import opened Types
  import opened Topics
  import Server
  import App
  import ConversationPanel
  import ControlPanel
  import LogsPanel

  /** The whole client: the app's state and the two panels' own state. */
  datatype Ui = Ui(app: App.AppState, panel: ConversationPanel.PanelState, controls: ControlPanel.ControlState)

  /** The client on first render, with the logs loaded from storage. */
  function InitialUi(stored: seq<Log>): (u: Ui)
    ensures App.Consistent(u.app) && !u.panel.isGenerating && !u.controls.showUserInput
    ensures KnownAuthors(u.app)
  {
    Ui(App.Initial(stored), ConversationPanel.InitialPanel, ControlPanel.InitialControls)
  }

  /** One callback of the control panel, run by the app. */
  function ApplyCallback(s: App.AppState, c: ControlPanel.Callback, clock: App.Clock): App.AppState {
    match c
    case UserInput(text) => App.AddUserInput(s, text, clock)
    case PauseCall => App.Pause(s)
    case ResumeCall => App.Resume(s)
  }

  /** The callbacks of one handler, run in call order. */
  function ApplyCallbacks(s: App.AppState, calls: seq<ControlPanel.Callback>, clock: App.Clock): App.AppState
    decreases |calls|
  {
    if |calls| == 0 then s else ApplyCallbacks(ApplyCallback(s, calls[0], clock), calls[1..], clock)
  }

  /** Something the director can do. */
  datatype Action =
    | PressStart | PressPause | PressResume | PressSkip | PressStop | PressSubmit
    | TypeInput(text: string) | ChooseTopic(topic: string) | TypeCustomTopic(text: string)
    | OpenLog(log: Log) | CloseLog

  /** The action's control is on screen and not disabled. */
  predicate Available(u: Ui, a: Action) {
    var disabled := App.ControlsDisabled(u.app);
    var playing := u.app.isPlaying;
    var paused := u.app.isPaused;
    match a
    case PressStart => ControlPanel.ShowsStart(playing) && !disabled
    case PressPause => ControlPanel.ShowsPause(playing, paused) && !disabled
    case PressResume => ControlPanel.ShowsResume(playing, paused) && !disabled
    case PressSkip => ControlPanel.ShowsInputSection(u.controls, paused)
    case PressStop => ControlPanel.ShowsStop(playing) && !disabled
    case PressSubmit => ControlPanel.ShowsInputSection(u.controls, paused) && !ControlPanel.SubmitDisabled(u.controls)
    case TypeInput(_) => ControlPanel.ShowsInputSection(u.controls, paused)
    case ChooseTopic(_) => ControlPanel.ShowsTopicSelection(playing) && !disabled
    case TypeCustomTopic(_) => ControlPanel.ShowsCustomTopicField(playing, u.app.selectedTopic) && !disabled
    case OpenLog(log) => log in u.app.logs
    case CloseLog => LogsPanel.ShowsCloseButton(App.SelectedLogId(u.app))
  }

  /** Runs a control-panel handler: its new panel state, and its callbacks applied to the app. */
  function RunHandler(u: Ui, h: ControlPanel.Handled, clock: App.Clock): Ui {
    u.(app := ApplyCallbacks(u.app, h.calls, clock), controls := h.state)
  }

  /** The effect of an action. */
  function Dispatch(u: Ui, a: Action, clock: App.Clock): Ui {
    match a
    case PressStart => u.(app := App.Start(u.app))
    case PressPause => RunHandler(u, ControlPanel.HandlePause(u.controls), clock)
    case PressResume => RunHandler(u, ControlPanel.HandleResume(u.controls), clock)
    case PressSkip => RunHandler(u, ControlPanel.HandleResume(u.controls), clock)
    case PressStop => u.(app := App.Stop(u.app, clock))
    case PressSubmit => RunHandler(u, ControlPanel.Submit(u.controls), clock)
    case TypeInput(text) => u.(controls := ControlPanel.EditInput(u.controls, text))
    case ChooseTopic(topic) => u.(app := App.SelectTopic(u.app, topic))
    case TypeCustomTopic(text) => u.(app := App.EditCustomTopic(u.app, text))
    case OpenLog(log) => u.(app := App.ViewLog(u.app, log))
    case CloseLog => u.(app := App.ClearViewLog(u.app))
  }

  /** Two callbacks run one after the other. */
  lemma ApplyTwoCallbacks(s: App.AppState, a: ControlPanel.Callback, b: ControlPanel.Callback, clock: App.Clock)
    ensures ApplyCallbacks(s, [a, b], clock) == ApplyCallback(ApplyCallback(s, a, clock), b, clock)
  {
    var s1 := ApplyCallback(s, a, clock);
    assert [a, b][1..] == [b];
    assert ApplyCallbacks(s, [a, b], clock) == ApplyCallbacks(s1, [b], clock);
    assert [b][1..] == [];
    assert ApplyCallbacks(s1, [b], clock) == ApplyCallbacks(ApplyCallback(s1, b, clock), [], clock);
  }

  /** While a log is viewed the disabled notice shows and no control of the control panel
      can be used: only the logs panel still acts. */
  lemma ViewingLogLocksControls(u: Ui)
    requires App.Consistent(u.app)
    ensures ControlPanel.ShowsDisabledNotice(App.ControlsDisabled(u.app)) <==> u.app.selectedLog.Some?
    ensures u.app.selectedLog.Some? ==> forall a :: Available(u, a) ==> a.OpenLog? || a.CloseLog?
  {
  }

  /** Submitting the director's input appends it to the transcript, trimmed, and resumes
      the conversation; the director is then the last speaker. */
  lemma SubmitAddsInputThenResumes(u: Ui, clock: App.Clock)
    requires Available(u, PressSubmit)
    ensures var r := Dispatch(u, PressSubmit, clock);
      && r.app == App.Resume(App.AddUserInput(u.app, Trim(u.controls.userInputText), clock))
      && r.app.lastSpeaker == Some(UserAgentId)
      && !r.app.isPaused && !r.controls.showUserInput && r.controls.userInputText == ""
  {
    var text := Trim(u.controls.userInputText);
    var h := ControlPanel.Submit(u.controls);
    assert h.calls == [ControlPanel.UserInput(text), ControlPanel.ResumeCall];
    assert h.state == ControlPanel.ControlState("", false);
    ApplyTwoCallbacks(u.app, ControlPanel.UserInput(text), ControlPanel.ResumeCall, clock);
  }

  /** Every available action keeps the app's invariant. */
  lemma DispatchKeepsConsistent(u: Ui, a: Action, clock: App.Clock)
    requires App.Consistent(u.app) && Available(u, a)
    ensures App.Consistent(Dispatch(u, a, clock).app)
  {
    var s := u.app;
    var m := App.UserMessage("", clock);
    var log := App.ArchiveLog([], clock);
    match a
    case PressSubmit =>
      var text := Trim(u.controls.userInputText);
      var s1 := App.AddUserInput(s, text, clock);
      SubmitAddsInputThenResumes(u, clock);
      App.TransitionsKeepConsistent(s, m, text, log, clock, "");
      App.TransitionsKeepConsistent(s1, m, text, log, clock, "");
    case PressPause =>
      assert Dispatch(u, a, clock).app == App.Pause(s) by {
        assert [ControlPanel.PauseCall][1..] == [];
      }
      App.TransitionsKeepConsistent(s, m, "", log, clock, "");
    case PressResume =>
      assert Dispatch(u, a, clock).app == App.Resume(s) by {
        assert [ControlPanel.ResumeCall][1..] == [];
      }
      App.TransitionsKeepConsistent(s, m, "", log, clock, "");
    case PressSkip =>
      assert Dispatch(u, a, clock).app == App.Resume(s) by {
        assert [ControlPanel.ResumeCall][1..] == [];
      }
      App.TransitionsKeepConsistent(s, m, "", log, clock, "");
    case ChooseTopic(topic) =>
      App.TransitionsKeepConsistent(s, m, "", log, clock, topic);
    case TypeCustomTopic(text) =>
      App.TransitionsKeepConsistent(s, m, "", log, clock, text);
    case OpenLog(l) =>
      App.TransitionsKeepConsistent(s, m, "", l, clock, "");
    case _ =>
      App.TransitionsKeepConsistent(s, m, "", log, clock, "");
  }

  // ---------------------------------------------------------------------------
  // One generation cycle
  // ---------------------------------------------------------------------------

  /** The panel's guard, read from the client's state. */
  predicate CanGenerate(u: Ui) {
    ConversationPanel.MayGenerate(u.app.isPlaying, u.app.isPaused, u.app.selectedLog.Some?, u.panel.isGenerating)
  }

  /** The request a cycle makes from the messages on screen and the app's topic choice. */
  function CycleRequest(s: App.AppState): ConversationPanel.ClientRequest {
    ConversationPanel.BuildRequest(App.Displayed(s), s.lastSpeaker, s.selectedTopic, s.customTopic)
  }

  /** The request body as the route reads it. */
  function ServerRequest(q: ConversationPanel.ClientRequest): Server.GenerateRequest {
    Server.GenerateRequest(Server.FromClientMessages(q.messages), q.lastSpeaker, q.userInput, q.topic, q.customTopic)
  }

  /** The status line the client reports when the route answers with an error status. */
  const HttpFailure: string := "HTTP error! status: 500"

  /** What `generateMessage` resolves to: the route's reply when it succeeded; a failure
      record when the route failed (it answers with status 500) or the request did not go
      through. */
  function Fetched(s: App.AppState, complete: seq<Server.ChatMessage> -> Option<string>, serverNow: string,
                   delivered: bool, transportError: string): (r: ApiResponse)
    ensures r.success <==> delivered && Server.HandleGenerate(ServerRequest(CycleRequest(s)), complete, serverNow).success
    ensures r.success ==> r == Server.HandleGenerate(ServerRequest(CycleRequest(s)), complete, serverNow)
  {
    var reply := Server.HandleGenerate(ServerRequest(CycleRequest(s)), complete, serverNow);
    if !delivered then ApiResponse(false, None, None, None, None, Some(transportError))
    else if reply.success then reply
    else ApiResponse(false, None, None, None, None, Some(HttpFailure))
  }

  /** One run of the generation effect: nothing when the guard fails; otherwise the reply
      is either appended as one message or turned into an error, and generation ends. */
  function GenerationCycle(u: Ui, complete: seq<Server.ChatMessage> -> Option<string>, serverNow: string,
                           delivered: bool, transportError: string, clock: App.Clock): (r: Ui)
    ensures !CanGenerate(u) ==> r == u
    ensures CanGenerate(u) ==> !r.panel.isGenerating && r.controls == u.controls
  {
    if !CanGenerate(u) then u
    else
      var reply := Fetched(u.app, complete, serverNow, delivered, transportError);
      var res := ConversationPanel.EndCycle(ConversationPanel.BeginCycle(u.panel), ConversationPanel.Responded(reply),
                                            clock.nowMillis, clock.nowIso);
      var app := if res.appended.Some? then App.AddMessage(u.app, res.appended.value) else u.app;
      Ui(app, res.panel, u.controls)
  }

  /** The text the language model returns for the cycle's prompt, if any. */
  function ModelText(s: App.AppState, complete: seq<Server.ChatMessage> -> Option<string>): Option<string> {
    complete(Server.PromptFor(ServerRequest(CycleRequest(s))))
  }

  /** The persona the route makes speak in the cycle. */
  function CycleSpeaker(s: App.AppState): Server.Persona {
    Server.SpeakerFor(ServerRequest(CycleRequest(s)))
  }

  /** A cycle appends exactly one message when the request goes through and the model
      returns text that is not blank; the message names the selected persona and carries
      the trimmed text and the route's timestamp. Otherwise the transcript is unchanged and
      the failure message is shown. */
  lemma CycleAppendsReply(u: Ui, complete: seq<Server.ChatMessage> -> Option<string>, serverNow: string,
                          delivered: bool, transportError: string, clock: App.Clock)
    requires CanGenerate(u)
    ensures var r := GenerationCycle(u, complete, serverNow, delivered, transportError, clock);
      var text := ModelText(u.app, complete);
      var p := CycleSpeaker(u.app);
      if delivered && text.Some? && Trim(text.value) != "" then
        r.app == App.AddMessage(u.app, Message(clock.nowMillis, Server.Key(p), Server.Name(p), Trim(text.value),
                                               OrElse(Some(serverNow), clock.nowIso)))
        && r.panel.error.None?
      else
        r.app == u.app && r.panel.error == Some(ConversationPanel.RejectedError)
  {
    var reply := Fetched(u.app, complete, serverNow, delivered, transportError);
    FetchedAcceptable(u.app, complete, serverNow, delivered, transportError);
    var res := ConversationPanel.EndCycle(ConversationPanel.BeginCycle(u.panel), ConversationPanel.Responded(reply),
                                          clock.nowMillis, clock.nowIso);
    assert GenerationCycle(u, complete, serverNow, delivered, transportError, clock)
        == Ui(if res.appended.Some? then App.AddMessage(u.app, res.appended.value) else u.app, res.panel, u.controls);
  }

  /** The client accepts the fetched reply exactly when the request goes through and the
      model's text is not blank; the accepted reply is the route's success record. */
  lemma FetchedAcceptable(s: App.AppState, complete: seq<Server.ChatMessage> -> Option<string>, serverNow: string,
                          delivered: bool, transportError: string)
    ensures var reply := Fetched(s, complete, serverNow, delivered, transportError);
      var text := ModelText(s, complete);
      var p := CycleSpeaker(s);
      && (ConversationPanel.Acceptable(reply) <==> delivered && text.Some? && Trim(text.value) != "")
      && (ConversationPanel.Acceptable(reply) ==>
            reply == ApiResponse(true, Some(Server.Key(p)), Some(Server.Name(p)), Some(Trim(text.value)), Some(serverNow), None))
  {
    Server.NameIsTruthy(CycleSpeaker(s));
    Server.KeyIsTruthy(CycleSpeaker(s));
  }

  /** A cycle keeps the app's invariant. */
  lemma CycleKeepsConsistent(u: Ui, complete: seq<Server.ChatMessage> -> Option<string>, serverNow: string,
                             delivered: bool, transportError: string, clock: App.Clock)
    requires App.Consistent(u.app)
    ensures App.Consistent(GenerationCycle(u, complete, serverNow, delivered, transportError, clock).app)
  {
    if CanGenerate(u) {
      var r := GenerationCycle(u, complete, serverNow, delivered, transportError, clock);
      if r.app != u.app {
        var m := r.app.transcript[|r.app.transcript| - 1];
        assert r.app == App.AddMessage(u.app, m);
        App.TransitionsKeepConsistent(u.app, m, "", App.ArchiveLog([], clock), clock, "");
      }
    }
  }

  // ---------------------------------------------------------------------------
  // Who writes the live transcript
  // ---------------------------------------------------------------------------

  /** An author id of the live transcript: the director or a persona of the server's table. */
  predicate KnownAuthor(id: string) {
    id == UserAgentId || id in Server.AgentKeys
  }

  /** Every message of the live transcript was written by the director or by a persona. */
  predicate KnownAuthors(s: App.AppState) {
    forall k :: 0 <= k < |s.transcript| ==> KnownAuthor(s.transcript[k].agentId)
  }

  /** Appending a message by a known author keeps every author known. */
  lemma AddMessageKeepsKnownAuthors(s: App.AppState, m: Message)
    requires KnownAuthors(s) && KnownAuthor(m.agentId)
    ensures KnownAuthors(App.AddMessage(s, m))
  {
    var r := App.AddMessage(s, m);
    forall k | 0 <= k < |r.transcript|
      ensures KnownAuthor(r.transcript[k].agentId)
    {
      if k < |s.transcript| {
        assert r.transcript[k] == r.transcript[..|s.transcript|][k];
      }
    }
  }

  /** Any run of control-panel callbacks keeps the authors of the live transcript known:
      the only message a callback adds is the director's. */
  lemma {:induction false} CallbacksKeepKnownAuthors(s: App.AppState, calls: seq<ControlPanel.Callback>, clock: App.Clock)
    requires KnownAuthors(s)
    ensures KnownAuthors(ApplyCallbacks(s, calls, clock))
    decreases |calls|
  {
    if |calls| > 0 {
      if calls[0].UserInput? {
        AddMessageKeepsKnownAuthors(s, App.UserMessage(calls[0].text, clock));
      }
      CallbacksKeepKnownAuthors(ApplyCallback(s, calls[0], clock), calls[1..], clock);
    }
  }

  /** Every action, available or not, keeps the authors of the live transcript known. */
  lemma DispatchKeepsKnownAuthors(u: Ui, a: Action, clock: App.Clock)
    requires KnownAuthors(u.app)
    ensures KnownAuthors(Dispatch(u, a, clock).app)
  {
    match a
    case PressPause =>
      CallbacksKeepKnownAuthors(u.app, ControlPanel.HandlePause(u.controls).calls, clock);
    case PressResume =>
      CallbacksKeepKnownAuthors(u.app, ControlPanel.HandleResume(u.controls).calls, clock);
    case PressSkip =>
      CallbacksKeepKnownAuthors(u.app, ControlPanel.HandleResume(u.controls).calls, clock);
    case PressSubmit =>
      CallbacksKeepKnownAuthors(u.app, ControlPanel.Submit(u.controls).calls, clock);
    case _ =>
      DirectActionsKeepKnownAuthors(u, a, clock);
  }

  /** The actions wired straight to the app start from an empty transcript or leave it alone. */
  lemma DirectActionsKeepKnownAuthors(u: Ui, a: Action, clock: App.Clock)
    requires !(a.PressPause? || a.PressResume? || a.PressSkip? || a.PressSubmit?)
    ensures Dispatch(u, a, clock).app.transcript == [] || Dispatch(u, a, clock).app.transcript == u.app.transcript
  {
  }

  /** A generation cycle keeps the authors of the live transcript known: a reply it appends
      names a persona of the server's table. */
  lemma CycleKeepsKnownAuthors(u: Ui, complete: seq<Server.ChatMessage> -> Option<string>, serverNow: string,
                               delivered: bool, transportError: string, clock: App.Clock)
    requires KnownAuthors(u.app)
    ensures KnownAuthors(GenerationCycle(u, complete, serverNow, delivered, transportError, clock).app)
  {
    if CanGenerate(u) {
      CycleAppendsReply(u, complete, serverNow, delivered, transportError, clock);
      var text := ModelText(u.app, complete);
      if delivered && text.Some? && Trim(text.value) != "" {
        var p := CycleSpeaker(u.app);
        Server.AgentKeysAreKeys(Server.Key(p));
        AddMessageKeepsKnownAuthors(u.app, Message(clock.nowMillis, Server.Key(p), Server.Name(p), Trim(text.value),
                                                   OrElse(Some(serverNow), clock.nowIso)));
      }
    }
  }

  /** A new conversation opens with the entrepreneur, prompted with the seed of the
      selected topic. */
  lemma ConversationOpensWithOpener(u: Ui)
    requires !u.panel.isGenerating && !App.ControlsDisabled(u.app)
    ensures var s := App.Start(u.app);
      && CanGenerate(u.(app := s))
      && CycleSpeaker(s) == Server.Opener
      && CycleRequest(s).userInput.None?
      && var prompt := Server.PromptFor(ServerRequest(CycleRequest(s)));
         prompt[|prompt| - 1].content
           == Server.TopicPrompt(GenerateTopicPrompt(s.selectedTopic, ConversationPanel.ForwardedCustomTopic(s.selectedTopic, s.customTopic)))
  {
  }

  /** After the director's input the realist answers, and the input is forwarded. */
  lemma DirectorInputThenRealist(u: Ui, clock: App.Clock)
    requires App.Consistent(u.app) && Available(u, PressSubmit) && !u.panel.isGenerating
    ensures var r := Dispatch(u, PressSubmit, clock);
      && CanGenerate(r)
      && CycleRequest(r.app).userInput == Some(Trim(u.controls.userInputText))
      && CycleSpeaker(r.app) == Server.Realist
  {
    var text := Trim(u.controls.userInputText);
    var r := Dispatch(u, PressSubmit, clock);
    SubmitAddsInputThenResumes(u, clock);
    assert r.app.transcript[|r.app.transcript| - 1] == App.UserMessage(text, clock);
    Server.UserAndFinanceAreNotKeys();
  }

  /** While no one interrupts, each reply comes from the successor of the previous speaker. */
  lemma RepliesFollowRotation(u: Ui, complete: seq<Server.ChatMessage> -> Option<string>, serverNow: string,
                              clock: App.Clock, p: Server.Persona)
    requires App.Consistent(u.app) && CanGenerate(u)
    requires u.app.lastSpeaker == Some(Server.Key(p)) && |u.app.transcript| > 0
    ensures CycleSpeaker(u.app) == Server.Successor(p)
  {
    Server.KeyIsTruthy(p);
  }

  /** A reply of nothing but whitespace is trimmed to nothing by the route and rejected by
      the client: no message is appended. */
  lemma BlankReplyIsRejected(u: Ui, complete: seq<Server.ChatMessage> -> Option<string>, serverNow: string,
                             delivered: bool, transportError: string, clock: App.Clock)
    requires CanGenerate(u)
    requires ModelText(u.app, complete).Some? && Blank(ModelText(u.app, complete).value)
    ensures var r := GenerationCycle(u, complete, serverNow, delivered, transportError, clock);
      r.app == u.app && r.panel.error == Some(ConversationPanel.RejectedError)
  {
    CycleAppendsReply(u, complete, serverNow, delivered, transportError, clock);
  }

  /** The server's history prompt labels every client message `undefined`, because client
      messages carry no speaker. */
  lemma ServerSeesUnlabelledHistory(s: App.AppState)
    requires s.selectedLog.None?
    ensures var h := ServerRequest(CycleRequest(s)).conversationHistory;
      forall i :: 0 <= i < |s.transcript| ==> Server.HistoryLines(h)[i] == "undefined: " + s.transcript[i].content
  {
    Server.ClientHistoryIsUnlabelled(s.transcript);
  }

  /** The last persona of the rotation has no colour or icon of its own, while every
      other persona has both. */
  lemma PersonaRendering(p: Server.Persona)
    ensures p == Server.Lisa <==> ConversationPanel.AgentColor(Server.Key(p)) == ConversationPanel.DefaultColor
    ensures p == Server.Lisa <==> ConversationPanel.AgentIcon(Server.Key(p)) == ConversationPanel.DefaultIcon
  {
  }
}
