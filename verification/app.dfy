/**
  The client's top-level state and its transitions: starting, pausing, resuming and
  stopping a conversation, appending messages, and viewing an archived log. Clock
  readings (`Date.now()`, ISO and locale renderings) are passed in as a `Clock`.
 */
module App {
  import opened JsValues
  import opened Types

  /** The state the top-level component keeps. */
  datatype AppState = AppState(
    transcript: seq<Message>,    // the live conversation
    logs: seq<Log>,              // archived conversations, newest first
    isPlaying: bool,
    isPaused: bool,
    lastSpeaker: Option<string>,
    selectedLog: Option<Log>,    // the archived log being viewed, if any
    selectedTopic: string,
    customTopic: string)

  /** The readings of the clock one handler takes. */
  datatype Clock = Clock(nowMillis: string, nowIso: string, localDate: string, localTime: string)

  /** The state on first render, with the logs loaded from storage. */
  function Initial(stored: seq<Log>): (s: AppState)
    ensures Consistent(s) && Idle(s) && s.logs == stored
  {
    AppState([], stored, false, false, None, None, "general", "")
  }

  /** Nothing is playing, no log is viewed, and the transcript is empty. */
  predicate Idle(s: AppState) {
    !s.isPlaying && !s.isPaused && s.selectedLog.None? && s.transcript == []
  }

  /** The invariant every state this model reaches keeps: only a playing conversation can be
      paused, nothing plays while a log is viewed, and the last speaker is the author of
      the last message whenever there is one. */
  predicate Consistent(s: AppState) {
    && (s.isPaused ==> s.isPlaying)
    && (s.selectedLog.Some? ==> !s.isPlaying && s.transcript == [])
    && (|s.transcript| > 0 ==> s.lastSpeaker == Some(s.transcript[|s.transcript| - 1].agentId))
  }

  /** `startNewConversation`: a fresh, running conversation; the archive and the topic
      choice are kept. */
  function Start(s: AppState): (r: AppState)
    ensures Consistent(r) && r.isPlaying && !r.isPaused
    ensures r.transcript == [] && r.lastSpeaker.None? && r.selectedLog.None?
    ensures r.logs == s.logs && r.selectedTopic == s.selectedTopic && r.customTopic == s.customTopic
  {
    s.(transcript := [], lastSpeaker := None, isPlaying := true, isPaused := false, selectedLog := None)
  }

  /** `pauseConversation`: sets the pause flag and nothing else. */
  function Pause(s: AppState): (r: AppState)
    ensures r.isPaused && r.(isPaused := s.isPaused) == s
  {
    s.(isPaused := true)
  }

  /** `resumeConversation`: clears the pause flag and nothing else. */
  function Resume(s: AppState): (r: AppState)
    ensures !r.isPaused && r.(isPaused := s.isPaused) == s
  {
    s.(isPaused := false)
  }

  /** Pausing and resuming undo each other. */
  lemma PauseResumeRoundTrip(s: AppState)
    ensures !s.isPaused ==> Resume(Pause(s)) == s
    ensures s.isPaused ==> Pause(Resume(s)) == s
  {
  }

  /** The log `stopConversation` archives: a copy of the transcript, titled with the
      local date and time. */
  function ArchiveLog(transcript: seq<Message>, clock: Clock): (l: Log)
    ensures l.messages == transcript && l.id == clock.nowMillis && l.timestamp == clock.nowIso
  {
    Log(clock.nowMillis, clock.nowIso, transcript, "Conversation " + clock.localDate + " " + clock.localTime)
  }

  /** `stopConversation`: a non-empty transcript is archived as one new log in front of
      the older ones; an empty one is dropped. Either way the conversation is reset. */
  function Stop(s: AppState, clock: Clock): (r: AppState)
    ensures |s.transcript| > 0 ==> r.logs == [ArchiveLog(s.transcript, clock)] + s.logs
    ensures |s.transcript| == 0 ==> r.logs == s.logs
    ensures r.transcript == [] && !r.isPlaying && !r.isPaused && r.lastSpeaker.None?
    ensures r.selectedLog == s.selectedLog && r.selectedTopic == s.selectedTopic && r.customTopic == s.customTopic
  {
    var logs := if |s.transcript| > 0 then [ArchiveLog(s.transcript, clock)] + s.logs else s.logs;
    s.(logs := logs, transcript := [], isPlaying := false, isPaused := false, lastSpeaker := None)
  }

  /** `addMessageToConversation`: appends the message and makes its author the last speaker. */
  function AddMessage(s: AppState, m: Message): (r: AppState)
    ensures |r.transcript| == |s.transcript| + 1 && r.transcript[..|s.transcript|] == s.transcript
    ensures r.transcript[|s.transcript|] == m && r.lastSpeaker == Some(m.agentId)
    ensures r.(transcript := s.transcript, lastSpeaker := s.lastSpeaker) == s
  {
    s.(transcript := s.transcript + [m], lastSpeaker := Some(m.agentId))
  }

  /** The message `addUserInput` builds from the director's text. */
  function UserMessage(input: string, clock: Clock): (m: Message)
    ensures m.agentId == UserAgentId && m.agentName == UserDisplayName && m.content == input
  {
    Message(clock.nowMillis, UserAgentId, UserDisplayName, input, clock.nowIso)
  }

  /** `addUserInput`: appends the director's message, so the director becomes the last
      speaker; nothing else changes. */
  function AddUserInput(s: AppState, input: string, clock: Clock): (r: AppState)
    ensures r.transcript == s.transcript + [UserMessage(input, clock)]
    ensures r.lastSpeaker == Some(UserAgentId) && r.transcript[|r.transcript| - 1].content == input
    ensures r.(transcript := s.transcript, lastSpeaker := s.lastSpeaker) == s
  {
    AddMessage(s, UserMessage(input, clock))
  }

  /** `viewLog`: shows an archived log and abandons the live conversation without
      archiving it. The logs and the last speaker are left as they were. */
  function ViewLog(s: AppState, log: Log): (r: AppState)
    ensures r.selectedLog == Some(log) && r.transcript == [] && !r.isPlaying && !r.isPaused
    ensures r.logs == s.logs && r.lastSpeaker == s.lastSpeaker
    ensures r.selectedTopic == s.selectedTopic && r.customTopic == s.customTopic
  {
    s.(selectedLog := Some(log), transcript := [], isPlaying := false, isPaused := false)
  }

  /** `clearViewLog`: closes the viewed log and nothing else. */
  function ClearViewLog(s: AppState): (r: AppState)
    ensures r.selectedLog.None? && r.(selectedLog := s.selectedLog) == s
  {
    s.(selectedLog := None)
  }

  /** `setSelectedTopic`, wired to the topic selector. */
  function SelectTopic(s: AppState, topic: string): (r: AppState)
    ensures r.selectedTopic == topic && r.(selectedTopic := s.selectedTopic) == s
  {
    s.(selectedTopic := topic)
  }

  /** `setCustomTopic`, wired to the custom-topic field. */
  function EditCustomTopic(s: AppState, text: string): (r: AppState)
    ensures r.customTopic == text && r.(customTopic := s.customTopic) == s
  {
    s.(customTopic := text)
  }

  /** The messages the conversation panel shows: the viewed log's, else the live ones. */
  function Displayed(s: AppState): (ms: seq<Message>)
    ensures s.selectedLog.Some? ==> ms == s.selectedLog.value.messages
    ensures s.selectedLog.None? ==> ms == s.transcript
  {
    if s.selectedLog.Some? then s.selectedLog.value.messages else s.transcript
  }

  /** The controls are disabled exactly while a log is viewed. */
  predicate ControlsDisabled(s: AppState) {
    s.selectedLog.Some?
  }

  /** `selectedLog?.id || null`: the viewed log's id, where an empty id reads as no selection. */
  function SelectedLogId(s: AppState): (id: Option<string>)
    ensures id.Some? <==> s.selectedLog.Some? && s.selectedLog.value.id != ""
    ensures id.Some? ==> id.value == s.selectedLog.value.id
  {
    if s.selectedLog.Some? && s.selectedLog.value.id != "" then Some(s.selectedLog.value.id) else None
  }

  /** Viewing a log and closing it leaves an idle board with the archive untouched. */
  lemma ViewThenClearIsIdle(s: AppState, log: Log)
    ensures var r := ClearViewLog(ViewLog(s, log));
      Idle(r) && r.logs == s.logs && Displayed(r) == [] && !ControlsDisabled(r)
    ensures Displayed(ViewLog(s, log)) == log.messages && ControlsDisabled(ViewLog(s, log))
  {
  }

  /** Appends messages one at a time, in order. */
  function AddMessages(s: AppState, ms: seq<Message>): AppState
    decreases |ms|
  {
    if |ms| == 0 then s else AddMessages(AddMessage(s, ms[0]), ms[1..])
  }

  /** Appending a run of messages extends the transcript by exactly that run and leaves
      the last of them as the last speaker; nothing else changes. */
  lemma {:induction false} AddMessagesAppends(s: AppState, ms: seq<Message>)
    ensures AddMessages(s, ms).transcript == s.transcript + ms
    ensures |ms| > 0 ==> AddMessages(s, ms).lastSpeaker == Some(ms[|ms| - 1].agentId)
    ensures |ms| == 0 ==> AddMessages(s, ms).lastSpeaker == s.lastSpeaker
    ensures AddMessages(s, ms).(transcript := s.transcript, lastSpeaker := s.lastSpeaker) == s
    decreases |ms|
  {
    if |ms| > 0 {
      var s' := AddMessage(s, ms[0]);
      AddMessagesAppends(s', ms[1..]);
      assert s'.transcript + ms[1..] == s.transcript + ms;
      if |ms| > 1 {
        assert ms[1..][|ms[1..]| - 1] == ms[|ms| - 1];
      }
    }
  }

  /** A whole session: starting, receiving the messages `ms` and stopping archives exactly
      those messages, in order, in front of the older logs, and leaves nothing playing. */
  lemma SessionArchivesTranscript(s: AppState, ms: seq<Message>, clock: Clock)
    ensures var r := Stop(AddMessages(Start(s), ms), clock);
      && (|ms| > 0 ==> r.logs == [ArchiveLog(ms, clock)] + s.logs)
      && (|ms| == 0 ==> r.logs == s.logs)
      && r.transcript == [] && !r.isPlaying && !r.isPaused && r.selectedLog.None?
  {
    AddMessagesAppends(Start(s), ms);
    assert [] + ms == ms;
  }

  /** Each transition keeps the invariant, pausing only while a conversation plays. */
  lemma TransitionsKeepConsistent(s: AppState, m: Message, input: string, log: Log, clock: Clock, topic: string)
    requires Consistent(s)
    ensures Consistent(Start(s)) && Consistent(Stop(s, clock)) && Consistent(Resume(s))
    ensures s.isPlaying ==> Consistent(Pause(s))
    ensures !ControlsDisabled(s) ==> Consistent(AddMessage(s, m)) && Consistent(AddUserInput(s, input, clock))
    ensures Consistent(ViewLog(s, log)) && Consistent(ClearViewLog(s))
    ensures Consistent(SelectTopic(s, topic)) && Consistent(EditCustomTopic(s, topic))
  {
    PlaybackKeepsConsistent(s, clock);
    MessagesKeepConsistent(s, m, input, clock);
    BrowsingKeepsConsistent(s, log, topic);
  }

  lemma PlaybackKeepsConsistent(s: AppState, clock: Clock)
    requires Consistent(s)
    ensures Consistent(Start(s)) && Consistent(Stop(s, clock)) && Consistent(Resume(s))
    ensures s.isPlaying ==> Consistent(Pause(s))
  {
  }

  lemma MessagesKeepConsistent(s: AppState, m: Message, input: string, clock: Clock)
    requires Consistent(s)
    ensures !ControlsDisabled(s) ==> Consistent(AddMessage(s, m)) && Consistent(AddUserInput(s, input, clock))
  {
  }

  lemma BrowsingKeepsConsistent(s: AppState, log: Log, topic: string)
    requires Consistent(s)
    ensures Consistent(ViewLog(s, log)) && Consistent(ClearViewLog(s))
    ensures Consistent(SelectTopic(s, topic)) && Consistent(EditCustomTopic(s, topic))
  {
  }
}
