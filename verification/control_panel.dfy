/**
  The control panel: which controls are visible for the app's flags, and the handlers
  for pausing, resuming and submitting the director's input. A handler's effect on the
  app is the list of callbacks it makes, in call order.
 */
module ControlPanel {
  import opened JsValues

  /** The panel's own state: the input field's text and whether the input section is open. */
  datatype ControlState = ControlState(userInputText: string, showUserInput: bool)

  /** The state on first render. */
  const InitialControls: ControlState := ControlState("", false)

  /** A callback into the app. */
  datatype Callback = UserInput(text: string) | PauseCall | ResumeCall

  /** A handler's new panel state and the callbacks it made, in order. */
  datatype Handled = Handled(state: ControlState, calls: seq<Callback>)

  /** `handleUserInputSubmit`: a blank text does nothing; otherwise the trimmed text is
      handed to the app before the conversation is resumed, and the field is cleared
      and closed. */
  function Submit(c: ControlState): (r: Handled)
    ensures Trim(c.userInputText) == "" ==> r == Handled(c, [])
    ensures Trim(c.userInputText) != "" ==>
      r.state == ControlState("", false) && r.calls == [UserInput(Trim(c.userInputText)), ResumeCall]
  {
    var text := Trim(c.userInputText);
    if text != "" then Handled(ControlState("", false), [UserInput(text), ResumeCall])
    else Handled(c, [])
  }

  /** `handlePause`: pauses the app, then opens the input section. */
  function HandlePause(c: ControlState): (r: Handled)
    ensures r.calls == [PauseCall] && r.state.showUserInput
    ensures r.state.userInputText == c.userInputText
  {
    Handled(c.(showUserInput := true), [PauseCall])
  }

  /** `handleResume`, used by both Resume and Skip & Resume: closes the input section, then
      resumes the app. The typed text is kept. */
  function HandleResume(c: ControlState): (r: Handled)
    ensures r.calls == [ResumeCall] && !r.state.showUserInput
    ensures r.state.userInputText == c.userInputText
  {
    Handled(c.(showUserInput := false), [ResumeCall])
  }

  /** `setUserInputText`, wired to the text area. */
  function EditInput(c: ControlState, text: string): (r: ControlState)
    ensures r.userInputText == text && r.showUserInput == c.showUserInput
  {
    c.(userInputText := text)
  }

  // Visibility of each part of the panel for the app's flags.

  predicate ShowsTopicSelection(isPlaying: bool) { !isPlaying }

  /** The custom-topic field sits inside the topic selection. */
  predicate ShowsCustomTopicField(isPlaying: bool, selectedTopic: string) {
    ShowsTopicSelection(isPlaying) && selectedTopic == "custom"
  }

  predicate ShowsStart(isPlaying: bool) { !isPlaying }

  predicate ShowsPause(isPlaying: bool, isPaused: bool) { isPlaying && !isPaused }

  predicate ShowsResume(isPlaying: bool, isPaused: bool) { isPlaying && isPaused }

  predicate ShowsStop(isPlaying: bool) { isPlaying }

  predicate ShowsInputSection(c: ControlState, isPaused: bool) { c.showUserInput && isPaused }

  predicate SubmitDisabled(c: ControlState) { Trim(c.userInputText) == "" }

  predicate ShowsDisabledNotice(disabled: bool) { disabled }

  /** For every pair of flags exactly one of Start, Pause and Resume is on screen. */
  lemma ExactlyOnePlayControl(isPlaying: bool, isPaused: bool)
    ensures (if ShowsStart(isPlaying) then 1 else 0)
          + (if ShowsPause(isPlaying, isPaused) then 1 else 0)
          + (if ShowsResume(isPlaying, isPaused) then 1 else 0) == 1
    ensures ShowsStop(isPlaying) <==> !ShowsStart(isPlaying)
  {
  }

  /** The submit button is disabled exactly when submitting would do nothing. */
  lemma SubmitButtonMatchesHandler(c: ControlState)
    ensures SubmitDisabled(c) <==> Submit(c).calls == []
    ensures !SubmitDisabled(c) ==> !ShowsInputSection(Submit(c).state, true)
  {
  }

  /** Whitespace around the typed text makes no difference to what is submitted. */
  lemma SubmitIgnoresPadding(pre: string, text: string, post: string, show: bool)
    requires Blank(pre) && Blank(post) && Trimmed(text)
    ensures Submit(ControlState(pre + text + post, show)).calls == Submit(ControlState(text, show)).calls
  {
    assert Trim(pre + text + post) == text by {
      TrimOfPadded(pre, text, post);
    }
    assert Trim(text) == text by {
      TrimOfTrimmed(text);
    }
  }

  /** The forwarded text is already trimmed and non-empty. */
  lemma SubmittedTextIsTrimmed(c: ControlState)
    ensures forall k :: 0 <= k < |Submit(c).calls| && Submit(c).calls[k].UserInput? ==>
      Trimmed(Submit(c).calls[k].text) && Submit(c).calls[k].text != ""
  {
    var text := Trim(c.userInputText);
    var calls := Submit(c).calls;
    if text != "" {
      assert calls == [UserInput(text), ResumeCall];
      forall k | 0 <= k < |calls| && calls[k].UserInput?
        ensures Trimmed(calls[k].text) && calls[k].text != ""
      {
        assert k == 0 && calls[k].text == text;
      }
    } else {
      assert calls == [];
    }
  }
}
