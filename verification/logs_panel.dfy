/**
  The logs panel: the preview line of an archived log, its estimated read time, which
  entry is marked as viewed, and the list's placeholder and close button.
 */
module LogsPanel {
  import opened JsValues
  import opened Types

  /** The longest first-message text shown in full. */
  const PreviewLength: nat := 80

  const EmptyPreview: string := "Empty conversation"
  const Ellipsis: string := "..."

  /** `getLogPreview`: the first message's text, cut to 80 characters plus an ellipsis
      when longer. */
  function LogPreview(log: Log): (p: string)
    ensures |log.messages| == 0 ==> p == EmptyPreview
    ensures |log.messages| > 0 && |log.messages[0].content| <= PreviewLength ==> p == log.messages[0].content
    ensures |log.messages| > 0 && |log.messages[0].content| > PreviewLength ==>
      |p| == PreviewLength + |Ellipsis| && p[..PreviewLength] == log.messages[0].content[..PreviewLength]
      && p[PreviewLength..] == Ellipsis
  {
    if |log.messages| == 0 then EmptyPreview
    else
      var content := log.messages[0].content;
      if |content| > PreviewLength then content[..PreviewLength] + Ellipsis else content
  }

  /** No preview is longer than 83 characters, and a non-empty log's preview starts with
      its first message's text up to the cut. */
  lemma PreviewBounded(log: Log)
    ensures |LogPreview(log)| <= PreviewLength + |Ellipsis|
    ensures |log.messages| > 0 ==>
      var content := log.messages[0].content;
      var n := if |content| <= PreviewLength then |content| else PreviewLength;
      LogPreview(log)[..n] == content[..n]
  {
  }

  /** `Math.ceil(n / 5)`: the read time in minutes of `n` messages, five to a minute. */
  function ReadTime(n: nat): (m: nat)
    ensures 5 * m >= n && (m == 0 || 5 * (m - 1) < n)
  {
    (n + 4) / 5
  }

  /** Read time is the least whole number of minutes covering the messages, and grows
      with the number of messages. */
  lemma ReadTimeIsCeiling(n: nat, k: nat)
    ensures 5 * k >= n ==> ReadTime(n) <= k
    ensures ReadTime(0) == 0
    ensures 1 <= n <= 5 ==> ReadTime(n) == 1
  {
  }

  lemma ReadTimeMonotone(a: nat, b: nat)
    requires a <= b
    ensures ReadTime(a) <= ReadTime(b)
  {
    ReadTimeIsCeiling(a, ReadTime(b));
  }

  /** A log is marked as viewed exactly when its id is the selected id. */
  predicate IsSelected(log: Log, selectedLogId: Option<string>) {
    selectedLogId.Some? && log.id == selectedLogId.value
  }

  /** The close button shows while an id is selected. */
  predicate ShowsCloseButton(selectedLogId: Option<string>) {
    Truthy(selectedLogId)
  }

  /** The placeholder shows instead of the list when there are no logs. */
  predicate ShowsPlaceholder(logs: seq<Log>) {
    |logs| == 0
  }

  /** One rendered entry of the list. */
  datatype LogItem = LogItem(log: Log, messageCount: nat, readTime: nat, preview: string, selected: bool)

  /** `logs.map(...)`: one entry per log, in list order. */
  function LogItems(logs: seq<Log>, selectedLogId: Option<string>): (items: seq<LogItem>)
    ensures |items| == |logs|
    ensures forall i :: 0 <= i < |logs| ==>
      && items[i].log == logs[i]
      && items[i].messageCount == |logs[i].messages|
      && items[i].readTime == ReadTime(|logs[i].messages|)
      && items[i].preview == LogPreview(logs[i])
      && (items[i].selected <==> IsSelected(logs[i], selectedLogId))
  {
    seq(|logs|, i requires 0 <= i < |logs| =>
      LogItem(logs[i], |logs[i].messages|, ReadTime(|logs[i].messages|), LogPreview(logs[i]), IsSelected(logs[i], selectedLogId)))
  }

  /** The placeholder and the list exclude each other: the placeholder shows exactly when
      the list has no entries. */
  lemma PlaceholderExactlyWithoutItems(logs: seq<Log>, selectedLogId: Option<string>)
    ensures ShowsPlaceholder(logs) <==> |LogItems(logs, selectedLogId)| == 0
  {
  }

  /** With no selected id nothing is marked; with distinct ids at most one entry is. */
  lemma SelectionMarksAtMostOne(logs: seq<Log>, selectedLogId: Option<string>)
    requires forall i, j :: 0 <= i < j < |logs| ==> logs[i].id != logs[j].id
    ensures selectedLogId.None? ==> forall i :: 0 <= i < |logs| ==> !LogItems(logs, selectedLogId)[i].selected
    ensures forall i, j :: 0 <= i < j < |logs| ==> !(LogItems(logs, selectedLogId)[i].selected && LogItems(logs, selectedLogId)[j].selected)
  {
  }
}
