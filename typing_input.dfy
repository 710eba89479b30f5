/**
 * TypingInput: the text area with a coloured overlay. It forwards a change only when the
 * new value fits the target, blocks Ctrl+V, starts the session on the first printable key,
 * and classifies every target character against the value.
 */
module TypingInput {
  import opened Wrappers
  import opened Session

  /** handleChange: Some(value) when onChange is called with it, None when the change is dropped. */
  function HandleChange(newValue: string, targetText: string): (forwarded: Option<string>)
    ensures forwarded.Some? <==> |newValue| <= |targetText|
    ensures forwarded.Some? ==> forwarded.value == newValue
  {
    if |newValue| <= |targetText| then Some(newValue) else None
  }

  /** What handleKeyDown does with one key event. */
  datatype KeyEffect = KeyEffect(preventDefault: bool, callStart: bool)

  /** handleKeyDown: Ctrl+V is blocked; otherwise a one-character key starts an inactive session. */
  function HandleKeyDown(key: string, ctrlKey: bool, isActive: bool): (effect: KeyEffect)
    ensures ctrlKey && key == "v" ==> effect.preventDefault && !effect.callStart
    ensures effect.preventDefault <==> ctrlKey && key == "v"
    ensures effect.callStart <==> !(ctrlKey && key == "v") && !isActive && |key| == 1
  {
    if ctrlKey && key == "v" then KeyEffect(true, false)
    else KeyEffect(false, !isActive && |key| == 1)
  }

  /**
   * renderOverlay: nothing without a (non-empty) target; otherwise one span per target
   * character, correct or incorrect by match where typed and pending elsewhere (no cursor).
   */
  function RenderOverlay(targetText: Option<string>, value: string): (spans: Option<seq<CharClass>>)
    ensures spans.None? <==> targetText.None? || targetText.value == ""
    ensures spans.Some? ==> |spans.value| == |targetText.value|
    ensures spans.Some? ==> forall i :: 0 <= i < |spans.value| ==>
              && (spans.value[i] == Correct <==> i < |value| && value[i] == targetText.value[i])
              && (spans.value[i] == Incorrect <==> i < |value| && value[i] != targetText.value[i])
              && (spans.value[i] == Pending <==> i >= |value|)
  {
    if targetText.None? || targetText.value == "" then None
    else Some(Overlay(value, targetText.value, false))
  }

  /** Spans marked correct are exactly the matched characters of an accepted value. */
  lemma OverlayCountsMatches(targetText: string, value: string)
    requires targetText != "" && HandleChange(value, targetText).Some?
    ensures CountClass(RenderOverlay(Some(targetText), value).value, Correct) == MatchCount(value, targetText)
  {
    OverlayCounts(value, targetText, false);
  }
}
