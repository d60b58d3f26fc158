/**
 * The rules the add and edit dialogs share: when the confirm button is enabled, which
 * frequency it submits, and what pressing it does.
 */
module PlantForm {
  import opened Wrappers
  import opened KotlinText
  import opened PlantModel

  /** `name.isNotBlank() && wateringFrequency.toIntOrNull() != null`. */
  predicate ConfirmEnabled(name: string, frequencyText: string) {
    !IsBlank(name) && ParseInt(frequencyText).Some?
  }

  /** `wateringFrequency.toIntOrNull() ?: fallback`. */
  function SubmittedFrequency(frequencyText: string, fallback: Int32): (f: Int32)
    ensures ParseInt(frequencyText).Some? ==> f == ParseInt(frequencyText).value
    ensures ParseInt(frequencyText).None? ==> f == fallback
  {
    ParseInt(frequencyText).GetOr(fallback)
  }

  /** A callback the dialog invokes: `onConfirm(name, type, wateringFrequency, notes)` or `onDismiss()`. */
  datatype DialogEvent =
    | Confirmed(name: string, plantType: PlantType, wateringFrequency: Int32, notes: string)
    | Dismissed

  /**
   * Pressing the confirm button: nothing while it is disabled; otherwise `onConfirm` with the
   * form's name, type and notes as held and the parsed frequency, then `onDismiss`.
   */
  function ConfirmClick(name: string, t: PlantType, frequencyText: string, notes: string, fallback: Int32)
    : (events: seq<DialogEvent>)
    ensures !ConfirmEnabled(name, frequencyText) ==> events == []
    ensures ConfirmEnabled(name, frequencyText) ==>
              events == [Confirmed(name, t, ParseInt(frequencyText).value, notes), Dismissed]
  {
    if ConfirmEnabled(name, frequencyText) then
      [Confirmed(name, t, SubmittedFrequency(frequencyText, fallback), notes), Dismissed]
    else
      []
  }

  /** On an enabled confirm the fallback frequency is never used: any fallback gives the same value. */
  lemma EnabledConfirmIgnoresFallback(name: string, frequencyText: string, a: Int32, b: Int32)
    requires ConfirmEnabled(name, frequencyText)
    ensures SubmittedFrequency(frequencyText, a) == SubmittedFrequency(frequencyText, b)
  {
  }

  /** There is no positivity check: zero and negative frequencies enable confirm and are submitted. */
  lemma NoPositivityCheck(name: string, t: PlantType, notes: string, fallback: Int32)
    requires !IsBlank(name)
    ensures ConfirmClick(name, t, "0", notes, fallback) == [Confirmed(name, t, 0, notes), Dismissed]
    ensures ConfirmClick(name, t, "-3", notes, fallback) == [Confirmed(name, t, -3, notes), Dismissed]
  {
    assert "0"[..0] == "";
    assert "-3"[1..] == "3" && "3"[..0] == "";
  }

  /** A blank name (empty or whitespace only) keeps confirm disabled whatever the frequency. */
  lemma BlankNameDisables(frequencyText: string)
    ensures !ConfirmEnabled("", frequencyText)
    ensures !ConfirmEnabled("  ", frequencyText)
  {
    assert IsWhitespace("  "[0]) && IsWhitespace("  "[1]);
  }
}
