/** The add-plant dialog's form state. */
module AddPlantDialog {
  import opened Wrappers
  import opened KotlinText
  import opened PlantModel
  import opened PlantForm

  /** The frequency submitted when the text does not parse. */
  const DefaultFrequency: Int32 := 7

  /** The four `remember`ed fields of the add dialog. */
  class AddPlantForm {
    var name: string
    var selectedType: PlantType
    var wateringFrequency: string
    var notes: string

    /** An empty name, VEGETABLE, "7" and no notes; confirm starts disabled. */
    constructor()
      ensures name == "" && selectedType == Vegetable && wateringFrequency == "7" && notes == ""
      ensures !IsConfirmEnabled()
    {
      name := "";
      selectedType := Vegetable;
      wateringFrequency := "7";
      notes := "";
    }

    predicate IsConfirmEnabled()
      reads this
    {
      ConfirmEnabled(name, wateringFrequency)
    }

    method OnNameChange(value: string)
      modifies this
      ensures name == value
      ensures selectedType == old(selectedType) && wateringFrequency == old(wateringFrequency) && notes == old(notes)
    {
      name := value;
    }

    /** Choosing a radio option selects that type and changes nothing else. */
    method OnTypeClick(t: PlantType)
      modifies this
      ensures selectedType == t
      ensures name == old(name) && wateringFrequency == old(wateringFrequency) && notes == old(notes)
    {
      selectedType := t;
    }

    method OnFrequencyChange(value: string)
      modifies this
      ensures wateringFrequency == value
      ensures name == old(name) && selectedType == old(selectedType) && notes == old(notes)
    {
      wateringFrequency := value;
    }

    method OnNotesChange(value: string)
      modifies this
      ensures notes == value
      ensures name == old(name) && selectedType == old(selectedType) && wateringFrequency == old(wateringFrequency)
    {
      notes := value;
    }

    /** The "Add Plant" button: `onConfirm(name, selectedType, frequency ?: 7, notes)` then `onDismiss()`. */
    method OnConfirmClick() returns (events: seq<DialogEvent>)
      ensures !IsConfirmEnabled() ==> events == []
      ensures IsConfirmEnabled() ==>
                events == [Confirmed(name, selectedType, ParseInt(wateringFrequency).value, notes), Dismissed]
    {
      events := ConfirmClick(name, selectedType, wateringFrequency, notes, DefaultFrequency);
    }
  }

  /** The untouched form holds a valid frequency, 7, but its blank name disables confirm. */
  lemma InitialFormDisabledByName()
    ensures ParseInt("7") == Some(7)
    ensures !ConfirmEnabled("", "7")
  {
    assert "7"[..0] == "";
  }

  /** Typing a non-blank name into the untouched form enables confirm, which submits 7 days. */
  lemma NamedInitialFormSubmitsDefault(name: string)
    requires !IsBlank(name)
    ensures ConfirmClick(name, Vegetable, "7", "", DefaultFrequency) == [Confirmed(name, Vegetable, 7, ""), Dismissed]
  {
    InitialFormDisabledByName();
  }
}
