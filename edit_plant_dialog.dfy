/** The edit-plant dialog's form state, and how the garden screen applies its result. */
module EditPlantDialog {
  import opened Wrappers
  import opened KotlinText
  import opened PlantModel
  import opened PlantForm
  import opened GardenViewModel

  /** The four `remember`ed fields of the edit dialog, seeded from the plant being edited. */
  class EditPlantForm {
    const plant: Plant
    var name: string
    var selectedType: PlantType
    var wateringFrequency: string
    var notes: string

    /** Starts from the plant: its name, type, frequency as decimal text and notes. */
    constructor(plant: Plant)
      ensures this.plant == plant
      ensures name == plant.name && selectedType == plant.plantType && notes == plant.notes
      ensures wateringFrequency == IntToString(plant.wateringFrequency)
      ensures IsConfirmEnabled() <==> !IsBlank(plant.name)
    {
      this.plant := plant;
      name := plant.name;
      selectedType := plant.plantType;
      wateringFrequency := IntToString(plant.wateringFrequency);
      notes := plant.notes;
      ParseIntRoundTrip(plant.wateringFrequency);
    }

    predicate IsConfirmEnabled()
      reads this
    {
      ConfirmEnabled(name, wateringFrequency)
    }

    method OnNameChange(value: string)
      modifies this
      ensures name == value
      ensures selectedType == old(selectedType) && wateringFrequency == old(wateringFrequency) && notes == old(notes)
    {
      name := value;
    }

    method OnTypeClick(t: PlantType)
      modifies this
      ensures selectedType == t
      ensures name == old(name) && wateringFrequency == old(wateringFrequency) && notes == old(notes)
    {
      selectedType := t;
    }

    method OnFrequencyChange(value: string)
      modifies this
      ensures wateringFrequency == value
      ensures name == old(name) && selectedType == old(selectedType) && notes == old(notes)
    {
      wateringFrequency := value;
    }

    method OnNotesChange(value: string)
      modifies this
      ensures notes == value
      ensures name == old(name) && selectedType == old(selectedType) && wateringFrequency == old(wateringFrequency)
    {
      notes := value;
    }

    /**
     * The "Save Changes" button: `onConfirm(name, selectedType, frequency ?: plant.wateringFrequency, notes)`
     * then `onDismiss()`.
     */
    method OnConfirmClick() returns (events: seq<DialogEvent>)
      ensures !IsConfirmEnabled() ==> events == []
      ensures IsConfirmEnabled() ==>
                events == [Confirmed(name, selectedType, ParseInt(wateringFrequency).value, notes), Dismissed]
    {
      events := ConfirmClick(name, selectedType, wateringFrequency, notes, plant.wateringFrequency);
    }
  }

  /**
   * On the untouched form confirm is enabled exactly when the plant's name is not blank, and
   * saving it yields the plant's own values, so the edit leaves the plant as it was.
   */
  lemma UntouchedFormSavesSamePlant(p: Plant)
    ensures ConfirmEnabled(p.name, IntToString(p.wateringFrequency)) <==> !IsBlank(p.name)
    ensures !IsBlank(p.name) ==>
              ConfirmClick(p.name, p.plantType, IntToString(p.wateringFrequency), p.notes, p.wateringFrequency)
              == [Confirmed(p.name, p.plantType, p.wateringFrequency, p.notes), Dismissed]
    ensures ApplyEdit(p, p.name, p.plantType, p.wateringFrequency, p.notes) == p
  {
    ParseIntRoundTrip(p.wateringFrequency);
  }

  /** A frequency edit that does not parse keeps confirm disabled, so the old-frequency fallback is never submitted. */
  lemma UnparsableFrequencyNotSubmitted(name: string, t: PlantType, text: string, notes: string, previous: Int32)
    requires ParseInt(text).None?
    ensures ConfirmClick(name, t, text, notes, previous) == []
  {
  }
}
