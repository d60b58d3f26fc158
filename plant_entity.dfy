/** The database row for a plant and its field-for-field conversions to and from `Plant`. */
module PlantEntityMapping {
  import opened Wrappers
  import opened KotlinText
  import opened PlantModel

  /** A row of the `plants` table; `id` is the primary key. No field has a default. */
  datatype PlantEntity = PlantEntity(
    id: string,
    name: string,
    plantType: PlantType,
    plantingDate: Date,
    wateringFrequency: Int32,
    lastWatered: Option<Date>,
    notes: string)

  /** `PlantEntity.toPlant()`. */
  function ToPlant(e: PlantEntity): (p: Plant)
    ensures p.id == e.id
    ensures p.lastWatered == e.lastWatered
  {
    Plant(e.id, e.name, e.plantType, e.plantingDate, e.wateringFrequency, e.lastWatered, e.notes)
  }

  /** `PlantEntity.fromPlant(plant)`. */
  function FromPlant(p: Plant): (e: PlantEntity)
    ensures e.id == p.id
    ensures e.lastWatered == p.lastWatered
  {
    PlantEntity(p.id, p.name, p.plantType, p.plantingDate, p.wateringFrequency, p.lastWatered, p.notes)
  }

  /** Storing a plant and reading it back gives the same plant. */
  lemma PlantRoundTrip(p: Plant)
    ensures ToPlant(FromPlant(p)) == p
  {
  }

  /** Reading a row and storing it back gives the same row. */
  lemma EntityRoundTrip(e: PlantEntity)
    ensures FromPlant(ToPlant(e)) == e
  {
  }

  /** Both conversions copy all seven fields unchanged. */
  lemma ConversionsCopyAllFields(p: Plant, e: PlantEntity)
    ensures var q := FromPlant(p);
      q.id == p.id && q.name == p.name && q.plantType == p.plantType && q.plantingDate == p.plantingDate
      && q.wateringFrequency == p.wateringFrequency && q.lastWatered == p.lastWatered && q.notes == p.notes
    ensures var q := ToPlant(e);
      q.id == e.id && q.name == e.name && q.plantType == e.plantType && q.plantingDate == e.plantingDate
      && q.wateringFrequency == e.wateringFrequency && q.lastWatered == e.lastWatered && q.notes == e.notes
  {
  }

  /** Plants and rows are in one-to-one correspondence: the conversions are injective. */
  lemma ConversionsInjective(p: Plant, q: Plant, e: PlantEntity, f: PlantEntity)
    ensures FromPlant(p) == FromPlant(q) ==> p == q
    ensures ToPlant(e) == ToPlant(f) ==> e == f
  {
    PlantRoundTrip(p);
    PlantRoundTrip(q);
    EntityRoundTrip(e);
    EntityRoundTrip(f);
  }
}
