/** The plant record and its type, as stored by the garden. */
module PlantModel {
  import opened Wrappers
  import opened KotlinText

  /** `LocalDate.MIN` (-999999999-01-01) and `LocalDate.MAX` (+999999999-12-31) as epoch days. */
  const LocalDateMin: int := -365243219162
  const LocalDateMax: int := 365241780471

  /** A `LocalDate`, as its epoch day (days since 1970-01-01). */
  type Date = d: int | LocalDateMin <= d <= LocalDateMax

  /** The kinds of plant, in declaration order. */
  datatype PlantType = Vegetable | Herb | Flower | Fruit | Tree

  /** `PlantType.entries`: every kind, in declaration order. */
  const Entries: seq<PlantType> := [Vegetable, Herb, Flower, Fruit, Tree]

  /** `PlantType.ordinal`: the position of the kind in its declaration. */
  function Ordinal(t: PlantType): (n: nat)
    ensures n < |Entries| && Entries[n] == t
  {
    match t
    case Vegetable => 0
    case Herb => 1
    case Flower => 2
    case Fruit => 3
    case Tree => 4
  }

  /** `PlantType.name`: the constant's declared name. */
  function TypeName(t: PlantType): string {
    match t
    case Vegetable => "VEGETABLE"
    case Herb => "HERB"
    case Flower => "FLOWER"
    case Fruit => "FRUIT"
    case Tree => "TREE"
  }

  /**
   * A plant. `lastWatered` is null (None) until the plant is first watered and `notes`
   * is empty, unless the caller supplies them. Kotlin's `copy(field = v)` is `p.(field := v)`.
   */
  datatype Plant = Plant(
    id: string,
    name: string,
    plantType: PlantType,
    plantingDate: Date,
    wateringFrequency: Int32,  // in days
    lastWatered: Option<Date> := None,
    notes: string := "")

  /** The five kinds are exactly the entries, each at the position of its ordinal. */
  lemma EntriesAreOrdinals()
    ensures |Entries| == 5
    ensures forall i :: 0 <= i < |Entries| ==> Ordinal(Entries[i]) == i
    ensures forall t: PlantType :: t in Entries
  {
    forall t: PlantType ensures t in Entries {
      assert Entries[Ordinal(t)] == t;
    }
  }

  /** Declaration order: VEGETABLE < HERB < FLOWER < FRUIT < TREE, and distinct kinds have distinct names. */
  lemma DeclarationOrder()
    ensures Ordinal(Vegetable) < Ordinal(Herb) < Ordinal(Flower) < Ordinal(Fruit) < Ordinal(Tree)
    ensures forall s, t :: TypeName(s) == TypeName(t) ==> s == t
  {
  }

  /** A plant built without `lastWatered` and `notes` gets null and "". */
  lemma PlantDefaults(id: string, name: string, t: PlantType, planted: Date, frequency: Int32)
    ensures Plant(id, name, t, planted, frequency).lastWatered == None
    ensures Plant(id, name, t, planted, frequency).notes == ""
  {
  }

  /** A copy that changes one field leaves every other field as it was. */
  lemma CopyChangesOneField(p: Plant, d: Date, n: string)
    ensures var q := p.(lastWatered := Some(d));
      q.id == p.id && q.name == p.name && q.plantType == p.plantType
      && q.plantingDate == p.plantingDate && q.wateringFrequency == p.wateringFrequency
      && q.notes == p.notes && q.lastWatered == Some(d)
    ensures var q := p.(name := n);
      q.id == p.id && q.plantType == p.plantType && q.plantingDate == p.plantingDate
      && q.wateringFrequency == p.wateringFrequency && q.lastWatered == p.lastWatered
      && q.notes == p.notes && q.name == n
  {
  }
}
