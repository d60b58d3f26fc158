/**
 * The garden store: the list of plants with its add, update, delete and water operations,
 * the current search query and sort option, and the mock garden it starts from.
 * `UUID.randomUUID()` and `LocalDate.now()` are passed in as `id` and `today`.
 */
module GardenViewModel {
  import opened Wrappers
  import opened KotlinText
  import opened Seqs
  import opened PlantModel
  import opened GardenQuery

  /** No two stored plants share an id (what random UUIDs provide; the store does not check it). */
  predicate UniqueIds(plants: seq<Plant>) {
    forall i, j :: 0 <= i < j < |plants| ==> plants[i].id != plants[j].id
  }

  predicate HasId(plants: seq<Plant>, id: string) {
    exists i :: 0 <= i < |plants| && plants[i].id == id
  }

  // ---------------------------------------------------------------------------
  // addPlant
  // ---------------------------------------------------------------------------

  /** The record `addPlant` creates: planted today, never watered. */
  function NewPlant(id: string, name: string, t: PlantType, frequency: Int32, notes: string, today: Date): (p: Plant)
    ensures p.id == id && p.name == name && p.plantType == t && p.wateringFrequency == frequency && p.notes == notes
    ensures p.plantingDate == today && p.lastWatered == None
  {
    Plant(id := id, name := name, plantType := t, plantingDate := today, wateringFrequency := frequency, notes := notes)
  }

  /** Appending a plant with a fresh id keeps the ids unique. */
  lemma AddKeepsUniqueIds(plants: seq<Plant>, p: Plant)
    requires UniqueIds(plants)
    requires !HasId(plants, p.id)
    ensures UniqueIds(plants + [p])
  {
  }

  // ---------------------------------------------------------------------------
  // updatePlant
  // ---------------------------------------------------------------------------

  /** `plants.map { if (it.id == p.id) p else it }`. */
  function ReplaceById(plants: seq<Plant>, p: Plant): (r: seq<Plant>)
    ensures |r| == |plants|
    ensures forall i :: 0 <= i < |plants| ==> r[i] == if plants[i].id == p.id then p else plants[i]
    decreases |plants|
  {
    if plants == [] then []
    else [if plants[0].id == p.id then p else plants[0]] + ReplaceById(plants[1..], p)
  }

  /** Updating with an id that is not stored changes nothing. */
  lemma ReplaceByIdAbsent(plants: seq<Plant>, p: Plant)
    requires !HasId(plants, p.id)
    ensures ReplaceById(plants, p) == plants
  {
  }

  /** Updating replaces records by records with the same id, so the ids stay where they were. */
  lemma ReplaceByIdKeepsIds(plants: seq<Plant>, p: Plant)
    ensures forall i :: 0 <= i < |plants| ==> ReplaceById(plants, p)[i].id == plants[i].id
    ensures UniqueIds(plants) ==> UniqueIds(ReplaceById(plants, p))
  {
  }

  /** With unique ids, an update whose id is stored at `k` replaces exactly that record. */
  lemma ReplaceByIdAt(plants: seq<Plant>, p: Plant, k: nat)
    requires UniqueIds(plants)
    requires k < |plants| && plants[k].id == p.id
    ensures ReplaceById(plants, p) == plants[k := p]
  {
  }

  // ---------------------------------------------------------------------------
  // deletePlant
  // ---------------------------------------------------------------------------

  /** The predicate `it.id != id` that `deletePlant` filters by. */
  function NotId(id: string): Plant -> bool {
    (p: Plant) => p.id != id
  }

  /** `plants.filter { it.id != id }`. */
  function RemoveById(plants: seq<Plant>, id: string): (r: seq<Plant>)
    ensures forall p :: p in r <==> p in plants && p.id != id
    ensures !HasId(r, id)
  {
    FilterMembership(NotId(id), plants);
    var r := Filter(NotId(id), plants);
    assert forall i :: 0 <= i < |r| ==> r[i] in r;
    r
  }

  /** Deleting keeps the other records as an order-preserving sub-list and removes every record with the id. */
  lemma RemoveByIdIsSublist(plants: seq<Plant>, id: string)
    ensures IsSubsequence(RemoveById(plants, id), plants)
    ensures forall p :: multiset(RemoveById(plants, id))[p] == if p.id != id then multiset(plants)[p] else 0
  {
    FilterIsSubsequence(NotId(id), plants);
    FilterMultiset(NotId(id), plants);
  }

  /** Deleting an id that is not stored changes nothing. */
  lemma RemoveByIdAbsent(plants: seq<Plant>, id: string)
    requires !HasId(plants, id)
    ensures RemoveById(plants, id) == plants
  {
    FilterAll(NotId(id), plants);
  }

  /** Filtering never introduces a duplicate id. */
  lemma {:induction false} FilterKeepsUniqueIds(f: Plant -> bool, plants: seq<Plant>)
    requires UniqueIds(plants)
    ensures UniqueIds(Filter(f, plants))
    decreases |plants|
  {
    if plants != [] {
      var tail := plants[1..];
      FilterKeepsUniqueIds(f, tail);
      FilterMembership(f, tail);
      var rest := Filter(f, tail);
      forall i | 0 <= i < |rest| ensures rest[i].id != plants[0].id {
        assert rest[i] in tail;
      }
    }
  }

  lemma RemoveByIdKeepsUniqueIds(plants: seq<Plant>, id: string)
    requires UniqueIds(plants)
    ensures UniqueIds(RemoveById(plants, id))
  {
    FilterKeepsUniqueIds(NotId(id), plants);
  }

  // ---------------------------------------------------------------------------
  // waterPlant
  // ---------------------------------------------------------------------------

  /** `plants.find { it.id == id }`: the first record with the id, or null. */
  function FindById(plants: seq<Plant>, id: string): (r: Option<Plant>)
    ensures r.None? <==> !HasId(plants, id)
    ensures r.Some? ==> exists k :: 0 <= k < |plants| && plants[k] == r.value && r.value.id == id
                                    && forall j :: 0 <= j < k ==> plants[j].id != id
    decreases |plants|
  {
    if plants == [] then None
    else if plants[0].id == id then Some(plants[0])
    else
      var r := FindById(plants[1..], id);
      assert HasId(plants, id) ==> HasId(plants[1..], id) by {
        if HasId(plants, id) {
          var k :| 0 <= k < |plants| && plants[k].id == id;
          assert plants[1..][k - 1].id == id;
        }
      }
      assert r.Some? ==> exists k :: 0 <= k < |plants| && plants[k] == r.value && r.value.id == id
                                     && forall j :: 0 <= j < k ==> plants[j].id != id by {
        if r.Some? {
          var k :| 0 <= k < |plants[1..]| && plants[1..][k] == r.value && r.value.id == id
                   && forall j :: 0 <= j < k ==> plants[1..][j].id != id;
          assert plants[k + 1] == r.value;
          assert forall j :: 0 <= j < k + 1 ==> plants[j].id != id by {
            forall j | 0 <= j < k + 1 ensures plants[j].id != id {
              if j > 0 { assert plants[j] == plants[1..][j - 1]; }
            }
          }
        }
      }
      r
  }

  /** `waterPlant`: nothing if the id is absent, else the found record, watered today, replaces its id. */
  function Watered(plants: seq<Plant>, id: string, today: Date): seq<Plant> {
    match FindById(plants, id)
    case None => plants
    case Some(p) => ReplaceById(plants, p.(lastWatered := Some(today)))
  }

  /**
   * With unique ids, watering sets `lastWatered` of the record with the id to today; every other
   * field of it, and every other record, stays as it was. An absent id changes nothing.
   */
  lemma WateredEffect(plants: seq<Plant>, id: string, today: Date)
    requires UniqueIds(plants)
    ensures |Watered(plants, id, today)| == |plants|
    ensures forall i :: 0 <= i < |plants| ==>
              Watered(plants, id, today)[i]
              == if plants[i].id == id then plants[i].(lastWatered := Some(today)) else plants[i]
    ensures UniqueIds(Watered(plants, id, today))
  {
    match FindById(plants, id)
    case None =>
    case Some(p) =>
      var k :| 0 <= k < |plants| && plants[k] == p && p.id == id;
      var q := p.(lastWatered := Some(today));
      ReplaceByIdKeepsIds(plants, q);
      forall i | 0 <= i < |plants| && plants[i].id == id ensures plants[i] == p {
        assert i == k;
      }
  }

  /** Watering an id that is not stored changes nothing, whether or not ids are unique. */
  lemma WateredAbsent(plants: seq<Plant>, id: string, today: Date)
    requires !HasId(plants, id)
    ensures Watered(plants, id, today) == plants
  {
  }

  // ---------------------------------------------------------------------------
  // Editing (the edit dialog's result, applied by the garden screen)
  // ---------------------------------------------------------------------------

  /** `plant.copy(name, type, wateringFrequency, notes)`: the edited fields replaced, the rest kept. */
  function ApplyEdit(p: Plant, name: string, t: PlantType, frequency: Int32, notes: string): (q: Plant)
    ensures q.id == p.id && q.plantingDate == p.plantingDate && q.lastWatered == p.lastWatered
    ensures q.name == name && q.plantType == t && q.wateringFrequency == frequency && q.notes == notes
  {
    p.(name := name, plantType := t, wateringFrequency := frequency, notes := notes)
  }

  /**
   * Saving an edit of the stored plant at `k` changes that record's name, type, frequency and
   * notes, keeps its id, planting date and last watering, and leaves every other record and
   * the uniqueness of ids intact.
   */
  lemma EditPlant(plants: seq<Plant>, k: nat, name: string, t: PlantType, frequency: Int32, notes: string)
    requires UniqueIds(plants)
    requires k < |plants|
    ensures ReplaceById(plants, ApplyEdit(plants[k], name, t, frequency, notes))
            == plants[k := ApplyEdit(plants[k], name, t, frequency, notes)]
    ensures UniqueIds(ReplaceById(plants, ApplyEdit(plants[k], name, t, frequency, notes)))
  {
    var q := ApplyEdit(plants[k], name, t, frequency, notes);
    ReplaceByIdAt(plants, q, k);
    ReplaceByIdKeepsIds(plants, q);
  }

  // ---------------------------------------------------------------------------
  // The mock garden
  // ---------------------------------------------------------------------------

  /** The earliest `today` for which every date of the mock garden is a valid LocalDate. */
  predicate MockDatesInRange(today: Date) {
    LocalDateMin + 730 <= today
  }

  /** `createMockPlants()`: ten plants planted and watered a given number of days before today. */
  function MockPlants(today: Date): (r: seq<Plant>)
    requires MockDatesInRange(today)
    ensures |r| == 10
  {
    [ Plant("1", "Tomato Plant", Vegetable, today - 30, 3, Some(today - 2), "Growing well, needs support soon"),
      Plant("2", "Basil", Herb, today - 15, 1, Some(today - 2), "Ready for harvesting"),
      Plant("3", "Sunflower", Flower, today - 45, 4, Some(today - 3), "Starting to bloom"),
      Plant("4", "Apple Tree", Tree, today - 365, 7, Some(today - 5), "Young tree, needs regular pruning"),
      Plant("5", "Strawberry Plant", Fruit, today - 60, 2, Some(today - 1), "First berries appearing"),
      Plant("6", "Mint", Herb, today - 20, 2, Some(today - 1), "Growing in container"),
      Plant("7", "Carrots", Vegetable, today - 25, 3, Some(today - 2), "Thin seedlings soon"),
      Plant("8", "Rose Bush", Flower, today - 90, 4, Some(today - 3), "First buds forming"),
      Plant("9", "Blueberry Bush", Fruit, today - 180, 5, Some(today - 4), "Acidic soil maintained"),
      Plant("10", "Maple Tree", Tree, today - 730, 10, Some(today - 8), "Established tree, minimal care needed") ]
  }

  /** The mock garden's ids are distinct. */
  lemma MockPlantsUniqueIds(today: Date)
    requires MockDatesInRange(today)
    ensures UniqueIds(MockPlants(today))
  {
  }

  /**
   * On the mock garden only Basil (every day, watered two days ago) needs water; Maple Tree
   * (every ten days, watered eight days ago) does not.
   */
  lemma MockPlantsNeedingWater(today: Date)
    requires MockDatesInRange(today)
    ensures PlantsNeedingWater(MockPlants(today), today) == [MockPlants(today)[1]]
    ensures MockPlants(today)[1].name == "Basil"
    ensures !NeedsWater(MockPlants(today)[9], today) && MockPlants(today)[9].name == "Maple Tree"
  {
    var m := MockPlants(today);
    var f := (p: Plant) => NeedsWater(p, today);
    assert forall i :: 0 <= i < |m| ==> (f(m[i]) <==> i == 1);
    FilterSingleMatch(f, m, 1);
  }

  // ---------------------------------------------------------------------------
  // The view model
  // ---------------------------------------------------------------------------

  /** `GardenViewModel`: the stored plants, the search query and the sort option. */
  class GardenViewModel {
    var plants: seq<Plant>
    var searchQuery: string
    var sortOption: SortOption

    /** Starts from the mock garden with an empty query, sorted by name. */
    constructor(today: Date)
      requires MockDatesInRange(today)
      ensures plants == MockPlants(today) && searchQuery == "" && sortOption == Name
      ensures UniqueIds(plants)
    {
      plants := MockPlants(today);
      searchQuery := "";
      sortOption := Name;
      MockPlantsUniqueIds(today);
    }

    /** `sortedAndFilteredPlants`: the list the garden screen shows. */
    function SortedAndFilteredPlants(): (r: seq<Plant>)
      reads this
      ensures multiset(r) == multiset(FilterByQuery(plants, searchQuery))
      ensures Sorted(sortOption, r)
    {
      SortedAndFiltered(plants, sortOption, searchQuery)
    }

    method SetSearchQuery(query: string)
      modifies this
      ensures searchQuery == query
      ensures plants == old(plants) && sortOption == old(sortOption)
    {
      searchQuery := query;
    }

    method SetSortOption(option: SortOption)
      modifies this
      ensures sortOption == option
      ensures plants == old(plants) && searchQuery == old(searchQuery)
    {
      sortOption := option;
    }

    /** Appends one new record, planted today and never watered, after the existing ones. */
    method AddPlant(name: string, t: PlantType, wateringFrequency: Int32, notes: string, id: string, today: Date)
      modifies this
      ensures plants == old(plants) + [NewPlant(id, name, t, wateringFrequency, notes, today)]
      ensures old(UniqueIds(plants)) && !old(HasId(plants, id)) ==> UniqueIds(plants)
      ensures searchQuery == old(searchQuery) && sortOption == old(sortOption)
    {
      var newPlant := NewPlant(id, name, t, wateringFrequency, notes, today);
      if UniqueIds(plants) && !HasId(plants, id) {
        AddKeepsUniqueIds(plants, newPlant);
      }
      plants := plants + [newPlant];
    }

    /** Replaces every record whose id is the argument's id; a no-op when none has it. */
    method UpdatePlant(plant: Plant)
      modifies this
      ensures plants == ReplaceById(old(plants), plant)
      ensures old(UniqueIds(plants)) ==> UniqueIds(plants)
      ensures !old(HasId(plants, plant.id)) ==> plants == old(plants)
      ensures searchQuery == old(searchQuery) && sortOption == old(sortOption)
    {
      ReplaceByIdKeepsIds(plants, plant);
      if !HasId(plants, plant.id) {
        ReplaceByIdAbsent(plants, plant);
      }
      plants := ReplaceById(plants, plant);
    }

    /** Removes every record with the id; a no-op when none has it. */
    method DeletePlant(plantId: string)
      modifies this
      ensures plants == RemoveById(old(plants), plantId)
      ensures old(UniqueIds(plants)) ==> UniqueIds(plants)
      ensures !old(HasId(plants, plantId)) ==> plants == old(plants)
      ensures searchQuery == old(searchQuery) && sortOption == old(sortOption)
    {
      if UniqueIds(plants) {
        RemoveByIdKeepsUniqueIds(plants, plantId);
      }
      if !HasId(plants, plantId) {
        RemoveByIdAbsent(plants, plantId);
      }
      plants := RemoveById(plants, plantId);
    }

    /** Sets `lastWatered` of the record found by id to today; returns early when there is none. */
    method WaterPlant(plantId: string, today: Date)
      modifies this
      ensures plants == Watered(old(plants), plantId, today)
      ensures old(UniqueIds(plants)) ==> UniqueIds(plants)
      ensures !old(HasId(plants, plantId)) ==> plants == old(plants)
      ensures searchQuery == old(searchQuery) && sortOption == old(sortOption)
    {
      var found := FindById(plants, plantId);
      if found.None? {
        return;
      }
      UpdatePlant(found.value.(lastWatered := Some(today)));
    }

    /** The stored plants that need water today, in stored order. */
    method GetPlantsNeedingWater(today: Date) returns (r: seq<Plant>)
      ensures r == PlantsNeedingWater(plants, today)
      ensures forall p :: p in r <==> p in plants && NeedsWater(p, today)
      ensures IsSubsequence(r, plants)
    {
      r := PlantsNeedingWater(plants, today);
      PlantsNeedingWaterIsSublist(plants, today);
    }
  }
}
