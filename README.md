# GardeningBug garden core, modelled in Dafny

GardeningBug is an Android app for keeping track of garden plants. Its logic is a small
in-memory store of `Plant` records kept by `GardenViewModel`. The store supports add, update,
delete and water. On top of it sit two queries: the searchable, sortable list the garden
screen shows, and the list of plants that need water. The add and edit dialogs are small
forms that decide when their confirm button is enabled and what they submit. A Room entity
mirrors the record field for field.

The project models:

- `plant.dfy` (module `PlantModel`): the `Plant` record with its defaults and the
  `PlantType` enum with its declaration order. Dates are `LocalDate` epoch days, bounded by
  `LocalDate.MIN` and `LocalDate.MAX`. The frequency is a 32-bit `Int`.
- `plant_entity.dfy` (module `PlantEntityMapping`): `PlantEntity`, `toPlant` and `fromPlant`,
  both round trips.
- `garden_query.dfy` (module `GardenQuery`): the search filter, the four sort orders
  (stable, as the library's `sortedBy` is), the `sortedAndFilteredPlants` pipeline and the
  needs-water selection.
- `garden_view_model.dfy` (module `GardenViewModel`): the store as a class with
  `plants`, `searchQuery` and `sortOption` fields. Each mutator is specified by a function
  of the old list: `ReplaceById`, `RemoveById`, `Watered`. The module also holds the mock
  garden the store starts from and the edit rule the garden screen applies (`plant.copy`).
- `plant_form.dfy`, `add_plant_dialog.dfy`, `edit_plant_dialog.dfy`: the confirm-enabled
  rule and the submitted frequency, shared by both dialogs. Each dialog's four form fields
  are a class with one method per input callback. Pressing confirm is modelled as the
  callbacks it invokes, in order.
- `kotlin_text.dfy`, `seqs.dfy`, `wrappers.dfy`: Kotlin library behaviour the code relies on.
  This covers `isBlank`, `contains(ignoreCase = true)`, `toIntOrNull`, `Int.toString`,
  `List.filter` and nullable values.

`UUID.randomUUID()` and `LocalDate.now()` become the parameters `id` and `today`. The store
does not check that ids are unique, and the model does not require it. Instead each mutator
promises that it keeps the ids unique when they were unique before. `addPlant` keeps them
unique only when given a fresh id. Three behaviours of the code are kept as written:

- `updatePlant` replaces every record with the id, not just one.
- `waterPlant` on a duplicated id gives every record with that id a copy of the first match.
- The frequency is never checked to be positive.

## Model

| member | source | states |
|---|---|---|
| `PlantModel.TypeName` | app/src/main/java/com/nymy/gardeningbug/data/model/Plant.kt:15-21 | defined as the enum constant's `name`: "VEGETABLE", "HERB", "FLOWER", "FRUIT", "TREE" |
| `PlantModel.Ordinal` | app/src/main/java/com/nymy/gardeningbug/data/model/Plant.kt:15-21 | a kind's ordinal is its position among the entries |
| `PlantModel.EntriesAreOrdinals` | app/src/main/java/com/nymy/gardeningbug/data/model/Plant.kt:15-21 | there are exactly five kinds; entry i has ordinal i; every kind is an entry |
| `PlantModel.DeclarationOrder` | app/src/main/java/com/nymy/gardeningbug/data/model/Plant.kt:15-21 | VEGETABLE < HERB < FLOWER < FRUIT < TREE by ordinal; distinct kinds have distinct names |
| `PlantModel.PlantDefaults` | app/src/main/java/com/nymy/gardeningbug/data/model/Plant.kt:11-12 | a plant built without `lastWatered` and `notes` has null and "" |
| `PlantModel.CopyChangesOneField` | app/src/main/java/com/nymy/gardeningbug/data/model/Plant.kt:5-13 | a copy changing `lastWatered` or `name` leaves every other field equal |
| `PlantEntityMapping.ToPlant` | app/src/main/java/com/nymy/gardeningbug/data/local/PlantEntity.kt:20-30 | the primary key and the nullable `lastWatered` are carried unchanged |
| `PlantEntityMapping.FromPlant` | app/src/main/java/com/nymy/gardeningbug/data/local/PlantEntity.kt:33-43 | the primary key and the nullable `lastWatered` are carried unchanged |
| `PlantEntityMapping.PlantRoundTrip` | app/src/main/java/com/nymy/gardeningbug/data/local/PlantEntity.kt:20-44 | `fromPlant(p).toPlant() == p` for every plant |
| `PlantEntityMapping.EntityRoundTrip` | app/src/main/java/com/nymy/gardeningbug/data/local/PlantEntity.kt:20-44 | `fromPlant(e.toPlant()) == e` for every entity |
| `PlantEntityMapping.ConversionsCopyAllFields` | app/src/main/java/com/nymy/gardeningbug/data/local/PlantEntity.kt:21-42 | both conversions are total and copy all seven fields untransformed |
| `PlantEntityMapping.ConversionsInjective` | app/src/main/java/com/nymy/gardeningbug/data/local/PlantEntity.kt:20-44 | distinct plants give distinct rows and distinct rows distinct plants |
| `KotlinText.IsWhitespace` | app/src/main/java/com/nymy/gardeningbug/ui/components/AddPlantDialog.kt:82 | defined as Kotlin's `Char.isWhitespace()`: the JVM's `Character.isWhitespace` or `isSpaceChar` code points, so tab to carriage return, 0x1C-0x1F and every space separator including the no-break spaces |
| `KotlinText.IsBlank` | app/src/main/java/com/nymy/gardeningbug/ui/components/AddPlantDialog.kt:82 | defined as "every character is whitespace", so the empty string is blank |
| `KotlinText.IndexOfIgnoreCase` | app/src/main/java/com/nymy/gardeningbug/ui/viewmodel/GardenViewModel.kt:41-43 | the result is -1 when the query occurs nowhere from `from` on, else the first offset where it occurs ignoring case |
| `KotlinText.ContainsIgnoreCaseIff` | app/src/main/java/com/nymy/gardeningbug/ui/viewmodel/GardenViewModel.kt:41-43 | `contains(q, ignoreCase = true)` holds iff some offset matches |
| `KotlinText.ContainsIgnoresQueryCase` | app/src/main/java/com/nymy/gardeningbug/ui/viewmodel/GardenViewModel.kt:41-43 | upper-casing the query does not change the answer |
| `KotlinText.ParseInt` | app/src/main/java/com/nymy/gardeningbug/ui/components/AddPlantDialog.kt:77 | `toIntOrNull` gives a number iff the text is an optional '-' or '+' followed by at least one digit and its value fits in an Int; the number is that value; leading whitespace gives null |
| `KotlinText.IntToString` | app/src/main/java/com/nymy/gardeningbug/ui/components/EditPlantDialog.kt:20 | defined as `Int.toString()`: a '-' for negatives, then the digits without leading zeros (`ParseIntRoundTrip` inverts it) |
| `KotlinText.ParseIntRoundTrip` | app/src/main/java/com/nymy/gardeningbug/ui/components/EditPlantDialog.kt:20 | parsing `Int.toString()` of any Int gives that Int back |
| `KotlinText.ParseIntAccepts` | app/src/main/java/com/nymy/gardeningbug/ui/components/AddPlantDialog.kt:82 | "7", "+7", "-3" and "007" parse |
| `KotlinText.ParseIntRejects` | app/src/main/java/com/nymy/gardeningbug/ui/components/AddPlantDialog.kt:82 | "", "-", "+", " 7", "7 " and "7a" give null |
| `Seqs.Filter` | app/src/main/java/com/nymy/gardeningbug/ui/viewmodel/GardenViewModel.kt:40-44 | no longer than the input, and every kept element passes (membership, multiplicity and order are the lemmas below) |
| `Seqs.FilterMembership` | app/src/main/java/com/nymy/gardeningbug/ui/viewmodel/GardenViewModel.kt:40-44 | an element is kept iff it is in the list and passes |
| `Seqs.FilterMultiset` | app/src/main/java/com/nymy/gardeningbug/ui/viewmodel/GardenViewModel.kt:40-44 | every occurrence of a passing element is kept and none of a failing one |
| `Seqs.FilterIsSubsequence` | app/src/main/java/com/nymy/gardeningbug/ui/viewmodel/GardenViewModel.kt:40-44 | the result is an order-preserving sub-list of the input |
| `Seqs.FilterIdempotent` | app/src/main/java/com/nymy/gardeningbug/ui/viewmodel/GardenViewModel.kt:40-44 | filtering twice by the same test equals filtering once |
| `GardenQuery.MatchesQuery` | app/src/main/java/com/nymy/gardeningbug/ui/viewmodel/GardenViewModel.kt:41-43 | defined as: the name, the type name or the notes contains the query, ignoring case |
| `GardenQuery.FilterByQuery` | app/src/main/java/com/nymy/gardeningbug/ui/viewmodel/GardenViewModel.kt:37-45 | a blank query returns the list unchanged; otherwise a plant is kept iff its name, type name or notes contains the query ignoring case |
| `GardenQuery.FilterByQueryIsSublist` | app/src/main/java/com/nymy/gardeningbug/ui/viewmodel/GardenViewModel.kt:40-44 | a non-blank query yields an order-preserving sub-list with every occurrence of each matching plant |
| `GardenQuery.FilterByQueryIdempotent` | app/src/main/java/com/nymy/gardeningbug/ui/viewmodel/GardenViewModel.kt:37-45 | re-applying the same query changes nothing |
| `GardenQuery.StringLe` | app/src/main/java/com/nymy/gardeningbug/ui/viewmodel/GardenViewModel.kt:48 | defined as `a.compareTo(b) <= 0`: a proper prefix comes first, otherwise the first differing character decides |
| `GardenQuery.StringLeTotal` | app/src/main/java/com/nymy/gardeningbug/ui/viewmodel/GardenViewModel.kt:48 | any two names are ordered one way or the other by `compareTo` |
| `GardenQuery.StringLeTransitive` | app/src/main/java/com/nymy/gardeningbug/ui/viewmodel/GardenViewModel.kt:48 | the name order is transitive |
| `GardenQuery.StringLeAntisymmetric` | app/src/main/java/com/nymy/gardeningbug/ui/viewmodel/GardenViewModel.kt:48 | names ordered both ways are equal |
| `GardenQuery.WateringKey` | app/src/main/java/com/nymy/gardeningbug/ui/viewmodel/GardenViewModel.kt:50-52 | the key is the last watering date, or `LocalDate.MIN` when never watered |
| `GardenQuery.KeyLe` | app/src/main/java/com/nymy/gardeningbug/ui/viewmodel/GardenViewModel.kt:47-54 | defined per option: names by `compareTo`, types by ordinal, watering key ascending, planting date descending |
| `GardenQuery.KeyLeTotal` | app/src/main/java/com/nymy/gardeningbug/ui/viewmodel/GardenViewModel.kt:47-54 | every sort order compares any two plants |
| `GardenQuery.KeyLeTransitive` | app/src/main/java/com/nymy/gardeningbug/ui/viewmodel/GardenViewModel.kt:47-54 | every sort order is transitive |
| `GardenQuery.SameKeyMeaning` | app/src/main/java/com/nymy/gardeningbug/ui/viewmodel/GardenViewModel.kt:48-49 | equal NAME keys mean equal names; equal TYPE keys mean equal kinds |
| `GardenQuery.Insert` | app/src/main/java/com/nymy/gardeningbug/ui/viewmodel/GardenViewModel.kt:47-54 | inserting adds exactly one element and keeps an ordered list ordered |
| `GardenQuery.SortBy` | app/src/main/java/com/nymy/gardeningbug/ui/viewmodel/GardenViewModel.kt:47-54 | the result is a permutation of the input, ordered by the option's key |
| `GardenQuery.InsertStable` | app/src/main/java/com/nymy/gardeningbug/ui/viewmodel/GardenViewModel.kt:47-54 | inserting x keeps, within every key class, the order of the list followed by x |
| `GardenQuery.SortStable` | app/src/main/java/com/nymy/gardeningbug/ui/viewmodel/GardenViewModel.kt:47-54 | plants with equal keys keep their input order |
| `GardenQuery.SortedSameClassesEqual` | app/src/main/java/com/nymy/gardeningbug/ui/viewmodel/GardenViewModel.kt:47-54 | two ordered lists that agree on every key class are equal |
| `GardenQuery.SortByIsTheStableSort` | app/src/main/java/com/nymy/gardeningbug/ui/viewmodel/GardenViewModel.kt:47-54 | any ordered list keeping each key class's input order equals the sort's result |
| `GardenQuery.SortSortedIsIdentity` | app/src/main/java/com/nymy/gardeningbug/ui/viewmodel/GardenViewModel.kt:47-54 | an already ordered list is returned unchanged |
| `GardenQuery.SortIdempotent` | app/src/main/java/com/nymy/gardeningbug/ui/viewmodel/GardenViewModel.kt:47-54 | sorting twice by one option equals sorting once |
| `GardenQuery.NeverWateredFirst` | app/src/main/java/com/nymy/gardeningbug/ui/viewmodel/GardenViewModel.kt:50-52 | under WATERING_NEEDED only never-watered plants, or plants watered on `LocalDate.MIN`, precede a never-watered plant |
| `GardenQuery.PlantingDateNewestFirst` | app/src/main/java/com/nymy/gardeningbug/ui/viewmodel/GardenViewModel.kt:53 | under PLANTING_DATE the more recently planted plant comes first |
| `GardenQuery.SortedAndFiltered` | app/src/main/java/com/nymy/gardeningbug/ui/viewmodel/GardenViewModel.kt:37-54 | the displayed list is a permutation of the filtered list, ordered by the option, holding exactly the matching plants |
| `GardenQuery.SortedAndFilteredStable` | app/src/main/java/com/nymy/gardeningbug/ui/viewmodel/GardenViewModel.kt:37-54 | plants with equal keys are shown in stored order |
| `GardenQuery.NeedsWater` | app/src/main/java/com/nymy/gardeningbug/ui/viewmodel/GardenViewModel.kt:104-105 | defined as: never watered, or `today - wateringFrequency` is after the last watering |
| `GardenQuery.PlantsNeedingWater` | app/src/main/java/com/nymy/gardeningbug/ui/viewmodel/GardenViewModel.kt:101-107 | a plant is selected iff it is stored and needs water |
| `GardenQuery.PlantsNeedingWaterIsSublist` | app/src/main/java/com/nymy/gardeningbug/ui/viewmodel/GardenViewModel.kt:101-107 | the selection is an order-preserving sub-list with every occurrence of each plant that needs water |
| `GardenQuery.NeedsWaterIff` | app/src/main/java/com/nymy/gardeningbug/ui/viewmodel/GardenViewModel.kt:104-105 | needs water iff never watered or strictly more than `wateringFrequency` days since the last watering |
| `GardenViewModel.NewPlant` | app/src/main/java/com/nymy/gardeningbug/ui/viewmodel/GardenViewModel.kt:75-82 | the new record has the given id, name, type, frequency and notes, is planted today, and has never been watered |
| `GardenViewModel.AddKeepsUniqueIds` | app/src/main/java/com/nymy/gardeningbug/ui/viewmodel/GardenViewModel.kt:83 | appending a record with a fresh id keeps ids unique |
| `GardenViewModel.ReplaceById` | app/src/main/java/com/nymy/gardeningbug/ui/viewmodel/GardenViewModel.kt:86-90 | same length; each record with the id becomes the argument, all others unchanged |
| `GardenViewModel.ReplaceByIdAbsent` | app/src/main/java/com/nymy/gardeningbug/ui/viewmodel/GardenViewModel.kt:86-90 | an update whose id is not stored is a no-op |
| `GardenViewModel.ReplaceByIdKeepsIds` | app/src/main/java/com/nymy/gardeningbug/ui/viewmodel/GardenViewModel.kt:86-90 | every position keeps its id, so unique ids stay unique |
| `GardenViewModel.ReplaceByIdAt` | app/src/main/java/com/nymy/gardeningbug/ui/viewmodel/GardenViewModel.kt:86-90 | with unique ids, exactly the record at the id's position is replaced |
| `GardenViewModel.RemoveById` | app/src/main/java/com/nymy/gardeningbug/ui/viewmodel/GardenViewModel.kt:92-94 | a record remains iff it was stored and has another id; none with the id remains |
| `GardenViewModel.RemoveByIdIsSublist` | app/src/main/java/com/nymy/gardeningbug/ui/viewmodel/GardenViewModel.kt:92-94 | the remaining records keep their order and every occurrence of the others stays |
| `GardenViewModel.RemoveByIdAbsent` | app/src/main/java/com/nymy/gardeningbug/ui/viewmodel/GardenViewModel.kt:92-94 | deleting an absent id is a no-op |
| `GardenViewModel.FilterKeepsUniqueIds` | app/src/main/java/com/nymy/gardeningbug/ui/viewmodel/GardenViewModel.kt:93 | filtering a list with unique ids keeps them unique |
| `GardenViewModel.RemoveByIdKeepsUniqueIds` | app/src/main/java/com/nymy/gardeningbug/ui/viewmodel/GardenViewModel.kt:92-94 | deleting keeps ids unique |
| `GardenViewModel.FindById` | app/src/main/java/com/nymy/gardeningbug/ui/viewmodel/GardenViewModel.kt:97 | `find` is null iff no record has the id, else the first record that has it |
| `GardenViewModel.Watered` | app/src/main/java/com/nymy/gardeningbug/ui/viewmodel/GardenViewModel.kt:96-99 | defined as: the list unchanged when `find` gives null, otherwise `updatePlant` of the found record with `lastWatered` = today |
| `GardenViewModel.WateredEffect` | app/src/main/java/com/nymy/gardeningbug/ui/viewmodel/GardenViewModel.kt:96-99 | with unique ids the record with the id gets `lastWatered` = today and nothing else changes; ids stay unique |
| `GardenViewModel.WateredAbsent` | app/src/main/java/com/nymy/gardeningbug/ui/viewmodel/GardenViewModel.kt:97-98 | watering an id that is not stored changes nothing, even with duplicate ids |
| `GardenViewModel.ApplyEdit` | app/src/main/java/com/nymy/gardeningbug/ui/screens/GardenScreen.kt:149-156 | the edit sets name, type, frequency and notes and keeps id, planting date and last watering |
| `GardenViewModel.EditPlant` | app/src/main/java/com/nymy/gardeningbug/ui/screens/GardenScreen.kt:149-156 | saving an edit of a stored plant replaces just that record and keeps ids unique |
| `GardenViewModel.MockPlants` | app/src/main/java/com/nymy/gardeningbug/ui/viewmodel/GardenViewModel.kt:109-203 | the mock garden has ten plants |
| `GardenViewModel.MockPlantsUniqueIds` | app/src/main/java/com/nymy/gardeningbug/ui/viewmodel/GardenViewModel.kt:112-201 | the mock garden's ids are distinct |
| `GardenViewModel.MockPlantsNeedingWater` | app/src/main/java/com/nymy/gardeningbug/ui/viewmodel/GardenViewModel.kt:121-200 | on the mock garden exactly [Basil] needs water; Maple Tree, watered 8 days ago every 10 days, does not |
| `GardenViewModel.GardenViewModel.constructor` | app/src/main/java/com/nymy/gardeningbug/ui/viewmodel/GardenViewModel.kt:24-27 | the store starts with the mock garden, an empty query and NAME order, with unique ids |
| `GardenViewModel.GardenViewModel.SortedAndFilteredPlants` | app/src/main/java/com/nymy/gardeningbug/ui/viewmodel/GardenViewModel.kt:32-54 | the shown list is a permutation of the filtered store, ordered by the current option |
| `GardenViewModel.GardenViewModel.SetSearchQuery` | app/src/main/java/com/nymy/gardeningbug/ui/viewmodel/GardenViewModel.kt:61-63 | sets the query and changes nothing else |
| `GardenViewModel.GardenViewModel.SetSortOption` | app/src/main/java/com/nymy/gardeningbug/ui/viewmodel/GardenViewModel.kt:65-67 | sets the sort option and changes nothing else |
| `GardenViewModel.GardenViewModel.AddPlant` | app/src/main/java/com/nymy/gardeningbug/ui/viewmodel/GardenViewModel.kt:69-84 | appends exactly the new record after the unchanged old ones; a fresh id keeps ids unique |
| `GardenViewModel.GardenViewModel.UpdatePlant` | app/src/main/java/com/nymy/gardeningbug/ui/viewmodel/GardenViewModel.kt:86-90 | the list becomes `ReplaceById` of the old list; no-op on an absent id; unique ids stay unique |
| `GardenViewModel.GardenViewModel.DeletePlant` | app/src/main/java/com/nymy/gardeningbug/ui/viewmodel/GardenViewModel.kt:92-94 | the list becomes `RemoveById` of the old list; no-op on an absent id; unique ids stay unique |
| `GardenViewModel.GardenViewModel.WaterPlant` | app/src/main/java/com/nymy/gardeningbug/ui/viewmodel/GardenViewModel.kt:96-99 | the list becomes `Watered` of the old list (see `WateredEffect`); no-op on an absent id; unique ids stay unique |
| `GardenViewModel.GardenViewModel.GetPlantsNeedingWater` | app/src/main/java/com/nymy/gardeningbug/ui/viewmodel/GardenViewModel.kt:101-107 | returns `PlantsNeedingWater` of the store: an order-preserving sub-list holding every occurrence of each plant that needs water and nothing else |
| `PlantForm.ConfirmEnabled` | app/src/main/java/com/nymy/gardeningbug/ui/components/AddPlantDialog.kt:82 | defined as: the name is not blank and the frequency text parses as an Int (the same rule at EditPlantDialog.kt:85) |
| `PlantForm.SubmittedFrequency` | app/src/main/java/com/nymy/gardeningbug/ui/components/AddPlantDialog.kt:77 | the parsed frequency, or the fallback when the text does not parse |
| `PlantForm.ConfirmClick` | app/src/main/java/com/nymy/gardeningbug/ui/components/AddPlantDialog.kt:72-82 | disabled: no callback; enabled: `onConfirm` with the form's name, type and notes and the parsed frequency, then `onDismiss` |
| `PlantForm.EnabledConfirmIgnoresFallback` | app/src/main/java/com/nymy/gardeningbug/ui/components/AddPlantDialog.kt:77-82 | when confirm is enabled the fallback frequency never matters |
| `PlantForm.NoPositivityCheck` | app/src/main/java/com/nymy/gardeningbug/ui/components/AddPlantDialog.kt:77-82 | "0" and "-3" enable confirm and are submitted as 0 and -3 |
| `PlantForm.BlankNameDisables` | app/src/main/java/com/nymy/gardeningbug/ui/components/AddPlantDialog.kt:82 | an empty or whitespace name disables confirm |
| `AddPlantDialog.AddPlantForm.constructor` | app/src/main/java/com/nymy/gardeningbug/ui/components/AddPlantDialog.kt:15-18 | the form starts as "", VEGETABLE, "7", "" with confirm disabled |
| `AddPlantDialog.AddPlantForm.OnNameChange` | app/src/main/java/com/nymy/gardeningbug/ui/components/AddPlantDialog.kt:32 | sets the name only |
| `AddPlantDialog.AddPlantForm.OnTypeClick` | app/src/main/java/com/nymy/gardeningbug/ui/components/AddPlantDialog.kt:45-48 | choosing a radio option sets the type only |
| `AddPlantDialog.AddPlantForm.OnFrequencyChange` | app/src/main/java/com/nymy/gardeningbug/ui/components/AddPlantDialog.kt:56 | sets the frequency text only |
| `AddPlantDialog.AddPlantForm.OnNotesChange` | app/src/main/java/com/nymy/gardeningbug/ui/components/AddPlantDialog.kt:64 | sets the notes only |
| `AddPlantDialog.AddPlantForm.OnConfirmClick` | app/src/main/java/com/nymy/gardeningbug/ui/components/AddPlantDialog.kt:72-82 | no callback while disabled; else `onConfirm` with the held values and parsed frequency, then `onDismiss` |
| `AddPlantDialog.InitialFormDisabledByName` | app/src/main/java/com/nymy/gardeningbug/ui/components/AddPlantDialog.kt:15-82 | the initial frequency "7" parses, but the blank initial name disables confirm |
| `AddPlantDialog.NamedInitialFormSubmitsDefault` | app/src/main/java/com/nymy/gardeningbug/ui/components/AddPlantDialog.kt:74-82 | naming the untouched form enables confirm, which submits VEGETABLE, 7 days and "" |
| `EditPlantDialog.EditPlantForm.constructor` | app/src/main/java/com/nymy/gardeningbug/ui/components/EditPlantDialog.kt:18-21 | the form starts from the plant's name, type, decimal frequency and notes; confirm is enabled iff the name is not blank |
| `EditPlantDialog.EditPlantForm.OnNameChange` | app/src/main/java/com/nymy/gardeningbug/ui/components/EditPlantDialog.kt:35 | sets the name only |
| `EditPlantDialog.EditPlantForm.OnTypeClick` | app/src/main/java/com/nymy/gardeningbug/ui/components/EditPlantDialog.kt:48-51 | choosing a radio option sets the type only |
| `EditPlantDialog.EditPlantForm.OnFrequencyChange` | app/src/main/java/com/nymy/gardeningbug/ui/components/EditPlantDialog.kt:59 | sets the frequency text only |
| `EditPlantDialog.EditPlantForm.OnNotesChange` | app/src/main/java/com/nymy/gardeningbug/ui/components/EditPlantDialog.kt:67 | sets the notes only |
| `EditPlantDialog.EditPlantForm.OnConfirmClick` | app/src/main/java/com/nymy/gardeningbug/ui/components/EditPlantDialog.kt:76-85 | no callback while disabled; else `onConfirm` with the edited values and parsed frequency, then `onDismiss` |
| `EditPlantDialog.UntouchedFormSavesSamePlant` | app/src/main/java/com/nymy/gardeningbug/ui/components/EditPlantDialog.kt:18-85 | on the untouched form confirm is enabled iff the name is not blank, and saving yields the plant itself |
| `EditPlantDialog.UnparsableFrequencyNotSubmitted` | app/src/main/java/com/nymy/gardeningbug/ui/components/EditPlantDialog.kt:80-85 | unparsable text disables confirm, so the old-frequency fallback is never submitted |

## Left out

- Compose layout, theming and window styling are not modelled. Neither is the rest of the garden screen beyond its edit rule.
- The coroutine and `StateFlow` plumbing is not modelled: `combine`, `stateIn`, `WhileSubscribed(5000)` and the initial empty list. `sortedAndFilteredPlants` is a function of the store's current fields.
- The `_selectedPlant` field is never read or written after it is created, so it has no counterpart.
- `PreviewGardenViewModel` is not modelled. Its mutators do nothing, and its needs-water filter is the same as the store's.
- The Room DAO and the database singleton are not modelled. They are generated SQL and lazy initialisation, and the view model does not use them.
- Date formatting for display is not modelled.
- `KotlinText.IndexOfIgnoreCase`: case is folded for ASCII letters only. The JVM's `regionMatches` also folds other letters.
- `KotlinText.ParseInt`: only the ASCII digits 0-9 are accepted. `Character.digit` also accepts the other Unicode decimal digits.
- `GardenQuery.SortBy`: the NAME order compares Unicode code points. `String.compareTo` compares UTF-16 code units, and the two orders differ only for characters outside the Basic Multilingual Plane.
- `GardenQuery.NeedsWaterIff`: `minusDays` throws `DateTimeException` when today minus the frequency falls outside `LocalDate`'s range. The model computes with unbounded integers instead.
- `GardenViewModel.MockPlants`: it requires `today` to be at least 730 days after `LocalDate.MIN`. For earlier dates `minusDays` would throw.
