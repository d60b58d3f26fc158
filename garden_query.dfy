/**
 * The garden's read-side queries: the search filter and the four sort orders that together
 * make up the displayed list, and the "needs water" selection.
 */
module GardenQuery {
  import opened Wrappers
  import opened KotlinText
  import opened Seqs
  import opened PlantModel

  datatype SortOption = Name | Type | WateringNeeded | PlantingDate

  // ---------------------------------------------------------------------------
  // Search filter
  // ---------------------------------------------------------------------------

  /** The plant's name, type name or notes contains the query, ignoring case. */
  predicate MatchesQuery(p: Plant, query: string) {
    || ContainsIgnoreCase(p.name, query)
    || ContainsIgnoreCase(TypeName(p.plantType), query)
    || ContainsIgnoreCase(p.notes, query)
  }

  /** A blank query keeps every plant; any other keeps the plants that match it. */
  function FilterByQuery(plants: seq<Plant>, query: string): (r: seq<Plant>)
    ensures IsBlank(query) ==> r == plants
    ensures !IsBlank(query) ==> forall p :: p in r <==> p in plants && MatchesQuery(p, query)
  {
    if IsBlank(query) then plants
    else
      FilterMembership(p => MatchesQuery(p, query), plants);
      Filter(p => MatchesQuery(p, query), plants)
  }

  /**
   * A non-blank query gives an order-preserving sub-list of the plants which holds every
   * occurrence of a matching plant and no occurrence of any other.
   */
  lemma FilterByQueryIsSublist(plants: seq<Plant>, query: string)
    requires !IsBlank(query)
    ensures IsSubsequence(FilterByQuery(plants, query), plants)
    ensures forall p :: multiset(FilterByQuery(plants, query))[p]
                        == if MatchesQuery(p, query) then multiset(plants)[p] else 0
  {
    FilterIsSubsequence(p => MatchesQuery(p, query), plants);
    FilterMultiset(p => MatchesQuery(p, query), plants);
  }

  /** Filtering an already filtered list with the same query changes nothing. */
  lemma FilterByQueryIdempotent(plants: seq<Plant>, query: string)
    ensures FilterByQuery(FilterByQuery(plants, query), query) == FilterByQuery(plants, query)
  {
    if !IsBlank(query) {
      FilterIdempotent(p => MatchesQuery(p, query), plants);
    }
  }

  // ---------------------------------------------------------------------------
  // Sort orders
  // ---------------------------------------------------------------------------

  /** `String.compareTo(other) <= 0`: lexicographic order on characters, a prefix first. */
  predicate StringLe(a: string, b: string)
    decreases |a|
  {
    if a == [] then true
    else if b == [] then false
    else if a[0] != b[0] then a[0] < b[0]
    else StringLe(a[1..], b[1..])
  }

  lemma {:induction false} StringLeTotal(a: string, b: string)
    ensures StringLe(a, b) || StringLe(b, a)
    decreases |a|
  {
    if a != [] && b != [] && a[0] == b[0] {
      StringLeTotal(a[1..], b[1..]);
    }
  }

  lemma {:induction false} StringLeTransitive(a: string, b: string, c: string)
    requires StringLe(a, b) && StringLe(b, c)
    ensures StringLe(a, c)
    decreases |a|
  {
    if a != [] && b != [] && c != [] && a[0] == b[0] == c[0] {
      StringLeTransitive(a[1..], b[1..], c[1..]);
    }
  }

  lemma {:induction false} StringLeAntisymmetric(a: string, b: string)
    requires StringLe(a, b) && StringLe(b, a)
    ensures a == b
    decreases |a|
  {
    if a != [] && b != [] {
      StringLeAntisymmetric(a[1..], b[1..]);
      assert a == [a[0]] + a[1..] && b == [b[0]] + b[1..];
    }
  }

  /** The WATERING_NEEDED key: the last watering date, with `LocalDate.MIN` for never watered. */
  function WateringKey(p: Plant): (d: Date)
    ensures p.lastWatered.Some? ==> d == p.lastWatered.value
    ensures p.lastWatered.None? ==> d == LocalDateMin
  {
    p.lastWatered.GetOr(LocalDateMin)
  }

  /** `a` may come before `b` in the order chosen by `opt`. */
  predicate KeyLe(opt: SortOption, a: Plant, b: Plant) {
    match opt
    case Name => StringLe(a.name, b.name)
    case Type => Ordinal(a.plantType) <= Ordinal(b.plantType)
    case WateringNeeded => WateringKey(a) <= WateringKey(b)
    case PlantingDate => b.plantingDate <= a.plantingDate  // descending
  }

  /** `a` and `b` have equal sort keys under `opt`. */
  predicate SameKey(opt: SortOption, a: Plant, b: Plant) {
    KeyLe(opt, a, b) && KeyLe(opt, b, a)
  }

  /** The test for "has the same sort key as `k`", as a filter predicate. */
  function SameKeyAs(opt: SortOption, k: Plant): Plant -> bool {
    p => SameKey(opt, p, k)
  }

  lemma KeyLeTotal(opt: SortOption, a: Plant, b: Plant)
    ensures KeyLe(opt, a, b) || KeyLe(opt, b, a)
  {
    if opt == Name {
      StringLeTotal(a.name, b.name);
    }
  }

  lemma KeyLeTransitive(opt: SortOption, a: Plant, b: Plant, c: Plant)
    requires KeyLe(opt, a, b) && KeyLe(opt, b, c)
    ensures KeyLe(opt, a, c)
  {
    if opt == Name {
      StringLeTransitive(a.name, b.name, c.name);
    }
  }

  /** Under NAME, equal keys mean equal names; under TYPE, equal kinds. */
  lemma SameKeyMeaning(a: Plant, b: Plant)
    ensures SameKey(Name, a, b) <==> a.name == b.name
    ensures SameKey(Type, a, b) <==> a.plantType == b.plantType
  {
    if SameKey(Name, a, b) {
      StringLeAntisymmetric(a.name, b.name);
    }
    if a.name == b.name {
      StringLeTotal(a.name, b.name);
    }
  }

  predicate Sorted(opt: SortOption, s: seq<Plant>) {
    forall i, j :: 0 <= i < j < |s| ==> KeyLe(opt, s[i], s[j])
  }

  lemma SortedAppend(opt: SortOption, s: seq<Plant>, x: Plant)
    requires Sorted(opt, s)
    requires forall i :: 0 <= i < |s| ==> KeyLe(opt, s[i], x)
    ensures Sorted(opt, s + [x])
  {
  }

  /**
   * Inserts `x` into the sorted list `s` after every element whose key is not greater
   * than its own, so that equal keys keep their order.
   */
  function Insert(opt: SortOption, s: seq<Plant>, x: Plant): (r: seq<Plant>)
    ensures multiset(r) == multiset(s) + multiset{x}
    ensures Sorted(opt, s) ==> Sorted(opt, r)
    decreases |s|
  {
    if s == [] then [x]
    else
      var init, last := s[..|s| - 1], s[|s| - 1];
      assert s == init + [last];
      if KeyLe(opt, last, x) then
        assert Sorted(opt, s) ==> Sorted(opt, s + [x]) by {
          if Sorted(opt, s) {
            forall i | 0 <= i < |s| ensures KeyLe(opt, s[i], x) {
              if i < |s| - 1 { KeyLeTransitive(opt, s[i], last, x); }
            }
            SortedAppend(opt, s, x);
          }
        }
        s + [x]
      else
        var r := Insert(opt, init, x);
        assert Sorted(opt, s) ==> Sorted(opt, r + [last]) by {
          if Sorted(opt, s) {
            KeyLeTotal(opt, last, x);
            forall i | 0 <= i < |r| ensures KeyLe(opt, r[i], last) {
              assert r[i] in multiset(r);
              if r[i] != x {
                assert r[i] in multiset(init);
                assert r[i] in init;
              }
            }
            SortedAppend(opt, r, last);
          }
        }
        r + [last]
  }

  /**
   * `sortedBy` / `sortedByDescending` for the chosen key: a stable sort (the library
   * uses a merge sort), written here as insertion of each element in turn.
   */
  function SortBy(opt: SortOption, s: seq<Plant>): (r: seq<Plant>)
    ensures multiset(r) == multiset(s)
    ensures Sorted(opt, r)
    decreases |s|
  {
    if s == [] then []
    else
      assert s == s[..|s| - 1] + [s[|s| - 1]];
      Insert(opt, SortBy(opt, s[..|s| - 1]), s[|s| - 1])
  }

  /** An element that sorts after `x` never shares a key class with it. */
  lemma LaterKeyNotShared(opt: SortOption, k: Plant, x: Plant, last: Plant)
    requires !KeyLe(opt, last, x)
    ensures !(SameKeyAs(opt, k)(x) && SameKeyAs(opt, k)(last))
  {
    if SameKey(opt, x, k) && SameKey(opt, last, k) {
      KeyLeTransitive(opt, last, k, x);
    }
  }

  lemma {:induction false} InsertStable(opt: SortOption, s: seq<Plant>, x: Plant, k: Plant)
    ensures Filter(SameKeyAs(opt, k), Insert(opt, s, x)) == Filter(SameKeyAs(opt, k), s + [x])
    decreases |s|
  {
    if s != [] {
      var init, last := s[..|s| - 1], s[|s| - 1];
      assert s == init + [last];
      if !KeyLe(opt, last, x) {
        InsertStable(opt, init, x, k);
        LaterKeyNotShared(opt, k, x, last);
        FilterSwapLast(SameKeyAs(opt, k), init, Insert(opt, init, x), x, last);
      }
    }
  }

  /**
   * Sorting is stable: for every key, the plants with that key appear in the sorted list
   * in the same relative order as in the input.
   */
  lemma {:induction false} SortStable(opt: SortOption, s: seq<Plant>, k: Plant)
    ensures Filter(SameKeyAs(opt, k), SortBy(opt, s)) == Filter(SameKeyAs(opt, k), s)
    decreases |s|
  {
    if s != [] {
      var f := SameKeyAs(opt, k);
      var init, last := s[..|s| - 1], s[|s| - 1];
      assert s == init + [last];
      SortStable(opt, init, k);
      InsertStable(opt, SortBy(opt, init), last, k);
      FilterConcat(f, SortBy(opt, init), [last]);
      FilterConcat(f, init, [last]);
    }
  }

  /** Two lists in order that agree on every key class are the same list. */
  lemma {:induction false} SortedSameClassesEqual(opt: SortOption, r: seq<Plant>, t: seq<Plant>)
    requires Sorted(opt, r) && Sorted(opt, t)
    requires forall k :: Filter(SameKeyAs(opt, k), r) == Filter(SameKeyAs(opt, k), t)
    ensures r == t
    decreases |r| + |t|
  {
    if r == [] || t == [] {
      if r != [] { NonEmptyClass(opt, r, t); }
      if t != [] { NonEmptyClass(opt, t, r); }
    } else {
      var c := SameKeyAs(opt, t[0]);
      assert r[0] == t[0] by {
        HeadsShareClass(opt, r, t);
        KeyLeTotal(opt, t[0], t[0]);
        assert c(r[0]) && c(t[0]);
        assert Filter(c, r) == Filter(c, t);
        assert r == [r[0]] + r[1..] && t == [t[0]] + t[1..];
        FilterConcat(c, [r[0]], r[1..]);
        FilterConcat(c, [t[0]], t[1..]);
        FilterSingleton(c, r[0]);
        FilterSingleton(c, t[0]);
        assert Filter(c, r)[0] == r[0] && Filter(c, t)[0] == t[0];
      }
      forall k ensures Filter(SameKeyAs(opt, k), r[1..]) == Filter(SameKeyAs(opt, k), t[1..]) {
        var d := SameKeyAs(opt, k);
        assert Filter(d, r) == Filter(d, t);
        assert r == [r[0]] + r[1..] && t == [t[0]] + t[1..];
        FilterConcat(d, [r[0]], r[1..]);
        FilterConcat(d, [t[0]], t[1..]);
        var h := Filter(d, [r[0]]);
        assert Filter(d, r[1..]) == Filter(d, r)[|h|..];
        assert Filter(d, t[1..]) == Filter(d, t)[|h|..];
      }
      SortedSameClassesEqual(opt, r[1..], t[1..]);
    }
  }

  /** The first element of a non-empty list is in its own key class, so that class is not empty. */
  lemma NonEmptyClass(opt: SortOption, r: seq<Plant>, t: seq<Plant>)
    requires r != []
    requires forall k :: Filter(SameKeyAs(opt, k), r) == Filter(SameKeyAs(opt, k), t)
    ensures t != []
  {
    var c := SameKeyAs(opt, r[0]);
    KeyLeTotal(opt, r[0], r[0]);
    FilterMembership(c, r);
    assert r[0] in Filter(c, r);
  }

  /** The heads of two ordered lists that agree on every key class have the same key. */
  lemma HeadsShareClass(opt: SortOption, r: seq<Plant>, t: seq<Plant>)
    requires r != [] && t != [] && Sorted(opt, r) && Sorted(opt, t)
    requires forall k :: Filter(SameKeyAs(opt, k), r) == Filter(SameKeyAs(opt, k), t)
    ensures SameKeyAs(opt, t[0])(r[0])
  {
    KeyLeTotal(opt, r[0], r[0]);
    KeyLeTotal(opt, t[0], t[0]);
    FilterMembership(SameKeyAs(opt, t[0]), t);
    FilterMembership(SameKeyAs(opt, t[0]), r);
    assert t[0] in Filter(SameKeyAs(opt, t[0]), t);
    assert t[0] in r;
    FilterMembership(SameKeyAs(opt, r[0]), r);
    FilterMembership(SameKeyAs(opt, r[0]), t);
    assert r[0] in Filter(SameKeyAs(opt, r[0]), r);
    assert r[0] in t;
    assert KeyLe(opt, r[0], t[0]) by {
      var i :| 0 <= i < |r| && r[i] == t[0];
      if i > 0 { assert KeyLe(opt, r[0], r[i]); }
    }
    assert KeyLe(opt, t[0], r[0]) by {
      var j :| 0 <= j < |t| && t[j] == r[0];
      if j > 0 { assert KeyLe(opt, t[0], t[j]); }
    }
  }

  /**
   * `SortBy` is the stable sort: any list that is in order and keeps, for every key, the
   * input's order of the plants with that key is exactly `SortBy`'s result. So the model
   * agrees with every stable sort, the library's merge sort included.
   */
  lemma SortByIsTheStableSort(opt: SortOption, s: seq<Plant>, r: seq<Plant>)
    requires Sorted(opt, r)
    requires forall k :: Filter(SameKeyAs(opt, k), r) == Filter(SameKeyAs(opt, k), s)
    ensures r == SortBy(opt, s)
  {
    forall k ensures Filter(SameKeyAs(opt, k), r) == Filter(SameKeyAs(opt, k), SortBy(opt, s)) {
      SortStable(opt, s, k);
    }
    SortedSameClassesEqual(opt, r, SortBy(opt, s));
  }

  /** A list that is already in order is returned unchanged. */
  lemma {:induction false} SortSortedIsIdentity(opt: SortOption, s: seq<Plant>)
    requires Sorted(opt, s)
    ensures SortBy(opt, s) == s
    decreases |s|
  {
    if s != [] {
      var init, last := s[..|s| - 1], s[|s| - 1];
      assert s == init + [last];
      SortedInit(opt, s);
      SortSortedIsIdentity(opt, init);
      if init != [] {
        assert KeyLe(opt, init[|init| - 1], last) by {
          SortedLastPair(opt, s);
        }
      }
      InsertAfterLast(opt, init, last);
    }
  }

  lemma SortedLastPair(opt: SortOption, s: seq<Plant>)
    requires |s| >= 2 && Sorted(opt, s)
    ensures KeyLe(opt, s[..|s| - 1][|s| - 2], s[|s| - 1])
  {
    assert s[..|s| - 1][|s| - 2] == s[|s| - 2];
  }

  lemma InsertAfterLast(opt: SortOption, s: seq<Plant>, x: Plant)
    requires s == [] || KeyLe(opt, s[|s| - 1], x)
    ensures Insert(opt, s, x) == s + [x]
  {
  }

  lemma SortedInit(opt: SortOption, s: seq<Plant>)
    requires s != [] && Sorted(opt, s)
    ensures Sorted(opt, s[..|s| - 1])
  {
  }

  /** Sorting twice by the same option gives the same order as sorting once. */
  lemma SortIdempotent(opt: SortOption, s: seq<Plant>)
    ensures SortBy(opt, SortBy(opt, s)) == SortBy(opt, s)
  {
    SortSortedIsIdentity(opt, SortBy(opt, s));
  }

  /**
   * Under WATERING_NEEDED a never-watered plant is preceded only by never-watered plants
   * and by plants last watered on `LocalDate.MIN` itself, which share its key.
   */
  lemma NeverWateredFirst(s: seq<Plant>, i: nat, j: nat)
    requires i < j < |SortBy(WateringNeeded, s)|
    requires SortBy(WateringNeeded, s)[j].lastWatered == None
    ensures SortBy(WateringNeeded, s)[i].lastWatered == None
            || SortBy(WateringNeeded, s)[i].lastWatered == Some(LocalDateMin)
  {
    var r := SortBy(WateringNeeded, s);
    assert Sorted(WateringNeeded, r);
    assert WateringKey(r[i]) <= WateringKey(r[j]) == LocalDateMin;
  }

  /** Under PLANTING_DATE the more recently planted of two plants comes first. */
  lemma PlantingDateNewestFirst(a: Plant, b: Plant)
    requires a.plantingDate < b.plantingDate
    ensures SortBy(PlantingDate, [a, b]) == [b, a]
  {
    assert [a, b][..1] == [a];
    assert [a][..0] == [];
  }

  // ---------------------------------------------------------------------------
  // The displayed list
  // ---------------------------------------------------------------------------

  /** `sortedAndFilteredPlants`: the search filter followed by the chosen sort. */
  function SortedAndFiltered(plants: seq<Plant>, opt: SortOption, query: string): (r: seq<Plant>)
    ensures multiset(r) == multiset(FilterByQuery(plants, query))
    ensures Sorted(opt, r)
    ensures forall p :: p in r <==> p in plants && (IsBlank(query) || MatchesQuery(p, query))
  {
    var filtered := FilterByQuery(plants, query);
    var r := SortBy(opt, filtered);
    assert forall p :: p in r <==> p in multiset(r);
    assert forall p :: p in filtered <==> p in multiset(filtered);
    r
  }

  /** The displayed list keeps, for each sort key, the stored order of the shown plants. */
  lemma SortedAndFilteredStable(plants: seq<Plant>, opt: SortOption, query: string, k: Plant)
    ensures Filter(SameKeyAs(opt, k), SortedAndFiltered(plants, opt, query))
            == Filter(SameKeyAs(opt, k), FilterByQuery(plants, query))
  {
    SortStable(opt, FilterByQuery(plants, query), k);
  }

  // ---------------------------------------------------------------------------
  // Needs water
  // ---------------------------------------------------------------------------

  /**
   * Never watered, or `today.minusDays(wateringFrequency).isAfter(lastWatered)`: strictly more
   * than `wateringFrequency` days have passed since the last watering.
   */
  predicate NeedsWater(p: Plant, today: Date) {
    match p.lastWatered
    case None => true
    case Some(d) => today - p.wateringFrequency > d
  }

  /** The plants that need water, in stored order. */
  function PlantsNeedingWater(plants: seq<Plant>, today: Date): (r: seq<Plant>)
    ensures forall p :: p in r <==> p in plants && NeedsWater(p, today)
  {
    FilterMembership(p => NeedsWater(p, today), plants);
    Filter(p => NeedsWater(p, today), plants)
  }

  /** The selection is an order-preserving sub-list holding every plant that needs water. */
  lemma PlantsNeedingWaterIsSublist(plants: seq<Plant>, today: Date)
    ensures IsSubsequence(PlantsNeedingWater(plants, today), plants)
    ensures forall p :: multiset(PlantsNeedingWater(plants, today))[p]
                        == if NeedsWater(p, today) then multiset(plants)[p] else 0
  {
    FilterIsSubsequence(p => NeedsWater(p, today), plants);
    FilterMultiset(p => NeedsWater(p, today), plants);
  }

  /** Needs water exactly when never watered or watered more than `wateringFrequency` days ago. */
  lemma NeedsWaterIff(p: Plant, today: Date)
    ensures p.lastWatered == None ==> NeedsWater(p, today)
    ensures p.lastWatered.Some? ==>
              (NeedsWater(p, today) <==> today - p.lastWatered.value > p.wateringFrequency)
  {
  }
}
