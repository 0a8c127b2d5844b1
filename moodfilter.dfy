/**
  The filter panel of the mood history: the panel keeps its own copy of the
  filters, every change is also reported through `onFiltersChange`, the
  mood chips toggle membership in the `moods` list, and "clear all" goes
  back to the defaults.
*/
module MoodFilterPanel {
  import opened Js

  /** `moods.filter(x => x !== m)`: every occurrence of `m` goes, the rest keep their order. */
  function Remove(moods: seq<string>, m: string): (r: seq<string>)
    ensures m !in r
    ensures forall x :: x in r <==> x in moods && x != m
    ensures forall x | x != m :: multiset(r)[x] == multiset(moods)[x]
    ensures |r| <= |moods|
  {
    if moods == [] then []
    else
      assert moods == [moods[0]] + moods[1..];
      var rest := Remove(moods[1..], m);
      if moods[0] == m then rest else [moods[0]] + rest
  }

  /** Removing a mood that is not there changes nothing. */
  lemma {:induction false} RemoveAbsent(moods: seq<string>, m: string)
    requires m !in moods
    ensures Remove(moods, m) == moods
  {
    if moods != [] {
      RemoveAbsent(moods[1..], m);
    }
  }

  /** Removing from a list with one more element at the end. */
  lemma {:induction false} RemoveAppend(moods: seq<string>, x: string, m: string)
    ensures Remove(moods + [x], m) == Remove(moods, m) + (if x == m then [] else [x])
  {
    if moods == [] {
      assert moods + [x] == [x];
    } else {
      assert (moods + [x])[1..] == moods[1..] + [x];
      RemoveAppend(moods[1..], x, m);
    }
  }

  /** `handleMoodChipToggle`'s new list (lines 55-57): a present mood is
      removed everywhere, an absent one appended at the end. */
  function Toggle(moods: seq<string>, m: string): (r: seq<string>)
    ensures m in r <==> m !in moods
    ensures m !in moods ==> r == moods + [m]
    ensures m in moods ==> r == Remove(moods, m)
  {
    if m in moods then Remove(moods, m) else moods + [m]
  }

  /** Toggling a mood that was not selected, then toggling it again, restores the list. */
  lemma ToggleAbsentTwice(moods: seq<string>, m: string)
    requires m !in moods
    ensures Toggle(Toggle(moods, m), m) == moods
  {
    RemoveAppend(moods, m, m);
    RemoveAbsent(moods, m);
  }

  predicate NoDuplicates(moods: seq<string>)
  {
    forall i, j | 0 <= i < j < |moods| :: moods[i] != moods[j]
  }

  /** On a list without duplicates, toggling a selected mood twice moves it
      to the end: the list comes back unchanged exactly when the mood was
      already last. */
  lemma TogglePresentTwice(moods: seq<string>, m: string)
    requires NoDuplicates(moods) && m in moods
    ensures Toggle(Toggle(moods, m), m) == Remove(moods, m) + [m]
    ensures Toggle(Toggle(moods, m), m) == moods <==> moods[|moods| - 1] == m
  {
    var r := Remove(moods, m);
    assert Toggle(moods, m) == r;
    if moods[|moods| - 1] == m {
      LastRemoved(moods);
    } else {
      assert (r + [m])[|r|] == m;
    }
  }

  /** Removing the last mood of a duplicate-free list leaves the moods before it. */
  lemma LastRemoved(moods: seq<string>)
    requires NoDuplicates(moods) && moods != []
    ensures Remove(moods, moods[|moods| - 1]) + [moods[|moods| - 1]] == moods
  {
    var m := moods[|moods| - 1];
    var init := moods[..|moods| - 1];
    assert m !in init by {
      forall i | 0 <= i < |init| ensures init[i] != m {
        assert init[i] == moods[i];
      }
    }
    assert moods == init + [m];
    RemoveAppended(init, m);
  }

  lemma RemoveAppended(init: seq<string>, m: string)
    requires m !in init
    ensures Remove(init + [m], m) == init
  {
    RemoveAppend(init, m, m);
    RemoveAbsent(init, m);
  }

  /** The counterexample to "twice restores" for a mood that is not last. */
  lemma ToggleTwiceReorders()
    ensures Toggle(Toggle(["happy", "sad"], "happy"), "happy") == ["sad", "happy"]
  {
    TogglePresentTwice(["happy", "sad"], "happy");
    assert Remove(["happy", "sad"], "happy") == ["sad"] by {
      assert ["happy", "sad"][1..] == ["sad"];
      assert ["sad"][1..] == [];
    }
  }

  /** `localFilters.moods || []`, for a `moods` field that is a list or falsy. */
  predicate MoodsReadable(v: Value)
  {
    !Truthy(v) || v.StrList?
  }

  function MoodsOf(v: Value): (moods: seq<string>)
    requires MoodsReadable(v)
    ensures !Truthy(v) ==> moods == []
    ensures v.StrList? ==> moods == v.items
  {
    if v.StrList? then v.items else []
  }

  /** The time-range choices of the panel's select (lines 15-21): value and label. */
  const TimeRangeOptions: seq<(string, string)> :=
    [("week", "This Week"), ("month", "This Month"), ("quarter", "Last 3 Months"),
     ("year", "This Year"), ("all", "All Time")]

  /** The label of the first option with the given value. */
  function OptionLabel(options: seq<(string, string)>, value: string): (found: Option<string>)
    ensures found.Some? <==> exists i | 0 <= i < |options| :: options[i].0 == value
    ensures found.Some? ==> exists i | 0 <= i < |options| :: options[i] == (value, found.value)
  {
    if options == [] then None
    else if options[0].0 == value then Some(options[0].1)
    else
      var rest := OptionLabel(options[1..], value);
      assert forall i | 1 <= i < |options| :: options[i] == options[1..][i - 1];
      rest
  }

  /** The filters `clearAllFilters` installs (lines 63-68). */
  const Defaults: Object := map["timeRange" := Str("month"), "moods" := StrList([]),
                                "sortBy" := Str("newest"), "searchQuery" := Str("")]

  /** `localFilters.moods && localFilters.moods.length > 0` */
  predicate MoodsSelected(v: Value)
  {
    match v
    case StrList(items) => |items| > 0
    case Str(s) => s != ""
    case _ => false
  }

  /** `hasActiveFilters` (lines 73-78): something differs from the defaults.
      A missing time range or sort order counts as active (`!==` compares
      with the default string); an empty search or mood list does not. */
  predicate HasActiveFilters(f: Object)
    ensures f == Defaults ==> !HasActiveFilters(f)
    ensures MoodsSelected(Get(f, "moods")) || Truthy(Get(f, "searchQuery")) ==> HasActiveFilters(f)
  {
    Get(f, "timeRange") != Str("month") || MoodsSelected(Get(f, "moods")) ||
    Truthy(Get(f, "searchQuery")) || Get(f, "sortBy") != Str("newest")
  }

  /** Nothing is active exactly when the time range and sort order are the
      default strings, no mood is selected and the search is empty. */
  lemma InactiveIffDefaults(f: Object)
    ensures !HasActiveFilters(f) <==>
      Get(f, "timeRange") == Defaults["timeRange"] && Get(f, "sortBy") == Defaults["sortBy"] &&
      !MoodsSelected(Get(f, "moods")) && !Truthy(Get(f, "searchQuery"))
    ensures !HasActiveFilters(Defaults)
  {
  }

  /** Selecting a mood that was not selected makes the filters active. */
  lemma ToggleInActivates(f: Object, m: string)
    requires MoodsReadable(Get(f, "moods")) && m !in MoodsOf(Get(f, "moods"))
    ensures HasActiveFilters(f["moods" := StrList(Toggle(MoodsOf(Get(f, "moods")), m))])
  {
    var g := f["moods" := StrList(Toggle(MoodsOf(Get(f, "moods")), m))];
    assert Get(g, "moods") == StrList(MoodsOf(Get(f, "moods")) + [m]);
  }

  /** A key other than the four it reads never changes `hasActiveFilters`. */
  lemma OtherKeysIgnored(f: Object, key: string, value: Value)
    requires key !in {"timeRange", "moods", "searchQuery", "sortBy"}
    ensures HasActiveFilters(f[key := value]) == HasActiveFilters(f)
  {
    assert Get(f[key := value], "timeRange") == Get(f, "timeRange");
    assert Get(f[key := value], "moods") == Get(f, "moods");
    assert Get(f[key := value], "searchQuery") == Get(f, "searchQuery");
    assert Get(f[key := value], "sortBy") == Get(f, "sortBy");
  }

  class Panel {
    /** The panel's `localFilters` state. */
    var localFilters: Object
    /** Every object handed to `onFiltersChange`, oldest first. */
    var reported: seq<Object>

    constructor (filters: Object)
      ensures localFilters == filters && reported == []
    {
      localFilters := filters;
      reported := [];
    }

    /** `handleFilterChange` (lines 47-51): one key changes, and the new
        filters are both kept and reported. */
    method HandleFilterChange(key: string, value: Value)
      modifies this
      ensures localFilters == old(localFilters)[key := value]
      ensures Get(localFilters, key) == value
      ensures forall k | k != key :: Get(localFilters, k) == Get(old(localFilters), k)
      ensures reported == old(reported) + [localFilters]
    {
      localFilters := localFilters[key := value];
      reported := reported + [localFilters];
    }

    /** `handleMoodChipToggle` (lines 53-60). */
    method HandleMoodChipToggle(m: string)
      requires MoodsReadable(Get(localFilters, "moods"))
      modifies this
      ensures localFilters == old(localFilters)["moods" := StrList(Toggle(MoodsOf(Get(old(localFilters), "moods")), m))]
      ensures reported == old(reported) + [localFilters]
    {
      var current := MoodsOf(Get(localFilters, "moods"));
      var next := if m in current then Remove(current, m) else current + [m];
      HandleFilterChange("moods", StrList(next));
    }

    /** `clearAllFilters` (lines 62-71): every other key is dropped too. */
    method ClearAllFilters()
      modifies this
      ensures localFilters == Defaults && !HasActiveFilters(localFilters)
      ensures reported == old(reported) + [Defaults]
    {
      localFilters := Defaults;
      reported := reported + [Defaults];
    }
  }
}
