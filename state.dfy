/**
 * The tracker's whole state as a value, and the entry, quick-add and
 * profile operations of `CalorieTracker` as transitions on it. The class in
 * module App performs the same steps in place; these functions are what
 * its methods are proved against.
 */
module TrackerState {
  import opened Wrappers
  import opened Entities
  import opened Storage
  import opened Sorting
  import opened Lists
  import opened Text
  import opened Bmr

  datatype State = State(
    currentDate: string,
    profile: UserProfile,
    quickAddItems: seq<QuickAddItem>,
    history: map<string, DayRecord>,
    entries: seq<FoodEntry>,
    storage: Store)

  /**
   * The in-memory buckets agree with what is persisted. Today's entries
   * agree only up to order: the food log sorts them in memory after they
   * were saved.
   */
  predicate Consistent(t: State) {
    && LoadProfile(t.storage) == t.profile
    && LoadItems(t.storage) == t.quickAddItems
    && LoadHistory(t.storage) == t.history
    && multiset(LoadEntries(t.storage)) == multiset(t.entries)
  }

  /**
   * Between user actions: storage agrees with memory, the marker names the
   * current day, and today's entries are in display order, newest first.
   */
  predicate Valid(t: State) {
    && Consistent(t)
    && Marker(t.storage) == Some(t.currentDate)
    && SortedBy(t.entries, NewerFirst)
  }

  /** What the constructor reads before `init` runs. */
  function Load(today: string, st: Store): (t: State)
    ensures Consistent(t) && t.storage == st && t.currentDate == today
    ensures t.entries == LoadEntries(st)
  {
    State(today, LoadProfile(st), LoadItems(st), LoadHistory(st), LoadEntries(st), st)
  }

  lemma NewerFirstIsStrict()
    ensures StrictOrder(NewerFirst)
  {
  }

  /**
   * `renderFoodLog`'s `this.todayEntries.sort((a, b) => b.id - a.id)`,
   * which reorders the field in place without saving it.
   */
  function RenderFoodLog(t: State): (t': State)
    ensures SortedBy(t'.entries, NewerFirst)
    ensures multiset(t'.entries) == multiset(t.entries)
    ensures t' == t.(entries := t'.entries)
    ensures Consistent(t) ==> Consistent(t')
  {
    NewerFirstIsStrict();
    SortBySorted(t.entries, NewerFirst);
    if |t.entries| == 0 then t else t.(entries := SortBy(t.entries, NewerFirst))
  }

  /** The food log is shown unchanged when it is already in order. */
  lemma RenderFoodLogKeepsSorted(t: State)
    requires SortedBy(t.entries, NewerFirst)
    ensures RenderFoodLog(t) == t
  {
    SortByKeepsSorted(t.entries, NewerFirst);
  }

  /** `addFoodEntry`: push a new entry, save, then re-render (which sorts). */
  function AddFoodEntry(t: State, name: string, calories: int, id: int, timestamp: string): (t': State)
    ensures |t'.entries| == |t.entries| + 1
    ensures t'.currentDate == t.currentDate && t'.profile == t.profile
    ensures t'.quickAddItems == t.quickAddItems && t'.history == t.history
  {
    var pushed := t.entries + [FoodEntry(id, Trim(name), calories, timestamp)];
    RenderFoodLog(t.(entries := pushed, storage := SaveEntries(t.storage, pushed)))
  }

  /**
   * Adding a food logs exactly one more entry with the trimmed name: the
   * saved log is the old one with the entry at the end, the day's total
   * and remaining calories move by exactly its calories, a newest entry is
   * shown first, and nothing else changes.
   */
  lemma AddFoodEntryAppends(t: State, name: string, calories: int, id: int, timestamp: string)
    requires Valid(t)
    ensures var t', e := AddFoodEntry(t, name, calories, id, timestamp), FoodEntry(id, Trim(name), calories, timestamp);
      && Valid(t')
      && LoadEntries(t'.storage) == t.entries + [e]
      && multiset(t'.entries) == multiset(t.entries) + multiset{e}
      && |t'.entries| == |t.entries| + 1
      && Total(t'.entries) == Total(t.entries) + calories
      && t'.profile.dailyGoal - Total(t'.entries) == t.profile.dailyGoal - Total(t.entries) - calories
      && ((forall i :: 0 <= i < |t.entries| ==> t.entries[i].id < id) ==> t'.entries == [e] + t.entries)
      && t'.currentDate == t.currentDate && t'.profile == t.profile
      && t'.quickAddItems == t.quickAddItems && t'.history == t.history
  {
    var e := FoodEntry(id, Trim(name), calories, timestamp);
    var pushed := t.entries + [e];
    var t' := AddFoodEntry(t, name, calories, id, timestamp);
    SavesAreIndependent(t.storage, t.profile, t.quickAddItems, t.history, pushed, t.currentDate);
    TotalPermutation(t'.entries, pushed);
    TotalPush(t.entries, e);
    if forall i :: 0 <= i < |t.entries| ==> t.entries[i].id < id {
      assert pushed[..|pushed| - 1] == t.entries;
      SortByKeepsSorted(t.entries, NewerFirst);
    }
  }

  /** `deleteFoodEntry`: keep the entries with another id, save, re-render. */
  function DeleteFoodEntry(t: State, id: int): (t': State)
    ensures |t'.entries| <= |t.entries|
    ensures t'.currentDate == t.currentDate && t'.profile == t.profile
    ensures t'.quickAddItems == t.quickAddItems && t'.history == t.history
  {
    var kept := Filter(t.entries, OtherEntry(id));
    RenderFoodLog(t.(entries := kept, storage := SaveEntries(t.storage, kept)))
  }

  /**
   * Deleting removes every entry with that id and keeps every other entry
   * in its order, in memory and in storage; nothing else changes.
   */
  lemma DeleteFoodEntryRemovesId(t: State, id: int)
    requires Valid(t)
    ensures var t' := DeleteFoodEntry(t, id);
      && Valid(t')
      && t'.entries == Filter(t.entries, OtherEntry(id))
      && LoadEntries(t'.storage) == t'.entries
      && (forall i :: 0 <= i < |t'.entries| ==> t'.entries[i].id != id)
      && (forall i :: 0 <= i < |t.entries| && t.entries[i].id != id ==> t.entries[i] in t'.entries)
      && t'.currentDate == t.currentDate && t'.profile == t.profile
      && t'.quickAddItems == t.quickAddItems && t'.history == t.history
  {
    var kept := Filter(t.entries, OtherEntry(id));
    FilterKeepsOrder(t.entries, OtherEntry(id), NewerFirst);
    RenderFoodLogKeepsSorted(t.(entries := kept, storage := SaveEntries(t.storage, kept)));
    SavesAreIndependent(t.storage, t.profile, t.quickAddItems, t.history, kept, t.currentDate);
    forall i | 0 <= i < |t.entries| && t.entries[i].id != id
      ensures t.entries[i] in kept
    {
      FilterCount(t.entries, OtherEntry(id), t.entries[i]);
      assert t.entries[i] in multiset(t.entries);
    }
  }

  /** An id no entry has leaves the log as it was. */
  lemma DeleteFoodEntryUnknownId(t: State, id: int)
    requires Valid(t)
    requires forall i :: 0 <= i < |t.entries| ==> t.entries[i].id != id
    ensures DeleteFoodEntry(t, id).entries == t.entries
  {
    DeleteFoodEntryRemovesId(t, id);
    FilterKeepsAll(t.entries, OtherEntry(id));
  }

  /** Deleting an id a second time changes nothing. */
  lemma DeleteFoodEntryTwice(t: State, id: int)
    requires Valid(t)
    ensures DeleteFoodEntry(DeleteFoodEntry(t, id), id) == DeleteFoodEntry(t, id)
  {
    var t1 := DeleteFoodEntry(t, id);
    DeleteFoodEntryRemovesId(t, id);
    DeleteFoodEntryRemovesId(t1, id);
    FilterIdempotent(t.entries, OtherEntry(id));
  }

  /** `addQuickAddItem`: push a template with the trimmed name and save. */
  function AddQuickAddItem(t: State, name: string, calories: int, id: int): (t': State)
    ensures |t'.quickAddItems| == |t.quickAddItems| + 1
    ensures t'.currentDate == t.currentDate && t'.profile == t.profile
    ensures t'.entries == t.entries && t'.history == t.history
  {
    var items := t.quickAddItems + [QuickAddItem(id, Trim(name), calories)];
    t.(quickAddItems := items, storage := SaveItems(t.storage, items))
  }

  lemma AddQuickAddItemAppends(t: State, name: string, calories: int, id: int)
    requires Valid(t)
    ensures var t' := AddQuickAddItem(t, name, calories, id);
      && Valid(t')
      && t'.quickAddItems == t.quickAddItems + [QuickAddItem(id, Trim(name), calories)]
      && LoadItems(t'.storage) == t'.quickAddItems
      && t'.currentDate == t.currentDate && t'.profile == t.profile
      && t'.entries == t.entries && t'.history == t.history
  {
    var t' := AddQuickAddItem(t, name, calories, id);
    SavesAreIndependent(t.storage, t.profile, t'.quickAddItems, t.history, t.entries, t.currentDate);
  }

  /** `deleteQuickAddItem`: keep the templates with another id and save. */
  function DeleteQuickAddItem(t: State, id: int): (t': State)
    ensures |t'.quickAddItems| <= |t.quickAddItems|
    ensures t'.currentDate == t.currentDate && t'.profile == t.profile
    ensures t'.entries == t.entries && t'.history == t.history
  {
    var items := Filter(t.quickAddItems, OtherItem(id));
    t.(quickAddItems := items, storage := SaveItems(t.storage, items))
  }

  /**
   * Deleting a template removes every one with that id and keeps the
   * others in their order; nothing else changes.
   */
  lemma DeleteQuickAddItemRemovesId(t: State, id: int)
    requires Valid(t)
    ensures var t' := DeleteQuickAddItem(t, id);
      && Valid(t')
      && t'.quickAddItems == Filter(t.quickAddItems, OtherItem(id))
      && (forall i :: 0 <= i < |t'.quickAddItems| ==> t'.quickAddItems[i].id != id)
      && (forall i :: 0 <= i < |t.quickAddItems| && t.quickAddItems[i].id != id ==>
            t.quickAddItems[i] in t'.quickAddItems)
      && t'.currentDate == t.currentDate && t'.profile == t.profile
      && t'.entries == t.entries && t'.history == t.history
  {
    var items := Filter(t.quickAddItems, OtherItem(id));
    SavesAreIndependent(t.storage, t.profile, items, t.history, t.entries, t.currentDate);
    forall i | 0 <= i < |t.quickAddItems| && t.quickAddItems[i].id != id
      ensures t.quickAddItems[i] in items
    {
      FilterCount(t.quickAddItems, OtherItem(id), t.quickAddItems[i]);
      assert t.quickAddItems[i] in multiset(t.quickAddItems);
    }
  }

  /** An id no template has leaves the templates as they were. */
  lemma DeleteQuickAddItemUnknownId(t: State, id: int)
    requires forall i :: 0 <= i < |t.quickAddItems| ==> t.quickAddItems[i].id != id
    ensures DeleteQuickAddItem(t, id).quickAddItems == t.quickAddItems
  {
    FilterKeepsAll(t.quickAddItems, OtherItem(id));
  }

  /** Deleting a template id a second time changes nothing. */
  lemma DeleteQuickAddItemTwice(t: State, id: int)
    ensures DeleteQuickAddItem(DeleteQuickAddItem(t, id), id) == DeleteQuickAddItem(t, id)
  {
    FilterIdempotent(t.quickAddItems, OtherItem(id));
  }

  /** `updateBMR`: recompute the BMR (age defaulting to 30), set goal = BMR - 500, save. */
  function UpdateBMR(t: State): (t': State)
    ensures t'.profile.dailyGoal == t'.profile.bmr - 500
    ensures t'.currentDate == t.currentDate && t'.quickAddItems == t.quickAddItems
    ensures t'.entries == t.entries && t'.history == t.history
  {
    var p := t.profile;
    var bmr := CalculateBMR(p.weight, p.height, AgeOrDefault(p.age), p.gender);
    var p' := p.(bmr := bmr, dailyGoal := bmr - 500);
    t.(profile := p', storage := SaveProfile(t.storage, p'))
  }

  /**
   * The settings form edits the profile in memory and only then calls
   * `updateBMR`, so the profile need not be the saved one; everything
   * else is in its steady state. Afterwards the profile is saved too.
   */
  lemma UpdateBMRSetsGoal(t: State)
    requires Valid(t.(profile := LoadProfile(t.storage)))
    ensures var t', p := UpdateBMR(t), t.profile;
      && Valid(t')
      && t'.profile.dailyGoal == t'.profile.bmr - 500
      && t'.profile.bmr == CalculateBMR(p.weight, p.height, AgeOrDefault(p.age), p.gender)
      && t'.profile == p.(bmr := t'.profile.bmr, dailyGoal := t'.profile.dailyGoal)
      && LoadProfile(t'.storage) == t'.profile
      && t'.currentDate == t.currentDate && t'.quickAddItems == t.quickAddItems
      && t'.entries == t.entries && t'.history == t.history
  {
    SavesAreIndependent(t.storage, UpdateBMR(t).profile, t.quickAddItems, t.history, t.entries, t.currentDate);
  }

  /**
   * The settings form's submit handler: the parsed form values go into the
   * in-memory profile (a missing or zero age becomes 30, a missing or zero
   * exercise allowance 0), then `updateBMR` runs. `None` stands for a field
   * `parseInt` could not read.
   */
  function SubmitSettings(t: State, weight: real, height: real, age: Option<int>, gender: string,
                          exercise: Option<int>): (t': State)
    ensures t'.profile.weight == weight && t'.profile.height == height && t'.profile.gender == gender
    ensures t'.profile.dailyGoal == t'.profile.bmr - 500
  {
    var edited := t.profile.(weight := weight, height := height, age := Some(AgeOrDefault(age)),
                             gender := gender, exerciseCalories := exercise.GetOr(0));
    UpdateBMR(t.(profile := edited))
  }

  /**
   * Submitting the settings saves a profile holding the form's values and
   * the BMR and goal they give; the other buckets are untouched.
   */
  lemma SubmitSettingsSaves(t: State, weight: real, height: real, age: Option<int>, gender: string,
                            exercise: Option<int>)
    requires Valid(t)
    ensures var t', years := SubmitSettings(t, weight, height, age, gender, exercise), AgeOrDefault(age);
      && Valid(t')
      && LoadProfile(t'.storage) == t'.profile
      && t'.profile.weight == weight && t'.profile.height == height
      && t'.profile.age == Some(years) && t'.profile.gender == gender
      && t'.profile.exerciseCalories == (if exercise.Some? then exercise.value else 0)
      && t'.profile.bmr == CalculateBMR(weight, height, years, gender)
      && t'.profile.dailyGoal == t'.profile.bmr - 500
      && t'.currentDate == t.currentDate && t'.quickAddItems == t.quickAddItems
      && t'.entries == t.entries && t'.history == t.history
  {
    var edited := t.profile.(weight := weight, height := height, age := Some(AgeOrDefault(age)),
                             gender := gender, exerciseCalories := exercise.GetOr(0));
    var t1 := t.(profile := edited);
    assert t1.(profile := LoadProfile(t1.storage)) == t;
    UpdateBMRSetsGoal(t1);
  }

  /**
   * The stored default profile says BMR 1850 and goal 1350; the first
   * `updateBMR` on it replaces them by what the equation gives.
   */
  lemma UpdateBMROnDefaultProfile(t: State)
    requires t.profile == DefaultProfile
    ensures UpdateBMR(t).profile.bmr == 1873
    ensures UpdateBMR(t).profile.dailyGoal == 1373
  {
    WorkedExample();
  }
}
