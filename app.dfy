/**
 * `CalorieTracker` itself: the in-memory fields the source's methods
 * update in place, next to `localStorage` as a map field. Each mutating
 * method performs the source's steps and is proved to land in the state
 * its transition function in TrackerState, Rollover or Backup describes,
 * where the properties of those transitions are proved.
 */
module App {
  import opened Wrappers
  import opened Entities
  import opened Storage
  import opened Sorting
  import opened Lists
  import opened Text
  import opened Bmr
  import TrackerState
  import Rollover
  import Backup

  class CalorieTracker {
    var currentDate: string
    var userProfile: UserProfile
    var quickAddItems: seq<QuickAddItem>
    var dailyHistory: map<string, DayRecord>
    var todayEntries: seq<FoodEntry>
    var storage: Store

    /** The object's fields as a value. */
    function Snapshot(): TrackerState.State
      reads this
    {
      TrackerState.State(currentDate, userProfile, quickAddItems, dailyHistory, todayEntries, storage)
    }

    ghost predicate Valid()
      reads this
    {
      TrackerState.Valid(Snapshot())
    }

    /**
     * `new CalorieTracker()` on a device whose storage holds `saved`, on
     * `today`: load every bucket, then `init`'s rollover check and food-log
     * render.
     */
    constructor (today: string, saved: Store)
      ensures Valid()
      ensures Snapshot() ==
        TrackerState.RenderFoodLog(Rollover.CheckNewDay(TrackerState.Load(today, saved), today))
    {
      currentDate := today;
      userProfile := LoadProfile(saved);
      quickAddItems := LoadItems(saved);
      dailyHistory := LoadHistory(saved);
      todayEntries := LoadEntries(saved);
      storage := saved;
      new;
      CheckNewDay(today);
      RenderFoodLog();
    }

    /** `checkNewDay()`, with the clock's date passed in. */
    method CheckNewDay(today: string)
      requires TrackerState.Consistent(Snapshot())
      modifies this
      ensures Snapshot() == Rollover.CheckNewDay(old(Snapshot()), today)
      ensures TrackerState.Consistent(Snapshot())
      ensures Marker(storage) == Some(today) && currentDate == today
      ensures old(SortedBy(todayEntries, NewerFirst)) ==> Valid()
    {
      var lastDate := Marker(storage);
      if lastDate.Some? && lastDate.value != "" && lastDate.value != today {
        ArchivePreviousDay(lastDate.value);
        todayEntries := [];
        storage := SaveEntries(storage, todayEntries);
      }
      storage := SetMarker(storage, today);
      currentDate := today;
      Rollover.CheckNewDayKeepsValid(old(Snapshot()), today);
    }

    /** `archivePreviousDay(date)`. */
    method ArchivePreviousDay(date: string)
      modifies this
      ensures Snapshot() == Rollover.ArchivePreviousDay(old(Snapshot()), date)
    {
      var entries := LoadEntries(storage);
      var total := Total(entries);
      if |entries| > 0 {
        dailyHistory := dailyHistory[date := DayRecord(total, entries, userProfile.dailyGoal, date)];
        storage := SaveHistory(storage, dailyHistory);
      }
    }

    /** The sort inside `renderFoodLog()`: newest entry first, in place, not saved. */
    method RenderFoodLog()
      modifies this
      ensures Snapshot() == TrackerState.RenderFoodLog(old(Snapshot()))
    {
      if |todayEntries| != 0 {
        todayEntries := SortBy(todayEntries, NewerFirst);
      }
    }

    /** `addFoodEntry(name, calories)`, with `Date.now()` and the ISO time passed in. */
    method AddFoodEntry(name: string, calories: int, id: int, timestamp: string)
      requires Valid()
      modifies this
      ensures Snapshot() == TrackerState.AddFoodEntry(old(Snapshot()), name, calories, id, timestamp)
      ensures Valid()
    {
      ghost var t0 := old(Snapshot());
      var entry := FoodEntry(id, Trim(name), calories, timestamp);
      todayEntries := todayEntries + [entry];
      storage := SaveEntries(storage, todayEntries);
      assert Snapshot() == t0.(entries := t0.entries + [entry], storage := SaveEntries(t0.storage, t0.entries + [entry]));
      RenderFoodLog();
      TrackerState.AddFoodEntryAppends(old(Snapshot()), name, calories, id, timestamp);
    }

    /** `deleteFoodEntry(id)`. */
    method DeleteFoodEntry(id: int)
      requires Valid()
      modifies this
      ensures Snapshot() == TrackerState.DeleteFoodEntry(old(Snapshot()), id)
      ensures Valid()
    {
      todayEntries := Filter(todayEntries, OtherEntry(id));
      storage := SaveEntries(storage, todayEntries);
      RenderFoodLog();
      TrackerState.DeleteFoodEntryRemovesId(old(Snapshot()), id);
    }

    /** `getTodayTotal()`: the same sum whether taken over memory or over storage. */
    function GetTodayTotal(): (total: int)
      reads this
      requires TrackerState.Consistent(Snapshot())
      ensures total == Total(LoadEntries(storage))
      ensures todayEntries == [] ==> total == 0
    {
      TotalPermutation(todayEntries, LoadEntries(storage));
      Total(todayEntries)
    }

    /** `getRemainingCalories()`: negative once the goal is exceeded. */
    function GetRemainingCalories(): (remaining: int)
      reads this
      requires TrackerState.Consistent(Snapshot())
      ensures remaining + GetTodayTotal() == userProfile.dailyGoal
      ensures remaining < 0 <==> GetTodayTotal() > userProfile.dailyGoal
    {
      userProfile.dailyGoal - GetTodayTotal()
    }

    /** `addQuickAddItem(name, calories)`, with `Date.now()` passed in. */
    method AddQuickAddItem(name: string, calories: int, id: int)
      requires Valid()
      modifies this
      ensures Snapshot() == TrackerState.AddQuickAddItem(old(Snapshot()), name, calories, id)
      ensures Valid()
    {
      var item := QuickAddItem(id, Trim(name), calories);
      quickAddItems := quickAddItems + [item];
      storage := SaveItems(storage, quickAddItems);
      TrackerState.AddQuickAddItemAppends(old(Snapshot()), name, calories, id);
    }

    /** `deleteQuickAddItem(id)`. */
    method DeleteQuickAddItem(id: int)
      requires Valid()
      modifies this
      ensures Snapshot() == TrackerState.DeleteQuickAddItem(old(Snapshot()), id)
      ensures Valid()
    {
      quickAddItems := Filter(quickAddItems, OtherItem(id));
      storage := SaveItems(storage, quickAddItems);
      TrackerState.DeleteQuickAddItemRemovesId(old(Snapshot()), id);
    }

    /** `updateBMR()`. */
    method UpdateBMR()
      requires TrackerState.Valid(Snapshot().(profile := LoadProfile(storage)))
      modifies this
      ensures Snapshot() == TrackerState.UpdateBMR(old(Snapshot()))
      ensures Valid()
      ensures userProfile.dailyGoal == userProfile.bmr - 500
    {
      var p := userProfile;
      var bmr := CalculateBMR(p.weight, p.height, AgeOrDefault(p.age), p.gender);
      userProfile := userProfile.(bmr := bmr);
      userProfile := userProfile.(dailyGoal := userProfile.bmr - 500);
      storage := SaveProfile(storage, userProfile);
      TrackerState.UpdateBMRSetsGoal(old(Snapshot()));
    }

    /**
     * The settings form's submit handler, with the values `parseFloat` and
     * `parseInt` read from the form passed in (`None` for an unreadable one).
     */
    method SubmitSettings(weight: real, height: real, age: Option<int>, gender: string, exercise: Option<int>)
      requires Valid()
      modifies this
      ensures Snapshot() == TrackerState.SubmitSettings(old(Snapshot()), weight, height, age, gender, exercise)
      ensures Valid()
    {
      userProfile := userProfile.(weight := weight);
      userProfile := userProfile.(height := height);
      userProfile := userProfile.(age := Some(AgeOrDefault(age)));
      userProfile := userProfile.(gender := gender);
      userProfile := userProfile.(exerciseCalories := exercise.GetOr(0));
      assert Snapshot().(profile := LoadProfile(storage)) == old(Snapshot());
      UpdateBMR();
    }

    /** `getBackupData()`, with the export time passed in. */
    function GetBackupData(exportDate: string): (b: Backup.BackupData)
      reads this
      ensures b == Backup.GetBackupData(Snapshot(), exportDate)
    {
      Backup.BackupData(Backup.Version, userProfile, quickAddItems, dailyHistory, todayEntries, exportDate)
    }

    /** `importData(data)`, with the answer to its confirmation dialog passed in. */
    method ImportData(data: Backup.Payload, confirmed: bool) returns (outcome: Backup.Outcome)
      requires Valid()
      modifies this
      ensures (Snapshot(), outcome) == Backup.ImportData(old(Snapshot()), data, confirmed)
      ensures Valid()
    {
      if !data.Object? {
        return Backup.InvalidFormat;
      }
      if !confirmed {
        return Backup.Declined;
      }
      ghost var t0 := old(Snapshot());
      if data.userProfile.Some? {
        userProfile := data.userProfile.value;
        storage := SaveProfile(storage, userProfile);
      }
      ghost var t1 := Backup.WithProfile(t0, data.userProfile);
      assert Snapshot() == t1;
      if data.quickAddItems.Some? {
        quickAddItems := data.quickAddItems.value;
        storage := SaveItems(storage, quickAddItems);
      }
      ghost var t2 := Backup.WithItems(t1, data.quickAddItems);
      assert Snapshot() == t2;
      if data.dailyHistory.Some? {
        dailyHistory := data.dailyHistory.value;
        storage := SaveHistory(storage, dailyHistory);
      }
      ghost var t3 := Backup.WithHistory(t2, data.dailyHistory);
      assert Snapshot() == t3;
      if data.todayEntries.Some? {
        todayEntries := data.todayEntries.value;
        storage := SaveEntries(storage, todayEntries);
      }
      assert Snapshot() == Backup.WithEntries(t3, data.todayEntries);
      RenderFoodLog();
      outcome := Backup.Restored;
      Backup.ImportReplacesPresent(old(Snapshot()), data);
    }
  }
}
