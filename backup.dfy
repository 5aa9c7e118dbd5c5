/**
 * Backup and restore: `getBackupData` snapshots the four persisted buckets
 * with a version tag and an export time, and `importData` restores from a
 * backup after `JSON.parse`. The export time and the user's answer to the
 * confirmation dialog are parameters.
 */
module Backup {
  import opened Wrappers
  import opened Entities
  import opened Storage
  import opened Sorting
  import opened TrackerState

  const Version: string := "1.0"

  datatype BackupData = BackupData(
    version: string,
    userProfile: UserProfile,
    quickAddItems: seq<QuickAddItem>,
    dailyHistory: map<string, DayRecord>,
    todayEntries: seq<FoodEntry>,
    exportDate: string)

  /** `getBackupData()`, stamped with `exportDate`. */
  function GetBackupData(t: State, exportDate: string): (b: BackupData)
    ensures b.version == "1.0" && b.exportDate == exportDate
    ensures b.userProfile == t.profile && b.quickAddItems == t.quickAddItems
    ensures b.dailyHistory == t.history && b.todayEntries == t.entries
  {
    BackupData(Version, t.profile, t.quickAddItems, t.history, t.entries, exportDate)
  }

  /**
   * A parsed backup: a value that is not an object (the source's
   * `!data || typeof data !== 'object'`), or an object in which each bucket
   * is present (truthy) or not.
   */
  datatype Payload =
    | NotAnObject
    | Object(
        exportDate: Option<string>,
        userProfile: Option<UserProfile>,
        quickAddItems: Option<seq<QuickAddItem>>,
        dailyHistory: Option<map<string, DayRecord>>,
        todayEntries: Option<seq<FoodEntry>>)

  /**
   * A backup after `JSON.stringify` and `JSON.parse`: an object whose four
   * buckets are all present, since objects and arrays, even empty ones,
   * are truthy.
   */
  function Transported(b: BackupData): Payload {
    Object(Some(b.exportDate), Some(b.userProfile), Some(b.quickAddItems),
           Some(b.dailyHistory), Some(b.todayEntries))
  }

  datatype Outcome = InvalidFormat | Declined | Restored

  /**
   * `importData(data)` with `confirmed` the answer to its dialog: each
   * present bucket replaces the in-memory one and is saved, then the food
   * log is re-rendered (and so sorted).
   */
  function ImportData(t: State, data: Payload, confirmed: bool): (r: (State, Outcome))
    ensures r.1 == Restored <==> data.Object? && confirmed
    ensures r.1 == InvalidFormat <==> !data.Object?
    ensures r.0.currentDate == t.currentDate
  {
    if !data.Object? then (t, InvalidFormat)
    else if !confirmed then (t, Declined)
    else
      var t4 := WithEntries(WithHistory(WithItems(WithProfile(t, data.userProfile),
                  data.quickAddItems), data.dailyHistory), data.todayEntries);
      (RenderFoodLog(t4), Restored)
  }

  /*
   * The four buckets of a confirmed import, in the order `importData`
   * handles them: each is replaced and saved when the backup has it, and
   * memory and storage stay in agreement.
   */

  function WithProfile(t: State, p: Option<UserProfile>): (t': State)
    ensures t'.profile == p.GetOr(t.profile) && LoadProfile(t'.storage) == p.GetOr(LoadProfile(t.storage))
    ensures t' == t.(profile := t'.profile, storage := t'.storage)
    ensures Marker(t'.storage) == Marker(t.storage)
    ensures Consistent(t) ==> Consistent(t')
  {
    if p.Some? then
      var st := SaveProfile(t.storage, p.value);
      SavesAreIndependent(t.storage, p.value, [], map[], [], "");
      t.(profile := p.value, storage := st)
    else t
  }

  function WithItems(t: State, items: Option<seq<QuickAddItem>>): (t': State)
    ensures t'.quickAddItems == items.GetOr(t.quickAddItems)
    ensures LoadItems(t'.storage) == items.GetOr(LoadItems(t.storage))
    ensures t' == t.(quickAddItems := t'.quickAddItems, storage := t'.storage)
    ensures Marker(t'.storage) == Marker(t.storage)
    ensures Consistent(t) ==> Consistent(t')
  {
    if items.Some? then
      var st := SaveItems(t.storage, items.value);
      SavesAreIndependent(t.storage, t.profile, items.value, map[], [], "");
      t.(quickAddItems := items.value, storage := st)
    else t
  }

  function WithHistory(t: State, history: Option<map<string, DayRecord>>): (t': State)
    ensures t'.history == history.GetOr(t.history)
    ensures LoadHistory(t'.storage) == history.GetOr(LoadHistory(t.storage))
    ensures t' == t.(history := t'.history, storage := t'.storage)
    ensures Marker(t'.storage) == Marker(t.storage)
    ensures Consistent(t) ==> Consistent(t')
  {
    if history.Some? then
      var st := SaveHistory(t.storage, history.value);
      SavesAreIndependent(t.storage, t.profile, [], history.value, [], "");
      t.(history := history.value, storage := st)
    else t
  }

  function WithEntries(t: State, entries: Option<seq<FoodEntry>>): (t': State)
    ensures t'.entries == entries.GetOr(t.entries)
    ensures LoadEntries(t'.storage) == entries.GetOr(LoadEntries(t.storage))
    ensures t' == t.(entries := t'.entries, storage := t'.storage)
    ensures Marker(t'.storage) == Marker(t.storage)
    ensures Consistent(t) ==> Consistent(t')
  {
    if entries.Some? then
      var st := SaveEntries(t.storage, entries.value);
      SavesAreIndependent(t.storage, t.profile, [], map[], entries.value, "");
      t.(entries := entries.value, storage := st)
    else t
  }

  /** Something that is not an object, or a declined dialog, changes nothing. */
  lemma ImportRefused(t: State, data: Payload, confirmed: bool)
    requires !data.Object? || !confirmed
    ensures ImportData(t, data, confirmed).0 == t
    ensures ImportData(t, data, confirmed).1 == (if data.Object? then Declined else InvalidFormat)
  {
  }

  /**
   * A confirmed import replaces exactly the buckets the backup has, saves
   * each, and keeps the others and the marker; the imported entries are
   * saved in their own order and shown newest first.
   */
  lemma ImportReplacesPresent(t: State, data: Payload)
    requires Valid(t) && data.Object?
    ensures var (t', outcome) := ImportData(t, data, true);
      && outcome == Restored
      && Valid(t')
      && t'.currentDate == t.currentDate
      && t'.profile == data.userProfile.GetOr(t.profile)
      && t'.quickAddItems == data.quickAddItems.GetOr(t.quickAddItems)
      && t'.history == data.dailyHistory.GetOr(t.history)
      && (data.todayEntries.None? ==> t'.entries == t.entries)
      && (data.todayEntries.Some? ==>
            && LoadEntries(t'.storage) == data.todayEntries.value
            && multiset(t'.entries) == multiset(data.todayEntries.value))
  {
    var t1 := WithProfile(t, data.userProfile);
    var t2 := WithItems(t1, data.quickAddItems);
    var t3 := WithHistory(t2, data.dailyHistory);
    var t4 := WithEntries(t3, data.todayEntries);
    assert Consistent(t4);
    assert Marker(t4.storage) == Some(t.currentDate);
    if data.todayEntries.None? {
      RenderFoodLogKeepsSorted(t4);
    }
  }

  /**
   * Restoring the tracker's own backup, with confirmation, leaves every
   * in-memory bucket as it was; storage then holds today's entries in their
   * displayed order.
   */
  lemma ImportOwnBackup(t: State, exportDate: string)
    requires Valid(t)
    ensures var (t', outcome) := ImportData(t, Transported(GetBackupData(t, exportDate)), true);
      && outcome == Restored
      && t' == t.(storage := t'.storage)
      && Valid(t')
      && LoadEntries(t'.storage) == t.entries
  {
    var data := Transported(GetBackupData(t, exportDate));
    ImportReplacesPresent(t, data);
    var t' := ImportData(t, data, true).0;
    RenderFoodLogKeepsSorted(t'.(entries := t.entries));
  }
}
