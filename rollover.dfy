/**
 * Day rollover: `checkNewDay` compares the stored `lastActiveDate` marker
 * with today's date and, on a change, `archivePreviousDay` files the
 * outgoing day's saved entries into the history before the log is
 * cleared. The date is a parameter (the source reads the clock).
 */
module Rollover {
  import opened Wrappers
  import opened Entities
  import opened Storage
  import opened Sorting
  import opened TrackerState

  /**
   * `archivePreviousDay(date)`: the entries are read back from storage,
   * not from memory, and a day with no entries leaves no record.
   */
  function ArchivePreviousDay(t: State, date: string): (t': State)
    ensures LoadEntries(t.storage) == [] ==> t' == t
    ensures LoadEntries(t.storage) != [] ==> date in t'.history && LoadHistory(t'.storage) == t'.history
    ensures forall d :: d != date ==> (d in t'.history <==> d in t.history)
    ensures t' == t.(history := t'.history, storage := t'.storage)
  {
    var entries := LoadEntries(t.storage);
    var total := Total(entries);
    if |entries| > 0 then
      var h := t.history[date := DayRecord(total, entries, t.profile.dailyGoal, date)];
      t.(history := h, storage := SaveHistory(t.storage, h))
    else t
  }

  /** `lastDate && lastDate !== today`: a non-empty marker naming another day. */
  predicate IsNewDay(st: Store, today: string) {
    Marker(st).Some? && Marker(st).value != "" && Marker(st).value != today
  }

  /** `checkNewDay(today)`. */
  function CheckNewDay(t: State, today: string): (t': State)
    ensures Marker(t'.storage) == Some(today) && t'.currentDate == today
    ensures t'.profile == t.profile && t'.quickAddItems == t.quickAddItems
    ensures IsNewDay(t.storage, today) ==> t'.entries == [] && LoadEntries(t'.storage) == []
  {
    var t1 :=
      if IsNewDay(t.storage, today) then
        var a := ArchivePreviousDay(t, Marker(t.storage).value);
        a.(entries := [], storage := SaveEntries(a.storage, []))
      else t;
    t1.(storage := SetMarker(t1.storage, today), currentDate := today)
  }

  /**
   * On a new day the saved entries of the day the marker names become its
   * history record (total, entries, the goal in force now, the date),
   * replacing any record for that date; an empty day adds nothing. Today's
   * log is then empty in memory and in storage, and the marker is today.
   */
  lemma CheckNewDayArchives(t: State, today: string)
    requires IsNewDay(t.storage, today)
    ensures var t', last, saved := CheckNewDay(t, today), Marker(t.storage).value, LoadEntries(t.storage);
      && t'.history == (if |saved| > 0
                        then t.history[last := DayRecord(Total(saved), saved, t.profile.dailyGoal, last)]
                        else t.history)
      && t'.entries == [] && LoadEntries(t'.storage) == []
      && Marker(t'.storage) == Some(today) && t'.currentDate == today
      && t'.profile == t.profile && t'.quickAddItems == t.quickAddItems
  {
  }

  /**
   * Nothing logged is lost at rollover: the archived record holds exactly
   * the entries the day's log held, and its total is the day's total.
   */
  lemma CheckNewDayKeepsTodaysLog(t: State, today: string)
    requires Consistent(t) && IsNewDay(t.storage, today)
    ensures var t', last := CheckNewDay(t, today), Marker(t.storage).value;
      && (t.entries == [] ==> t'.history == t.history)
      && (t.entries != [] ==>
            && last in t'.history
            && t'.history[last].total == Total(t.entries)
            && multiset(t'.history[last].entries) == multiset(t.entries)
            && t'.history[last].goal == t.profile.dailyGoal)
  {
    var saved := LoadEntries(t.storage);
    TotalPermutation(saved, t.entries);
    if t.entries == [] {
      assert multiset(saved) == multiset{};
    } else {
      assert t.entries[0] in multiset(saved);
    }
  }

  /** A missing marker, an empty one or today's leaves everything but the marker alone. */
  lemma CheckNewDaySameDay(t: State, today: string)
    requires !IsNewDay(t.storage, today)
    ensures CheckNewDay(t, today) == t.(storage := SetMarker(t.storage, today), currentDate := today)
  {
  }

  /** Running the check again on the same day changes nothing more. */
  lemma CheckNewDayIdempotent(t: State, today: string)
    ensures CheckNewDay(CheckNewDay(t, today), today) == CheckNewDay(t, today)
  {
    var t1 := CheckNewDay(t, today);
    assert !IsNewDay(t1.storage, today);
    assert SetMarker(t1.storage, today) == t1.storage;
  }

  /**
   * The rollover keeps storage and memory in agreement, leaves the marker
   * on today, and keeps the log in display order.
   */
  lemma CheckNewDayKeepsValid(t: State, today: string)
    requires Consistent(t)
    ensures var t' := CheckNewDay(t, today);
      && Consistent(t')
      && Marker(t'.storage) == Some(today) && t'.currentDate == today
      && (SortedBy(t.entries, NewerFirst) ==> Valid(t'))
  {
    var t' := CheckNewDay(t, today);
    if IsNewDay(t.storage, today) {
      var a := ArchivePreviousDay(t, Marker(t.storage).value);
      SavesAreIndependent(t.storage, t.profile, t.quickAddItems, a.history, [], today);
      SavesAreIndependent(a.storage, t.profile, t.quickAddItems, a.history, [], today);
      var st2 := SaveEntries(a.storage, []);
      SavesAreIndependent(st2, t.profile, t.quickAddItems, a.history, [], today);
    } else {
      SavesAreIndependent(t.storage, t.profile, t.quickAddItems, t.history, t.entries, today);
    }
  }

  /** Every record says its own date, is non-empty, and its total is its entries' sum. */
  predicate HistoryWellFormed(h: map<string, DayRecord>) {
    forall d :: d in h ==> h[d].date == d && h[d].entries != [] && h[d].total == Total(h[d].entries)
  }

  /** Records made by rollover are well formed (records imported from a backup need not be). */
  lemma CheckNewDayKeepsHistoryWellFormed(t: State, today: string)
    requires HistoryWellFormed(t.history)
    ensures HistoryWellFormed(CheckNewDay(t, today).history)
  {
  }

  /** Two entries of 300 and 450 logged on 2024-01-01 and opened on 2024-01-02. */
  lemma ArchiveExample(t: State, a: FoodEntry, b: FoodEntry)
    requires Marker(t.storage) == Some("2024-01-01")
    requires LoadEntries(t.storage) == [a, b] && a.calories == 300 && b.calories == 450
    ensures var t' := CheckNewDay(t, "2024-01-02");
      && t'.history["2024-01-01"].total == 750
      && t'.history["2024-01-01"].entries == [a, b]
      && t'.entries == []
  {
    CheckNewDayArchives(t, "2024-01-02");
    assert [a, b][1..] == [b] && [b][1..] == [];
    assert Total([b]) == 450;
    assert Total([a, b]) == 750;
  }
}
