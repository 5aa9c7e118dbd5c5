/**
 * The tracker's persisted state: `localStorage` as a key -> value map and
 * the `load*`/`save*` pairs over it. A value is either the raw marker
 * string, one of the four JSON-encoded buckets, or something that does not
 * parse; `loadFromStorage` falls back to the bucket's default when the key
 * is missing or its value does not parse.
 */
module Storage {
  import opened Wrappers
  import opened Entities

  datatype Stored =
    | Text(text: string)
    | ProfileJson(profile: UserProfile)
    | ItemsJson(items: seq<QuickAddItem>)
    | HistoryJson(history: map<string, DayRecord>)
    | EntriesJson(entries: seq<FoodEntry>)
    | Unreadable

  type Store = map<string, Stored>

  const MarkerKey: string := "lastActiveDate"
  const ProfileKey: string := "userProfile"
  const ItemsKey: string := "quickAddItems"
  const HistoryKey: string := "dailyHistory"
  const EntriesKey: string := "todayEntries"

  /** `st'` differs from `st` at most under `key`. */
  ghost predicate OnlyKeyChanged(st: Store, st': Store, key: string) {
    forall k :: k != key ==> (k in st <==> k in st') && (k in st ==> st[k] == st'[k])
  }

  /** `localStorage.getItem('lastActiveDate')`. */
  function Marker(st: Store): (m: Option<string>)
    ensures MarkerKey !in st ==> m == None
  {
    if MarkerKey in st && st[MarkerKey].Text? then Some(st[MarkerKey].text) else None
  }

  /** `localStorage.setItem('lastActiveDate', today)`. */
  function SetMarker(st: Store, today: string): (st': Store)
    ensures Marker(st') == Some(today)
    ensures OnlyKeyChanged(st, st', MarkerKey)
  {
    st[MarkerKey := Text(today)]
  }

  function LoadProfile(st: Store): (p: UserProfile)
    ensures ProfileKey !in st ==> p == DefaultProfile
  {
    if ProfileKey in st && st[ProfileKey].ProfileJson? then st[ProfileKey].profile else DefaultProfile
  }

  function SaveProfile(st: Store, p: UserProfile): (st': Store)
    ensures LoadProfile(st') == p
    ensures OnlyKeyChanged(st, st', ProfileKey)
  {
    st[ProfileKey := ProfileJson(p)]
  }

  function LoadItems(st: Store): (items: seq<QuickAddItem>)
    ensures ItemsKey !in st ==> items == []
  {
    if ItemsKey in st && st[ItemsKey].ItemsJson? then st[ItemsKey].items else []
  }

  function SaveItems(st: Store, items: seq<QuickAddItem>): (st': Store)
    ensures LoadItems(st') == items
    ensures OnlyKeyChanged(st, st', ItemsKey)
  {
    st[ItemsKey := ItemsJson(items)]
  }

  function LoadHistory(st: Store): (h: map<string, DayRecord>)
    ensures HistoryKey !in st ==> h == map[]
  {
    if HistoryKey in st && st[HistoryKey].HistoryJson? then st[HistoryKey].history else map[]
  }

  function SaveHistory(st: Store, h: map<string, DayRecord>): (st': Store)
    ensures LoadHistory(st') == h
    ensures OnlyKeyChanged(st, st', HistoryKey)
  {
    st[HistoryKey := HistoryJson(h)]
  }

  /** Also what `archivePreviousDay` reads: `loadFromStorage('todayEntries') || []`. */
  function LoadEntries(st: Store): (entries: seq<FoodEntry>)
    ensures EntriesKey !in st ==> entries == []
  {
    if EntriesKey in st && st[EntriesKey].EntriesJson? then st[EntriesKey].entries else []
  }

  function SaveEntries(st: Store, entries: seq<FoodEntry>): (st': Store)
    ensures LoadEntries(st') == entries
    ensures OnlyKeyChanged(st, st', EntriesKey)
  {
    st[EntriesKey := EntriesJson(entries)]
  }

  /**
   * Each save is read back by its own load and by no other: the five keys
   * are distinct, so a save leaves every other bucket and the marker as
   * they were.
   */
  lemma SavesAreIndependent(st: Store, p: UserProfile, items: seq<QuickAddItem>,
                            h: map<string, DayRecord>, e: seq<FoodEntry>, today: string)
    ensures var st1 := SaveProfile(st, p);
      LoadItems(st1) == LoadItems(st) && LoadHistory(st1) == LoadHistory(st)
      && LoadEntries(st1) == LoadEntries(st) && Marker(st1) == Marker(st)
    ensures var st2 := SaveItems(st, items);
      LoadProfile(st2) == LoadProfile(st) && LoadHistory(st2) == LoadHistory(st)
      && LoadEntries(st2) == LoadEntries(st) && Marker(st2) == Marker(st)
    ensures var st3 := SaveHistory(st, h);
      LoadProfile(st3) == LoadProfile(st) && LoadItems(st3) == LoadItems(st)
      && LoadEntries(st3) == LoadEntries(st) && Marker(st3) == Marker(st)
    ensures var st4 := SaveEntries(st, e);
      LoadProfile(st4) == LoadProfile(st) && LoadItems(st4) == LoadItems(st)
      && LoadHistory(st4) == LoadHistory(st) && Marker(st4) == Marker(st)
    ensures var st5 := SetMarker(st, today);
      LoadProfile(st5) == LoadProfile(st) && LoadItems(st5) == LoadItems(st)
      && LoadHistory(st5) == LoadHistory(st) && LoadEntries(st5) == LoadEntries(st)
  {
  }
}
