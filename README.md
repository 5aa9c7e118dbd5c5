# Calorie tracker state core, in Dafny

This project models the state layer of the `CalorieTracker` class of a
browser calorie-tracking app (`app.js`). The tracker keeps five pieces of
state in memory:

- the current date;
- the user's profile (weight, height, age, gender, BMR, daily goal);
- the quick-add templates;
- the archive of past days (`dailyHistory`, keyed by date);
- today's food entries.

Each of these is mirrored under its own `localStorage` key. A
`lastActiveDate` marker records the day the app last ran.

The model covers:

- **Day rollover.** `checkNewDay` and `archivePreviousDay` archive the
  outgoing day's saved entries under the date the marker names, then clear
  the log.
- **Food entries and quick-add templates.** Appending an entry with a
  trimmed name, deleting by id (every match is deleted), today's total and
  the remaining calories.
- **The food log sort.** The sort inside `renderFoodLog` reorders today's
  entries in place, newest id first, without saving them.
- **BMR.** The Mifflin-St Jeor equation on pounds and inches,
  `Math.round`, and `dailyGoal = bmr - 500`.
- **Backup and restore.** `getBackupData` snapshots the state.
  `importData` rejects a payload that is not an object, waits for the
  user's confirmation, and replaces exactly the buckets the backup carries.
- **Render-time numbers.** The progress bar's colour class, each history
  day's status, the date orders of the history list and the trend chart,
  and the chart's series and rounded average.

The model has two layers:

- **Value level.** Modules `TrackerState`, `Rollover` and `Backup` describe
  each operation as a function from one `State` value to the next. The
  lemmas about those functions carry the properties.
- **Object level.** Class `App.CalorieTracker` has the source's fields and
  a `storage: map<string, Stored>` field that stands in for
  `localStorage`. Each method performs the source's steps in place. Its
  `ensures` says the new state equals the transition function applied to
  the old state.

The user actions (adding and deleting entries and templates, submitting
the settings, importing a backup) also keep the invariant `Valid()`. It has
three parts:

- every persisted bucket equals the one in memory, except today's entries,
  which are equal only as a multiset;
- the marker names the current date;
- today's entries are sorted newest first.

Some steps hold only part of the invariant, because the source calls them
between the parts of a user action:

- The rollover check keeps storage and memory in agreement and sets the
  marker. It keeps the sort order only when the log was already sorted,
  since at start-up it runs before the first sort.
- `archivePreviousDay` and the food log's sort state no invariant of their
  own; the actions that call them do.
- `updateBMR` requires everything except the profile to be in its steady
  state, since the settings form edits the profile in memory just before
  calling it.
- `getTodayTotal` and `getRemainingCalories` need only storage to agree
  with memory. `updateUI` calls them after a push or an import but before
  the log is sorted.

Today's entries are only a permutation of the saved ones because the food
log sorts the field after it was saved. That is why the rollover reads the
saved entries and still files exactly the day's entries, with the same
total (`Rollover.CheckNewDayKeepsTodaysLog`).

The clock (`getTodayDate`, `Date.now()`, `new Date().toISOString()`) and
the user's answer to `confirm` are parameters. Dates are `YYYY-MM-DD`
strings ordered lexicographically (module `Dates`).

Some behaviour of the code worth knowing:

- `addFoodEntry` and `addQuickAddItem` validate nothing. They trim the
  name and store the calories they are given, empty or negative.
- `importData` only rejects a value that is not an object. It then
  replaces the buckets the backup carries, one after another, without
  checking their shape.
- Entry ids are `Date.now()` readings and need not be unique. A delete
  removes every entry with the given id.
- For 200 lb, 70 in, age 30, male, the equation gives exactly 1873.434,
  which rounds to 1873 (`Bmr.WorkedExample`).

## Model

| member | source | states |
|---|---|---|
| Text.TrimStart | app.js:199 | the result is a suffix of the name, does not start with white space, and only white space was dropped |
| Text.TrimEnd | app.js:199 | the result is a prefix, does not end with white space, and only white space was dropped |
| Text.Trim | app.js:199 | `name.trim()` is no longer than the name and neither starts nor ends with white space |
| Text.TrimIsSlice | app.js:199 | the trimmed name is the slice of the input between its leading and its trailing white space, and everything cut off is white space |
| Text.TrimIdempotent | app.js:232 | trimming a trimmed name changes nothing |
| Text.TrimKeepsTidyName | app.js:232 | a name with no white space at either end is stored exactly as typed |
| Dates.BeforeIrreflexive | app.js:400-402 | no date sorts before itself |
| Dates.BeforeTransitive | app.js:400-402 | the date order is transitive |
| Dates.BeforeTotal | app.js:346-348 | two different dates are always ordered one way or the other |
| Sorting.Insert | app.js:305-306 | inserting into a list adds exactly that one element (as a multiset) |
| Sorting.SortBy | app.js:305-306 | the sort returns a permutation of its input |
| Sorting.InsertSorted | app.js:305-306 | inserting into a list that is in order, under a strict order, keeps it in order |
| Sorting.SortBySorted | app.js:305-306 | under a strict order the sort's output is in order |
| Sorting.InsertAtEnd | app.js:305-306 | an element that precedes nothing already in the list goes at the end (stability) |
| Sorting.SortByKeepsSorted | app.js:305-306 | sorting a list that is already in order returns it unchanged |
| Lists.Filter | app.js:211 | the filter keeps only elements that pass the test and never grows the list |
| Lists.FilterCount | app.js:211 | each value that passes is kept as often as it occurs, and each value that fails is dropped entirely |
| Lists.FilterPermutation | app.js:408 | filtering two permutations of one list gives two permutations of one list |
| Lists.FilterAppend | app.js:243 | filtering a concatenation is the concatenation of the filtered parts, so kept elements keep their relative order |
| Lists.FilterKeepsAll | app.js:243 | when every element passes, the list comes back unchanged |
| Lists.FilterIdempotent | app.js:243 | filtering twice by the same test is the same as filtering once |
| Lists.FilterKeepsOrder | app.js:408 | filtering a sorted list leaves it sorted |
| Entities.Total | app.js:217-219 | the `reduce` sum of the calories, 0 for no entries (its properties are the lemmas below) |
| Entities.TotalNonNegative | app.js:217-219 | entries with no negative calories never sum below 0 |
| Entities.TotalAppend | app.js:217-219 | the calorie sum over two lists joined is the sum of their sums |
| Entities.TotalPush | app.js:204 | pushing an entry raises the sum by exactly its calories |
| Entities.TotalRemoveAt | app.js:217-219 | taking one entry out of a list lowers the sum by exactly its calories |
| Entities.MultisetRemoveAt | app.js:217-219 | taking the entry at a position out of a list removes one copy of it from the list's multiset |
| Entities.TotalPermutation | app.js:217-219 | the `reduce` sum does not depend on the order of the entries |
| Storage.SetMarker | app.js:75 | after writing the marker it reads back as today, and no other key changes |
| Storage.SaveProfile | app.js:134-136 | the saved profile loads back, and only the `userProfile` key changes |
| Storage.SaveItems | app.js:143-145 | the saved templates load back, and only the `quickAddItems` key changes |
| Storage.SaveEntries | app.js:152-154 | the saved entries load back, and only the `todayEntries` key changes |
| Storage.SaveHistory | app.js:161-163 | the saved history loads back, and only the `dailyHistory` key changes |
| Storage.SavesAreIndependent | app.js:101-163 | each save leaves the other four buckets and the marker reading exactly as before |
| Storage.Marker | app.js:66 | the marker reads as absent when the key was never written |
| Storage.LoadProfile | app.js:121-132 | a missing profile loads as the default profile (200 lb, 70 in, 30, male, 75, BMR 1850, goal 1350) |
| Storage.LoadItems | app.js:139-141 | missing templates load as the empty list |
| Storage.LoadHistory | app.js:157-159 | a missing history loads as the empty map |
| Storage.LoadEntries | app.js:148-150 | missing entries load as the empty list |
| Bmr.Round | app.js:182 | `Math.round(x)` is the integer within one half of `x`, with halves rounded up |
| Bmr.MifflinStJeor | app.js:171-180 | after the unit conversion the equation is 4.53592 per pound, 15.875 per inch and -5 per year, plus 5 for "male" and -161 for any other gender |
| Bmr.CalculateBMR | app.js:169-183 | the BMR is within one half of the Mifflin-St Jeor value on pounds converted to kilograms and inches converted to centimetres |
| Bmr.AgeOrDefault | app.js:187 | `age \|\| 30`: a missing or zero age becomes 30; any other age is used as it is |
| Bmr.RoundShift | app.js:182 | shifting by a whole number shifts the rounded value by the same amount |
| Bmr.RoundMonotone | app.js:182 | rounding is monotone |
| Bmr.MaleExceedsFemale | app.js:176-180 | with the same inputs, the male value is exactly 166 above the value for any other gender, both unrounded and rounded |
| Bmr.BmrMonotone | app.js:169-183 | more weight, more height or fewer years never lower the BMR |
| Bmr.WorkedExample | app.js:169-183 | 200 lb, 70 in, age 30, male gives 1873.434 unrounded and a BMR of 1873 |
| Display.PercentAtLeast | app.js:257 | for a positive goal, `total / goal * 100 >= b` holds exactly when `100 * total >= b * goal` |
| Display.ProgressClass | app.js:257-274 | for a positive goal the bar is `danger` iff total >= goal, `warning` iff 80% <= total/goal < 100%, and plain iff below 80% |
| Display.DayStatus | app.js:356-366 | for a positive goal the day is Over Goal iff total >= goal, Near Goal iff 90% <= total/goal < 100%, and On Track iff below 90% |
| Display.DateOrdersAreStrict | app.js:346-348 | both date comparators (earlier first and later first) are strict orders |
| Display.HistoryOrder | app.js:346-348 | the history listing has as many days as the history (its order is `Display.HistoryOrderIsLatestFirst`) |
| Display.HistoryOrderIsLatestFirst | app.js:346-348 | the history list shows every archived day once, with no day listed before a later one |
| Display.RoundedQuotient | app.js:417-419 | `Math.round(sum / n)` lies within one half of `sum / n`, stated in integers |
| Display.Average | app.js:417-419 | the average is 0 with no days; otherwise it is the integer nearest to sum / n, with halves rounded up |
| Display.ChartDays | app.js:400-409 | the plotted days are never more than the archived days, and are all of them for the whole period (see `Display.ChartDaysAreThePeriod`) |
| Display.ChartSeries | app.js:411-422 | `daysTracked` is the number of plotted days; the i-th date, total and goal are those of the i-th plotted day; the dates ascend; the average is taken over the plotted totals |
| Display.ChartDaysAreThePeriod | app.js:400-409 | the chart plots, oldest first, exactly the archived days the period admits, each once |
| Display.EmptyChart | app.js:417-422 | with no days in the period the chart shows 0 days tracked and an average of 0 |
| TrackerState.Load | app.js:9-13 | the freshly loaded state agrees with storage, and today's entries are the saved ones in their saved order |
| TrackerState.NewerFirstIsStrict | app.js:306 | the comparator `b.id - a.id` is a strict order |
| TrackerState.RenderFoodLog | app.js:297-306 | the food log's sort leaves today's entries newest first, as a permutation of themselves; nothing else changes, and storage still agrees with memory |
| TrackerState.RenderFoodLogKeepsSorted | app.js:305-306 | re-rendering a log that is already in order changes nothing |
| TrackerState.AddFoodEntry | app.js:196-208 | adding logs exactly one more entry and leaves the date, profile, templates and history alone |
| TrackerState.AddFoodEntryAppends | app.js:196-208 | adding saves the old log with the new entry (trimmed name, given calories) at the end; the log grows by one; the total rises and the remaining calories fall by exactly the calories; an entry with the largest id is shown first; the invariant holds and nothing else changes |
| TrackerState.DeleteFoodEntry | app.js:210-215 | a delete never lengthens the log and leaves the date, profile, templates and history alone |
| TrackerState.DeleteFoodEntryRemovesId | app.js:210-215 | after a delete no entry has the id; every other entry is kept, in order, in memory and in storage; nothing else changes |
| TrackerState.DeleteFoodEntryUnknownId | app.js:211 | deleting an id no entry has leaves the log as it was |
| TrackerState.DeleteFoodEntryTwice | app.js:211 | deleting an id twice is the same as deleting it once |
| TrackerState.AddQuickAddItem | app.js:229-240 | adding a template adds exactly one and leaves the date, profile, log and history alone |
| TrackerState.AddQuickAddItemAppends | app.js:229-240 | adding a template appends exactly it, with the trimmed name, and saves it; nothing else changes |
| TrackerState.DeleteQuickAddItem | app.js:242-247 | a template delete never lengthens the list and leaves the date, profile, log and history alone |
| TrackerState.DeleteQuickAddItemRemovesId | app.js:242-247 | after a delete no template has the id; every other template is kept, in order; nothing else changes |
| TrackerState.DeleteQuickAddItemUnknownId | app.js:243 | deleting an id no template has leaves the templates as they were |
| TrackerState.DeleteQuickAddItemTwice | app.js:243 | deleting a template id twice is the same as deleting it once |
| TrackerState.UpdateBMR | app.js:185-190 | afterwards the goal is the BMR minus 500; the date, templates, log and history are left alone |
| TrackerState.UpdateBMRSetsGoal | app.js:185-190 | on a profile edited in memory but not yet saved, `updateBMR` sets the BMR to the rounded equation on the profile (age defaulting to 30) and the goal to BMR - 500, saves the profile, restores the invariant, and changes nothing else |
| TrackerState.SubmitSettings | app.js:564-577 | the form's values become the profile's weight, height and gender, and the goal is the BMR minus 500 |
| TrackerState.SubmitSettingsSaves | app.js:564-577 | submitting the settings saves a profile with the form's weight, height, gender, age (30 when missing or zero) and exercise allowance (0 when missing), with the BMR they give and goal = BMR - 500; the invariant holds and nothing else changes |
| TrackerState.UpdateBMROnDefaultProfile | app.js:185-190 | on the default profile, `updateBMR` gives BMR 1873 and goal 1373, replacing the stored 1850/1350 |
| Rollover.ArchivePreviousDay | app.js:82-95 | with no saved entries nothing changes; otherwise the date gets a record, the history is saved, and no other date gains or loses a record |
| Rollover.CheckNewDay | app.js:64-80 | afterwards the marker and the current date are today, the profile and templates are untouched, and on a new day the log is empty in memory and in storage |
| Rollover.CheckNewDayArchives | app.js:64-95 | on a new day the saved entries become the record for the marker's date (their sum, the entries, the current goal, the date), replacing any earlier record; an empty day adds nothing; the log is cleared in memory and in storage; the marker becomes today |
| Rollover.CheckNewDayKeepsTodaysLog | app.js:82-95 | the archived record holds exactly the day's logged entries, and its total is the day's total |
| Rollover.CheckNewDaySameDay | app.js:64-76 | a missing or empty marker, or one naming today, changes nothing but the marker and the current date |
| Rollover.CheckNewDayIdempotent | app.js:64-76 | a second check on the same day changes nothing |
| Rollover.CheckNewDayKeepsValid | app.js:64-80 | the rollover keeps storage in agreement with memory, sets the marker and the current date to today, and keeps the invariant when the log was sorted |
| Rollover.CheckNewDayKeepsHistoryWellFormed | app.js:82-95 | records made at rollover are keyed by their own date, non-empty, and total their entries |
| Rollover.ArchiveExample | app.js:82-95 | entries of 300 and 450 on 2024-01-01, opened on 2024-01-02, give a record totalling 750 with exactly those entries, and an empty log |
| Backup.GetBackupData | app.js:658-667 | the backup is tagged version "1.0" and the export time, and carries the four buckets as they are in memory |
| Backup.ImportData | app.js:741-793 | the import reports Restored exactly for a confirmed object and InvalidFormat exactly for a non-object; the current date is never touched |
| Backup.WithProfile | app.js:756-759 | a profile present in the backup replaces the profile in memory and in storage; otherwise the profile is kept; agreement with storage and the marker are kept |
| Backup.WithItems | app.js:761-764 | templates present in the backup replace the templates in memory and in storage; otherwise they are kept |
| Backup.WithHistory | app.js:766-769 | a history present in the backup replaces the history in memory and in storage; otherwise it is kept |
| Backup.WithEntries | app.js:771-774 | entries present in the backup replace the entries in memory and in storage; otherwise they are kept |
| Backup.ImportRefused | app.js:744-753 | a payload that is not an object (invalid format), or a declined confirmation, changes nothing |
| Backup.ImportReplacesPresent | app.js:741-779 | a confirmed import replaces exactly the buckets the backup carries and keeps the others; the imported entries are saved in their own order and shown newest first; the invariant holds |
| Backup.ImportOwnBackup | app.js:658-667 | restoring the tracker's own backup leaves every in-memory bucket as it was |
| App.CalorieTracker.constructor | app.js:7-33 | construction loads every bucket, runs the rollover check and the food-log sort, and establishes the invariant |
| App.CalorieTracker.CheckNewDay | app.js:64-80 | the in-place rollover lands in `Rollover.CheckNewDay` of the old state, keeps storage in agreement with memory, sets the marker and the date to today, and keeps the invariant when the log was sorted |
| App.CalorieTracker.ArchivePreviousDay | app.js:82-95 | the in-place archive lands in `Rollover.ArchivePreviousDay` of the old state |
| App.CalorieTracker.RenderFoodLog | app.js:297-306 | the in-place sort lands in `TrackerState.RenderFoodLog` of the old state |
| App.CalorieTracker.AddFoodEntry | app.js:196-208 | push, save and sort land in `TrackerState.AddFoodEntry` of the old state, with the invariant kept |
| App.CalorieTracker.DeleteFoodEntry | app.js:210-215 | filter, save and sort land in `TrackerState.DeleteFoodEntry` of the old state, with the invariant kept |
| App.CalorieTracker.GetTodayTotal | app.js:217-219 | with storage agreeing with memory (sorted or not), today's total over memory equals the total over the saved entries, and is 0 with no entries |
| App.CalorieTracker.GetRemainingCalories | app.js:221-223 | with storage agreeing with memory, remaining plus total is the goal; remaining is negative exactly when the total exceeds the goal |
| App.CalorieTracker.AddQuickAddItem | app.js:229-240 | push and save land in `TrackerState.AddQuickAddItem` of the old state, with the invariant kept |
| App.CalorieTracker.DeleteQuickAddItem | app.js:242-247 | filter and save land in `TrackerState.DeleteQuickAddItem` of the old state, with the invariant kept |
| App.CalorieTracker.UpdateBMR | app.js:185-190 | from a state that is steady except for an unsaved profile, the in-place update lands in `TrackerState.UpdateBMR` of the old state, sets goal = BMR - 500 and restores the invariant |
| App.CalorieTracker.SubmitSettings | app.js:564-577 | the handler's field writes followed by `updateBMR` land in `TrackerState.SubmitSettings` of the old state and keep the invariant |
| App.CalorieTracker.GetBackupData | app.js:658-667 | the backup of the object is the value-level backup of its fields, whose restore `Backup.ImportOwnBackup` describes |
| App.CalorieTracker.ImportData | app.js:741-793 | the in-place import lands in `Backup.ImportData` of the old state, with the same outcome, and keeps the invariant |

## Left out

- DOM rendering, markup, event wiring, `switchTab`, `updateSettingsForm`, `updateBMRDisplay`, `formatDate` and `checkWebShareSupport`: presentation only. The chart's labels are the dates themselves, not their `formatDate` form.
- The settings form handler's reading of the form: `parseFloat`/`parseInt` results are given as values, `None` for an unreadable integer. A `NaN` weight or height is not modelled. The `alert` and the display refresh after it are presentation.
- Chart.js construction (`new Chart(...)`, `destroy`): a foreign library. Only the series and the average handed to it are modelled.
- `exportData`, `shareData`, `copyDataToClipboard`, `pasteDataFromClipboard` and `handleFileImport`: asynchronous I/O channels. Import is modelled from an already parsed value.
- `JSON.parse`/`JSON.stringify`: storage holds typed values (`Storage.Stored`). A value of the wrong shape reads as the bucket's default, like a missing or unparseable one. The source would instead return whatever JSON it parsed.
- `parseInt` on calories: calories are given as integers. A `NaN` calorie value is not modelled.
- IEEE-754 doubles: BMR, percentages and the chart average are exact reals. Division by a zero goal follows JavaScript (`Infinity` reaches every threshold; `NaN` and `-Infinity` reach none). Conclusions are stated only for a positive goal.
- The clock: `getTodayDate`, `Date.now()` and `new Date()` are parameters. The UTC date `toISOString` yields is the caller's concern.
- The one-minute `setInterval` rollover tick: timer plumbing. Each tick is a call of `CheckNewDay`.
- `Display.ChartDays`: the cutoff `now - days` is given as the first date it admits. The time of day inside `new Date(...)` comparisons is not modelled, and neither are invalid date strings.
- `Object.values(dailyHistory)` listing order: the history and chart functions take the listing as a sequence, so their results are stated up to that order.
- The storage-full `alert` in `saveToStorage` and a failed save: a save always succeeds in the model.
- `localStorage.clear()` followed by a reload: side effect only.
- An exception thrown midway through `importData` (an ill-typed field in a hand-edited backup): imported fields are well typed in the model, so a partially applied import is not modelled.
- The confirmation dialog's text, built from `exportDate`: only its yes/no answer is modelled.
- `PWAManager` and `service-worker.js`: service-worker registration, install prompt, caching and network I/O.
- Stability of the sort for entries with equal ids or days with equal dates: the insertion sort keeps such elements in their original order, but no lemma states it.
- `App.CalorieTracker.RenderFoodLog`: the array is sorted by reassigning the sequence field. Aliasing of the same array object (for example through a returned backup) is not modelled.
