/**
 * The records the calorie tracker keeps: logged food entries, quick-add
 * templates, archived days and the user's profile, with the calorie sum
 * that `getTodayTotal` and `archivePreviousDay` compute with `reduce`.
 */
module Entities {
  import opened Wrappers

  /** One logged food; `id` is the `Date.now()` reading at creation and need not be unique. */
  datatype FoodEntry = FoodEntry(id: int, name: string, calories: int, timestamp: string)

  /** A reusable named calorie amount shown as a quick-add button. */
  datatype QuickAddItem = QuickAddItem(id: int, name: string, calories: int)

  /** The archive of one past day, stored under its date. */
  datatype DayRecord = DayRecord(total: int, entries: seq<FoodEntry>, goal: int, date: string)

  /**
   * The settings record. `age` is optional because a stored or imported
   * profile may lack it; `gender` is the raw form value, and only "male"
   * selects the male formula.
   */
  datatype UserProfile = UserProfile(
    weight: real, height: real, age: Option<int>, gender: string,
    exerciseCalories: int, bmr: int, dailyGoal: int)

  /** The profile used when none is stored (app.js:122-130). */
  const DefaultProfile := UserProfile(200.0, 70.0, Some(30), "male", 75, 1850, 1350)

  /** The food log's display comparator `b.id - a.id`: larger ids first. */
  predicate NewerFirst(a: FoodEntry, b: FoodEntry) {
    a.id > b.id
  }

  /** The test `entry.id !== id` that deleting a food entry filters by. */
  function OtherEntry(id: int): FoodEntry -> bool {
    (e: FoodEntry) => e.id != id
  }

  /** The test `item.id !== id` that deleting a quick-add item filters by. */
  function OtherItem(id: int): QuickAddItem -> bool {
    (q: QuickAddItem) => q.id != id
  }

  /** The sum of the entries' calories; 0 for no entries. */
  function Total(s: seq<FoodEntry>): (r: int)
    ensures s == [] ==> r == 0
  {
    if s == [] then 0 else s[0].calories + Total(s[1..])
  }

  /** Entries with no negative calories never sum below zero. */
  lemma {:induction false} TotalNonNegative(s: seq<FoodEntry>)
    requires forall i :: 0 <= i < |s| ==> s[i].calories >= 0
    ensures Total(s) >= 0
  {
    if s != [] {
      assert forall i :: 0 <= i < |s[1..]| ==> s[1..][i] == s[i + 1];
      TotalNonNegative(s[1..]);
    }
  }

  lemma {:induction false} TotalAppend(a: seq<FoodEntry>, b: seq<FoodEntry>)
    ensures Total(a + b) == Total(a) + Total(b)
  {
    if a == [] {
      assert a + b == b;
    } else {
      assert (a + b)[0] == a[0] && (a + b)[1..] == a[1..] + b;
      TotalAppend(a[1..], b);
    }
  }

  /** Taking the entry at `k` out of `b` takes its calories out of the sum. */
  lemma {:induction false} TotalRemoveAt(b: seq<FoodEntry>, k: nat)
    requires k < |b|
    ensures Total(b) == b[k].calories + Total(b[..k] + b[k + 1..])
    decreases k
  {
    if k == 0 {
      assert b[..0] + b[1..] == b[1..];
    } else {
      var tail := b[1..];
      TotalRemoveAt(tail, k - 1);
      var rest := tail[..k - 1] + tail[k..];
      assert b[..k] + b[k + 1..] == [b[0]] + rest;
      assert ([b[0]] + rest)[1..] == rest;
    }
  }

  /** Taking the entry at `k` out of `b` takes one copy of it out of the multiset. */
  lemma MultisetRemoveAt(b: seq<FoodEntry>, k: nat)
    requires k < |b|
    ensures multiset(b[..k] + b[k + 1..]) == multiset(b) - multiset{b[k]}
  {
    var front, x, back := b[..k], b[k], b[k + 1..];
    assert b == front + [x] + back;
    assert multiset(b) == multiset(front) + multiset{x} + multiset(back);
  }

  /** The sum does not depend on the order of the entries. */
  lemma {:induction false} TotalPermutation(a: seq<FoodEntry>, b: seq<FoodEntry>)
    requires multiset(a) == multiset(b)
    ensures Total(a) == Total(b)
    decreases |a|
  {
    if a == [] {
      assert b == [];
    } else {
      var x := a[0];
      assert x in multiset(b);
      var k :| 0 <= k < |b| && b[k] == x;
      MultisetRemoveAt(b, k);
      assert a == [x] + a[1..];
      assert multiset(a[1..]) == multiset(a) - multiset{x};
      TotalRemoveAt(b, k);
      TotalPermutation(a[1..], b[..k] + b[k + 1..]);
    }
  }

  /** Appending an entry adds exactly its calories to the sum. */
  lemma TotalPush(s: seq<FoodEntry>, e: FoodEntry)
    ensures Total(s + [e]) == Total(s) + e.calories
  {
    TotalAppend(s, [e]);
  }
}
