/**
 * `calculateBMR`: the Mifflin-St Jeor equation on pounds and inches,
 * rounded with `Math.round`, and the age fallback `age || 30` that
 * `updateBMR` applies before calling it.
 */
module Bmr {
  import opened Wrappers

  const KgPerPound: real := 0.453592
  const CmPerInch: real := 2.54

  /** `Math.round`: the nearest integer, halves rounded up. */
  function Round(x: real): (n: int)
    ensures n as real - 0.5 <= x < n as real + 0.5
  {
    (x + 0.5).Floor
  }

  /** The unrounded equation; every gender other than "male" takes the female constant. */
  function MifflinStJeor(weight: real, height: real, age: int, gender: string): (r: real)
    ensures r == 4.53592 * weight + 15.875 * height - 5.0 * age as real
                 + (if gender == "male" then 5.0 else -161.0)
  {
    var weightKg := weight * KgPerPound;
    var heightCm := height * CmPerInch;
    if gender == "male" then 10.0 * weightKg + 6.25 * heightCm - 5.0 * age as real + 5.0
    else 10.0 * weightKg + 6.25 * heightCm - 5.0 * age as real - 161.0
  }

  function CalculateBMR(weight: real, height: real, age: int, gender: string): (bmr: int)
    ensures bmr as real - 0.5 <= MifflinStJeor(weight, height, age, gender) < bmr as real + 0.5
  {
    Round(MifflinStJeor(weight, height, age, gender))
  }

  /** `age || 30`: a missing or zero age counts as 30, any other age is used as is. */
  function AgeOrDefault(age: Option<int>): (a: int)
    ensures age == None || age == Some(0) ==> a == 30
    ensures age.Some? && age.value != 0 ==> a == age.value
  {
    if age.Some? && age.value != 0 then age.value else 30
  }

  /** Rounding to an integer distance moves the rounded value by that distance. */
  lemma RoundShift(x: real, d: int)
    ensures Round(x + d as real) == Round(x) + d
  {
    var n := Round(x);
    assert (n + d) as real - 0.5 <= x + d as real < (n + d) as real + 0.5;
    var m := Round(x + d as real);
    assert m as real - 0.5 <= x + d as real < m as real + 0.5;
  }

  lemma RoundMonotone(x: real, y: real)
    requires x <= y
    ensures Round(x) <= Round(y)
  {
  }

  /** For the same body, the male BMR is exactly 166 above the female one. */
  lemma MaleExceedsFemale(weight: real, height: real, age: int, gender: string)
    requires gender != "male"
    ensures MifflinStJeor(weight, height, age, "male") == MifflinStJeor(weight, height, age, gender) + 166.0
    ensures CalculateBMR(weight, height, age, "male") == CalculateBMR(weight, height, age, gender) + 166
  {
    RoundShift(MifflinStJeor(weight, height, age, gender), 166);
  }

  /** More weight or height, or fewer years, never lowers the BMR. */
  lemma BmrMonotone(w1: real, h1: real, a1: int, w2: real, h2: real, a2: int, gender: string)
    requires w1 <= w2 && h1 <= h2 && a2 <= a1
    ensures CalculateBMR(w1, h1, a1, gender) <= CalculateBMR(w2, h2, a2, gender)
  {
    RoundMonotone(MifflinStJeor(w1, h1, a1, gender), MifflinStJeor(w2, h2, a2, gender));
  }

  /** 200 lb, 70 in, 30 years, male: 1873.434 before rounding. */
  lemma WorkedExample()
    ensures MifflinStJeor(200.0, 70.0, 30, "male") == 1873.434
    ensures CalculateBMR(200.0, 70.0, 30, "male") == 1873
  {
  }
}
