/** The progress bar of src/components/ui/progress.tsx: the percentage it
    draws for a given `value`. `None` stands for an omitted or falsy value. */
module Progress {
  import opened Common

  /** `Math.min(100, Math.max(0, value || 0))`. */
  function ProgressValue(value: Option<real>): (p: real)
    ensures 0.0 <= p <= 100.0
    ensures value.None? ==> p == 0.0
    ensures value.Some? && 0.0 <= value.value <= 100.0 ==> p == value.value
    ensures value.Some? && value.value < 0.0 ==> p == 0.0
    ensures value.Some? && value.value > 100.0 ==> p == 100.0
  {
    var v := if value.None? then 0.0 else value.value;
    var lower := if 0.0 < v then v else 0.0;
    if 100.0 < lower then 100.0 else lower
  }

  /** Drawing an already drawn percentage draws it again unchanged. */
  lemma ClampIdempotent(value: Option<real>)
    ensures ProgressValue(Some(ProgressValue(value))) == ProgressValue(value)
  {
  }

  /** The clamp keeps the order of two values: a larger value never draws
      a shorter bar. */
  lemma ClampMonotone(a: real, b: real)
    requires a <= b
    ensures ProgressValue(Some(a)) <= ProgressValue(Some(b))
  {
  }
}
