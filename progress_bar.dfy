/** The progress bar component's width: its `value` prop clamped to a
    percentage. */
module ProgressBar {
  import opened Basics

  /** `Math.min(Math.max(value, 0), 100)` with `value` defaulting to 0. */
  function Clamp(value: Option<real>): (c: real)
    ensures 0.0 <= c <= 100.0
    ensures value.None? ==> c == 0.0
    ensures value.Some? && 0.0 <= value.value <= 100.0 ==> c == value.value
    ensures value.Some? && value.value < 0.0 ==> c == 0.0
    ensures value.Some? && value.value > 100.0 ==> c == 100.0
  {
    var v := value.GetOr(0.0);
    var atLeastZero := if v >= 0.0 then v else 0.0;
    if atLeastZero <= 100.0 then atLeastZero else 100.0
  }

  /** Clamping a clamped width changes nothing. */
  lemma ClampIdempotent(value: Option<real>)
    ensures Clamp(Some(Clamp(value))) == Clamp(value)
  {
  }

  /** A larger value never draws a narrower bar. */
  lemma ClampMonotone(a: real, b: real)
    requires a <= b
    ensures Clamp(Some(a)) <= Clamp(Some(b))
  {
  }
}
