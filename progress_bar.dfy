/** The progress bar of src/components/ui/ProgressBar.tsx: the inner bar's
    width is `Math.min(100, progress)` percent, always in the primary
    colour. */
module ProgressBar {
  import opened Wrappers
  import opened Numbers

  /** The width, in percent, of the filled part. */
  function Width(progress: Number): Number {
    Min(100.0, progress)
  }

  /** The class of the filled part; the `color` prop is accepted and never
      read. */
  function BarClass(color: Option<string>): string {
    "bg-primary"
  }

  /** The width never exceeds 100, equals the progress up to 100, and has no
      lower clamp: a negative progress is passed through. */
  lemma WidthClamp(p: real)
    ensures Width(Finite(p)).Finite? && Width(Finite(p)).value <= 100.0
    ensures p <= 100.0 ==> Width(Finite(p)) == Finite(p)
    ensures p > 100.0 ==> Width(Finite(p)) == Finite(100.0)
    ensures p < 0.0 ==> Width(Finite(p)).value < 0.0
  {
  }

  /** More progress never gives a narrower bar. */
  lemma WidthMonotone(p: real, q: real)
    requires p <= q
    ensures Width(Finite(p)).value <= Width(Finite(q)).value
  {
  }

  /** What a division by zero upstream turns into: an infinite progress
      fills the bar, NaN stays NaN. */
  lemma WidthOfNonFinite()
    ensures Width(Infinity) == Finite(100.0)
    ensures Width(NaN) == NaN
    ensures Width(NegInfinity) == NegInfinity
  {
  }

  /** Whatever colour is asked for, the bar is drawn in the primary colour. */
  lemma ColorIgnored(color: Option<string>)
    ensures BarClass(color) == BarClass(None) == "bg-primary"
  {
  }
}
