/**
  The progress bar (components/ui/ProgressBar.tsx): the progress is clamped
  into [0, 100] before it sets the bar width and the rounded percentage label.
*/
module ProgressBar {
  import opened Js

  /** `Math.min(Math.max(progress, 0), 100)`. */
  function Clamp(progress: real): (c: real)
    ensures 0.0 <= c <= 100.0
    ensures progress < 0.0 ==> c == 0.0
    ensures progress > 100.0 ==> c == 100.0
    ensures 0.0 <= progress <= 100.0 ==> c == progress
  {
    var atLeastZero := if progress > 0.0 then progress else 0.0;
    if atLeastZero < 100.0 then atLeastZero else 100.0
  }

  /** Clamping a clamped value changes nothing. */
  lemma ClampIdempotent(progress: real)
    ensures Clamp(Clamp(progress)) == Clamp(progress)
  {
  }

  /** The percentage label `Math.round(clampedProgress)`: an integer from 0 to 100. */
  function PercentLabel(progress: real): (n: int)
    ensures 0 <= n <= 100
    ensures Clamp(progress) - 0.5 < n as real <= Clamp(progress) + 0.5
  {
    Round(Clamp(progress))
  }

  /** The caption `label || 'Progress'`. */
  function LabelText(caption: Option<string>): (t: string)
    ensures TruthyString(caption) ==> t == caption.value
    ensures !TruthyString(caption) ==> t == "Progress"
    ensures t != ""
  {
    StringOr(caption, "Progress")
  }
}
