/** The decisions of the threshold and geofence evaluators, apart from the
    store: which alert kind a reading yields, or that it is back in range. */
module Evaluate {
  import opened Types

  /** The two telemetry streams the threshold evaluator accepts. */
  datatype Metric = Bpm | Temperature

  /** The `type` argument, which also ends up in the alert title. */
  function MetricName(metric: Metric): string
  {
    match metric
    case Bpm => "bpm"
    case Temperature => "temperature"
  }

  function HighKind(metric: Metric): AlertKind
  {
    if metric == Bpm then HrHigh else TempHigh
  }

  function LowKind(metric: Metric): AlertKind
  {
    if metric == Bpm then HrLow else TempLow
  }

  /** Whether the metric's alert toggle is on. */
  predicate Enabled(s: Settings, metric: Metric)
  {
    if metric == Bpm then s.heartRateAlert else s.tempAlert
  }

  /** The configured bounds of the metric. */
  function MinOf(s: Settings, metric: Metric): real
  {
    if metric == Bpm then s.minHeartRate else s.minTemp
  }

  function MaxOf(s: Settings, metric: Metric): real
  {
    if metric == Bpm then s.maxHeartRate else s.maxTemp
  }

  /** What one reading calls for: nothing (no settings, or the toggle is off),
      clearing both cooldowns of the metric, or an alert of one kind. */
  datatype Verdict = Ignore | InRange | Violation(kind: AlertKind, message: Message)

  /** The classification `checkThreshold` makes: `value > max` first, then
      `value < min`, both strict. */
  function Classify(settings: Option<Settings>, metric: Metric, value: real): (v: Verdict)
    ensures v.Ignore? <==> settings.None? || !Enabled(settings.value, metric)
    ensures v.Violation? && v.kind == HighKind(metric) <==>
              settings.Some? && Enabled(settings.value, metric) && value > MaxOf(settings.value, metric)
    ensures v.Violation? && v.kind == LowKind(metric) <==>
              settings.Some? && Enabled(settings.value, metric) &&
              !(value > MaxOf(settings.value, metric)) && value < MinOf(settings.value, metric)
    ensures v.InRange? <==>
              settings.Some? && Enabled(settings.value, metric) &&
              MinOf(settings.value, metric) <= value <= MaxOf(settings.value, metric)
    ensures v.Violation? ==> v.kind in {HighKind(metric), LowKind(metric)}
  {
    match settings
    case None => Ignore
    case Some(s) =>
      if !Enabled(s, metric) then Ignore
      else if metric == Bpm then
        if value > s.maxHeartRate then Violation(HrHigh, HeartRateTooHigh(value, s.maxHeartRate))
        else if value < s.minHeartRate then Violation(HrLow, HeartRateTooLow(value, s.minHeartRate))
        else InRange
      else
        if value > s.maxTemp then Violation(TempHigh, TemperatureTooHigh(value, s.maxTemp))
        else if value < s.minTemp then Violation(TempLow, TemperatureTooLow(value, s.minTemp))
        else InRange
  }

  /** The alert message names the reading and the bound it crossed. */
  lemma ViolationMessage(s: Settings, metric: Metric, value: real)
    requires Classify(Some(s), metric, value).Violation?
    ensures var v := Classify(Some(s), metric, value);
            match v.message
            case HeartRateTooHigh(b, bound) => metric == Bpm && b == value && bound == s.maxHeartRate && value > bound
            case HeartRateTooLow(b, bound) => metric == Bpm && b == value && bound == s.minHeartRate && value < bound
            case TemperatureTooHigh(c, bound) => metric == Temperature && c == value && bound == s.maxTemp && value > bound
            case TemperatureTooLow(c, bound) => metric == Temperature && c == value && bound == s.minTemp && value < bound
            case _ => false
  {
  }

  /** A reading equal to either bound is in range; one above the maximum is high. */
  lemma BoundsAreInRange(s: Settings, metric: Metric)
    requires Enabled(s, metric) && MinOf(s, metric) <= MaxOf(s, metric)
    ensures Classify(Some(s), metric, MaxOf(s, metric)) == InRange
    ensures Classify(Some(s), metric, MinOf(s, metric)) == InRange
    ensures Classify(Some(s), metric, MaxOf(s, metric) + 1.0).Violation?
    ensures Classify(Some(s), metric, MaxOf(s, metric) + 1.0).kind == HighKind(metric)
  {
  }

  /** The geofence test: strictly farther than the radius is outside. */
  predicate Outside(distance: real, fence: Fence)
  {
    distance > fence.radius
  }

  /** `Math.round`: the nearest integer, halves rounded up. */
  function Round(x: real): (n: int)
    ensures n as real - 0.5 <= x < n as real + 0.5
  {
    (x + 0.5).Floor
  }
}
