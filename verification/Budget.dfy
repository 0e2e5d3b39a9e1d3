/** The budget decision: how many pods must stay healthy, and whether one may go. */
module Budget {
  import opened Int32
  import opened Sums

  datatype Option<T> = None | Some(value: T)

  datatype Result<T> = Ok(value: T) | Err

  /** An int-or-string field: a number, a percentage, or a string that is neither. */
  datatype IntOrPercent = Absolute(n: int) | Percent(p: int) | Malformed

  datatype Spec = Spec(maxUnavailable: Option<IntOrPercent>, minAvailable: Option<IntOrPercent>)

  function CeilDiv(a: int, b: int): int
    requires 0 < b
  {
    -((-a) / b)
  }

  /** The library's scaling with rounding up; the result is a machine int, not an int32. */
  function Scaled(value: IntOrPercent, total: int): Result<int> {
    match value
    case Absolute(n) => Ok(n)
    case Percent(p) => Ok(CeilDiv(p * total, 100))
    case Malformed => Err
  }

  function DesiredHealthy(spec: Spec, expected: int): Result<int> {
    if spec.maxUnavailable.Some? then
      match Scaled(spec.maxUnavailable.value, expected)
      case Err => Err
      case Ok(maxUnavailable) => Ok(Wrap(expected - Wrap(maxUnavailable)))
    else if spec.minAvailable.Some? then
      match spec.minAvailable.value
      case Absolute(n) => Ok(n)
      case _ =>
        match Scaled(spec.minAvailable.value, expected)
        case Err => Err
        case Ok(minAvailable) => Ok(Wrap(minAvailable))
    else
      Ok(0)
  }

  /** The verdict for a candidate; an unready candidate is compensated for. */
  function DisruptionAllowed(spec: Option<Spec>, candidateReady: bool, expected: int, healthy: int): Result<bool> {
    if spec.None? then Ok(true)
    else
      match DesiredHealthy(spec.value, expected)
      case Err => Err
      case Ok(desired) =>
        var compensation := if candidateReady then 0 else 1;
        Ok(Wrap(Wrap(healthy + compensation) - 1) >= desired)
  }

  /** The verdict on the int32 totals of what all clusters expect and have. */
  function Verdict(spec: Spec, candidateReady: bool, expecteds: seq<int>, healthies: seq<int>): Result<bool> {
    DisruptionAllowed(Some(spec), candidateReady, Wrap(Sum(expecteds)), Wrap(Sum(healthies)))
  }
}
