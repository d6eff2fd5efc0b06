/** Preflight capacity arithmetic. */
module Capacity {
  import opened Wrappers

  datatype ArgumentError =
    | NegativeCapacity | PercentOutOfRange | NegativeMinimum
    | NegativeLargest | NegativeMetadata | NegativeFloor
    | NegativeAvailable | NegativeNewBytes

  datatype Policy = Policy(percent: int, minBytes: int, metadataBytes: int, floorBytes: int)

  const DefaultPolicy := Policy(5, 10_000_000_000, 0, 512 * 1024 * 1024)

  datatype CapacityAssessment = CapacityAssessment(
    available: int,
    newBytes: int,
    reserve: int,
    margin: int,
    required: int,
    shortfall: int,
    availableAfter: int,
    sufficient: bool)

  function Max(a: int, b: int): int {
    if a < b then b else a
  }

  /** The greater of `percent` of the capacity and the minimum. */
  function SafetyMargin(capacity: int, percent: int, minBytes: int): Result<int, ArgumentError> {
    if capacity < 0 then Failure(NegativeCapacity)
    else if !(0 <= percent <= 100) then Failure(PercentOutOfRange)
    else if minBytes < 0 then Failure(NegativeMinimum)
    else Success(Max(capacity * percent / 100, minBytes))
  }

  /** Room for the file in flight, or the floor, and for metadata. */
  function OperationalReserve(largest: int, metadataBytes: int, floorBytes: int): Result<int, ArgumentError> {
    if largest < 0 then Failure(NegativeLargest)
    else if metadataBytes < 0 then Failure(NegativeMetadata)
    else if floorBytes < 0 then Failure(NegativeFloor)
    else Success(Max(largest, floorBytes) + metadataBytes)
  }

  function AssessCapacity(capacity: int, available: int, newBytes: int, largest: int, policy: Policy)
    : Result<CapacityAssessment, ArgumentError>
  {
    if available < 0 then Failure(NegativeAvailable)
    else if newBytes < 0 then Failure(NegativeNewBytes)
    else
      var margin := SafetyMargin(capacity, policy.percent, policy.minBytes);
      var reserve := OperationalReserve(largest, policy.metadataBytes, policy.floorBytes);
      if margin.Failure? then Failure(margin.error)
      else if reserve.Failure? then Failure(reserve.error)
      else
        var required := newBytes + reserve.value + margin.value;
        var sufficient := available >= required;
        Success(CapacityAssessment(
                  available, newBytes, reserve.value, margin.value, required,
                  if sufficient then 0 else required - available,
                  available - newBytes, sufficient))
  }

  predicate ValidPolicy(p: Policy) {
    0 <= p.percent <= 100 && p.minBytes >= 0 && p.metadataBytes >= 0 && p.floorBytes >= 0
  }

  /** An assessment is refused exactly when a quantity is negative or the percentage is not one. */
  lemma AssessmentIff(capacity: int, available: int, newBytes: int, largest: int, policy: Policy)
    ensures AssessCapacity(capacity, available, newBytes, largest, policy).Success?
            <==> capacity >= 0 && available >= 0 && newBytes >= 0 && largest >= 0 && ValidPolicy(policy)
  {
  }

  /** The argument that is blamed is one that is out of range. */
  lemma ErrorTells(capacity: int, available: int, newBytes: int, largest: int, policy: Policy)
    requires AssessCapacity(capacity, available, newBytes, largest, policy).Failure?
    ensures match AssessCapacity(capacity, available, newBytes, largest, policy).error
            case NegativeAvailable => available < 0
            case NegativeNewBytes => newBytes < 0
            case NegativeCapacity => capacity < 0
            case PercentOutOfRange => policy.percent < 0 || policy.percent > 100
            case NegativeMinimum => policy.minBytes < 0
            case NegativeLargest => largest < 0
            case NegativeMetadata => policy.metadataBytes < 0
            case NegativeFloor => policy.floorBytes < 0
  {
  }

  /** By default a terabyte keeps a twentieth free, a hundred gigabytes keep ten, and half a gibibyte is the least reserve. */
  lemma DefaultsTell()
    ensures SafetyMargin(1_000_000_000_000, DefaultPolicy.percent, DefaultPolicy.minBytes) == Success(50_000_000_000)
    ensures SafetyMargin(100_000_000_000, DefaultPolicy.percent, DefaultPolicy.minBytes) == Success(10_000_000_000)
    ensures OperationalReserve(0, DefaultPolicy.metadataBytes, DefaultPolicy.floorBytes) == Success(536_870_912)
  {
  }

  /**
   An assessment is sufficient exactly when, after writing all the new bytes, the reserve and the
   margin are still free; the reserve is the least that holds the largest file in flight and the
   floor, and the margin the least that respects the percentage, rounded down, and the minimum.
   */
  lemma SufficientLeavesReserveAndMargin(
      capacity: int, available: int, newBytes: int, largest: int, policy: Policy, a: CapacityAssessment)
    requires AssessCapacity(capacity, available, newBytes, largest, policy) == Success(a)
    ensures a.sufficient <==> available - newBytes >= a.reserve + a.margin
    ensures a.sufficient <==> a.shortfall == 0
    ensures !a.sufficient ==> available + a.shortfall - newBytes == a.reserve + a.margin
    ensures a.required - newBytes == a.reserve + a.margin && a.availableAfter + newBytes == available
    ensures a.reserve >= largest + policy.metadataBytes && a.reserve >= policy.floorBytes + policy.metadataBytes
    ensures a.reserve == largest + policy.metadataBytes || a.reserve == policy.floorBytes + policy.metadataBytes
    ensures 100 * a.margin > capacity * policy.percent - 100 && a.margin >= policy.minBytes
    ensures 100 * a.margin <= capacity * policy.percent || a.margin == policy.minBytes
  {
  }
}
