/** Stream fault plans (plan.rs). Durations are in nanoseconds. */
module StreamPlan {
  import opened Common

  datatype FaultKind =
    | Latency(delay: nat, jitter: nat, maxBufferBytes: pos)
    | Bandwidth(bytesPerSecond: pos, burstBytes: pos)
    | Blackhole(closeAfter: Option<nat>)
    | LimitData(bytes: pos)
    | SlowClose(closeDelay: nat)
    | Slice(averageSize: pos, variation: nat, sliceDelay: nat)
    | Disconnect(after: nat, hardReset: bool)
    | StreamLoss(lossRate: real, correlation: real)

  datatype FaultSpec = FaultSpec(id: string, probability: real, kind: FaultKind)

  const MAX_FAULTS := 256
  const MAX_DURATION: nat := 86_400 * 1_000_000_000

  predicate ValidKind(kind: FaultKind) {
    match kind
    case Latency(delay, jitter, _) => delay <= MAX_DURATION && jitter <= MAX_DURATION
    case Blackhole(closeAfter) => closeAfter.Some? ==> closeAfter.value <= MAX_DURATION
    case SlowClose(delay) => delay <= MAX_DURATION
    case Slice(average, variation, delay) => delay <= MAX_DURATION && variation < average
    case Disconnect(after, _) => after <= MAX_DURATION
    case StreamLoss(rate, correlation) => 0.0 <= rate <= 1.0 && 0.0 <= correlation <= 1.0
    case _ => true
  }

  predicate ValidPlan(faults: seq<FaultSpec>) {
    && |faults| <= MAX_FAULTS
    && (forall i :: 0 <= i < |faults| ==> 0.0 <= faults[i].probability <= 1.0 && ValidKind(faults[i].kind))
    && (forall i, j :: 0 <= i < j < |faults| ==> faults[i].id != faults[j].id)
  }
}
