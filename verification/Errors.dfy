/** `CaptureError` (src/capture.rs), and the read operations it names. */
module Errors {
  import opened Bytes
  import Fixture

  datatype Operation = GetNetwork | GetLatestLedger | GetLedgerEntries | LedgerKeyEncode

  datatype CaptureError =
    | InvalidRpcUrl
    | NetworkMismatch
    | UnsupportedProtocol(found: u32, supported: u32)
    | Transport(operation: Operation)
    | MalformedRpc(operation: Operation)
    | IncoherentLedger(attempts: nat)
    | MissingStateArchival
    | MissingExecutableReference
    | MalformedExecutableReference
    | MissingReferencedCode
    | ExecutableClosureLimit(rounds: nat)
    | ScenarioPanicked
    | FixedPointLimit(rounds: nat)
    | UnknownLedgerKeys(count: nat)
    | CaptureBundleIo
    | UnsupportedCaptureBundleSchema(foundSchema: u32, supported: u32)
    | MalformedCaptureBundle
    | CaptureBundleIntegrity
    | HostInspection
    | InternalInvariant
    | FixtureFailure(fixture: Fixture.FixtureError)
    | Xdr
  {
    /** Giving up after a bounded number of tries. */
    predicate IsLimit() {
      IncoherentLedger? || ExecutableClosureLimit? || FixedPointLimit?
    }

    /** About the data or the transport: no limit, no broken invariant, not the scenario's own end. */
    predicate IsOrdinary() {
      !IsLimit() && !InternalInvariant? && !ScenarioPanicked?
    }
  }
}
