/**
 The strict mutable fork (`StrictFork`, src/strict.rs): what one operation does to
 its state.

 The Host is whatever a `HostRun` says: which keys it asked for, what it left
 stored, its outcome and the ledger afterwards. The only laws assumed of it are in
 `HostLaw`: a changed key was touched, and the ledger header stays.
 */
module StrictForks {
  import opened Wrappers
  import opened Bytes
  import opened Ordered
  import opened Ledger
  import opened Fixture
  import opened Scenarios
  import opened Diffs

  // ----- Requests, receipts, errors -----

  datatype AuthorizationTree = AuthorizationTree(address: ScAddress, invocation: Vec8)

  datatype AuthMode = Record | MockExact(expected: seq<AuthorizationTree>) | Enforce(entries: Vec8) {
    predicate Mocks() {
      Record? || MockExact?
    }
  }

  datatype AppliedAuthMode = RecordMockSatisfied | AppliedMockExact | AppliedEnforce

  datatype ExecutionMode = Preview | Apply

  datatype InvokeRequest = InvokeRequest(contract: ScAddress, function_: Vec8, args: seq<ScVal>)

  datatype InvokeOutcome = Success(value: ScVal) | Failure(error: Vec8)

  datatype Disposition = Previewed | Committed | Rejected

  datatype Receipt = Receipt(
    request: InvokeRequest, outcome: InvokeOutcome, authMode: AppliedAuthMode, authorization: seq<AuthorizationTree>,
    stateChanges: seq<StateChange>, beforeDigest: Digest, afterDigest: Digest, disposition: Disposition)

  datatype Registration = Registration(
    address: ScAddress, wasmHash: Digest, stateChanges: seq<StateChange>, beforeDigest: Digest, afterDigest: Digest)

  datatype ForkError =
    | UnknownLedgerKeys(keys: seq<KeyId>)
    | AuthTreeMismatch
    | CheckpointMismatch
    | CandidateAddressNotContract
    | CandidateAddressOccupied
    | WasmHashMismatch(expected: Digest, actual: Digest)
    | CandidateRegistrationFailed
    | InvalidInvocationXdr
    | InvalidAuthorizationEntries
    | HostInspection
    | XdrFailed
    | FixtureFailed(error: FixtureError)

  // ----- The Host -----

  /** One execution in a child environment; `installed` is the address `register_at` returned, if it did. */
  datatype HostRun = HostRun(
    valuesOk: bool, authOk: bool, gets: seq<LedgerKey>, stored: seq<LedgerKey>, inspectable: bool,
    outcome: InvokeOutcome, installed: Option<ScAddress>, authorization: seq<AuthorizationTree>,
    after: LedgerSnapshot, diagnosticsOk: bool)

  /** The child environment: the network ledger under the executed protocol (`fork_env`). */
  function ForkEnv(snapshot: LedgerSnapshot): LedgerSnapshot {
    snapshot.(info := snapshot.info.(protocolVersion := Executed(snapshot.info.protocolVersion)))
  }

  /** `network_ledger_snapshot`. */
  function NetworkSnapshot(env: LedgerSnapshot, network: u32): LedgerSnapshot {
    env.(info := env.info.(protocolVersion := Restored(env.info.protocolVersion, network)))
  }

  /** Reading a fresh environment back undoes the downgrade. */
  lemma RestoreUndoesDowngrade(snapshot: LedgerSnapshot)
    ensures NetworkSnapshot(ForkEnv(snapshot), snapshot.info.protocolVersion) == snapshot
  {
  }

  ghost predicate TouchedBy(run: HostRun, id: KeyId) {
    exists key :: (key in run.gets || key in run.stored) && KeyXdr(key) == Some(id)
  }

  ghost predicate HostLaw(before: LedgerSnapshot, run: HostRun) {
    && run.after.info == ForkEnv(before).info
    && forall id :: ValueAt(LedgerMap(before.entries), id) != ValueAt(LedgerMap(run.after.entries), id) ==>
        TouchedBy(run, id)
  }

  // ----- The source and the unknown-key gate -----

  /** `is_local_key`. */
  predicate IsLocalKey(key: LedgerKey, contracts: set<ScAddress>, codes: set<Digest>, allowMockNonces: bool) {
    match key
    case ContractData(contract, _, _) => contract in contracts || (allowMockNonces && IsNonceKey(key))
    case ContractCode(hash) => hash in codes
    case _ => false
  }

  /** What the strict source knows: coverage and the local allowlists. */
  datatype Known = Known(coverage: Coverage, contracts: set<ScAddress>, codes: set<Digest>, allowMockNonces: bool) {
    predicate IsUnknown(key: LedgerKey) {
      && KeyXdr(key).Some? && KeyXdr(key).value !in coverage
      && !IsLocalKey(key, contracts, codes, allowMockNonces)
    }
  }

  /** `StrictSource::get`: an unknown key reads as absent but is recorded. */
  function StrictGet(known: Known, key: LedgerKey): Answer {
    match KeyXdr(key)
    case None => HostError
    case Some(id) => if id in known.coverage then AnswerOf(known.coverage[id]) else Found(None)
  }

  function UnknownAmong(known: Known, keys: seq<LedgerKey>): set<KeyId> {
    set k | k in keys && known.IsUnknown(k) :: KeyXdr(k).value
  }

  /** `unknown_keys`. */
  function UnknownKeys(known: Known, run: HostRun): Result<set<KeyId>, ForkError> {
    if !run.inspectable then Err(HostInspection)
    else if exists k | k in run.stored :: KeyXdr(k).None? then Err(XdrFailed)
    else Ok(UnknownAmong(known, run.gets) + UnknownAmong(known, run.stored))
  }

  /** `StrictSource`. */
  class StrictSource {
    const known: Known
    var unknown: set<KeyId>

    constructor (known: Known)
      ensures this.known == known && unknown == {}
    {
      this.known := known;
      unknown := {};
    }

    method Read(key: LedgerKey) returns (answer: Answer)
      modifies this
      ensures answer == StrictGet(known, key)
      ensures unknown == old(unknown) + UnknownAmong(known, [key])
    {
      var id := KeyXdr(key);
      if id.None? {
        return HostError;
      }
      if id.value in known.coverage {
        return AnswerOf(known.coverage[id.value]);
      }
      if IsLocalKey(key, known.contracts, known.codes, known.allowMockNonces) {
        return Found(None);
      }
      assert known.IsUnknown(key) && key in [key];
      unknown := unknown + {id.value};
      return Found(None);
    }

    /** The reads the Host makes while it runs. */
    method Serve(keys: seq<LedgerKey>)
      modifies this
      ensures unknown == old(unknown) + UnknownAmong(known, keys)
    {
      for k := 0 to |keys|
        invariant unknown == old(unknown) + UnknownAmong(known, keys[..k])
      {
        assert forall key :: key in keys[..k + 1] <==> key in keys[..k] || key in [keys[k]];
        var _ := Read(keys[k]);
      }
      assert keys[..|keys|] == keys;
    }
  }

  /** The scan over stored entries of `unknown_keys`. */
  method ScanUnknown(source: StrictSource, run: HostRun) returns (r: Result<set<KeyId>, ForkError>)
    requires source.unknown == UnknownAmong(source.known, run.gets)
    ensures r == UnknownKeys(source.known, run)
  {
    if !run.inspectable {
      return Err(HostInspection);
    }
    var unknown := source.unknown;
    for k := 0 to |run.stored|
      invariant forall key | key in run.stored[..k] :: KeyXdr(key).Some?
      invariant unknown == source.unknown + UnknownAmong(source.known, run.stored[..k])
    {
      var key := run.stored[k];
      assert forall x :: x in run.stored[..k + 1] <==> x in run.stored[..k] || x == key;
      var id := KeyXdr(key);
      if id.None? {
        assert key in run.stored;
        return Err(XdrFailed);
      }
      if id.value !in source.known.coverage
         && !IsLocalKey(key, source.known.contracts, source.known.codes, source.known.allowMockNonces) {
        unknown := unknown + {id.value};
      }
    }
    assert run.stored[..|run.stored|] == run.stored;
    return Ok(unknown);
  }

  // ----- The fork -----

  datatype Fork = Fork(
    env: LedgerSnapshot, coverage: Coverage, contracts: set<ScAddress>, codes: set<Digest>, receipts: seq<Receipt>)

  datatype Checkpoint = Checkpoint(
    forkId: nat, snapshot: LedgerSnapshot, coverage: Coverage, contracts: set<ScAddress>, codes: set<Digest>)

  function KnownTo(fork: Fork, allowMockNonces: bool): Known {
    Known(fork.coverage, fork.contracts, fork.codes, allowMockNonces)
  }

  function Digested(snapshot: LedgerSnapshot): Result<Digest, ForkError> {
    match LedgerDigest(snapshot)
    case Ok(digest) => Ok(digest)
    case Err(e) => Err(FixtureFailed(e))
  }

  function Applied(auth: AuthMode): AppliedAuthMode {
    match auth
    case Record => RecordMockSatisfied
    case MockExact(_) => AppliedMockExact
    case Enforce(_) => AppliedEnforce
  }

  /** The ledger an invocation reports: read back under the network protocol, new mock nonces stripped. */
  function AfterLedger(before: LedgerSnapshot, run: HostRun, network: u32, auth: AuthMode): Result<LedgerSnapshot,
                       ForkError> {
    var raw := NetworkSnapshot(run.after, network);
    if auth.Mocks() then
      match StripNewNonces(before.entries, raw.entries)
      case None => Err(XdrFailed)
      case Some(entries) => Ok(raw.(entries := entries))
    else Ok(raw)
  }

  datatype Execution = Execution(receipt: Receipt, after: LedgerSnapshot)

  /** Everything `invoke` does before it decides about promotion. */
  function Execute(fork: Fork, network: u32, request: InvokeRequest, mode: ExecutionMode, auth: AuthMode, run: HostRun)
    : Result<Execution, ForkError>
  {
    var before := NetworkSnapshot(fork.env, network);
    var beforeDigest :- Digested(before);
    if !run.valuesOk then Err(InvalidInvocationXdr)
    else if auth.Enforce? && !run.authOk then Err(InvalidAuthorizationEntries)
    else
      var unknown :- UnknownKeys(KnownTo(fork, auth.Mocks()), run);
      if unknown != {} then Err(UnknownLedgerKeys(Sorted(unknown)))
      else if auth.MockExact? && auth.expected != run.authorization then Err(AuthTreeMismatch)
      else
        var after :- AfterLedger(before, run, network, auth);
        var afterDigest :- Digested(after);
        match StateDiff(before.entries, after.entries)
        case None => Err(XdrFailed)
        case Some(changes) =>
          if !run.diagnosticsOk then Err(HostInspection)
          else
            var disposition := if mode.Preview? then Previewed else if run.outcome.Success? then Committed
                else Rejected;
            Ok(Execution(
                 Receipt(request, run.outcome, Applied(auth), run.authorization, changes, beforeDigest, afterDigest,
                         disposition),
                 after))
  }

  /** `invoke`. */
  function Invoke(fork: Fork, network: u32, request: InvokeRequest, mode: ExecutionMode, auth: AuthMode, run: HostRun)
    : (Result<Receipt, ForkError>, Fork)
  {
    match Execute(fork, network, request, mode, auth, run)
    case Err(e) => (Err(e), fork)
    case Ok(done) =>
      if !done.receipt.disposition.Committed? then
        (Ok(done.receipt), fork.(receipts := fork.receipts + [done.receipt]))
      else
        var (coverage, ok) := UpdateCoverage(fork.coverage, done.receipt.stateChanges);
        if !ok then (Err(XdrFailed), fork)
        else
          (Ok(done.receipt),
           fork.(env := ForkEnv(done.after), coverage := coverage, receipts := fork.receipts + [done.receipt]))
  }

  datatype Install = Install(registration: Registration, env: LedgerSnapshot)

  /** Everything `register_candidate` does before it touches the fork. */
  function Prepare(fork: Fork, network: u32, address: ScAddress, wasm: Vec8, expected: Digest, run: HostRun)
    : Result<Install, ForkError>
  {
    if !address.ContractAddress? then Err(CandidateAddressNotContract)
    else if Sha256(wasm) != expected then Err(WasmHashMismatch(expected, Sha256(wasm)))
    else
      match KeyXdr(InstanceKey(address))
      case None => Err(XdrFailed)
      case Some(id) =>
        if id in fork.coverage && fork.coverage[id].Present? then Err(CandidateAddressOccupied)
        else
          var before := NetworkSnapshot(fork.env, network);
          var beforeDigest :- Digested(before);
          var known := Known(fork.coverage, fork.contracts + {address}, fork.codes + {Sha256(wasm)}, false);
          if !run.valuesOk then Err(InvalidInvocationXdr)
          else
            var unknown :- UnknownKeys(known, run);
            if unknown != {} then Err(UnknownLedgerKeys(Sorted(unknown)))
            else if run.installed != Some(address) then Err(CandidateRegistrationFailed)
            else
              var after := NetworkSnapshot(run.after, network);
              var afterDigest :- Digested(after);
              match StateDiff(before.entries, after.entries)
              case None => Err(XdrFailed)
              case Some(changes) =>
                Ok(Install(Registration(address, Sha256(wasm), changes, beforeDigest, afterDigest), run.after))
  }

  /** `register_candidate`; its coverage update works on the fork's own map. */
  function Register(fork: Fork, network: u32, address: ScAddress, wasm: Vec8, expected: Digest, run: HostRun)
    : (Result<Registration, ForkError>, Fork)
  {
    match Prepare(fork, network, address, wasm, expected, run)
    case Err(e) => (Err(e), fork)
    case Ok(install) =>
      var (coverage, ok) := UpdateCoverage(fork.coverage, install.registration.stateChanges);
      if !ok then (Err(XdrFailed), fork.(coverage := coverage))
      else
        (Ok(install.registration),
         fork.(env := install.env, coverage := coverage, contracts := fork.contracts + {address},
               codes := fork.codes + {Sha256(wasm)}))
  }

  function TakeCheckpoint(fork: Fork, id: nat, network: u32): Checkpoint {
    Checkpoint(id, NetworkSnapshot(fork.env, network), fork.coverage, fork.contracts, fork.codes)
  }

  /** `revert`. */
  function Revert(fork: Fork, id: nat, c: Checkpoint): (Result<(), ForkError>, Fork) {
    if c.forkId != id then (Err(CheckpointMismatch), fork)
    else (Ok(()), Fork(ForkEnv(c.snapshot), c.coverage, c.contracts, c.codes, []))
  }

  // ----- The fork as an object -----

  class StrictFork {
    const id: nat
    const network: u32
    var env: LedgerSnapshot
    var coverage: Coverage
    var localContracts: set<ScAddress>
    var localCodeHashes: set<Digest>
    var receipts: seq<Receipt>

    function State(): Fork
      reads this
    {
      Fork(env, coverage, localContracts, localCodeHashes, receipts)
    }

    /** `from_captured`. */
    constructor FromCaptured(id: nat, snapshot: LedgerSnapshot, coverage: Coverage)
      ensures this.id == id && network == snapshot.info.protocolVersion
      ensures State() == Fork(ForkEnv(snapshot), coverage, {}, {}, [])
    {
      this.id := id;
      network := snapshot.info.protocolVersion;
      env := ForkEnv(snapshot);
      this.coverage := coverage;
      localContracts := {};
      localCodeHashes := {};
      receipts := [];
    }

    method TakeACheckpoint() returns (c: Checkpoint)
      ensures c == TakeCheckpoint(State(), id, network)
    {
      return Checkpoint(id, NetworkSnapshot(env, network), coverage, localContracts, localCodeHashes);
    }

    method RevertTo(c: Checkpoint) returns (r: Result<(), ForkError>)
      modifies this
      ensures (r, State()) == Revert(old(State()), id, c)
    {
      if c.forkId != id {
        return Err(CheckpointMismatch);
      }
      env := ForkEnv(c.snapshot);
      coverage := c.coverage;
      localContracts := c.contracts;
      localCodeHashes := c.codes;
      receipts := [];
      return Ok(());
    }

    /** `update_coverage` on the fork's own map. */
    method UpdateOwnCoverage(changes: seq<StateChange>) returns (ok: bool)
      modifies this`coverage
      ensures (coverage, ok) == UpdateCoverage(old(coverage), changes)
    {
      for k := 0 to |changes|
        invariant UpdateCoverage(old(coverage), changes[..k]) == (coverage, true)
      {
        assert changes[..k + 1][..k] == changes[..k];
        var key := KeyXdr(changes[k].key);
        if key.None? {
          UpdateStops(old(coverage), changes, k);
          return false;
        }
        coverage := coverage[key.value := AsState(changes[k].after)];
      }
      assert changes[..|changes|] == changes;
      return true;
    }

    /** The child environment up to the unknown-key gate. */
    method RunChild(known: Known, run: HostRun) returns (unknown: Result<set<KeyId>, ForkError>)
      ensures unknown == UnknownKeys(known, run)
    {
      var source := new StrictSource(known);
      source.Serve(run.gets);
      unknown := ScanUnknown(source, run);
    }

    method DigestOf(snapshot: LedgerSnapshot) returns (r: Result<Digest, ForkError>)
      ensures r == Digested(snapshot)
    {
      var digest := CanonicalLedgerDigest(snapshot);
      return match digest case Ok(d) => Ok(d) case Err(e) => Err(FixtureFailed(e));
    }

    method RegisterCandidate(address: ScAddress, wasm: Vec8, expected: Digest, run: HostRun)
      returns (r: Result<Registration, ForkError>)
      modifies this
      ensures (r, State()) == Register(old(State()), network, address, wasm, expected, run)
    {
      hide UnknownKeys, StateDiff, Digested, UpdateCoverage;
      if !address.ContractAddress? {
        return Err(CandidateAddressNotContract);
      }
      var actual := Sha256(wasm);
      if actual != expected {
        return Err(WasmHashMismatch(expected, actual));
      }
      var instance := KeyXdr(InstanceKey(address));
      if instance.None? {
        return Err(XdrFailed);
      }
      if instance.value in coverage && coverage[instance.value].Present? {
        return Err(CandidateAddressOccupied);
      }
      var before := NetworkSnapshot(env, network);
      var beforeDigest :- DigestOf(before);
      var contracts := localContracts + {address};
      var codes := localCodeHashes + {actual};
      if !run.valuesOk {
        return Err(InvalidInvocationXdr);
      }
      var unknown :- RunChild(Known(coverage, contracts, codes, false), run);
      if unknown != {} {
        return Err(UnknownLedgerKeys(Sorted(unknown)));
      }
      if run.installed != Some(address) {
        return Err(CandidateRegistrationFailed);
      }
      var after := NetworkSnapshot(run.after, network);
      var afterDigest :- DigestOf(after);
      var changes := ComputeStateDiff(before.entries, after.entries);
      if changes.None? {
        return Err(XdrFailed);
      }
      var updated := UpdateOwnCoverage(changes.value);
      if !updated {
        return Err(XdrFailed);
      }
      localContracts := contracts;
      localCodeHashes := codes;
      env := run.after;
      return Ok(Registration(address, actual, changes.value, beforeDigest, afterDigest));
    }

    /** `invoke` up to the receipt; nothing of the fork changes. */
    method ExecuteChild(request: InvokeRequest, mode: ExecutionMode, auth: AuthMode, run: HostRun)
      returns (r: Result<Execution, ForkError>)
      ensures r == Execute(State(), network, request, mode, auth, run)
    {
      hide UnknownKeys, StateDiff, Digested, StripNewNonces;
      var before := NetworkSnapshot(env, network);
      var beforeDigest :- DigestOf(before);
      var allowMockNonces := auth.Mocks();
      if !run.valuesOk {
        return Err(InvalidInvocationXdr);
      }
      if auth.Enforce? && !run.authOk {
        return Err(InvalidAuthorizationEntries);
      }
      var unknown :- RunChild(Known(coverage, localContracts, localCodeHashes, allowMockNonces), run);
      if unknown != {} {
        return Err(UnknownLedgerKeys(Sorted(unknown)));
      }
      if auth.MockExact? && auth.expected != run.authorization {
        return Err(AuthTreeMismatch);
      }
      var after := NetworkSnapshot(run.after, network);
      if allowMockNonces {
        var stripped := ComputeStrip(before.entries, after.entries);
        if stripped.None? {
          return Err(XdrFailed);
        }
        after := after.(entries := stripped.value);
      }
      var afterDigest :- DigestOf(after);
      var changes := ComputeStateDiff(before.entries, after.entries);
      if changes.None? {
        return Err(XdrFailed);
      }
      if !run.diagnosticsOk {
        return Err(HostInspection);
      }
      var disposition := if mode.Preview? then Previewed else if run.outcome.Success? then Committed else Rejected;
      return Ok(Execution(
                  Receipt(request, run.outcome, Applied(auth), run.authorization, changes.value, beforeDigest,
                      afterDigest,
                          disposition),
                  after));
    }

    method InvokeContract(request: InvokeRequest, mode: ExecutionMode, auth: AuthMode, run: HostRun)
      returns (r: Result<Receipt, ForkError>)
      modifies this
      ensures (r, State()) == Invoke(old(State()), network, request, mode, auth, run)
    {
      hide Execute, UpdateCoverage;
      var done :- ExecuteChild(request, mode, auth, run);
      var receipt := done.receipt;
      if receipt.disposition.Committed? {
        var (next, ok) := UpdateCoverage(coverage, receipt.stateChanges);
        if !ok {
          return Err(XdrFailed);
        }
        coverage := next;
        env := ForkEnv(done.after);
      }
      receipts := receipts + [receipt];
      return Ok(receipt);
    }
  }

  lemma {:induction false} UpdateStops(coverage: Coverage, changes: seq<StateChange>, k: nat)
    requires k < |changes| && UpdateCoverage(coverage, changes[..k]).1 && KeyXdr(changes[k].key).None?
    ensures UpdateCoverage(coverage, changes) == (UpdateCoverage(coverage, changes[..k]).0, false)
    decreases |changes|
  {
    var n := |changes| - 1;
    if k < n {
      assert changes[..n][..k] == changes[..k];
      UpdateStops(coverage, changes[..n], k);
    }
  }
}
