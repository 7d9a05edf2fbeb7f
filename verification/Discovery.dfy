/**
 Execution-driven capture: rounds of running the scenario and fetching what it
 touched, until nothing new appears; and the strict replay of the result
 (`capture_ref_from_keys`, `replay_with_local`, src/capture.rs).
 */
module Discovery {
  import opened Wrappers
  import opened Ledger
  import opened Fixture
  import opened Errors
  import opened CoverageChecks
  import opened Digests
  import opened Bundles
  import opened Providers
  import opened Materialization
  import opened Closure
  import opened Scenarios

  // ----- One round -----

  /** The archival config key is never counted as a discovery. */
  function NetworkKeys(requested: Keys): Keys {
    map id | id in requested && requested[id] != STATE_ARCHIVAL_KEY :: requested[id]
  }

  /** Everything a finished pass touched that is not local. */
  function Touched(pass: Pass): Keys
    requires Encodes(pass.stored, pass.source.local)
  {
    pass.source.requested + StoredKeys(pass.stored, pass.source.local)
  }

  datatype Verdict = Stop(error: CaptureError) | More(keys: Keys) | Fixed

  /** What the loop decides once the scenario has ended with `end`. */
  function Judge(keys: Keys, pass: Pass, end: Action): (v: Verdict)
    requires end.End?
    ensures v.Stop? ==> !v.error.IsLimit()
  {
    if pass.source.failure.Some? then Stop(Transport(pass.source.failure.value))
    else if !end.inspectable then Stop(HostInspection)
    else if !Encodes(pass.stored, pass.source.local) then Stop(Xdr)
    else
      var wider := keys + NetworkKeys(Touched(pass));
      if wider.Keys != keys.Keys then More(wider)
      else if end.panicked then Stop(ScenarioPanicked)
      else if pass.source.rpcReads != 0 then Stop(InternalInvariant)
      else Fixed
  }

  function RunPass(p: Provider, n: nat, program: Program, m: Materialized): Pass {
    Run(Some(p), program(InputOf(m.info, m.coverage)), NewPass(m.coverage, n))
  }

  function EndOf(program: Program, m: Materialized, pass: Pass): Action {
    program(InputOf(m.info, m.coverage)).next(pass.history)
  }

  /** The fixture made of a settled materialization. */
  function Seal(config: Settings, m: Materialized, round: nat): (r: Result<CapturedFixture, CaptureError>)
    ensures r.Err? ==> !r.error.IsLimit()
  {
    var snapshot :- SnapshotOf(m.info, m.coverage);
    match FromSnapshot(snapshot, config.passphrase, config.policy)
    case Err(e) => Err(FixtureFailure(e))
    case Ok(fixture) =>
      var digest :- InventoryDigest(m.coverage);
      PresentAndAbsent(m.coverage);
      var present := |PresentIds(m.coverage)|;
      Ok(CapturedFixture(
           fixture, m.coverage,
           CaptureReport(round, present, |m.coverage| - present, digest, 0),
           Provenance(config.rpcOrigin, config.passphrase, m.anchor.sequence, m.anchor.hash, m.anchor.protocolVersion)))
  }

  /** A capture together with the last pass it is based on. */
  datatype Settled = Settled(fixture: CapturedFixture, keys: Keys, m: Materialized, pass: Pass, round: nat)

  /** Fetch the keys, then close over executables. */
  function Refetch(config: Settings, p: Provider, n: nat, keys: Keys)
    : (r: (Result<(Keys, Materialized), CaptureError>, nat))
    ensures r.0.Err? ==> r.0.error.IsOrdinary() || r.0.error.IncoherentLedger? || r.0.error.ExecutableClosureLimit?
  {
    var (m, k) := Materialize(config, p, n, keys);
    match m
    case Err(e) => (Err(e), k)
    case Ok(value) => Expand(config, p, k, keys, value, 0)
  }

  function Rounds(config: Settings, p: Provider, n: nat, program: Program, keys: Keys, m: Materialized, round: nat)
    : (Result<Settled, CaptureError>, nat)
    decreases config.maxDiscoveryRounds + 1 - round
  {
    if round > config.maxDiscoveryRounds then (Err(FixedPointLimit(config.maxDiscoveryRounds)), n)
    else
      var pass := RunPass(p, n, program, m);
      match Judge(keys, pass, EndOf(program, m, pass))
      case Stop(e) => (Err(e), pass.n)
      case More(wider) =>
        var (next, k) := Refetch(config, p, pass.n, wider);
        (match next
         case Err(e) => (Err(e), k)
         case Ok((closed, value)) => Rounds(config, p, k, program, closed, value, round + 1))
      case Fixed =>
        match Seal(config, m, round)
        case Err(e) => (Err(e), pass.n)
        case Ok(fixture) => (Ok(Settled(fixture, keys, m, pass, round)), pass.n)
  }

  /** `validate_network`. */
  function ValidateNetwork(config: Settings, p: Provider, n: nat): Result<(), CaptureError> {
    match p.network(n)
    case Err(operation) => Err(Transport(operation))
    case Ok(network) =>
      if network.passphrase != config.passphrase then Err(CaptureError.NetworkMismatch)
      else if !config.policy.Accepts(network.protocolVersion) then Err(Unsupported(network.protocolVersion))
      else Ok(())
  }

  /** `capture_ref_from_keys`, with its last pass. */
  function CaptureFrom(config: Settings, p: Provider, n: nat, program: Program, seed: Keys)
    : (Result<Settled, CaptureError>, nat)
  {
    match ValidateNetwork(config, p, n)
    case Err(e) => (Err(e), n + 1)
    case Ok(_) =>
      var (start, k) := Refetch(config, p, n + 1, seed);
      match start
      case Err(e) => (Err(e), k)
      case Ok((keys, m)) => Rounds(config, p, k, program, keys, m, 1)
  }

  // ----- Strict replay -----

  function ReplayPass(f: CapturedFixture, program: Program): Pass {
    Run(None, program(InputOf(f.fixture.snapshot.info, f.coverage)), NewPass(f.coverage, 0))
  }

  /** Unknown keys of a replay: reads outside the coverage, and stored entries outside it. */
  function ReplayUnknown(f: CapturedFixture, pass: Pass): set<KeyId>
    requires Encodes(pass.stored, pass.source.local)
  {
    pass.source.unknown + (StoredKeys(pass.stored, pass.source.local).Keys - f.coverage.Keys)
  }

  /** `replay_with_local`. */
  function Replay(f: CapturedFixture, program: Program): Result<(), CaptureError> {
    var pass := ReplayPass(f, program);
    var end := program(InputOf(f.fixture.snapshot.info, f.coverage)).next(pass.history);
    if !end.inspectable then Err(HostInspection)
    else if !Encodes(pass.stored, pass.source.local) then Err(Xdr)
    else
      var unknown := ReplayUnknown(f, pass);
      if unknown != {} then Err(UnknownLedgerKeys(|unknown|))
      else if end.panicked then Err(ScenarioPanicked)
      else Ok(())
  }

  // ----- Cached inventories and anchors -----

  function CheckInventoryId(id: KeyId): Result<(), CaptureError> {
    match KeyFromXdr(id)
    case None => Err(MalformedCaptureBundle)
    case Some(key) =>
      if KeyXdr(key).None? then Err(Xdr)
      else if KeyXdr(key).value != id || key == STATE_ARCHIVAL_KEY then Err(MalformedCaptureBundle)
      else Ok(())
  }

  /** `inventory_keys`. */
  function InventoryKeys(coverage: Coverage): Result<Keys, CaptureError> {
    var _ :- CheckCoverage(coverage, (id: KeyId, state: LookupState) => CheckInventoryId(id));
    Ok(map id | id in coverage :: KeyFromXdr(id).value)
  }

  function AnchorOf(f: CapturedFixture): Anchor {
    var info := f.fixture.snapshot.info;
    Anchor(info.sequenceNumber, f.provenance.ledgerHash, info.protocolVersion, info.timestamp, info.baseReserve)
  }

  /** `cached_anchor_is_current`: two calls, no ledger entries. */
  function AnchorIsCurrent(config: Settings, p: Provider, n: nat, f: CapturedFixture): (Result<bool, CaptureError>,
                           nat) {
    match ValidateNetwork(config, p, n)
    case Err(e) => (Err(e), n + 1)
    case Ok(_) =>
      match p.latest(n + 1)
      case Err(operation) => (Err(Transport(operation)), n + 2)
      case Ok(anchor) =>
        if !config.policy.Accepts(anchor.protocolVersion) then (Err(Unsupported(anchor.protocolVersion)), n + 2)
        else (Ok(anchor == AnchorOf(f)), n + 2)
  }

  // ----- What every round starts from -----

  predicate NoConfig(keys: Keys) {
    forall id | id in keys :: !IsConfigId(id)
  }

  /** Keys and a closed materialization of exactly those keys. */
  ghost predicate Ready(config: Settings, p: Provider, keys: Keys, m: Materialized) {
    && WellKeyed(keys) && NoConfig(keys)
    && Grounded(m, config, keys, p)
    && EnsureClosure(m.coverage).Ok?
  }

  lemma RefetchIsReady(config: Settings, p: Provider, n: nat, keys: Keys)
    requires WellKeyed(keys) && NoConfig(keys)
    requires Refetch(config, p, n, keys).0.Ok?
    ensures var (closed, m) := Refetch(config, p, n, keys).0.value;
      Ready(config, p, closed, m) && Widens(keys, closed)
  {
    hide Expand, Grounded, EnsureClosure, ClosedOver, Materialize;
    var (m, k) := Materialize(config, p, n, keys);
    MaterializeIsGrounded(config, p, n, keys);
    ExpandCloses(config, p, k, keys, m.value, 0);
    WidensNoConfig(keys, Expand(config, p, k, keys, m.value, 0).0.value.0);
  }

  lemma ReadyIsCoherent(config: Settings, p: Provider, keys: Keys, m: Materialized, chain: Chain)
    requires Ready(config, p, keys, m) && Honest(p, chain)
    ensures Coherent(m, config, keys, chain)
  {
    hide Coherent, Honest, EnsureClosure, Fits;
  }

  lemma WidensNoConfig(keys: Keys, wider: Keys)
    requires NoConfig(keys) && Widens(keys, wider)
    ensures NoConfig(wider)
  {
    forall id | id in wider ensures !IsConfigId(id) {
      if id !in keys {
        ClosureKeyNotConfig(wider[id]);
      }
    }
  }

  lemma ReadyCoverage(config: Settings, p: Provider, keys: Keys, m: Materialized)
    requires Ready(config, p, keys, m)
    ensures m.coverage.Keys == keys.Keys
  {
    assert forall id :: id in m.coverage <==> id in keys;
  }

  lemma TouchedWellKeyed(pass: Pass)
    requires WellKeyed(pass.source.requested) && Encodes(pass.stored, pass.source.local)
    ensures WellKeyed(Touched(pass)) && WellKeyed(NetworkKeys(Touched(pass))) && NoConfig(NetworkKeys(Touched(pass)))
  {
    var touched := Touched(pass);
    forall id | id in NetworkKeys(touched) ensures !IsConfigId(id) {
      if IsConfigId(id) { KeyXdrInjective(touched[id], STATE_ARCHIVAL_KEY); }
    }
  }

  lemma PassWellKeyed(p: Provider, n: nat, program: Program, m: Materialized)
    ensures WellKeyed(RunPass(p, n, program, m).source.requested)
  {
    PassIsTracked(p, program(InputOf(m.info, m.coverage)), NewPass(m.coverage, n), m.coverage);
  }

  /** Keys only ever grow. */
  predicate Grows(keys: Keys, wider: Keys) {
    forall id | id in keys :: id in wider
  }

  lemma NextKeys(p: Provider, n: nat, program: Program, keys: Keys, m: Materialized)
    requires WellKeyed(keys) && NoConfig(keys)
    requires var pass := RunPass(p, n, program, m); Judge(keys, pass, EndOf(program, m, pass)).More?
    ensures var pass := RunPass(p, n, program, m);
      var wider := Judge(keys, pass, EndOf(program, m, pass)).keys;
      WellKeyed(wider) && NoConfig(wider) && Grows(keys, wider)
  {
    hide RunPass;
    PassWellKeyed(p, n, program, m);
    TouchedWellKeyed(RunPass(p, n, program, m));
  }

  /** A settled capture rests on a ready materialization that the last pass did not leave. */
  ghost predicate RestsOn(config: Settings, p: Provider, program: Program, s: Settled) {
    && Ready(config, p, s.keys, s.m)
    && (exists n :: s.pass == RunPass(p, n, program, s.m))
    && Judge(s.keys, s.pass, EndOf(program, s.m, s.pass)) == Fixed
    && Seal(config, s.m, s.round) == Ok(s.fixture)
    && 1 <= s.round <= config.maxDiscoveryRounds
  }

  lemma PassEnds(p: Provider, n: nat, program: Program, m: Materialized)
    ensures EndOf(program, m, RunPass(p, n, program, m)).End?
  {
  }

  lemma {:induction false} RoundsRestOn(config: Settings, p: Provider, n: nat, program: Program, keys: Keys,
                                        m: Materialized, round: nat)
    requires Ready(config, p, keys, m) && 1 <= round
    requires Rounds(config, p, n, program, keys, m, round).0.Ok?
    ensures var s := Rounds(config, p, n, program, keys, m, round).0.value;
      RestsOn(config, p, program, s) && Grows(keys, s.keys)
    decreases config.maxDiscoveryRounds + 1 - round
  {
    PassEnds(p, n, program, m);
    hide Ready, Judge, Seal, Refetch, RunPass, WellKeyed, NoConfig, Widens;
    var pass := RunPass(p, n, program, m);
    if Judge(keys, pass, EndOf(program, m, pass)).More? {
      ReadyKeys(config, p, keys, m);
      NextKeys(p, n, program, keys, m);
      var wider := Judge(keys, pass, EndOf(program, m, pass)).keys;
      RefetchIsReady(config, p, pass.n, wider);
      var (next, k) := Refetch(config, p, pass.n, wider);
      WidensGrows(wider, next.value.0);
      RoundsRestOn(config, p, k, program, next.value.0, next.value.1, round + 1);
    }
  }

  lemma ReadyKeys(config: Settings, p: Provider, keys: Keys, m: Materialized)
    requires Ready(config, p, keys, m)
    ensures WellKeyed(keys) && NoConfig(keys)
  {
  }

  lemma WidensGrows(keys: Keys, wider: Keys)
    requires Widens(keys, wider)
    ensures Grows(keys, wider)
  {
  }

  /** The same for a whole capture; in particular it keeps every seed key. */
  lemma CaptureRestsOn(config: Settings, p: Provider, n: nat, program: Program, seed: Keys)
    requires WellKeyed(seed) && NoConfig(seed)
    ensures CaptureFrom(config, p, n, program, seed).0.Ok? ==>
      var s := CaptureFrom(config, p, n, program, seed).0.value;
      RestsOn(config, p, program, s) && Grows(seed, s.keys)
  {
    hide Ready, Rounds, Refetch, WellKeyed, NoConfig, Widens, RestsOn;
    if CaptureFrom(config, p, n, program, seed).0.Ok? {
      RefetchIsReady(config, p, n + 1, seed);
      var (start, k) := Refetch(config, p, n + 1, seed);
      WidensGrows(seed, start.value.0);
      RoundsRestOn(config, p, k, program, start.value.0, start.value.1, 1);
    }
  }
}
