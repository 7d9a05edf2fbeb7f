/** The cache protocol of the automatic runner (src/auto.rs). */
module Runner {
  import opened Wrappers
  import opened Bytes
  import opened Ledger
  import opened Fixture
  import opened Errors
  import opened CoverageChecks
  import opened Origin
  import opened Bundles
  import opened OldBundles
  import opened Providers
  import opened Materialization
  import opened Scenarios
  import opened Discovery
  import opened CaptureLaws
  import opened Capture

  /**
   The cache path: nothing there, something that cannot be read or parsed, a bundle, or a
   bundle of the old schema.
   */
  datatype FileContent =
    | Missing
    | Unreadable
    | Malformed
    | Stored(bundle: CaptureBundle)
    | StoredOld(legacy: OldBundle)

  /** What the file system makes of a write: fail before the rename, after it, or not at all. */
  datatype WriteOutcome = Written | FailedBeforeRename | FailedAfterRename

  datatype CacheStatus = Disabled | Created | Refreshed | Hit

  datatype AutoRun = AutoRun(fixture: CapturedFixture, cacheStatus: CacheStatus)

  datatype AutoRunError = CaptureFailure(error: CaptureError) | OfflineCacheMissing

  datatype RunnerConfig = RunnerConfig(settings: Settings, cached: bool, refresh: bool)

  /** `from_file_with_policy`. */
  function FromFile(file: FileContent, settings: Settings): Result<CapturedFixture, CaptureError> {
    match file
    case Missing => Err(CaptureBundleIo)
    case Unreadable => Err(CaptureBundleIo)
    case Malformed => Err(MalformedCaptureBundle)
    case Stored(bundle) => FromBundle(bundle, settings.passphrase, settings.policy)
    case StoredOld(legacy) => FromOldBundle(legacy, settings.passphrase, settings.policy)
  }

  /** `write_file`: the new content of the path, and whether an error is reported. */
  function WriteFile(file: FileContent, f: CapturedFixture, io: WriteOutcome): (Result<(), CaptureError>, FileContent) {
    match ToBundle(f)
    case Err(e) => (Err(e), file)
    case Ok(bundle) =>
      match io
      case Written => (Ok(()), Stored(bundle))
      case FailedBeforeRename => (Err(CaptureBundleIo), file)
      case FailedAfterRename => (Err(CaptureBundleIo), Stored(bundle))
  }

  /** Where an online run stands before it captures anything. */
  datatype Probe = HitNow(fixture: CapturedFixture) | Seed(keys: Keys) | Abort(error: CaptureError)

  predicate UsesCache(c: RunnerConfig, file: FileContent) {
    c.cached && !c.refresh && file != Missing
  }

  /** Loading the cache, probing its anchor, and replaying it if the anchor is current. */
  function ProbeCache(c: RunnerConfig, p: Provider, n: nat, program: Program, file: FileContent): (Probe, nat) {
    if !UsesCache(c, file) then (Seed(map[]), n)
    else
      match FromFile(file, c.settings)
      case Err(e) => (Abort(e), n)
      case Ok(fixture) =>
        var (current, k) := AnchorIsCurrent(c.settings, p, n, fixture);
        if current.Err? then (Abort(current.error), k)
        else
          var replayed := if current.value then Replay(fixture, program) else Err(UnknownLedgerKeys(0));
          if replayed.Ok? then (HitNow(fixture), k)
          else if !replayed.error.UnknownLedgerKeys? then (Abort(replayed.error), k)
          else
            match InventoryKeys(fixture.coverage)
            case Err(e) => (Abort(e), k)
            case Ok(keys) => (Seed(keys), k)
  }

  datatype Outcome = Outcome(result: Result<AutoRun, AutoRunError>, n: nat, file: FileContent) {
    predicate IsHit() {
      result.Ok? && result.value.cacheStatus == Hit
    }

    /** The run succeeded with a new capture. */
    predicate IsNew() {
      result.Ok? && result.value.cacheStatus != Hit
    }

    /** The run succeeded with a fixture whose entry counts fit a machine word. */
    predicate IsRepresentable() {
      result.Ok? && |result.value.fixture.coverage| < U64_LIMIT
    }
  }

  function Fail(e: CaptureError, n: nat, file: FileContent): Outcome {
    Outcome(Err(CaptureFailure(e)), n, file)
  }

  /** Replaying a new capture strictly and only then replacing the cache file. */
  function Keep(c: RunnerConfig, n: nat, program: Program, file: FileContent, f: CapturedFixture,
                io: WriteOutcome): Outcome {
    match Replay(f, program)
    case Err(e) => Fail(e, n, file)
    case Ok(_) =>
      if !c.cached then Outcome(Ok(AutoRun(f, Disabled)), n, file)
      else
        var (written, content) := WriteFile(file, f, io);
        match written
        case Err(e) => Fail(e, n, content)
        case Ok(_) => Outcome(Ok(AutoRun(f, if file == Missing then Created else Refreshed)), n, content)
  }

  /** `run_online`. */
  function Online(c: RunnerConfig, p: Provider, n: nat, program: Program, file: FileContent,
                  io: WriteOutcome): Outcome {
    var (probe, k) := ProbeCache(c, p, n, program, file);
    match probe
    case Abort(e) => Fail(e, k, file)
    case HitNow(fixture) => Outcome(Ok(AutoRun(fixture, Hit)), k, file)
    case Seed(keys) =>
      var (captured, m) := CaptureFrom(c.settings, p, k, program, keys);
      match captured
      case Err(e) => Fail(e, m, file)
      case Ok(s) => Keep(c, m, program, file, s.fixture, io)
  }

  /** `run` with `.offline()`: no provider at all. */
  function Offline(c: RunnerConfig, program: Program, file: FileContent): Result<AutoRun, AutoRunError> {
    if !c.cached || c.refresh || file == Missing then Err(OfflineCacheMissing)
    else
      match FromFile(file, c.settings)
      case Err(e) => Err(CaptureFailure(e))
      case Ok(fixture) =>
        match Replay(fixture, program)
        case Err(e) => Err(CaptureFailure(e))
        case Ok(_) => Ok(AutoRun(fixture, Hit))
  }

  // ----- Laws of the protocol -----

  /**
   A hit means that passphrase and protocol were checked, that the cached five-field
   anchor is the provider's current one, that strict replay passed, and that the only two calls made were `getNetwork`
   and `getLatestLedger`; the file is left alone.
   */
  lemma HitMeansCurrentAndReplayed(c: RunnerConfig, p: Provider, n: nat, program: Program, file: FileContent,
                                   io: WriteOutcome)
    ensures Online(c, p, n, program, file, io).IsHit() ==>
      var o := Online(c, p, n, program, file, io);
      && FromFile(file, c.settings) == Ok(o.result.value.fixture)
      && ValidateNetwork(c.settings, p, n).Ok?
      && p.latest(n + 1) == Ok(AnchorOf(o.result.value.fixture))
      && Replay(o.result.value.fixture, program).Ok?
      && o.n == n + 2
      && o.file == file
  {
    hide FromFile, Replay, CaptureFrom, ToBundle, InventoryKeys, AnchorOf;
  }

  /**
   The cache file changes only to the bundle of a capture that has just passed
   strict replay; so an error of capture or replay leaves it as it was.
   */
  lemma FileChangesOnlyAfterReplay(c: RunnerConfig, p: Provider, n: nat, program: Program, file: FileContent,
                                   io: WriteOutcome)
    ensures Online(c, p, n, program, file, io).file != file ==>
      var (probe, k) := ProbeCache(c, p, n, program, file);
      && probe.Seed?
      && var captured := CaptureFrom(c.settings, p, k, program, probe.keys).0;
      && captured.Ok?
      && Replay(captured.value.fixture, program).Ok?
      && ToBundle(captured.value.fixture).Ok?
      && Online(c, p, n, program, file, io).file == Stored(ToBundle(captured.value.fixture).value)
      && (io == Written || io == FailedAfterRename)
  {
    hide FromFile, Replay, CaptureFrom, ToBundle, InventoryKeys, AnchorOf, ProbeCache;
  }

  /** A builder as the public constructors make it. */
  predicate Proper(settings: Settings) {
    RedactOrigin(settings.rpcOrigin) == Ok(settings.rpcOrigin) && settings.maxDiscoveryRounds <= MAX_DISCOVERY_ROUNDS
  }

  lemma InventoryOf(f: CapturedFixture, passphrase: Vec8, policy: ProtocolPolicy)
    requires WellFormed(f, passphrase, policy)
    ensures InventoryKeys(f.coverage).Ok?
  {
    assert forall id | id in f.coverage :: CanonicalId(id);
    hide *;
    InventoryOfCanonical(f.coverage);
  }

  lemma InventoryOfCanonical(coverage: Coverage)
    requires forall id | id in coverage :: CanonicalId(id)
    ensures InventoryKeys(coverage).Ok?
  {
    hide CheckCoverage;
  }

  /** What loads from the cache, in either schema, is a well-formed capture. */
  lemma LoadedIsWellFormed(file: FileContent, settings: Settings)
    ensures FromFile(file, settings).Ok? ==>
      WellFormed(FromFile(file, settings).value, settings.passphrase, settings.policy)
  {
    hide FromBundle, FromOldBundle, WellFormed;
    match file
    case Stored(bundle) => BundleCanonical(bundle, settings.passphrase, settings.policy);
    case StoredOld(legacy) => OldBundleUpgrades(legacy, settings.passphrase, settings.policy);
    case _ =>
  }

  lemma LoadedInventory(file: FileContent, settings: Settings)
    ensures FromFile(file, settings).Ok? ==> InventoryKeys(FromFile(file, settings).value.coverage).Ok?
  {
    hide FromFile, WellFormed, InventoryKeys;
    LoadedIsWellFormed(file, settings);
    if FromFile(file, settings).Ok? {
      InventoryOf(FromFile(file, settings).value, settings.passphrase, settings.policy);
    }
  }

  /** An inventory that passes its checks is well keyed and free of the config key. */
  lemma InventoryChecked(coverage: Coverage)
    requires InventoryKeys(coverage).Ok?
    ensures var keys := InventoryKeys(coverage).value;
      keys.Keys == coverage.Keys && WellKeyed(keys) && NoConfig(keys)
  {
    hide CheckInventoryId;
    var keys := InventoryKeys(coverage).value;
    forall id | id in coverage ensures KeyXdr(keys[id]) == Some(id) && !IsConfigId(id) {
      InventoryIdChecked(id);
    }
  }

  lemma InventoryIdChecked(id: KeyId)
    requires CheckInventoryId(id).Ok?
    ensures KeyFromXdr(id).Some? && KeyXdr(KeyFromXdr(id).value) == Some(id) && !IsConfigId(id)
  {
    if IsConfigId(id) { KeyXdrInjective(KeyFromXdr(id).value, STATE_ARCHIVAL_KEY); }
  }

  /** The seed a probe ends with can be captured from. */
  lemma SeedIsReady(c: RunnerConfig, p: Provider, n: nat, program: Program, file: FileContent)
    requires ProbeCache(c, p, n, program, file).0.Seed?
    ensures var keys := ProbeCache(c, p, n, program, file).0.keys; WellKeyed(keys) && NoConfig(keys)
    ensures UsesCache(c, file) ==>
      && FromFile(file, c.settings).Ok?
      && ProbeCache(c, p, n, program, file).0.keys.Keys == FromFile(file, c.settings).value.coverage.Keys
  {
    hide FromFile, Replay, InventoryKeys, AnchorIsCurrent;
    if UsesCache(c, file) {
      InventoryChecked(FromFile(file, c.settings).value.coverage);
    }
  }

  /** A cached bundle of either schema that loads but is out of date always seeds its own refresh. */
  lemma StaleCacheSeeds(c: RunnerConfig, p: Provider, n: nat, program: Program, file: FileContent)
    requires UsesCache(c, file)
    ensures FromFile(file, c.settings).Ok?
        && AnchorIsCurrent(c.settings, p, n, FromFile(file, c.settings).value).0 == Ok(false)
      ==> ProbeCache(c, p, n, program, file).0.Seed?
  {
    LoadedInventory(file, c.settings);
    hide FromFile, Replay, InventoryKeys, AnchorIsCurrent;
  }

  /** What a run that captured anew returns. */
  lemma CapturedRun(c: RunnerConfig, p: Provider, n: nat, program: Program, file: FileContent, io: WriteOutcome)
    returns (s: Settled)
    requires Online(c, p, n, program, file, io).IsNew()
    ensures RestsOn(c.settings, p, program, s)
    ensures var (probe, _) := ProbeCache(c, p, n, program, file); probe.Seed? && Grows(probe.keys, s.keys)
    ensures Online(c, p, n, program, file, io).result.value.fixture == s.fixture
    ensures Replay(s.fixture, program).Ok?
    ensures c.cached ==> ToBundle(s.fixture).Ok?
    ensures c.cached ==>
      Online(c, p, n, program, file, io).file == Stored(ToBundle(s.fixture).value)
    ensures !c.cached ==> Online(c, p, n, program, file, io).file == file
  {
    hide RestsOn, CaptureFrom, ProbeCache, Replay, ToBundle, WellKeyed, NoConfig, Grows;
    var (probe, k) := ProbeCache(c, p, n, program, file);
    SeedIsReady(c, p, n, program, file);
    CaptureRestsOn(c.settings, p, k, program, probe.keys);
    s := CaptureFrom(c.settings, p, k, program, probe.keys).0.value;
  }

  /**
   A refresh seeded from the cache keeps every cached key, and takes every value,
   old key or new, from the one ledger its new anchor names in a chain that the
   provider is honest about.
   */
  lemma RefreshKeepsInventory(c: RunnerConfig, p: Provider, n: nat, program: Program, file: FileContent,
                              io: WriteOutcome,
                              chain: Chain)
    requires UsesCache(c, file)
    ensures Online(c, p, n, program, file, io).IsNew() ==>
      && FromFile(file, c.settings).Ok?
      && var cached := FromFile(file, c.settings).value.coverage;
         var renewed := Online(c, p, n, program, file, io).result.value.fixture;
      && cached.Keys <= renewed.coverage.Keys
      && (Honest(p, chain) ==> FreshFrom(renewed, chain(renewed.fixture.snapshot.info.sequenceNumber)))
  {
    if Online(c, p, n, program, file, io).IsNew() {
      var s := CapturedRun(c, p, n, program, file, io);
      hide Online, FromFile, Replay, Honest;
      SeedIsReady(c, p, n, program, file);
      SettledKeys(c.settings, p, program, s);
      if Honest(p, chain) {
        SettledFresh(c.settings, p, program, s, chain);
      }
    }
  }

  /** Every covered key decodes, and its state is what `ledger` has for it. */
  ghost predicate FreshFrom(f: CapturedFixture, ledger: ChainLedger) {
    && f.fixture.snapshot.info.sequenceNumber == ledger.anchor.sequence
    && forall id | id in f.coverage ::
         KeyFromXdr(id).Some? && f.coverage[id] == ledger.Lookup(KeyFromXdr(id).value)
  }

  lemma SettledKeys(settings: Settings, p: Provider, program: Program, s: Settled)
    requires RestsOn(settings, p, program, s)
    ensures s.fixture.coverage.Keys == s.keys.Keys
  {
    SealedInfo(settings, s.m, s.round);
    hide Seal, Judge, RunPass;
    ReadyCoverage(settings, p, s.keys, s.m);
  }

  lemma SettledFresh(settings: Settings, p: Provider, program: Program, s: Settled, chain: Chain)
    requires RestsOn(settings, p, program, s) && Honest(p, chain)
    ensures FreshFrom(s.fixture, chain(s.fixture.fixture.snapshot.info.sequenceNumber))
  {
    SealedInfo(settings, s.m, s.round);
    hide Seal, Judge, RunPass, Honest;
    ReadyFacts(settings, p, s.keys, s.m);
    ReadyIsCoherent(settings, p, s.keys, s.m, chain);
    CoherentIsFresh(settings, s.keys, s.m, chain);
  }

  lemma CoherentIsFresh(settings: Settings, keys: Keys, m: Materialized, chain: Chain)
    requires WellKeyed(keys) && Coherent(m, settings, keys, chain)
    ensures m.anchor == chain(m.anchor.sequence).anchor
    ensures forall id | id in m.coverage ::
      KeyFromXdr(id).Some? && m.coverage[id] == chain(m.anchor.sequence).Lookup(KeyFromXdr(id).value)
  {
    hide Validated;
    forall id | id in m.coverage ensures KeyFromXdr(id) == Some(keys[id]) {
      KeyXdrRoundTrip(keys[id], id);
    }
  }

  lemma WellFormedLoads(f: CapturedFixture, settings: Settings)
    requires WellFormed(f, settings.passphrase, settings.policy)
    ensures ToBundle(f).Ok?
    ensures FromFile(Stored(ToBundle(f).value), settings) == Ok(f)
  {
    hide WellFormed, FromBundle, ToBundle;
    BundleRoundTrip(f, settings.passphrase, settings.policy);
  }

  /** The file written for a settled capture loads as that capture. */
  lemma WrittenLoads(settings: Settings, p: Provider, program: Program, s: Settled)
    requires RestsOn(settings, p, program, s) && Proper(settings) && Hashed(p)
    requires |s.fixture.coverage| < U64_LIMIT
    ensures ToBundle(s.fixture).Ok?
    ensures FromFile(Stored(ToBundle(s.fixture).value), settings) == Ok(s.fixture)
  {
    hide RestsOn, WellFormed, FromFile, ToBundle, AnchorOf, RedactOrigin;
    SettledCoverage(settings, p, program, s);
    SettledWellFormed(settings, p, program, s);
    WellFormedLoads(s.fixture, settings);
  }

  /**
   End to end: after an online run has written the cache, an offline run of the
   same scenario is a hit on the identical fixture.
   */
  lemma OnlineThenOffline(c: RunnerConfig, p: Provider, n: nat, program: Program, file: FileContent, io: WriteOutcome)
    requires Hashed(p) && Proper(c.settings) && c.cached && !c.refresh
    ensures Online(c, p, n, program, file, io).IsRepresentable() ==>
      var o := Online(c, p, n, program, file, io);
      Offline(c, program, o.file) == Ok(AutoRun(o.result.value.fixture, Hit))
  {
    hide FromFile, ToBundle, Replay, AnchorOf, Online, RestsOn, Proper;
    if Online(c, p, n, program, file, io).IsRepresentable() {
      if Online(c, p, n, program, file, io).result.value.cacheStatus == Hit {
        HitMeansCurrentAndReplayed(c, p, n, program, file, io);
        MissingDoesNotLoad(file, c.settings);
      } else {
        var s := CapturedRun(c, p, n, program, file, io);
        WrittenLoads(c.settings, p, program, s);
      }
    }
  }

  lemma MissingDoesNotLoad(file: FileContent, settings: Settings)
    requires FromFile(file, settings).Ok?
    ensures file != Missing
  {
  }

  lemma SettledCoverage(settings: Settings, p: Provider, program: Program, s: Settled)
    requires RestsOn(settings, p, program, s)
    ensures s.fixture.coverage == s.m.coverage
  {
    SealedInfo(settings, s.m, s.round);
  }

  /**
   And the next online run, with whatever provider, is a hit exactly when that provider
   passes the network check and still reports the captured anchor.
   */
  lemma OnlineThenOnline(c: RunnerConfig, p: Provider, n: nat, program: Program, file: FileContent, io: WriteOutcome,
                         q: Provider, k: nat, io2: WriteOutcome)
    requires Hashed(p) && Proper(c.settings) && c.cached && !c.refresh
    ensures Online(c, p, n, program, file, io).IsNew() && Online(c, p, n, program, file, io).IsRepresentable() ==>
      var o := Online(c, p, n, program, file, io);
      var again := Online(c, q, k, program, o.file, io2);
      again.result == Ok(AutoRun(o.result.value.fixture, Hit)) <==>
        ValidateNetwork(c.settings, q, k).Ok? && q.latest(k + 1) == Ok(AnchorOf(o.result.value.fixture))
  {
    hide FromFile, ToBundle, Replay, AnchorOf, Online, RestsOn, Proper, ValidateNetwork;
    if Online(c, p, n, program, file, io).IsNew() && Online(c, p, n, program, file, io).IsRepresentable() {
      var s := CapturedRun(c, p, n, program, file, io);
      var o := Online(c, p, n, program, file, io);
      WrittenLoads(c.settings, p, program, s);
      SettledPolicy(c.settings, p, program, s);
      if ValidateNetwork(c.settings, q, k).Ok? && q.latest(k + 1) == Ok(AnchorOf(s.fixture)) {
        CurrentIsHit(c, q, k, program, o.file, io2, s.fixture);
      } else if Online(c, q, k, program, o.file, io2).result == Ok(AutoRun(s.fixture, Hit)) {
        HitMeansCurrentAndReplayed(c, q, k, program, o.file, io2);
      }
    }
  }

  lemma CurrentIsHit(c: RunnerConfig, p: Provider, n: nat, program: Program, file: FileContent, io: WriteOutcome,
                     f: CapturedFixture)
    requires c.cached && !c.refresh && file != Missing && FromFile(file, c.settings) == Ok(f)
    requires ValidateNetwork(c.settings, p, n).Ok? && p.latest(n + 1) == Ok(AnchorOf(f))
    requires c.settings.policy.Accepts(AnchorOf(f).protocolVersion) && Replay(f, program).Ok?
    ensures Online(c, p, n, program, file, io).result == Ok(AutoRun(f, Hit))
  {
    hide FromFile, Replay, AnchorOf, ValidateNetwork, CaptureFrom, InventoryKeys;
  }

  lemma SettledPolicy(settings: Settings, p: Provider, program: Program, s: Settled)
    requires RestsOn(settings, p, program, s)
    ensures settings.policy.Accepts(AnchorOf(s.fixture).protocolVersion)
  {
    SealedInfo(settings, s.m, s.round);
    hide Seal, Judge, RunPass, EnsureClosure, Ready;
    ReadyFacts(settings, p, s.keys, s.m);
  }

  // ----- The runner -----

  class CacheFile {
    var content: FileContent

    constructor (content: FileContent)
      ensures this.content == content
    {
      this.content := content;
    }

    /** `write_file`, with the outcome the file system has in store. */
    method Write(f: CapturedFixture, io: WriteOutcome) returns (r: Result<(), CaptureError>)
      modifies this
      ensures (r, content) == WriteFile(old(content), f, io)
    {
      var bundle :- ToBundle(f);
      if io == FailedBeforeRename {
        return Err(CaptureBundleIo);
      }
      content := Stored(bundle);
      if io == FailedAfterRename {
        return Err(CaptureBundleIo);
      }
      return Ok(());
    }
  }

  class AutoRunner {
    const config: RunnerConfig
    const file: CacheFile

    constructor (config: RunnerConfig, file: CacheFile)
      ensures this.config == config && this.file == file
    {
      this.config := config;
      this.file := file;
    }

    method RunOffline(program: Program) returns (r: Result<AutoRun, AutoRunError>)
      ensures r == Offline(config, program, file.content)
    {
      if !config.cached || config.refresh || file.content == Missing {
        return Err(OfflineCacheMissing);
      }
      var fixture := FromFile(file.content, config.settings);
      if fixture.Err? {
        return Err(CaptureFailure(fixture.error));
      }
      var replayed := ReplayWithLocal(fixture.value, program);
      if replayed.Err? {
        return Err(CaptureFailure(replayed.error));
      }
      return Ok(AutoRun(fixture.value, Hit));
    }

    /** `run_online`; `io` is what the file system will make of a write. */
    method RunOnline(builder: CaptureBuilder, program: Program, io: WriteOutcome) returns (r: Result<AutoRun,
                     AutoRunError>)
      requires builder.config == config.settings
      modifies builder.transport, file
      ensures Outcome(r, builder.transport.calls, file.content)
           == Online(config, builder.transport.provider, old(builder.transport.calls), program, old(file.content), io)
    {
      hide FromFile, Replay, CaptureFrom, WriteFile, InventoryKeys, AnchorIsCurrent;
      var existed := config.cached && file.content != Missing;
      var seed: Keys := map[];
      if config.cached && !config.refresh && file.content != Missing {
        var cached := FromFile(file.content, config.settings);
        if cached.Err? {
          return Err(CaptureFailure(cached.error));
        }
        var current := builder.CachedAnchorIsCurrent(cached.value);
        if current.Err? {
          return Err(CaptureFailure(current.error));
        }
        if current.value {
          var replayed := ReplayWithLocal(cached.value, program);
          if replayed.Ok? {
            return Ok(AutoRun(cached.value, Hit));
          }
          if !replayed.error.UnknownLedgerKeys? {
            return Err(CaptureFailure(replayed.error));
          }
        }
        var inventory := InventoryKeys(cached.value.coverage);
        if inventory.Err? {
          return Err(CaptureFailure(inventory.error));
        }
        seed := inventory.value;
      }
      var captured := builder.CaptureFromKeys(program, seed);
      if captured.Err? {
        return Err(CaptureFailure(captured.error));
      }
      var replayed := ReplayWithLocal(captured.value, program);
      if replayed.Err? {
        return Err(CaptureFailure(replayed.error));
      }
      if !config.cached {
        return Ok(AutoRun(captured.value, Disabled));
      }
      var written := file.Write(captured.value, io);
      if written.Err? {
        return Err(CaptureFailure(written.error));
      }
      return Ok(AutoRun(captured.value, if existed then Refreshed else Created));
    }
  }
}
