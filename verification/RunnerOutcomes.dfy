/**
 What every run of the automatic runner comes to (src/auto.rs:308-414): which branch is
 taken, which cache seeds it, and what is left in the file.
 */
module RunnerOutcomes {
  import opened Wrappers
  import opened Bytes
  import opened Fixture
  import opened Errors
  import opened CoverageChecks
  import opened Digests
  import opened Origin
  import opened Bundles
  import opened Providers
  import opened Materialization
  import opened Scenarios
  import opened Discovery
  import opened Runner

  // ----- What a capture becomes -----

  /**
   A capture that was made with `calls` calls: returned only after strict replay, kept
   in the file only when there is one, and reported as what it did to the file.
   */
  ghost predicate IsKept(o: Outcome, c: RunnerConfig, calls: nat, program: Program, file: FileContent,
                         f: CapturedFixture, io: WriteOutcome) {
    && o.n == calls
    && match Replay(f, program)
       case Err(e) => o.result == Err(CaptureFailure(e)) && o.file == file
       case Ok(_) =>
         if !c.cached then o.result == Ok(AutoRun(f, Disabled)) && o.file == file
         else
           match ToBundle(f)
           case Err(e) => o.result == Err(CaptureFailure(e)) && o.file == file
           case Ok(bundle) =>
             && o.file == (if io == FailedBeforeRename then file else Stored(bundle))
             && o.result == if io != Written then Err(CaptureFailure(CaptureBundleIo))
                            else Ok(AutoRun(f, if file == Missing then Created else Refreshed))
  }

  /** The outcome is that of a capture from `seed`, begun after `calls` calls. */
  ghost predicate IsCapture(o: Outcome, c: RunnerConfig, p: Provider, calls: nat, program: Program, file: FileContent,
                            io: WriteOutcome, seed: Keys) {
    var (captured, k) := CaptureFrom(c.settings, p, calls, program, seed);
    match captured
    case Err(e) => o == Outcome(Err(CaptureFailure(e)), k, file)
    case Ok(s) => IsKept(o, c, k, program, file, s.fixture, io)
  }

  lemma KeepIsKept(c: RunnerConfig, n: nat, program: Program, file: FileContent, f: CapturedFixture, io: WriteOutcome)
    ensures IsKept(Keep(c, n, program, file, f, io), c, n, program, file, f, io)
  {
    hide Replay, ToBundle;
  }

  // ----- Online -----

  /** Without a cache to use, every run captures from nothing. */
  lemma ColdRunCaptures(c: RunnerConfig, p: Provider, n: nat, program: Program, file: FileContent, io: WriteOutcome)
    requires !c.cached || c.refresh || file == Missing
    ensures IsCapture(Online(c, p, n, program, file, io), c, p, n, program, file, io, map[])
  {
    hide CaptureFrom, IsKept, Keep;
    var (captured, k) := CaptureFrom(c.settings, p, n, program, map[]);
    if captured.Ok? {
      KeepIsKept(c, k, program, file, captured.value.fixture, io);
    }
  }

  /** The provider says that the network is the configured one. */
  predicate NetworkAgrees(settings: Settings, p: Provider, n: nat) {
    && p.network(n).Ok? && p.network(n).value.passphrase == settings.passphrase
    && settings.policy.Accepts(p.network(n).value.protocolVersion)
  }

  /** The provider reports exactly the anchor a fixture was captured at. */
  predicate AnchorAgrees(p: Provider, n: nat, f: CapturedFixture) {
    var info := f.fixture.snapshot.info;
    && p.latest(n).Ok?
    && var anchor := p.latest(n).value;
    && anchor.sequence == info.sequenceNumber && anchor.hash == f.provenance.ledgerHash
    && anchor.protocolVersion == info.protocolVersion && anchor.timestamp == info.timestamp
    && anchor.baseReserve == info.baseReserve
  }

  /** The cached keys are worth a capture: the ledger has moved on, or replay met a key they lack. */
  predicate NeedsRefresh(p: Provider, n: nat, f: CapturedFixture, program: Program) {
    AnchorAgrees(p, n, f) ==> Replay(f, program).Err? && Replay(f, program).error.UnknownLedgerKeys?
  }

  lemma ProbeMeans(c: RunnerConfig, p: Provider, n: nat, program: Program, file: FileContent)
    requires c.cached && !c.refresh && file != Missing && FromFile(file, c.settings).Ok?
    requires NetworkAgrees(c.settings, p, n)
    requires p.latest(n + 1).Ok? && c.settings.policy.Accepts(p.latest(n + 1).value.protocolVersion)
    ensures var f := FromFile(file, c.settings).value;
      && InventoryKeys(f.coverage).Ok?
      && ProbeCache(c, p, n, program, file)
         == (if NeedsRefresh(p, n + 1, f, program) then Seed(InventoryKeys(f.coverage).value)
             else if Replay(f, program).Ok? then HitNow(f) else Abort(Replay(f, program).error), n + 2)
  {
    hide FromFile, Replay, InventoryKeys;
    LoadedInventory(file, c.settings);
  }

  /**
   With a cache that loads and a provider of the right network: an anchor that has moved,
   or a replay under the current anchor that met an unknown key, leads to a capture from
   the cached inventory; a replay that passes is a hit; any other replay error is
   returned. In the last two cases the file is left alone.
   */
  lemma CachedRunDecided(c: RunnerConfig, p: Provider, n: nat, program: Program, file: FileContent, io: WriteOutcome)
    requires c.cached && !c.refresh && file != Missing && FromFile(file, c.settings).Ok?
    requires NetworkAgrees(c.settings, p, n)
    requires p.latest(n + 1).Ok? && c.settings.policy.Accepts(p.latest(n + 1).value.protocolVersion)
    ensures var f := FromFile(file, c.settings).value;
      var o := Online(c, p, n, program, file, io);
      && InventoryKeys(f.coverage).Ok?
      && if NeedsRefresh(p, n + 1, f, program)
         then IsCapture(o, c, p, n + 2, program, file, io, InventoryKeys(f.coverage).value)
         else if Replay(f, program).Ok? then o == Outcome(Ok(AutoRun(f, Hit)), n + 2, file)
         else o == Outcome(Err(CaptureFailure(Replay(f, program).error)), n + 2, file)
  {
    hide FromFile, Replay, InventoryKeys, CaptureFrom, Keep, IsKept, ProbeCache, NeedsRefresh, NetworkAgrees;
    ProbeMeans(c, p, n, program, file);
    var f := FromFile(file, c.settings).value;
    if NeedsRefresh(p, n + 1, f, program) {
      var (captured, k) := CaptureFrom(c.settings, p, n + 2, program, InventoryKeys(f.coverage).value);
      if captured.Ok? {
        KeepIsKept(c, k, program, file, captured.value.fixture, io);
      }
    }
  }

  /**
   A cache that does not load, and a provider that fails, is of another network, or
   runs an unsupported protocol: the run ends with that error before anything is captured.
   */
  lemma UnusableCacheOrProvider(c: RunnerConfig, p: Provider, n: nat, program: Program, file: FileContent,
                                io: WriteOutcome)
    requires c.cached && !c.refresh && file != Missing
    ensures var o := Online(c, p, n, program, file, io);
      match FromFile(file, c.settings)
      case Err(e) => o == Outcome(Err(CaptureFailure(e)), n, file)
      case Ok(_) =>
        && (p.network(n).Err? ==> o == Outcome(Err(CaptureFailure(Transport(p.network(n).error))), n + 1, file))
        && (p.network(n).Ok? && !NetworkAgrees(c.settings, p, n) ==> o.result.Err? && o.n == n + 1 && o.file == file)
        && (NetworkAgrees(c.settings, p, n) && p.latest(n + 1).Err? ==>
              o == Outcome(Err(CaptureFailure(Transport(p.latest(n + 1).error))), n + 2, file))
        && (NetworkAgrees(c.settings, p, n) && p.latest(n + 1).Ok?
            && !c.settings.policy.Accepts(p.latest(n + 1).value.protocolVersion) ==>
              o.result.Err? && o.n == n + 2 && o.file == file)
  {
    hide FromFile, Replay, InventoryKeys, CaptureFrom, Keep;
  }

  // ----- What a cache may hold -----

  /** Whatever loads is of the configured network, of a supported protocol, and hashed as it says. */
  lemma LoadedIsRight(file: FileContent, settings: Settings)
    ensures FromFile(file, settings).Ok? ==>
      var f := FromFile(file, settings).value;
      var protocol := f.fixture.snapshot.info.protocolVersion;
      && f.fixture.snapshot.info.networkId == Sha256(settings.passphrase)
      && f.provenance.passphrase == settings.passphrase
      && (protocol == SUPPORTED_PROTOCOL_VERSION
          || (settings.policy.AllowNewer? && protocol == SUPPORTED_PROTOCOL_VERSION + 1))
      && LedgerDigest(f.fixture.snapshot) == Ok(f.fixture.ledgerDigest)
      && InventoryDigest(f.coverage) == Ok(f.report.inventoryDigest)
  {
    hide FromFile, LedgerDigest, InventoryDigest, MatchesLedger, ValidateCoverage, EnsureClosure, CanonicalId,
         PresentIds, AbsentIds, RedactOrigin;
    LoadedIsWellFormed(file, settings);
  }

  // ----- Offline -----

  /**
   An offline run is a hit on the cached fixture exactly when it loads and its replay passes; nothing
   else succeeds.
   */
  lemma OfflineDecided(c: RunnerConfig, program: Program, file: FileContent)
    ensures var r := Offline(c, program, file);
      var usable := c.cached && !c.refresh && file != Missing;
      && (r.Ok? <==> usable && FromFile(file, c.settings).Ok? && Replay(FromFile(file, c.settings).value, program).Ok?)
      && (r.Ok? ==> r.value == AutoRun(FromFile(file, c.settings).value, Hit))
      && (r == Err(OfflineCacheMissing) <==> !usable)
      && (usable && FromFile(file, c.settings).Err? ==> r == Err(CaptureFailure(FromFile(file, c.settings).error)))
  {
    hide FromFile, Replay;
  }
}
