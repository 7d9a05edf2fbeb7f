/**
 Why a capture ended the way it did, and what a successful one vouches for, told from
 the passes, the provider and the fixture (`capture_ref_from_keys`, src/capture.rs).
 */
module CaptureCauses {
  import opened Wrappers
  import opened Bytes
  import opened Ledger
  import opened Fixture
  import opened Errors
  import opened CoverageChecks
  import opened Digests
  import opened Bundles
  import opened Providers
  import opened Materialization
  import opened Closure
  import opened Scenarios
  import opened Discovery
  import opened CaptureLaws

  // ----- Verdicts -----

  /** Everything the pass touched on the network is among the keys. */
  predicate AtRest(keys: Keys, pass: Pass) {
    && Encodes(pass.stored, pass.source.local)
    && forall id | id in NetworkKeys(Touched(pass)) :: id in keys
  }

  lemma RestIsNoNewKey(keys: Keys, pass: Pass)
    requires Encodes(pass.stored, pass.source.local)
    ensures (keys + NetworkKeys(Touched(pass))).Keys == keys.Keys <==> AtRest(keys, pass)
  {
    hide Touched, NetworkKeys, Encodes;
    var network := NetworkKeys(Touched(pass));
    assert (keys + network).Keys == keys.Keys + network.Keys;
    if AtRest(keys, pass) {
      assert network.Keys <= keys.Keys;
    }
    assert forall id | id in network :: id in (keys + network).Keys;
  }

  /**
   A panic and a leftover RPC read count only at rest; until then every pass that did
   not fail and can be inspected leads to another round, with its new keys added.
   */
  lemma VerdictMeaning(keys: Keys, pass: Pass, end: Action)
    requires end.End?
    ensures var v := Judge(keys, pass, end);
      var finished := pass.source.failure.None? && end.inspectable && Encodes(pass.stored, pass.source.local);
      && (v.More? <==> finished && !AtRest(keys, pass))
      && (v == Fixed <==> finished && AtRest(keys, pass) && !end.panicked && pass.source.rpcReads == 0)
      && (v == Stop(ScenarioPanicked) <==> finished && AtRest(keys, pass) && end.panicked)
      && (v == Stop(InternalInvariant) <==>
            finished && AtRest(keys, pass) && !end.panicked && pass.source.rpcReads != 0)
      && (v == Stop(HostInspection) <==> pass.source.failure.None? && !end.inspectable)
    ensures Judge(keys, pass, end).More? ==> Judge(keys, pass, end).keys == keys + NetworkKeys(Touched(pass))
  {
    hide AtRest, Touched, NetworkKeys, Encodes;
    if Encodes(pass.stored, pass.source.local) {
      RestIsNoNewKey(keys, pass);
    }
  }

  // ----- Panics -----

  /** A pass over ready state that found nothing new and panicked. */
  ghost predicate PanickedAtRest(config: Settings, p: Provider, program: Program, keys: Keys, m: Materialized, n: nat) {
    var pass := RunPass(p, n, program, m);
    var end := EndOf(program, m, pass);
    && Ready(config, p, keys, m)
    && pass.source.failure.None? && AtRest(keys, pass)
    && end.End? && end.inspectable && end.panicked
  }

  lemma {:induction false} RoundsPanicAtRest(config: Settings, p: Provider, n: nat, program: Program, keys: Keys,
                                             m: Materialized, round: nat)
    requires Ready(config, p, keys, m)
    ensures Rounds(config, p, n, program, keys, m, round).0 == Err(ScenarioPanicked) ==>
      exists keys', m', k :: PanickedAtRest(config, p, program, keys', m', k) && Grows(keys, keys')
    decreases config.maxDiscoveryRounds + 1 - round
  {
    hide Ready, Judge, Seal, Refetch, RunPass, WellKeyed, NoConfig, Widens, EndOf, AtRest, Grows, Encodes;
    PassEnds(p, n, program, m);
    var pass := RunPass(p, n, program, m);
    var end := EndOf(program, m, pass);
    VerdictMeaning(keys, pass, end);
    SealNeverPanics(config, m, round);
    if round <= config.maxDiscoveryRounds {
      if Judge(keys, pass, end).More? {
        ReadyKeys(config, p, keys, m);
        NextKeys(p, n, program, keys, m);
        var wider := Judge(keys, pass, end).keys;
        var (next, k) := Refetch(config, p, pass.n, wider);
        if next.Ok? {
          RefetchIsReady(config, p, pass.n, wider);
          WidensGrows(wider, next.value.0);
          RoundsPanicAtRest(config, p, k, program, next.value.0, next.value.1, round + 1);
          if Rounds(config, p, n, program, keys, m, round).0 == Err(ScenarioPanicked) {
            var keys', m', j :| PanickedAtRest(config, p, program, keys', m', j) && Grows(next.value.0, keys');
            GrowsOn(keys, wider, next.value.0, keys');
          }
        }
      } else if Judge(keys, pass, end) == Stop(ScenarioPanicked) {
        assert PanickedAtRest(config, p, program, keys, m, n);
        GrowsOn(keys, keys, keys, keys) by { GrowsSelf(keys); }
      }
    }
  }

  lemma GrowsSelf(keys: Keys)
    ensures Grows(keys, keys)
  {
  }

  lemma GrowsOn(a: Keys, b: Keys, c: Keys, d: Keys)
    requires Grows(a, b) && Grows(b, c) && Grows(c, d)
    ensures Grows(a, d)
  {
  }

  lemma SealNeverPanics(config: Settings, m: Materialized, round: nat)
    ensures Seal(config, m, round) != Err(ScenarioPanicked)
  {
    hide SnapshotEntriesOf, LedgerDigest, PresentIds;
  }

  /**
   Against any provider a capture reports a panic only of a pass over ready state, with
   every seed key captured, that did not fail and found nothing new: a scenario that
   panics for want of a key it has touched is tried again with that key.
   */
  lemma PanicOnlyAtRest(config: Settings, p: Provider, n: nat, program: Program, seed: Keys)
    requires WellKeyed(seed) && NoConfig(seed)
    ensures CaptureFrom(config, p, n, program, seed).0 == Err(ScenarioPanicked) ==>
      exists keys, m, k :: PanickedAtRest(config, p, program, keys, m, k) && Grows(seed, keys)
  {
    hide Ready, Rounds, Refetch, WellKeyed, NoConfig, Widens, Grows, PanickedAtRest;
    if CaptureFrom(config, p, n, program, seed).0 == Err(ScenarioPanicked) {
      var (start, k) := Refetch(config, p, n + 1, seed);
      RefetchIsReady(config, p, n + 1, seed);
      WidensGrows(seed, start.value.0);
      RoundsPanicAtRest(config, p, k, program, start.value.0, start.value.1, 1);
      var keys, m, j :| PanickedAtRest(config, p, program, keys, m, j) && Grows(start.value.0, keys);
      GrowsSelf(seed);
      GrowsOn(seed, seed, start.value.0, keys);
    }
  }

  // ----- What a successful capture vouches for -----

  /** Nothing is fetched before the network has been told right, and a wrong one is named. */
  lemma NetworkIsChecked(config: Settings, p: Provider, n: nat, program: Program, seed: Keys)
    ensures var (r, calls) := CaptureFrom(config, p, n, program, seed);
      match p.network(n)
      case Err(operation) => r == Err(Transport(operation)) && calls == n + 1
      case Ok(network) =>
        var supported := network.protocolVersion == SUPPORTED_PROTOCOL_VERSION
          || (config.policy.AllowNewer? && network.protocolVersion == SUPPORTED_PROTOCOL_VERSION + 1);
        && (network.passphrase != config.passphrase ==> r == Err(CaptureError.NetworkMismatch) && calls == n + 1)
        && (network.passphrase == config.passphrase && !supported ==>
              r == Err(CaptureError.UnsupportedProtocol(network.protocolVersion, SUPPORTED_PROTOCOL_VERSION))
              && calls == n + 1)
  {
    hide Refetch, Rounds;
  }

  /** Against any provider, every captured entry is sound. */
  lemma CapturedEntriesAreSound(config: Settings, p: Provider, n: nat, program: Program, seed: Keys)
    requires WellKeyed(seed) && NoConfig(seed)
    ensures var r := CaptureFrom(config, p, n, program, seed).0;
      r.Ok? ==>
        var f := r.value.fixture;
        var info := f.fixture.snapshot.info;
        forall id | id in f.coverage && f.coverage[id].Present? ::
          IsSoundEntry(id, f.coverage[id].entry, f.coverage[id].liveUntil, info.sequenceNumber, info.maxEntryTtl)
  {
    hide CaptureFrom, Ready, Judge, Seal, RunPass, IsSoundEntry, ValidateCoverage;
    if CaptureFrom(config, p, n, program, seed).0.Ok? {
      CaptureRestsOn(config, p, n, program, seed);
      var s := CaptureFrom(config, p, n, program, seed).0.value;
      SealedInfo(config, s.m, s.round);
      ReadyFacts(config, p, s.keys, s.m);
      ValidMeansSound(s.m.coverage, s.m.info.sequenceNumber, s.m.info.maxEntryTtl);
    }
  }

  /** The header of a capture is that of the ledger its sequence number names, field by field. */
  lemma HeaderIsTheLedgers(config: Settings, p: Provider, n: nat, program: Program, seed: Keys, chain: Chain)
    requires WellKeyed(seed) && NoConfig(seed)
    ensures var r := CaptureFrom(config, p, n, program, seed).0;
      r.Ok? && Honest(p, chain) ==>
        var info := r.value.fixture.fixture.snapshot.info;
        var ledger := chain(info.sequenceNumber);
        && ledger.Lookup(STATE_ARCHIVAL_KEY).Present?
        && ledger.Lookup(STATE_ARCHIVAL_KEY).entry.data.StateArchivalEntry?
        && var archival := ledger.Lookup(STATE_ARCHIVAL_KEY).entry.data.settings;
        && info.sequenceNumber == ledger.anchor.sequence && info.protocolVersion == ledger.anchor.protocolVersion
        && info.timestamp == ledger.anchor.timestamp && info.baseReserve == ledger.anchor.baseReserve
        && info.networkId == Sha256(config.passphrase)
        && info.minPersistentEntryTtl == archival.minPersistentTtl
        && info.minTempEntryTtl == archival.minTemporaryTtl
        && info.maxEntryTtl == archival.maxEntryTtl
  {
    hide CaptureFrom, Ready, Judge, Seal, RunPass, Honest, Validated;
    if CaptureFrom(config, p, n, program, seed).0.Ok? && Honest(p, chain) {
      CaptureRestsOn(config, p, n, program, seed);
      var s := CaptureFrom(config, p, n, program, seed).0.value;
      SealedInfo(config, s.m, s.round);
      ReadyIsCoherent(config, p, s.keys, s.m, chain);
    }
  }

  /** Report and provenance say what was done, counted over the fixture's own coverage. */
  ghost predicate IsTrueAccount(config: Settings, p: Provider, f: CapturedFixture, rounds: nat) {
    var info := f.fixture.snapshot.info;
    && f.report.discoveryRounds == rounds
    && f.report.presentEntries == |PresentIds(f.coverage)|
    && f.report.absentEntries == |AbsentIds(f.coverage)|
    && f.report.finalReplayRpcReads == 0
    && Ok(f.report.inventoryDigest) == InventoryDigest(f.coverage)
    && f.provenance.rpcOrigin == config.rpcOrigin && f.provenance.passphrase == config.passphrase
    && f.provenance.ledgerSequence == info.sequenceNumber && f.provenance.protocolVersion == info.protocolVersion
    && exists i :: ReportedAs(p.latest(i), f.provenance)
  }

  /** An anchor that was reported with the sequence and hash of a provenance. */
  predicate ReportedAs(answer: Result<Anchor, Operation>, provenance: Provenance) {
    answer.Ok? && answer.value.hash == provenance.ledgerHash && answer.value.sequence == provenance.ledgerSequence
  }

  lemma SealIsTrue(config: Settings, p: Provider, m: Materialized, round: nat)
    requires Seal(config, m, round).Ok?
    requires m.info.sequenceNumber == m.anchor.sequence && m.info.protocolVersion == m.anchor.protocolVersion
    requires exists i :: p.latest(i) == Ok(m.anchor)
    ensures IsTrueAccount(config, p, Seal(config, m, round).value, round)
  {
    SealedShape(config, m, round);
    hide Seal, InventoryDigest, SnapshotOf, FromSnapshot, PresentIds, AbsentIds;
    var i :| p.latest(i) == Ok(m.anchor);
    assert ReportedAs(p.latest(i), Seal(config, m, round).value.provenance);
  }

  /** Against any provider, the report and provenance of a capture are true. */
  lemma ReportIsTrue(config: Settings, p: Provider, n: nat, program: Program, seed: Keys)
    requires WellKeyed(seed) && NoConfig(seed)
    ensures var r := CaptureFrom(config, p, n, program, seed).0;
      r.Ok? ==>
        && IsTrueAccount(config, p, r.value.fixture, r.value.round)
        && r.value.fixture.coverage.Keys == r.value.keys.Keys
  {
    hide CaptureFrom, Judge, RunPass, InventoryDigest, Seal, Ready, IsTrueAccount;
    if CaptureFrom(config, p, n, program, seed).0.Ok? {
      CaptureRestsOn(config, p, n, program, seed);
      var s := CaptureFrom(config, p, n, program, seed).0.value;
      ReadyFacts(config, p, s.keys, s.m);
      ReadyCoverage(config, p, s.keys, s.m);
      SealedInfo(config, s.m, s.round);
      SealIsTrue(config, p, s.m, s.round);
    }
  }
}
