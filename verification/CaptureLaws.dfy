/**
 What a successful capture guarantees, whatever the provider answered: its strict
 replay and its bundle.
 */
module CaptureLaws {
  import opened Wrappers
  import opened Bytes
  import opened Ledger
  import opened Fixture
  import opened Errors
  import opened CoverageChecks
  import opened Digests
  import opened Origin
  import opened Bundles
  import opened Providers
  import opened Materialization
  import opened Scenarios
  import opened Discovery

  // ----- Capture implies replay -----

  /** At a fixed point everything touched on the network is covered. */
  lemma FixedMeansCovered(config: Settings, p: Provider, keys: Keys, m: Materialized, pass: Pass, end: Action)
    requires Ready(config, p, keys, m) && end.End? && Judge(keys, pass, end) == Fixed
    requires WellKeyed(pass.source.requested)
    ensures forall id | id in Touched(pass) :: id in m.coverage <==> !IsConfigId(id)
  {
    hide Grounded, EnsureClosure;
    ReadyCoverage(config, p, keys, m);
    TouchedWellKeyed(pass);
    forall id | id in Touched(pass) ensures id in m.coverage <==> !IsConfigId(id) {
      var key := Touched(pass)[id];
      if !IsConfigId(id) {
        assert key != STATE_ARCHIVAL_KEY;
        assert id in NetworkKeys(Touched(pass));
        assert id in (keys + NetworkKeys(Touched(pass))).Keys;
      }
    }
  }

  lemma SealedInfo(config: Settings, m: Materialized, round: nat)
    requires Seal(config, m, round).Ok?
    ensures var f := Seal(config, m, round).value;
      f.fixture.snapshot.info == m.info && f.coverage == m.coverage
  {
    hide SnapshotEntriesOf, LedgerDigest, InventoryDigest, PresentIds;
  }

  /** The replay of a settled capture is its last discovery pass, answer for answer. */
  lemma ReplayIsLastPass(config: Settings, p: Provider, program: Program, s: Settled)
    requires RestsOn(config, p, program, s)
    ensures var r := ReplayPass(s.fixture, program);
      r.source == s.pass.source && r.history == s.pass.history && r.stored == s.pass.stored
  {
    hide Ready;
    SealedInfo(config, s.m, s.round);
    hide Seal;
    var n :| s.pass == RunPass(p, n, program, s.m);
    var scenario := program(InputOf(s.m.info, s.m.coverage));
    CachedPassIsStrict(p, scenario, NewPass(s.m.coverage, n));
    StrictIgnoresCount(scenario, NewPass(s.m.coverage, n), NewPass(s.m.coverage, 0));
  }

  /** Without a transport the call counter plays no part. */
  lemma {:induction false} StrictIgnoresCount(scenario: Scenario, a: Pass, b: Pass)
    requires a.(n := b.n) == b
    ensures Run(None, scenario, a).(n := b.n) == Run(None, scenario, b)
    decreases scenario.rank(a.history)
  {
    var action := scenario.next(a.history);
    if !action.End? {
      ActGrowsHistory(None, action, a);
      StrictIgnoresCount(scenario, Act(None, action, a), Act(None, action, b));
    }
  }

  /** The archival config key was left among the Host's stored entries. */
  predicate StoresArchival(pass: Pass) {
    STATE_ARCHIVAL_KEY in pass.stored
  }

  lemma UnknownIsArchival(f: CapturedFixture, pass: Pass)
    requires Encodes(pass.stored, pass.source.local) && pass.source.unknown == {}
    requires forall id | id in StoredKeys(pass.stored, pass.source.local) :: id in f.coverage <==> !IsConfigId(id)
    ensures StoresArchival(pass) ==> KeyXdr(STATE_ARCHIVAL_KEY).Some?
    ensures ReplayUnknown(f, pass) == if StoresArchival(pass) then {KeyXdr(STATE_ARCHIVAL_KEY).value} else {}
  {
    var keys := StoredKeys(pass.stored, pass.source.local);
    if StoresArchival(pass) {
      assert !pass.source.local.Owns(STATE_ARCHIVAL_KEY);
    }
    forall id | id in keys && IsConfigId(id) ensures StoresArchival(pass) {
      KeyXdrInjective(keys[id], STATE_ARCHIVAL_KEY);
    }
  }

  lemma SettledUnknown(config: Settings, p: Provider, program: Program, s: Settled)
    requires RestsOn(config, p, program, s)
    ensures Encodes(s.pass.stored, s.pass.source.local) && s.pass.source.unknown == {}
    ensures s.fixture.coverage == s.m.coverage
    ensures forall id | id in StoredKeys(s.pass.stored, s.pass.source.local) ::
              id in s.m.coverage <==> !IsConfigId(id)
    ensures var end := EndOf(program, s.m, s.pass); end.inspectable && !end.panicked
    ensures s.fixture.fixture.snapshot.info == s.m.info
  {
    hide Ready;
    SealedInfo(config, s.m, s.round);
    hide Seal;
    var n :| s.pass == RunPass(p, n, program, s.m);
    ReadsOnlyGrow(p, program(InputOf(s.m.info, s.m.coverage)), NewPass(s.m.coverage, n));
    PassWellKeyed(p, n, program, s.m);
    FixedMeansCovered(config, p, s.keys, s.m, s.pass, EndOf(program, s.m, s.pass));
  }

  /**
   A capture that returned Ok replays Ok exactly when its last pass did not leave
   the archival config key among the stored entries; otherwise that one key is
   reported as unknown.
   */
  lemma SettledReplays(config: Settings, p: Provider, program: Program, s: Settled)
    requires RestsOn(config, p, program, s)
    ensures Replay(s.fixture, program)
      == if StoresArchival(s.pass) then Err(UnknownLedgerKeys(1)) else Ok(())
  {
    hide RestsOn, ReplayPass, ReplayUnknown, Encodes, StoredKeys;
    SettledUnknown(config, p, program, s);
    ReplayIsLastPass(config, p, program, s);
    UnknownIsArchival(s.fixture, s.pass);
    ReplayUnknownSame(s.fixture, ReplayPass(s.fixture, program), s.pass);
  }

  lemma ReplayUnknownSame(f: CapturedFixture, a: Pass, b: Pass)
    requires a.source == b.source && a.stored == b.stored && Encodes(b.stored, b.source.local)
    ensures Encodes(a.stored, a.source.local) && ReplayUnknown(f, a) == ReplayUnknown(f, b)
  {
  }

  /** Capture implies replay, from any seed inventory and whatever the provider does. */
  lemma CaptureImpliesReplay(config: Settings, p: Provider, n: nat, program: Program, seed: Keys)
    requires WellKeyed(seed) && NoConfig(seed)
    ensures CaptureFrom(config, p, n, program, seed).0.Ok? ==>
      var s := CaptureFrom(config, p, n, program, seed).0.value;
      && (Replay(s.fixture, program) == Ok(()) <==> !StoresArchival(s.pass))
      && (StoresArchival(s.pass) ==> Replay(s.fixture, program) == Err(UnknownLedgerKeys(1)))
      && ReplayPass(s.fixture, program).history == s.pass.history
  {
    hide CaptureFrom, Replay, RestsOn, StoresArchival, ReplayPass;
    if CaptureFrom(config, p, n, program, seed).0.Ok? {
      CaptureRestsOn(config, p, n, program, seed);
      var s := CaptureFrom(config, p, n, program, seed).0.value;
      SettledReplays(config, p, program, s);
      ReplayIsLastPass(config, p, program, s);
    }
  }

  // ----- The internal invariant -----

  /**
   At a fixed point of a failure-free pass an RPC read happened exactly when the
   scenario read the archival config key, so that is the only way into the
   `InternalInvariant` error.
   */
  lemma InternalInvariantMeansArchivalRead(config: Settings, p: Provider, n: nat, program: Program, keys: Keys,
                                           m: Materialized)
    requires Ready(config, p, keys, m)
    requires var pass := RunPass(p, n, program, m);
      && pass.source.failure.None? && Encodes(pass.stored, pass.source.local)
      && (keys + NetworkKeys(Touched(pass))).Keys == keys.Keys
    ensures var pass := RunPass(p, n, program, m);
      && (pass.source.rpcReads > 0 <==> exists id :: id in pass.source.requested && IsConfigId(id))
      && (Judge(keys, pass, EndOf(program, m, pass)) == Stop(InternalInvariant) <==>
           (var end := EndOf(program, m, pass);
                  end.inspectable && !end.panicked && exists id :: id in pass.source.requested && IsConfigId(id)))
  {
    hide Grounded, EnsureClosure;
    var pass := RunPass(p, n, program, m);
    ReadsMeanOutsideCoverage(p, program(InputOf(m.info, m.coverage)), m.coverage, n);
    PassWellKeyed(p, n, program, m);
    ReadyCoverage(config, p, keys, m);
    hide RunPass, Ready;
    RequestedCovered(keys, m.coverage, pass);
  }

  lemma RequestedCovered(keys: Keys, coverage: Coverage, pass: Pass)
    requires NoConfig(keys) && coverage.Keys == keys.Keys && WellKeyed(pass.source.requested)
    requires Encodes(pass.stored, pass.source.local)
    requires (keys + NetworkKeys(Touched(pass))).Keys == keys.Keys
    ensures forall id | id in pass.source.requested :: id in coverage <==> !IsConfigId(id)
  {
    TouchedWellKeyed(pass);
    forall id | id in pass.source.requested ensures id in coverage <==> !IsConfigId(id) {
      assert id in Touched(pass);
      if !IsConfigId(id) {
        assert Touched(pass)[id] != STATE_ARCHIVAL_KEY;
        assert id in NetworkKeys(Touched(pass));
        assert id in (keys + NetworkKeys(Touched(pass))).Keys;
      }
    }
  }

  // ----- A capture is a well-formed fixture -----

  lemma SealedShape(config: Settings, m: Materialized, round: nat)
    requires Seal(config, m, round).Ok?
    ensures SnapshotOf(m.info, m.coverage).Ok? && InventoryDigest(m.coverage).Ok?
    ensures var f := Seal(config, m, round).value;
      && f.fixture.snapshot == SnapshotOf(m.info, m.coverage).value
      && f.fixture.snapshot.info == m.info
      && FromSnapshot(f.fixture.snapshot, config.passphrase, config.policy) == Ok(f.fixture)
      && f.coverage == m.coverage
      && f.report == CaptureReport(round, |PresentIds(m.coverage)|, |AbsentIds(m.coverage)|,
                                   InventoryDigest(m.coverage).value, 0)
      && f.provenance == Provenance(config.rpcOrigin, config.passphrase, m.anchor.sequence, m.anchor.hash,
                                    m.anchor.protocolVersion)
  {
    hide SnapshotEntriesOf, LedgerDigest, InventoryDigest, PresentIds, AbsentIds;
    PresentAndAbsent(m.coverage);
  }

  lemma SealedMatches(config: Settings, m: Materialized, round: nat)
    requires Seal(config, m, round).Ok?
    ensures var f := Seal(config, m, round).value; MatchesLedger(f.coverage, f.fixture.snapshot.entries)
  {
    SealedShape(config, m, round);
    hide Seal, SnapshotOf, LedgerMap;
    SnapshotIsPresentPart(m.info, m.coverage);
  }

  lemma ReadyIds(config: Settings, p: Provider, keys: Keys, m: Materialized)
    requires Ready(config, p, keys, m)
    ensures forall id | id in m.coverage :: CanonicalId(id)
  {
    hide Grounded, EnsureClosure;
    ReadyCoverage(config, p, keys, m);
    forall id | id in m.coverage ensures CanonicalId(id) {
      KeyXdrRoundTrip(keys[id], id);
    }
  }

  lemma ReadyFacts(config: Settings, p: Provider, keys: Keys, m: Materialized)
    requires Ready(config, p, keys, m)
    ensures EnsureClosure(m.coverage).Ok?
    ensures ValidateCoverage(m.coverage, m.info.sequenceNumber, m.info.maxEntryTtl).Ok?
    ensures m.info.sequenceNumber == m.anchor.sequence && m.info.protocolVersion == m.anchor.protocolVersion
    ensures m.info.timestamp == m.anchor.timestamp && m.info.baseReserve == m.anchor.baseReserve
    ensures exists i :: p.latest(i) == Ok(m.anchor)
    ensures config.policy.Accepts(m.anchor.protocolVersion)
  {
    hide EnsureClosure, ValidateCoverage, Coherent, Honest;
  }

  /**
   Whatever the provider answered, a capture can be written, and read back as itself:
   with the builder's own redacted origin and the default round limit it is well formed
   exactly when the anchor it rests on has a hash.
   */
  lemma SettledWellFormed(config: Settings, p: Provider, program: Program, s: Settled)
    requires RestsOn(config, p, program, s)
    requires RedactOrigin(config.rpcOrigin) == Ok(config.rpcOrigin)
    requires config.maxDiscoveryRounds <= MAX_DISCOVERY_ROUNDS
    requires |s.m.coverage| < U64_LIMIT
    ensures WellFormed(s.fixture, config.passphrase, config.policy) <==> s.m.anchor.hash != []
    ensures AnchorOf(s.fixture) == s.m.anchor
    ensures exists i :: p.latest(i) == Ok(s.m.anchor)
  {
    hide Judge, RunPass, EndOf;
    assert Ready(config, p, s.keys, s.m) && Seal(config, s.m, s.round) == Ok(s.fixture);
    assert 1 <= s.round <= config.maxDiscoveryRounds;
    hide *;
    ReadyFacts(config, p, s.keys, s.m);
    ReadyIds(config, p, s.keys, s.m);
    SealedShape(config, s.m, s.round);
    SealedMatches(config, s.m, s.round);
    PresentAndAbsent(s.m.coverage);
    if s.m.anchor.hash != [] {
      WellFormedFrom(s.fixture, config.passphrase, config.policy);
    } else {
      WellFormedHash(s.fixture, config.passphrase, config.policy);
    }
    AnchorFrom(s.fixture, s.m.anchor);
  }

  lemma WellFormedHash(f: CapturedFixture, passphrase: Vec8, policy: ProtocolPolicy)
    ensures WellFormed(f, passphrase, policy) ==> f.provenance.ledgerHash != []
  {
    hide FromSnapshot, MatchesLedger, CanonicalId, ValidateCoverage, EnsureClosure, InventoryDigest, PresentIds,
         AbsentIds, RedactOrigin;
  }

  lemma AnchorFrom(f: CapturedFixture, anchor: Anchor)
    requires var info := f.fixture.snapshot.info;
      && info.sequenceNumber == anchor.sequence && info.protocolVersion == anchor.protocolVersion
      && info.timestamp == anchor.timestamp && info.baseReserve == anchor.baseReserve
      && f.provenance.ledgerHash == anchor.hash
    ensures AnchorOf(f) == anchor
  {
  }

  lemma WellFormedFrom(f: CapturedFixture, passphrase: Vec8, policy: ProtocolPolicy)
    requires FromSnapshot(f.fixture.snapshot, passphrase, policy) == Ok(f.fixture)
    requires MatchesLedger(f.coverage, f.fixture.snapshot.entries)
    requires forall id | id in f.coverage :: CanonicalId(id)
    requires ValidateCoverage(f.coverage, f.fixture.snapshot.info.sequenceNumber,
        f.fixture.snapshot.info.maxEntryTtl).Ok?
    requires EnsureClosure(f.coverage).Ok?
    requires InventoryDigest(f.coverage) == Ok(f.report.inventoryDigest)
    requires f.report.presentEntries == |PresentIds(f.coverage)| < U64_LIMIT
    requires f.report.absentEntries == |AbsentIds(f.coverage)| < U64_LIMIT
    requires 1 <= f.report.discoveryRounds <= MAX_DISCOVERY_ROUNDS && f.report.finalReplayRpcReads == 0
    requires f.provenance.passphrase == passphrase
    requires RedactOrigin(f.provenance.rpcOrigin) == Ok(f.provenance.rpcOrigin)
    requires f.provenance.ledgerHash != []
    requires f.provenance.ledgerSequence == f.fixture.snapshot.info.sequenceNumber
    requires f.provenance.protocolVersion == f.fixture.snapshot.info.protocolVersion
    ensures WellFormed(f, passphrase, policy)
  {
    hide FromSnapshot, MatchesLedger, CanonicalId, ValidateCoverage, EnsureClosure, InventoryDigest, PresentIds,
         AbsentIds, RedactOrigin;
  }
}
