/**
 What a capture comes to when nothing goes wrong outside it: a provider that answers
 every call from one valid ledger, and a scenario that touches only keys a capture can
 hold. Then the ledger and the scenario alone decide the result.
 */
module CaptureFates {
  import opened Wrappers
  import opened Bytes
  import opened Ordered
  import opened Ledger
  import opened Fixture
  import opened Errors
  import opened CoverageChecks
  import opened Digests
  import opened Providers
  import opened Materialization
  import opened Closure
  import opened Scenarios
  import opened Discovery
  import opened CaptureLaws
  import opened Convergence
  import opened ArchivalKeys

  // ----- Nothing goes wrong outside -----

  /** A batch without repetitions and without entries that were not asked for. */
  ghost predicate ExactBatch(keys: seq<LedgerKey>, entries: seq<LedgerValue>) {
    && (forall f | f in entries :: f.entry.ToKey() in keys)
    && (forall i, j | 0 <= i < j < |entries| :: entries[i].entry.ToKey() != entries[j].entry.ToKey())
  }

  ghost predicate AnswersExactly(answer: Result<EntryBatch, Operation>, keys: seq<LedgerKey>) {
    answer.Ok? && ExactBatch(keys, answer.value.entries)
  }

  /** Every call succeeds, and is answered from `ledger` of the configured network. */
  ghost predicate Reliable(p: Provider, config: Settings, ledger: ChainLedger) {
    && Unchanging(p, ledger)
    && (forall i :: p.network(i) == Ok(Network(config.passphrase, ledger.anchor.protocolVersion)))
    && (forall i :: p.latest(i) == Ok(ledger.anchor))
    && (forall i, keys :: AnswersExactly(p.entries(i, keys), keys))
  }

  /** The kinds of key whose entries a capture can hold. */
  predicate IsCapturable(key: LedgerKey) {
    key.Account? || key.Trustline? || key.ContractData? || key.ContractCode?
  }

  /** The executables of a ledger's own entries lead to code it holds. */
  predicate Executes(ledger: ChainLedger, executable: Executable) {
    match executable
    case Wasm(hash) => CodeKey(hash) in ledger.values
    case ExternalRef(owner, tag) =>
      && ReferenceKey(owner, tag) in ledger.values
      && (var reference := ledger.values[ReferenceKey(owner, tag)].entry.data;
          && reference.ContractDataEntry? && reference.val.BytesVal? && |reference.val.bytes| == 32
          && CodeKey(reference.val.bytes) in ledger.values)
    case StellarAsset => true
  }

  /** One entry that passes every check of a capture. */
  predicate SoundEntry(ledger: ChainLedger, key: LedgerKey, sequence: u32, maxEntryTtl: u32)
    requires key in ledger.values
  {
    var state := ledger.Lookup(key);
    && KeyXdr(key).Some? && EntryXdr(state.entry).Some?
    && CheckState(KeyXdr(key).value, state, sequence, maxEntryTtl).Ok?
    && (ExecutableOf(state).Some? ==> Executes(ledger, ExecutableOf(state).value))
  }

  /** An accepted protocol, archival settings, and entries of the capturable kinds that are sound. */
  ghost predicate Valid(config: Settings, ledger: ChainLedger) {
    && config.policy.Accepts(ledger.anchor.protocolVersion)
    && KeyXdr(STATE_ARCHIVAL_KEY).Some? && SettingsOf(ledger).Some?
    && forall key | key in ledger.values && IsCapturable(key) ::
         SoundEntry(ledger, key, ledger.anchor.sequence, SettingsOf(ledger).value.maxEntryTtl)
  }

  /** Keys that a capture can ask for and hold. */
  predicate Holdable(keys: Keys) {
    WellKeyed(keys) && forall id | id in keys :: IsCapturable(keys[id])
  }

  lemma HoldableNoConfig(keys: Keys)
    requires Holdable(keys)
    ensures NoConfig(keys)
  {
    forall id | id in keys ensures !IsConfigId(id) {
      if IsConfigId(id) { KeyXdrInjective(keys[id], STATE_ARCHIVAL_KEY); }
    }
  }

  // ----- Materialization succeeds -----

  lemma {:induction false} ExactCollects(keys: seq<LedgerKey>, ids: set<KeyId>, entries: seq<LedgerValue>)
    requires forall k | k in keys :: KeyXdr(k).Some? && KeyXdr(k).value in ids
    requires ExactBatch(keys, entries)
    ensures CollectBatch(ids, entries).Ok?
  {
    if entries != [] {
      var n := |entries| - 1;
      assert forall f | f in entries[..n] :: f in entries;
      ExactCollects(keys, ids, entries[..n]);
      CollectedAre(ids, entries[..n]);
      var returned, key := CollectBatch(ids, entries[..n]).value, entries[n].entry.ToKey();
      assert entries[n] in entries;
      var id := KeyXdr(key).value;
      if id in returned {
        var i :| 0 <= i < n && entries[i] == returned[id];
        KeyXdrInjective(returned[id].entry.ToKey(), key);
      }
    }
  }

  lemma ExactValidates(keys: seq<LedgerKey>, entries: seq<LedgerValue>)
    requires forall k | k in keys :: KeyXdr(k).Some?
    requires ExactBatch(keys, entries)
    ensures ValidateBatch(keys, entries).Ok?
  {
    hide ExactBatch;
    ExactCollects(keys, RequestedIds(keys).value, entries);
  }

  lemma {:induction false} ChunkAbsorbs(chunk: seq<KeyId>, returned: map<KeyId, LedgerValue>, configId: KeyId,
                                        so: Fetched)
    requires configId in chunk ==> ExtractArchival(Get(returned, configId)).Ok?
    ensures AbsorbChunk(chunk, returned, configId, so).Ok?
  {
    if chunk != [] {
      assert forall id | id in chunk[..|chunk| - 1] :: id in chunk;
      ChunkAbsorbs(chunk[..|chunk| - 1], returned, configId, so);
    }
  }

  /** A chunk of well-keyed ids is answered, validated and absorbed. */
  lemma ChunkSucceeds(p: Provider, config: Settings, n: nat, configId: KeyId, requested: Keys, chunk: seq<KeyId>,
                      so: Fetched, ledger: ChainLedger)
    requires Reliable(p, config, ledger) && SettingsOf(ledger).Some?
    requires Request(requested, configId) && forall id | id in chunk :: id in requested
    ensures var answer := p.entries(n, KeysOf(chunk, requested));
      && answer.Ok? && answer.value.latestLedger == ledger.anchor.sequence
      && ValidateBatch(KeysOf(chunk, requested), answer.value.entries).Ok?
      && AbsorbChunk(chunk, ValidateBatch(KeysOf(chunk, requested), answer.value.entries).value, configId, so).Ok?
  {
    var keys := KeysOf(chunk, requested);
    assert AnswersExactly(p.entries(n, keys), keys);
    var entries := p.entries(n, keys).value.entries;
    assert ServesBatch(p.entries(n, keys), keys, s => ledger);
    forall k | k in keys ensures KeyXdr(k).Some? {
      var i :| 0 <= i < |keys| && keys[i] == k;
      assert chunk[i] in chunk;
    }
    ExactValidates(keys, entries);
    var returned := ValidateBatch(keys, entries).value;
    if configId in chunk {
      var i :| 0 <= i < |chunk| && chunk[i] == configId;
      ArchivalKeyRequested(requested, configId);
      assert keys[i] == STATE_ARCHIVAL_KEY;
      BatchIsLookup(ledger, keys, entries, STATE_ARCHIVAL_KEY, configId);
    }
    ChunkAbsorbs(chunk, returned, configId, so);
  }

  lemma {:induction false} ChunksSucceed(p: Provider, config: Settings, n: nat, configId: KeyId, requested: Keys,
                                         ids: seq<KeyId>, so: Fetched, ledger: ChainLedger)
    requires Reliable(p, config, ledger) && SettingsOf(ledger).Some? && Request(requested, configId)
    requires forall id | id in ids :: id in requested
    ensures FetchChunks(p, n, ledger.anchor.sequence, configId, requested, ids, so).0.Ok?
    decreases |ids|
  {
    hide Reliable, SettingsOf, Request, ValidateBatch, AbsorbChunk, KeysOf;
    if ids != [] {
      var k := FirstChunk(ids);
      var chunk := ids[..k];
      assert forall id | id in chunk :: id in ids;
      assert forall id | id in ids[k..] :: id in ids;
      ChunkSucceeds(p, config, n, configId, requested, chunk, so, ledger);
      var entries := p.entries(n, KeysOf(chunk, requested)).value.entries;
      var next := AbsorbChunk(chunk, ValidateBatch(KeysOf(chunk, requested), entries).value, configId, so).value;
      ChunksSucceed(p, config, n + 1, configId, requested, ids[k..], next, ledger);
    }
  }

  /** What was looked up in a valid ledger under capturable keys passes validation. */
  lemma LookupsValidate(config: Settings, ledger: ChainLedger, keys: Keys, configId: KeyId, got: Fetched)
    requires Valid(config, ledger) && Holdable(keys) && KeyXdr(STATE_ARCHIVAL_KEY) == Some(configId)
    requires FetchedFrom(got, keys[configId := STATE_ARCHIVAL_KEY], configId, ledger)
    ensures ValidateCoverage(got.coverage, ledger.anchor.sequence, SettingsOf(ledger).value.maxEntryTtl).Ok?
  {
    hide CheckState, ValidateCoverage, ExecutableOf, Executes;
    forall id | id in got.coverage
      ensures CheckState(id, got.coverage[id], ledger.anchor.sequence, SettingsOf(ledger).value.maxEntryTtl).Ok?
    {
      var key := keys[id];
      assert got.coverage[id] == ledger.Lookup(key);
      if key in ledger.values {
        assert SoundEntry(ledger, key, ledger.anchor.sequence, SettingsOf(ledger).value.maxEntryTtl);
      } else {
        AbsentChecks(id, ledger.anchor.sequence, SettingsOf(ledger).value.maxEntryTtl);
      }
    }
  }

  lemma AbsentChecks(id: KeyId, sequence: u32, maxEntryTtl: u32)
    ensures CheckState(id, Absent, sequence, maxEntryTtl).Ok?
  {
  }

  lemma AttemptSucceeds(config: Settings, p: Provider, n: nat, configId: KeyId, keys: Keys, ledger: ChainLedger)
    requires Reliable(p, config, ledger) && Valid(config, ledger) && Holdable(keys)
    requires KeyXdr(STATE_ARCHIVAL_KEY) == Some(configId)
    ensures TryOnce(config, p, n, configId, keys[configId := STATE_ARCHIVAL_KEY]).0.Done?
  {
    var requested := keys[configId := STATE_ARCHIVAL_KEY];
    var none := Fetched(map[], None, true);
    WellKeyedWith(keys, configId);
    hide FetchChunks, FetchedFrom, ValidateCoverage, Holdable, WellKeyed, Valid, SoundEntry;
    assert p.latest(n) == Ok(ledger.anchor);
    assert config.policy.Accepts(ledger.anchor.protocolVersion)
        && SettingsOf(ledger).Some? by { ValidHas(config, ledger); }
    assert Unchanging(p, ledger);
    UnchangingIsHonest(p, ledger);
    ChunksSucceed(p, config, n + 1, configId, requested, Sorted(requested.Keys), none, ledger);
    ChunksAlwaysMatch(p, n + 1, configId, requested, Sorted(requested.Keys), none, ledger);
    var (fetched, m) := FetchChunks(p, n + 1, ledger.anchor.sequence, configId, requested, Sorted(requested.Keys),
        none);
    ChunksCover(p, n + 1, ledger.anchor.sequence, configId, requested, Sorted(requested.Keys), none);
    AllChunksFromOneLedger(p, n + 1, ledger.anchor.sequence, configId, requested, fetched.value, s => ledger);
    assert p.latest(m) == Ok(ledger.anchor);
    LookupsValidate(config, ledger, keys, configId, fetched.value);
    ArchivalFetched(fetched.value, requested, configId, ledger);
  }

  lemma ValidHas(config: Settings, ledger: ChainLedger)
    requires Valid(config, ledger)
    ensures config.policy.Accepts(ledger.anchor.protocolVersion) && SettingsOf(ledger).Some?
    ensures KeyXdr(STATE_ARCHIVAL_KEY).Some?
  {
  }

  lemma ArchivalFetched(got: Fetched, requested: Keys, configId: KeyId, ledger: ChainLedger)
    requires FetchedFrom(got, requested, configId, ledger) && got.archival.Some?
    ensures SettingsOf(ledger) == got.archival
  {
  }

  /** Against a reliable provider of a valid ledger, capturable keys are materialized at the first attempt. */
  lemma MaterializeSucceeds(config: Settings, p: Provider, n: nat, keys: Keys, ledger: ChainLedger)
    requires Reliable(p, config, ledger) && Valid(config, ledger) && Holdable(keys) && config.maxCoherenceAttempts > 0
    ensures Materialize(config, p, n, keys).0.Ok?
  {
    hide TryOnce, Reliable, Valid, Holdable;
    ValidHas(config, ledger);
    AttemptSucceeds(config, p, n, KeyXdr(STATE_ARCHIVAL_KEY).value, keys, ledger);
  }

  // ----- The closure succeeds -----

  /** A captured key of the ledger is Present, with the ledger's value. */
  lemma HeldIsLookup(ledger: ChainLedger, keys: Keys, coverage: Coverage, key: LedgerKey)
    requires OnLedger(coverage, keys, ledger) && Holdable(keys) && key in ledger.values
    requires KeyXdr(key).Some? && KeyXdr(key).value in keys
    ensures IsPresent(coverage, key) && coverage[KeyXdr(key).value] == ledger.Lookup(key)
  {
    HoldableNoConfig(keys);
    KeyXdrInjective(keys[KeyXdr(key).value], key);
  }

  predicate HeldByLedger(ledger: ChainLedger, key: LedgerKey) {
    key in ledger.values && IsCapturable(key)
  }

  lemma HeldEncodes(config: Settings, ledger: ChainLedger, key: LedgerKey)
    requires Valid(config, ledger) && HeldByLedger(ledger, key)
    ensures KeyXdr(key).Some?
  {
    assert SoundEntry(ledger, key, ledger.anchor.sequence, SettingsOf(ledger).value.maxEntryTtl);
  }

  lemma StateExecutes(config: Settings, ledger: ChainLedger, keys: Keys, coverage: Coverage, id: KeyId)
    requires Valid(config, ledger) && OnLedger(coverage, keys, ledger) && Holdable(keys) && id in coverage
    ensures ExecutableOf(coverage[id]).Some? ==> Executes(ledger, ExecutableOf(coverage[id]).value)
  {
    hide CheckState, Executes;
    if coverage[id].Present? {
      assert SoundEntry(ledger, keys[id], ledger.anchor.sequence, SettingsOf(ledger).value.maxEntryTtl);
    }
  }

  /** What one captured state requires can be named, and is in the ledger. */
  lemma StateRequirement(config: Settings, ledger: ChainLedger, keys: Keys, coverage: Coverage, id: KeyId)
    requires Valid(config, ledger) && OnLedger(coverage, keys, ledger) && Holdable(keys) && id in coverage
    ensures RequiredByState(coverage, coverage[id]).Ok?
    ensures forall key | key in RequiredByState(coverage, coverage[id]).value :: HeldByLedger(ledger, key)
  {
    StateExecutes(config, ledger, keys, coverage, id);
    var executable := ExecutableOf(coverage[id]);
    if executable.Some? && executable.value.ExternalRef? {
      var reference := ReferenceKey(executable.value.owner, executable.value.tag);
      HeldEncodes(config, ledger, reference);
      hide Valid, OnLedger, Holdable;
      if KeyXdr(reference).value in coverage {
        CoveredIsKey(ledger, keys, coverage, KeyXdr(reference).value);
        HeldIsLookup(ledger, keys, coverage, reference);
      }
    }
  }

  lemma CoveredIsKey(ledger: ChainLedger, keys: Keys, coverage: Coverage, id: KeyId)
    requires OnLedger(coverage, keys, ledger) && id in coverage
    ensures id in keys
  {
  }

  lemma {:induction false} StatesRequire(coverage: Coverage, ids: seq<KeyId>)
    requires forall id | id in ids :: id in coverage && RequiredByState(coverage, coverage[id]).Ok?
    ensures RequiredByStates(coverage, ids).Ok?
  {
    hide RequiredByState;
    if ids != [] {
      StatesRequire(coverage, ids[1..]);
    }
  }

  lemma {:induction false} AddsAll(keys: Keys, required: seq<LedgerKey>)
    requires forall key | key in required :: KeyXdr(key).Some?
    ensures AddKeys(keys, required).Ok?
  {
    if required != [] {
      assert forall key | key in required[..|required| - 1] :: key in required;
      AddsAll(keys, required[..|required| - 1]);
      assert required[|required| - 1] in required;
    }
  }

  /** All requirements of a coverage can be added, and stay capturable. */
  lemma RequirementsAdd(config: Settings, ledger: ChainLedger, keys: Keys, coverage: Coverage)
    requires Valid(config, ledger) && OnLedger(coverage, keys, ledger) && Holdable(keys)
    ensures RequiredKeys(coverage).Ok?
    ensures forall key | key in RequiredKeys(coverage).value :: HeldByLedger(ledger, key)
    ensures AddKeys(keys, RequiredKeys(coverage).value).Ok?
    ensures Holdable(AddKeys(keys, RequiredKeys(coverage).value).value)
  {
    hide RequiredByState, Valid, OnLedger, AddKeys, RequiredKeys, Holdable, Widens, HeldByLedger;
    RequirementsHeld(config, ledger, keys, coverage);
    var required := RequiredKeys(coverage).value;
    forall key | key in required ensures KeyXdr(key).Some? {
      HeldEncodes(config, ledger, key);
    }
    AddsAll(keys, required);
    HoldableWellKeyed(keys);
    RequiredWiden(keys, coverage);
    HoldableWidens(keys, AddKeys(keys, required).value);
  }

  /** The requirements of a coverage can be named, and are all in the ledger. */
  lemma RequirementsHeld(config: Settings, ledger: ChainLedger, keys: Keys, coverage: Coverage)
    requires Valid(config, ledger) && OnLedger(coverage, keys, ledger) && Holdable(keys)
    ensures RequiredKeys(coverage).Ok?
    ensures forall key | key in RequiredKeys(coverage).value :: HeldByLedger(ledger, key)
  {
    hide RequiredByState, Valid, OnLedger, Holdable, HeldByLedger, RequiredByStates;
    forall id | id in coverage
      ensures RequiredByState(coverage, coverage[id]).Ok?
      ensures forall key | key in RequiredByState(coverage, coverage[id]).value :: HeldByLedger(ledger, key)
    {
      StateRequirement(config, ledger, keys, coverage, id);
    }
    var ids := Sorted(coverage.Keys);
    assert forall id | id in ids :: id in coverage;
    StatesRequire(coverage, ids);
    forall key | key in RequiredKeys(coverage).value ensures HeldByLedger(ledger, key) {
      RequiredKeysMembers(coverage, key);
    }
  }

  lemma HoldableWidens(keys: Keys, wider: Keys)
    requires Holdable(keys) && Widens(keys, wider)
    ensures Holdable(wider)
  {
  }

  /** When nothing is added, every executable runs from the coverage. */
  lemma ClosedWhenNothingAdded(config: Settings, ledger: ChainLedger, keys: Keys, coverage: Coverage)
    requires Valid(config, ledger) && OnLedger(coverage, keys, ledger) && Holdable(keys)
    requires RequiredKeys(coverage).Ok? && AddKeys(keys, RequiredKeys(coverage).value).Ok?
    requires AddKeys(keys, RequiredKeys(coverage).value).value.Keys == keys.Keys
    ensures EnsureClosure(coverage).Ok?
  {
    hide *;
    forall id | id in coverage && ExecutableOf(coverage[id]).Some?
      ensures Runnable(coverage, ExecutableOf(coverage[id]).value)
    {
      StateExecutes(config, ledger, keys, coverage, id);
      StateRequirement(config, ledger, keys, coverage, id);
      StateRuns(config, ledger, keys, coverage, id);
    }
    EnsureClosureMeansRunnable(coverage);
  }

  lemma StateRuns(config: Settings, ledger: ChainLedger, keys: Keys, coverage: Coverage, id: KeyId)
    requires Valid(config, ledger) && OnLedger(coverage, keys, ledger) && Holdable(keys)
    requires RequiredKeys(coverage).Ok? && AddKeys(keys, RequiredKeys(coverage).value).Ok?
    requires AddKeys(keys, RequiredKeys(coverage).value).value.Keys == keys.Keys
    requires id in coverage && ExecutableOf(coverage[id]).Some? && RequiredByState(coverage, coverage[id]).Ok?
    requires forall key | key in RequiredByState(coverage, coverage[id]).value :: HeldByLedger(ledger, key)
    requires Executes(ledger, ExecutableOf(coverage[id]).value)
    ensures Runnable(coverage, ExecutableOf(coverage[id]).value)
  {
    hide Valid, OnLedger, Holdable, RequiredKeys, AddKeys, HeldByLedger;
    var executable := ExecutableOf(coverage[id]).value;
    if executable.Wasm? {
      RequiredIsHeld(config, ledger, keys, coverage, id, CodeKey(executable.hash));
    } else if executable.ExternalRef? {
      var reference := ReferenceKey(executable.owner, executable.tag);
      RequiredIsHeld(config, ledger, keys, coverage, id, reference);
      RequiredIsHeld(config, ledger, keys, coverage, id, CodeKey(ledger.values[reference].entry.data.val.bytes));
    }
  }

  lemma RequiredIsHeld(config: Settings, ledger: ChainLedger, keys: Keys, coverage: Coverage, id: KeyId, key: LedgerKey)
    requires Valid(config, ledger) && OnLedger(coverage, keys, ledger) && Holdable(keys)
    requires RequiredKeys(coverage).Ok? && AddKeys(keys, RequiredKeys(coverage).value).Ok?
    requires AddKeys(keys, RequiredKeys(coverage).value).value.Keys == keys.Keys
    requires id in coverage && RequiredByState(coverage, coverage[id]).Ok?
    requires key in RequiredByState(coverage, coverage[id]).value && HeldByLedger(ledger, key)
    ensures IsPresent(coverage, key) && coverage[KeyXdr(key).value] == ledger.Lookup(key)
  {
    HeldEncodes(config, ledger, key);
    hide Valid, RequiredByState, AddKeys, OnLedger;
    RequiredKeysMembers(coverage, key);
    AddedKeys(keys, RequiredKeys(coverage).value);
    HeldIsLookup(ledger, keys, coverage, key);
  }

  /** One round of the closure has no error to report. */
  lemma RoundRequirement(config: Settings, keys: Keys, m: Materialized, ledger: ChainLedger)
    requires Valid(config, ledger) && Holdable(keys) && Coherent(m, config, keys, s => ledger)
    ensures RequiredKeys(m.coverage).Ok? && AddKeys(keys, RequiredKeys(m.coverage).value).Ok?
    ensures var wider := AddKeys(keys, RequiredKeys(m.coverage).value).value;
      Holdable(wider) && (wider.Keys == keys.Keys ==> EnsureClosure(m.coverage).Ok?)
  {
    HoldableWellKeyed(keys);
    CoherentOnLedger(m, config, keys, s => ledger);
    hide *;
    RequirementsAdd(config, ledger, keys, m.coverage);
    if AddKeys(keys, RequiredKeys(m.coverage).value).value.Keys == keys.Keys {
      ClosedWhenNothingAdded(config, ledger, keys, m.coverage);
    }
  }

  /** Every error of the closure is a limit. */
  lemma {:induction false} ExpandFailsOnlyAtLimit(config: Settings, p: Provider, n: nat, keys: Keys, m: Materialized,
                                                  round: nat, ledger: ChainLedger)
    requires Reliable(p, config, ledger) && Valid(config, ledger) && config.maxCoherenceAttempts > 0
    requires Holdable(keys) && Coherent(m, config, keys, s => ledger)
    ensures var r := Expand(config, p, n, keys, m, round).0;
      && (r.Err? ==> r.error.IsLimit())
      && (r.Ok? ==> Holdable(r.value.0))
    decreases MAX_EXECUTABLE_CLOSURE_ROUNDS + 1 - round
  {
    hide Reliable, Valid, Holdable, Coherent, OnLedger, RequiredKeys, AddKeys, EnsureClosure, Materialize, Unchanging;
    RoundRequirement(config, keys, m, ledger);
    var wider := AddKeys(keys, RequiredKeys(m.coverage).value).value;
    if wider.Keys != keys.Keys && round < MAX_EXECUTABLE_CLOSURE_ROUNDS {
      ReliableIsUnchanging(p, config, ledger);
      MaterializeSucceeds(config, p, n, wider, ledger);
      HoldableWellKeyed(wider);
      UnchangingNeverIncoherent(config, p, n, wider, ledger);
      var (next, k) := Materialize(config, p, n, wider);
      ExpandFailsOnlyAtLimit(config, p, k, wider, next.value, round + 1, ledger);
    }
  }

  lemma ReliableIsUnchanging(p: Provider, config: Settings, ledger: ChainLedger)
    requires Reliable(p, config, ledger)
    ensures Unchanging(p, ledger)
  {
  }

  lemma HoldableWellKeyed(keys: Keys)
    requires Holdable(keys)
    ensures WellKeyed(keys)
  {
  }

  /** Fetching capturable keys and closing over executables always succeeds. */
  lemma RefetchSucceeds(config: Settings, p: Provider, n: nat, keys: Keys, ledger: ChainLedger)
    requires Reliable(p, config, ledger) && Valid(config, ledger) && config.maxCoherenceAttempts > 0 && Holdable(keys)
    ensures var r := Refetch(config, p, n, keys).0;
      && r.Ok? && Holdable(r.value.0) && Ready(config, p, r.value.0, r.value.1) && Grows(keys, r.value.0)
  {
    ReliableIsUnchanging(p, config, ledger);
    HoldableWellKeyed(keys);
    HoldableNoConfig(keys);
    hide Reliable, Valid, Holdable, Coherent, Expand, Materialize, Unchanging, WellKeyed, NoConfig, Ready, Grows;
    MaterializeSucceeds(config, p, n, keys, ledger);
    UnchangingNeverIncoherent(config, p, n, keys, ledger);
    var (m, k) := Materialize(config, p, n, keys);
    ExpandFailsOnlyAtLimit(config, p, k, keys, m.value, 0, ledger);
    RefetchSettles(config, p, n, keys, ledger);
  }

  // ----- Passes succeed -----

  lemma GetSucceeds(p: Provider, config: Settings, s: Source, n: nat, key: LedgerKey, ledger: ChainLedger)
    requires Reliable(p, config, ledger) && s.failure.None? && KeyXdr(key).Some?
    ensures SourceGet(Some(p), s, n, key).0.failure.None?
  {
    hide ValidateBatch, ExactBatch, Unchanging;
    assert AnswersExactly(p.entries(n, [key]), [key]);
    ExactValidates([key], p.entries(n, [key]).value.entries);
  }

  /** When everything the ledger's run reads can be encoded, a pass does not fail. */
  lemma {:induction false} PassSucceeds(p: Provider, config: Settings, scenario: Scenario, st: Pass,
                                        ledger: ChainLedger)
    requires Reliable(p, config, ledger) && CacheOn(st.source.cache, ledger) && st.source.failure.None?
    requires forall k | k in DirectReads(ledger, scenario, Observed(st)) :: KeyXdr(k).Some?
    ensures Run(Some(p), scenario, st).source.failure.None?
    decreases scenario.rank(st.history)
  {
    hide Reliable, SourceGet, CacheOn, Unchanging;
    var action := scenario.next(st.history);
    if !action.End? {
      var next := Act(Some(p), action, st);
      ActGrowsHistory(Some(p), action, st);
      if action.Read? {
        assert action.key in DirectReads(ledger, scenario, Observed(st));
        GetSucceeds(p, config, st.source, st.n, action.key, ledger);
      }
      ReliableIsUnchanging(p, config, ledger);
      ActStaysOnLedger(p, action, st, ledger);
      ReadsGoOn(ledger, scenario, Observed(st));
      PassSucceeds(p, config, scenario, next, ledger);
    }
  }

  /** What is read after one action is among what is read in all. */
  lemma ReadsGoOn(ledger: ChainLedger, scenario: Scenario, run: DirectRun)
    requires !scenario.next(run.history).End?
    ensures forall k | k in DirectReads(ledger, scenario, ActDirectly(ledger, scenario.next(run.history), run)) ::
              k in DirectReads(ledger, scenario, run)
  {
  }

  /** A pass requests only what it reads. */
  lemma {:induction false} RequestedAreRead(p: Provider, scenario: Scenario, st: Pass, ledger: ChainLedger,
                                            all: seq<LedgerKey>)
    requires Unchanging(p, ledger) && CacheOn(st.source.cache, ledger)
    requires Run(Some(p), scenario, st).source.failure.None?
    requires forall id | id in st.source.requested :: st.source.requested[id] in all
    requires forall k | k in DirectReads(ledger, scenario, Observed(st)) :: k in all
    ensures var s := Run(Some(p), scenario, st).source; forall id | id in s.requested :: s.requested[id] in all
    decreases scenario.rank(st.history)
  {
    hide SourceGet, Unchanging, CacheOn;
    var action := scenario.next(st.history);
    if !action.End? {
      var next := Act(Some(p), action, st);
      ActGrowsHistory(Some(p), action, st);
      FailureStays(Some(p), scenario, next);
      ActStaysOnLedger(p, action, st, ledger);
      ReadsGoOn(ledger, scenario, Observed(st));
      if action.Read? {
        assert action.key in DirectReads(ledger, scenario, Observed(st));
        GetOnLedger(p, st.source, st.n, action.key, ledger);
      }
      RequestedAreRead(p, scenario, next, ledger, all);
    }
  }

  // ----- The fate of a capture -----

  /** Encodable, and of a kind a capture can hold, or the archival key itself. */
  predicate IsTouchable(key: LedgerKey) {
    KeyXdr(key).Some? && (key == STATE_ARCHIVAL_KEY || IsCapturable(key))
  }

  /** Answered by the ledger, the scenario reads and leaves stored only touchable keys, its own aside. */
  predicate TouchesCapturable(config: Settings, ledger: ChainLedger, program: Program) {
    var run := RunOnLedger(config, ledger, program);
    && (forall k | k in ReadsOnLedger(config, ledger, program) :: IsTouchable(k))
    && (forall k | k in run.stored && !run.local.Owns(k) :: IsTouchable(k))
  }

  /** How the ledger's run ends. */
  function EndOnLedger(config: Settings, ledger: ChainLedger, program: Program): Action
    requires SettingsOf(ledger).Some?
  {
    ScenarioOn(config, ledger, program).next(RunOnLedger(config, ledger, program).history)
  }

  /** What the ledger's run comes to, once nothing new is found. */
  function Fate(config: Settings, ledger: ChainLedger, program: Program): Result<(), CaptureError>
    requires SettingsOf(ledger).Some?
  {
    var end := EndOnLedger(config, ledger, program);
    if end.End? && !end.inspectable then Err(HostInspection)
    else if end.End? && end.panicked then Err(ScenarioPanicked)
    else if STATE_ARCHIVAL_KEY in ReadsOnLedger(config, ledger, program) then Err(InternalInvariant)
    else Ok(())
  }

  /** Everything a round needs from outside. */
  ghost predicate Favourable(config: Settings, p: Provider, program: Program, ledger: ChainLedger) {
    && Reliable(p, config, ledger) && Valid(config, ledger) && config.maxCoherenceAttempts > 0
    && Blind(program) && TouchesCapturable(config, ledger, program)
  }

  /** Any pass over captured state is the ledger's own run. */
  lemma PassOnLedger(config: Settings, p: Provider, n: nat, program: Program, keys: Keys, m: Materialized,
                     ledger: ChainLedger)
    requires Favourable(config, p, program, ledger) && Ready(config, p, keys, m)
    ensures SettingsOf(ledger).Some?
    ensures var pass := RunPass(p, n, program, m);
      && pass.source.failure.None?
      && Observed(pass) == RunOnLedger(config, ledger, program)
      && EndOf(program, m, pass) == EndOnLedger(config, ledger, program)
      && (AskedArchival(pass.source) <==> STATE_ARCHIVAL_KEY in ReadsOnLedger(config, ledger, program))
      && (forall id | id in pass.source.requested ::
            pass.source.requested[id] in ReadsOnLedger(config, ledger, program))
  {
    ReliableIsUnchanging(p, config, ledger);
    ValidHas(config, ledger);
    ReadyOnLedger(config, p, keys, m, ledger);
    BlindInput(program, m.info, m.coverage, map[]);
    FreshPassAskedNothing(m.coverage, n);
    hide Ready, Reliable, Valid, Blind, Unchanging, CacheOn, Run, RunDirectly, DirectReads, AskedArchival, InputOf,
         IsTouchable;
    var scenario := program(InputOf(m.info, m.coverage));
    var start := NewPass(m.coverage, n);
    assert scenario == ScenarioOn(config, ledger, program);
    assert Observed(start) == FRESH_RUN;
    forall k | k in DirectReads(ledger, scenario, Observed(start)) ensures KeyXdr(k).Some? {
      TouchableEncodes(k);
    }
    PassSucceeds(p, config, scenario, start, ledger);
    PassIsDirect(p, scenario, start, ledger);
    AskedOnLedger(p, scenario, start, ledger);
    RequestedAreRead(p, scenario, start, ledger, DirectReads(ledger, scenario, Observed(start)));
  }

  lemma TouchableEncodes(key: LedgerKey)
    requires IsTouchable(key)
    ensures KeyXdr(key).Some?
  {
  }

  lemma TouchedCapturable(config: Settings, ledger: ChainLedger, program: Program, pass: Pass)
    requires TouchesCapturable(config, ledger, program) && Observed(pass) == RunOnLedger(config, ledger, program)
    requires WellKeyed(pass.source.requested)
    requires forall id | id in pass.source.requested ::
               pass.source.requested[id] in ReadsOnLedger(config, ledger, program)
    ensures Encodes(pass.stored, pass.source.local) && Holdable(NetworkKeys(Touched(pass)))
  {
    hide RunOnLedger, ReadsOnLedger;
    assert Encodes(pass.stored, pass.source.local);
    TouchedWellKeyed(pass);
    hide WellKeyed;
    var network := NetworkKeys(Touched(pass));
    forall id | id in network ensures IsCapturable(network[id]) {
      assert IsTouchable(network[id]) && network[id] != STATE_ARCHIVAL_KEY;
    }
  }

  lemma HoldableUnion(a: Keys, b: Keys)
    requires Holdable(a) && Holdable(b)
    ensures Holdable(a + b)
  {
  }

  /** The verdict on a pass: more keys that a capture can hold, or the fate of the ledger's run. */
  lemma VerdictOnLedger(config: Settings, p: Provider, n: nat, program: Program, keys: Keys, m: Materialized,
                        ledger: ChainLedger)
    requires Favourable(config, p, program, ledger) && Ready(config, p, keys, m) && Holdable(keys)
    ensures SettingsOf(ledger).Some? && EndOf(program, m, RunPass(p, n, program, m)).End?
    ensures var pass := RunPass(p, n, program, m);
      match Judge(keys, pass, EndOf(program, m, pass))
      case More(wider) => Holdable(wider) && EndOf(program, m, pass).inspectable
      case Stop(e) => Fate(config, ledger, program) == Err(e)
      case Fixed => Fate(config, ledger, program) == Ok(())
  {
    PassEnds(p, n, program, m);
    PassOnLedger(config, p, n, program, keys, m, ledger);
    PassWellKeyed(p, n, program, m);
    var pass := RunPass(p, n, program, m);
    var end := EndOf(program, m, pass);
    hide Ready, RunPass, RunOnLedger, ReadsOnLedger, EndOnLedger, EndOf, Reliable, Valid, Blind, AskedArchival;
    TouchedCapturable(config, ledger, program, pass);
    hide Touched, NetworkKeys, TouchesCapturable;
    HoldableUnion(keys, NetworkKeys(Touched(pass)));
    ConfigIdMeansAsked(pass.source);
    if end.inspectable && (keys + NetworkKeys(Touched(pass))).Keys == keys.Keys {
      InternalInvariantMeansArchivalRead(config, p, n, program, keys, m);
    }
  }

  // ----- The fixture is made -----

  lemma {:induction false} SnapshotEncodes(ids: seq<KeyId>, coverage: Coverage)
    requires forall id | id in ids :: id in coverage && Encodable(coverage[id])
    requires SnapshotEntriesOf(ids, coverage).Ok?
    requires forall i, j | 0 <= i < j < |ids| :: ids[i] != ids[j]
    ensures var records := EncodeEntries(SnapshotEntriesOf(ids, coverage).value);
      && records.Ok? && Distinct(records.value)
      && forall r | r in records.value :: r.id in ids
  {
    if ids != [] {
      hide EncodeEntries, Distinct, Encodable;
      var n := |ids| - 1;
      assert ids[n] in ids && forall id | id in ids[..n] :: id in ids;
      SnapshotEncodes(ids[..n], coverage);
      var rest, entries := SnapshotEntriesOf(ids[..n], coverage).value, SnapshotEntriesOf(ids, coverage).value;
      if coverage[ids[n]].Present? {
        assert entries == rest + [entries[|entries| - 1]];
        assert ids[n] !in ids[..n];
        EncodesOneMore(rest, entries[|entries| - 1], ids[n], coverage[ids[n]]);
      } else {
        assert entries == rest;
      }
    } else {
      assert EncodeEntries([]) == Ok([]);
    }
  }

  lemma EncodesOneMore(rest: seq<SnapshotEntry>, e: SnapshotEntry, id: KeyId, state: LookupState)
    requires EncodeEntries(rest).Ok? && Distinct(EncodeEntries(rest).value)
    requires state.Present? && Encodable(state) && e.value.entry == state.entry && e.key == state.entry.ToKey()
    requires KeyXdr(e.key) == Some(id) && forall r | r in EncodeEntries(rest).value :: r.id != id
    ensures var records := EncodeEntries(rest + [e]);
      && records.Ok? && Distinct(records.value)
      && forall r | r in records.value :: r in EncodeEntries(rest).value || r.id == id
  {
    assert (rest + [e])[..|rest|] == rest;
    var records := EncodeEntries(rest).value;
    assert forall i | 0 <= i < |records| :: records[i] in records;
  }

  lemma SnapshotDigests(info: LedgerInfo, coverage: Coverage)
    requires Validated(coverage, info) && AllEncodable(coverage)
    ensures SnapshotOf(info, coverage).Ok? && LedgerDigest(SnapshotOf(info, coverage).value).Ok?
  {
    SnapshotNeverFails(coverage, info);
    hide Validated, EncodeEntries, SnapshotEntriesOf, DuplicateIds, Distinct, Encodable;
    var ids := Sorted(coverage.Keys);
    assert forall id | id in ids :: id in coverage;
    DistinctIds(ids);
    SnapshotEncodes(ids, coverage);
    DistinctMeansNoDuplicates(EncodeEntries(SnapshotEntriesOf(ids, coverage).value).value);
  }

  lemma DistinctIds(ids: seq<KeyId>)
    requires StrictlySorted(ids)
    ensures forall i, j | 0 <= i < j < |ids| :: ids[i] != ids[j]
  {
    forall i, j | 0 <= i < j < |ids| ensures ids[i] != ids[j] {
      LessIrreflexive(ids[i]);
    }
  }

  lemma LookupsEncode(config: Settings, ledger: ChainLedger, keys: Keys, coverage: Coverage)
    requires Valid(config, ledger) && OnLedger(coverage, keys, ledger) && Holdable(keys)
    ensures AllEncodable(coverage)
  {
    hide CheckState, ExecutableOf, Executes;
    forall id | id in coverage ensures Encodable(coverage[id]) {
      if coverage[id].Present? {
        assert SoundEntry(ledger, keys[id], ledger.anchor.sequence, SettingsOf(ledger).value.maxEntryTtl);
      }
    }
  }

  lemma SealSucceeds(config: Settings, p: Provider, keys: Keys, m: Materialized, round: nat, ledger: ChainLedger)
    requires Unchanging(p, ledger) && Valid(config, ledger) && Holdable(keys) && Ready(config, p, keys, m)
    ensures Seal(config, m, round).Ok?
  {
    UnchangingIsHonest(p, ledger);
    ReadyIsCoherent(config, p, keys, m, s => ledger);
    ReadyKeys(config, p, keys, m);
    CoherentOnLedger(m, config, keys, s => ledger);
    hide Valid, Holdable, Ready, Unchanging, Honest, OnLedger, Validated, AllEncodable, SnapshotOf, LedgerDigest;
    LookupsEncode(config, ledger, keys, m.coverage);
    SnapshotDigests(m.info, m.coverage);
    SnapshotInfo(m.info, m.coverage);
  }

  lemma SnapshotInfo(info: LedgerInfo, coverage: Coverage)
    requires SnapshotOf(info, coverage).Ok?
    ensures SnapshotOf(info, coverage).value.info == info
  {
  }

  // ----- The whole capture -----

  /** A result is what the fate says, in at most `rounds` rounds. */
  predicate IsFated(r: Result<Settled, CaptureError>, fate: Result<(), CaptureError>, rounds: nat) {
    match fate
    case Err(e) => r == Err(e)
    case Ok(_) => r.Ok? && r.value.round <= rounds
  }

  lemma LastRoundIsFated(config: Settings, p: Provider, n: nat, program: Program, keys: Keys, m: Materialized,
                         round: nat,
                         ledger: ChainLedger)
    requires Favourable(config, p, program, ledger) && Ready(config, p, keys, m) && Holdable(keys)
    requires round <= config.maxDiscoveryRounds && SettingsOf(ledger).Some?
    requires var pass := RunPass(p, n, program, m); !Judge(keys, pass, EndOf(program, m, pass)).More?
    ensures IsFated(Rounds(config, p, n, program, keys, m, round).0, Fate(config, ledger, program), round)
  {
    VerdictOnLedger(config, p, n, program, keys, m, ledger);
    ReliableIsUnchanging(p, config, ledger);
    SealSucceeds(config, p, keys, m, round, ledger);
    hide Favourable, Ready, Holdable, RunPass, EndOf, Judge, Seal, Fate, Unchanging, SettingsOf;
  }

  lemma RoundsAreFated(config: Settings, p: Provider, n: nat, program: Program, keys: Keys, m: Materialized,
                       ledger: ChainLedger)
    requires Favourable(config, p, program, ledger) && Ready(config, p, keys, m) && Holdable(keys)
    requires config.maxDiscoveryRounds >= 2 && SettingsOf(ledger).Some?
    ensures IsFated(Rounds(config, p, n, program, keys, m, 1).0, Fate(config, ledger, program), 2)
  {
    VerdictOnLedger(config, p, n, program, keys, m, ledger);
    hide Ready, Holdable, RunPass, EndOf, Judge, Seal, Fate, Refetch, SettingsOf, Reliable, Valid, Blind,
         TouchesCapturable, Grows, Unchanging;
    var pass := RunPass(p, n, program, m);
    var verdict := Judge(keys, pass, EndOf(program, m, pass));
    if verdict.More? {
      ReliableIsUnchanging(p, config, ledger);
      RefetchSucceeds(config, p, pass.n, verdict.keys, ledger);
      var (next, k) := Refetch(config, p, pass.n, verdict.keys);
      SecondPassAddsNothing(config, p, program, ledger, n, keys, m, k, next.value.0, next.value.1);
      LastRoundIsFated(config, p, k, program, next.value.0, next.value.1, 2, ledger);
    } else {
      LastRoundIsFated(config, p, n, program, keys, m, 1, ledger);
    }
  }

  /**
   Against a reliable provider of a valid ledger, a blind scenario that touches only
   capturable keys has one fate, whatever the seed, and the ledger's own run of it tells
   which: the Host cannot be inspected, the scenario panics, it reads the archival key,
   or the capture succeeds, in at most two rounds.
   */
  lemma LedgerDecidesCapture(config: Settings, p: Provider, n: nat, program: Program, seed: Keys, ledger: ChainLedger)
    requires Favourable(config, p, program, ledger) && Holdable(seed) && config.maxDiscoveryRounds >= 2
    ensures SettingsOf(ledger).Some?
    ensures IsFated(CaptureFrom(config, p, n, program, seed).0, Fate(config, ledger, program), 2)
  {
    ValidHas(config, ledger);
    assert p.network(n) == Ok(Network(config.passphrase, ledger.anchor.protocolVersion));
    hide Ready, Holdable, Refetch, Rounds, Fate, SettingsOf, Reliable, Valid, Blind, TouchesCapturable, Grows, IsFated;
    RefetchSucceeds(config, p, n + 1, seed, ledger);
    var (start, k) := Refetch(config, p, n + 1, seed);
    RoundsAreFated(config, p, k, program, start.value.0, start.value.1, ledger);
  }
}
