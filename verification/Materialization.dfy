/**
 Fetching one coherent ledger state for a set of keys (`materialize`,
 src/capture.rs).

 Functions take the number `n` of transport calls made so far and return it
 advanced, so that the provider can answer every call differently.
 */
module Materialization {
  import opened Wrappers
  import opened Bytes
  import opened Ordered
  import opened Ledger
  import opened Fixture
  import opened Errors
  import opened CoverageChecks
  import opened Providers

  const MAX_KEYS_PER_BATCH: nat := 200

  /** The fields of `CaptureBuilder` other than its transport. */
  datatype Settings = Settings(
    passphrase: Vec8, rpcOrigin: Vec8, policy: ProtocolPolicy, maxCoherenceAttempts: nat, maxDiscoveryRounds: nat)

  datatype Materialized = Materialized(anchor: Anchor, info: LedgerInfo, coverage: Coverage)

  datatype Fetched = Fetched(coverage: Coverage, archival: Option<ArchivalSettings>, batchesMatch: bool)

  type Keys = map<KeyId, LedgerKey>

  function Unsupported(found: u32): CaptureError {
    CaptureError.UnsupportedProtocol(found, SUPPORTED_PROTOCOL_VERSION)
  }

  /** `extract_archival`. */
  function ExtractArchival(value: Option<LedgerValue>): Result<ArchivalSettings, CaptureError> {
    match value
    case None => Err(MissingStateArchival)
    case Some(v) =>
      match v.entry.data
      case StateArchivalEntry(settings) => Ok(settings)
      case _ => Err(MalformedRpc(GetLedgerEntries))
  }

  /** One validated chunk: the archival settings are kept apart, all else is coverage. */
  function AbsorbChunk(chunk: seq<KeyId>, returned: map<KeyId, LedgerValue>, configId: KeyId, so: Fetched)
    : (r: Result<Fetched, CaptureError>)
    ensures r.Err? ==> r.error.IsOrdinary()
  {
    if chunk == [] then Ok(so)
    else
      var last := chunk[|chunk| - 1];
      var next :- AbsorbChunk(chunk[..|chunk| - 1], returned, configId, so);
      if last == configId then
        var settings :- ExtractArchival(Get(returned, last));
        Ok(next.(archival := Some(settings)))
      else
        Ok(next.(coverage := next.coverage[last := AsState(Get(returned, last))]))
  }

  function KeysOf(chunk: seq<KeyId>, requested: Keys): (keys: seq<LedgerKey>)
    requires forall id | id in chunk :: id in requested
    ensures |keys| == |chunk|
  {
    seq(|chunk|, i requires 0 <= i < |chunk| => assert chunk[i] in chunk; requested[chunk[i]])
  }

  function FirstChunk(ids: seq<KeyId>): (k: nat)
    ensures k <= |ids| && (ids != [] ==> 0 < k)
  {
    if |ids| < MAX_KEYS_PER_BATCH then |ids| else MAX_KEYS_PER_BATCH
  }

  /** The chunk loop; a batch from another ledger ends it without an error. */
  function FetchChunks(p: Provider, n: nat, sequence: u32, configId: KeyId, requested: Keys, ids: seq<KeyId>,
                       so: Fetched)
    : (r: (Result<Fetched, CaptureError>, nat))
    requires forall id | id in ids :: id in requested
    ensures r.0.Err? ==> r.0.error.IsOrdinary()
    decreases |ids|
  {
    if ids == [] then (Ok(so), n)
    else
      var k := FirstChunk(ids);
      var chunk := ids[..k];
      match p.entries(n, KeysOf(chunk, requested))
      case Err(operation) => (Err(Transport(operation)), n + 1)
      case Ok(batch) =>
        if batch.latestLedger != sequence then (Ok(so.(batchesMatch := false)), n + 1)
        else
          match ValidateBatch(KeysOf(chunk, requested), batch.entries)
          case Err(e) => (Err(e), n + 1)
          case Ok(returned) =>
            match AbsorbChunk(chunk, returned, configId, so)
            case Err(e) => (Err(e), n + 1)
            case Ok(next) => FetchChunks(p, n + 1, sequence, configId, requested, ids[k..], next)
  }

  function InfoOf(config: Settings, anchor: Anchor, archival: ArchivalSettings): LedgerInfo {
    LedgerInfo(anchor.protocolVersion, anchor.sequence, anchor.timestamp, Sha256(config.passphrase), anchor.baseReserve,
               archival.minPersistentTtl, archival.minTemporaryTtl, archival.maxEntryTtl)
  }

  datatype Attempt = Retry | Done(value: Materialized) | Failed(error: CaptureError)

  /** One coherence attempt: anchor, all batches, anchor again. */
  function TryOnce(config: Settings, p: Provider, n: nat, configId: KeyId, requested: Keys): (r: (Attempt, nat))
    ensures r.0.Failed? ==> r.0.error.IsOrdinary()
  {
    match p.latest(n)
    case Err(operation) => (Failed(Transport(operation)), n + 1)
    case Ok(before) =>
      if !config.policy.Accepts(before.protocolVersion) then (Failed(Unsupported(before.protocolVersion)), n + 1)
      else
        var (fetched, m) := FetchChunks(p, n + 1, before.sequence, configId, requested, Sorted(requested.Keys),
                                        Fetched(map[], None, true));
        match fetched
        case Err(e) => (Failed(e), m)
        case Ok(got) =>
          match p.latest(m)
          case Err(operation) => (Failed(Transport(operation)), m + 1)
          case Ok(after) => (Settle(config, before, after, got), m + 1)
  }

  function Settle(config: Settings, before: Anchor, after: Anchor, got: Fetched): Attempt {
    if !got.batchesMatch || before != after then Retry
    else
      match got.archival
      case None => Failed(MissingStateArchival)
      case Some(archival) =>
        match ValidateCoverage(got.coverage, before.sequence, archival.maxEntryTtl)
        case Err(e) => Failed(e)
        case Ok(_) => Done(Materialized(before, InfoOf(config, before, archival), got.coverage))
  }

  function Attempts(config: Settings, p: Provider, n: nat, configId: KeyId, requested: Keys, left: nat)
    : (r: (Result<Materialized, CaptureError>, nat))
    ensures r.0.Err? ==> r.0.error.IsOrdinary() || r.0.error.IncoherentLedger?
    decreases left
  {
    if left == 0 then (Err(IncoherentLedger(config.maxCoherenceAttempts)), n)
    else
      var (attempt, m) := TryOnce(config, p, n, configId, requested);
      match attempt
      case Retry => Attempts(config, p, m, configId, requested, left - 1)
      case Done(value) => (Ok(value), m)
      case Failed(e) => (Err(e), m)
  }

  /** `materialize`. */
  function Materialize(config: Settings, p: Provider, n: nat, keys: Keys): (r: (Result<Materialized, CaptureError>,
                       nat))
    ensures r.0.Err? ==> r.0.error.IsOrdinary() || r.0.error.IncoherentLedger?
  {
    match KeyXdr(STATE_ARCHIVAL_KEY)
    case None => (Err(Xdr), n)
    case Some(configId) =>
      Attempts(config, p, n, configId, keys[configId := STATE_ARCHIVAL_KEY], config.maxCoherenceAttempts)
  }

  // ----- Single-ledger coherence -----

  /** `m` is one ledger's answer on exactly the given keys, the archival config aside. */
  ghost predicate CoherentWith(m: Materialized, config: Settings, keys: Keys, ledger: ChainLedger) {
    && m.anchor == ledger.anchor
    && (forall id :: id in m.coverage <==> id in keys && !IsConfigId(id))
    && (forall id | id in m.coverage :: m.coverage[id] == ledger.Lookup(keys[id]))
    && ledger.Lookup(STATE_ARCHIVAL_KEY).Present?
    && ledger.Lookup(STATE_ARCHIVAL_KEY).entry.data.StateArchivalEntry?
    && m.info == InfoOf(config, ledger.anchor, ledger.Lookup(STATE_ARCHIVAL_KEY).entry.data.settings)
  }

  /** `m` comes from the one ledger of the chain that its own anchor names, and has been validated. */
  ghost predicate Coherent(m: Materialized, config: Settings, keys: Keys, chain: Chain) {
    && CoherentWith(m, config, keys, chain(m.anchor.sequence))
    && Validated(m.coverage, m.info)
    && config.policy.Accepts(m.anchor.protocolVersion)
    && m.anchor.hash != []
  }

  /**
   What the code itself makes sure of, whatever the provider does: coverage of exactly
   the requested keys, checked, under an anchor that was reported and accepted.
   */
  ghost predicate Fits(m: Materialized, config: Settings, keys: Keys, p: Provider) {
    && (forall id :: id in m.coverage <==> id in keys && !IsConfigId(id))
    && Validated(m.coverage, m.info)
    && config.policy.Accepts(m.anchor.protocolVersion)
    && (exists i :: p.latest(i) == Ok(m.anchor))
    && (exists archival :: m.info == InfoOf(config, m.anchor, archival))
  }

  /** It fits, and is coherent in every chain that the provider is honest about. */
  ghost predicate Grounded(m: Materialized, config: Settings, keys: Keys, p: Provider) {
    && Fits(m, config, keys, p)
    && forall chain: Chain :: Honest(p, chain) ==> Coherent(m, config, keys, chain)
  }

  lemma {:induction false} AbsorbedIs(chunk: seq<KeyId>, returned: map<KeyId, LedgerValue>, configId: KeyId,
                                      so: Fetched)
    requires AbsorbChunk(chunk, returned, configId, so).Ok?
    ensures var next := AbsorbChunk(chunk, returned, configId, so).value;
      && next.batchesMatch == so.batchesMatch
      && (forall id :: id in next.coverage <==> id in so.coverage || (id in chunk && id != configId))
      && (forall id | id in next.coverage ::
            next.coverage[id] == if id in chunk && id != configId then AsState(Get(returned, id)) else so.coverage[id])
      && (configId in chunk ==>
            ExtractArchival(Get(returned, configId)).Ok?
            && next.archival == Some(ExtractArchival(Get(returned, configId)).value))
      && (configId !in chunk ==> next.archival == so.archival)
    ensures configId !in so.coverage ==> configId !in AbsorbChunk(chunk, returned, configId, so).value.coverage
  {
    if chunk != [] {
      var n := |chunk| - 1;
      AbsorbedIs(chunk[..n], returned, configId, so);
      assert forall id :: id in chunk <==> id in chunk[..n] || id == chunk[n];
    }
  }

  /** What has been fetched so far agrees with `ledger`. */
  ghost predicate FetchedFrom(so: Fetched, requested: Keys, configId: KeyId, ledger: ChainLedger) {
    && (forall id | id in so.coverage ::
          id in requested && id != configId && so.coverage[id] == ledger.Lookup(requested[id]))
    && (so.archival.Some? ==>
          ledger.Lookup(STATE_ARCHIVAL_KEY).Present?
          && ledger.Lookup(STATE_ARCHIVAL_KEY).entry.data == StateArchivalEntry(so.archival.value))
  }

  ghost predicate Request(requested: Keys, configId: KeyId) {
    && WellKeyed(requested) && KeyXdr(STATE_ARCHIVAL_KEY) == Some(configId)
    && configId in requested
  }

  lemma ArchivalKeyRequested(requested: Keys, configId: KeyId)
    requires Request(requested, configId)
    ensures requested[configId] == STATE_ARCHIVAL_KEY
  {
    KeyXdrInjective(requested[configId], STATE_ARCHIVAL_KEY);
  }

  /** One accepted chunk keeps the agreement with the ledger it was served from. */
  lemma AbsorbKeepsLedger(chunk: seq<KeyId>, entries: seq<LedgerValue>, configId: KeyId, requested: Keys,
                          so: Fetched, ledger: ChainLedger)
    requires Request(requested, configId) && forall id | id in chunk :: id in requested
    requires var keys := KeysOf(chunk, requested);
      && ValidateBatch(keys, entries).Ok? && Serves(ledger, keys, entries)
      && AbsorbChunk(chunk, ValidateBatch(keys, entries).value, configId, so).Ok?
    requires FetchedFrom(so, requested, configId, ledger)
    ensures FetchedFrom(AbsorbChunk(chunk, ValidateBatch(KeysOf(chunk, requested), entries).value, configId, so).value,
                        requested, configId, ledger)
  {
    var keys := KeysOf(chunk, requested);
    var returned := ValidateBatch(keys, entries).value;
    AbsorbedIs(chunk, returned, configId, so);
    var next := AbsorbChunk(chunk, returned, configId, so).value;
    forall id | id in chunk ensures AsState(Get(returned, id)) == ledger.Lookup(requested[id]) {
      var i :| 0 <= i < |chunk| && chunk[i] == id;
      assert keys[i] == requested[id];
      BatchIsLookup(ledger, keys, entries, requested[id], id);
    }
    if configId in chunk {
      ArchivalKeyRequested(requested, configId);
    }
  }

  /** A chunk loop that ends well took its first chunk from a batch of the right ledger. */
  lemma FirstChunkAccepted(p: Provider, n: nat, sequence: u32, configId: KeyId, requested: Keys,
                           ids: seq<KeyId>, so: Fetched)
    returns (chunk: seq<KeyId>, rest: seq<KeyId>, entries: seq<LedgerValue>, next: Fetched)
    requires ids != [] && forall id | id in ids :: id in requested
    requires var r := FetchChunks(p, n, sequence, configId, requested, ids, so).0;
      r.Ok? && (so.batchesMatch ==> r.value.batchesMatch)
    requires so.batchesMatch
    ensures ids == chunk + rest && |rest| < |ids|
    ensures (forall id | id in chunk :: id in requested) && forall id | id in rest :: id in requested
    ensures p.entries(n, KeysOf(chunk, requested)) == Ok(EntryBatch(sequence, entries))
    ensures ValidateBatch(KeysOf(chunk, requested), entries).Ok?
    ensures AbsorbChunk(chunk, ValidateBatch(KeysOf(chunk, requested), entries).value, configId, so) == Ok(next)
    ensures FetchChunks(p, n, sequence, configId, requested, ids, so)
         == FetchChunks(p, n + 1, sequence, configId, requested, rest, next)
  {
    hide ValidateBatch, AbsorbChunk;
    var k := FirstChunk(ids);
    chunk, rest := ids[..k], ids[k..];
    assert ids == chunk + rest;
    assert forall id | id in chunk :: id in ids;
    assert forall id | id in rest :: id in ids;
    entries := p.entries(n, KeysOf(chunk, requested)).value.entries;
    next := AbsorbChunk(chunk, ValidateBatch(KeysOf(chunk, requested), entries).value, configId, so).value;
  }

  /** An accepted chunk loop has covered exactly the ids it was given. */
  lemma {:induction false} ChunksCover(p: Provider, n: nat, sequence: u32, configId: KeyId, requested: Keys,
                                       ids: seq<KeyId>, so: Fetched)
    requires so.batchesMatch && forall id | id in ids :: id in requested
    requires var r := FetchChunks(p, n, sequence, configId, requested, ids, so).0;
      r.Ok? && r.value.batchesMatch
    ensures var got := FetchChunks(p, n, sequence, configId, requested, ids, so).0.value;
      && (forall id :: id in got.coverage <==> id in so.coverage || (id in ids && id != configId))
      && (configId in ids || so.archival.Some? ==> got.archival.Some?)
    decreases |ids|
  {
    if ids != [] {
      var chunk, rest, entries, next := FirstChunkAccepted(p, n, sequence, configId, requested, ids, so);
      hide FetchChunks, ValidateBatch, AbsorbChunk, KeysOf;
      assert forall id :: id in ids <==> id in chunk || id in rest;
      AbsorbedIs(chunk, ValidateBatch(KeysOf(chunk, requested), entries).value, configId, so);
      ChunksCover(p, n + 1, sequence, configId, requested, rest, next);
    }
  }

  lemma {:induction false} ChunksFromOneLedger(p: Provider, n: nat, sequence: u32, configId: KeyId, requested: Keys,
                                               ids: seq<KeyId>, so: Fetched, chain: Chain)
    requires Honest(p, chain) && Request(requested, configId)
    requires forall id | id in ids :: id in requested
    requires FetchedFrom(so, requested, configId, chain(sequence)) && so.batchesMatch
    requires var r := FetchChunks(p, n, sequence, configId, requested, ids, so).0;
      r.Ok? && r.value.batchesMatch
    ensures var got := FetchChunks(p, n, sequence, configId, requested, ids, so).0.value;
      && FetchedFrom(got, requested, configId, chain(sequence))
      && (forall id :: id in got.coverage <==> id in so.coverage || (id in ids && id != configId))
      && (configId in ids || so.archival.Some? ==> got.archival.Some?)
    decreases |ids|
  {
    if ids != [] {
      var chunk, rest, entries, next := FirstChunkAccepted(p, n, sequence, configId, requested, ids, so);
      hide FetchChunks, ValidateBatch, AbsorbChunk, KeysOf, FetchedFrom, Request;
      var keys := KeysOf(chunk, requested);
      assert forall id :: id in ids <==> id in chunk || id in rest;
      assert ServesBatch(p.entries(n, keys), keys, chain);
      assert Serves(chain(sequence), keys, entries);
      hide Serves, Honest;
      AbsorbKeepsLedger(chunk, entries, configId, requested, so, chain(sequence));
      AbsorbedIs(chunk, ValidateBatch(keys, entries).value, configId, so);
      ChunksFromOneLedger(p, n + 1, sequence, configId, requested, rest, next, chain);
    }
  }

  /** What a settled attempt went through. */
  lemma AttemptDone(config: Settings, p: Provider, n: nat, configId: KeyId, requested: Keys)
    returns (before: Anchor, got: Fetched, archival: ArchivalSettings)
    requires TryOnce(config, p, n, configId, requested).0.Done?
    ensures p.latest(n) == Ok(before) && config.policy.Accepts(before.protocolVersion)
    ensures FetchChunks(p, n + 1, before.sequence, configId, requested, Sorted(requested.Keys), Fetched(map[], None,
        true)).0
         == Ok(got)
    ensures got.batchesMatch && got.archival == Some(archival)
    ensures ValidateCoverage(got.coverage, before.sequence, archival.maxEntryTtl).Ok?
    ensures TryOnce(config, p, n, configId, requested).0
         == Done(Materialized(before, InfoOf(config, before, archival), got.coverage))
  {
    hide ValidateCoverage, FetchChunks, Sorted;
    before := p.latest(n).value;
    got := FetchChunks(p, n + 1, before.sequence, configId, requested, Sorted(requested.Keys),
                       Fetched(map[], None, true)).0.value;
    archival := got.archival.value;
  }

  /** Everything fetched from the anchor's ledger is a coherent materialization. */
  lemma FetchedIsCoherent(config: Settings, before: Anchor, got: Fetched, archival: ArchivalSettings,
                          configId: KeyId, keys: Keys, chain: Chain)
    requires WellKeyed(keys) && KeyXdr(STATE_ARCHIVAL_KEY) == Some(configId)
    requires ServesAnchor(Ok(before), chain) && config.policy.Accepts(before.protocolVersion)
    requires FetchedFrom(got, keys[configId := STATE_ARCHIVAL_KEY], configId, chain(before.sequence))
    requires forall id :: id in got.coverage <==> id in keys[configId := STATE_ARCHIVAL_KEY] && id != configId
    requires got.archival == Some(archival)
    requires ValidateCoverage(got.coverage, before.sequence, archival.maxEntryTtl).Ok?
    ensures Coherent(Materialized(before, InfoOf(config, before, archival), got.coverage), config, keys, chain)
  {
    hide ValidateCoverage;
  }

  lemma FetchedFits(config: Settings, p: Provider, n: nat, before: Anchor, got: Fetched, archival: ArchivalSettings,
                    configId: KeyId, keys: Keys)
    requires KeyXdr(STATE_ARCHIVAL_KEY) == Some(configId) && p.latest(n) == Ok(before)
    requires config.policy.Accepts(before.protocolVersion)
    requires forall id :: id in got.coverage <==> id in keys[configId := STATE_ARCHIVAL_KEY] && id != configId
    requires ValidateCoverage(got.coverage, before.sequence, archival.maxEntryTtl).Ok?
    ensures Fits(Materialized(before, InfoOf(config, before, archival), got.coverage), config, keys, p)
  {
    hide ValidateCoverage;
  }

  lemma AttemptIsGrounded(config: Settings, p: Provider, n: nat, configId: KeyId, keys: Keys)
    requires WellKeyed(keys) && KeyXdr(STATE_ARCHIVAL_KEY) == Some(configId)
    requires TryOnce(config, p, n, configId, keys[configId := STATE_ARCHIVAL_KEY]).0.Done?
    ensures Grounded(TryOnce(config, p, n, configId, keys[configId := STATE_ARCHIVAL_KEY]).0.value, config, keys, p)
  {
    var requested := keys[configId := STATE_ARCHIVAL_KEY];
    var before, got, archival := AttemptDone(config, p, n, configId, requested);
    hide TryOnce, FetchChunks, ValidateCoverage, WellKeyed, Honest, FetchedFrom, Fits, Coherent;
    WellKeyedWith(keys, configId);
    ChunksCover(p, n + 1, before.sequence, configId, requested, Sorted(requested.Keys), Fetched(map[], None, true));
    FetchedFits(config, p, n, before, got, archival, configId, keys);
    var m := Materialized(before, InfoOf(config, before, archival), got.coverage);
    forall chain: Chain | Honest(p, chain) ensures Coherent(m, config, keys, chain) {
      AnchorServed(p, n, chain);
      AllChunksFromOneLedger(p, n + 1, before.sequence, configId, requested, got, chain);
      FetchedIsCoherent(config, before, got, archival, configId, keys, chain);
    }
  }

  lemma AnchorServed(p: Provider, n: nat, chain: Chain)
    requires Honest(p, chain)
    ensures ServesAnchor(p.latest(n), chain)
  {
  }

  lemma WellKeyedWith(keys: Keys, configId: KeyId)
    requires WellKeyed(keys) && KeyXdr(STATE_ARCHIVAL_KEY) == Some(configId)
    ensures WellKeyed(keys[configId := STATE_ARCHIVAL_KEY])
  {
  }

  lemma AllChunksFromOneLedger(p: Provider, n: nat, sequence: u32, configId: KeyId, requested: Keys,
                               got: Fetched, chain: Chain)
    requires Honest(p, chain) && WellKeyed(requested)
    requires KeyXdr(STATE_ARCHIVAL_KEY) == Some(configId) && configId in requested
    requires FetchChunks(p, n, sequence, configId, requested, Sorted(requested.Keys), Fetched(map[], None,
        true)).0 == Ok(got)
    requires got.batchesMatch
    ensures FetchedFrom(got, requested, configId, chain(sequence))
  {
    var none := Fetched(map[], None, true);
    assert FetchedFrom(none, requested, configId, chain(sequence));
    assert Request(requested, configId);
    hide *;
    ChunksFromOneLedger(p, n, sequence, configId, requested, Sorted(requested.Keys), none, chain);
  }

  lemma {:induction false} AttemptsAreGrounded(config: Settings, p: Provider, n: nat, configId: KeyId, keys: Keys,
                                               left: nat)
    requires WellKeyed(keys) && KeyXdr(STATE_ARCHIVAL_KEY) == Some(configId)
    requires Attempts(config, p, n, configId, keys[configId := STATE_ARCHIVAL_KEY], left).0.Ok?
    ensures Grounded(Attempts(config, p, n, configId, keys[configId := STATE_ARCHIVAL_KEY], left).0.value, config,
        keys, p)
    decreases left
  {
    hide TryOnce, Grounded, WellKeyed;
    var (attempt, m) := TryOnce(config, p, n, configId, keys[configId := STATE_ARCHIVAL_KEY]);
    if attempt.Retry? {
      AttemptsAreGrounded(config, p, m, configId, keys, left - 1);
    } else {
      AttemptIsGrounded(config, p, n, configId, keys);
    }
  }

  /**
   An accepted materialization covers exactly the requested keys under a reported
   anchor, and is coherent in every chain that the provider is honest about.
   */
  lemma MaterializeIsGrounded(config: Settings, p: Provider, n: nat, keys: Keys)
    requires WellKeyed(keys)
    ensures var r := Materialize(config, p, n, keys).0; r.Ok? ==> Grounded(r.value, config, keys, p)
  {
    hide Grounded, WellKeyed;
    if Materialize(config, p, n, keys).0.Ok? {
      AttemptsAreGrounded(config, p, n, KeyXdr(STATE_ARCHIVAL_KEY).value, keys, config.maxCoherenceAttempts);
    }
  }

  /**
   Whatever ledger serves each response, an accepted materialization is the
   lookup of one ledger of the chain: values of different ledgers are never mixed.
   */
  lemma MaterializeIsCoherent(config: Settings, p: Provider, n: nat, keys: Keys, chain: Chain)
    requires Honest(p, chain) && WellKeyed(keys)
    ensures var r := Materialize(config, p, n, keys).0; r.Ok? ==> Coherent(r.value, config, keys, chain)
  {
    hide Materialize, Coherent;
    MaterializeIsGrounded(config, p, n, keys);
  }

  // ----- An unchanging ledger -----

  lemma {:induction false} ChunksAlwaysMatch(p: Provider, n: nat, configId: KeyId, requested: Keys,
                                             ids: seq<KeyId>, so: Fetched, ledger: ChainLedger)
    requires Unchanging(p, ledger) && so.batchesMatch
    requires forall id | id in ids :: id in requested
    ensures var r := FetchChunks(p, n, ledger.anchor.sequence, configId, requested, ids, so).0;
      r.Ok? ==> r.value.batchesMatch
    decreases |ids|
  {
    if ids != [] {
      var k := FirstChunk(ids);
      var chunk := ids[..k];
      var answer := p.entries(n, KeysOf(chunk, requested));
      if answer.Ok? && ValidateBatch(KeysOf(chunk, requested), answer.value.entries).Ok? {
        var returned := ValidateBatch(KeysOf(chunk, requested), answer.value.entries).value;
        if AbsorbChunk(chunk, returned, configId, so).Ok? {
          AbsorbedIs(chunk, returned, configId, so);
          ChunksAlwaysMatch(p, n + 1, configId, requested, ids[k..],
                            AbsorbChunk(chunk, returned, configId, so).value, ledger);
        }
      }
    }
  }

  /** On an unchanging ledger one attempt settles: no retry, hence no `IncoherentLedger`. */
  lemma UnchangingNeverIncoherent(config: Settings, p: Provider, n: nat, keys: Keys, ledger: ChainLedger)
    requires Unchanging(p, ledger) && WellKeyed(keys) && config.maxCoherenceAttempts > 0
    ensures var r := Materialize(config, p, n, keys).0;
      && (r.Err? ==> !r.error.IsLimit())
      && (r.Ok? ==> Coherent(r.value, config, keys, s => ledger))
  {
    hide TryOnce, Coherent, WellKeyed;
    if KeyXdr(STATE_ARCHIVAL_KEY).Some? {
      var configId := KeyXdr(STATE_ARCHIVAL_KEY).value;
      AttemptNeverRetries(config, p, n, configId, keys[configId := STATE_ARCHIVAL_KEY], ledger);
      MaterializeIsCoherent(config, p, n, keys, s => ledger);
    }
  }

  lemma AttemptNeverRetries(config: Settings, p: Provider, n: nat, configId: KeyId, requested: Keys,
                            ledger: ChainLedger)
    requires Unchanging(p, ledger)
    ensures !TryOnce(config, p, n, configId, requested).0.Retry?
  {
    hide FetchChunks, ValidateCoverage, Honest;
    if p.latest(n).Ok? {
      ChunksAlwaysMatch(p, n + 1, configId, requested, Sorted(requested.Keys), Fetched(map[], None, true), ledger);
    }
  }
}
