/**
 When materialization tries again, and when it gives up (`materialize`,
 src/capture.rs:379-444).
 */
module CoherenceRetries {
  import opened Wrappers
  import opened Bytes
  import opened Ordered
  import opened Ledger
  import opened Errors
  import opened CoverageChecks
  import opened Providers
  import opened Materialization
  import opened ArchivalKeys
  import opened CaptureFates
  import opened SightedScenarios

  // ----- Giving up -----

  predicate FromOther(answer: Result<EntryBatch, Operation>, sequence: u32) {
    answer.Ok? && answer.value.latestLedger != sequence
  }

  /** Some batch among the calls from `first` to before `last` was served from another ledger. */
  ghost predicate BatchMoved(p: Provider, first: nat, last: nat, sequence: u32) {
    exists j: nat, keys: seq<LedgerKey> :: first <= j < last && FromOther(p.entries(j, keys), sequence)
  }

  /** The calls from `from` to before `to` are one attempt during which the ledger moved. */
  ghost predicate Moved(p: Provider, from: nat, to: nat) {
    && from + 3 <= to && p.latest(from).Ok? && p.latest(to - 1).Ok?
    && (p.latest(from).value != p.latest(to - 1).value
        || BatchMoved(p, from + 1, to - 1, p.latest(from).value.sequence))
  }

  lemma {:induction false} MismatchMeansMoved(p: Provider, n: nat, sequence: u32, configId: KeyId, requested: Keys,
                                              ids: seq<KeyId>, so: Fetched)
    requires forall id | id in ids :: id in requested
    requires so.batchesMatch
    ensures var (r, k) := FetchChunks(p, n, sequence, configId, requested, ids, so);
      && n <= k && (ids != [] ==> n < k)
      && (r.Ok? && !r.value.batchesMatch ==> BatchMoved(p, n, k, sequence))
    decreases |ids|
  {
    if ids != [] {
      var chunk := ids[..FirstChunk(ids)];
      var answer := p.entries(n, KeysOf(chunk, requested));
      if answer.Ok? && answer.value.latestLedger == sequence {
        ChunkGoesOn(p, n, sequence, configId, requested, ids, so);
      } else if answer.Ok? {
        assert FromOther(p.entries(n, KeysOf(chunk, requested)), sequence);
      }
    }
  }

  lemma {:induction false} ChunkGoesOn(p: Provider, n: nat, sequence: u32, configId: KeyId, requested: Keys,
                                       ids: seq<KeyId>, so: Fetched)
    requires (forall id | id in ids :: id in requested) && so.batchesMatch && ids != []
    requires FetchChunks(p, n, sequence, configId, requested, ids, so).0.Ok? ==>
               p.entries(n, KeysOf(ids[..FirstChunk(ids)], requested)).Ok?
               && p.entries(n, KeysOf(ids[..FirstChunk(ids)], requested)).value.latestLedger == sequence
    ensures var (r, k) := FetchChunks(p, n, sequence, configId, requested, ids, so);
      n < k && (r.Ok? && !r.value.batchesMatch ==> BatchMoved(p, n, k, sequence))
    decreases |ids|, 0
  {
    hide ValidateBatch, AbsorbChunk;
    var chunk := ids[..FirstChunk(ids)];
    var rest := ids[FirstChunk(ids)..];
    var answer := p.entries(n, KeysOf(chunk, requested));
    if answer.Ok? && answer.value.latestLedger == sequence {
      var returned := ValidateBatch(KeysOf(chunk, requested), answer.value.entries);
      if returned.Ok? && AbsorbChunk(chunk, returned.value, configId, so).Ok? {
        var next := AbsorbChunk(chunk, returned.value, configId, so).value;
        AbsorbedMatches(chunk, returned.value, configId, so);
        MismatchMeansMoved(p, n + 1, sequence, configId, requested, rest, next);
        MovedEarlier(p, n, FetchChunks(p, n + 1, sequence, configId, requested, rest, next).1, sequence);
      }
    }
  }

  lemma AbsorbedMatches(chunk: seq<KeyId>, returned: map<KeyId, LedgerValue>, configId: KeyId, so: Fetched)
    requires AbsorbChunk(chunk, returned, configId, so).Ok?
    ensures AbsorbChunk(chunk, returned, configId, so).value.batchesMatch == so.batchesMatch
  {
    AbsorbedIs(chunk, returned, configId, so);
  }

  lemma MovedEarlier(p: Provider, n: nat, k: nat, sequence: u32)
    ensures BatchMoved(p, n + 1, k, sequence) ==> BatchMoved(p, n, k, sequence)
  {
  }

  /** An attempt is given up only when the ledger moved during it. */
  lemma RetryMeansMoved(config: Settings, p: Provider, n: nat, configId: KeyId, requested: Keys)
    requires configId in requested
    ensures var (attempt, k) := TryOnce(config, p, n, configId, requested); attempt.Retry? ==> Moved(p, n, k)
  {
    hide FetchChunks, ValidateCoverage, BatchMoved;
    var ids := Sorted(requested.Keys);
    assert configId in ids;
    if p.latest(n).Ok? {
      MismatchMeansMoved(p, n + 1, p.latest(n).value.sequence, configId, requested, ids, Fetched(map[], None, true));
    }
  }

  /** Call counts at which attempts begin, each of which saw the ledger move; the last one is the end. */
  ghost predicate KeptMoving(p: Provider, n: nat, starts: seq<nat>) {
    && starts != [] && starts[0] == n
    && forall i | 0 < i < |starts| :: Moved(p, starts[i - 1], starts[i])
  }

  lemma {:induction false} AttemptsMoved(config: Settings, p: Provider, n: nat, configId: KeyId, requested: Keys,
                                         left: nat)
    requires configId in requested
    ensures var (r, k) := Attempts(config, p, n, configId, requested, left);
      r.Err? && r.error.IncoherentLedger? ==>
        && r.error.attempts == config.maxCoherenceAttempts
        && exists starts :: |starts| == left + 1 && KeptMoving(p, n, starts) && starts[left] == k
    decreases left
  {
    hide TryOnce, Moved;
    if left == 0 {
      assert KeptMoving(p, n, [n]);
    } else {
      var (attempt, m) := TryOnce(config, p, n, configId, requested);
      if attempt.Retry? {
        RetryMeansMoved(config, p, n, configId, requested);
        AttemptsMoved(config, p, m, configId, requested, left - 1);
        var (r, k) := Attempts(config, p, n, configId, requested, left);
        if r.Err? && r.error.IncoherentLedger? {
          var later: seq<nat> :| |later| == left && KeptMoving(p, m, later) && later[left - 1] == k;
          var starts := [n] + later;
          forall i | 0 < i < |starts| ensures Moved(p, starts[i - 1], starts[i]) {
            if i == 1 {
              assert starts[1] == later[0];
            } else {
              assert starts[i] == later[i - 1] && starts[i - 1] == later[i - 2];
              assert Moved(p, later[(i - 1) - 1], later[i - 1]);
            }
          }
          assert KeptMoving(p, n, starts) && starts[left] == k;
        }
      }
    }
  }

  lemma {:induction false} MovingTakesCalls(p: Provider, n: nat, starts: seq<nat>, i: nat)
    requires KeptMoving(p, n, starts) && i < |starts|
    ensures starts[i] >= n + 3 * i
  {
    if i > 0 {
      MovingTakesCalls(p, n, starts, i - 1);
      assert Moved(p, starts[i - 1], starts[i]);
    }
  }

  /**
   `IncoherentLedger` means that the ledger moved during every one of the allowed
   attempts: in each, two reported anchors differ or a batch came from another ledger.
   */
  lemma IncoherentMeansMoved(config: Settings, p: Provider, n: nat, keys: Keys)
    ensures var (r, calls) := Materialize(config, p, n, keys);
      r.Err? && r.error.IncoherentLedger? ==>
        && r.error.attempts == config.maxCoherenceAttempts
        && calls >= n + 3 * config.maxCoherenceAttempts
        && exists starts ::
             |starts| == config.maxCoherenceAttempts + 1 && KeptMoving(p, n, starts) && starts[|starts| - 1] == calls
  {
    hide KeptMoving, Attempts;
    if KeyXdr(STATE_ARCHIVAL_KEY).Some? {
      var configId := KeyXdr(STATE_ARCHIVAL_KEY).value;
      AttemptsMoved(config, p, n, configId, keys[configId := STATE_ARCHIVAL_KEY], config.maxCoherenceAttempts);
      var (r, calls) := Materialize(config, p, n, keys);
      if r.Err? && r.error.IncoherentLedger? {
        var starts: seq<nat> :| |starts| == config.maxCoherenceAttempts + 1 && KeptMoving(p, n, starts)
          && starts[config.maxCoherenceAttempts] == calls;
        MovingTakesCalls(p, n, starts, config.maxCoherenceAttempts);
      }
    }
  }

  // ----- Accepting -----

  lemma DoneMeansAgreed(config: Settings, p: Provider, n: nat, configId: KeyId, requested: Keys)
    ensures var (attempt, k) := TryOnce(config, p, n, configId, requested);
      attempt.Done? ==>
        && n + 2 <= k && p.latest(n) == Ok(attempt.value.anchor) && p.latest(k - 1) == Ok(attempt.value.anchor)
  {
    hide FetchChunks, ValidateCoverage;
    if p.latest(n).Ok? {
      MismatchMeansMoved(p, n + 1, p.latest(n).value.sequence, configId, requested, Sorted(requested.Keys),
                         Fetched(map[], None, true));
    }
  }

  lemma {:induction false} AttemptsAgreed(config: Settings, p: Provider, n: nat, configId: KeyId, requested: Keys,
                                          left: nat)
    ensures var (r, k) := Attempts(config, p, n, configId, requested, left);
      r.Ok? ==> AgreedOn(p, n, k, r.value.anchor)
    decreases left
  {
    hide TryOnce;
    if left > 0 {
      DoneMeansAgreed(config, p, n, configId, requested);
      var (attempt, m) := TryOnce(config, p, n, configId, requested);
      if attempt.Retry? {
        AttemptLater(config, p, n, configId, requested);
        AttemptsAgreed(config, p, m, configId, requested, left - 1);
      }
    }
  }

  lemma AttemptLater(config: Settings, p: Provider, n: nat, configId: KeyId, requested: Keys)
    ensures TryOnce(config, p, n, configId, requested).1 >= n
  {
    hide FetchChunks, ValidateCoverage;
    if p.latest(n).Ok? {
      MismatchMeansMoved(p, n + 1, p.latest(n).value.sequence, configId, requested, Sorted(requested.Keys),
                         Fetched(map[], None, true));
    }
  }

  /** Some attempt after `n` calls began, and ended with call `calls - 1`, with the same anchor. */
  ghost predicate AgreedOn(p: Provider, n: nat, calls: nat, anchor: Anchor) {
    exists from: nat :: n <= from && from + 2 <= calls && p.latest(from) == Ok(anchor)
        && p.latest(calls - 1) == Ok(anchor)
  }

  /** What is accepted rests on an anchor that was reported both before and after its batches. */
  lemma AcceptedMeansAgreed(config: Settings, p: Provider, n: nat, keys: Keys)
    ensures var (r, calls) := Materialize(config, p, n, keys); r.Ok? ==> AgreedOn(p, n, calls, r.value.anchor)
  {
    hide Attempts, AgreedOn;
    if KeyXdr(STATE_ARCHIVAL_KEY).Some? {
      var configId := KeyXdr(STATE_ARCHIVAL_KEY).value;
      AttemptsAgreed(config, p, n, configId, keys[configId := STATE_ARCHIVAL_KEY], config.maxCoherenceAttempts);
    }
  }

  // ----- A provider that becomes reliable -----

  /** The provider from its call `from` on. */
  function Shifted(p: Provider, from: nat): Provider {
    Provider((i: nat) => p.network(i + from),
             (i: nat) => p.latest(i + from),
             (i: nat, keys: seq<LedgerKey>) => p.entries(i + from, keys))
  }

  lemma {:induction false} FetchShifts(p: Provider, from: nat, n: nat, sequence: u32, configId: KeyId, requested: Keys,
                                       ids: seq<KeyId>, so: Fetched)
    requires forall id | id in ids :: id in requested
    ensures var (r, k) := FetchChunks(Shifted(p, from), n, sequence, configId, requested, ids, so);
      FetchChunks(p, n + from, sequence, configId, requested, ids, so) == (r, k + from)
    decreases |ids|
  {
    hide ValidateBatch, AbsorbChunk;
    if ids != [] {
      var chunk := ids[..FirstChunk(ids)];
      var answer := p.entries(n + from, KeysOf(chunk, requested));
      if answer.Ok? && answer.value.latestLedger == sequence {
        var returned := ValidateBatch(KeysOf(chunk, requested), answer.value.entries);
        if returned.Ok? && AbsorbChunk(chunk, returned.value, configId, so).Ok? {
          var next := AbsorbChunk(chunk, returned.value, configId, so).value;
          FetchShifts(p, from, n + 1, sequence, configId, requested, ids[FirstChunk(ids)..], next);
        }
      }
    }
  }

  lemma AttemptShifts(config: Settings, p: Provider, from: nat, n: nat, configId: KeyId, requested: Keys)
    ensures var (attempt, k) := TryOnce(config, Shifted(p, from), n, configId, requested);
      TryOnce(config, p, n + from, configId, requested) == (attempt, k + from)
  {
    hide FetchChunks, Settle, Sorted;
    var before := p.latest(n + from);
    if before.Ok? {
      FetchShifts(p, from, n + 1, before.value.sequence, configId, requested, Sorted(requested.Keys),
                  Fetched(map[], None, true));
    }
  }

  /** Attempts that began at these call counts, one after another, all of which were given up. */
  ghost predicate GivenUp(config: Settings, p: Provider, configId: KeyId, requested: Keys, starts: seq<nat>) {
    && starts != []
    && forall i | 0 < i < |starts| :: TryOnce(config, p, starts[i - 1], configId, requested) == (Retry, starts[i])
  }

  lemma {:induction false} AttemptsGoOn(config: Settings, p: Provider, configId: KeyId, requested: Keys,
                                        starts: seq<nat>,
                                        left: nat)
    requires GivenUp(config, p, configId, requested, starts) && |starts| - 1 <= left
    ensures Attempts(config, p, starts[0], configId, requested, left)
      == Attempts(config, p, starts[|starts| - 1], configId, requested, left - (|starts| - 1))
    decreases |starts|
  {
    hide TryOnce;
    if |starts| > 1 {
      var rest := starts[1..];
      assert TryOnce(config, p, starts[0], configId, requested) == (Retry, starts[1]);
      forall i | 0 < i < |rest| ensures TryOnce(config, p, rest[i - 1], configId, requested) == (Retry, rest[i]) {
        assert rest[i - 1] == starts[(i + 1) - 1] && rest[i] == starts[i + 1];
      }
      AttemptsGoOn(config, p, configId, requested, rest, left - 1);
    }
  }

  /**
   However many attempts the moving ledger has cost, as long as one is left: once the
   provider answers reliably from a valid ledger, the keys are materialized.
   */
  lemma LateReliabilitySuffices(config: Settings, p: Provider, keys: Keys, starts: seq<nat>, ledger: ChainLedger)
    requires KeyXdr(STATE_ARCHIVAL_KEY).Some? && starts != [] && |starts| <= config.maxCoherenceAttempts
    requires var configId := KeyXdr(STATE_ARCHIVAL_KEY).value;
      GivenUp(config, p, configId, keys[configId := STATE_ARCHIVAL_KEY], starts)
    requires Reliable(Shifted(p, starts[|starts| - 1]), config, ledger) && Valid(config, ledger) && Holdable(keys)
    ensures Materialize(config, p, starts[0], keys).0.Ok?
  {
    hide TryOnce, Reliable, Valid, Holdable, Shifted;
    var configId := KeyXdr(STATE_ARCHIVAL_KEY).value;
    var requested := keys[configId := STATE_ARCHIVAL_KEY];
    var last := starts[|starts| - 1];
    AttemptsGoOn(config, p, configId, requested, starts, config.maxCoherenceAttempts);
    AttemptSucceeds(config, Shifted(p, last), 0, configId, keys, ledger);
    AttemptShifts(config, p, last, 0, configId, requested);
    LastAttempt(config, p, last, configId, requested, config.maxCoherenceAttempts - (|starts| - 1));
  }

  lemma LastAttempt(config: Settings, p: Provider, n: nat, configId: KeyId, requested: Keys, left: nat)
    requires TryOnce(config, p, n, configId, requested).0.Done? && left > 0
    ensures Attempts(config, p, n, configId, requested, left).0.Ok?
  {
    hide TryOnce;
  }

  // ----- How many calls it takes -----

  /** Batches of at most 200 keys. */
  function Batches(count: nat): nat {
    (count + 199) / 200
  }

  lemma {:induction false} FetchCalls(p: Provider, config: Settings, n: nat, configId: KeyId, requested: Keys,
                                      ids: seq<KeyId>, so: Fetched, ledger: ChainLedger)
    requires Reliable(p, config, ledger) && SettingsOf(ledger).Some? && Request(requested, configId)
    requires forall id | id in ids :: id in requested
    ensures FetchChunks(p, n, ledger.anchor.sequence, configId, requested, ids, so).1 == n + Batches(|ids|)
    decreases |ids|
  {
    hide Reliable, SettingsOf, Request, ValidateBatch, AbsorbChunk, KeysOf;
    if ids != [] {
      var k := FirstChunk(ids);
      var chunk := ids[..k];
      assert forall id | id in chunk :: id in ids;
      assert forall id | id in ids[k..] :: id in ids;
      ChunkSucceeds(p, config, n, configId, requested, chunk, so, ledger);
      var entries := p.entries(n, KeysOf(chunk, requested)).value.entries;
      var next := AbsorbChunk(chunk, ValidateBatch(KeysOf(chunk, requested), entries).value, configId, so).value;
      FetchCalls(p, config, n + 1, configId, requested, ids[k..], next, ledger);
    }
  }

  /**
   Against a reliable provider one attempt is made: two anchors, and one batch for every
   200 of the keys, the archival key included.
   */
  lemma MaterializeCalls(config: Settings, p: Provider, n: nat, keys: Keys, ledger: ChainLedger)
    requires Reliable(p, config, ledger) && Valid(config, ledger) && Holdable(keys) && config.maxCoherenceAttempts > 0
    ensures Materialize(config, p, n, keys).1 == n + 2 + Batches(|keys| + 1)
  {
    hide Reliable, Valid, Holdable, TryOnce, Batches;
    ValidHas(config, ledger);
    var configId := KeyXdr(STATE_ARCHIVAL_KEY).value;
    OneMoreKey(keys, configId);
    AttemptSucceeds(config, p, n, configId, keys, ledger);
    AttemptCalls(config, p, n, configId, keys, ledger);
  }

  lemma OneMoreKey(keys: Keys, configId: KeyId)
    requires Holdable(keys) && KeyXdr(STATE_ARCHIVAL_KEY) == Some(configId)
    ensures |Sorted(keys[configId := STATE_ARCHIVAL_KEY].Keys)| == |keys| + 1
  {
    hide Holdable, Sorted;
    NoConfigKey(keys, configId);
    AddedKeyCounts(keys, configId);
  }

  lemma NoConfigKey(keys: Keys, configId: KeyId)
    requires Holdable(keys) && KeyXdr(STATE_ARCHIVAL_KEY) == Some(configId)
    ensures configId !in keys
  {
    HoldableNoConfig(keys);
  }

  lemma AddedKeyCounts(keys: Keys, id: KeyId)
    requires id !in keys
    ensures |keys[id := STATE_ARCHIVAL_KEY].Keys| == |keys| + 1
  {
    var wider := keys[id := STATE_ARCHIVAL_KEY];
    assert |wider| == |keys| + 1;
    assert |wider.Keys| == |wider|;
  }

  lemma AttemptCalls(config: Settings, p: Provider, n: nat, configId: KeyId, keys: Keys, ledger: ChainLedger)
    requires Reliable(p, config, ledger) && Valid(config, ledger) && Holdable(keys)
    requires KeyXdr(STATE_ARCHIVAL_KEY) == Some(configId)
    requires TryOnce(config, p, n, configId, keys[configId := STATE_ARCHIVAL_KEY]).0.Done?
    ensures TryOnce(config, p, n, configId, keys[configId := STATE_ARCHIVAL_KEY]).1
      == n + 2 + Batches(|Sorted(keys[configId := STATE_ARCHIVAL_KEY].Keys)|)
  {
    hide Valid, Holdable, FetchChunks, Settle, Batches, Unchanging;
    var requested := keys[configId := STATE_ARCHIVAL_KEY];
    assert p.latest(n) == Ok(ledger.anchor);
    hide Reliable;
    ValidHas(config, ledger);
    HoldableWellKeyed(keys);
    WellKeyedWith(keys, configId);
    FetchCalls(p, config, n + 1, configId, requested, Sorted(requested.Keys), Fetched(map[], None, true), ledger);
  }

  // ----- The ledger moves once -----

  /** The first anchor is stale; every later answer is from `ledger`. */
  function MovesOnce(passphrase: Vec8, stale: Anchor, ledger: ChainLedger): Provider {
    var p := ExactProvider(passphrase, ledger);
    p.(latest := (i: nat) => if i == 0 then Ok(stale) else p.latest(i))
  }

  lemma StaleAttempt(config: Settings, stale: Anchor, ledger: ChainLedger, configId: KeyId, requested: Keys)
    requires configId in requested && config.policy.Accepts(stale.protocolVersion)
    requires stale.sequence != ledger.anchor.sequence
    ensures TryOnce(config, MovesOnce(config.passphrase, stale, ledger), 0, configId, requested) == (Retry, 3)
  {
    hide ValidateBatch, AbsorbChunk, Answers;
    var ids := Sorted(requested.Keys);
    assert configId in ids;
    assert ids != [];
  }

  /** One stale anchor costs one attempt: two are enough, one is not. */
  lemma MovingOnceIsRetried(config: Settings, keys: Keys, stale: Anchor, ledger: ChainLedger)
    requires WellStored(ledger) && ledger.anchor.hash != [] && Valid(config, ledger) && Holdable(keys)
    requires config.policy.Accepts(stale.protocolVersion) && stale.sequence != ledger.anchor.sequence
    requires config.maxCoherenceAttempts > 0
    ensures var r := Materialize(config, MovesOnce(config.passphrase, stale, ledger), 0, keys).0;
      if config.maxCoherenceAttempts == 1 then r == Err(IncoherentLedger(1)) else r.Ok?
  {
    hide TryOnce, Valid, Holdable, WellStored, Reliable;
    ValidHas(config, ledger);
    var configId := KeyXdr(STATE_ARCHIVAL_KEY).value;
    var requested := keys[configId := STATE_ARCHIVAL_KEY];
    var p := MovesOnce(config.passphrase, stale, ledger);
    StaleAttempt(config, stale, ledger, configId, requested);
    if config.maxCoherenceAttempts > 1 {
      ShiftIsReliable(config, stale, ledger);
      assert GivenUp(config, p, configId, requested, [0, 3]);
      LateReliabilitySuffices(config, p, keys, [0, 3], ledger);
    }
  }

  lemma ShiftIsReliable(config: Settings, stale: Anchor, ledger: ChainLedger)
    requires WellStored(ledger) && ledger.anchor.hash != []
    ensures Reliable(Shifted(MovesOnce(config.passphrase, stale, ledger), 3), config, ledger)
  {
    var p := Shifted(MovesOnce(config.passphrase, stale, ledger), 3);
    forall i: nat, keys: seq<LedgerKey>
      ensures AnswersExactly(p.entries(i, keys), keys) && ServesBatch(p.entries(i, keys), keys, s => ledger)
    {
      AnswersAre(ledger, keys);
    }
    hide ExactBatch, Answers;
  }
}
