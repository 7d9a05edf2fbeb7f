# Kanatoko: capture, strict replay and frozen ledgers

Kanatoko runs a test scenario against a live Stellar network, records every ledger
key the scenario touches as Present or Absent (a key with neither is Unknown),
freezes the result, and replays the scenario from it without a network. This
project models that machinery and proves what it promises.

The model follows the code's own layers.

- **Ledger, digests and bundles** (`Bytes`, `Ordered`, `Tables`, `Ledger`,
  `Fixture`, `Digests`, `Bundles`, `OldBundles`, `HexText`, `Origin`, `CoverageChecks`). Hash
  preimages are real byte sequences: domain separators, big-endian integers, length
  prefixes, tags. SHA-256 is an arbitrary function to 32 bytes. XDR and Base64 are
  arbitrary partial encoders whose decoder inverts them; decoders may accept bytes
  that no encoder writes, which is why canonical-form checks matter.
- **Providers and materialization** (`Providers`, `Materialization`, `Closure`). The
  RPC provider is an adversary: call number `i` may fail or answer from any ledger
  of a chain. Statements about ledger contents assume it `Honest`: each answer is
  served whole from the ledger that its sequence number names (batches may repeat,
  reorder or add entries, which validation must catch). What the code ensures by
  itself (`Fits`) is proved for every provider, also one that mixes ledgers under one
  sequence number; so are replay, bundles and the cache protocol, the last given only
  that reported anchors carry a hash, which the HTTP transport recomputes.
- **Scenarios and discovery** (`Scenarios`, `Discovery`, `CaptureLaws`,
  `CaptureCauses`, `CoherenceRetries`, `Convergence`, `ArchivalKeys`, `CaptureFates`,
  `StrictReplays`, `SightedScenarios`). A scenario
  together with the Host is a deterministic interaction tree over reads, stored keys,
  local marks and a panicking or normal end. Which tree depends on what its
  environment is made from: the ledger header and the snapshot of everything captured
  so far. Its termination is witnessed by an ordinal rank, so no bound is put on its
  length.
- **The capture objects** (`Capture`). `TrackingSource`, `LocalLedger`,
  `CaptureBuilder` and the transport are classes with loops as in the source; every
  method is proved equal to the function that specifies it, transport call counter
  included, and the theorems are about those functions.
- **The runner** (`Runner`, `RunnerOutcomes`). `AutoRunner` over the cache file, which a write can
  leave untouched, replace, or replace while still reporting an error.
- **The strict fork** (`Diffs`, `StrictForks`, `ForkLaws`, `ForkOutcomes`). The Host is an arbitrary
  `HostRun`: outcome, keys read, keys stored, ledger afterwards. `HostLaw` says only
  that a changed key was touched and that the ledger header stays. `ForkLaws` proves
  the invariants over arbitrary runs of invocations in all modes, registrations,
  checkpoints and reverts.
- **Arithmetic and loop cores** (`RateLimiters`, `CacheNames`).

## Where capture and replay part

Capture never counts the state-archival config key as a discovery
(src/capture.rs:288-291); strict replay does not exempt it when it scans stored
entries (src/capture.rs:675-688). A successful capture therefore replays Ok if and
only if its last pass did not leave that key among the Host's stored entries, and
otherwise fails with `UnknownLedgerKeys` naming one key
(`CaptureLaws.CaptureImpliesReplay`). Whether a Host keeps a config key among its
stored entries is not decided by this repository; for one that does, `ArchivalKeys`
gives a concrete scenario that captures and then does not replay, and a scenario that
never stores the key always replays. No capture that succeeds has read the key in its
last pass (`ArchivalKeys.CaptureNeverAsked`); one that reads it can end in
`InternalInvariant` (`ArchivalKeys.ArchivalReadIsBroken`), and no other scenario ever
gets that error (`ArchivalKeys.InternalInvariantNeedsArchival`).

## Scenarios that look at their snapshot

Every pass runs in an environment seeded with the snapshot of what has been captured so
far (src/capture.rs:1950-1957). A scenario can look at it, with `to_ledger_snapshot` or
through the child environment of a preview (src/auto.rs:1034-1044). The laws about
replay, bundles, the runner and the internal invariant hold for all of them. Two rounds
on an unchanging ledger do not: `SightedScenarios` has a scenario that needs three, and
one whose result depends on the seed. What holds is this.

- A *blind* scenario, one that the snapshot makes no difference to, needs at most two
  rounds (`Convergence.TwoRoundConvergence`), and the ledger alone decides what its
  capture and its replay come to (`CaptureFates.LedgerDecidesCapture`,
  `ArchivalKeys.LedgerDecidesReplay`).
- Any scenario that can touch at most K network keys outside the seed needs at most
  K + 1 rounds, against any provider (`Convergence.RoundsBoundedByTouch`).

## Model

| member | source | states |
|---|---|---|
| Materialization.MaterializeIsCoherent | src/capture.rs:372-445 | Whatever ledger serves each response, an Ok result is exactly one chain ledger's lookup on exactly the requested non-config keys, with that ledger's anchor and archival settings, through all chunks and retries |
| Materialization.MaterializeIsGrounded | src/capture.rs:372-445 | For every provider, an Ok result covers exactly the requested non-config keys, is validated, and rests on an anchor that was reported and accepted; it is also coherent in every chain the provider is honest about |
| Materialization.ChunksFromOneLedger | src/capture.rs:386-414 | Chunks accepted against one anchor all agree with the ledger that anchor names and cover exactly the requested ids |
| Materialization.UnchangingNeverIncoherent | src/capture.rs:372-445 | On an unchanging ledger materialization never reports `IncoherentLedger`, however often calls fail |
| CoherenceRetries.IncoherentMeansMoved | src/capture.rs:372-445 | `IncoherentLedger` is reported only after all allowed attempts, each of at least three calls, in each of which two reported anchors differ or a batch came from another ledger |
| CoherenceRetries.LateReliabilitySuffices | src/capture.rs:379-444 | However many attempts a moving ledger has cost, if one is left when the provider becomes reliable the keys are materialized |
| CoherenceRetries.MovingOnceIsRetried | src/capture.rs:379-444 | With one stale anchor and any valid ledger afterwards: two attempts succeed, a limit of one ends in `IncoherentLedger` |
| CoherenceRetries.AcceptedMeansAgreed | src/capture.rs:379-420 | Against any provider, what is accepted rests on an anchor that was reported both before and after its batches |
| CoherenceRetries.MaterializeCalls | src/capture.rs:384-441 | Against a reliable provider one attempt is made: two anchors and one batch for every 200 keys, the archival key included |
| Providers.BatchIsLookup | src/capture.rs:1734-1750 | A batch that passes validation gives, for every requested key, what the serving ledger has for it, even when the provider adds, repeats or reorders entries |
| Providers.BatchAcceptedWhenProper | src/capture.rs:1734-1750 | A batch is accepted if and only if all requested keys encode, every entry was asked for, and no key is answered twice |
| Closure.ExpandCloses | src/capture.rs:447-501 | For every provider, on Ok all input keys are kept, only code and tag keys are added, coverage is exactly the final keys (and coherent if the provider is honest), and every executable is runnable from it |
| Closure.NoNewInstances | src/capture.rs:447-501 | Keys added by the closure never bring in a new contract instance, the reason the closure settles |
| Closure.ExpandSettles | src/capture.rs:447-501 | On an unchanging ledger the closure re-materializes at most twice and never reports a limit error, neither its own nor one of its fetches |
| Closure.RefetchesCount | src/capture.rs:447-501 | The count used there is the loop's own: with no re-materialization the closure makes no call, otherwise it fails with that fetch's error or goes on from its result |
| CoverageChecks.EnsureClosureMeansRunnable | src/capture.rs:1844-1923 | The closure check passes if and only if every captured instance leads, directly or through its reference entry, to Present code |
| CoverageChecks.ValidateCoverage | src/capture.rs:1766-1824 | The scan succeeds if and only if every state passes key, code-hash and TTL checks; it never reports a limit error |
| CoverageChecks.ValidMeansSound | src/capture.rs:1766-1824 | Coverage is valid if and only if every Present entry is under its own key, not from the future, with its own code hash, of a capturable kind and within its TTL bounds |
| CoverageChecks.SnapshotNeverFails | src/capture.rs:1925-1948 | For validated coverage without the config key the snapshot's internal-invariant exits are unreachable |
| CoverageChecks.SnapshotIsPresentPart | src/capture.rs:1925-1948 | The snapshot's ledger map is exactly the Present part of the coverage |
| Scenarios.FailureLatches | src/capture.rs:1402-1452 | After a failure the rest of a pass makes no transport call and records nothing |
| Scenarios.FailedReadIsNotAbsence | src/capture.rs:1402-1452 | A failing read answers with a Host error and never adds a cache entry for its key |
| Scenarios.CachedPassIsStrict | src/capture.rs:1402-1452 | A pass without RPC reads is identical, answers and marks included, to the pass without a transport |
| Scenarios.ReadsMeanOutsideCoverage | src/capture.rs:1402-1452 | In a failure-free pass `rpc_reads > 0` if and only if some requested key lies outside the starting coverage |
| Scenarios.PassesAgree | src/capture.rs:1402-1452 | On an unchanging ledger two failure-free passes of one interaction tree ask, answer, store and mark the same, whatever their caches |
| Scenarios.PassIsDirect | src/capture.rs:1402-1452 | On an unchanging ledger a failure-free pass is the run that the ledger itself answers, whatever was cached |
| Discovery.CaptureRestsOn | src/capture.rs:244-349 | For every provider, a successful capture rests on one closed materialization of exactly its keys that its last pass did not leave, and keeps every seed key |
| CaptureCauses.VerdictMeaning | src/capture.rs:274-309 | A round goes on if and only if its pass did not fail, can be inspected, and touched a new network key; panic, leftover read and success are told apart only when it did not |
| CaptureCauses.PanicOnlyAtRest | src/capture.rs:244-349 | Against any provider `ScenarioPanicked` comes only from a pass over captured state that did not fail, touched nothing new and panicked, with every seed key kept |
| SightedScenarios.PanicIsTriedAgain | src/capture.rs:287-306 | A concrete scenario that panics until its snapshot holds the key it reads is captured, in two rounds |
| CaptureCauses.NetworkIsChecked | src/capture.rs:351-361 | A failing, foreign or unsupported network ends the capture with its own error after that one call |
| CaptureCauses.CapturedEntriesAreSound | src/capture.rs:1766-1824 | Against any provider every captured entry is sound: own key, own code hash, TTL within bounds |
| CaptureCauses.HeaderIsTheLedgers | src/capture.rs:423-439 | Field by field, the captured header is that of the ledger its sequence number names, both minimum TTLs included |
| CaptureCauses.ReportIsTrue | src/capture.rs:311-341 | Against any provider the report counts rounds and entries truly, carries the inventory's digest, and the provenance names a reported anchor |
| CaptureLaws.ReplayIsLastPass | src/capture.rs:649-695 | Strict replay sees exactly the reads, answers and stored keys of the last discovery pass |
| CaptureLaws.SettledReplays | src/capture.rs:649-695 | The exact replay result of a settled capture: Ok, or one unknown key when the archival key was left stored |
| StrictReplays.ReplayDecided | src/capture.rs:675-694 | For every fixture and scenario: replay is Ok if and only if the Host can be inspected, others' stored keys encode, nothing was requested or left stored outside the fixture, and there was no panic; each error if and only if its own cause, `UnknownLedgerKeys` with the number of keys outside |
| StrictReplays.ReplayTraced | src/capture.rs:1402-1452 | Every answer of a replay is the one that fixture, earlier marks and earlier failures determine, and every key of others that could be asked for is requested |
| StrictReplays.ReplayReadsAreCovered | src/capture.rs:649-695 | When replay is Ok, each key the scenario read without having marked it is in the fixture, and the answer was the fixture's |
| StrictReplays.MarkedReadsAreLocal | src/capture.rs:74-98 | A key is the scenario's own if and only if an earlier action marked its contract, account or code, and reading it then finds nothing |
| CaptureLaws.CaptureImpliesReplay | src/capture.rs:244-349 | From any seed and against any provider, a capture that returned Ok replays Ok if and only if its last pass left no archival key stored; the traces are equal in both cases |
| ArchivalKeys.CaptureReplaysAlways | src/capture.rs:244-349 | For every provider and every scenario that never stores the archival key, capture Ok implies replay Ok |
| ArchivalKeys.LedgerDecidesReplay | src/capture.rs:649-695 | On an unchanging ledger a capture of a blind scenario that returned Ok replays Ok if and only if the scenario, answered by that ledger itself, leaves the archival key unstored |
| ArchivalKeys.ArchivalStoreDoesNotReplay | src/capture.rs:675-688 | A concrete scenario and provider for which capture succeeds and replay reports one unknown key |
| ArchivalKeys.ArchivalStoreIsWellFormed | src/capture.rs:311-345 | That capture is still a well-formed fixture, so it can be written, loaded and forked |
| CaptureLaws.InternalInvariantMeansArchivalRead | src/capture.rs:274-309 | At a fixed point the `InternalInvariant` exit is taken if and only if a normally ended scenario read the archival key |
| ArchivalKeys.InternalInvariantNeedsArchival | src/capture.rs:244-349 | Against any provider, a whole capture of a scenario that never reads the archival key never ends in `InternalInvariant`, from none of the places that could report it |
| ArchivalKeys.CaptureNeverAsked | src/capture.rs:304-309 | Against any provider, the last pass of a successful capture never asked for the archival key |
| ArchivalKeys.ArchivalReadIsBroken | src/capture.rs:307-309 | Reading the archival key once, against a provider without faults, ends in that error |
| CaptureLaws.SettledWellFormed | src/capture.rs:311-345 | Against any provider, a capture records an anchor that was reported, and is a well-formed fixture, so it can be written and read back, if and only if that anchor carries a hash |
| Convergence.TwoRoundConvergence | src/capture.rs:244-349 | On an unchanging ledger, for a scenario that does not look at its seeded snapshot and a round limit of at least two: no limit error is ever reported and a success takes at most two rounds, from any seed |
| Convergence.MoreMeansNew | src/capture.rs:287-302 | A round that goes on has met a touched network key that was not among the keys, and keeps it |
| Convergence.RoundsBoundedByTouch | src/capture.rs:244-349 | Every scenario, from any seed and against any provider: if it can touch at most K network keys outside the seed, success takes at most K + 1 rounds and a limit above K is never reported |
| Convergence.SightedConvergence | src/capture.rs:244-349 | On an unchanging ledger with a limit above K, no limit of any kind is reported for such a scenario |
| SightedScenarios.SightedScenarioTakesThreeRounds | src/capture.rs:1950-1957 | A concrete scenario that reads the next key only once its snapshot holds the first: a limit below three ends in `FixedPointLimit`, any other in a capture of three rounds, on a ledger that never changes |
| SightedScenarios.SeedDecidesSightedScenario | src/capture.rs:1950-1957 | A concrete scenario that panics from every seed without one key and is captured from every seed with it |
| CaptureFates.MaterializeSucceeds | src/capture.rs:372-445 | Against a provider that answers every call from one valid ledger, keys of capturable kinds are always materialized |
| CaptureFates.RefetchSucceeds | src/capture.rs:447-501 | So is their executable closure, when the ledger holds the code of its own instances |
| CaptureFates.LedgerDecidesCapture | src/capture.rs:244-349 | Against such a provider a blind scenario that touches only such keys has one result, whatever the seed: `HostInspection`, `ScenarioPanicked`, `InternalInvariant` or success in at most two rounds, exactly as its run on the ledger itself ends, panics, reads the archival key, or does none of these |
| SightedScenarios.ExactIsReliable | src/capture.rs:1633-1652 | Such a provider exists for every ledger that stores its entries under their own keys |
| Capture.TrackingSource.Read | src/capture.rs:1402-1452 | One read: latch, local ownership, request recording, cache, strict refusal or RPC with validation; new state, call count and answer equal the specification |
| Capture.TrackingSource.RunScenario | src/capture.rs:1402-1452 | A whole pass over the object equals the specified run of the interaction tree |
| Capture.CaptureBuilder.CheckNetwork | src/capture.rs:351-361 | Passphrase and protocol are checked in one call |
| Capture.CaptureBuilder.CachedAnchorIsCurrent | src/capture.rs:229-235 | Two calls, no ledger entries; true if and only if all five anchor fields agree |
| Capture.CaptureBuilder.FetchAll | src/capture.rs:386-414 | The chunk loop of at most 200 keys equals the specified chunked fetch, call by call |
| Capture.CaptureBuilder.Attempt | src/capture.rs:379-441 | One coherence attempt: anchor, chunks, anchor |
| Capture.CaptureBuilder.MaterializeKeys | src/capture.rs:372-445 | The retry loop equals the specified materialization |
| Capture.CaptureBuilder.ExpandCodeClosure | src/capture.rs:447-501 | The bounded closure loop equals the specified closure |
| Capture.CaptureBuilder.RunRound | src/capture.rs:258-309 | One discovery round ends with the specified verdict: error, more keys, or fixed point |
| Capture.CaptureBuilder.CaptureFromKeys | src/capture.rs:244-349 | The whole discovery loop equals the specified capture, including its call count |
| Capture.ReplayWithLocal | src/capture.rs:649-695 | Replay over the objects equals the specified strict replay |
| Runner.HitMeansCurrentAndReplayed | src/auto.rs:350-373 | A Hit returns the cached fixture, after a passed network check, an equal anchor and a passing replay, with two calls, none for entries, and an untouched file |
| RunnerOutcomes.CachedRunDecided | src/auto.rs:350-377 | With a loading cache and the right network: a moved anchor, or an unknown key met by the replay under the current one, leads to a capture from the cached inventory; a passing replay is a hit; any other replay error is returned, the file untouched |
| RunnerOutcomes.ColdRunCaptures | src/auto.rs:378-412 | Without a cache to use the run is a capture from nothing; it is returned only after strict replay, and result and file follow the outcome of the write |
| RunnerOutcomes.UnusableCacheOrProvider | src/auto.rs:355-362 | A cache that does not load, or a provider that fails or is of another network or protocol, ends the run before anything is captured, the file untouched |
| RunnerOutcomes.OfflineDecided | src/auto.rs:312-335 | An offline run succeeds if and only if the cache is usable, loads, and its replay passes, and is then a hit on it |
| Runner.FileChangesOnlyAfterReplay | src/auto.rs:374-412 | Whenever the file changed, its content is the bundle of a capture that just passed strict replay; every earlier error leaves it alone |
| Runner.StaleCacheSeeds | src/capture.rs:697-709 | A cached bundle of either schema that loads but is out of date never blocks its own refresh: its inventory always passes the checks |
| Runner.LoadedIsWellFormed | src/capture.rs:821-844 | What loads from the cache, in either schema, is a well-formed capture |
| RunnerOutcomes.LoadedIsRight | src/fixture.rs:194-216 | Whatever loads is of the configured network and a supported protocol, with the digests it states |
| Runner.RefreshKeepsInventory | src/auto.rs:374-376 | A seeded refresh covers every cached key, whatever the provider does, and takes every value, old keys included, from the one ledger its anchor names when the provider is honest |
| Runner.OnlineThenOffline | src/auto.rs:308-336 | After any successful cached online run the offline run of the same scenario is a Hit on the identical fixture |
| Runner.OnlineThenOnline | src/auto.rs:350-412 | After a capturing run the next online run, with whatever provider, is that fixture's Hit if and only if the provider passes the network check and still reports the anchor |
| Runner.AutoRunner.RunOnline | src/auto.rs:350-412 | Result, call count and file content equal the specified run for every file-system outcome |
| Runner.AutoRunner.RunOffline | src/auto.rs:312-335 | Without a transport: load, replay, Hit, or the missing-cache error |
| Bundles.BundleRoundTrip | src/capture.rs:729-819 | Every well-formed capture can be written and loads back as itself |
| Bundles.BundleCanonical | src/capture.rs:774-819 | Every bundle that loads yields a well-formed capture that writes back to the same bundle, field for field |
| OldBundles.OldBundleUpgrades | src/capture.rs:846-895 | A schema-1 bundle that loads is a well-formed capture with its root instance Present; written in the current schema it loads as the same capture |
| OldBundles.OldBundleLoads | src/capture.rs:846-895 | Every well-formed capture that holds its root contract loads from its schema-1 bundle |
| OldBundles.OldBundleCanonical | src/capture.rs:1012-1044 | A schema-1 bundle that loads is, field for field, that of what it loads as |
| OldBundles.OldBundlePreimageInjective | src/capture.rs:2008-2029 | Its preimages are equal if and only if the root contract and every digested part are equal |
| Bundles.CoverageRoundTrip | src/capture.rs:1046-1093 | Present entries plus the encoded known-absent list give back the coverage |
| Bundles.CoverageCanonical | src/capture.rs:1046-1093 | Accepted lists are the one canonical listing of the coverage's Absent keys |
| Bundles.EnvelopeCanonical | src/capture.rs:953-984 | An accepted envelope carries exactly the canonical hex spellings of its three digests |
| Bundles.ReadBundleCoverage | src/capture.rs:1046-1093 | The two loops, with all error exits in source order, equal the specified decoding |
| Digests.InventoryPreimageInjective | src/capture.rs:1959-1985 | Inventory preimages are equal if and only if the Present/Absent maps are equal |
| Digests.ComputeInventoryDigest | src/capture.rs:1959-1985 | The hashing loop feeds exactly that preimage and fails exactly when an entry does not encode |
| Digests.BundlePreimageInjective | src/capture.rs:2031-2063 | Bundle preimages are equal if and only if known-absent keys, report, provenance and both digests are equal |
| Digests.ComputeBundleDigest | src/capture.rs:1987-2063 | The hashing loop feeds exactly that preimage |
| HexText.HexDigestIff | src/capture.rs:2065-2087 | A text decodes to a digest if and only if it is that digest's lower-case hex |
| HexText.DecodeHexDigest | src/capture.rs:2065-2087 | The nibble loop equals that decoding, rejections included |
| Origin.RedactedShape | src/capture.rs:2209-2226 | A redacted origin is http or https, a separator and a non-empty host without user info, path, query or fragment |
| Origin.UrlIsRedacted | src/capture.rs:2209-2226 | Every http or https URL, with or without user info, path, query or fragment, is accepted and reduced to its scheme and host |
| Origin.RedactedIsUrl | src/capture.rs:2209-2226 | Nothing else is accepted |
| Origin.RedactIdempotent | src/capture.rs:2209-2226 | Redaction is idempotent |
| Fixture.LedgerPreimageInjective | src/fixture.rs:257-307 | Accepted snapshots have equal digest preimages if and only if metadata and key-to-(entry, TTL) maps are equal |
| Fixture.LedgerDigestPermutation | src/fixture.rs:257-307 | Neither the digest nor the key named by the duplicate-key error depends on the order of entries, for every snapshot whose entries match and encode, and whether they do does not either |
| Fixture.EqualNeighbourIsLeast | src/fixture.rs:271-278 | The first equal neighbours after sorting name the least duplicated key |
| Fixture.CanonicalLedgerDigest | src/fixture.rs:257-307 | Push, sort, duplicate scan and hashing loop equal the order-free specification |
| ForkOutcomes.AcceptedMeans | src/fixture.rs:257-278 | A snapshot has a digest if and only if every entry is under its own key and encodes, and no key occurs twice |
| Diffs.StateDiffIsDiff | src/strict.rs:815-845 | The diff is strictly key-ordered, has no no-op, names exactly the keys whose values differ with their old and new values, and is empty if and only if the ledgers are equal |
| Diffs.StateDiffApplies | src/strict.rs:815-845 | Applying the diff to the old ledger gives the new one |
| Diffs.ComputeStateDiff | src/strict.rs:794-845 | The accumulating loop equals the specified diff |
| Diffs.UpdateNeverFails | src/strict.rs:847-859 | The coverage update cannot fail on changes whose keys encode |
| Diffs.UpdateKeepsAgreement | src/strict.rs:847-859 | Coverage that indexes the old ledger indexes the new one after the update, and gains only changed keys |
| Diffs.StrippedAt | src/strict.rs:745-775 | Stripping removes exactly the nonces that were not there before and keeps every other value |
| Diffs.ComputeStrip | src/strict.rs:745-775 | The filter loop equals the specified stripping, encoding failures included |
| StrictForks.StrictSource.Read | src/strict.rs:651-677 | The answer, and exactly the unknown id added |
| StrictForks.ScanUnknown | src/strict.rs:701-723 | The scan over stored entries collects exactly the unknown touched ids, or the inspection or encoding error |
| StrictForks.StrictFork.FromCaptured | src/strict.rs:203-225 | A fresh fork executes the downgraded protocol and remembers the network's |
| StrictForks.StrictFork.TakeACheckpoint | src/strict.rs:276-284 | The checkpoint holds ledger, coverage and both local sets |
| StrictForks.StrictFork.RevertTo | src/strict.rs:294-311 | Foreign checkpoints are refused without change; own ones replace all state and clear receipts |
| StrictForks.StrictFork.RegisterCandidate | src/strict.rs:322-410 | Result and whole new state equal the specified registration |
| StrictForks.StrictFork.InvokeContract | src/strict.rs:419-521 | Result and whole new state equal the specified invocation |
| ForkLaws.CapturedForkInv | src/strict.rs:203-225 | A fork of a well-formed capture starts with the fork invariant |
| ForkLaws.AnswerIsLookup | src/strict.rs:651-677 | Every answer for a known or local key equals a direct ledger lookup |
| ForkLaws.UnknownIsRejected | src/strict.rs:455-468 | An invocation that touches an unknown key errs and promotes nothing, in every mode |
| ForkLaws.UnknownErrorIsComplete | src/strict.rs:455-468 | The unknown-keys error lists, in key order, exactly the touched keys that were unknown |
| ForkLaws.UnknownRegistrationIsRejected | src/strict.rs:373-387 | The same for registrations, with the candidate's own keys counted as local |
| ForkLaws.ChangedMeansKnown | src/strict.rs:455-482 | A key whose value changes was covered or locally owned, mock nonces included |
| ForkLaws.InvokeKeepsInv | src/strict.rs:419-521 | Every invocation keeps index agreement, bounded coverage and an encodable ledger |
| ForkLaws.InvokeIsAtomic | src/strict.rs:419-521 | An error changes nothing; Preview and a failed Apply only append their receipt |
| ForkOutcomes.InvokeDecided | src/strict.rs:419-521 | An invocation of a well-kept fork succeeds if and only if values and authorization convert, the execution can be inspected and touched nothing foreign, an exact mock matches, and the ledger (less new mock nonces) and diagnostics can be reported; each error if and only if its own cause |
| ForkLaws.CommittedReceipt | src/strict.rs:478-519 | A committed receipt's digests are the fork's before and after, and its changes turn the old ledger into the new |
| ForkLaws.RegisterIsAtomic | src/strict.rs:393-399 | A failed registration changes nothing: the in-place update runs only on keys that `state_diff` already encoded |
| ForkOutcomes.RegisterDecided | src/strict.rs:322-410 | The same for a registration, an occupied address and a wrong hash included; success adds exactly the candidate to the local sets |
| ForkLaws.RegisterKeepsInv | src/strict.rs:322-410 | Every registration keeps the invariant, and its changes and digests describe its step |
| ForkLaws.StepKeepsInv | src/strict.rs:294-521 | Each operation keeps the invariant of the fork, of all its checkpoints, and the promotion log |
| ForkLaws.RunsKeepInv | src/strict.rs:294-521 | The same after every run: exact index, bounded coverage, and committed receipts and registrations that form one digest chain replaying to the current ledger |
| ForkLaws.UnknownStaysUnknown | src/strict.rs:294-521 | From a capture, after any run every covered key was captured or is owned by a registered local contract or code |
| ForkLaws.RunsExecuteSupported | src/runtime.rs:161-196 | After any run the Host executes the supported protocol, and what the fork reports names the network's |
| ForkLaws.RevertRestores | src/strict.rs:276-311 | Reverting to an own checkpoint restores the checkpointed fork, receipts aside |
| ForkLaws.MockAddsNoNonce | src/strict.rs:427-481 | A mocked invocation adds no nonce to ledger or coverage and keeps every other Host change |
| ForkLaws.MockRunsAddNoNonce | src/strict.rs:427-481 | No run of mocked invocations adds a nonce |
| ForkLaws.EnforcedNonceIsKnown | src/strict.rs:725-743 | Under Enforce a nonce enters only if covered or owned by a local contract |
| RateLimiters.IntervalIsLeast | src/capture.rs:1499-1505 | The interval is the least one at which `rate` requests fill a second |
| RateLimiters.GrantLaw | src/capture.rs:1473-1489 | Each grant is the maximum of the clock and the previous grant plus the interval, for any clock readings |
| RateLimiters.GrantsAreEarliest | src/capture.rs:1473-1489 | No schedule that respects clock and interval sends any request earlier |
| RateLimiters.RateBound | src/capture.rs:1473-1505 | Any half-open second contains at most `rate` grants |
| RateLimiters.SessionRateBound | src/capture.rs:1514-1576 | Over any sequence of RPC calls through one limiter, all retries included, any half-open second contains at most `rate` sends |
| RateLimiters.CallsAreOneSequence | src/capture.rs:1514-1576 | The grants of successive calls, each with its own retries, are the grants of one sequence of requests |
| RateLimiters.RequestRateLimiter.ReserveDelay | src/capture.rs:1473-1489 | Delay and new reservation equal the specified step |
| RateLimiters.SendReadRpcWithRetry | src/capture.rs:1555-1595 | Number of sends, pauses, final outcome, and one reservation per send, retries included; every pause is exactly the longer of what server and backoff want, and at most five seconds |
| RateLimiters.SendsExactly | src/capture.rs:1555-1576 | Exactly the outcomes before the last asked for a retry, and the last did not or was the fourth |
| CacheNames.SanitizeCacheName | src/auto.rs:127-155 | The loop computes the words joined by single dashes, cut at 80 characters and trimmed, or the fallback |
| CacheNames.CacheNameIsNormal | src/auto.rs:127-155 | Every result is non-empty, at most 80 characters of letters, digits, `_` and inner single dashes |
| CacheNames.CacheNameSpells | src/auto.rs:127-155 | The name keeps the raw text's word characters in order, and where they are separated: all of them, or the first ones when it is cut, and the fallback only when there is none |
| CacheNames.FixedIffNormal | src/auto.rs:127-155 | A name is its own cache name if and only if it is in that normal form |
| CacheNames.CacheNameIdempotent | src/auto.rs:127-155 | Idempotence, also when the cut falls on a separator |

## Left out

- HTTP, JSON and wire decoding, and all file-system calls: the transport is an
  oracle, the cache path a variable with three write outcomes. That a `Retry-After`
  header is trimmed and parsed is library behaviour; the model starts from its value.
- The Soroban Host, SDK, WASM, auth trees, events, diagnostics, budgets: reduced to
  what one execution reports (`HostRun`, or the interaction tree). That the Host keeps
  the ledger header and that a changed key is among those it read or stored is assumed.
- Scenarios that never end: a scenario's interaction tree has to be well-founded.
- SHA-256, XDR and Base64 internals. Equal digests are not claimed to mean equal
  data; equal preimages are.
- Strkey decoding of the root contract of a schema-1 bundle: some partial function.
- `ScenarioFork` helpers (`local_account`, `fund_local_account`, `deploy`,
  `replace_wasm`, `preview`): not modelled one by one. What they do to a capture is: they
  mark keys as local, read and store keys, and, in a preview, look at the snapshot and
  forward the child's keys as reads; all of these are actions and inputs of a scenario.
- The non-strict `Fork` of src/runtime.rs beyond the protocol downgrade and restore:
  its checkpoint and revert are one assignment each.
- `default_cache_path`'s hash suffix, CLI and capture tools, `build.rs`: no harder
  property.
- Machine lengths: vectors and maps are taken to have fewer than 2^64 elements where a
  length is encoded, and `rpc_reads` is unbounded. `Instant` and `Duration` are
  unbounded nanoseconds, so their overflow panics are not modelled.
- RateLimiters.RateBound: holds for one rate; `set_requests_per_second` forgets the
  last grant, so a window across a change of rate is not bounded. A grant is the
  reserved instant; oversleeping is not modelled.
- CaptureFates.LedgerDecidesCapture: keys that cannot be encoded, and kinds of entry that
  no capture accepts, are excluded by `TouchesCapturable`; a provider that fails or a
  ledger with broken entries by `Reliable` and `Valid`.
- Diffs.ComputeStateDiff: the unreachable inspection error of src/strict.rs:836 is not
  among its results.
- ForkLaws.RunsKeepInv: a checkpoint that carries the fork's id is assumed to have been
  given out by that fork, as the process-wide id counter ensures.
