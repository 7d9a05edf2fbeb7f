/**
 Captured fixtures and their on-disk form, capture bundle schema 2
 (`to_bundle`, `from_bundle`, src/capture.rs).

 The two main results say that bundles which load and well-formed captures are
 in one-to-one correspondence, with `ToBundle` and `FromBundle` as the two maps.
 */
module Bundles {
  import opened Wrappers
  import opened Bytes
  import opened Ordered
  import opened Ledger
  import opened Fixture
  import opened Errors
  import opened CoverageChecks
  import opened Digests
  import opened HexText
  import opened Origin

  const MAX_DISCOVERY_ROUNDS: nat := 16

  datatype CaptureReport = CaptureReport(
    discoveryRounds: nat, presentEntries: nat, absentEntries: nat, inventoryDigest: Digest, finalReplayRpcReads: u64)

  datatype CapturedFixture = CapturedFixture(
    fixture: FrozenFixture, coverage: Coverage, report: CaptureReport, provenance: Provenance)

  datatype CaptureBundle = CaptureBundle(
    schemaVersion: u32, ledgerSnapshot: LedgerSnapshot, knownAbsent: seq<Vec8>, report: BundleReport,
    provenance: Provenance, ledgerDigest: Vec8, inventoryDigest: Vec8, canonicalDigest: Vec8)

  // ----- Writing -----

  function EncodeTexts(ids: seq<KeyId>): (r: seq<Vec8>)
    ensures |r| == |ids| && forall i | 0 <= i < |ids| :: r[i] == Base64Encode(ids[i])
  {
    seq(|ids|, i requires 0 <= i < |ids| => Base64Encode(ids[i]))
  }

  /** `known_absent_keys`, in key order. */
  function KnownAbsent(coverage: Coverage): seq<KeyId> {
    Sorted(AbsentIds(coverage))
  }

  function ToBundle(f: CapturedFixture): Result<CaptureBundle, CaptureError> {
    var knownAbsent := EncodeTexts(KnownAbsent(f.coverage));
    var inventory :- InventoryDigest(f.coverage);
    if inventory != f.report.inventoryDigest then Err(InternalInvariant)
    else if f.report.discoveryRounds >= U32_LIMIT || f.report.presentEntries >= U64_LIMIT
            || f.report.absentEntries >= U64_LIMIT then Err(InternalInvariant)
    else
      var report := BundleReport(f.report.discoveryRounds, f.report.presentEntries, f.report.absentEntries,
                                 f.report.finalReplayRpcReads);
      var canonical :- BundleDigest(knownAbsent, report, f.provenance, f.fixture.ledgerDigest, inventory);
      Ok(CaptureBundle(CAPTURE_BUNDLE_SCHEMA_VERSION, f.fixture.snapshot, knownAbsent, report, f.provenance,
                       Hex(f.fixture.ledgerDigest), Hex(inventory), Hex(canonical)))
  }

  // ----- Reading -----

  function ValidateMetadata(b: CaptureBundle, expected: Vec8): Result<(), CaptureError> {
    if b.provenance.passphrase != expected then Err(CaptureError.NetworkMismatch)
    else
      var origin :- RedactOrigin(b.provenance.rpcOrigin);
      if origin != b.provenance.rpcOrigin then Err(MalformedCaptureBundle)
      else if b.provenance.ledgerSequence != b.ledgerSnapshot.info.sequenceNumber
              || b.provenance.protocolVersion != b.ledgerSnapshot.info.protocolVersion
              || b.provenance.ledgerHash == []
              || b.report.discoveryRounds == 0
              || b.report.discoveryRounds > MAX_DISCOVERY_ROUNDS
              || b.report.finalReplayRpcReads != 0
      then Err(CaptureBundleIntegrity)
      else Ok(())
  }

  datatype BundleDigests = BundleDigests(ledger: Digest, inventory: Digest)

  /** `validate_bundle_envelope`. */
  function ValidateEnvelope(b: CaptureBundle, expected: Vec8): Result<BundleDigests, CaptureError> {
    if b.schemaVersion != CAPTURE_BUNDLE_SCHEMA_VERSION then
      Err(UnsupportedCaptureBundleSchema(b.schemaVersion, CAPTURE_BUNDLE_SCHEMA_VERSION))
    else
      var _ :- ValidateMetadata(b, expected);
      var ledger :- HexDigest(b.ledgerDigest);
      var inventory :- HexDigest(b.inventoryDigest);
      var actual :- HexDigest(b.canonicalDigest);
      var canonical :- BundleDigest(b.knownAbsent, b.report, b.provenance, ledger, inventory);
      if actual != canonical then Err(CaptureBundleIntegrity) else Ok(BundleDigests(ledger, inventory))
  }

  function AddPresent(coverage: Coverage, value: LedgerValue): Result<Coverage, CaptureError> {
    var key := value.entry.ToKey();
    if key == STATE_ARCHIVAL_KEY then Err(MalformedCaptureBundle)
    else
      match KeyXdr(key)
      case None => Err(Xdr)
      case Some(id) =>
        if id in coverage then Err(CaptureBundleIntegrity)
        else Ok(coverage[id := Present(value.entry, value.liveUntil)])
  }

  function PresentCoverage(entries: seq<SnapshotEntry>): Result<Coverage, CaptureError> {
    if entries == [] then Ok(map[])
    else
      var coverage :- PresentCoverage(entries[..|entries| - 1]);
      AddPresent(coverage, entries[|entries| - 1].value)
  }

  datatype Absents = Absents(coverage: Coverage, previous: Option<KeyId>)

  /** A key that decodes and re-encodes to itself and is not the archival config. */
  predicate CanonicalId(id: KeyId) {
    && KeyFromXdr(id).Some?
    && KeyXdr(KeyFromXdr(id).value) == Some(id)
    && KeyFromXdr(id).value != STATE_ARCHIVAL_KEY
  }

  function AddAbsent(so: Absents, text: Vec8): Result<Absents, CaptureError> {
    match Base64Decode(text)
    case None => Err(MalformedCaptureBundle)
    case Some(bytes) =>
      if Base64Encode(bytes) != text then Err(MalformedCaptureBundle)
      else if KeyFromXdr(bytes).None? then Err(MalformedCaptureBundle)
      else
        var key := KeyFromXdr(bytes).value;
        if KeyXdr(key).None? then Err(Xdr)
        else if KeyXdr(key).value != bytes || key == STATE_ARCHIVAL_KEY then Err(MalformedCaptureBundle)
        else if so.previous.Some? && !Less(so.previous.value, bytes) then Err(MalformedCaptureBundle)
        else if bytes in so.coverage then Err(CaptureBundleIntegrity)
        else Ok(Absents(so.coverage[bytes := LookupState.Absent], Some(bytes)))
  }

  function AbsentCoverage(coverage: Coverage, texts: seq<Vec8>): Result<Absents, CaptureError> {
    if texts == [] then Ok(Absents(coverage, None))
    else
      var so :- AbsentCoverage(coverage, texts[..|texts| - 1]);
      AddAbsent(so, texts[|texts| - 1])
  }

  function BundleCoverage(entries: seq<SnapshotEntry>, knownAbsent: seq<Vec8>): Result<Coverage, CaptureError> {
    var present :- PresentCoverage(entries);
    var all :- AbsentCoverage(present, knownAbsent);
    Ok(all.coverage)
  }

  function ValidateBundleCoverage(coverage: Coverage, report: BundleReport, inventory: Digest, info: LedgerInfo)
    : Result<(), CaptureError>
  {
    if ValidateCoverage(coverage, info.sequenceNumber, info.maxEntryTtl).Err? || EnsureClosure(coverage).Err? then
      Err(CaptureBundleIntegrity)
    else
      var digest :- InventoryDigest(coverage);
      if digest != inventory || |PresentIds(coverage)| != report.presentEntries
         || |coverage| - |PresentIds(coverage)| != report.absentEntries
      then Err(CaptureBundleIntegrity)
      else Ok(())
  }

  function FromBundle(b: CaptureBundle, expected: Vec8, policy: ProtocolPolicy): Result<CapturedFixture, CaptureError> {
    var digests :- ValidateEnvelope(b, expected);
    match FromSnapshot(b.ledgerSnapshot, expected, policy)
    case Err(e) => Err(FixtureFailure(e))
    case Ok(fixture) =>
      if fixture.ledgerDigest != digests.ledger then Err(CaptureBundleIntegrity)
      else
        var coverage :- BundleCoverage(b.ledgerSnapshot.entries, b.knownAbsent);
        var _ :- ValidateBundleCoverage(coverage, b.report, digests.inventory, b.ledgerSnapshot.info);
        var present := |PresentIds(coverage)|;
        PresentAndAbsent(coverage);
        Ok(CapturedFixture(
             fixture, coverage,
             CaptureReport(b.report.discoveryRounds, present, |coverage| - present, digests.inventory, 0),
             b.provenance))
  }

  // ----- The coverage loops -----

  method ReadBundleCoverage(entries: seq<SnapshotEntry>, knownAbsent: seq<Vec8>)
    returns (r: Result<Coverage, CaptureError>)
    ensures r == BundleCoverage(entries, knownAbsent)
  {
    var coverage: Coverage := map[];
    for k := 0 to |entries|
      invariant PresentCoverage(entries[..k]) == Ok(coverage)
    {
      assert entries[..k + 1][..k] == entries[..k];
      var next := AddPresent(coverage, entries[k].value);
      if next.Err? {
        PresentFailure(entries, k);
        return Err(next.error);
      }
      coverage := next.value;
    }
    assert entries[..|entries|] == entries;
    ghost var present := coverage;
    var so := Absents(coverage, None);
    for k := 0 to |knownAbsent|
      invariant AbsentCoverage(present, knownAbsent[..k]) == Ok(so)
    {
      assert knownAbsent[..k + 1][..k] == knownAbsent[..k];
      var next := AddAbsent(so, knownAbsent[k]);
      if next.Err? {
        AbsentFailure(present, knownAbsent, k);
        return Err(next.error);
      }
      so := next.value;
    }
    assert knownAbsent[..|knownAbsent|] == knownAbsent;
    return Ok(so.coverage);
  }

  lemma {:induction false} PresentFailure(entries: seq<SnapshotEntry>, k: nat)
    requires k < |entries| && PresentCoverage(entries[..k]).Ok?
    requires AddPresent(PresentCoverage(entries[..k]).value, entries[k].value).Err?
    ensures PresentCoverage(entries) == Err(AddPresent(PresentCoverage(entries[..k]).value, entries[k].value).error)
    decreases |entries|
  {
    var n := |entries| - 1;
    if k < n {
      assert entries[..n][..k] == entries[..k];
      PresentFailure(entries[..n], k);
    }
  }

  lemma {:induction false} AbsentFailure(coverage: Coverage, texts: seq<Vec8>, k: nat)
    requires k < |texts| && AbsentCoverage(coverage, texts[..k]).Ok?
    requires AddAbsent(AbsentCoverage(coverage, texts[..k]).value, texts[k]).Err?
    ensures AbsentCoverage(coverage, texts)
        == Err(AddAbsent(AbsentCoverage(coverage, texts[..k]).value, texts[k]).error)
    decreases |texts|
  {
    var n := |texts| - 1;
    if k < n {
      assert texts[..n][..k] == texts[..k];
      AbsentFailure(coverage, texts[..n], k);
    }
  }

  // ----- Well-formed captures -----

  function StatesOf(ledger: map<KeyId, LedgerValue>): Coverage {
    map id | id in ledger :: Present(ledger[id].entry, ledger[id].liveUntil)
  }

  /** The Present part of the coverage is the ledger, entry and TTL. */
  predicate MatchesLedger(coverage: Coverage, entries: seq<SnapshotEntry>) {
    && (forall id | id in LedgerMap(entries) :: id in coverage && coverage[id] == AsState(Some(LedgerMap(entries)[id])))
    && (forall id | id in coverage && coverage[id].Present? :: id in LedgerMap(entries))
  }

  /** What a capture, and every bundle that loads, satisfies. */
  predicate WellFormed(f: CapturedFixture, passphrase: Vec8, policy: ProtocolPolicy) {
    var info := f.fixture.snapshot.info;
    && FromSnapshot(f.fixture.snapshot, passphrase, policy) == Ok(f.fixture)
    && MatchesLedger(f.coverage, f.fixture.snapshot.entries)
    && (forall id | id in f.coverage :: CanonicalId(id))
    && ValidateCoverage(f.coverage, info.sequenceNumber, info.maxEntryTtl).Ok?
    && EnsureClosure(f.coverage).Ok?
    && InventoryDigest(f.coverage) == Ok(f.report.inventoryDigest)
    && f.report.presentEntries == |PresentIds(f.coverage)| < U64_LIMIT
    && f.report.absentEntries == |AbsentIds(f.coverage)| < U64_LIMIT
    && 1 <= f.report.discoveryRounds <= MAX_DISCOVERY_ROUNDS
    && f.report.finalReplayRpcReads == 0
    && f.provenance.passphrase == passphrase
    && RedactOrigin(f.provenance.rpcOrigin) == Ok(f.provenance.rpcOrigin)
    && f.provenance.ledgerHash != []
    && f.provenance.ledgerSequence == info.sequenceNumber
    && f.provenance.protocolVersion == info.protocolVersion
  }

  // ----- Reading back what was written -----

  lemma {:induction false} PresentCoverageOf(entries: seq<SnapshotEntry>)
    requires EncodeEntries(entries).Ok? && Distinct(EncodeEntries(entries).value)
    requires forall i | 0 <= i < |entries| :: entries[i].key != STATE_ARCHIVAL_KEY
    ensures PresentCoverage(entries) == Ok(StatesOf(LedgerMap(entries)))
  {
    if entries != [] {
      var n := |entries| - 1;
      LastIsNew(entries);
      PresentCoverageOf(entries[..n]);
      StatesOfUpdate(LedgerMap(entries[..n]), KeyXdr(entries[n].key).value, entries[n].value);
    }
  }

  lemma StatesOfUpdate(ledger: map<KeyId, LedgerValue>, id: KeyId, value: LedgerValue)
    ensures StatesOf(ledger[id := value]) == StatesOf(ledger)[id := AsState(Some(value))]
  {
  }

  /** Without duplicates the last entry adds a key to the ledger of the entries before it. */
  lemma LastIsNew(entries: seq<SnapshotEntry>)
    requires entries != [] && EncodeEntries(entries).Ok? && Distinct(EncodeEntries(entries).value)
    ensures var n := |entries| - 1;
      && EncodeEntries(entries[..n]).Ok? && Distinct(EncodeEntries(entries[..n]).value)
      && KeyXdr(entries[n].key).Some? && KeyXdr(entries[n].key).value !in LedgerMap(entries[..n])
      && entries[n].value.entry.ToKey() == entries[n].key
      && LedgerMap(entries) == LedgerMap(entries[..n])[KeyXdr(entries[n].key).value := entries[n].value]
  {
    var n := |entries| - 1;
    var records := EncodeEntries(entries).value;
    EncodedAt(entries, n);
    assert records[..n] == EncodeEntries(entries[..n]).value;
    RowMapIsLedgerMap(entries[..n]);
    RowMapDomain(records[..n], records[n].id);
  }

  function WithAbsent(coverage: Coverage, ids: seq<KeyId>): Coverage {
    coverage + map id | id in ids :: LookupState.Absent
  }

  function LastOf(ids: seq<KeyId>): Option<KeyId> {
    if ids == [] then None else Some(ids[|ids| - 1])
  }

  lemma EncodeTextsAppend(init: seq<KeyId>, id: KeyId)
    ensures EncodeTexts(init + [id]) == EncodeTexts(init) + [Base64Encode(id)]
  {
  }

  lemma WithAbsentAppend(coverage: Coverage, init: seq<KeyId>, id: KeyId)
    ensures WithAbsent(coverage, init + [id]) == WithAbsent(coverage, init)[id := LookupState.Absent]
    ensures forall x :: x in WithAbsent(coverage, init) <==> x in coverage || x in init
  {
    assert forall x :: x in init + [id] <==> x in init || x == id;
  }

  lemma SortedInit(init: seq<KeyId>, id: KeyId)
    requires StrictlySorted(init + [id])
    ensures StrictlySorted(init) && id !in init
    ensures Precedes(LastOf(init), id)
  {
    var ids := init + [id];
    forall i | 0 <= i < |init| ensures ids[i] == init[i] && Less(init[i], id) && init[i] != id {
      assert Less(ids[i], ids[|init|]);
      LessIrreflexive(id);
    }
  }

  lemma SortedAppend(init: seq<KeyId>, id: KeyId)
    requires StrictlySorted(init) && Precedes(LastOf(init), id)
    ensures StrictlySorted(init + [id])
  {
    forall i | 0 <= i < |init| ensures Less(init[i], id) {
      if i < |init| - 1 { LessTransitive(init[i], init[|init| - 1], id); }
    }
  }

  predicate Precedes(previous: Option<KeyId>, id: KeyId) {
    previous.Some? ==> Less(previous.value, id)
  }

  /** What one step of the absent loop accepts, and what it does then. */
  lemma AddAbsentIff(so: Absents, text: Vec8, id: KeyId)
    ensures AddAbsent(so, text).Ok? && Base64Decode(text) == Some(id)
      <==> text == Base64Encode(id) && CanonicalId(id) && id !in so.coverage && Precedes(so.previous, id)
    ensures AddAbsent(so, text).Ok? && Base64Decode(text) == Some(id)
      ==> AddAbsent(so, text).value == Absents(so.coverage[id := LookupState.Absent], Some(id))
  {
    Base64RoundTrip(id);
  }

  lemma {:induction false} AbsentCoverageOf(coverage: Coverage, ids: seq<KeyId>)
    requires StrictlySorted(ids)
    requires forall i | 0 <= i < |ids| :: CanonicalId(ids[i]) && ids[i] !in coverage
    ensures AbsentCoverage(coverage, EncodeTexts(ids)) == Ok(Absents(WithAbsent(coverage, ids), LastOf(ids)))
  {
    if ids == [] {
      assert WithAbsent(coverage, ids) == coverage;
    } else {
      var init, id := ids[..|ids| - 1], ids[|ids| - 1];
      assert ids == init + [id];
      SortedInit(init, id);
      AbsentCoverageOf(coverage, init);
      hide StrictlySorted, WithAbsent, EncodeTexts, AddAbsent, CanonicalId, Less;
      EncodeTextsAppend(init, id);
      WithAbsentAppend(coverage, init, id);
      AddAbsentIff(Absents(WithAbsent(coverage, init), LastOf(init)), Base64Encode(id), id);
      AbsentCoverageAppend(coverage, EncodeTexts(init), Base64Encode(id));
    }
  }

  lemma AbsentCoverageAppend(coverage: Coverage, init: seq<Vec8>, text: Vec8)
    ensures AbsentCoverage(coverage, init + [text])
      == match AbsentCoverage(coverage, init) case Ok(so) => AddAbsent(so, text) case Err(e) => Err(e)
  {
    assert (init + [text])[..|init|] == init;
  }

  /** The written coverage is read back, whatever order the snapshot is in. */
  lemma CoverageRoundTrip(coverage: Coverage, snapshot: LedgerSnapshot)
    requires Accepted(snapshot) && MatchesLedger(coverage, snapshot.entries)
    requires forall id | id in coverage :: CanonicalId(id)
    ensures BundleCoverage(snapshot.entries, EncodeTexts(KnownAbsent(coverage))) == Ok(coverage)
  {
    var ledger, ids := LedgerMap(snapshot.entries), KnownAbsent(coverage);
    DistinctMeansNoDuplicates(Records(snapshot));
    forall i | 0 <= i < |snapshot.entries| ensures snapshot.entries[i].key != STATE_ARCHIVAL_KEY {
      NotArchival(coverage, snapshot, i);
    }
    PresentCoverageOf(snapshot.entries);
    AbsentIdsApart(coverage, snapshot.entries);
    AbsentCoverageOf(StatesOf(ledger), ids);
    PresentPlusAbsent(coverage, snapshot.entries);
  }

  lemma NotArchival(coverage: Coverage, snapshot: LedgerSnapshot, i: nat)
    requires Accepted(snapshot) && MatchesLedger(coverage, snapshot.entries)
    requires forall id | id in coverage :: CanonicalId(id)
    requires i < |snapshot.entries|
    ensures snapshot.entries[i].key != STATE_ARCHIVAL_KEY
  {
    EncodedAt(snapshot.entries, i);
    var id := Records(snapshot)[i].id;
    LedgerMapDomain(snapshot.entries, id);
    KeyXdrRoundTrip(snapshot.entries[i].key, id);
    assert CanonicalId(id);
  }

  lemma AbsentIdsApart(coverage: Coverage, entries: seq<SnapshotEntry>)
    requires MatchesLedger(coverage, entries)
    requires forall id | id in coverage :: CanonicalId(id)
    ensures var ids := KnownAbsent(coverage);
      forall i | 0 <= i < |ids| :: CanonicalId(ids[i]) && ids[i] !in StatesOf(LedgerMap(entries))
  {
    var ids := KnownAbsent(coverage);
    forall i | 0 <= i < |ids| ensures CanonicalId(ids[i]) && ids[i] !in StatesOf(LedgerMap(entries)) {
      assert ids[i] in ids;
    }
  }

  lemma PresentPlusAbsent(coverage: Coverage, entries: seq<SnapshotEntry>)
    requires MatchesLedger(coverage, entries)
    ensures WithAbsent(StatesOf(LedgerMap(entries)), KnownAbsent(coverage)) == coverage
  {
    var ids := KnownAbsent(coverage);
    assert forall id :: id in ids <==> id in AbsentIds(coverage);
  }

  /** Loading a written capture gives the capture back. */
  lemma BundleRoundTrip(f: CapturedFixture, passphrase: Vec8, policy: ProtocolPolicy)
    requires WellFormed(f, passphrase, policy)
    ensures ToBundle(f).Ok?
    ensures FromBundle(ToBundle(f).value, passphrase, policy) == Ok(f)
  {
    hide InventoryDigest, BundleDigest, LedgerDigest, ValidateCoverage, EnsureClosure, KnownAbsent;
    hide HexText.Hex, HexDigest, RedactOrigin, PresentIds, AbsentIds, LedgerMap, BundleCoverage, CanonicalId;
    EnvelopeRoundTrip(f, passphrase, policy);
    CoverageRoundTrip(f.coverage, f.fixture.snapshot);
    PresentAndAbsent(f.coverage);
  }

  lemma KnownAbsentDecodes(coverage: Coverage)
    ensures DecodeAll(EncodeTexts(KnownAbsent(coverage))) == Ok(KnownAbsent(coverage))
  {
    var ids := KnownAbsent(coverage);
    var texts := EncodeTexts(ids);
    forall i | 0 <= i < |texts| ensures Base64Decode(texts[i]) == Some(ids[i]) {
      Base64RoundTrip(ids[i]);
    }
    assert DecodeAll(texts).Ok? && DecodeAll(texts).value == ids;
  }

  lemma EnvelopeRoundTrip(f: CapturedFixture, passphrase: Vec8, policy: ProtocolPolicy)
    requires WellFormed(f, passphrase, policy)
    ensures ToBundle(f).Ok?
    ensures ToBundle(f).value.ledgerSnapshot == f.fixture.snapshot
    ensures ToBundle(f).value.knownAbsent == EncodeTexts(KnownAbsent(f.coverage))
    ensures ToBundle(f).value.provenance == f.provenance
    ensures ToBundle(f).value.report
        == BundleReport(f.report.discoveryRounds, f.report.presentEntries, f.report.absentEntries, 0)
    ensures ValidateEnvelope(ToBundle(f).value, passphrase)
      == Ok(BundleDigests(f.fixture.ledgerDigest, f.report.inventoryDigest))
  {
    hide InventoryDigest, BundlePreimage, LedgerDigest, ValidateCoverage, EnsureClosure, KnownAbsent;
    hide HexText.Hex, HexDigest, RedactOrigin;
    KnownAbsentDecodes(f.coverage);
    var b := ToBundle(f).value;
    HexDecodes(f.fixture.ledgerDigest);
    HexDecodes(f.report.inventoryDigest);
    HexDecodes(BundleDigest(b.knownAbsent, b.report, b.provenance, f.fixture.ledgerDigest,
        f.report.inventoryDigest).value);
  }

  // ----- Writing back what was read -----

  /** `so` is `coverage` with `ids` added as Absent, in the order of `texts`. */
  ghost predicate AbsentShape(coverage: Coverage, texts: seq<Vec8>, ids: seq<KeyId>, so: Absents) {
    && texts == EncodeTexts(ids) && StrictlySorted(ids)
    && NewIds(ids, coverage)
    && so == Absents(WithAbsent(coverage, ids), LastOf(ids))
  }

  predicate NewIds(ids: seq<KeyId>, coverage: Coverage) {
    forall i | 0 <= i < |ids| :: CanonicalId(ids[i]) && ids[i] !in coverage
  }

  lemma NewIdsAppend(ids: seq<KeyId>, id: KeyId, coverage: Coverage)
    requires NewIds(ids, coverage) && CanonicalId(id) && id !in coverage
    ensures NewIds(ids + [id], coverage)
  {
    hide CanonicalId;
  }

  lemma AbsentShapeAppend(coverage: Coverage, texts: seq<Vec8>, ids: seq<KeyId>, so: Absents, text: Vec8, id: KeyId)
    requires AbsentShape(coverage, texts, ids, so)
    requires AddAbsent(so, text).Ok? && Base64Decode(text) == Some(id)
    ensures AbsentShape(coverage, texts + [text], ids + [id], AddAbsent(so, text).value)
  {
    hide AddAbsent, CanonicalId, Less, StrictlySorted, EncodeTexts, WithAbsent, NewIds;
    AddAbsentIff(so, text, id);
    SortedAppend(ids, id);
    EncodeTextsAppend(ids, id);
    WithAbsentAppend(coverage, ids, id);
    NewIdsAppend(ids, id, coverage);
    assert LastOf(ids + [id]) == Some(id);
  }

  lemma {:induction false} AbsentCoverageShape(coverage: Coverage, texts: seq<Vec8>) returns (ids: seq<KeyId>)
    requires AbsentCoverage(coverage, texts).Ok?
    ensures AbsentShape(coverage, texts, ids, AbsentCoverage(coverage, texts).value)
  {
    if texts == [] {
      ids := [];
      assert WithAbsent(coverage, ids) == coverage;
    } else {
      hide AbsentShape;
      var first, text := texts[..|texts| - 1], texts[|texts| - 1];
      var init := AbsentCoverageShape(coverage, first);
      var id := Base64Decode(text).value;
      assert texts == first + [text];
      AbsentShapeAppend(coverage, first, init, AbsentCoverage(coverage, first).value, text, id);
      ids := init + [id];
    }
  }

  lemma {:induction false} PresentCoverageShape(entries: seq<SnapshotEntry>)
    requires PresentCoverage(entries).Ok? && EncodeEntries(entries).Ok?
    ensures PresentCoverage(entries).value == StatesOf(LedgerMap(entries))
    ensures forall id | id in LedgerMap(entries) :: CanonicalId(id)
  {
    if entries != [] {
      var n := |entries| - 1;
      PresentCoverageShape(entries[..n]);
      EncodedAt(entries, n);
      KeyXdrRoundTrip(entries[n].key, KeyXdr(entries[n].key).value);
    }
  }

  lemma CoverageCanonical(snapshot: LedgerSnapshot, texts: seq<Vec8>, coverage: Coverage)
    requires Accepted(snapshot) && BundleCoverage(snapshot.entries, texts) == Ok(coverage)
    ensures MatchesLedger(coverage, snapshot.entries)
    ensures forall id | id in coverage :: CanonicalId(id)
    ensures texts == EncodeTexts(KnownAbsent(coverage))
  {
    PresentCoverageShape(snapshot.entries);
    var present := StatesOf(LedgerMap(snapshot.entries));
    var ids := AbsentCoverageShape(present, texts);
    WithAbsentMembers(present, ids);
    SortedIs(AbsentIds(coverage), ids);
  }

  lemma WithAbsentMembers(present: Coverage, ids: seq<KeyId>)
    requires forall id | id in present :: present[id].Present?
    requires forall i | 0 <= i < |ids| :: ids[i] !in present
    ensures forall id :: id in ids <==> id in AbsentIds(WithAbsent(present, ids))
    ensures forall id | id in WithAbsent(present, ids) :: id in present || exists i :: 0 <= i < |ids| && ids[i] == id
    ensures forall id | id in present :: id in WithAbsent(present, ids) && WithAbsent(present, ids)[id] == present[id]
  {
    forall id | id in ids ensures id !in present {
      var i :| 0 <= i < |ids| && ids[i] == id;
    }
  }

  /** A bundle that loads is exactly what its capture would be written as. */
  lemma BundleCanonical(b: CaptureBundle, passphrase: Vec8, policy: ProtocolPolicy)
    ensures FromBundle(b, passphrase, policy).Ok? ==>
      var f := FromBundle(b, passphrase, policy).value;
      WellFormed(f, passphrase, policy) && ToBundle(f) == Ok(b)
  {
    hide InventoryDigest, BundleDigest, LedgerDigest, ValidateCoverage, EnsureClosure, KnownAbsent;
    hide HexText.Hex, HexDigest, RedactOrigin, PresentIds, AbsentIds, LedgerMap, BundleCoverage, CanonicalId;
    if FromBundle(b, passphrase, policy).Ok? {
      var f := FromBundle(b, passphrase, policy).value;
      CoverageCanonical(b.ledgerSnapshot, b.knownAbsent, f.coverage);
      PresentAndAbsent(f.coverage);
      EnvelopeCanonical(b, passphrase);
    }
  }

  lemma EnvelopeCanonical(b: CaptureBundle, passphrase: Vec8)
    ensures ValidateEnvelope(b, passphrase).Ok? ==>
      var d := ValidateEnvelope(b, passphrase).value;
      && b.ledgerDigest == Hex(d.ledger) && b.inventoryDigest == Hex(d.inventory)
      && BundleDigest(b.knownAbsent, b.report, b.provenance, d.ledger, d.inventory).Ok?
      && b.canonicalDigest == Hex(BundleDigest(b.knownAbsent, b.report, b.provenance, d.ledger, d.inventory).value)
  {
    hide BundlePreimage, HexText.Hex, HexDigest, RedactOrigin;
    if ValidateEnvelope(b, passphrase).Ok? {
      DecodedSpelling(b.ledgerDigest);
      DecodedSpelling(b.inventoryDigest);
      DecodedSpelling(b.canonicalDigest);
    }
  }
}
