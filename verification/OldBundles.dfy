/**
 Capture bundles of schema 1, which can still be read (`from_legacy_bundle`,
 src/capture.rs). They name the root contract of the capture and hash it.
 */
module OldBundles {
  import opened Wrappers
  import opened Bytes
  import opened Ledger
  import opened Fixture
  import opened Errors
  import opened CoverageChecks
  import opened Digests
  import opened HexText
  import opened Origin
  import opened Bundles

  const OLD_BUNDLE_DIGEST_DOMAIN_V1: seq<byte> := Ascii("KANATOKO\0CAPTURE-BUNDLE\0V1\0")

  /** The common fields, and the root contract as text. */
  datatype OldBundle = OldBundle(body: CaptureBundle, rootContract: Vec8)

  /** Strkey decoding of a contract address is some partial function. */
  const PARSE_CONTRACT: Vec8 -> Option<ScAddress>

  function OldBundlePreimage(root: Vec8, absent: seq<Vec8>, report: BundleReport, provenance: Provenance,
                             ledger: Digest, inventory: Digest): seq<byte>
  {
    OLD_BUNDLE_DIGEST_DOMAIN_V1
    + (U32(1) + (Field(root) + BundleBody(absent, report, provenance, ledger, inventory)))
  }

  /** `legacy_canonical_bundle_digest`. */
  function OldBundleDigest(root: Vec8, texts: seq<Vec8>, report: BundleReport, provenance: Provenance,
                           ledger: Digest, inventory: Digest): Result<Digest, CaptureError>
  {
    var absent :- DecodeAll(texts);
    Ok(Sha256(OldBundlePreimage(root, absent, report, provenance, ledger, inventory)))
  }

  /** Old bundles too are hashed from the same bytes exactly when every digested part agrees, the root included. */
  lemma OldBundlePreimageInjective(
    a: seq<Vec8>, ra: BundleReport, pa: Provenance, la: Digest, ia: Digest, rootA: Vec8,
    b: seq<Vec8>, rb: BundleReport, pb: Provenance, lb: Digest, ib: Digest, rootB: Vec8)
    requires |a| < U64_LIMIT && |b| < U64_LIMIT
    ensures OldBundlePreimage(rootA, a, ra, pa, la, ia) == OldBundlePreimage(rootB, b, rb, pb, lb, ib)
      <==> rootA == rootB && a == b && ra == rb && pa == pb && la == lb && ia == ib
  {
    hide BundleBody;
    var x, y := BundleBody(a, ra, pa, la, ia), BundleBody(b, rb, pb, lb, ib);
    if OldBundlePreimage(rootA, a, ra, pa, la, ia) == OldBundlePreimage(rootB, b, rb, pb, lb, ib) {
      SplitStream(OLD_BUNDLE_DIGEST_DOMAIN_V1, U32(1) + (Field(rootA) + x),
                  OLD_BUNDLE_DIGEST_DOMAIN_V1, U32(1) + (Field(rootB) + y));
      SplitStream(U32(1), Field(rootA) + x, U32(1), Field(rootB) + y);
      SplitField(rootA, x, rootB, y);
      BundlePreimageInjective(a, ra, pa, la, ia, b, rb, pb, lb, ib);
    }
  }

  /** `validate_legacy_bundle_envelope`. */
  function ValidateOldEnvelope(b: OldBundle, expected: Vec8): Result<BundleDigests, CaptureError> {
    if b.body.schemaVersion != 1 then
      Err(UnsupportedCaptureBundleSchema(b.body.schemaVersion, CAPTURE_BUNDLE_SCHEMA_VERSION))
    else
      var _ :- ValidateMetadata(b.body, expected);
      var ledger :- HexDigest(b.body.ledgerDigest);
      var inventory :- HexDigest(b.body.inventoryDigest);
      var actual :- HexDigest(b.body.canonicalDigest);
      var canonical :- OldBundleDigest(b.rootContract, b.body.knownAbsent, b.body.report, b.body.provenance, ledger,
          inventory);
      if actual != canonical then Err(CaptureBundleIntegrity) else Ok(BundleDigests(ledger, inventory))
  }

  /** `ensure_legacy_root_present`: the root contract's instance was captured. */
  predicate RootPresent(root: ScAddress, coverage: Coverage) {
    && KeyXdr(InstanceKey(root)).Some? && KeyXdr(InstanceKey(root)).value in coverage
    && ExecutableOf(coverage[KeyXdr(InstanceKey(root)).value]).Some?
  }

  function FromOldBundle(b: OldBundle, expected: Vec8, policy: ProtocolPolicy): Result<CapturedFixture, CaptureError> {
    var digests :- ValidateOldEnvelope(b, expected);
    match FromSnapshot(b.body.ledgerSnapshot, expected, policy)
    case Err(e) => Err(FixtureFailure(e))
    case Ok(fixture) =>
      if fixture.ledgerDigest != digests.ledger then Err(CaptureBundleIntegrity)
      else
        match PARSE_CONTRACT(b.rootContract)
        case None => Err(MalformedCaptureBundle)
        case Some(root) =>
          var coverage :- BundleCoverage(b.body.ledgerSnapshot.entries, b.body.knownAbsent);
          if !RootPresent(root, coverage) then Err(CaptureBundleIntegrity)
          else
            var _ :- ValidateBundleCoverage(coverage, b.body.report, digests.inventory, b.body.ledgerSnapshot.info);
            var present := |PresentIds(coverage)|;
            PresentAndAbsent(coverage);
            Ok(CapturedFixture(
                 fixture, coverage,
                 CaptureReport(b.body.report.discoveryRounds, present, |coverage| - present, digests.inventory, 0),
                 b.body.provenance))
  }

  /**
   An old bundle that loads is a well-formed capture of its root contract; so it can be
   written in the current schema, and that bundle loads as the same capture.
   */
  lemma OldBundleUpgrades(b: OldBundle, passphrase: Vec8, policy: ProtocolPolicy)
    ensures FromOldBundle(b, passphrase, policy).Ok? ==>
      var f := FromOldBundle(b, passphrase, policy).value;
      && WellFormed(f, passphrase, policy)
      && PARSE_CONTRACT(b.rootContract).Some? && RootPresent(PARSE_CONTRACT(b.rootContract).value, f.coverage)
      && ToBundle(f).Ok? && FromBundle(ToBundle(f).value, passphrase, policy) == Ok(f)
  {
    hide InventoryDigest, OldBundleDigest, LedgerDigest, ValidateCoverage, EnsureClosure, ToBundle, FromBundle;
    hide HexText.Hex, HexDigest, RedactOrigin, PresentIds, AbsentIds, LedgerMap, BundleCoverage, CanonicalId,
         RootPresent;
    if FromOldBundle(b, passphrase, policy).Ok? {
      var f := FromOldBundle(b, passphrase, policy).value;
      CoverageCanonical(b.body.ledgerSnapshot, b.body.knownAbsent, f.coverage);
      PresentAndAbsent(f.coverage);
      assert WellFormed(f, passphrase, policy);
      hide WellFormed;
      BundleRoundTrip(f, passphrase, policy);
    }
  }

  /** The old bundle of a capture, as it used to be written for a root contract. */
  function AsOldBundle(f: CapturedFixture, root: Vec8, passphrase: Vec8, policy: ProtocolPolicy): OldBundle
    requires WellFormed(f, passphrase, policy)
  {
    var texts := EncodeTexts(KnownAbsent(f.coverage));
    var report := BundleReport(f.report.discoveryRounds, f.report.presentEntries, f.report.absentEntries, 0);
    KnownAbsentDecodes(f.coverage);
    var canonical := OldBundleDigest(root, texts, report, f.provenance, f.fixture.ledgerDigest,
        f.report.inventoryDigest);
    OldBundle(CaptureBundle(1, f.fixture.snapshot, texts, report, f.provenance, Hex(f.fixture.ledgerDigest),
                            Hex(f.report.inventoryDigest), Hex(canonical.value)),
              root)
  }

  lemma OldEnvelopeRoundTrip(f: CapturedFixture, root: Vec8, passphrase: Vec8, policy: ProtocolPolicy)
    requires WellFormed(f, passphrase, policy)
    ensures ValidateOldEnvelope(AsOldBundle(f, root, passphrase, policy), passphrase)
      == Ok(BundleDigests(f.fixture.ledgerDigest, f.report.inventoryDigest))
  {
    hide InventoryDigest, OldBundlePreimage, LedgerDigest, ValidateCoverage, EnsureClosure, KnownAbsent;
    hide HexText.Hex, HexDigest, RedactOrigin;
    KnownAbsentDecodes(f.coverage);
    var b := AsOldBundle(f, root, passphrase, policy).body;
    HexDecodes(f.fixture.ledgerDigest);
    HexDecodes(f.report.inventoryDigest);
    HexDecodes(OldBundleDigest(root, b.knownAbsent, b.report, b.provenance, f.fixture.ledgerDigest,
                               f.report.inventoryDigest).value);
  }

  /** Every well-formed capture that holds its root contract loads from its old bundle. */
  lemma OldBundleLoads(f: CapturedFixture, root: Vec8, passphrase: Vec8, policy: ProtocolPolicy)
    requires WellFormed(f, passphrase, policy)
    requires PARSE_CONTRACT(root).Some? && RootPresent(PARSE_CONTRACT(root).value, f.coverage)
    ensures FromOldBundle(AsOldBundle(f, root, passphrase, policy), passphrase, policy) == Ok(f)
  {
    hide InventoryDigest, OldBundleDigest, LedgerDigest, ValidateCoverage, EnsureClosure, KnownAbsent,
         ValidateOldEnvelope;
    hide HexText.Hex, HexDigest, RedactOrigin, PresentIds, AbsentIds, LedgerMap, BundleCoverage, CanonicalId,
         RootPresent,
         MatchesLedger, EncodeTexts;
    OldEnvelopeRoundTrip(f, root, passphrase, policy);
    CoverageRoundTrip(f.coverage, f.fixture.snapshot);
    PresentAndAbsent(f.coverage);
  }

  lemma OldEnvelopeCanonical(b: OldBundle, passphrase: Vec8)
    ensures ValidateOldEnvelope(b, passphrase).Ok? ==>
      var d := ValidateOldEnvelope(b, passphrase).value;
      var body := b.body;
      var canonical := OldBundleDigest(b.rootContract, body.knownAbsent, body.report, body.provenance, d.ledger,
          d.inventory);
      && body.schemaVersion == 1
      && body.ledgerDigest == Hex(d.ledger) && body.inventoryDigest == Hex(d.inventory)
      && canonical.Ok? && body.canonicalDigest == Hex(canonical.value)
  {
    hide OldBundleDigest, HexText.Hex, HexDigest, RedactOrigin;
    if ValidateOldEnvelope(b, passphrase).Ok? {
      DecodedSpelling(b.body.ledgerDigest);
      DecodedSpelling(b.body.inventoryDigest);
      DecodedSpelling(b.body.canonicalDigest);
    }
  }

  /** An old bundle that loads is the old bundle of what it loads as, field for field. */
  lemma OldBundleCanonical(b: OldBundle, passphrase: Vec8, policy: ProtocolPolicy)
    ensures FromOldBundle(b, passphrase, policy).Ok? ==>
      var f := FromOldBundle(b, passphrase, policy).value;
      WellFormed(f, passphrase, policy) && AsOldBundle(f, b.rootContract, passphrase, policy) == b
  {
    hide InventoryDigest, OldBundleDigest, LedgerDigest, ValidateCoverage, EnsureClosure, KnownAbsent, ToBundle,
         FromBundle;
    hide HexText.Hex, HexDigest, RedactOrigin, PresentIds, AbsentIds, LedgerMap, BundleCoverage, CanonicalId,
         RootPresent;
    OldBundleUpgrades(b, passphrase, policy);
    OldEnvelopeCanonical(b, passphrase);
    if FromOldBundle(b, passphrase, policy).Ok? {
      var f := FromOldBundle(b, passphrase, policy).value;
      CoverageCanonical(b.body.ledgerSnapshot, b.body.knownAbsent, f.coverage);
      PresentAndAbsent(f.coverage);
    }
  }
}
