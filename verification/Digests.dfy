/** The inventory and bundle digests of a capture (src/capture.rs). */
module Digests {
  import opened Wrappers
  import opened Bytes
  import opened Ordered
  import opened Tables
  import opened Ledger
  import opened Errors

  // ----- Inventory digest -----

  const INVENTORY_DIGEST_DOMAIN_V1: seq<byte> := Ascii("KANATOKO\0CAPTURE-INVENTORY\0V1\0")

  predicate Encodable(state: LookupState) {
    state.Present? ==> EntryXdr(state.entry).Some?
  }

  function StateRow(state: LookupState): Option<Row>
    requires Encodable(state)
  {
    match state
    case Present(entry, liveUntil) => Some(Row(EntryXdr(entry).value, liveUntil))
    case Absent => None
  }

  predicate AllEncodable(coverage: Coverage) {
    forall id | id in coverage :: Encodable(coverage[id])
  }

  function StateRows(coverage: Coverage): (r: map<KeyId, Option<Row>>)
    requires AllEncodable(coverage)
    ensures r.Keys == coverage.Keys && |r| == |coverage|
  {
    var rows := map id | id in coverage :: StateRow(coverage[id]);
    assert rows.Keys == coverage.Keys && |rows| == |rows.Keys| == |coverage.Keys|;
    rows
  }

  function InventoryPreimage(coverage: Coverage): seq<byte>
    requires AllEncodable(coverage)
  {
    INVENTORY_DIGEST_DOMAIN_V1 + EncodeTable(StateRows(coverage), EncodeState)
  }

  function InventoryDigest(coverage: Coverage): Result<Digest, CaptureError> {
    if AllEncodable(coverage) then Ok(Sha256(InventoryPreimage(coverage))) else Err(Xdr)
  }

  /** Inventories are hashed from the same bytes exactly when they are the same map. */
  lemma InventoryPreimageInjective(a: Coverage, b: Coverage)
    requires AllEncodable(a) && AllEncodable(b)
    requires |a| < U64_LIMIT && |b| < U64_LIMIT
    ensures InventoryPreimage(a) == InventoryPreimage(b) <==> a == b
  {
    if InventoryPreimage(a) == InventoryPreimage(b) {
      var m, n := StateRows(a), StateRows(b);
      SplitStream(INVENTORY_DIGEST_DOMAIN_V1, EncodeTable(m, EncodeState),
                  INVENTORY_DIGEST_DOMAIN_V1, EncodeTable(n, EncodeState));
      EncodersSelfDelimiting();
      assert EncodeTable(m, EncodeState) + [] == EncodeTable(n, EncodeState) + [];
      SplitTable(m, [], n, [], EncodeState);
      assert a.Keys == m.Keys == n.Keys == b.Keys;
      forall id | id in a ensures a[id] == b[id] {
        assert m[id] == n[id];
        if a[id].Present? { EntryXdrInjective(a[id].entry, b[id].entry); }
      }
    }
  }

  /** What hashing one key adds; nothing for a key that cannot be hashed. */
  function StateBytes(id: KeyId, coverage: Coverage): seq<byte> {
    if id in coverage && Encodable(coverage[id]) then Field(id) + EncodeState(StateRow(coverage[id])) else []
  }

  function ConcatStates(ids: seq<KeyId>, coverage: Coverage): seq<byte> {
    if ids == [] then []
    else ConcatStates(ids[..|ids| - 1], coverage) + StateBytes(ids[|ids| - 1], coverage)
  }

  lemma {:induction false} ConcatStatesAreRows(ids: seq<KeyId>, coverage: Coverage, table: map<KeyId, Option<Row>>)
    requires forall i | 0 <= i < |ids| ::
      ids[i] in table && StateBytes(ids[i], coverage) == Field(ids[i]) + EncodeState(table[ids[i]])
    ensures forall id | id in ids :: id in table
    ensures ConcatStates(ids, coverage) == Rows(ids, table, EncodeState)
  {
    hide StateBytes;
    if ids != [] {
      var n := |ids| - 1;
      ConcatStatesAreRows(ids[..n], coverage, table);
      assert ids == ids[..n] + [ids[n]];
      RowsAppend(ids[..n], ids[n], table, EncodeState);
    }
  }

  lemma InventoryPreimageOfRows(coverage: Coverage, ids: seq<KeyId>)
    requires ids == Sorted(coverage.Keys) && forall i | 0 <= i < |ids| ::
        ids[i] in coverage && Encodable(coverage[ids[i]])
    ensures AllEncodable(coverage)
    ensures (INVENTORY_DIGEST_DOMAIN_V1 + U64(|coverage|)) + ConcatStates(ids, coverage) == InventoryPreimage(coverage)
  {
    forall id | id in coverage ensures Encodable(coverage[id]) {
      assert id in ids;
    }
    var table := StateRows(coverage);
    ConcatStatesAreRows(ids, coverage, table);
    hide EncodeState;
    Associates(INVENTORY_DIGEST_DOMAIN_V1, U64(|coverage|), ConcatStates(ids, coverage));
  }

  method KeysInOrder(coverage: Coverage) returns (ids: seq<KeyId>)
    ensures ids == Sorted(coverage.Keys)
    ensures forall i | 0 <= i < |ids| :: ids[i] in coverage
  {
    ids := Sorted(coverage.Keys);
    assert forall i | 0 <= i < |ids| :: ids[i] in ids;
  }

  /** The hashing loop of `inventory_digest`; fails at the first entry without XDR. */
  method HashStates(header: seq<byte>, coverage: Coverage, ids: seq<KeyId>) returns (hashed: Option<seq<byte>>)
    requires forall i | 0 <= i < |ids| :: ids[i] in coverage
    ensures hashed.None? ==> !AllEncodable(coverage)
    ensures hashed.Some? ==> (forall i | 0 <= i < |ids| :: Encodable(coverage[ids[i]]))
                             && hashed.value == header + ConcatStates(ids, coverage)
  {
    var bytes := header;
    for k := 0 to |ids|
      invariant forall i | 0 <= i < k :: Encodable(coverage[ids[i]])
      invariant bytes == header + ConcatStates(ids[..k], coverage)
    {
      if !Encodable(coverage[ids[k]]) {
        return None;
      }
      assert ids[..k + 1][..k] == ids[..k];
      Associates(header, ConcatStates(ids[..k], coverage), StateBytes(ids[k], coverage));
      bytes := bytes + (Field(ids[k]) + EncodeState(StateRow(coverage[ids[k]])));
    }
    assert ids[..|ids|] == ids;
    return Some(bytes);
  }

  /** `inventory_digest`: one pass over the map in key order. */
  method ComputeInventoryDigest(coverage: Coverage) returns (r: Result<Digest, CaptureError>)
    ensures r == InventoryDigest(coverage)
  {
    var ids := KeysInOrder(coverage);
    var hashed := HashStates(INVENTORY_DIGEST_DOMAIN_V1 + U64(|coverage|), coverage, ids);
    if hashed.None? {
      return Err(Xdr);
    }
    InventoryPreimageOfRows(coverage, ids);
    return Ok(Sha256(hashed.value));
  }

  // ----- Bundle digest -----

  const CAPTURE_BUNDLE_SCHEMA_VERSION: u32 := 2
  const BUNDLE_DIGEST_DOMAIN_V2: seq<byte> := Ascii("KANATOKO\0CAPTURE-BUNDLE\0V2\0")

  /** Strings are carried as their UTF-8 bytes. */
  datatype Provenance = Provenance(
    rpcOrigin: Vec8, passphrase: Vec8, ledgerSequence: u32, ledgerHash: Vec8, protocolVersion: u32)

  datatype BundleReport = BundleReport(
    discoveryRounds: u32, presentEntries: u64, absentEntries: u64, finalReplayRpcReads: u64)

  datatype TextCodec = TextCodec(encode: Vec8 -> Vec8, decode: Vec8 -> Option<Vec8>)

  ghost predicate DecodesItself(c: TextCodec) {
    forall bytes: Vec8 :: c.decode(c.encode(bytes)) == Some(bytes)
  }

  /** Base64 (section 4 of RFC 4648), up to decoding what it encodes; it may also accept other spellings. */
  type Base64Codec = c: TextCodec | DecodesItself(c) witness TextCodec(b => b, t => Some(t))

  const BASE64: Base64Codec

  function Base64Encode(bytes: Vec8): Vec8 {
    (BASE64.encode)(bytes)
  }

  function Base64Decode(text: Vec8): Option<Vec8> {
    (BASE64.decode)(text)
  }

  lemma Base64RoundTrip(bytes: Vec8)
    ensures Base64Decode(Base64Encode(bytes)) == Some(bytes)
  {
    assert BASE64.decode(BASE64.encode(bytes)) == Some(bytes);
  }

  function DecodeAll(texts: seq<Vec8>): (r: Result<seq<Vec8>, CaptureError>)
    ensures r.Ok? ==> |r.value| == |texts|
                      && forall i | 0 <= i < |texts| :: Base64Decode(texts[i]) == Some(r.value[i])
    ensures r.Err? ==> r.error == MalformedCaptureBundle
                       && exists i :: 0 <= i < |texts| && Base64Decode(texts[i]).None?
  {
    if forall i | 0 <= i < |texts| :: Base64Decode(texts[i]).Some? then
      Ok(seq(|texts|, i requires 0 <= i < |texts| => Base64Decode(texts[i]).value))
    else
      Err(MalformedCaptureBundle)
  }

  function Fields(values: seq<Vec8>): seq<byte> {
    if values == [] then [] else Field(values[0]) + Fields(values[1..])
  }

  function EncodeReport(report: BundleReport): (r: seq<byte>)
    ensures |r| == 28
  {
    U32(report.discoveryRounds) + U64(report.presentEntries) + U64(report.absentEntries)
    + U64(report.finalReplayRpcReads)
  }

  function EncodeProvenance(p: Provenance): seq<byte> {
    Field(p.rpcOrigin)
    + (Field(p.passphrase) + (U32(p.ledgerSequence) + (Field(p.ledgerHash) + U32(p.protocolVersion))))
  }

  /** `update_bundle_digest`. */
  function BundleBody(absent: seq<Vec8>, report: BundleReport, provenance: Provenance,
                      ledger: Digest, inventory: Digest): seq<byte>
  {
    U64(|absent|) + (Fields(absent)
    + (EncodeReport(report) + (EncodeProvenance(provenance) + (ledger + inventory))))
  }

  /** The body after the domain and schema version. */
  function BundlePreimage(absent: seq<Vec8>, report: BundleReport, provenance: Provenance,
                          ledger: Digest, inventory: Digest): seq<byte>
  {
    (BUNDLE_DIGEST_DOMAIN_V2 + U32(CAPTURE_BUNDLE_SCHEMA_VERSION))
    + BundleBody(absent, report, provenance, ledger, inventory)
  }

  function BundleDigest(texts: seq<Vec8>, report: BundleReport, provenance: Provenance,
                        ledger: Digest, inventory: Digest): Result<Digest, CaptureError>
  {
    var absent :- DecodeAll(texts);
    Ok(Sha256(BundlePreimage(absent, report, provenance, ledger, inventory)))
  }

  lemma {:induction false} SplitFields(a: seq<Vec8>, r: seq<byte>, b: seq<Vec8>, s: seq<byte>)
    requires |a| == |b| && Fields(a) + r == Fields(b) + s
    ensures a == b && r == s
  {
    if a == [] {
      assert Fields(a) + r == r && Fields(b) + s == s;
    } else {
      Associates(Field(a[0]), Fields(a[1..]), r);
      Associates(Field(b[0]), Fields(b[1..]), s);
      SplitField(a[0], Fields(a[1..]) + r, b[0], Fields(b[1..]) + s);
      SplitFields(a[1..], r, b[1..], s);
      assert a == [a[0]] + a[1..] && b == [b[0]] + b[1..];
    }
  }

  lemma EncodeReportInjective(a: BundleReport, b: BundleReport)
    requires EncodeReport(a) == EncodeReport(b)
    ensures a == b
  {
    var x, y := EncodeReport(a), EncodeReport(b);
    assert U32(a.discoveryRounds) == x[0..4] && U32(b.discoveryRounds) == y[0..4];
    assert U64(a.presentEntries) == x[4..12] && U64(b.presentEntries) == y[4..12];
    assert U64(a.absentEntries) == x[12..20] && U64(b.absentEntries) == y[12..20];
    assert U64(a.finalReplayRpcReads) == x[20..28] && U64(b.finalReplayRpcReads) == y[20..28];
    U32Injective(a.discoveryRounds, b.discoveryRounds);
    U64Injective(a.presentEntries, b.presentEntries);
    U64Injective(a.absentEntries, b.absentEntries);
    U64Injective(a.finalReplayRpcReads, b.finalReplayRpcReads);
  }

  lemma ProvenanceAssociates(p: Provenance, r: seq<byte>)
    ensures EncodeProvenance(p) + r
      == Field(p.rpcOrigin) + (Field(p.passphrase)
         + (U32(p.ledgerSequence) + (Field(p.ledgerHash) + (U32(p.protocolVersion) + r))))
  {
    var e := U32(p.protocolVersion);
    var d := Field(p.ledgerHash) + e;
    var c := U32(p.ledgerSequence) + d;
    var b := Field(p.passphrase) + c;
    Associates(Field(p.rpcOrigin), b, r);
    Associates(Field(p.passphrase), c, r);
    Associates(U32(p.ledgerSequence), d, r);
    Associates(Field(p.ledgerHash), e, r);
  }

  lemma SplitProvenance(a: Provenance, r: seq<byte>, b: Provenance, s: seq<byte>)
    requires EncodeProvenance(a) + r == EncodeProvenance(b) + s
    ensures a == b && r == s
  {
    ProvenanceAssociates(a, r);
    ProvenanceAssociates(b, s);
    var a3, b3 := U32(a.protocolVersion) + r, U32(b.protocolVersion) + s;
    var a2, b2 := Field(a.ledgerHash) + a3, Field(b.ledgerHash) + b3;
    var a1, b1 := U32(a.ledgerSequence) + a2, U32(b.ledgerSequence) + b2;
    var a0, b0 := Field(a.passphrase) + a1, Field(b.passphrase) + b1;
    SplitField(a.rpcOrigin, a0, b.rpcOrigin, b0);
    SplitField(a.passphrase, a1, b.passphrase, b1);
    SplitU32(a.ledgerSequence, a2, b.ledgerSequence, b2);
    SplitField(a.ledgerHash, a3, b.ledgerHash, b3);
    SplitU32(a.protocolVersion, r, b.protocolVersion, s);
  }

  /** Bundles are hashed from the same bytes exactly when every digested part agrees. */
  lemma BundlePreimageInjective(
    a: seq<Vec8>, ra: BundleReport, pa: Provenance, la: Digest, ia: Digest,
    b: seq<Vec8>, rb: BundleReport, pb: Provenance, lb: Digest, ib: Digest)
    requires |a| < U64_LIMIT && |b| < U64_LIMIT
    ensures BundlePreimage(a, ra, pa, la, ia) == BundlePreimage(b, rb, pb, lb, ib)
      <==> a == b && ra == rb && pa == pb && la == lb && ia == ib
  {
    if BundlePreimage(a, ra, pa, la, ia) == BundlePreimage(b, rb, pb, lb, ib) {
      var a2, b2 := EncodeProvenance(pa) + (la + ia), EncodeProvenance(pb) + (lb + ib);
      var a1, b1 := EncodeReport(ra) + a2, EncodeReport(rb) + b2;
      var head := BUNDLE_DIGEST_DOMAIN_V2 + U32(CAPTURE_BUNDLE_SCHEMA_VERSION);
      SplitStream(head, U64(|a|) + (Fields(a) + a1), head, U64(|b|) + (Fields(b) + b1));
      SplitU64(|a|, Fields(a) + a1, |b|, Fields(b) + b1);
      SplitFields(a, a1, b, b1);
      SplitStream(EncodeReport(ra), a2, EncodeReport(rb), b2);
      EncodeReportInjective(ra, rb);
      SplitProvenance(pa, la + ia, pb, lb + ib);
      SplitStream(la, ia, lb, ib);
    }
  }

  /** `canonical_bundle_digest`: the hashing loop over the known-absent texts. */
  method ComputeBundleDigest(texts: seq<Vec8>, report: BundleReport, provenance: Provenance,
                             ledger: Digest, inventory: Digest) returns (r: Result<Digest, CaptureError>)
    ensures r == BundleDigest(texts, report, provenance, ledger, inventory)
  {
    var head := BUNDLE_DIGEST_DOMAIN_V2 + U32(CAPTURE_BUNDLE_SCHEMA_VERSION);
    var fields := [];
    ghost var absent := [];
    for k := 0 to |texts|
      invariant |absent| == k && forall i | 0 <= i < k :: Base64Decode(texts[i]) == Some(absent[i])
      invariant fields == Fields(absent)
    {
      var decoded := Base64Decode(texts[k]);
      if decoded.None? {
        return Err(MalformedCaptureBundle);
      }
      FieldsAppend(absent, decoded.value);
      absent := absent + [decoded.value];
      fields := fields + Field(decoded.value);
    }
    assert DecodeAll(texts).Ok? && DecodeAll(texts).value == absent;
    var tail := EncodeReport(report) + (EncodeProvenance(provenance) + (ledger + inventory));
    return Ok(Sha256(head + (U64(|texts|) + (fields + tail))));
  }

  lemma {:induction false} FieldsAppend(values: seq<Vec8>, value: Vec8)
    ensures Fields(values + [value]) == Fields(values) + Field(value)
  {
    if values == [] {
      assert values + [value] == [value];
    } else {
      assert (values + [value])[1..] == values[1..] + [value];
      FieldsAppend(values[1..], value);
      Associates(Field(values[0]), Fields(values[1..]), Field(value));
    }
  }
}
