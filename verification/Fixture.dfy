/**
 The canonical ledger digest and the frozen fixture built on it (src/fixture.rs).

 `LedgerDigest` is the reference: it depends on the entries only through a map.
 `CanonicalLedgerDigest` is the algorithm: push, sort, look for equal neighbours,
 hash row after row.
 */
module Fixture {
  import opened Wrappers
  import opened Bytes
  import opened Ordered
  import opened Tables
  import opened Ledger

  /** The Host's own protocol; a `u32` with a successor. */
  type HostProtocol = x: int | 0 <= x < U32_LIMIT - 1

  const SUPPORTED_PROTOCOL_VERSION: HostProtocol

  const NEWER_PROTOCOL_VERSION: u32 := SUPPORTED_PROTOCOL_VERSION + 1

  datatype ProtocolPolicy = Exact | AllowNewer {
    predicate Accepts(found: u32) {
      found == SUPPORTED_PROTOCOL_VERSION || (AllowNewer? && found == NEWER_PROTOCOL_VERSION)
    }
  }

  datatype FixtureError =
    | UnsupportedProtocol(found: u32, supported: u32)
    | NetworkMismatch(expected: Digest, foundNetwork: Digest)
    | LedgerKeyMismatch(index: nat)
    | DuplicateLedgerKey(keyXdr: KeyId)
    | XdrError

  const LEDGER_DIGEST_DOMAIN_V1: seq<byte> := Ascii("KANATOKO\0LEDGER-SNAPSHOT\0V1\0")

  // ----- Entries that the digest accepts -----

  datatype Record = Record(id: KeyId, row: Row)

  function EncodeEntry(e: SnapshotEntry, index: nat): Result<Record, FixtureError> {
    if e.key != e.value.entry.ToKey() then Err(LedgerKeyMismatch(index))
    else
      match (KeyXdr(e.key), EntryXdr(e.value.entry))
      case (Some(id), Some(xdr)) => Ok(Record(id, Row(xdr, e.value.liveUntil)))
      case _ => Err(XdrError)
  }

  /** The encoded entries in snapshot order, or the first failure. */
  function EncodeEntries(entries: seq<SnapshotEntry>): (r: Result<seq<Record>, FixtureError>)
    ensures r.Ok? ==> |r.value| == |entries|
  {
    if entries == [] then Ok([])
    else
      var last := |entries| - 1;
      var records :- EncodeEntries(entries[..last]);
      var record :- EncodeEntry(entries[last], last);
      Ok(records + [record])
  }

  lemma {:induction false} EncodedAt(entries: seq<SnapshotEntry>, i: nat)
    requires EncodeEntries(entries).Ok? && i < |entries|
    ensures EncodeEntry(entries[i], i) == Ok(EncodeEntries(entries).value[i])
  {
    var last := |entries| - 1;
    if i < last {
      EncodedAt(entries[..last], i);
    }
  }

  /** Away from the error case the position does not matter. */
  lemma EncodedAnywhere(e: SnapshotEntry, i: nat, j: nat)
    requires EncodeEntry(e, i).Ok?
    ensures EncodeEntry(e, j) == EncodeEntry(e, i)
  {
  }

  function DuplicateIds(records: seq<Record>): set<KeyId> {
    set i, j | 0 <= i < j < |records| && records[i].id == records[j].id :: records[i].id
  }

  predicate Distinct(records: seq<Record>) {
    forall i, j | 0 <= i < j < |records| :: records[i].id != records[j].id
  }

  lemma DistinctMeansNoDuplicates(records: seq<Record>)
    ensures Distinct(records) <==> DuplicateIds(records) == {}
  {
    if DuplicateIds(records) == {} {
      forall i, j | 0 <= i < j < |records| ensures records[i].id != records[j].id {
        var id := records[i].id;
        assert id == records[j].id ==> id in DuplicateIds(records);
      }
    }
  }

  function RowMap(records: seq<Record>): map<KeyId, Row> {
    if records == [] then map[]
    else
      var last := records[|records| - 1];
      RowMap(records[..|records| - 1])[last.id := last.row]
  }

  lemma {:induction false} RowMapDomain(records: seq<Record>, id: KeyId)
    ensures id in RowMap(records) <==> exists i :: 0 <= i < |records| && records[i].id == id
  {
    if records != [] {
      var n := |records| - 1;
      RowMapDomain(records[..n], id);
      assert forall i | 0 <= i < n :: records[..n][i] == records[i];
      if i :| 0 <= i < |records| && records[i].id == id {
        assert i < n ==> records[..n][i].id == id;
      }
    }
  }

  lemma {:induction false} RowMapAt(records: seq<Record>, i: nat)
    requires Distinct(records) && i < |records|
    ensures records[i].id in RowMap(records) && RowMap(records)[records[i].id] == records[i].row
  {
    var n := |records| - 1;
    if i < n {
      RowMapAt(records[..n], i);
    }
  }

  lemma {:induction false} RowMapSize(records: seq<Record>)
    requires Distinct(records)
    ensures |RowMap(records)| == |records|
  {
    if records != [] {
      var n := |records| - 1;
      RowMapSize(records[..n]);
      RowMapDomain(records[..n], records[n].id);
      assert RowMap(records).Keys == RowMap(records[..n]).Keys + {records[n].id};
    }
  }

  function EncodeInfo(info: LedgerInfo): (r: seq<byte>)
    ensures |r| == 64
  {
    U32(info.protocolVersion) + U32(info.sequenceNumber) + U64(info.timestamp) + info.networkId
    + U32(info.baseReserve) + U32(info.minPersistentEntryTtl) + U32(info.minTempEntryTtl) + U32(info.maxEntryTtl)
  }

  function LedgerPreimage(info: LedgerInfo, rows: map<KeyId, Row>): seq<byte> {
    LEDGER_DIGEST_DOMAIN_V1 + (EncodeInfo(info) + EncodeTable(rows, EncodeRow))
  }

  function LedgerDigest(snapshot: LedgerSnapshot): Result<Digest, FixtureError> {
    var records :- EncodeEntries(snapshot.entries);
    var duplicates := DuplicateIds(records);
    if duplicates != {} then Err(DuplicateLedgerKey(Least(duplicates)))
    else Ok(Sha256(LedgerPreimage(snapshot.info, RowMap(records))))
  }

  /** Keys match their entries, everything encodes, no key occurs twice. */
  predicate Accepted(snapshot: LedgerSnapshot) {
    LedgerDigest(snapshot).Ok?
  }

  function Records(snapshot: LedgerSnapshot): seq<Record>
    requires Accepted(snapshot)
  {
    EncodeEntries(snapshot.entries).value
  }

  function Preimage(snapshot: LedgerSnapshot): seq<byte>
    requires Accepted(snapshot)
  {
    LedgerPreimage(snapshot.info, RowMap(Records(snapshot)))
  }

  // ----- The ledger as a map -----

  /** The entries by key id; an entry whose key cannot be encoded is skipped. */
  function LedgerMap(entries: seq<SnapshotEntry>): map<KeyId, LedgerValue> {
    if entries == [] then map[]
    else
      var rest := LedgerMap(entries[..|entries| - 1]);
      var e := entries[|entries| - 1];
      match KeyXdr(e.key)
      case Some(id) => rest[id := e.value]
      case None => rest
  }

  lemma {:induction false} LedgerMapDomain(entries: seq<SnapshotEntry>, id: KeyId)
    ensures id in LedgerMap(entries) <==> exists i :: 0 <= i < |entries| && KeyXdr(entries[i].key) == Some(id)
    ensures id in LedgerMap(entries) ==>
      exists i :: 0 <= i < |entries| && KeyXdr(entries[i].key) == Some(id) && entries[i].value == LedgerMap(entries)[id]
  {
    if entries != [] {
      var n := |entries| - 1;
      LedgerMapDomain(entries[..n], id);
      if KeyXdr(entries[n].key) != Some(id) {
        assert forall i :: 0 <= i < n ==> entries[..n][i] == entries[i];
      }
    }
  }

  /** The digest's rows are the ledger map, entry by entry in XDR. */
  lemma {:induction false} RowMapIsLedgerMap(entries: seq<SnapshotEntry>)
    requires EncodeEntries(entries).Ok?
    ensures var rows, ledger := RowMap(EncodeEntries(entries).value), LedgerMap(entries);
      && rows.Keys == ledger.Keys
      && forall id | id in rows ::
           EntryXdr(ledger[id].entry) == Some(rows[id].xdr) && ledger[id].liveUntil == rows[id].liveUntil
  {
    if entries != [] {
      var n := |entries| - 1;
      RowMapIsLedgerMap(entries[..n]);
      var records := EncodeEntries(entries).value;
      assert records[..n] == EncodeEntries(entries[..n]).value;
      EncodedAt(entries, n);
    }
  }

  lemma AcceptedSize(snapshot: LedgerSnapshot)
    requires Accepted(snapshot)
    ensures Distinct(Records(snapshot))
    ensures |RowMap(Records(snapshot))| == |snapshot.entries|
  {
    DistinctMeansNoDuplicates(Records(snapshot));
    RowMapSize(Records(snapshot));
  }

  // ----- Injectivity -----

  lemma EncodeInfoInjective(a: LedgerInfo, r: seq<byte>, b: LedgerInfo, s: seq<byte>)
    requires EncodeInfo(a) + r == EncodeInfo(b) + s
    ensures a == b && r == s
  {
    SplitStream(EncodeInfo(a), r, EncodeInfo(b), s);
    var x, y := EncodeInfo(a), EncodeInfo(b);
    assert U32(a.protocolVersion) == x[0..4] && U32(b.protocolVersion) == y[0..4];
    assert U32(a.sequenceNumber) == x[4..8] && U32(b.sequenceNumber) == y[4..8];
    assert U64(a.timestamp) == x[8..16] && U64(b.timestamp) == y[8..16];
    assert a.networkId == x[16..48] && b.networkId == y[16..48];
    assert U32(a.baseReserve) == x[48..52] && U32(b.baseReserve) == y[48..52];
    assert U32(a.minPersistentEntryTtl) == x[52..56] && U32(b.minPersistentEntryTtl) == y[52..56];
    assert U32(a.minTempEntryTtl) == x[56..60] && U32(b.minTempEntryTtl) == y[56..60];
    assert U32(a.maxEntryTtl) == x[60..64] && U32(b.maxEntryTtl) == y[60..64];
    U32Injective(a.protocolVersion, b.protocolVersion);
    U32Injective(a.sequenceNumber, b.sequenceNumber);
    U64Injective(a.timestamp, b.timestamp);
    U32Injective(a.baseReserve, b.baseReserve);
    U32Injective(a.minPersistentEntryTtl, b.minPersistentEntryTtl);
    U32Injective(a.minTempEntryTtl, b.minTempEntryTtl);
    U32Injective(a.maxEntryTtl, b.maxEntryTtl);
  }

  /**
   Two accepted snapshots are hashed from the same bytes exactly when every
   metadata field and the whole key-to-(entry, TTL) map agree.
   */
  lemma LedgerPreimageInjective(a: LedgerSnapshot, b: LedgerSnapshot)
    requires Accepted(a) && Accepted(b)
    requires |a.entries| < U64_LIMIT && |b.entries| < U64_LIMIT
    ensures Preimage(a) == Preimage(b)
            <==> a.info == b.info && LedgerMap(a.entries) == LedgerMap(b.entries)
  {
    AcceptedSize(a);
    AcceptedSize(b);
    RowsDetermineLedger(a.entries, b.entries);
    if Preimage(a) == Preimage(b) {
      SplitPreimage(a.info, RowMap(Records(a)), b.info, RowMap(Records(b)));
    }
  }

  lemma SplitPreimage(a: LedgerInfo, p: map<KeyId, Row>, b: LedgerInfo, q: map<KeyId, Row>)
    requires |p| < U64_LIMIT && |q| < U64_LIMIT
    requires LedgerPreimage(a, p) == LedgerPreimage(b, q)
    ensures a == b && p == q
  {
    var s, t := EncodeTable(p, EncodeRow), EncodeTable(q, EncodeRow);
    SplitStream(LEDGER_DIGEST_DOMAIN_V1, EncodeInfo(a) + s, LEDGER_DIGEST_DOMAIN_V1, EncodeInfo(b) + t);
    EncodeInfoInjective(a, s, b, t);
    EncodersSelfDelimiting();
    assert s + [] == t + [];
    SplitTable(p, [], q, [], EncodeRow);
  }

  lemma RowsDetermineLedger(a: seq<SnapshotEntry>, b: seq<SnapshotEntry>)
    requires EncodeEntries(a).Ok? && EncodeEntries(b).Ok?
    ensures RowMap(EncodeEntries(a).value) == RowMap(EncodeEntries(b).value) <==> LedgerMap(a) == LedgerMap(b)
  {
    RowMapIsLedgerMap(a);
    RowMapIsLedgerMap(b);
    var p, q, l, m := RowMap(EncodeEntries(a).value), RowMap(EncodeEntries(b).value), LedgerMap(a), LedgerMap(b);
    if p == q {
      forall id | id in l ensures l[id] == m[id] {
        assert id in p;
        EntryXdrInjective(l[id].entry, m[id].entry);
      }
      assert l == m;
    }
    if l == m {
      assert forall id | id in p :: p[id] == q[id];
      assert p == q;
    }
  }

  // ----- Permutations -----

  lemma TwoPositions<T>(s: seq<T>, i: nat, j: nat)
    requires i < j < |s| && s[i] == s[j]
    ensures multiset(s)[s[i]] >= 2
  {
    assert s == s[..j] + [s[j]] + s[j + 1..];
    assert s[i] in s[..j];
  }

  lemma PositionOf<T>(s: seq<T>, x: T) returns (i: nat)
    requires x in multiset(s)
    ensures i < |s| && s[i] == x
  {
    i :| 0 <= i < |s| && s[i] == x;
  }

  lemma {:induction false} PositionsOf<T>(s: seq<T>, x: T) returns (i: nat, j: nat)
    requires multiset(s)[x] >= 2
    ensures i < j < |s| && s[i] == x && s[j] == x
  {
    i := PositionOf(s, x);
    var rest := s[..i] + s[i + 1..];
    assert s == s[..i] + ([s[i]] + s[i + 1..]);
    assert multiset(s) == multiset(rest) + multiset{x};
    var k := PositionOf(rest, x);
    j := if k < i then k else k + 1;
    assert s[j] == rest[k];
    if j < i {
      i, j := j, i;
    }
  }

  /** Which ids occur twice does not depend on the order of the records. */
  lemma DuplicateIdsPermutation(a: seq<Record>, b: seq<Record>)
    requires multiset(a) == multiset(b)
    ensures DuplicateIds(a) <= DuplicateIds(b)
  {
    forall id | id in DuplicateIds(a) ensures id in DuplicateIds(b) {
      var i, j :| 0 <= i < j < |a| && a[i].id == a[j].id && a[i].id == id;
      assert a[i] in multiset(a) && a[j] in multiset(a);
      if a[i] == a[j] {
        TwoPositions(a, i, j);
        var p, q := PositionsOf(b, a[i]);
        assert b[p].id == b[q].id;
      } else {
        var p := PositionOf(b, a[i]);
        var q := PositionOf(b, a[j]);
        assert p != q;
        if p < q { assert b[p].id == b[q].id; } else { assert b[q].id == b[p].id; }
      }
    }
  }

  lemma RowMapPermutation(a: seq<Record>, b: seq<Record>)
    requires multiset(a) == multiset(b) && Distinct(a)
    ensures Distinct(b) && RowMap(a) == RowMap(b)
  {
    DistinctMeansNoDuplicates(a);
    DistinctMeansNoDuplicates(b);
    DuplicateIdsPermutation(b, a);
    RowMapIncluded(a, b);
    RowMapIncluded(b, a);
  }

  lemma RowMapIncluded(a: seq<Record>, b: seq<Record>)
    requires multiset(a) == multiset(b) && Distinct(a) && Distinct(b)
    ensures forall id | id in RowMap(a) :: id in RowMap(b) && RowMap(b)[id] == RowMap(a)[id]
  {
    forall id | id in RowMap(a) ensures id in RowMap(b) && RowMap(b)[id] == RowMap(a)[id] {
      RowMapDomain(a, id);
      var i :| 0 <= i < |a| && a[i].id == id;
      RowMapAt(a, i);
      assert a[i] in multiset(a);
      var j := PositionOf(b, a[i]);
      RowMapAt(b, j);
    }
  }

  lemma {:induction false} RecordsPermutation(a: seq<SnapshotEntry>, b: seq<SnapshotEntry>)
    requires multiset(a) == multiset(b) && EncodeEntries(a).Ok?
    ensures EncodeEntries(b).Ok? && multiset(EncodeEntries(a).value) == multiset(EncodeEntries(b).value)
  {
    if b == [] {
      assert |multiset(a)| == |a|;
    } else {
      var n := |b| - 1;
      assert b == b[..n] + [b[n]];
      assert b[n] in multiset(a);
      var i := PositionOf(a, b[n]);
      RemoveAt(a, i);
      assert multiset(b) == multiset(b[..n]) + multiset{b[n]};
      assert multiset(Without(a, i)) == multiset(b) - multiset{b[n]} == multiset(b[..n]);
      RecordsWithout(a, i);
      RecordsPermutation(Without(a, i), b[..n]);
      EncodedAt(a, i);
      EncodedAnywhere(a[i], i, n);
      RemoveAt(EncodeEntries(a).value, i);
    }
  }

  function Without<T>(s: seq<T>, i: nat): (r: seq<T>)
    requires i < |s|
    ensures |r| == |s| - 1
  {
    s[..i] + s[i + 1..]
  }

  lemma RemoveAt<T>(s: seq<T>, i: nat)
    requires i < |s|
    ensures multiset(s) == multiset(Without(s, i)) + multiset{s[i]}
  {
    assert s == s[..i] + ([s[i]] + s[i + 1..]);
  }

  lemma WithoutAt<T>(s: seq<T>, i: nat, k: nat)
    requires i < |s| && k < |s| - 1
    ensures Without(s, i)[k] == s[if k < i then k else k + 1]
  {
  }

  lemma RecordsWithout(a: seq<SnapshotEntry>, i: nat)
    requires EncodeEntries(a).Ok? && i < |a|
    ensures EncodeEntries(Without(a, i)) == Ok(Without(EncodeEntries(a).value, i))
  {
    var records := EncodeEntries(a).value;
    var entries, rest := Without(a, i), Without(records, i);
    forall k | 0 <= k < |entries| ensures EncodeEntry(entries[k], k) == Ok(rest[k]) {
      var from := if k < i then k else k + 1;
      WithoutAt(a, i, k);
      WithoutAt(records, i, k);
      EncodedAt(a, from);
      EncodedAnywhere(a[from], from, k);
    }
    RecordsFromEach(entries, rest);
  }

  lemma {:induction false} RecordsFromEach(entries: seq<SnapshotEntry>, records: seq<Record>)
    requires |entries| == |records|
    requires forall i | 0 <= i < |entries| :: EncodeEntry(entries[i], i) == Ok(records[i])
    ensures EncodeEntries(entries) == Ok(records)
  {
    if entries != [] {
      var n := |entries| - 1;
      RecordsFromEach(entries[..n], records[..n]);
      assert records == records[..n] + [records[n]];
    }
  }

  /**
   Reordering the entries of a snapshot changes neither the digest nor, when a key
   occurs twice, the key that the error names. Snapshots with a mismatched or
   unencodable entry stay refused, with the first such entry of each order.
   */
  lemma LedgerDigestPermutation(a: LedgerSnapshot, b: LedgerSnapshot)
    requires a.info == b.info && multiset(a.entries) == multiset(b.entries)
    ensures EncodeEntries(a.entries).Ok? <==> EncodeEntries(b.entries).Ok?
    ensures EncodeEntries(a.entries).Ok? ==> LedgerDigest(b) == LedgerDigest(a)
  {
    if EncodeEntries(a.entries).Ok? {
      EncodedDigestPermutation(a, b);
    }
    if EncodeEntries(b.entries).Ok? {
      RecordsPermutation(b.entries, a.entries);
    }
  }

  lemma EncodedDigestPermutation(a: LedgerSnapshot, b: LedgerSnapshot)
    requires a.info == b.info && multiset(a.entries) == multiset(b.entries)
    requires EncodeEntries(a.entries).Ok?
    ensures EncodeEntries(b.entries).Ok? && LedgerDigest(b) == LedgerDigest(a)
  {
    RecordsPermutation(a.entries, b.entries);
    var p, q := EncodeEntries(a.entries).value, EncodeEntries(b.entries).value;
    hide EncodeEntries, DuplicateIds;
    DuplicateIdsPermutation(p, q);
    DuplicateIdsPermutation(q, p);
    assert DuplicateIds(p) == DuplicateIds(q);
    if DuplicateIds(p) == {} {
      DistinctMeansNoDuplicates(p);
      RowMapPermutation(p, q);
    }
  }

  // ----- The algorithm -----

  predicate NotAfter(a: Record, b: Record) {
    a.id == b.id || Less(a.id, b.id)
  }

  predicate SortedByKey(records: seq<Record>) {
    forall i, j | 0 <= i < j < |records| :: NotAfter(records[i], records[j])
  }

  lemma SortedWithHead(head: Record, tail: seq<Record>)
    requires SortedByKey(tail) && forall i | 0 <= i < |tail| :: NotAfter(head, tail[i])
    ensures SortedByKey([head] + tail)
  {
  }

  lemma BeforeAll(record: Record, records: seq<Record>)
    requires SortedByKey(records) && (records != [] ==> NotAfter(record, records[0]))
    ensures forall i | 0 <= i < |records| :: NotAfter(record, records[i])
  {
    forall i | 0 <= i < |records| ensures NotAfter(record, records[i]) {
      if 0 < i {
        assert NotAfter(records[0], records[i]);
        if Less(record.id, records[0].id) && Less(records[0].id, records[i].id) {
          LessTransitive(record.id, records[0].id, records[i].id);
        }
      }
    }
  }

  lemma BeforeAllInserted(head: Record, tail: seq<Record>, record: Record, inserted: seq<Record>)
    requires SortedByKey([head] + tail) && NotAfter(head, record)
    requires multiset(inserted) == multiset(tail) + multiset{record}
    ensures forall i | 0 <= i < |inserted| :: NotAfter(head, inserted[i])
  {
    forall i | 0 <= i < |inserted| ensures NotAfter(head, inserted[i]) {
      assert inserted[i] in multiset(inserted);
      if inserted[i] != record {
        var j := PositionOf(tail, inserted[i]);
        assert ([head] + tail)[0] == head && ([head] + tail)[j + 1] == inserted[i];
      }
    }
  }

  function InsertByKey(record: Record, records: seq<Record>): (r: seq<Record>)
    requires SortedByKey(records)
    ensures multiset(r) == multiset(records) + multiset{record}
    ensures SortedByKey(r)
  {
    if records == [] then [record]
    else if NotAfter(record, records[0]) then
      BeforeAll(record, records);
      SortedWithHead(record, records);
      [record] + records
    else
      var head, tail := records[0], records[1..];
      assert records == [head] + tail;
      LessTotal(record.id, head.id);
      var inserted := InsertByKey(record, tail);
      BeforeAllInserted(head, tail, record, inserted);
      SortedWithHead(head, inserted);
      [head] + inserted
  }

  /** What `sort_unstable_by` on the keys leaves in the vector. */
  function SortByKey(records: seq<Record>): (r: seq<Record>)
    ensures multiset(r) == multiset(records) && SortedByKey(r)
  {
    if records == [] then []
    else
      assert records == [records[0]] + records[1..];
      InsertByKey(records[0], SortByKey(records[1..]))
  }

  lemma EqualNeighbourIsLeast(records: seq<Record>, i: nat)
    requires SortedByKey(records) && i + 1 < |records|
    requires records[i].id == records[i + 1].id
    requires forall k | 0 <= k < i :: records[k].id != records[k + 1].id
    ensures records[i].id in DuplicateIds(records)
    ensures DuplicateIds(records) != {} && Least(DuplicateIds(records)) == records[i].id
  {
    var id := records[i].id;
    var duplicates := DuplicateIds(records);
    assert id in duplicates;
    forall y | y in duplicates ensures y == id || Less(id, y) {
      var p, q :| 0 <= p < q < |records| && records[p].id == records[q].id && records[p].id == y;
      NeighboursEqual(records, p, q);
      assert i <= p;
      assert i < p ==> NotAfter(records[i], records[p]);
    }
    LeastUnique(Least(duplicates), id, duplicates);
  }

  lemma NeighboursEqual(records: seq<Record>, p: nat, q: nat)
    requires SortedByKey(records) && p < q < |records| && records[p].id == records[q].id
    ensures records[p].id == records[p + 1].id
  {
    if p + 1 < q {
      assert NotAfter(records[p], records[p + 1]) && NotAfter(records[p + 1], records[q]);
      if records[p].id != records[p + 1].id {
        LessAsymmetric(records[p].id, records[p + 1].id);
      }
    }
  }

  lemma NoEqualNeighbours(records: seq<Record>)
    requires SortedByKey(records)
    requires forall k | 0 <= k < |records| - 1 :: records[k].id != records[k + 1].id
    ensures Distinct(records)
  {
    forall p, q | 0 <= p < q < |records| ensures records[p].id != records[q].id {
      if records[p].id == records[q].id { NeighboursEqual(records, p, q); }
    }
  }

  function IdsOf(records: seq<Record>): seq<KeyId> {
    seq(|records|, i requires 0 <= i < |records| => records[i].id)
  }

  lemma SortedRecordsAreRows(records: seq<Record>)
    requires SortedByKey(records) && Distinct(records)
    ensures IdsOf(records) == Sorted(RowMap(records).Keys)
    ensures |RowMap(records)| == |records|
  {
    RowMapSize(records);
    var ids := IdsOf(records);
    forall i, j | 0 <= i < j < |ids| ensures Less(ids[i], ids[j]) {
      assert NotAfter(records[i], records[j]);
    }
    forall id ensures id in ids <==> id in RowMap(records).Keys {
      RowMapDomain(records, id);
      assert forall i | 0 <= i < |records| :: ids[i] == records[i].id;
    }
    SortedIs(RowMap(records).Keys, ids);
  }

  method PushEncoded(entries: seq<SnapshotEntry>) returns (r: Result<seq<Record>, FixtureError>)
    ensures r == EncodeEntries(entries)
  {
    var encoded: seq<Record> := [];
    for index := 0 to |entries|
      invariant EncodeEntries(entries[..index]) == Ok(encoded)
    {
      assert entries[..index + 1][..index] == entries[..index];
      var record := EncodeEntry(entries[index], index);
      if record.Err? {
        FirstFailure(entries, index);
        return Err(record.error);
      }
      encoded := encoded + [record.value];
    }
    assert entries[..|entries|] == entries;
    return Ok(encoded);
  }

  /** The scan over neighbouring pairs of the sorted vector. */
  method FirstEqualNeighbours(encoded: seq<Record>) returns (duplicate: Option<KeyId>)
    requires SortedByKey(encoded)
    ensures duplicate.None? ==> Distinct(encoded)
    ensures duplicate.Some? ==> DuplicateIds(encoded) != {} && duplicate.value == Least(DuplicateIds(encoded))
  {
    var i := 0;
    while i + 1 < |encoded|
      invariant 0 <= i
      invariant forall k | 0 <= k < i && k + 1 < |encoded| :: encoded[k].id != encoded[k + 1].id
    {
      if encoded[i].id == encoded[i + 1].id {
        EqualNeighbourIsLeast(encoded, i);
        return Some(encoded[i].id);
      }
      i := i + 1;
    }
    NoEqualNeighbours(encoded);
    return None;
  }

  function ConcatRows(records: seq<Record>): seq<byte> {
    if records == [] then []
    else
      var last := records[|records| - 1];
      ConcatRows(records[..|records| - 1]) + (Field(last.id) + EncodeRow(last.row))
  }

  lemma {:induction false} ConcatRowsAreRows(records: seq<Record>, table: map<KeyId, Row>)
    requires forall i | 0 <= i < |records| :: records[i].id in table && table[records[i].id] == records[i].row
    ensures forall id | id in IdsOf(records) :: id in table
    ensures ConcatRows(records) == Rows(IdsOf(records), table, EncodeRow)
  {
    if records != [] {
      var n := |records| - 1;
      ConcatRowsAreRows(records[..n], table);
      assert IdsOf(records) == IdsOf(records[..n]) + [records[n].id];
      RowsAppend(IdsOf(records[..n]), records[n].id, table, EncodeRow);
    }
  }

  method HashRows(header: seq<byte>, encoded: seq<Record>) returns (hashed: seq<byte>)
    ensures hashed == header + ConcatRows(encoded)
  {
    hashed := header;
    for k := 0 to |encoded|
      invariant hashed == header + ConcatRows(encoded[..k])
    {
      var row := Field(encoded[k].id) + EncodeRow(encoded[k].row);
      assert encoded[..k + 1][..k] == encoded[..k];
      Associates(header, ConcatRows(encoded[..k]), row);
      hashed := hashed + row;
    }
    assert encoded[..|encoded|] == encoded;
  }

  /** `canonical_ledger_digest`. */
  method CanonicalLedgerDigest(snapshot: LedgerSnapshot) returns (r: Result<Digest, FixtureError>)
    ensures r == LedgerDigest(snapshot)
  {
    var encoded :- PushEncoded(snapshot.entries);
    ghost var records := encoded;
    encoded := SortByKey(encoded);
    DuplicateIdsPermutation(records, encoded);
    DuplicateIdsPermutation(encoded, records);
    assert DuplicateIds(records) == DuplicateIds(encoded);
    var duplicate := FirstEqualNeighbours(encoded);
    if duplicate.Some? {
      return Err(DuplicateLedgerKey(duplicate.value));
    }
    DistinctMeansNoDuplicates(encoded);
    RowMapPermutation(encoded, records);
    var hashed := HashRows(LEDGER_DIGEST_DOMAIN_V1 + (EncodeInfo(snapshot.info) + U64(|encoded|)), encoded);
    SortedRowsHash(snapshot.info, encoded);
    return Ok(Sha256(hashed));
  }

  lemma SortedRowsHash(info: LedgerInfo, encoded: seq<Record>)
    requires SortedByKey(encoded) && Distinct(encoded)
    ensures LEDGER_DIGEST_DOMAIN_V1 + (EncodeInfo(info) + U64(|encoded|)) + ConcatRows(encoded)
            == LedgerPreimage(info, RowMap(encoded))
  {
    forall i | 0 <= i < |encoded|
      ensures encoded[i].id in RowMap(encoded) && RowMap(encoded)[encoded[i].id] == encoded[i].row
    {
      RowMapAt(encoded, i);
    }
    ConcatRowsAreRows(encoded, RowMap(encoded));
    SortedRecordsAreRows(encoded);
    PreimageAssociates(info, |encoded|, ConcatRows(encoded));
  }

  lemma PreimageAssociates(info: LedgerInfo, count: nat, rows: seq<byte>)
    ensures (LEDGER_DIGEST_DOMAIN_V1 + (EncodeInfo(info) + U64(count))) + rows
            == LEDGER_DIGEST_DOMAIN_V1 + (EncodeInfo(info) + (U64(count) + rows))
  {
    Associates(LEDGER_DIGEST_DOMAIN_V1, EncodeInfo(info) + U64(count), rows);
    Associates(EncodeInfo(info), U64(count), rows);
  }

  /** A failure in a prefix is the failure of the whole list. */
  lemma {:induction false} FirstFailure(entries: seq<SnapshotEntry>, index: nat)
    requires index < |entries|
    requires EncodeEntries(entries[..index]).Ok? && EncodeEntry(entries[index], index).Err?
    ensures EncodeEntries(entries) == Err(EncodeEntry(entries[index], index).error)
    decreases |entries|
  {
    var last := |entries| - 1;
    if index < last {
      assert entries[..last][..index] == entries[..index];
      FirstFailure(entries[..last], index);
    }
  }

  // ----- Frozen fixtures -----

  datatype FrozenFixture = FrozenFixture(snapshot: LedgerSnapshot, ledgerDigest: Digest)

  /** `FrozenFixture::from_snapshot_with_policy`. */
  function FromSnapshot(snapshot: LedgerSnapshot, passphrase: Vec8, policy: ProtocolPolicy)
    : Result<FrozenFixture, FixtureError>
  {
    if !policy.Accepts(snapshot.info.protocolVersion) then
      Err(UnsupportedProtocol(snapshot.info.protocolVersion, SUPPORTED_PROTOCOL_VERSION))
    else if snapshot.info.networkId != Sha256(passphrase) then
      Err(NetworkMismatch(Sha256(passphrase), snapshot.info.networkId))
    else
      var digest :- LedgerDigest(snapshot);
      Ok(FrozenFixture(snapshot, digest))
  }

  // ----- Protocol downgrade (src/runtime.rs) -----

  /** `executed_protocol_version`. */
  function Executed(network: u32): u32 {
    if network == NEWER_PROTOCOL_VERSION then SUPPORTED_PROTOCOL_VERSION else network
  }

  /** `restore_network_protocol`. */
  function Restored(protocol: u32, network: u32): u32 {
    if protocol == Executed(network) then network else protocol
  }
}
