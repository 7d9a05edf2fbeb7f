/**
 The RPC provider as an adversary, and the ledgers it may serve from.

 A provider answers call number `i` however it likes; it may fail, and it may
 answer each call from another ledger. `Honest` is what capture relies on: every
 answer is served whole from one ledger of a chain in which a sequence number
 names one ledger.
 */
module Providers {
  import opened Wrappers
  import opened Bytes
  import opened Ledger
  import opened Errors

  datatype Anchor = Anchor(sequence: u32, hash: Vec8, protocolVersion: u32, timestamp: u64, baseReserve: u32)

  datatype Network = Network(passphrase: Vec8, protocolVersion: u32)

  datatype EntryBatch = EntryBatch(latestLedger: u32, entries: seq<LedgerValue>)

  /** The `Transport` trait: what call number `i` returns. */
  datatype Provider = Provider(
    network: nat -> Result<Network, Operation>,
    latest: nat -> Result<Anchor, Operation>,
    entries: (nat, seq<LedgerKey>) -> Result<EntryBatch, Operation>)

  datatype ChainLedger = ChainLedger(anchor: Anchor, values: map<LedgerKey, LedgerValue>) {
    function Lookup(key: LedgerKey): LookupState {
      AsState(if key in values then Some(values[key]) else None)
    }
  }

  type Chain = u32 -> ChainLedger

  /** A batch answers for every requested key as the ledger does; it may be out of order, repeat or add entries. */
  ghost predicate Serves(ledger: ChainLedger, keys: seq<LedgerKey>, entries: seq<LedgerValue>) {
    && (forall k, f | k in keys && f in entries && f.entry.ToKey() == k :: k in ledger.values && ledger.values[k] == f)
    && (forall k | k in keys && k in ledger.values ::
          ledger.values[k] in entries && ledger.values[k].entry.ToKey() == k)
  }

  ghost predicate ServesAnchor(answer: Result<Anchor, Operation>, chain: Chain) {
    answer.Ok? ==> answer.value == chain(answer.value.sequence).anchor && answer.value.hash != []
  }

  ghost predicate ServesBatch(answer: Result<EntryBatch, Operation>, keys: seq<LedgerKey>, chain: Chain) {
    answer.Ok? ==> Serves(chain(answer.value.latestLedger), keys, answer.value.entries)
  }

  ghost predicate Honest(p: Provider, chain: Chain) {
    && (forall i :: ServesAnchor(p.latest(i), chain))
    && (forall i, keys :: ServesBatch(p.entries(i, keys), keys, chain))
  }

  /** Reported anchors name a ledger hash; the HTTP transport recomputes it from the header. */
  ghost predicate Hashed(p: Provider) {
    forall i :: p.latest(i).Ok? ==> p.latest(i).value.hash != []
  }

  /** Every answer that is not a failure comes from `ledger`. */
  ghost predicate Unchanging(p: Provider, ledger: ChainLedger) {
    && Honest(p, s => ledger)
    && (forall i :: p.latest(i).Ok? ==> p.latest(i).value == ledger.anchor)
    && (forall i, keys :: p.entries(i, keys).Ok? ==> p.entries(i, keys).value.latestLedger == ledger.anchor.sequence)
  }

  // ----- `validate_batch` -----

  function RequestedIds(keys: seq<LedgerKey>): Result<set<KeyId>, CaptureError> {
    if forall k | k in keys :: KeyXdr(k).Some? then Ok(set k | k in keys :: KeyXdr(k).value) else Err(Xdr)
  }

  function CollectBatch(ids: set<KeyId>, entries: seq<LedgerValue>): (r: Result<map<KeyId, LedgerValue>, CaptureError>)
    ensures r.Err? ==> r.error.IsOrdinary()
  {
    if entries == [] then Ok(map[])
    else
      var last := entries[|entries| - 1];
      var returned :- CollectBatch(ids, entries[..|entries| - 1]);
      match KeyXdr(last.entry.ToKey())
      case None => Err(Xdr)
      case Some(id) =>
        if id !in ids || id in returned then Err(MalformedRpc(GetLedgerEntries)) else Ok(returned[id := last])
  }

  function ValidateBatch(keys: seq<LedgerKey>, entries: seq<LedgerValue>): Result<map<KeyId, LedgerValue>,
                         CaptureError> {
    var ids :- RequestedIds(keys);
    CollectBatch(ids, entries)
  }

  function Get(returned: map<KeyId, LedgerValue>, id: KeyId): Option<LedgerValue> {
    if id in returned then Some(returned[id]) else None
  }

  lemma {:induction false} CollectedAre(ids: set<KeyId>, entries: seq<LedgerValue>)
    requires CollectBatch(ids, entries).Ok?
    ensures var returned := CollectBatch(ids, entries).value;
      && (forall id | id in returned :: returned[id] in entries && KeyXdr(returned[id].entry.ToKey()) == Some(id))
      && (forall f | f in entries ::
            KeyXdr(f.entry.ToKey()).Some? && KeyXdr(f.entry.ToKey()).value in returned
            && returned[KeyXdr(f.entry.ToKey()).value] == f)
  {
    if entries != [] {
      var n := |entries| - 1;
      CollectedAre(ids, entries[..n]);
      assert forall f | f in entries :: f in entries[..n] || f == entries[n];
    }
  }

  /** A batch that passes validation is exactly the ledger's lookup on the requested keys. */
  lemma BatchIsLookup(ledger: ChainLedger, keys: seq<LedgerKey>, entries: seq<LedgerValue>, key: LedgerKey, id: KeyId)
    requires ValidateBatch(keys, entries).Ok? && Serves(ledger, keys, entries)
    requires key in keys && KeyXdr(key) == Some(id)
    ensures AsState(Get(ValidateBatch(keys, entries).value, id)) == ledger.Lookup(key)
  {
    var ids := RequestedIds(keys).value;
    var returned := CollectBatch(ids, entries).value;
    CollectedAre(ids, entries);
    if key in ledger.values {
      assert ledger.values[key] in entries;
    }
    if id in returned {
      KeyXdrInjective(returned[id].entry.ToKey(), key);
    }
  }

  /** Every entry is for a key that was asked for, and none is for the key of another. */
  predicate IsProperBatch(keys: seq<LedgerKey>, entries: seq<LedgerValue>) {
    && (forall k | k in keys :: KeyXdr(k).Some?)
    && (forall f | f in entries :: f.entry.ToKey() in keys)
    && (forall i, j | 0 <= i < j < |entries| :: entries[i].entry.ToKey() != entries[j].entry.ToKey())
  }

  /** A batch is accepted exactly when it is proper; entries not asked for and repeated ones are refused. */
  lemma BatchAcceptedWhenProper(keys: seq<LedgerKey>, entries: seq<LedgerValue>)
    ensures ValidateBatch(keys, entries).Ok? <==> IsProperBatch(keys, entries)
  {
    if RequestedIds(keys).Ok? {
      CollectedWhenProper(keys, RequestedIds(keys).value, entries);
    }
  }

  lemma {:induction false} CollectedWhenProper(keys: seq<LedgerKey>, ids: set<KeyId>, entries: seq<LedgerValue>)
    requires forall k | k in keys :: KeyXdr(k).Some?
    requires ids == set k | k in keys :: KeyXdr(k).value
    ensures CollectBatch(ids, entries).Ok? <==> IsProperBatch(keys, entries)
  {
    if entries != [] {
      var n := |entries| - 1;
      var init, last := entries[..n], entries[n];
      assert entries == init + [last];
      CollectedWhenProper(keys, ids, init);
      ProperAppend(keys, init, last);
      if CollectBatch(ids, init).Ok? {
        CollectedAre(ids, init);
        LastCollected(keys, ids, init, last);
      }
    }
  }

  predicate IsNewEntry(keys: seq<LedgerKey>, entries: seq<LedgerValue>, last: LedgerValue) {
    last.entry.ToKey() in keys && forall f | f in entries :: f.entry.ToKey() != last.entry.ToKey()
  }

  lemma ProperAppend(keys: seq<LedgerKey>, entries: seq<LedgerValue>, last: LedgerValue)
    ensures IsProperBatch(keys, entries + [last]) <==> IsProperBatch(keys, entries) && IsNewEntry(keys, entries, last)
  {
    var all, n := entries + [last], |entries|;
    assert all[n] == last && last in all;
    assert forall i | 0 <= i < n :: all[i] == entries[i] && entries[i] in entries;
    assert forall f :: f in all <==> f in entries || f == last;
    if IsProperBatch(keys, all) {
      forall f | f in entries ensures f.entry.ToKey() != last.entry.ToKey() {
        var i :| 0 <= i < n && entries[i] == f;
        assert all[i].entry.ToKey() != all[n].entry.ToKey();
      }
      assert forall i, j | 0 <= i < j < n :: all[i].entry.ToKey() != all[j].entry.ToKey();
    }
  }

  lemma LastCollected(keys: seq<LedgerKey>, ids: set<KeyId>, entries: seq<LedgerValue>, last: LedgerValue)
    requires forall k | k in keys :: KeyXdr(k).Some?
    requires ids == set k | k in keys :: KeyXdr(k).value
    requires CollectBatch(ids, entries).Ok?
    requires var returned := CollectBatch(ids, entries).value;
      && (forall id | id in returned :: returned[id] in entries && KeyXdr(returned[id].entry.ToKey()) == Some(id))
      && (forall f | f in entries ::
            KeyXdr(f.entry.ToKey()).Some? && KeyXdr(f.entry.ToKey()).value in returned
            && returned[KeyXdr(f.entry.ToKey()).value] == f)
    ensures CollectBatch(ids, entries + [last]).Ok? <==> IsNewEntry(keys, entries, last)
  {
    assert (entries + [last])[..|entries|] == entries;
    var returned, key := CollectBatch(ids, entries).value, last.entry.ToKey();
    if KeyXdr(key).Some? {
      var id := KeyXdr(key).value;
      if id in ids {
        var k :| k in keys && KeyXdr(k).value == id;
        KeyXdrInjective(k, key);
      }
      if id in returned {
        KeyXdrInjective(returned[id].entry.ToKey(), key);
      }
    }
  }
}
