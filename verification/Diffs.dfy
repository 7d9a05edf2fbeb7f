/**
 Ledger differences and what they do to coverage (`state_diff`,
 `update_coverage`, `strip_new_mock_nonces`, src/strict.rs).
 */
module Diffs {
  import opened Wrappers
  import opened Ordered
  import opened Ledger
  import opened Fixture
  import opened Bundles

  type Values = map<KeyId, LedgerValue>

  function ValueAt(ledger: Values, id: KeyId): Option<LedgerValue> {
    if id in ledger then Some(ledger[id]) else None
  }

  datatype StateChange = StateChange(key: LedgerKey, before: Option<LedgerValue>, after: Option<LedgerValue>)

  predicate KeysEncode(entries: seq<SnapshotEntry>) {
    forall i | 0 <= i < |entries| :: KeyXdr(entries[i].key).Some?
  }

  /** The keys of `snapshot_map`, by id. */
  function KeyMap(entries: seq<SnapshotEntry>): map<KeyId, LedgerKey> {
    if entries == [] then map[]
    else
      var rest, e := KeyMap(entries[..|entries| - 1]), entries[|entries| - 1];
      match KeyXdr(e.key)
      case Some(id) => rest[id := e.key]
      case None => rest
  }

  lemma {:induction false} KeyMapIs(entries: seq<SnapshotEntry>)
    ensures WellKeyed(KeyMap(entries)) && KeyMap(entries).Keys == LedgerMap(entries).Keys
  {
    if entries != [] {
      KeyMapIs(entries[..|entries| - 1]);
    }
  }

  function ChangeAt(id: KeyId, keys: map<KeyId, LedgerKey>, before: Values, after: Values): seq<StateChange>
    requires id in keys
  {
    if ValueAt(before, id) == ValueAt(after, id) then []
    else [StateChange(keys[id], ValueAt(before, id), ValueAt(after, id))]
  }

  /** The changes at `ids`, in their order. */
  function ChangesAt(ids: seq<KeyId>, keys: map<KeyId, LedgerKey>, before: Values, after: Values): seq<StateChange>
    requires forall i | 0 <= i < |ids| :: ids[i] in keys
  {
    if ids == [] then []
    else ChangesAt(ids[..|ids| - 1], keys, before, after) + ChangeAt(ids[|ids| - 1], keys, before, after)
  }

  /** A key known before keeps its spelling; a new one takes the later ledger's. */
  function AllKeys(before: seq<SnapshotEntry>, after: seq<SnapshotEntry>): map<KeyId, LedgerKey> {
    KeyMap(after) + KeyMap(before)
  }

  function OrderedIds(before: seq<SnapshotEntry>, after: seq<SnapshotEntry>): (ids: seq<KeyId>)
    ensures StrictlySorted(ids)
    ensures forall i | 0 <= i < |ids| :: ids[i] in AllKeys(before, after)
    ensures forall id :: id in AllKeys(before, after) <==> id in ids
  {
    IdsInOrder(AllKeys(before, after));
    Sorted(AllKeys(before, after).Keys)
  }

  lemma IdsInOrder(keys: map<KeyId, LedgerKey>)
    ensures var ids := Sorted(keys.Keys);
      && (forall i | 0 <= i < |ids| :: ids[i] in keys)
      && (forall id :: id in keys <==> id in ids)
  {
    hide StrictlySorted, Sorted;
    var ids := Sorted(keys.Keys);
    forall i | 0 <= i < |ids| ensures ids[i] in keys {
      assert ids[i] in ids;
    }
    forall id ensures id in keys <==> id in ids {
      assert id in ids <==> id in keys.Keys;
    }
  }

  /** `state_diff`; none when some key has no XDR. */
  function StateDiff(before: seq<SnapshotEntry>, after: seq<SnapshotEntry>): Option<seq<StateChange>> {
    if KeysEncode(before) && KeysEncode(after) then
      Some(ChangesAt(OrderedIds(before, after), AllKeys(before, after), LedgerMap(before), LedgerMap(after)))
    else None
  }

  // ----- What a difference says -----

  /** `changes` are exactly the ids of `ids` whose values differ, each with both values. */
  ghost predicate Describes(changes: seq<StateChange>, ids: seq<KeyId>, before: Values, after: Values) {
    && (forall c | c in changes ::
          KeyXdr(c.key).Some? && KeyXdr(c.key).value in ids
          && c.before == ValueAt(before, KeyXdr(c.key).value) && c.after == ValueAt(after, KeyXdr(c.key).value)
          && c.before != c.after)
    && (forall id | id in ids && ValueAt(before, id) != ValueAt(after, id) ::
          exists c :: c in changes && KeyXdr(c.key) == Some(id))
  }

  /** Keys strictly increase. */
  ghost predicate KeyOrdered(changes: seq<StateChange>) {
    && (forall i | 0 <= i < |changes| :: KeyXdr(changes[i].key).Some?)
    && (forall i, j | 0 <= i < j < |changes| :: Less(KeyXdr(changes[i].key).value, KeyXdr(changes[j].key).value))
  }

  lemma {:induction false} ChangesDescribe(ids: seq<KeyId>, keys: map<KeyId, LedgerKey>, before: Values, after: Values)
    requires WellKeyed(keys) && StrictlySorted(ids) && forall i | 0 <= i < |ids| :: ids[i] in keys
    ensures Describes(ChangesAt(ids, keys, before, after), ids, before, after)
    ensures KeyOrdered(ChangesAt(ids, keys, before, after))
  {
    hide Describes, KeyOrdered, Less, ChangeAt, WellKeyed, ValueAt;
    if ids == [] {
      NothingDescribed(before, after);
    } else {
      var init, id := ids[..|ids| - 1], ids[|ids| - 1];
      assert ids == init + [id];
      ChangesDescribe(init, keys, before, after);
      var rest, last := ChangesAt(init, keys, before, after), ChangeAt(id, keys, before, after);
      DescribesAppend(rest, last, init, id, keys, before, after);
      OrderedAppend(rest, last, init, id, keys, before, after);
    }
  }

  lemma NothingDescribed(before: Values, after: Values)
    ensures Describes([], [], before, after) && KeyOrdered([])
  {
  }

  /** A change at an id beyond all earlier ones keeps the order. */
  lemma OrderedAppend(rest: seq<StateChange>, last: seq<StateChange>, init: seq<KeyId>, id: KeyId,
                      keys: map<KeyId, LedgerKey>, before: Values, after: Values)
    requires WellKeyed(keys) && id in keys && last == ChangeAt(id, keys, before, after)
    requires Describes(rest, init, before, after) && KeyOrdered(rest) && StrictlySorted(init + [id])
    ensures KeyOrdered(rest + last)
  {
    hide Less, ValueAt;
    var ids := init + [id];
    forall i | 0 <= i < |rest| ensures Less(KeyXdr(rest[i].key).value, id) {
      assert rest[i] in rest;
      var j :| 0 <= j < |init| && init[j] == KeyXdr(rest[i].key).value;
      assert ids[j] == init[j] && ids[|init|] == id;
    }
  }

  lemma DescribesAppend(rest: seq<StateChange>, last: seq<StateChange>, init: seq<KeyId>, id: KeyId,
                        keys: map<KeyId, LedgerKey>, before: Values, after: Values)
    requires WellKeyed(keys) && id in keys && last == ChangeAt(id, keys, before, after)
    requires Describes(rest, init, before, after)
    ensures Describes(rest + last, init + [id], before, after)
  {
    var changes, ids := rest + last, init + [id];
    assert forall c :: c in changes <==> c in rest || c in last;
    assert forall x :: x in ids <==> x in init || x == id;
    if ValueAt(before, id) != ValueAt(after, id) {
      assert StateChange(keys[id], ValueAt(before, id), ValueAt(after, id)) in changes;
    }
  }

  /** The whole meaning of a difference between two ledgers. */
  ghost predicate IsDiff(changes: seq<StateChange>, before: Values, after: Values) {
    && KeyOrdered(changes)
    && (forall c | c in changes ::
          KeyXdr(c.key).Some? && c.before != c.after
          && c.before == ValueAt(before, KeyXdr(c.key).value) && c.after == ValueAt(after, KeyXdr(c.key).value))
    && (forall id :: ValueAt(before, id) != ValueAt(after, id) <==>
        exists c :: c in changes && KeyXdr(c.key) == Some(id))
    && (changes == [] <==> before == after)
  }

  lemma DescribedIsDiff(changes: seq<StateChange>, ids: seq<KeyId>, before: Values, after: Values)
    requires Describes(changes, ids, before, after) && KeyOrdered(changes)
    requires forall id | id in before || id in after :: id in ids
    ensures IsDiff(changes, before, after)
  {
    hide KeyOrdered;
    forall id | ValueAt(before, id) != ValueAt(after, id) ensures exists c ::
        c in changes && KeyXdr(c.key) == Some(id) {
      assert id in ids;
    }
    if changes == [] {
      forall id ensures ValueAt(before, id) == ValueAt(after, id) {}
      EqualByValues(before, after);
    } else {
      assert changes[0] in changes;
      var id := KeyXdr(changes[0].key).value;
      assert ValueAt(before, id) != ValueAt(after, id);
    }
  }

  /**
   The diff is strictly ordered by key, holds no no-op, names every difference
   with both of its values, and is empty exactly when the ledgers are equal.
   */
  lemma StateDiffIsDiff(before: seq<SnapshotEntry>, after: seq<SnapshotEntry>)
    requires StateDiff(before, after).Some?
    ensures IsDiff(StateDiff(before, after).value, LedgerMap(before), LedgerMap(after))
  {
    var ids, keys := OrderedIds(before, after), AllKeys(before, after);
    KeyMapIs(before);
    KeyMapIs(after);
    assert WellKeyed(keys);
    forall id | id in LedgerMap(before) || id in LedgerMap(after) ensures id in ids {
      assert id in keys;
    }
    hide *;
    ChangesDescribe(ids, keys, LedgerMap(before), LedgerMap(after));
    StateDiffChanges(before, after);
    DescribedIsDiff(StateDiff(before, after).value, ids, LedgerMap(before), LedgerMap(after));
  }

  lemma StateDiffChanges(before: seq<SnapshotEntry>, after: seq<SnapshotEntry>)
    requires StateDiff(before, after).Some?
    ensures StateDiff(before, after).value
      == ChangesAt(OrderedIds(before, after), AllKeys(before, after), LedgerMap(before), LedgerMap(after))
  {
  }

  lemma EqualByValues(b: Values, a: Values)
    ensures b == a <==> forall id :: ValueAt(b, id) == ValueAt(a, id)
  {
    if forall id :: ValueAt(b, id) == ValueAt(a, id) {
      forall id: KeyId ensures id in b <==> id in a {
        assert ValueAt(b, id) == ValueAt(a, id);
      }
      forall id | id in b ensures b[id] == a[id] {
        assert ValueAt(b, id) == ValueAt(a, id);
      }
      assert b == a;
    }
  }

  // ----- Applying a difference -----

  function ApplyChange(ledger: Values, c: StateChange): Values {
    match KeyXdr(c.key)
    case None => ledger
    case Some(id) =>
      match c.after
      case Some(value) => ledger[id := value]
      case None => ledger - {id}
  }

  function ApplyChanges(ledger: Values, changes: seq<StateChange>): Values {
    if changes == [] then ledger
    else ApplyChange(ApplyChanges(ledger, changes[..|changes| - 1]), changes[|changes| - 1])
  }

  /** With ordered keys a change decides its own key, and nothing else is touched. */
  lemma {:induction false} AppliedAt(ledger: Values, changes: seq<StateChange>, id: KeyId)
    requires KeyOrdered(changes)
    ensures forall c | c in changes && KeyXdr(c.key) == Some(id) ::
        ValueAt(ApplyChanges(ledger, changes), id) == c.after
    ensures (forall c | c in changes :: KeyXdr(c.key) != Some(id)) ==>
      ValueAt(ApplyChanges(ledger, changes), id) == ValueAt(ledger, id)
  {
    if changes != [] {
      var n := |changes| - 1;
      AppliedAt(ledger, changes[..n], id);
      forall c | c in changes && KeyXdr(c.key) == Some(id)
        ensures ValueAt(ApplyChanges(ledger, changes), id) == c.after
      {
        var i :| 0 <= i < |changes| && changes[i] == c;
        if i < n {
          assert changes[..n][i] == c;
          LessAsymmetric(KeyXdr(changes[i].key).value, KeyXdr(changes[n].key).value);
        }
      }
      assert changes[n] in changes;
      assert forall c | c in changes[..n] :: c in changes;
    }
  }

  /** Applying the diff to the earlier ledger gives the later one. */
  lemma StateDiffApplies(before: seq<SnapshotEntry>, after: seq<SnapshotEntry>)
    requires StateDiff(before, after).Some?
    ensures ApplyChanges(LedgerMap(before), StateDiff(before, after).value) == LedgerMap(after)
  {
    var changes, b, a := StateDiff(before, after).value, LedgerMap(before), LedgerMap(after);
    StateDiffIsDiff(before, after);
    hide StateDiff, ApplyChanges, KeyOrdered;
    forall id ensures ValueAt(ApplyChanges(b, changes), id) == ValueAt(a, id) {
      AppliedAt(b, changes, id);
    }
    EqualByValues(ApplyChanges(b, changes), a);
  }

  // ----- Coverage -----

  /** `update_coverage` in place: the coverage reached, and whether every key encoded. */
  function UpdateCoverage(coverage: Coverage, changes: seq<StateChange>): (Coverage, bool) {
    if changes == [] then (coverage, true)
    else
      var (so, ok) := UpdateCoverage(coverage, changes[..|changes| - 1]);
      var last := changes[|changes| - 1];
      if !ok || KeyXdr(last.key).None? then (so, false)
      else (so[KeyXdr(last.key).value := AsState(last.after)], true)
  }

  /** Changes that have been through the diff never fail to encode. */
  lemma {:induction false} UpdateNeverFails(coverage: Coverage, changes: seq<StateChange>)
    requires forall c | c in changes :: KeyXdr(c.key).Some?
    ensures UpdateCoverage(coverage, changes).1
  {
    if changes != [] {
      var n := |changes| - 1;
      assert forall c | c in changes[..n] :: c in changes;
      assert changes[n] in changes;
      UpdateNeverFails(coverage, changes[..n]);
    }
  }

  lemma {:induction false} UpdatedAt(coverage: Coverage, changes: seq<StateChange>, id: KeyId)
    requires KeyOrdered(changes)
    ensures var after := UpdateCoverage(coverage, changes).0;
      && (forall c | c in changes && KeyXdr(c.key) == Some(id) :: id in after && after[id] == AsState(c.after))
      && ((forall c | c in changes :: KeyXdr(c.key) != Some(id)) ==>
            (id in after <==> id in coverage) && (id in after ==> after[id] == coverage[id]))
    ensures UpdateCoverage(coverage, changes).1
  {
    if changes != [] {
      var n := |changes| - 1;
      UpdatedAt(coverage, changes[..n], id);
      forall c | c in changes && KeyXdr(c.key) == Some(id)
        ensures var after := UpdateCoverage(coverage, changes).0; id in after && after[id] == AsState(c.after)
      {
        var i :| 0 <= i < |changes| && changes[i] == c;
        if i < n {
          assert changes[..n][i] == c;
          LessAsymmetric(KeyXdr(changes[i].key).value, KeyXdr(changes[n].key).value);
        }
      }
      assert changes[n] in changes;
      assert forall c | c in changes[..n] :: c in changes;
    }
  }

  /** Coverage that agreed with the earlier ledger agrees with the later one after the update. */
  lemma UpdateKeepsAgreement(coverage: Coverage, before: seq<SnapshotEntry>, after: seq<SnapshotEntry>)
    requires MatchesLedger(coverage, before) && StateDiff(before, after).Some?
    ensures var (next, ok) := UpdateCoverage(coverage, StateDiff(before, after).value);
      ok && MatchesLedger(next, after)
    ensures var next := UpdateCoverage(coverage, StateDiff(before, after).value).0;
      forall id :: id in next <==> id in coverage || ValueAt(LedgerMap(before), id) != ValueAt(LedgerMap(after), id)
  {
    var changes, b, a := StateDiff(before, after).value, LedgerMap(before), LedgerMap(after);
    StateDiffIsDiff(before, after);
    hide StateDiff, UpdateCoverage, KeyOrdered;
    var next := UpdateCoverage(coverage, changes).0;
    UpdateNeverFails(coverage, changes);
    forall id: KeyId
      ensures id in next <==> id in coverage || ValueAt(b, id) != ValueAt(a, id)
      ensures id in a ==> id in next && next[id] == AsState(Some(a[id]))
      ensures id in next && next[id].Present? ==> id in a
    {
      UpdatedAt(coverage, changes, id);
      if ValueAt(b, id) != ValueAt(a, id) {
        var c :| c in changes && KeyXdr(c.key) == Some(id);
        assert next[id] == AsState(c.after);
      }
    }
  }

  // ----- Mock nonces -----

  function NonceIds(entries: seq<SnapshotEntry>): Option<set<KeyId>> {
    if forall i | 0 <= i < |entries| && IsNonceKey(entries[i].key) :: KeyXdr(entries[i].key).Some? then
      Some(set i | 0 <= i < |entries| && IsNonceKey(entries[i].key) :: KeyXdr(entries[i].key).value)
    else None
  }

  /** The entries of `after` that are kept: every non-nonce, and nonces known before. */
  function KeepEntries(known: set<KeyId>, after: seq<SnapshotEntry>): seq<SnapshotEntry> {
    if after == [] then []
    else
      var rest, e := KeepEntries(known, after[..|after| - 1]), after[|after| - 1];
      if IsNonceKey(e.key) && (KeyXdr(e.key).None? || KeyXdr(e.key).value !in known) then rest else rest + [e]
  }

  /** `strip_new_mock_nonces`. */
  function StripNewNonces(before: seq<SnapshotEntry>, after: seq<SnapshotEntry>): Option<seq<SnapshotEntry>> {
    if NonceIds(before).None? || NonceIds(after).None? then None
    else Some(KeepEntries(NonceIds(before).value, after))
  }

  /** The id of a mock nonce: it decodes to a temporary nonce key. */
  predicate IsNonceId(id: KeyId) {
    KeyFromXdr(id).Some? && IsNonceKey(KeyFromXdr(id).value)
  }

  lemma {:induction false} KeptAt(known: set<KeyId>, after: seq<SnapshotEntry>, id: KeyId)
    ensures ValueAt(LedgerMap(KeepEntries(known, after)), id)
      == if IsNonceId(id) && id !in known then None else ValueAt(LedgerMap(after), id)
  {
    if after != [] {
      var n := |after| - 1;
      KeptAt(known, after[..n], id);
      var rest, e := KeepEntries(known, after[..n]), after[n];
      if KeyXdr(e.key).Some? {
        KeyXdrRoundTrip(e.key, KeyXdr(e.key).value);
      }
      assert (rest + [e])[..|rest|] == rest;
    }
  }

  lemma NonceIdsAre(entries: seq<SnapshotEntry>, id: KeyId)
    requires NonceIds(entries).Some?
    ensures id in NonceIds(entries).value <==> IsNonceId(id) && id in LedgerMap(entries)
  {
    LedgerMapDomain(entries, id);
    if id in NonceIds(entries).value {
      var i :| 0 <= i < |entries| && IsNonceKey(entries[i].key) && KeyXdr(entries[i].key).value == id;
      KeyXdrRoundTrip(entries[i].key, id);
    }
    if IsNonceId(id) && id in LedgerMap(entries) {
      var i :| 0 <= i < |entries| && KeyXdr(entries[i].key) == Some(id);
      KeyXdrRoundTrip(entries[i].key, id);
    }
  }

  /** Stripping drops exactly the nonces that were not in the ledger before, and keeps every other value. */
  lemma StrippedAt(before: seq<SnapshotEntry>, after: seq<SnapshotEntry>, id: KeyId)
    requires StripNewNonces(before, after).Some?
    ensures ValueAt(LedgerMap(StripNewNonces(before, after).value), id)
      == if IsNonceId(id) && id !in LedgerMap(before) then None else ValueAt(LedgerMap(after), id)
  {
    KeptAt(NonceIds(before).value, after, id);
    NonceIdsAre(before, id);
  }

  // ----- The loops -----

  /** The accumulating loop of `state_diff`. */
  method DiffAt(ids: seq<KeyId>, keys: map<KeyId, LedgerKey>, before: Values, after: Values)
    returns (changes: seq<StateChange>)
    requires forall i | 0 <= i < |ids| :: ids[i] in keys
    ensures changes == ChangesAt(ids, keys, before, after)
  {
    changes := [];
    for k := 0 to |ids|
      invariant changes == ChangesAt(ids[..k], keys, before, after)
    {
      assert ids[..k + 1][..k] == ids[..k];
      var was, now := ValueAt(before, ids[k]), ValueAt(after, ids[k]);
      if was != now {
        changes := changes + [StateChange(keys[ids[k]], was, now)];
      }
    }
    assert ids[..|ids|] == ids;
  }

  /** `state_diff` over the ids of both ledgers. */
  method ComputeStateDiff(before: seq<SnapshotEntry>, after: seq<SnapshotEntry>) returns (r: Option<seq<StateChange>>)
    ensures r == StateDiff(before, after)
  {
    if !KeysEncode(before) || !KeysEncode(after) {
      return None;
    }
    hide OrderedIds, AllKeys, LedgerMap;
    var changes := DiffAt(OrderedIds(before, after), AllKeys(before, after), LedgerMap(before), LedgerMap(after));
    return Some(changes);
  }

  /** The filtering loop of `strip_new_mock_nonces`. */
  method ComputeStrip(before: seq<SnapshotEntry>, after: seq<SnapshotEntry>) returns (r: Option<seq<SnapshotEntry>>)
    ensures r == StripNewNonces(before, after)
  {
    var known := NonceIds(before);
    if known.None? {
      return None;
    }
    var filtered: seq<SnapshotEntry> := [];
    for k := 0 to |after|
      invariant filtered == KeepEntries(known.value, after[..k])
      invariant forall i | 0 <= i < k && IsNonceKey(after[i].key) :: KeyXdr(after[i].key).Some?
    {
      assert after[..k + 1][..k] == after[..k];
      var keep := true;
      if IsNonceKey(after[k].key) {
        var id := KeyXdr(after[k].key);
        if id.None? {
          return None;
        }
        keep := id.value in known.value;
      }
      if keep {
        filtered := filtered + [after[k]];
      }
    }
    assert after[..|after|] == after;
    return Some(filtered);
  }
}
