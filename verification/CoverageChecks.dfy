/**
 Checks on Present/Absent coverage, the executable closure it must contain, and
 the snapshot made of its Present part (src/capture.rs).
 */
module CoverageChecks {
  import opened Wrappers
  import opened Bytes
  import opened Ordered
  import opened Ledger
  import opened Errors
  import opened Fixture

  /** The first failure of `check` over states in key order. */
  function CheckStates(ids: seq<KeyId>, coverage: Coverage, check: (KeyId, LookupState) -> Result<(), CaptureError>)
    : (r: Result<(), CaptureError>)
    requires forall id | id in ids :: id in coverage
    ensures r.Ok? <==> forall id | id in ids :: check(id, coverage[id]).Ok?
    ensures r.Err? ==> exists id | id in ids :: check(id, coverage[id]) == r
  {
    if ids == [] then Ok(())
    else
      var head := check(ids[0], coverage[ids[0]]);
      assert forall id | id in ids :: id == ids[0] || id in ids[1..];
      if head.Err? then head else CheckStates(ids[1..], coverage, check)
  }

  function CheckCoverage(coverage: Coverage, check: (KeyId, LookupState) -> Result<(), CaptureError>)
    : (r: Result<(), CaptureError>)
    ensures r.Ok? <==> forall id | id in coverage :: check(id, coverage[id]).Ok?
    ensures r.Err? ==> exists id | id in coverage :: check(id, coverage[id]) == r
  {
    CheckStates(Sorted(coverage.Keys), coverage, check)
  }

  // ----- Entry metadata -----

  /** `validate_entry_metadata`: last-modified and live-until bounds by entry kind. */
  predicate ValidEntryMetadata(entry: LedgerEntry, liveUntil: Option<u32>, sequence: u32, maxEntryTtl: u32) {
    if entry.lastModified > sequence || maxEntryTtl == 0 then false
    else
      var maxLiveUntil := sequence + (maxEntryTtl - 1);
      if maxLiveUntil >= U32_LIMIT then false
      else
        match entry.data
        case ContractCodeEntry(_, _) =>
          liveUntil.Some? && (liveUntil.value == 0 || sequence <= liveUntil.value <= maxLiveUntil)
        case ContractDataEntry(_, _, Persistent, _) =>
          liveUntil.Some? && (liveUntil.value == 0 || sequence <= liveUntil.value <= maxLiveUntil)
        case ContractDataEntry(_, _, Temporary, _) =>
          liveUntil.Some? && sequence <= liveUntil.value <= maxLiveUntil
        case AccountEntry(_, _) => liveUntil.None?
        case TrustlineEntry(_, _, _) => liveUntil.None?
        case _ => false
  }

  function CheckState(id: KeyId, state: LookupState, sequence: u32, maxEntryTtl: u32): (r: Result<(), CaptureError>)
    ensures r.Err? ==> r.error.IsOrdinary()
  {
    match state
    case Absent => Ok(())
    case Present(entry, liveUntil) =>
      match KeyXdr(entry.ToKey())
      case None => Err(Xdr)
      case Some(derived) =>
        if id != derived then Err(MalformedRpc(GetLedgerEntries))
        else if entry.data.ContractCodeEntry? && entry.data.hash != Sha256(entry.data.code) then
          Err(MalformedRpc(GetLedgerEntries))
        else if !ValidEntryMetadata(entry, liveUntil, sequence, maxEntryTtl) then
          Err(MalformedRpc(GetLedgerEntries))
        else Ok(())
  }

  /** `validate_coverage`. */
  function ValidateCoverage(coverage: Coverage, sequence: u32, maxEntryTtl: u32): (r: Result<(), CaptureError>)
    ensures r.Ok? <==> forall id | id in coverage :: CheckState(id, coverage[id], sequence, maxEntryTtl).Ok?
    ensures r.Err? ==> r.error.IsOrdinary()
  {
    CheckCoverage(coverage, (id: KeyId, state: LookupState) => CheckState(id, state, sequence, maxEntryTtl))
  }

  /** A live-until ledger from `sequence` on, `maxEntryTtl` ledgers at most. */
  predicate WithinTtl(until: u32, sequence: u32, maxEntryTtl: u32) {
    sequence <= until < sequence + maxEntryTtl
  }

  /** What a captured entry is: under its own key, not from the future, code with its own hash, and a sensible TTL. */
  predicate IsSoundEntry(id: KeyId, entry: LedgerEntry, liveUntil: Option<u32>, sequence: u32, maxEntryTtl: u32) {
    && KeyXdr(entry.ToKey()) == Some(id)
    && entry.lastModified <= sequence
    && 0 < maxEntryTtl && sequence + maxEntryTtl <= U32_LIMIT
    && match entry.data
       case ContractCodeEntry(hash, code) =>
         hash == Sha256(code) && liveUntil.Some? && (liveUntil.value == 0
             || WithinTtl(liveUntil.value, sequence, maxEntryTtl))
       case ContractDataEntry(_, _, Persistent, _) =>
         liveUntil.Some? && (liveUntil.value == 0 || WithinTtl(liveUntil.value, sequence, maxEntryTtl))
       case ContractDataEntry(_, _, Temporary, _) =>
         liveUntil.Some? && WithinTtl(liveUntil.value, sequence, maxEntryTtl)
       case AccountEntry(_, _) => liveUntil.None?
       case TrustlineEntry(_, _, _) => liveUntil.None?
       case _ => false
  }

  /** Coverage passes validation exactly when every Present entry is sound. */
  lemma ValidMeansSound(coverage: Coverage, sequence: u32, maxEntryTtl: u32)
    ensures ValidateCoverage(coverage, sequence, maxEntryTtl).Ok? <==>
      forall id | id in coverage && coverage[id].Present? ::
        IsSoundEntry(id, coverage[id].entry, coverage[id].liveUntil, sequence, maxEntryTtl)
  {
    forall id | id in coverage
      ensures CheckState(id, coverage[id], sequence, maxEntryTtl).Ok? <==>
        (coverage[id].Present? ==> IsSoundEntry(id, coverage[id].entry, coverage[id].liveUntil, sequence, maxEntryTtl))
    {
      SoundState(id, coverage[id], sequence, maxEntryTtl);
    }
    hide CheckState, IsSoundEntry;
  }

  lemma SoundState(id: KeyId, state: LookupState, sequence: u32, maxEntryTtl: u32)
    ensures CheckState(id, state, sequence, maxEntryTtl).Ok? <==>
      (state.Present? ==> IsSoundEntry(id, state.entry, state.liveUntil, sequence, maxEntryTtl))
  {
  }

  // ----- Executable closure -----

  function ReferenceKey(owner: ScAddress, tag: Vec8): LedgerKey {
    ContractData(owner, ExecutableTag(tag), Persistent)
  }

  /** `external_ref_code_key`: the code a covered reference entry points at. */
  function ExternalRefCodeKey(coverage: Coverage, owner: ScAddress, tag: Vec8): Result<Option<LedgerKey>,
                              CaptureError> {
    match KeyXdr(ReferenceKey(owner, tag))
    case None => Err(Xdr)
    case Some(id) =>
      if id !in coverage then Ok(None)
      else
        match coverage[id]
        case Absent => Err(MissingExecutableReference)
        case Present(entry, _) =>
          if !entry.data.ContractDataEntry? || !entry.data.val.BytesVal? || |entry.data.val.bytes| != 32 then
            Err(MalformedExecutableReference)
          else
            var hash: Digest := entry.data.val.bytes;
            Ok(Some(CodeKey(hash)))
  }

  /** The executable of a state that holds a contract instance. */
  function ExecutableOf(state: LookupState): Option<Executable> {
    match state
    case Present(entry, _) =>
      if entry.data.ContractDataEntry? && entry.data.val.ContractInstance? then Some(entry.data.val.executable)
      else None
    case Absent => None
  }

  /** The keys one state needs for its executable to be captured. */
  function RequiredByState(coverage: Coverage, state: LookupState): Result<seq<LedgerKey>, CaptureError> {
    match ExecutableOf(state)
    case Some(Wasm(hash)) => Ok([CodeKey(hash)])
    case Some(ExternalRef(owner, tag)) =>
      var code :- ExternalRefCodeKey(coverage, owner, tag);
      Ok([ReferenceKey(owner, tag)] + if code.Some? then [code.value] else [])
    case _ => Ok([])
  }

  function RequiredByStates(coverage: Coverage, ids: seq<KeyId>): (r: Result<seq<LedgerKey>, CaptureError>)
    requires forall id | id in ids :: id in coverage
    ensures r.Err? ==> r.error.IsOrdinary()
  {
    if ids == [] then Ok([])
    else
      var head :- RequiredByState(coverage, coverage[ids[0]]);
      var tail :- RequiredByStates(coverage, ids[1..]);
      Ok(head + tail)
  }

  function RequiredKeys(coverage: Coverage): (r: Result<seq<LedgerKey>, CaptureError>)
    ensures r.Err? ==> r.error.IsOrdinary()
  {
    RequiredByStates(coverage, Sorted(coverage.Keys))
  }

  lemma {:induction false} RequiredByStatesMembers(coverage: Coverage, ids: seq<KeyId>, key: LedgerKey)
    requires forall id | id in ids :: id in coverage
    requires RequiredByStates(coverage, ids).Ok?
    ensures forall id | id in ids :: RequiredByState(coverage, coverage[id]).Ok?
    ensures key in RequiredByStates(coverage, ids).value
            <==> exists id :: id in ids && key in RequiredByState(coverage, coverage[id]).value
  {
    if ids != [] {
      RequiredByStatesMembers(coverage, ids[1..], key);
      assert forall id | id in ids :: id == ids[0] || id in ids[1..];
    }
  }

  /** Every state's needs are computed, and their union is what is required. */
  lemma RequiredKeysMembers(coverage: Coverage, key: LedgerKey)
    requires RequiredKeys(coverage).Ok?
    ensures forall id | id in coverage :: RequiredByState(coverage, coverage[id]).Ok?
    ensures key in RequiredKeys(coverage).value
            <==> exists id :: id in coverage && key in RequiredByState(coverage, coverage[id]).value
  {
    RequiredByStatesMembers(coverage, Sorted(coverage.Keys), key);
    assert forall id | id in coverage :: id in Sorted(coverage.Keys);
  }

  predicate IsPresent(coverage: Coverage, key: LedgerKey) {
    KeyXdr(key).Some? && KeyXdr(key).value in coverage && coverage[KeyXdr(key).value].Present?
  }

  function EnsureCodePresent(coverage: Coverage, hash: Digest): Result<(), CaptureError> {
    if KeyXdr(CodeKey(hash)).None? then Err(Xdr)
    else if IsPresent(coverage, CodeKey(hash)) then Ok(())
    else Err(MissingReferencedCode)
  }

  function CheckExecutable(coverage: Coverage, state: LookupState): (r: Result<(), CaptureError>)
    ensures r.Err? ==> r.error.IsOrdinary()
  {
    match ExecutableOf(state)
    case Some(Wasm(hash)) => EnsureCodePresent(coverage, hash)
    case Some(ExternalRef(owner, tag)) =>
      var code :- ExternalRefCodeKey(coverage, owner, tag);
      (match code
       case None => Err(MissingExecutableReference)
       case Some(key) => if key.ContractCode? then EnsureCodePresent(coverage, key.hash) else Err(InternalInvariant))
    case _ => Ok(())
  }

  /** `ensure_executable_closure_present`. */
  function EnsureClosure(coverage: Coverage): (r: Result<(), CaptureError>)
    ensures r.Ok? <==> forall id | id in coverage :: CheckExecutable(coverage, coverage[id]).Ok?
    ensures r.Err? ==> r.error.IsOrdinary()
  {
    CheckCoverage(coverage, (id: KeyId, state: LookupState) => CheckExecutable(coverage, state))
  }

  /** An executable whose code can be run from `coverage` alone. */
  ghost predicate Runnable(coverage: Coverage, executable: Executable) {
    match executable
    case Wasm(hash) => IsPresent(coverage, CodeKey(hash))
    case ExternalRef(owner, tag) =>
      && IsPresent(coverage, ReferenceKey(owner, tag))
      && (var reference := coverage[KeyXdr(ReferenceKey(owner, tag)).value].entry.data;
          && reference.ContractDataEntry? && reference.val.BytesVal? && |reference.val.bytes| == 32
          && IsPresent(coverage, CodeKey(reference.val.bytes)))
    case StellarAsset => true
  }

  /** The check succeeds exactly when every captured instance leads to Present code. */
  lemma EnsureClosureMeansRunnable(coverage: Coverage)
    ensures EnsureClosure(coverage).Ok?
      <==> forall id | id in coverage && ExecutableOf(coverage[id]).Some? ::
             Runnable(coverage, ExecutableOf(coverage[id]).value)
  {
    forall id | id in coverage
      ensures CheckExecutable(coverage, coverage[id]).Ok?
        <==> (ExecutableOf(coverage[id]).Some? ==> Runnable(coverage, ExecutableOf(coverage[id]).value))
    {
    }
  }

  // ----- Snapshot of the Present part -----

  function SnapshotEntriesOf(ids: seq<KeyId>, coverage: Coverage): (r: Result<seq<SnapshotEntry>, CaptureError>)
    requires forall id | id in ids :: id in coverage
    ensures r.Err? ==> !r.error.IsLimit() && !r.error.ScenarioPanicked?
  {
    if ids == [] then Ok([])
    else
      var init := |ids| - 1;
      var entries :- SnapshotEntriesOf(ids[..init], coverage);
      match coverage[ids[init]]
      case Absent => Ok(entries)
      case Present(entry, liveUntil) =>
        var key := entry.ToKey();
        if key == STATE_ARCHIVAL_KEY then Err(InternalInvariant)
        else
          match KeyXdr(key)
          case None => Err(Xdr)
          case Some(id) =>
            if id != ids[init] then Err(InternalInvariant)
            else Ok(entries + [SnapshotEntry(key, LedgerValue(entry, liveUntil))])
  }

  /** `snapshot_from_materialized`: Present entries in key order. */
  function SnapshotOf(info: LedgerInfo, coverage: Coverage): Result<LedgerSnapshot, CaptureError> {
    var entries :- SnapshotEntriesOf(Sorted(coverage.Keys), coverage);
    Ok(LedgerSnapshot(info, entries))
  }

  predicate IsConfigId(id: KeyId) {
    KeyXdr(STATE_ARCHIVAL_KEY) == Some(id)
  }

  /** Coverage as every capture and every loaded bundle has it. */
  predicate Validated(coverage: Coverage, info: LedgerInfo) {
    && ValidateCoverage(coverage, info.sequenceNumber, info.maxEntryTtl).Ok?
    && forall id | id in coverage :: !IsConfigId(id)
  }

  predicate SnapshotReady(id: KeyId, state: LookupState) {
    state.Present? ==> KeyXdr(state.entry.ToKey()) == Some(id) && !IsConfigId(id)
  }

  lemma {:induction false} SnapshotEntriesNeverFail(ids: seq<KeyId>, coverage: Coverage)
    requires forall id | id in ids :: id in coverage
    requires forall i | 0 <= i < |ids| :: SnapshotReady(ids[i], coverage[ids[i]])
    ensures SnapshotEntriesOf(ids, coverage).Ok?
  {
    if ids != [] {
      var init := |ids| - 1;
      SnapshotEntriesNeverFail(ids[..init], coverage);
      assert SnapshotReady(ids[init], coverage[ids[init]]);
    }
  }

  lemma ValidatedState(coverage: Coverage, info: LedgerInfo, id: KeyId)
    requires Validated(coverage, info) && id in coverage
    ensures SnapshotReady(id, coverage[id])
  {
    assert CheckState(id, coverage[id], info.sequenceNumber, info.maxEntryTtl).Ok?;
  }

  /** The `expect("validated materialization")` cannot fail. */
  lemma SnapshotNeverFails(coverage: Coverage, info: LedgerInfo)
    requires Validated(coverage, info)
    ensures SnapshotOf(info, coverage).Ok?
  {
    hide Validated, SnapshotReady, Sorted;
    var ids := Sorted(coverage.Keys);
    forall i | 0 <= i < |ids| ensures SnapshotReady(ids[i], coverage[ids[i]]) {
      assert ids[i] in ids;
      ValidatedState(coverage, info, ids[i]);
    }
    SnapshotEntriesNeverFail(ids, coverage);
  }

  /** One Present state is one snapshot entry under its own id. */
  lemma {:induction false} SnapshotEntriesAre(ids: seq<KeyId>, coverage: Coverage)
    requires forall id | id in ids :: id in coverage
    requires SnapshotEntriesOf(ids, coverage).Ok?
    ensures var ledger := LedgerMap(SnapshotEntriesOf(ids, coverage).value);
      && (forall id :: id in ledger <==> id in ids && coverage[id].Present?)
      && (forall id | id in ledger :: coverage[id] == AsState(Some(ledger[id])))
  {
    if ids != [] {
      var init := |ids| - 1;
      assert ids[init] in ids;
      SnapshotEntriesAre(ids[..init], coverage);
      assert forall id :: id in ids <==> id in ids[..init] || id == ids[init];
      var entries := SnapshotEntriesOf(ids[..init], coverage).value;
      assert forall e: SnapshotEntry :: (entries + [e])[..|entries|] == entries;
    }
  }

  /** The snapshot's ledger is the Present part of the coverage. */
  lemma SnapshotIsPresentPart(info: LedgerInfo, coverage: Coverage)
    requires SnapshotOf(info, coverage).Ok?
    ensures var ledger := LedgerMap(SnapshotOf(info, coverage).value.entries);
      && (forall id :: id in ledger <==> id in coverage && coverage[id].Present?)
      && (forall id | id in ledger :: coverage[id] == AsState(Some(ledger[id])))
  {
    var ids := Sorted(coverage.Keys);
    SnapshotEntriesAre(ids, coverage);
  }

  // ----- Counting -----

  function PresentIds(coverage: Coverage): set<KeyId> {
    set id | id in coverage && coverage[id].Present?
  }

  function AbsentIds(coverage: Coverage): set<KeyId> {
    set id | id in coverage && coverage[id].Absent?
  }

  lemma PresentAndAbsent(coverage: Coverage)
    ensures |PresentIds(coverage)| + |AbsentIds(coverage)| == |coverage|
  {
    assert PresentIds(coverage) + AbsentIds(coverage) == coverage.Keys;
    assert PresentIds(coverage) !! AbsentIds(coverage);
  }
}
