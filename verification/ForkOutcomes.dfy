/**
 When an invocation or a registration succeeds, and which failure is reported when it
 does not (src/strict.rs), told from the Host's run and the fork alone.
 */
module ForkOutcomes {
  import opened Wrappers
  import opened Bytes
  import opened Ledger
  import opened Fixture
  import opened CoverageChecks
  import opened Bundles
  import opened Diffs
  import opened StrictForks
  import opened ForkLaws

  // ----- Ledgers that have a digest -----

  /** The entry is stored under its own key, and both can be encoded. */
  predicate IsEncodedEntry(e: SnapshotEntry) {
    e.key == e.value.entry.ToKey() && KeyXdr(e.key).Some? && EntryXdr(e.value.entry).Some?
  }

  /** Among the entries that `kept` lets through, each is encodable and no key occurs twice. */
  predicate Digestible(entries: seq<SnapshotEntry>, kept: SnapshotEntry -> bool) {
    && (forall i | 0 <= i < |entries| && kept(entries[i]) :: IsEncodedEntry(entries[i]))
    && (forall i, j | 0 <= i < j < |entries| && kept(entries[i]) && kept(entries[j]) ::
        entries[i].key != entries[j].key)
  }

  const ALL: SnapshotEntry -> bool := (e: SnapshotEntry) => true

  lemma {:induction false} EncodeWhenEach(entries: seq<SnapshotEntry>)
    ensures EncodeEntries(entries).Ok? <==> forall i | 0 <= i < |entries| :: IsEncodedEntry(entries[i])
    ensures EncodeEntries(entries).Ok? ==>
      forall i | 0 <= i < |entries| :: KeyXdr(entries[i].key) == Some(EncodeEntries(entries).value[i].id)
  {
    if entries != [] {
      var n := |entries| - 1;
      EncodeWhenEach(entries[..n]);
      assert forall i | 0 <= i < n :: entries[..n][i] == entries[i];
    }
  }

  /** A snapshot has a digest exactly when its entries match, encode, and are distinct. */
  lemma AcceptedMeans(snapshot: LedgerSnapshot)
    ensures Accepted(snapshot) <==> Digestible(snapshot.entries, ALL)
  {
    EncodeWhenEach(snapshot.entries);
    var entries := snapshot.entries;
    if EncodeEntries(entries).Ok? {
      var records := EncodeEntries(entries).value;
      DistinctMeansNoDuplicates(records);
      hide EncodeEntries, DuplicateIds;
      forall i, j | 0 <= i < j < |entries| ensures records[i].id == records[j].id <==>
          entries[i].key == entries[j].key {
        if records[i].id == records[j].id {
          KeyXdrInjective(entries[i].key, entries[j].key);
        }
      }
    }
  }

  // ----- Stripped ledgers -----

  /** What mocked authorization keeps: everything but nonces that were not known before. */
  function KeptBy(known: set<KeyId>): SnapshotEntry -> bool {
    (e: SnapshotEntry) => !(IsNonceKey(e.key) && (KeyXdr(e.key).None? || KeyXdr(e.key).value !in known))
  }

  predicate NewKey(entries: seq<SnapshotEntry>, kept: SnapshotEntry -> bool, e: SnapshotEntry) {
    forall x | x in entries && kept(x) :: x.key != e.key
  }

  lemma DigestibleAppend(entries: seq<SnapshotEntry>, e: SnapshotEntry, kept: SnapshotEntry -> bool)
    ensures Digestible(entries + [e], kept)
      <==> Digestible(entries, kept) && (kept(e) ==> IsEncodedEntry(e) && NewKey(entries, kept, e))
  {
    hide IsEncodedEntry;
    var all, n := entries + [e], |entries|;
    assert forall i | 0 <= i < n :: all[i] == entries[i];
    assert all[n] == e;
    if Digestible(all, kept) && kept(e) {
      forall x | x in entries && kept(x) ensures x.key != e.key {
        var i :| 0 <= i < n && entries[i] == x;
        assert all[i].key != all[n].key;
      }
    }
    assert forall i | 0 <= i < n :: entries[i] in entries;
  }

  lemma {:induction false} KeepMembers(known: set<KeyId>, after: seq<SnapshotEntry>, x: SnapshotEntry)
    ensures x in KeepEntries(known, after) <==> x in after && KeptBy(known)(x)
  {
    if after != [] {
      KeepMembers(known, after[..|after| - 1], x);
      assert after == after[..|after| - 1] + [after[|after| - 1]];
    }
  }

  lemma {:induction false} KeepDigestible(known: set<KeyId>, after: seq<SnapshotEntry>)
    ensures Digestible(KeepEntries(known, after), ALL) <==> Digestible(after, KeptBy(known))
  {
    if after != [] {
      hide Digestible, IsEncodedEntry, NewKey;
      var init, e := after[..|after| - 1], after[|after| - 1];
      assert after == init + [e];
      KeepDigestible(known, init);
      DigestibleAppend(init, e, KeptBy(known));
      DigestibleAppend(KeepEntries(known, init), e, ALL);
      SameNewKey(known, init, e);
    } else {
      assert KeepEntries(known, after) == [];
    }
  }

  lemma SameNewKey(known: set<KeyId>, after: seq<SnapshotEntry>, e: SnapshotEntry)
    ensures NewKey(KeepEntries(known, after), ALL, e) <==> NewKey(after, KeptBy(known), e)
  {
    hide KeepEntries, KeptBy;
    forall x ensures x in KeepEntries(known, after) <==> x in after && KeptBy(known)(x) {
      KeepMembers(known, after, x);
    }
  }

  // ----- Invocations -----

  /** A touched key that nothing vouches for: not covered, and not the fork's own. */
  predicate Foreign(coverage: Coverage, contracts: set<ScAddress>, codes: set<Digest>, mocks: bool, key: LedgerKey) {
    && KeyXdr(key).Some? && KeyXdr(key).value !in coverage
    && match key
       case ContractData(contract, k, durability) =>
         contract !in contracts && !(mocks && durability == Temporary && k.LedgerKeyNonce?)
       case ContractCode(hash) => hash !in codes
       case _ => true
  }

  predicate TouchesForeign(coverage: Coverage, contracts: set<ScAddress>, codes: set<Digest>, mocks: bool,
                           run: HostRun) {
    exists key | key in run.gets + run.stored :: Foreign(coverage, contracts, codes, mocks, key)
  }

  predicate StoredEncode(run: HostRun) {
    forall k | k in run.stored :: KeyXdr(k).Some?
  }

  /** The gate, in terms of what was touched. */
  lemma GateMeans(known: Known, run: HostRun)
    ensures var foreign := TouchesForeign(known.coverage, known.contracts, known.codes, known.allowMockNonces, run);
      match UnknownKeys(known, run)
      case Err(e) => if e == HostInspection then !run.inspectable
          else e == XdrFailed && run.inspectable && !StoredEncode(run)
      case Ok(unknown) => run.inspectable && StoredEncode(run) && (unknown != {} <==> foreign)
  {
    forall key ensures known.IsUnknown(key)
      <==> Foreign(known.coverage, known.contracts, known.codes, known.allowMockNonces, key)
    {
    }
    if UnknownKeys(known, run).Ok? {
      GateSet(known, run);
    }
  }

  lemma GateSet(known: Known, run: HostRun)
    ensures UnknownAmong(known, run.gets) + UnknownAmong(known, run.stored) != {}
      <==> exists key | key in run.gets + run.stored :: known.IsUnknown(key)
  {
    if key :| key in run.gets + run.stored && known.IsUnknown(key) {
      assert KeyXdr(key).value in UnknownAmong(known, run.gets) + UnknownAmong(known, run.stored);
    } else {
      assert UnknownAmong(known, run.gets) + UnknownAmong(known, run.stored) == {};
    }
  }

  /** The nonces of the ledger afterwards can be encoded. */
  predicate NoncesEncode(run: HostRun) {
    forall e | e in run.after.entries && IsNonceKey(e.key) :: KeyXdr(e.key).Some?
  }

  /** The entries that an invocation reports. */
  function Reported(before: LedgerSnapshot, mocks: bool): SnapshotEntry -> bool {
    if mocks then KeptBy(LedgerMap(before.entries).Keys) else ALL
  }

  lemma KeptByKnown(a: set<KeyId>, b: set<KeyId>, entries: seq<SnapshotEntry>)
    requires forall id | IsNonceId(id) :: id in a <==> id in b
    ensures KeepEntries(a, entries) == KeepEntries(b, entries)
  {
    if entries != [] {
      KeptByKnown(a, b, entries[..|entries| - 1]);
      var e := entries[|entries| - 1];
      if KeyXdr(e.key).Some? {
        KeyXdrRoundTrip(e.key, KeyXdr(e.key).value);
      }
    }
  }

  lemma AcceptedNonces(before: LedgerSnapshot)
    requires Accepted(before)
    ensures NonceIds(before.entries).Some?
    ensures forall id | IsNonceId(id) :: id in NonceIds(before.entries).value <==> id in LedgerMap(before.entries)
  {
    AcceptedMeans(before);
    forall id | IsNonceId(id) ensures id in NonceIds(before.entries).value <==> id in LedgerMap(before.entries) {
      NonceIdsAre(before.entries, id);
    }
  }

  /** When the reported ledger exists, and when it has a digest. */
  lemma ReportedMeans(before: LedgerSnapshot, run: HostRun, network: u32, auth: AuthMode)
    requires Accepted(before)
    ensures match AfterLedger(before, run, network, auth)
      case Err(e) => e == XdrFailed && auth.Mocks() && !NoncesEncode(run)
      case Ok(after) =>
        && (auth.Mocks() ==> NoncesEncode(run))
        && (Accepted(after) <==> Digestible(run.after.entries, Reported(before, auth.Mocks())))
  {
    hide LedgerDigest, KeepEntries, LedgerMap, Digestible;
    AcceptedNonces(before);
    var raw := NetworkSnapshot(run.after, network);
    assert raw.entries == run.after.entries;
    if auth.Mocks() && NonceIds(raw.entries).Some? {
      var known := NonceIds(before.entries).value;
      KeptByKnown(known, LedgerMap(before.entries).Keys, raw.entries);
      KeepDigestible(LedgerMap(before.entries).Keys, raw.entries);
      AcceptedMeans(raw.(entries := KeepEntries(known, raw.entries)));
    } else {
      AcceptedMeans(raw);
    }
  }

  lemma AcceptedKeys(snapshot: LedgerSnapshot)
    requires Accepted(snapshot)
    ensures KeysEncode(snapshot.entries)
  {
    AcceptedMeans(snapshot);
    hide Accepted, LedgerDigest;
    assert forall i | 0 <= i < |snapshot.entries| :: ALL(snapshot.entries[i]);
  }

  lemma DiffExists(before: LedgerSnapshot, after: LedgerSnapshot)
    requires Accepted(before) && Accepted(after)
    ensures StateDiff(before.entries, after.entries).Some?
  {
    hide Accepted, KeysEncode, ChangesAt, LedgerMap;
    AcceptedKeys(before);
    AcceptedKeys(after);
  }

  /** What the Host has to manage before its result is looked at. */
  predicate Begins(auth: AuthMode, run: HostRun) {
    run.valuesOk && (auth.Enforce? ==> run.authOk)
  }

  /** The execution could be inspected, and touched nothing foreign. */
  predicate PassesGate(fork: Fork, auth: AuthMode, run: HostRun) {
    && run.inspectable && StoredEncode(run)
    && !TouchesForeign(fork.coverage, fork.contracts, fork.codes, auth.Mocks(), run)
  }

  /** An exact mock saw the authorization it expected. */
  predicate Authorized(auth: AuthMode, run: HostRun) {
    auth.MockExact? ==> auth.expected == run.authorization
  }

  /** The ledger afterwards can be reported: stripped of new mock nonces, it has a digest. */
  predicate Reports(before: LedgerSnapshot, auth: AuthMode, run: HostRun) {
    && (auth.Mocks() ==> NoncesEncode(run))
    && Digestible(run.after.entries, Reported(before, auth.Mocks()))
  }

  /**
   An invocation of a well-kept fork succeeds exactly when values and authorization
   entries convert, the execution can be inspected and touched nothing foreign, an exact
   mock matches, and the ledger and the diagnostics can be reported. Every failure has
   its own error, the first in this order; the Host's outcome is not one of them.
   */
  lemma InvokeDecided(fork: Fork, network: u32, inventory: set<KeyId>, request: InvokeRequest, mode: ExecutionMode,
                      auth: AuthMode, run: HostRun)
    requires ForkInv(fork, network, inventory)
    ensures var r := Invoke(fork, network, request, mode, auth, run).0;
      var before := NetworkSnapshot(fork.env, network);
      var seen := Begins(auth, run) && PassesGate(fork, auth, run) && Authorized(auth, run);
      && (r.Ok? <==> seen && Reports(before, auth, run) && run.diagnosticsOk)
      && (r == Err(InvalidInvocationXdr) <==> !run.valuesOk)
      && (r == Err(InvalidAuthorizationEntries) <==> run.valuesOk && auth.Enforce? && !run.authOk)
      && (r == Err(HostInspection) <==>
            Begins(auth, run) && (!run.inspectable || (seen && Reports(before, auth, run) && !run.diagnosticsOk)))
      && (r == Err(XdrFailed) <==>
            Begins(auth, run) && run.inspectable
            && (!StoredEncode(run) || (seen && auth.Mocks() && !NoncesEncode(run))))
      && (r.Err? && r.error.UnknownLedgerKeys? <==>
            Begins(auth, run) && run.inspectable && StoredEncode(run)
            && TouchesForeign(fork.coverage, fork.contracts, fork.codes, auth.Mocks(), run))
      && (r == Err(AuthTreeMismatch) <==> Begins(auth, run) && PassesGate(fork, auth, run) && !Authorized(auth, run))
      && (r.Err? && r.error.FixtureFailed? <==>
            seen && (auth.Mocks() ==> NoncesEncode(run)) && !Reports(before, auth, run))
  {
    hide LedgerDigest, StateDiff, UnknownKeys, AfterLedger, UpdateCoverage, TouchesForeign, StoredEncode, NoncesEncode,
         Digestible, MatchesLedger, Bounded;
    var before := NetworkSnapshot(fork.env, network);
    InvokeIsAtomic(fork, network, request, mode, auth, run);
    GateMeans(KnownTo(fork, auth.Mocks()), run);
    ReportedMeans(before, run, network, auth);
    if AfterLedger(before, run, network, auth).Ok? && Accepted(AfterLedger(before, run, network, auth).value) {
      DiffExists(before, AfterLedger(before, run, network, auth).value);
    }
    hide Invoke;
  }

  // ----- Registrations -----

  /** A contract address with the expected code, whose instance key is not taken. */
  predicate Installable(fork: Fork, address: ScAddress, wasm: Vec8, expected: Digest) {
    && address.ContractAddress? && Sha256(wasm) == expected && KeyXdr(InstanceKey(address)).Some?
    && !IsOccupied(fork.coverage, address)
  }

  /** The address already holds a contract. */
  predicate IsOccupied(coverage: Coverage, address: ScAddress) {
    IsPresent(coverage, ContractData(address, LedgerKeyContractInstance, Persistent))
  }

  predicate GateWithCandidate(fork: Fork, address: ScAddress, wasm: Vec8, run: HostRun) {
    && run.inspectable && StoredEncode(run)
    && !TouchesForeign(fork.coverage, fork.contracts + {address}, fork.codes + {Sha256(wasm)}, false, run)
  }

  /**
   A registration of a well-kept fork succeeds exactly when the candidate can be
   installed there, the arguments convert, the constructor touched nothing foreign once
   the candidate itself is local, the address came back, and the ledger has a digest.
   Every failure has its own error; success changes exactly ledger, index and locals.
   */
  lemma RegisterDecided(fork: Fork, network: u32, inventory: set<KeyId>, address: ScAddress, wasm: Vec8,
                        expected: Digest,
                        run: HostRun)
    requires ForkInv(fork, network, inventory)
    ensures var r := Register(fork, network, address, wasm, expected, run).0;
      var started := Installable(fork, address, wasm, expected) && run.valuesOk;
      var gated := started && GateWithCandidate(fork, address, wasm, run);
      && (r.Ok? <==> gated && run.installed == Some(address) && Digestible(run.after.entries, ALL))
      && (r == Err(CandidateAddressNotContract) <==> !address.ContractAddress?)
      && (r == Err(WasmHashMismatch(expected, Sha256(wasm))) <==> address.ContractAddress? && Sha256(wasm) != expected)
      && (r == Err(CandidateAddressOccupied) <==>
            address.ContractAddress? && Sha256(wasm) == expected && IsOccupied(fork.coverage, address))
      && (r == Err(InvalidInvocationXdr) <==> Installable(fork, address, wasm, expected) && !run.valuesOk)
      && (r == Err(HostInspection) <==> started && !run.inspectable)
      && (r.Err? && r.error.UnknownLedgerKeys? <==>
            started && run.inspectable && StoredEncode(run)
            && TouchesForeign(fork.coverage, fork.contracts + {address}, fork.codes + {Sha256(wasm)}, false, run))
      && (r == Err(CandidateRegistrationFailed) <==> gated && run.installed != Some(address))
      && (r.Err? && r.error.FixtureFailed? <==>
            gated && run.installed == Some(address) && !Digestible(run.after.entries, ALL))
    ensures var (r, next) := Register(fork, network, address, wasm, expected, run);
      r.Ok? ==>
        && next.env == run.after && next.receipts == fork.receipts
        && next.contracts == fork.contracts + {address} && next.codes == fork.codes + {Sha256(wasm)}
  {
    hide LedgerDigest, StateDiff, UnknownKeys, UpdateCoverage, TouchesForeign, StoredEncode, Digestible, MatchesLedger,
         Bounded;
    RegisterIsAtomic(fork, network, address, wasm, expected, run);
    GateMeans(Known(fork.coverage, fork.contracts + {address}, fork.codes + {Sha256(wasm)}, false), run);
    var after := NetworkSnapshot(run.after, network);
    AcceptedMeans(after);
    if Accepted(after) {
      DiffExists(NetworkSnapshot(fork.env, network), after);
    }
  }
}
