/**
 What every operation of a strict fork keeps, and what holds after every run of
 operations: index agreement, bounded coverage, atomicity, the receipt chain, and
 the fate of nonces.
 */
module ForkLaws {
  import opened Wrappers
  import opened Bytes
  import opened Ordered
  import opened Ledger
  import opened Fixture
  import opened Bundles
  import opened Scenarios
  import opened Diffs
  import opened StrictForks

  // ----- The invariant of one fork -----

  /** The id of a key owned by a local contract or a local code hash. */
  predicate Owned(id: KeyId, contracts: set<ScAddress>, codes: set<Digest>) {
    KeyFromXdr(id).Some? && IsLocalKey(KeyFromXdr(id).value, contracts, codes, false)
  }

  predicate Bounded(fork: Fork, inventory: set<KeyId>) {
    forall id | id in fork.coverage :: id in inventory || Owned(id, fork.contracts, fork.codes)
  }

  /**
   The coverage is an exact index of the ledger; it covers only captured and
   locally owned keys; the environment executes the fork's own network ledger,
   which has a canonical digest.
   */
  ghost predicate ForkInv(fork: Fork, network: u32, inventory: set<KeyId>) {
    && MatchesLedger(fork.coverage, fork.env.entries)
    && Bounded(fork, inventory)
    && fork.env.info.protocolVersion == Executed(network)
    && Accepted(NetworkSnapshot(fork.env, network))
  }

  lemma NetworkOfFork(fork: Fork, network: u32)
    requires fork.env.info.protocolVersion == Executed(network)
    ensures NetworkSnapshot(fork.env, network).info.protocolVersion == network
    ensures ForkEnv(NetworkSnapshot(fork.env, network)) == fork.env
  {
  }

  /** A fork made from a well-formed capture starts with the invariant. */
  lemma CapturedForkInv(f: CapturedFixture, passphrase: Vec8, policy: ProtocolPolicy)
    requires WellFormed(f, passphrase, policy)
    ensures ForkInv(Fork(ForkEnv(f.fixture.snapshot), f.coverage, {}, {}, []),
                    f.fixture.snapshot.info.protocolVersion, f.coverage.Keys)
  {
    hide LedgerDigest, MatchesLedger;
    RestoreUndoesDowngrade(f.fixture.snapshot);
  }

  // ----- Answers of the source -----

  /**
   Every answer given for a known or local key is a direct lookup in the current
   ledger, local keys and mock nonces included.
   */
  lemma AnswerIsLookup(fork: Fork, network: u32, inventory: set<KeyId>, allowMockNonces: bool, key: LedgerKey)
    requires ForkInv(fork, network, inventory)
    requires KeyXdr(key).Some? && !KnownTo(fork, allowMockNonces).IsUnknown(key)
    ensures StrictGet(KnownTo(fork, allowMockNonces), key)
         == Found(ValueAt(LedgerMap(fork.env.entries), KeyXdr(key).value))
  {
    hide LedgerDigest, LedgerMap;
  }

  // ----- The unknown-key gate -----

  lemma GateMeansKnown(known: Known, run: HostRun, id: KeyId)
    requires UnknownKeys(known, run) == Ok({}) && TouchedBy(run, id)
    ensures KeyFromXdr(id).Some?
    ensures id in known.coverage || IsLocalKey(KeyFromXdr(id).value, known.contracts, known.codes,
        known.allowMockNonces)
  {
    var key :| (key in run.gets || key in run.stored) && KeyXdr(key) == Some(id);
    KeyXdrRoundTrip(key, id);
    assert known.IsUnknown(key) ==> id in UnknownAmong(known, run.gets) + UnknownAmong(known, run.stored);
  }

  /** Whoever touches an unknown key gets an error, and the fork stays as it was. */
  lemma UnknownIsRejected(fork: Fork, network: u32, request: InvokeRequest, mode: ExecutionMode, auth: AuthMode,
                          run: HostRun, key: LedgerKey)
    requires key in run.gets || key in run.stored
    requires KnownTo(fork, auth.Mocks()).IsUnknown(key)
    ensures var (r, next) := Invoke(fork, network, request, mode, auth, run); r.Err? && next == fork
  {
    hide LedgerDigest, StateDiff, StripNewNonces;
    var known := KnownTo(fork, auth.Mocks());
    if UnknownKeys(known, run).Ok? {
      assert KeyXdr(key).value in UnknownAmong(known, run.gets) + UnknownAmong(known, run.stored);
      assert UnknownKeys(known, run).value != {};
    }
  }

  predicate IsUnknownKeys(r: Result<Receipt, ForkError>) {
    r.Err? && r.error.UnknownLedgerKeys?
  }

  /** The error names exactly the unknown keys that were touched, in key order. */
  lemma UnknownErrorIsComplete(fork: Fork, network: u32, request: InvokeRequest, mode: ExecutionMode, auth: AuthMode,
                               run: HostRun)
    ensures IsUnknownKeys(Invoke(fork, network, request, mode, auth, run).0) ==>
      var ids := Invoke(fork, network, request, mode, auth, run).0.error.keys;
      && StrictlySorted(ids) && ids != []
      && forall id: KeyId :: id in ids <==>
           exists key :: (key in run.gets || key in run.stored) && KnownTo(fork, auth.Mocks()).IsUnknown(key)
                         && KeyXdr(key) == Some(id)
  {
    hide LedgerDigest, StateDiff, StripNewNonces;
    if IsUnknownKeys(Invoke(fork, network, request, mode, auth, run).0) {
      var known := KnownTo(fork, auth.Mocks());
      var ids := Invoke(fork, network, request, mode, auth, run).0.error.keys;
      var unknown := UnknownAmong(known, run.gets) + UnknownAmong(known, run.stored);
      assert ids == Sorted(unknown) && unknown != {};
      hide *;
      TouchedUnknown(known, run);
      assert forall id: KeyId :: id in ids <==> id in unknown;
      var some :| some in unknown;
      assert some in ids;
    }
  }

  lemma TouchedUnknown(known: Known, run: HostRun)
    ensures forall id: KeyId :: id in UnknownAmong(known, run.gets) + UnknownAmong(known, run.stored) <==>
              exists key :: (key in run.gets || key in run.stored) && known.IsUnknown(key) && KeyXdr(key) == Some(id)
  {
  }

  // ----- One invocation -----

  lemma ExecuteShape(fork: Fork, network: u32, request: InvokeRequest, mode: ExecutionMode, auth: AuthMode,
                     run: HostRun)
    ensures Execute(fork, network, request, mode, auth, run).Ok? ==>
      var before, done := NetworkSnapshot(fork.env, network), Execute(fork, network, request, mode, auth, run).value;
      && UnknownKeys(KnownTo(fork, auth.Mocks()), run) == Ok({})
      && AfterLedger(before, run, network, auth) == Ok(done.after)
      && LedgerDigest(before) == Ok(done.receipt.beforeDigest)
      && LedgerDigest(done.after) == Ok(done.receipt.afterDigest)
      && StateDiff(fork.env.entries, done.after.entries) == Some(done.receipt.stateChanges)
      && (done.receipt.disposition.Committed? <==> mode.Apply? && run.outcome.Success?)
      && (done.receipt.disposition.Previewed? <==> mode.Preview?)
      && (auth.MockExact? ==> auth.expected == run.authorization)
      && done.receipt.request == request && done.receipt.outcome == run.outcome
      && done.receipt.authorization == run.authorization && done.receipt.authMode == Applied(auth)
  {
    hide LedgerDigest, StateDiff, StripNewNonces, UnknownKeys, AfterLedger;
  }

  /** The reported ledger: without new mock nonces, otherwise the Host's. */
  lemma AfterAt(before: LedgerSnapshot, run: HostRun, network: u32, auth: AuthMode, id: KeyId)
    requires AfterLedger(before, run, network, auth).Ok?
    ensures var after := AfterLedger(before, run, network, auth).value;
      ValueAt(LedgerMap(after.entries), id)
        == if auth.Mocks() && IsNonceId(id) && id !in LedgerMap(before.entries) then None
           else ValueAt(LedgerMap(run.after.entries), id)
  {
    hide StripNewNonces, LedgerMap;
    if auth.Mocks() {
      StrippedAt(before.entries, run.after.entries, id);
    }
  }

  /** A key whose value changes is covered already or locally owned; a mock nonce is no excuse. */
  lemma ChangedMeansKnown(fork: Fork, network: u32, inventory: set<KeyId>, request: InvokeRequest, mode: ExecutionMode,
                          auth: AuthMode, run: HostRun, id: KeyId)
    requires ForkInv(fork, network, inventory) && HostLaw(NetworkSnapshot(fork.env, network), run)
    requires Execute(fork, network, request, mode, auth, run).Ok?
    requires var after := Execute(fork, network, request, mode, auth, run).value.after;
      ValueAt(LedgerMap(fork.env.entries), id) != ValueAt(LedgerMap(after.entries), id)
    ensures id in fork.coverage || Owned(id, fork.contracts, fork.codes)
  {
    hide LedgerDigest, LedgerMap, StateDiff, UnknownKeys, AfterLedger, Accepted;
    var before := NetworkSnapshot(fork.env, network);
    ExecuteShape(fork, network, request, mode, auth, run);
    AfterAt(before, run, network, auth, id);
    hide Execute;
    if id !in fork.coverage {
      assert id !in LedgerMap(fork.env.entries);
      assert TouchedBy(run, id);
      GateMeansKnown(KnownTo(fork, auth.Mocks()), run, id);
    }
  }

  lemma InvokeKeepsInv(fork: Fork, network: u32, inventory: set<KeyId>, request: InvokeRequest, mode: ExecutionMode,
                       auth: AuthMode, run: HostRun)
    requires ForkInv(fork, network, inventory) && HostLaw(NetworkSnapshot(fork.env, network), run)
    ensures ForkInv(Invoke(fork, network, request, mode, auth, run).1, network, inventory)
  {
    if Execute(fork, network, request, mode, auth, run).Ok? {
      ExecuteShape(fork, network, request, mode, auth, run);
      var done := Execute(fork, network, request, mode, auth, run).value;
      hide LedgerDigest, LedgerMap, StateDiff, UnknownKeys, Execute, UpdateCoverage, MatchesLedger, AfterLedger,
           Bounded;
      UpdateKeepsAgreement(fork.coverage, fork.env.entries, done.after.entries);
      AfterHeader(fork, network, run, auth);
      InvokeKeepsBounds(fork, network, inventory, request, mode, auth, run);
    }
  }

  /** An invocation covers no key that was neither covered nor locally owned before. */
  lemma InvokeKeepsBounds(fork: Fork, network: u32, inventory: set<KeyId>, request: InvokeRequest, mode: ExecutionMode,
                          auth: AuthMode, run: HostRun)
    requires ForkInv(fork, network, inventory) && HostLaw(NetworkSnapshot(fork.env, network), run)
    ensures Bounded(Invoke(fork, network, request, mode, auth, run).1, inventory)
  {
    var next := Invoke(fork, network, request, mode, auth, run).1;
    if next.coverage != fork.coverage {
      ExecuteShape(fork, network, request, mode, auth, run);
      var done := Execute(fork, network, request, mode, auth, run).value;
      hide LedgerDigest, LedgerMap, StateDiff, UnknownKeys, Execute, UpdateCoverage, MatchesLedger, AfterLedger,
           Accepted;
      UpdateKeepsAgreement(fork.coverage, fork.env.entries, done.after.entries);
      forall id | id in next.coverage ensures id in inventory || Owned(id, next.contracts, next.codes) {
        if id !in fork.coverage {
          ChangedMeansKnown(fork, network, inventory, request, mode, auth, run, id);
        }
      }
    }
  }

  lemma AfterHeader(fork: Fork, network: u32, run: HostRun, auth: AuthMode)
    requires fork.env.info.protocolVersion == Executed(network)
    requires HostLaw(NetworkSnapshot(fork.env, network), run)
    requires AfterLedger(NetworkSnapshot(fork.env, network), run, network, auth).Ok?
    ensures var after := AfterLedger(NetworkSnapshot(fork.env, network), run, network, auth).value;
      after.info.protocolVersion == network && NetworkSnapshot(ForkEnv(after), network) == after
  {
    hide StripNewNonces, LedgerMap;
  }

  /** Err leaves everything; Preview and a rejected Apply only append a receipt. */
  lemma InvokeIsAtomic(fork: Fork, network: u32, request: InvokeRequest, mode: ExecutionMode, auth: AuthMode,
                       run: HostRun)
    ensures var (r, next) := Invoke(fork, network, request, mode, auth, run);
      && (r.Err? ==> next == fork && Execute(fork, network, request, mode, auth, run) == Err(r.error))
      && (r.Ok? && !r.value.disposition.Committed? ==> next == fork.(receipts := fork.receipts + [r.value]))
      && (r.Ok? ==> (r.value.disposition.Committed? <==> mode.Apply? && run.outcome.Success?))
  {
    if Execute(fork, network, request, mode, auth, run).Ok? {
      ExecuteShape(fork, network, request, mode, auth, run);
      var done := Execute(fork, network, request, mode, auth, run).value;
      hide LedgerDigest, StateDiff, UnknownKeys, Execute, UpdateCoverage, AfterLedger;
      DiffEncodes(fork.env.entries, done.after.entries);
      UpdateNeverFails(fork.coverage, done.receipt.stateChanges);
    }
  }

  lemma DiffEncodes(before: seq<SnapshotEntry>, after: seq<SnapshotEntry>)
    requires StateDiff(before, after).Some?
    ensures forall c | c in StateDiff(before, after).value :: KeyXdr(c.key).Some?
  {
    StateDiffIsDiff(before, after);
  }

  predicate Commits(r: Result<Receipt, ForkError>) {
    r.Ok? && r.value.disposition.Committed?
  }

  /** A committed receipt is a faithful account of the step it made. */
  lemma CommittedReceipt(fork: Fork, network: u32, inventory: set<KeyId>, request: InvokeRequest, mode: ExecutionMode,
                         auth: AuthMode, run: HostRun)
    requires ForkInv(fork, network, inventory) && HostLaw(NetworkSnapshot(fork.env, network), run)
    ensures Commits(Invoke(fork, network, request, mode, auth, run).0) ==>
      var (r, next) := Invoke(fork, network, request, mode, auth, run);
      && LedgerDigest(NetworkSnapshot(fork.env, network)) == Ok(r.value.beforeDigest)
      && LedgerDigest(NetworkSnapshot(next.env, network)) == Ok(r.value.afterDigest)
      && IsDiff(r.value.stateChanges, LedgerMap(fork.env.entries), LedgerMap(next.env.entries))
      && ApplyChanges(LedgerMap(fork.env.entries), r.value.stateChanges) == LedgerMap(next.env.entries)
      && next.receipts == fork.receipts + [r.value]
  {
    if Commits(Invoke(fork, network, request, mode, auth, run).0) {
      InvokeIsAtomic(fork, network, request, mode, auth, run);
      ExecuteShape(fork, network, request, mode, auth, run);
      var done := Execute(fork, network, request, mode, auth, run).value;
      hide LedgerDigest, LedgerMap, StateDiff, UnknownKeys, Execute, UpdateCoverage, MatchesLedger,
           StripNewNonces, IsDiff, ApplyChanges;
      AfterHeader(fork, network, run, auth);
      StateDiffIsDiff(fork.env.entries, done.after.entries);
      StateDiffApplies(fork.env.entries, done.after.entries);
    }
  }

  // ----- Registration -----

  lemma PrepareShape(fork: Fork, network: u32, address: ScAddress, wasm: Vec8, expected: Digest, run: HostRun)
    requires Prepare(fork, network, address, wasm, expected, run).Ok?
    ensures var install := Prepare(fork, network, address, wasm, expected, run).value;
      var reg := install.registration;
      && UnknownKeys(Known(fork.coverage, fork.contracts + {address}, fork.codes + {Sha256(wasm)}, false), run)
          == Ok({})
      && StateDiff(fork.env.entries, run.after.entries) == Some(reg.stateChanges)
      && LedgerDigest(NetworkSnapshot(fork.env, network)) == Ok(reg.beforeDigest)
      && LedgerDigest(NetworkSnapshot(run.after, network)) == Ok(reg.afterDigest)
      && install.env == run.after
      && reg.address == address && Sha256(wasm) == expected == reg.wasmHash
      && run.installed == Some(address)
  {
    hide LedgerDigest, StateDiff, UnknownKeys;
  }

  /**
   A failed registration leaves the fork as it was: the update of the fork's own
   coverage cannot fail, because the same keys went through the diff.
   */
  lemma RegisterIsAtomic(fork: Fork, network: u32, address: ScAddress, wasm: Vec8, expected: Digest, run: HostRun)
    ensures var (r, next) := Register(fork, network, address, wasm, expected, run);
      && (r.Err? ==> next == fork)
      && (r.Ok? <==> Prepare(fork, network, address, wasm, expected, run).Ok?)
      && next.receipts == fork.receipts
  {
    if Prepare(fork, network, address, wasm, expected, run).Ok? {
      PrepareShape(fork, network, address, wasm, expected, run);
      hide Prepare, LedgerDigest, StateDiff, UnknownKeys, UpdateCoverage;
      DiffEncodes(fork.env.entries, run.after.entries);
      UpdateNeverFails(fork.coverage, StateDiff(fork.env.entries, run.after.entries).value);
    }
  }

  lemma RegisterKeepsInv(fork: Fork, network: u32, inventory: set<KeyId>, address: ScAddress, wasm: Vec8,
                         expected: Digest, run: HostRun)
    requires ForkInv(fork, network, inventory) && HostLaw(NetworkSnapshot(fork.env, network), run)
    ensures var (r, next) := Register(fork, network, address, wasm, expected, run);
      && ForkInv(next, network, inventory)
      && (r.Ok? ==>
            && ApplyChanges(LedgerMap(fork.env.entries), r.value.stateChanges) == LedgerMap(next.env.entries)
            && LedgerDigest(NetworkSnapshot(fork.env, network)) == Ok(r.value.beforeDigest)
            && LedgerDigest(NetworkSnapshot(next.env, network)) == Ok(r.value.afterDigest))
  {
    hide Prepare, LedgerDigest, LedgerMap, StateDiff, UnknownKeys, UpdateCoverage, MatchesLedger, ApplyChanges, Bounded;
    RegisterIsAtomic(fork, network, address, wasm, expected, run);
    if Prepare(fork, network, address, wasm, expected, run).Ok? {
      PrepareShape(fork, network, address, wasm, expected, run);
      UpdateKeepsAgreement(fork.coverage, fork.env.entries, run.after.entries);
      StateDiffApplies(fork.env.entries, run.after.entries);
      RegisterKeepsBounds(fork, network, inventory, address, wasm, expected, run);
    }
  }

  /** Newly covered keys were touched, so they passed the gate with the candidate already local. */
  lemma RegisterKeepsBounds(fork: Fork, network: u32, inventory: set<KeyId>, address: ScAddress, wasm: Vec8,
                            expected: Digest, run: HostRun)
    requires ForkInv(fork, network, inventory) && HostLaw(NetworkSnapshot(fork.env, network), run)
    requires Prepare(fork, network, address, wasm, expected, run).Ok?
    ensures Bounded(Register(fork, network, address, wasm, expected, run).1, inventory)
  {
    hide Prepare, LedgerDigest, LedgerMap, StateDiff, UnknownKeys, UpdateCoverage, MatchesLedger, IsLocalKey,
         TouchedBy, Accepted;
    RegisterIsAtomic(fork, network, address, wasm, expected, run);
    PrepareShape(fork, network, address, wasm, expected, run);
    UpdateKeepsAgreement(fork.coverage, fork.env.entries, run.after.entries);
    var next := Register(fork, network, address, wasm, expected, run).1;
    forall id | id in next.coverage ensures id in inventory || Owned(id, next.contracts, next.codes) {
      if id in fork.coverage {
        OwnedGrows(id, fork.contracts, fork.codes, next.contracts, next.codes);
      } else {
        assert TouchedBy(run, id);
        GateMeansKnown(Known(fork.coverage, next.contracts, next.codes, false), run, id);
      }
    }
  }

  /** A registration that touches a key neither covered nor the candidate's own is refused. */
  lemma UnknownRegistrationIsRejected(fork: Fork, network: u32, address: ScAddress, wasm: Vec8, expected: Digest,
                                      run: HostRun, key: LedgerKey)
    requires key in run.gets || key in run.stored
    requires Known(fork.coverage, fork.contracts + {address}, fork.codes + {Sha256(wasm)}, false).IsUnknown(key)
    ensures var (r, next) := Register(fork, network, address, wasm, expected, run); r.Err? && next == fork
  {
    hide LedgerDigest, StateDiff, UpdateCoverage;
    var known := Known(fork.coverage, fork.contracts + {address}, fork.codes + {Sha256(wasm)}, false);
    if UnknownKeys(known, run).Ok? {
      assert KeyXdr(key).value in UnknownAmong(known, run.gets) + UnknownAmong(known, run.stored);
      assert UnknownKeys(known, run).value != {};
    }
  }

  lemma OwnedGrows(id: KeyId, a: set<ScAddress>, b: set<Digest>, c: set<ScAddress>, d: set<Digest>)
    requires a <= c && b <= d
    ensures Owned(id, a, b) ==> Owned(id, c, d)
  {
  }

  // ----- Nonces -----

  /**
   A mocked invocation adds no nonce to ledger or coverage, and keeps every other
   change the Host made.
   */
  lemma MockAddsNoNonce(fork: Fork, network: u32, inventory: set<KeyId>, request: InvokeRequest, mode: ExecutionMode,
                        auth: AuthMode, run: HostRun, id: KeyId)
    requires ForkInv(fork, network, inventory) && auth.Mocks()
    ensures var (r, next) := Invoke(fork, network, request, mode, auth, run);
      && (IsNonceId(id) && id in LedgerMap(next.env.entries) ==> id in LedgerMap(fork.env.entries))
      && (IsNonceId(id) && id in next.coverage ==> id in fork.coverage)
      && (r.Ok? && r.value.disposition.Committed? && !IsNonceId(id) ==>
            ValueAt(LedgerMap(next.env.entries), id) == ValueAt(LedgerMap(run.after.entries), id))
  {
    InvokeIsAtomic(fork, network, request, mode, auth, run);
    if Execute(fork, network, request, mode, auth, run).Ok? {
      ExecuteShape(fork, network, request, mode, auth, run);
      var done := Execute(fork, network, request, mode, auth, run).value;
      hide LedgerDigest, LedgerMap, StateDiff, UnknownKeys, Execute, UpdateCoverage, AfterLedger;
      UpdateKeepsAgreement(fork.coverage, fork.env.entries, done.after.entries);
      AfterAt(NetworkSnapshot(fork.env, network), run, network, auth, id);
    }
  }

  /** Under Enforce a nonce enters the ledger only if it was covered or its contract is local. */
  lemma EnforcedNonceIsKnown(fork: Fork, network: u32, inventory: set<KeyId>, request: InvokeRequest,
                             mode: ExecutionMode,
                             auth: AuthMode, run: HostRun, id: KeyId)
    requires ForkInv(fork, network, inventory) && HostLaw(NetworkSnapshot(fork.env, network), run)
    requires auth.Enforce? && IsNonceId(id)
    requires id !in LedgerMap(fork.env.entries)
    requires id in LedgerMap(Invoke(fork, network, request, mode, auth, run).1.env.entries)
    ensures id in fork.coverage || KeyFromXdr(id).value.contract in fork.contracts
  {
    hide LedgerDigest, LedgerMap, StateDiff, UnknownKeys, UpdateCoverage;
    ChangedMeansKnown(fork, network, inventory, request, mode, auth, run, id);
  }

  // ----- Runs -----

  datatype Op =
    | DoInvoke(request: InvokeRequest, mode: ExecutionMode, auth: AuthMode, run: HostRun)
    | DoRegister(address: ScAddress, wasm: Vec8, expected: Digest, run: HostRun)
    | DoCheckpoint
    | DoRevert(checkpoint: Checkpoint)

  /** What was promoted into the fork: a committed receipt or a registration. */
  datatype Promotion = OfReceipt(receipt: Receipt) | OfRegistration(registration: Registration) {
    function Changes(): seq<StateChange> {
      if OfReceipt? then receipt.stateChanges else registration.stateChanges
    }

    function Before(): Digest {
      if OfReceipt? then receipt.beforeDigest else registration.beforeDigest
    }

    function After(): Digest {
      if OfReceipt? then receipt.afterDigest else registration.afterDigest
    }
  }

  /** A fork, the checkpoints it has given out, and what was promoted since its last base ledger. */
  datatype World = World(fork: Fork, taken: seq<Checkpoint>, base: Values, log: seq<Promotion>)

  function Step(id: nat, network: u32, w: World, op: Op): World {
    match op
    case DoInvoke(request, mode, auth, run) =>
      var (r, next) := Invoke(w.fork, network, request, mode, auth, run);
      w.(fork := next,
         log := if r.Ok? && r.value.disposition.Committed? then w.log + [OfReceipt(r.value)] else w.log)
    case DoRegister(address, wasm, expected, run) =>
      var (r, next) := Register(w.fork, network, address, wasm, expected, run);
      w.(fork := next, log := if r.Ok? then w.log + [OfRegistration(r.value)] else w.log)
    case DoCheckpoint => w.(taken := w.taken + [TakeCheckpoint(w.fork, id, network)])
    case DoRevert(c) =>
      var (r, next) := Revert(w.fork, id, c);
      if r.Ok? then World(next, w.taken, LedgerMap(c.snapshot.entries), []) else w
  }

  /** The Host keeps its laws, and a checkpoint with this fork's id was given out by this fork. */
  ghost predicate Legal(id: nat, network: u32, w: World, op: Op) {
    match op
    case DoInvoke(_, _, _, run) => HostLaw(NetworkSnapshot(w.fork.env, network), run)
    case DoRegister(_, _, _, run) => HostLaw(NetworkSnapshot(w.fork.env, network), run)
    case DoCheckpoint => true
    case DoRevert(c) => c.forkId == id ==> c in w.taken
  }

  function RunOps(id: nat, network: u32, w: World, ops: seq<Op>): World
    decreases |ops|
  {
    if ops == [] then w else RunOps(id, network, Step(id, network, w, ops[0]), ops[1..])
  }

  ghost predicate AllLegal(id: nat, network: u32, w: World, ops: seq<Op>)
    decreases |ops|
  {
    ops != [] ==> Legal(id, network, w, ops[0]) && AllLegal(id, network, Step(id, network, w, ops[0]), ops[1..])
  }

  /** Folding the changes of all promotions into a ledger. */
  function Replayed(base: Values, log: seq<Promotion>): Values {
    if log == [] then base else ApplyChanges(Replayed(base, log[..|log| - 1]), log[|log| - 1].Changes())
  }

  function ReceiptsOf(log: seq<Promotion>): seq<Receipt> {
    if log == [] then []
    else
      var init, last := ReceiptsOf(log[..|log| - 1]), log[|log| - 1];
      if last.OfReceipt? then init + [last.receipt] else init
  }

  function CommittedOnly(receipts: seq<Receipt>): seq<Receipt> {
    if receipts == [] then []
    else
      var init, last := CommittedOnly(receipts[..|receipts| - 1]), receipts[|receipts| - 1];
      if last.disposition.Committed? then init + [last] else init
  }

  /** Every promotion starts from the digest the one before it ended with; the last one ended here. */
  predicate Chained(log: seq<Promotion>, current: Result<Digest, FixtureError>) {
    && (forall i | 0 < i < |log| :: log[i - 1].After() == log[i].Before())
    && (log != [] ==> current == Ok(log[|log| - 1].After()))
  }

  /** The log is the fork's own record: its committed receipts in order, and a chain of digests. */
  predicate Recorded(log: seq<Promotion>, fork: Fork, network: u32) {
    && ReceiptsOf(log) == CommittedOnly(fork.receipts)
    && Chained(log, LedgerDigest(NetworkSnapshot(fork.env, network)))
  }

  lemma PromotionChains(log: seq<Promotion>, fork: Fork, next: Fork, network: u32, added: Promotion)
    requires Recorded(log, fork, network)
    requires LedgerDigest(NetworkSnapshot(fork.env, network)) == Ok(added.Before())
    requires LedgerDigest(NetworkSnapshot(next.env, network)) == Ok(added.After())
    requires if added.OfReceipt? then added.receipt.disposition.Committed?
        && next.receipts == fork.receipts + [added.receipt]
             else next.receipts == fork.receipts
    ensures Recorded(log + [added], next, network)
  {
    hide LedgerDigest;
    assert (log + [added])[..|log|] == log;
    assert added.OfReceipt? ==> next.receipts[..|fork.receipts|] == fork.receipts;
  }

  /** A receipt that promotes nothing leaves the record as it is. */
  lemma ReceiptKeepsRecord(log: seq<Promotion>, fork: Fork, network: u32, receipt: Receipt)
    requires Recorded(log, fork, network) && !receipt.disposition.Committed?
    ensures Recorded(log, fork.(receipts := fork.receipts + [receipt]), network)
  {
    hide LedgerDigest;
    assert (fork.receipts + [receipt])[..|fork.receipts|] == fork.receipts;
  }

  ghost predicate CheckpointInv(c: Checkpoint, network: u32, inventory: set<KeyId>) {
    ForkInv(Fork(ForkEnv(c.snapshot), c.coverage, c.contracts, c.codes, []), network, inventory)
  }

  ghost predicate WorldInv(network: u32, w: World, inventory: set<KeyId>) {
    && ForkInv(w.fork, network, inventory)
    && (forall i | 0 <= i < |w.taken| :: CheckpointInv(w.taken[i], network, inventory))
    && Replayed(w.base, w.log) == LedgerMap(w.fork.env.entries)
    && Recorded(w.log, w.fork, network)
  }

  lemma ReplayedAppend(base: Values, log: seq<Promotion>, added: Promotion)
    ensures Replayed(base, log + [added]) == ApplyChanges(Replayed(base, log), added.Changes())
  {
    assert (log + [added])[..|log|] == log;
  }

  lemma StepKeepsInv(id: nat, network: u32, w: World, op: Op, inventory: set<KeyId>)
    requires WorldInv(network, w, inventory) && Legal(id, network, w, op)
    ensures WorldInv(network, Step(id, network, w, op), inventory)
  {
    hide ForkInv, LedgerDigest, LedgerMap, ApplyChanges, Replayed, Recorded;
    match op {
      case DoInvoke(request, mode, auth, run) =>
        InvokeKeepsInv(w.fork, network, inventory, request, mode, auth, run);
        InvokeIsAtomic(w.fork, network, request, mode, auth, run);
        var r := Invoke(w.fork, network, request, mode, auth, run).0;
        if r.Ok? && r.value.disposition.Committed? {
          CommittedReceipt(w.fork, network, inventory, request, mode, auth, run);
          ReplayedAppend(w.base, w.log, OfReceipt(r.value));
          PromotionChains(w.log, w.fork, Step(id, network, w, op).fork, network, OfReceipt(r.value));
        } else if r.Ok? {
          ReceiptKeepsRecord(w.log, w.fork, network, r.value);
        }
        hide Invoke;
      case DoRegister(address, wasm, expected, run) =>
        RegisterKeepsInv(w.fork, network, inventory, address, wasm, expected, run);
        RegisterIsAtomic(w.fork, network, address, wasm, expected, run);
        var r := Register(w.fork, network, address, wasm, expected, run).0;
        if r.Ok? {
          ReplayedAppend(w.base, w.log, OfRegistration(r.value));
          PromotionChains(w.log, w.fork, Step(id, network, w, op).fork, network, OfRegistration(r.value));
        }
        hide Register;
      case DoCheckpoint =>
        CheckpointKeepsInv(w.fork, id, network, inventory);
      case DoRevert(c) =>
        if c.forkId == id {
          var i :| 0 <= i < |w.taken| && w.taken[i] == c;
          NothingPromoted(LedgerMap(c.snapshot.entries), Revert(w.fork, id, c).1, network);
        }
    }
  }

  lemma NothingPromoted(base: Values, fork: Fork, network: u32)
    requires fork.receipts == []
    ensures Replayed(base, []) == base && Recorded([], fork, network)
  {
  }

  lemma CheckpointKeepsInv(fork: Fork, id: nat, network: u32, inventory: set<KeyId>)
    requires ForkInv(fork, network, inventory)
    ensures CheckpointInv(TakeCheckpoint(fork, id, network), network, inventory)
  {
    hide LedgerDigest, MatchesLedger;
    NetworkOfFork(fork, network);
  }

  /**
   After any legal run of invocations in all modes, registrations, checkpoints and
   reverts: the coverage is an exact index of the ledger, every covered key was
   captured or is owned by a registered local contract or code, and the committed
   receipts and the registrations since the captured or last reverted ledger form
   one chain of digests whose changes, replayed, give the current ledger.
   */
  lemma {:induction false} RunsKeepInv(id: nat, network: u32, w: World, ops: seq<Op>, inventory: set<KeyId>)
    requires WorldInv(network, w, inventory) && AllLegal(id, network, w, ops)
    ensures WorldInv(network, RunOps(id, network, w, ops), inventory)
    decreases |ops|
  {
    hide WorldInv, Legal, Step;
    if ops != [] {
      StepKeepsInv(id, network, w, ops[0], inventory);
      RunsKeepInv(id, network, Step(id, network, w, ops[0]), ops[1..], inventory);
    }
  }

  /** The same from a capture: what was Unknown stays Unknown until a local owner claims it. */
  lemma UnknownStaysUnknown(f: CapturedFixture, passphrase: Vec8, policy: ProtocolPolicy, id: nat, ops: seq<Op>)
    requires WellFormed(f, passphrase, policy)
    requires AllLegal(id, f.fixture.snapshot.info.protocolVersion, WorldOf(f), ops)
    ensures var w := RunOps(id, f.fixture.snapshot.info.protocolVersion, WorldOf(f), ops);
      && MatchesLedger(w.fork.coverage, w.fork.env.entries)
      && (forall key | key in w.fork.coverage ::
            key in f.coverage || Owned(key, w.fork.contracts, w.fork.codes))
      && Replayed(w.base, w.log) == LedgerMap(w.fork.env.entries)
      && Recorded(w.log, w.fork, f.fixture.snapshot.info.protocolVersion)
      && LedgerDigest(NetworkSnapshot(w.fork.env, f.fixture.snapshot.info.protocolVersion)).Ok?
  {
    CapturedForkInv(f, passphrase, policy);
    hide WellFormed, LedgerDigest, LedgerMap, MatchesLedger, AllLegal, RunOps, Recorded;
    NothingPromoted(LedgerMap(f.fixture.snapshot.entries), WorldOf(f).fork, f.fixture.snapshot.info.protocolVersion);
    RunsKeepInv(id, f.fixture.snapshot.info.protocolVersion, WorldOf(f), ops, f.coverage.Keys);
  }

  /** A fresh fork of a capture. */
  function WorldOf(f: CapturedFixture): World {
    World(Fork(ForkEnv(f.fixture.snapshot), f.coverage, {}, {}, []), [], LedgerMap(f.fixture.snapshot.entries), [])
  }

  /**
   After any run the Host executes the supported protocol, also on a network one
   protocol ahead, while everything the fork reports names the network's.
   */
  lemma RunsExecuteSupported(f: CapturedFixture, passphrase: Vec8, policy: ProtocolPolicy, id: nat, ops: seq<Op>)
    requires WellFormed(f, passphrase, policy)
    requires AllLegal(id, f.fixture.snapshot.info.protocolVersion, WorldOf(f), ops)
    ensures var network := f.fixture.snapshot.info.protocolVersion;
      var w := RunOps(id, network, WorldOf(f), ops);
      && w.fork.env.info.protocolVersion == SUPPORTED_PROTOCOL_VERSION
      && NetworkSnapshot(w.fork.env, network).info.protocolVersion == network
  {
    CapturedForkInv(f, passphrase, policy);
    NothingPromoted(LedgerMap(f.fixture.snapshot.entries), WorldOf(f).fork, f.fixture.snapshot.info.protocolVersion);
    hide LedgerDigest, LedgerMap, MatchesLedger, AllLegal, RunOps, Recorded, Bounded;
    RunsKeepInv(id, f.fixture.snapshot.info.protocolVersion, WorldOf(f), ops, f.coverage.Keys);
  }

  /** A revert to an own checkpoint restores exactly what was checkpointed, receipts aside. */
  lemma RevertRestores(fork: Fork, id: nat, network: u32, inventory: set<KeyId>, later: Fork)
    requires ForkInv(fork, network, inventory)
    ensures Revert(later, id, TakeCheckpoint(fork, id, network)) == (Ok(()), fork.(receipts := []))
  {
    hide LedgerDigest, MatchesLedger;
    NetworkOfFork(fork, network);
  }

  predicate AllMocked(ops: seq<Op>) {
    forall i | 0 <= i < |ops| :: ops[i].DoInvoke? && ops[i].auth.Mocks()
  }

  /** Mock nonces never leak, however many mocked invocations are made. */
  lemma {:induction false} MockRunsAddNoNonce(id: nat, network: u32, w: World, ops: seq<Op>, inventory: set<KeyId>,
                                              nonce: KeyId)
    requires WorldInv(network, w, inventory) && AllLegal(id, network, w, ops) && AllMocked(ops) && IsNonceId(nonce)
    ensures var end := RunOps(id, network, w, ops);
      && (nonce in LedgerMap(end.fork.env.entries) ==> nonce in LedgerMap(w.fork.env.entries))
      && (nonce in end.fork.coverage ==> nonce in w.fork.coverage)
    decreases |ops|
  {
    hide WorldInv, Legal, Step, LedgerMap, IsNonceId;
    if ops != [] {
      StepKeepsInv(id, network, w, ops[0], inventory);
      MockStepAddsNoNonce(id, network, w, ops[0], inventory, nonce);
      MockRunsAddNoNonce(id, network, Step(id, network, w, ops[0]), ops[1..], inventory, nonce);
    }
  }

  lemma MockStepAddsNoNonce(id: nat, network: u32, w: World, op: Op, inventory: set<KeyId>, nonce: KeyId)
    requires WorldInv(network, w, inventory) && op.DoInvoke? && op.auth.Mocks() && IsNonceId(nonce)
    ensures var next := Step(id, network, w, op);
      && (nonce in LedgerMap(next.fork.env.entries) ==> nonce in LedgerMap(w.fork.env.entries))
      && (nonce in next.fork.coverage ==> nonce in w.fork.coverage)
  {
    hide ForkInv, Invoke, LedgerMap, Replayed, IsNonceId;
    MockAddsNoNonce(w.fork, network, inventory, op.request, op.mode, op.auth, op.run, nonce);
  }
}
