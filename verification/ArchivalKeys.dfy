/**
 The one gap between capture and strict replay: the archival config key. Capture
 exempts it from discovery (src/capture.rs:288-291), replay does not exempt it
 from the scan over stored entries (src/capture.rs:675-688).
 */
module ArchivalKeys {
  import opened Wrappers
  import opened Bytes
  import opened Ordered
  import opened Ledger
  import opened Fixture
  import opened Errors
  import opened CoverageChecks
  import opened Bundles
  import opened Origin
  import opened Providers
  import opened Materialization
  import opened Closure
  import opened Scenarios
  import opened Discovery
  import opened CaptureLaws
  import opened Convergence

  // ----- Scenarios that cannot meet the gap -----

  /** No environment and no history make the scenario store the archival key. */
  ghost predicate NeverStoresArchival(program: Program) {
    forall input: PassInput, h: seq<Answer> :: program(input).next(h) != Store(STATE_ARCHIVAL_KEY)
  }

  lemma {:induction false} NothingStored(transport: Option<Provider>, scenario: Scenario, st: Pass)
    requires forall h: seq<Answer> :: scenario.next(h) != Store(STATE_ARCHIVAL_KEY)
    requires !StoresArchival(st)
    ensures !StoresArchival(Run(transport, scenario, st))
    decreases scenario.rank(st.history)
  {
    var action := scenario.next(st.history);
    if !action.End? {
      ActGrowsHistory(transport, action, st);
      NothingStored(transport, scenario, Act(transport, action, st));
    }
  }

  /**
   For a scenario that never leaves the archival key stored, capture implies
   replay without exception, whatever the provider answers.
   */
  lemma CaptureReplaysAlways(config: Settings, p: Provider, n: nat, program: Program, seed: Keys)
    requires WellKeyed(seed) && NoConfig(seed)
    requires NeverStoresArchival(program)
    ensures CaptureFrom(config, p, n, program, seed).0.Ok? ==>
      Replay(CaptureFrom(config, p, n, program, seed).0.value.fixture, program) == Ok(())
  {
    hide CaptureFrom, Replay, Ready, Seal, Judge, StoresArchival;
    if CaptureFrom(config, p, n, program, seed).0.Ok? {
      CaptureImpliesReplay(config, p, n, program, seed);
      CaptureRestsOn(config, p, n, program, seed);
      var s := CaptureFrom(config, p, n, program, seed).0.value;
      var k :| s.pass == RunPass(p, k, program, s.m);
      FreshPassStoresNothing(s.m.coverage, k);
      NothingStored(Some(p), program(InputOf(s.m.info, s.m.coverage)), NewPass(s.m.coverage, k));
    }
  }

  lemma FreshPassStoresNothing(cache: Coverage, n: nat)
    ensures !StoresArchival(NewPass(cache, n))
  {
  }

  // ----- Which scenarios do, on an unchanging ledger -----

  /** The archival settings of a ledger that has them. */
  function SettingsOf(ledger: ChainLedger): Option<ArchivalSettings> {
    match ledger.Lookup(STATE_ARCHIVAL_KEY)
    case Present(LedgerEntry(_, StateArchivalEntry(settings), _), _) => Some(settings)
    case _ => None
  }

  /** A blind program under the header `ledger` gives it. */
  function ScenarioOn(config: Settings, ledger: ChainLedger, program: Program): Scenario
    requires SettingsOf(ledger).Some?
  {
    program(InputOf(InfoOf(config, ledger.anchor, SettingsOf(ledger).value), map[]))
  }

  /** The run of a blind program that `ledger` itself answers. */
  function RunOnLedger(config: Settings, ledger: ChainLedger, program: Program): DirectRun {
    if SettingsOf(ledger).Some? then RunDirectly(ledger, ScenarioOn(config, ledger, program), FRESH_RUN) else FRESH_RUN
  }

  /** What that run reads. */
  function ReadsOnLedger(config: Settings, ledger: ChainLedger, program: Program): seq<LedgerKey> {
    if SettingsOf(ledger).Some? then DirectReads(ledger, ScenarioOn(config, ledger, program), FRESH_RUN) else []
  }

  /**
   On an unchanging ledger a blind scenario and the ledger alone decide: a capture that
   returned Ok replays Ok if and only if the scenario, answered by the ledger itself,
   leaves the archival key unstored.
   */
  lemma LedgerDecidesReplay(config: Settings, p: Provider, n: nat, program: Program, seed: Keys, ledger: ChainLedger)
    requires Unchanging(p, ledger) && Blind(program) && WellKeyed(seed) && NoConfig(seed)
    ensures CaptureFrom(config, p, n, program, seed).0.Ok? ==>
      var f := CaptureFrom(config, p, n, program, seed).0.value.fixture;
      Replay(f, program) == Ok(()) <==> STATE_ARCHIVAL_KEY !in RunOnLedger(config, ledger, program).stored
  {
    hide CaptureFrom, Replay, Ready, Seal, Judge, RunOnLedger, Unchanging;
    if CaptureFrom(config, p, n, program, seed).0.Ok? {
      CaptureImpliesReplay(config, p, n, program, seed);
      CaptureRestsOn(config, p, n, program, seed);
      SettledIsDirect(config, p, program, CaptureFrom(config, p, n, program, seed).0.value, ledger);
    }
  }

  lemma SettledIsDirect(config: Settings, p: Provider, program: Program, s: Settled, ledger: ChainLedger)
    requires Unchanging(p, ledger) && Blind(program) && RestsOn(config, p, program, s)
    ensures Observed(s.pass) == RunOnLedger(config, ledger, program)
  {
    hide Ready, Seal, Unchanging, RunDirectly;
    FixedMeansNoFailure(s.keys, s.pass, EndOf(program, s.m, s.pass));
    ReadyOnLedger(config, p, s.keys, s.m, ledger);
    BlindInput(program, s.m.info, s.m.coverage, map[]);
    var k :| s.pass == RunPass(p, k, program, s.m);
    PassIsDirect(p, program(InputOf(s.m.info, s.m.coverage)), NewPass(s.m.coverage, k), ledger);
  }

  lemma FixedMeansNoFailure(keys: Keys, pass: Pass, end: Action)
    requires end.End? && Judge(keys, pass, end) == Fixed
    ensures pass.source.failure.None?
  {
  }

  // ----- The internal invariant of a whole capture -----

  /** The last pass of a successful capture never asked for the archival key. */
  lemma SettledNeverAsked(config: Settings, p: Provider, program: Program, s: Settled)
    requires RestsOn(config, p, program, s)
    ensures !AskedArchival(s.pass.source)
  {
    hide Ready, Seal;
    FixedMeansNoFailure(s.keys, s.pass, EndOf(program, s.m, s.pass));
    var k :| s.pass == RunPass(p, k, program, s.m);
    PassWellKeyed(p, k, program, s.m);
    hide RunPass;
    ConfigIdMeansAsked(s.pass.source);
    InternalInvariantMeansArchivalRead(config, p, k, program, s.keys, s.m);
  }

  /** The same for a whole capture, against any provider. */
  lemma CaptureNeverAsked(config: Settings, p: Provider, n: nat, program: Program, seed: Keys)
    requires WellKeyed(seed) && NoConfig(seed)
    ensures var r := CaptureFrom(config, p, n, program, seed).0; r.Ok? ==> !AskedArchival(r.value.pass.source)
  {
    hide CaptureFrom, RestsOn, AskedArchival;
    if CaptureFrom(config, p, n, program, seed).0.Ok? {
      CaptureRestsOn(config, p, n, program, seed);
      SettledNeverAsked(config, p, program, CaptureFrom(config, p, n, program, seed).0.value);
    }
  }

  lemma OneReadAsks(p: Provider, s: Source, n: nat, key: LedgerKey, ledger: ChainLedger)
    requires Unchanging(p, ledger) && CacheOn(s.cache, ledger) && WellKeyed(s.requested)
    requires SourceGet(Some(p), s, n, key).0.failure.None?
    ensures var next := SourceGet(Some(p), s, n, key).0;
      && WellKeyed(next.requested)
      && (AskedArchival(next) <==> AskedArchival(s) || key == STATE_ARCHIVAL_KEY)
  {
    GetOnLedger(p, s, n, key, ledger);
    hide SourceGet, Unchanging;
    var id := KeyXdr(key).value;
    if !s.local.Owns(key) {
      assert s.requested[id := key][id] == key;
      if other :| other in s.requested && s.requested[other] == STATE_ARCHIVAL_KEY {
        if other == id { KeyXdrInjective(s.requested[id], key); }
        assert s.requested[id := key][other] == STATE_ARCHIVAL_KEY;
      }
    }
  }

  /** On an unchanging ledger a failure-free pass asked for the archival key exactly when the ledger's run reads it. */
  lemma {:induction false} AskedOnLedger(p: Provider, scenario: Scenario, st: Pass, ledger: ChainLedger)
    requires Unchanging(p, ledger) && CacheOn(st.source.cache, ledger) && WellKeyed(st.source.requested)
    requires Run(Some(p), scenario, st).source.failure.None?
    ensures AskedArchival(Run(Some(p), scenario, st).source)
      <==> AskedArchival(st.source) || STATE_ARCHIVAL_KEY in DirectReads(ledger, scenario, Observed(st))
    decreases scenario.rank(st.history)
  {
    hide AskedArchival, SourceGet, Unchanging, CacheOn, WellKeyed;
    var action := scenario.next(st.history);
    if !action.End? {
      var next := Act(Some(p), action, st);
      ActGrowsHistory(Some(p), action, st);
      FailureStays(Some(p), scenario, next);
      ActStaysOnLedger(p, action, st, ledger);
      if action.Read? {
        OneReadAsks(p, st.source, st.n, action.key, ledger);
      } else {
        AskedSame(st.source, next.source);
      }
      AskedOnLedger(p, scenario, next, ledger);
    }
  }

  lemma AskedSame(a: Source, b: Source)
    requires a.requested == b.requested
    ensures AskedArchival(a) <==> AskedArchival(b)
  {
  }

  /** No environment and no history make the scenario read the archival key. */
  ghost predicate NeverReadsArchival(program: Program) {
    forall input: PassInput, h: seq<Answer> :: program(input).next(h) != Read(STATE_ARCHIVAL_KEY)
  }

  predicate AskedArchival(s: Source) {
    exists id :: id in s.requested && s.requested[id] == STATE_ARCHIVAL_KEY
  }

  lemma {:induction false} NothingAsked(transport: Option<Provider>, scenario: Scenario, st: Pass)
    requires forall h: seq<Answer> :: scenario.next(h) != Read(STATE_ARCHIVAL_KEY)
    requires !AskedArchival(st.source)
    ensures !AskedArchival(Run(transport, scenario, st).source)
    decreases scenario.rank(st.history)
  {
    hide ValidateBatch;
    var action := scenario.next(st.history);
    if !action.End? {
      ActGrowsHistory(transport, action, st);
      NothingAsked(transport, scenario, Act(transport, action, st));
    }
  }

  lemma FreshPassAskedNothing(cache: Coverage, n: nat)
    ensures !AskedArchival(NewPass(cache, n).source)
  {
  }

  /** A round's verdict is never `InternalInvariant` unless the archival key was asked for. */
  lemma VerdictNeedsArchival(config: Settings, p: Provider, n: nat, program: Program, keys: Keys, m: Materialized)
    requires Ready(config, p, keys, m) && NeverReadsArchival(program)
    ensures var pass := RunPass(p, n, program, m); Judge(keys, pass, EndOf(program, m, pass)) != Stop(InternalInvariant)
  {
    var pass := RunPass(p, n, program, m);
    var end := EndOf(program, m, pass);
    FreshPassAskedNothing(m.coverage, n);
    NothingAsked(Some(p), program(InputOf(m.info, m.coverage)), NewPass(m.coverage, n));
    assert !AskedArchival(pass.source);
    PassWellKeyed(p, n, program, m);
    hide Ready, RunPass, Run;
    ConfigIdMeansAsked(pass.source);
    if Judge(keys, pass, end) == Stop(InternalInvariant) {
      InternalInvariantMeansArchivalRead(config, p, n, program, keys, m);
    }
  }

  lemma ConfigIdMeansAsked(s: Source)
    requires WellKeyed(s.requested)
    ensures (exists id :: id in s.requested && IsConfigId(id)) <==> AskedArchival(s)
  {
    if id :| id in s.requested && IsConfigId(id) {
      KeyXdrInjective(s.requested[id], STATE_ARCHIVAL_KEY);
    }
    assert forall id | id in s.requested && s.requested[id] == STATE_ARCHIVAL_KEY :: IsConfigId(id);
  }

  /** Sealing a checked materialization never reports a broken invariant. */
  lemma SealNeverBroken(config: Settings, p: Provider, keys: Keys, m: Materialized, round: nat)
    requires Ready(config, p, keys, m)
    ensures Seal(config, m, round) != Err(InternalInvariant)
  {
    hide EnsureClosure, Validated, Coherent, Honest, SnapshotOf, LedgerDigest;
    SnapshotNeverFails(m.coverage, m.info);
  }

  lemma {:induction false} RoundsNeverBroken(config: Settings, p: Provider, n: nat, program: Program, keys: Keys,
                                             m: Materialized, round: nat)
    requires Ready(config, p, keys, m) && NeverReadsArchival(program)
    ensures Rounds(config, p, n, program, keys, m, round).0 != Err(InternalInvariant)
    decreases config.maxDiscoveryRounds + 1 - round
  {
    hide Ready, Judge, Seal, Refetch, RunPass, WellKeyed, NoConfig, Widens, NeverReadsArchival, EndOf;
    PassEnds(p, n, program, m);
    VerdictNeedsArchival(config, p, n, program, keys, m);
    SealNeverBroken(config, p, keys, m, round);
    var pass := RunPass(p, n, program, m);
    var verdict := Judge(keys, pass, EndOf(program, m, pass));
    if round <= config.maxDiscoveryRounds && verdict.More? {
      ReadyKeys(config, p, keys, m);
      NextKeys(p, n, program, keys, m);
      var (next, k) := Refetch(config, p, pass.n, verdict.keys);
      if next.Ok? {
        RefetchIsReady(config, p, pass.n, verdict.keys);
        RoundsNeverBroken(config, p, k, program, next.value.0, next.value.1, round + 1);
      }
    }
  }

  /**
   Of all the places a capture could report `InternalInvariant`, only a read of the
   archival key leads to one: a scenario that never reads it never gets that error,
   whatever the provider answers.
   */
  lemma InternalInvariantNeedsArchival(config: Settings, p: Provider, n: nat, program: Program, seed: Keys)
    requires WellKeyed(seed) && NoConfig(seed) && NeverReadsArchival(program)
    ensures CaptureFrom(config, p, n, program, seed).0 != Err(InternalInvariant)
  {
    hide Ready, Rounds, Refetch, WellKeyed, NoConfig, Widens, NeverReadsArchival;
    var (start, k) := Refetch(config, p, n + 1, seed);
    if start.Ok? {
      RefetchIsReady(config, p, n + 1, seed);
      RoundsNeverBroken(config, p, k, program, start.value.0, start.value.1, 1);
    }
  }

  // ----- A scenario that does -----

  /** Leave the archival key stored, and end. */
  function StoreOnce(): Scenario {
    var t := Tree((h: seq<Answer>) => if h == [] then Store(STATE_ARCHIVAL_KEY) else End(false, true),
                  (h: seq<Answer>) => if h == [] then 1 else 0);
    assert Terminates(t);
    t
  }

  const STORE_ONCE: Program := (input: PassInput) => StoreOnce()

  const TINY_SETTINGS: ArchivalSettings := ArchivalSettings(1000, 16, 100, [])
  const TINY_ARCHIVAL: LedgerValue := LedgerValue(LedgerEntry(0, StateArchivalEntry(TINY_SETTINGS), []), None)
  const TINY_TIP: Anchor := Anchor(1, [1], SUPPORTED_PROTOCOL_VERSION, 0, 0)

  /** A ledger holding nothing but the archival settings, served without failures. */
  function TinyProvider(passphrase: Vec8): Provider {
    Provider((i: nat) => Ok(Network(passphrase, SUPPORTED_PROTOCOL_VERSION)),
             (i: nat) => Ok(TINY_TIP),
             (i: nat, keys: seq<LedgerKey>) => Ok(EntryBatch(1, [TINY_ARCHIVAL])))
  }

  const TINY_LEDGER: ChainLedger := ChainLedger(TINY_TIP, map[STATE_ARCHIVAL_KEY := TINY_ARCHIVAL])

  lemma TinyIsHonest(passphrase: Vec8)
    ensures Honest(TinyProvider(passphrase), _ => TINY_LEDGER)
  {
  }

  function TinyMaterialized(config: Settings): Materialized {
    Materialized(TINY_TIP, InfoOf(config, TINY_TIP, TINY_SETTINGS), map[])
  }

  lemma TinyBatch(id: KeyId)
    requires KeyXdr(STATE_ARCHIVAL_KEY) == Some(id)
    ensures ValidateBatch([STATE_ARCHIVAL_KEY], [TINY_ARCHIVAL]) == Ok(map[id := TINY_ARCHIVAL])
  {
    assert STATE_ARCHIVAL_KEY in [STATE_ARCHIVAL_KEY];
    assert forall k | k in [STATE_ARCHIVAL_KEY] :: KeyXdr(k) == Some(id);
    assert RequestedIds([STATE_ARCHIVAL_KEY]).value == {id};
    assert [TINY_ARCHIVAL][..0] == [];
    assert CollectBatch({id}, [TINY_ARCHIVAL][..0]) == Ok(map[]);
    assert TINY_ARCHIVAL.entry.ToKey() == STATE_ARCHIVAL_KEY;
    assert CollectBatch({id}, [TINY_ARCHIVAL]) == Ok((map[])[id := TINY_ARCHIVAL]);
  }

  lemma TinyFetch(p: Provider, n: nat, id: KeyId)
    requires KeyXdr(STATE_ARCHIVAL_KEY) == Some(id)
    requires forall i, keys :: p.entries(i, keys) == Ok(EntryBatch(1, [TINY_ARCHIVAL]))
    ensures FetchChunks(p, n, 1, id, map[id := STATE_ARCHIVAL_KEY], [id], Fetched(map[], None, true))
         == (Ok(Fetched(map[], Some(TINY_SETTINGS), true)), n + 1)
  {
    hide ValidateBatch;
    TinyBatch(id);
    var requested: Keys := map[id := STATE_ARCHIVAL_KEY];
    assert [id][..1] == [id] && [id][1..] == [] && [id][..0] == [];
    assert KeysOf([id], requested) == [STATE_ARCHIVAL_KEY];
    assert AbsorbChunk([], map[id := TINY_ARCHIVAL], id, Fetched(map[], None, true)).Ok?;
  }

  lemma TinyMaterialize(config: Settings, n: nat)
    requires KeyXdr(STATE_ARCHIVAL_KEY).Some? && config.maxCoherenceAttempts > 0
    ensures Materialize(config, TinyProvider(config.passphrase), n, map[]) == (Ok(TinyMaterialized(config)), n + 3)
  {
    hide FetchChunks, ValidateCoverage;
    var id := KeyXdr(STATE_ARCHIVAL_KEY).value;
    var p := TinyProvider(config.passphrase);
    var requested: Keys := map[id := STATE_ARCHIVAL_KEY];
    var ids := Sorted(requested.Keys);
    assert id in ids;
    assert |requested.Keys| == 1 by { assert requested.Keys == {id}; }
    assert ids == [id];
    TinyFetch(p, n + 1, id);
    assert (map[])[id := STATE_ARCHIVAL_KEY] == requested;
  }

  lemma TinyRefetch(config: Settings, n: nat)
    requires KeyXdr(STATE_ARCHIVAL_KEY).Some? && config.maxCoherenceAttempts > 0
    ensures Refetch(config, TinyProvider(config.passphrase), n, map[]) == (Ok((map[], TinyMaterialized(config))), n + 3)
  {
    hide Materialize, EnsureClosure;
    TinyMaterialize(config, n);
    var none: Coverage := map[];
    assert none.Keys == {} && Sorted(none.Keys) == [];
  }

  lemma TinySeal(config: Settings)
    ensures Seal(config, TinyMaterialized(config), 1).Ok?
  {
    var none: Coverage := map[];
    assert none.Keys == {} && Sorted(none.Keys) == [];
    assert DuplicateIds([]) == {};
  }

  /** The pass of `STORE_ONCE`: one stored key, no read. */
  lemma TinyRun(p: Provider, n: nat)
    ensures Run(Some(p), StoreOnce(), NewPass(map[], n)) == Pass(NewSource(map[]), n, [STATE_ARCHIVAL_KEY], [Acted])
  {
    hide SourceGet;
    var start := NewPass(map[], n);
    ActGrowsHistory(Some(p), Store(STATE_ARCHIVAL_KEY), start);
    var st := Act(Some(p), Store(STATE_ARCHIVAL_KEY), start);
    assert st == Pass(NewSource(map[]), n, [STATE_ARCHIVAL_KEY], [Acted]);
  }

  lemma TinyTouched(pass: Pass)
    requires KeyXdr(STATE_ARCHIVAL_KEY).Some?
    requires pass.stored == [STATE_ARCHIVAL_KEY] && pass.source.requested == map[]
    ensures Encodes(pass.stored, pass.source.local) && NetworkKeys(Touched(pass)) == map[]
  {
    assert Encodes(pass.stored, pass.source.local);
    hide StoredKeys, Encodes;
    assert forall k | k in pass.stored :: k == STATE_ARCHIVAL_KEY;
  }

  lemma TinyPass(config: Settings, n: nat)
    requires KeyXdr(STATE_ARCHIVAL_KEY).Some?
    ensures var m := TinyMaterialized(config);
      var pass := RunPass(TinyProvider(config.passphrase), n, STORE_ONCE, m);
      && StoresArchival(pass)
      && EndOf(STORE_ONCE, m, pass).End?
      && Judge(map[], pass, EndOf(STORE_ONCE, m, pass)) == Fixed
  {
    hide Run, Touched, NetworkKeys, Encodes;
    var pass := RunPass(TinyProvider(config.passphrase), n, STORE_ONCE, TinyMaterialized(config));
    TinyRun(TinyProvider(config.passphrase), n);
    TinyTouched(pass);
    assert STATE_ARCHIVAL_KEY in [STATE_ARCHIVAL_KEY];
    assert map[] + NetworkKeys(Touched(pass)) == map[];
  }

  /**
   For a Host that lets a scenario leave this key stored the gap is there: the scenario
   captures from a provider that never fails and never changes, and the strict replay
   of that capture is refused.
   */
  lemma ArchivalStoreDoesNotReplay(config: Settings)
    requires KeyXdr(STATE_ARCHIVAL_KEY).Some? && config.maxCoherenceAttempts > 0 && config.maxDiscoveryRounds > 0
    ensures var (captured, _) := CaptureFrom(config, TinyProvider(config.passphrase), 0, STORE_ONCE, map[]);
      && captured.Ok?
      && Replay(captured.value.fixture, STORE_ONCE) == Err(UnknownLedgerKeys(1))
  {
    hide Refetch, Judge, Seal, RunPass, EndOf, StoresArchival, Honest, Replay;
    var p := TinyProvider(config.passphrase);
    TinyRefetch(config, 1);
    TinyPass(config, 4);
    TinySeal(config);
    TinyIsHonest(config.passphrase);
    assert ValidateNetwork(config, p, 0) == Ok(());
    assert WellKeyed(map[]) && NoConfig(map[]);
    CaptureImpliesReplay(config, p, 0, STORE_ONCE, map[]);
  }

  /** The refused capture is nonetheless a well-formed fixture: it can be written, loaded and forked. */
  lemma ArchivalStoreIsWellFormed(config: Settings)
    requires KeyXdr(STATE_ARCHIVAL_KEY).Some? && config.maxCoherenceAttempts > 0
    requires 0 < config.maxDiscoveryRounds <= MAX_DISCOVERY_ROUNDS
    requires RedactOrigin(config.rpcOrigin) == Ok(config.rpcOrigin)
    ensures var (captured, _) := CaptureFrom(config, TinyProvider(config.passphrase), 0, STORE_ONCE, map[]);
      captured.Ok? && WellFormed(captured.value.fixture, config.passphrase, config.policy)
  {
    hide Refetch, Judge, Seal, RunPass, EndOf, Honest, RedactOrigin, WellFormed, RestsOn;
    var p := TinyProvider(config.passphrase);
    TinyRefetch(config, 1);
    TinyPass(config, 4);
    TinySeal(config);
    TinyIsHonest(config.passphrase);
    assert ValidateNetwork(config, p, 0) == Ok(());
    assert WellKeyed(map[]) && NoConfig(map[]);
    var s := CaptureFrom(config, p, 0, STORE_ONCE, map[]).0.value;
    CaptureRestsOn(config, p, 0, STORE_ONCE, map[]);
    SettledWellFormed(config, p, STORE_ONCE, s);
  }

  // ----- A scenario that reads the key -----

  function ReadOnce(): Scenario {
    var t := Tree((h: seq<Answer>) => if h == [] then Read(STATE_ARCHIVAL_KEY) else End(false, true),
                  (h: seq<Answer>) => if h == [] then 1 else 0);
    assert Terminates(t);
    t
  }

  const READ_ONCE: Program := (input: PassInput) => ReadOnce()

  lemma ReadOnceRun(config: Settings, n: nat)
    requires KeyXdr(STATE_ARCHIVAL_KEY).Some?
    ensures var s := Run(Some(TinyProvider(config.passphrase)), ReadOnce(), NewPass(map[], n)).source;
      s.failure.None? && s.rpcReads == 1 && s.requested == map[KeyXdr(STATE_ARCHIVAL_KEY).value := STATE_ARCHIVAL_KEY]
    ensures var pass := Run(Some(TinyProvider(config.passphrase)), ReadOnce(), NewPass(map[], n));
      pass.stored == [] && ReadOnce().next(pass.history) == End(false, true)
  {
    hide ValidateBatch;
    var id := KeyXdr(STATE_ARCHIVAL_KEY).value;
    var p := TinyProvider(config.passphrase);
    TinyBatch(id);
    var start := NewPass(map[], n);
    ActGrowsHistory(Some(p), Read(STATE_ARCHIVAL_KEY), start);
    var st := Act(Some(p), Read(STATE_ARCHIVAL_KEY), start);
    assert st.history == [AnswerOf(AsState(Some(TINY_ARCHIVAL)))];
    assert Run(Some(p), ReadOnce(), start) == st;
  }

  lemma ReadOnceVerdict(config: Settings, n: nat)
    requires KeyXdr(STATE_ARCHIVAL_KEY).Some?
    ensures var m := TinyMaterialized(config);
      var pass := RunPass(TinyProvider(config.passphrase), n, READ_ONCE, m);
      && EndOf(READ_ONCE, m, pass).End?
      && Judge(map[], pass, EndOf(READ_ONCE, m, pass)) == Stop(InternalInvariant)
  {
    hide Run;
    ReadOnceRun(config, n);
    var pass := RunPass(TinyProvider(config.passphrase), n, READ_ONCE, TinyMaterialized(config));
    assert Encodes(pass.stored, pass.source.local);
    assert NetworkKeys(Touched(pass)) == map[];
    assert map[] + NetworkKeys(Touched(pass)) == map[];
  }

  /** The error is reachable: reading the archival key once, against a provider without faults, ends in it. */
  lemma ArchivalReadIsBroken(config: Settings)
    requires KeyXdr(STATE_ARCHIVAL_KEY).Some? && config.maxCoherenceAttempts > 0 && config.maxDiscoveryRounds > 0
    ensures CaptureFrom(config, TinyProvider(config.passphrase), 0, READ_ONCE, map[]).0 == Err(InternalInvariant)
  {
    hide Refetch, Judge, Seal, RunPass, EndOf;
    TinyRefetch(config, 1);
    ReadOnceVerdict(config, 4);
    assert ValidateNetwork(config, TinyProvider(config.passphrase), 0) == Ok(());
  }
}
