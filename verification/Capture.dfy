/**
 The capture code itself: transport, local marks, tracking source and builder as
 the objects they are, each method tied to the function that specifies it.
 */
module Capture {
  import opened Wrappers
  import opened Bytes
  import opened Ordered
  import opened Ledger
  import opened Errors
  import opened CoverageChecks
  import opened Bundles
  import opened Providers
  import opened Materialization
  import opened Closure
  import opened Scenarios
  import opened Discovery

  /** The transport counts its calls; the provider may answer each one differently. */
  class Transport {
    const provider: Provider
    var calls: nat

    constructor (provider: Provider)
      ensures this.provider == provider && calls == 0
    {
      this.provider := provider;
      calls := 0;
    }

    method GetNetwork() returns (r: Result<Network, Operation>)
      modifies this
      ensures r == provider.network(old(calls)) && calls == old(calls) + 1
    {
      r := provider.network(calls);
      calls := calls + 1;
    }

    method LatestLedger() returns (r: Result<Anchor, Operation>)
      modifies this
      ensures r == provider.latest(old(calls)) && calls == old(calls) + 1
    {
      r := provider.latest(calls);
      calls := calls + 1;
    }

    method LedgerEntries(keys: seq<LedgerKey>) returns (r: Result<EntryBatch, Operation>)
      modifies this
      ensures r == provider.entries(old(calls), keys) && calls == old(calls) + 1
    {
      r := provider.entries(calls, keys);
      calls := calls + 1;
    }
  }

  /** `LocalLedger`: keys owned by local test setup. */
  class LocalLedger {
    var addresses: set<ScAddress>
    var codeHashes: set<Digest>

    function View(): Local
      reads this
    {
      Local(addresses, codeHashes)
    }

    constructor ()
      ensures View() == Local({}, {})
    {
      addresses := {};
      codeHashes := {};
    }

    method MarkAddress(address: ScAddress)
      modifies this
      ensures View() == old(View()).(addresses := old(addresses) + {address})
    {
      addresses := addresses + {address};
    }

    method MarkCode(hash: Digest)
      modifies this
      ensures View() == old(View()).(codes := old(codeHashes) + {hash})
    {
      codeHashes := codeHashes + {hash};
    }
  }

  /** `TrackingSource`: RPC-backed with a transport, strict without one. */
  class TrackingSource {
    var cache: Coverage
    var requested: Keys
    var unknown: set<KeyId>
    const transport: Transport?
    const local: LocalLedger
    var rpcReads: nat
    var failure: Option<Operation>

    function View(): Source
      reads this, local
    {
      Source(cache, requested, unknown, local.View(), rpcReads, failure)
    }

    function Mode(): Option<Provider> {
      if transport == null then None else Some(transport.provider)
    }

    function Calls(): nat
      reads transport
    {
      if transport == null then 0 else transport.calls
    }

    ghost function Frame(): set<object> {
      {this, local} + if transport == null then {} else {transport}
    }

    constructor (cache: Coverage, transport: Transport?, local: LocalLedger)
      requires local.View() == Local({}, {})
      ensures this.transport == transport && this.local == local
      ensures View() == NewSource(cache)
    {
      this.cache := cache;
      this.transport := transport;
      this.local := local;
      requested := map[];
      unknown := {};
      rpcReads := 0;
      failure := None;
    }

    method Read(key: LedgerKey) returns (answer: Answer)
      modifies Frame()
      ensures (View(), Calls(), answer) == SourceGet(Mode(), old(View()), old(Calls()), key)
    {
      if failure.Some? {
        return HostError;
      }
      var encoded := KeyXdr(key);
      if encoded.None? {
        failure := Some(LedgerKeyEncode);
        return HostError;
      }
      var id := encoded.value;
      if local.View().Owns(key) {
        return Found(None);
      }
      requested := requested[id := key];
      if id in cache {
        return AnswerOf(cache[id]);
      }
      if transport == null {
        unknown := unknown + {id};
        return HostError;
      }
      rpcReads := rpcReads + 1;
      var batch := transport.LedgerEntries([key]);
      if batch.Err? {
        failure := Some(batch.error);
        return HostError;
      }
      var returned := ValidateBatch([key], batch.value.entries);
      if returned.Err? {
        failure := Some(GetLedgerEntries);
        return HostError;
      }
      var state := AsState(Get(returned.value, id));
      cache := cache[id := state];
      return AnswerOf(state);
    }

    /** Runs a scenario to its end; returns the Host's stored entries and the answers given. */
    method RunScenario(scenario: Scenario) returns (stored: seq<LedgerKey>, history: seq<Answer>)
      modifies Frame()
      ensures Pass(View(), Calls(), stored, history)
        == Run(Mode(), scenario, Pass(old(View()), old(Calls()), [], []))
    {
      stored, history := [], [];
      ghost var start := Pass(View(), Calls(), [], []);
      var action := scenario.next(history);
      while !action.End?
        invariant action == scenario.next(history)
        invariant Run(Mode(), scenario, Pass(View(), Calls(), stored, history)) == Run(Mode(), scenario, start)
        decreases scenario.rank(history)
      {
        ghost var before := Pass(View(), Calls(), stored, history);
        ActGrowsHistory(Mode(), action, before);
        match action {
          case Read(key) =>
            var answer := Read(key);
            history := history + [answer];
          case Store(key) =>
            stored, history := stored + [key], history + [Acted];
          case MarkAddress(address) =>
            local.MarkAddress(address);
            history := history + [Acted];
          case MarkCode(hash) =>
            local.MarkCode(hash);
            history := history + [Acted];
        }
        assert Pass(View(), Calls(), stored, history) == Act(Mode(), action, before);
        action := scenario.next(history);
      }
    }
  }

  /** `CaptureBuilder`. */
  class CaptureBuilder {
    const config: Settings
    const transport: Transport

    constructor (config: Settings, transport: Transport)
      ensures this.config == config && this.transport == transport
    {
      this.config := config;
      this.transport := transport;
    }

    method CheckNetwork() returns (r: Result<(), CaptureError>)
      modifies transport
      ensures r == ValidateNetwork(config, transport.provider, old(transport.calls))
      ensures transport.calls == old(transport.calls) + 1
    {
      var network := transport.GetNetwork();
      if network.Err? {
        return Err(Transport(network.error));
      }
      if network.value.passphrase != config.passphrase {
        return Err(CaptureError.NetworkMismatch);
      }
      if !config.policy.Accepts(network.value.protocolVersion) {
        return Err(Unsupported(network.value.protocolVersion));
      }
      return Ok(());
    }

    method CachedAnchorIsCurrent(f: CapturedFixture) returns (r: Result<bool, CaptureError>)
      modifies transport
      ensures (r, transport.calls) == AnchorIsCurrent(config, transport.provider, old(transport.calls), f)
    {
      var network := CheckNetwork();
      if network.Err? {
        return Err(network.error);
      }
      var anchor := transport.LatestLedger();
      if anchor.Err? {
        return Err(Transport(anchor.error));
      }
      if !config.policy.Accepts(anchor.value.protocolVersion) {
        return Err(Unsupported(anchor.value.protocolVersion));
      }
      return Ok(anchor.value == AnchorOf(f));
    }

    /** The loop over one validated chunk. */
    method Absorb(chunk: seq<KeyId>, returned: map<KeyId, LedgerValue>, configId: KeyId, so: Fetched)
      returns (r: Result<Fetched, CaptureError>)
      ensures r == AbsorbChunk(chunk, returned, configId, so)
    {
      var got := so;
      for k := 0 to |chunk|
        invariant AbsorbChunk(chunk[..k], returned, configId, so) == Ok(got)
      {
        assert chunk[..k + 1][..k] == chunk[..k];
        var value := Get(returned, chunk[k]);
        if chunk[k] == configId {
          var settings := ExtractArchival(value);
          if settings.Err? {
            AbsorbFailure(chunk, returned, configId, so, k);
            return Err(settings.error);
          }
          got := got.(archival := Some(settings.value));
        } else {
          got := got.(coverage := got.coverage[chunk[k] := AsState(value)]);
        }
      }
      assert chunk[..|chunk|] == chunk;
      return Ok(got);
    }

    /** The loop over chunks of the requested keys. */
    method FetchAll(sequence: u32, configId: KeyId, requested: Keys, ids: seq<KeyId>)
      returns (r: Result<Fetched, CaptureError>)
      requires forall id | id in ids :: id in requested
      modifies transport
      ensures (r, transport.calls) == FetchChunks(transport.provider, old(transport.calls), sequence, configId,
          requested,
                                                  ids, Fetched(map[], None, true))
    {
      var got := Fetched(map[], None, true);
      var rest := ids;
      while rest != []
        invariant forall id | id in rest :: id in requested
        invariant FetchChunks(transport.provider, old(transport.calls), sequence, configId, requested, ids,
                              Fetched(map[], None, true))
               == FetchChunks(transport.provider, transport.calls, sequence, configId, requested, rest, got)
        decreases |rest|
      {
        var k := FirstChunk(rest);
        var chunk := rest[..k];
        var keys := KeysOf(chunk, requested);
        var batch := transport.LedgerEntries(keys);
        if batch.Err? {
          return Err(Transport(batch.error));
        }
        if batch.value.latestLedger != sequence {
          return Ok(got.(batchesMatch := false));
        }
        var returned := ValidateBatch(keys, batch.value.entries);
        if returned.Err? {
          return Err(returned.error);
        }
        var next := Absorb(chunk, returned.value, configId, got);
        if next.Err? {
          return Err(next.error);
        }
        got, rest := next.value, rest[k..];
      }
      return Ok(got);
    }

    /** One coherence attempt. */
    method Attempt(configId: KeyId, requested: Keys) returns (attempt: Attempt)
      modifies transport
      ensures (attempt, transport.calls)
          == TryOnce(config, transport.provider, old(transport.calls), configId, requested)
    {
      hide FetchChunks, ValidateCoverage, Sorted;
      var before := transport.LatestLedger();
      if before.Err? {
        return Failed(Transport(before.error));
      }
      if !config.policy.Accepts(before.value.protocolVersion) {
        return Failed(Unsupported(before.value.protocolVersion));
      }
      var got := FetchAll(before.value.sequence, configId, requested, Sorted(requested.Keys));
      if got.Err? {
        return Failed(got.error);
      }
      var after := transport.LatestLedger();
      if after.Err? {
        return Failed(Transport(after.error));
      }
      if !got.value.batchesMatch || before.value != after.value {
        return Retry;
      }
      if got.value.archival.None? {
        return Failed(MissingStateArchival);
      }
      var archival := got.value.archival.value;
      var valid := ValidateCoverage(got.value.coverage, before.value.sequence, archival.maxEntryTtl);
      if valid.Err? {
        return Failed(valid.error);
      }
      return Done(Materialized(before.value, InfoOf(config, before.value, archival), got.value.coverage));
    }

    method MaterializeKeys(keys: Keys) returns (r: Result<Materialized, CaptureError>)
      modifies transport
      ensures (r, transport.calls) == Materialize(config, transport.provider, old(transport.calls), keys)
    {
      hide TryOnce;
      var encoded := KeyXdr(STATE_ARCHIVAL_KEY);
      if encoded.None? {
        return Err(Xdr);
      }
      var configId := encoded.value;
      var requested := keys[configId := STATE_ARCHIVAL_KEY];
      for tried := 0 to config.maxCoherenceAttempts
        invariant Attempts(config, transport.provider, old(transport.calls), configId, requested,
            config.maxCoherenceAttempts)
               == Attempts(config, transport.provider, transport.calls, configId, requested,
                   config.maxCoherenceAttempts - tried)
      {
        var attempt := Attempt(configId, requested);
        match attempt {
          case Retry =>
          case Done(value) => return Ok(value);
          case Failed(error) => return Err(error);
        }
      }
      return Err(IncoherentLedger(config.maxCoherenceAttempts));
    }

    /** The keys that captured instances require, in coverage order. */
    method CollectRequired(coverage: Coverage) returns (r: Result<seq<LedgerKey>, CaptureError>)
      ensures r == RequiredKeys(coverage)
    {
      hide RequiredByState, Sorted;
      var ids := Sorted(coverage.Keys);
      assert forall i | 0 <= i < |ids| :: ids[i] in ids;
      hide StrictlySorted;
      var required: seq<LedgerKey> := [];
      assert ids[0..] == ids;
      PrependNothing(RequiredByStates(coverage, ids));
      for k := 0 to |ids|
        invariant forall id | id in ids[k..] :: id in coverage
        invariant RequiredByStates(coverage, ids) == Prepend(required, RequiredByStates(coverage, ids[k..]))
      {
        assert ids[k..][0] == ids[k] && ids[k..][1..] == ids[k + 1..];
        var more := RequiredByState(coverage, coverage[ids[k]]);
        if more.Err? {
          return Err(more.error);
        }
        PrependAssociates(required, more.value, RequiredByStates(coverage, ids[k + 1..]));
        required := required + more.value;
      }
      assert required + [] == required;
      return Ok(required);
    }

    /** Inserts keys and says whether any was new. */
    method InsertKeys(keys: Keys, required: seq<LedgerKey>) returns (r: Result<Keys, CaptureError>, added: bool)
      ensures r == AddKeys(keys, required)
      ensures r.Ok? ==> (added <==> r.value.Keys != keys.Keys)
    {
      var wider := keys;
      added := false;
      for k := 0 to |required|
        invariant AddKeys(keys, required[..k]) == Ok(wider)
        invariant keys.Keys <= wider.Keys
        invariant added <==> wider.Keys != keys.Keys
      {
        assert required[..k + 1][..k] == required[..k];
        var id := KeyXdr(required[k]);
        if id.None? {
          AddKeysFailure(keys, required, k);
          return Err(Xdr), added;
        }
        if id.value !in wider {
          added := true;
        }
        wider := wider[id.value := required[k]];
      }
      assert required[..|required|] == required;
      r := Ok(wider);
    }

    method ExpandCodeClosure(start: Keys, fetched: Materialized) returns (r: Result<(Keys, Materialized), CaptureError>)
      modifies transport
      ensures (r, transport.calls) == Expand(config, transport.provider, old(transport.calls), start, fetched, 0)
    {
      hide RequiredKeys, AddKeys, EnsureClosure, Materialize;
      var keys, m := start, fetched;
      for round := 0 to MAX_EXECUTABLE_CLOSURE_ROUNDS + 1
        invariant Expand(config, transport.provider, old(transport.calls), start, fetched, 0)
               == Expand(config, transport.provider, transport.calls, keys, m, round)
      {
        var required :- CollectRequired(m.coverage);
        var wider, added := InsertKeys(keys, required);
        if wider.Err? {
          return Err(wider.error);
        }
        keys := wider.value;
        if !added {
          var _ :- EnsureClosure(m.coverage);
          return Ok((keys, m));
        }
        if round < MAX_EXECUTABLE_CLOSURE_ROUNDS {
          m :- MaterializeKeys(keys);
        }
      }
      return Err(ExecutableClosureLimit(MAX_EXECUTABLE_CLOSURE_ROUNDS));
    }

    method FetchClosed(keys: Keys) returns (r: Result<(Keys, Materialized), CaptureError>)
      modifies transport
      ensures (r, transport.calls) == Refetch(config, transport.provider, old(transport.calls), keys)
    {
      var m :- MaterializeKeys(keys);
      r := ExpandCodeClosure(keys, m);
    }

    /** Stored entries that are not local join the requested keys. */
    method InsertStored(requested: Keys, stored: seq<LedgerKey>, local: Local) returns (r: Result<Keys, CaptureError>)
      ensures r == if Encodes(stored, local) then Ok(requested + StoredKeys(stored, local)) else Err(Xdr)
    {
      hide StoredKeys, Encodes;
      StoredFoldAdds(requested, stored, local);
      var keys := requested;
      for k := 0 to |stored|
        invariant StoredFold(requested, stored[..k], local) == Some(keys)
      {
        assert stored[..k + 1][..k] == stored[..k];
        if !local.Owns(stored[k]) {
          var id := KeyXdr(stored[k]);
          if id.None? {
            StoredFoldFails(requested, stored, local, k + 1);
            return Err(Xdr);
          }
          keys := keys[id.value := stored[k]];
        }
      }
      assert stored[..|stored|] == stored;
      return Ok(keys);
    }

    /** Adds what was requested, the archival config key aside, and counts what is new. */
    method InsertRequested(keys: Keys, requested: Keys) returns (wider: Keys, added: nat)
      ensures wider == keys + NetworkKeys(requested)
      ensures added == NewCount(keys, wider)
    {
      hide Sorted, StrictlySorted, NetworkKeys, NewCount;
      wider, added := keys, 0;
      var ids := Sorted(requested.Keys);
      InsertFoldAll(keys, requested, ids);
      assert forall i | 0 <= i < |ids| :: ids[i] in requested;
      for k := 0 to |ids|
        invariant wider == InsertFold(keys, requested, ids[..k]).0
        invariant added == InsertFold(keys, requested, ids[..k]).1
      {
        assert ids[..k + 1][..k] == ids[..k];
        var id := ids[k];
        var key := requested[id];
        if key != STATE_ARCHIVAL_KEY {
          if id !in wider {
            added := added + 1;
          }
          wider := wider[id := key];
        }
      }
      assert ids[..|ids|] == ids;
    }

    /** One pass of the scenario and the decision about it. */
    method RunRound(program: Program, keys: Keys, m: Materialized) returns (verdict: Verdict)
      modifies transport
      ensures var pass := RunPass(transport.provider, old(transport.calls), program, m);
        && EndOf(program, m, pass).End?
        && verdict == Judge(keys, pass, EndOf(program, m, pass))
        && transport.calls == pass.n
    {
      hide StoredKeys, Encodes, NewCount;
      var local := new LocalLedger();
      var source := new TrackingSource(m.coverage, transport, local);
      var scenario := program(InputOf(m.info, m.coverage));
      ghost var pass := RunPass(transport.provider, transport.calls, program, m);
      var stored, history := source.RunScenario(scenario);
      var end := scenario.next(history);
      assert pass == Pass(source.View(), transport.calls, stored, history);
      if source.failure.Some? {
        return Stop(Transport(source.failure.value));
      }
      if !end.inspectable {
        return Stop(HostInspection);
      }
      var requested := InsertStored(source.requested, stored, local.View());
      if requested.Err? {
        return Stop(requested.error);
      }
      var wider, added := InsertRequested(keys, requested.value);
      AddedNothing(keys, wider);
      if added != 0 {
        return More(wider);
      }
      if end.panicked {
        return Stop(ScenarioPanicked);
      }
      if source.rpcReads != 0 {
        return Stop(InternalInvariant);
      }
      return Fixed;
    }

    /** `capture_ref_from_keys`. */
    method CaptureFromKeys(program: Program, seed: Keys) returns (r: Result<CapturedFixture, CaptureError>)
      modifies transport
      ensures var capture := CaptureFrom(config, transport.provider, old(transport.calls), program, seed);
        r == FixtureOf(capture.0) && transport.calls == capture.1
    {
      hide Judge, Seal, Refetch, RunPass, ValidateNetwork;
      var _ :- CheckNetwork();
      var closed :- FetchClosed(seed);
      var keys, m := closed.0, closed.1;
      ghost var first := Rounds(config, transport.provider, transport.calls, program, keys, m, 1);
      for round := 1 to config.maxDiscoveryRounds + 1
        invariant first == Rounds(config, transport.provider, transport.calls, program, keys, m, round)
      {
        var verdict := RunRound(program, keys, m);
        match verdict {
          case Stop(error) => return Err(error);
          case More(wider) =>
            closed :- FetchClosed(wider);
            keys, m := closed.0, closed.1;
          case Fixed =>
            r := Seal(config, m, round);
            return;
        }
      }
      return Err(FixedPointLimit(config.maxDiscoveryRounds));
    }
  }

  /** `replay_with_local`: one strict pass, no transport. */
  method ReplayWithLocal(f: CapturedFixture, program: Program) returns (r: Result<(), CaptureError>)
    ensures r == Replay(f, program)
  {
    var local := new LocalLedger();
    var source := new TrackingSource(f.coverage, null, local);
    var scenario := program(InputOf(f.fixture.snapshot.info, f.coverage));
    var stored, history := source.RunScenario(scenario);
    var end := scenario.next(history);
    ghost var pass := ReplayPass(f, program);
    assert pass == Pass(source.View(), 0, stored, history);
    if !end.inspectable {
      return Err(HostInspection);
    }
    var unknown := UnknownStored(source.unknown, stored, local.View(), f.coverage);
    if unknown.Err? {
      return Err(unknown.error);
    }
    if unknown.value != {} {
      return Err(UnknownLedgerKeys(|unknown.value|));
    }
    if end.panicked {
      return Err(ScenarioPanicked);
    }
    return Ok(());
  }

  /** Stored entries outside the coverage join the unknown keys. */
  method UnknownStored(start: set<KeyId>, stored: seq<LedgerKey>, local: Local, coverage: Coverage)
    returns (r: Result<set<KeyId>, CaptureError>)
    ensures r == if Encodes(stored, local) then Ok(start + (StoredKeys(stored, local).Keys - coverage.Keys))
        else Err(Xdr)
  {
    hide StoredKeys, Encodes;
    StoredFoldFromNothing(stored, local);
    var unknown := start;
    ghost var keys: Keys := map[];
    for k := 0 to |stored|
      invariant StoredFold(map[], stored[..k], local) == Some(keys)
      invariant unknown == Outside(start, keys.Keys, coverage.Keys)
    {
      hide Outside, StoredFold;
      StoredFoldStep(map[], stored, local, k);
      if !local.Owns(stored[k]) {
        var id := KeyXdr(stored[k]);
        if id.None? {
          StoredFoldFails(map[], stored, local, k + 1);
          return Err(Xdr);
        }
        UpdatedKeys(keys, id.value, stored[k]);
        OutsideStep(start, keys.Keys, coverage.Keys, id.value);
        keys := keys[id.value := stored[k]];
        if id.value !in coverage {
          unknown := unknown + {id.value};
        }
      }
    }
    assert stored[..|stored|] == stored;
    StoredFoldFromNothing(stored, local);
    return Ok(unknown);
  }

  ghost function Outside(start: set<KeyId>, keys: set<KeyId>, covered: set<KeyId>): set<KeyId> {
    start + (keys - covered)
  }

  lemma OutsideStep(start: set<KeyId>, keys: set<KeyId>, covered: set<KeyId>, id: KeyId)
    ensures Outside(start, keys + {id}, covered)
         == if id in covered then Outside(start, keys, covered) else Outside(start, keys, covered) + {id}
  {
  }

  lemma StoredFoldStep(start: Keys, stored: seq<LedgerKey>, local: Local, k: nat)
    requires k < |stored| && StoredFold(start, stored[..k], local).Some?
    ensures StoredFold(start, stored[..k + 1], local)
         == if local.Owns(stored[k]) then StoredFold(start, stored[..k], local)
            else if KeyXdr(stored[k]).None? then None
            else Some(StoredFold(start, stored[..k], local).value[KeyXdr(stored[k]).value := stored[k]])
  {
    assert stored[..k + 1][..k] == stored[..k];
  }

  lemma StoredFoldFromNothing(stored: seq<LedgerKey>, local: Local)
    ensures Encodes(stored, local) ==> StoredFold(map[], stored, local) == Some(StoredKeys(stored, local))
    ensures StoredFold(map[], stored, local).Some? <==> Encodes(stored, local)
  {
    hide StoredKeys, Encodes, StoredFold;
    StoredFoldAdds(map[], stored, local);
    if Encodes(stored, local) {
      assert map[] + StoredKeys(stored, local) == StoredKeys(stored, local);
    }
  }

  /** The loop over stored entries; none at the first key without XDR. */
  function StoredFold(start: Keys, stored: seq<LedgerKey>, local: Local): Option<Keys> {
    if stored == [] then Some(start)
    else
      var last := stored[|stored| - 1];
      match StoredFold(start, stored[..|stored| - 1], local)
      case None => None
      case Some(keys) =>
        if local.Owns(last) then Some(keys)
        else
          match KeyXdr(last)
          case None => None
          case Some(id) => Some(keys[id := last])
  }

  lemma {:induction false} StoredFoldAdds(start: Keys, stored: seq<LedgerKey>, local: Local)
    ensures StoredFold(start, stored, local).Some? <==> Encodes(stored, local)
    ensures Encodes(stored, local) ==> StoredFold(start, stored, local) == Some(start + StoredKeys(stored, local))
  {
    if stored != [] {
      var init, last := stored[..|stored| - 1], stored[|stored| - 1];
      assert stored == init + [last];
      StoredFoldAdds(start, init, local);
      assert forall k :: k in stored <==> k in init || k == last;
      if Encodes(stored, local) && !local.Owns(last) {
        UpdateRight(start, StoredKeys(init, local), KeyXdr(last).value, last);
      }
    } else {
      assert start + map[] == start;
    }
  }

  lemma UpdateRight(a: Keys, b: Keys, id: KeyId, key: LedgerKey)
    ensures (a + b)[id := key] == a + b[id := key]
  {
  }

  lemma {:induction false} StoredFoldFails(start: Keys, stored: seq<LedgerKey>, local: Local, k: nat)
    requires k <= |stored| && StoredFold(start, stored[..k], local).None?
    ensures StoredFold(start, stored, local).None?
    decreases |stored|
  {
    var n := |stored| - 1;
    if k <= n {
      assert stored[..n][..k] == stored[..k];
      StoredFoldFails(start, stored[..n], local, k);
    } else {
      assert stored[..k] == stored;
    }
  }

  /** The loop over requested keys: the grown map, and how many insertions were new. */
  function InsertFold(keys: Keys, requested: Keys, ids: seq<KeyId>): (Keys, nat) {
    if ids == [] then (keys, 0)
    else
      var id := ids[|ids| - 1];
      var (wider, added) := InsertFold(keys, requested, ids[..|ids| - 1]);
      if id in requested && requested[id] != STATE_ARCHIVAL_KEY then
        (wider[id := requested[id]], if id in wider then added else added + 1)
      else (wider, added)
  }

  lemma {:induction false} InsertFoldAdds(keys: Keys, requested: Keys, ids: seq<KeyId>)
    ensures var (wider, added) := InsertFold(keys, requested, ids);
      wider == keys + Taken(requested, ids) && added == |wider.Keys - keys.Keys|
  {
    if ids != [] {
      var init, id := ids[..|ids| - 1], ids[|ids| - 1];
      InsertFoldAdds(keys, requested, init);
      if id in requested && requested[id] != STATE_ARCHIVAL_KEY {
        InsertOne(keys, Taken(requested, init), id, requested[id]);
      }
    }
  }

  lemma InsertFoldAll(keys: Keys, requested: Keys, ids: seq<KeyId>)
    requires ids == Sorted(requested.Keys)
    ensures forall i | 0 <= i < |ids| :: ids[i] in requested
    ensures var (wider, added) := InsertFold(keys, requested, ids);
      wider == keys + NetworkKeys(requested) && added == NewCount(keys, wider)
  {
    hide NetworkKeys, InsertFold, Taken;
    InsertFoldAdds(keys, requested, ids);
    TakenAll(requested, ids);
    assert forall i | 0 <= i < |ids| :: ids[i] in ids;
  }

  lemma InsertOne(keys: Keys, taken: Keys, id: KeyId, key: LedgerKey)
    ensures var before := keys + taken;
      && before[id := key] == keys + taken[id := key]
      && |before[id := key].Keys - keys.Keys| == |before.Keys - keys.Keys| + if id in before then 0 else 1
  {
    var before := keys + taken;
    UpdateRight(keys, taken, id, key);
    UpdatedKeys(before, id, key);
    assert keys.Keys <= before.Keys;
    CountNew(keys.Keys, before.Keys, id);
  }

  lemma UpdatedKeys(keys: Keys, id: KeyId, key: LedgerKey)
    ensures keys[id := key].Keys == keys.Keys + {id}
  {
  }

  /** The network part of the first of `ids`. */
  function Taken(requested: Keys, ids: seq<KeyId>): Keys {
    if ids == [] then map[]
    else
      var rest, id := Taken(requested, ids[..|ids| - 1]), ids[|ids| - 1];
      if id in requested && requested[id] != STATE_ARCHIVAL_KEY then rest[id := requested[id]] else rest
  }

  lemma {:induction false} TakenMembers(requested: Keys, ids: seq<KeyId>, id: KeyId)
    ensures id in Taken(requested, ids) <==> id in ids && id in requested && requested[id] != STATE_ARCHIVAL_KEY
    ensures id in Taken(requested, ids) ==> Taken(requested, ids)[id] == requested[id]
  {
    if ids != [] {
      var n := |ids| - 1;
      TakenMembers(requested, ids[..n], id);
      assert id in ids <==> id in ids[..n] || id == ids[n];
    }
  }

  lemma TakenAll(requested: Keys, ids: seq<KeyId>)
    requires ids == Sorted(requested.Keys)
    ensures Taken(requested, ids) == NetworkKeys(requested)
  {
    forall id ensures id in Taken(requested, ids) <==> id in NetworkKeys(requested) {
      TakenMembers(requested, ids, id);
    }
    forall id | id in NetworkKeys(requested) ensures Taken(requested, ids)[id] == requested[id] {
      TakenMembers(requested, ids, id);
    }
  }

  lemma CountNew(keys: set<KeyId>, wider: set<KeyId>, id: KeyId)
    requires keys <= wider
    ensures |(wider + {id}) - keys| == |wider - keys| + if id in wider then 0 else 1
  {
    if id in wider {
      assert wider + {id} == wider;
    } else {
      assert (wider + {id}) - keys == (wider - keys) + {id};
    }
  }

  function FixtureOf(r: Result<Settled, CaptureError>): Result<CapturedFixture, CaptureError> {
    match r
    case Ok(s) => Ok(s.fixture)
    case Err(e) => Err(e)
  }

  function Prepend(head: seq<LedgerKey>, r: Result<seq<LedgerKey>, CaptureError>): Result<seq<LedgerKey>,
                   CaptureError> {
    match r
    case Ok(tail) => Ok(head + tail)
    case Err(e) => Err(e)
  }

  lemma PrependNothing(r: Result<seq<LedgerKey>, CaptureError>)
    ensures Prepend([], r) == r
  {
    if r.Ok? {
      assert [] + r.value == r.value;
    }
  }

  lemma PrependAssociates(a: seq<LedgerKey>, b: seq<LedgerKey>, r: Result<seq<LedgerKey>, CaptureError>)
    ensures Prepend(a, Prepend(b, r)) == Prepend(a + b, r)
  {
    if r.Ok? {
      assert a + (b + r.value) == a + b + r.value;
    }
  }

  /** How many keys `wider` has beyond `keys`. */
  function NewCount(keys: Keys, wider: Keys): nat {
    |wider.Keys - keys.Keys|
  }

  lemma AddedNothing(keys: Keys, wider: Keys)
    requires keys.Keys <= wider.Keys
    ensures NewCount(keys, wider) == 0 <==> wider.Keys == keys.Keys
  {
    if |wider.Keys - keys.Keys| == 0 {
      assert wider.Keys - keys.Keys == {};
    }
  }

  lemma {:induction false} AddKeysFailure(keys: Keys, required: seq<LedgerKey>, k: nat)
    requires k < |required| && AddKeys(keys, required[..k]).Ok? && KeyXdr(required[k]).None?
    ensures AddKeys(keys, required) == Err(Xdr)
    decreases |required|
  {
    var n := |required| - 1;
    if k < n {
      assert required[..n][..k] == required[..k];
      AddKeysFailure(keys, required[..n], k);
    }
  }

  lemma {:induction false} AbsorbFailure(chunk: seq<KeyId>, returned: map<KeyId, LedgerValue>, configId: KeyId,
                                         so: Fetched, k: nat)
    requires k < |chunk| && AbsorbChunk(chunk[..k], returned, configId, so).Ok?
    requires chunk[k] == configId && ExtractArchival(Get(returned, configId)).Err?
    ensures AbsorbChunk(chunk, returned, configId, so) == Err(ExtractArchival(Get(returned, configId)).error)
    decreases |chunk|
  {
    var n := |chunk| - 1;
    if k < n {
      assert chunk[..n][..k] == chunk[..k];
      AbsorbFailure(chunk[..n], returned, configId, so, k);
    }
  }
}
