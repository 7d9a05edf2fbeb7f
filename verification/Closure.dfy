/**
 Closing captured contract instances over the code they execute
 (`expand_code_closure`, src/capture.rs).
 */
module Closure {
  import opened Wrappers
  import opened Bytes
  import opened Ledger
  import opened Errors
  import opened CoverageChecks
  import opened Providers
  import opened Materialization

  const MAX_EXECUTABLE_CLOSURE_ROUNDS: nat := 16

  /** Inserting keys under their ids; fails at the first key without XDR. */
  function AddKeys(keys: Keys, required: seq<LedgerKey>): (r: Result<Keys, CaptureError>)
    ensures r.Err? ==> r.error == Xdr
  {
    if required == [] then Ok(keys)
    else
      var last := required[|required| - 1];
      var rest :- AddKeys(keys, required[..|required| - 1]);
      match KeyXdr(last)
      case None => Err(Xdr)
      case Some(id) => Ok(rest[id := last])
  }

  /** The rounds from `round` on; the last one may not fetch again. */
  function Expand(config: Settings, p: Provider, n: nat, keys: Keys, m: Materialized, round: nat)
    : (r: (Result<(Keys, Materialized), CaptureError>, nat))
    ensures r.0.Err? ==> r.0.error.IsOrdinary() || r.0.error.IncoherentLedger? || r.0.error.ExecutableClosureLimit?
    decreases MAX_EXECUTABLE_CLOSURE_ROUNDS + 1 - round
  {
    if round > MAX_EXECUTABLE_CLOSURE_ROUNDS then (Err(ExecutableClosureLimit(MAX_EXECUTABLE_CLOSURE_ROUNDS)), n)
    else
      match RequiredKeys(m.coverage)
      case Err(e) => (Err(e), n)
      case Ok(required) =>
        match AddKeys(keys, required)
        case Err(e) => (Err(e), n)
        case Ok(wider) =>
          if wider.Keys == keys.Keys then
            match EnsureClosure(m.coverage)
            case Err(e) => (Err(e), n)
            case Ok(_) => (Ok((wider, m)), n)
          else if round < MAX_EXECUTABLE_CLOSURE_ROUNDS then
            var (next, k) := Materialize(config, p, n, wider);
            match next
            case Err(e) => (Err(e), k)
            case Ok(value) => Expand(config, p, k, wider, value, round + 1)
          else
            Expand(config, p, n, wider, m, round + 1)
  }

  lemma {:induction false} AddedKeys(keys: Keys, required: seq<LedgerKey>)
    requires WellKeyed(keys) && AddKeys(keys, required).Ok?
    ensures var wider := AddKeys(keys, required).value;
      && WellKeyed(wider)
      && (forall id | id in keys :: id in wider && wider[id] == keys[id])
      && (forall id | id in wider :: id in keys || wider[id] in required)
      && (forall key | key in required :: KeyXdr(key).Some? && KeyXdr(key).value in wider)
  {
    if required != [] {
      var n := |required| - 1;
      AddedKeys(keys, required[..n]);
      var rest := AddKeys(keys, required[..n]).value;
      var id := KeyXdr(required[n]).value;
      if id in rest {
        KeyXdrInjective(rest[id], required[n]);
      }
      assert forall key | key in required :: key in required[..n] || key == required[n];
    }
  }

  /** The kinds of key that the closure adds. */
  predicate IsClosureKey(key: LedgerKey) {
    key.ContractCode? || (key.ContractData? && key.key.ExecutableTag? && key.durability == Persistent)
  }

  lemma RequiredAreClosureKeys(coverage: Coverage)
    requires RequiredKeys(coverage).Ok?
    ensures forall key | key in RequiredKeys(coverage).value :: IsClosureKey(key)
  {
    hide RequiredKeys;
    forall key | key in RequiredKeys(coverage).value ensures IsClosureKey(key) {
      RequiredKeysMembers(coverage, key);
      var id :| id in coverage && key in RequiredByState(coverage, coverage[id]).value;
    }
  }

  /** `wider` is `keys` with closure keys added. */
  ghost predicate Widens(keys: Keys, wider: Keys) {
    && WellKeyed(wider)
    && (forall id | id in keys :: id in wider && wider[id] == keys[id])
    && (forall id | id in wider :: id in keys || IsClosureKey(wider[id]))
  }

  lemma RequiredWiden(keys: Keys, coverage: Coverage)
    requires WellKeyed(keys) && RequiredKeys(coverage).Ok? && AddKeys(keys, RequiredKeys(coverage).value).Ok?
    ensures Widens(keys, AddKeys(keys, RequiredKeys(coverage).value).value)
  {
    AddedKeys(keys, RequiredKeys(coverage).value);
    RequiredAreClosureKeys(coverage);
  }

  lemma WidensTransitive(a: Keys, b: Keys, c: Keys)
    requires Widens(a, b) && Widens(b, c)
    ensures Widens(a, c)
  {
  }

  lemma SameKeysWhenNothingAdded(keys: Keys, required: seq<LedgerKey>)
    requires WellKeyed(keys) && AddKeys(keys, required).Ok? && AddKeys(keys, required).value.Keys == keys.Keys
    ensures AddKeys(keys, required).value == keys
  {
    AddedKeys(keys, required);
  }

  /** Every captured instance leads to code that is Present in the same coverage. */
  ghost predicate ClosedOver(coverage: Coverage) {
    forall id | id in coverage && ExecutableOf(coverage[id]).Some? ::
      Runnable(coverage, ExecutableOf(coverage[id]).value)
  }

  /** A finished closure: keys only grew, by closure keys, and one materialization covers them. */
  ghost predicate Closed(keys: Keys, wider: Keys, m: Materialized, config: Settings, p: Provider) {
    && Widens(keys, wider)
    && Grounded(m, config, wider, p)
    && EnsureClosure(m.coverage).Ok?
    && ClosedOver(m.coverage)
  }

  lemma ClosedFrom(keys: Keys, wider: Keys, last: Keys, m: Materialized, config: Settings, p: Provider)
    requires Widens(keys, wider) && Closed(wider, last, m, config, p)
    ensures Closed(keys, last, m, config, p)
  {
    hide Grounded, EnsureClosure, ClosedOver;
    WidensTransitive(keys, wider, last);
  }

  lemma ClosedNow(keys: Keys, m: Materialized, config: Settings, p: Provider)
    requires WellKeyed(keys) && Grounded(m, config, keys, p) && EnsureClosure(m.coverage).Ok?
    ensures Closed(keys, keys, m, config, p)
  {
    hide Grounded, EnsureClosure, ClosedOver;
    EnsureClosureIsClosedOver(m.coverage);
  }

  /**
   On success the keys only grow, only by code and reference keys; the result is
   one materialization of exactly those keys, coherent if the provider is honest,
   and every instance in it can run.
   */
  lemma {:induction false} ExpandCloses(config: Settings, p: Provider, n: nat, keys: Keys, m: Materialized,
                                        round: nat)
    requires WellKeyed(keys) && Grounded(m, config, keys, p)
    requires Expand(config, p, n, keys, m, round).0.Ok?
    ensures var (wider, closed) := Expand(config, p, n, keys, m, round).0.value;
      Closed(keys, wider, closed, config, p)
    decreases MAX_EXECUTABLE_CLOSURE_ROUNDS + 1 - round
  {
    hide Grounded, RequiredKeys, EnsureClosure, Closed, AddKeys, Materialize, WellKeyed;
    var required := RequiredKeys(m.coverage).value;
    var wider := AddKeys(keys, required).value;
    RequiredWiden(keys, m.coverage);
    if wider.Keys == keys.Keys {
      hide Widens;
      SameKeysWhenNothingAdded(keys, required);
      ClosedNow(keys, m, config, p);
    } else if round < MAX_EXECUTABLE_CLOSURE_ROUNDS {
      WidensWellKeyed(keys, wider);
      hide Widens;
      MaterializeIsGrounded(config, p, n, wider);
      var (next, k) := Materialize(config, p, n, wider);
      ExpandCloses(config, p, k, wider, next.value, round + 1);
      var (last, closed) := Expand(config, p, n, keys, m, round).0.value;
      ClosedFrom(keys, wider, last, closed, config, p);
    }
  }

  lemma WidensWellKeyed(keys: Keys, wider: Keys)
    requires Widens(keys, wider)
    ensures WellKeyed(wider)
  {
  }

  lemma EnsureClosureIsClosedOver(coverage: Coverage)
    ensures EnsureClosure(coverage).Ok? <==> ClosedOver(coverage)
  {
    EnsureClosureMeansRunnable(coverage);
  }

  // ----- Termination on an unchanging ledger -----

  predicate Has(keys: Keys, key: LedgerKey) {
    KeyXdr(key).Some? && KeyXdr(key).value in keys
  }

  /** Direct code and reference keys of every instance are among the keys. */
  ghost predicate RefsIn(keys: Keys, coverage: Coverage) {
    forall id | id in coverage ::
      match ExecutableOf(coverage[id])
      case Some(Wasm(hash)) => Has(keys, CodeKey(hash))
      case Some(ExternalRef(owner, tag)) => Has(keys, ReferenceKey(owner, tag))
      case _ => true
  }

  /** So is the code that every reference entry points at. */
  ghost predicate CodesIn(keys: Keys, coverage: Coverage) {
    forall id | id in coverage ::
      match ExecutableOf(coverage[id])
      case Some(ExternalRef(owner, tag)) =>
        var code := ExternalRefCodeKey(coverage, owner, tag);
        code.Ok? && code.value.Some? ==> Has(keys, code.value.value)
      case _ => true
  }

  /** Coverage taken whole from one well-formed ledger. */
  ghost predicate OnLedger(coverage: Coverage, keys: Keys, ledger: ChainLedger) {
    && WellKeyed(keys)
    && (forall id :: id in coverage <==> id in keys && !IsConfigId(id))
    && (forall id | id in coverage :: coverage[id] == ledger.Lookup(keys[id]))
    && (forall id | id in coverage && coverage[id].Present? :: coverage[id].entry.ToKey() == keys[id])
  }

  lemma ClosureKeyNotConfig(key: LedgerKey)
    requires IsClosureKey(key) && KeyXdr(key).Some?
    ensures !IsConfigId(KeyXdr(key).value)
  {
    if IsConfigId(KeyXdr(key).value) {
      KeyXdrInjective(key, STATE_ARCHIVAL_KEY);
    }
  }

  lemma Covered(coverage: Coverage, keys: Keys, ledger: ChainLedger, key: LedgerKey)
    requires OnLedger(coverage, keys, ledger) && IsClosureKey(key) && Has(keys, key)
    ensures KeyXdr(key).value in coverage && coverage[KeyXdr(key).value] == ledger.Lookup(key)
  {
    ClosureKeyNotConfig(key);
    KeyXdrInjective(keys[KeyXdr(key).value], key);
  }

  /** What one fetching round makes of the coverage: everything that was required is now among the keys. */
  lemma RequiredIn(keys: Keys, coverage: Coverage, wider: Keys, id: KeyId)
    requires WellKeyed(keys) && RequiredKeys(coverage).Ok? && AddKeys(keys, RequiredKeys(coverage).value) == Ok(wider)
    requires id in coverage
    ensures RequiredByState(coverage, coverage[id]).Ok?
    ensures forall key | key in RequiredByState(coverage, coverage[id]).value :: Has(wider, key)
  {
    AddedKeys(keys, RequiredKeys(coverage).value);
    RequiredKeysMembers(coverage, STATE_ARCHIVAL_KEY);
    forall key | key in RequiredByState(coverage, coverage[id]).value ensures Has(wider, key) {
      RequiredKeysMembers(coverage, key);
    }
  }

  /** A reference entry that holds an instance is malformed for whoever refers to it. */
  lemma InstanceInReferenceFails(coverage: Coverage, from: KeyId, id: KeyId)
    requires from in coverage && id in coverage && ExecutableOf(coverage[id]).Some?
    requires ExecutableOf(coverage[from]).Some? && ExecutableOf(coverage[from]).value.ExternalRef?
    requires var e := ExecutableOf(coverage[from]).value; KeyXdr(ReferenceKey(e.owner, e.tag)) == Some(id)
    ensures RequiredByState(coverage, coverage[from]).Err?
  {
  }

  /** A data key is required only as somebody's reference. */
  lemma RequiredDataKey(coverage: Coverage, from: KeyId, key: LedgerKey)
    requires from in coverage && RequiredByState(coverage, coverage[from]).Ok?
    requires key in RequiredByState(coverage, coverage[from]).value && !key.ContractCode?
    ensures ExecutableOf(coverage[from]).Some? && ExecutableOf(coverage[from]).value.ExternalRef?
    ensures var e := ExecutableOf(coverage[from]).value; key == ReferenceKey(e.owner, e.tag)
  {
  }

  /** Added keys answer to code entries, reference entries, or nothing; kept keys keep their states. */
  lemma AddedState(keys: Keys, coverage: Coverage, wider: Keys, next: Coverage, ledger: ChainLedger, id: KeyId)
    requires OnLedger(coverage, keys, ledger) && OnLedger(next, wider, ledger)
    requires RequiredKeys(coverage).Ok? && AddKeys(keys, RequiredKeys(coverage).value) == Ok(wider)
    requires id in next
    ensures id in wider
    ensures id in keys ==> id in coverage && next[id] == coverage[id]
    ensures id !in keys ==> wider[id] in RequiredKeys(coverage).value && KeyXdr(wider[id]) == Some(id)
    ensures id !in keys && ExecutableOf(next[id]).Some? ==> !wider[id].ContractCode?
    ensures forall from | from in coverage :: from in next && next[from] == coverage[from]
  {
    hide RequiredKeys;
    AddedKeys(keys, RequiredKeys(coverage).value);
  }

  /**
   If the round after an addition gets anywhere, no new instance has appeared:
   an added reference entry holding one would have made it fail.
   */
  lemma NoNewInstances(keys: Keys, coverage: Coverage, wider: Keys, next: Coverage, ledger: ChainLedger, id: KeyId)
    requires OnLedger(coverage, keys, ledger) && OnLedger(next, wider, ledger)
    requires RequiredKeys(coverage).Ok? && AddKeys(keys, RequiredKeys(coverage).value) == Ok(wider)
    requires RequiredKeys(next).Ok?
    requires id in next && ExecutableOf(next[id]).Some?
    ensures id in coverage && coverage[id] == next[id]
  {
    hide OnLedger, RequiredKeys, AddKeys, RequiredByState, ExecutableOf;
    AddedState(keys, coverage, wider, next, ledger, id);
    if id !in keys {
      var key := wider[id];
      RequiredKeysMembers(coverage, key);
      var from :| from in coverage && key in RequiredByState(coverage, coverage[from]).value;
      RequiredDataKey(coverage, from, key);
      InstanceInReferenceFails(next, from, id);
      RequiredKeysMembers(next, key);
      assert false;
    }
  }

  lemma RefsAfterOneRound(keys: Keys, coverage: Coverage, wider: Keys, next: Coverage, ledger: ChainLedger)
    requires OnLedger(coverage, keys, ledger) && OnLedger(next, wider, ledger)
    requires RequiredKeys(coverage).Ok? && AddKeys(keys, RequiredKeys(coverage).value) == Ok(wider)
    requires RequiredKeys(next).Ok?
    ensures RefsIn(wider, next)
  {
    hide OnLedger, RequiredKeys;
    forall id | id in next && ExecutableOf(next[id]).Some?
      ensures match ExecutableOf(next[id]).value
              case Wasm(hash) => Has(wider, CodeKey(hash))
              case ExternalRef(owner, tag) => Has(wider, ReferenceKey(owner, tag))
              case StellarAsset => true
    {
      NoNewInstances(keys, coverage, wider, next, ledger, id);
      OnLedgerWellKeyed(coverage, keys, ledger);
      RequiredIn(keys, coverage, wider, id);
      RequiredShape(coverage, id);
    }
  }

  lemma OnLedgerWellKeyed(coverage: Coverage, keys: Keys, ledger: ChainLedger)
    requires OnLedger(coverage, keys, ledger)
    ensures WellKeyed(keys)
  {
  }

  lemma RequiredShape(coverage: Coverage, id: KeyId)
    requires id in coverage && RequiredByState(coverage, coverage[id]).Ok?
    ensures var required := RequiredByState(coverage, coverage[id]).value;
      match ExecutableOf(coverage[id])
      case Some(Wasm(hash)) => CodeKey(hash) in required
      case Some(ExternalRef(owner, tag)) =>
        && ReferenceKey(owner, tag) in required
        && ExternalRefCodeKey(coverage, owner, tag).Ok?
        && var code := ExternalRefCodeKey(coverage, owner, tag).value;
           code.Some? ==> code.value in required
      case _ => true
  {
  }

  lemma CodesAfterTwoRounds(keys: Keys, coverage: Coverage, wider: Keys, next: Coverage, ledger: ChainLedger)
    requires OnLedger(coverage, keys, ledger) && OnLedger(next, wider, ledger)
    requires RequiredKeys(coverage).Ok? && AddKeys(keys, RequiredKeys(coverage).value) == Ok(wider)
    requires RequiredKeys(next).Ok?
    requires RefsIn(keys, coverage)
    ensures CodesIn(wider, next)
  {
    hide RequiredKeys, ExternalRefCodeKey, AddKeys, OnLedger, IsClosureKey;
    forall id | id in next && ExecutableOf(next[id]).Some? && ExecutableOf(next[id]).value.ExternalRef?
      ensures var e := ExecutableOf(next[id]).value;
        var code := ExternalRefCodeKey(next, e.owner, e.tag);
        code.Ok? && code.value.Some? ==> Has(wider, code.value.value)
    {
      NoNewInstances(keys, coverage, wider, next, ledger, id);
      var e := ExecutableOf(next[id]).value;
      var key := ReferenceKey(e.owner, e.tag);
      assert Has(keys, key);
      OnLedgerWellKeyed(coverage, keys, ledger);
      AddedKeys(keys, RequiredKeys(coverage).value);
      ReferenceIsClosureKey(e.owner, e.tag);
      Covered(coverage, keys, ledger, key);
      Covered(next, wider, ledger, key);
      SameReference(coverage, next, e.owner, e.tag);
      RequiredIn(keys, coverage, wider, id);
      RequiredShape(coverage, id);
    }
  }

  lemma ReferenceIsClosureKey(owner: ScAddress, tag: Vec8)
    ensures IsClosureKey(ReferenceKey(owner, tag))
  {
  }

  /** A reference read the same in two coverages points at the same code. */
  lemma SameReference(a: Coverage, b: Coverage, owner: ScAddress, tag: Vec8)
    requires KeyXdr(ReferenceKey(owner, tag)).Some?
    requires var id := KeyXdr(ReferenceKey(owner, tag)).value; id in a && id in b && a[id] == b[id]
    ensures ExternalRefCodeKey(a, owner, tag) == ExternalRefCodeKey(b, owner, tag)
  {
  }

  lemma RequiredAlreadyIn(keys: Keys, coverage: Coverage, from: KeyId, key: LedgerKey)
    requires RefsIn(keys, coverage) && CodesIn(keys, coverage)
    requires from in coverage && RequiredByState(coverage, coverage[from]).Ok?
    requires key in RequiredByState(coverage, coverage[from]).value
    ensures Has(keys, key)
  {
    hide ExternalRefCodeKey;
  }

  /** With references and codes in place a round adds nothing. */
  lemma NothingLeft(keys: Keys, coverage: Coverage)
    requires WellKeyed(keys) && RefsIn(keys, coverage) && CodesIn(keys, coverage)
    requires RequiredKeys(coverage).Ok? && AddKeys(keys, RequiredKeys(coverage).value).Ok?
    ensures AddKeys(keys, RequiredKeys(coverage).value).value.Keys == keys.Keys
  {
    hide RefsIn, CodesIn, RequiredKeys, AddKeys, RequiredByState;
    var required := RequiredKeys(coverage).value;
    AddedKeys(keys, required);
    var wider := AddKeys(keys, required).value;
    forall id | id in wider ensures id in keys {
      if wider[id] in required {
        var key := wider[id];
        RequiredKeysMembers(coverage, key);
        var from :| from in coverage && key in RequiredByState(coverage, coverage[from]).value;
        RequiredAlreadyIn(keys, coverage, from, key);
        assert KeyXdr(key) == Some(id);
      }
    }
  }

  /** The checks on entries make sure that a ledger's entries are served under their own keys. */
  lemma CoherentOnLedger(m: Materialized, config: Settings, keys: Keys, chain: Chain)
    requires Coherent(m, config, keys, chain) && WellKeyed(keys)
    ensures OnLedger(m.coverage, keys, chain(m.anchor.sequence))
  {
    hide CheckState, ValidateCoverage;
    forall id | id in m.coverage && m.coverage[id].Present? ensures m.coverage[id].entry.ToKey() == keys[id] {
      CheckedUnderOwnKey(id, m.coverage[id], m.info.sequenceNumber, m.info.maxEntryTtl);
      KeyXdrInjective(m.coverage[id].entry.ToKey(), keys[id]);
    }
  }

  lemma CheckedUnderOwnKey(id: KeyId, state: LookupState, sequence: u32, maxEntryTtl: u32)
    requires state.Present? && CheckState(id, state, sequence, maxEntryTtl).Ok?
    ensures KeyXdr(state.entry.ToKey()) == Some(id)
  {
    hide ValidEntryMetadata;
  }

  /** Rounds still needed when references (and codes) are known to be among the keys. */
  ghost function RoundsNeeded(keys: Keys, coverage: Coverage): (r: nat)
    ensures r <= 2
  {
    if RefsIn(keys, coverage) then (if CodesIn(keys, coverage) then 0 else 1) else 2
  }

  /** One fetching round on an unchanging ledger makes progress or fails for another reason. */
  lemma FetchingRound(config: Settings, p: Provider, n: nat, keys: Keys, m: Materialized, wider: Keys,
                      ledger: ChainLedger)
    requires Unchanging(p, ledger) && config.maxCoherenceAttempts > 0
    requires WellKeyed(keys) && Coherent(m, config, keys, s => ledger)
    requires RequiredKeys(m.coverage).Ok? && AddKeys(keys, RequiredKeys(m.coverage).value) == Ok(wider)
    requires wider.Keys != keys.Keys
    ensures RoundsNeeded(keys, m.coverage) > 0
    ensures var r := Materialize(config, p, n, wider).0;
      && (r.Err? ==> !r.error.IsLimit())
      && (r.Ok? ==>
            && WellKeyed(wider) && Coherent(r.value, config, wider, s => ledger)
            && (RequiredKeys(r.value.coverage).Ok? ==>
                  RoundsNeeded(wider, r.value.coverage) < RoundsNeeded(keys, m.coverage)))
  {
    hide RequiredKeys, AddKeys, OnLedger, RefsIn, CodesIn, Validated, Unchanging;
    CoherentOnLedger(m, config, keys, s => ledger);
    if RefsIn(keys, m.coverage) && CodesIn(keys, m.coverage) {
      NothingLeft(keys, m.coverage);
    }
    AddedKeys(keys, RequiredKeys(m.coverage).value);
    UnchangingNeverIncoherent(config, p, n, wider, ledger);
    var r := Materialize(config, p, n, wider).0;
    if r.Ok? {
      CoherentOnLedger(r.value, config, wider, s => ledger);
      NextRound(keys, m.coverage, wider, r.value.coverage, ledger);
    }
  }

  lemma NextRound(keys: Keys, coverage: Coverage, wider: Keys, next: Coverage, ledger: ChainLedger)
    requires OnLedger(coverage, keys, ledger) && OnLedger(next, wider, ledger)
    requires RequiredKeys(coverage).Ok? && AddKeys(keys, RequiredKeys(coverage).value) == Ok(wider)
    requires wider.Keys != keys.Keys
    ensures RequiredKeys(next).Ok? ==> RoundsNeeded(wider, next) < RoundsNeeded(keys, coverage)
  {
    hide RequiredKeys, AddKeys, RefsIn, CodesIn;
    if RequiredKeys(next).Ok? {
      RefsAfterOneRound(keys, coverage, wider, next, ledger);
      if RefsIn(keys, coverage) {
        CodesAfterTwoRounds(keys, coverage, wider, next, ledger);
        if CodesIn(keys, coverage) {
          NothingLeft(keys, coverage);
        }
      }
    }
  }

  /** How often the closure fetches everything again before it ends. */
  ghost function Refetches(config: Settings, p: Provider, n: nat, keys: Keys, m: Materialized, round: nat): nat
    decreases MAX_EXECUTABLE_CLOSURE_ROUNDS + 1 - round
  {
    if round >= MAX_EXECUTABLE_CLOSURE_ROUNDS || RequiredKeys(m.coverage).Err? then 0
    else
      var added := AddKeys(keys, RequiredKeys(m.coverage).value);
      if added.Err? || added.value.Keys == keys.Keys then 0
      else
        var (next, k) := Materialize(config, p, n, added.value);
        1 + if next.Err? then 0 else Refetches(config, p, k, added.value, next.value, round + 1)
  }

  /**
   The count is right: without a refetch `Expand` makes no call, and otherwise it fails
   with the error of the fetch or goes on from what was fetched.
   */
  lemma RefetchesCount(config: Settings, p: Provider, n: nat, keys: Keys, m: Materialized, round: nat)
    ensures Refetches(config, p, n, keys, m, round) == 0 ==> Expand(config, p, n, keys, m, round).1 == n
    ensures Refetches(config, p, n, keys, m, round) > 0 ==>
      && round < MAX_EXECUTABLE_CLOSURE_ROUNDS
      && RequiredKeys(m.coverage).Ok? && AddKeys(keys, RequiredKeys(m.coverage).value).Ok?
      && var wider := AddKeys(keys, RequiredKeys(m.coverage).value).value;
         var (next, k) := Materialize(config, p, n, wider);
      && wider.Keys != keys.Keys
      && Refetches(config, p, n, keys, m, round)
         == 1 + (if next.Err? then 0 else Refetches(config, p, k, wider, next.value, round + 1))
      && Expand(config, p, n, keys, m, round)
         == if next.Err? then (Err(next.error), k) else Expand(config, p, k, wider, next.value, round + 1)
  {
    hide RequiredKeys, AddKeys, EnsureClosure, Materialize;
  }

  /** A limit is reported only by a refetch, or with no round left for one that is needed. */
  lemma LimitMeansRefetch(config: Settings, p: Provider, n: nat, keys: Keys, m: Materialized, round: nat)
    requires var r := Expand(config, p, n, keys, m, round).0; r.Err? && r.error.IsLimit()
    ensures round >= MAX_EXECUTABLE_CLOSURE_ROUNDS || Refetches(config, p, n, keys, m, round) > 0
  {
    hide RequiredKeys, AddKeys, EnsureClosure, Materialize;
  }

  /** Each refetch from an unchanging ledger brings the closure a round nearer its end. */
  lemma {:induction false} SettlesFrom(config: Settings, p: Provider, n: nat, keys: Keys, m: Materialized,
                                       round: nat, ledger: ChainLedger)
    requires Unchanging(p, ledger) && config.maxCoherenceAttempts > 0
    requires WellKeyed(keys) && Coherent(m, config, keys, s => ledger)
    requires round < MAX_EXECUTABLE_CLOSURE_ROUNDS
    requires RequiredKeys(m.coverage).Ok? ==> round + RoundsNeeded(keys, m.coverage) < MAX_EXECUTABLE_CLOSURE_ROUNDS
    ensures Refetches(config, p, n, keys, m, round)
         <= if RequiredKeys(m.coverage).Ok? then RoundsNeeded(keys, m.coverage) else 0
    ensures var r := Expand(config, p, n, keys, m, round).0;
      r.Err? ==> !r.error.IsLimit()
    decreases MAX_EXECUTABLE_CLOSURE_ROUNDS + 1 - round
  {
    hide *;
    RefetchesCount(config, p, n, keys, m, round);
    if Refetches(config, p, n, keys, m, round) > 0 {
      var wider := AddKeys(keys, RequiredKeys(m.coverage).value).value;
      FetchingRound(config, p, n, keys, m, wider, ledger);
      var (next, k) := Materialize(config, p, n, wider);
      if next.Ok? {
        SettlesFrom(config, p, k, wider, next.value, round + 1, ledger);
      }
    } else if Expand(config, p, n, keys, m, round).0.Err? && Expand(config, p, n, keys, m, round).0.error.IsLimit() {
      LimitMeansRefetch(config, p, n, keys, m, round);
    }
  }

  /**
   On an unchanging ledger the closure fetches again at most twice, and never gives
   up, neither itself nor in one of its fetches.
   */
  lemma ExpandSettles(config: Settings, p: Provider, n: nat, keys: Keys, m: Materialized, ledger: ChainLedger)
    requires Unchanging(p, ledger) && config.maxCoherenceAttempts > 0
    requires WellKeyed(keys) && Coherent(m, config, keys, s => ledger)
    ensures Refetches(config, p, n, keys, m, 0) <= 2
    ensures var r := Expand(config, p, n, keys, m, 0).0;
      r.Err? ==> !r.error.IsLimit()
  {
    hide RequiredKeys, Refetches, Expand, RefsIn, CodesIn, Unchanging, Coherent;
    SettlesFrom(config, p, n, keys, m, 0, ledger);
  }
}
