/**
 Scenario passes over a tracking source (`TrackingSource`, `LocalLedger`,
 src/capture.rs).

 A scenario together with the Host is a deterministic, terminating interaction
 tree: the history of answers determines the next action. It may read a key
 through the source, leave a key among the Host's stored entries, mark addresses
 and code as local, and end, with or without a panic.
 */
module Scenarios {
  import opened Wrappers
  import opened Bytes
  import opened Ledger
  import opened Fixture
  import opened Errors
  import opened Providers
  import opened Materialization

  /** What a read gives the Host: an error, an entry, or nothing. Other actions are just done. */
  datatype Answer = HostError | Found(value: Option<LedgerValue>) | Acted

  datatype Action =
    | Read(key: LedgerKey)
    | Store(key: LedgerKey)
    | MarkAddress(address: ScAddress)
    | MarkCode(hash: Digest)
    | End(panicked: bool, inspectable: bool)

  /** `rank` only witnesses that every branch ends; it bounds nothing uniformly. */
  datatype Tree = Tree(next: seq<Answer> -> Action, ghost rank: seq<Answer> -> ORDINAL)

  ghost predicate Terminates(t: Tree) {
    forall h: seq<Answer>, a: Answer :: !t.next(h).End? ==> t.rank(h + [a]) < t.rank(h)
  }

  type Scenario = t: Tree | Terminates(t) ghost witness Tree(h => End(false, true), h => 0)

  /**
   The environment a pass starts in (`env_from_materialized`): the header with the
   executed protocol, the network's protocol, and the snapshot the environment is seeded
   with, which is the Present part of what has been captured so far. A scenario can look
   at that snapshot, directly or through a child environment made from it.
   */
  datatype PassInput = PassInput(info: LedgerInfo, networkProtocol: u32, present: Coverage)

  function PresentPart(coverage: Coverage): Coverage {
    map id | id in coverage && coverage[id].Present? :: coverage[id]
  }

  function InputOf(info: LedgerInfo, coverage: Coverage): PassInput {
    PassInput(info.(protocolVersion := Executed(info.protocolVersion)), info.protocolVersion, PresentPart(coverage))
  }

  /** The scenario closure, run afresh on every pass. */
  type Program = PassInput -> Scenario

  /** The scenario does not look at the snapshot its environment is seeded with. */
  ghost predicate Blind(program: Program) {
    forall a: PassInput, b: PassInput ::
      a.info == b.info && a.networkProtocol == b.networkProtocol ==> program(a) == program(b)
  }

  // ----- Local ownership -----

  datatype Local = Local(addresses: set<ScAddress>, codes: set<Digest>) {
    /** `LocalLedger::owns`. */
    predicate Owns(key: LedgerKey) {
      match key
      case ContractCode(hash) => hash in codes
      case ContractData(contract, _, _) => contract in addresses
      case Account(accountId) => AccountAddress(accountId) in addresses
      case Trustline(accountId, _) => AccountAddress(accountId) in addresses
      case _ => false
    }
  }

  // ----- The source -----

  datatype Source = Source(
    cache: Coverage, requested: Keys, unknown: set<KeyId>, local: Local, rpcReads: nat, failure: Option<Operation>)

  function NewSource(cache: Coverage): Source {
    Source(cache, map[], {}, Local({}, {}), 0, None)
  }

  function AnswerOf(state: LookupState): Answer {
    Found(AsValue(state))
  }

  /** A read that is neither local nor cached, with a transport to ask. */
  function Fetch(p: Provider, s: Source, n: nat, key: LedgerKey, id: KeyId): (Source, nat, Answer) {
    var counted := s.(rpcReads := s.rpcReads + 1);
    match p.entries(n, [key])
    case Err(operation) => (counted.(failure := Some(operation)), n + 1, HostError)
    case Ok(batch) =>
      match ValidateBatch([key], batch.entries)
      case Err(_) => (counted.(failure := Some(GetLedgerEntries)), n + 1, HostError)
      case Ok(returned) =>
        var state := AsState(Get(returned, id));
        (counted.(cache := counted.cache[id := state]), n + 1, AnswerOf(state))
  }

  /** `TrackingSource::get`; `n` counts transport calls. */
  function SourceGet(transport: Option<Provider>, s: Source, n: nat, key: LedgerKey): (Source, nat, Answer) {
    if s.failure.Some? then (s, n, HostError)
    else
      match KeyXdr(key)
      case None => (s.(failure := Some(LedgerKeyEncode)), n, HostError)
      case Some(id) =>
        if s.local.Owns(key) then (s, n, Found(None))
        else
          var asked := s.(requested := s.requested[id := key]);
          if id in s.cache then (asked, n, AnswerOf(s.cache[id]))
          else
            match transport
            case None => (asked.(unknown := s.unknown + {id}), n, HostError)
            case Some(p) => Fetch(p, asked, n, key, id)
  }

  // ----- A pass -----

  /** How far a pass has come: the source, calls made, stored entries, answers so far. */
  datatype Pass = Pass(source: Source, n: nat, stored: seq<LedgerKey>, history: seq<Answer>)

  function NewPass(cache: Coverage, n: nat): Pass {
    Pass(NewSource(cache), n, [], [])
  }

  /** One action, not the end. */
  function Act(transport: Option<Provider>, action: Action, st: Pass): Pass
    requires !action.End?
  {
    match action
    case Read(key) =>
      var (s, n, answer) := SourceGet(transport, st.source, st.n, key);
      Pass(s, n, st.stored, st.history + [answer])
    case Store(key) => st.(stored := st.stored + [key], history := st.history + [Acted])
    case MarkAddress(address) =>
      var local := st.source.local.(addresses := st.source.local.addresses + {address});
      st.(source := st.source.(local := local), history := st.history + [Acted])
    case MarkCode(hash) =>
      var local := st.source.local.(codes := st.source.local.codes + {hash});
      st.(source := st.source.(local := local), history := st.history + [Acted])
  }

  lemma ActGrowsHistory(transport: Option<Provider>, action: Action, st: Pass)
    requires !action.End?
    ensures exists a :: Act(transport, action, st).history == st.history + [a]
  {
    var h := Act(transport, action, st).history;
    assert h == st.history + [h[|h| - 1]];
  }

  /** Running a scenario from `st` to its end. */
  function Run(transport: Option<Provider>, scenario: Scenario, st: Pass): (r: Pass)
    ensures scenario.next(r.history).End?
    decreases scenario.rank(st.history)
  {
    var action := scenario.next(st.history);
    if action.End? then st
    else
      ActGrowsHistory(transport, action, st);
      Run(transport, scenario, Act(transport, action, st))
  }

  // ----- The failure latch -----

  /** After a failure the source stays as it is: no transport call, nothing recorded. */
  lemma {:induction false} FailureLatches(transport: Option<Provider>, scenario: Scenario, st: Pass)
    requires st.source.failure.Some?
    ensures var r := Run(transport, scenario, st);
      r.n == st.n && r.source.(local := st.source.local) == st.source
    decreases scenario.rank(st.history)
  {
    var action := scenario.next(st.history);
    if !action.End? {
      ActGrowsHistory(transport, action, st);
      FailureLatches(transport, scenario, Act(transport, action, st));
    }
  }

  /** A failing read answers with an error and records nothing about its key. */
  lemma FailedReadIsNotAbsence(transport: Option<Provider>, s: Source, n: nat, key: LedgerKey)
    requires SourceGet(transport, s, n, key).0.failure.Some?
    ensures var (s', _, answer) := SourceGet(transport, s, n, key);
      answer == HostError && s'.cache == s.cache
  {
  }

  /** The read counter never goes down, and without a read no call is made. */
  lemma {:induction false} ReadsOnlyGrow(p: Provider, scenario: Scenario, st: Pass)
    ensures var r := Run(Some(p), scenario, st);
      r.source.rpcReads >= st.source.rpcReads && r.source.unknown == st.source.unknown
    decreases scenario.rank(st.history)
  {
    var action := scenario.next(st.history);
    if !action.End? {
      ActGrowsHistory(Some(p), action, st);
      ReadsOnlyGrow(p, scenario, Act(Some(p), action, st));
    }
  }

  // ----- RPC-backed, cached and strict passes -----

  /**
   A pass that made no RPC read behaves the same without a transport: same
   answers, same stored entries, same marks, nothing unknown.
   */
  lemma {:induction false} CachedPassIsStrict(p: Provider, scenario: Scenario, st: Pass)
    requires Run(Some(p), scenario, st).source.rpcReads == st.source.rpcReads
    ensures Run(None, scenario, st) == Run(Some(p), scenario, st)
    decreases scenario.rank(st.history)
  {
    var action := scenario.next(st.history);
    if !action.End? {
      hide SourceGet, Act;
      var next := Act(Some(p), action, st);
      ActGrowsHistory(Some(p), action, st);
      ReadsOnlyGrow(p, scenario, next);
      ActIsStrict(p, action, st);
      CachedPassIsStrict(p, scenario, next);
    }
  }

  /** One action: the count of reads grows, or the transport played no part. */
  lemma ActIsStrict(p: Provider, action: Action, st: Pass)
    requires !action.End?
    ensures var next := Act(Some(p), action, st);
      next.source.rpcReads > st.source.rpcReads || Act(None, action, st) == next
  {
    hide ValidateBatch;
  }

  /** What a failure-free pass has asked for is in its cache, which only grew. */
  ghost predicate Tracked(start: Coverage, s: Source) {
    && WellKeyed(s.requested)
    && (forall id | id in start :: id in s.cache)
    && (s.failure.None? ==> forall id | id in s.requested :: id in s.cache)
    && (s.failure.None? && s.rpcReads > 0 ==> exists id :: id in s.requested && id !in start)
    && (s.rpcReads == 0 ==> s.cache == start)
  }

  lemma {:induction false} PassIsTracked(p: Provider, scenario: Scenario, st: Pass, start: Coverage)
    requires Tracked(start, st.source)
    ensures Tracked(start, Run(Some(p), scenario, st).source)
    decreases scenario.rank(st.history)
  {
    var action := scenario.next(st.history);
    if !action.End? {
      ActGrowsHistory(Some(p), action, st);
      GetIsTracked(p, action, st, start);
      PassIsTracked(p, scenario, Act(Some(p), action, st), start);
    }
  }

  lemma GetIsTracked(p: Provider, action: Action, st: Pass, start: Coverage)
    requires Tracked(start, st.source) && !action.End?
    ensures Tracked(start, Act(Some(p), action, st).source)
  {
    if action.Read? {
      ReadIsTracked(p, st.source, st.n, action.key, start);
    }
  }

  lemma ReadIsTracked(p: Provider, s: Source, n: nat, key: LedgerKey, start: Coverage)
    requires Tracked(start, s)
    ensures Tracked(start, SourceGet(Some(p), s, n, key).0)
  {
    hide ValidateBatch;
    var next := SourceGet(Some(p), s, n, key).0;
    if next.rpcReads > s.rpcReads {
      var id := KeyXdr(key).value;
      assert id in next.requested && id !in s.cache;
    } else if exists id :: id in s.requested && id !in start {
      var id :| id in s.requested && id !in start;
      assert id in next.requested;
    }
  }

  /**
   In a failure-free pass a read over RPC means that some requested key lies
   outside the coverage the pass started from, and conversely.
   */
  lemma ReadsMeanOutsideCoverage(p: Provider, scenario: Scenario, cache: Coverage, n: nat)
    requires Run(Some(p), scenario, NewPass(cache, n)).source.failure.None?
    ensures var s := Run(Some(p), scenario, NewPass(cache, n)).source;
      s.rpcReads > 0 <==> exists id :: id in s.requested && id !in cache
  {
    PassIsTracked(p, scenario, NewPass(cache, n), cache);
  }

  // ----- Passes over one unchanging ledger -----

  ghost predicate CacheOn(cache: Coverage, ledger: ChainLedger) {
    forall key | KeyXdr(key).Some? && KeyXdr(key).value in cache :: cache[KeyXdr(key).value] == ledger.Lookup(key)
  }

  /** Two passes at the same point: same questions, answers and marks; the caches may differ. */
  ghost predicate InStep(a: Pass, b: Pass) {
    && a.source.requested == b.source.requested && a.source.local == b.source.local
    && a.stored == b.stored && a.history == b.history
  }

  lemma GetOnLedger(p: Provider, s: Source, n: nat, key: LedgerKey, ledger: ChainLedger)
    requires Unchanging(p, ledger) && CacheOn(s.cache, ledger)
    ensures var (s', _, answer) := SourceGet(Some(p), s, n, key);
      && CacheOn(s'.cache, ledger)
      && s'.local == s.local
      && (s'.failure.None? ==>
            && s.failure.None? && KeyXdr(key).Some?
            && answer == (if s.local.Owns(key) then Found(None) else AnswerOf(ledger.Lookup(key)))
            && s'.requested == if s.local.Owns(key) then s.requested else s.requested[KeyXdr(key).value := key])
  {
    if s.failure.None? && KeyXdr(key).Some? && !s.local.Owns(key) && KeyXdr(key).value !in s.cache {
      var id := KeyXdr(key).value;
      var answer := p.entries(n, [key]);
      assert ServesBatch(answer, [key], _ => ledger);
      if answer.Ok? && ValidateBatch([key], answer.value.entries).Ok? {
        assert key in [key];
        BatchIsLookup(ledger, [key], answer.value.entries, key, id);
        var cache := s.cache[id := ledger.Lookup(key)];
        forall k | KeyXdr(k).Some? && KeyXdr(k).value in cache ensures cache[KeyXdr(k).value] == ledger.Lookup(k) {
          if KeyXdr(k).value == id { KeyXdrInjective(k, key); }
        }
      }
    }
  }

  lemma FailureStays(transport: Option<Provider>, scenario: Scenario, st: Pass)
    ensures st.source.failure.Some? ==> Run(transport, scenario, st).source.failure.Some?
  {
    if st.source.failure.Some? { FailureLatches(transport, scenario, st); }
  }

  /**
   On an unchanging ledger the outcome of a deterministic scenario does not
   depend on what was cached: two passes that do not fail stay in step.
   */
  lemma {:induction false} PassesAgree(p: Provider, scenario: Scenario, a: Pass, b: Pass, ledger: ChainLedger)
    requires Unchanging(p, ledger) && CacheOn(a.source.cache, ledger) && CacheOn(b.source.cache, ledger)
    requires InStep(a, b)
    requires Run(Some(p), scenario, a).source.failure.None? && Run(Some(p), scenario, b).source.failure.None?
    ensures InStep(Run(Some(p), scenario, a), Run(Some(p), scenario, b))
    decreases scenario.rank(a.history)
  {
    var action := scenario.next(a.history);
    if !action.End? {
      var a', b' := Act(Some(p), action, a), Act(Some(p), action, b);
      ActGrowsHistory(Some(p), action, a);
      FailureStays(Some(p), scenario, a');
      FailureStays(Some(p), scenario, b');
      if action.Read? {
        GetOnLedger(p, a.source, a.n, action.key, ledger);
        GetOnLedger(p, b.source, b.n, action.key, ledger);
      }
      PassesAgree(p, scenario, a', b', ledger);
    }
  }

  // ----- A run answered by a ledger itself -----

  /** A run without caches, calls or failures: only marks, stored entries and answers. */
  datatype DirectRun = DirectRun(local: Local, stored: seq<LedgerKey>, history: seq<Answer>)

  const FRESH_RUN: DirectRun := DirectRun(Local({}, {}), [], [])

  function ActDirectly(ledger: ChainLedger, action: Action, run: DirectRun): DirectRun
    requires !action.End?
  {
    match action
    case Read(key) =>
      var answer := if run.local.Owns(key) then Found(None) else AnswerOf(ledger.Lookup(key));
      run.(history := run.history + [answer])
    case Store(key) => run.(stored := run.stored + [key], history := run.history + [Acted])
    case MarkAddress(address) =>
      run.(local := run.local.(addresses := run.local.addresses + {address}), history := run.history + [Acted])
    case MarkCode(hash) =>
      run.(local := run.local.(codes := run.local.codes + {hash}), history := run.history + [Acted])
  }

  /** The scenario as the ledger itself answers it. */
  function RunDirectly(ledger: ChainLedger, scenario: Scenario, run: DirectRun): DirectRun
    decreases scenario.rank(run.history)
  {
    var action := scenario.next(run.history);
    if action.End? then run
    else
      var next := ActDirectly(ledger, action, run);
      assert next.history == run.history + [next.history[|next.history| - 1]];
      RunDirectly(ledger, scenario, next)
  }

  /** The keys that this run reads, in order, local ones included. */
  function DirectReads(ledger: ChainLedger, scenario: Scenario, run: DirectRun): seq<LedgerKey>
    decreases scenario.rank(run.history)
  {
    var action := scenario.next(run.history);
    if action.End? then []
    else
      var next := ActDirectly(ledger, action, run);
      assert next.history == run.history + [next.history[|next.history| - 1]];
      (if action.Read? then [action.key] else []) + DirectReads(ledger, scenario, next)
  }

  function Observed(st: Pass): DirectRun {
    DirectRun(st.source.local, st.stored, st.history)
  }

  /** One action that does not fail is the ledger's own answer, and keeps the cache on the ledger. */
  lemma ActStaysOnLedger(p: Provider, action: Action, st: Pass, ledger: ChainLedger)
    requires !action.End? && Unchanging(p, ledger) && CacheOn(st.source.cache, ledger)
    requires Act(Some(p), action, st).source.failure.None?
    ensures var next := Act(Some(p), action, st);
      Observed(next) == ActDirectly(ledger, action, Observed(st)) && CacheOn(next.source.cache, ledger)
    ensures !action.Read? ==> Act(Some(p), action, st).source.requested == st.source.requested
  {
    if action.Read? {
      GetOnLedger(p, st.source, st.n, action.key, ledger);
    }
  }

  /** A pass over an unchanging ledger that does not fail is the run answered by that ledger. */
  lemma {:induction false} PassIsDirect(p: Provider, scenario: Scenario, st: Pass, ledger: ChainLedger)
    requires Unchanging(p, ledger) && CacheOn(st.source.cache, ledger)
    requires Run(Some(p), scenario, st).source.failure.None?
    ensures Observed(Run(Some(p), scenario, st)) == RunDirectly(ledger, scenario, Observed(st))
    decreases scenario.rank(st.history)
  {
    var action := scenario.next(st.history);
    if !action.End? {
      var next := Act(Some(p), action, st);
      ActGrowsHistory(Some(p), action, st);
      FailureStays(Some(p), scenario, next);
      ActStaysOnLedger(p, action, st, ledger);
      PassIsDirect(p, scenario, next, ledger);
    }
  }

  // ----- Stored entries -----

  predicate Encodes(stored: seq<LedgerKey>, local: Local) {
    forall k | k in stored && !local.Owns(k) :: KeyXdr(k).Some?
  }

  /** Stored keys that no local mark owns, by id. */
  function StoredKeys(stored: seq<LedgerKey>, local: Local): (keys: Keys)
    requires Encodes(stored, local)
    ensures WellKeyed(keys)
    ensures forall k | k in stored && !local.Owns(k) :: KeyXdr(k).value in keys
    ensures forall id | id in keys :: keys[id] in stored && !local.Owns(keys[id])
  {
    if stored == [] then map[]
    else
      var init, last := stored[..|stored| - 1], stored[|stored| - 1];
      assert stored == init + [last];
      var rest := StoredKeys(init, local);
      if local.Owns(last) then rest else rest[KeyXdr(last).value := last]
  }
}
