/**
 How many discovery rounds a capture takes (`capture_ref_from_keys`, src/capture.rs).
 */
module Convergence {
  import opened Wrappers
  import opened Ledger
  import opened CoverageChecks
  import opened Providers
  import opened Materialization
  import opened Closure
  import opened Scenarios
  import opened Discovery

  // ----- Two rounds for scenarios that do not look at their snapshot -----

  lemma CoverageIsOnLedger(m: Materialized, config: Settings, keys: Keys, ledger: ChainLedger)
    requires CoherentWith(m, config, keys, ledger) && WellKeyed(keys)
    ensures CacheOn(m.coverage, ledger)
  {
    forall key | KeyXdr(key).Some? && KeyXdr(key).value in m.coverage
      ensures m.coverage[KeyXdr(key).value] == ledger.Lookup(key)
    {
      KeyXdrInjective(keys[KeyXdr(key).value], key);
    }
  }

  lemma ReadyOnLedger(config: Settings, p: Provider, keys: Keys, m: Materialized, ledger: ChainLedger)
    requires Unchanging(p, ledger) && Ready(config, p, keys, m)
    ensures CacheOn(m.coverage, ledger)
    ensures ledger.Lookup(STATE_ARCHIVAL_KEY).Present?
        && ledger.Lookup(STATE_ARCHIVAL_KEY).entry.data.StateArchivalEntry?
    ensures m.info == InfoOf(config, ledger.anchor, ledger.Lookup(STATE_ARCHIVAL_KEY).entry.data.settings)
  {
    UnchangingIsHonest(p, ledger);
    ReadyIsCoherent(config, p, keys, m, _ => ledger);
    hide Validated, EnsureClosure, Unchanging, Honest, Fits;
    CoverageIsOnLedger(m, config, keys, ledger);
  }

  lemma RefetchSettles(config: Settings, p: Provider, n: nat, keys: Keys, ledger: ChainLedger)
    requires Unchanging(p, ledger) && config.maxCoherenceAttempts > 0
    requires WellKeyed(keys) && NoConfig(keys)
    ensures var r := Refetch(config, p, n, keys).0;
      && (r.Err? ==> !r.error.IsLimit())
      && (r.Ok? ==> Ready(config, p, r.value.0, r.value.1) && Grows(keys, r.value.0))
  {
    UnchangingIsHonest(p, ledger);
    hide Unchanging, Honest, Ready, Coherent, Expand, Materialize, WellKeyed, NoConfig, Widens;
    UnchangingNeverIncoherent(config, p, n, keys, ledger);
    var (m, k) := Materialize(config, p, n, keys);
    if m.Ok? {
      ExpandSettles(config, p, k, keys, m.value, ledger);
    }
    if Refetch(config, p, n, keys).0.Ok? {
      RefetchIsReady(config, p, n, keys);
      WidensGrows(keys, Refetch(config, p, n, keys).0.value.0);
    }
  }

  lemma UnchangingIsHonest(p: Provider, ledger: ChainLedger)
    requires Unchanging(p, ledger)
    ensures Honest(p, _ => ledger)
  {
  }

  /** The second pass over an unchanging ledger touches nothing that the first did not. */
  lemma SecondPassAddsNothing(config: Settings, p: Provider, program: Program, ledger: ChainLedger,
                              n: nat, keys: Keys, m: Materialized, k: nat, closed: Keys, next: Materialized)
    requires Unchanging(p, ledger) && Blind(program)
    requires Ready(config, p, keys, m) && Ready(config, p, closed, next)
    requires var pass := RunPass(p, n, program, m);
      && Judge(keys, pass, EndOf(program, m, pass)).More?
      && Grows(Judge(keys, pass, EndOf(program, m, pass)).keys, closed)
    ensures var pass := RunPass(p, k, program, next);
      !Judge(closed, pass, EndOf(program, next, pass)).More?
  {
    ReadyOnLedger(config, p, keys, m, ledger);
    ReadyOnLedger(config, p, closed, next, ledger);
    PassEnds(p, k, program, next);
    BlindInput(program, m.info, m.coverage, next.coverage);
    hide Ready, Unchanging, Judge, Blind, InputOf;
    var a, b := RunPass(p, n, program, m), RunPass(p, k, program, next);
    MoreMeansNoFailure(keys, a, EndOf(program, m, a));
    if b.source.failure.None? {
      PassesAgree(p, program(InputOf(m.info, m.coverage)), NewPass(m.coverage, n), NewPass(next.coverage, k), ledger);
      SameTouchAddsNothing(keys, a, EndOf(program, m, a), closed, b, EndOf(program, next, b));
    } else {
      FailureStops(closed, b, EndOf(program, next, b));
    }
  }

  lemma BlindInput(program: Program, info: LedgerInfo, a: Coverage, b: Coverage)
    requires Blind(program)
    ensures program(InputOf(info, a)) == program(InputOf(info, b))
  {
  }

  lemma MoreMeansNoFailure(keys: Keys, pass: Pass, end: Action)
    requires end.End? && Judge(keys, pass, end).More?
    ensures pass.source.failure.None?
  {
  }

  lemma FailureStops(keys: Keys, pass: Pass, end: Action)
    requires end.End? && pass.source.failure.Some?
    ensures Judge(keys, pass, end).Stop?
  {
  }

  /** A pass that touched what an earlier one touched cannot leave the keys grown from that one. */
  lemma SameTouchAddsNothing(keys: Keys, a: Pass, endA: Action, closed: Keys, b: Pass, endB: Action)
    requires endA.End? && endB.End? && InStep(a, b)
    requires Judge(keys, a, endA).More? && Grows(Judge(keys, a, endA).keys, closed)
    ensures !Judge(closed, b, endB).More?
  {
    if Encodes(b.stored, b.source.local) {
      assert Touched(a) == Touched(b);
      hide Touched, StoredKeys;
      assert forall id | id in NetworkKeys(Touched(b)) :: id in closed;
      assert (closed + NetworkKeys(Touched(b))).Keys == closed.Keys;
    }
  }

  /**
   On an unchanging ledger a scenario that does not look at its seeded snapshot reaches
   its fixed point in at most two rounds from any seed, so with a limit of two or more no
   limit is ever reported: not by discovery, not by the closure, not by coherence retries.
   */
  lemma TwoRoundConvergence(config: Settings, p: Provider, n: nat, program: Program, seed: Keys, ledger: ChainLedger)
    requires Unchanging(p, ledger) && Blind(program)
    requires config.maxCoherenceAttempts > 0 && config.maxDiscoveryRounds >= 2
    requires WellKeyed(seed) && NoConfig(seed)
    ensures var r := CaptureFrom(config, p, n, program, seed).0;
      && (r.Err? ==> !r.error.IsLimit())
      && (r.Ok? ==> r.value.round <= 2)
  {
    hide Unchanging, Blind, WellKeyed, NoConfig, Refetch, Rounds, Grows, Ready, ValidateNetwork;
    NetworkHasNoLimit(config, p, n);
    RefetchSettles(config, p, n + 1, seed, ledger);
    var (start, k) := Refetch(config, p, n + 1, seed);
    if start.Ok? {
      FirstRound(config, p, k, program, start.value.0, start.value.1, ledger);
    }
  }

  lemma NetworkHasNoLimit(config: Settings, p: Provider, n: nat)
    ensures ValidateNetwork(config, p, n).Err? ==> !ValidateNetwork(config, p, n).error.IsLimit()
  {
  }

  lemma FirstRound(config: Settings, p: Provider, n: nat, program: Program, keys: Keys, m: Materialized,
                   ledger: ChainLedger)
    requires Unchanging(p, ledger) && Blind(program)
    requires config.maxCoherenceAttempts > 0 && config.maxDiscoveryRounds >= 2
    requires Ready(config, p, keys, m)
    ensures var r := Rounds(config, p, n, program, keys, m, 1).0;
      && (r.Err? ==> !r.error.IsLimit())
      && (r.Ok? ==> r.value.round <= 2)
  {
    PassEnds(p, n, program, m);
    hide Unchanging, Blind, WellKeyed, NoConfig, Refetch, Grows, Ready, Judge, Seal, RunPass;
    var pass := RunPass(p, n, program, m);
    if Judge(keys, pass, EndOf(program, m, pass)).More? {
      var wider := Judge(keys, pass, EndOf(program, m, pass)).keys;
      ReadyKeys(config, p, keys, m);
      NextKeys(p, n, program, keys, m);
      RefetchSettles(config, p, pass.n, wider, ledger);
      var (next, k) := Refetch(config, p, pass.n, wider);
      if next.Ok? {
        SecondPassAddsNothing(config, p, program, ledger, n, keys, m, k, next.value.0, next.value.1);
        LastRound(config, p, k, program, next.value.0, next.value.1, 2);
      }
    }
  }

  /** A round that adds nothing is the last one. */
  lemma LastRound(config: Settings, p: Provider, n: nat, program: Program, keys: Keys, m: Materialized, round: nat)
    requires round <= config.maxDiscoveryRounds
    requires var pass := RunPass(p, n, program, m); !Judge(keys, pass, EndOf(program, m, pass)).More?
    ensures var r := Rounds(config, p, n, program, keys, m, round).0;
      && (r.Err? ==> !r.error.IsLimit())
      && (r.Ok? ==> r.value.round == round)
  {
    PassEnds(p, n, program, m);
    hide Judge, Seal, RunPass;
  }

  // ----- A bound for every scenario -----

  /** The key is the archival config, cannot be encoded, or is one of `bound`. */
  predicate KeyWithin(key: LedgerKey, bound: set<KeyId>) {
    key == STATE_ARCHIVAL_KEY || KeyXdr(key).None? || KeyXdr(key).value in bound
  }

  predicate ActionWithin(action: Action, bound: set<KeyId>) {
    match action
    case Read(key) => KeyWithin(key, bound)
    case Store(key) => KeyWithin(key, bound)
    case _ => true
  }

  /** Whatever it is shown and answered, the scenario touches no key outside `bound`. */
  ghost predicate TouchesWithin(program: Program, bound: set<KeyId>) {
    forall input: PassInput, h: seq<Answer> :: ActionWithin(program(input).next(h), bound)
  }

  predicate PassWithin(st: Pass, bound: set<KeyId>) {
    && (forall id | id in st.source.requested :: KeyWithin(st.source.requested[id], bound))
    && (forall k | k in st.stored :: KeyWithin(k, bound))
  }

  lemma {:induction false} RunWithin(transport: Option<Provider>, scenario: Scenario, st: Pass, bound: set<KeyId>)
    requires forall h: seq<Answer> :: ActionWithin(scenario.next(h), bound)
    requires PassWithin(st, bound)
    ensures PassWithin(Run(transport, scenario, st), bound)
    decreases scenario.rank(st.history)
  {
    hide PassWithin, ActionWithin, Act;
    var action := scenario.next(st.history);
    if !action.End? {
      ActGrowsHistory(transport, action, st);
      ActWithin(transport, action, st, bound);
      RunWithin(transport, scenario, Act(transport, action, st), bound);
    }
  }

  lemma ActWithin(transport: Option<Provider>, action: Action, st: Pass, bound: set<KeyId>)
    requires !action.End? && ActionWithin(action, bound) && PassWithin(st, bound)
    ensures PassWithin(Act(transport, action, st), bound)
  {
    hide ValidateBatch, KeyWithin;
  }

  /** A round that goes on has met a touched network key that is new, and keeps it. */
  lemma MoreMeansNew(keys: Keys, pass: Pass, end: Action) returns (id: KeyId)
    requires end.End? && Judge(keys, pass, end).More?
    ensures Encodes(pass.stored, pass.source.local) && id in NetworkKeys(Touched(pass))
    ensures id !in keys && id in Judge(keys, pass, end).keys
  {
    hide Touched, NetworkKeys;
    var network := NetworkKeys(Touched(pass));
    var wider := keys + network;
    assert wider.Keys == keys.Keys + network.Keys;
    assert network.Keys <= keys.Keys ==> wider.Keys == keys.Keys;
    id :| id in network.Keys && id !in keys.Keys;
  }

  lemma TouchedWithin(pass: Pass, id: KeyId, bound: set<KeyId>)
    requires WellKeyed(pass.source.requested) && Encodes(pass.stored, pass.source.local)
    requires PassWithin(pass, bound) && id in NetworkKeys(Touched(pass))
    ensures id in bound
  {
    TouchedWellKeyed(pass);
    assert KeyWithin(Touched(pass)[id], bound);
  }

  /** How many keys of the bound are still to be met. */
  function Left(bound: set<KeyId>, keys: Keys): nat {
    |bound - keys.Keys|
  }

  lemma PassStaysWithin(p: Provider, n: nat, program: Program, m: Materialized, bound: set<KeyId>)
    requires TouchesWithin(program, bound)
    ensures PassWithin(RunPass(p, n, program, m), bound)
  {
    RunWithin(Some(p), program(InputOf(m.info, m.coverage)), NewPass(m.coverage, n), bound);
  }

  /** Each round that goes on leaves fewer keys of the bound to be met. */
  lemma MoreShrinks(p: Provider, n: nat, program: Program, keys: Keys, m: Materialized, closed: Keys, bound: set<KeyId>)
    requires TouchesWithin(program, bound)
    requires var pass := RunPass(p, n, program, m);
      && Judge(keys, pass, EndOf(program, m, pass)).More?
      && Grows(Judge(keys, pass, EndOf(program, m, pass)).keys, closed)
    ensures Left(bound, closed) < Left(bound, keys)
  {
    hide *;
    var pass := RunPass(p, n, program, m);
    var end := EndOf(program, m, pass);
    PassEnds(p, n, program, m);
    PassWellKeyed(p, n, program, m);
    PassStaysWithin(p, n, program, m, bound);
    var id := MoreMeansNew(keys, pass, end);
    TouchedWithin(pass, id, bound);
    KeysStay(keys, pass, end);
    LeftShrinks(keys, Judge(keys, pass, end).keys, closed, bound, id);
  }

  lemma LeftShrinks(keys: Keys, wider: Keys, closed: Keys, bound: set<KeyId>, id: KeyId)
    requires Grows(keys, wider) && Grows(wider, closed) && id in bound && id !in keys && id in wider
    ensures Left(bound, closed) < Left(bound, keys)
  {
    assert id in bound - keys.Keys && id !in bound - closed.Keys;
    SmallerSet(bound - closed.Keys, bound - keys.Keys);
  }

  lemma KeysStay(keys: Keys, pass: Pass, end: Action)
    requires end.End? && Judge(keys, pass, end).More?
    ensures Grows(keys, Judge(keys, pass, end).keys)
  {
    hide Touched, NetworkKeys;
  }

  lemma SmallerSet(a: set<KeyId>, b: set<KeyId>)
    requires a < b
    ensures |a| < |b|
  {
    assert b == a + (b - a) && b - a != {};
  }

  lemma {:induction false} RoundsWithin(config: Settings, p: Provider, n: nat, program: Program, keys: Keys,
                                        m: Materialized, round: nat, bound: set<KeyId>)
    requires Ready(config, p, keys, m) && TouchesWithin(program, bound)
    ensures var r := Rounds(config, p, n, program, keys, m, round).0;
      && (r.Err? && r.error.FixedPointLimit? ==> config.maxDiscoveryRounds < round + Left(bound, keys))
      && (r.Ok? ==> r.value.round <= round + Left(bound, keys))
    decreases config.maxDiscoveryRounds + 1 - round
  {
    hide Ready, Judge, Seal, Refetch, RunPass, WellKeyed, NoConfig, Widens, TouchesWithin, EndOf, Grows, Left;
    PassEnds(p, n, program, m);
    var pass := RunPass(p, n, program, m);
    var verdict := Judge(keys, pass, EndOf(program, m, pass));
    if round <= config.maxDiscoveryRounds && verdict.More? {
      ReadyKeys(config, p, keys, m);
      NextKeys(p, n, program, keys, m);
      var (next, k) := Refetch(config, p, pass.n, verdict.keys);
      if next.Ok? {
        RefetchIsReady(config, p, pass.n, verdict.keys);
        WidensGrows(verdict.keys, next.value.0);
        MoreShrinks(p, n, program, keys, m, next.value.0, bound);
        RoundsWithin(config, p, k, program, next.value.0, next.value.1, round + 1, bound);
      }
    }
  }

  /**
   Every scenario, against any provider and from any seed: when it can touch at most K
   network keys outside the seed, success takes at most K + 1 rounds, and a round limit
   above K is never reported.
   */
  lemma RoundsBoundedByTouch(config: Settings, p: Provider, n: nat, program: Program, seed: Keys, bound: set<KeyId>)
    requires WellKeyed(seed) && NoConfig(seed) && TouchesWithin(program, bound)
    ensures var r, k := CaptureFrom(config, p, n, program, seed).0, Left(bound, seed);
      && (r.Ok? ==> r.value.round <= k + 1)
      && (config.maxDiscoveryRounds > k ==> !(r.Err? && r.error.FixedPointLimit?))
  {
    hide Ready, Rounds, Refetch, WellKeyed, NoConfig, Widens, TouchesWithin, Grows, Left;
    var (start, k) := Refetch(config, p, n + 1, seed);
    if start.Ok? {
      RefetchIsReady(config, p, n + 1, seed);
      WidensGrows(seed, start.value.0);
      RoundsWithin(config, p, k, program, start.value.0, start.value.1, 1, bound);
      GrownLeavesLess(seed, start.value.0, bound);
    }
  }

  lemma GrownLeavesLess(keys: Keys, wider: Keys, bound: set<KeyId>)
    requires Grows(keys, wider)
    ensures Left(bound, wider) <= Left(bound, keys)
  {
    if bound - wider.Keys < bound - keys.Keys {
      SmallerSet(bound - wider.Keys, bound - keys.Keys);
    } else {
      assert bound - wider.Keys == bound - keys.Keys;
    }
  }

  /** On an unchanging ledger the only limit that can be met is that of the rounds. */
  lemma {:induction false} OnlyRoundsRunOut(config: Settings, p: Provider, n: nat, program: Program, keys: Keys,
                                            m: Materialized, round: nat, ledger: ChainLedger)
    requires Unchanging(p, ledger) && config.maxCoherenceAttempts > 0 && Ready(config, p, keys, m)
    ensures var r := Rounds(config, p, n, program, keys, m, round).0;
      r.Err? && r.error.IsLimit() ==> r.error.FixedPointLimit?
    decreases config.maxDiscoveryRounds + 1 - round
  {
    hide Ready, Judge, Seal, Refetch, RunPass, WellKeyed, NoConfig, Widens, EndOf, Grows, Unchanging;
    PassEnds(p, n, program, m);
    var pass := RunPass(p, n, program, m);
    var verdict := Judge(keys, pass, EndOf(program, m, pass));
    if round <= config.maxDiscoveryRounds && verdict.More? {
      ReadyKeys(config, p, keys, m);
      NextKeys(p, n, program, keys, m);
      RefetchSettles(config, p, pass.n, verdict.keys, ledger);
      var (next, k) := Refetch(config, p, pass.n, verdict.keys);
      if next.Ok? {
        OnlyRoundsRunOut(config, p, k, program, next.value.0, next.value.1, round + 1, ledger);
      }
    }
  }

  /** So with that many rounds a capture on an unchanging ledger never gives up at all. */
  lemma SightedConvergence(config: Settings, p: Provider, n: nat, program: Program, seed: Keys, bound: set<KeyId>,
                           ledger: ChainLedger)
    requires Unchanging(p, ledger) && config.maxCoherenceAttempts > 0
    requires WellKeyed(seed) && NoConfig(seed) && TouchesWithin(program, bound)
    requires config.maxDiscoveryRounds > Left(bound, seed)
    ensures var r := CaptureFrom(config, p, n, program, seed).0; r.Err? ==> !r.error.IsLimit()
  {
    hide Ready, Rounds, Refetch, WellKeyed, NoConfig, Widens, TouchesWithin, Grows, Unchanging, Left;
    RoundsBoundedByTouch(config, p, n, program, seed, bound);
    RefetchSettles(config, p, n + 1, seed, ledger);
    var (start, k) := Refetch(config, p, n + 1, seed);
    if start.Ok? {
      OnlyRoundsRunOut(config, p, k, program, start.value.0, start.value.1, 1, ledger);
    }
  }
}
