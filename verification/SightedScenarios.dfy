/**
 Scenarios that look at the snapshot their environment is seeded with, as a preview
 does (src/auto.rs:1034-1044): for them a capture can take more than two rounds, and
 its result can depend on the seed, on a ledger that never changes.
 */
module SightedScenarios {
  import opened Wrappers
  import opened Bytes
  import opened Ledger
  import opened Errors
  import opened Providers
  import opened Materialization
  import opened Closure
  import opened Scenarios
  import opened Discovery
  import opened Convergence
  import opened ArchivalKeys
  import opened CaptureFates

  // ----- A reliable provider of any ledger -----

  /** The entries of the distinct keys that the ledger has. */
  function Answers(ledger: ChainLedger, keys: seq<LedgerKey>): seq<LedgerValue> {
    if keys == [] then []
    else
      var init, last := keys[..|keys| - 1], keys[|keys| - 1];
      Answers(ledger, init) + if last in init || last !in ledger.values then [] else [ledger.values[last]]
  }

  function ExactProvider(passphrase: Vec8, ledger: ChainLedger): Provider {
    Provider((i: nat) => Ok(Network(passphrase, ledger.anchor.protocolVersion)),
             (i: nat) => Ok(ledger.anchor),
             (i: nat, keys: seq<LedgerKey>) => Ok(EntryBatch(ledger.anchor.sequence, Answers(ledger, keys))))
  }

  /** The ledger stores each entry under its own key. */
  ghost predicate WellStored(ledger: ChainLedger) {
    forall key | key in ledger.values :: ledger.values[key].entry.ToKey() == key
  }

  lemma {:induction false} AnswersAre(ledger: ChainLedger, keys: seq<LedgerKey>)
    requires WellStored(ledger)
    ensures forall f | f in Answers(ledger, keys) ::
              f.entry.ToKey() in keys && f.entry.ToKey() in ledger.values && ledger.values[f.entry.ToKey()] == f
    ensures forall k | k in keys && k in ledger.values :: ledger.values[k] in Answers(ledger, keys)
    ensures ExactBatch(keys, Answers(ledger, keys))
  {
    if keys != [] {
      var n := |keys| - 1;
      AnswersAre(ledger, keys[..n]);
      assert forall k :: k in keys <==> k in keys[..n] || k == keys[n];
    }
  }

  /** So the assumptions on a provider can be met for every such ledger. */
  lemma ExactIsReliable(config: Settings, ledger: ChainLedger)
    requires WellStored(ledger) && ledger.anchor.hash != []
    ensures Reliable(ExactProvider(config.passphrase, ledger), config, ledger)
  {
    var p := ExactProvider(config.passphrase, ledger);
    forall i: nat, keys: seq<LedgerKey>
      ensures AnswersExactly(p.entries(i, keys), keys) && ServesBatch(p.entries(i, keys), keys, s => ledger)
    {
      AnswersAre(ledger, keys);
    }
    hide ExactBatch, Answers;
  }

  // ----- A ledger with two accounts -----

  function Filled(b: byte): (digest: Digest)
    ensures digest[0] == b
  {
    seq(32, i => b)
  }

  const ACCOUNT_A: LedgerKey := Account(Filled(0))
  const ACCOUNT_B: LedgerKey := Account(Filled(1))

  const VALUE_A: LedgerValue := LedgerValue(LedgerEntry(0, AccountEntry(Filled(0), []), []), None)
  const VALUE_B: LedgerValue := LedgerValue(LedgerEntry(0, AccountEntry(Filled(1), []), []), None)

  const TWO_ACCOUNTS: ChainLedger :=
    ChainLedger(TINY_TIP, map[STATE_ARCHIVAL_KEY := TINY_ARCHIVAL, ACCOUNT_A := VALUE_A, ACCOUNT_B := VALUE_B])

  /** The three keys and the two entries have XDR. */
  predicate Encoded() {
    && KeyXdr(STATE_ARCHIVAL_KEY).Some? && KeyXdr(ACCOUNT_A).Some? && KeyXdr(ACCOUNT_B).Some?
    && EntryXdr(VALUE_A.entry).Some? && EntryXdr(VALUE_B.entry).Some?
  }

  function IdA(): KeyId
    requires Encoded()
  {
    KeyXdr(ACCOUNT_A).value
  }

  function IdB(): KeyId
    requires Encoded()
  {
    KeyXdr(ACCOUNT_B).value
  }

  lemma AccountsDiffer()
    requires Encoded()
    ensures ACCOUNT_A != ACCOUNT_B && IdA() != IdB()
  {
    assert ACCOUNT_A.accountId[0] != ACCOUNT_B.accountId[0];
    if IdA() == IdB() {
      KeyXdrInjective(ACCOUNT_A, ACCOUNT_B);
    }
  }

  lemma TwoAccountsLookup()
    ensures TWO_ACCOUNTS.Lookup(ACCOUNT_A) == AsState(Some(VALUE_A))
    ensures TWO_ACCOUNTS.Lookup(ACCOUNT_B) == AsState(Some(VALUE_B))
    ensures SettingsOf(TWO_ACCOUNTS) == Some(TINY_SETTINGS)
    ensures WellStored(TWO_ACCOUNTS)
  {
    assert ACCOUNT_A.accountId[0] != ACCOUNT_B.accountId[0];
  }

  lemma TwoAccountsValid(config: Settings)
    requires Encoded()
    ensures Valid(config, TWO_ACCOUNTS)
  {
    TwoAccountsLookup();
    forall key | key in TWO_ACCOUNTS.values && IsCapturable(key)
      ensures SoundEntry(TWO_ACCOUNTS, key, TINY_TIP.sequence, TINY_SETTINGS.maxEntryTtl)
    {
      assert key == ACCOUNT_A || key == ACCOUNT_B;
    }
  }

  function TwoAccounts(config: Settings): Provider {
    ExactProvider(config.passphrase, TWO_ACCOUNTS)
  }

  /** Fetching accounts A, B or both adds no other account. */
  lemma AccountsRefetched(config: Settings, n: nat, keys: Keys)
    requires Encoded() && config.maxCoherenceAttempts > 0 && Holdable(keys)
    ensures var r := Refetch(config, TwoAccounts(config), n, keys).0;
      && r.Ok? && Ready(config, TwoAccounts(config), r.value.0, r.value.1) && Holdable(r.value.0)
      && (IdA() in r.value.0 <==> IdA() in keys) && (IdB() in r.value.0 <==> IdB() in keys)
  {
    TwoAccountsLookup();
    ExactIsReliable(config, TWO_ACCOUNTS);
    TwoAccountsValid(config);
    HoldableWellKeyed(keys);
    HoldableNoConfig(keys);
    hide Reliable, Valid, Holdable, Ready, Refetch;
    RefetchSucceeds(config, TwoAccounts(config), n, keys, TWO_ACCOUNTS);
    RefetchIsReady(config, TwoAccounts(config), n, keys);
    AccountsNotAdded(keys, Refetch(config, TwoAccounts(config), n, keys).0.value.0);
  }

  lemma AccountsNotAdded(keys: Keys, wider: Keys)
    requires Encoded() && Widens(keys, wider)
    ensures IdA() in wider <==> IdA() in keys
    ensures IdB() in wider <==> IdB() in keys
  {
    forall id | id == IdA() || id == IdB() ensures id in wider <==> id in keys {
      if id in wider {
        KeyXdrInjective(wider[id], if id == IdA() then ACCOUNT_A else ACCOUNT_B);
      }
    }
  }

  lemma NetworkAccepted(config: Settings)
    ensures ValidateNetwork(config, TwoAccounts(config), 0) == Ok(())
  {
  }

  lemma NothingHoldable()
    ensures Holdable(map[])
  {
  }

  // ----- A scenario that finds the next key only in its snapshot -----

  predicate SeesA(input: PassInput) {
    KeyXdr(ACCOUNT_A).Some? && KeyXdr(ACCOUNT_A).value in input.present
  }

  /** Read account A; once the snapshot holds A, read account B as well. */
  function Look(input: PassInput): Scenario {
    var t := Tree((h: seq<Answer>) =>
                    if h == [] then Read(ACCOUNT_A)
                    else if |h| == 1 && SeesA(input) then Read(ACCOUNT_B)
                    else End(false, true),
                  (h: seq<Answer>) => if h == [] then 2 else if |h| == 1 then 1 else 0);
    assert Terminates(t);
    t
  }

  const LOOK: Program := (input: PassInput) => Look(input)

  /** A read by a source that owns nothing is requested and does not fail. */
  lemma OneRead(config: Settings, s: Source, n: nat, key: LedgerKey)
    requires Encoded() && CacheOn(s.cache, TWO_ACCOUNTS) && s.failure.None? && s.local == Local({}, {})
    requires key == ACCOUNT_A || key == ACCOUNT_B
    ensures var next := SourceGet(Some(TwoAccounts(config)), s, n, key).0;
      && next.failure.None? && next.local == s.local && CacheOn(next.cache, TWO_ACCOUNTS)
      && next.requested == s.requested[KeyXdr(key).value := key]
  {
    TwoAccountsLookup();
    ExactIsReliable(config, TWO_ACCOUNTS);
    ReliableIsUnchanging(TwoAccounts(config), config, TWO_ACCOUNTS);
    hide Reliable, Unchanging, CacheOn;
    GetSucceeds(TwoAccounts(config), config, s, n, key, TWO_ACCOUNTS);
    GetOnLedger(TwoAccounts(config), s, n, key, TWO_ACCOUNTS);
  }

  /** What the scenario asks for: A, and B when the snapshot holds A. */
  function LookedFor(sees: bool): Keys
    requires Encoded()
  {
    if sees then map[IdA() := ACCOUNT_A][IdB() := ACCOUNT_B] else map[IdA() := ACCOUNT_A]
  }

  lemma LookRuns(config: Settings, n: nat, cache: Coverage, input: PassInput)
    requires Encoded() && CacheOn(cache, TWO_ACCOUNTS)
    ensures var pass := Run(Some(TwoAccounts(config)), Look(input), NewPass(cache, n));
      && pass.source.failure.None? && pass.source.local == Local({}, {}) && pass.stored == []
      && pass.source.requested == LookedFor(SeesA(input))
      && Look(input).next(pass.history) == End(false, true)
  {
    hide SourceGet, CacheOn, TwoAccounts;
    var p := TwoAccounts(config);
    var start := NewPass(cache, n);
    ActGrowsHistory(Some(p), Read(ACCOUNT_A), start);
    OneRead(config, start.source, n, ACCOUNT_A);
    var first := Act(Some(p), Read(ACCOUNT_A), start);
    assert Run(Some(p), Look(input), start) == Run(Some(p), Look(input), first);
    if SeesA(input) {
      ActGrowsHistory(Some(p), Read(ACCOUNT_B), first);
      OneRead(config, first.source, first.n, ACCOUNT_B);
      var second := Act(Some(p), Read(ACCOUNT_B), first);
      assert Run(Some(p), Look(input), first) == second;
    } else {
      assert Run(Some(p), Look(input), first) == first;
    }
  }

  /** On this ledger the snapshot holds A exactly when A is among the keys. */
  lemma SeesWhatIsHeld(config: Settings, keys: Keys, m: Materialized)
    requires Encoded() && Ready(config, TwoAccounts(config), keys, m) && Holdable(keys)
    ensures CacheOn(m.coverage, TWO_ACCOUNTS) && m.coverage.Keys == keys.Keys
    ensures IdA() in PresentPart(m.coverage) <==> IdA() in keys
  {
    TwoAccountsLookup();
    ExactIsReliable(config, TWO_ACCOUNTS);
    ReliableIsUnchanging(TwoAccounts(config), config, TWO_ACCOUNTS);
    hide Ready, Reliable, Unchanging;
    ReadyOnLedger(config, TwoAccounts(config), keys, m, TWO_ACCOUNTS);
    ReadyCoverage(config, TwoAccounts(config), keys, m);
    if IdA() in keys {
      assert m.coverage[IdA()] == TWO_ACCOUNTS.Lookup(ACCOUNT_A);
    }
  }

  lemma LookedForIsNetwork(pass: Pass, sees: bool)
    requires Encoded() && pass.stored == [] && pass.source.requested == LookedFor(sees)
    ensures Encodes(pass.stored, pass.source.local) && NetworkKeys(Touched(pass)) == LookedFor(sees)
    ensures Holdable(LookedFor(sees))
  {
    AccountsDiffer();
    assert Encodes(pass.stored, pass.source.local);
    assert Touched(pass) == LookedFor(sees);
  }

  /** Each round finds what the snapshot of the one before it was missing. */
  lemma LookVerdict(config: Settings, n: nat, keys: Keys, m: Materialized)
    requires Encoded() && Ready(config, TwoAccounts(config), keys, m) && Holdable(keys)
    ensures var pass := RunPass(TwoAccounts(config), n, LOOK, m);
      var verdict := Judge(keys, pass, EndOf(LOOK, m, pass));
      if IdA() in keys && IdB() in keys then verdict == Fixed
      else verdict == More(keys + LookedFor(IdA() in keys)) && Holdable(keys + LookedFor(IdA() in keys))
  {
    AccountsDiffer();
    SeesWhatIsHeld(config, keys, m);
    var p, input := TwoAccounts(config), InputOf(m.info, m.coverage);
    LookRuns(config, n, m.coverage, input);
    var pass := RunPass(p, n, LOOK, m);
    hide Ready, Run, CacheOn, TwoAccounts, PresentPart;
    LookedForIsNetwork(pass, IdA() in keys);
    HoldableUnion(keys, LookedFor(IdA() in keys));
    LookAdds(keys);
    if IdA() in keys && IdB() in keys {
      ReadsMeanOutsideCoverage(p, Look(input), m.coverage, n);
    }
  }

  lemma LookAdds(keys: Keys)
    requires Encoded()
    ensures (keys + LookedFor(IdA() in keys)).Keys == keys.Keys <==> IdA() in keys && IdB() in keys
  {
    AccountsDiffer();
    var found := LookedFor(IdA() in keys);
    assert (keys + found).Keys == keys.Keys + found.Keys;
    if IdA() in keys && IdB() in keys {
      assert (keys + found).Keys == keys.Keys;
    } else if IdA() in keys {
      assert IdB() in (keys + found).Keys;
    } else {
      assert IdA() in (keys + found).Keys;
    }
  }

  lemma LookSeals(config: Settings, keys: Keys, m: Materialized, round: nat)
    requires Encoded() && Ready(config, TwoAccounts(config), keys, m) && Holdable(keys)
    ensures Seal(config, m, round).Ok?
  {
    TwoAccountsLookup();
    ExactIsReliable(config, TWO_ACCOUNTS);
    TwoAccountsValid(config);
    ReliableIsUnchanging(TwoAccounts(config), config, TWO_ACCOUNTS);
    SealSucceeds(config, TwoAccounts(config), keys, m, round, TWO_ACCOUNTS);
  }

  /** From round `round` on: one more round for each account that is not among the keys yet. */
  lemma LookRounds(config: Settings, n: nat, keys: Keys, m: Materialized, round: nat)
    requires Encoded() && Ready(config, TwoAccounts(config), keys, m) && Holdable(keys)
    requires config.maxCoherenceAttempts > 0 && (IdB() in keys ==> IdA() in keys)
    ensures var r := Rounds(config, TwoAccounts(config), n, LOOK, keys, m, round).0;
      var last := round + if IdB() in keys then 0 else if IdA() in keys then 1 else 2;
      if last <= config.maxDiscoveryRounds then r.Ok? && r.value.round == last
      else r == Err(FixedPointLimit(config.maxDiscoveryRounds))
    decreases if IdB() in keys then 0 else if IdA() in keys then 1 else 2
  {
    var p := TwoAccounts(config);
    hide Ready, Holdable, RunPass, EndOf, Judge, Seal, Refetch, TwoAccounts, LookedFor;
    PassEnds(p, n, LOOK, m);
    LookVerdict(config, n, keys, m);
    if IdB() in keys {
      LookSeals(config, keys, m, round);
    } else if round <= config.maxDiscoveryRounds {
      var wider := keys + LookedFor(IdA() in keys);
      LookFinds(keys);
      var pass := RunPass(p, n, LOOK, m);
      AccountsRefetched(config, pass.n, wider);
      var (next, k) := Refetch(config, p, pass.n, wider);
      LookRounds(config, k, next.value.0, next.value.1, round + 1);
    }
  }

  lemma LookFinds(keys: Keys)
    requires Encoded()
    ensures var wider := keys + LookedFor(IdA() in keys);
      IdA() in wider && (IdB() in wider <==> IdB() in keys || IdA() in keys)
  {
    AccountsDiffer();
  }

  /**
   Two rounds are not enough for every scenario: on a ledger that never changes, with a
   provider that never fails, this one needs three. A limit of two ends in
   `FixedPointLimit`, a greater one in a capture of three rounds.
   */
  lemma SightedScenarioTakesThreeRounds(config: Settings)
    requires Encoded() && config.maxCoherenceAttempts > 0
    ensures var r := CaptureFrom(config, TwoAccounts(config), 0, LOOK, map[]).0;
      if config.maxDiscoveryRounds < 3 then r == Err(FixedPointLimit(config.maxDiscoveryRounds))
      else r.Ok? && r.value.round == 3
  {
    NetworkAccepted(config);
    hide Ready, Refetch, Rounds, TwoAccounts, ValidateNetwork, Holdable, IdA, IdB;
    NothingHoldable();
    AccountsRefetched(config, 1, map[]);
    var (start, k) := Refetch(config, TwoAccounts(config), 1, map[]);
    LookRounds(config, k, start.value.0, start.value.1, 1);
  }

  // ----- A scenario whose result depends on the seed -----

  /** End at once, with a panic unless the snapshot holds account A. */
  function Insist(input: PassInput): Scenario {
    var t := Tree((h: seq<Answer>) => End(!SeesA(input), true), (h: seq<Answer>) => 0);
    assert Terminates(t);
    t
  }

  const INSIST: Program := (input: PassInput) => Insist(input)

  lemma InsistVerdict(config: Settings, n: nat, keys: Keys, m: Materialized)
    requires Encoded() && Ready(config, TwoAccounts(config), keys, m) && Holdable(keys)
    ensures var pass := RunPass(TwoAccounts(config), n, INSIST, m);
      Judge(keys, pass, EndOf(INSIST, m, pass)) == if IdA() in keys then Fixed else Stop(ScenarioPanicked)
  {
    hide Ready, Run, CacheOn, TwoAccounts, PresentPart, Touched, NetworkKeys, Encodes, Holdable, Judge;
    SeesWhatIsHeld(config, keys, m);
    InsistRuns(TwoAccounts(config), n, m.coverage, InputOf(m.info, m.coverage));
    NothingNew(keys, NewPass(m.coverage, n), End(IdA() !in keys, true));
  }

  lemma NothingNew(keys: Keys, pass: Pass, end: Action)
    requires pass.stored == [] && pass.source == NewSource(pass.source.cache)
    requires end.End? && end.inspectable
    ensures Judge(keys, pass, end) == if end.panicked then Stop(ScenarioPanicked) else Fixed
  {
    NothingTouched(pass);
    hide Touched, NetworkKeys, Encodes;
    assert keys + map[] == keys;
  }

  lemma InsistRuns(p: Provider, n: nat, cache: Coverage, input: PassInput)
    ensures Run(Some(p), Insist(input), NewPass(cache, n)) == NewPass(cache, n)
  {
  }

  lemma NothingTouched(pass: Pass)
    requires pass.stored == [] && pass.source.requested == map[]
    ensures Encodes(pass.stored, pass.source.local) && NetworkKeys(Touched(pass)) == map[]
  {
  }

  /** On the same ledger this scenario panics from an empty seed and is captured from one that holds A. */
  lemma SeedDecidesSightedScenario(config: Settings, seed: Keys)
    requires Encoded() && config.maxCoherenceAttempts > 0 && config.maxDiscoveryRounds > 0 && Holdable(seed)
    ensures var r := CaptureFrom(config, TwoAccounts(config), 0, INSIST, seed).0;
      if IdA() in seed then r.Ok? else r == Err(ScenarioPanicked)
  {
    NetworkAccepted(config);
    hide Ready, Refetch, TwoAccounts, Holdable, Rounds, ValidateNetwork, IdA, IdB;
    AccountsRefetched(config, 1, seed);
    var (start, k) := Refetch(config, TwoAccounts(config), 1, seed);
    InsistRound(config, k, start.value.0, start.value.1);
  }

  lemma InsistRound(config: Settings, n: nat, keys: Keys, m: Materialized)
    requires Encoded() && Ready(config, TwoAccounts(config), keys, m) && Holdable(keys) && config.maxDiscoveryRounds > 0
    ensures var r := Rounds(config, TwoAccounts(config), n, INSIST, keys, m, 1).0;
      if IdA() in keys then r.Ok? else r == Err(ScenarioPanicked)
  {
    hide Ready, TwoAccounts, Holdable, RunPass, EndOf, Judge, Seal, IdA, IdB;
    PassEnds(TwoAccounts(config), n, INSIST, m);
    InsistVerdict(config, n, keys, m);
    LookSeals(config, keys, m, 1);
  }

  // ----- A scenario that panics until its key is captured -----

  /** Read account A, then end with a panic unless the snapshot holds it, as a scenario does that unwraps a preview. */
  function Demand(input: PassInput): Scenario {
    var t := Tree((h: seq<Answer>) => if h == [] then Read(ACCOUNT_A) else End(!SeesA(input), true),
                  (h: seq<Answer>) => if h == [] then 1 else 0);
    assert Terminates(t);
    t
  }

  const DEMAND: Program := (input: PassInput) => Demand(input)

  lemma DemandRuns(config: Settings, n: nat, cache: Coverage, input: PassInput)
    requires Encoded() && CacheOn(cache, TWO_ACCOUNTS)
    ensures var pass := Run(Some(TwoAccounts(config)), Demand(input), NewPass(cache, n));
      && pass.source.failure.None? && pass.stored == [] && pass.source.requested == LookedFor(false)
      && Demand(input).next(pass.history) == End(!SeesA(input), true)
  {
    hide SourceGet, CacheOn, TwoAccounts;
    var p := TwoAccounts(config);
    var start := NewPass(cache, n);
    ActGrowsHistory(Some(p), Read(ACCOUNT_A), start);
    OneRead(config, start.source, n, ACCOUNT_A);
    var first := Act(Some(p), Read(ACCOUNT_A), start);
    assert Run(Some(p), Demand(input), start) == first;
  }

  lemma DemandVerdict(config: Settings, n: nat, keys: Keys, m: Materialized)
    requires Encoded() && Ready(config, TwoAccounts(config), keys, m) && Holdable(keys)
    ensures var pass := RunPass(TwoAccounts(config), n, DEMAND, m);
      var verdict := Judge(keys, pass, EndOf(DEMAND, m, pass));
      if IdA() in keys then verdict == Fixed
      else verdict == More(keys + LookedFor(false)) && Holdable(keys + LookedFor(false))
  {
    SeesWhatIsHeld(config, keys, m);
    var p, input := TwoAccounts(config), InputOf(m.info, m.coverage);
    DemandRuns(config, n, m.coverage, input);
    var pass := RunPass(p, n, DEMAND, m);
    if IdA() in keys {
      ReadsMeanOutsideCoverage(p, Demand(input), m.coverage, n);
    }
    hide Ready, Run, CacheOn, TwoAccounts, PresentPart, Judge, LookedFor, SeesA, Holdable;
    DemandJudged(keys, pass, EndOf(DEMAND, m, pass));
  }

  lemma DemandJudged(keys: Keys, pass: Pass, end: Action)
    requires Encoded() && pass.stored == [] && pass.source.requested == LookedFor(false) && Holdable(keys)
    requires pass.source.failure.None? && (IdA() in keys ==> pass.source.rpcReads == 0)
    requires end == End(IdA() !in keys, true)
    ensures var verdict := Judge(keys, pass, end);
      if IdA() in keys then verdict == Fixed
      else verdict == More(keys + LookedFor(false)) && Holdable(keys + LookedFor(false))
  {
    LookedForIsNetwork(pass, false);
    HoldableUnion(keys, LookedFor(false));
    DemandAdds(keys);
    hide LookedFor, Holdable, Touched, NetworkKeys, Encodes;
  }

  lemma DemandAdds(keys: Keys)
    requires Encoded()
    ensures (keys + LookedFor(false)).Keys == keys.Keys <==> IdA() in keys
    ensures IdA() in keys + LookedFor(false)
  {
    assert (keys + LookedFor(false)).Keys == keys.Keys + LookedFor(false).Keys;
    if IdA() in keys {
      assert (keys + LookedFor(false)).Keys == keys.Keys;
    } else {
      assert IdA() in (keys + LookedFor(false)).Keys;
    }
  }

  lemma DemandRound(config: Settings, n: nat, keys: Keys, m: Materialized, round: nat)
    requires Encoded() && Ready(config, TwoAccounts(config), keys, m) && Holdable(keys) && IdA() in keys
    requires round <= config.maxDiscoveryRounds
    ensures var r := Rounds(config, TwoAccounts(config), n, DEMAND, keys, m, round).0; r.Ok? && r.value.round == round
  {
    hide Ready, TwoAccounts, Holdable, RunPass, EndOf, Judge, Seal, IdA, IdB, LookedFor;
    PassEnds(TwoAccounts(config), n, DEMAND, m);
    DemandVerdict(config, n, keys, m);
    LookSeals(config, keys, m, round);
  }

  lemma DemandFirstRound(config: Settings, n: nat, keys: Keys, m: Materialized)
    requires Encoded() && Ready(config, TwoAccounts(config), keys, m) && Holdable(keys) && IdA() !in keys
    requires config.maxCoherenceAttempts > 0 && config.maxDiscoveryRounds >= 2
    ensures var r := Rounds(config, TwoAccounts(config), n, DEMAND, keys, m, 1).0; r.Ok? && r.value.round == 2
  {
    hide Ready, TwoAccounts, Holdable, RunPass, EndOf, Judge, Seal, IdA, IdB, LookedFor, Refetch;
    PassEnds(TwoAccounts(config), n, DEMAND, m);
    DemandVerdict(config, n, keys, m);
    DemandAdds(keys);
    var pass := RunPass(TwoAccounts(config), n, DEMAND, m);
    AccountsRefetched(config, pass.n, keys + LookedFor(false));
    var (next, k) := Refetch(config, TwoAccounts(config), pass.n, keys + LookedFor(false));
    DemandRound(config, k, next.value.0, next.value.1, 2);
  }

  /** A panic that the next round cures is not the result: this scenario is captured in two rounds. */
  lemma PanicIsTriedAgain(config: Settings)
    requires Encoded() && config.maxCoherenceAttempts > 0 && config.maxDiscoveryRounds >= 2
    ensures var r := CaptureFrom(config, TwoAccounts(config), 0, DEMAND, map[]).0; r.Ok? && r.value.round == 2
  {
    NetworkAccepted(config);
    hide Ready, Refetch, Rounds, TwoAccounts, ValidateNetwork, Holdable, IdA, IdB;
    NothingHoldable();
    AccountsRefetched(config, 1, map[]);
    var (start, k) := Refetch(config, TwoAccounts(config), 1, map[]);
    DemandFirstRound(config, k, start.value.0, start.value.1);
  }
}
