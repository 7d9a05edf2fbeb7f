/**
 What strict replay is strict about (`replay_with_local`, src/capture.rs): for every
 fixture and every scenario, not only for a capture and its own.
 */
module StrictReplays {
  import opened Wrappers
  import opened Ledger
  import opened Errors
  import opened Bundles
  import opened Scenarios
  import opened Discovery

  // ----- Requests of a strict pass -----

  /** Unknown is exactly what was requested outside the coverage, and the coverage stays. */
  predicate Strict(coverage: Coverage, s: Source) {
    s.cache == coverage && s.unknown == s.requested.Keys - coverage.Keys
  }

  lemma StrictGetStays(coverage: Coverage, s: Source, n: nat, key: LedgerKey)
    requires Strict(coverage, s)
    ensures Strict(coverage, SourceGet(None, s, n, key).0)
  {
    var next := SourceGet(None, s, n, key).0;
    if next.requested != s.requested {
      var id := KeyXdr(key).value;
      assert next.requested.Keys == s.requested.Keys + {id};
    }
  }

  lemma {:induction false} StrictRun(coverage: Coverage, scenario: Scenario, st: Pass)
    requires Strict(coverage, st.source)
    ensures Strict(coverage, Run(None, scenario, st).source)
    decreases scenario.rank(st.history)
  {
    hide Strict, SourceGet;
    var action := scenario.next(st.history);
    if !action.End? {
      ActGrowsHistory(None, action, st);
      var next := Act(None, action, st);
      if action.Read? {
        StrictGetStays(coverage, st.source, st.n, action.key);
      } else {
        StrictSame(coverage, st.source, next.source);
      }
      StrictRun(coverage, scenario, next);
    }
  }

  lemma StrictSame(coverage: Coverage, a: Source, b: Source)
    requires Strict(coverage, a) && b.cache == a.cache && b.unknown == a.unknown && b.requested == a.requested
    ensures Strict(coverage, b)
  {
  }

  // ----- The result of a replay -----

  /** Ids of the keys left stored that the scenario does not own. */
  function StoredIds(pass: Pass): set<KeyId> {
    set k | k in pass.stored && !pass.source.local.Owns(k) && KeyXdr(k).Some? :: KeyXdr(k).value
  }

  /** Ids outside the fixture that a pass requested or left stored. */
  function Outside(f: CapturedFixture, pass: Pass): set<KeyId> {
    (pass.source.requested.Keys + StoredIds(pass)) - f.coverage.Keys
  }

  function EndOfReplay(f: CapturedFixture, program: Program): Action {
    program(InputOf(f.fixture.snapshot.info, f.coverage)).next(ReplayPass(f, program).history)
  }

  lemma UnknownIsOutside(f: CapturedFixture, pass: Pass)
    requires Strict(f.coverage, pass.source) && Encodes(pass.stored, pass.source.local)
    ensures ReplayUnknown(f, pass) == Outside(f, pass)
  {
    var keys := StoredKeys(pass.stored, pass.source.local);
    forall id ensures id in keys <==> id in StoredIds(pass) {
      if id in keys {
        assert KeyXdr(keys[id]) == Some(id);
      }
    }
  }

  /**
   For every fixture and scenario: replay succeeds exactly when the Host can be
   inspected, every stored key of others can be encoded, nothing was requested or left
   stored outside the fixture, and the scenario did not panic; and each failure is told
   apart, the third with the number of keys outside.
   */
  lemma ReplayDecided(f: CapturedFixture, program: Program)
    ensures var r, pass, end := Replay(f, program), ReplayPass(f, program), EndOfReplay(f, program);
      var others := forall k | k in pass.stored && !pass.source.local.Owns(k) :: KeyXdr(k).Some?;
      && end.End?
      && (r == Ok(()) <==> end.inspectable && others && Outside(f, pass) == {} && !end.panicked)
      && (r == Err(HostInspection) <==> !end.inspectable)
      && (r == Err(Xdr) <==> end.inspectable && !others)
      && (forall c: nat :: r == Err(UnknownLedgerKeys(c)) <==>
            end.inspectable && others && Outside(f, pass) != {} && c == |Outside(f, pass)|)
      && (r == Err(ScenarioPanicked) <==> end.inspectable && others && Outside(f, pass) == {} && end.panicked)
  {
    hide ReplayUnknown, StoredKeys, Outside, Run;
    var pass := ReplayPass(f, program);
    StrictRun(f.coverage, program(InputOf(f.fixture.snapshot.info, f.coverage)), NewPass(f.coverage, 0)) by {
      StrictStart(f.coverage);
    }
    if Encodes(pass.stored, pass.source.local) {
      UnknownIsOutside(f, pass);
    }
  }

  lemma StrictStart(coverage: Coverage)
    ensures Strict(coverage, NewSource(coverage))
  {
  }

  // ----- Every step of a strict pass -----

  /** The marks that the first `i` actions have made. */
  function MarksBefore(scenario: Scenario, history: seq<Answer>, i: nat): Local
    requires i <= |history|
  {
    if i == 0 then Local({}, {})
    else
      var local := MarksBefore(scenario, history, i - 1);
      match scenario.next(history[..i - 1])
      case MarkAddress(address) => local.(addresses := local.addresses + {address})
      case MarkCode(hash) => local.(codes := local.codes + {hash})
      case _ => local
  }

  /** An earlier read was of a key that cannot be encoded: the source has failed for good. */
  function BrokenBefore(scenario: Scenario, history: seq<Answer>, i: nat): bool
    requires i <= |history|
  {
    i > 0 && (BrokenBefore(scenario, history, i - 1) || Unreadable(scenario.next(history[..i - 1])))
  }

  predicate Unreadable(action: Action) {
    action.Read? && KeyXdr(action.key).None?
  }

  /** What strict replay answers at a step, told from the fixture and the earlier steps alone. */
  function StrictAnswer(coverage: Coverage, local: Local, broken: bool, action: Action): Answer
    requires !action.End?
  {
    if !action.Read? then Acted
    else if broken || KeyXdr(action.key).None? then HostError
    else if local.Owns(action.key) then Found(None)
    else if KeyXdr(action.key).value in coverage then Found(AsValue(coverage[KeyXdr(action.key).value]))
    else HostError
  }

  /** A step that read someone else's key. */
  predicate AsksAt(scenario: Scenario, history: seq<Answer>, i: nat, key: LedgerKey)
    requires i < |history|
  {
    && scenario.next(history[..i]) == Read(key) && KeyXdr(key).Some?
    && !BrokenBefore(scenario, history, i) && !MarksBefore(scenario, history, i).Owns(key)
  }

  /** The history of a strict pass, step by step. */
  ghost predicate StepAt(coverage: Coverage, scenario: Scenario, st: Pass, i: nat)
    requires i < |st.history|
  {
    var action := scenario.next(st.history[..i]);
    && !action.End?
    && st.history[i] == StrictAnswer(coverage, MarksBefore(scenario, st.history, i),
                                     BrokenBefore(scenario, st.history, i), action)
    && (action.Read? && AsksAt(scenario, st.history, i, action.key) ==> KeyXdr(action.key).value in st.source.requested)
    && (action.Store? ==> action.key in st.stored)
  }

  ghost predicate Traced(coverage: Coverage, scenario: Scenario, st: Pass) {
    && Strict(coverage, st.source)
    && st.source.local == MarksBefore(scenario, st.history, |st.history|)
    && (st.source.failure.Some? <==> BrokenBefore(scenario, st.history, |st.history|))
    && (forall i | 0 <= i < |st.history| :: StepAt(coverage, scenario, st, i))
  }

  /** The past does not change. */
  lemma {:induction false} PastStays(scenario: Scenario, history: seq<Answer>, a: Answer, i: nat)
    requires i <= |history|
    ensures MarksBefore(scenario, history + [a], i) == MarksBefore(scenario, history, i)
    ensures BrokenBefore(scenario, history + [a], i) == BrokenBefore(scenario, history, i)
  {
    if i > 0 {
      assert (history + [a])[..i - 1] == history[..i - 1];
      PastStays(scenario, history, a, i - 1);
    }
  }

  lemma StepStays(coverage: Coverage, scenario: Scenario, st: Pass, next: Pass, a: Answer, i: nat)
    requires i < |st.history| && StepAt(coverage, scenario, st, i) && next.history == st.history + [a]
    requires forall id | id in st.source.requested :: id in next.source.requested
    requires forall k | k in st.stored :: k in next.stored
    ensures StepAt(coverage, scenario, next, i)
  {
    hide StrictAnswer, MarksBefore, BrokenBefore;
    assert next.history[..i] == st.history[..i];
    PastStays(scenario, st.history, a, i);
  }

  /** One more action of a strict pass. */
  lemma ActTraced(coverage: Coverage, scenario: Scenario, st: Pass)
    requires Traced(coverage, scenario, st) && !scenario.next(st.history).End?
    ensures Traced(coverage, scenario, Act(None, scenario.next(st.history), st))
  {
    var action, n := scenario.next(st.history), |st.history|;
    var next := Act(None, action, st);
    ActGrowsHistory(None, action, st);
    var a :| next.history == st.history + [a];
    ActStrict(coverage, action, st);
    NewStep(coverage, scenario, st, next, a);
    ActKeeps(action, st);
    hide Act, StepAt, MarksBefore, BrokenBefore;
    forall i | 0 <= i < |next.history| ensures StepAt(coverage, scenario, next, i) {
      if i < n {
        StepStays(coverage, scenario, st, next, a, i);
      }
    }
  }

  lemma ActStrict(coverage: Coverage, action: Action, st: Pass)
    requires Strict(coverage, st.source) && !action.End?
    ensures Strict(coverage, Act(None, action, st).source)
  {
    if action.Read? {
      StrictGetStays(coverage, st.source, st.n, action.key);
    }
  }

  lemma ActKeeps(action: Action, st: Pass)
    requires !action.End?
    ensures var next := Act(None, action, st);
      && (forall id | id in st.source.requested :: id in next.source.requested)
      && (forall k | k in st.stored :: k in next.stored)
  {
  }

  lemma NewStep(coverage: Coverage, scenario: Scenario, st: Pass, next: Pass, a: Answer)
    requires Traced(coverage, scenario, st) && !scenario.next(st.history).End?
    requires next == Act(None, scenario.next(st.history), st) && next.history == st.history + [a]
    ensures StepAt(coverage, scenario, next, |st.history|)
    ensures next.source.local == MarksBefore(scenario, next.history, |next.history|)
    ensures next.source.failure.Some? <==> BrokenBefore(scenario, next.history, |next.history|)
  {
    var n := |st.history|;
    hide StepAt;
    assert next.history[..n] == st.history;
    PastStays(scenario, st.history, a, n);
    assert MarksBefore(scenario, next.history, n) == st.source.local;
    assert BrokenBefore(scenario, next.history, n) == st.source.failure.Some?;
    StepMade(coverage, scenario, st, next);
  }

  lemma StepMade(coverage: Coverage, scenario: Scenario, st: Pass, next: Pass)
    requires !scenario.next(st.history).End? && next == Act(None, scenario.next(st.history), st)
    requires |next.history| == |st.history| + 1 && next.history[..|st.history|] == st.history
    requires Strict(coverage, st.source)
    requires MarksBefore(scenario, next.history, |st.history|) == st.source.local
    requires BrokenBefore(scenario, next.history, |st.history|) == st.source.failure.Some?
    ensures StepAt(coverage, scenario, next, |st.history|)
  {
    hide MarksBefore, BrokenBefore;
  }

  lemma {:induction false} RunTraced(coverage: Coverage, scenario: Scenario, st: Pass)
    requires Traced(coverage, scenario, st)
    ensures Traced(coverage, scenario, Run(None, scenario, st))
    decreases scenario.rank(st.history)
  {
    hide Traced, Act;
    var action := scenario.next(st.history);
    if !action.End? {
      ActGrowsHistory(None, action, st);
      ActTraced(coverage, scenario, st);
      RunTraced(coverage, scenario, Act(None, action, st));
    }
  }

  function ReplayScenario(f: CapturedFixture, program: Program): Scenario {
    program(InputOf(f.fixture.snapshot.info, f.coverage))
  }

  /** Every answer of a replay is determined by the fixture and the steps before it. */
  lemma ReplayTraced(f: CapturedFixture, program: Program)
    ensures Traced(f.coverage, ReplayScenario(f, program), ReplayPass(f, program))
  {
    StrictStart(f.coverage);
    RunTraced(f.coverage, ReplayScenario(f, program), NewPass(f.coverage, 0));
  }

  /**
   A replay that returned Ok: whenever the scenario read a key it had not marked as its
   own, the fixture holds that key, and the answer was what the fixture holds.
   */
  lemma ReplayReadsAreCovered(f: CapturedFixture, program: Program, i: nat, key: LedgerKey)
    requires i < |ReplayPass(f, program).history|
    requires AsksAt(ReplayScenario(f, program), ReplayPass(f, program).history, i, key)
    ensures Replay(f, program) == Ok(()) ==>
      && KeyXdr(key).value in f.coverage
      && ReplayPass(f, program).history[i] == Found(AsValue(f.coverage[KeyXdr(key).value]))
  {
    hide Traced, ReplayPass, MarksBefore, BrokenBefore, Replay;
    ReplayTraced(f, program);
    ReplayDecided(f, program);
    TracedAt(f.coverage, ReplayScenario(f, program), ReplayPass(f, program), i);
    if Replay(f, program) == Ok(()) {
      assert KeyXdr(key).value !in Outside(f, ReplayPass(f, program));
    }
  }

  lemma TracedAt(coverage: Coverage, scenario: Scenario, st: Pass, i: nat)
    requires Traced(coverage, scenario, st) && i < |st.history|
    ensures StepAt(coverage, scenario, st, i)
  {
  }

  /** A key that belongs to something marked. */
  predicate BelongsTo(key: LedgerKey, mark: Action) {
    match mark
    case MarkAddress(address) =>
      || (key.ContractData? && key.contract == address)
      || ((key.Account? || key.Trustline?) && AccountAddress(key.accountId) == address)
    case MarkCode(hash) => key == ContractCode(hash)
    case _ => false
  }

  lemma {:induction false} MarkStays(scenario: Scenario, history: seq<Answer>, j: nat, i: nat, key: LedgerKey)
    requires j < i <= |history| && BelongsTo(key, scenario.next(history[..j]))
    ensures MarksBefore(scenario, history, i).Owns(key)
  {
    if j < i - 1 {
      MarkStays(scenario, history, j, i - 1, key);
    }
  }

  lemma {:induction false} OwnedWasMarked(scenario: Scenario, history: seq<Answer>, i: nat, key: LedgerKey)
    requires i <= |history| && MarksBefore(scenario, history, i).Owns(key)
    ensures exists j :: 0 <= j < i && BelongsTo(key, scenario.next(history[..j]))
  {
    if i > 0 {
      if MarksBefore(scenario, history, i - 1).Owns(key) {
        OwnedWasMarked(scenario, history, i - 1, key);
      } else {
        assert BelongsTo(key, scenario.next(history[..i - 1]));
      }
    }
  }

  /**
   A key is the scenario's own exactly when it marked its contract, account or code
   before; and reading it then answers that there is nothing, whatever the fixture holds.
   */
  lemma MarkedReadsAreLocal(f: CapturedFixture, program: Program, i: nat, key: LedgerKey)
    requires i < |ReplayPass(f, program).history|
    ensures var scenario, history := ReplayScenario(f, program), ReplayPass(f, program).history;
      MarksBefore(scenario, history, i).Owns(key) <==>
          exists j :: 0 <= j < i && BelongsTo(key, scenario.next(history[..j]))
    ensures var scenario, history := ReplayScenario(f, program), ReplayPass(f, program).history;
      (scenario.next(history[..i]) == Read(key) && KeyXdr(key).Some? && !BrokenBefore(scenario, history, i)
       && MarksBefore(scenario, history, i).Owns(key)) ==>
        history[i] == Found(None)
  {
    hide Traced, ReplayPass, MarksBefore, BrokenBefore, Replay, BelongsTo;
    var scenario, history := ReplayScenario(f, program), ReplayPass(f, program).history;
    ReplayTraced(f, program);
    TracedAt(f.coverage, scenario, ReplayPass(f, program), i);
    if MarksBefore(scenario, history, i).Owns(key) {
      OwnedWasMarked(scenario, history, i, key);
    } else if j :| 0 <= j < i && BelongsTo(key, scenario.next(history[..j])) {
      MarkStays(scenario, history, j, i, key);
    }
  }
}
