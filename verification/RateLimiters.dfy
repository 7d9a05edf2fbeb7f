/**
 The request rate limiter and the retry loop behind every RPC read
 (`RequestRateLimiter`, `send_read_rpc_with_retry`, src/capture.rs).

 Instants and durations are natural numbers of nanoseconds. A request is granted
 the instant `now + delay`; the clock readings are arbitrary.
 */
module RateLimiters {
  import opened Wrappers
  import opened Bytes

  const SECOND: nat := 1_000_000_000
  const MILLISECOND: nat := 1_000_000

  // ----- The interval between two grants -----

  /** `request_interval`: zero for an unlimited rate. */
  function RequestInterval(rate: u32): nat {
    if rate == 0 then 0 else CeilDiv(SECOND, rate as nat)
  }

  function CeilDiv(n: nat, d: nat): nat
    requires d > 0
  {
    if n % d == 0 then n / d else n / d + 1
  }

  /** The least interval at which `rate` requests fill a whole second. */
  lemma IntervalIsLeast(rate: u32, interval: nat)
    requires rate > 0
    ensures interval >= RequestInterval(rate) <==> interval * rate as nat >= SECOND
  {
    var d := rate as nat;
    var q := SECOND / d;
    assert SECOND == q * d + SECOND % d;
    if interval >= RequestInterval(rate) {
      Scale(RequestInterval(rate), interval, d);
      assert RequestInterval(rate) == q + 1 ==> (q + 1) * d == q * d + d;
    } else {
      Scale(interval, RequestInterval(rate) - 1, d);
    }
  }

  lemma Scale(a: nat, b: nat, d: nat)
    requires a <= b
    ensures a * d <= b * d
  {
  }

  // ----- Reservations -----

  datatype Limiter = Limiter(interval: nat, next: Option<nat>)

  /** `reserve_delay`. */
  function Reserve(l: Limiter, now: nat): (nat, Limiter) {
    if l.interval == 0 then (0, l.(next := None))
    else if l.next.None? || l.next.value <= now then (0, l.(next := Some(now + l.interval)))
    else (l.next.value - now, l.(next := Some(l.next.value + l.interval)))
  }

  function After(l: Limiter, nows: seq<nat>): Limiter {
    if nows == [] then l else Reserve(After(l, nows[..|nows| - 1]), nows[|nows| - 1]).1
  }

  /** The instants granted to a sequence of requests. */
  function Grants(l: Limiter, nows: seq<nat>): (grants: seq<nat>)
    ensures |grants| == |nows|
  {
    if nows == [] then []
    else
      var n := |nows| - 1;
      Grants(l, nows[..n]) + [nows[n] + Reserve(After(l, nows[..n]), nows[n]).0]
  }

  lemma NothingGranted(l: Limiter)
    ensures Grants(l, []) == [] && After(l, []) == l
  {
  }

  lemma OneMoreGrant(l: Limiter, nows: seq<nat>, now: nat)
    ensures Grants(l, nows + [now]) == Grants(l, nows) + [now + Reserve(After(l, nows), now).0]
    ensures After(l, nows + [now]) == Reserve(After(l, nows), now).1
  {
    hide Reserve;
    var all := nows + [now];
    assert all[..|all| - 1] == nows && all[|all| - 1] == now;
  }

  /** Granting one list after another is granting the joined list. */
  lemma {:induction false} GrantsConcat(l: Limiter, a: seq<nat>, b: seq<nat>)
    ensures Grants(l, a + b) == Grants(l, a) + Grants(After(l, a), b)
    ensures After(l, a + b) == After(After(l, a), b)
    decreases |b|
  {
    hide Grants, After, Reserve;
    if b == [] {
      NothingGranted(After(l, a));
      assert a + b == a;
    } else {
      var init, now := b[..|b| - 1], b[|b| - 1];
      GrantsConcat(l, a, init);
      OneMoreGrant(l, a + init, now);
      OneMoreGrant(After(l, a), init, now);
      assert a + b == (a + init) + [now] && b == init + [now];
    }
  }

  function Max(a: nat, b: nat): nat {
    if a < b then b else a
  }

  /** The grant law: as early as possible, an interval after the previous one. */
  ghost predicate Spaced(grants: seq<nat>, nows: seq<nat>, interval: nat) {
    && |grants| == |nows|
    && (nows != [] ==> grants[0] == nows[0])
    && forall k | 1 <= k < |nows| :: grants[k] == Max(nows[k], grants[k - 1] + interval)
  }

  lemma {:induction false} GrantLaw(rate: u32, nows: seq<nat>)
    requires rate > 0
    ensures var l := Limiter(RequestInterval(rate), None);
      && Spaced(Grants(l, nows), nows, l.interval)
      && After(l, nows).interval == l.interval
      && After(l, nows).next == if nows == [] then None else Some(Grants(l, nows)[|nows| - 1] + l.interval)
    decreases |nows|
  {
    hide RequestInterval, Grants, After;
    assert RequestInterval(rate) > 0 by { IntervalIsLeast(rate, 0); }
    var l := Limiter(RequestInterval(rate), None);
    if nows == [] {
      NothingGranted(l);
    } else {
      var n := |nows| - 1;
      GrantLaw(rate, nows[..n]);
      if n == 0 {
        NothingGranted(l);
      }
      assert nows[..n] + [nows[n]] == nows;
      OneMoreGrant(l, nows[..n], nows[n]);
    }
  }

  /** No schedule that respects the clock and the interval sends any request earlier. */
  lemma {:induction false} GrantsAreEarliest(rate: u32, nows: seq<nat>, other: seq<nat>, k: nat)
    requires rate > 0 && |other| == |nows| && k < |nows|
    requires forall i | 0 <= i < |nows| :: nows[i] <= other[i]
    requires forall i | 1 <= i < |nows| :: other[i - 1] + RequestInterval(rate) <= other[i]
    ensures nows[k] <= Grants(Limiter(RequestInterval(rate), None), nows)[k] <= other[k]
  {
    GrantLaw(rate, nows);
    if k > 0 {
      GrantsAreEarliest(rate, nows, other, k - 1);
    }
  }

  lemma {:induction false} GrantGap(rate: u32, nows: seq<nat>, i: nat, j: nat)
    requires rate > 0 && i <= j < |nows|
    ensures var grants := Grants(Limiter(RequestInterval(rate), None), nows);
      grants[i] + (j - i) * RequestInterval(rate) <= grants[j]
    decreases j
  {
    if i < j {
      GrantLaw(rate, nows);
      GrantGap(rate, nows, i, j - 1);
      assert (j - i) * RequestInterval(rate) == (j - 1 - i) * RequestInterval(rate) + RequestInterval(rate);
    }
  }

  /** The requests granted in the half-open second that starts at `t`. */
  function Window(grants: seq<nat>, t: nat): set<nat> {
    set k: nat | k < |grants| && t <= grants[k] < t + SECOND
  }

  /** At most `rate` requests are granted in any second, whatever the clock says. */
  lemma RateBound(rate: u32, nows: seq<nat>, t: nat)
    requires rate > 0
    ensures |Window(Grants(Limiter(RequestInterval(rate), None), nows), t)| <= rate as nat
  {
    var grants := Grants(Limiter(RequestInterval(rate), None), nows);
    var window := Window(grants, t);
    var first := FirstSince(grants, t, 0);
    forall k | k in window ensures k in Span(first, rate as nat) {
      GrantGap(rate, nows, first, k);
      IntervalIsLeast(rate, RequestInterval(rate));
      if k >= first + rate as nat {
        Scale(rate as nat, k - first, RequestInterval(rate));
        assert false;
      }
    }
    SubsetSize(window, Span(first, rate as nat));
  }

  /** The first request from `k` on that is granted at `t` or later. */
  function FirstSince(grants: seq<nat>, t: nat, k: nat): (first: nat)
    requires k <= |grants|
    ensures k <= first <= |grants| && (first < |grants| ==> t <= grants[first])
    ensures forall i | k <= i < first :: grants[i] < t
    decreases |grants| - k
  {
    if k == |grants| || t <= grants[k] then k else FirstSince(grants, t, k + 1)
  }

  function Span(first: nat, n: nat): (span: set<nat>)
    ensures |span| == n
    ensures forall k: nat :: k in span <==> first <= k < first + n
  {
    if n == 0 then {} else Span(first, n - 1) + {first + n - 1}
  }

  lemma {:induction false} SubsetSize(a: set<nat>, b: set<nat>)
    requires a <= b
    ensures |a| <= |b|
  {
    if a != {} {
      var x :| x in a;
      SubsetSize(a - {x}, b - {x});
    }
  }

  // ----- Retries -----

  /** A `Retry-After` header after trimming and parsing. */
  datatype RetryAfter = NoHeader | Unreadable | Seconds(n: u64)

  datatype HttpOutcome =
    | Response(body: Vec8)
    | Status(code: nat, retryAfter: RetryAfter)
    | ConnectionError

  const BACKOFF: seq<nat> := [200 * MILLISECOND, 400 * MILLISECOND, 800 * MILLISECOND]
  const MAX_RETRY_AFTER: nat := 5 * SECOND

  predicate IsRetryable(code: nat) {
    code in {429, 500, 502, 503, 504}
  }

  /** `retry_delay`. */
  function RetryDelay(backoff: nat, header: RetryAfter): Option<nat> {
    if !header.Seconds? then Some(backoff)
    else if header.n as nat * SECOND > MAX_RETRY_AFTER then None
    else Some(Max(backoff, header.n as nat * SECOND))
  }

  /** The pause before the next send, when there is one. */
  function PauseAfter(outcome: HttpOutcome, retry: nat): Option<nat> {
    if outcome.Status? && IsRetryable(outcome.code) && retry < |BACKOFF|
    then RetryDelay(BACKOFF[retry], outcome.retryAfter) else None
  }

  lemma PausesRespectServer(script: nat -> HttpOutcome, pauses: seq<nat>)
    requires forall k | 0 <= k < |pauses| :: PauseAfter(script(k), k) == Some(pauses[k])
    ensures forall k | 0 <= k < |pauses| :: RespectsServer(script(k), k, pauses[k])
  {
    forall k | 0 <= k < |pauses| ensures RespectsServer(script(k), k, pauses[k]) {
      RetryRespectsServer(script(k), k);
    }
  }

  /** How often the request is sent when the server answers `script`. */
  function Sends(script: nat -> HttpOutcome, retry: nat): (n: nat)
    requires retry <= |BACKOFF|
    ensures retry < n <= |BACKOFF| + 1
    decreases |BACKOFF| - retry
  {
    if PauseAfter(script(retry), retry).None? then retry + 1 else Sends(script, retry + 1)
  }

  /** Every outcome but the last asked for a retry; the last one did not, or was the fourth. */
  lemma {:induction false} SendsExactly(script: nat -> HttpOutcome, retry: nat)
    requires retry <= |BACKOFF|
    ensures var n := Sends(script, retry);
      && PauseAfter(script(n - 1), n - 1).None?
      && (forall k | retry <= k < n - 1 :: PauseAfter(script(k), k).Some?)
    decreases |BACKOFF| - retry
  {
    if PauseAfter(script(retry), retry).Some? {
      SendsExactly(script, retry + 1);
    }
  }

  /** The pause that the server asks for. */
  function Asked(outcome: HttpOutcome): nat {
    if outcome.Status? && outcome.retryAfter.Seconds? then outcome.retryAfter.n as nat * SECOND else 0
  }

  /** The longer of what the server asks for and 200, 400 or 800 milliseconds, and no more than five seconds. */
  predicate RespectsServer(outcome: HttpOutcome, retry: nat, pause: nat) {
    && retry < 3
    && pause == Max(Asked(outcome), (if retry == 0 then 200 else if retry == 1 then 400 else 800) * MILLISECOND)
    && pause <= 5 * SECOND
  }

  /**
   A retry never comes earlier than the server asked for, nor earlier than the
   backoff, and never later than five seconds; a server that asks for more is not
   retried at all.
   */
  lemma RetryRespectsServer(outcome: HttpOutcome, retry: nat)
    ensures PauseAfter(outcome, retry).Some? <==>
      outcome.Status? && outcome.code in {429, 500, 502, 503, 504} && retry < 3 && Asked(outcome) <= 5 * SECOND
    ensures PauseAfter(outcome, retry).Some? ==> RespectsServer(outcome, retry, PauseAfter(outcome, retry).value)
  {
  }

  // ----- Sessions -----

  /** One RPC call: the clock it reads before each send, and the outcomes of its sends. */
  datatype Call = Call(clock: nat -> nat, script: nat -> HttpOutcome) {
    function SendTimes(): seq<nat> {
      Readings(clock, Sends(script, 0))
    }
  }

  function Readings(clock: nat -> nat, n: nat): seq<nat> {
    if n == 0 then [] else Readings(clock, n - 1) + [clock(n - 1)]
  }

  /** The limiter after some calls, each of which takes up where the one before it stopped. */
  function AfterCalls(l: Limiter, calls: seq<Call>): Limiter {
    if calls == [] then l else After(AfterCalls(l, calls[..|calls| - 1]), calls[|calls| - 1].SendTimes())
  }

  /** The grants of all sends of all calls. */
  function CallGrants(l: Limiter, calls: seq<Call>): seq<nat> {
    if calls == [] then []
    else
      var init, last := calls[..|calls| - 1], calls[|calls| - 1];
      CallGrants(l, init) + Grants(AfterCalls(l, init), last.SendTimes())
  }

  function AllSendTimes(calls: seq<Call>): seq<nat> {
    if calls == [] then [] else AllSendTimes(calls[..|calls| - 1]) + calls[|calls| - 1].SendTimes()
  }

  lemma {:induction false} CallsAreOneSequence(l: Limiter, calls: seq<Call>)
    ensures CallGrants(l, calls) == Grants(l, AllSendTimes(calls))
    ensures AfterCalls(l, calls) == After(l, AllSendTimes(calls))
    decreases |calls|
  {
    hide Grants, After, Readings;
    if calls == [] {
      NothingGranted(l);
    } else {
      var init, last := calls[..|calls| - 1], calls[|calls| - 1];
      CallsAreOneSequence(l, init);
      GrantsConcat(l, AllSendTimes(init), last.SendTimes());
    }
  }

  /** Over any session, retries included, no second sees more than `rate` sends. */
  lemma SessionRateBound(rate: u32, calls: seq<Call>, t: nat)
    requires rate > 0
    ensures |Window(CallGrants(Limiter(RequestInterval(rate), None), calls), t)| <= rate as nat
  {
    hide Window, CallGrants, Grants, RequestInterval;
    CallsAreOneSequence(Limiter(RequestInterval(rate), None), calls);
    RateBound(rate, AllSendTimes(calls), t);
  }

  // ----- The objects -----

  class RequestRateLimiter {
    var minInterval: nat
    var nextRequest: Option<nat>

    function State(): Limiter
      reads this
    {
      Limiter(minInterval, nextRequest)
    }

    constructor (rate: u32)
      ensures State() == Limiter(RequestInterval(rate), None)
    {
      minInterval := RequestInterval(rate);
      nextRequest := None;
    }

    method SetRequestsPerSecond(rate: u32)
      modifies this
      ensures State() == Limiter(RequestInterval(rate), None)
    {
      minInterval := RequestInterval(rate);
      nextRequest := None;
    }

    method ReserveDelay(now: nat) returns (delay: nat)
      modifies this
      ensures (delay, State()) == Reserve(old(State()), now)
    {
      if minInterval == 0 {
        nextRequest := None;
        return 0;
      }
      if nextRequest.None? {
        nextRequest := Some(now + minInterval);
        return 0;
      }
      var next := nextRequest.value;
      if next <= now {
        nextRequest := Some(now + minInterval);
        return 0;
      }
      nextRequest := Some(next + minInterval);
      return next - now;
    }
  }

  /**
   `send_read_rpc_with_retry` around the limiter: `call.clock(k)` is the time read before
   send k and `call.script(k)` its outcome. Every send, retries included, takes its own
   reservation.
   */
  method SendReadRpcWithRetry(limiter: RequestRateLimiter, call: Call)
    returns (outcome: HttpOutcome, sends: nat, grants: seq<nat>, pauses: seq<nat>)
    modifies limiter
    ensures sends == Sends(call.script, 0) && outcome == call.script(sends - 1)
    ensures |pauses| == sends - 1
    ensures forall k | 0 <= k < |pauses| :: PauseAfter(call.script(k), k) == Some(pauses[k])
    ensures forall k | 0 <= k < |pauses| :: RespectsServer(call.script(k), k, pauses[k])
    ensures grants == Grants(old(limiter.State()), call.SendTimes())
    ensures limiter.State() == After(old(limiter.State()), call.SendTimes())
  {
    hide Grants, After, Reserve;
    var retry := 0;
    grants, pauses := [], [];
    ghost var start := limiter.State();
    NothingGranted(start);
    ghost var nows: seq<nat> := [];
    while true
      invariant retry <= |BACKOFF| && Sends(call.script, 0) == Sends(call.script, retry)
      invariant |pauses| == retry
      invariant forall k | 0 <= k < |pauses| :: PauseAfter(call.script(k), k) == Some(pauses[k])
      invariant nows == Readings(call.clock, retry)
      invariant grants == Grants(start, nows) && limiter.State() == After(start, nows)
      decreases |BACKOFF| - retry
    {
      var now := call.clock(retry);
      var delay := limiter.ReserveDelay(now);
      grants := grants + [now + delay];
      OneMoreGrant(start, nows, now);
      nows := nows + [now];
      outcome := call.script(retry);
      if !outcome.Status? || !IsRetryable(outcome.code) || retry >= |BACKOFF| {
        PausesRespectServer(call.script, pauses);
        return outcome, retry + 1, grants, pauses;
      }
      var delayed := RetryDelay(BACKOFF[retry], outcome.retryAfter);
      if delayed.None? {
        PausesRespectServer(call.script, pauses);
        return outcome, retry + 1, grants, pauses;
      }
      pauses := pauses + [delayed.value];
      retry := retry + 1;
    }
  }
}
