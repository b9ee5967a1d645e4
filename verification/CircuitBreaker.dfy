/** The circuit breaker of backend/api/circuit_breaker.py.

A protected call is two atomic steps, because the function runs outside the lock: reading the state when it
starts, and reporting success or failure when it ends. A trace is any interleaving of such steps, of plain
reads of `state` and of resets; nothing is assumed about which calls are in flight. */
module CircuitBreaker {

  datatype Phase = Closed | Open | HalfOpen

  datatype Config = Config(failureThreshold: int, recoveryTimeout: real, successThreshold: int)

  datatype Breaker = Breaker(phase: Phase, failures: int, successes: int, lastFailure: real)

  const INITIAL: Breaker := Breaker(Closed, 0, 0, 0.0)

  /** Reading `state`. */
  function Observe(c: Config, b: Breaker, now: real): Breaker {
    if b.phase.Open? && now - b.lastFailure >= c.recoveryTimeout then b.(phase := HalfOpen) else b
  }

  function Succeed(c: Config, b: Breaker): Breaker {
    var b' := b.(failures := 0);
    if !b.phase.HalfOpen? then b'
    else if b.successes + 1 >= c.successThreshold then b'.(phase := Closed, successes := 0)
    else b'.(successes := b.successes + 1)
  }

  function Fail(c: Config, b: Breaker, now: real): Breaker {
    var b' := b.(failures := b.failures + 1, lastFailure := now);
    if b.phase.HalfOpen? || b'.failures >= c.failureThreshold then b'.(phase := Open) else b'
  }

  function Reset(b: Breaker): Breaker { b.(phase := Closed, failures := 0, successes := 0) }

  class CircuitBreaker {
    const config: Config
    var phase: Phase
    var failureCount: int
    var successCount: int
    var lastFailureTime: real

    function View(): Breaker
      reads this
    {
      Breaker(phase, failureCount, successCount, lastFailureTime)
    }

    constructor (config: Config)
      ensures this.config == config && View() == INITIAL
    {
      this.config := config;
      phase, failureCount, successCount, lastFailureTime := Closed, 0, 0, 0.0;
    }

    method State(now: real) returns (state: Phase)
      modifies this`phase
      ensures View() == Observe(config, old(View()), now) && state == phase
    {
      if phase.Open? {
        if now - lastFailureTime >= config.recoveryTimeout {
          phase := HalfOpen;
        }
      }
      return phase;
    }

    /** The first step of `call`; when it is not admitted, `CircuitOpenError` is raised. */
    method BeginCall(now: real) returns (admitted: bool)
      modifies this`phase
      ensures View() == Observe(config, old(View()), now) && admitted == !View().phase.Open?
    {
      var state := State(now);
      return state != Open;
    }

    method OnSuccess()
      modifies this
      ensures View() == Succeed(config, old(View()))
    {
      failureCount := 0;
      if phase.HalfOpen? {
        successCount := successCount + 1;
        if successCount >= config.successThreshold {
          phase := Closed;
          successCount := 0;
        }
      }
    }

    method OnFailure(now: real)
      modifies this
      ensures View() == Fail(config, old(View()), now)
    {
      failureCount := failureCount + 1;
      lastFailureTime := now;
      if phase.HalfOpen? {
        phase := Open;
      } else if failureCount >= config.failureThreshold {
        phase := Open;
      }
    }

    method ResetBreaker()
      modifies this
      ensures View() == Reset(old(View()))
    {
      phase := Closed;
      failureCount := 0;
      successCount := 0;
    }
  }

  // ---------- Traces ----------

  datatype Event = Start(now: real) | Read(now: real) | Success | Failure(now: real) | ManualReset

  function Next(c: Config, b: Breaker, e: Event): Breaker {
    match e
    case Start(now) => Observe(c, b, now)
    case Read(now) => Observe(c, b, now)
    case Success => Succeed(c, b)
    case Failure(now) => Fail(c, b, now)
    case ManualReset => Reset(b)
  }

  function After(c: Config, trace: seq<Event>): Breaker {
    if trace == [] then INITIAL else Next(c, After(c, trace[..|trace| - 1]), trace[|trace| - 1])
  }

  /** A call that starts at `now` after the trace is let through. */
  predicate Admits(c: Config, trace: seq<Event>, now: real) {
    !After(c, trace + [Start(now)]).phase.Open?
  }

  lemma AfterNext(c: Config, trace: seq<Event>, e: Event)
    ensures After(c, trace + [e]) == Next(c, After(c, trace), e)
  {
    assert (trace + [e])[..|trace|] == trace;
  }

  predicate Timed(e: Event) { e.Start? || e.Read? || e.Failure? }

  /** The time of the last event that carries one, from 0 on. */
  function Clock(trace: seq<Event>): real {
    if trace == [] then 0.0
    else if Timed(trace[|trace| - 1]) then trace[|trace| - 1].now
    else Clock(trace[..|trace| - 1])
  }

  /** The clock never runs backwards. */
  predicate Clocked(trace: seq<Event>) {
    trace == [] ||
    var front, e := trace[..|trace| - 1], trace[|trace| - 1];
    Clocked(front) && (Timed(e) ==> Clock(front) <= e.now)
  }

  /** The time of the latest failure in the trace, if there is one. */
  function LatestFailure(trace: seq<Event>): real {
    if trace == [] then 0.0
    else if trace[|trace| - 1].Failure? then trace[|trace| - 1].now
    else LatestFailure(trace[..|trace| - 1])
  }

  // ---------- What every interleaving keeps ----------

  /** Closed means fewer failures than the threshold and no counted success. */
  predicate ClosedIsClean(c: Config, b: Breaker) {
    b.phase.Closed? ==> b.failures < c.failureThreshold && b.successes == 0
  }

  lemma {:induction false} EveryTraceClosedIsClean(c: Config, trace: seq<Event>)
    requires c.failureThreshold >= 1
    ensures ClosedIsClean(c, After(c, trace))
  {
    if trace == [] {
    } else {
      EveryTraceClosedIsClean(c, trace[..|trace| - 1]);
    }
  }

  /** The breaker knows the latest failure; while it is half-open the recovery timeout has passed since. */
  lemma {:induction false} HalfOpenHasWaited(c: Config, trace: seq<Event>)
    requires Clocked(trace)
    ensures After(c, trace).lastFailure == LatestFailure(trace)
    ensures After(c, trace).phase.HalfOpen? ==> Clock(trace) - LatestFailure(trace) >= c.recoveryTimeout
  {
    if trace == [] {
    } else {
      HalfOpenHasWaited(c, trace[..|trace| - 1]);
    }
  }

  /** Unless the breaker is closed, a call is admitted exactly when the recovery timeout has passed since the
  latest failure, whatever happened in between. */
  lemma {:induction false} AdmittedIffRecovered(c: Config, trace: seq<Event>, now: real)
    requires Clocked(trace) && Clock(trace) <= now && !After(c, trace).phase.Closed?
    ensures Admits(c, trace, now) <==> now - LatestFailure(trace) >= c.recoveryTimeout
  {
    HalfOpenHasWaited(c, trace);
    AfterNext(c, trace, Start(now));
  }

  /** No start or read comes as late as the recovery timeout after the latest failure, and nobody resets. */
  predicate TooEarly(c: Config, latest: real, events: seq<Event>)
    decreases |events|
  {
    events == [] ||
    match events[0]
    case Start(now) => now - latest < c.recoveryTimeout && TooEarly(c, latest, events[1..])
    case Read(now) => now - latest < c.recoveryTimeout && TooEarly(c, latest, events[1..])
    case Success => TooEarly(c, latest, events[1..])
    case Failure(now) => TooEarly(c, now, events[1..])
    case ManualReset => false
  }

  function AfterFrom(c: Config, b: Breaker, events: seq<Event>): Breaker
    decreases |events|
  {
    if events == [] then b else AfterFrom(c, Next(c, b, events[0]), events[1..])
  }

  /** Once tripped, the breaker stays open after each of these events, and so refuses every call among them:
  late successes and failures of calls in flight do not change that. */
  lemma {:induction false} StaysOpenUntilRecovered(c: Config, b: Breaker, events: seq<Event>, i: nat)
    requires b.phase.Open? && TooEarly(c, b.lastFailure, events) && i <= |events|
    ensures AfterFrom(c, b, events[..i]).phase.Open?
    decreases |events|
  {
    if i == 0 {
    } else {
      StaysOpenUntilRecovered(c, Next(c, b, events[0]), events[1..], i - 1);
      assert events[..i][1..] == events[1..][..i - 1];
    }
  }

  // ---------- Closing ----------

  predicate Closes(c: Config, trace: seq<Event>, e: Event) {
    !After(c, trace).phase.Closed? && Next(c, After(c, trace), e).phase.Closed? && !e.ManualReset?
  }

  /** How many successes were reported while half-open since the breaker last closed or was reset. */
  function HalfOpenSuccesses(c: Config, trace: seq<Event>): nat {
    if trace == [] then 0
    else
      var front, e := trace[..|trace| - 1], trace[|trace| - 1];
      if e.ManualReset? || Closes(c, front, e) then 0
      else HalfOpenSuccesses(c, front) + if e.Success? && After(c, front).phase.HalfOpen? then 1 else 0
  }

  lemma {:induction false} SuccessesAreCounted(c: Config, trace: seq<Event>)
    ensures After(c, trace).successes == HalfOpenSuccesses(c, trace)
  {
    if trace == [] {
    } else {
      SuccessesAreCounted(c, trace[..|trace| - 1]);
    }
  }

  /** Apart from a reset, the breaker closes exactly at the half-open success that brings the count since the
  last close or reset to the threshold. */
  lemma ClosesIffEnoughSuccesses(c: Config, trace: seq<Event>, e: Event)
    ensures Closes(c, trace, e) <==>
            e.Success? && After(c, trace).phase.HalfOpen? && HalfOpenSuccesses(c, trace) + 1 >= c.successThreshold
  {
    SuccessesAreCounted(c, trace);
  }

  /** A failure while half-open keeps the successes counted so far, and so does waiting for recovery. */
  lemma {:induction false} HalfOpenFailureKeepsCount(c: Config, trace: seq<Event>, failed: real, later: real)
    requires After(c, trace).phase.HalfOpen? && later - failed >= c.recoveryTimeout
    ensures var t := trace + [Failure(failed)] + [Read(later)];
            After(c, t).phase.HalfOpen? && HalfOpenSuccesses(c, t) == HalfOpenSuccesses(c, trace)
  {
    AfterNext(c, trace, Failure(failed));
    AfterNext(c, trace + [Failure(failed)], Read(later));
    SuccessesAreCounted(c, trace);
    SuccessesAreCounted(c, trace + [Failure(failed)] + [Read(later)]);
  }

  /** The successes that close the breaker need not be consecutive: with one success missing, a failure and the
  wait after it do not start the count again. */
  lemma NotConsecutive(c: Config, trace: seq<Event>, failed: real, later: real)
    requires After(c, trace).phase.HalfOpen? && later - failed >= c.recoveryTimeout
    requires HalfOpenSuccesses(c, trace) + 1 == c.successThreshold
    ensures Closes(c, trace + [Failure(failed)] + [Read(later)], Success)
  {
    HalfOpenFailureKeepsCount(c, trace, failed, later);
    ClosesIffEnoughSuccesses(c, trace + [Failure(failed)] + [Read(later)], Success);
  }

  // ---------- Tripping ----------

  /** Failures reported since the last success, reset or start. */
  function FailuresInARow(trace: seq<Event>): nat {
    if trace == [] then 0
    else
      var front, e := trace[..|trace| - 1], trace[|trace| - 1];
      match e
      case Failure(_) => FailuresInARow(front) + 1
      case Success => 0
      case ManualReset => 0
      case _ => FailuresInARow(front)
  }

  lemma {:induction false} FailuresAreCounted(c: Config, trace: seq<Event>)
    ensures After(c, trace).failures == FailuresInARow(trace)
  {
    if trace == [] {
    } else {
      FailuresAreCounted(c, trace[..|trace| - 1]);
    }
  }

  /** The breaker trips exactly at a failure that either comes while half-open or is, since the last success
  or reset, the last of as many failures as the threshold says. */
  lemma TripsIff(c: Config, trace: seq<Event>, e: Event)
    requires !After(c, trace).phase.Open?
    ensures Next(c, After(c, trace), e).phase.Open? <==>
            e.Failure? && (After(c, trace).phase.HalfOpen? || FailuresInARow(trace) + 1 >= c.failureThreshold)
  {
    FailuresAreCounted(c, trace);
  }

  // ---------- The phase after every event ----------

  lemma {:induction false} LatestFailureIsKnown(c: Config, trace: seq<Event>)
    ensures After(c, trace).lastFailure == LatestFailure(trace)
  {
    if trace == [] {
    } else {
      LatestFailureIsKnown(c, trace[..|trace| - 1]);
    }
  }

  /** What keeps or makes the breaker closed, given its phase before. */
  predicate ClosedAfter(c: Config, trace: seq<Event>, phase: Phase, e: Event) {
    || e.ManualReset?
    || (phase.Closed? && !(e.Failure? && FailuresInARow(trace) + 1 >= c.failureThreshold))
    || (phase.HalfOpen? && e.Success? && HalfOpenSuccesses(c, trace) + 1 >= c.successThreshold)
  }

  /** What keeps or makes it half-open. */
  predicate HalfOpenAfter(c: Config, trace: seq<Event>, phase: Phase, e: Event) {
    || (phase.Open? && (e.Start? || e.Read?) && e.now - LatestFailure(trace) >= c.recoveryTimeout)
    || (phase.HalfOpen? && (e.Start? || e.Read?))
    || (phase.HalfOpen? && e.Success? && HalfOpenSuccesses(c, trace) + 1 < c.successThreshold)
  }

  /** The phase after an event follows from the phase before and from what the trace says about failures and
  successes: a fresh breaker is closed, only the failure that completes a row opens a closed one, only time makes an
  open one half-open, and in every other case a breaker that is neither is open. */
  lemma PhaseAfterIff(c: Config, trace: seq<Event>, e: Event)
    ensures After(c, []).phase.Closed?
    ensures var before, after := After(c, trace).phase, After(c, trace + [e]).phase;
            && (after.Closed? <==> ClosedAfter(c, trace, before, e))
            && (after.HalfOpen? <==> HalfOpenAfter(c, trace, before, e))
  {
    AfterNext(c, trace, e);
    FailuresAreCounted(c, trace);
    SuccessesAreCounted(c, trace);
    LatestFailureIsKnown(c, trace);
  }

  /** A closed breaker admits every call, at whatever time, and stays closed by it. */
  lemma ClosedAdmits(c: Config, trace: seq<Event>, now: real)
    requires After(c, trace).phase.Closed?
    ensures Admits(c, trace, now) && After(c, trace + [Start(now)]).phase.Closed?
    ensures After(c, trace + [Read(now)]).phase.Closed?
  {
    PhaseAfterIff(c, trace, Start(now));
    PhaseAfterIff(c, trace, Read(now));
  }
}
