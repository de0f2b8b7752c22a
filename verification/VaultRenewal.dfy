/**
 The background renewal of a Vault token: `renewal_loop` counts consecutive failures, waits with
 backoff between attempts, re-authenticates when the token has expired, and gives up at a maximum.
 What the loop is told from outside (the trigger, the answers of Vault, the clock, shutdown) is a
 sequence of events.
 */
module VaultRenewal {
  import opened Wrappers
  import opened Backoff

  datatype RenewOutcome =
    | Renewed
    | TokenExpired(reauthentication: Result<(string, nat), string>)  // a new token and its lease, or an error
    | RenewFailed(error: string)

  datatype Event =
    | Fired(now: int, outcome: RenewOutcome)   // the trigger fired and the token was renewed, or not
    | TriggerFailed(error: string)
    | ShutdownChanged(stop: bool)

  datatype Stop = TooManyFailures | TriggerError | Shutdown | Running

  /** The fields of `VaultClientState`, as one value. */
  datatype Snapshot = Snapshot(
    token: string,
    lastCreated: int,
    lastRenewed: Option<int>,
    leaseDuration: nat,
    lastError: Option<string>,
    consecutiveFailures: nat)

  class VaultClientState {
    var token: string
    var lastCreated: int
    var lastRenewed: Option<int>
    var leaseDuration: nat
    var lastError: Option<string>
    var consecutiveFailures: nat
    const healthThreshold: nat

    function Now(): Snapshot
      reads this
    {
      Snapshot(token, lastCreated, lastRenewed, leaseDuration, lastError, consecutiveFailures)
    }

    constructor (token: string, leaseDuration: nat, now: int, healthThreshold: nat)
      ensures Now() == Snapshot(token, now, None, leaseDuration, None, 0) && this.healthThreshold == healthThreshold
    {
      this.token, this.leaseDuration, this.lastCreated, this.healthThreshold := token, leaseDuration, now, healthThreshold;
      this.lastRenewed, this.lastError, this.consecutiveFailures := None, None, 0;
    }

    predicate IsHealthy()
      reads this
    {
      consecutiveFailures < healthThreshold
    }
  }

  /** What one event does to the state. */
  function Apply(s: Snapshot, e: Event): Snapshot {
    match e
    case Fired(now, Renewed) => s.(lastRenewed := Some(now), consecutiveFailures := 0, lastError := None)
    case Fired(now, TokenExpired(Ok((token, lease)))) => Snapshot(token, now, None, lease, None, 0)
    case Fired(_, TokenExpired(Err(error))) => Failure(s, error)
    case Fired(_, RenewFailed(error)) => Failure(s, error)
    case TriggerFailed(error) => Failure(s, error)
    case ShutdownChanged(_) => s
  }

  function Failure(s: Snapshot, error: string): Snapshot {
    s.(consecutiveFailures := s.consecutiveFailures + 1, lastError := Some(error))
  }

  function After(s: Snapshot, events: seq<Event>): Snapshot {
    if events == [] then s else Apply(After(s, events[..|events| - 1]), events[|events| - 1])
  }

  /** The error an event reports, if it does. */
  function ErrorOf(e: Event): Option<string> {
    match e
    case Fired(_, TokenExpired(Err(error))) => Some(error)
    case Fired(_, RenewFailed(error)) => Some(error)
    case TriggerFailed(error) => Some(error)
    case _ => None
  }

  predicate Succeeds(e: Event) { e.Fired? && ErrorOf(e) == None }

  /** How many failures there have been since the last success. */
  function TrailingFailures(events: seq<Event>): nat {
    if events == [] then 0 else
    var e, before := events[|events| - 1], TrailingFailures(events[..|events| - 1]);
    if Succeeds(e) then 0 else if ErrorOf(e).Some? then before + 1 else before
  }

  /** After none of the first `n` events, but perhaps the last, is the count at the maximum. */
  ghost predicate BelowMaximum(s: Snapshot, events: seq<Event>, n: nat, maximum: nat)
    requires n <= |events|
  {
    forall k :: 0 <= k < n ==> After(s, events[..k]).consecutiveFailures < maximum
  }

  /** Each wait is the interval for the lease and the count at its time. */
  ghost predicate WaitsAsked(s: Snapshot, events: seq<Event>, waits: seq<nat>, interval: (nat, nat) -> nat)
    requires |waits| <= |events|
  {
    forall k :: 0 <= k < |waits| ==>
      var t := After(s, events[..k]); waits[k] == interval(t.leaseDuration, t.consecutiveFailures)
  }

  lemma AfterOneMore(s: Snapshot, events: seq<Event>, n: nat)
    requires n < |events|
    ensures After(s, events[..n + 1]) == Apply(After(s, events[..n]), events[n])
  {
    assert events[..n + 1][..n] == events[..n];
  }

  class TokenRenewer {
    const state: VaultClientState
    const maxConsecutiveFailures: nat
    const interval: (nat, nat) -> nat

    constructor (state: VaultClientState, maxConsecutiveFailures: nat, interval: (nat, nat) -> nat)
      ensures this.state == state && this.maxConsecutiveFailures == maxConsecutiveFailures && this.interval == interval
    {
      this.state, this.maxConsecutiveFailures, this.interval := state, maxConsecutiveFailures, interval;
    }

    method RecordRenewalError(error: string)
      modifies state
      ensures state.Now() == old(state.Now()).(lastError := Some(error), consecutiveFailures := old(state.consecutiveFailures) + 1)
    {
      state.consecutiveFailures := state.consecutiveFailures + 1;
      state.lastError := Some(error);
    }

    method UpdateStateOnSuccess(now: int)
      modifies state
      ensures state.Now() == old(state.Now()).(lastRenewed := Some(now), lastError := None, consecutiveFailures := 0)
    {
      state.lastRenewed := Some(now);
      state.consecutiveFailures := 0;
      state.lastError := None;
    }

    method HandleTokenExpiration(now: int, reauthentication: Result<(string, nat), string>)
      modifies state
      ensures match reauthentication
              case Ok((token, lease)) =>
                && state.token == token && state.leaseDuration == lease && state.lastCreated == now
                && state.lastRenewed == None && state.lastError == None && state.consecutiveFailures == 0
              case Err(error) =>
                && state.token == old(state.token) && state.leaseDuration == old(state.leaseDuration)
                && state.lastCreated == old(state.lastCreated) && state.lastRenewed == old(state.lastRenewed)
                && state.lastError == Some(error) && state.consecutiveFailures == old(state.consecutiveFailures) + 1
    {
      match reauthentication {
        case Ok((token, lease)) =>
          state.token := token;
          state.leaseDuration := lease;
          state.lastCreated := now;
          state.lastRenewed := None;
          state.consecutiveFailures := 0;
          state.lastError := None;
        case Err(error) =>
          RecordRenewalError(error);
      }
    }

    /** Runs until it stops or the events are used up. `waits` are the intervals asked of the trigger.
        The loop stops with the first prefix of events that leaves too many failures, at a failing
        trigger, or at a shutdown, and nowhere else. */
    method RenewalLoop(events: seq<Event>) returns (consumed: nat, waits: seq<nat>, stopped: Stop)
      modifies state
      ensures consumed <= |events| && state.Now() == After(old(state.Now()), events[..consumed])
      ensures BelowMaximum(old(state.Now()), events, consumed, maxConsecutiveFailures)
      ensures forall k :: 0 <= k < consumed - 1 ==> !events[k].TriggerFailed? && events[k] != ShutdownChanged(true)
      ensures match stopped
              case TooManyFailures =>
                && state.consecutiveFailures >= maxConsecutiveFailures
                && (consumed > 0 ==> !events[consumed - 1].TriggerFailed? && events[consumed - 1] != ShutdownChanged(true))
              case TriggerError => consumed > 0 && events[consumed - 1].TriggerFailed?
              case Shutdown => consumed > 0 && events[consumed - 1] == ShutdownChanged(true)
              case Running =>
                && consumed == |events| && state.consecutiveFailures < maxConsecutiveFailures
                && (consumed > 0 ==> !events[consumed - 1].TriggerFailed? && events[consumed - 1] != ShutdownChanged(true))
      ensures maxConsecutiveFailures > 0 && old(state.consecutiveFailures) == 0 ==>
                state.consecutiveFailures <= maxConsecutiveFailures
      ensures |waits| == consumed
      ensures WaitsAsked(old(state.Now()), events, waits, interval)
    {
      consumed, waits := 0, [];
      ghost var start := state.Now();
      while true
        invariant consumed <= |events| && |waits| == consumed
        invariant state.Now() == After(start, events[..consumed])
        invariant BelowMaximum(start, events, consumed, maxConsecutiveFailures)
        invariant forall k :: 0 <= k < consumed ==> !events[k].TriggerFailed? && events[k] != ShutdownChanged(true)
        invariant maxConsecutiveFailures > 0 && start.consecutiveFailures == 0 ==>
                    state.consecutiveFailures <= maxConsecutiveFailures
        invariant WaitsAsked(start, events, waits, interval)
        decreases |events| - consumed
      {
        var leaseDuration, consecutiveFailures := state.leaseDuration, state.consecutiveFailures;
        if consecutiveFailures >= maxConsecutiveFailures {
          return consumed, waits, TooManyFailures;
        }
        if consumed == |events| {
          return consumed, waits, Running;
        }
        var e := events[consumed];
        AfterOneMore(start, events, consumed);
        waits := waits + [interval(leaseDuration, consecutiveFailures)];
        consumed := consumed + 1;
        assert BelowMaximum(start, events, consumed, maxConsecutiveFailures) && WaitsAsked(start, events, waits, interval);
        match e {
          case Fired(now, outcome) =>
            match outcome {
              case Renewed => UpdateStateOnSuccess(now);
              case TokenExpired(reauthentication) => HandleTokenExpiration(now, reauthentication);
              case RenewFailed(error) => RecordRenewalError(error);
            }
          case TriggerFailed(error) =>
            RecordRenewalError(error);
            return consumed, waits, TriggerError;
          case ShutdownChanged(stop) =>
            if stop {
              return consumed, waits, Shutdown;
            }
        }
      }
    }
  }

  predicate Reauthenticated(e: Event) { e.Fired? && e.outcome.TokenExpired? && e.outcome.reauthentication.Ok? }

  predicate WasRenewed(e: Event) { e.Fired? && e.outcome.Renewed? }

  /** None of the events from the `from`-th on re-authenticated, and the one before, if any, did. */
  ghost predicate SinceReauthentication(events: seq<Event>, from: nat) {
    && from <= |events| && (from > 0 ==> Reauthenticated(events[from - 1]))
    && forall k :: from <= k < |events| ==> !Reauthenticated(events[k])
  }

  /** The token, its lease and its creation are those of the last successful re-authentication, or those
      from the start when there was none. */
  lemma {:induction false} TokenIsLastObtained(s: Snapshot, events: seq<Event>, from: nat)
    requires SinceReauthentication(events, from)
    ensures var t := After(s, events);
            if from == 0 then t.token == s.token && t.leaseDuration == s.leaseDuration && t.lastCreated == s.lastCreated
            else (t.token, t.leaseDuration) == events[from - 1].outcome.reauthentication.value
                 && t.lastCreated == events[from - 1].now
  {
    if |events| > from {
      TokenIsLastObtained(s, events[..|events| - 1], from);
    }
  }

  /** It was last renewed at the last renewal since, the one before the `last`-th event. */
  lemma {:induction false} RenewedAtLastRenewal(s: Snapshot, events: seq<Event>, from: nat, last: nat)
    requires SinceReauthentication(events, from) && from <= last <= |events|
    requires last > from ==> WasRenewed(events[last - 1])
    requires forall k :: last <= k < |events| ==> !WasRenewed(events[k])
    ensures After(s, events).lastRenewed ==
            if last > from then Some(events[last - 1].now) else if from > 0 then None else s.lastRenewed
  {
    if |events| > last {
      RenewedAtLastRenewal(s, events[..|events| - 1], from, last);
    }
  }

  /** The events since the `from`-th that were attempts: all but changes of the shutdown signal. */
  function AttemptsSince(events: seq<Event>, from: nat): set<nat> {
    set k: nat | from <= k < |events| && !events[k].ShutdownChanged?
  }

  /** Since the last success every attempt counts as a failure. */
  lemma {:induction false} FailuresSince(s: Snapshot, events: seq<Event>, from: nat)
    requires from <= |events|
    requires if from == 0 then s.consecutiveFailures == 0 else Reauthenticated(events[from - 1]) || WasRenewed(events[from - 1])
    requires forall k :: from <= k < |events| ==> !Reauthenticated(events[k]) && !WasRenewed(events[k])
    ensures After(s, events).consecutiveFailures == |AttemptsSince(events, from)|
  {
    if |events| > from {
      var init, e := events[..|events| - 1], events[|events| - 1];
      FailuresSince(s, init, from);
      AttemptsSnoc(init, e, from);
      assert init + [e] == events;
    } else {
      assert AttemptsSince(events, from) == {};
    }
  }

  lemma AttemptsSnoc(init: seq<Event>, e: Event, from: nat)
    requires from <= |init|
    ensures |AttemptsSince(init + [e], from)| == |AttemptsSince(init, from)| + if e.ShutdownChanged? then 0 else 1
  {
    var events := init + [e];
    assert forall k :: 0 <= k < |init| ==> events[k] == init[k];
    if e.ShutdownChanged? {
      assert AttemptsSince(events, from) == AttemptsSince(init, from);
    } else {
      assert AttemptsSince(events, from) == AttemptsSince(init, from) + {|init|};
    }
  }

  /** The error on record is that of the last attempt, unless it succeeded. */
  lemma {:induction false} ErrorIsLast(s: Snapshot, events: seq<Event>, last: nat)
    requires last < |events| && !events[last].ShutdownChanged?
    requires forall k :: last < k < |events| ==> events[k].ShutdownChanged?
    ensures After(s, events).lastError ==
            match events[last]
            case TriggerFailed(error) => Some(error)
            case Fired(_, RenewFailed(error)) => Some(error)
            case Fired(_, TokenExpired(Err(error))) => Some(error)
            case _ => None
  {
    if |events| - 1 > last {
      ErrorIsLast(s, events[..|events| - 1], last);
    }
  }

  /** From a fresh state the count is the length of the trailing run of failures, and an error is on
      record exactly while the count is positive: the last one reported. */
  lemma {:induction false} CountIsTrailingFailures(s: Snapshot, events: seq<Event>)
    requires s.consecutiveFailures == 0 && s.lastError == None
    ensures After(s, events).consecutiveFailures == TrailingFailures(events)
    ensures After(s, events).lastError == if TrailingFailures(events) == 0 then None else LastError(events)
    ensures TrailingFailures(events) > 0 ==> LastError(events).Some?
  {
    if events != [] {
      CountIsTrailingFailures(s, events[..|events| - 1]);
    }
  }

  /** The last error any event reports. */
  function LastError(events: seq<Event>): Option<string> {
    if events == [] then None
    else if ErrorOf(events[|events| - 1]).Some? then ErrorOf(events[|events| - 1])
    else LastError(events[..|events| - 1])
  }

  /** So a client that started fresh is healthy exactly while that run is shorter than the threshold. */
  lemma HealthyIff(state: VaultClientState, s: Snapshot, events: seq<Event>)
    requires s.consecutiveFailures == 0 && s.lastError == None && state.Now() == After(s, events)
    ensures state.IsHealthy() <==> TrailingFailures(events) < state.healthThreshold
  {
    CountIsTrailingFailures(s, events);
  }

  /** The run counted by `TrailingFailures` starts right after a success, or at the start, and holds no
      success; it has that many failures. */
  lemma {:induction false} TrailingRunExists(events: seq<Event>) returns (from: nat)
    ensures from <= |events| && (from == 0 || Succeeds(events[from - 1]))
    ensures forall k :: from <= k < |events| ==> !Succeeds(events[k])
    ensures TrailingFailures(events) == |Failures(events[from..])|
  {
    if events == [] {
      from := 0;
    } else if Succeeds(events[|events| - 1]) {
      from := |events|;
    } else {
      var init := events[..|events| - 1];
      from := TrailingRunExists(init);
      assert events[from..][..|events| - from - 1] == init[from..];
    }
  }

  /** The events that report an error. */
  function Failures(events: seq<Event>): seq<Event> {
    if events == [] then [] else
    Failures(events[..|events| - 1]) + if ErrorOf(events[|events| - 1]).Some? then [events[|events| - 1]] else []
  }

  /** The clock readings of the events, all at `low` or later, never go back; the last one is at most `high`. */
  ghost predicate ClockForward(events: seq<Event>, low: int, high: int) {
    if events == [] then low <= high else
    var e := events[|events| - 1];
    if e.Fired? then ClockForward(events[..|events| - 1], low, e.now) && e.now <= high
    else ClockForward(events[..|events| - 1], low, high)
  }

  /** Under a clock that never goes back the token was never renewed before it was created. */
  lemma {:induction false} RenewedAfterCreated(s: Snapshot, events: seq<Event>, high: int)
    requires s.lastRenewed == None && ClockForward(events, s.lastCreated, high)
    ensures var t := After(s, events);
            t.lastCreated <= high && (t.lastRenewed.Some? ==> t.lastCreated <= t.lastRenewed.value <= high)
  {
    if events != [] {
      var init, e := events[..|events| - 1], events[|events| - 1];
      if e.Fired? {
        RenewedAfterCreated(s, init, e.now);
      } else {
        RenewedAfterCreated(s, init, high);
      }
    }
  }

  /** Only failures: the count is their number, and the lease is what it was. */
  lemma {:induction false} AllFail(s: Snapshot, events: seq<Event>)
    requires s.consecutiveFailures == 0 && forall k :: 0 <= k < |events| ==> ErrorOf(events[k]).Some?
    ensures After(s, events).consecutiveFailures == |events| && After(s, events).leaseDuration == s.leaseDuration
  {
    if events != [] {
      AllFail(s, events[..|events| - 1]);
    }
  }

  function Sum(waits: seq<nat>): nat {
    if waits == [] then 0 else Sum(waits[..|waits| - 1]) + waits[|waits| - 1]
  }

  lemma {:induction false} SumOfWaits(base: nat, waits: seq<nat>, c: BackoffConfig)
    requires forall k :: 0 <= k < |waits| ==> waits[k] == base * Pow(c.multiplier, Min(k, c.maxExponent))
    ensures Sum(waits) == TotalWait(base, |waits|, c)
  {
    if waits != [] {
      SumOfWaits(base, waits[..|waits| - 1], c);
    }
  }

  /** The k-th wait the loop asks for, as `RenewalLoop` ensures, with backoff `c` and no jitter. */
  ghost predicate WaitsOf(s: Snapshot, events: seq<Event>, waits: seq<nat>, base: nat, c: BackoffConfig) {
    && |events| == |waits|
    && forall k :: 0 <= k < |waits| ==>
         BackoffInterval(base, After(s, events[..k]).consecutiveFailures, c) == Some(waits[k])
  }

  /** From a success, or the start, until giving up: when each of the next attempts fails, the waits the
      loop has asked for add up to `TotalWait`, and the count has reached their number. */
  lemma WaitUntilGivingUp(s: Snapshot, events: seq<Event>, waits: seq<nat>, base: nat, c: BackoffConfig)
    requires s.consecutiveFailures == 0 && WaitsOf(s, events, waits, base, c)
    requires Sound(c) && base * Pow(c.multiplier, c.maxExponent) <= MAX_DURATION
    requires forall k :: 0 <= k < |events| ==> ErrorOf(events[k]).Some?
    ensures Sum(waits) == TotalWait(base, |waits|, c) && After(s, events).consecutiveFailures == |waits|
  {
    AllFail(s, events);
    forall k | 0 <= k < |waits| ensures waits[k] == base * Pow(c.multiplier, Min(k, c.maxExponent)) {
      AllFail(s, events[..k]);
      IntervalBounds(base, k, k, c);
    }
    SumOfWaits(base, waits, c);
  }

  /** With the default backoff that is 31 base intervals for the first five failures and 32 for each one
      after. */
  lemma DefaultWaitUntilGivingUp(s: Snapshot, events: seq<Event>, waits: seq<nat>, base: nat)
    requires s.consecutiveFailures == 0 && WaitsOf(s, events, waits, base, DEFAULT) && |waits| >= 5
    requires base * 32 <= MAX_DURATION && forall k :: 0 <= k < |events| ==> ErrorOf(events[k]).Some?
    ensures Sum(waits) == base * (31 + 32 * (|waits| - 5))
  {
    DefaultIsSound(base);
    WaitUntilGivingUp(s, events, waits, base, DEFAULT);
    DefaultTotalBeyondFive(base, |waits|);
  }
}
