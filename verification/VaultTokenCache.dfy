/**
 The per-context cache of exchanged Vault tokens. A call first looks under the read lock; on a miss it
 takes the write lock, looks again, and acquires a token while holding it. Times are in seconds; the
 percentage of the lease for which a token is cached is a fraction.
 */
module VaultTokenCache {
  import opened Wrappers
  import opened Arithmetic

  const U32_MAX: nat := U32_RANGE - 1

  datatype CachedToken = CachedToken(token: string, expiresAt: int)

  /** The part of leases for which tokens are cached, `num / den`. */
  datatype Fraction = Fraction(num: nat, den: nat)

  type Percentage = p: Fraction | p.den > 0 witness Fraction(4, 5)

  /** Whole seconds, and at least one. */
  function Validity(p: Percentage, lease: nat): (v: nat)
    ensures v >= 1
    ensures v * p.den <= lease * p.num < (v + 1) * p.den || (lease * p.num < p.den && v == 1)
  {
    var secs := lease * p.num / p.den;
    assert secs * p.den <= lease * p.num < (secs + 1) * p.den by { FloorBounds(lease * p.num, p.den); }
    if secs < 1 then 1 else secs
  }

  lemma FloorBounds(x: nat, d: nat)
    requires d > 0
    ensures (x / d) * d <= x < (x / d + 1) * d
  {
    assert x == (x / d) * d + x % d;
  }

  predicate Hit(cache: map<string, CachedToken>, key: string, now: int) { key in cache && now < cache[key].expiresAt }

  class ExchangingTokenProvider {
    var cache: map<string, CachedToken>
    var consecutiveFailures: nat
    var lastError: Option<string>
    const renewalPercentage: Percentage

    constructor (renewalPercentage: Percentage)
      ensures cache == map[] && consecutiveFailures == 0 && lastError == None && this.renewalPercentage == renewalPercentage
    {
      this.renewalPercentage := renewalPercentage;
      cache, consecutiveFailures, lastError := map[], 0, None;
    }

    method RecordSuccess()
      modifies this`consecutiveFailures, this`lastError
      ensures consecutiveFailures == 0 && lastError == None
    {
      consecutiveFailures, lastError := 0, None;
    }

    method RecordError(error: string)
      modifies this`consecutiveFailures, this`lastError
      ensures consecutiveFailures == (if old(consecutiveFailures) < U32_MAX then old(consecutiveFailures) + 1 else old(consecutiveFailures))
      ensures lastError == Some(error)
    {
      if consecutiveFailures < U32_MAX { consecutiveFailures := consecutiveFailures + 1; }
      lastError := Some(error);
    }

    /** `token_for` undisturbed; `clock(k)` is the k-th reading, `acquire` the exchange for a resource. A
        new token is cached for the whole seconds in its part of the lease, for one second if there is none. */
    method TokenFor(key: string, resource: string, clock: nat -> int, acquire: string -> Result<(string, nat), string>)
      returns (r: Result<string, string>)
      modifies this
      ensures var was := old(cache);
              if key in was && (clock(0) < was[key].expiresAt || clock(1) < was[key].expiresAt) then
                && r == Ok(was[key].token)
                && cache == was && consecutiveFailures == old(consecutiveFailures) && lastError == old(lastError)
              else match acquire(resource)
                case Ok((token, lease)) =>
                  && r == Ok(token) && consecutiveFailures == 0 && lastError == None
                  && key in cache && cache == was[key := cache[key]] && cache[key].token == token
                  && (var x, num, den := cache[key].expiresAt - clock(2), renewalPercentage.num, renewalPercentage.den;
                      x * den <= lease * num < (x + 1) * den || (lease * num < den && x == 1))
                case Err(e) =>
                  && r == Err(e) && cache == was && lastError == Some(e)
                  && consecutiveFailures == if old(consecutiveFailures) < U32_MAX then old(consecutiveFailures) + 1 else old(consecutiveFailures)
    {
      if key in cache && clock(0) < cache[key].expiresAt {
        return Ok(cache[key].token);
      }
      if key in cache && clock(1) < cache[key].expiresAt {
        return Ok(cache[key].token);
      }
      var acquired := acquire(resource);
      match acquired {
        case Ok((token, lease)) =>
          cache := cache[key := CachedToken(token, clock(2) + Validity(renewalPercentage, lease))];
          RecordSuccess();
          r := Ok(token);
        case Err(e) =>
          RecordError(e);
          r := Err(e);
      }
    }
  }

  // ---------------------------------------------------------------- concurrent calls

  /** `Missed` found nothing under the read lock; `Acquiring` holds the write lock, having found nothing
      again at `since`; `Served` handed out a cached token at `at`, `Fetched` one it acquired. */
  datatype Call =
    | Missed(key: string)
    | Acquiring(key: string, since: int)
    | Served(key: string, token: string, at: int)
    | Fetched(key: string, token: string)
    | Failed(key: string)

  /** A successful acquisition: its lease, when it began (under the lock), when it was cached, and until
      when. */
  datatype Acquisition = Acquisition(key: string, token: string, lease: nat, began: int, at: int, expiresAt: int)

  datatype System = System(
    cache: map<string, CachedToken>,
    writer: Option<nat>,
    now: int,
    calls: map<nat, Call>,
    log: seq<Acquisition>)

  datatype Action =
    | Look(t: nat, key: string)
    | TakeLock(t: nat)
    | Complete(t: nat, result: Result<(string, nat), string>)
    | Tick(elapsed: nat)

  predicate Enabled(s: System, a: Action) {
    match a
    case Look(t, _) => t !in s.calls && s.writer == None
    case TakeLock(t) => t in s.calls && s.calls[t].Missed? && s.writer == None
    case Complete(t, _) => t in s.calls && s.calls[t].Acquiring? && s.writer == Some(t)
    case Tick(_) => true
  }

  function Step(p: Percentage, s: System, a: Action): System
    requires Enabled(s, a)
  {
    match a
    case Look(t, key) =>
      s.(calls := s.calls[t := if Hit(s.cache, key, s.now) then Served(key, s.cache[key].token, s.now) else Missed(key)])
    case TakeLock(t) =>
      var key := s.calls[t].key;
      if Hit(s.cache, key, s.now) then s.(calls := s.calls[t := Served(key, s.cache[key].token, s.now)])
      else s.(calls := s.calls[t := Acquiring(key, s.now)], writer := Some(t))
    case Complete(t, result) =>
      var key, since := s.calls[t].key, s.calls[t].since;
      (match result
       case Err(_) => s.(calls := s.calls[t := Failed(key)], writer := None)
       case Ok((token, lease)) =>
         var expiresAt := s.now + Validity(p, lease);
         s.(calls := s.calls[t := Fetched(key, token)], writer := None,
            cache := s.cache[key := CachedToken(token, expiresAt)],
            log := s.log + [Acquisition(key, token, lease, since, s.now, expiresAt)]))
    case Tick(d) => s.(now := s.now + d)
  }

  predicate CachedBy(s: System, i: nat, key: string)
    requires i < |s.log|
  {
    key in s.cache && s.log[i].key == key && s.log[i].token == s.cache[key].token && s.log[i].expiresAt == s.cache[key].expiresAt
  }

  /** What a call was served or fetched was acquired for its very key, and was unexpired when served. */
  ghost predicate AnswerOk(s: System, c: Call) {
    && (c.Served? ==> exists i :: 0 <= i < |s.log| && s.log[i].key == c.key && s.log[i].token == c.token
                                  && s.log[i].at <= c.at < s.log[i].expiresAt)
    && (c.Fetched? ==> exists i :: 0 <= i < |s.log| && s.log[i].key == c.key && s.log[i].token == c.token)
  }

  /** Every cached token comes from an acquisition for its key. */
  ghost predicate CacheFromLog(s: System) {
    forall key :: key in s.cache ==> exists i :: 0 <= i < |s.log| && CachedBy(s, i, key)
  }

  /** What is cached for a key outlasts everything acquired for it before. */
  ghost predicate LogCached(s: System) {
    forall i :: 0 <= i < |s.log| ==>
      && s.log[i].key in s.cache && s.log[i].expiresAt <= s.cache[s.log[i].key].expiresAt
      && s.log[i].at <= s.now
  }

  /** Each acquisition began only when what had been cached for its key before was expired. */
  ghost predicate Spaced(log: seq<Acquisition>) {
    && (forall i, j :: 0 <= i < j < |log| && log[i].key == log[j].key ==> log[i].expiresAt <= log[j].began)
    && (forall i :: 0 <= i < |log| ==> log[i].began <= log[i].at < log[i].expiresAt)
  }

  ghost predicate AcquiringOk(s: System) {
    forall t :: t in s.calls && s.calls[t].Acquiring? ==>
      s.writer == Some(t) && s.calls[t].since <= s.now && !Hit(s.cache, s.calls[t].key, s.calls[t].since)
  }

  ghost predicate AnswersOk(s: System) { forall t :: t in s.calls ==> AnswerOk(s, s.calls[t]) }

  ghost predicate Inv(s: System) {
    CacheFromLog(s) && LogCached(s) && Spaced(s.log) && AcquiringOk(s) && AnswersOk(s)
  }

  lemma ServedOk(s: System, key: string)
    requires Inv(s) && Hit(s.cache, key, s.now)
    ensures AnswerOk(s, Served(key, s.cache[key].token, s.now))
  {
    var i :| 0 <= i < |s.log| && CachedBy(s, i, key);
    assert s.log[i].at <= s.now < s.log[i].expiresAt;
  }

  lemma LogGrows(s: System, s': System, c: Call)
    requires AnswerOk(s, c) && |s.log| <= |s'.log| && s'.log[..|s.log|] == s.log
    ensures AnswerOk(s', c)
  {
    if c.Served? {
      var i :| 0 <= i < |s.log| && s.log[i].key == c.key && s.log[i].token == c.token && s.log[i].at <= c.at < s.log[i].expiresAt;
      assert s'.log[i] == s'.log[..|s.log|][i];
    } else if c.Fetched? {
      var i :| 0 <= i < |s.log| && s.log[i].key == c.key && s.log[i].token == c.token;
      assert s'.log[i] == s'.log[..|s.log|][i];
    }
  }

  lemma CompleteCache(s: System, s': System, x: Acquisition)
    requires CacheFromLog(s) && s'.log == s.log + [x] && s'.cache == s.cache[x.key := CachedToken(x.token, x.expiresAt)]
    ensures CacheFromLog(s')
  {
    forall k | k in s'.cache ensures exists i :: 0 <= i < |s'.log| && CachedBy(s', i, k) {
      if k == x.key {
        assert CachedBy(s', |s.log|, k);
      } else {
        var i :| 0 <= i < |s.log| && CachedBy(s, i, k);
        assert CachedBy(s', i, k);
      }
    }
  }

  lemma CompleteLog(s: System, s': System, x: Acquisition)
    requires LogCached(s) && Spaced(s.log)
    requires s'.log == s.log + [x] && s'.cache == s.cache[x.key := CachedToken(x.token, x.expiresAt)] && s'.now == s.now
    requires !Hit(s.cache, x.key, x.began) && x.began <= x.at == s.now < x.expiresAt
    ensures LogCached(s') && Spaced(s'.log)
  {
    forall i | 0 <= i < |s.log| && s.log[i].key == x.key ensures s.log[i].expiresAt <= x.began {
      assert s.log[i].key in s.cache;
    }
  }

  lemma CompleteAnswers(s: System, s': System, t: nat, x: Acquisition)
    requires AnswersOk(s) && s'.log == s.log + [x] && t in s'.calls && s'.calls == s.calls[t := Fetched(x.key, x.token)]
    ensures AnswersOk(s')
  {
    forall u | u in s'.calls ensures AnswerOk(s', s'.calls[u]) {
      if u == t {
        assert s'.log[|s.log|] == x;
      } else {
        LogGrows(s, s', s.calls[u]);
      }
    }
  }

  lemma CompleteAcquiring(s: System, s': System, t: nat, key: string, token: string)
    requires AcquiringOk(s) && t in s.calls && s.calls[t].Acquiring? && s'.calls == s.calls[t := Fetched(key, token)]
    ensures AcquiringOk(s')
  {
    assert forall u :: u in s.calls && s.calls[u].Acquiring? ==> u == t;
  }

  lemma CompleteInv(p: Percentage, s: System, t: nat, token: string, lease: nat)
    requires Inv(s) && Enabled(s, Complete(t, Ok((token, lease))))
    ensures Inv(Step(p, s, Complete(t, Ok((token, lease)))))
  {
    var key, expiresAt := s.calls[t].key, s.now + Validity(p, lease);
    var x := Acquisition(key, token, lease, s.calls[t].since, s.now, expiresAt);
    var s' := Step(p, s, Complete(t, Ok((token, lease))));
    CompleteCache(s, s', x);
    CompleteLog(s, s', x);
    CompleteAnswers(s, s', t, x);
    CompleteAcquiring(s, s', t, key, token);
  }

  lemma SameLog(s: System, s': System)
    requires CacheFromLog(s) && LogCached(s) && s'.log == s.log && s'.cache == s.cache && s'.now >= s.now
    ensures CacheFromLog(s') && LogCached(s')
  {
    forall key | key in s'.cache ensures exists i :: 0 <= i < |s'.log| && CachedBy(s', i, key) {
      var i :| 0 <= i < |s.log| && CachedBy(s, i, key);
      assert CachedBy(s', i, key);
    }
  }

  lemma SameAnswers(s: System, s': System, t: nat)
    requires AnswersOk(s) && s'.log == s.log && t in s'.calls && s'.calls == s.calls[t := s'.calls[t]]
    requires AnswerOk(s, s'.calls[t])
    ensures AnswersOk(s')
  {
    forall u | u in s'.calls ensures AnswerOk(s', s'.calls[u]) { LogGrows(s, s', s'.calls[u]); }
  }

  /** Nobody is acquiring while nobody holds the write lock, so whoever takes it is the only one. */
  lemma ReadAcquiring(p: Percentage, s: System, a: Action)
    requires AcquiringOk(s) && Enabled(s, a) && (a.Look? || a.TakeLock?)
    ensures AcquiringOk(Step(p, s, a))
  {
  }

  lemma LookInv(p: Percentage, s: System, a: Action)
    requires Inv(s) && Enabled(s, a) && a.Look?
    ensures Inv(Step(p, s, a))
  {
    ReadAcquiring(p, s, a);
    SameLog(s, Step(p, s, a));
    if Hit(s.cache, a.key, s.now) { ServedOk(s, a.key); }
    SameAnswers(s, Step(p, s, a), a.t);
  }

  lemma TakeLockInv(p: Percentage, s: System, a: Action)
    requires Inv(s) && Enabled(s, a) && a.TakeLock?
    ensures Inv(Step(p, s, a))
  {
    ReadAcquiring(p, s, a);
    SameLog(s, Step(p, s, a));
    if Hit(s.cache, s.calls[a.t].key, s.now) { ServedOk(s, s.calls[a.t].key); }
    SameAnswers(s, Step(p, s, a), a.t);
  }

  lemma FailInv(p: Percentage, s: System, a: Action)
    requires Inv(s) && Enabled(s, a) && a.Complete? && a.result.Err?
    ensures Inv(Step(p, s, a))
  {
    SameLog(s, Step(p, s, a));
    SameAnswers(s, Step(p, s, a), a.t);
  }

  lemma TickInv(p: Percentage, s: System, a: Action)
    requires Inv(s) && a.Tick?
    ensures Inv(Step(p, s, a))
  {
    var s' := Step(p, s, a);
    SameLog(s, s');
    forall u | u in s'.calls ensures AnswerOk(s', s'.calls[u]) { LogGrows(s, s', s.calls[u]); }
  }

  lemma StepInv(p: Percentage, s: System, a: Action)
    requires Inv(s) && Enabled(s, a)
    ensures Inv(Step(p, s, a))
  {
    if a.Tick? {
      TickInv(p, s, a);
    } else if a.Look? {
      LookInv(p, s, a);
    } else if a.TakeLock? {
      TakeLockInv(p, s, a);
    } else if a.result.Err? {
      FailInv(p, s, a);
    } else {
      CompleteInv(p, s, a.t, a.result.value.0, a.result.value.1);
    }
  }

  ghost predicate IsRun(p: Percentage, states: seq<System>, actions: seq<Action>) {
    && |states| == |actions| + 1 && states[0] == System(map[], None, states[0].now, map[], [])
    && forall i :: 0 <= i < |actions| ==> Enabled(states[i], actions[i]) && states[i + 1] == Step(p, states[i], actions[i])
  }

  lemma {:induction false} RunInv(p: Percentage, states: seq<System>, actions: seq<Action>, n: nat)
    requires IsRun(p, states, actions) && n <= |actions|
    ensures Inv(states[n])
  {
    if n > 0 {
      RunInv(p, states, actions, n - 1);
      StepInv(p, states[n - 1], actions[n - 1]);
    }
  }

  /** In every interleaving a token handed out was acquired for the caller's own context, and one handed
      out from the cache had not expired. */
  lemma AnswersAreOwnAndFresh(p: Percentage, states: seq<System>, actions: seq<Action>, n: nat, t: nat)
    requires IsRun(p, states, actions) && n <= |actions| && t in states[n].calls
    ensures AnswerOk(states[n], states[n].calls[t])
  {
    RunInv(p, states, actions, n);
  }

  /** Every acquired token is cached for the whole seconds in its part of the lease, for one if there is none. */
  ghost predicate CachedForShare(p: Percentage, log: seq<Acquisition>) {
    forall i :: 0 <= i < |log| ==>
      var x := log[i].expiresAt - log[i].at;
      x * p.den <= log[i].lease * p.num < (x + 1) * p.den || (log[i].lease * p.num < p.den && x == 1)
  }

  lemma {:induction false} LeasesDecide(p: Percentage, states: seq<System>, actions: seq<Action>, n: nat)
    requires IsRun(p, states, actions) && n <= |actions|
    ensures CachedForShare(p, states[n].log)
  {
    if n > 0 {
      LeasesDecide(p, states, actions, n - 1);
      var s, s', a := states[n - 1], states[n], actions[n - 1];
      if a.Complete? && a.result.Ok? {
        var x := s'.log[|s.log|];
        assert s'.log == s.log + [x] && x.expiresAt - x.at == Validity(p, x.lease);
      } else {
        assert s'.log == s.log;
      }
    }
  }

  /** The acquisitions of one key, oldest first. */
  function Of(log: seq<Acquisition>, key: string): (r: seq<Acquisition>)
    ensures forall i :: 0 <= i < |r| ==> r[i].key == key && r[i] in log
    ensures forall x :: x in log && x.key == key ==> x in r
  {
    if log == [] then [] else
    Of(log[..|log| - 1], key) + if log[|log| - 1].key == key then [log[|log| - 1]] else []
  }

  lemma {:induction false} SpacedOf(log: seq<Acquisition>, key: string)
    requires Spaced(log)
    ensures Spaced(Of(log, key))
  {
    if log != [] {
      var init, last := log[..|log| - 1], log[|log| - 1];
      assert forall i :: 0 <= i < |init| ==> init[i] == log[i];
      SpacedOf(init, key);
      var r, q := Of(log, key), Of(init, key);
      forall i, j | 0 <= i < j < |r| ensures r[i].expiresAt <= r[j].began {
        if j == |q| {
          assert r[i] == q[i] && q[i] in init;
          var k :| 0 <= k < |init| && init[k] == q[i];
          assert log[k].key == log[|log| - 1].key;
        } else {
          assert r[i] == q[i] && r[j] == q[j];
        }
      }
    }
  }

  /** Between the first and the last of a stretch of acquisitions of one key, every one but the last was
      cached for at least `v` seconds. */
  lemma {:induction false} StretchIsLong(r: seq<Acquisition>, v: nat, i: nat, j: nat)
    requires Spaced(r) && i <= j < |r| && forall k :: 0 <= k < |r| ==> r[k].key == r[0].key
    requires forall k :: i <= k < j ==> r[k].expiresAt - r[k].at >= v
    ensures r[j].at - r[i].at >= (j - i) * v
    decreases j - i
  {
    if i < j {
      StretchIsLong(r, v, i, j - 1);
      assert (j - i) * v == (j - 1 - i) * v + v;
    }
  }

  lemma AcquisitionsApart(p: Percentage, states: seq<System>, actions: seq<Action>, n: nat, key: string,
                          v: nat, i: nat, j: nat)
    requires IsRun(p, states, actions) && n <= |actions| && i <= j < |Of(states[n].log, key)|
    requires forall k :: i <= k < j ==> Of(states[n].log, key)[k].expiresAt - Of(states[n].log, key)[k].at >= v
    ensures Of(states[n].log, key)[j].at - Of(states[n].log, key)[i].at >= (j - i) * v
  {
    RunInv(p, states, actions, n);
    SpacedOf(states[n].log, key);
    StretchIsLong(Of(states[n].log, key), v, i, j);
  }

  /** In every interleaving, a window of `w` seconds holds at most w / v + 1 successful acquisitions of a
      key whose leases have parts of at least `v` seconds: the i-th to the j-th of them are j - i + 1. */
  lemma AcquisitionsPerWindow(p: Percentage, states: seq<System>, actions: seq<Action>, n: nat, key: string,
                              v: nat, w: nat, i: nat, j: nat)
    requires IsRun(p, states, actions) && n <= |actions| && v > 0
    requires var r := Of(states[n].log, key);
             && i <= j < |r| && r[j].at - r[i].at <= w
             && forall k :: i <= k < j ==> v * p.den <= r[k].lease * p.num
    ensures j - i + 1 <= w / v + 1
  {
    var r := Of(states[n].log, key);
    LeasesDecide(p, states, actions, n);
    forall k | i <= k < j ensures r[k].expiresAt - r[k].at >= v {
      LastsItsShare(p, states[n].log, r[k], v);
    }
    AcquisitionsApart(p, states, actions, n, key, v, i, j);
    AtMostQuotient(j - i, v, w);
  }

  lemma LastsItsShare(p: Percentage, log: seq<Acquisition>, a: Acquisition, v: nat)
    requires CachedForShare(p, log) && a in log && v > 0 && v * p.den <= a.lease * p.num
    ensures a.expiresAt - a.at >= v
  {
    var l :| 0 <= l < |log| && log[l] == a;
    AtLeastShare(a.expiresAt - a.at, v, a.lease * p.num, p.den);
  }

  lemma AtLeastShare(x: int, v: nat, share: nat, den: nat)
    requires v > 0 && den > 0 && v * den <= share
    requires x * den <= share < (x + 1) * den || (share < den && x == 1)
    ensures x >= v
  {
    if share < den {
      MulMonotone(1, v, den);
    } else if x < v {
      if x + 1 >= 0 { MulMonotone(x + 1, v, den); }
    }
  }

  /** A call that meets nobody is three steps, and does to the cache what `TokenFor` does: the readings of
      the clock are `s.now`, `d` later and `e` after that. */
  lemma CallIsItsSteps(p: Percentage, s: System, t: nat, key: string, d: nat, e: nat, result: Result<(string, nat), string>)
    requires t !in s.calls && s.writer == None
    requires !(key in s.cache && s.now < s.cache[key].expiresAt)
    ensures var s1 := Step(p, Step(p, s, Look(t, key)), Tick(d));
            && Enabled(s1, TakeLock(t))
            && var s2 := Step(p, s1, TakeLock(t));
            var s3 := Step(p, s2, Tick(e));
            && Enabled(s3, Complete(t, result)) && s3.writer == Some(t)
            && var s4 := Step(p, s3, Complete(t, result));
            match result
            case Err(_) => s4.calls[t] == Failed(key) && s4.cache == s.cache && s4.writer == None
            case Ok((token, lease)) =>
              && s4.calls[t] == Fetched(key, token) && s4.writer == None
              && key in s4.cache && s4.cache == s.cache[key := s4.cache[key]] && s4.cache[key].token == token
              && var x := s4.cache[key].expiresAt - (s.now + d + e);
              x * p.den <= lease * p.num < (x + 1) * p.den || (lease * p.num < p.den && x == 1)
  {
  }

  lemma AtMostQuotient(k: nat, v: nat, w: nat)
    requires v > 0 && k * v <= w
    ensures k <= w / v
  {
    FloorBounds(w, v);
    if k >= w / v + 1 { MulMonotone(w / v + 1, k, v); }
  }
}
