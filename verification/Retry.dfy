/** The client's retry loop (ironflow/client.go).

    A write is resent only after a rate-limited reply, because after any other failure the
    first attempt may already have been applied. */
module Retry {
  import opened Optional

  /** Durations are nanoseconds. */
  datatype Config = Config(
    maxAttempts: int, initialDelay: int, backoffMultiplier: real, maxDelay: int, connectionRetryDelay: int)

  /** What one execution returns: nil, an error of another type, or an IronflowError. */
  datatype Reply =
    | Nil
    | Foreign
    | IronflowError(retryable: bool, rateLimited: bool, connectionError: bool, retryAfter: int)

  datatype Result = Done(reply: Reply) | ContextEnded

  /** Whether withRetry goes on after this reply, attempts permitting. */
  predicate Resends(write: bool, r: Reply) {
    r.IronflowError? && r.retryable && (write ==> r.rateLimited)
  }

  // ---------------------------------------------------------------------- delays

  function Power(m: real, n: nat): real {
    if n == 0 then 1.0 else m * Power(m, n - 1)
  }

  /** Conversion of a float to an integer duration truncates toward zero. */
  function Truncate(x: real): int {
    if x >= 0.0 then x.Floor else -((-x).Floor)
  }

  function Backoff(cfg: Config, attempt: nat): int
    requires attempt >= 1
  {
    var x := cfg.initialDelay as real * Power(cfg.backoffMultiplier, attempt - 1);
    Truncate(if x > cfg.maxDelay as real then cfg.maxDelay as real else x)
  }

  /** The wait after a failed attempt; Retry-After (section 10.2.3 of RFC 9110) can lengthen
      it up to MaxDelay. */
  function Delay(cfg: Config, attempt: nat, r: Reply): int
    requires attempt >= 1 && r.IronflowError?
  {
    var delay := if r.connectionError then cfg.connectionRetryDelay else Backoff(cfg, attempt);
    if r.retryAfter > delay then (if r.retryAfter < cfg.maxDelay then r.retryAfter else cfg.maxDelay) else delay
  }

  function Larger(a: int, b: int): int { if a > b then a else b }

  lemma TruncateBelow(x: real, n: int)
    requires x <= n as real
    ensures Truncate(x) <= n
  {
    if x < 0.0 {
      var f := (-x).Floor;
      assert f as real <= -x < f as real + 1.0;
      assert -n as real <= -x;
    }
  }

  /** Every wait is at most the larger of MaxDelay and ConnectionRetryDelay. */
  lemma DelayIsBounded(cfg: Config, attempt: nat, r: Reply)
    requires attempt >= 1 && r.IronflowError?
    ensures Delay(cfg, attempt, r) <= Larger(cfg.maxDelay, cfg.connectionRetryDelay)
  {
    var x := cfg.initialDelay as real * Power(cfg.backoffMultiplier, attempt - 1);
    TruncateBelow(if x > cfg.maxDelay as real then cfg.maxDelay as real else x, cfg.maxDelay);
  }

  function Smaller(a: int, b: int): int { if a < b then a else b }

  /** Retry-After is honoured up to MaxDelay, whatever else the wait would have been. */
  lemma RetryAfterIsHonoured(cfg: Config, attempt: nat, r: Reply)
    requires attempt >= 1 && r.IronflowError?
    ensures Delay(cfg, attempt, r) >= Smaller(r.retryAfter, cfg.maxDelay)
    ensures r.retryAfter > (if r.connectionError then cfg.connectionRetryDelay else Backoff(cfg, attempt)) ==>
              Delay(cfg, attempt, r) == Smaller(r.retryAfter, cfg.maxDelay)
  {
  }

  /** Without a longer Retry-After, the wait after a connection error is ConnectionRetryDelay, and after
      any other failure the backoff. */
  lemma PlainDelay(cfg: Config, attempt: nat, r: Reply)
    requires attempt >= 1 && r.IronflowError?
    ensures r.connectionError && r.retryAfter <= cfg.connectionRetryDelay ==>
              Delay(cfg, attempt, r) == cfg.connectionRetryDelay
    ensures !r.connectionError && r.retryAfter <= Backoff(cfg, attempt) ==>
              Delay(cfg, attempt, r) == Backoff(cfg, attempt)
  {
  }

  lemma TruncateIs(x: real)
    requires x >= 0.0
    ensures Truncate(x) as real <= x < Truncate(x) as real + 1.0
  {
  }

  /** The first backoff is InitialDelay, capped. */
  lemma BackoffStarts(cfg: Config)
    ensures Backoff(cfg, 1) == Smaller(cfg.initialDelay, cfg.maxDelay)
  {
    var x := cfg.initialDelay as real;
    assert cfg.initialDelay as real * Power(cfg.backoffMultiplier, 0) == x;
    TruncateWhole(cfg.initialDelay);
    TruncateWhole(cfg.maxDelay);
  }

  lemma TruncateWhole(n: int)
    ensures Truncate(n as real) == n
  {
    assert -(n as real) == (-n) as real;
  }

  lemma {:induction false} PowerPositive(m: real, n: nat)
    requires m >= 1.0
    ensures Power(m, n) >= 1.0
  {
    if n > 0 {
      PowerPositive(m, n - 1);
      Scaled(1.0, m, Power(m, n - 1));
    }
  }

  lemma Scaled(a: real, m: real, x: real)
    requires m >= 1.0 && x >= a >= 0.0
    ensures m * x >= x
  {
    assert m * x - x == (m - 1.0) * x;
  }

  /** What attempt n would wait without the cap; each further attempt multiplies it. */
  function Uncapped(cfg: Config, attempt: nat): real
    requires attempt >= 1
  {
    cfg.initialDelay as real * Power(cfg.backoffMultiplier, attempt - 1)
  }

  lemma UncappedStep(cfg: Config, attempt: nat)
    requires attempt >= 1 && cfg.initialDelay >= 0 && cfg.backoffMultiplier >= 1.0
    ensures Uncapped(cfg, attempt + 1) == cfg.backoffMultiplier * Uncapped(cfg, attempt)
    ensures 0.0 <= Uncapped(cfg, attempt) <= Uncapped(cfg, attempt + 1)
  {
    var i, m, pow := cfg.initialDelay as real, cfg.backoffMultiplier, Power(cfg.backoffMultiplier, attempt - 1);
    PowerPositive(m, attempt - 1);
    assert Power(m, attempt) == m * pow;
    assert i * (m * pow) == m * (i * pow);
    assert i * pow >= 0.0;
    Scaled(0.0, m, i * pow);
  }

  lemma Between(m: real, low: real, x: real, high: real, y: real)
    requires m >= 1.0 && low <= x <= high && y == m * x
    ensures m * low <= y <= m * high
  {
    assert m * x - m * low == m * (x - low);
    assert m * high - m * x == m * (high - x);
  }

  /** Of two values, one of them m times the other, the whole parts are so up to what is cut off. */
  predicate GrowsBy(m: real, now: int, next: int) {
    m * now as real < next as real + 1.0 && next as real <= m * (now as real + 1.0)
  }

  lemma TruncatedGrows(m: real, x: real, y: real)
    requires m >= 1.0 && x >= 0.0 && y == m * x && y >= 0.0
    ensures GrowsBy(m, Truncate(x), Truncate(y))
  {
    var now, next := Truncate(x), Truncate(y);
    TruncateIs(x);
    TruncateIs(y);
    Between(m, now as real, x, now as real + 1.0, y);
  }

  lemma TruncateMonotone(x: real, y: real)
    requires x <= y
    ensures Truncate(x) <= Truncate(y)
  {
  }

  /** The backoff grows: it never shrinks from one attempt to the next, and until it reaches MaxDelay the
      next one is this one times BackoffMultiplier, up to the fractions that are cut off. */
  lemma BackoffGrows(cfg: Config, attempt: nat)
    requires attempt >= 1 && cfg.initialDelay >= 0 && cfg.maxDelay >= 0 && cfg.backoffMultiplier >= 1.0
    ensures Backoff(cfg, attempt) <= Backoff(cfg, attempt + 1) <= cfg.maxDelay
    ensures Backoff(cfg, attempt + 1) == cfg.maxDelay
            || GrowsBy(cfg.backoffMultiplier, Backoff(cfg, attempt), Backoff(cfg, attempt + 1))
  {
    UncappedStep(cfg, attempt);
    BackoffIs(cfg, attempt);
    BackoffIs(cfg, attempt + 1);
    CappedGrows(cfg.backoffMultiplier, Uncapped(cfg, attempt), Uncapped(cfg, attempt + 1), cfg.maxDelay);
  }

  lemma CappedGrows(m: real, x: real, y: real, maxDelay: int)
    requires m >= 1.0 && 0.0 <= x <= y && y == m * x && maxDelay >= 0
    ensures var now, next := Truncate(Capped(x, maxDelay as real)), Truncate(Capped(y, maxDelay as real));
            now <= next <= maxDelay && (next == maxDelay || GrowsBy(m, now, next))
  {
    var max := maxDelay as real;
    TruncateWhole(maxDelay);
    TruncateMonotone(Capped(x, max), Capped(y, max));
    TruncateMonotone(Capped(y, max), max);
    if y <= max { TruncatedGrows(m, x, y); }
  }

  function Capped(x: real, max: real): real {
    if x > max then max else x
  }

  lemma BackoffIs(cfg: Config, attempt: nat)
    requires attempt >= 1
    ensures Backoff(cfg, attempt) == Truncate(Capped(Uncapped(cfg, attempt), cfg.maxDelay as real))
  {
  }

  // ------------------------------------------------------------------------ loop

  lemma UncappedNext(cfg: Config, attempt: nat)
    requires attempt >= 1
    ensures Uncapped(cfg, attempt + 1) == Uncapped(cfg, attempt) * cfg.backoffMultiplier
  {
    var i, m, pow := cfg.initialDelay as real, cfg.backoffMultiplier, Power(cfg.backoffMultiplier, attempt - 1);
    assert Power(m, attempt) == m * pow;
    assert i * (m * pow) == (i * pow) * m;
  }

  lemma UncappedFirst(cfg: Config)
    ensures Uncapped(cfg, 1) == cfg.initialDelay as real
  {
    assert cfg.initialDelay as real * 1.0 == cfg.initialDelay as real;
  }

  /** The backoff, as the loop computes it. */
  method ComputeBackoff(cfg: Config, attempt: nat) returns (delay: int)
    requires attempt >= 1
    ensures delay == Backoff(cfg, attempt)
  {
    var delayFloat := cfg.initialDelay as real;
    UncappedFirst(cfg);
    for i := 1 to attempt
      invariant delayFloat == Uncapped(cfg, i)
    {
      UncappedNext(cfg, i);
      delayFloat := delayFloat * cfg.backoffMultiplier;
    }
    if delayFloat > cfg.maxDelay as real { delayFloat := cfg.maxDelay as real; }
    delay := Truncate(delayFloat);
    BackoffIs(cfg, attempt);
  }

  /** The wait after a failed attempt. */
  method ComputeDelay(cfg: Config, attempt: nat, err: Reply) returns (delay: int)
    requires attempt >= 1 && err.IronflowError?
    ensures delay == Delay(cfg, attempt, err)
  {
    if err.connectionError { delay := cfg.connectionRetryDelay; } else { delay := ComputeBackoff(cfg, attempt); }
    if err.retryAfter > delay { delay := if err.retryAfter < cfg.maxDelay then err.retryAfter else cfg.maxDelay; }
  }

  /** How the loop ends: it sends at most MaxAttempts times, each time but the last after a reply
      that permits a resend; it returns the last reply, which is final or ran out of attempts, or
      the end of the context during a wait; and it waits as the replies dictate. */
  ghost predicate Ends(
    cfg: Config, write: bool, replies: seq<Reply>, cancelAt: Option<nat>, result: Result, sends: nat, delays: seq<int>)
    requires |replies| >= cfg.maxAttempts
  {
    if cfg.maxAttempts < 1 then sends == 0 && delays == [] && result == Done(Nil)
    else
      && 1 <= sends <= cfg.maxAttempts
      && (forall i | 0 <= i < sends - 1 :: Resends(write, replies[i]))
      && var last := replies[sends - 1];
         && (result == ContextEnded ==> cancelAt == Some(sends - 1) && Resends(write, last))
         && (result != ContextEnded ==> result == Done(last) && (sends == cfg.maxAttempts || !Resends(write, last)))
         && |delays| == (if result == ContextEnded then sends else sends - 1)
         && (forall i | 0 <= i < |delays| ::
               replies[i].IronflowError? && delays[i] == Delay(cfg, i + 1, replies[i]))
  }

  method RetryLoop(cfg: Config, write: bool, replies: seq<Reply>, cancelAt: Option<nat>)
    returns (result: Result, sends: nat, delays: seq<int>)
    requires |replies| >= cfg.maxAttempts
    ensures Ends(cfg, write, replies, cancelAt, result, sends, delays)
  {
    var attempt := 1;
    sends, delays := 0, [];
    var lastErr := Nil;
    while attempt <= cfg.maxAttempts
      invariant 1 <= attempt && sends == attempt - 1 && |delays| == sends
      invariant sends >= 1 ==> attempt <= cfg.maxAttempts
      invariant forall i | 0 <= i < sends :: Resends(write, replies[i])
      invariant sends == 0 ==> lastErr == Nil
      invariant forall i | 0 <= i < |delays| :: delays[i] == Delay(cfg, i + 1, replies[i])
    {
      var err := replies[attempt - 1];
      sends := sends + 1;
      if err == Nil { return Done(Nil), sends, delays; }
      lastErr := err;
      if !err.IronflowError? || !err.retryable || (write && !err.rateLimited) { return Done(err), sends, delays; }
      if attempt == cfg.maxAttempts { return Done(err), sends, delays; }
      var delay := ComputeDelay(cfg, attempt, err);
      delays := delays + [delay];
      if cancelAt == Some(attempt - 1) { return ContextEnded, sends, delays; }
      attempt := attempt + 1;
    }
    return Done(lastErr), sends, delays;
  }

  // -------------------------------------------------------------------- effects

  /** How many of the sends took effect at the server. */
  function Effects(effects: seq<bool>): nat {
    if effects == [] then 0 else (if effects[0] then 1 else 0) + Effects(effects[1..])
  }

  /** A server that does no work for a request it rate-limits. */
  ghost predicate Consistent(replies: seq<Reply>, effects: seq<bool>) {
    |effects| <= |replies| &&
    forall i | 0 <= i < |effects| && effects[i] :: !(replies[i].IronflowError? && replies[i].rateLimited)
  }

  lemma {:induction false} NoEarlyEffects(effects: seq<bool>, n: nat)
    requires n <= |effects| && forall i | 0 <= i < n :: !effects[i]
    ensures Effects(effects) == Effects(effects[n..])
  {
    if n > 0 {
      NoEarlyEffects(effects[1..], n - 1);
      assert effects[1..][n - 1..] == effects[n..];
    } else {
      assert effects[0..] == effects;
    }
  }

  /** A write that is sent as withRetry sends it is applied at most once, whatever the replies
      and whatever the server did for each of them. */
  lemma WriteAppliedAtMostOnce(replies: seq<Reply>, effects: seq<bool>)
    requires Consistent(replies, effects)
    requires forall i | 0 <= i < |effects| - 1 :: Resends(true, replies[i])
    ensures Effects(effects) <= 1
  {
    if effects != [] {
      var n := |effects| - 1;
      NoEarlyEffects(effects, n);
      assert effects[n..] == [effects[n]] && [effects[n]][1..] == [];
    }
  }

  // ---------------------------------------------------------------- main results

  /** withRetry for every sequence of replies.  `cancelAt` is the wait during which the caller's
      context ends, if any, and `effects` says which executions take effect at the server.  If it
      does no work for a request it rate-limits, a write is applied at most once; and no wait is
      longer than the larger of MaxDelay and ConnectionRetryDelay. */
  method WithRetry(
    config: Option<Config>, write: bool, replies: seq<Reply>, cancelAt: Option<nat>, ghost effects: seq<bool>)
    returns (result: Result, sends: nat, delays: seq<int>)
    requires |replies| >= 1 && (config.Some? ==> |replies| >= config.value.maxAttempts)
    ensures write && |effects| == sends && Consistent(replies, effects) ==> Effects(effects) <= 1
    ensures config.Some? ==>
              forall i | 0 <= i < |delays| ::
                && i < |replies| && replies[i].IronflowError?
                && Smaller(replies[i].retryAfter, config.value.maxDelay) <= delays[i]
                && delays[i] <= Larger(config.value.maxDelay, config.value.connectionRetryDelay)
    ensures config.None? ==> sends == 1 && delays == [] && result == Done(replies[0])
    ensures config.Some? ==> Ends(config.value, write, replies, cancelAt, result, sends, delays)
  {
    if config.None? {
      result, sends, delays := Done(replies[0]), 1, [];
    } else {
      result, sends, delays := RetryLoop(config.value, write, replies, cancelAt);
      forall i | 0 <= i < |delays|
        ensures delays[i] <= Larger(config.value.maxDelay, config.value.connectionRetryDelay)
        ensures i < |replies| && replies[i].IronflowError?
        ensures Smaller(replies[i].retryAfter, config.value.maxDelay) <= delays[i]
      {
        DelayIsBounded(config.value, i + 1, replies[i]);
        RetryAfterIsHonoured(config.value, i + 1, replies[i]);
      }
    }
    if write && |effects| == sends && Consistent(replies, effects) { WriteAppliedAtMostOnce(replies, effects); }
  }

  /** The rate-limit condition cannot be dropped: whenever some other retryable failure is
      followed by one more send, a server may have applied the write twice. */
  lemma OtherwiseAppliedTwice(replies: seq<Reply>, i: nat)
    requires i + 1 < |replies| && replies[i].IronflowError? && !replies[i].rateLimited
    requires !(replies[i + 1].IronflowError? && replies[i + 1].rateLimited)
    ensures exists effects :: |effects| == i + 2 && Consistent(replies, effects) && Effects(effects) == 2
  {
    var effects := seq(i + 2, j => j >= i);
    NoEarlyEffects(effects, i);
    assert effects[i..] == [true, true] && [true, true][1..] == [true] && [true][1..] == [];
    assert Consistent(replies, effects) && Effects(effects) == 2;
  }
}
