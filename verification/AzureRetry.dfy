/** Reconnecting the Azure recogniser with exponential backoff (`_reconnect_after_error` in
    azure_stt.py). Delays are reals in seconds; the jitter of each delay is any real in
    [0.75, 1.25). */
module AzureRetry {

  const MAX_ATTEMPTS: nat := 3
  const BASE_DELAY: real := 1.0
  const MAX_DELAY: real := 30.0

  predicate IsJitter(j: real) { 0.75 <= j < 1.25 }

  function Doubled(n: nat): (r: real)
    ensures r >= 1.0
  {
    if n == 0 then 1.0 else 2.0 * Doubled(n - 1)
  }

  function Backoff(attempt: nat): real {
    if BASE_DELAY * Doubled(attempt) < MAX_DELAY then BASE_DELAY * Doubled(attempt) else MAX_DELAY
  }

  function Sum(xs: seq<real>): real { if xs == [] then 0.0 else xs[0] + Sum(xs[1..]) }

  lemma {:induction false} SumSnoc(xs: seq<real>, x: real)
    ensures Sum(xs + [x]) == Sum(xs) + x
  {
    if xs != [] {
      assert (xs + [x])[1..] == xs[1..] + [x];
      SumSnoc(xs[1..], x);
    } else {
      assert (xs + [x])[1..] == [];
    }
  }

  /** The i-th delay of a chain that started at a given counter value. */
  ghost predicate Delayed(delays: seq<real>, start: nat) {
    forall i :: 0 <= i < |delays| ==>
      0.75 * Backoff(start + i) <= delays[i] < 1.25 * Backoff(start + i)
  }

  class Reconnector {
    var attempt: nat
    var errors: nat
    var delays: seq<real>

    constructor ()
      ensures attempt == 0 && errors == 0 && delays == []
    {
      attempt, errors, delays := 0, 0, [];
    }

    static method Jittered(attempt: nat, jitter: real) returns (delay: real)
      requires IsJitter(jitter)
      ensures 0.75 * Backoff(attempt) <= delay < 1.25 * Backoff(attempt)
    {
      JitteredDelay(Backoff(attempt), jitter);
      delay := Backoff(attempt) * jitter;
    }

    /** One chain: `outcomes[i]` says whether the i-th reconnect succeeds. It ends with the
        counter back at 0 after the first success, or with the error callback fired once
        when the cap is reached; it sleeps once per attempt. */
    method ReconnectAfterError(outcomes: seq<bool>, jitters: seq<real>) returns (ghost tries: nat)
      requires |outcomes| >= MAX_ATTEMPTS - attempt && |jitters| >= MAX_ATTEMPTS - attempt
      requires forall i :: 0 <= i < |jitters| ==> IsJitter(jitters[i])
      modifies this
      ensures Chain(old(attempt), outcomes, tries)
      ensures |delays| == |old(delays)| + tries && old(delays) <= delays
      ensures Delayed(delays[|old(delays)|..], old(attempt))
      ensures tries > 0 && outcomes[tries - 1] ==> attempt == 0 && errors == old(errors)
      ensures !(tries > 0 && outcomes[tries - 1]) ==>
                attempt == old(attempt) + tries >= MAX_ATTEMPTS && errors == old(errors) + 1
      decreases MAX_ATTEMPTS - attempt
    {
      tries := 0;
      if attempt >= MAX_ATTEMPTS {
        errors := errors + 1;
        return;
      }
      var delay := Jittered(attempt, jitters[0]);
      delays := delays + [delay];
      if outcomes[0] {
        attempt := 0;
        tries := 1;
        assert delays[|old(delays)|..] == [delay];
      } else {
        attempt := attempt + 1;
        tries := ReconnectAfterError(outcomes[1..], jitters[1..]);
        ChainCons(old(attempt), outcomes, tries);
        DelayedBehind(old(delays), delay, delays, old(attempt));
        tries := tries + 1;
      }
    }
  }

  /** From counter value `start`, n reconnects are tried: all but perhaps the last fail,
      and if the last fails too the cap is reached. */
  ghost predicate Chain(start: nat, outcomes: seq<bool>, n: nat) {
    && n <= |outcomes|
    && (start >= MAX_ATTEMPTS ==> n == 0)
    && (start < MAX_ATTEMPTS ==> 0 < n <= MAX_ATTEMPTS - start)
    && (forall i :: 0 <= i < n - 1 ==> !outcomes[i])
    && (n > 0 && !outcomes[n - 1] ==> start + n == MAX_ATTEMPTS)
  }

  lemma ChainCons(start: nat, outcomes: seq<bool>, n: nat)
    requires start < MAX_ATTEMPTS && outcomes != [] && !outcomes[0] && Chain(start + 1, outcomes[1..], n)
    ensures Chain(start, outcomes, n + 1)
    ensures n > 0 ==> outcomes[n] == outcomes[1..][n - 1]
  {
    forall i | 0 <= i < n ensures !outcomes[i] {
      if i > 0 { assert outcomes[i] == outcomes[1..][i - 1]; }
    }
  }

  /** The number of tries is determined by the outcomes. */
  lemma ChainUnique(start: nat, outcomes: seq<bool>, m: nat, n: nat)
    requires Chain(start, outcomes, m) && Chain(start, outcomes, n)
    ensures m == n
  {
    if m < n { UniqueOneWay(start, outcomes, m, n); }
    if n < m { UniqueOneWay(start, outcomes, n, m); }
  }

  lemma UniqueOneWay(start: nat, outcomes: seq<bool>, m: nat, n: nat)
    requires Chain(start, outcomes, m) && Chain(start, outcomes, n)
    ensures m >= n
  {}

  lemma JitteredDelay(b: real, j: real)
    requires b > 0.0 && IsJitter(j)
    ensures 0.75 * b <= b * j < 1.25 * b
  {
    assert b * (j - 0.75) >= 0.0;
    assert b * (1.25 - j) > 0.0;
  }

  lemma DelayedCons(d: real, rest: seq<real>, start: nat)
    requires Delayed(rest, start + 1) && 0.75 * Backoff(start) <= d < 1.25 * Backoff(start)
    ensures Delayed([d] + rest, start)
  {
    var all := [d] + rest;
    forall i | 0 <= i < |all| ensures 0.75 * Backoff(start + i) <= all[i] < 1.25 * Backoff(start + i) {
      if i > 0 { assert all[i] == rest[i - 1]; }
    }
  }

  lemma DelayedBehind(before: seq<real>, d: real, all: seq<real>, start: nat)
    requires before + [d] <= all && Delayed(all[|before| + 1..], start + 1)
    requires 0.75 * Backoff(start) <= d < 1.25 * Backoff(start)
    ensures before <= all && Delayed(all[|before|..], start)
  {
    assert all[|before|] == (before + [d])[|before|] == d;
    assert all[|before|..] == [d] + all[|before| + 1..];
    DelayedCons(d, all[|before| + 1..], start);
  }

  lemma FirstBackoffs()
    ensures Backoff(0) == 1.0 && Backoff(1) == 2.0 && Backoff(2) == 4.0
  {
    assert Doubled(1) == 2.0;
    assert Doubled(2) == 4.0;
  }

  /** Within a chain every delay is longer than the one before, whatever the jitter. */
  lemma DelaysIncrease(delays: seq<real>, start: nat, i: nat, j: nat)
    requires Delayed(delays, start) && i < j < |delays| && start + j < MAX_ATTEMPTS
    ensures delays[i] < delays[j]
  {
    FirstBackoffs();
  }

  /** A chain from 0 that only fails sleeps between 5.25 and 8.75 seconds in all. */
  lemma FullFailureSleep(delays: seq<real>)
    requires Delayed(delays, 0) && |delays| == MAX_ATTEMPTS
    ensures 5.25 <= Sum(delays) < 8.75
  {
    FirstBackoffs();
    assert delays == [delays[0]] + [delays[1]] + [delays[2]];
    SumSnoc([delays[0]] + [delays[1]], delays[2]);
    SumSnoc([delays[0]], delays[1]);
    assert Sum([delays[0]]) == delays[0];
    assert 0.75 * Backoff(0) <= delays[0] < 1.25 * Backoff(0);
    assert 0.75 * Backoff(0 + 1) <= delays[1] < 1.25 * Backoff(0 + 1);
    assert 0.75 * Backoff(0 + 2) <= delays[2] < 1.25 * Backoff(0 + 2);
  }
}
