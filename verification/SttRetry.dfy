/** When the ElevenLabs session gives up reconnecting: what the attempt counter counts over
    whole runs, however reconnects, starts and stops interleave (elevenlabs_stt.py). */
module SttRetry {
  import opened SttSession

  /** The connect of an error retry failed, or succeeded. */
  predicate RetryFailed(s: Stt, a: Act) {
    a.Refused? && a.id < |s.cos| && s.cos[a.id].kind == ErrorRetry
  }

  predicate RetrySucceeded(s: Stt, a: Act) {
    a.Opened? && a.id < |s.cos| && s.cos[a.id].kind == ErrorRetry
  }

  /** This act reports that reconnecting is exhausted. */
  predicate GivesUp(s: Stt, a: Act)
    requires Enabled(s, a)
  {
    Next(s, a).errors != s.errors
  }

  lemma CounterStep(s: Stt, a: Act)
    requires Enabled(s, a)
    ensures Next(s, a).attempt ==
      if RetrySucceeded(s, a) then 0 else if RetryFailed(s, a) then s.attempt + 1 else s.attempt
  {}

  lemma GivesUpAt(s: Stt, a: Act)
    requires Enabled(s, a)
    ensures GivesUp(s, a) <==> a.Run? && s.cos[a.id].kind == ErrorRetry && s.attempt >= MAX_ATTEMPTS
  {}

  /** From act a on, up to act n, no error retry succeeded. */
  ghost predicate NoSuccess(states: seq<Stt>, acts: seq<Act>, a: nat, n: nat)
    requires |states| == |acts| + 1 && n <= |acts|
  {
    forall k {:trigger acts[k]} :: a <= k < n ==> !RetrySucceeded(states[k], acts[k])
  }

  lemma {:induction false} LatestFailure(states: seq<Stt>, acts: seq<Act>, n: nat) returns (a: nat)
    requires IsRun(states, acts) && n <= |acts| && states[n].attempt > 0
    ensures a < n && RetryFailed(states[a], acts[a]) && states[a].attempt + 1 == states[n].attempt
    ensures NoSuccess(states, acts, a, n)
  {
    if n > 0 {
      assert Steps(states[n - 1], acts[n - 1], states[n]);
      CounterStep(states[n - 1], acts[n - 1]);
      if RetryFailed(states[n - 1], acts[n - 1]) {
        a := n - 1;
      } else {
        a := LatestFailure(states, acts, n - 1);
      }
    }
  }

  lemma {:induction false} CounterGrows(states: seq<Stt>, acts: seq<Act>, a: nat, n: nat)
    requires IsRun(states, acts) && a <= n <= |acts| && NoSuccess(states, acts, a, n)
    ensures states[n].attempt >= states[a].attempt
    decreases n - a
  {
    if a < n {
      assert Steps(states[n - 1], acts[n - 1], states[n]);
      CounterStep(states[n - 1], acts[n - 1]);
      CounterGrows(states, acts, a, n - 1);
    }
  }

  /** Three failed error retries before act i, and no successful one since the first. */
  ghost predicate ThreeFailures(states: seq<Stt>, acts: seq<Act>, a: nat, b: nat, c: nat, i: nat)
    requires |states| == |acts| + 1 && i <= |acts|
  {
    && a < b < c < i
    && RetryFailed(states[a], acts[a]) && RetryFailed(states[b], acts[b]) && RetryFailed(states[c], acts[c])
    && NoSuccess(states, acts, a, i)
  }

  /** In every run an error retry that begins gives up if and only if three error retries
      had failed with no successful one since. */
  lemma GivesUpIff(states: seq<Stt>, acts: seq<Act>, i: nat)
    requires IsRun(states, acts) && i < |acts| && Enabled(states[i], acts[i])
    requires acts[i].Run? && states[i].cos[acts[i].id].kind == ErrorRetry
    ensures GivesUp(states[i], acts[i]) <==> exists a, b, c :: ThreeFailures(states, acts, a, b, c, i)
  {
    GivesUpAt(states[i], acts[i]);
    if states[i].attempt >= MAX_ATTEMPTS {
      var c := LatestFailure(states, acts, i);
      var b := LatestFailure(states, acts, c);
      var a := LatestFailure(states, acts, b);
      assert ThreeFailures(states, acts, a, b, c, i);
    }
    forall a, b, c | ThreeFailures(states, acts, a, b, c, i) ensures states[i].attempt >= MAX_ATTEMPTS {
      FailureCounts(states, acts, a, b);
      FailureCounts(states, acts, b, c);
      FailureCounts(states, acts, c, i);
    }
  }

  lemma FailureCounts(states: seq<Stt>, acts: seq<Act>, a: nat, n: nat)
    requires IsRun(states, acts) && a < n <= |acts|
    requires RetryFailed(states[a], acts[a]) && NoSuccess(states, acts, a, n)
    ensures states[n].attempt >= states[a].attempt + 1
  {
    assert Steps(states[a], acts[a], states[a + 1]);
    CounterStep(states[a], acts[a]);
    CounterGrows(states, acts, a + 1, n);
  }
}
