/** The flag that marks a socket swap (elevenlabs_stt.py): when it tells the truth although
    several reconnects share it. */
module SttSwap {
  import opened Base
  import opened SttSession

  ghost predicate SomeSwap(s: Stt) { exists id :: Swapping(s, id) }

  /** The flag is up exactly while some socket is being swapped. */
  ghost predicate FlagRight(s: Stt) { s.reconnecting <==> SomeSwap(s) }

  /** This act begins a connect. */
  ghost predicate BeginsConnect(s: Stt, a: Act) {
    || a.Start? || a.BackoffOver?
    || (a.Run? && a.id < |s.cos| && s.cos[a.id].kind != ErrorRetry)
  }

  /** This act ends one: it succeeds, it fails, or its coroutine is cancelled in it. */
  ghost predicate EndsConnect(s: Stt, a: Act) {
    a.Opened? || a.Refused? || (a.Abort? && Swapping(s, a.id))
  }

  /** Nobody but `id` is swapping. */
  ghost predicate Alone(s: Stt, id: int) { forall j :: Swapping(s, j) ==> j == id }

  lemma OthersSwapOn(s: Stt, a: Act)
    requires Enabled(s, a) && EndsConnect(s, a)
    ensures !Next(s, a).reconnecting
    ensures forall j :: Swapping(Next(s, a), j) <==> Swapping(s, j) && j != a.id
  {}

  /** The end of a connect leaves the flag right if and only if no other connect is swapping
      its socket at that moment. */
  lemma FlagAfterConnectIff(s: Stt, a: Act)
    requires Enabled(s, a) && EndsConnect(s, a)
    ensures FlagRight(Next(s, a)) <==> Alone(s, a.id)
  {
    OthersSwapOn(s, a);
  }

  lemma SwapsUntouched(s: Stt, a: Act)
    requires Enabled(s, a) && !EndsConnect(s, a) && !BeginsConnect(s, a)
    ensures Next(s, a).reconnecting == s.reconnecting
    ensures forall j :: Swapping(Next(s, a), j) <==> Swapping(s, j)
  {
    if a.Run? || a.Closed? || a.Abort? {
      StageUntouched(s, a);
    } else {
      StagesUntouched(s, a);
    }
  }

  lemma StageUntouched(s: Stt, a: Act)
    requires Enabled(s, a) && (a.Run? || a.Closed? || a.Abort?) && !EndsConnect(s, a) && !BeginsConnect(s, a)
    ensures Next(s, a).reconnecting == s.reconnecting
    ensures forall j :: Swapping(Next(s, a), j) <==> Swapping(s, j)
  {}

  /** The other acts leave all coroutines where they are, or add one that has not begun. */
  lemma StagesUntouched(s: Stt, a: Act)
    requires Enabled(s, a) && !a.Start? && !a.Run? && !a.BackoffOver? && !a.Closed? && !a.Abort?
    requires !a.Opened? && !a.Refused?
    ensures Next(s, a).reconnecting == s.reconnecting
    ensures var u := Next(s, a);
      && |s.cos| <= |u.cos| && (forall j :: 0 <= j < |s.cos| ==> u.cos[j].stage == s.cos[j].stage)
      && (forall j :: |s.cos| <= j < |u.cos| ==> u.cos[j].stage == Scheduled)
  {}

  lemma ConnectBegun(s: Stt, a: Act) returns (id: nat)
    requires Enabled(s, a) && BeginsConnect(s, a)
    ensures Next(s, a).reconnecting && Swapping(Next(s, a), id)
    ensures forall j :: Swapping(Next(s, a), j) ==> j == id || Swapping(s, j)
  {
    id := if a.Start? then |s.cos| else a.id;
  }

  lemma FlagStep(s: Stt, a: Act)
    requires FlagRight(s) && Enabled(s, a)
    ensures FlagRight(Next(s, a)) <==> (EndsConnect(s, a) ==> Alone(s, a.id))
  {
    if EndsConnect(s, a) {
      FlagAfterConnectIff(s, a);
    } else if BeginsConnect(s, a) {
      var id := ConnectBegun(s, a);
    } else {
      SwapsUntouched(s, a);
      if SomeSwap(s) {
        var id :| Swapping(s, id);
        assert Swapping(Next(s, a), id);
      }
    }
  }

  /** Over every run: the flag was right all along if and only if no connect so far ended
      while another was swapping. */
  lemma {:induction false} FlagRightIff(states: seq<Stt>, acts: seq<Act>, i: nat)
    requires IsRun(states, acts) && i <= |acts|
    ensures (forall n :: 0 <= n <= i ==> FlagRight(states[n]))
       <==> (forall n {:trigger acts[n]} :: 0 <= n < i && EndsConnect(states[n], acts[n]) ==>
               Alone(states[n], acts[n].id))
  {
    if i > 0 {
      FlagRightIff(states, acts, i - 1);
      assert Steps(states[i - 1], acts[i - 1], states[i]);
      if FlagRight(states[i - 1]) { FlagStep(states[i - 1], acts[i - 1]); }
    }
  }

  /** In particular it is right in every run in which no connect begins while another one
      swaps; at most one does then. */
  lemma {:induction false} FlagRightWithoutOverlap(states: seq<Stt>, acts: seq<Act>, i: nat)
    requires IsRun(states, acts) && i <= |acts|
    requires forall n {:trigger acts[n]} :: 0 <= n < i && BeginsConnect(states[n], acts[n]) ==> !SomeSwap(states[n])
    ensures FlagRight(states[i])
    ensures forall j, k :: Swapping(states[i], j) && Swapping(states[i], k) ==> j == k
  {
    if i > 0 {
      FlagRightWithoutOverlap(states, acts, i - 1);
      var s, a := states[i - 1], acts[i - 1];
      assert Steps(s, a, states[i]);
      if EndsConnect(s, a) {
        OthersSwapOn(s, a);
        FlagAfterConnectIff(s, a);
      } else if BeginsConnect(s, a) {
        var id := ConnectBegun(s, a);
      } else {
        FlagStep(s, a);
        SwapsUntouched(s, a);
      }
    }
  }

  // ---- a run in which it is not

  lemma TwoReconnects() returns (states: seq<Stt>, acts: seq<Act>)
    ensures IsRun(states, acts)
    ensures var s := states[|acts|];
      && !s.stopping && s.inbound.Some? && s.socket && s.attempt == 0 && s.feeders == [Running] && s.feedTask == Some(0)
      && s.cos == [Co(Starter, Finished, false), Co(LongTts, Scheduled, false), Co(ErrorRetry, Scheduled, false)]
  {
    var s1 := Next(CREATED, Start(0));
    var s2 := Next(s1, Opened(0));
    var s3 := Next(s2, Schedule(LongTts));
    var s4 := Next(s3, Schedule(ErrorRetry));
    states, acts := [CREATED, s1, s2, s3, s4], [Start(0), Opened(0), Schedule(LongTts), Schedule(ErrorRetry)];
  }

  /** Two overlapping reconnects share one flag: the first to finish takes it down while
      the other is still swapping its socket. */
  lemma FlagDownDuringSwap() returns (states: seq<Stt>, acts: seq<Act>)
    ensures IsRun(states, acts) && !states[|acts|].reconnecting && Swapping(states[|acts|], 2)
  {
    states, acts := TwoReconnects();
    states, acts := Step(states, acts, Run(2));
    states, acts := Step(states, acts, Run(1));
    states, acts := Step(states, acts, BackoffOver(2));
    states, acts := Step(states, acts, Closed(1));
    states, acts := Step(states, acts, Opened(1));
  }
}
