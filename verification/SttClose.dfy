/** What a stop of the ElevenLabs session tells and closes, and what a connect does before it
    opens a socket (elevenlabs_stt.py), over every run. */
module SttClose {
  import opened Base
  import opened SttSession

  /** The socket was closed for stop k behind act g and before act i. */
  ghost predicate ClosedFor(acts: seq<Act>, g: nat, i: nat, k: nat)
    requires i <= |acts|
  {
    exists c :: g < c < i && acts[c] == SocketClosed(k)
  }

  lemma OneMoreClose(acts: seq<Act>, g: nat, i: nat, k: nat)
    requires g < i < |acts|
    ensures ClosedFor(acts, g, i + 1, k) <==> ClosedFor(acts, g, i, k) || acts[i] == SocketClosed(k)
  {}

  lemma PhaseStep(s: Stt, a: Act, t: Stt, k: nat)
    requires Steps(s, a, t) && k < |t.stops|
    ensures k < |s.stops| && s.stops[k].phase != Gathering ==>
              t.stops[k].phase == if a == SocketClosed(k) then Returned else s.stops[k].phase
    ensures (k >= |s.stops| || s.stops[k].phase == Gathering) && t.stops[k].phase != Gathering ==>
              a == Gathered(k) && t.stops[k].phase == if s.socket then ClosingSocket else Returned
  {
    if a.Gathered? || a.SocketClosed? || a.CallStop? {} else { assert t.stops == s.stops; }
  }

  /** A stop that has gathered has returned if and only if there was no socket when it
      gathered, or the socket was closed for it since. */
  lemma {:induction false} ReturnedIff(states: seq<Stt>, acts: seq<Act>, i: nat, k: nat) returns (g: nat)
    requires IsRun(states, acts) && i <= |acts| && k < |states[i].stops| && states[i].stops[k].phase != Gathering
    ensures g < i && acts[g] == Gathered(k)
    ensures states[i].stops[k].phase == Returned <==> !states[g].socket || ClosedFor(acts, g, i, k)
  {
    if i == 0 { assert false; }
    var s, a := states[i - 1], acts[i - 1];
    assert Steps(s, a, states[i]);
    PhaseStep(s, a, states[i], k);
    if k < |s.stops| && s.stops[k].phase != Gathering {
      g := ReturnedIff(states, acts, i - 1, k);
      OneMoreClose(acts, g, i - 1, k);
    } else {
      g := i - 1;
    }
  }

  /** Stop k has gathered, and there was no socket then or it was closed for the stop. */
  ghost predicate SocketSeenTo(states: seq<Stt>, acts: seq<Act>, k: nat)
    requires |acts| < |states|
  {
    exists g :: 0 <= g < |acts| && acts[g] == Gathered(k) && (!states[g].socket || ClosedFor(acts, g, |acts|, k))
  }

  // ---- whom a stop tells

  ghost predicate NobodyRuns(s: Stt) {
    && s.stopping && s.owned == {}
    && (forall f :: 0 <= f < |s.feeders| ==> s.feeders[f] != Running)
  }

  lemma TellsAll(s: Stt)
    requires Inv(s)
    ensures NobodyRuns(Next(s, CallStop))
  {}

  lemma NobodyStarts(s: Stt, a: Act)
    requires NobodyRuns(s) && Enabled(s, a) && !a.Start?
    ensures NobodyRuns(Next(s, a))
  {}

  /** From a call of stop on, until somebody starts the session: no feeder runs that was not
      told to end, and all scheduled work has ended or was told to. */
  lemma {:induction false} StopTellsEverybody(states: seq<Stt>, acts: seq<Act>, c: nat, i: nat)
    requires IsRun(states, acts) && c < i <= |acts| && acts[c] == CallStop
    requires forall n {:trigger acts[n]} :: c < n < i ==> !acts[n].Start?
    ensures NobodyRuns(states[i])
    ensures forall id :: 0 <= id < |states[i].cos| && states[i].cos[id].kind != Starter ==>
              states[i].cos[id].stage == Finished || states[i].cos[id].cancelled
    decreases i
  {
    var a := acts[i - 1];
    RunInv(states, acts, i - 1);
    RunInv(states, acts, i);
    assert Steps(states[i - 1], a, states[i]);
    if i - 1 == c {
      TellsAll(states[c]);
    } else {
      StopTellsEverybody(states, acts, c, i - 1);
      NobodyStarts(states[i - 1], a);
    }
    forall id | 0 <= id < |states[i].cos| && states[i].cos[id].kind != Starter
      ensures states[i].cos[id].stage == Finished || states[i].cos[id].cancelled
    {
      assert !Keeps(states[i], id);
    }
  }

  // ---- before a socket is opened

  /** The act begins the connect of coroutine id. */
  ghost predicate Begins(s: Stt, a: Act, id: nat) {
    || (a.Start? && id == |s.cos|) || a == BackoffOver(id)
    || (a == Run(id) && id < |s.cos| && s.cos[id].kind != ErrorRetry)
  }

  ghost predicate ClosedBy(acts: seq<Act>, b: nat, i: nat, id: nat)
    requires i <= |acts|
  {
    exists c :: b < c < i && acts[c] == Closed(id)
  }

  lemma OneMoreClosed(acts: seq<Act>, b: nat, i: nat, id: nat)
    requires b < i < |acts|
    ensures ClosedBy(acts, b, i + 1, id) <==> ClosedBy(acts, b, i, id) || acts[i] == Closed(id)
  {}

  lemma NewcomerSwaps(s: Stt, a: Act, t: Stt, id: nat)
    requires Steps(s, a, t) && Swapping(t, id) && (a.Start? || a.Schedule?)
    ensures if a.Start? && id == |s.cos| then t.cos[id].stage == if s.socket then Closing else Opening
            else Swapping(s, id) && t.cos[id].stage == s.cos[id].stage
  {}

  lemma SwapStep(s: Stt, a: Act, t: Stt, id: nat)
    requires Steps(s, a, t) && Swapping(t, id)
    ensures if Begins(s, a, id) then t.cos[id].stage == if s.socket then Closing else Opening
            else Swapping(s, id) && t.cos[id].stage == if a == Closed(id) then Opening else s.cos[id].stage
  {
    if a.Start? || a.Schedule? {
      NewcomerSwaps(s, a, t, id);
    } else {
      assert |t.cos| == |s.cos|;
    }
  }

  /** A connect is about to open its socket if and only if there was no socket when it began,
      or it has closed the old one since. */
  lemma {:induction false} OldSocketClosedFirst(states: seq<Stt>, acts: seq<Act>, i: nat, id: nat) returns (b: nat)
    requires IsRun(states, acts) && i <= |acts| && Swapping(states[i], id)
    ensures b < i && Begins(states[b], acts[b], id)
    ensures states[i].cos[id].stage == Opening <==> !states[b].socket || ClosedBy(acts, b, i, id)
  {
    if i == 0 { assert false; }
    var s, a := states[i - 1], acts[i - 1];
    assert Steps(s, a, states[i]);
    SwapStep(s, a, states[i], id);
    if Begins(s, a, id) {
      b := i - 1;
    } else {
      b := OldSocketClosedFirst(states, acts, i - 1, id);
      OneMoreClosed(acts, b, i - 1, id);
    }
  }

  lemma KindStays(s: Stt, a: Act, t: Stt, id: nat)
    requires Steps(s, a, t) && id < |s.cos|
    ensures id < |t.cos| && t.cos[id].kind == s.cos[id].kind
  {
    if a.Run? || a.BackoffOver? || a.Closed? {
      WaitsOver(s, a);
    } else if a.Opened? || a.Refused? || a.Abort? {
      AttemptOver(s, a);
    }
  }

  /** Whoever awaits `start` may be cancelled: then, and only then, its coroutine may end at an
      await. */
  lemma CancelledStartCanEnd(s: Stt, id: nat)
    requires Enabled(s, CancelStart(id)) && s.cos[id].stage != Finished
    ensures Enabled(Next(s, CancelStart(id)), Abort(id))
    ensures !s.cos[id].cancelled ==> !Enabled(s, Abort(id))
  {}

  /** The connect of an error retry begins only when its backoff is over. */
  lemma {:induction false} RetryBacksOff(states: seq<Stt>, acts: seq<Act>, i: nat, id: nat) returns (b: nat)
    requires IsRun(states, acts) && i <= |acts| && Swapping(states[i], id) && states[i].cos[id].kind == ErrorRetry
    ensures b < i && acts[b] == BackoffOver(id)
  {
    if i == 0 { assert false; }
    var s, a := states[i - 1], acts[i - 1];
    assert Steps(s, a, states[i]);
    SwapStep(s, a, states[i], id);
    if a == BackoffOver(id) {
      b := i - 1;
    } else {
      if id < |s.cos| { KindStays(s, a, states[i], id); }
      b := RetryBacksOff(states, acts, i - 1, id);
    }
  }
}
