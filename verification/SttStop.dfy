/** What `stop` of the ElevenLabs session leaves behind (elevenlabs_stt.py): exactly when the
    scheduled work is done, and what a start during a stop does. */
module SttStop {
  import opened Base
  import opened SttSession

  /** A stretch of a run from a given state. */
  ghost predicate Leads(states: seq<Stt>, acts: seq<Act>, s: Stt) {
    && |states| == |acts| + 1 && states[0] == s
    && forall i {:trigger acts[i]} :: 0 <= i < |acts| ==> Steps(states[i], acts[i], states[i + 1])
  }

  ghost predicate NoStart(acts: seq<Act>) { forall i :: 0 <= i < |acts| ==> !acts[i].Start? }

  ghost predicate HasReturned(s: Stt, k: nat) { k < |s.stops| && s.stops[k].phase == Returned }

  /** All work that the session scheduled itself has ended. */
  ghost predicate WorkDone(s: Stt) {
    forall id :: 0 <= id < |s.cos| && s.cos[id].kind != Starter ==> s.cos[id].stage == Finished
  }

  lemma Extend(states: seq<Stt>, acts: seq<Act>, s: Stt, a: Act) returns (states': seq<Stt>, acts': seq<Act>)
    requires Leads(states, acts, s) && Enabled(states[|acts|], a)
    ensures Leads(states', acts', s) && acts' == acts + [a] && states' == states + [Next(states[|acts|], a)]
  {
    states', acts' := states + [Next(states[|acts|], a)], acts + [a];
    forall i | 0 <= i < |acts'| ensures Steps(states'[i], acts'[i], states'[i + 1]) {
      var b := acts'[i];
      if i < |acts| { assert b == acts[i]; }
    }
  }

  // ---- scheduled work

  lemma WorkStaysDone(s: Stt, a: Act)
    requires Enabled(s, a) && !a.Start? && s.stopping && WorkDone(s)
    ensures Next(s, a).stopping && WorkDone(Next(s, a))
  {}

  lemma {:induction false} WorkStaysDoneThrough(states: seq<Stt>, acts: seq<Act>, s: Stt, i: nat)
    requires Leads(states, acts, s) && NoStart(acts) && s.stopping && WorkDone(s) && i <= |acts|
    ensures states[i].stopping && WorkDone(states[i])
  {
    if i > 0 {
      WorkStaysDoneThrough(states, acts, s, i - 1);
      assert Steps(states[i - 1], acts[i - 1], states[i]);
      WorkStaysDone(states[i - 1], acts[i - 1]);
    }
  }

  /** A stop waits for its feeder and the socket only, so it can return with all
      coroutines where they are. */
  lemma StopReturns(s: Stt, k: nat) returns (states: seq<Stt>, acts: seq<Act>)
    requires Inv(s) && k < |s.stops| && s.stops[k].phase == Gathering
    ensures Leads(states, acts, s) && NoStart(acts)
    ensures HasReturned(states[|acts|], k) && states[|acts|].cos == s.cos
  {
    states, acts := [s], [];
    var f := s.stops[k].feeder;
    if f.Some? && s.feeders[f.value] != Done {
      states, acts := Extend(states, acts, s, FeederEnds(f.value));
    }
    states, acts := Extend(states, acts, s, Gathered(k));
    if s.socket { states, acts := Extend(states, acts, s, SocketClosed(k)); }
  }

  /** However a stop without a later start goes on, all scheduled work has ended when it
      returns if and only if it had ended before the stop was called. */
  lemma StopFinishesWorkIff(s: Stt)
    requires Inv(s)
    ensures (forall states: seq<Stt>, acts: seq<Act> ::
               Leads(states, acts, Next(s, CallStop)) && NoStart(acts) && HasReturned(states[|acts|], |s.stops|) ==>
                 WorkDone(states[|acts|]))
       <==> WorkDone(s)
  {
    var u := Next(s, CallStop);
    if WorkDone(s) {
      assert WorkDone(u);
      forall states: seq<Stt>, acts: seq<Act> | Leads(states, acts, u) && NoStart(acts)
        ensures WorkDone(states[|acts|])
      {
        WorkStaysDoneThrough(states, acts, u, |acts|);
      }
    } else {
      InvKept(s, CallStop);
      var states, acts := StopReturns(u, |s.stops|);
      var id :| 0 <= id < |s.cos| && s.cos[id].kind != Starter && s.cos[id].stage != Finished;
      assert u.cos[id].kind == s.cos[id].kind && u.cos[id].stage == s.cos[id].stage;
      assert !WorkDone(states[|acts|]);
    }
  }

  /** A session whose long-TTS reconnect closes the old socket when the stop is called. */
  lemma StopDuringSwap() returns (states: seq<Stt>, acts: seq<Act>)
    ensures IsRun(states, acts)
    ensures var s := states[|acts|];
      && s.stops == [Stop(Some(0), Gathering, 1)] && s.starts == 1 && s.socket && s.reconnecting && s.stopping
      && s.feeders == [Cancelling] && s.cos == [Co(Starter, Finished, false), Co(LongTts, Closing, true)]
  {
    var s1 := Next(CREATED, Start(0));
    var s2 := Next(s1, Opened(0));
    var s3 := Next(s2, Schedule(LongTts));
    states, acts := [CREATED, s1, s2, s3], [Start(0), Opened(0), Schedule(LongTts)];
    states, acts := Step(states, acts, Run(1));
    states, acts := Step(states, acts, CallStop);
  }

  /** A run in which nobody starts the session again: the stop has returned, and then a
      reconnect that was told to cancel closes its old socket and opens a new one. */
  lemma StoppedIsNotDone() returns (states: seq<Stt>, acts: seq<Act>)
    ensures IsRun(states, acts) && |acts| > 1 && acts[|acts| - 1] == Opened(1)
    ensures var s := states[|acts| - 1];
      && s.stops == [Stop(Some(0), Returned, 1)] && s.starts == 1
      && s.cos[1] == Co(LongTts, Opening, true) && s.reconnecting
    ensures states[|acts|].socket && states[|acts|].stops == states[|acts| - 1].stops
  {
    states, acts := StopDuringSwap();
    states, acts := Step(states, acts, FeederEnds(0));
    states, acts := Step(states, acts, Gathered(0));
    states, acts := Step(states, acts, SocketClosed(0));
    states, acts := Step(states, acts, Closed(1));
    states, acts := Step(states, acts, Opened(1));
  }

  // ---- a start during a stop

  ghost predicate SomeFeederLive(s: Stt) { exists f :: 0 <= f < |s.feeders| && s.feeders[f] != Done }

  /** The last act lets stop k return, and a feeder is live at that moment. */
  ghost predicate ReturnsWithFeeder(states: seq<Stt>, acts: seq<Act>, k: nat) {
    && |states| == |acts| + 1 && acts != []
    && !HasReturned(states[|acts| - 1], k) && HasReturned(states[|acts|], k) && SomeFeederLive(states[|acts|])
  }

  lemma {:induction false} ReturnedStays(states: seq<Stt>, acts: seq<Act>, s: Stt, i: nat, k: nat)
    requires Leads(states, acts, s) && HasReturned(s, k) && i <= |acts|
    ensures HasReturned(states[i], k)
  {
    if i > 0 {
      ReturnedStays(states, acts, s, i - 1, k);
      assert Steps(states[i - 1], acts[i - 1], states[i]);
    }
  }

  /** The connect of a start that just began completes; a feeder is live then, though the
      one that stop k waits for is done. */
  lemma StartCompletes(s: Stt, k: nat, queue: nat) returns (states: seq<Stt>, acts: seq<Act>)
    requires Inv(s) && k < |s.stops|
    ensures Leads(states, acts, Next(s, Start(queue)))
    ensures var u := states[|acts|];
      && u.stops == s.stops && u.socket && u.feedTask.Some? && u.feedTask.value < |u.feeders|
      && u.feeders[u.feedTask.value] != Done && |s.feeders| <= |u.feeders|
      && (s.stops[k].feeder.Some? ==> u.feeders[s.stops[k].feeder.value] == Done)
  {
    var t := Next(s, Start(queue));
    states, acts := [t], [];
    var f := s.stops[k].feeder;
    if f.Some? && s.feeders[f.value] != Done {
      states, acts := Extend(states, acts, t, FeederEnds(f.value));
    }
    if s.socket { states, acts := Extend(states, acts, t, Closed(|s.cos|)); }
    states, acts := Extend(states, acts, t, Opened(|s.cos|));
  }

  lemma ReturnNow(states: seq<Stt>, acts: seq<Act>, s: Stt, k: nat) returns (states': seq<Stt>, acts': seq<Act>)
    requires Leads(states, acts, s)
    requires var u := states[|acts|];
      && k < |u.stops| && u.stops[k].phase != Returned && u.socket && SomeFeederLive(u)
      && (u.stops[k].feeder.Some? ==>
          u.stops[k].feeder.value < |u.feeders| && u.feeders[u.stops[k].feeder.value] == Done)
    ensures Leads(states', acts', s) && ReturnsWithFeeder(states', acts', k)
  {
    var u := states[|acts|];
    states', acts' := states, acts;
    if u.stops[k].phase == Gathering { states', acts' := Extend(states', acts', s, Gathered(k)); }
    var v := states'[|acts'|];
    assert v.feeders == u.feeders && v.stops[k].phase == ClosingSocket;
    states', acts' := Extend(states', acts', s, SocketClosed(k));
    assert states'[|acts'|].feeders == u.feeders;
  }

  /** After a start some stop called before it can return while a feeder is live if and only
      if there is a stop that had not returned when the start came. */
  lemma StartBreaksStopIff(s: Stt, queue: nat)
    requires Inv(s)
    ensures (exists states: seq<Stt>, acts: seq<Act>, k: nat ::
               k < |s.stops| && Leads(states, acts, Next(s, Start(queue))) && ReturnsWithFeeder(states, acts, k))
       <==> (exists k :: 0 <= k < |s.stops| && s.stops[k].phase != Returned)
  {
    if k :| 0 <= k < |s.stops| && s.stops[k].phase != Returned {
      var states, acts := StartCompletes(s, k, queue);
      var states', acts' := ReturnNow(states, acts, Next(s, Start(queue)), k);
    }
    forall states: seq<Stt>, acts: seq<Act>, k: nat
      | k < |s.stops| && Leads(states, acts, Next(s, Start(queue))) && ReturnsWithFeeder(states, acts, k)
      ensures s.stops[k].phase != Returned
    {
      if HasReturned(s, k) { ReturnedStays(states, acts, Next(s, Start(queue)), |acts| - 1, k); }
    }
  }

  /** A session that started, then stops and, before the stop has gathered, starts again. */
  lemma StartDuringStop() returns (states: seq<Stt>, acts: seq<Act>)
    ensures IsRun(states, acts) && acts == [Start(0), Opened(0), CallStop, Start(0), Closed(1)]
    ensures var s := states[5];
      && s.inbound.Some? && !s.stopping && s.socket && s.feedTask == Some(0) && s.feeders == [Cancelling]
      && s.stops == [Stop(Some(0), Gathering, 1)] && s.owned == {}
      && s.cos == [Co(Starter, Finished, false), Co(Starter, Opening, false)]
  {
    var s1 := Next(CREATED, Start(0));
    var s2 := Next(s1, Opened(0));
    var s3 := Next(s2, CallStop);
    var s4 := Next(s3, Start(0));
    var s5 := Next(s4, Closed(1));
    states, acts := [CREATED, s1, s2, s3, s4, s5], [Start(0), Opened(0), CallStop, Start(0), Closed(1)];
  }

  /** If the old feeder dies before the new connect completes, the stop returns although a
      feeder is live: the guarantee above needs that no start came in between. */
  lemma StopCanReturnWithLiveFeeder() returns (states: seq<Stt>, acts: seq<Act>)
    ensures IsRun(states, acts)
    ensures var s := states[|acts|];
      |s.stops| == 1 && s.stops[0].phase == Returned && s.feeders == [Done, Running]
  {
    states, acts := StartDuringStop();
    states, acts := Step(states, acts, FeederEnds(0));
    states, acts := Step(states, acts, Opened(1));
    states, acts := Step(states, acts, Gathered(0));
    states, acts := Step(states, acts, SocketClosed(0));
  }

  /** If the new connect completes first, it keeps the feeder that is being cancelled: when
      that one dies the session is started, has no feeder and no work left to make one. */
  lemma StartCanLeaveNoFeeder() returns (states: seq<Stt>, acts: seq<Act>)
    ensures IsRun(states, acts)
    ensures var s := states[|acts|];
      && !s.stopping && s.feeders == [Done] && s.owned == {}
      && forall id :: 0 <= id < |s.cos| ==> s.cos[id].stage == Finished
  {
    states, acts := StartDuringStop();
    states, acts := Step(states, acts, Opened(1));
    states, acts := Step(states, acts, FeederEnds(0));
  }
}
