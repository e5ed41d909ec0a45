/** Who owns the audio feeder of the ElevenLabs session (elevenlabs_stt.py), under every
    interleaving of start, reconnects, feeder deaths and stop.

    Each act is the stretch of one coroutine between two awaits. `cos` lists the coroutines
    that ever ran or were scheduled, `inbound` names the queue of the latest start (the loop
    is known from the first one on), `feeders` every feeder task ever created, `feeds` the
    queue each of them was given, `owned` the
    reconnect handles the session still keeps and `stops` the calls of `stop`. A handle is
    done when its coroutine finished or was asked to cancel. A coroutine asked to cancel
    may end at its await or, if the library swallows the cancel, carry on. */
module SttSession {
  import opened Base

  datatype Feeder = Running | Cancelling | Done

  datatype Kind = Starter | LongTts | ErrorRetry

  datatype Stage = Scheduled | Backoff | Closing | Opening | Finished

  datatype Co = Co(kind: Kind, stage: Stage, cancelled: bool)

  datatype Phase = Gathering | ClosingSocket | Returned

  /** A call of `stop`: the feeder it waits for and how many starts preceded it. */
  datatype Stop = Stop(feeder: Option<nat>, phase: Phase, startsSeen: nat)

  const MAX_ATTEMPTS: nat := 3

  datatype Stt = Stt(
    inbound: Option<nat>,
    stopping: bool,
    reconnecting: bool,
    attempt: nat,
    socket: bool,
    feedTask: Option<nat>,
    feeders: seq<Feeder>,
    feeds: seq<nat>,
    cos: seq<Co>,
    owned: set<nat>,
    stops: seq<Stop>,
    starts: nat,
    errors: nat)

  const CREATED := Stt(None, false, false, 0, false, None, [], [], [], {}, [], 0, 0)

  datatype Act =
    | Start(queue: nat)
    | Schedule(kind: Kind)
    | Run(id: nat)
    | BackoffOver(id: nat)
    | Closed(id: nat)
    | Opened(id: nat)
    | Refused(id: nat)
    | Abort(id: nat)
    | CancelStart(id: nat)
    | FeederEnds(feeder: nat)
    | CallStop
    | Gathered(stop: nat)
    | SocketClosed(stop: nat)

  predicate At(s: Stt, id: nat, stage: Stage) { id < |s.cos| && s.cos[id].stage == stage }

  predicate Enabled(s: Stt, a: Act) {
    match a
    case Start(_) => true
    case Schedule(kind) => kind != Starter
    case Run(id) => At(s, id, Scheduled)
    case BackoffOver(id) => At(s, id, Backoff)
    case Closed(id) => At(s, id, Closing)
    case Opened(id) => At(s, id, Opening)
    case Refused(id) => At(s, id, Opening)
    case Abort(id) => id < |s.cos| && s.cos[id].cancelled && s.cos[id].stage != Finished
    case CancelStart(id) => id < |s.cos| && s.cos[id].kind == Starter
    case FeederEnds(f) => f < |s.feeders| && s.feeders[f] != Done
    case CallStop => true
    case Gathered(k) =>
      k < |s.stops| && s.stops[k].phase == Gathering
      && (s.stops[k].feeder.Some? ==>
          s.stops[k].feeder.value < |s.feeders| && s.feeders[s.stops[k].feeder.value] == Done)
    case SocketClosed(k) => k < |s.stops| && s.stops[k].phase == ClosingSocket
  }

  function SetStage(s: Stt, id: nat, stage: Stage): Stt
    requires id < |s.cos|
  {
    s.(cos := s.cos[id := s.cos[id].(stage := stage)])
  }

  /** `_connect` up to its first await. */
  function BeginConnect(s: Stt, id: nat): Stt
    requires id < |s.cos|
  {
    SetStage(s, id, if s.socket then Closing else Opening).(reconnecting := true)
  }

  /** The end of a coroutine; its handle is dropped. */
  function Finish(s: Stt, id: nat): Stt
    requires id < |s.cos|
  {
    SetStage(s, id, Finished).(owned := s.owned - {id})
  }

  predicate NeedsFeeder(s: Stt) {
    s.feedTask.None? || (s.feedTask.value < |s.feeders| && s.feeders[s.feedTask.value] == Done)
  }

  /** `_ensure_feed_task`. */
  function EnsureFeeder(s: Stt): Stt {
    if !s.stopping && s.inbound.Some? && NeedsFeeder(s)
    then s.(feedTask := Some(|s.feeders|), feeders := s.feeders + [Running], feeds := s.feeds + [s.inbound.value])
    else s
  }

  function CancelOwned(cos: seq<Co>, owned: set<nat>): (r: seq<Co>)
    ensures |r| == |cos|
    ensures forall i :: 0 <= i < |cos| ==> r[i] == if i in owned then cos[i].(cancelled := true) else cos[i]
  {
    seq(|cos|, i requires 0 <= i < |cos| => if i in owned then cos[i].(cancelled := true) else cos[i])
  }

  function CancelFeeder(s: Stt): seq<Feeder> {
    if s.feedTask.Some? && s.feedTask.value < |s.feeders| && s.feeders[s.feedTask.value] == Running
    then s.feeders[s.feedTask.value := Cancelling]
    else s.feeders
  }

  function Next(s: Stt, a: Act): Stt
    requires Enabled(s, a)
  {
    match a
    case Start(queue) =>
      BeginConnect(s.(inbound := Some(queue), stopping := false, starts := s.starts + 1,
                      cos := s.cos + [Co(Starter, Scheduled, false)]), |s.cos|)
    case Schedule(kind) =>
      if s.stopping || s.inbound.None? then s
      else s.(cos := s.cos + [Co(kind, Scheduled, false)], owned := s.owned + {|s.cos|})
    case Run(id) =>
      if s.cos[id].kind != ErrorRetry then BeginConnect(s, id)
      else if s.attempt >= MAX_ATTEMPTS then Finish(s, id).(errors := s.errors + 1)
      else SetStage(s, id, Backoff)
    case BackoffOver(id) => BeginConnect(s, id)
    case Closed(id) => SetStage(s, id, Opening)
    case Opened(id) =>
      Finish(EnsureFeeder(s.(socket := true, reconnecting := false)), id)
        .(attempt := if s.cos[id].kind == ErrorRetry then 0 else s.attempt)
    case Refused(id) =>
      Finish(s.(reconnecting := false), id)
        .(attempt := if s.cos[id].kind == ErrorRetry then s.attempt + 1 else s.attempt)
    case Abort(id) =>
      Finish(if Swapping(s, id) then s.(reconnecting := false) else s, id)
    case CancelStart(id) => s.(cos := s.cos[id := s.cos[id].(cancelled := true)])
    case FeederEnds(f) => s.(feeders := s.feeders[f := Done])
    case CallStop =>
      s.(stopping := true, cos := CancelOwned(s.cos, s.owned), owned := {}, feeders := CancelFeeder(s),
         stops := s.stops + [Stop(s.feedTask, Gathering, s.starts)])
    case Gathered(k) =>
      s.(stops := s.stops[k := s.stops[k].(phase := if s.socket then ClosingSocket else Returned)])
    case SocketClosed(k) => s.(stops := s.stops[k := s.stops[k].(phase := Returned)])
  }

  // ---- invariants

  /** Every feeder but the current one is done. */
  ghost predicate OneFeeder(s: Stt) {
    && (s.feedTask.Some? ==> s.feedTask.value < |s.feeders|)
    && forall f :: 0 <= f < |s.feeders| && s.feeders[f] != Done ==> s.feedTask == Some(f)
  }

  /** A feeder is being cancelled only for a stop that still waits for it. */
  ghost predicate CancelledByStop(s: Stt) {
    forall f :: 0 <= f < |s.feeders| && s.feeders[f] == Cancelling ==>
      exists k :: 0 <= k < |s.stops| && s.stops[k].phase == Gathering && s.stops[k].feeder == Some(f)
  }

  ghost predicate Keeps(s: Stt, id: int) {
    0 <= id < |s.cos| && s.cos[id].kind != Starter && s.cos[id].stage != Finished && !s.cos[id].cancelled
  }

  /** Kept handles are exactly those of scheduled work that neither ended nor was cancelled. */
  ghost predicate HandlesKept(s: Stt) {
    forall id :: id in s.owned <==> Keeps(s, id)
  }

  /** Since a stop after which nobody started: no handle, no new feeder, and past its
      gathering the feeder is done. */
  ghost predicate StopHolds(s: Stt, k: int)
    requires 0 <= k < |s.stops|
  {
    && s.stops[k].startsSeen <= s.starts
    && (s.stops[k].startsSeen == s.starts ==>
        && s.stopping && s.owned == {} && s.feedTask == s.stops[k].feeder
        && (s.stops[k].phase != Gathering && s.feedTask.Some? && s.feedTask.value < |s.feeders| ==>
            s.feeders[s.feedTask.value] == Done))
  }

  predicate Swapping(s: Stt, id: int) {
    0 <= id < |s.cos| && (s.cos[id].stage == Closing || s.cos[id].stage == Opening)
  }

  /** The swap flag is up only while some socket swap is under way. */
  ghost predicate FlagMeansSwap(s: Stt) { s.reconnecting ==> exists id :: Swapping(s, id) }

  ghost predicate Inv(s: Stt) {
    && OneFeeder(s) && CancelledByStop(s) && HandlesKept(s) && FlagMeansSwap(s)
    && (forall k :: 0 <= k < |s.stops| ==> StopHolds(s, k))
    && (forall k :: 0 <= k < |s.stops| && s.stops[k].feeder.Some? ==> s.stops[k].feeder.value < |s.feeders|)
    && (s.cos != [] ==> s.inbound.Some?) && |s.feeds| == |s.feeders|
  }

  lemma FeedersKept(s: Stt, a: Act)
    requires Inv(s) && Enabled(s, a)
    ensures OneFeeder(Next(s, a))
  {}

  lemma CancelledKept(s: Stt, a: Act)
    requires Inv(s) && Enabled(s, a)
    ensures CancelledByStop(Next(s, a))
  {
    var u := Next(s, a);
    forall f | 0 <= f < |u.feeders| && u.feeders[f] == Cancelling
      ensures exists k :: 0 <= k < |u.stops| && u.stops[k].phase == Gathering && u.stops[k].feeder == Some(f)
    {
      if a.CallStop? && s.feedTask == Some(f) {
        assert u.stops[|s.stops|] == Stop(s.feedTask, Gathering, s.starts);
      } else {
        var k :| 0 <= k < |s.stops| && s.stops[k].phase == Gathering && s.stops[k].feeder == Some(f);
        assert u.stops[k] == s.stops[k];
      }
    }
  }

  /** A coroutine moved its own stage and dropped its handle if that was its end. */
  ghost predicate MovesOnly(s: Stt, u: Stt, id: nat) {
    && id < |s.cos| == |u.cos| && u.cos == s.cos[id := u.cos[id]] && s.cos[id].stage != Finished
    && u.cos[id].kind == s.cos[id].kind && u.cos[id].cancelled == s.cos[id].cancelled
    && u.owned == if u.cos[id].stage == Finished then s.owned - {id} else s.owned
  }

  lemma WaitsOver(s: Stt, a: Act)
    requires Enabled(s, a) && (a.Run? || a.BackoffOver? || a.Closed?)
    ensures MovesOnly(s, Next(s, a), a.id)
  {}

  lemma AttemptOver(s: Stt, a: Act)
    requires Enabled(s, a) && (a.Opened? || a.Refused? || a.Abort?)
    ensures MovesOnly(s, Next(s, a), a.id)
  {}

  lemma StageKeepsHandles(s: Stt, u: Stt, id: nat)
    requires HandlesKept(s) && MovesOnly(s, u, id)
    ensures HandlesKept(u)
  {
    assert forall j :: j != id ==> (Keeps(u, j) <==> Keeps(s, j));
  }

  lemma StopKeepsHandles(s: Stt)
    requires HandlesKept(s)
    ensures HandlesKept(Next(s, CallStop))
  {
    var u := Next(s, CallStop);
    assert forall j :: 0 <= j < |s.cos| ==> (j in s.owned <==> Keeps(s, j));
  }

  lemma ArrivalKeepsHandles(s: Stt, a: Act)
    requires HandlesKept(s) && Enabled(s, a) && (a.Start? || a.Schedule? || a.CancelStart?)
    ensures HandlesKept(Next(s, a))
  {
    var u := Next(s, a);
    assert forall j :: 0 <= j < |s.cos| ==> (Keeps(u, j) <==> Keeps(s, j));
  }

  lemma HandlesKeptBy(s: Stt, a: Act)
    requires Inv(s) && Enabled(s, a)
    ensures HandlesKept(Next(s, a))
  {
    var u := Next(s, a);
    if a.CallStop? {
      StopKeepsHandles(s);
    } else if a.Start? || a.Schedule? || a.CancelStart? {
      ArrivalKeepsHandles(s, a);
    } else if a.Run? || a.BackoffOver? || a.Closed? {
      WaitsOver(s, a);
      StageKeepsHandles(s, u, a.id);
    } else if a.Opened? || a.Refused? || a.Abort? {
      AttemptOver(s, a);
      StageKeepsHandles(s, u, a.id);
    }
  }

  lemma StopsKept(s: Stt, a: Act)
    requires Inv(s) && Enabled(s, a)
    ensures var u := Next(s, a); forall k :: 0 <= k < |u.stops| ==>
      StopHolds(u, k) && (u.stops[k].feeder.Some? ==> u.stops[k].feeder.value < |u.feeders|)
  {
    var u := Next(s, a);
    forall k | 0 <= k < |u.stops|
      ensures StopHolds(u, k) && (u.stops[k].feeder.Some? ==> u.stops[k].feeder.value < |u.feeders|)
    {
      if k < |s.stops| { assert StopHolds(s, k); }
    }
  }

  lemma SwapsKept(s: Stt, a: Act)
    requires Inv(s) && Enabled(s, a)
    ensures var u := Next(s, a);
      FlagMeansSwap(u) && (u.cos != [] ==> u.inbound.Some?) && |u.feeds| == |u.feeders|
  {
    var u := Next(s, a);
    match a
    case Start(_) => assert Swapping(u, |s.cos|);
    case Run(id) => if u.reconnecting && !s.reconnecting { assert Swapping(u, id); } else { SwapStays(s, u, a); }
    case BackoffOver(id) => assert Swapping(u, id);
    case Closed(id) => assert Swapping(u, id);
    case _ => SwapStays(s, u, a);
  }

  lemma SwapStays(s: Stt, u: Stt, a: Act)
    requires Inv(s) && Enabled(s, a) && u == Next(s, a)
    requires u.reconnecting ==> s.reconnecting
    requires !a.Start? && !a.BackoffOver? && !a.Closed?
    ensures FlagMeansSwap(u)
  {
    if u.reconnecting {
      var id :| Swapping(s, id);
      assert Swapping(u, id);
    }
  }

  lemma InvKept(s: Stt, a: Act)
    requires Inv(s) && Enabled(s, a)
    ensures Inv(Next(s, a))
  {
    FeedersKept(s, a);
    CancelledKept(s, a);
    HandlesKeptBy(s, a);
    StopsKept(s, a);
    SwapsKept(s, a);
  }

  /** The current feeder is live. */
  ghost predicate HasFeeder(s: Stt) {
    s.feedTask.Some? && s.feedTask.value < |s.feeders| && s.feeders[s.feedTask.value] != Done
  }

  // ---- what every run promises

  /** Act a leads from s to t. */
  ghost predicate Steps(s: Stt, a: Act, t: Stt) { Enabled(s, a) && t == Next(s, a) }

  ghost predicate IsRun(states: seq<Stt>, acts: seq<Act>) {
    && |states| == |acts| + 1
    && states[0] == CREATED
    && forall i {:trigger acts[i]} :: 0 <= i < |acts| ==> Steps(states[i], acts[i], states[i + 1])
  }

  lemma {:induction false} RunInv(states: seq<Stt>, acts: seq<Act>, i: nat)
    requires IsRun(states, acts) && i <= |acts|
    ensures Inv(states[i])
  {
    if i > 0 {
      var a := acts[i - 1];
      RunInv(states, acts, i - 1);
      InvKept(states[i - 1], a);
    }
  }

  /** At most one feeder is ever live. */
  lemma AtMostOneFeeder(s: Stt, f: nat, g: nat)
    requires Inv(s) && f < |s.feeders| && g < |s.feeders| && s.feeders[f] != Done && s.feeders[g] != Done
    ensures f == g
  {}

  /** A connect that completes while not stopping leaves a live feeder. That feeder is
      safe from cancellation if and only if the one it found was not being cancelled,
      which is so whenever no stop is still gathering. */
  lemma ConnectLeavesFeeder(s: Stt, id: nat)
    requires Inv(s) && Enabled(s, Opened(id)) && !s.stopping
    ensures var u := Next(s, Opened(id));
      && u.feedTask.Some? && u.feedTask.value < |u.feeders| && u.feeders[u.feedTask.value] != Done
      && (u.feeders[u.feedTask.value] == Running <==> forall f :: 0 <= f < |s.feeders| ==> s.feeders[f] != Cancelling)
    ensures (forall k :: 0 <= k < |s.stops| ==> s.stops[k].phase != Gathering) ==>
      var u := Next(s, Opened(id)); u.feeders[u.feedTask.value] == Running
  {}

  /** When a stop returns and nobody started since it began, every feeder is done, no
      handle is kept, and all scheduled work has ended or was told to. */
  lemma StoppedMeansStopped(s: Stt, k: nat)
    requires Inv(s) && k < |s.stops| && s.stops[k].phase == Returned && s.stops[k].startsSeen == s.starts
    ensures forall f :: 0 <= f < |s.feeders| ==> s.feeders[f] == Done
    ensures s.owned == {}
    ensures forall id :: 0 <= id < |s.cos| && s.cos[id].kind != Starter ==>
              s.cos[id].stage == Finished || s.cos[id].cancelled
  {
    assert StopHolds(s, k);
    forall id | 0 <= id < |s.cos| && s.cos[id].kind != Starter
      ensures s.cos[id].stage == Finished || s.cos[id].cancelled
    {
      assert id !in s.owned;
    }
  }

  lemma NoFeederInStep(s: Stt, a: Act, t: Stt, k: nat)
    requires Inv(s) && Steps(s, a, t) && !a.Start?
    requires k < |s.stops| && s.stops[k].phase == Returned && s.stops[k].startsSeen == s.starts
    ensures k < |t.stops| && t.stops[k] == s.stops[k] && t.starts == s.starts && |t.feeders| == |s.feeders|
  {
    assert StopHolds(s, k);
  }

  /** Nothing but a start changes that: no late reconnect makes a feeder. */
  lemma {:induction false} NoLateFeeder(states: seq<Stt>, acts: seq<Act>, i: nat, j: nat, k: nat)
    requires IsRun(states, acts) && i <= j <= |acts|
    requires k < |states[i].stops| && states[i].stops[k].phase == Returned
    requires states[i].stops[k].startsSeen == states[i].starts
    requires forall n :: i <= n < j ==> !acts[n].Start?
    ensures k < |states[j].stops| && states[j].stops[k] == states[i].stops[k] && states[j].starts == states[i].starts
    ensures |states[j].feeders| == |states[i].feeders|
    ensures forall f :: 0 <= f < |states[j].feeders| ==> states[j].feeders[f] == Done
  {
    RunInv(states, acts, j);
    if i < j {
      NoLateFeeder(states, acts, i, j - 1, k);
      RunInv(states, acts, j - 1);
      NoFeederInStep(states[j - 1], acts[j - 1], states[j], k);
    }
    StoppedMeansStopped(states[j], k);
  }

  lemma Step(states: seq<Stt>, acts: seq<Act>, a: Act) returns (states': seq<Stt>, acts': seq<Act>)
    requires IsRun(states, acts) && Enabled(states[|acts|], a)
    ensures IsRun(states', acts') && acts' == acts + [a] && states' == states + [Next(states[|acts|], a)]
  {
    states', acts' := states + [Next(states[|acts|], a)], acts + [a];
    forall i | 0 <= i < |acts'| ensures Steps(states'[i], acts'[i], states'[i + 1]) {
      var b := acts'[i];
      if i < |acts| { assert b == acts[i]; }
    }
  }
}
