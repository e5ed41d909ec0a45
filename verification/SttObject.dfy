/** `PersistentSttSession` as an object: its coroutines update the fields in place, and
    everything they and the rest of the program do is proved to be a run of the session
    machine.

    What others do during each await, and how the await ends, is read from `script`; it is
    arbitrary, so the methods cover every interleaving. When the script is used up the
    coroutine stays suspended. */
module SttObject {
  import opened Base
  import F = Feeder
  import opened SttClose
  import opened SttSession

  datatype Ending = Succeeds | Raises | IsCancelled | NeverEnds

  datatype Round = Round(others: seq<Act>, ending: Ending)

  /** Who awaits: a coroutine, or a call of `stop`. */
  datatype Self = Coroutine(id: nat) | Stopper(stop: nat)

  /** An act that only the awaiting party itself takes. */
  predicate IsOwn(a: Act, self: Self) {
    match self
    case Coroutine(id) =>
      && (a.Run? || a.BackoffOver? || a.Closed? || a.Opened? || a.Refused? || a.Abort?)
      && a.id == id
    case Stopper(k) => (a.Gathered? || a.SocketClosed?) && a.stop == k
  }

  ghost predicate Exists(s: Stt, self: Self) {
    match self
    case Coroutine(id) => id < |s.cos|
    case Stopper(k) => k < |s.stops|
  }

  /** What others leave alone; they can only ask a coroutine to cancel. */
  ghost predicate Unmoved(s: Stt, t: Stt, self: Self)
    requires Exists(s, self)
  {
    && s.starts <= t.starts
    && match self
       case Coroutine(id) =>
         id < |t.cos| && t.cos[id].stage == s.cos[id].stage && t.cos[id].kind == s.cos[id].kind
       case Stopper(k) => k < |t.stops| && t.stops[k] == s.stops[k]
  }

  lemma OthersLeaveAlone(s: Stt, a: Act, self: Self)
    requires Enabled(s, a) && Exists(s, self) && !IsOwn(a, self)
    ensures Unmoved(s, Next(s, a), self)
  {
    if self.Stopper? { StopsLeftAlone(s, a, self.stop); }
  }

  lemma StopsLeftAlone(s: Stt, a: Act, k: nat)
    requires Enabled(s, a) && k < |s.stops| && !((a.Gathered? || a.SocketClosed?) && a.stop == k)
    ensures k < |Next(s, a).stops| && Next(s, a).stops[k] == s.stops[k]
  {
    if !a.CallStop? && !a.Gathered? && !a.SocketClosed? { assert Next(s, a).stops == s.stops; }
  }

  type Queue = seq<Option<seq<byte>>>

  /** An error retry that has attempts left drops stale frames before its backoff. */
  predicate DrainsFirst(s: Stt, id: nat) {
    id < |s.cos| && s.cos[id].kind == ErrorRetry && s.attempt < MAX_ATTEMPTS && s.inbound.Some?
  }

  /** An error retry whose attempts are used up. */
  predicate UsedUp(s: Stt, id: nat) { id < |s.cos| && s.cos[id].kind == ErrorRetry && s.attempt >= MAX_ATTEMPTS }

  /** What an act leaves in the queues: a start empties its own. */
  ghost function Left(s: Stt, queues: seq<Queue>, a: Act): seq<Queue> {
    match a
    case Start(q) => if q < |queues| then queues[q := []] else queues
    case Run(id) =>
      if DrainsFirst(s, id) && s.inbound.value < |queues|
      then queues[s.inbound.value := F.Drained(queues[s.inbound.value])]
      else queues
    case _ => queues
  }

  /** No queue has more in it than before. */
  ghost predicate NoneAdded(before: seq<Queue>, after: seq<Queue>) {
    |after| == |before| && forall q :: 0 <= q < |before| ==> |after[q]| <= |before[q]|
  }

  lemma {:induction false} DrainedAddsNone(queue: Queue)
    ensures |F.Drained(queue)| <= |queue|
  {
    if queue != [] { DrainedAddsNone(queue[1..]); }
  }

  lemma LeftAddsNone(s: Stt, queues: seq<Queue>, a: Act)
    ensures NoneAdded(queues, Left(s, queues, a))
  {
    if a.Run? && DrainsFirst(s, a.id) && s.inbound.value < |queues| { DrainedAddsNone(queues[s.inbound.value]); }
  }

  /** If s drains the queue and no sentinel lies in it, nothing that lay in it is left. */
  ghost predicate StaleGone(s: Stt, id: nat, before: seq<Queue>, after: seq<Queue>) {
    DrainsFirst(s, id) && s.inbound.value < |before| && None !in before[s.inbound.value] ==>
      s.inbound.value < |after| && after[s.inbound.value] == []
  }

  class PersistentSttSession {
    var inbound: Option<nat>
    var stopping: bool
    var reconnecting: bool
    var attempt: nat
    var socket: bool
    var feedTask: Option<nat>
    var feeders: seq<Feeder>
    var feeds: seq<nat>
    var cos: seq<Co>
    var owned: set<nat>
    var stops: seq<Stop>
    var starts: nat
    var errors: nat
    var script: seq<Round>
    /** What lies in each queue of audio; the machine does not look into them. */
    var queues: seq<Queue>
    ghost var states: seq<Stt>
    ghost var acts: seq<Act>

    function Value(): Stt
      reads this
    {
      Stt(inbound, stopping, reconnecting, attempt, socket, feedTask, feeders, feeds, cos, owned, stops, starts, errors)
    }

    /** Everything that happened so far is a run of the machine up to the current state. */
    ghost predicate Valid()
      reads this
    {
      IsRun(states, acts) && states[|acts|] == Value()
    }

    constructor (script: seq<Round>)
      ensures Valid() && Value() == CREATED && acts == [] && this.script == script
    {
      this.script, queues := script, [];
      states, acts := [CREATED], [];
      inbound, stopping, reconnecting, attempt, socket := None, false, false, 0, false;
      feedTask, feeders, feeds, cos, owned, stops, starts, errors := None, [], [], [], {}, [], 0, 0;
    }

    /** Records the act that led to the current state. */
    ghost method Record(a: Act)
      requires IsRun(states, acts) && Enabled(states[|acts|], a) && Value() == Next(states[|acts|], a)
      modifies `states, `acts
      ensures Valid() && acts == old(acts) + [a]
    {
      states, acts := Step(states, acts, a);
    }

    /** The invariants of the machine hold of the object at any time. */
    lemma Sound()
      requires Valid()
      ensures Inv(Value())
    {
      RunInv(states, acts, |acts|);
    }

    // ---- stretches between awaits

    /** `_schedule_owned`: refused while stopping, otherwise the handle is kept. */
    method ScheduleOwned(kind: Kind)
      requires kind != Starter
      modifies `owned, `cos
      ensures Value() == Next(old(Value()), Schedule(kind))
    {
      if stopping || inbound.None? { return; }
      owned := owned + {|cos|};
      cos := cos + [Co(kind, Scheduled, false)];
    }

    /** `start` until the connect it calls first awaits. */
    method StartSession(queue: nat)
      modifies `inbound, `stopping, `starts, `cos, `reconnecting, `queues
      ensures Value() == Next(old(Value()), Start(queue))
      ensures queues == Left(old(Value()), old(queues), Start(queue))
    {
      inbound := Some(queue);
      stopping := false;
      EmptyQueue(queue);
      starts := starts + 1;
      cos := cos + [Co(Starter, Scheduled, false)];
      ConnectBegins(|cos| - 1);
    }

    /** `_connect` until its first await: the flag goes up, an old socket is closed first. */
    method ConnectBegins(id: nat)
      requires id < |cos|
      modifies `reconnecting, `cos
      ensures Value() == BeginConnect(old(Value()), id)
    {
      reconnecting := true;
      cos := cos[id := cos[id].(stage := if socket then Closing else Opening)];
    }

    method CoroutineEnds(id: nat)
      requires id < |cos|
      modifies `cos, `owned
      ensures Value() == Finish(old(Value()), id)
    {
      cos := cos[id := cos[id].(stage := Finished)];
      owned := owned - {id};
    }

    /** `_ensure_feed_task`. */
    method EnsureFeedTask()
      modifies `feedTask, `feeders, `feeds
      ensures Value() == EnsureFeeder(old(Value()))
    {
      if stopping { return; }
      if inbound.Some? && (feedTask.None? || (feedTask.value < |feeders| && feeders[feedTask.value] == Done)) {
        feedTask := Some(|feeders|);
        feeders := feeders + [Running];
        feeds := feeds + [inbound.value];
      }
    }

    /** The connect of coroutine `id` succeeded. */
    method ConnectSucceeds(id: nat)
      requires Enabled(Value(), Opened(id))
      modifies `socket, `reconnecting, `feedTask, `feeders, `feeds, `attempt, `cos, `owned
      ensures Value() == Next(old(Value()), Opened(id))
    {
      socket := true;
      reconnecting := false;
      EnsureFeedTask();
      if cos[id].kind == ErrorRetry { attempt := 0; }
      CoroutineEnds(id);
    }

    /** It failed. */
    method ConnectFails(id: nat)
      requires Enabled(Value(), Refused(id))
      modifies `reconnecting, `attempt, `cos, `owned
      ensures Value() == Next(old(Value()), Refused(id))
    {
      reconnecting := false;
      if cos[id].kind == ErrorRetry { attempt := attempt + 1; }
      CoroutineEnds(id);
    }

    /** A scheduled coroutine runs for the first time. */
    method Begin(id: nat)
      requires Enabled(Value(), Run(id))
      modifies `reconnecting, `errors, `cos, `owned, `queues
      ensures Value() == Next(old(Value()), Run(id))
      ensures queues == Left(old(Value()), old(queues), Run(id))
    {
      if cos[id].kind != ErrorRetry {
        ConnectBegins(id);
      } else if attempt >= MAX_ATTEMPTS {
        errors := errors + 1;
        CoroutineEnds(id);
      } else {
        DrainStaleFrames();
        cos := cos[id := cos[id].(stage := Backoff)];
      }
    }

    method DrainStaleFrames()
      modifies `queues
      ensures queues == if inbound.Some? && inbound.value < |old(queues)|
                        then old(queues)[inbound.value := F.Drained(old(queues)[inbound.value])] else old(queues)
    {
      if inbound.Some? && inbound.value < |queues| {
        var left, _ := F.DrainStale(queues[inbound.value]);
        queues := queues[inbound.value := left];
      }
    }

    method EmptyQueue(queue: nat)
      modifies `queues
      ensures queues == if queue < |old(queues)| then old(queues)[queue := []] else old(queues)
    {
      if queue < |queues| {
        while queues[queue] != []
          invariant |queues| == |old(queues)| && queues == old(queues)[queue := queues[queue]]
          decreases |queues[queue]|
        {
          queues := queues[queue := queues[queue][1..]];
        }
      }
    }

    /** A cancelled coroutine ends at its await. */
    method Aborts(id: nat)
      requires Enabled(Value(), Abort(id))
      modifies `reconnecting, `cos, `owned
      ensures Value() == Next(old(Value()), Abort(id))
    {
      if cos[id].stage == Closing || cos[id].stage == Opening { reconnecting := false; }
      CoroutineEnds(id);
    }

    /** `stop` until it awaits: every kept handle and the feeder are cancelled. */
    method StopSession()
      modifies `stopping, `cos, `owned, `feeders, `stops
      ensures Value() == Next(old(Value()), CallStop)
    {
      stopping := true;
      CancelHandles();
      CancelFeeder();
      stops := stops + [Stop(feedTask, Gathering, starts)];
    }

    method CancelFeeder()
      modifies `feeders
      ensures feeders == SttSession.CancelFeeder(old(Value()))
    {
      if feedTask.Some? && feedTask.value < |feeders| && feeders[feedTask.value] == Running {
        feeders := feeders[feedTask.value := Cancelling];
      }
    }

    method CancelHandles()
      modifies `cos, `owned
      ensures cos == CancelOwned(old(cos), old(owned)) && owned == {}
    {
      ghost var cancelled: set<nat> := {};
      assert cos == CancelOwned(old(cos), {});
      while owned != {}
        invariant |cos| == |old(cos)| && cancelled + owned == old(owned)
        invariant cos == CancelOwned(old(cos), cancelled)
        decreases |owned|
      {
        var id :| id in owned;
        if id < |cos| { cos := cos[id := cos[id].(cancelled := true)]; }
        owned := owned - {id};
        assert cos == CancelOwned(old(cos), cancelled + {id});
        cancelled := cancelled + {id};
      }
      assert cancelled == old(owned);
    }

    /** Everything `stop` waited for is done. */
    method GatherDone(k: nat)
      requires Enabled(Value(), Gathered(k))
      modifies `stops
      ensures Value() == Next(old(Value()), Gathered(k))
    {
      stops := stops[k := stops[k].(phase := if socket then ClosingSocket else Returned)];
    }

    method SetStageOf(id: nat, stage: Stage)
      requires id < |cos|
      modifies `cos
      ensures Value() == SetStage(old(Value()), id, stage)
    {
      cos := cos[id := cos[id].(stage := stage)];
    }

    // ---- the rest of the program

    method ReturnFrom(k: nat)
      requires k < |stops|
      modifies `stops
      ensures Value() == old(Value()).(stops := old(stops)[k := old(stops)[k].(phase := Returned)])
    {
      stops := stops[k := stops[k].(phase := Returned)];
    }

    /** An act of coroutine `a.id`, or the request that it cancel. */
    method Proceed(a: Act)
      requires Enabled(Value(), a)
      requires a.Run? || a.BackoffOver? || a.Closed? || a.Opened? || a.Refused? || a.Abort? || a.CancelStart?
      modifies this
      ensures Value() == Next(old(Value()), a)
      ensures states == old(states) && acts == old(acts) && script == old(script)
      ensures queues == Left(old(Value()), old(queues), a)
    {
      match a {
        case Run(id) => Begin(id);
        case BackoffOver(id) => ConnectBegins(id);
        case Closed(id) => SetStageOf(id, Opening);
        case Opened(id) => ConnectSucceeds(id);
        case Refused(id) => ConnectFails(id);
        case Abort(id) => Aborts(id);
        case CancelStart(id) => cos := cos[id := cos[id].(cancelled := true)];
      }
    }

    /** Any act, taken by whoever takes it. */
    method Apply(a: Act)
      requires Enabled(Value(), a)
      modifies this
      ensures Value() == Next(old(Value()), a)
      ensures states == old(states) && acts == old(acts) && script == old(script)
      ensures queues == Left(old(Value()), old(queues), a)
    {
      match a {
        case Start(queue) => StartSession(queue);
        case Schedule(kind) => ScheduleOwned(kind);
        case FeederEnds(f) => feeders := feeders[f := Done];
        case CallStop => StopSession();
        case Gathered(k) => GatherDone(k);
        case SocketClosed(k) => ReturnFrom(k);
        case _ => Proceed(a);
      }
    }

    method Do(a: Act)
      requires Valid() && Enabled(Value(), a)
      modifies this
      ensures Valid() && Value() == Next(old(Value()), a) && acts == old(acts) + [a] && script == old(script)
      ensures queues == Left(old(Value()), old(queues), a)
    {
      Apply(a);
      Record(a);
    }

    /** Suspends the awaiting party for one round of the script. */
    method Await(self: Self) returns (ending: Ending)
      requires Valid() && Exists(Value(), self)
      modifies this
      ensures Valid() && Unmoved(old(Value()), Value(), self) && NoneAdded(old(queues), queues)
      ensures old(script) == [] ==> script == [] && ending.NeverEnds?
      ensures old(script) != [] ==> script == old(script)[1..] && ending == old(script)[0].ending
    {
      if script == [] { return NeverEnds; }
      var round := script[0];
      script := script[1..];
      ending := round.ending;
      ghost var rest, before, full := script, Value(), queues;
      for i := 0 to |round.others|
        invariant Valid() && script == rest && Unmoved(before, Value(), self) && NoneAdded(full, queues)
      {
        var a := round.others[i];
        if Enabled(Value(), a) && !IsOwn(a, self) {
          OthersLeaveAlone(Value(), a, self);
          LeftAddsNone(Value(), queues, a);
          Do(a);
        }
      }
    }

    // ---- whole coroutines

    static ghost predicate AllSucceed(script: seq<Round>, n: nat) {
      n <= |script| && forall i :: 0 <= i < n ==> script[i].ending.Succeeds?
    }

    /** An await that does not return: the coroutine ends if it was asked to cancel. */
    method EndsSuspended(id: nat, ending: Ending)
      requires Valid() && id < |cos| && cos[id].stage != Finished
      modifies this
      ensures Valid() && NoneAdded(old(queues), queues)
      ensures if ending.IsCancelled? && old(cos[id].cancelled) then Value() == Next(old(Value()), Abort(id))
              else Value() == old(Value())
      ensures old(At(Value(), id, Closing) || At(Value(), id, Opening)) && At(Value(), id, Finished) ==> !reconnecting
    {
      if ending.IsCancelled? && cos[id].cancelled { Do(Abort(id)); }
    }

    /** `_connect` from its first await on. If it succeeds, the flag is down, there is a
        socket and, unless the session is stopping, a live feeder. */
    method Connect(id: nat) returns (connected: bool)
      requires Valid() && (At(Value(), id, Closing) || At(Value(), id, Opening))
      modifies this
      ensures Valid() && NoneAdded(old(queues), queues)
      ensures connected ==> At(Value(), id, Finished) && socket
      ensures connected && !stopping ==> HasFeeder(Value())
      ensures At(Value(), id, Finished) ==> !reconnecting
      ensures AllSucceed(old(script), if old(At(Value(), id, Closing)) then 2 else 1) ==> connected
    {
      connected := false;
      if cos[id].stage == Closing {
        var ending := Await(Coroutine(id));
        if !ending.Succeeds? && !ending.Raises? {
          EndsSuspended(id, ending);
          return;
        }
        Do(Closed(id));
      }
      connected := OpenSocket(id);
    }

    method OpenSocket(id: nat) returns (connected: bool)
      requires Valid() && At(Value(), id, Opening)
      modifies this
      ensures Valid() && NoneAdded(old(queues), queues)
      ensures connected ==> At(Value(), id, Finished) && socket
      ensures connected && !stopping ==> HasFeeder(Value())
      ensures At(Value(), id, Finished) ==> !reconnecting
      ensures AllSucceed(old(script), 1) ==> connected
      ensures old(script) != [] && old(script)[0].ending.Raises? ==> !connected && At(Value(), id, Finished)
    {
      connected := false;
      var ending := Await(Coroutine(id));
      if ending.Succeeds? {
        Sound();
        if !stopping { ConnectLeavesFeeder(Value(), id); }
        Do(Opened(id));
        connected := true;
      } else if ending.Raises? {
        Do(Refused(id));
      } else {
        EndsSuspended(id, ending);
      }
    }

    /** `start`. */
    method StartCall(queue: nat) returns (connected: bool)
      requires Valid()
      modifies this
      ensures Valid()
      ensures connected ==> !reconnecting && socket
      ensures connected && !stopping ==> HasFeeder(Value())
      ensures AllSucceed(old(script), 2) ==> connected
      ensures queue < |queues| ==> queues[queue] == []
    {
      Do(Start(queue));
      connected := Connect(|cos| - 1);
    }

    /** The beginning of a scheduled reconnect, up to its first await. */
    method BeginReconnect(id: nat)
      requires Valid() && At(Value(), id, Scheduled)
      modifies this
      ensures Valid() && script == old(script) && NoneAdded(old(queues), queues)
      ensures StaleGone(old(Value()), id, old(queues), queues)
      ensures id < |cos| && cos[id].kind == old(cos[id].kind)
      ensures if UsedUp(old(Value()), id) then cos[id].stage == Finished && errors == old(errors) + 1
              else if cos[id].kind == ErrorRetry then cos[id].stage == Backoff
              else cos[id].stage == Closing || cos[id].stage == Opening
    {
      LeftAddsNone(Value(), queues, Run(id));
      if DrainsFirst(Value(), id) && inbound.value < |queues| { F.DrainKeepsSentinel(queues[inbound.value]); }
      Do(Run(id));
    }

    /** The backoff of an error retry and the connect behind it. */
    method BackOff(id: nat) returns (connected: bool)
      requires Valid() && At(Value(), id, Backoff)
      modifies this
      ensures Valid() && NoneAdded(old(queues), queues)
      ensures connected ==> At(Value(), id, Finished) && !reconnecting && socket
      ensures connected && !stopping ==> HasFeeder(Value())
      ensures AllSucceed(old(script), 3) ==> connected
    {
      connected := false;
      var ending := Await(Coroutine(id));
      if !ending.Succeeds? {
        EndsSuspended(id, ending);
      } else {
        Do(BackoffOver(id));
        connected := Connect(id);
      }
    }

    /** A reconnect that was scheduled: after long speech at once, after an error with a
        backoff; with the attempts used up it only reports that. */
    method Reconnect(id: nat) returns (connected: bool)
      requires Valid() && At(Value(), id, Scheduled)
      modifies this
      ensures Valid() && NoneAdded(old(queues), queues) && StaleGone(old(Value()), id, old(queues), queues)
      ensures connected ==> At(Value(), id, Finished) && !reconnecting && socket
      ensures connected && !stopping ==> HasFeeder(Value())
      ensures UsedUp(old(Value()), id) ==> !connected && errors == old(errors) + 1 && At(Value(), id, Finished)
      ensures !UsedUp(old(Value()), id) && AllSucceed(old(script), 3) ==> connected
    {
      connected := false;
      BeginReconnect(id);
      if cos[id].stage == Backoff {
        connected := BackOff(id);
      } else if cos[id].stage != Finished {
        connected := Connect(id);
      }
    }

    /** `stop`. Once it returns and nobody has started the session since the call, every
        feeder is done, no handle is kept, and all scheduled work has ended or was told to. */
    method StopCall() returns (returned: bool)
      requires Valid()
      modifies this
      ensures Valid()
      ensures returned && starts == old(starts) ==>
        && owned == {} && (forall f :: 0 <= f < |feeders| ==> feeders[f] == Done)
        && forall id :: 0 <= id < |cos| && cos[id].kind != Starter ==> cos[id].stage == Finished || cos[id].cancelled
      ensures returned ==> SocketSeenTo(states, acts, |old(stops)|)
      ensures !returned && (forall i :: 0 <= i < |old(script)| ==> old(script)[i].ending.Succeeds?) ==> script == []
    {
      var k := |stops|;
      Do(CallStop);
      ghost var seen := starts;
      returned := false;
      while !Enabled(Value(), Gathered(k))
        invariant Valid() && k < |stops| && seen <= starts
        invariant stops[k].phase == Gathering && stops[k].startsSeen == seen
        invariant |script| <= |old(script)| && script == old(script)[|old(script)| - |script|..]
        decreases |script|
      {
        if script == [] { return; }
        var _ := Await(Stopper(k));
      }
      Do(Gathered(k));
      if stops[k].phase == ClosingSocket {
        var ending := Await(Stopper(k));
        if !ending.Succeeds? && !ending.Raises? { return; }
        Do(SocketClosed(k));
      }
      returned := true;
      Sound();
      if starts == seen { StoppedMeansStopped(Value(), k); }
      ghost var g := ReturnedIff(states, acts, |acts|, k);
    }
  }
}
