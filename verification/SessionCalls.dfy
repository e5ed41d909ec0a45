/** One call after the other on the same session (session.py): what a stale request can do,
    what a new call finds, and what is reported and started, counted over runs. */
module SessionCalls {
  import opened Base
  import opened Session

  ghost function Count(p: bool): nat { if p then 1 else 0 }

  // ---- generations

  ghost function Resets(acts: seq<Act>, h: nat, i: nat): nat
    requires h <= i <= |acts|
    decreases i - h
  {
    if i == h then 0 else Resets(acts, h, i - 1) + Count(acts[i - 1] == Reset)
  }

  lemma GenerationStep(s: Sess, a: Act)
    requires Enabled(s, a)
    ensures Next(s, a).generation == s.generation + Count(a == Reset)
  {}

  lemma {:induction false} GenerationCountsResets(states: seq<Sess>, acts: seq<Act>, h: nat, i: nat)
    requires IsRun(states, acts) && h <= i <= |acts|
    ensures states[i].generation == states[h].generation + Resets(acts, h, i)
    decreases i - h
  {
    if h < i {
      GenerationCountsResets(states, acts, h, i - 1);
      GenerationStep(states[i - 1], acts[i - 1]);
    }
  }

  lemma {:induction false} NoResetIff(acts: seq<Act>, h: nat, i: nat)
    requires h <= i <= |acts|
    ensures Resets(acts, h, i) == 0 <==> forall n :: h <= n < i ==> acts[n] != Reset
    decreases i - h
  {
    if h < i { NoResetIff(acts, h, i - 1); }
  }

  /** In every run a request to disconnect made for the call of an earlier moment ends the
      present call if and only if no reset came in between; otherwise it changes nothing. A
      request before the call is connected changes nothing either. */
  lemma StaleRequestIgnoredIff(states: seq<Sess>, acts: seq<Act>, h: nat, i: nat)
    requires IsRun(states, acts) && h <= i < |acts|
    requires acts[i] == RequestDisconnect(Some(states[h].generation))
    ensures var connected := states[i].hasLoop && states[i].disconnectRequested.Some?;
      if connected && forall n :: h <= n < i ==> acts[n] != Reset
      then states[i + 1] == states[i].(disconnectRequested := Some(true))
      else states[i + 1] == states[i]
  {
    GenerationCountsResets(states, acts, h, i);
    NoResetIff(acts, h, i);
  }

  // ---- a new call

  /** Whatever the last call left behind, after a reset the next connected call has its own
      stream, no mark registered, nothing queued, no request of any kind pending, and a clear
      queue of its own; older clear queues keep what they hold. */
  lemma NewCallStartsClean(s: Sess, sid: string)
    ensures var t := Next(Next(s, Reset), Connected(sid));
      && t.streamSid == Some(sid) && t.hasLoop && !t.disconnected && t.around.wsConnected
      && t.pending == map[] && t.inbound == [] && t.outbound == [] && t.around.stt == None
      && t.disconnectRequested == Some(false)
      && t.clearQueue == Some(|s.clearQueues|) && t.clearQueues == s.clearQueues + [0]
      && t.markQueue == s.markQueue && t.generation == s.generation + 1
    ensures var r := Next(s, Reset);
      && r.streamSid == None && Next(r, RequestClear) == r && forall g :: Next(r, RequestDisconnect(g)) == r
  {
    var r := Next(s, Reset);
    assert r.around.stt == None;
  }

  /** Once the loop is handed over, or the call connected, requests can be made of it: an end
      of the call without a generation always, a clear of the buffer once it has a stream. */
  lemma RequestsCanBeMade(s: Sess, a: Act)
    requires a == SetLoop || a.Connected?
    ensures var t := Next(s, a);
      && t.hasLoop && t.clearQueue.Some? && t.disconnectRequested.Some?
      && Next(t, RequestDisconnect(None)).disconnectRequested == Some(true)
      && (a.Connected? ==> t.streamSid == Some(a.sid))
  {}

  /** Connecting, or handing over the loop, again leaves the requests made so far. */
  lemma RequestsSurviveReconnect(s: Sess, a: Act)
    requires a == SetLoop || a.Connected?
    requires s.disconnectRequested.Some? && s.clearQueue.Some?
    ensures var t := Next(s, a);
      t.disconnectRequested == s.disconnectRequested && t.clearQueue == s.clearQueue && t.clearQueues == s.clearQueues
  {}

  /** A request to clear goes to the queue of the present call, if it is connected. */
  lemma ClearGoesToThisCall(s: Sess, q: nat)
    requires q < |s.clearQueues|
    ensures var t := Next(s, RequestClear);
      && |t.clearQueues| == |s.clearQueues|
      && t.clearQueues[q] == s.clearQueues[q] + Count(s.hasLoop && s.streamSid.Some? && s.clearQueue == Some(q))
  {}

  // ---- what the consumer hears

  /** What an act puts on the inbound queue: a frame, or the sentinel of the first disconnect. */
  ghost function Arrives(s: Sess, a: Act): seq<Option<seq<byte>>> {
    if a.PutInbound? && s.hasLoop then [a.frame]
    else if a == Disconnect && !s.disconnected && s.hasLoop then [None]
    else []
  }

  ghost function ArrivedSince(states: seq<Sess>, acts: seq<Act>, h: nat, i: nat): seq<Option<seq<byte>>>
    requires h <= i <= |acts| < |states|
    decreases i - h
  {
    if i == h then [] else ArrivedSince(states, acts, h, i - 1) + Arrives(states[i - 1], acts[i - 1])
  }

  lemma InboundStep(s: Sess, a: Act)
    requires Enabled(s, a)
    ensures Next(s, a).inbound == if a == Reset then [] else s.inbound + Arrives(s, a)
  {}

  ghost predicate Brings(s: Sess, a: Act, t: Sess) { t.inbound == s.inbound + Arrives(s, a) }

  lemma {:induction false} InboundOfSteps(states: seq<Sess>, acts: seq<Act>, h: nat, i: nat)
    requires h <= i <= |acts| < |states|
    requires forall n {:trigger acts[n]} :: h <= n < i ==> Brings(states[n], acts[n], states[n + 1])
    ensures states[i].inbound == states[h].inbound + ArrivedSince(states, acts, h, i)
    decreases i - h
  {
    if h < i {
      var a := acts[i - 1];
      InboundOfSteps(states, acts, h, i - 1);
      assert Brings(states[i - 1], a, states[i]);
    }
  }

  /** Between resets everything put, and one sentinel at the first disconnect, arrives in
      order; a reset leaves nothing for the next call. */
  lemma InboundIsWhatWasPut(states: seq<Sess>, acts: seq<Act>, h: nat, i: nat)
    requires IsRun(states, acts) && h <= i <= |acts|
    requires forall n {:trigger acts[n]} :: h <= n < i ==> acts[n] != Reset
    ensures states[i].inbound == states[h].inbound + ArrivedSince(states, acts, h, i)
  {
    forall n {:trigger acts[n]} | h <= n < i ensures Brings(states[n], acts[n], states[n + 1]) {
      InboundStep(states[n], acts[n]);
    }
    InboundOfSteps(states, acts, h, i);
  }

  // ---- what is reported, and which recognisers are made and started

  /** How often a call ended for the first time while a callback was installed. */
  ghost function Ends(states: seq<Sess>, acts: seq<Act>, i: nat): nat
    requires i <= |acts| < |states|
  {
    if i == 0 then 0
    else
      var s := states[i - 1];
      Ends(states, acts, i - 1) + Count(acts[i - 1] == Disconnect && !s.disconnected && s.around.config.callback)
  }

  lemma {:induction false} EveryEndIsReported(states: seq<Sess>, acts: seq<Act>, i: nat)
    requires IsRun(states, acts) && i <= |acts|
    ensures states[i].around.callbacks == Ends(states, acts, i)
  {
    if i > 0 {
      EveryEndIsReported(states, acts, i - 1);
      CallbacksStep(states[i - 1], acts[i - 1]);
    }
  }

  lemma CallbacksStep(s: Sess, a: Act)
    requires Enabled(s, a)
    ensures Next(s, a).around.callbacks
         == s.around.callbacks + Count(a == Disconnect && !s.disconnected && s.around.config.callback)
  {}

  /** The recogniser that a start of recognition finds or, with a factory, makes. */
  ghost function Starts(s: Sess, a: Act): Option<nat> {
    if !a.StartStt? then None
    else if s.around.stt.Some? then s.around.stt
    else if s.around.config.factory then Some(s.around.made)
    else None
  }

  ghost predicate Makes(s: Sess, a: Act) { a.StartStt? && s.around.stt.None? && s.around.config.factory }

  ghost function Listed(item: Option<nat>, when: bool): seq<nat> {
    if item.Some? && when then [item.value] else []
  }

  /** What one act adds to the books. */
  ghost predicate Booked(s: Sess, a: Act, t: Sess) {
    var c, d := s.around, t.around;
    && d.made == c.made + Count(Makes(s, a))
    && d.started == c.started + Listed(Starts(s, a), true)
    && d.announced == c.announced + Listed(Starts(s, a), c.config.ready)
    && d.tees == c.tees + Listed(Starts(s, a), Makes(s, a) && c.config.secondary)
    && d.stopped == c.stopped + Listed(c.stt, a == StopStt || (a == Reset && s.hasLoop))
    && d.halted == c.halted + Listed(c.stt, a == Reset && !s.hasLoop)
    && d.stt == (if a == Reset then None else if a.StartStt? then Starts(s, a) else c.stt)
    && (d.wsConnected <==> a.Connected? || (c.wsConnected && a != Reset))
  }

  lemma BooksOfOthers(s: Sess, a: Act)
    requires Enabled(s, a) && !a.StartStt? && !a.StopStt? && a != Reset
    ensures Next(s, a).around == s.around.(
              wsConnected := a.Connected? || s.around.wsConnected,
              config := if a.Install? then a.config else s.around.config,
              callbacks := Next(s, a).around.callbacks)
  {}

  lemma StartIsBooked(s: Sess)
    requires Enabled(s, StartStt)
    ensures Booked(s, StartStt, Next(s, StartStt))
  {}

  lemma StopIsBooked(s: Sess, a: Act)
    requires a == StopStt || a == Reset
    ensures Booked(s, a, Next(s, a))
  {}

  lemma BooksKept(s: Sess, a: Act)
    requires Enabled(s, a)
    ensures Booked(s, a, Next(s, a))
  {
    if a.StartStt? {
      StartIsBooked(s);
    } else if a.StopStt? || a == Reset {
      StopIsBooked(s, a);
    } else {
      BooksOfOthers(s, a);
    }
  }

  /** A recogniser is started only after it was made, announced before its start, no two have
      the same number, and none only had its feeder cancelled. */
  ghost predicate InOrder(s: Sess) {
    var c := s.around;
    && (forall p :: p in c.started ==> p < c.made) && (c.stt.Some? ==> c.stt.value < c.made)
    && (forall p :: p in c.announced ==> p in c.started)
    && (forall x, y :: 0 <= x < y < |c.tees| ==> c.tees[x] < c.tees[y])
    && (forall p :: p in c.tees ==> p < c.made) && c.halted == []
    && (c.stt.Some? ==> s.hasLoop)
  }

  lemma InOrderStep(s: Sess, a: Act, t: Sess)
    requires InOrder(s) && Booked(s, a, t) && (s.hasLoop ==> t.hasLoop) && (a.StartStt? ==> s.hasLoop)
    ensures InOrder(t)
  {
    var tees := s.around.tees;
    assert forall x :: 0 <= x < |tees| ==> tees[x] in tees;
  }

  /** So it is in every run: recognition needs the loop. */
  lemma {:induction false} RecognisersInOrder(states: seq<Sess>, acts: seq<Act>, i: nat)
    requires IsRun(states, acts) && i <= |acts|
    ensures InOrder(states[i])
  {
    if i > 0 {
      RecognisersInOrder(states, acts, i - 1);
      BooksKept(states[i - 1], acts[i - 1]);
      LoopStays(states[i - 1], acts[i - 1]);
      InOrderStep(states[i - 1], acts[i - 1], states[i]);
    }
  }

  lemma LoopStays(s: Sess, a: Act)
    requires Enabled(s, a)
    ensures s.hasLoop ==> Next(s, a).hasLoop
    ensures a.StartStt? ==> s.hasLoop
  {}
}
