/** `VoiceSession` as an object: its methods update the fields in place, each proved to
    make one act of the session machine. */
module SessionObject {
  import opened Base
  import opened Session

  class VoiceSession {
    var hasLoop: bool
    var streamSid: Option<string>
    var pending: map<Key, nat>
    var waiters: seq<Waiter>
    var markQueue: seq<Key>
    var outbound: seq<seq<byte>>
    var inbound: seq<Option<seq<byte>>>
    var clearQueue: Option<nat>
    var clearQueues: seq<nat>
    var disconnectRequested: Option<bool>
    var disconnected: bool
    var generation: nat
    var around: Surroundings

    /** The fields as one value. */
    function Value(): Sess
      reads this
    {
      Sess(hasLoop, streamSid, pending, waiters, markQueue, outbound, inbound,
           clearQueue, clearQueues, disconnectRequested, disconnected, generation, around)
    }

    constructor ()
      ensures Value() == FRESH
    {
      hasLoop, streamSid, pending, waiters := false, None, map[], [];
      markQueue, outbound, inbound := [], [], [];
      clearQueue, clearQueues, disconnectRequested := None, [], None;
      disconnected, generation := false, 0;
      around := ALONE;
    }

    method InitIntentFields()
      modifies this
      ensures Value() == WithIntentFields(old(Value()))
    {
      if disconnectRequested.None? { disconnectRequested := Some(false); }
      if clearQueue.None? {
        clearQueue := Some(|clearQueues|);
        clearQueues := clearQueues + [0];
      }
    }

    method SignalWsConnected(sid: string)
      modifies this
      ensures Value() == Next(old(Value()), Connected(sid))
    {
      streamSid := Some(sid);
      if !hasLoop { hasLoop := true; }
      InitIntentFields();
      around := around.(wsConnected := true);
    }

    /** The first suffix that makes the markName a key nobody has registered. */
    method PickKey(markName: Key, suffixes: seq<string>) returns (unique: Key)
      requires exists i :: 0 <= i < |suffixes| && markName + "__" + suffixes[i] !in pending
      ensures unique !in pending
      ensures exists i :: 0 <= i < |suffixes| && unique == markName + "__" + suffixes[i]
                          && forall j :: 0 <= j < i ==> markName + "__" + suffixes[j] in pending
    {
      var i := 0;
      unique := markName + "__" + suffixes[0];
      while unique in pending
        invariant 0 <= i < |suffixes| && unique == markName + "__" + suffixes[i]
        invariant forall j :: 0 <= j < i ==> markName + "__" + suffixes[j] in pending
        decreases |suffixes| - i
      {
        i := i + 1;
        unique := markName + "__" + suffixes[i];
      }
    }

    /** The part of `send_mark_and_wait` before it blocks. */
    method RegisterMark(unique: Key)
      requires hasLoop ==> unique !in pending
      modifies this
      ensures Value() == Next(old(Value()), Register(unique))
    {
      if !hasLoop { return; }
      pending := pending[unique := |waiters|];
      waiters := waiters + [Waiter(unique, false, Waiting)];
      markQueue := markQueue + [unique];
    }

    /** The part after it: the event was set, or the timeout ran out. */
    method FinishWait(w: nat, eventSet: bool)
      requires Enabled(Value(), if eventSet then Wake(w) else Expire(w))
      modifies this
      ensures Value() == Next(old(Value()), if eventSet then Wake(w) else Expire(w))
      ensures waiters[w].outcome == if eventSet || old(disconnected) then Returned else TimedOut
      ensures waiters[w].key !in pending
    {
      var outcome := if !eventSet && !disconnected then TimedOut else Returned;
      pending := pending - {waiters[w].key};
      waiters := waiters[w := waiters[w].(outcome := outcome)];
    }

    method SignalMarkReceived(name: Key)
      modifies this`waiters
      ensures Value() == Next(old(Value()), Echo(name))
    {
      if name in pending {
        var e := pending[name];
        if e < |waiters| { waiters := waiters[e := waiters[e].(released := true)]; }
        assert EventsOf(old(Value()), {name}) == {e};
        assert waiters == Release(old(waiters), {e});
      } else {
        assert EventsOf(old(Value()), {name}) == {};
        assert waiters == Release(old(waiters), {});
      }
    }

    /** Sets every stored event, one after the other. */
    method SetAllEvents()
      modifies this`waiters
      ensures waiters == Release(old(waiters), pending.Values)
    {
      var todo := pending.Keys;
      ghost var events: set<nat> := {};
      assert waiters == Release(old(waiters), events);
      while todo != {}
        invariant todo <= pending.Keys && |waiters| == |old(waiters)|
        invariant waiters == Release(old(waiters), events)
        invariant forall k :: k in pending && k !in todo ==> pending[k] in events
        invariant events <= pending.Values
        decreases |todo|
      {
        var k :| k in todo;
        var e := pending[k];
        if e < |waiters| { waiters := waiters[e := waiters[e].(released := true)]; }
        assert waiters == Release(old(waiters), events + {e});
        events := events + {e};
        todo := todo - {k};
      }
      assert events == pending.Values;
    }

    method SignalDisconnected()
      modifies this
      ensures Value() == Next(old(Value()), Disconnect)
    {
      if !disconnected { ReportDisconnect(); }
    }

    method ReportDisconnect()
      modifies `disconnected, `inbound, `waiters, `around
      ensures disconnected && inbound == old(inbound) + (if hasLoop then [None] else [])
      ensures waiters == Release(old(waiters), pending.Values)
      ensures around == if old(around).config.callback
                        then old(around).(callbacks := old(around).callbacks + 1) else old(around)
    {
      MarkEnded();
      SetAllEvents();
      if around.config.callback { around := around.(callbacks := around.callbacks + 1); }
    }

    method MarkEnded()
      modifies `disconnected, `inbound
      ensures disconnected && inbound == old(inbound) + (if hasLoop then [None] else [])
    {
      disconnected := true;
      if hasLoop { inbound := inbound + [None]; }
    }

    method PutInboundData(data: Option<seq<byte>>)
      modifies `inbound
      ensures inbound == old(inbound) + (if hasLoop then [data] else [])
      ensures Value() == Next(old(Value()), PutInbound(data))
    {
      if hasLoop { inbound := inbound + [data]; }
    }

    /** `start_session_stt`. */
    method StartRecognition()
      requires hasLoop
      modifies `around
      ensures Value() == Next(old(Value()), StartStt)
    {
      if around.config.factory && around.stt.None? {
        if around.config.secondary { around := around.(tees := around.tees + [around.made]); }
        around := around.(stt := Some(around.made), made := around.made + 1);
      }
      if around.stt.None? { return; }
      if around.config.ready { around := around.(announced := around.announced + [around.stt.value]); }
      around := around.(started := around.started + [around.stt.value]);
    }

    method StopRecognition()
      modifies `around
      ensures around == SttStopped(old(around)) && Value() == Next(old(Value()), StopStt)
    {
      if around.stt.Some? { around := around.(stopped := around.stopped + [around.stt.value]); }
    }

    /** State of the finished call is cleared; waiters are released before that, while
        `disconnected` still reads as it did. */
    method ResetCall()
      modifies this
      ensures Value() == Next(old(Value()), Reset)
    {
      generation := generation + 1;
      SetAllEvents();
      ForgetAll();
    }

    method ForgetAll()
      modifies `pending, `disconnected, `streamSid, `disconnectRequested, `clearQueue, `around, `inbound, `outbound
      ensures Value() == old(Value()).(
                pending := map[], disconnected := false, streamSid := None, disconnectRequested := None,
                clearQueue := None, inbound := [], outbound := [], around := Cleared(old(around), hasLoop))
    {
      ForgetCall();
      ForgetRecogniser();
      DrainQueues();
    }

    method ForgetRecogniser()
      modifies `around
      ensures around == Cleared(old(around), hasLoop)
    {
      around := around.(wsConnected := false);
      if hasLoop {
        StopRecognition();
      } else if around.stt.Some? {
        around := around.(halted := around.halted + [around.stt.value]);
      }
      around := around.(stt := None);
    }

    method ForgetCall()
      modifies `pending, `disconnected, `streamSid, `disconnectRequested, `clearQueue
      ensures pending == map[] && !disconnected && streamSid == None
      ensures disconnectRequested == None && clearQueue == None
    {
      pending := map[];
      disconnected := false;
      streamSid := None;
      disconnectRequested := None;
      clearQueue := None;
    }

    method DrainQueues()
      modifies this`inbound, this`outbound
      ensures inbound == [] && outbound == []
    {
      while inbound != [] { inbound := inbound[1..]; }
      while outbound != []
        invariant inbound == []
      {
        outbound := outbound[1..];
      }
    }

    method DrainAudioAndMarks()
      modifies `outbound, `markQueue
      ensures outbound == [] && markQueue == []
    {
      while outbound != [] { outbound := outbound[1..]; }
      while markQueue != []
        invariant outbound == []
      {
        markQueue := markQueue[1..];
      }
    }

    method RequestDisconnectFor(seen: Option<nat>)
      modifies this
      ensures Value() == Next(old(Value()), RequestDisconnect(seen))
    {
      if !hasLoop || disconnectRequested.None? { return; }
      if seen.Some? && seen.value != generation { return; }
      disconnectRequested := Some(true);
    }

    method RequestClearBuffer()
      modifies this
      ensures Value() == Next(old(Value()), RequestClear)
    {
      if !hasLoop || clearQueue.None? || streamSid.None? { return; }
      if clearQueue.value < |clearQueues| {
        clearQueues := clearQueues[clearQueue.value := clearQueues[clearQueue.value] + 1];
      }
    }

    /** One act of another thread or task. */
    method Apply(a: Act)
      requires Enabled(Value(), a)
      modifies this
      ensures Value() == Next(old(Value()), a)
    {
      match a {
        case SetLoop => hasLoop := true; InitIntentFields();
        case Connected(sid) => SignalWsConnected(sid);
        case PutOutbound(data) => if hasLoop { outbound := outbound + [data]; }
        case PutInbound(frame) => PutInboundData(frame);
        case Register(key) => RegisterMark(key);
        case Echo(key) => SignalMarkReceived(key);
        case Wake(w) => FinishWait(w, true);
        case Expire(w) => FinishWait(w, false);
        case Disconnect => SignalDisconnected();
        case Reset => ResetCall();
        case RequestClear => RequestClearBuffer();
        case RequestDisconnect(seen) => RequestDisconnectFor(seen);
        case Install(config) => around := around.(config := config);
        case StartStt => StartRecognition();
        case StopStt => StopRecognition();
      }
    }
  }
}
