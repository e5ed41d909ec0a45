/** `_Connection` as an object: its handlers update the fields in place, each proved to
    take one step of the connection machine and to do to the session what that step says.
    What other tasks and threads do to the session at each await is read from `script`. */
module ConnectionObject {
  import opened Base
  import opened Connection
  import opened SessionObject
  import Session

  /** Frames as they lie in the session's inbound queue. */
  function Queued(fs: seq<seq<byte>>): seq<Option<seq<byte>>> {
    seq(|fs|, i requires 0 <= i < |fs| => Some(fs[i]))
  }

  /** Binding: the session is connected and its recogniser started. */
  function AtBinding(s: Session.Sess, sid: string): Session.Sess {
    Session.Next(Session.Next(s, Session.Connected(sid)), Session.StartStt)
  }

  /** An act on the session, by this connection or by anybody else. */
  datatype Entry = Entry(own: bool, act: Session.Act)

  /** The session after such acts; what others cannot do at their turn they do not do. */
  function Replay(s: Session.Sess, log: seq<Entry>): Session.Sess {
    if log == [] then s
    else
      var t := Replay(s, log[..|log| - 1]);
      if Session.Enabled(t, log[|log| - 1].act) then Session.Next(t, log[|log| - 1].act) else t
  }

  /** The acts of this connection among them. */
  function Own(log: seq<Entry>): seq<Session.Act> {
    if log == [] then []
    else Own(log[..|log| - 1]) + (if log[|log| - 1].own then [log[|log| - 1].act] else [])
  }

  function Owned(acts: seq<Session.Act>): seq<Entry> {
    seq(|acts|, i requires 0 <= i < |acts| => Entry(true, acts[i]))
  }

  lemma OneMore(s: Session.Sess, log: seq<Entry>, e: Entry)
    requires Session.Enabled(Replay(s, log), e.act)
    ensures Replay(s, log + [e]) == Session.Next(Replay(s, log), e.act)
    ensures Own(log + [e]) == Own(log) + (if e.own then [e.act] else [])
  {
    assert (log + [e])[..|log|] == log;
  }

  function Puts(fs: seq<seq<byte>>): seq<Session.Act> {
    seq(|fs|, i requires 0 <= i < |fs| => Session.PutInbound(Some(fs[i])))
  }

  /** What a connection has done to the session so far: nothing unless it is bound; then it
      connected it, started its recogniser and handed it the frames. */
  function Doings(sid: string, c: Conn): seq<Session.Act> {
    if !c.Bound() then [] else [Session.Connected(sid), Session.StartStt] + Puts(c.stream.frames)
  }

  const GOODBYE: seq<Session.Act> := [Session.Disconnect, Session.StopStt]

  // ---- a session that nobody else touches

  lemma {:induction false} AllOwned(log: seq<Entry>)
    requires forall e :: e in log ==> e.own
    ensures log == Owned(Own(log))
  {
    if log != [] {
      var last := |log| - 1;
      assert log[last] in log;
      AllOwned(log[..last]);
      assert log == log[..last] + [log[last]];
    }
  }

  lemma {:induction false} ReplayConcat(s: Session.Sess, x: seq<Entry>, y: seq<Entry>)
    ensures Replay(s, x + y) == Replay(Replay(s, x), y)
  {
    if y == [] {
      assert x + y == x;
    } else {
      assert (x + y)[..|x + y| - 1] == x + y[..|y| - 1];
      ReplayConcat(s, x, y[..|y| - 1]);
    }
  }

  lemma {:induction false} ReplayPuts(s: Session.Sess, fs: seq<seq<byte>>)
    requires s.hasLoop
    ensures Replay(s, Owned(Puts(fs))) == s.(inbound := s.inbound + Queued(fs))
  {
    if fs == [] {
      assert s.inbound + Queued(fs) == s.inbound;
    } else {
      var last := |fs| - 1;
      ReplayPuts(s, fs[..last]);
      assert Owned(Puts(fs))[..last] == Owned(Puts(fs[..last]));
      assert Queued(fs) == Queued(fs[..last]) + [Some(fs[last])];
      assert s.inbound + Queued(fs) == (s.inbound + Queued(fs[..last])) + [Some(fs[last])];
    }
  }

  lemma ReplayTwo(s: Session.Sess, a: Session.Act, b: Session.Act)
    requires Session.Enabled(s, a) && Session.Enabled(Session.Next(s, a), b)
    ensures Replay(s, Owned([a, b])) == Session.Next(Session.Next(s, a), b)
  {
    var one := [Entry(true, a)];
    OneMore(s, [], Entry(true, a));
    assert [] + one == one;
    OneMore(s, one, Entry(true, b));
    assert Owned([a, b]) == one + [Entry(true, b)];
  }

  /** The session of a bound connection before it is torn down. */
  function Served(s: Session.Sess, sid: string, c: Conn): Session.Sess {
    var t := AtBinding(s, sid);
    t.(inbound := t.inbound + Queued(c.stream.frames))
  }

  /** What a call has come to when its connection is torn down. */
  ghost predicate Delivered(s: Session.Sess, t: Session.Sess, sid: string, c: Conn) {
    && t.disconnected && t.streamSid == Some(sid)
    && t.inbound == s.inbound + Queued(c.stream.frames) + (if s.disconnected then [] else [None])
    && (!s.disconnected ==> forall i :: i in s.pending.Values && i < |t.waiters| ==> t.waiters[i].released)
    && (t.around.stt.Some? ==> t.around.stt.value in t.around.started && t.around.stt.value in t.around.stopped)
    && (s.around.config.factory ==> t.around.stt.Some?)
  }

  lemma BoundBefore(s: Session.Sess, sid: string)
    ensures var t := AtBinding(s, sid);
      && t.streamSid == Some(sid) && t.hasLoop && t.inbound == s.inbound && t.disconnected == s.disconnected
      && t.pending == s.pending && t.waiters == s.waiters
      && (t.around.stt.Some? ==> t.around.stt.value in t.around.started)
      && (s.around.config.factory ==> t.around.stt.Some?)
  {
    var u := Session.Next(s, Session.Connected(sid));
    assert u.around == s.around.(wsConnected := true);
  }

  lemma TornDown(s: Session.Sess, sid: string, c: Conn)
    ensures Delivered(s, Session.Next(Session.Next(Served(s, sid, c), Session.Disconnect), Session.StopStt), sid, c)
  {
    BoundBefore(s, sid);
    var t := Served(s, sid, c);
    var u := Session.Next(t, Session.Disconnect);
    Ended(t);
    assert Session.Next(u, Session.StopStt) == u.(around := Session.SttStopped(u.around));
  }

  lemma Ended(t: Session.Sess)
    requires t.hasLoop
    ensures var u := Session.Next(t, Session.Disconnect);
      && u.disconnected && u.streamSid == t.streamSid && |u.waiters| == |t.waiters|
      && u.inbound == t.inbound + (if t.disconnected then [] else [None])
      && (!t.disconnected ==> forall i :: i in t.pending.Values && i < |u.waiters| ==> u.waiters[i].released)
      && u.around.stt == t.around.stt && u.around.started == t.around.started
  {}

  lemma Undisturbed(s: Session.Sess, sid: string, c: Conn, log: seq<Entry>)
    requires c.Bound() && Own(log) == Doings(sid, c) + GOODBYE && forall e :: e in log ==> e.own
    ensures Delivered(s, Replay(s, log), sid, c)
  {
    var begin, puts := [Session.Connected(sid), Session.StartStt], Puts(c.stream.frames);
    AllOwned(log);
    assert log == (Owned(begin) + Owned(puts)) + Owned(GOODBYE);
    ReplayConcat(s, Owned(begin) + Owned(puts), Owned(GOODBYE));
    ReplayConcat(s, Owned(begin), Owned(puts));
    BoundBefore(s, sid);
    ReplayTwo(s, Session.Connected(sid), Session.StartStt);
    ReplayPuts(AtBinding(s, sid), c.stream.frames);
    ReplayTwo(Served(s, sid, c), Session.Disconnect, Session.StopStt);
    TornDown(s, sid, c);
  }

  class AudioHookConnection {
    const peer: Peer
    const sessionId: string
    const session: VoiceSession
    var clientSeq: int
    var authenticated: bool
    var isOpen: bool
    var closedSent: bool
    var bound: bool
    var call: Option<Call>
    var remainder: seq<byte>
    ghost var over: bool
    ghost var frames: seq<seq<byte>>
    ghost var heard: seq<byte>
    ghost var passed: seq<int>
    ghost var replies: seq<Reply>
    ghost var binds: nat
    /** What others do to the session at each await. */
    var script: seq<seq<Session.Act>>
    ghost var log: seq<Entry>
    ghost const atStart: Session.Sess

    ghost function Value(): Conn
      reads this
    {
      Conn(clientSeq, authenticated, isOpen, closedSent, over, call,
           Stream(frames, remainder, heard), passed, replies, binds)
    }

    /** The session is what all the acts on it have made of it. */
    ghost predicate Logged()
      reads this, session
    {
      session.Value() == Replay(atStart, log)
    }

    /** And this connection's part of them is what its state says. */
    ghost predicate Valid()
      reads this, session
    {
      && bound == call.Some? && (bound ==> session.hasLoop)
      && Climbed(Value())
      && Logged() && Own(log) == Doings(sessionId, Value())
    }

    constructor (peer: Peer, sessionId: string, session: VoiceSession, script: seq<seq<Session.Act>>)
      ensures Valid() && Value() == ACCEPTED && log == []
      ensures this.peer == peer && this.sessionId == sessionId && this.session == session
      ensures atStart == session.Value()
    {
      this.peer, this.sessionId, this.session := peer, sessionId, session;
      clientSeq, authenticated, isOpen, closedSent, bound := 0, false, false, false, false;
      call, remainder := None, [];
      over, frames, heard, passed, replies, binds := false, [], [], [], [], 0;
      atStart := session.Value();
      this.script, log := script, [];
    }

    // ---- acts on the session

    ghost method Note(own: bool, act: Session.Act)
      requires Session.Enabled(Replay(atStart, log), act)
      requires session.Value() == Session.Next(Replay(atStart, log), act)
      modifies `log
      ensures Logged() && Own(log) == Own(old(log)) + (if own then [act] else [])
    {
      OneMore(atStart, log, Entry(own, act));
      log := log + [Entry(own, act)];
    }

    /** An await: other tasks and threads act on the session as they like. */
    method LetOthersAct()
      requires Logged()
      modifies `script, `log, session
      ensures Logged() && Own(log) == Own(old(log)) && (old(session.hasLoop) ==> session.hasLoop)
    {
      if script == [] { return; }
      var acts := script[0];
      script := script[1..];
      for i := 0 to |acts|
        invariant Logged() && Own(log) == Own(old(log)) && (old(session.hasLoop) ==> session.hasLoop)
      {
        if Session.Enabled(session.Value(), acts[i]) {
          LoopStays(session.Value(), acts[i]);
          session.Apply(acts[i]);
          Note(false, acts[i]);
        }
      }
    }

    /** The first suitable entry, searched for in order. */
    method FindMedia(offered: seq<Media>) returns (found: Option<Media>)
      ensures found == SelectMedia(offered)
    {
      var i := 0;
      while i < |offered|
        invariant 0 <= i <= |offered|
        invariant SelectMedia(offered) == SelectMedia(offered[i..])
      {
        if Suitable(offered[i]) { return Some(offered[i]); }
        i := i + 1;
      }
      found := None;
    }

    method CheckAuthorized(m: Message) returns (ok: bool)
      requires m.Message?
      ensures ok == Authorized(peer, m)
      ensures ok <==>
        && peer.keyOk
        && (peer.required.Some? ==> peer.organization == Str(peer.required.value))
        && (peer.required.Some? && m.kind == OpenCall ==> m.organization == Str(peer.required.value))
    {
      ok := peer.keyOk;
      if peer.required.Some? {
        var org := Str(peer.required.value);
        ok := ok && peer.organization == org;
        if m.kind == OpenCall { ok := ok && m.organization == org; }
      }
    }

    method Authenticate(m: Message)
      requires m.Message?
      modifies `authenticated
      ensures authenticated == (old(authenticated) || Authorized(peer, m))
    {
      if !authenticated { authenticated := CheckAuthorized(m); }
    }

    /** Awaits the writer's answer to one reply. */
    method AwaitReply(reply: Reply, sending: Sending) returns (sent: bool)
      requires Logged()
      modifies `replies, `script, `log, session
      ensures Value() == Answer(old(Value()), reply, sending)
      ensures sent == sending.Written?
      ensures Logged() && Own(log) == Own(old(log)) && (old(session.hasLoop) ==> session.hasLoop)
    {
      LetOthersAct();
      sent := sending.Written?;
      if sent { replies := replies + [reply]; }
    }

    method Fail(reason: Reason, sending: Sending)
      requires Logged()
      modifies `replies, `over, `script, `log, session
      ensures Value() == End(old(Value()), Disconnect(reason), sending)
      ensures Logged() && Own(log) == Own(old(log)) && (old(session.hasLoop) ==> session.hasLoop)
    {
      var _ := AwaitReply(Disconnect(reason), sending);
      over := true;
    }

    method ConnectSession()
      requires Logged()
      modifies `log, session
      ensures Logged() && Own(log) == Own(old(log)) + [Session.Connected(sessionId)] && session.hasLoop
    {
      session.SignalWsConnected(sessionId);
      Note(true, Session.Connected(sessionId));
    }

    method StartRecogniser()
      requires Logged() && session.hasLoop
      modifies `log, session
      ensures Logged() && Own(log) == Own(old(log)) + [Session.StartStt] && session.hasLoop
    {
      LoopStays(session.Value(), Session.StartStt);
      session.StartRecognition();
      Note(true, Session.StartStt);
    }

    method EndSession()
      requires Logged()
      modifies `log, session
      ensures Logged() && Own(log) == Own(old(log)) + GOODBYE && session.disconnected
    {
      session.SignalDisconnected();
      Note(true, Session.Disconnect);
      session.StopRecognition();
      Note(true, Session.StopStt);
    }

    method Bind(m: Message)
      requires m.Message? && !bound && call.None? && frames == []
      requires Logged() && Own(log) == []
      modifies `call, `bound, `binds, `log, session
      ensures bound && Value() == old(Value()).(call := Some(CallOf(m)), binds := old(binds) + 1)
      ensures Logged() && Own(log) == Doings(sessionId, Value()) && session.hasLoop
    {
      call := Some(CallOf(m));
      ConnectSession();
      bound, binds := true, binds + 1;
      StartRecogniser();
      assert Puts(frames) == [];
    }

    method OnOpen(m: Message, sending: Sending) returns (ends: bool)
      requires Valid() && m.Message? && authenticated && !isOpen && !over
      modifies this, session
      ensures Valid() && Value() == Open(old(Value()), m, sending) && ends == over
    {
      HandleClimbs(Value(), m.(kind := OpenCall), sending);
      var media := None;
      if m.media.Some? { media := FindMedia(m.media.value); }
      if media.None? {
        Fail(Fault, sending);
        return true;
      }
      var sent := AwaitReply(Opened(media.value), sending);
      if !sent {
        over := true;
        return true;
      }
      isOpen := true;
      if !IsProbe(m) { Bind(m); }
      return false;
    }

    method DispatchText(m: Message, sending: Sending) returns (ends: bool)
      requires Valid() && m.Message? && isOpen && !over
      modifies this, session
      ensures Valid() && Value() == Dispatch(old(Value()), m, sending) && ends == over
    {
      HandleClimbs(Value(), m, sending);
      match m.kind {
        case Ping => replies := replies + [Pong];
        case Update => replies := replies + [Updated];
        case Close =>
          var _ := AwaitReply(Closed, sending);
          over := true;
          if !sending.Aborted? { closedSent := true; }
          return true;
        case OpenCall =>
        case OtherKind =>
      }
      return false;
    }

    /** A message that passed the checks. */
    method HandlePassed(m: Message, sending: Sending) returns (ends: bool)
      requires Valid() && m.Message? && authenticated && !over
      modifies this, session
      ensures Valid() && Value() == Handle(old(Value()), m, sending) && ends == over
    {
      HandleClimbs(Value(), m, sending);
      if isOpen {
        ends := DispatchText(m, sending);
      } else if m.kind != OpenCall {
        Fail(Fault, sending);
        ends := true;
      } else {
        ends := OnOpen(m, sending);
      }
    }

    /** Refuses a message of a stranger or out of sequence. */
    method Decide(m: Message, seqOk: bool, sending: Sending) returns (ends: bool)
      requires Valid() && m.Message? && !over
      modifies this, session
      ensures Valid() && ends == over
      ensures Value() == if !old(authenticated) then End(old(Value()), Disconnect(Unauthorized), sending)
                         else if !seqOk then End(old(Value()), Disconnect(Fault), sending)
                         else Handle(old(Value()).(passed := old(passed) + [old(clientSeq)]), m, sending)
    {
      if !authenticated {
        Fail(Unauthorized, sending);
        return true;
      }
      if !seqOk {
        Fail(Fault, sending);
        return true;
      }
      passed := passed + [clientSeq];
      ends := HandlePassed(m, sending);
    }

    /** Numbering first, then who the peer is, then what the message says. */
    method HandleMessage(m: Message, sending: Sending) returns (ends: bool)
      requires Valid() && !over && m.Message?
      modifies this, session
      ensures Valid() && Value() == OnText(old(Value()), peer, m, sending) && ends == over
    {
      var seqOk := m.seqNo == Some(clientSeq + 1);
      if seqOk { clientSeq := clientSeq + 1; }
      Authenticate(m);
      ends := Decide(m, seqOk, sending);
    }

    method HandleText(m: Message, sending: Sending) returns (ends: bool)
      requires Valid() && !over
      modifies this, session
      ensures Valid() && Value() == OnText(old(Value()), peer, m, sending) && ends == over
    {
      if m.Malformed? {
        Fail(Fault, sending);
        ends := true;
      } else {
        ends := HandleMessage(m, sending);
      }
    }

    /** Cuts whole frames off what is held back and hands them to the session. */
    method CutFrames()
      requires session.hasLoop && Logged()
      modifies `remainder, `frames, `log, session`inbound
      ensures remainder == Rest(old(remainder)) && frames == old(frames) + Whole(old(remainder))
      ensures Logged() && Own(log) == Own(old(log)) + Puts(Whole(old(remainder)))
    {
      ghost var stream, done := remainder, [];
      while |remainder| >= FRAME_BYTES
        invariant done + Whole(remainder) == Whole(stream) && Rest(remainder) == Rest(stream)
        invariant frames == old(frames) + done && Logged() && Own(log) == Own(old(log)) + Puts(done)
      {
        var frame := remainder[..FRAME_BYTES];
        assert done + Whole(remainder) == (done + [frame]) + Whole(remainder[FRAME_BYTES..]);
        assert Puts(done + [frame]) == Puts(done) + [Session.PutInbound(Some(frame))];
        remainder := remainder[FRAME_BYTES..];
        session.PutInboundData(Some(frame));
        Note(true, Session.PutInbound(Some(frame)));
        frames, done := frames + [frame], done + [frame];
      }
      assert done == Whole(stream);
    }

    method HandleAudio(data: seq<byte>)
      requires Valid() && !over
      modifies `remainder, `heard, `frames, `log, session`inbound
      ensures Valid() && Value() == OnAudio(old(Value()), data)
    {
      if !bound { return; }
      ghost var c := Value();
      remainder, heard := remainder + data, heard + data;
      CutFrames();
      MorePuts(sessionId, c, Value(), Whole(c.stream.remainder + data));
    }

    method HandleInput(input: Input) returns (ends: bool)
      requires Valid() && !over
      modifies this, session
      ensures Valid() && Value() == Step(old(Value()), peer, input) && ends == over
    {
      ends := false;
      match input {
        case Text(m, sending) => ends := HandleText(m, sending);
        case Audio(data) => HandleAudio(data);
        case Gone => ends, over := true, true;
      }
    }

    /** Waits for one input while others act, then handles it. */
    method Receive(input: Input) returns (ends: bool)
      requires Valid() && !over
      modifies this, session
      ensures Valid() && Value() == Step(old(Value()), peer, input) && ends == over
    {
      ghost var c := Value();
      LetOthersAct();
      assert Value() == c;
      ends := HandleInput(input);
    }

    /** Receives until the peer is gone or a text message ends the connection. */
    method ReadLoop(inputs: seq<Input>)
      requires Valid() && Value() == ACCEPTED
      modifies this, session
      ensures Valid() && Value() == Run(peer, inputs)
    {
      var i := 0;
      var ends := false;
      while !ends && i < |inputs|
        invariant 0 <= i <= |inputs|
        invariant Valid() && Value() == Run(peer, inputs[..i]) && ends == over
        decreases |inputs| - i, !ends
      {
        assert inputs[..i + 1][..i] == inputs[..i];
        ends := Receive(inputs[i]);
        i := i + 1;
      }
      assert inputs[..|inputs|] == inputs;
      if ends { OverStays(peer, inputs, i); }
    }

    /** The end of `run`: whoever finished first, the call is told exactly when bound, and
        then its recogniser is stopped. */
    method Teardown()
      requires Valid()
      modifies `remainder, `script, `log, session
      ensures remainder == [] && Logged()
      ensures Own(log) == Own(old(log)) + (if old(Value()).Bound() then GOODBYE else [])
      ensures old(Value()).Bound() ==> session.disconnected
    {
      LetOthersAct();
      if bound { EndSession(); }
      remainder := [];
    }

    /** A whole connection, whatever others do to the session meanwhile. What it does itself
        is nothing unless it binds; then it connects the session, starts the recogniser,
        hands over the whole frames of the audio heard in order, reports the disconnect and
        stops the recogniser. A session that nobody else touches has got just that. */
    method Serve(inputs: seq<Input>)
      requires Valid() && Value() == ACCEPTED && log == [] && atStart == session.Value()
      modifies this, session
      ensures session.Value() == Replay(old(session.Value()), log)
      ensures var c := Run(peer, inputs);
        && c.stream.frames == Whole(c.stream.heard)
        && Own(log) == (if c.Bound() then Doings(sessionId, c) + GOODBYE else [])
        && (c.Bound() ==> session.disconnected)
        && ((forall e :: e in log ==> e.own) ==>
              if c.Bound() then Delivered(old(session.Value()), session.Value(), sessionId, c)
              else session.Value() == old(session.Value()))
    {
      ReadLoop(inputs);
      ghost var c := Value();
      Teardown();
      FramesDependOnStreamOnly(peer, inputs);
      if forall e :: e in log ==> e.own {
        AllOwned(log);
        if c.Bound() { Undisturbed(atStart, sessionId, c, log); }
      }
    }
  }

  lemma LoopStays(s: Session.Sess, a: Session.Act)
    requires Session.Enabled(s, a)
    ensures s.hasLoop ==> Session.Next(s, a).hasLoop
  {}

  /** More frames handed on are more acts on the session. */
  lemma MorePuts(sid: string, c: Conn, d: Conn, fs: seq<seq<byte>>)
    requires c.Bound() && d.Bound() && d.stream.frames == c.stream.frames + fs
    ensures Doings(sid, d) == Doings(sid, c) + Puts(fs)
  {
    assert Puts(d.stream.frames) == Puts(c.stream.frames) + Puts(fs);
  }

  /** Nothing is handled after the end. */
  lemma {:induction false} OverStays(p: Peer, inputs: seq<Input>, i: nat)
    requires i <= |inputs| && Run(p, inputs[..i]).over
    ensures Run(p, inputs) == Run(p, inputs[..i])
    decreases |inputs|
  {
    if i < |inputs| {
      assert inputs[..|inputs| - 1][..i] == inputs[..i];
      OverStays(p, inputs[..|inputs| - 1], i);
    } else {
      assert inputs[..i] == inputs;
    }
  }

  const CLOSE_WAIT_MS: int := 10000
  const POLL_MS: int := 20

  /** What the watcher sees when it looks: the clock and whether `closed` was answered. */
  datatype Look = Look(now: int, closedSent: bool)

  /** Looks of a watcher that sleeps at least one poll interval between them. */
  ghost predicate Spaced(start: int, looks: seq<Look>) {
    && |looks| > CLOSE_WAIT_MS / POLL_MS
    && start <= looks[0].now
    && forall k :: 0 < k < |looks| ==> looks[k - 1].now + POLL_MS <= looks[k].now
  }

  /** After the bot asked for the end: looks until `closed` was answered or the wait is over,
      so at most 500 times however the clock runs. */
  method AwaitClose(start: int, looks: seq<Look>) returns (polls: nat, closed: bool)
    requires Spaced(start, looks)
    ensures polls <= 500 && polls < |looks|
    ensures closed == looks[polls].closedSent
    ensures forall k :: 0 <= k < polls ==> !looks[k].closedSent && looks[k].now < start + 10000
    ensures !closed ==> looks[polls].now >= start + 10000
  {
    polls := 0;
    while !looks[polls].closedSent && looks[polls].now < start + CLOSE_WAIT_MS
      invariant polls <= CLOSE_WAIT_MS / POLL_MS && polls < |looks|
      invariant looks[polls].now >= start + polls * POLL_MS
      invariant forall k :: 0 <= k < polls ==> !looks[k].closedSent && looks[k].now < start + CLOSE_WAIT_MS
      decreases |looks| - polls
    {
      assert looks[polls].now + POLL_MS <= looks[polls + 1].now;
      polls := polls + 1;
    }
    closed := looks[polls].closedSent;
  }
}
