/** `_Writer` as an object: the send loop with its buffer, marks and message queue updated
    in place, proved to be a run of the byte-clock machine.

    What the rest of the program does during each await, and how the await ends, is read
    from `script`; clock readings advance by `ticks`. Both are arbitrary, so the methods
    cover every interleaving. When the script is used up the task is cancelled. */
module WriterObject {
  import opened Base
  import opened ByteClock
  import opened ByteClockPaths
  import opened ByteClockTaking
  import R = ByteClockRuns
  import S = Session
  import SO = SessionObject
  import T = TextChannel

  const POLL: nat := 20

  datatype Ending = Succeeds | Raises | IsCancelled

  datatype Round = Round(env: seq<EnvAct>, ending: Ending)

  /** The awaits between two positions of the script all went on, but perhaps the last; a
      script that is used up cancels. */
  ghost predicate Goes(before: seq<Round>, after: seq<Round>, ending: Ending) {
    var n := |before| - |after|;
    && n >= 0 && after == before[n..] && (forall i :: 0 <= i < n - 1 ==> before[i].ending.Succeeds?)
    && if ending.Succeeds? then n > 0 ==> before[n - 1].ending.Succeeds?
       else
         || (n > 0 && before[n - 1].ending == ending)
         || (after == [] && ending.IsCancelled? && (n > 0 ==> before[n - 1].ending.Succeeds?))
  }

  lemma GoesOn(a: seq<Round>, b: seq<Round>, c: seq<Round>, ending: Ending)
    requires Goes(a, b, Succeeds) && Goes(b, c, ending)
    ensures Goes(a, c, ending)
  {
    var m, n := |a| - |b|, |b| - |c|;
    assert forall i :: 0 <= i < n ==> b[i] == a[m + i];
    assert c == a[m + n..];
  }

  /** An act of the environment that can be taken now. */
  predicate Possible(sess: S.Sess, now: nat, e: EnvAct) {
    match e
    case OnSession(act) => S.Enabled(sess, act)
    case OnText(act) => act.Send? || act.GiveUp? || act.ClientAdvance?
    case Bind => true
    case Tick(t) => t >= now
  }

  class Writer {
    const session: SO.VoiceSession
    const latency: nat
    var script: seq<Round>
    var ticks: seq<nat>
    var clock: nat

    var text: seq<T.Item>
    var futs: seq<T.Fut>
    var seqNo: nat
    var clientSeq: nat
    var bound: bool
    var buffer: seq<byte>
    var marks: seq<Mark>
    var nextSend: nat
    var lastAudioIn: Option<nat>
    var failed: bool
    var sentBytes: nat
    var lastMark: Option<(S.Key, nat)>

    ghost var st: State
    ghost var states: seq<State>
    ghost var acts: seq<Act>
    ghost const first: State

    /** The fields are those of a machine state. */
    ghost predicate FieldsOf(s: State)
      reads this
    {
      && s.latency == latency && s.time == clock && s.bound == bound
      && s.text.queue == text && s.text.futs == futs && s.text.seqNo == seqNo
      && s.text.clientSeq == clientSeq && s.text.failed == failed
      && s.buffer == buffer && s.marks == marks && s.nextSend == nextSend
      && s.lastAudioIn == lastAudioIn && s.sent == sentBytes && s.lastMark == lastMark
    }

    /** Everything done so far is a run of the machine, from the start to the current state. */
    ghost predicate Traced()
      reads this
    {
      IsPath(states, acts) && states[0] == first == Start(first.sess, latency) && states[|acts|] == st
    }

    ghost predicate Valid()
      reads this, session
    {
      FieldsOf(st) && st.sess == session.Value() && Traced()
    }

    constructor (session: SO.VoiceSession, latency: nat, script: seq<Round>, ticks: seq<nat>)
      ensures Valid() && this.session == session && this.latency == latency && this.script == script
      ensures first == Start(session.Value(), latency) && st == first && acts == []
    {
      this.session, this.latency, this.script, this.ticks, this.clock := session, latency, script, ticks, 0;
      text, futs, seqNo, clientSeq, failed := [], [], 0, 0, false;
      bound, buffer, marks, nextSend, lastAudioIn := false, [], [], 0, None;
      sentBytes, lastMark := 0, None;
      first := Start(session.Value(), latency);
      st := Start(session.Value(), latency);
      states, acts := [Start(session.Value(), latency)], [];
    }

    /** Records one act of the machine. */
    ghost method Do(a: Act)
      requires Traced() && Enabled(st, a)
      modifies `st, `states, `acts
      ensures Traced() && st == Next(old(st), a)
      ensures acts == old(acts) + [a] && states == old(states) + [st]
    {
      var u := Next(st, a);
      Grow(states, acts, a, u);
      st := u;
      states := states + [u];
      acts := acts + [a];
    }

    /** A clock reading, not below the previous one. */
    method Now() returns (t: nat)
      modifies `ticks
      ensures t >= clock
    {
      t := clock;
      if ticks != [] {
        t := clock + ticks[0];
        ticks := ticks[1..];
      }
    }

    // ---- what other tasks do

    method Send(body: string) returns (fut: nat)
      requires Valid() && Suspended(st.pc)
      modifies this
      ensures Valid() && st == Next(old(st), Env(OnText(T.Send(body)))) && fut == |old(futs)|
      ensures script == old(script)
    {
      fut := Enqueue(body);
      Do(Env(OnText(T.Send(body))));
    }

    method Enqueue(body: string) returns (fut: nat)
      requires FieldsOf(st)
      modifies `text, `futs
      ensures fut == |old(futs)| && FieldsOf(st.(text := T.Next(st.text, T.Send(body))))
    {
      fut := |futs|;
      if failed {
        futs := futs + [T.ResolvedFalse];
      } else {
        text := text + [T.Item(fut, body)];
        futs := futs + [T.Pending];
      }
    }

    /** The owner of a future gives up waiting for it. */
    method GiveUp(id: nat)
      requires Valid() && Suspended(st.pc)
      modifies this
      ensures Valid() && st == Next(old(st), Env(OnText(T.GiveUp(id)))) && script == old(script)
    {
      if id < |futs| && futs[id].Pending? { futs := futs[id := T.Cancelled]; }
      Do(Env(OnText(T.GiveUp(id))));
    }

    method OtherSide(act: S.Act)
      requires Valid() && Suspended(st.pc) && S.Enabled(session.Value(), act)
      modifies session, `st, `states, `acts
      ensures Valid() && st == Next(old(st), Env(OnSession(act)))
    {
      session.Apply(act);
      Do(Env(OnSession(act)));
    }

    method Perform(e: EnvAct)
      requires Valid() && Suspended(st.pc) && Possible(session.Value(), clock, e)
      modifies this, session
      ensures Valid() && st == Next(old(st), Env(e)) && script == old(script)
    {
      match e {
        case OnSession(act) => OtherSide(act);
        case OnText(Send(body)) => var _ := Send(body);
        case OnText(GiveUp(id)) => GiveUp(id);
        case OnText(ClientAdvance(n)) => ClientAdvances(n);
        case Bind => BindSession();
        case Tick(t) => TimePasses(t);
      }
    }

    method ClientAdvances(n: nat)
      requires Valid() && Suspended(st.pc)
      modifies `clientSeq, `st, `states, `acts
      ensures Valid() && st == Next(old(st), Env(OnText(T.ClientAdvance(n))))
    {
      clientSeq := clientSeq + n;
      Do(Env(OnText(T.ClientAdvance(n))));
    }

    method BindSession()
      requires Valid() && Suspended(st.pc)
      modifies `bound, `st, `states, `acts
      ensures Valid() && st == Next(old(st), Env(Bind))
    {
      bound := true;
      Do(Env(Bind));
    }

    method TimePasses(t: nat)
      requires Valid() && Suspended(st.pc) && t >= clock
      modifies `clock, `st, `states, `acts
      ensures Valid() && st == Next(old(st), Env(Tick(t)))
    {
      clock := t;
      Do(Env(Tick(t)));
    }

    /** What an await leaves alone while other tasks run. */
    twostate predicate OnlyOthersActed()
      reads this
    {
      && st.pc == old(st.pc)
      && buffer == old(buffer) && marks == old(marks) && nextSend == old(nextSend) && lastAudioIn == old(lastAudioIn)
      && sentBytes == old(sentBytes) && lastMark == old(lastMark) && seqNo == old(seqNo) && failed == old(failed)
      && st.text.draft == old(st.text.draft) && (!failed ==> old(text) <= text)
      && st.flight == old(st.flight) && st.packets == old(st.packets) && st.wire == old(st.wire)
    }

    /** Suspends the writer for one round of the script. */
    method Await() returns (ending: Ending)
      requires Valid() && Suspended(st.pc)
      modifies this, session
      ensures Valid() && OnlyOthersActed()
      ensures old(script) == [] ==> script == [] && ending.IsCancelled?
      ensures old(script) != [] ==> script == old(script)[1..] && ending == old(script)[0].ending
    {
      if script == [] { return IsCancelled; }
      var round := script[0];
      script := script[1..];
      ending := round.ending;
      ghost var rest := script;
      for i := 0 to |round.env|
        invariant Valid() && OnlyOthersActed() && script == rest
      {
        if Possible(session.Value(), clock, round.env[i]) { Perform(round.env[i]); }
      }
    }

    // ---- the writer's own methods

    /** The writer may write: it has not failed and no message is under way. */
    ghost predicate Ready()
      reads this
    {
      !failed && st.text.draft.None?
    }

    /** Numbers the first queued text and hands it to the socket. */
    method WriteHead() returns (ending: Ending)
      requires Valid() && Ready() && st.pc.Top? && text != []
      modifies this, session
      ensures Valid() && st.pc.FlushAwait? && !failed && text != []
      ensures st.text.draft.Some? && st.text.draft.value.source.Queued?
      ensures ending.Succeeds? ==> |script| < |old(script)|
      ensures Goes(old(script), script, ending)
    {
      seqNo := seqNo + 1;
      Do(FlushBegin);
      ending := Await();
    }

    /** The socket accepted the first queued text. */
    method HeadWritten()
      requires Valid() && !failed && st.pc.FlushAwait? && T.Enabled(st.text, T.EndHead)
      modifies this
      ensures Valid() && Ready() && st == Next(old(st), FlushDone) && script == old(script)
    {
      var fut := text[0].fut;
      text := text[1..];
      if fut < |futs| && futs[fut].Pending? { futs := futs[fut := T.ResolvedTrue]; }
      Do(FlushDone);
    }

    /** Writes every queued text; their futures become True. */
    method FlushText() returns (ending: Ending)
      requires Valid() && Ready() && st.pc.Top?
      modifies this, session
      ensures Valid()
      ensures ending.Succeeds? ==> st.pc.Top? && text == [] && Ready() && |script| <= |old(script)|
      ensures !ending.Succeeds? ==> st.pc.FlushAwait? && !failed
      ensures Goes(old(script), script, ending)
    {
      ending := Succeeds;
      while text != []
        invariant Valid() && Ready() && st.pc.Top? && ending.Succeeds? && Goes(old(script), script, ending)
        decreases |script|
      {
        ghost var was := script;
        ending := WriteHead();
        GoesOn(old(script), was, script, ending);
        if !ending.Succeeds? { return; }
        HeadWritten();
      }
    }

    /** Moves everything on the outbound queue to the buffer. */
    method Drain(now: nat)
      modifies `buffer, `lastAudioIn, session`outbound
      ensures buffer == old(buffer) + Concat(old(session.outbound)) && session.outbound == []
      ensures session.Value() == old(session.Value()).(outbound := [])
      ensures lastAudioIn == if old(session.outbound) != [] then Some(now) else old(lastAudioIn)
    {
      var received := false;
      while session.outbound != []
        invariant buffer + Concat(session.outbound) == old(buffer) + Concat(old(session.outbound))
        invariant received <==> session.outbound != old(session.outbound)
        invariant |session.outbound| <= |old(session.outbound)|
        invariant lastAudioIn == old(lastAudioIn)
        decreases |session.outbound|
      {
        buffer := buffer + session.outbound[0];
        session.outbound := session.outbound[1..];
        received := true;
      }
      if received { lastAudioIn := Some(now); }
    }

    /** Tracks every queued mark whose waiter is still registered. */
    method TakeMarks(now: nat, ghost pos: nat)
      modifies `marks, session`markQueue
      ensures session.markQueue == [] && session.Value() == old(session.Value()).(markQueue := [])
      ensures marks == old(marks) + Taken(old(session.markQueue), session.pending, sentBytes + |buffer|,
                                          if buffer == [] then Some(now) else None, pos)
      ensures exists at :: TakenAt(old(session.markQueue), session.pending, at, marks[|old(marks)|..])
    {
      var target := sentBytes + |buffer|;
      var anchor := if target == sentBytes then Some(now) else None;
      while session.markQueue != []
        invariant marks + Taken(session.markQueue, session.pending, target, anchor, pos)
               == old(marks) + Taken(old(session.markQueue), session.pending, target, anchor, pos)
        decreases |session.markQueue|
      {
        var name := session.markQueue[0];
        session.markQueue := session.markQueue[1..];
        if name in session.pending {
          marks := marks + [Mark(name, target, anchor, pos)];
        }
      }
      ghost var at := TakenPositions(old(session.markQueue), session.pending, target, anchor, pos);
      ghost var added := Taken(old(session.markQueue), session.pending, target, anchor, pos);
      assert marks + [] == marks;
      TailOfSum(old(marks), added);
    }

    static lemma TailOfSum(x: seq<Mark>, y: seq<Mark>)
      ensures (x + y)[|x|..] == y
    {}

    method IsAnyUnanchored() returns (any: bool)
      ensures any <==> Unanchored(marks)
    {
      any := false;
      for i := 0 to |marks|
        invariant !any && forall j :: 0 <= j < i ==> marks[j].anchor.Some?
      {
        if marks[i].anchor.None? { return true; }
      }
    }

    /** Takes a full packet, or a padded one if padding is allowed, from the buffer. */
    method CutPacket(now: nat) returns (packet: Option<seq<byte>>)
      requires Valid() && st.pc == AtPacket(now) && Due(buffer, nextSend, now)
      modifies this
      ensures Valid() && st == Next(old(st), Cut) && script == old(script)
      ensures packet.Some? <==> st.pc.SendAwait?
      ensures packet.Some? ==> packet.value == Padded(st.flight) && |packet.value| == PACKET_BYTES
    {
      packet := None;
      if |buffer| >= PACKET_BYTES {
        packet := Some(buffer[..PACKET_BYTES]);
        buffer := buffer[PACKET_BYTES..];
      } else {
        var waiting := IsAnyUnanchored();
        if waiting || (lastAudioIn.Some? && now >= lastAudioIn.value + PACKET_INTERVAL) {
          packet := Some(Padded(buffer));
          buffer := [];
        }
      }
      Do(Cut);
    }

    /** The socket accepted a packet. */
    method PacketAccepted(size: nat) returns (sentAt: nat)
      requires Valid() && st.pc.SendAwait? && size == PACKET_BYTES
      modifies this
      ensures sentAt >= old(clock) && Valid() && st == Next(old(st), SentOk(sentAt)) && script == old(script)
    {
      sentAt := Now();
      AdvanceTo(size, sentAt);
      Do(SentOk(sentAt));
    }

    method AdvanceTo(size: nat, sentAt: nat)
      requires FieldsOf(st) && st.pc.SendAwait? && size == PACKET_BYTES && sentAt >= clock
      modifies `sentBytes, `nextSend, `marks, `clock
      ensures FieldsOf(Land(st, sentAt))
    {
      sentBytes := sentBytes + size;
      nextSend := sentAt + PACKET_INTERVAL;
      AnchorMarks(sentAt);
      clock := sentAt;
    }

    /** Sends one packet if there is enough audio or it may be padded. */
    method SendPacket(now: nat) returns (ending: Ending)
      requires Valid() && Ready() && st.pc == AtPacket(now) && Due(buffer, nextSend, now)
      modifies this, session
      ensures Valid()
      ensures ending.Succeeds? ==> st.pc.AtResolve? && Ready() && |script| <= |old(script)|
      ensures !ending.Succeeds? ==> st.pc.SendAwait? && !failed
      ensures Goes(old(script), script, ending)
    {
      ending := Succeeds;
      var packet := CutPacket(now);
      if packet.None? { return; }
      ending := Await();
      if !ending.Succeeds? { return; }
      var _ := PacketAccepted(|packet.value|);
    }

    method AnchorMarks(sentAt: nat)
      modifies `marks
      ensures marks == Anchor(old(marks), sentBytes, sentAt)
    {
      for i := 0 to |marks|
        invariant |marks| == |old(marks)|
        invariant forall j :: i <= j < |marks| ==> marks[j] == old(marks[j])
        invariant forall j :: 0 <= j < i ==> marks[j] == Anchor(old(marks), sentBytes, sentAt)[j]
      {
        if marks[i].anchor.None? && marks[i].target <= sentBytes {
          marks := marks[i := marks[i].(anchor := Some(sentAt))];
        }
      }
    }

    /** Releases the waiters of the leading marks that are due, in order. */
    method PopDueMarks(now: nat) returns (ghost n: nat)
      modifies `marks, `lastMark, session`waiters
      ensures n == DueMarks(old(marks), now, latency) && marks == old(marks)[n..]
      ensures lastMark == if n == 0 then old(lastMark) else Some((old(marks)[n - 1].name, now))
      ensures session.Value() == S.SignalAll(old(session.Value()), Names(old(marks)[..n]))
    {
      ghost var was := marks;
      ghost var sess := session.Value();
      n := 0;
      S.SignalNone(sess);
      while marks != [] && marks[0].anchor.Some? && now >= marks[0].anchor.value + latency
        invariant n <= |was| && marks == was[n..] && DueMarks(was, now, latency) == n + DueMarks(marks, now, latency)
        invariant session.Value() == S.SignalAll(sess, Names(was[..n]))
        invariant lastMark == if n == 0 then old(lastMark) else Some((was[n - 1].name, now))
        decreases |marks|
      {
        var head := PopFirst(now);
        S.SignalOneMore(sess, Names(was[..n]), head.name);
        NamesSnoc(was, n);
        n := n + 1;
      }
    }

    method PopFirst(now: nat) returns (head: Mark)
      requires marks != []
      modifies `marks, `lastMark, session`waiters
      ensures head == old(marks)[0] && marks == old(marks)[1..] && lastMark == Some((head.name, now))
      ensures session.Value() == S.SignalAll(old(session.Value()), {head.name})
    {
      head := marks[0];
      marks := marks[1..];
      session.SignalMarkReceived(head.name);
      lastMark := Some((head.name, now));
    }

    static lemma NamesSnoc(marks: seq<Mark>, n: nat)
      requires n < |marks|
      ensures Names(marks[..n + 1]) == Names(marks[..n]) + {marks[n].name}
    {
      var more, fewer := marks[..n + 1], marks[..n];
      forall x | x in Names(more) ensures x in Names(fewer) + {marks[n].name} {
        var i :| 0 <= i < |more| && more[i].name == x;
        assert i < n ==> fewer[i] == more[i];
      }
      forall x | x in Names(fewer) ensures x in Names(more) {
        var i :| 0 <= i < |fewer| && fewer[i].name == x;
        assert fewer[i] == more[i];
      }
      assert more[n] == marks[n];
    }

    method ResolveMarks(now: nat)
      requires Valid() && st.pc.AtResolve? && now >= clock
      modifies this, session`waiters
      ensures Valid() && st == Next(old(st), Resolve(now)) && script == old(script)
      ensures st.pc == Sleeping && st.text == old(st.text) && failed == old(failed)
    {
      PopAndSignal(now);
      Do(Resolve(now));
    }

    method PopAndSignal(now: nat)
      requires FieldsOf(st) && st.sess == session.Value()
      modifies `marks, `lastMark, `clock, session`waiters
      ensures FieldsOf(ResolveDue(st, now)) && ResolveDue(st, now).sess == session.Value()
    {
      ghost var n := PopDueMarks(now);
      clock := now;
    }

    /** Discards what is queued, tells the peer and releases every registered waiter. */
    method BargeIn(queue: nat) returns (ending: Ending)
      requires Valid() && Ready() && st.pc.Clears? && st.pc.queue == Some(queue)
      requires ClearsLeft(session.Value(), Some(queue)) > 0
      modifies this, session
      ensures Valid()
      ensures ending.Succeeds? ==> st.pc == old(st.pc) && Ready() && |script| < |old(script)|
      ensures !ending.Succeeds? ==> st.pc.BargeAwait? && !failed
      ensures Goes(old(script), script, ending)
    {
      var names := DropQueued(queue);
      ending := Await();
      if !ending.Succeeds? { return; }
      EventWritten(names);
    }

    /** The part of a barge-in before its event is written. */
    method DropQueued(queue: nat) returns (names: set<S.Key>)
      requires Valid() && Ready() && st.pc.Clears? && st.pc.queue == Some(queue)
      requires ClearsLeft(session.Value(), Some(queue)) > 0
      modifies this, session
      ensures Valid() && st == Next(old(st), BargeBegin) && script == old(script) && !failed && names == st.pc.names
    {
      DropOutbound(queue);
      buffer := [];
      lastAudioIn := None;
      names := session.pending.Keys;
      seqNo := seqNo + 1;
      Do(BargeBegin);
    }

    method DropOutbound(queue: nat)
      requires queue < |session.clearQueues| && session.clearQueues[queue] > 0
      modifies session
      ensures session.Value() == old(session.Value()).(
                clearQueues := old(session.clearQueues)[queue := old(session.clearQueues)[queue] - 1],
                outbound := [], markQueue := [])
    {
      session.clearQueues := session.clearQueues[queue := session.clearQueues[queue] - 1];
      session.DrainAudioAndMarks();
    }

    /** The part after it: waiters are released and their marks dropped. */
    method EventWritten(names: set<S.Key>)
      requires Valid() && !failed && st.pc.BargeAwait? && st.pc.names == names && T.Enabled(st.text, T.EndEvent)
      modifies this, session
      ensures Valid() && Ready() && st == Next(old(st), BargeDone) && script == old(script)
    {
      SignalNames(names);
      DropMarks(names);
      Do(BargeDone);
    }

    method SignalNames(names: set<S.Key>)
      modifies session`waiters
      ensures session.Value() == S.SignalAll(old(session.Value()), names)
    {
      ghost var sess := session.Value();
      var todo := names;
      S.SignalNone(sess);
      assert names - todo == {};
      while todo != {}
        invariant todo <= names && session.Value() == S.SignalAll(sess, names - todo)
        decreases |todo|
      {
        var name :| name in todo;
        session.SignalMarkReceived(name);
        S.SignalOneMore(sess, names - todo, name);
        assert names - (todo - {name}) == names - todo + {name};
        todo := todo - {name};
      }
      assert names - todo == names;
    }

    /** Keeps the marks whose name is not given. */
    method DropMarks(names: set<S.Key>)
      modifies `marks
      ensures marks == Without(old(marks), names)
    {
      var kept: seq<Mark> := [];
      var rest := marks;
      while rest != []
        invariant kept + Without(rest, names) == Without(old(marks), names)
        decreases |rest|
      {
        if rest[0].name !in names { kept := kept + [rest[0]]; }
        rest := rest[1..];
      }
      marks := kept;
    }

    /** One pass: barge-ins first, then audio and marks, at most one packet, resolution. */
    method Service() returns (ending: Ending)
      requires Valid() && Ready() && st.pc.Top? && text == [] && bound
      modifies this, session
      ensures Valid()
      ensures ending.Succeeds? ==> st.pc.Sleeping? && Ready() && |script| <= |old(script)|
      ensures !ending.Succeeds? ==> Suspended(st.pc) && !st.pc.Stopped? && !st.pc.Sleeping? && !failed
      ensures Goes(old(script), script, ending)
    {
      var now := BeginPass();
      ending := HandleClears(st.pc);
      if !ending.Succeeds? { return; }
      ghost var was := script;
      ending := TakeAndSend(now);
      GoesOn(old(script), was, script, ending);
      if !ending.Succeeds? { return; }
      var t := Now();
      ResolveMarks(t);
    }

    method TakeAndSend(now: nat) returns (ending: Ending)
      requires Valid() && Ready() && st.pc.Clears? && st.pc.now == now && ClearsLeft(session.Value(), st.pc.queue) == 0
      modifies this, session
      ensures Valid()
      ensures ending.Succeeds? ==> st.pc.AtResolve? && Ready() && |script| <= |old(script)|
      ensures !ending.Succeeds? ==> st.pc.SendAwait? && !failed
      ensures Goes(old(script), script, ending)
    {
      TakeQueued(now);
      ending := SendIfDue(now);
    }

    method SendIfDue(now: nat) returns (ending: Ending)
      requires Valid() && Ready() && st.pc == AtPacket(now)
      modifies this, session
      ensures Valid()
      ensures ending.Succeeds? ==> st.pc.AtResolve? && Ready() && |script| <= |old(script)|
      ensures !ending.Succeeds? ==> st.pc.SendAwait? && !failed
      ensures Goes(old(script), script, ending)
    {
      ending := Succeeds;
      if Due(buffer, nextSend, now) {
        ending := SendPacket(now);
      } else {
        Do(Cut);
      }
    }

    method BeginPass() returns (now: nat)
      requires Valid() && Ready() && st.pc.Top? && text == [] && bound
      modifies this
      ensures Valid() && Ready() && now >= old(clock) && st == Next(old(st), Serve(now)) && script == old(script)
    {
      now := Now();
      clock := now;
      Do(Serve(now));
    }

    /** Serves every request on the clear queue seen when the pass began. */
    method HandleClears(ghost pc: Phase) returns (ending: Ending)
      requires Valid() && Ready() && st.pc == pc && pc.Clears? && pc.queue == session.clearQueue
      modifies this, session
      ensures Valid()
      ensures ending.Succeeds? ==>
                st.pc == pc && Ready() && ClearsLeft(session.Value(), pc.queue) == 0 && |script| <= |old(script)|
      ensures !ending.Succeeds? ==> st.pc.BargeAwait? && !failed
      ensures Goes(old(script), script, ending)
    {
      ending := Succeeds;
      var clears := session.clearQueue;
      while clears.Some? && ClearsLeft(session.Value(), clears) > 0
        invariant Valid() && Ready() && st.pc == pc && ending.Succeeds? && Goes(old(script), script, ending)
        decreases |script|
      {
        ghost var was := script;
        ending := BargeIn(clears.value);
        GoesOn(old(script), was, script, ending);
        if !ending.Succeeds? { return; }
      }
    }

    method TakeQueued(now: nat)
      requires Valid() && Ready() && st.pc.Clears? && st.pc.now == now && ClearsLeft(session.Value(), st.pc.queue) == 0
      modifies this, session
      ensures Valid() && Ready() && st == Next(old(st), Take) && script == old(script)
    {
      DrainAndTake(now);
      Do(Take);
    }

    method DrainAndTake(now: nat)
      requires FieldsOf(st) && st.sess == session.Value() && Enabled(st, Take) && st.pc.now == now
      modifies `buffer, `lastAudioIn, `marks, session`outbound, session`markQueue
      ensures FieldsOf(TakeAll(st)) && TakeAll(st).sess == session.Value()
    {
      assert TakeAll(st).sess == st.sess.(outbound := [], markQueue := []);
      Drain(now);
      TakeMarks(now, |st.cells|);
    }

    /** How long to sleep: never past the moment the next packet is due. */
    method WaitTime() returns (ms: nat, ghost now: nat)
      modifies `ticks
      ensures 0 < ms <= 20 && now >= clock
      ensures buffer != [] && now < nextSend ==> now + ms <= nextSend
      ensures ms < 20 ==> buffer != [] && now + ms == nextSend
    {
      ms, now := POLL, clock;
      if buffer != [] {
        var reading := Now();
        now := reading;
        if reading < nextSend && nextSend - reading < POLL { ms := nextSend - reading; }
      }
    }

    /** The run loop: flush, serve, sleep. It ends only with an await that does not succeed. */
    method Loop() returns (ending: Ending, ghost raw: Ending)
      requires Valid() && Ready() && st.pc.Top?
      modifies this, session
      ensures Valid() && Suspended(st.pc) && !st.pc.Stopped? && !failed && !ending.Succeeds?
      ensures ending.Raises? ==> st.pc.FlushAwait? || st.pc.BargeAwait? || st.pc.SendAwait?
      ensures Goes(old(script), script, raw) && ending == if raw.Raises? && st.pc.Sleeping? then IsCancelled else raw
    {
      ending, raw := Succeeds, Succeeds;
      while ending.Succeeds?
        invariant Valid() && !failed && Goes(old(script), script, raw)
        invariant ending.Succeeds? ==> Ready() && st.pc.Top? && raw.Succeeds?
        invariant !ending.Succeeds? ==> Suspended(st.pc) && !st.pc.Stopped?
        invariant !ending.Succeeds? ==> ending == if raw.Raises? && st.pc.Sleeping? then IsCancelled else raw
        decreases |script|, ending.Succeeds?
      {
        ghost var was := script;
        ending, raw := OneRound();
        GoesOn(old(script), was, script, raw);
      }
    }

    /** One round of it. */
    method OneRound() returns (ending: Ending, ghost raw: Ending)
      requires Valid() && Ready() && st.pc.Top?
      modifies this, session
      ensures Valid() && !failed && Goes(old(script), script, raw)
      ensures ending.Succeeds? ==> Ready() && st.pc.Top? && raw.Succeeds? && |script| < |old(script)|
      ensures !ending.Succeeds? ==> Suspended(st.pc) && !st.pc.Stopped?
      ensures !ending.Succeeds? ==> ending == if raw.Raises? && st.pc.Sleeping? then IsCancelled else raw
    {
      ending := FlushText();
      raw := ending;
      if !ending.Succeeds? { return; }
      ghost var flushed := script;
      ending := ServeIfBound();
      raw := ending;
      GoesOn(old(script), flushed, script, ending);
      if !ending.Succeeds? { return; }
      ghost var served := script;
      ending, raw := SleepOnce();
      GoesOn(old(script), served, script, raw);
    }

    /** The end of a round; a sleep can only be cancelled. `raw` is how its await ended. */
    method SleepOnce() returns (ending: Ending, ghost raw: Ending)
      requires Valid() && Ready() && st.pc.Sleeping?
      modifies this, session
      ensures Valid() && !failed && |script| <= |old(script)| && Goes(old(script), script, raw)
      ensures ending == if raw.Raises? then IsCancelled else raw
      ensures ending.Succeeds? ==> Ready() && st.pc.Top? && |script| < |old(script)|
      ensures ending.IsCancelled? ==> st.pc.Sleeping?
    {
      var _, _ := WaitTime();
      ending := Await();
      raw := ending;
      if ending.Succeeds? {
        Do(Wake);
      } else {
        ending := IsCancelled;
      }
    }

    method ServeIfBound() returns (ending: Ending)
      requires Valid() && Ready() && st.pc.Top? && text == []
      modifies this, session
      ensures Valid()
      ensures ending.Succeeds? ==> st.pc.Sleeping? && Ready() && |script| <= |old(script)|
      ensures !ending.Succeeds? ==> Suspended(st.pc) && !st.pc.Stopped? && !st.pc.Sleeping? && !failed
      ensures Goes(old(script), script, ending)
    {
      ending := Succeeds;
      if bound {
        ending := Service();
      } else {
        Do(Idle);
      }
    }

    /** A socket error ends the writer: every message still queued is answered False. */
    method FailEverything()
      requires Valid() && !failed && (st.pc.FlushAwait? || st.pc.BargeAwait? || st.pc.SendAwait?)
      modifies this
      ensures Valid() && st == Next(old(st), Fail) && failed && script == old(script)
      ensures |acts| > 0 && states[|acts| - 1] == old(st)
    {
      GiveUpTexts();
      Do(Fail);
    }

    method GiveUpTexts()
      requires FieldsOf(st) && Enabled(st, Fail)
      modifies `failed, `text, `futs
      ensures FieldsOf(FailNow(st))
    {
      failed := true;
      AnswerFalse();
      text := [];
    }

    method AnswerFalse()
      modifies `futs
      ensures futs == T.SettleQueued(old(futs), text)
    {
      var queued := text;
      while queued != []
        invariant T.SettleQueued(futs, queued) == T.SettleQueued(old(futs), text)
        decreases |queued|
      {
        futs := T.Settle(futs, queued[0].fut, T.ResolvedFalse);
        queued := queued[1..];
      }
    }

    /** Every object that was run has kept all invariants of the machine. */
    lemma Sound()
      requires Valid()
      ensures R.Inv(st)
    {
      R.EveryRunIsSound(states, acts, first.sess, latency, |acts|);
    }

    /** The handlers of `run`: a raised error fails the writer, a cancel just ends it. */
    method EndTask(raised: bool)
      requires Valid() && Suspended(st.pc) && !st.pc.Stopped? && !failed
      requires raised ==> st.pc.FlushAwait? || st.pc.BargeAwait? || st.pc.SendAwait?
      modifies this
      ensures Valid() && st.pc.Stopped? && failed == raised && script == old(script)
      ensures |acts| > 0 && states[|acts| - 1] == old(st)
    {
      if raised {
        FailEverything();
      } else {
        Do(Cancel);
      }
    }

    /** The writer's task, until it fails, is cancelled or the script ends. After a
        failure no future is pending, and one is True exactly when its message went out. It
        fails exactly when the last await raises and is no sleep, and no earlier one did. */
    method Run() returns (ghost raw: Ending)
      requires Valid() && Ready() && st.pc.Top?
      modifies this, session
      ensures Valid() && st.pc.Stopped? && R.Inv(st)
      ensures failed ==> text == [] && forall id :: 0 <= id < |futs| && !futs[id].Cancelled? ==>
                futs[id] == if id < T.FromQueue(st.text.log) then T.ResolvedTrue else T.ResolvedFalse
      ensures Goes(old(script), script, raw) && !raw.Succeeds?
      ensures acts != [] && (failed <==> raw.Raises? && !states[|acts| - 1].pc.Sleeping?)
    {
      var ending;
      ending, raw := Loop();
      EndTask(ending.Raises?);
      Sound();
    }
  }
}
