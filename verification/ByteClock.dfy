/** The AudioHook send loop as a state machine (_audiohook_writer.py).

    A writer act is a stretch of the single writer task that contains no await; `Phase`
    says where the task stands. Everything another task or thread does is an `Env` act
    and happens only while the writer is suspended in an await (or has ended). Times are
    integer milliseconds; every reading of the clock may return any value not below the
    previous one. */
module ByteClock {
  import opened Base
  import opened History
  import S = Session
  import T = TextChannel

  const PACKET_BYTES: nat := 1600
  const PACKET_INTERVAL: nat := 200
  const PAD_BYTE: byte := 0xFF

  /** `target` and `anchor` are the source's; `pos` is how many bytes had been handed to
      the session when the writer took the mark from the mark queue. */
  datatype Mark = Mark(name: S.Key, target: nat, anchor: Option<nat>, ghost pos: nat)

  /** A binary message: its bytes, how many of them are audio, when it was started and
      when the socket had accepted it. */
  datatype Packet = Packet(data: seq<byte>, fill: nat, start: nat, end: nat)

  datatype Resolved = Resolved(mark: Mark, at: nat)

  datatype Phase =
    | Top                                                        // head of the run loop
    | FlushAwait                                                 // writing the first queued text
    | Clears(now: nat, queue: Option<nat>)                       // looking for clear requests
    | BargeAwait(now: nat, queue: Option<nat>, names: set<S.Key>) // writing the barge_in event
    | AtPacket(now: nat)                                         // marks taken, packet not yet cut
    | SendAwait(start: nat)                                      // writing a packet
    | AtResolve                                                  // about to resolve marks
    | Sleeping
    | Stopped                                                    // failed or cancelled

  datatype State = State(
    sess: S.Sess,
    text: T.Text,
    latency: nat,
    bound: bool,
    pc: Phase,
    time: nat,
    buffer: seq<byte>,
    flight: seq<byte>,
    marks: seq<Mark>,
    nextSend: nat,
    lastAudioIn: Option<nat>,
    sent: nat,
    lastMark: Option<(S.Key, nat)>,
    cells: seq<Cell>,
    wire: seq<byte>,
    packets: seq<Packet>,
    resolved: seq<Resolved>)

  datatype EnvAct =
    | OnSession(act: S.Act)
    | OnText(textAct: T.Act)
    | Bind
    | Tick(t: nat)

  datatype Act =
    | FlushBegin
    | FlushDone
    | Idle
    | Serve(t: nat)
    | BargeBegin
    | BargeDone
    | Take
    | Cut
    | SentOk(t: nat)
    | Resolve(t: nat)
    | Wake
    | Fail
    | Cancel
    | Env(env: EnvAct)

  ghost function Start(sess: S.Sess, latency: nat): State {
    State(sess, T.SILENT, latency, false, Top, 0, [], [], [], 0, None, 0, None,
          Arrived(Concat(sess.outbound)), [], [], [])
  }

  predicate Suspended(pc: Phase) {
    pc.FlushAwait? || pc.BargeAwait? || pc.SendAwait? || pc.Sleeping? || pc.Stopped?
  }

  function ClearsLeft(sess: S.Sess, queue: Option<nat>): nat {
    if queue.Some? && queue.value < |sess.clearQueues| then sess.clearQueues[queue.value] else 0
  }

  predicate Unanchored(marks: seq<Mark>) { exists i :: 0 <= i < |marks| && marks[i].anchor.None? }

  /** A short packet may be padded: a mark waits for it, or no audio came for 200 ms. */
  predicate ShouldPad(marks: seq<Mark>, lastAudioIn: Option<nat>, now: nat) {
    Unanchored(marks) || (lastAudioIn.Some? && now >= lastAudioIn.value + PACKET_INTERVAL)
  }

  /** The marks taken from the mark queue: names no longer pending are dropped. */
  ghost function Taken(
      names: seq<S.Key>, pending: map<S.Key, nat>, target: nat, anchor: Option<nat>, pos: nat): seq<Mark>
  {
    if names == [] then []
    else (if names[0] in pending then [Mark(names[0], target, anchor, pos)] else [])
         + Taken(names[1..], pending, target, anchor, pos)
  }

  ghost function Anchor(marks: seq<Mark>, sent: nat, at: nat): (r: seq<Mark>)
    ensures |r| == |marks|
  {
    seq(|marks|, i requires 0 <= i < |marks| =>
      if marks[i].anchor.None? && marks[i].target <= sent then marks[i].(anchor := Some(at)) else marks[i])
  }

  /** How many leading marks are anchored and have waited out the latency. */
  ghost function DueMarks(marks: seq<Mark>, now: nat, latency: nat): (n: nat)
    ensures n <= |marks|
  {
    if marks == [] || marks[0].anchor.None? || now < marks[0].anchor.value + latency then 0
    else 1 + DueMarks(marks[1..], now, latency)
  }

  ghost function Names(marks: seq<Mark>): set<S.Key> { set i | 0 <= i < |marks| :: marks[i].name }

  /** The marks whose name is not in a set, in order. */
  ghost function Without(marks: seq<Mark>, names: set<S.Key>): seq<Mark> {
    if marks == [] then []
    else (if marks[0].name in names then [] else [marks[0]]) + Without(marks[1..], names)
  }

  ghost predicate Enabled(s: State, a: Act) {
    match a
    case FlushBegin => s.pc.Top? && T.Enabled(s.text, T.BeginHead)
    case FlushDone => s.pc.FlushAwait? && T.Enabled(s.text, T.EndHead)
    case Idle => s.pc.Top? && s.text.queue == [] && !s.bound
    case Serve(t) => s.pc.Top? && s.text.queue == [] && s.bound && t >= s.time
    case BargeBegin => s.pc.Clears? && ClearsLeft(s.sess, s.pc.queue) > 0 && T.Enabled(s.text, T.BeginEvent)
    case BargeDone => s.pc.BargeAwait? && T.Enabled(s.text, T.EndEvent)
    case Take => s.pc.Clears? && ClearsLeft(s.sess, s.pc.queue) == 0
    case Cut => s.pc.AtPacket?
    case SentOk(t) => s.pc.SendAwait? && t >= s.time
    case Resolve(t) => s.pc.AtResolve? && t >= s.time
    case Wake => s.pc.Sleeping?
    case Fail => (s.pc.FlushAwait? || s.pc.BargeAwait? || s.pc.SendAwait?) && !s.text.failed
    case Cancel => Suspended(s.pc)
    case Env(OnSession(act)) => Suspended(s.pc) && S.Enabled(s.sess, act)
    case Env(OnText(act)) => Suspended(s.pc) && (act.Send? || act.GiveUp? || act.ClientAdvance?)
    case Env(Bind) => Suspended(s.pc)
    case Env(Tick(t)) => Suspended(s.pc) && t >= s.time
  }

  /** Everything queued is discarded and the names pending now are remembered. */
  ghost function BeginBarge(s: State): State
    requires Enabled(s, BargeBegin)
  {
    var q := s.pc.queue.value;
    s.(sess := s.sess.(outbound := [], markQueue := [],
                       clearQueues := s.sess.clearQueues[q := s.sess.clearQueues[q] - 1]),
       text := T.Next(s.text, T.BeginEvent),
       pc := BargeAwait(s.pc.now, s.pc.queue, s.sess.pending.Keys),
       buffer := [],
       lastAudioIn := None,
       cells := Discard(s.cells, |s.wire| + |s.flight|))
  }

  ghost function EndBarge(s: State): State
    requires Enabled(s, BargeDone)
  {
    s.(sess := S.SignalAll(s.sess, s.pc.names),
       text := T.Next(s.text, T.EndEvent),
       pc := Clears(s.pc.now, s.pc.queue),
       marks := Without(s.marks, s.pc.names))
  }

  /** The outbound queue is drained into the buffer, then the mark queue is taken. */
  ghost function TakeAll(s: State): State
    requires Enabled(s, Take)
  {
    var buffer := s.buffer + Concat(s.sess.outbound);
    var target := s.sent + |buffer|;
    var anchor := if target == s.sent then Some(s.pc.now) else None;
    s.(sess := s.sess.(outbound := [], markQueue := []),
       pc := AtPacket(s.pc.now),
       buffer := buffer,
       lastAudioIn := if s.sess.outbound != [] then Some(s.pc.now) else s.lastAudioIn,
       marks := s.marks + Taken(s.sess.markQueue, s.sess.pending, target, anchor, |s.cells|))
  }

  predicate Due(buffer: seq<byte>, nextSend: nat, now: nat) { buffer != [] && now >= nextSend }

  ghost function CutPacket(s: State): State
    requires Enabled(s, Cut)
  {
    if Due(s.buffer, s.nextSend, s.pc.now) && |s.buffer| >= PACKET_BYTES then
      s.(pc := SendAwait(s.time), flight := s.buffer[..PACKET_BYTES], buffer := s.buffer[PACKET_BYTES..])
    else if Due(s.buffer, s.nextSend, s.pc.now) && ShouldPad(s.marks, s.lastAudioIn, s.pc.now) then
      s.(pc := SendAwait(s.time), flight := s.buffer, buffer := [])
    else
      s.(pc := AtResolve)
  }

  /** Audio padded at its end to a full packet. */
  function Padded(audio: seq<byte>): (r: seq<byte>)
    ensures |audio| <= PACKET_BYTES ==> |r| == PACKET_BYTES
    ensures |audio| <= |r| && r[..|audio|] == audio
    ensures forall i :: |audio| <= i < |r| ==> r[i] == PAD_BYTE
  {
    if |audio| >= PACKET_BYTES then audio else audio + seq(PACKET_BYTES - |audio|, _ => PAD_BYTE)
  }

  ghost function Land(s: State, t: nat): State
    requires Enabled(s, SentOk(t))
  {
    s.(pc := AtResolve,
       time := t,
       packets := s.packets + [Packet(Padded(s.flight), |s.flight|, s.pc.start, t)],
       wire := s.wire + s.flight,
       flight := [],
       sent := s.sent + PACKET_BYTES,
       nextSend := t + PACKET_INTERVAL,
       marks := Anchor(s.marks, s.sent + PACKET_BYTES, t))
  }

  ghost function ResolveDue(s: State, t: nat): State {
    var n := DueMarks(s.marks, t, s.latency);
    s.(pc := Sleeping,
       time := t,
       sess := S.SignalAll(s.sess, Names(s.marks[..n])),
       marks := s.marks[n..],
       lastMark := if n == 0 then s.lastMark else Some((s.marks[n - 1].name, t)),
       resolved := s.resolved + seq(n, i requires 0 <= i < n => Resolved(s.marks[i], t)))
  }

  ghost function FailNow(s: State): State
    requires Enabled(s, Fail)
  {
    s.(pc := Stopped, text := T.Next(s.text, T.Fail))
  }

  ghost function OnEnv(s: State, e: EnvAct): State
    requires Enabled(s, Env(e))
  {
    match e
    case OnSession(act) =>
      var cells := match act
        case PutOutbound(data) => if s.sess.hasLoop then s.cells + Arrived(data) else s.cells
        case Reset => Discard(s.cells, |s.wire| + |s.flight| + |s.buffer|)
        case _ => s.cells;
      s.(sess := S.Next(s.sess, act), cells := cells)
    case OnText(act) => s.(text := T.Next(s.text, act))
    case Bind => s.(bound := true)
    case Tick(t) => s.(time := t)
  }

  ghost function Next(s: State, a: Act): State
    requires Enabled(s, a)
  {
    match a
    case FlushBegin => s.(pc := FlushAwait, text := T.Next(s.text, T.BeginHead))
    case FlushDone => s.(pc := Top, text := T.Next(s.text, T.EndHead))
    case Idle => s.(pc := Sleeping)
    case Serve(t) => s.(pc := Clears(t, s.sess.clearQueue), time := t)
    case BargeBegin => BeginBarge(s)
    case BargeDone => EndBarge(s)
    case Take => TakeAll(s)
    case Cut => CutPacket(s)
    case SentOk(t) => Land(s, t)
    case Resolve(t) => ResolveDue(s, t)
    case Wake => s.(pc := Top)
    case Fail => FailNow(s)
    case Cancel => s.(pc := Stopped)
    case Env(e) => OnEnv(s, e)
  }
}
