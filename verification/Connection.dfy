/** The inbound side of one AudioHook connection (audiohook_server.py) as a function of
    what the socket delivers: sequence check, authentication, opening, binding to the call
    and re-chunking of audio. */
module Connection {
  import opened Base

  const FRAME_BYTES: nat := 160
  const NIL_UUID: string := "00000000-0000-0000-0000-000000000000"

  /** A JSON value as far as the handlers look at it. */
  datatype Value = Absent | Str(text: string) | Other(tag: nat)

  /** An entry of a media offer; an entry of another shape is unsuitable whatever it holds. */
  datatype Media = Media(kind: string, format: string, rate: real, channels: seq<string>) | OtherShape

  datatype Participant = Participant(id: Value, ani: Value)

  /** The `type` of a message; all other types are only logged. */
  datatype Kind = OpenCall | Ping | Update | Close | OtherKind

  /** A text message: not an object, or its sequence number (None unless an integer), its
      type and the parameters that are read (None unless of the right shape). */
  datatype Message =
    | Malformed
    | Message(seqNo: Option<int>, kind: Kind, organization: Value,
              conversation: Value, participant: Option<Participant>, media: Option<seq<Media>>)

  /** What the peer presented when it connected, and what is required of it. */
  datatype Peer = Peer(keyOk: bool, organization: Value, required: Option<string>)

  /** How the text message that the reader waits for ends: written, refused because the
      writer failed, or not at all because the reader was cancelled. */
  datatype Sending = Written | Refused | Aborted

  datatype Input =
    | Text(message: Message, sending: Sending)
    | Audio(data: seq<byte>)
    | Gone

  datatype Reason = Fault | Unauthorized

  datatype Reply = Opened(media: Media) | Pong | Updated | Closed | Disconnect(reason: Reason)

  /** What the session learns of the call at binding. */
  datatype Call = Call(sid: Value, caller: Value)

  /** The audio frames handed on, the bytes held back and, for the proofs, every audio byte
      received since binding. */
  datatype Stream = Stream(frames: seq<seq<byte>>, remainder: seq<byte>, heard: seq<byte>)

  /** `passed` lists the sequence numbers of the messages that passed the check, `replies`
      what was queued or, where the reader waits, written, `binds` how often the call was
      bound. */
  datatype Conn = Conn(
    clientSeq: int,
    authenticated: bool,
    isOpen: bool,
    closedSent: bool,
    over: bool,
    call: Option<Call>,
    stream: Stream,
    passed: seq<int>,
    replies: seq<Reply>,
    binds: nat)
  {
    predicate Bound() { call.Some? }
  }

  const ACCEPTED := Conn(0, false, false, false, false, None, Stream([], [], []), [], [], 0)

  predicate Suitable(m: Media) {
    m.Media? && m.kind == "audio" && m.format == "PCMU" && m.rate == 8000.0 && m.channels == ["external"]
  }

  function SelectMedia(offered: seq<Media>): Option<Media> {
    if offered == [] then None
    else if Suitable(offered[0]) then Some(offered[0])
    else SelectMedia(offered[1..])
  }

  /** The entry selected is the first suitable one, and there is one unless none suits. */
  lemma {:induction false} SelectsFirst(offered: seq<Media>, i: nat)
    requires i < |offered| && Suitable(offered[i]) && forall j :: 0 <= j < i ==> !Suitable(offered[j])
    ensures SelectMedia(offered) == Some(offered[i])
  {
    if i > 0 { SelectsFirst(offered[1..], i - 1); }
  }

  lemma {:induction false} SelectsSuitable(offered: seq<Media>)
    ensures var r := SelectMedia(offered);
      if r.Some? then r.value in offered && Suitable(r.value) else forall m :: m in offered ==> !Suitable(m)
  {
    if offered != [] {
      SelectsSuitable(offered[1..]);
      assert offered == [offered[0]] + offered[1..];
    }
  }

  predicate Offers(m: Message) { m.Message? && m.media.Some? && SelectMedia(m.media.value).Some? }

  predicate IsNil(v: Value) { v == Str(NIL_UUID) }

  predicate IsProbe(m: Message)
    requires m.Message?
  {
    || m.conversation == Absent || IsNil(m.conversation)
    || (m.participant.Some? && IsNil(m.participant.value.id))
  }

  predicate Authorized(p: Peer, m: Message)
    requires m.Message?
  {
    && p.keyOk
    && (p.required.Some? ==>
        && p.organization == Str(p.required.value)
        && (m.kind == OpenCall ==> m.organization == Str(p.required.value)))
  }

  /** An awaited reply; a cancelled reader ends there. */
  function Answer(c: Conn, reply: Reply, sending: Sending): Conn {
    if sending.Written? then c.(replies := c.replies + [reply]) else c
  }

  function End(c: Conn, reply: Reply, sending: Sending): Conn { Answer(c, reply, sending).(over := true) }

  function CallOf(m: Message): Call
    requires m.Message?
  {
    Call(m.conversation, if m.participant.Some? then m.participant.value.ani else Absent)
  }

  function Open(c: Conn, m: Message, sending: Sending): Conn
    requires m.Message?
  {
    if !Offers(m) then End(c, Disconnect(Fault), sending)
    else if !sending.Written? then c.(over := true)
    else
      var o := Answer(c, Opened(SelectMedia(m.media.value).value), sending).(isOpen := true);
      if IsProbe(m) then o
      else o.(call := Some(CallOf(m)), binds := c.binds + 1)
  }

  function Dispatch(c: Conn, m: Message, sending: Sending): Conn
    requires m.Message?
  {
    if m.kind == Ping then c.(replies := c.replies + [Pong])
    else if m.kind == Update then c.(replies := c.replies + [Updated])
    else if m.kind == Close then
      var d := End(c, Closed, sending);
      if sending.Aborted? then d else d.(closedSent := true)
    else c
  }

  /** A message that passed the checks. */
  function Handle(c: Conn, m: Message, sending: Sending): Conn
    requires m.Message?
  {
    if c.isOpen then Dispatch(c, m, sending)
    else if m.kind != OpenCall then End(c, Disconnect(Fault), sending)
    else Open(c, m, sending)
  }

  /** One text message, in the order of checks of `_on_text`. */
  function OnText(c: Conn, p: Peer, m: Message, sending: Sending): Conn {
    if m.Malformed? then End(c, Disconnect(Fault), sending)
    else
      var seqOk := m.seqNo == Some(c.clientSeq + 1);
      var c1 := if seqOk then c.(clientSeq := c.clientSeq + 1) else c;
      if !c1.authenticated && !Authorized(p, m) then End(c1, Disconnect(Unauthorized), sending)
      else
        var c2 := c1.(authenticated := true);
        if !seqOk then End(c2, Disconnect(Fault), sending)
        else Handle(c2.(passed := c2.passed + [c2.clientSeq]), m, sending)
  }

  /** The whole frames of a byte stream. */
  function Whole(stream: seq<byte>): (fs: seq<seq<byte>>)
    ensures forall i :: 0 <= i < |fs| ==> |fs[i]| == FRAME_BYTES
    decreases |stream|
  {
    if |stream| < FRAME_BYTES then [] else [stream[..FRAME_BYTES]] + Whole(stream[FRAME_BYTES..])
  }

  /** What is left after them. */
  function Rest(stream: seq<byte>): (r: seq<byte>)
    ensures |r| < FRAME_BYTES
    decreases |stream|
  {
    if |stream| < FRAME_BYTES then stream else Rest(stream[FRAME_BYTES..])
  }

  function Fed(s: Stream, data: seq<byte>): Stream {
    Stream(s.frames + Whole(s.remainder + data), Rest(s.remainder + data), s.heard + data)
  }

  function OnAudio(c: Conn, data: seq<byte>): Conn {
    if !c.Bound() then c else c.(stream := Fed(c.stream, data))
  }

  function Step(c: Conn, p: Peer, i: Input): Conn {
    if c.over then c else
    match i
    case Text(m, sending) => OnText(c, p, m, sending)
    case Audio(data) => OnAudio(c, data)
    case Gone => c.(over := true)
  }

  function Run(p: Peer, inputs: seq<Input>): Conn {
    if inputs == [] then ACCEPTED else Step(Run(p, inputs[..|inputs| - 1]), p, inputs[|inputs| - 1])
  }

  // ---- the ladder

  /** Bound means opened, opened means authenticated, bound at most once, no audio before
      that; and the first message written to a peer let in is `opened`. */
  ghost predicate Climbed(c: Conn) {
    && (c.Bound() ==> c.isOpen) && (c.isOpen ==> c.authenticated)
    && c.binds == (if c.Bound() then 1 else 0)
    && (c.closedSent ==> c.over && c.isOpen)
    && (!c.Bound() ==> c.stream == Stream([], [], []))
    && (c.isOpen ==> c.replies != [] && c.replies[0].Opened?)
    && (!c.isOpen && !c.over ==> c.replies == [])
  }

  /** The messages past the sequence check carry exactly 1, 2, 3, ... */
  ghost predicate InSequence(c: Conn) {
    && (forall i :: 0 <= i < |c.passed| ==> c.passed[i] == i + 1)
    && |c.passed| <= c.clientSeq <= |c.passed| + 1
    && (!c.over ==> c.clientSeq == |c.passed|)
  }

  ghost predicate Ladder(c: Conn) { Climbed(c) && InSequence(c) }

  lemma HandleClimbs(c: Conn, m: Message, sending: Sending)
    requires m.Message? && Climbed(c) && !c.over && c.authenticated
    ensures Climbed(Handle(c, m, sending))
  {}

  lemma ClimbedStep(c: Conn, p: Peer, i: Input)
    requires Climbed(c)
    ensures Climbed(Step(c, p, i))
  {
    if !c.over && i.Text? && i.message.Message? && i.message.seqNo == Some(c.clientSeq + 1) {
      var c2 := c.(clientSeq := c.clientSeq + 1, authenticated := true);
      HandleClimbs(c2.(passed := c2.passed + [c2.clientSeq]), i.message, i.sending);
    }
  }

  /** Handling a message moves neither the numbering nor the audio. */
  lemma HandleFrame(c: Conn, m: Message, sending: Sending)
    requires m.Message?
    ensures var d := Handle(c, m, sending);
      && d.passed == c.passed && d.clientSeq == c.clientSeq && d.stream == c.stream && (c.over ==> d.over)
  {}

  lemma InSequenceStep(c: Conn, p: Peer, i: Input)
    requires InSequence(c)
    ensures InSequence(Step(c, p, i)) && c.clientSeq <= Step(c, p, i).clientSeq
  {
    if !c.over && i.Text? { TextInSequence(c, p, i.message, i.sending); }
  }

  lemma TextInSequence(c: Conn, p: Peer, m: Message, sending: Sending)
    requires InSequence(c) && !c.over
    ensures InSequence(OnText(c, p, m, sending)) && c.clientSeq <= OnText(c, p, m, sending).clientSeq
  {
    if m.Message? && m.seqNo == Some(c.clientSeq + 1) {
      NextInSequence(c, p, m, sending);
    } else {
      var reason := if m.Message? && !c.authenticated && !Authorized(p, m) then Unauthorized else Fault;
      EndsInSequence(c, Disconnect(reason), sending);
    }
  }

  /** The message with the next number is passed on, or refused as unauthorised. */
  lemma NextInSequence(c: Conn, p: Peer, m: Message, sending: Sending)
    requires InSequence(c) && !c.over && m.Message? && m.seqNo == Some(c.clientSeq + 1)
    ensures InSequence(OnText(c, p, m, sending)) && c.clientSeq <= OnText(c, p, m, sending).clientSeq
  {
    var c1 := c.(clientSeq := c.clientSeq + 1);
    if c.authenticated || Authorized(p, m) {
      var c2 := c1.(authenticated := true, passed := c1.passed + [c1.clientSeq]);
      assert InSequence(c2);
      HandleFrame(c2, m, sending);
    } else {
      EndsInSequence(c1, Disconnect(Unauthorized), sending);
    }
  }

  lemma EndsInSequence(c: Conn, reply: Reply, sending: Sending)
    requires (forall i :: 0 <= i < |c.passed| ==> c.passed[i] == i + 1) && |c.passed| <= c.clientSeq <= |c.passed| + 1
    ensures InSequence(End(c, reply, sending)) && End(c, reply, sending).clientSeq == c.clientSeq
  {}

  lemma {:induction false} LadderHolds(p: Peer, inputs: seq<Input>)
    ensures Ladder(Run(p, inputs))
  {
    if inputs != [] {
      var c, i := Run(p, inputs[..|inputs| - 1]), inputs[|inputs| - 1];
      LadderHolds(p, inputs[..|inputs| - 1]);
      ClimbedStep(c, p, i);
      InSequenceStep(c, p, i);
    }
  }

  /** The message that binds: the first text, number 1, an authorised `open` that offers
      the right media, is no probe, and whose `opened` answer was written. */
  predicate Binds(p: Peer, i: Input) {
    && i.Text? && i.message.Message? && i.message.seqNo == Some(1)
    && i.message.kind == OpenCall && Authorized(p, i.message)
    && Offers(i.message) && !IsProbe(i.message) && i.sending.Written?
  }

  /** Nothing but audio has arrived, so the reader still waits for its first text. */
  ghost predicate OnlyAudio(inputs: seq<Input>) { forall i :: 0 <= i < |inputs| ==> inputs[i].Audio? }

  lemma {:induction false} AudioBeforeTextChangesNothing(p: Peer, inputs: seq<Input>)
    requires OnlyAudio(inputs)
    ensures Run(p, inputs) == ACCEPTED
  {
    if inputs != [] { AudioBeforeTextChangesNothing(p, inputs[..|inputs| - 1]); }
  }

  /** Bound to the call of `m`, which was told the offered entry that suits. */
  ghost predicate BoundTo(c: Conn, m: Message) {
    && Offers(m) && c.call == Some(CallOf(m))
    && c.replies != [] && c.replies[0] == Opened(SelectMedia(m.media.value).value)
  }

  /** What the first text message or the peer's leaving, `first`, makes of a connection. */
  ghost predicate Decided(c: Conn, p: Peer, first: Input) {
    && (c.Bound() <==> Binds(p, first))
    && (!c.over ==> c.isOpen)
    && (c.Bound() ==> BoundTo(c, first.message))
  }

  /** The first input that is not audio decides. */
  lemma FirstTextDecides(p: Peer, i: Input)
    requires !i.Audio?
    ensures Decided(Step(ACCEPTED, p, i), p, i)
  {}

  /** After that an open connection neither binds nor unbinds. */
  lemma DecisionStands(c: Conn, p: Peer, first: Input, i: Input)
    requires Climbed(c) && Decided(c, p, first)
    ensures Decided(Step(c, p, i), p, first)
  {
    OpenStays(c, p, i);
  }

  lemma OpenStays(c: Conn, p: Peer, i: Input)
    requires Climbed(c) && (!c.over ==> c.isOpen)
    ensures var d := Step(c, p, i);
      && d.call == c.call && (!d.over ==> d.isOpen)
      && (c.replies != [] ==> d.replies != [] && d.replies[0] == c.replies[0])
  {}

  /** Once the first text is handled, the connection is over, a probe, or bound, for good. */
  lemma {:induction false} DecidedByFirstText(p: Peer, inputs: seq<Input>, n: nat)
    requires n < |inputs| && OnlyAudio(inputs[..n]) && !inputs[n].Audio?
    ensures Decided(Run(p, inputs), p, inputs[n])
  {
    var last := |inputs| - 1;
    var before := inputs[..last];
    if n < last {
      assert before[..n] == inputs[..n];
      DecidedByFirstText(p, before, n);
      LadderHolds(p, before);
      DecisionStands(Run(p, before), p, inputs[n], inputs[last]);
    } else {
      assert before == inputs[..n];
      AudioBeforeTextChangesNothing(p, before);
      FirstTextDecides(p, inputs[n]);
    }
  }

  /** Over any trace of inputs: the call gets bound if and only if the first input that is
      not audio binds it. So a probe or an unauthorised peer never binds. */
  lemma BoundIff(p: Peer, inputs: seq<Input>)
    ensures Run(p, inputs).Bound() <==>
      exists n :: 0 <= n < |inputs| && OnlyAudio(inputs[..n]) && !inputs[n].Audio? && Binds(p, inputs[n])
  {
    if OnlyAudio(inputs) {
      AudioBeforeTextChangesNothing(p, inputs);
    } else {
      var n := FirstNonAudio(inputs);
      DecidedByFirstText(p, inputs, n);
      forall k | 0 <= k < |inputs| && OnlyAudio(inputs[..k]) && !inputs[k].Audio? ensures k == n {
        AudioBefore(inputs, k, n);
        AudioBefore(inputs, n, k);
      }
    }
  }

  lemma AudioBefore(inputs: seq<Input>, k: nat, n: nat)
    requires k < |inputs| && n <= |inputs| && OnlyAudio(inputs[..n])
    ensures k < n ==> inputs[k].Audio?
  {
    if k < n { assert inputs[..n][k] == inputs[k]; }
  }

  lemma {:induction false} FirstNonAudio(inputs: seq<Input>) returns (n: nat)
    requires !OnlyAudio(inputs)
    ensures n < |inputs| && OnlyAudio(inputs[..n]) && !inputs[n].Audio?
  {
    if !inputs[0].Audio? {
      n := 0;
    } else {
      var m := FirstNonAudio(inputs[1..]);
      n := m + 1;
      forall i | 0 <= i < n ensures inputs[..n][i].Audio? {
        if i > 0 { assert inputs[..n][i] == inputs[1..][..m][i - 1]; }
      }
    }
  }

  // ---- re-chunking

  lemma {:induction false} WholeAndRest(stream: seq<byte>)
    ensures Concat(Whole(stream)) + Rest(stream) == stream
    decreases |stream|
  {
    if |stream| >= FRAME_BYTES {
      WholeAndRest(stream[FRAME_BYTES..]);
      assert Whole(stream)[1..] == Whole(stream[FRAME_BYTES..]);
      assert stream == stream[..FRAME_BYTES] + stream[FRAME_BYTES..];
    }
  }

  /** Feeding a stream in two parts or in one makes the same frames. */
  lemma {:induction false} WholeOfParts(a: seq<byte>, b: seq<byte>)
    ensures Whole(a + b) == Whole(a) + Whole(Rest(a) + b)
    ensures Rest(a + b) == Rest(Rest(a) + b)
    decreases |a|
  {
    if |a| >= FRAME_BYTES {
      WholeOfParts(a[FRAME_BYTES..], b);
      assert (a + b)[FRAME_BYTES..] == a[FRAME_BYTES..] + b;
      assert (a + b)[..FRAME_BYTES] == a[..FRAME_BYTES];
    }
  }

  /** The frames and the remainder are those of the bytes heard, however they were split. */
  ghost predicate Rechunked(s: Stream) {
    s.frames == Whole(s.heard) && s.remainder == Rest(s.heard)
  }

  lemma TextKeepsAudio(c: Conn, p: Peer, i: Input)
    requires !i.Audio?
    ensures var d := Step(c, p, i); d.stream == c.stream
  {
    if !c.over && i.Text? && i.message.Message? && i.message.seqNo == Some(c.clientSeq + 1) {
      var c2 := c.(clientSeq := c.clientSeq + 1, authenticated := true);
      HandleFrame(c2.(passed := c2.passed + [c2.clientSeq]), i.message, i.sending);
    }
  }

  lemma {:induction false} FramesDependOnStreamOnly(p: Peer, inputs: seq<Input>)
    ensures Rechunked(Run(p, inputs).stream)
  {
    if inputs != [] {
      var c, i := Run(p, inputs[..|inputs| - 1]), inputs[|inputs| - 1];
      FramesDependOnStreamOnly(p, inputs[..|inputs| - 1]);
      LadderHolds(p, inputs[..|inputs| - 1]);
      if i.Audio? {
        WholeOfParts(c.stream.heard, i.data);
      } else {
        TextKeepsAudio(c, p, i);
      }
    }
  }

  /** Nothing heard is lost or reordered, and less than one frame is held back. */
  lemma AudioConserved(p: Peer, inputs: seq<Input>)
    ensures var s := Run(p, inputs).stream;
      && Concat(s.frames) + s.remainder == s.heard && |s.remainder| < 160
      && forall i :: 0 <= i < |s.frames| ==> |s.frames[i]| == 160
  {
    FramesDependOnStreamOnly(p, inputs);
    WholeAndRest(Run(p, inputs).stream.heard);
  }

  /** The bytes of the audio among the inputs. */
  function AudioOf(inputs: seq<Input>): seq<byte> {
    if inputs == [] then []
    else AudioOf(inputs[..|inputs| - 1]) + (if inputs[|inputs| - 1].Audio? then inputs[|inputs| - 1].data else [])
  }

  function Sound(i: Input): seq<byte> { if i.Audio? then i.data else [] }

  lemma HeardInStep(c: Conn, p: Peer, i: Input)
    requires Climbed(c) && c.Bound() && !Step(c, p, i).over
    ensures !c.over && Step(c, p, i).stream.heard == c.stream.heard + Sound(i)
  {
    if !i.Audio? { TextKeepsAudio(c, p, i); }
  }

  lemma {:induction false} SoundSnoc(inputs: seq<Input>, i: Input)
    ensures AudioOf(inputs + [i]) == AudioOf(inputs) + Sound(i)
  {
    assert (inputs + [i])[..|inputs|] == inputs;
  }

  /** While a bound connection lasts, all audio after the binding message is heard. */
  lemma {:induction false} HearsEverything(p: Peer, inputs: seq<Input>, n: nat)
    requires n < |inputs| && OnlyAudio(inputs[..n]) && !inputs[n].Audio?
    requires Run(p, inputs).Bound() && !Run(p, inputs).over
    ensures Run(p, inputs).stream.heard == AudioOf(inputs[n + 1..])
  {
    var last := |inputs| - 1;
    var before := inputs[..last];
    LadderHolds(p, before);
    if n < last {
      assert before[..n] == inputs[..n];
      DecidedByFirstText(p, before, n);
      DecidedByFirstText(p, inputs, n);
      HeardInStep(Run(p, before), p, inputs[last]);
      HearsEverything(p, before, n);
      SoundSnoc(before[n + 1..], inputs[last]);
      assert inputs[n + 1..] == before[n + 1..] + [inputs[last]];
    } else {
      assert before == inputs[..n];
      AudioBeforeTextChangesNothing(p, before);
      TextKeepsAudio(ACCEPTED, p, inputs[n]);
    }
  }
}
