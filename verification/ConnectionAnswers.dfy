/** Who may bind a call and what every text message is answered, over every trace of inputs
    and in the fields of the peer and the messages alone (audiohook_server.py). */
module ConnectionAnswers {
  import opened Base
  import opened Connection

  /** The key is right and, where an organisation is required, the header names it and, if
      the message is an `open`, the message too. */
  predicate LetIn(p: Peer, m: Message)
    requires m.Message?
  {
    p.keyOk && (p.required.None?
      || (p.organization == Str(p.required.value) && (m.kind != OpenCall || m.organization == Str(p.required.value))))
  }

  /** PCMU at 8 kHz of the external channel alone. */
  predicate Pcmu(m: Media) {
    m.Media? && m.kind == "audio" && m.format == "PCMU" && m.rate == 8000.0 && m.channels == ["external"]
  }

  /** The i-th offer is the first of this kind. */
  ghost predicate FirstOffer(m: Message, i: int) {
    && m.Message? && m.media.Some? && 0 <= i < |m.media.value| && Pcmu(m.media.value[i])
    && forall j :: 0 <= j < i ==> !Pcmu(m.media.value[j])
  }

  ghost predicate OffersPcmu(m: Message) { exists i :: FirstOffer(m, i) }

  /** No conversation, or the nil UUID for it or for the participant. */
  predicate Probes(m: Message)
    requires m.Message?
  {
    || m.conversation in {Absent, Str("00000000-0000-0000-0000-000000000000")}
    || (m.participant.Some? && m.participant.value.id == Str("00000000-0000-0000-0000-000000000000"))
  }

  lemma ProbesIff(m: Message)
    requires m.Message?
    ensures IsProbe(m) <==> Probes(m)
  {}

  lemma {:induction false} FirstSuitable(offered: seq<Media>) returns (i: nat)
    requires SelectMedia(offered).Some?
    ensures i < |offered| && Pcmu(offered[i]) && SelectMedia(offered) == Some(offered[i])
    ensures forall j :: 0 <= j < i ==> !Pcmu(offered[j])
  {
    if Suitable(offered[0]) {
      i := 0;
    } else {
      var k := FirstSuitable(offered[1..]);
      i := k + 1;
      assert forall j :: 0 < j < i ==> offered[j] == offered[1..][j - 1];
    }
  }

  lemma OffersIff(m: Message)
    ensures Offers(m) <==> OffersPcmu(m)
    ensures Offers(m) ==> exists i :: FirstOffer(m, i) && SelectMedia(m.media.value) == Some(m.media.value[i])
  {
    if Offers(m) {
      var i := FirstSuitable(m.media.value);
      assert FirstOffer(m, i);
    }
    if i :| FirstOffer(m, i) { SelectsFirst(m.media.value, i); }
  }

  // ---- the first text

  /** The connection has ended without being opened, answered by one disconnect if that
      could be written. */
  ghost predicate Refused(c: Conn, reason: Reason, sending: Sending) {
    && c.over && !c.isOpen && !c.Bound() && !c.closedSent
    && c.replies == if sending.Written? then [Disconnect(reason)] else []
  }

  /** It is open and was told the first suitable offer. */
  ghost predicate OpenedFor(c: Conn, m: Message) {
    && c.isOpen && c.authenticated && !c.over && !c.closedSent && |c.replies| == 1
    && exists i :: FirstOffer(m, i) && c.replies[0] == Opened(m.media.value[i])
  }

  /** Bound to the call that the message names. */
  ghost predicate BoundFor(c: Conn, m: Message)
    requires m.Message?
  {
    c.call == Some(Call(m.conversation, if m.participant.Some? then m.participant.value.ani else Absent))
  }

  /** What the first text message comes to. */
  ghost predicate FirstTextAnswered(c: Conn, p: Peer, m: Message, sending: Sending) {
    if m.Malformed? then Refused(c, Fault, sending)
    else if !LetIn(p, m) then Refused(c, Unauthorized, sending) && !c.authenticated
    else if m.seqNo != Some(1) || m.kind != OpenCall || !OffersPcmu(m) then Refused(c, Fault, sending)
    else if !sending.Written? then c.over && !c.isOpen && !c.Bound() && c.replies == []
    else
      && OpenedFor(c, m)
      && if Probes(m) then !c.Bound() else BoundFor(c, m)
  }

  lemma FirstText(p: Peer, m: Message, sending: Sending)
    ensures FirstTextAnswered(Step(ACCEPTED, p, Text(m, sending)), p, m, sending)
  {
    if m.Message? {
      ProbesIff(m);
      OffersIff(m);
    }
  }

  /** Over every trace: what was decided by the first text stands. A connection that ended is
      left as it was, and one that was opened keeps its first reply and its call. */
  lemma {:induction false} FirstTextStands(p: Peer, inputs: seq<Input>, n: nat)
    requires n < |inputs| && OnlyAudio(inputs[..n]) && inputs[n].Text?
    ensures var c, d := Step(ACCEPTED, p, inputs[n]), Run(p, inputs);
      && FirstTextAnswered(c, p, inputs[n].message, inputs[n].sending)
      && (c.over ==> d == c)
      && d.call == c.call && d.isOpen == c.isOpen && c.replies <= d.replies && d.authenticated == c.authenticated
  {
    var last := |inputs| - 1;
    var before := inputs[..last];
    FirstText(p, inputs[n].message, inputs[n].sending);
    if n < last {
      assert before[..n] == inputs[..n];
      FirstTextStands(p, before, n);
      LadderHolds(p, before);
      OpenGrows(Run(p, before), p, inputs[last]);
    } else {
      assert before == inputs[..n];
      AudioBeforeTextChangesNothing(p, before);
    }
  }

  lemma OpenGrows(c: Conn, p: Peer, i: Input)
    requires Climbed(c) && (!c.over ==> c.isOpen)
    ensures var d := Step(c, p, i);
      && (c.over ==> d == c) && d.call == c.call && d.isOpen == c.isOpen && c.authenticated == d.authenticated
      && c.replies <= d.replies
  {}

  /** So a stranger's first text ends the connection, unauthenticated, unbound and without an
      `opened` among the replies, whatever comes after it. */
  lemma StrangerIsRefused(p: Peer, inputs: seq<Input>, n: nat)
    requires n < |inputs| && OnlyAudio(inputs[..n]) && inputs[n].Text? && inputs[n].message.Message?
    requires var m := inputs[n].message;
      || !p.keyOk
      || (p.required.Some? && p.organization != Str(p.required.value))
      || (p.required.Some? && m.kind == OpenCall && m.organization != Str(p.required.value))
    ensures var c := Run(p, inputs);
      && c.over && !c.authenticated && !c.Bound()
      && c.replies == if inputs[n].sending.Written? then [Disconnect(Unauthorized)] else []
  {
    FirstTextStands(p, inputs, n);
  }

  /** And a call is bound only for a peer with the right key whose header and `open` both name
      the organisation where one is required, to the call that this `open` named; it offered
      suitable media and was no probe. */
  lemma BoundOnlyForAdmitted(p: Peer, inputs: seq<Input>) returns (n: nat)
    requires Run(p, inputs).Bound()
    ensures n < |inputs| && OnlyAudio(inputs[..n]) && inputs[n].Text? && inputs[n].message.Message?
    ensures var m := inputs[n].message;
      && p.keyOk
      && (p.required.Some? ==> p.organization == Str(p.required.value) && m.organization == Str(p.required.value))
      && m.seqNo == Some(1) && m.kind == OpenCall && OffersPcmu(m) && !Probes(m) && inputs[n].sending.Written?
      && BoundFor(Run(p, inputs), m)
  {
    BoundIff(p, inputs);
    n :| 0 <= n < |inputs| && OnlyAudio(inputs[..n]) && !inputs[n].Audio? && Binds(p, inputs[n]);
    FirstTextStands(p, inputs, n);
  }

  // ---- later texts

  /** What an open connection answers a message that comes in sequence. */
  function AnswerTo(m: Message): seq<Reply>
    requires m.Message?
  {
    match m.kind
    case Ping => [Pong]
    case Update => [Updated]
    case _ => []
  }

  /** One more text on an open connection: out of sequence or malformed it ends it, and so
      does a close, answered if that could be written; all else is answered as above. */
  lemma LaterText(p: Peer, inputs: seq<Input>, m: Message, sending: Sending)
    requires Run(p, inputs).isOpen && !Run(p, inputs).over
    ensures var c, d := Run(p, inputs), Run(p, inputs + [Text(m, sending)]);
      && d.isOpen && d.call == c.call
      && if m.Malformed? || m.seqNo != Some(c.clientSeq + 1) then
           d.over && !d.closedSent
           && d.replies == c.replies + (if sending.Written? then [Disconnect(Fault)] else [])
         else if m.kind == Close then
           d.over && (d.closedSent <==> !sending.Aborted?)
           && d.replies == c.replies + (if sending.Written? then [Closed] else [])
         else !d.over && d.replies == c.replies + AnswerTo(m)
  {
    LadderHolds(p, inputs);
    assert (inputs + [Text(m, sending)])[..|inputs|] == inputs;
  }

  function AnswerToInput(i: Input): seq<Reply> {
    if i.Text? && i.message.Message? then AnswerTo(i.message) else []
  }

  /** The answers to a list of inputs, in order. */
  function Answers(inputs: seq<Input>): seq<Reply> {
    if inputs == [] then [] else Answers(inputs[..|inputs| - 1]) + AnswerToInput(inputs[|inputs| - 1])
  }

  lemma WhileItLasts(p: Peer, before: seq<Input>, i: Input)
    requires Run(p, before).isOpen && !Run(p, before + [i]).over
    ensures !Run(p, before).over && Run(p, before + [i]).isOpen
    ensures Run(p, before + [i]).replies == Run(p, before).replies + AnswerToInput(i)
  {
    assert (before + [i])[..|before|] == before;
    if i.Text? { LaterText(p, before, i.message, i.sending); }
  }

  /** While a connection lasts, its replies are the `opened` and behind it, in order, a pong
      for every ping and an updated for every update since. */
  lemma {:induction false} RepliesInOrder(p: Peer, inputs: seq<Input>, n: nat)
    requires n < |inputs| && OnlyAudio(inputs[..n]) && !inputs[n].Audio? && !Run(p, inputs).over
    ensures inputs[n].Text? && Run(p, inputs).isOpen
    ensures Run(p, inputs).replies == Step(ACCEPTED, p, inputs[n]).replies + Answers(inputs[n + 1..])
  {
    var last := |inputs| - 1;
    var before := inputs[..last];
    if n < last {
      assert before[..n] == inputs[..n];
      assert inputs[n + 1..][..last - n - 1] == before[n + 1..];
      assert inputs == before + [inputs[last]];
      RepliesInOrder(p, before, n);
      WhileItLasts(p, before, inputs[last]);
    } else {
      DecidedByFirstText(p, inputs, n);
      assert before == inputs[..n];
      AudioBeforeTextChangesNothing(p, before);
    }
  }
}
