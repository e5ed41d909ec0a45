/** The numbered text messages of one AudioHook connection (_audiohook_writer.py).

    The writer is the only task that writes to the socket. It starts a message
    (`BeginHead`, `BeginEvent`), awaits the socket, and ends it (`EndHead`, `EndEvent`)
    or fails for good (`Fail`). Meanwhile other tasks queue messages, give up on their
    futures and advance the client's sequence number. */
module TextChannel {
  import opened Base

  datatype Fut = Pending | ResolvedTrue | ResolvedFalse | Cancelled

  datatype Item = Item(fut: nat, body: string)

  datatype Source = Queued(fut: nat) | BargeEvent

  datatype Written = Written(seqNo: nat, clientSeq: nat, body: string, source: Source)

  /** `futs` and `bodies` list every future ever returned by `send` and its message;
      `log` is what the socket accepted and `draft` the message being written. */
  datatype Text = Text(
    queue: seq<Item>,
    seqNo: nat,
    clientSeq: nat,
    failed: bool,
    futs: seq<Fut>,
    bodies: seq<string>,
    log: seq<Written>,
    draft: Option<Written>)

  const SILENT := Text([], 0, 0, false, [], [], [], None)

  const BARGE_IN: string := "event"

  datatype Act =
    | Send(body: string)
    | GiveUp(fut: nat)
    | ClientAdvance(steps: nat)
    | BeginHead
    | EndHead
    | BeginEvent
    | EndEvent
    | Fail

  function Settle(futs: seq<Fut>, id: nat, f: Fut): seq<Fut> {
    if id < |futs| && futs[id].Pending? then futs[id := f] else futs
  }

  /** Every future of a queued message that is still pending becomes False. */
  function SettleQueued(futs: seq<Fut>, queue: seq<Item>): seq<Fut>
    decreases |queue|
  {
    if queue == [] then futs
    else SettleQueued(Settle(futs, queue[0].fut, ResolvedFalse), queue[1..])
  }

  predicate Enabled(t: Text, a: Act) {
    match a
    case Send(_) => true
    case GiveUp(_) => true
    case ClientAdvance(_) => true
    case BeginHead => t.queue != [] && t.draft.None? && !t.failed
    case EndHead => t.queue != [] && t.draft.Some? && t.draft.value.source.Queued?
    case BeginEvent => t.draft.None? && !t.failed
    case EndEvent => t.draft.Some? && t.draft.value.source.BargeEvent?
    case Fail => !t.failed
  }

  function Next(t: Text, a: Act): Text
    requires Enabled(t, a)
  {
    match a
    case Send(body) =>
      if t.failed
      then t.(futs := t.futs + [ResolvedFalse], bodies := t.bodies + [body])
      else t.(queue := t.queue + [Item(|t.futs|, body)], futs := t.futs + [Pending], bodies := t.bodies + [body])
    case GiveUp(id) => t.(futs := Settle(t.futs, id, Cancelled))
    case ClientAdvance(steps) => t.(clientSeq := t.clientSeq + steps)
    case BeginHead =>
      t.(seqNo := t.seqNo + 1,
         draft := Some(Written(t.seqNo + 1, t.clientSeq, t.queue[0].body, Queued(t.queue[0].fut))))
    case EndHead =>
      t.(queue := t.queue[1..],
         futs := Settle(t.futs, t.queue[0].fut, ResolvedTrue),
         log := t.log + [t.draft.value],
         draft := None)
    case BeginEvent =>
      t.(seqNo := t.seqNo + 1, draft := Some(Written(t.seqNo + 1, t.clientSeq, BARGE_IN, BargeEvent)))
    case EndEvent => t.(log := t.log + [t.draft.value], draft := None)
    case Fail => t.(failed := true, futs := SettleQueued(t.futs, t.queue), queue := [], draft := None)
  }

  // ---- the invariant

  /** How many of the written messages came from the queue. */
  function FromQueue(log: seq<Written>): nat {
    if log == [] then 0
    else FromQueue(log[..|log| - 1]) + if log[|log| - 1].source.Queued? then 1 else 0
  }

  lemma FromQueueSnoc(log: seq<Written>, w: Written)
    ensures FromQueue(log + [w]) == FromQueue(log) + if w.source.Queued? then 1 else 0
  {
    assert (log + [w])[..|log|] == log;
  }

  lemma {:induction false} FromQueuePrefix(log: seq<Written>, i: nat)
    requires i <= |log|
    ensures FromQueue(log[..i]) <= FromQueue(log)
    ensures i < |log| && log[i].source.Queued? ==> FromQueue(log[..i]) < FromQueue(log)
    decreases |log| - i
  {
    if i < |log| {
      assert log[..i + 1][..i] == log[..i];
      FromQueuePrefix(log, i + 1);
    } else {
      assert log[..i] == log;
    }
  }

  /** Sequence numbers count up from 1, client numbers never go back. */
  ghost predicate Numbered(t: Text) {
    && (forall i :: 0 <= i < |t.log| ==> t.log[i].seqNo == i + 1 && t.log[i].clientSeq <= t.clientSeq)
    && (forall i, j :: 0 <= i < j < |t.log| ==> t.log[i].clientSeq <= t.log[j].clientSeq)
    && (t.draft.Some? ==>
        && t.draft.value.seqNo == |t.log| + 1
        && t.draft.value.clientSeq <= t.clientSeq
        && forall i :: 0 <= i < |t.log| ==> t.log[i].clientSeq <= t.draft.value.clientSeq)
    && (!t.failed ==> t.seqNo == |t.log| + if t.draft.Some? then 1 else 0)
  }

  /** The k-th message written from the queue is the k-th one queued. */
  ghost predicate InOrder(t: Text) {
    var w := FromQueue(t.log);
    && |t.futs| == |t.bodies|
    && w + |t.queue| <= |t.futs|
    && (!t.failed ==> w + |t.queue| == |t.futs|)
    && (forall j :: 0 <= j < |t.queue| ==> t.queue[j] == Item(w + j, t.bodies[w + j]))
    && (forall i :: 0 <= i < |t.log| && t.log[i].source.Queued? ==>
          && FromQueue(t.log[..i]) < w
          && t.log[i].source.fut == FromQueue(t.log[..i])
          && t.log[i].body == t.bodies[FromQueue(t.log[..i])])
    && (t.draft.Some? && t.draft.value.source.Queued? ==>
        t.queue != [] && t.draft.value.source.fut == w && t.draft.value.body == t.queue[0].body)
    && (t.failed ==> t.queue == [] && t.draft.None?)
  }

  /** Written means True, still queued means pending, dropped by a failure means False. */
  ghost predicate Settled(t: Text) {
    var w := FromQueue(t.log);
    forall id :: 0 <= id < |t.futs| ==>
      || t.futs[id].Cancelled?
      || t.futs[id] == if id < w then ResolvedTrue else if t.failed then ResolvedFalse else Pending
  }

  ghost predicate Inv(t: Text) { Numbered(t) && InOrder(t) && Settled(t) }

  lemma SilentInv()
    ensures Inv(SILENT)
  {}

  lemma {:induction false} SettleQueuedAt(futs: seq<Fut>, queue: seq<Item>, w: nat)
    requires w + |queue| == |futs|
    requires forall j :: 0 <= j < |queue| ==> queue[j].fut == w + j
    ensures |SettleQueued(futs, queue)| == |futs|
    ensures forall id :: 0 <= id < |futs| ==>
              SettleQueued(futs, queue)[id] == if id >= w && futs[id].Pending? then ResolvedFalse else futs[id]
    decreases |queue|
  {
    if queue != [] {
      var next := Settle(futs, w, ResolvedFalse);
      SettleQueuedAt(next, queue[1..], w + 1);
    }
  }

  lemma EndKeepsNumbers(t: Text, a: Act)
    requires Inv(t) && Enabled(t, a) && (a == EndHead || a == EndEvent)
    ensures Numbered(Next(t, a))
  {}

  lemma EndKeepsOrder(t: Text, a: Act)
    requires Inv(t) && Enabled(t, a) && (a == EndHead || a == EndEvent)
    ensures InOrder(Next(t, a))
  {
    var u := Next(t, a);
    FromQueueSnoc(t.log, t.draft.value);
    assert u.log[..|t.log|] == t.log;
    assert forall i :: 0 <= i < |t.log| ==> u.log[..i] == t.log[..i];
  }

  lemma EndKeepsSettled(t: Text, a: Act)
    requires Inv(t) && Enabled(t, a) && (a == EndHead || a == EndEvent)
    ensures Settled(Next(t, a))
  {
    FromQueueSnoc(t.log, t.draft.value);
  }

  lemma EndKeepsInv(t: Text, a: Act)
    requires Inv(t) && Enabled(t, a) && (a == EndHead || a == EndEvent)
    ensures Inv(Next(t, a))
  {
    EndKeepsNumbers(t, a);
    EndKeepsOrder(t, a);
    EndKeepsSettled(t, a);
  }

  lemma FailKeepsInv(t: Text)
    requires Inv(t) && Enabled(t, Fail)
    ensures Inv(Next(t, Fail))
  {
    SettleQueuedAt(t.futs, t.queue, FromQueue(t.log));
  }

  lemma SendKeepsInv(t: Text, body: string)
    requires Inv(t)
    ensures Inv(Next(t, Send(body)))
  {
    var u := Next(t, Send(body));
    assert u.log == t.log;
    assert forall i :: 0 <= i < |t.bodies| ==> u.bodies[i] == t.bodies[i];
    assert InOrder(u);
  }

  lemma BeginKeepsInv(t: Text, a: Act)
    requires Inv(t) && Enabled(t, a) && (a == BeginHead || a == BeginEvent)
    ensures Inv(Next(t, a))
  {
    var u := Next(t, a);
    assert u.log == t.log && InOrder(u) && Settled(u);
  }

  lemma OthersKeepInv(t: Text, a: Act)
    requires Inv(t) && Enabled(t, a) && (a.GiveUp? || a.ClientAdvance?)
    ensures Inv(Next(t, a))
  {
    var u := Next(t, a);
    assert u.log == t.log && u.queue == t.queue && u.bodies == t.bodies;
    assert Numbered(u) && InOrder(u);
  }

  lemma InvKept(t: Text, a: Act)
    requires Inv(t) && Enabled(t, a)
    ensures Inv(Next(t, a))
  {
    match a
    case Send(body) => SendKeepsInv(t, body);
    case BeginHead => BeginKeepsInv(t, a);
    case BeginEvent => BeginKeepsInv(t, a);
    case EndHead => EndKeepsInv(t, a);
    case EndEvent => EndKeepsInv(t, a);
    case Fail => FailKeepsInv(t);
    case GiveUp(_) => OthersKeepInv(t, a);
    case ClientAdvance(_) => OthersKeepInv(t, a);
  }

  // ---- what every run promises

  /** The bodies of the messages written from the queue, in writing order. */
  function QueuedBodies(log: seq<Written>): seq<string> {
    if log == [] then []
    else QueuedBodies(log[..|log| - 1])
         + if log[|log| - 1].source.Queued? then [log[|log| - 1].body] else []
  }

  lemma {:induction false} QueuedBodiesArePrefix(t: Text, n: nat)
    requires Inv(t) && n <= |t.log|
    ensures FromQueue(t.log[..n]) <= FromQueue(t.log)
    ensures QueuedBodies(t.log[..n]) == t.bodies[..FromQueue(t.log[..n])]
  {
    FromQueuePrefix(t.log, n);
    if n > 0 {
      QueuedBodiesArePrefix(t, n - 1);
      assert t.log[..n][..n - 1] == t.log[..n - 1];
    }
  }

  /** First in, first out: what was written from the queue is a prefix of what was
      queued, whatever barge-in events were written in between. */
  lemma WrittenInQueueOrder(t: Text)
    requires Inv(t)
    ensures QueuedBodies(t.log) <= t.bodies
    ensures forall i :: 0 <= i < |t.log| ==> t.log[i].seqNo == i + 1
  {
    assert t.log[..|t.log|] == t.log;
    QueuedBodiesArePrefix(t, |t.log|);
  }

  lemma {:induction false} FindQueued(log: seq<Written>, id: nat) returns (i: nat)
    requires id < FromQueue(log)
    ensures i < |log| && log[i].source.Queued? && FromQueue(log[..i]) == id
  {
    var last := |log| - 1;
    if id < FromQueue(log[..last]) {
      i := FindQueued(log[..last], id);
      assert log[..last][..i] == log[..i];
    } else {
      i := last;
    }
  }

  /** A future is True exactly when its message was written, unless its owner gave up;
      no message is written twice; and once the writer failed no future is pending. */
  lemma FutureTellsTheTruth(t: Text, id: nat)
    requires Inv(t) && id < |t.futs| && !t.futs[id].Cancelled?
    ensures t.futs[id].ResolvedTrue? <==> exists i :: 0 <= i < |t.log| && t.log[i].source == Queued(id)
    ensures forall i, j :: 0 <= i < j < |t.log| ==> t.log[i].source.Queued? ==> t.log[i].source != t.log[j].source
    ensures t.failed ==> !t.futs[id].Pending?
    ensures t.queue == [] ==> !t.futs[id].Pending?
  {
    if id < FromQueue(t.log) {
      var i := FindQueued(t.log, id);
      assert t.log[i].source == Queued(id);
    }
    forall i, j | 0 <= i < j < |t.log| && t.log[i].source.Queued? ensures t.log[i].source != t.log[j].source {
      assert t.log[..j][..i] == t.log[..i];
      FromQueuePrefix(t.log[..j], i);
    }
  }

  /** A future changes at most once: whatever it was settled to, it stays. */
  lemma SettledOnce(t: Text, a: Act, id: nat)
    requires Inv(t) && Enabled(t, a) && id < |t.futs| && !t.futs[id].Pending?
    ensures id < |Next(t, a).futs| && Next(t, a).futs[id] == t.futs[id]
  {
    if a.Fail? { SettleQueuedAt(t.futs, t.queue, FromQueue(t.log)); }
  }

  /** Each completed write of the head moves every queued message one place forward. */
  lemma HeadWriteAdvances(t: Text, id: nat)
    requires Inv(t) && Enabled(t, EndHead) && FromQueue(t.log) <= id < |t.futs|
    ensures FromQueue(Next(t, EndHead).log) == FromQueue(t.log) + 1
    ensures id == FromQueue(t.log) ==> !Next(t, EndHead).futs[id].Pending?
  {
    FromQueueSnoc(t.log, t.draft.value);
  }
}
