/** A run in which a waiter that draws the name of a mark still tracked is released before
    its audio was sent. */
module ByteClockReuse {
  import opened Base
  import opened History
  import opened ByteClock
  import opened ByteClockPaths
  import opened ByteClockProgress
  import opened ByteClockRuns
  import opened ByteClockStale
  import opened ByteClockWaits
  import S = Session

  const LAST: seq<byte> := [0]

  /** One packet is out, one is buffered with the mark of a waiter that gave up behind it. */
  ghost predicate HalfWay(s: State) {
    && Quiet(s) && s.pc == Sleeping && s.sent == PACKET_BYTES && MarkWaits(s)
    && s.sess == CONNECTED.(waiters := [GAVE_UP]) && |s.buffer| == PACKET_BYTES && s.nextSend == PACKET_INTERVAL
  }

  lemma ReachHalfWay() returns (r: Stretch)
    ensures Leads(r, Start(CONNECTED, 0)) && Calm(r.acts) && HalfWay(End(r))
  {
    r := WriterBound();
    var x := AudioAndMarkQueued(End(r));
    r := Join(r, x);
    x := MarkTaken(End(r));
    r := Join(r, x);
    x := FirstPacketOut(End(r));
    r := Join(r, x);
    x := WaiterGivesUp(End(r));
    r := Join(r, x);
  }

  const AGAIN := CONNECTED.(outbound := [LAST], waiters := [GAVE_UP])

  lemma LastByteQueued(s: State) returns (r: Stretch)
    requires HalfWay(s)
    ensures Leads(r, s) && Calm(r.acts)
    ensures var u := End(r);
      && u.pc == Sleeping && u.sent == PACKET_BYTES && MarkWaits(u) && u.sess == AGAIN && u.bound && u.latency == 0
      && |u.buffer| == PACKET_BYTES && u.nextSend == PACKET_INTERVAL && u.time == 0 && u.text == s.text
  {
    r := Stretch([s, On(s, S.PutOutbound(LAST))], [Env(OnSession(S.PutOutbound(LAST)))]);
  }

  const DRAWN := AGAIN.(
    pending := map["a" := 1], waiters := [GAVE_UP, S.Waiter("a", false, S.Waiting)], markQueue := ["a"])

  /** A new waiter draws the name and queues its mark; the next pass begins at 200 ms. */
  lemma NameDrawnAgain(s: State) returns (r: Stretch)
    requires s.pc == Sleeping && s.sent == PACKET_BYTES && MarkWaits(s) && s.sess == AGAIN && s.bound && s.latency == 0
    requires |s.buffer| == PACKET_BYTES && s.nextSend == PACKET_INTERVAL && s.time == 0 && s.text.queue == []
    ensures Leads(r, s) && Calm(r.acts) && r.acts != [] && r.acts[0] == Env(OnSession(S.Register("a")))
    ensures var u := End(r);
      && u.pc == Clears(PACKET_INTERVAL, Some(0)) && u.sess == DRAWN && MarkWaits(u) && u.cells == s.cells
      && u.latency == 0 && u.time == u.nextSend == PACKET_INTERVAL && u.sent == |u.buffer| == PACKET_BYTES
  {
    var s1 := On(s, S.Register("a"));
    assert s1.sess == DRAWN;
    var s2 := Next(s1, Wake);
    var s3 := Next(s2, Serve(PACKET_INTERVAL));
    r := Stretch([s, s1, s2, s3], [Env(OnSession(S.Register("a"))), Wake, Serve(PACKET_INTERVAL)]);
  }

  /** It takes both. */
  lemma BothTaken(s: State) returns (r: Stretch)
    requires s.pc == Clears(PACKET_INTERVAL, Some(0)) && s.sess == DRAWN && MarkWaits(s)
    requires s.latency == 0 && s.time == s.nextSend == PACKET_INTERVAL && s.sent == |s.buffer| == PACKET_BYTES
    ensures Leads(r, s) && Calm(r.acts)
    ensures var u := End(r);
      && u.pc == AtPacket(PACKET_INTERVAL) && u.cells == s.cells && u.latency == 0 && u.time == PACKET_INTERVAL
      && u.sent == PACKET_BYTES && |u.buffer| == PACKET_BYTES + 1 && u.nextSend == PACKET_INTERVAL
      && |u.marks| == 2 && u.marks[0] == s.marks[0] && u.marks[1].anchor.None? && u.marks[1].target > 2 * PACKET_BYTES
      && S.Live(u.sess, 1) && S.Owns(u.sess, 1) && u.sess.waiters[1].key == "a"
  {
    ConcatSnoc([], LAST);
    assert [] + [LAST] == s.sess.outbound;
    TakenOne("a", s.sess.pending, 2 * PACKET_BYTES + 1, None, |s.cells|);
    r := Stretch([s, Next(s, Take)], [Take]);
  }

  lemma SecondPacketOut(s: State) returns (r: Stretch)
    requires s.pc == AtPacket(PACKET_INTERVAL) && s.time == PACKET_INTERVAL && s.sent == PACKET_BYTES
    requires |s.buffer| == PACKET_BYTES + 1 && s.nextSend == PACKET_INTERVAL
    ensures Leads(r, s) && Calm(r.acts)
    ensures var u := End(r);
      && u.pc == AtResolve && u.time == PACKET_INTERVAL && u.sent == 2 * PACKET_BYTES && u.buffer != []
      && u.cells == s.cells && u.sess == s.sess && u.latency == s.latency
      && u.marks == Anchor(s.marks, 2 * PACKET_BYTES, PACKET_INTERVAL)
  {
    var s1 := Next(s, Cut);
    r := Stretch([s, s1, Next(s1, SentOk(PACKET_INTERVAL))], [Cut, SentOk(PACKET_INTERVAL)]);
  }

  /** The second packet anchors the old mark, and its resolution finds the new waiter. */
  lemma OldMarkResolved(s: State) returns (r: Stretch)
    requires s.pc == AtPacket(PACKET_INTERVAL) && s.latency == 0 && s.time == PACKET_INTERVAL
    requires s.sent == PACKET_BYTES && |s.buffer| == PACKET_BYTES + 1 && s.nextSend == PACKET_INTERVAL
    requires |s.marks| == 2 && s.marks[0] == Mark("a", 2 * PACKET_BYTES, None, 2 * PACKET_BYTES)
    requires s.marks[1].anchor.None? && s.marks[1].target > 2 * PACKET_BYTES
    requires S.Live(s.sess, 1) && S.Owns(s.sess, 1) && s.sess.waiters[1].key == "a"
    ensures Leads(r, s) && Calm(r.acts)
    ensures var u := End(r);
      u.cells == s.cells && u.buffer != [] && S.Live(u.sess, 1) && u.sess.waiters[1].released
  {
    var x := SecondPacketOut(s);
    var s2 := End(x);
    assert s2.marks[0].anchor == Some(PACKET_INTERVAL) && s2.marks[1] == s.marks[1];
    assert s2.marks[1..][0].anchor.None?;
    assert DueMarks(s2.marks, PACKET_INTERVAL, 0) == 1;
    assert s2.marks[..1][0].name in Names(s2.marks[..1]);
    assert 1 in S.EventsOf(s2.sess, Names(s2.marks[..1]));
    var y := Stretch([s2, Next(s2, Resolve(PACKET_INTERVAL))], [Resolve(PACKET_INTERVAL)]);
    r := Join(x, y);
  }

  /** Act n registers waiter 1 when the first p bytes were queued; by the end it is
      released, by no barge-in and no other thread, and these bytes are not all sent. */
  ghost predicate ReleasedEarly(r: Stretch, n: nat) {
    && IsPath(r.states, r.acts) && Calm(r.acts) && n < |r.acts|
    && r.acts[n] == Env(OnSession(S.Register("a"))) && |r.states[n].sess.waiters| == 1
    && S.Live(End(r).sess, 1) && End(r).sess.waiters[1].released
    && |r.states[n].cells| <= |End(r).cells|
    && |Live(End(r).cells[..|r.states[n].cells|])| > |End(r).wire|
  }

  lemma ReusedNameReleasesEarly()
    ensures exists r: Stretch, n: nat :: Leads(r, Start(CONNECTED, 0)) && ReleasedEarly(r, n)
  {
    var r := ReachHalfWay();
    var x := LastByteQueued(End(r));
    r := Join(r, x);
    var n := |r.acts|;
    var s := End(r);
    x := NameDrawnAgain(s);
    var y := BothTaken(End(x));
    x := Join(x, y);
    y := OldMarkResolved(End(x));
    x := Join(x, y);
    var e := Join(r, x);
    assert e.acts[n] == x.acts[0] && e.states[n] == s;
    BufferedIsNotSent(e);
    assert End(e).cells[..|s.cells|] == End(e).cells;
    assert ReleasedEarly(e, n);
  }

  lemma BufferedIsNotSent(r: Stretch)
    requires Leads(r, Start(CONNECTED, 0)) && End(r).buffer != []
    ensures |Live(End(r).cells)| > |End(r).wire|
  {
    EveryRunIsSound(r.states, r.acts, CONNECTED, 0, |r.acts|);
  }
}
