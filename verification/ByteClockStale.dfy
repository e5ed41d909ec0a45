/** A run of the send loop in which a mark that lost its waiter survives a barge-in, and
    everything that can follow. */
module ByteClockStale {
  import opened Base
  import opened ByteClock
  import opened ByteClockPaths
  import opened ByteClockProgress
  import opened ByteClockRuns
  import opened ByteClockWaits
  import S = Session
  import T = TextChannel

  const TWO_PACKETS: seq<byte> := seq(2 * PACKET_BYTES, _ => 0)

  ghost predicate Quiet(s: State) { s.bound && s.time == 0 && s.flight == [] && s.text == T.SILENT && s.latency == 0 }

  const WAITING := S.Waiter("a", false, S.Waiting)
  const GAVE_UP := S.Waiter("a", false, S.TimedOut)

  const QUEUED := CONNECTED.(
    outbound := [TWO_PACKETS], markQueue := ["a"], pending := map["a" := 0], waiters := [WAITING])

  /** One mark waits, for the end of the second packet; nothing else is tracked. */
  ghost predicate MarkWaits(s: State) {
    |s.marks| == 1 && s.marks[0] == Mark("a", 2 * PACKET_BYTES, None, 2 * PACKET_BYTES)
  }

  ghost predicate NothingSent(s: State) {
    s.pc == Sleeping && s.buffer == [] && s.sent == 0 && s.nextSend == 0 && s.marks == []
  }

  lemma WriterBound() returns (r: Stretch)
    ensures Leads(r, Start(CONNECTED, 0)) && Calm(r.acts)
    ensures var s := End(r); Quiet(s) && NothingSent(s) && s.sess == CONNECTED && s.cells == []
  {
    var s0 := Start(CONNECTED, 0);
    var s1 := Next(s0, Idle);
    r := Stretch([s0, s1, Next(s1, Env(Bind))], [Idle, Env(Bind)]);
  }

  /** A waiter queues a mark behind two packets of audio. */
  lemma AudioAndMarkQueued(s: State) returns (r: Stretch)
    requires Quiet(s) && NothingSent(s) && s.sess == CONNECTED && s.cells == []
    ensures Leads(r, s) && Calm(r.acts)
    ensures var u := End(r);
      && Quiet(u) && NothingSent(u) && |u.cells| == 2 * PACKET_BYTES
      && u.sess == QUEUED
  {
    var s1 := On(s, S.PutOutbound(TWO_PACKETS));
    r := Stretch([s, s1, On(s1, S.Register("a"))],
                 [Env(OnSession(S.PutOutbound(TWO_PACKETS))), Env(OnSession(S.Register("a")))]);
  }

  /** The service pass that takes both. */
  lemma MarkTaken(s: State) returns (r: Stretch)
    requires Quiet(s) && NothingSent(s)
    requires s.sess == QUEUED
    requires |s.cells| == 2 * PACKET_BYTES
    ensures Leads(r, s) && Calm(r.acts)
    ensures var u := End(r);
      && Quiet(u) && u.pc == AtPacket(0) && |u.buffer| == 2 * PACKET_BYTES && u.sent == 0 && u.nextSend == 0
      && MarkWaits(u)
      && u.sess == CONNECTED.(pending := map["a" := 0], waiters := [WAITING])
  {
    var s1 := Next(s, Wake);
    var s2 := Next(s1, Serve(0));
    ConcatSnoc([], TWO_PACKETS);
    assert [] + [TWO_PACKETS] == s2.sess.outbound;
    TakenOne("a", s2.sess.pending, 2 * PACKET_BYTES, None, 2 * PACKET_BYTES);
    var s3 := Next(s2, Take);
    r := Stretch([s, s1, s2, s3], [Wake, Serve(0), Take]);
  }

  /** One packet goes out; the mark waits for the other. */
  lemma FirstPacketOut(s: State) returns (r: Stretch)
    requires Quiet(s) && s.pc == AtPacket(0) && |s.buffer| == 2 * PACKET_BYTES && s.sent == 0
    requires s.nextSend == 0 && MarkWaits(s)
    ensures Leads(r, s) && Calm(r.acts)
    ensures var u := End(r);
      && Quiet(u) && u.pc == AtResolve && u.sent == PACKET_BYTES && MarkWaits(u) && u.sess == s.sess
      && |u.buffer| == PACKET_BYTES && u.nextSend == PACKET_INTERVAL
  {
    var s1 := Next(s, Cut);
    var s2 := Next(s1, SentOk(0));
    r := Stretch([s, s1, s2], [Cut, SentOk(0)]);
  }

  /** The mark is not due; its waiter gives up. */
  lemma WaiterGivesUp(s: State) returns (r: Stretch)
    requires Quiet(s) && s.pc == AtResolve && s.sent == PACKET_BYTES && MarkWaits(s)
    requires s.sess == CONNECTED.(pending := map["a" := 0], waiters := [WAITING])
    ensures Leads(r, s) && Calm(r.acts)
    ensures var u := End(r);
      && Quiet(u) && u.pc == Sleeping && u.sent == PACKET_BYTES && MarkWaits(u)
      && u.sess == CONNECTED.(waiters := [GAVE_UP]) && u.buffer == s.buffer && u.nextSend == s.nextSend
  {
    assert DueMarks(s.marks, 0, 0) == 0;
    assert Names(s.marks[..0]) == {};
    S.SignalNone(s.sess);
    var s1 := Next(s, Resolve(0));
    var s2 := On(s1, S.Expire(0));
    assert s2.sess.pending == map[];
    r := Stretch([s, s1, s2], [Resolve(0), Env(OnSession(S.Expire(0)))]);
  }

  /** A barge-in is requested; the next pass sees it. */
  lemma BargeInRequested(s: State) returns (r: Stretch)
    requires Quiet(s) && s.pc == Sleeping && s.sent == PACKET_BYTES && MarkWaits(s)
    requires s.sess == CONNECTED.(waiters := [GAVE_UP])
    ensures Leads(r, s)
    ensures var u := End(r);
      && Quiet(u) && u.pc == Clears(0, Some(0)) && u.sent == PACKET_BYTES && MarkWaits(u)
      && u.sess == CONNECTED.(waiters := [GAVE_UP], clearQueues := [1])
  {
    var s1 := On(s, S.RequestClear);
    var s2 := Next(s1, Wake);
    var s3 := Next(s2, Serve(0));
    r := Stretch([s, s1, s2, s3], [Env(OnSession(S.RequestClear)), Wake, Serve(0)]);
  }

  /** It begins, and a new waiter registers while its event is written. */
  lemma BargeInBegins(s: State) returns (r: Stretch)
    requires Quiet(s) && s.pc == Clears(0, Some(0)) && s.sent == PACKET_BYTES && MarkWaits(s)
    requires s.sess == CONNECTED.(waiters := [GAVE_UP], clearQueues := [1])
    ensures Leads(r, s)
    ensures var u := End(r);
      && u.pc == BargeAwait(0, Some(0), {}) && u.sent == PACKET_BYTES && MarkWaits(u)
      && u.text == T.Next(T.SILENT, T.BeginEvent) && NewMarkQueued(u)
  {
    var s1 := Next(s, BargeBegin);
    var s2 := On(s1, S.Register("b"));
    r := Stretch([s, s1, s2], [BargeBegin, Env(OnSession(S.Register("b")))]);
  }

  /** The mark "b" is registered and queued, the stale mark still tracked. */
  ghost predicate NewMarkQueued(s: State) {
    && s.buffer == [] && s.sess.outbound == [] && s.sess.markQueue == ["b"] && s.sess.clearQueues == [0]
    && s.sess.pending == map["b" := 1] && s.sess.waiters == [GAVE_UP, S.Waiter("b", false, S.Waiting)]
  }

  /** It ends: the stale mark is still there. */
  lemma BargeInEnds(s: State) returns (r: Stretch)
    requires s.pc == BargeAwait(0, Some(0), {}) && s.sent == PACKET_BYTES && MarkWaits(s)
    requires s.text == T.Next(T.SILENT, T.BeginEvent) && NewMarkQueued(s)
    ensures Leads(r, s)
    ensures var u := End(r); u.pc == Clears(0, Some(0)) && u.sent == PACKET_BYTES && MarkWaits(u) && NewMarkQueued(u)
  {
    assert Without(s.marks, {}) == s.marks;
    S.SignalNone(s.sess);
    r := Stretch([s, Next(s, BargeDone)], [BargeDone]);
  }

  /** The new mark is anchored behind it. */
  lemma NewMarkBehindStaleOne(s: State) returns (r: Stretch)
    requires s.pc == Clears(0, Some(0)) && s.sent == PACKET_BYTES && MarkWaits(s) && NewMarkQueued(s)
    ensures Leads(r, s)
    ensures var u := End(r);
      && u.pc == AtPacket(0) && u.buffer == [] && u.sess.outbound == []
      && |u.marks| == 2 && u.marks[0].anchor.None? && u.marks[1].name == "b" && u.marks[1].anchor.Some?
      && u.marks[0].name !in u.sess.pending
      && u.sess.waiters == s.sess.waiters
  {
    TakenOne("b", s.sess.pending, PACKET_BYTES, Some(0), |s.cells|);
    r := Stretch([s, Next(s, Take)], [Take]);
  }

  /** A live waiter whose mark is anchored, with no audio queued ahead of it, behind a mark
      that waits and whose own waiter is gone. */
  ghost predicate HeldBack(s: State) {
    && s.pc.AtPacket? && s.buffer == [] && s.sess.outbound == []
    && |s.marks| == 2 && s.marks[0].anchor.None? && s.marks[0].name !in s.sess.pending && s.marks[1].anchor.Some?
    && S.Live(s.sess, 1) && s.sess.waiters[1].key == s.marks[1].name && !s.sess.waiters[1].released
  }

  /** A mark whose waiter timed out survives a barge-in, and then holds back a later mark
      although nothing is queued ahead of that one. */
  lemma StaleMarkHoldsBackLaterMarks()
    ensures exists r: Stretch :: Leads(r, Start(CONNECTED, 0)) && HeldBack(End(r)) && HeldBackForGood(End(r))
  {
    var r := StaleMarkRun();
    EveryRunIsSound(r.states, r.acts, CONNECTED, 0, |r.acts|);
    RunStored(r.states, r.acts, |r.acts|);
    forall c: Stretch | Leads(c, End(r)) && AllLeaveAlone(c, 1)
      ensures !IsSet(End(c), 1)
    {
      BlockedThrough(c.states, c.acts, |c.acts|, 1);
    }
  }

  // ---- what happens afterwards

  /** The first mark waits for audio that nobody holds, and waiter w is not released. */
  ghost predicate Blocked(s: State, w: nat) {
    && s.marks != [] && s.marks[0].anchor.None? && s.marks[0].target > s.sent
    && s.buffer == [] && s.flight == [] && s.sess.outbound == [] && !s.pc.SendAwait? && !s.pc.BargeAwait?
    && w < |s.sess.waiters| && !s.sess.waiters[w].released && S.Stored(s.sess)
  }

  /** Neither new audio nor a barge-in, nor anything by which other threads release w. */
  ghost predicate LeavesAlone(s: State, a: Act, w: nat) {
    && !a.BargeBegin?
    && (a.Env? && a.env.OnSession? ==>
          && !a.env.act.PutOutbound? && !a.env.act.Disconnect? && !a.env.act.Reset?
          && (a.env.act.Echo? && w < |s.sess.waiters| ==> a.env.act.key != s.sess.waiters[w].key))
  }

  ghost predicate AllLeaveAlone(c: Stretch, w: nat)
    requires IsPath(c.states, c.acts)
  {
    forall k {:trigger c.acts[k]} :: 0 <= k < |c.acts| ==> LeavesAlone(c.states[k], c.acts[k], w)
  }

  lemma BlockedKept(s: State, a: Act, w: nat)
    requires Blocked(s, w) && Enabled(s, a) && LeavesAlone(s, a, w)
    ensures Blocked(Next(s, a), w)
  {
    var u := Next(s, a);
    StoredKept(s, a);
    assert forall t :: DueMarks(s.marks, t, s.latency) == 0;
    if a.Take? { assert s.buffer + Concat(s.sess.outbound) == []; }
    if a.Resolve? {
      assert Names(s.marks[..0]) == {};
      S.SignalNone(s.sess);
    }
    if a.Env? && a.env.OnSession? { S.WaiterStays(s.sess, a.env.act, w); }
    if w < |u.sess.waiters| && u.sess.waiters[w].released { EventSetOnlyByFreeing(s, a, w); }
  }

  lemma {:induction false} BlockedThrough(states: seq<State>, acts: seq<Act>, i: nat, w: nat)
    requires IsPath(states, acts) && Blocked(states[0], w) && i <= |acts|
    requires forall k {:trigger acts[k]} :: 0 <= k < |acts| ==> LeavesAlone(states[k], acts[k], w)
    ensures Blocked(states[i], w)
  {
    if i > 0 {
      BlockedThrough(states, acts, i - 1, w);
      assert Steps(states[i - 1], acts[i - 1], states[i]);
      BlockedKept(states[i - 1], acts[i - 1], w);
    }
  }

  /** Until new audio, a barge-in, an echo of its key, a disconnect or a reset, no
      continuation whatever, however long, releases waiter 1. */
  ghost predicate HeldBackForGood(s: State) {
    forall c: Stretch :: Leads(c, s) && AllLeaveAlone(c, 1) ==> !IsSet(End(c), 1)
  }

  lemma StaleMarkRun() returns (r: Stretch)
    ensures Leads(r, Start(CONNECTED, 0)) && HeldBack(End(r))
  {
    r := WriterBound();
    var x := AudioAndMarkQueued(End(r));
    r := Join(r, x);
    x := MarkTaken(End(r));
    r := Join(r, x);
    x := FirstPacketOut(End(r));
    r := Join(r, x);
    x := WaiterGivesUp(End(r));
    r := Join(r, x);
    x := BargeInRequested(End(r));
    r := Join(r, x);
    x := BargeInBegins(End(r));
    r := Join(r, x);
    x := BargeInEnds(End(r));
    r := Join(r, x);
    x := NewMarkBehindStaleOne(End(r));
    r := Join(r, x);
  }
}
