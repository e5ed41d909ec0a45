/** Conservation and pacing of the audio: every step of the send loop keeps them. */
module ByteClockAudio {
  import opened Base
  import opened History
  import opened ByteClock
  import S = Session

  /** The audio carried by packets, padding removed. */
  ghost function Payload(packets: seq<Packet>): seq<byte> {
    if packets == [] then []
    else var last := packets[|packets| - 1];
      Payload(packets[..|packets| - 1]) + if last.fill <= |last.data| then last.data[..last.fill] else last.data
  }

  /** 1600 bytes, of which the first `fill` (at least one) are audio and the rest 0xFF. */
  ghost predicate WellFormed(p: Packet) {
    && |p.data| == PACKET_BYTES
    && 0 < p.fill <= PACKET_BYTES
    && forall i :: p.fill <= i < PACKET_BYTES ==> p.data[i] == PAD_BYTE
  }

  /** What was queued and not discarded is on the wire, in flight, buffered or still
      queued, in this order and each byte once. */
  ghost predicate Conserved(s: State) {
    Live(s.cells) == s.wire + s.flight + s.buffer + Concat(s.sess.outbound)
  }

  ghost predicate OnTheWire(s: State) {
    && s.wire == Payload(s.packets)
    && s.sent == PACKET_BYTES * |s.packets|
    && forall i :: 0 <= i < |s.packets| ==> WellFormed(s.packets[i])
  }

  ghost predicate InTransit(s: State) {
    && (s.pc.SendAwait? ==> 0 < |s.flight| <= PACKET_BYTES && (|s.flight| < PACKET_BYTES ==> s.buffer == []))
    && (!s.pc.SendAwait? && !s.pc.Stopped? ==> s.flight == [])
    && (s.pc.BargeAwait? ==> s.buffer == [])
  }

  /** The reading the current service pass took when it began. */
  function PassTime(pc: Phase): Option<nat> {
    match pc
    case Clears(now, _) => Some(now)
    case BargeAwait(now, _, _) => Some(now)
    case AtPacket(now) => Some(now)
    case _ => None
  }

  /** A packet starts at least 200 ms after the previous one was accepted. */
  ghost predicate Paced(s: State) {
    && (forall i :: 0 <= i < |s.packets| ==> s.packets[i].start <= s.packets[i].end <= s.time)
    && (forall i, j :: 0 <= i < j < |s.packets| ==> s.packets[i].end + PACKET_INTERVAL <= s.packets[j].start)
    && (forall i :: 0 <= i < |s.packets| ==> s.packets[i].end + PACKET_INTERVAL <= s.nextSend)
    && (s.pc.SendAwait? ==> s.nextSend <= s.pc.start <= s.time)
    && (PassTime(s.pc).Some? ==>
        PassTime(s.pc).value <= s.time
        && forall i :: 0 <= i < |s.packets| ==> s.packets[i].end <= PassTime(s.pc).value)
  }

  ghost predicate Inv(s: State) { Conserved(s) && OnTheWire(s) && InTransit(s) && Paced(s) }

  lemma StartInv(sess: S.Sess, latency: nat)
    ensures Inv(Start(sess, latency))
  {
    LiveArrived(Concat(sess.outbound));
  }

  lemma BargeBeginConserves(s: State)
    requires Inv(s) && Enabled(s, BargeBegin)
    ensures Conserved(Next(s, BargeBegin))
  {
    DiscardKeepsFirst(s.cells, |s.wire| + |s.flight|);
    assert Live(s.cells)[..|s.wire| + |s.flight|] == s.wire + s.flight;
  }

  lemma SplitBuffer(wire: seq<byte>, buffer: seq<byte>, n: nat)
    requires n <= |buffer|
    ensures wire + buffer[..n] + buffer[n..] == wire + [] + buffer
  {
    assert buffer == buffer[..n] + buffer[n..];
  }

  lemma CutConserves(s: State)
    requires Inv(s) && Enabled(s, Cut)
    ensures Conserved(Next(s, Cut)) && InTransit(Next(s, Cut))
  {
    var u := Next(s, Cut);
    if u.pc.SendAwait? {
      SplitBuffer(s.wire, s.buffer, |u.flight|);
    }
  }

  lemma TakeConserves(s: State)
    requires Inv(s) && Enabled(s, Take)
    ensures Conserved(Next(s, Take))
  {
    var held, queued := s.wire + s.flight, Concat(s.sess.outbound);
    assert held + (s.buffer + queued) + [] == held + s.buffer + queued;
  }

  lemma LandConserves(s: State, t: nat)
    requires Inv(s) && Enabled(s, SentOk(t))
    ensures Conserved(Next(s, SentOk(t))) && OnTheWire(Next(s, SentOk(t)))
  {
    var p := Packet(Padded(s.flight), |s.flight|, s.pc.start, t);
    assert WellFormed(p);
    assert (s.packets + [p])[..|s.packets|] == s.packets;
  }

  lemma ArrivalConserves(s: State, data: seq<byte>)
    requires Conserved(s)
    ensures Conserved(s.(sess := s.sess.(outbound := s.sess.outbound + [data]), cells := s.cells + Arrived(data)))
  {
    ArrivalAppends(s.cells, data);
    ConcatSnoc(s.sess.outbound, data);
  }

  lemma ResetConserves(s: State)
    requires Conserved(s)
    ensures Live(Discard(s.cells, |s.wire| + |s.flight| + |s.buffer|)) == s.wire + s.flight + s.buffer
  {
    var keep := |s.wire| + |s.flight| + |s.buffer|;
    DiscardKeepsFirst(s.cells, keep);
    assert Live(s.cells)[..keep] == s.wire + s.flight + s.buffer;
  }

  lemma SessionActConserves(s: State, act: S.Act)
    requires Inv(s) && Enabled(s, Env(OnSession(act)))
    ensures Conserved(Next(s, Env(OnSession(act))))
  {
    if act.PutOutbound? {
      if s.sess.hasLoop { ArrivalConserves(s, act.data); }
    } else if act.Reset? {
      ResetConserves(s);
      NothingQueued(s.wire + s.flight + s.buffer);
    } else {
      OutboundUntouched(s, act);
    }
  }

  lemma OutboundUntouched(s: State, act: S.Act)
    requires Enabled(s, Env(OnSession(act))) && !act.PutOutbound? && !act.Reset?
    ensures var u := Next(s, Env(OnSession(act)));
      && u.sess.outbound == s.sess.outbound && u.cells == s.cells
      && u.wire == s.wire && u.flight == s.flight && u.buffer == s.buffer
  {
    assert S.Next(s.sess, act).outbound == s.sess.outbound;
  }

  lemma NothingQueued(held: seq<byte>)
    ensures held == held + Concat([])
  {}

  /** The acts that move no audio leave everything about it as it was. */
  lemma AudioUntouched(s: State, a: Act)
    requires InTransit(s) && Enabled(s, a)
    requires !a.BargeBegin? && !a.Cut? && !a.SentOk? && !a.Take? && !(a.Env? && a.env.OnSession?)
    ensures var u := Next(s, a);
      && u.cells == s.cells && u.wire == s.wire && u.flight == s.flight && u.buffer == s.buffer
      && u.sess.outbound == s.sess.outbound && u.packets == s.packets && u.sent == s.sent
      && (u.pc.SendAwait? ==> u.pc == s.pc) && (u.pc.BargeAwait? ==> u.pc == s.pc)
      && (s.pc.SendAwait? ==> u.pc.SendAwait? || u.pc.Stopped?) && (s.pc.Stopped? ==> u.pc.Stopped?)
  {}

  lemma ConservedKept(s: State, a: Act)
    requires Inv(s) && Enabled(s, a)
    ensures Conserved(Next(s, a)) && OnTheWire(Next(s, a)) && InTransit(Next(s, a))
  {
    if a.BargeBegin? {
      BargeBeginConserves(s);
    } else if a.Cut? {
      CutConserves(s);
    } else if a.SentOk? {
      LandConserves(s, a.t);
    } else if a.Take? {
      TakeConserves(s);
    } else if a.Env? && a.env.OnSession? {
      SessionActConserves(s, a.env.act);
    } else {
      AudioUntouched(s, a);
    }
  }

  /** The acts that land no packet leave the packets and move the clock forward. */
  lemma NothingLanded(s: State, a: Act)
    requires Enabled(s, a) && !a.SentOk?
    ensures var u := Next(s, a);
      && u.packets == s.packets && u.nextSend == s.nextSend && u.time >= s.time
      && (u.pc.SendAwait? ==>
            u.pc == s.pc || (u.pc.start == s.time && PassTime(s.pc).Some? && PassTime(s.pc).value >= s.nextSend))
      && (PassTime(u.pc).Some? ==> PassTime(u.pc) == PassTime(s.pc) || PassTime(u.pc) == Some(u.time))
  {}

  lemma PacedKept(s: State, a: Act)
    requires Inv(s) && Enabled(s, a)
    ensures Paced(Next(s, a))
  {
    if a.SentOk? {
      LandPaces(s, a.t);
    } else {
      NothingLanded(s, a);
    }
  }

  lemma LandPaces(s: State, t: nat)
    requires Paced(s) && Enabled(s, SentOk(t))
    ensures Paced(Next(s, SentOk(t)))
  {}

  lemma InvKept(s: State, a: Act)
    requires Inv(s) && Enabled(s, a)
    ensures Inv(Next(s, a))
  {
    ConservedKept(s, a);
    PacedKept(s, a);
  }

  // ---- at most five packets a second

  lemma {:induction false} StartsSpread(s: State, i: nat, k: nat)
    requires Inv(s) && i + k < |s.packets|
    ensures s.packets[i].start + k * PACKET_INTERVAL <= s.packets[i + k].start
  {
    if k > 0 {
      StartsSpread(s, i, k - 1);
      assert s.packets[i + k - 1].end + PACKET_INTERVAL <= s.packets[i + k].start;
    }
  }

  /** The packets started within one second from `from`. */
  ghost function StartedWithinASecond(packets: seq<Packet>, from: nat): set<nat> {
    set i: nat | i < |packets| && from <= packets[i].start < from + 1000
  }

  lemma SmallRange(ids: set<nat>, low: nat)
    requires forall i :: i in ids ==> low <= i < low + 5
    ensures |ids| <= 5
  {
    var all := {low, low + 1, low + 2, low + 3, low + 4};
    assert ids <= all;
    var rest := all - ids;
    assert all == ids + rest;
    assert |all| == 5;
  }

  /** Whatever the clock and the inputs, no half-open window of a second sees more than
      five packets start. */
  lemma FivePacketsASecond(s: State, from: nat)
    requires Inv(s)
    ensures |StartedWithinASecond(s.packets, from)| <= 5
  {
    var ids := StartedWithinASecond(s.packets, from);
    if ids != {} {
      var low := Lowest(ids);
      forall i | i in ids ensures low <= i < low + 5 {
        StartsSpread(s, low, i - low);
      }
      SmallRange(ids, low);
    }
  }

  lemma Lowest(ids: set<nat>) returns (low: nat)
    requires ids != {}
    ensures low in ids && forall i :: i in ids ==> low <= i
    decreases |ids|
  {
    var first :| first in ids;
    low := first;
    var rest := ids - {first};
    assert forall i :: i in ids ==> i == first || i in rest;
    if rest != {} {
      var other := Lowest(rest);
      if other < low { low := other; }
    }
  }
}
