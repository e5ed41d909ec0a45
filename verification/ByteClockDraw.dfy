/** Exactly when a waiter that draws a name can be released before its audio was sent: when
    the writer still tracks a mark of that name. */
module ByteClockDraw {
  import opened Base
  import opened ByteClock
  import opened ByteClockPaths
  import opened ByteClockPromise
  import opened ByteClockRuns
  import opened ByteClockWaits
  import opened History
  import A = ByteClockAudio
  import M = ByteClockMarks
  import S = Session

  /** The loop sleeps, bound to a connected session, with no text and no barge-in to serve. */
  ghost predicate Rested(s: State) {
    && s.pc.Sleeping? && s.bound && s.text.queue == [] && s.sess.hasLoop
    && ClearsLeft(s.sess, s.sess.clearQueue) == 0
  }

  /** Audio is queued and then a waiter registered under the key it drew. */
  ghost function Drawn(s: State, data: seq<byte>, key: S.Key): State
    requires Rested(s) && key !in s.sess.pending
  {
    On(On(s, S.PutOutbound(data)), S.Register(key))
  }

  /** Waiter w is released although not all of the first p bytes are sent. */
  ghost predicate ReleasedUnsent(s: State, w: nat, p: nat) {
    IsSet(s, w) && p <= |s.cells| && |Live(s.cells[..p])| > |s.wire|
  }

  /** A continuation in which the byte clock, and nobody else, releases the new waiter
      although audio queued before it is not sent. */
  ghost predicate ReleasesEarly(s: State, data: seq<byte>, key: S.Key, c: Stretch)
    requires Rested(s) && key !in s.sess.pending
  {
    && Leads(c, Drawn(s, data, key)) && Calm(c.acts)
    && ReleasedUnsent(End(c), |s.sess.waiters|, |s.cells| + |data|)
  }

  // ---- no tracked mark of the name, no early release

  lemma DrawStretch(s: State, data: seq<byte>, key: S.Key) returns (d: Stretch)
    requires Rested(s) && key !in s.sess.pending
    ensures Leads(d, s) && End(d) == Drawn(s, data, key)
    ensures d.acts == [Env(OnSession(S.PutOutbound(data))), Env(OnSession(S.Register(key)))]
    ensures d.states[1] == On(s, S.PutOutbound(data))
  {
    var s1 := On(s, S.PutOutbound(data));
    d := Stretch([s, s1, On(s1, S.Register(key))],
                 [Env(OnSession(S.PutOutbound(data))), Env(OnSession(S.Register(key)))]);
  }

  lemma DrawnState(s: State, data: seq<byte>, key: S.Key)
    requires Rested(s) && key !in s.sess.pending
    ensures var s1, u := On(s, S.PutOutbound(data)), Drawn(s, data, key);
      && s1.marks == s.marks && |s1.cells| == |s.cells| + |data| && s1.sess.waiters == s.sess.waiters
      && s1.sess.hasLoop
      && Rested(u) && u.marks == s.marks && u.cells == s1.cells && u.sent == s.sent && u.time == s.time
      && u.buffer == s.buffer && u.sess.outbound == s.sess.outbound + [data]
      && S.Owns(u.sess, |s.sess.waiters|) && |u.sess.waiters| == |s.sess.waiters| + 1
      && u.sess.waiters[|s.sess.waiters|].key == key
  {}

  lemma CalmIsNotOthers(states: seq<State>, acts: seq<Act>, r: nat, w: nat)
    requires |states| > |acts| && r < |acts| && Calm(acts[r + 1..])
    ensures !EndedByOthers(states, acts, r, |acts|, w)
  {
    forall j | r < j < |acts| ensures !EndedAt(states, acts, j, w) {
      assert acts[r + 1..][j - r - 1] == acts[j];
      CalmReleasesByTheClock(states[j], acts[j], w);
    }
  }

  lemma EarlyNeedsTracked(
      p: Stretch, sess: S.Sess, latency: nat, key: S.Key, data: seq<byte>, c: Stretch)
    requires Leads(p, Start(sess, latency)) && S.Stored(sess)
    requires Rested(End(p)) && key !in End(p).sess.pending && ReleasesEarly(End(p), data, key, c)
    ensures Tracks(End(p), key)
  {
    var s := End(p);
    var w, size := |s.sess.waiters|, |s.cells| + |data|;
    DrawnState(s, data, key);
    var d := DrawStretch(s, data, key);
    var y := Join(d, c);
    var e := Join(p, y);
    var r := |p.acts| + 1;
    assert e.acts[r] == y.acts[1] == d.acts[1];
    assert e.acts[r + 1..] == c.acts;
    assert e.states[r] == y.states[1] == d.states[1];
    CalmIsNotOthers(e.states, e.acts, r, w);
    if !Tracks(s, key) {
      assert !Tracks(e.states[r], key);
      var j, k := OthersOrClock(e.states, e.acts, sess, latency, r, |e.acts|, w, key);
      PlayedFromThenOn(e.states, e.acts, sess, latency, j, |e.acts|, k, key, size);
    }
  }

  // ---- a tracked mark of the name: send until it is resolved

  ghost function Backlog(s: State): nat { |s.buffer| + |Concat(s.sess.outbound)| }

  /** A mark that is reached by the time `top` bytes are sent. */
  ghost predicate Old(s: State, m: Mark, top: nat) {
    && m.target <= top && (m.anchor.Some? <==> m.target <= s.sent)
    && (m.anchor.Some? ==> m.anchor.value <= s.time)
  }

  ghost predicate AllOld(s: State, k: nat, top: nat) {
    k < |s.marks| && forall i :: 0 <= i <= k ==> Old(s, s.marks[i], top)
  }

  /** Mark k, which stands for waiter w, and those before it are old. */
  ghost predicate Aimed(s: State, w: nat, k: nat, top: nat) {
    && w < |s.sess.waiters| && S.Owns(s.sess, w)
    && AllOld(s, k, top) && s.marks[k].name == s.sess.waiters[w].key
  }

  /** And there is enough audio to send beyond all of them. */
  ghost predicate Driving(s: State, w: nat, k: nat, top: nat) {
    && Rested(s) && Aimed(s, w, k, top)
    && Backlog(s) > PACKET_BYTES && Backlog(s) + s.sent > top + 2 * PACKET_BYTES
  }

  /** A pass begins when a packet is due, and takes everything queued. */
  lemma PassTakes(s: State, t: nat) returns (c: Stretch)
    requires Rested(s) && t >= s.time
    ensures Leads(c, s) && Calm(c.acts)
    ensures var u := End(c);
      && u.pc == AtPacket(t) && u.time == t && u.nextSend == s.nextSend && u.sent == s.sent
      && |u.buffer| == Backlog(s) && s.marks <= u.marks && u.cells == s.cells && u.latency == s.latency
      && u.bound && u.text == s.text && u.sess == s.sess.(outbound := [], markQueue := [])
  {
    var s1 := Next(s, Wake);
    var s2 := Next(s1, Serve(t));
    c := Stretch([s, s1, s2, Next(s2, Take)], [Wake, Serve(t), Take]);
  }

  lemma PassSends(s: State, t: nat) returns (c: Stretch)
    requires s.pc == AtPacket(t) && s.time == t && t >= s.nextSend && |s.buffer| > PACKET_BYTES
    ensures Leads(c, s) && Calm(c.acts)
    ensures var u := End(c);
      && u.pc == AtResolve && u.time == t && u.sent == s.sent + PACKET_BYTES
      && |u.buffer| == |s.buffer| - PACKET_BYTES && u.marks == Anchor(s.marks, u.sent, t)
      && u.cells == s.cells && u.latency == s.latency && u.bound == s.bound && u.text == s.text && u.sess == s.sess
  {
    var s1 := Next(s, Cut);
    c := Stretch([s, s1, Next(s1, SentOk(t))], [Cut, SentOk(t)]);
  }

  /** Every old mark that is anchored is due once the latency has passed: either mark k is
      resolved, or it moves up and bytes of an old mark are still to be sent. */
  lemma DueOrMovedUp(s: State, w: nat, k: nat, top: nat) returns (n: nat)
    requires Aimed(s, w, k, top)
    ensures n == DueMarks(s.marks, s.time + s.latency, s.latency)
    ensures k < n || s.sent < top
  {
    n := DueMarks(s.marks, s.time + s.latency, s.latency);
    M.DueMarksAreDue(s.marks, s.time + s.latency, s.latency);
    if n <= k { assert Old(s, s.marks[n], top); }
  }

  lemma ResolvedDue(s: State, n: nat) returns (c: Stretch)
    requires s.pc == AtResolve && n == DueMarks(s.marks, s.time + s.latency, s.latency)
    ensures Leads(c, s) && Calm(c.acts)
    ensures var u := End(c);
      && u.pc == Sleeping && u.sent == s.sent && u.buffer == s.buffer && u.cells == s.cells && u.time >= s.time
      && u.bound == s.bound && u.text == s.text && u.latency == s.latency && u.marks == s.marks[n..]
      && u.sess == S.SignalAll(s.sess, Names(s.marks[..n]))
  {
    var t := s.time + s.latency;
    c := Stretch([s, Next(s, Resolve(t))], [Resolve(t)]);
  }

  lemma PassResolves(s: State, w: nat, k: nat, top: nat) returns (c: Stretch, k': nat)
    requires s.pc == AtResolve && Aimed(s, w, k, top)
    ensures Leads(c, s) && Calm(c.acts)
    ensures var u := End(c);
      && u.pc == Sleeping && u.sent == s.sent && u.buffer == s.buffer && u.cells == s.cells
      && u.bound == s.bound && u.text == s.text && u.latency == s.latency
      && u.sess == s.sess.(waiters := u.sess.waiters)
      && (IsSet(u, w) || (Aimed(u, w, k', top) && u.sent < top))
  {
    var n := DueOrMovedUp(s, w, k, top);
    c := ResolvedDue(s, n);
    var u := End(c);
    if k < n {
      k' := 0;
      NamedIsSet(s.sess, s.marks, n, k, w);
    } else {
      k' := k - n;
      MovedUpKeepsAim(s, u, w, k, n, top);
    }
  }

  lemma NamedIsSet(s: S.Sess, marks: seq<Mark>, n: nat, k: nat, w: nat)
    requires k < n <= |marks| && w < |s.waiters| && S.Owns(s, w) && marks[k].name == s.waiters[w].key
    ensures S.SignalAll(s, Names(marks[..n])).waiters[w].released
  {
    assert marks[..n][k].name in Names(marks[..n]);
    assert w in S.EventsOf(s, Names(marks[..n]));
  }

  lemma MovedUpKeepsAim(s: State, u: State, w: nat, k: nat, n: nat, top: nat)
    requires Aimed(s, w, k, top) && n <= k && u.marks == s.marks[n..] && u.sent == s.sent && u.time >= s.time
    requires u.sess.pending == s.sess.pending && |u.sess.waiters| == |s.sess.waiters|
    requires u.sess.waiters[w].key == s.sess.waiters[w].key
    ensures Aimed(u, w, k - n, top)
  {
    forall i | 0 <= i <= k - n ensures Old(u, u.marks[i], top) { assert Old(s, s.marks[n + i], top); }
  }

  lemma TakenKeepsAim(s: State, u: State, w: nat, k: nat, top: nat)
    requires Aimed(s, w, k, top) && s.marks <= u.marks && u.sent == s.sent && u.time >= s.time
    requires u.sess == s.sess.(outbound := [], markQueue := [])
    ensures Aimed(u, w, k, top)
  {
    forall i | 0 <= i <= k ensures Old(u, u.marks[i], top) { assert Old(s, s.marks[i], top); }
  }

  lemma SentKeepsAim(s: State, u: State, w: nat, k: nat, top: nat)
    requires Aimed(s, w, k, top) && u.marks == Anchor(s.marks, u.sent, u.time)
    requires u.sent >= s.sent && u.time == s.time && u.sess == s.sess
    ensures Aimed(u, w, k, top)
  {
    forall i | 0 <= i <= k ensures Old(u, u.marks[i], top) { assert Old(s, s.marks[i], top); }
  }

  /** One pass sends a packet; then the waiter is released or the next pass can begin. */
  lemma OnePass(s: State, w: nat, k: nat, top: nat) returns (c: Stretch, k': nat)
    requires Driving(s, w, k, top)
    ensures Leads(c, s) && Calm(c.acts)
    ensures var u := End(c);
      && u.cells == s.cells && Backlog(u) > 0
      && (IsSet(u, w) || (Driving(u, w, k', top) && s.sent < u.sent < top))
  {
    var t := if s.time < s.nextSend then s.nextSend else s.time;
    c := PassTakes(s, t);
    TakenKeepsAim(s, End(c), w, k, top);
    var x := PassSends(End(c), t);
    SentKeepsAim(End(c), End(x), w, k, top);
    c := Join(c, x);
    var y, k1 := PassResolves(End(c), w, k, top);
    k' := k1;
    c := Join(c, y);
  }

  lemma {:induction false} Drive(s: State, w: nat, k: nat, top: nat) returns (c: Stretch)
    requires Driving(s, w, k, top)
    ensures Leads(c, s) && Calm(c.acts) && IsSet(End(c), w)
    ensures End(c).cells == s.cells && Backlog(End(c)) > 0
    decreases if s.sent < top then top - s.sent else 0
  {
    var x, k' := OnePass(s, w, k, top);
    c := x;
    if !IsSet(End(x), w) {
      var y := Drive(End(x), w, k', top);
      c := Join(x, y);
    }
  }

  lemma {:induction false} UpperTarget(marks: seq<Mark>) returns (top: nat)
    ensures forall m :: m in marks ==> m.target <= top
  {
    if marks == [] {
      top := 0;
    } else {
      var rest := UpperTarget(marks[1..]);
      top := if rest < marks[0].target then marks[0].target else rest;
      assert forall m :: m in marks ==> m == marks[0] || m in marks[1..];
    }
  }

  lemma TrackedIsEarly(p: Stretch, sess: S.Sess, latency: nat, key: S.Key) returns (data: seq<byte>, c: Stretch)
    requires Leads(p, Start(sess, latency)) && Rested(End(p)) && key !in End(p).sess.pending
    requires Tracks(End(p), key)
    ensures ReleasesEarly(End(p), data, key, c)
  {
    var s := End(p);
    EveryRunIsSound(p.states, p.acts, sess, latency, |p.acts|);
    data, c := DriveDrawn(s, key);
    var d := DrawStretch(s, data, key);
    var e := Join(p, d);
    e := Join(e, c);
    BacklogUnsent(e, sess, latency);
    assert End(c).cells[..|s.cells| + |data|] == End(c).cells;
  }

  lemma DriveDrawn(s: State, key: S.Key) returns (data: seq<byte>, c: Stretch)
    requires M.Inv(s) && Rested(s) && key !in s.sess.pending && Tracks(s, key)
    ensures Leads(c, Drawn(s, data, key)) && Calm(c.acts) && IsSet(End(c), |s.sess.waiters|)
    ensures |End(c).cells| == |s.cells| + |data| && Backlog(End(c)) > 0
  {
    var m :| m in s.marks && m.name == key;
    var k :| 0 <= k < |s.marks| && s.marks[k] == m;
    var top := UpperTarget(s.marks);
    data := seq(top + 2 * PACKET_BYTES + 1, _ => 0);
    DrawnState(s, data, key);
    ConcatSnoc(s.sess.outbound, data);
    AllTrackedOld(s, Drawn(s, data, key), k, top);
    c := Drive(Drawn(s, data, key), |s.sess.waiters|, k, top);
  }

  lemma AllTrackedOld(s: State, u: State, k: nat, top: nat)
    requires M.Inv(s) && k < |s.marks| && forall m :: m in s.marks ==> m.target <= top
    requires u.marks == s.marks && u.sent == s.sent && u.time == s.time
    ensures AllOld(u, k, top)
  {
    forall i | 0 <= i <= k ensures Old(u, u.marks[i], top) {
      assert M.MarkOk(s, s.marks[i]) && s.marks[i] in s.marks;
    }
  }

  lemma BacklogUnsent(e: Stretch, sess: S.Sess, latency: nat)
    requires Leads(e, Start(sess, latency)) && Backlog(End(e)) > 0
    ensures |Live(End(e).cells)| > |End(e).wire|
  {
    EveryRunIsSound(e.states, e.acts, sess, latency, |e.acts|);
  }

  /** In every state in which the loop rests: some audio and some continuation without a
      barge-in or another release let a waiter that draws `key` go before its audio is sent,
      if and only if a mark of that name is still tracked. */
  lemma DrawSafeIff(p: Stretch, sess: S.Sess, latency: nat, key: S.Key)
    requires Leads(p, Start(sess, latency)) && S.Stored(sess)
    requires Rested(End(p)) && key !in End(p).sess.pending
    ensures (exists data: seq<byte>, c: Stretch :: ReleasesEarly(End(p), data, key, c)) <==> Tracks(End(p), key)
  {
    if Tracks(End(p), key) {
      var data, c := TrackedIsEarly(p, sess, latency, key);
    }
    forall data: seq<byte>, c: Stretch | ReleasesEarly(End(p), data, key, c) ensures Tracks(End(p), key) {
      EarlyNeedsTracked(p, sess, latency, key, data, c);
    }
  }
}
