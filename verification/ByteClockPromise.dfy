/** End to end: what a wait for a playback mark that returns normally says about the audio
    queued before it. */
module ByteClockPromise {
  import opened Base
  import opened History
  import opened ByteClock
  import opened ByteClockPaths
  import opened ByteClockProgress
  import opened ByteClockWaits
  import A = ByteClockAudio
  import M = ByteClockMarks
  import R = ByteClockRuns
  import S = Session

  /** The mark was resolved when all audio queued ahead of it and not discarded was on the
      wire and the latency had passed since its last byte was accepted. */
  ghost predicate Sound(s: State, r: Resolved) {
    && r.mark.pos <= |s.cells| && Live(s.cells[..r.mark.pos]) <= s.wire
    && r.mark.target <= s.sent && r.mark.anchor.Some? && r.at >= r.mark.anchor.value + s.latency
    && (r.mark.target > 0 ==>
        (r.mark.target - 1) / PACKET_BYTES < |s.packets|
        && r.at >= s.packets[(r.mark.target - 1) / PACKET_BYTES].end + s.latency)
  }

  /** A mark of that name that stands behind the first p bytes was resolved soundly, and
      these bytes, as far as they were not discarded, are on the wire. */
  ghost predicate Played(s: State, name: S.Key, p: nat) {
    && p <= |s.cells| && Live(s.cells[..p]) <= s.wire
    && exists i :: 0 <= i < |s.resolved| && Answers(s, s.resolved[i], name, p)
  }

  ghost predicate Answers(s: State, r: Resolved, name: S.Key, p: nat) {
    r.mark.name == name && p <= r.mark.pos && Sound(s, r)
  }

  /** Every tracked mark of that name stands behind the first p bytes. */
  ghost predicate Behind(s: State, name: S.Key, p: nat) {
    p <= |s.cells| && forall m :: m in s.marks && m.name == name ==> p <= m.pos
  }

  lemma BehindKept(s: State, a: Act, name: S.Key, p: nat)
    requires A.Inv(s) && Enabled(s, a) && Behind(s, name, p)
    ensures Behind(Next(s, a), name, p)
  {
    var u := Next(s, a);
    CellsGrow(s, a);
    if a.Take? {
      var buffer := s.buffer + Concat(s.sess.outbound);
      M.TakenMarks(s.sess.markQueue, s.sess.pending, s.sent + |buffer|,
                   if s.sent + |buffer| == s.sent then Some(s.pc.now) else None, |s.cells|);
    } else if a.SentOk? {
      forall m | m in u.marks && m.name == name ensures p <= m.pos {
        var i :| 0 <= i < |u.marks| && u.marks[i] == m;
        assert s.marks[i].name == name && s.marks[i].pos == m.pos;
      }
    } else if !a.Resolve? {
      M.MarksUntouched(s, a);
    }
  }

  lemma CellsGrow(s: State, a: Act)
    requires A.Inv(s) && Enabled(s, a)
    ensures |s.cells| <= |Next(s, a).cells|
  {
    if a.BargeBegin? {
      DiscardKeepsFirst(s.cells, |s.wire| + |s.flight|);
    } else if a.Env? {
      M.EnvNoWorse(s, a.env);
    } else {
      assert Next(s, a).cells == s.cells;
    }
  }

  lemma BehindStep(s: State, a: Act, t: State, name: S.Key, p: nat)
    requires R.Inv(s) && Steps(s, a, t) && Behind(s, name, p)
    ensures Behind(t, name, p)
  {
    BehindKept(s, a, name, p);
  }

  lemma {:induction false} BehindThrough(
      states: seq<State>, acts: seq<Act>, sess: S.Sess, latency: nat, i: nat, j: nat, name: S.Key, p: nat)
    requires IsPath(states, acts) && states[0] == Start(sess, latency) && i <= j <= |acts|
    requires Behind(states[i], name, p)
    ensures Behind(states[j], name, p)
    decreases j - i
  {
    if i < j {
      BehindThrough(states, acts, sess, latency, i, j - 1, name, p);
      R.EveryRunIsSound(states, acts, sess, latency, j - 1);
      BehindStep(states[j - 1], acts[j - 1], states[j], name, p);
    }
  }

  lemma ClockRecordsResolution(s: State, a: Act, w: nat, p: nat) returns (i: nat)
    requires Enabled(s, a) && ByTheClock(s, a, w) && Behind(s, s.sess.waiters[w].key, p)
    ensures i < |Next(s, a).resolved|
    ensures Next(s, a).resolved[i].mark.name == s.sess.waiters[w].key && p <= Next(s, a).resolved[i].mark.pos
  {
    var n := DueMarks(s.marks, a.t, s.latency);
    var k :| 0 <= k < n && s.marks[..n][k].name == s.sess.waiters[w].key;
    i := |s.resolved| + k;
    ResolvedAt(s, a.t, k);
    assert s.marks[k] in s.marks;
  }

  lemma ResolvedAt(s: State, t: nat, k: nat)
    requires Enabled(s, Resolve(t)) && k < DueMarks(s.marks, t, s.latency)
    ensures |s.resolved| + k < |Next(s, Resolve(t)).resolved|
    ensures Next(s, Resolve(t)).resolved[|s.resolved| + k].mark == s.marks[k]
  {}

  lemma {:induction false} ResolvedStays(states: seq<State>, acts: seq<Act>, i: nat, j: nat)
    requires IsPath(states, acts) && i <= j <= |acts|
    ensures states[i].resolved <= states[j].resolved
    decreases j - i
  {
    if i < j {
      ResolvedStays(states, acts, i, j - 1);
      assert Steps(states[j - 1], acts[j - 1], states[j]);
      ResolvedGrows(states[j - 1], acts[j - 1]);
    }
  }

  lemma ResolvedGrows(s: State, a: Act)
    requires Enabled(s, a)
    ensures s.resolved <= Next(s, a).resolved
  {}

  lemma ResolvedIsPlayed(s: State, k: nat, p: nat)
    requires A.Inv(s) && M.Inv(s) && k < |s.resolved| && p <= s.resolved[k].mark.pos
    ensures Played(s, s.resolved[k].mark.name, p)
  {
    var r := s.resolved[k];
    M.ResolvedMarkIsSound(s, k);
    assert Answers(s, r, r.mark.name, p);
    assert s.cells[..r.mark.pos][..p] == s.cells[..p];
    LiveOfPrefix(s.cells[..r.mark.pos], p);
  }

  ghost predicate ClockAt(s: State, a: Act, w: nat, key: S.Key, p: nat) {
    ByTheClock(s, a, w) && s.sess.waiters[w].key == key && Behind(s, key, p)
  }

  lemma ClockRecordsAt(states: seq<State>, acts: seq<Act>, j: nat, w: nat, key: S.Key, p: nat) returns (k: nat)
    requires IsPath(states, acts) && j < |acts| && ClockAt(states[j], acts[j], w, key, p)
    ensures k < |states[j + 1].resolved| && p <= states[j + 1].resolved[k].mark.pos
    ensures states[j + 1].resolved[k].mark.name == key
  {
    assert Steps(states[j], acts[j], states[j + 1]);
    k := ClockRecordsResolution(states[j], acts[j], w, p);
  }

  lemma PlayedFromThenOn(
      states: seq<State>, acts: seq<Act>, sess: S.Sess, latency: nat, j: nat, i: nat, k: nat, key: S.Key, p: nat)
    requires IsPath(states, acts) && states[0] == Start(sess, latency) && j <= i <= |acts|
    requires k < |states[j].resolved| && states[j].resolved[k].mark.name == key && p <= states[j].resolved[k].mark.pos
    ensures Played(states[i], key, p)
  {
    ResolvedStays(states, acts, j, i);
    assert states[i].resolved[k] == states[j].resolved[k];
    R.EveryRunIsSound(states, acts, sess, latency, i);
    ResolvedIsPlayed(states[i], k, p);
  }

  /** The writer tracks a mark of that name. */
  ghost predicate Tracks(s: State, key: S.Key) { exists m :: m in s.marks && m.name == key }

  /** The event of a waiter is set only after it was registered. */
  lemma CauseAfterRegistration(states: seq<State>, acts: seq<Act>, r: nat, i: nat, w: nat, key: S.Key) returns (j: nat)
    requires IsPath(states, acts) && S.Stored(states[0].sess) && r < i <= |acts|
    requires Registers(states[r], acts[r], w, key)
    requires w < |states[i].sess.waiters| && states[i].sess.waiters[w].released
    ensures r < j < i && Frees(states[j], acts[j], w) && states[j].sess.waiters[w].key == key
  {
    NewWaiter(states[r], acts[r], states[r + 1], w, key);
    if w < |states[0].sess.waiters| { WaiterStaysThrough(states, acts, 0, r, w); }
    j := SetEventHasCause(states, acts, i, w);
    FreedWaiterExists(states[j], acts[j], w);
    if j <= r { WaiterStaysThrough(states, acts, j, r, w); }
    WaiterStaysThrough(states, acts, r + 1, j, w);
  }

  lemma FreedWaiterExists(s: State, a: Act, w: nat)
    requires Frees(s, a, w)
    ensures w < |s.sess.waiters|
  {}

  /** Somebody else ended the wait of w between r and i. */
  ghost predicate EndedByOthers(states: seq<State>, acts: seq<Act>, r: nat, i: nat, w: nat)
    requires |states| > |acts| && i <= |acts|
  {
    exists j :: r < j < i && EndedAt(states, acts, j, w)
  }

  ghost predicate EndedAt(states: seq<State>, acts: seq<Act>, j: nat, w: nat)
    requires j < |states| && j < |acts|
  {
    NotByTheClock(states[j], acts[j], w)
  }

  lemma OneOrTheOther(states: seq<State>, acts: seq<Act>, r: nat, c: nat, i: nat, w: nat)
    requires |states| > |acts| && r < c < i <= |acts| && Frees(states[c], acts[c], w)
    ensures EndedByOthers(states, acts, r, i, w) || ByTheClock(states[c], acts[c], w)
  {
    if !ByTheClock(states[c], acts[c], w) { assert EndedAt(states, acts, c, w); }
  }

  lemma OthersOrClock(
      states: seq<State>, acts: seq<Act>, sess: S.Sess, latency: nat, r: nat, i: nat, w: nat, key: S.Key)
      returns (j: nat, k: nat)
    requires IsPath(states, acts) && states[0] == Start(sess, latency) && S.Stored(sess)
    requires r < i <= |acts| && Registers(states[r], acts[r], w, key) && !Tracks(states[r], key)
    requires IsSet(states[i], w)
    ensures EndedByOthers(states, acts, r, i, w) || Recorded(states, j, i, k, key, |states[r].cells|)
  {
    var c := CauseAfterRegistration(states, acts, r, i, w, key);
    j, k := 0, 0;
    OneOrTheOther(states, acts, r, c, i, w);
    if !EndedByOthers(states, acts, r, i, w) {
      j, k := ClockRecord(states, acts, sess, latency, r, c, i, w, key);
    }
  }

  lemma BehindFromRegistration(states: seq<State>, acts: seq<Act>, r: nat, w: nat, key: S.Key)
    requires IsPath(states, acts) && r < |acts| && Registers(states[r], acts[r], w, key) && !Tracks(states[r], key)
    ensures Behind(states[r + 1], key, |states[r].cells|)
  {
    assert Steps(states[r], acts[r], states[r + 1]);
  }

  lemma ClockRecord(
      states: seq<State>, acts: seq<Act>, sess: S.Sess, latency: nat, r: nat, c: nat, i: nat, w: nat,
      key: S.Key) returns (j: nat, k: nat)
    requires IsPath(states, acts) && states[0] == Start(sess, latency)
    requires r < c < i <= |acts| && Registers(states[r], acts[r], w, key) && !Tracks(states[r], key)
    requires ByTheClock(states[c], acts[c], w) && states[c].sess.waiters[w].key == key
    ensures Recorded(states, j, i, k, key, |states[r].cells|)
  {
    BehindFromRegistration(states, acts, r, w, key);
    BehindThrough(states, acts, sess, latency, r + 1, c, key, |states[r].cells|);
    j := c + 1;
    k := ClockRecordsAt(states, acts, c, w, key, |states[r].cells|);
  }

  /** By state j a mark of that name behind the first p bytes was resolved. */
  ghost predicate Recorded(states: seq<State>, j: nat, i: nat, k: nat, key: S.Key, p: nat)
    requires i < |states|
  {
    && j <= i && k < |states[j].resolved|
    && states[j].resolved[k].mark.name == key && p <= states[j].resolved[k].mark.pos
  }

  /** A wait that returns normally, and that no barge-in, echo, disconnect or reset ended,
      returns only after all audio queued before it was registered, as far as it was not
      discarded, was accepted by the socket and the latency of its mark had passed, unless a
      mark of its name was tracked already when it registered. */
  lemma NormalReturnMeansPlayed(
      states: seq<State>, acts: seq<Act>, sess: S.Sess, latency: nat, r: nat, i: nat, w: nat, key: S.Key)
    requires IsPath(states, acts) && states[0] == Start(sess, latency) && S.Stored(sess)
    requires r < i < |acts| && Registers(states[r], acts[r], w, key) && ReturnsNormally(states[i], acts[i], w)
    ensures (acts[i] == Env(OnSession(S.Expire(w))) && states[i].sess.disconnected)
         || EndedByOthers(states, acts, r, i, w)
         || Played(states[i], key, |states[r].cells|)
         || Tracks(states[r], key)
  {
    ReturnIsWakeOrExpiry(states[i], acts[i], w);
    if states[i].sess.waiters[w].released && !Tracks(states[r], key) {
      var j, k := OthersOrClock(states, acts, sess, latency, r, i, w, key);
      if Recorded(states, j, i, k, key, |states[r].cells|) {
        PlayedFromThenOn(states, acts, sess, latency, j, i, k, key, |states[r].cells|);
      }
    }
  }
}
