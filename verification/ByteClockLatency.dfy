/** From when a mark with nothing queued ahead of it counts its latency: the reading its pass
    began with, which is earlier than the moment it is taken exactly if time passed while
    the pass wrote a barge-in event. */
module ByteClockLatency {
  import opened Base
  import opened ByteClock
  import opened ByteClockPaths
  import opened ByteClockProgress
  import opened ByteClockRuns
  import M = ByteClockMarks
  import S = Session
  import T = TextChannel

  /** Acts i to j are those of one service pass up to where it takes the marks. */
  ghost predicate Pass(states: seq<State>, acts: seq<Act>, i: nat, j: nat) {
    && IsPath(states, acts) && i < j < |acts| && acts[i].Serve? && acts[j] == Take
    && forall k {:trigger acts[k]} :: i < k < j ==> !acts[k].Serve? && !acts[k].Take?
  }

  /** The phases of a pass before that, all with its first reading; or the loop ended. */
  ghost predicate BeforeTake(s: State, now: nat) {
    s.pc.Stopped? || ((s.pc.Clears? || s.pc.BargeAwait?) && s.pc.now == now)
  }

  lemma BeforeTakeStep(s: State, a: Act, now: nat)
    requires BeforeTake(s, now) && Enabled(s, a) && !a.Serve? && !a.Take?
    ensures BeforeTake(Next(s, a), now) && s.time <= Next(s, a).time
    ensures s.time == Next(s, a).time <==> StandsStill(s, a)
  {}

  /** No clock reading between i and n finds that time has passed. */
  ghost predicate NoTimePassed(states: seq<State>, acts: seq<Act>, i: nat, n: nat)
    requires |states| > |acts| && n <= |acts|
  {
    forall k {:trigger acts[k]} :: i < k < n ==> StandsStill(states[k], acts[k])
  }

  lemma {:induction false} PassKeepsReading(states: seq<State>, acts: seq<Act>, i: nat, j: nat, n: nat)
    requires Pass(states, acts, i, j) && i < n <= j
    ensures BeforeTake(states[n], states[i + 1].time) && states[i + 1].time <= states[n].time
  {
    if n == i + 1 {
      assert Steps(states[i], acts[i], states[i + 1]);
    } else {
      PassKeepsReading(states, acts, i, j, n - 1);
      PassStep(states, acts, i, j, n - 1);
    }
  }

  lemma PassStep(states: seq<State>, acts: seq<Act>, i: nat, j: nat, k: nat)
    requires Pass(states, acts, i, j) && i < k < j && BeforeTake(states[k], states[i + 1].time)
    ensures BeforeTake(states[k + 1], states[i + 1].time) && states[k].time <= states[k + 1].time
    ensures states[k].time == states[k + 1].time <==> StandsStill(states[k], acts[k])
  {
    assert Steps(states[k], acts[k], states[k + 1]);
    BeforeTakeStep(states[k], acts[k], states[i + 1].time);
  }

  lemma {:induction false} PassTimeIff(states: seq<State>, acts: seq<Act>, i: nat, j: nat, n: nat)
    requires Pass(states, acts, i, j) && i < n <= j
    ensures states[n].time == states[i + 1].time <==> NoTimePassed(states, acts, i, n)
  {
    if n > i + 1 {
      PassTimeIff(states, acts, i, j, n - 1);
      PassKeepsReading(states, acts, i, j, n - 1);
      PassStep(states, acts, i, j, n - 1);
      OneMoreReading(states, acts, i, n);
    }
  }

  ghost predicate StandsStill(s: State, a: Act) { a.Env? && a.env.Tick? ==> a.env.t == s.time }

  lemma OneMoreReading(states: seq<State>, acts: seq<Act>, i: nat, n: nat)
    requires |states| > |acts| && i + 1 < n <= |acts|
    ensures NoTimePassed(states, acts, i, n) <==>
              NoTimePassed(states, acts, i, n - 1) && StandsStill(states[n - 1], acts[n - 1])
  {}

  /** A pass that takes its marks without serving a barge-in does so at once. */
  lemma NoEventNoTime(states: seq<State>, acts: seq<Act>, i: nat, j: nat)
    requires Pass(states, acts, i, j)
    requires forall k {:trigger acts[k]} :: i < k < j ==> !acts[k].BargeBegin?
    ensures j == i + 1
  {
    assert Steps(states[i], acts[i], states[i + 1]);
    assert Enabled(states[i + 1], acts[i + 1]);
    ClearsStep(states[i + 1], acts[i + 1]);
  }

  lemma ClearsStep(s: State, a: Act)
    requires s.pc.Clears? && Enabled(s, a)
    ensures a.BargeBegin? || a.Take?
  {}

  /** A mark may be resolved at time t. */
  ghost predicate Ripe(m: Mark, t: nat, latency: nat) { m.anchor.Some? && m.anchor.value + latency <= t }

  /** No resolution is possible before the mark has waited out the latency since it was
      taken at `taken`. */
  ghost predicate WaitsOut(m: Mark, taken: nat, latency: nat) {
    forall t: nat :: taken <= t && Ripe(m, t, latency) ==> taken + latency <= t
  }

  /** A mark taken with nothing outstanding waits out its latency since then if and only if
      the latency is zero or no time passed while its pass wrote barge-in events; so it
      always does in a pass without a barge-in. */
  lemma LatencyFromTakingIff(states: seq<State>, acts: seq<Act>, i: nat, j: nat, m: nat)
    requires Pass(states, acts, i, j)
    requires |states[j].marks| <= m < |states[j + 1].marks| && states[j + 1].marks[m].anchor.Some?
    ensures WaitsOut(states[j + 1].marks[m], states[j].time, states[j].latency)
       <==> states[j].latency == 0 || NoTimePassed(states, acts, i, j)
    ensures (forall k {:trigger acts[k]} :: i < k < j ==> !acts[k].BargeBegin?) ==> NoTimePassed(states, acts, i, j)
  {
    PassKeepsReading(states, acts, i, j, j);
    PassTimeIff(states, acts, i, j, j);
    if forall k {:trigger acts[k]} :: i < k < j ==> !acts[k].BargeBegin? { NoEventNoTime(states, acts, i, j); }
    assert Steps(states[j], acts[j], states[j + 1]);
    AnchoredAtReading(states[j], m);
    RipeFrom(states[j + 1].marks[m], states[j].pc.now, states[j].time, states[j].latency);
  }

  lemma AnchoredAtReading(s: State, m: nat)
    requires Enabled(s, Take) && |s.marks| <= m < |Next(s, Take).marks| && Next(s, Take).marks[m].anchor.Some?
    ensures Next(s, Take).marks[m].anchor == Some(s.pc.now)
  {
    var target := s.sent + |s.buffer + Concat(s.sess.outbound)|;
    var anchor := if target == s.sent then Some(s.pc.now) else None;
    M.TakenMarks(s.sess.markQueue, s.sess.pending, target, anchor, |s.cells|);
    assert Next(s, Take).marks[m] in Taken(s.sess.markQueue, s.sess.pending, target, anchor, |s.cells|);
  }

  lemma RipeFrom(m: Mark, now: nat, taken: nat, latency: nat)
    requires m.anchor == Some(now) && now <= taken
    ensures WaitsOut(m, taken, latency) <==> latency == 0 || now == taken
  {
    if latency > 0 && now < taken {
      var t := if taken < now + latency then now + latency else taken;
      assert Ripe(m, t, latency) && taken <= t < taken + latency;
    }
  }

  // ---- when a pass can do so

  /** The rest of a pass up to where it takes the marks, one of which it anchors at an
      earlier time. */
  ghost predicate AnchorsEarly(c: Stretch) {
    && IsPath(c.states, c.acts) && c.acts != [] && c.acts[|c.acts| - 1] == Take
    && BeforeIt(c.acts, |c.acts| - 1) && SomeAnchoredBefore(c.states[|c.acts| - 1], End(c))
  }

  ghost predicate BeforeIt(acts: seq<Act>, n: nat)
    requires n <= |acts|
  {
    forall i :: 0 <= i < n ==> !acts[i].Serve? && !acts[i].Take?
  }

  ghost predicate SomeAnchoredBefore(s: State, t: State) { exists m :: AnchoredBefore(s, t, m) }

  /** Mark m is new in t and anchored before the time of s. */
  ghost predicate AnchoredBefore(s: State, t: State, m: int) {
    |s.marks| <= m < |t.marks| && t.marks[m].anchor.Some? && t.marks[m].anchor.value < s.time
  }

  lemma WithoutRequestInTime(s: State, c: Stretch)
    requires s.pc.Clears? && s.pc.now == s.time && ClearsLeft(s.sess, s.pc.queue) == 0 && Leads(c, s)
    ensures !AnchorsEarly(c)
  {
    if AnchorsEarly(c) {
      assert Steps(c.states[0], c.acts[0], c.states[1]);
      assert c.acts[0] == Take;
      var m :| AnchoredBefore(s, End(c), m);
      AnchoredAtReading(s, m);
    }
  }

  /** A barge-in can be served: no text is under way, the writer has not failed. */
  ghost predicate Serving(s: State) { s.pc.Clears? && s.text.draft.None? && !s.text.failed && s.sess.hasLoop }

  /** One request served, and nothing else happens. */
  lemma ServeRequest(s: State) returns (c: Stretch)
    requires Serving(s) && ClearsLeft(s.sess, s.pc.queue) > 0
    ensures Leads(c, s) && BeforeIt(c.acts, |c.acts|)
    ensures var u := End(c);
      && Serving(u) && u.pc == s.pc && u.time == s.time && u.sess.pending == s.sess.pending
      && ClearsLeft(u.sess, u.pc.queue) == ClearsLeft(s.sess, s.pc.queue) - 1
  {
    var s1 := Next(s, BargeBegin);
    c := Stretch([s, s1, Next(s1, BargeDone)], [BargeBegin, BargeDone]);
  }

  /** The last request; while its event is written a mark is registered and time passes. */
  lemma ServeLastRequest(s: State, key: S.Key) returns (c: Stretch)
    requires Serving(s) && ClearsLeft(s.sess, s.pc.queue) == 1 && key !in s.sess.pending
    ensures Leads(c, s) && BeforeIt(c.acts, |c.acts|)
    ensures var u := End(c);
      && u.pc == s.pc && u.time == s.time + 1 && ClearsLeft(u.sess, u.pc.queue) == 0
      && u.buffer == [] && u.sess.outbound == [] && u.sess.markQueue == [key] && key in u.sess.pending
  {
    c := EventBegins(s, key);
    var u := End(c);
    var d := Stretch([u, Next(u, BargeDone)], [BargeDone]);
    c := Join(c, d);
  }

  lemma EventBegins(s: State, key: S.Key) returns (c: Stretch)
    requires Serving(s) && ClearsLeft(s.sess, s.pc.queue) == 1 && key !in s.sess.pending
    ensures Leads(c, s) && BeforeIt(c.acts, |c.acts|)
    ensures var u := End(c);
      && u.pc == BargeAwait(s.pc.now, s.pc.queue, s.sess.pending.Keys) && u.time == s.time + 1
      && ClearsLeft(u.sess, u.pc.queue) == 0 && u.text == T.Next(s.text, T.BeginEvent)
      && u.buffer == [] && u.sess.outbound == [] && u.sess.markQueue == [key] && key in u.sess.pending
  {
    var s1 := Next(s, BargeBegin);
    var s2 := On(s1, S.Register(key));
    assert s2.sess.markQueue == [] + [key];
    c := Stretch([s, s1, s2, Next(s2, Env(Tick(s.time + 1)))],
                 [BargeBegin, Env(OnSession(S.Register(key))), Env(Tick(s.time + 1))]);
  }

  lemma {:induction false} RequestsServed(s: State, key: S.Key) returns (c: Stretch)
    requires Serving(s) && ClearsLeft(s.sess, s.pc.queue) > 0 && key !in s.sess.pending
    ensures Leads(c, s) && BeforeIt(c.acts, |c.acts|)
    ensures var u := End(c);
      && u.pc == s.pc && u.time == s.time + 1 && ClearsLeft(u.sess, u.pc.queue) == 0
      && u.buffer == [] && u.sess.outbound == [] && u.sess.markQueue == [key] && key in u.sess.pending
    decreases ClearsLeft(s.sess, s.pc.queue)
  {
    if ClearsLeft(s.sess, s.pc.queue) == 1 {
      c := ServeLastRequest(s, key);
    } else {
      var x := ServeRequest(s);
      var y := RequestsServed(End(x), key);
      c := Join(x, y);
    }
  }

  lemma TakenEarly(s: State, key: S.Key) returns (c: Stretch)
    requires s.pc.Clears? && s.pc.now < s.time && ClearsLeft(s.sess, s.pc.queue) == 0
    requires s.buffer == [] && s.sess.outbound == [] && s.sess.markQueue == [key] && key in s.sess.pending
    ensures Leads(c, s) && c.acts == [Take] && c.states[0] == s && AnchoredBefore(s, End(c), |s.marks|)
  {
    TakenOne(key, s.sess.pending, s.sent, Some(s.pc.now), |s.cells|);
    c := Stretch([s, Next(s, Take)], [Take]);
  }

  /** At the beginning of a pass: some continuation of it anchors a mark before it is taken
      if and only if a barge-in request is waiting. */
  lemma EarlyAnchorIff(s: State, key: S.Key)
    requires Inv(s) && s.pc.Clears? && s.pc.now == s.time && s.sess.hasLoop && key !in s.sess.pending
    ensures (exists c: Stretch :: Leads(c, s) && AnchorsEarly(c)) <==> ClearsLeft(s.sess, s.pc.queue) > 0
  {
    if ClearsLeft(s.sess, s.pc.queue) > 0 {
      var x := RequestsServed(s, key);
      var y := TakenEarly(End(x), key);
      var c := Join(x, y);
      assert c.states[|x.acts|] == End(x);
      assert AnchoredBefore(c.states[|c.acts| - 1], End(c), |End(x).marks|);
      assert AnchorsEarly(c);
    } else {
      forall c: Stretch | Leads(c, s) ensures !AnchorsEarly(c) { WithoutRequestInTime(s, c); }
    }
  }

  // ---- a run that shows it

  const LATENCY: nat := 200
  const LATE: nat := 500

  /** Act n takes a mark with nothing outstanding, and at the end it has been resolved
      before its latency since then was over. */
  ghost predicate ResolvedEarly(r: Stretch, n: nat) {
    && IsPath(r.states, r.acts) && n < |r.acts| && r.acts[n] == Take
    && r.states[n].marks == [] && |r.states[n + 1].marks| == 1
    && r.states[n + 1].marks[0].target == r.states[n].sent
    && |End(r).resolved| == 1 && End(r).resolved[0].mark == r.states[n + 1].marks[0]
    && End(r).resolved[0].at < r.states[n].time + End(r).latency
  }

  /** Nothing was sent or tracked yet. */
  ghost predicate Idling(s: State) {
    && s.bound && s.latency == LATENCY && s.text == T.SILENT && s.sent == 0 && s.buffer == []
    && s.marks == [] && s.resolved == [] && s.time == 0
  }

  lemma SessionBound() returns (r: Stretch)
    ensures Leads(r, Start(CONNECTED, LATENCY))
    ensures var u := End(r); Idling(u) && u.pc == Sleeping && u.sess == CONNECTED
  {
    var s0 := Start(CONNECTED, LATENCY);
    var s1 := Next(s0, Idle);
    r := Stretch([s0, s1, Next(s1, Env(Bind))], [Idle, Env(Bind)]);
  }

  lemma ClearRequested(s: State) returns (r: Stretch)
    requires Idling(s) && s.pc == Sleeping && s.sess == CONNECTED
    ensures Leads(r, s)
    ensures var u := End(r);
      Idling(u) && u.pc == Clears(0, Some(0)) && u.sess == CONNECTED.(clearQueues := [1])
  {
    var s1 := On(s, S.RequestClear);
    var s2 := Next(s1, Wake);
    assert s2.sess == CONNECTED.(clearQueues := [1]);
    r := Stretch([s, s1, s2, Next(s2, Serve(0))], [Env(OnSession(S.RequestClear)), Wake, Serve(0)]);
  }

  const REGISTERED := CONNECTED.(
    clearQueues := [0], pending := map["a" := 0], waiters := [S.Waiter("a", false, S.Waiting)], markQueue := ["a"])

  /** While the event is written half a second passes and a mark is registered. */
  lemma EventTakesTime(s: State) returns (r: Stretch)
    requires Idling(s) && s.pc == Clears(0, Some(0)) && s.sess == CONNECTED.(clearQueues := [1])
    ensures Leads(r, s)
    ensures var u := End(r);
      && u.pc == BargeAwait(0, Some(0), {}) && u.sess == REGISTERED && u.time == LATE && Untouched(u)
      && u.text == T.Next(T.SILENT, T.BeginEvent)
  {
    var s1 := Next(s, BargeBegin);
    assert s1.pc.names == {};
    var s2 := On(s1, S.Register("a"));
    assert s2.sess == REGISTERED;
    r := Stretch([s, s1, s2, Next(s2, Env(Tick(LATE)))],
                 [BargeBegin, Env(OnSession(S.Register("a"))), Env(Tick(LATE))]);
  }

  ghost predicate Untouched(s: State) {
    s.latency == LATENCY && s.sent == 0 && s.buffer == [] && s.marks == [] && s.resolved == []
  }

  lemma EventEnds(s: State) returns (r: Stretch)
    requires s.pc == BargeAwait(0, Some(0), {}) && s.sess == REGISTERED && s.time == LATE && Untouched(s)
    requires s.text == T.Next(T.SILENT, T.BeginEvent)
    ensures Leads(r, s)
    ensures var u := End(r); u.pc == Clears(0, Some(0)) && u.sess == REGISTERED && u.time == LATE && Untouched(u)
  {
    S.SignalNone(s.sess);
    r := Stretch([s, Next(s, BargeDone)], [BargeDone]);
  }

  /** The same pass takes the mark. */
  lemma MarkTaken(s: State) returns (r: Stretch)
    requires s.pc == Clears(0, Some(0)) && s.sess == REGISTERED && s.time == LATE && Untouched(s)
    ensures Leads(r, s) && r.acts == [Take] && r.states[1] == End(r)
    ensures var u := End(r);
      && u.pc == AtPacket(0) && u.sent == 0 && u.buffer == [] && u.latency == LATENCY && u.resolved == []
      && u.time == LATE && |u.marks| == 1 && u.marks[0].anchor == Some(0) && u.marks[0].target == 0
  {
    TakenOne("a", s.sess.pending, 0, Some(0), |s.cells|);
    r := Stretch([s, Next(s, Take)], [Take]);
  }

  /** And resolves it at once. */
  lemma MarkResolved(s: State) returns (r: Stretch)
    requires s.pc == AtPacket(0) && s.sent == 0 && s.buffer == [] && s.latency == LATENCY && s.resolved == []
    requires s.time == LATE && |s.marks| == 1 && s.marks[0].anchor == Some(0)
    ensures Leads(r, s)
    ensures End(r).resolved == [Resolved(s.marks[0], LATE)] && End(r).latency == LATENCY
  {
    var s1 := Next(s, Cut);
    assert s1.marks[1..] == [] && DueMarks(s1.marks, LATE, LATENCY) == 1;
    r := Stretch([s, s1, Next(s1, Resolve(LATE))], [Cut, Resolve(LATE)]);
  }

  /** A mark registered while a barge-in event is written can be resolved in the very pass
      that takes it, although its latency has not begun to pass. */
  lemma LatencyCanBeSkipped()
    ensures exists r: Stretch, n: nat :: Leads(r, Start(CONNECTED, LATENCY)) && ResolvedEarly(r, n)
  {
    var r := SessionBound();
    var x := ClearRequested(End(r));
    r := Join(r, x);
    x := EventTakesTime(End(r));
    r := Join(r, x);
    x := EventEnds(End(r));
    r := Join(r, x);
    var n := |r.acts|;
    var y := MarkTaken(End(r));
    var e := Join(r, y);
    x := MarkResolved(End(e));
    var f := Join(e, x);
    assert f.acts[n] == e.acts[n] == y.acts[0];
    assert ResolvedEarly(f, n);
  }
}
