/** How long a waiter whose mark is tracked can be kept waiting in a careful run: a bound on
    the due passes, and the resolution that frees it at the latest. */
module ByteClockService {
  import opened Base
  import opened ByteClock
  import opened ByteClockPaths
  import opened ByteClockProgress
  import opened ByteClockTaking
  import opened ByteClockWaits
  import A = ByteClockAudio
  import M = ByteClockMarks
  import R = ByteClockRuns
  import S = Session

  /** Waiter w waits and its event is not set. */
  ghost predicate Waiting(s: State, w: nat) { S.Live(s.sess, w) && !s.sess.waiters[w].released }

  /** Mark i stands for waiter w, ends at `target`, and is anchored by the given time. */
  ghost predicate StandsFor(s: State, i: int, w: nat, target: nat, anchoredBy: Option<nat>) {
    && w < |s.sess.waiters| && 0 <= i < |s.marks|
    && s.marks[i].name == s.sess.waiters[w].key && s.marks[i].target == target
    && (anchoredBy.Some? ==> s.marks[i].anchor.Some? && s.marks[i].anchor.value <= anchoredBy.value)
  }

  /** As long as w waits, such a mark is tracked. */
  ghost predicate Followed(s: State, w: nat, target: nat, anchoredBy: Option<nat>) {
    && w < |s.sess.waiters| && S.Secure(s.sess, w)
    && (Waiting(s, w) ==> exists i :: StandsFor(s, i, w, target, anchoredBy))
  }

  lemma {:induction false} WithoutKeeps(marks: seq<Mark>, names: set<S.Key>, i: nat) returns (k: nat)
    requires i < |marks| && marks[i].name !in names
    ensures k < |Without(marks, names)| && Without(marks, names)[k] == marks[i]
  {
    if i == 0 {
      k := 0;
    } else {
      var j := WithoutKeeps(marks[1..], names, i - 1);
      k := if marks[0].name in names then j else j + 1;
    }
  }

  lemma MarkAtResolution(s: State, t: nat, w: nat, i: nat, target: nat, anchoredBy: Option<nat>) returns (k: nat)
    requires Enabled(s, Resolve(t)) && StandsFor(s, i, w, target, anchoredBy) && S.Owns(s.sess, w)
    ensures IsSet(Next(s, Resolve(t)), w) || StandsFor(Next(s, Resolve(t)), k, w, target, anchoredBy)
  {
    var n := DueMarks(s.marks, t, s.latency);
    k := i;
    if i < n {
      NameSignalled(s.sess, Names(s.marks[..n]), w, s.marks[..n], i);
    } else {
      k := i - n;
    }
  }

  lemma MarkAtBargeIn(s: State, w: nat, i: nat, target: nat, anchoredBy: Option<nat>) returns (k: nat)
    requires Enabled(s, BargeDone) && StandsFor(s, i, w, target, anchoredBy) && S.Owns(s.sess, w)
    ensures IsSet(Next(s, BargeDone), w) || StandsFor(Next(s, BargeDone), k, w, target, anchoredBy)
  {
    k := i;
    if s.marks[i].name in s.pc.names {
      assert w in S.EventsOf(s.sess, s.pc.names);
    } else {
      k := WithoutKeeps(s.marks, s.pc.names, i);
    }
  }

  /** Where a mark is after an act that keeps it. */
  lemma MarkMoves(s: State, a: Act, w: nat, i: nat, target: nat, anchoredBy: Option<nat>) returns (k: nat)
    requires Enabled(s, a) && StandsFor(s, i, w, target, anchoredBy) && S.Owns(s.sess, w)
    ensures IsSet(Next(s, a), w) || StandsFor(Next(s, a), k, w, target, anchoredBy)
  {
    k := i;
    if a.Resolve? {
      k := MarkAtResolution(s, a.t, w, i, target, anchoredBy);
    } else if a.BargeDone? {
      k := MarkAtBargeIn(s, w, i, target, anchoredBy);
    } else {
      WaiterStays(s, a, w);
      MarkStays(s, a, i);
    }
  }

  lemma NameSignalled(s: S.Sess, names: set<S.Key>, w: nat, marks: seq<Mark>, i: nat)
    requires w < |s.waiters| && S.Owns(s, w) && i < |marks| && marks[i].name == s.waiters[w].key
    requires names == Names(marks)
    ensures S.SignalAll(s, names).waiters[w].released
  {
    assert marks[i].name in names;
    assert w in S.EventsOf(s, names);
  }

  lemma MarkStays(s: State, a: Act, i: nat)
    requires Enabled(s, a) && !a.Resolve? && !a.BargeDone? && i < |s.marks|
    ensures var u := Next(s, a);
      && i < |u.marks| && u.marks[i].name == s.marks[i].name && u.marks[i].target == s.marks[i].target
      && (s.marks[i].anchor.Some? ==> u.marks[i].anchor == s.marks[i].anchor)
  {}

  lemma FollowedStep(s: State, a: Act, w: nat, target: nat, anchoredBy: Option<nat>)
    requires Followed(s, w, target, anchoredBy) && Enabled(s, a)
    ensures Followed(Next(s, a), w, target, anchoredBy)
  {
    SecureStep(s, a, w);
    WaiterStays(s, a, w);
    if Waiting(Next(s, a), w) {
      var i :| StandsFor(s, i, w, target, anchoredBy);
      var k := MarkMoves(s, a, w, i, target, anchoredBy);
    }
  }

  lemma {:induction false} FollowedThrough(
      states: seq<State>, acts: seq<Act>, i: nat, j: nat, w: nat, target: nat, anchoredBy: Option<nat>)
    requires IsPath(states, acts) && i <= j <= |acts| && Followed(states[i], w, target, anchoredBy)
    ensures Followed(states[j], w, target, anchoredBy)
    decreases j - i
  {
    if i < j {
      FollowedThrough(states, acts, i, j - 1, w, target, anchoredBy);
      assert Steps(states[j - 1], acts[j - 1], states[j]);
      FollowedStep(states[j - 1], acts[j - 1], w, target, anchoredBy);
    }
  }

  // ---- time

  lemma TimeStep(s: State, a: Act)
    requires Enabled(s, a)
    ensures s.time <= Next(s, a).time && Next(s, a).latency == s.latency
  {}

  lemma {:induction false} TimeThrough(states: seq<State>, acts: seq<Act>, i: nat, j: nat)
    requires IsPath(states, acts) && i <= j <= |acts|
    ensures states[i].time <= states[j].time && states[i].latency == states[j].latency
    decreases j - i
  {
    if i < j {
      TimeThrough(states, acts, i, j - 1);
      assert Steps(states[j - 1], acts[j - 1], states[j]);
      TimeStep(states[j - 1], acts[j - 1]);
    }
  }

  /** Enough due passes, from act m on and before act n, to send everything up to `target`. */
  ghost predicate EnoughPasses(states: seq<State>, acts: seq<Act>, m: nat, n: nat, target: nat)
    requires IsPath(states, acts) && m <= n <= |acts|
  {
    || target <= states[m].sent
    || DuePasses(states, acts, m, n) + InFlight(states[m]) - InFlight(states[n])
         >= (target - states[m].sent + PACKET_BYTES - 1) / PACKET_BYTES
  }

  lemma NobodyWaitsBySome(states: seq<State>, acts: seq<Act>, m: nat, n: nat, target: nat) returns (k: nat)
    requires IsPath(states, acts) && m <= n <= |acts| && Good(states[m]) && !states[n].pc.Stopped?
    requires Careful(states, acts, m, n) && EnoughPasses(states, acts, m, n, target)
    ensures m <= k <= n && !Waits(states[k], target)
  {
    if target <= states[m].sent {
      k := m;
      if Waits(states[m], target) { WaitsBeyondSent(states[m], target); }
    } else {
      MarkAnchoredWithinPasses(states, acts, m, n, target);
      k :| m <= k <= n && !Waits(states[k], target);
    }
  }

  lemma AnchoredBy(s: State, w: nat, target: nat, latest: nat)
    requires M.Inv(s) && Followed(s, w, target, None) && !Waits(s, target) && s.time <= latest
    ensures Followed(s, w, target, Some(latest))
  {
    if Waiting(s, w) {
      var i :| StandsFor(s, i, w, target, None);
      assert M.MarkOk(s, s.marks[i]);
      assert StandsFor(s, i, w, target, Some(latest));
    }
  }

  lemma ResolutionFrees(s: State, t: nat, w: nat, target: nat, latest: nat)
    requires Good(s) && Enabled(s, Resolve(t)) && latest + s.latency <= t
    requires Followed(s, w, target, Some(latest))
    ensures !Waiting(Next(s, Resolve(t)), w)
  {
    WaiterStays(s, Resolve(t), w);
    if Waiting(s, w) {
      var i :| StandsFor(s, i, w, target, Some(latest));
      AnchoredMarkResolves(s, t, i);
    }
  }

  /** In a careful run a live waiter that owns its entry and whose mark is tracked waits no
      longer after the first resolution that comes with the latency over since act n, if
      ceil((target - sent) / 1600) due passes lie between act m and act n. */
  lemma WaiterFreedWithinPasses(
      states: seq<State>, acts: seq<Act>, m: nat, n: nat, j: nat, w: nat, i: nat, target: nat)
    requires IsPath(states, acts) && m <= n <= j < |acts| && Good(states[m]) && Careful(states, acts, m, j)
    requires S.Secure(states[m].sess, w) && StandsFor(states[m], i, w, target, None)
    requires EnoughPasses(states, acts, m, n, target)
    requires acts[j].Resolve? && acts[j].t >= states[n].time + states[n].latency
    ensures !Waiting(states[j + 1], w)
  {
    assert Steps(states[j], acts[j], states[j + 1]);
    NotStoppedThrough(states, acts, n, j);
    var k := NobodyWaitsBySome(states, acts, m, n, target);
    NotStoppedThrough(states, acts, k, n);
    GoodThrough(states, acts, m, k);
    GoodThrough(states, acts, m, j);
    TimeThrough(states, acts, k, n);
    TimeThrough(states, acts, n, j);
    FollowedThrough(states, acts, m, k, w, target, None);
    AnchoredBy(states[k], w, target, states[n].time);
    FollowedThrough(states, acts, k, j, w, target, Some(states[n].time));
    ResolutionFrees(states[j], acts[j].t, w, target, states[n].time);
  }

  // ---- from the registration on

  ghost predicate Tracked(s: State, key: S.Key) { exists i :: 0 <= i < |s.marks| && s.marks[i].name == key }

  /** As long as w waits its mark is tracked, is queued, or is named by the barge-in that is
      under way. */
  ghost predicate Awaited(s: State, w: nat) {
    && w < |s.sess.waiters| && S.Secure(s.sess, w)
    && (Waiting(s, w) && !s.pc.Stopped? ==>
        var key := s.sess.waiters[w].key;
        Tracked(s, key) || key in s.sess.markQueue || (s.pc.BargeAwait? && key in s.pc.names))
  }

  lemma TrackedMoves(s: State, a: Act, w: nat)
    requires Enabled(s, a) && w < |s.sess.waiters| && S.Owns(s.sess, w) && Tracked(s, s.sess.waiters[w].key)
    ensures IsSet(Next(s, a), w) || Tracked(Next(s, a), s.sess.waiters[w].key)
  {
    var i :| 0 <= i < |s.marks| && s.marks[i].name == s.sess.waiters[w].key;
    var k := MarkMoves(s, a, w, i, s.marks[i].target, None);
    WaiterStays(s, a, w);
  }

  /** Only a take and a barge-in take names off the mark queue. */
  lemma QueueKept(s: State, a: Act)
    requires Enabled(s, a) && !a.Take? && !a.BargeBegin?
    ensures s.sess.markQueue <= Next(s, a).sess.markQueue
  {
    if !(a.Env? && a.env.OnSession?) { assert Next(s, a).sess.markQueue == s.sess.markQueue; }
  }

  lemma QueuedMoves(s: State, a: Act, w: nat)
    requires Enabled(s, a) && w < |s.sess.waiters| && S.Owns(s.sess, w) && s.sess.waiters[w].key in s.sess.markQueue
    ensures var u, key := Next(s, a), s.sess.waiters[w].key;
      Tracked(u, key) || key in u.sess.markQueue || (u.pc.BargeAwait? && key in u.pc.names)
  {
    if a.Take? {
      var i := QueuedIsTracked(s, s.sess.waiters[w].key);
    } else if !a.BargeBegin? {
      QueueKept(s, a);
    }
  }

  lemma NamedMoves(s: State, a: Act, w: nat)
    requires Enabled(s, a) && w < |s.sess.waiters| && S.Owns(s.sess, w)
    requires s.pc.BargeAwait? && s.sess.waiters[w].key in s.pc.names
    ensures var u := Next(s, a);
      IsSet(u, w) || u.pc.Stopped? || (u.pc.BargeAwait? && s.sess.waiters[w].key in u.pc.names)
  {
    if a.BargeDone? { assert w in S.EventsOf(s.sess, s.pc.names); }
  }

  lemma AwaitedStep(s: State, a: Act, w: nat)
    requires Awaited(s, w) && Enabled(s, a)
    ensures Awaited(Next(s, a), w)
  {
    SecureStep(s, a, w);
    WaiterStays(s, a, w);
    if Waiting(Next(s, a), w) && !Next(s, a).pc.Stopped? {
      var key := s.sess.waiters[w].key;
      if s.pc.Stopped? { StoppedStays(s, a); }
      if Tracked(s, key) {
        TrackedMoves(s, a, w);
      } else if key in s.sess.markQueue {
        QueuedMoves(s, a, w);
      } else {
        NamedMoves(s, a, w);
      }
    }
  }

  lemma {:induction false} AwaitedThrough(states: seq<State>, acts: seq<Act>, i: nat, j: nat, w: nat)
    requires IsPath(states, acts) && i <= j <= |acts| && Awaited(states[i], w)
    ensures Awaited(states[j], w)
    decreases j - i
  {
    if i < j {
      AwaitedThrough(states, acts, i, j - 1, w);
      assert Steps(states[j - 1], acts[j - 1], states[j]);
      AwaitedStep(states[j - 1], acts[j - 1], w);
    }
  }

  lemma RegistrationIsAwaited(s: State, a: Act, w: nat, key: S.Key)
    requires S.Tight(s.sess) && Enabled(s, a) && Registers(s, a, w, key)
    ensures Awaited(Next(s, a), w)
  {
    S.TightKept(s.sess, S.Register(key));
    S.TightIsSecure(Next(s, a).sess, w);
    var queue := Next(s, a).sess.markQueue;
    assert queue[|queue| - 1] == key;
  }

  /** Behind a take no name is queued, so who is awaited is tracked, and no mark ends behind
      the audio held. */
  lemma TakenIsTracked(s: State, w: nat) returns (i: nat, target: nat)
    requires Good(s) && s.pc.AtPacket? && s.sess.markQueue == [] && Awaited(s, w) && Waiting(s, w)
    ensures StandsFor(s, i, w, target, None) && target <= s.sent + |s.buffer|
  {
    i :| 0 <= i < |s.marks| && s.marks[i].name == s.sess.waiters[w].key;
    target := s.marks[i].target;
    assert Covered(s, s.marks[i]) && M.MarkOk(s, s.marks[i]);
  }

  /** Enough due passes, from act m on and before act n, to send all audio held at act m. */
  ghost predicate SendsHeld(states: seq<State>, acts: seq<Act>, m: nat, n: nat)
    requires IsPath(states, acts) && m <= n <= |acts|
  {
    EnoughPasses(states, acts, m, n, states[m].sent + |states[m].buffer|)
  }

  lemma EnoughForLess(states: seq<State>, acts: seq<Act>, m: nat, n: nat, target: nat)
    requires IsPath(states, acts) && m <= n <= |acts| && SendsHeld(states, acts, m, n)
    requires target <= states[m].sent + |states[m].buffer|
    ensures EnoughPasses(states, acts, m, n, target)
  {}

  lemma FreedFromTaken(states: seq<State>, acts: seq<Act>, m: nat, n: nat, j: nat, w: nat)
    requires IsPath(states, acts) && m <= n <= j < |acts| && Good(states[m]) && Careful(states, acts, m, j)
    requires states[m].pc.AtPacket? && states[m].sess.markQueue == [] && Awaited(states[m], w)
    requires SendsHeld(states, acts, m, n)
    requires acts[j].Resolve? && acts[j].t >= states[n].time + states[n].latency
    ensures !Waiting(states[j + 1], w)
  {
    if Waiting(states[m], w) {
      var i, target := TakenIsTracked(states[m], w);
      EnoughForLess(states, acts, m, n, target);
      WaiterFreedWithinPasses(states, acts, m, n, j, w, i, target);
    } else {
      WaiterStaysThrough(states, acts, m, j + 1, w);
    }
  }

  lemma TakeEmptiesQueue(s: State, a: Act, t: State)
    requires Steps(s, a, t) && a == Take
    ensures t.pc.AtPacket? && t.sess.markQueue == []
  {}

  /** In every careful run from the start whose resets found no registered mark before w was
      registered: w waits no longer after the first resolution that comes with the latency
      over since act n, if enough due passes to send what the writer held at some take after
      the registration come before act n. */
  lemma RegisteredWaiterIsFreed(
      states: seq<State>, acts: seq<Act>, sess: S.Sess, latency: nat,
      r: nat, k: nat, n: nat, j: nat, w: nat, key: S.Key)
    requires IsPath(states, acts) && states[0] == Start(sess, latency) && S.Tight(sess)
    requires r < k < n <= j < |acts| && Registers(states[r], acts[r], w, key) && acts[k] == Take
    requires forall q {:trigger acts[q]} :: 0 <= q < r ==> QuietReset(states[q], acts[q])
    requires Careful(states, acts, 0, j) && SendsHeld(states, acts, k + 1, n)
    requires acts[j].Resolve? && acts[j].t >= states[n].time + latency
    ensures !Waiting(states[j + 1], w)
  {
    TightThrough(states, acts, r);
    assert Steps(states[r], acts[r], states[r + 1]);
    RegistrationIsAwaited(states[r], acts[r], w, key);
    AwaitedThrough(states, acts, r + 1, k + 1, w);
    TakeEmptiesQueue(states[k], acts[k], states[k + 1]);
    R.EveryCarefulRunIsGood(states, acts, sess, latency, k + 1);
    TimeThrough(states, acts, 0, n);
    FreedFromTaken(states, acts, k + 1, n, j, w);
  }
}
