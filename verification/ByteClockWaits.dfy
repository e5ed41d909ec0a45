/** The waiters inside the send loop: the handshake, what a barge-in releases, and what a
    wait that returns normally can rely on. */
module ByteClockWaits {
  import opened ByteClock
  import opened ByteClockPaths
  import opened ByteClockProgress
  import S = Session

  ghost predicate Picks(s: State, a: Act) { a.Env? && a.env.OnSession? ==> S.Picks(s.sess, a.env.act) }

  /** The writer's own acts keep the handshake too; of the others a registration keeps it
      exactly if it avoids orphaned keys. */
  lemma HandshakeKept(s: State, a: Act)
    requires S.Handshake(s.sess) && Enabled(s, a)
    ensures S.Handshake(Next(s, a).sess) <==> Picks(s, a)
  {
    var u := Next(s, a);
    match a
    case BargeDone => S.ReleaseKeepsHandshake(s.sess, S.EventsOf(s.sess, s.pc.names));
    case Resolve(t) =>
      S.ReleaseKeepsHandshake(s.sess, S.EventsOf(s.sess, Names(s.marks[..DueMarks(s.marks, t, s.latency)])));
    case Env(OnSession(act)) => S.HandshakeKept(s.sess, act);
    case _ =>
      assert u.sess.pending == s.sess.pending && u.sess.waiters == s.sess.waiters;
      S.SameWaitersKeepHandshake(s.sess, u.sess);
  }

  lemma WaiterStays(s: State, a: Act, w: nat)
    requires Enabled(s, a) && w < |s.sess.waiters|
    ensures w < |Next(s, a).sess.waiters|
    ensures Next(s, a).sess.waiters[w].key == s.sess.waiters[w].key
    ensures s.sess.waiters[w].released ==> Next(s, a).sess.waiters[w].released
    ensures !s.sess.waiters[w].outcome.Waiting? ==> Next(s, a).sess.waiters[w].outcome == s.sess.waiters[w].outcome
  {
    match a
    case Env(OnSession(act)) => S.WaiterStays(s.sess, act, w);
    case BargeDone =>
    case Resolve(_) =>
    case _ => assert Next(s, a).sess.waiters == s.sess.waiters;
  }

  lemma {:induction false} WaiterStaysThrough(states: seq<State>, acts: seq<Act>, i: nat, j: nat, w: nat)
    requires IsPath(states, acts) && i <= j <= |acts| && w < |states[i].sess.waiters|
    ensures w < |states[j].sess.waiters|
    ensures states[j].sess.waiters[w].key == states[i].sess.waiters[w].key
    ensures states[i].sess.waiters[w].released ==> states[j].sess.waiters[w].released
    ensures !states[i].sess.waiters[w].outcome.Waiting? ==>
              states[j].sess.waiters[w].outcome == states[i].sess.waiters[w].outcome
  {
    if i < j {
      WaiterStaysThrough(states, acts, i, j - 1, w);
      WaiterStays(states[j - 1], acts[j - 1], w);
    }
  }

  lemma {:induction false} BargeAwaitStays(states: seq<State>, acts: seq<Act>, i: nat, j: nat)
    requires IsPath(states, acts) && i < j <= |acts| && acts[i] == BargeBegin
    requires forall k :: i < k < j ==> acts[k].Env?
    ensures states[j].pc == Next(states[i], BargeBegin).pc
    ensures states[j].marks == states[i].marks && states[j].sent == states[i].sent
  {
    var a := acts[j - 1];
    if i + 1 < j { BargeAwaitStays(states, acts, i, j - 1); assert a.Env?; }
  }

  /** The event of waiter w is set. */
  ghost predicate IsSet(s: State, w: nat) { w < |s.sess.waiters| && s.sess.waiters[w].released }

  /** Act a registers waiter w. */
  ghost predicate Registers(s: State, a: Act, w: nat, key: S.Key) {
    a == Env(OnSession(S.Register(key))) && s.sess.hasLoop && w == |s.sess.waiters|
  }

  lemma NewWaiter(s: State, a: Act, t: State, w: nat, key: S.Key)
    requires Steps(s, a, t) && Registers(s, a, w, key)
    ensures |s.sess.waiters| == w < |t.sess.waiters| && t.sess.waiters[w].key == key
  {}

  // ---- runs

  /** Writer acts only set events; the others act on the session as such. */
  lemma SecureStep(s: State, a: Act, w: nat)
    requires S.Secure(s.sess, w) && w < |s.sess.waiters| && Enabled(s, a)
    ensures S.Secure(Next(s, a).sess, w)
  {
    var t := Next(s, a);
    if a.Env? && a.env.OnSession? {
      S.SecureKept(s.sess, a.env.act, w);
    } else {
      EventsOnly(s, a);
      assert forall v :: S.Live(t.sess, v) <==> S.Live(s.sess, v);
    }
  }

  lemma EventsOnly(s: State, a: Act)
    requires Enabled(s, a) && !(a.Env? && a.env.OnSession?)
    ensures var t := Next(s, a);
      && t.sess.pending == s.sess.pending && t.sess.hasLoop == s.sess.hasLoop
      && |t.sess.waiters| == |s.sess.waiters|
      && forall v :: 0 <= v < |s.sess.waiters| ==>
           && t.sess.waiters[v].key == s.sess.waiters[v].key
           && t.sess.waiters[v].outcome == s.sess.waiters[v].outcome
           && (s.sess.waiters[v].released ==> t.sess.waiters[v].released)
  {
    if !a.BargeDone? && !a.Resolve? { assert Next(s, a).sess.waiters == s.sess.waiters; }
  }

  lemma {:induction false} SecureThrough(states: seq<State>, acts: seq<Act>, i: nat, j: nat, w: nat)
    requires IsPath(states, acts) && i <= j <= |acts|
    requires S.Secure(states[i].sess, w) && w < |states[i].sess.waiters|
    ensures S.Secure(states[j].sess, w) && w < |states[j].sess.waiters|
    decreases j - i
  {
    if i < j {
      SecureThrough(states, acts, i, j - 1, w);
      assert Steps(states[j - 1], acts[j - 1], states[j]);
      SecureStep(states[j - 1], acts[j - 1], w);
      WaiterStays(states[j - 1], acts[j - 1], w);
    }
  }

  /** A reset that this act makes finds no registered mark. */
  ghost predicate QuietReset(s: State, a: Act) { a == Env(OnSession(S.Reset)) ==> s.sess.pending == map[] }

  lemma TightStep(s: State, a: Act)
    requires S.Tight(s.sess) && Enabled(s, a) && QuietReset(s, a)
    ensures S.Tight(Next(s, a).sess)
  {
    if a.Env? && a.env.OnSession? {
      S.TightKept(s.sess, a.env.act);
    } else {
      EventsOnly(s, a);
      HandshakeKept(s, a);
      S.SamePendingKeepsTight(s.sess, Next(s, a).sess);
    }
  }

  /** In every run of the loop whose resets find no registered mark, live waiters hold
      distinct keys and are all registered, and every stored event is waited for. */
  lemma {:induction false} TightThrough(states: seq<State>, acts: seq<Act>, i: nat)
    requires IsPath(states, acts) && S.Tight(states[0].sess) && i <= |acts|
    requires forall k {:trigger acts[k]} :: 0 <= k < i ==> QuietReset(states[k], acts[k])
    ensures S.Tight(states[i].sess)
  {
    if i > 0 {
      TightThrough(states, acts, i - 1);
      assert Steps(states[i - 1], acts[i - 1], states[i]);
      TightStep(states[i - 1], acts[i - 1]);
    }
  }

  /** Whatever happens while the barge_in event is written, resets included: a waiter that
      owned its entry when the barge-in began is released by its end or has left. */
  lemma BargeInReleasesSecure(states: seq<State>, acts: seq<Act>, i: nat, j: nat, w: nat)
    requires IsPath(states, acts) && i < j < |acts| && acts[i] == BargeBegin && acts[j] == BargeDone
    requires forall k :: i < k < j ==> acts[k].Env?
    requires S.Live(states[i].sess, w) && S.Secure(states[i].sess, w)
    ensures IsSet(states[j + 1], w) || !S.Live(states[j + 1].sess, w)
  {
    WaiterStaysThrough(states, acts, i, j + 1, w);
    WaiterStaysThrough(states, acts, i, j, w);
    SecureThrough(states, acts, i, j, w);
    BargeAwaitStays(states, acts, i, j);
    var s, v := states[i].sess, states[j].sess;
    assert Steps(states[j], acts[j], states[j + 1]);
    if S.Live(v, w) && !v.waiters[w].released {
      assert !s.waiters[w].released && S.Owns(s, w) && S.Owns(v, w);
      assert w in S.EventsOf(v, states[j].pc.names);
    }
  }

  /** So in a run of the loop whose resets up to the beginning of a barge-in found no
      registered mark, the barge-in releases everyone who waits then. */
  lemma BargeInReleasesEveryWaiter(states: seq<State>, acts: seq<Act>, i: nat, j: nat, w: nat)
    requires IsPath(states, acts) && S.Tight(states[0].sess)
    requires i < j < |acts| && acts[i] == BargeBegin && acts[j] == BargeDone
    requires forall k {:trigger acts[k]} :: 0 <= k < i ==> QuietReset(states[k], acts[k])
    requires forall k :: i < k < j ==> acts[k].Env?
    requires S.Live(states[i].sess, w)
    ensures IsSet(states[j + 1], w) || !S.Live(states[j + 1].sess, w)
  {
    TightThrough(states, acts, i);
    S.TightIsSecure(states[i].sess, w);
    BargeInReleasesSecure(states, acts, i, j, w);
  }

  // ---- why a wait ends

  /** The byte clock resolves the mark of waiter w. */
  ghost predicate ByTheClock(s: State, a: Act, w: nat) {
    && a.Resolve? && w < |s.sess.waiters| && S.Owns(s.sess, w)
    && s.sess.waiters[w].key in Names(s.marks[..DueMarks(s.marks, a.t, s.latency)])
  }

  /** A barge-in that began while w was registered ends. */
  ghost predicate ByBargeIn(s: State, a: Act, w: nat) {
    && a.BargeDone? && s.pc.BargeAwait? && w < |s.sess.waiters| && S.Owns(s.sess, w)
    && s.sess.waiters[w].key in s.pc.names
  }

  /** Another thread echoes its key, disconnects or resets. */
  ghost predicate ByOthers(s: State, a: Act, w: nat) {
    a.Env? && a.env.OnSession? && S.Frees(s.sess, a.env.act, w)
  }

  ghost predicate NotByTheClock(s: State, a: Act, w: nat) { ByBargeIn(s, a, w) || ByOthers(s, a, w) }

  ghost predicate Frees(s: State, a: Act, w: nat) { ByTheClock(s, a, w) || NotByTheClock(s, a, w) }

  lemma StoredKept(s: State, a: Act)
    requires S.Stored(s.sess) && Enabled(s, a)
    ensures S.Stored(Next(s, a).sess)
  {
    if a.Env? && a.env.OnSession? { S.StoredKept(s.sess, a.env.act); }
  }

  lemma SignalSetsOwners(s: S.Sess, keys: set<S.Key>, w: nat)
    requires S.Stored(s) && w < |s.waiters| && S.SignalAll(s, keys).waiters[w].released
    ensures s.waiters[w].released || (S.Owns(s, w) && s.waiters[w].key in keys)
  {
    if !s.waiters[w].released {
      assert w in S.EventsOf(s, keys);
      var k :| k in keys && k in s.pending && s.pending[k] == w;
    }
  }

  lemma EventSetOnlyByFreeing(s: State, a: Act, w: nat)
    requires S.Stored(s.sess) && Enabled(s, a)
    requires w < |Next(s, a).sess.waiters| && Next(s, a).sess.waiters[w].released
    ensures w < |s.sess.waiters| && (s.sess.waiters[w].released || Frees(s, a, w))
  {
    match a
    case Env(OnSession(act)) => S.EventSetOnlyByFreeing(s.sess, act, w);
    case Resolve(t) => SignalSetsOwners(s.sess, Names(s.marks[..DueMarks(s.marks, t, s.latency)]), w);
    case BargeDone => SignalSetsOwners(s.sess, s.pc.names, w);
    case _ => assert Next(s, a).sess.waiters == s.sess.waiters;
  }

  lemma {:induction false} SetEventHasCause(states: seq<State>, acts: seq<Act>, i: nat, w: nat) returns (j: nat)
    requires IsPath(states, acts) && S.Stored(states[0].sess) && i <= |acts|
    requires w < |states[i].sess.waiters| && states[i].sess.waiters[w].released && !IsSet(states[0], w)
    ensures j < i && Frees(states[j], acts[j], w)
  {
    if i == 0 { assert false; }
    assert Steps(states[i - 1], acts[i - 1], states[i]);
    RunStored(states, acts, i - 1);
    EventSetOnlyByFreeing(states[i - 1], acts[i - 1], w);
    if Frees(states[i - 1], acts[i - 1], w) {
      j := i - 1;
    } else {
      j := SetEventHasCause(states, acts, i - 1, w);
    }
  }

  lemma {:induction false} RunStored(states: seq<State>, acts: seq<Act>, i: nat)
    requires IsPath(states, acts) && S.Stored(states[0].sess) && i <= |acts|
    ensures S.Stored(states[i].sess)
  {
    if i > 0 {
      RunStored(states, acts, i - 1);
      StoredKept(states[i - 1], acts[i - 1]);
    }
  }

  /** No barge-in ends, and no other thread releases a waiter. */
  ghost predicate Calm(acts: seq<Act>) {
    forall i :: 0 <= i < |acts| ==> !acts[i].BargeDone? && !IsRelease(acts[i])
  }

  ghost predicate IsRelease(a: Act) {
    a.Env? && a.env.OnSession? && (a.env.act.Echo? || a.env.act.Disconnect? || a.env.act.Reset?)
  }

  /** In such a stretch only the byte clock releases. */
  lemma CalmReleasesByTheClock(s: State, a: Act, w: nat)
    requires !a.BargeDone? && !IsRelease(a)
    ensures !NotByTheClock(s, a, w)
  {}

  /** This act ends the wait of w without a timeout error. */
  ghost predicate ReturnsNormally(s: State, a: Act, w: nat) {
    && Enabled(s, a) && S.Live(s.sess, w)
    && w < |Next(s, a).sess.waiters| && Next(s, a).sess.waiters[w].outcome.Returned?
  }

  lemma ReturnIsWakeOrExpiry(s: State, a: Act, w: nat)
    requires ReturnsNormally(s, a, w)
    ensures s.sess.waiters[w].released || (a == Env(OnSession(S.Expire(w))) && s.sess.disconnected)
  {
    if a.Env? && a.env.OnSession? {
      S.ReturnIsWakeOrExpiry(s.sess, a.env.act, w);
    } else {
      OnlySessionActsEndWaits(s, a, w);
    }
  }

  lemma OnlySessionActsEndWaits(s: State, a: Act, w: nat)
    requires Enabled(s, a) && !(a.Env? && a.env.OnSession?) && w < |s.sess.waiters|
    ensures w < |Next(s, a).sess.waiters| && Next(s, a).sess.waiters[w].outcome == s.sess.waiters[w].outcome
  {
    if !a.BargeDone? && !a.Resolve? { assert Next(s, a).sess.waiters == s.sess.waiters; }
  }

  /** In every run of the loop a wait ends normally only because the byte clock resolved
      its mark, a barge-in that began while it was registered released it, its key was
      echoed, the call disconnected or was reset, or it timed out while disconnected. */
  lemma NormalReturnHasCause(states: seq<State>, acts: seq<Act>, i: nat, w: nat)
    requires IsPath(states, acts) && S.Stored(states[0].sess) && i < |acts|
    requires ReturnsNormally(states[i], acts[i], w) && !IsSet(states[0], w)
    ensures (acts[i] == Env(OnSession(S.Expire(w))) && states[i].sess.disconnected)
         || exists j :: 0 <= j < i && Frees(states[j], acts[j], w)
  {
    ReturnIsWakeOrExpiry(states[i], acts[i], w);
    if states[i].sess.waiters[w].released {
      var j := SetEventHasCause(states, acts, i, w);
    }
  }
}
