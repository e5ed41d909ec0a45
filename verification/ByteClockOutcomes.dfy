/** How waits end in runs of the send loop: exactly when an event is set, and exactly which
    waits end in a timeout error. */
module ByteClockOutcomes {
  import opened ByteClock
  import opened ByteClockPaths
  import opened ByteClockWaits
  import O = SessionOutcomes
  import S = Session

  lemma SignalledIff(s: S.Sess, keys: set<S.Key>, w: nat)
    requires S.Stored(s) && w < |s.waiters|
    ensures S.SignalAll(s, keys).waiters[w].released <==>
              s.waiters[w].released || (S.Owns(s, w) && s.waiters[w].key in keys)
  {
    if S.SignalAll(s, keys).waiters[w].released { SignalSetsOwners(s, keys, w); }
    if S.Owns(s, w) && s.waiters[w].key in keys { assert w in S.EventsOf(s, keys); }
  }

  /** An event is set after an act if and only if it was before, or the act resolves its mark,
      ends a barge-in that names it, echoes its key, disconnects or resets. */
  lemma EventSetIff(s: State, a: Act, w: nat)
    requires S.Stored(s.sess) && Enabled(s, a) && w < |s.sess.waiters|
    ensures IsSet(Next(s, a), w) <==> IsSet(s, w) || Frees(s, a, w)
  {
    match a
    case Env(OnSession(act)) => O.EventSetIff(s.sess, act, w);
    case Resolve(t) => SignalledIff(s.sess, Names(s.marks[..DueMarks(s.marks, t, s.latency)]), w);
    case BargeDone => SignalledIff(s.sess, s.pc.names, w);
    case _ => assert Next(s, a).sess.waiters == s.sess.waiters;
  }

  lemma SetStep(s: State, a: Act, t: State, w: nat)
    requires S.Stored(s.sess) && Steps(s, a, t) && w < |s.sess.waiters|
    ensures w < |t.sess.waiters| && (IsSet(t, w) <==> IsSet(s, w) || Frees(s, a, w))
  {
    WaiterStays(s, a, w);
    EventSetIff(s, a, w);
  }

  /** Act j sets the event of w. */
  ghost predicate FreedAt(states: seq<State>, acts: seq<Act>, j: nat, w: nat)
    requires j < |acts| < |states|
  {
    Frees(states[j], acts[j], w)
  }

  ghost predicate FreedBetween(states: seq<State>, acts: seq<Act>, h: nat, i: nat, w: nat)
    requires i <= |acts| < |states|
  {
    exists j :: h <= j < i && FreedAt(states, acts, j, w)
  }

  lemma OneMoreAct(states: seq<State>, acts: seq<Act>, h: nat, i: nat, w: nat)
    requires h < i <= |acts| < |states|
    ensures FreedBetween(states, acts, h, i, w) <==>
              FreedBetween(states, acts, h, i - 1, w) || Frees(states[i - 1], acts[i - 1], w)
  {
    if Frees(states[i - 1], acts[i - 1], w) { assert FreedAt(states, acts, i - 1, w); }
  }

  /** Act k keeps the event of w set, or sets it if it frees w, and does nothing else to it. */
  ghost predicate SetsIff(s: State, a: Act, t: State, w: nat) {
    w < |s.sess.waiters| ==> w < |t.sess.waiters| && (IsSet(t, w) <==> IsSet(s, w) || Frees(s, a, w))
  }

  lemma {:induction false} SetIffOfSteps(states: seq<State>, acts: seq<Act>, h: nat, i: nat, w: nat)
    requires h <= i <= |acts| < |states| && w < |states[h].sess.waiters|
    requires forall k {:trigger acts[k]} :: h <= k < i ==> SetsIff(states[k], acts[k], states[k + 1], w)
    ensures w < |states[i].sess.waiters|
    ensures IsSet(states[i], w) <==> IsSet(states[h], w) || FreedBetween(states, acts, h, i, w)
    decreases i - h
  {
    if h < i {
      var a := acts[i - 1];
      SetIffOfSteps(states, acts, h, i - 1, w);
      assert SetsIff(states[i - 1], a, states[i], w);
      OneMoreAct(states, acts, h, i, w);
    }
  }

  /** From any state of a run on: the event of a waiter is set if and only if it was then, or
      one of those acts came since. */
  lemma SetIff(states: seq<State>, acts: seq<Act>, h: nat, i: nat, w: nat)
    requires IsPath(states, acts) && S.Stored(states[0].sess) && h <= i <= |acts|
    requires w < |states[h].sess.waiters|
    ensures w < |states[i].sess.waiters|
    ensures IsSet(states[i], w) <==> IsSet(states[h], w) || FreedBetween(states, acts, h, i, w)
  {
    forall k {:trigger acts[k]} | h <= k < i ensures SetsIff(states[k], acts[k], states[k + 1], w) {
      RunStored(states, acts, k);
      if w < |states[k].sess.waiters| { SetStep(states[k], acts[k], states[k + 1], w); }
    }
    SetIffOfSteps(states, acts, h, i, w);
  }

  /** The act ends the wait of w. */
  ghost predicate EndsWait(s: State, a: Act, t: State, w: nat) {
    Steps(s, a, t) && S.Live(s.sess, w) && !S.Live(t.sess, w)
  }

  /** As a timeout if and only if its event is not set and the call is not disconnected, and
      normally otherwise. */
  lemma EndOfWait(s: State, a: Act, t: State, w: nat)
    requires EndsWait(s, a, t, w)
    ensures w < |t.sess.waiters| && O.EndsAsItShould(s.sess, w, t.sess.waiters[w].outcome)
  {
    WaiterStays(s, a, w);
    if a.Env? && a.env.OnSession? {
      O.EndOfWait(s.sess, a.env.act, w);
    } else {
      OnlySessionActsEndWaits(s, a, w);
    }
  }

  /** What an act does to the wait of w: it leaves one that is over alone, and one that it
      ends, it ends as it should. */
  ghost predicate WaitStep(s: State, t: State, w: nat) {
    w < |s.sess.waiters| ==>
      && w < |t.sess.waiters|
      && (if S.Live(s.sess, w)
          then !S.Live(t.sess, w) ==> O.EndsAsItShould(s.sess, w, t.sess.waiters[w].outcome)
          else t.sess.waiters[w].outcome == s.sess.waiters[w].outcome)
  }

  lemma WaitInStep(s: State, a: Act, t: State, w: nat)
    requires Steps(s, a, t)
    ensures WaitStep(s, t, w)
  {
    if w < |s.sess.waiters| {
      WaiterStays(s, a, w);
      if S.Live(s.sess, w) && !S.Live(t.sess, w) { EndOfWait(s, a, t, w); }
    }
  }

  lemma {:induction false} EndOfSteps(states: seq<State>, h: nat, i: nat, w: nat) returns (j: nat)
    requires h <= i < |states| && S.Live(states[h].sess, w) && !S.Live(states[i].sess, w)
    requires forall k :: h < k <= i ==> WaitStep(states[k - 1], states[k], w)
    ensures h <= j < i && S.Live(states[j].sess, w) && !S.Live(states[j + 1].sess, w) && w < |states[i].sess.waiters|
    ensures O.EndsAsItShould(states[j].sess, w, states[i].sess.waiters[w].outcome)
    decreases i - h
  {
    assert WaitStep(states[i - 1], states[i], w);
    if S.Live(states[i - 1].sess, w) {
      j := i - 1;
    } else {
      j := EndOfSteps(states, h, i - 1, w);
    }
  }

  /** In every run of the loop a wait that is over was ended by one act, and how it ended was
      decided by its event and the call at that moment. */
  lemma HowWaitsEnd(states: seq<State>, acts: seq<Act>, h: nat, i: nat, w: nat) returns (j: nat)
    requires IsPath(states, acts) && h <= i <= |acts| && S.Live(states[h].sess, w) && !S.Live(states[i].sess, w)
    ensures h <= j < i && EndsWait(states[j], acts[j], states[j + 1], w) && w < |states[i].sess.waiters|
    ensures O.EndsAsItShould(states[j].sess, w, states[i].sess.waiters[w].outcome)
  {
    forall k | h < k <= i ensures WaitStep(states[k - 1], states[k], w) {
      WaitInStep(states[k - 1], acts[k - 1], states[k], w);
    }
    j := EndOfSteps(states, h, i, w);
  }

  /** So a wait that goes on after its event was set, by whatever act, ends normally. */
  lemma SetMeansReturns(states: seq<State>, acts: seq<Act>, h: nat, i: nat, w: nat)
    requires IsPath(states, acts) && h <= i <= |acts|
    requires S.Live(states[h].sess, w) && IsSet(states[h], w) && !S.Live(states[i].sess, w)
    ensures w < |states[i].sess.waiters| && states[i].sess.waiters[w].outcome.Returned?
  {
    var j := HowWaitsEnd(states, acts, h, i, w);
    WaiterStaysThrough(states, acts, h, j, w);
  }
}
