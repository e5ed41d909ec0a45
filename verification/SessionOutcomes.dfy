/** How the waits of `send_mark_and_wait` end (session.py), over runs of the session: exactly
    when an event is set, and exactly which waits end in a timeout error. */
module SessionOutcomes {
  import opened Session

  /** An event is set after an act if and only if it was before, or the act is an echo of the
      waiter's own registered key, the first disconnect or a reset. */
  lemma EventSetIff(s: Sess, a: Act, w: nat)
    requires Stored(s) && Enabled(s, a) && w < |s.waiters|
    ensures w < |Next(s, a).waiters|
    ensures Next(s, a).waiters[w].released <==> s.waiters[w].released || Frees(s, a, w)
  {
    WaiterStays(s, a, w);
    if Next(s, a).waiters[w].released { EventSetOnlyByFreeing(s, a, w); }
    if Frees(s, a, w) {
      assert s.pending[s.waiters[w].key] in s.pending.Values;
      assert a.Echo? ==> w in EventsOf(s, {a.key});
    }
  }

  lemma OneMoreAct(states: seq<Sess>, acts: seq<Act>, i: nat, w: nat)
    requires i < |acts| < |states|
    ensures FreedBefore(states, acts, i + 1, w) <==> FreedBefore(states, acts, i, w) || Frees(states[i], acts[i], w)
  {
    if Frees(states[i], acts[i], w) { assert FreedAt(states, acts, i, w); }
  }

  lemma SetStep(s: Sess, a: Act, t: Sess, w: nat)
    requires Stored(s) && Steps(s, a, t) && w < |t.waiters|
    ensures if w < |s.waiters| then t.waiters[w].released <==> s.waiters[w].released || Frees(s, a, w)
            else !t.waiters[w].released && !Frees(s, a, w)
  {
    if w < |s.waiters| {
      EventSetIff(s, a, w);
    } else if t.waiters[w].released {
      EventSetOnlyByFreeing(s, a, w);
    }
  }

  /** Over runs: an event is set if and only if one of those acts came since the waiter
      registered. */
  lemma {:induction false} SetIff(states: seq<Sess>, acts: seq<Act>, i: nat, w: nat)
    requires IsRun(states, acts) && i <= |acts| && w < |states[i].waiters|
    ensures states[i].waiters[w].released <==> FreedBefore(states, acts, i, w)
  {
    if i > 0 {
      RunStored(states, acts, i - 1);
      SetStep(states[i - 1], acts[i - 1], states[i], w);
      OneMoreAct(states, acts, i - 1, w);
      if w < |states[i - 1].waiters| {
        SetIff(states, acts, i - 1, w);
      } else {
        NotYetRegistered(states, acts, i - 1, w);
      }
    }
  }

  lemma {:induction false} NotYetRegistered(states: seq<Sess>, acts: seq<Act>, i: nat, w: nat)
    requires IsRun(states, acts) && i <= |acts| && w >= |states[i].waiters|
    ensures !FreedBefore(states, acts, i, w)
  {
    if i > 0 {
      if w < |states[i - 1].waiters| { WaiterStays(states[i - 1], acts[i - 1], w); }
      NotYetRegistered(states, acts, i - 1, w);
      OneMoreAct(states, acts, i - 1, w);
    }
  }

  /** The act ends the wait of w. */
  ghost predicate EndsWait(s: Sess, a: Act, w: nat)
    requires Enabled(s, a)
  {
    Live(s, w) && !Live(Next(s, a), w)
  }

  /** It ends as a timeout if and only if its event is not set and the call is not
      disconnected, and normally otherwise. */
  ghost predicate EndsAsItShould(s: Sess, w: nat, outcome: Outcome)
    requires w < |s.waiters|
  {
    && (outcome.TimedOut? <==> !s.waiters[w].released && !s.disconnected)
    && (outcome.Returned? <==> s.waiters[w].released || s.disconnected)
  }

  lemma EndOfWait(s: Sess, a: Act, w: nat)
    requires Enabled(s, a) && EndsWait(s, a, w)
    ensures w < |Next(s, a).waiters| && EndsAsItShould(s, w, Next(s, a).waiters[w].outcome)
    ensures a == (if s.waiters[w].released then Wake(w) else Expire(w))
  {
    WaiterStays(s, a, w);
    if !a.Wake? && !a.Expire? { NoOneLeft(s, a); }
  }

  /** In every run a wait that is over was ended by one act, and how it ended was decided by
      its event and the call at that moment. */
  lemma {:induction false} HowWaitsEnd(states: seq<Sess>, acts: seq<Act>, i: nat, w: nat) returns (j: nat)
    requires IsRun(states, acts) && i <= |acts| && w < |states[i].waiters| && !Live(states[i], w)
    ensures j < i && w < |states[j].waiters| && EndsWait(states[j], acts[j], w)
    ensures EndsAsItShould(states[j], w, states[i].waiters[w].outcome)
  {
    if i == 0 { assert false; }
    var s, a := states[i - 1], acts[i - 1];
    if w < |s.waiters| && !Live(s, w) {
      WaiterStays(s, a, w);
      j := HowWaitsEnd(states, acts, i - 1, w);
    } else {
      j := i - 1;
      if w >= |s.waiters| { NewcomersWait(s, a, w); }
      EndOfWait(s, a, w);
    }
  }

  lemma NewcomersWait(s: Sess, a: Act, w: nat)
    requires Enabled(s, a) && |s.waiters| <= w < |Next(s, a).waiters|
    ensures Live(Next(s, a), w)
  {
    if !a.Register? && !a.Wake? && !a.Expire? { NoOneLeft(s, a); }
  }

  lemma {:induction false} ReleasedStays(states: seq<Sess>, acts: seq<Act>, h: nat, i: nat, w: nat)
    requires IsRun(states, acts) && h <= i <= |acts| && w < |states[h].waiters|
    ensures w < |states[i].waiters|
    ensures states[h].waiters[w].released ==> states[i].waiters[w].released
    ensures !Live(states[h], w) ==> !Live(states[i], w)
    decreases i - h
  {
    if h < i {
      ReleasedStays(states, acts, h, i - 1, w);
      WaiterStays(states[i - 1], acts[i - 1], w);
    }
  }

  /** So whoever is echoed, disconnected or reset while it waits returns without an error: a
      wait that goes on after its event was set ends normally. */
  lemma SetMeansReturns(states: seq<Sess>, acts: seq<Act>, h: nat, i: nat, w: nat)
    requires IsRun(states, acts) && h <= i <= |acts|
    requires Live(states[h], w) && states[h].waiters[w].released && !Live(states[i], w)
    ensures w < |states[i].waiters| && states[i].waiters[w].outcome.Returned?
    ensures Enabled(states[h], Wake(w))
  {
    ReleasedStays(states, acts, h, i, w);
    var j := HowWaitsEnd(states, acts, i, w);
    if j < h { ReleasedStays(states, acts, j + 1, h, w); } else { ReleasedStays(states, acts, h, j, w); }
  }
}
