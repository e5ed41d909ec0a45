/** What a session owes its surroundings over whole runs: the disconnect callback and the
    recognisers that its factory made (session.py, _stt_lifecycle.py). */
module SessionLife {
  import opened Base
  import opened Session

  /** Every recogniser ever made is the current one or was asked to stop. */
  ghost predicate NoneOrphaned(s: Sess) {
    var c := s.around;
    && (forall p :: 0 <= p < c.made ==> c.stt == Some(p) || p in c.stopped)
    && (c.stt.Some? ==> c.stt.value < c.made)
    && (c.made > 0 ==> s.hasLoop)
  }

  lemma NoneOrphanedKept(s: Sess, a: Act)
    requires NoneOrphaned(s) && Enabled(s, a)
    ensures NoneOrphaned(Next(s, a))
  {
    var c, d := s.around, Next(s, a).around;
    assert s.hasLoop ==> Next(s, a).hasLoop;
    if a == Reset && c.stt.Some? {
      assert d.stopped == c.stopped + [c.stt.value];
    } else if !a.StartStt? && !a.StopStt? && a != Reset {
      assert d.stt == c.stt && d.made == c.made && d.stopped == c.stopped;
    }
  }

  /** No run of calls and resets ever loses a recogniser without asking it to stop. */
  lemma {:induction false} NoRecogniserOrphaned(states: seq<Sess>, acts: seq<Act>, i: nat)
    requires IsRun(states, acts) && i <= |acts|
    ensures NoneOrphaned(states[i])
  {
    if i > 0 {
      NoRecogniserOrphaned(states, acts, i - 1);
      NoneOrphanedKept(states[i - 1], acts[i - 1]);
    }
  }

  /** The end of a call is reported once, and only by the first disconnect. */
  lemma {:induction false} CallbackOncePerCall(states: seq<Sess>, acts: seq<Act>, i: nat, j: nat)
    requires IsRun(states, acts) && i <= j <= |acts|
    requires forall k :: i <= k < j ==> acts[k] != Reset
    ensures states[i].disconnected ==> states[j].disconnected
    ensures states[i].around.callbacks <= states[j].around.callbacks
         <= states[i].around.callbacks + if states[j].disconnected && !states[i].disconnected then 1 else 0
    decreases j - i
  {
    if i < j {
      CallbackOncePerCall(states, acts, i, j - 1);
      CallbackStep(states[j - 1], acts[j - 1]);
    }
  }

  lemma CallbackStep(s: Sess, a: Act)
    requires Enabled(s, a) && a != Reset
    ensures var t := Next(s, a);
      && (s.disconnected ==> t.disconnected)
      && t.around.callbacks == s.around.callbacks +
           (if a == Disconnect && !s.disconnected && s.around.config.callback then 1 else 0)
      && (a == Disconnect ==> t.disconnected)
  {}
}
