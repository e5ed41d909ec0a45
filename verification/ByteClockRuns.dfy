/** Whole runs of the send loop: all invariants together, and what follows for the text
    channel and for progress. */
module ByteClockRuns {
  import opened Base
  import opened ByteClock
  import opened ByteClockPaths
  import opened ByteClockProgress
  import A = ByteClockAudio
  import M = ByteClockMarks
  import S = Session
  import T = TextChannel

  /** The text being written is the one the loop is suspended on. */
  ghost predicate Coupled(s: State) {
    && (s.pc.FlushAwait? ==> s.text.draft.Some? && s.text.draft.value.source.Queued?)
    && (s.pc.BargeAwait? ==> s.text.draft.Some? && s.text.draft.value.source.BargeEvent?)
    && (!s.pc.FlushAwait? && !s.pc.BargeAwait? && !s.pc.Stopped? ==> s.text.draft.None?)
    && (!s.pc.Stopped? ==> !s.text.failed)
  }

  ghost predicate Inv(s: State) { A.Inv(s) && M.Inv(s) && T.Inv(s.text) && Coupled(s) }

  lemma WriterTextKept(s: State, a: Act)
    requires T.Inv(s.text) && Coupled(s) && Enabled(s, a) && !a.Env?
    ensures T.Inv(Next(s, a).text) && Coupled(Next(s, a))
  {
    if a.FlushBegin? {
      T.InvKept(s.text, T.BeginHead);
    } else if a.FlushDone? {
      T.InvKept(s.text, T.EndHead);
    } else if a.BargeBegin? {
      T.InvKept(s.text, T.BeginEvent);
    } else if a.BargeDone? {
      T.InvKept(s.text, T.EndEvent);
    } else if a.Fail? {
      T.InvKept(s.text, T.Fail);
    } else {
      assert Next(s, a).text == s.text;
    }
  }

  lemma TextKept(s: State, a: Act)
    requires T.Inv(s.text) && Coupled(s) && Enabled(s, a)
    ensures T.Inv(Next(s, a).text) && Coupled(Next(s, a))
  {
    match a
    case Env(OnText(act)) => T.InvKept(s.text, act);
    case Env(e) => assert Next(s, a).text == s.text;
    case _ => WriterTextKept(s, a);
  }

  lemma InvKept(s: State, a: Act)
    requires Inv(s) && Enabled(s, a)
    ensures Inv(Next(s, a))
  {
    A.InvKept(s, a);
    M.InvKept(s, a);
    TextKept(s, a);
  }

  /** Conservation, pacing, mark soundness and the text channel hold throughout every
      run, from any session and for any latency, clock and environment. */
  lemma {:induction false} EveryRunIsSound(states: seq<State>, acts: seq<Act>, sess: S.Sess, latency: nat, i: nat)
    requires IsPath(states, acts) && states[0] == Start(sess, latency) && i <= |acts|
    ensures Inv(states[i])
  {
    if i == 0 {
      A.StartInv(sess, latency);
      T.SilentInv();
    } else {
      EveryRunIsSound(states, acts, sess, latency, i - 1);
      InvKept(states[i - 1], acts[i - 1]);
    }
  }

  /** The next act of the writer itself, if the awaits it meets succeed. */
  ghost function WriterAct(s: State): Act {
    match s.pc
    case Top => if s.text.queue != [] then FlushBegin else if s.bound then Serve(s.time) else Idle
    case FlushAwait => FlushDone
    case Clears(_, queue) => if ClearsLeft(s.sess, queue) > 0 then BargeBegin else Take
    case BargeAwait(_, _, _) => BargeDone
    case AtPacket(_) => Cut
    case SendAwait(_) => SentOk(s.time)
    case AtResolve => Resolve(s.time)
    case Sleeping => Wake
    case Stopped => Cancel
  }

  /** The loop never gets stuck: until it fails or is cancelled it can take its next step. */
  lemma WriterNeverStuck(s: State)
    requires Inv(s)
    ensures Enabled(s, WriterAct(s))
  {}

  /** An act of the writer's own, its awaits succeeding. */
  predicate OwnAct(a: Act) { !a.Env? && !a.Fail? && !a.Cancel? }

  /** What the writer does next is determined, but for the reading of the clock: it can skip no
      flush, no pass of a bound call, no request, no packet and no resolution. */
  lemma WriterHasNoChoice(s: State, a: Act)
    requires Enabled(s, a) && OwnAct(a)
    ensures if a.Serve? then WriterAct(s).Serve?
            else if a.SentOk? then WriterAct(s).SentOk?
            else if a.Resolve? then WriterAct(s).Resolve?
            else a == WriterAct(s)
  {}

  /** No message waits behind a service pass: when one begins, every message queued so
      far has been written and its future settled. */
  lemma PassFindsNoPendingFuture(s: State, t: nat, id: nat)
    requires Inv(s) && Enabled(s, Serve(t)) && id < |s.text.futs|
    ensures s.text.futs[id].ResolvedTrue? || s.text.futs[id].Cancelled?
    ensures s.text.futs[id].ResolvedTrue? ==> exists k :: 0 <= k < |s.text.log| && s.text.log[k].source == T.Queued(id)
  {
    if !s.text.futs[id].Cancelled? { T.FutureTellsTheTruth(s.text, id); }
  }

  /** Order, cover and soundness hold throughout every run whose barge-ins all find the
      waiters of the waiting marks registered, until the loop ends. */
  lemma {:induction false} EveryCarefulRunIsGood(
      states: seq<State>, acts: seq<Act>, sess: S.Sess, latency: nat, i: nat)
    requires IsPath(states, acts) && states[0] == Start(sess, latency) && i <= |acts|
    requires forall k {:trigger acts[k]} :: 0 <= k < i && acts[k] == BargeBegin ==> WaitingArePending(states[k])
    requires !states[i].pc.Stopped?
    ensures Good(states[i])
  {
    if i == 0 {
      A.StartInv(sess, latency);
    } else {
      assert Steps(states[i - 1], acts[i - 1], states[i]);
      if states[i - 1].pc.Stopped? { StoppedStays(states[i - 1], acts[i - 1]); }
      EveryCarefulRunIsGood(states, acts, sess, latency, i - 1);
      ReachKept(states[i - 1], acts[i - 1]);
    }
  }

  // ---- runs put together from stretches

  /** A connected session with nothing queued. */
  const CONNECTED := S.Next(S.FRESH, S.Connected("call"))

  ghost function On(s: State, act: S.Act): State
    requires Enabled(s, Env(OnSession(act)))
  {
    Next(s, Env(OnSession(act)))
  }

  lemma TakenOne(name: S.Key, pending: map<S.Key, nat>, target: nat, anchor: Option<nat>, pos: nat)
    requires name in pending
    ensures Taken([name], pending, target, anchor, pos) == [Mark(name, target, anchor, pos)]
  {
    assert [name][1..] == [];
  }
}
