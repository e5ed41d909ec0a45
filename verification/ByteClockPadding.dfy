/** When the send loop sends a packet and what is in it, over every run from the start and in
    numbers of bytes and milliseconds. */
module ByteClockPadding {
  import opened Base
  import opened ByteClock
  import opened ByteClockPaths
  import R = ByteClockRuns
  import S = Session

  /** When audio was last taken, once an act is over: the reading of the pass that took it,
      forgotten by a barge-in. */
  ghost function TakenBy(s: State, a: Act, before: Option<nat>): Option<nat> {
    if a == BargeBegin then None
    else if a == Take && s.pc.Clears? && s.sess.outbound != [] then Some(s.pc.now)
    else before
  }

  ghost function LastTaken(states: seq<State>, acts: seq<Act>, i: nat): Option<nat>
    requires i <= |acts| < |states|
  {
    if i == 0 then None else TakenBy(states[i - 1], acts[i - 1], LastTaken(states, acts, i - 1))
  }

  ghost predicate AudioStep(s: State, a: Act, t: State) { t.lastAudioIn == TakenBy(s, a, s.lastAudioIn) }

  lemma AudioInStep(s: State, a: Act, t: State)
    requires Steps(s, a, t)
    ensures AudioStep(s, a, t)
  {}

  lemma {:induction false} LastOfSteps(states: seq<State>, acts: seq<Act>, i: nat)
    requires i <= |acts| < |states| && states[0].lastAudioIn == None
    requires forall k {:trigger acts[k]} :: 0 <= k < i ==> AudioStep(states[k], acts[k], states[k + 1])
    ensures states[i].lastAudioIn == LastTaken(states, acts, i)
  {
    if i > 0 {
      var a := acts[i - 1];
      LastOfSteps(states, acts, i - 1);
    }
  }

  lemma LastAudioIsLastTaken(states: seq<State>, acts: seq<Act>, i: nat)
    requires IsPath(states, acts) && states[0].lastAudioIn == None && i <= |acts|
    ensures states[i].lastAudioIn == LastTaken(states, acts, i)
  {
    forall k {:trigger acts[k]} | 0 <= k < i ensures AudioStep(states[k], acts[k], states[k + 1]) {
      AudioInStep(states[k], acts[k], states[k + 1]);
    }
    LastOfSteps(states, acts, i);
  }

  /** The next packet is due 200 ms after the last one was accepted. */
  ghost predicate DueAfterLast(s: State) {
    s.nextSend == if s.packets == [] then 0 else s.packets[|s.packets| - 1].end + 200
  }

  lemma DueStep(s: State, a: Act, t: State)
    requires Steps(s, a, t) && DueAfterLast(s)
    ensures DueAfterLast(t)
  {
    if !a.SentOk? { assert t.nextSend == s.nextSend && t.packets == s.packets; }
  }

  lemma {:induction false} DueThrough(states: seq<State>, acts: seq<Act>, i: nat)
    requires IsPath(states, acts) && DueAfterLast(states[0]) && i <= |acts|
    ensures DueAfterLast(states[i])
  {
    if i > 0 {
      DueThrough(states, acts, i - 1);
      DueStep(states[i - 1], acts[i - 1], states[i]);
    }
  }

  /** 200 ms are over since the last packet was accepted. */
  ghost predicate Paused(s: State, now: nat) {
    s.packets != [] ==> now >= s.packets[|s.packets| - 1].end + 200
  }

  /** Some mark waits for bytes, or 200 ms have passed since audio was last taken. */
  ghost predicate MayPad(s: State, lastTaken: Option<nat>, now: nat) {
    || (exists i :: 0 <= i < |s.marks| && s.marks[i].anchor.None?)
    || (lastTaken.Some? && now >= lastTaken.value + 200)
  }

  lemma CutDecides(s: State, t: State, lastTaken: Option<nat>)
    requires Steps(s, Cut, t) && DueAfterLast(s) && s.lastAudioIn == lastTaken
    ensures t.pc.SendAwait? <==>
              s.buffer != [] && Paused(s, s.pc.now) && (|s.buffer| >= 1600 || MayPad(s, lastTaken, s.pc.now))
    ensures t.pc.SendAwait? ==> t.flight == if |s.buffer| >= 1600 then s.buffer[..1600] else s.buffer
    ensures t.flight + t.buffer == (if t.pc.SendAwait? then s.buffer else s.flight + s.buffer)
  {}

  /** In every run a pass sends a packet if and only if there is audio, 200 ms are over since
      the last packet was accepted, and a full packet is there or a short one may be padded;
      and then the first 1600 bytes go, or all there are. */
  lemma PacketSentIff(states: seq<State>, acts: seq<Act>, sess: S.Sess, latency: nat, i: nat)
    requires IsPath(states, acts) && states[0] == Start(sess, latency) && i < |acts| && acts[i] == Cut
    requires states[i].pc.AtPacket?
    ensures var s, t := states[i], states[i + 1];
      && (t.pc.SendAwait? <==>
            && s.buffer != [] && Paused(s, s.pc.now)
            && (|s.buffer| >= 1600 || MayPad(s, LastTaken(states, acts, i), s.pc.now)))
      && (t.pc.SendAwait? ==> t.flight == if |s.buffer| >= 1600 then s.buffer[..1600] else s.buffer)
  {
    LastAudioIsLastTaken(states, acts, i);
    DueThrough(states, acts, i);
    assert Steps(states[i], acts[i], states[i + 1]);
    CutDecides(states[i], states[i + 1], LastTaken(states, acts, i));
  }

  /** And the packet accepted is that audio followed by 0xFF up to 1600 bytes. */
  lemma PacketIsPadded(s: State, t: nat)
    requires R.Inv(s) && Enabled(s, SentOk(t))
    ensures var u := Next(s, SentOk(t));
      && |u.packets| == |s.packets| + 1 && u.packets[..|s.packets|] == s.packets
      && var data := u.packets[|s.packets|].data;
         && |data| == 1600 && s.flight <= data && (forall k :: |s.flight| <= k < 1600 ==> data[k] == 0xFF)
  {}

  // ---- before the call is bound

  /** Until it is bound the loop touches no audio and no mark. */
  ghost predicate Untouched(s: State) {
    !s.bound ==>
      && (s.pc.Top? || s.pc.FlushAwait? || s.pc.Sleeping? || s.pc.Stopped?)
      && s.buffer == [] && s.flight == [] && s.wire == [] && s.packets == [] && s.marks == [] && s.resolved == []
  }

  lemma UntouchedStep(s: State, a: Act, t: State)
    requires Steps(s, a, t) && Untouched(s)
    ensures Untouched(t)
  {}

  lemma {:induction false} NothingBeforeBinding(
      states: seq<State>, acts: seq<Act>, sess: S.Sess, latency: nat, i: nat)
    requires IsPath(states, acts) && states[0] == Start(sess, latency) && i <= |acts|
    requires forall k {:trigger acts[k]} :: 0 <= k < i ==> acts[k] != Env(Bind)
    ensures !states[i].bound && Untouched(states[i])
  {
    if i > 0 {
      NothingBeforeBinding(states, acts, sess, latency, i - 1);
      UntouchedStep(states[i - 1], acts[i - 1], states[i]);
      StaysUnbound(states[i - 1], acts[i - 1], states[i]);
    }
  }

  lemma StaysUnbound(s: State, a: Act, t: State)
    requires Steps(s, a, t) && a != Env(Bind)
    ensures t.bound == s.bound
  {}

  // ---- the mark resolved last

  ghost predicate LatestMark(s: State) {
    s.lastMark ==
      if s.resolved == [] then None
      else var r := s.resolved[|s.resolved| - 1]; Some((r.mark.name, r.at))
  }

  lemma LatestStep(s: State, a: Act, t: State)
    requires Steps(s, a, t) && LatestMark(s)
    ensures LatestMark(t)
  {
    if !a.Resolve? { assert t.lastMark == s.lastMark && t.resolved == s.resolved; }
  }

  /** In every run the mark reported last is the one resolved last, with its time. */
  lemma {:induction false} LastMarkIsLatest(
      states: seq<State>, acts: seq<Act>, sess: S.Sess, latency: nat, i: nat)
    requires IsPath(states, acts) && states[0] == Start(sess, latency) && i <= |acts|
    ensures LatestMark(states[i])
  {
    if i > 0 {
      LastMarkIsLatest(states, acts, sess, latency, i - 1);
      LatestStep(states[i - 1], acts[i - 1], states[i]);
    }
  }
}
