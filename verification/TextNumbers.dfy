/** What each text message carries and what becomes of one that was given up, over runs of the
    send loop (_audiohook_writer.py). */
module TextNumbers {
  import opened Base
  import opened ByteClock
  import opened ByteClockPaths
  import R = ByteClockRuns
  import S = Session
  import T = TextChannel

  /** The act begins the message with this number. */
  ghost predicate BeginsMessage(s: State, a: Act, seqNo: nat) {
    (a == FlushBegin || a == BargeBegin) && s.text.seqNo + 1 == seqNo
  }

  /** It was begun by act b, carries the client's number of that moment, and a barge-in event
      is one. */
  ghost predicate BegunAt(states: seq<State>, acts: seq<Act>, b: nat, m: T.Written)
    requires b < |acts| < |states|
  {
    && BeginsMessage(states[b], acts[b], m.seqNo) && m.clientSeq == states[b].text.clientSeq
    && (m.source.BargeEvent? <==> acts[b] == BargeBegin) && (m.source.BargeEvent? ==> m.body == "event")
  }

  ghost predicate Begun(states: seq<State>, acts: seq<Act>, i: nat, m: T.Written)
    requires i <= |acts| < |states|
  {
    exists b :: 0 <= b < i && BegunAt(states, acts, b, m)
  }

  lemma BegunStays(states: seq<State>, acts: seq<Act>, i: nat, j: nat, m: T.Written)
    requires i <= j <= |acts| < |states| && Begun(states, acts, i, m)
    ensures Begun(states, acts, j, m)
  {
    var b :| 0 <= b < i && BegunAt(states, acts, b, m);
  }

  /** What the log and the draft are after an act. */
  ghost predicate TextStep(s: State, a: Act, t: State) {
    && (t.text.log == s.text.log || (s.text.draft.Some? && t.text.log == s.text.log + [s.text.draft.value]))
    && (t.text.draft.Some? ==>
          || t.text.draft == s.text.draft
          || (BeginsMessage(s, a, t.text.draft.value.seqNo)
              && t.text.draft.value.clientSeq == s.text.clientSeq
              && (t.text.draft.value.source.BargeEvent? <==> a == BargeBegin)
              && (t.text.draft.value.source.BargeEvent? ==> t.text.draft.value.body == "event")))
  }

  lemma TextInStep(s: State, a: Act, t: State)
    requires Steps(s, a, t)
    ensures TextStep(s, a, t)
  {
    if !a.FlushBegin? && !a.FlushDone? && !a.BargeBegin? && !a.BargeDone? && !a.Fail? { QuietText(s, a, t); }
  }

  lemma QuietText(s: State, a: Act, t: State)
    requires Steps(s, a, t) && !a.FlushBegin? && !a.FlushDone? && !a.BargeBegin? && !a.BargeDone? && !a.Fail?
    ensures t.text.log == s.text.log && t.text.draft == s.text.draft
  {
    if !a.Env? { assert t.text == s.text; }
  }

  ghost predicate AllBegun(states: seq<State>, acts: seq<Act>, i: nat)
    requires i <= |acts| < |states|
  {
    && (forall m :: m in states[i].text.log ==> Begun(states, acts, i, m))
    && (states[i].text.draft.Some? ==> Begun(states, acts, i, states[i].text.draft.value))
  }

  lemma AllBegunStep(states: seq<State>, acts: seq<Act>, i: nat)
    requires i < |acts| < |states| && AllBegun(states, acts, i) && TextStep(states[i], acts[i], states[i + 1])
    ensures AllBegun(states, acts, i + 1)
  {
    var s, t := states[i].text, states[i + 1].text;
    forall m | m in t.log ensures Begun(states, acts, i + 1, m) {
      assert m in s.log || Some(m) == s.draft;
      BegunStays(states, acts, i, i + 1, m);
    }
    if t.draft.Some? {
      if t.draft == s.draft {
        BegunStays(states, acts, i, i + 1, t.draft.value);
      } else {
        assert BegunAt(states, acts, i, t.draft.value);
      }
    }
  }

  lemma {:induction false} BegunOfSteps(states: seq<State>, acts: seq<Act>, i: nat)
    requires i <= |acts| < |states| && states[0].text.log == [] && states[0].text.draft == None
    requires forall k {:trigger acts[k]} :: 0 <= k < i ==> TextStep(states[k], acts[k], states[k + 1])
    ensures AllBegun(states, acts, i)
  {
    if i > 0 {
      var a := acts[i - 1];
      BegunOfSteps(states, acts, i - 1);
      assert TextStep(states[i - 1], a, states[i]);
      AllBegunStep(states, acts, i - 1);
    }
  }

  /** In every run each message on the wire was begun by one act, with the next number, and
      carries the number of the client's last message at that moment; the barge-in events are
      those begun by a barge-in. */
  lemma MessagesCarryClientNumber(states: seq<State>, acts: seq<Act>, sess: S.Sess, latency: nat, i: nat)
    requires IsPath(states, acts) && states[0] == Start(sess, latency) && i <= |acts|
    ensures AllBegun(states, acts, i)
  {
    forall k {:trigger acts[k]} | 0 <= k < i ensures TextStep(states[k], acts[k], states[k + 1]) {
      TextInStep(states[k], acts[k], states[k + 1]);
    }
    BegunOfSteps(states, acts, i);
  }

  /** How far the client's number was advanced by the first i acts. */
  ghost function Advanced(acts: seq<Act>, i: nat): nat
    requires i <= |acts|
  {
    if i == 0 then 0
    else
      var a := acts[i - 1];
      Advanced(acts, i - 1) + if a.Env? && a.env.OnText? && a.env.textAct.ClientAdvance? then a.env.textAct.steps else 0
  }

  lemma ClientNumberStep(s: State, a: Act, t: State)
    requires Steps(s, a, t)
    ensures t.text.clientSeq == s.text.clientSeq
              + if a.Env? && a.env.OnText? && a.env.textAct.ClientAdvance? then a.env.textAct.steps else 0
  {
    if !a.Env? { OwnActsKeepNumber(s, a, t); }
  }

  lemma OwnActsKeepNumber(s: State, a: Act, t: State)
    requires Steps(s, a, t) && !a.Env?
    ensures t.text.clientSeq == s.text.clientSeq
  {
    if !a.FlushBegin? && !a.FlushDone? && !a.BargeBegin? && !a.BargeDone? && !a.Fail? {
      assert t.text == s.text;
    }
  }

  /** The number known of the client is what its messages have brought it to. */
  lemma {:induction false} ClientNumberIsCounted(
      states: seq<State>, acts: seq<Act>, sess: S.Sess, latency: nat, i: nat)
    requires IsPath(states, acts) && states[0] == Start(sess, latency) && i <= |acts|
    ensures states[i].text.clientSeq == Advanced(acts, i)
  {
    if i > 0 {
      ClientNumberIsCounted(states, acts, sess, latency, i - 1);
      ClientNumberStep(states[i - 1], acts[i - 1], states[i]);
    }
  }

  /** The writer has failed for good: nothing is queued or pending, and the log stands. */
  ghost predicate Settled(s: State, log: seq<T.Written>) {
    && s.pc.Stopped? && s.text.failed && s.text.queue == [] && s.text.draft == None && s.text.log == log
    && forall id :: 0 <= id < |s.text.futs| ==> !s.text.futs[id].Pending?
  }

  lemma FailureSettles(s: State, t: State)
    requires R.Inv(s) && Steps(s, Fail, t)
    ensures Settled(t, s.text.log)
    ensures |t.text.futs| == |s.text.futs|
    ensures forall id :: 0 <= id < |s.text.futs| ==>
              t.text.futs[id] == if s.text.futs[id].Pending? then T.ResolvedFalse else s.text.futs[id]
  {
    T.SettleQueuedAt(s.text.futs, s.text.queue, T.FromQueue(s.text.log));
  }

  lemma SettledStays(s: State, a: Act, t: State, log: seq<T.Written>)
    requires Settled(s, log) && Steps(s, a, t)
    ensures Settled(t, log)
  {}

  /** After a failed write every message not yet written is answered False, and so is each one
      queued later; nothing more is written. */
  lemma {:induction false} FailureAnswersEverything(
      states: seq<State>, acts: seq<Act>, sess: S.Sess, latency: nat, i: nat, j: nat)
    requires IsPath(states, acts) && states[0] == Start(sess, latency) && i < j <= |acts| && acts[i] == Fail
    ensures Settled(states[j], states[i].text.log)
    decreases j - i
  {
    if i + 1 < j {
      FailureAnswersEverything(states, acts, sess, latency, i, j - 1);
      SettledStays(states[j - 1], acts[j - 1], states[j], states[i].text.log);
    } else {
      R.EveryRunIsSound(states, acts, sess, latency, i);
      FailureSettles(states[i], states[j]);
    }
  }

  /** Giving up on a pending message cancels its future and nothing else: it stays queued, so
      it is still written. */
  lemma GivenUpIsStillWritten(t: T.Text, id: nat)
    requires id < |t.futs| && t.futs[id].Pending?
    ensures var u := T.Next(t, T.GiveUp(id));
      && u.futs[id].Cancelled? && u.queue == t.queue && u.log == t.log && u.draft == t.draft
      && forall k :: 0 <= k < |t.futs| && k != id ==> u.futs[k] == t.futs[k]
  {}
}
