/** Requests to clear the buffer and the audio queued, counted over runs of the send loop:
    every request is served by one barge-in, and every byte queued is in the history. */
module ByteClockRequests {
  import opened Base
  import opened History
  import opened ByteClock
  import opened ByteClockPaths
  import A = ByteClockAudio
  import R = ByteClockRuns
  import S = Session

  // ---- requests

  /** The act adds a request to clear queue q. */
  ghost predicate Asks(s: State, a: Act, q: nat) {
    && a == Env(OnSession(S.RequestClear)) && q < |s.sess.clearQueues|
    && s.sess.hasLoop && s.sess.streamSid.Some? && s.sess.clearQueue == Some(q)
  }

  /** The act begins a barge-in for a request on q. */
  ghost predicate Serves(s: State, a: Act, q: nat) { a == BargeBegin && s.pc.Clears? && s.pc.queue == Some(q) }

  ghost function Count(p: bool): nat { if p then 1 else 0 }

  ghost function AskedSoFar(states: seq<State>, acts: seq<Act>, i: nat, q: nat): nat
    requires i <= |acts| < |states|
  {
    if i == 0 then 0 else AskedSoFar(states, acts, i - 1, q) + Count(Asks(states[i - 1], acts[i - 1], q))
  }

  ghost function ServedSoFar(states: seq<State>, acts: seq<Act>, i: nat, q: nat): nat
    requires i <= |acts| < |states|
  {
    if i == 0 then 0 else ServedSoFar(states, acts, i - 1, q) + Count(Serves(states[i - 1], acts[i - 1], q))
  }

  /** One act: a request more or one less, or none. */
  ghost predicate Balanced(s: State, a: Act, t: State, q: nat) {
    ClearsLeft(t.sess, Some(q)) + Count(Serves(s, a, q)) == ClearsLeft(s.sess, Some(q)) + Count(Asks(s, a, q))
  }

  lemma RequestsInStep(s: State, a: Act, t: State, q: nat)
    requires Steps(s, a, t)
    ensures Balanced(s, a, t, q)
  {
    if a.Env? && a.env.OnSession? {
      if a.env.act.RequestClear? {} else { SessionKeepsRequests(s.sess, a.env.act, q); }
    } else if !a.BargeBegin? {
      assert t.sess.clearQueues == s.sess.clearQueues;
    }
  }

  lemma SessionKeepsRequests(s: S.Sess, a: S.Act, q: nat)
    requires S.Enabled(s, a) && !a.RequestClear?
    ensures ClearsLeft(S.Next(s, a), Some(q)) == ClearsLeft(s, Some(q))
  {}

  lemma {:induction false} BalanceOfSteps(states: seq<State>, acts: seq<Act>, i: nat, q: nat)
    requires i <= |acts| < |states|
    requires forall k {:trigger acts[k]} :: 0 <= k < i ==> Balanced(states[k], acts[k], states[k + 1], q)
    ensures ClearsLeft(states[i].sess, Some(q)) + ServedSoFar(states, acts, i, q)
         == ClearsLeft(states[0].sess, Some(q)) + AskedSoFar(states, acts, i, q)
  {
    if i > 0 {
      var a := acts[i - 1];
      BalanceOfSteps(states, acts, i - 1, q);
      assert Balanced(states[i - 1], a, states[i], q);
    }
  }

  /** In every run: on each clear queue the requests still there and the barge-ins begun for
      it are together the requests there at first and those made since. */
  lemma EveryRequestServedOnce(states: seq<State>, acts: seq<Act>, i: nat, q: nat)
    requires IsPath(states, acts) && i <= |acts|
    ensures ClearsLeft(states[i].sess, Some(q)) + ServedSoFar(states, acts, i, q)
         == ClearsLeft(states[0].sess, Some(q)) + AskedSoFar(states, acts, i, q)
  {
    forall k {:trigger acts[k]} | 0 <= k < i ensures Balanced(states[k], acts[k], states[k + 1], q) {
      RequestsInStep(states[k], acts[k], states[k + 1], q);
    }
    BalanceOfSteps(states, acts, i, q);
  }

  ghost predicate InPass(s: State, queue: Option<nat>) {
    && (s.pc.Clears? ==> s.pc.queue == queue)
    && (s.pc.BargeAwait? ==> s.pc.queue == queue)
  }

  lemma PassStep(s: State, a: Act, t: State, queue: Option<nat>)
    requires Steps(s, a, t) && !a.Serve? && InPass(s, queue)
    ensures InPass(t, queue)
  {}

  lemma PassBegins(s: State, a: Act, t: State)
    requires Steps(s, a, t) && a.Serve?
    ensures InPass(t, s.sess.clearQueue)
  {}

  lemma {:induction false} PassKeepsQueue(states: seq<State>, acts: seq<Act>, i: nat, j: nat)
    requires IsPath(states, acts) && i < j <= |acts| && acts[i].Serve?
    requires forall k {:trigger acts[k]} :: i < k < j ==> !acts[k].Serve?
    ensures InPass(states[j], states[i].sess.clearQueue)
    decreases j - i
  {
    if i + 1 < j {
      PassKeepsQueue(states, acts, i, j - 1);
      PassStep(states[j - 1], acts[j - 1], states[j], states[i].sess.clearQueue);
    } else {
      PassBegins(states[i], acts[i], states[j]);
    }
  }

  /** A pass takes audio and marks only when the queue it found when it began is empty. */
  lemma PassServesAllRequests(states: seq<State>, acts: seq<Act>, i: nat, j: nat)
    requires IsPath(states, acts) && i < j < |acts| && acts[i].Serve? && acts[j] == Take
    requires forall k {:trigger acts[k]} :: i < k < j ==> !acts[k].Serve?
    ensures ClearsLeft(states[j].sess, states[i].sess.clearQueue) == 0
  {
    PassKeepsQueue(states, acts, i, j);
    assert Steps(states[j], acts[j], states[j + 1]);
  }

  // ---- audio

  ghost function Values(cells: seq<Cell>): (r: seq<byte>)
    ensures |r| == |cells|
  {
    seq(|cells|, k requires 0 <= k < |cells| => cells[k].value)
  }

  /** The bytes that an act queues. */
  ghost function Queues(s: State, a: Act): seq<byte> {
    if a.Env? && a.env.OnSession? && a.env.act.PutOutbound? && s.sess.hasLoop then a.env.act.data else []
  }

  ghost function QueuedSoFar(states: seq<State>, acts: seq<Act>, i: nat): seq<byte>
    requires i <= |acts| < |states|
  {
    if i == 0 then [] else QueuedSoFar(states, acts, i - 1) + Queues(states[i - 1], acts[i - 1])
  }

  lemma {:induction false} DiscardKeepsValues(cells: seq<Cell>, keep: nat)
    ensures Values(Discard(cells, keep)) == Values(cells)
  {
    DiscardKeepsFirst(cells, keep);
    if cells != [] {
      var k := if cells[0].live && keep > 0 then keep - 1 else if cells[0].live then 0 else keep;
      DiscardKeepsValues(cells[1..], k);
      assert Discard(cells, keep)[1..] == Discard(cells[1..], k);
      assert Values(Discard(cells, keep)) == [cells[0].value] + Values(Discard(cells[1..], k));
      assert Values(cells) == [cells[0].value] + Values(cells[1..]);
    }
  }

  /** An act adds what it queues; only a barge-in that begins and a reset discard. */
  ghost predicate Recorded(s: State, a: Act, t: State) {
    && Values(t.cells) == Values(s.cells) + Queues(s, a)
    && (a != BargeBegin && a != Env(OnSession(S.Reset)) ==> Live(t.cells) == Live(s.cells) + Queues(s, a))
  }

  lemma ArrivalRecorded(s: State, data: seq<byte>, t: State)
    requires Steps(s, Env(OnSession(S.PutOutbound(data))), t)
    ensures Recorded(s, Env(OnSession(S.PutOutbound(data))), t)
  {
    if s.sess.hasLoop {
      ArrivalAppends(s.cells, data);
      assert Values(s.cells + Arrived(data)) == Values(s.cells) + data;
    }
  }

  lemma OthersRecordNothing(s: State, a: Act, t: State)
    requires Steps(s, a, t) && a != BargeBegin && a != Env(OnSession(S.Reset))
    requires !(a.Env? && a.env.OnSession? && a.env.act.PutOutbound?)
    ensures t.cells == s.cells
  {}

  lemma CellsInStep(s: State, a: Act, t: State)
    requires Steps(s, a, t)
    ensures Recorded(s, a, t)
  {
    if a == BargeBegin {
      DiscardKeepsValues(s.cells, |s.wire| + |s.flight|);
    } else if a == Env(OnSession(S.Reset)) {
      DiscardKeepsValues(s.cells, |s.wire| + |s.flight| + |s.buffer|);
    } else if a.Env? && a.env.OnSession? && a.env.act.PutOutbound? {
      ArrivalRecorded(s, a.env.act.data, t);
    } else {
      OthersRecordNothing(s, a, t);
    }
  }

  lemma {:induction false} RecordOfSteps(states: seq<State>, acts: seq<Act>, i: nat)
    requires i <= |acts| < |states|
    requires forall k {:trigger acts[k]} :: 0 <= k < i ==> Recorded(states[k], acts[k], states[k + 1])
    ensures Values(states[i].cells) == Values(states[0].cells) + QueuedSoFar(states, acts, i)
  {
    if i > 0 {
      var a := acts[i - 1];
      RecordOfSteps(states, acts, i - 1);
      assert Recorded(states[i - 1], a, states[i]);
    }
  }

  /** In every run the history is the audio queued at first and all audio queued since, each
      byte once and in order. */
  lemma HistoryIsWhatWasQueued(states: seq<State>, acts: seq<Act>, sess: S.Sess, latency: nat, i: nat)
    requires IsPath(states, acts) && states[0] == Start(sess, latency) && i <= |acts|
    ensures Values(states[i].cells) == Concat(sess.outbound) + QueuedSoFar(states, acts, i)
  {
    forall k {:trigger acts[k]} | 0 <= k < i ensures Recorded(states[k], acts[k], states[k + 1]) {
      CellsInStep(states[k], acts[k], states[k + 1]);
    }
    RecordOfSteps(states, acts, i);
    assert Values(states[0].cells) == Concat(sess.outbound);
  }

  /** As long as no barge-in begins and nobody resets, nothing is discarded. */
  lemma {:induction false} NothingDiscarded(states: seq<State>, acts: seq<Act>, sess: S.Sess, latency: nat, i: nat)
    requires IsPath(states, acts) && states[0] == Start(sess, latency) && i <= |acts|
    requires forall k {:trigger acts[k]} :: 0 <= k < i ==> acts[k] != BargeBegin && acts[k] != Env(OnSession(S.Reset))
    ensures Live(states[i].cells) == Values(states[i].cells)
  {
    if i == 0 {
      LiveArrived(Concat(sess.outbound));
    } else {
      NothingDiscarded(states, acts, sess, latency, i - 1);
      CellsInStep(states[i - 1], acts[i - 1], states[i]);
    }
  }

  /** Then everything accepted by the socket is the first of what was queued. */
  lemma WireIsWhatWasQueued(states: seq<State>, acts: seq<Act>, sess: S.Sess, latency: nat, i: nat)
    requires IsPath(states, acts) && states[0] == Start(sess, latency) && i <= |acts|
    requires forall k {:trigger acts[k]} :: 0 <= k < i ==> acts[k] != BargeBegin && acts[k] != Env(OnSession(S.Reset))
    ensures states[i].wire <= Concat(sess.outbound) + QueuedSoFar(states, acts, i)
  {
    NothingDiscarded(states, acts, sess, latency, i);
    HistoryIsWhatWasQueued(states, acts, sess, latency, i);
    R.EveryRunIsSound(states, acts, sess, latency, i);
    assert A.Conserved(states[i]);
  }
}
