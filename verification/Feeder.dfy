/** The audio feeder of the ElevenLabs provider (`_feed_audio` in elevenlabs_stt.py): one
    loop over whatever the inbound queue delivers and however each send ends. */
module Feeder {
  import opened Base
  import opened Positions

  /** How a send ends; a cancel may hit the feeder inside it. */
  datatype Sending = Sent | Failed | CancelledInside

  /** One round of the loop: what was dequeued (None is the sentinel), whether the time
      limit had been signalled, how the send ended and, if it failed, whether the socket was
      being swapped at that moment and whether a cancel hit the pause that follows. */
  datatype Round = Round(
    frame: Option<seq<byte>>, timeLimit: bool, sending: Sending, swapping: bool, cancelledInPause: bool)

  datatype End = Sentinel | TimeLimit | Escalated | Cancelled

  const MAX_FAILURES: nat := 3

  /** The loop ends before sending in this round. */
  predicate Stops(r: Round) { r.frame.None? || r.timeLimit }

  predicate Succeeded(r: Round) { !Stops(r) && r.sending.Sent? }

  /** A cancel hits the send of this round, or the pause if it comes to that. */
  predicate CancelHits(r: Round) {
    !Stops(r) && (r.sending.CancelledInside? || (r.sending.Failed? && r.cancelledInPause))
  }

  /** A failed send that counts: no socket swap was under way. */
  predicate Strike(r: Round) { !Stops(r) && r.sending.Failed? && !r.swapping }

  /** The c-th round is the third counted failure with no success in between. */
  ghost predicate ThirdStrike(rounds: seq<Round>, c: int) {
    exists a, b :: 0 <= a < b < c < |rounds| && ThreeStrikes(rounds, a, b, c)
  }

  ghost predicate ThreeStrikes(rounds: seq<Round>, a: int, b: int, c: int)
    requires 0 <= a < b < c < |rounds|
  {
    && (forall k :: k in [a, b, c] ==>
          rounds[k].frame.Some? && !rounds[k].timeLimit && rounds[k].sending.Failed? && !rounds[k].swapping)
    && (forall k :: a <= k <= c && rounds[k].frame.Some? && !rounds[k].timeLimit ==> !rounds[k].sending.Sent?)
  }

  /** Counted failures since the last success among the first n rounds. */
  ghost function Strikes(rounds: seq<Round>, n: nat): nat
    requires n <= |rounds|
  {
    if n == 0 || Succeeded(rounds[n - 1]) then 0
    else Strikes(rounds, n - 1) + if Strike(rounds[n - 1]) then 1 else 0
  }

  /** Rounds a of which the count speaks: the latest `k` counted failures. */
  lemma {:induction false} LatestStrike(rounds: seq<Round>, n: nat) returns (a: nat)
    requires n <= |rounds| && Strikes(rounds, n) > 0
    ensures a < n && Strike(rounds[a]) && Strikes(rounds, a) == Strikes(rounds, n) - 1
    ensures forall k :: a <= k < n ==> !Succeeded(rounds[k])
    ensures forall k :: a < k < n ==> !Strike(rounds[k])
  {
    if Strike(rounds[n - 1]) {
      a := n - 1;
    } else {
      a := LatestStrike(rounds, n - 1);
    }
  }

  lemma {:induction false} StrikesGrow(rounds: seq<Round>, a: nat, n: nat)
    requires a <= n <= |rounds| && forall k :: a <= k < n ==> !Succeeded(rounds[k])
    ensures Strikes(rounds, n) >= Strikes(rounds, a)
    decreases n - a
  {
    if a < n { StrikesGrow(rounds, a, n - 1); }
  }

  /** The failure counter reaches three exactly at a third strike. */
  lemma CounterMeaning(rounds: seq<Round>, c: nat)
    requires c < |rounds| && Strike(rounds[c])
    ensures Strikes(rounds, c + 1) >= MAX_FAILURES <==> ThirdStrike(rounds, c)
  {
    if Strikes(rounds, c + 1) >= MAX_FAILURES {
      var b := LatestStrike(rounds, c);
      var a := LatestStrike(rounds, b);
      assert ThreeStrikes(rounds, a, b, c);
    }
    if ThirdStrike(rounds, c) {
      var a, b :| 0 <= a < b < c < |rounds| && ThreeStrikes(rounds, a, b, c);
      assert Strikes(rounds, a + 1) >= 1;
      StrikesGrow(rounds, a + 1, b);
      assert Strikes(rounds, b + 1) >= 2;
      StrikesGrow(rounds, b + 1, c);
    }
  }

  /** The frames accepted by the socket in the first n rounds, in order. */
  ghost function Accepted(rounds: seq<Round>, n: nat): seq<seq<byte>>
    requires n <= |rounds|
  {
    if n == 0 then []
    else Accepted(rounds, n - 1) + if Succeeded(rounds[n - 1]) then [rounds[n - 1].frame.value] else []
  }

  /** The loop is over after this round. */
  ghost predicate LastRound(rounds: seq<Round>, i: int)
    requires 0 <= i < |rounds|
  {
    Stops(rounds[i]) || CancelHits(rounds[i]) || ThirdStrike(rounds, i)
  }

  /** Feeds frames until the sentinel, the time limit, the third strike or a cancel, which
      may come while waiting for a frame, inside a send or in the pause after a failure.
      `used` rounds were run: the error callback fires exactly at a third strike, failures
      during a swap count for nothing, and the frames sent are those whose send succeeded,
      each once and in order, none after the loop ended. */
  method FeedAudio(rounds: seq<Round>) returns (sent: seq<seq<byte>>, errors: nat, end: End, used: nat)
    ensures used <= |rounds| && sent == Accepted(rounds, used)
    ensures forall i :: 0 <= i < used - 1 ==> !LastRound(rounds, i)
    ensures used < |rounds| ==> used > 0 && LastRound(rounds, used - 1)
    ensures end.Cancelled? <==>
              if used > 0 && LastRound(rounds, used - 1)
              then CancelHits(rounds[used - 1]) && !ThirdStrike(rounds, used - 1)
              else used == |rounds|
    ensures end.Escalated? <==> used > 0 && ThirdStrike(rounds, used - 1)
    ensures end.Sentinel? <==> used > 0 && rounds[used - 1].frame.None?
    ensures errors == if end.Escalated? then 1 else 0
  {
    sent, errors, used := [], 0, 0;
    var failures := 0;
    while used < |rounds|
      invariant used <= |rounds| && sent == Accepted(rounds, used) && errors == 0
      invariant failures == Strikes(rounds, used) < MAX_FAILURES
      invariant forall i :: 0 <= i < used ==> !LastRound(rounds, i)
    {
      var r := rounds[used];
      used := used + 1;
      NoStrikeNoThird(rounds, used - 1);
      if r.frame.None? { return sent, errors, Sentinel, used; }
      if r.timeLimit { return sent, errors, TimeLimit, used; }
      if r.sending.CancelledInside? { return sent, errors, Cancelled, used; }
      if r.sending.Sent? {
        sent := sent + [r.frame.value];
        failures := 0;
      } else {
        if !r.swapping {
          failures := failures + 1;
          CounterMeaning(rounds, used - 1);
          if failures >= MAX_FAILURES {
            errors := errors + 1;
            return sent, errors, Escalated, used;
          }
        }
        if r.cancelledInPause { return sent, errors, Cancelled, used; }
      }
    }
    end := Cancelled;
  }

  lemma NoStrikeNoThird(rounds: seq<Round>, c: nat)
    requires c < |rounds|
    ensures !Strike(rounds[c]) ==> !ThirdStrike(rounds, c)
  {}

  /** Which of the first n sends succeeded. */
  ghost function Successes(rounds: seq<Round>, n: nat): (r: seq<bool>)
    requires n <= |rounds|
    ensures |r| == n && forall k :: 0 <= k < n ==> (r[k] <==> Succeeded(rounds[k]))
  {
    seq(n, k requires 0 <= k < n => Succeeded(rounds[k]))
  }

  /** What was dequeued in the first n rounds. */
  ghost function Dequeued(rounds: seq<Round>, n: nat): (r: seq<Option<seq<byte>>>)
    requires n <= |rounds|
    ensures |r| == n && forall k :: 0 <= k < n ==> r[k] == rounds[k].frame
  {
    seq(n, k requires 0 <= k < n => rounds[k].frame)
  }

  ghost function Frames(sent: seq<seq<byte>>): (r: seq<Option<seq<byte>>>)
    ensures |r| == |sent| && forall i :: 0 <= i < |r| ==> r[i] == Some(sent[i])
  {
    seq(|sent|, i requires 0 <= i < |sent| => Some(sent[i]))
  }

  lemma FramesConcat(x: seq<seq<byte>>, y: seq<seq<byte>>)
    ensures Frames(x + y) == Frames(x) + Frames(y)
  {}

  /** The frames sent are those dequeued in the rounds whose send succeeded, each once and in
      order. */
  lemma {:induction false} AcceptedAreTheSuccesses(rounds: seq<Round>, n: nat) returns (at: seq<nat>)
    requires n <= |rounds|
    ensures Picked(Dequeued(rounds, n), Successes(rounds, n), at, Frames(Accepted(rounds, n)))
  {
    if n == 0 {
      at := [];
    } else {
      var before := AcceptedAreTheSuccesses(rounds, n - 1);
      var all, chosen := Dequeued(rounds, n), Successes(rounds, n);
      assert all[..n - 1] == Dequeued(rounds, n - 1) && chosen[..n - 1] == Successes(rounds, n - 1);
      PickedSnoc(all, chosen, before, Frames(Accepted(rounds, n - 1)));
      at := Snoced(before, n - 1, chosen[n - 1]);
      var last := if chosen[n - 1] then [rounds[n - 1].frame.value] else [];
      FramesConcat(Accepted(rounds, n - 1), last);
      assert Frames(last) == if chosen[n - 1] then [all[n - 1]] else [];
    }
  }

  // ---- draining stale frames before a reconnect

  /** What is left after the drain: everything behind the first sentinel and then the
      sentinel, which the drain takes off and puts back at the end; nothing if none. */
  function Drained(queue: seq<Option<seq<byte>>>): seq<Option<seq<byte>>> {
    if queue == [] then []
    else if queue[0].None? then queue[1..] + [None]
    else Drained(queue[1..])
  }

  /** The drain loop of `_reconnect_after_error`. */
  method DrainStale(queue: seq<Option<seq<byte>>>) returns (left: seq<Option<seq<byte>>>, drained: nat)
    ensures left == Drained(queue) && |left| + drained == |queue|
  {
    left, drained := queue, 0;
    while left != []
      invariant Drained(left) == Drained(queue) && |left| + drained == |queue|
    {
      var item := left[0];
      left := left[1..];
      if item.None? {
        left := left + [None];
        return;
      }
      drained := drained + 1;
    }
  }

  /** A drain drops frames only: whenever a sentinel was queued, one still is, at the end,
      and the frames that were behind it keep their order. */
  lemma {:induction false} DrainKeepsSentinel(queue: seq<Option<seq<byte>>>)
    ensures None in queue ==> Drained(queue) != [] && Drained(queue)[|Drained(queue)| - 1] == None
    ensures None !in queue ==> Drained(queue) == []
    ensures multiset(Drained(queue))[None] == multiset(queue)[None]
  {
    if queue != [] {
      assert queue == [queue[0]] + queue[1..];
      if queue[0].Some? {
        DrainKeepsSentinel(queue[1..]);
      }
    }
  }

  /** The frames behind the first sentinel stay, in order, and the sentinel comes last. */
  lemma {:induction false} DrainKeepsWhatIsBehind(before: seq<Option<seq<byte>>>, behind: seq<Option<seq<byte>>>)
    requires None !in before
    ensures Drained(before + [None] + behind) == behind + [None]
  {
    var queue := before + [None] + behind;
    if before == [] {
      assert queue[1..] == behind;
    } else {
      assert before[0] in before;
      assert queue[1..] == before[1..] + [None] + behind;
      DrainKeepsWhatIsBehind(before[1..], behind);
    }
  }
}
